/** Runs on which the unqualified promises fail: what the hypotheses of Failover and Membership rule out.
    The users of these runs have been created, and are looked up on the way. */
module Hazards {

  import opened Prelude
  import opened Servers
  import opened StoreSpec
  import opened Cluster
  import opened UserReplication
  import opened LogReplication
  import opened Failover
  import opened Forwarding
  import opened Schedules
  import U = UserLookup

  const ROOM := "#cs249"

  predicate Registered(s: State, user: string)
  {
    HasUser(s, UserOwner(s.hash, user).primary, user) && HasUser(s, UserOwner(s.hash, user).backup, user)
  }

  /** All servers are up, the users u and v are registered; c and d are the channel on its primary A and on
      its backup B. */
  predicate Rooms(s: State, u: string, v: string, c: Channel, d: Channel)
  {
    && s.live == {A, B, C} && s.suspects == {} && s.poisoned == {}
    && Registered(s, u) && Registered(s, v)
    && ROOM in s.stores[A].channels && s.stores[A].channels[ROOM] == c
    && ROOM in s.stores[B].channels && s.stores[B].channels[ROOM] == d
  }

  function Joined(c: Channel, user: string): Channel
  {
    c.(users := c.users + {user})
  }

  lemma RegisteredIsKnown(s: State, user: string)
    requires Registered(s, user) && s.live == {A, B, C} && s.poisoned == {} && s.suspects == {}
    ensures Known(s, user) && forall x: Server :: Attentive(s, x)
  {
    forall q: Server
      ensures q in s.live
    {
      match q case A => case B => case C =>
    }
  }

  /** A registered user stays known when A is lost and its backup B has marked it dead. */
  lemma KnownWithoutA(s: State, user: string)
    requires Registered(s, user) && s.live == {B, C} && s.poisoned == {} && s.suspects == {(B, A)}
    ensures Known(s, user) && Attentive(s, B)
  {
    forall q: Server
      ensures q in s.live || q == A
    {
      match q case A => case B => case C =>
    }
  }

  /** The creation of a user on its owners. */
  lemma RegistrationRuns(s: State, user: string) returns (acts: seq<Action>)
    requires s.live == {A, B, C} && s.suspects == {} && s.poisoned == {}
    requires user != [] && forall x: Server :: !HasUser(s, x, user)
    ensures IsRun(s, acts) && CrashFree(acts)
    ensures
      var t := After(s, acts);
      && t.hash == s.hash && t.live == s.live && t.suspects == s.suspects && t.poisoned == s.poisoned
      && Registered(t, user)
      && (forall x: Server, w :: w != user ==> (HasUser(t, x, w) <==> HasUser(s, x, w)))
      && (forall x: Server :: t.stores[x].channels == s.stores[x].channels)
  {
    var o := UserOwner(s.hash, user);
    var op := CreateUser(user);
    assert !HasUser(s, o.primary, user) && !HasUser(s, o.backup, user);
    var (st, r) := Perform(s.stores[o.primary], op, true);
    acts := WholeRuns(s, o.primary, op, st, r, Mirror(s.stores[o.backup], op, r));
  }

  /** Two users are created. */
  lemma SetupRuns(hash: string -> nat, u: string, v: string) returns (acts: seq<Action>)
    requires u != v && u != [] && v != []
    ensures IsRun(Init(hash), acts)
    ensures Rooms(After(Init(hash), acts), u, v, EMPTY_CHANNEL, EMPTY_CHANNEL)
  {
    var s := Init(hash);
    forall x: Server, w
      ensures !HasUser(s, x, w)
    {
      match x case A => case B => case C =>
    }
    acts := RegistrationRuns(s, u);
    var more := RegistrationRuns(After(s, acts), v);
    Concatenate(s, acts, more);
    acts := acts + more;
  }

  lemma JoinRuns(s: State, u: string, v: string, c: Channel, d: Channel, user: string) returns (acts: seq<Action>)
    requires Rooms(s, u, v, c, d) && (user == u || user == v) && user !in c.users && user !in d.users
    ensures IsRun(s, acts) && Rooms(After(s, acts), u, v, Joined(c, user), Joined(d, user))
  {
    var op := JoinChannel(user, ROOM);
    RegisteredIsKnown(s, user);
    var (st, r) := Perform(s.stores[A], op, true);
    acts := WholeRuns(s, A, op, st, r, Mirror(s.stores[B], op, r));
  }

  /** A send that the primary numbers and does not get to copy. */
  lemma UncopiedSendRuns(s: State, u: string, v: string, c: Channel, d: Channel, text: string)
      returns (acts: seq<Action>)
    requires Rooms(s, u, v, c, d) && u in c.users
    ensures IsRun(s, acts)
    ensures Rooms(After(s, acts), u, v, SendOn(c, Message(u, text, MessageId(ROOM, c.next))), d)
  {
    RegisteredIsKnown(s, u);
    acts := OpeningRuns(s, A, SendMessage(u, ROOM, text));
  }

  lemma SendRuns(s: State, u: string, v: string, c: Channel, d: Channel, text: string) returns (acts: seq<Action>)
    requires Rooms(s, u, v, c, d) && v in c.users
    ensures IsRun(s, acts)
    ensures
      var t := After(s, acts);
      var op := SendMessage(v, ROOM, text);
      var m := Message(v, text, MessageId(ROOM, c.next));
      && Rooms(t, u, v, SendOn(c, m), ReplicateSend(d, c.next, m))
      && t.next == s.next + 1
      && s.next in t.calls && t.calls[s.next] == Call(op, A, None, s.next, Done(Sent(m.id)), 0)
  {
    var op := SendMessage(v, ROOM, text);
    RegisteredIsKnown(s, v);
    var (st, r) := Perform(s.stores[A], op, true);
    acts := WholeRuns(s, A, op, st, r, Mirror(s.stores[B], op, r));
  }

  /** The primary crashes, the backup takes over and answers a send. */
  lemma TakeoverSendRuns(s: State, u: string, v: string, c: Channel, d: Channel, text: string)
      returns (acts: seq<Action>)
    requires Rooms(s, u, v, c, d) && v in d.users
    ensures IsRun(s, acts)
    ensures
      var t := After(s, acts);
      var op := SendMessage(v, ROOM, text);
      var m := Message(v, text, MessageId(ROOM, d.next));
      && t.live == {B, C}
      && ROOM in t.stores[B].channels && t.stores[B].channels[ROOM] == SendOn(d, m)
      && t.calls == s.calls[s.next := Call(op, B, None, s.next, Done(Sent(m.id)), 0)]
  {
    var op := SendMessage(v, ROOM, text);
    var xs := LossRuns(s, B, A);
    var s2 := After(s, xs);
    KnownWithoutA(s2, v);
    var (st, r) := Perform(s2.stores[B], op, true);
    var ys := ServedRuns(s2, B, op, st, r);
    Concatenate(s, xs, ys);
    acts := xs + ys;
  }

  /** A run of two registered users, each with one operation at a time: the first send is numbered 0 and not
      yet copied, the second is numbered 1, copied and acknowledged, and the primary crashes. The backup
      then counts one message, gives number 1 out again and drops the message it acknowledges. */
  lemma GapReissuesId(hash: string -> nat, u: string, v: string, t0: string, t1: string, t2: string)
    returns (acts: seq<Action>, i: nat, k: nat)
    requires u != v && u != [] && v != [] && t1 != t2
    ensures IsRun(Init(hash), acts)
    ensures
      var s := After(Init(hash), acts);
      && i != k && Acknowledged(s, i) && Acknowledged(s, k)
      && s.calls[i].phase.reply.id == s.calls[k].phase.reply.id
      && B in s.live && !StoredAt(s, B, s.calls[k].op, s.calls[k].phase.reply)
  {
    var both := Joined(Joined(EMPTY_CHANNEL, u), v);
    var m0, m1 := Message(u, t0, MessageId(ROOM, 0)), Message(v, t1, MessageId(ROOM, 1));
    var c, d := SendOn(SendOn(both, m0), m1), ReplicateSend(both, 1, m1);
    acts := MembersRuns(hash, u, v);
    var more;
    more, i := CrossedSendsRuns(After(Init(hash), acts), u, v, both, t0, t1);
    Concatenate(Init(hash), acts, more);
    acts := acts + more;
    k := After(Init(hash), acts).next;
    more := TakeoverSendRuns(After(Init(hash), acts), u, v, c, d, t2);
    Concatenate(Init(hash), acts, more);
    acts := acts + more;
  }

  /** Two users are created and join. */
  lemma MembersRuns(hash: string -> nat, u: string, v: string) returns (acts: seq<Action>)
    requires u != v && u != [] && v != []
    ensures IsRun(Init(hash), acts)
    ensures
      var both := Joined(Joined(EMPTY_CHANNEL, u), v);
      Rooms(After(Init(hash), acts), u, v, both, both)
  {
    var s := Init(hash);
    var one := Joined(EMPTY_CHANNEL, u);
    acts := SetupRuns(hash, u, v);
    var more := JoinRuns(After(s, acts), u, v, EMPTY_CHANNEL, EMPTY_CHANNEL, u);
    Concatenate(s, acts, more);
    acts := acts + more;
    more := JoinRuns(After(s, acts), u, v, one, one, v);
    Concatenate(s, acts, more);
    acts := acts + more;
  }

  /** u's send is numbered and not copied, v's next one is copied and acknowledged. */
  lemma CrossedSendsRuns(s: State, u: string, v: string, c: Channel, t0: string, t1: string)
    returns (acts: seq<Action>, i: nat)
    requires Rooms(s, u, v, c, c) && u in c.users && v in c.users && c.next == 0
    ensures IsRun(s, acts)
    ensures
      var t := After(s, acts);
      var m0, m1 := Message(u, t0, MessageId(ROOM, 0)), Message(v, t1, MessageId(ROOM, 1));
      && Rooms(t, u, v, SendOn(SendOn(c, m0), m1), ReplicateSend(c, 1, m1))
      && i < t.next
      && i in t.calls && t.calls[i] == Call(SendMessage(v, ROOM, t1), A, None, i, Done(Sent(m1.id)), 0)
  {
    var c' := SendOn(c, Message(u, t0, MessageId(ROOM, 0)));
    acts := UncopiedSendRuns(s, u, v, c, c, t0);
    i := After(s, acts).next;
    var more := SendRuns(After(s, acts), u, v, c', c, t1);
    Concatenate(s, acts, more);
    acts := acts + more;
  }

  /** A crash of q that x notices. */
  lemma LossRuns(s: State, x: Server, q: Server) returns (acts: seq<Action>)
    requires x in s.live && q in s.live && x != q
    ensures IsRun(s, acts)
    ensures After(s, acts) == s.(live := s.live - {q}, suspects := s.suspects + {(x, q)})
  {
    One(Do(s, Crash(q)), Suspect(x, q));
    Prepend(s, Crash(q), [Suspect(x, q)]);
    acts := [Crash(q)] + [Suspect(x, q)];
  }

  /** A client's call comes to the backup and is not found to be its own. */
  lemma StrayRuns(s: State, x: Server, op: Op) returns (acts: seq<Action>)
    requires x in s.live && !Authoritative(s, x, OwnersOf(s.hash, op))
    ensures IsRun(s, acts) && After(s, acts) == WithCall(s.(next := s.next + 1), s.next, x, op, Routing)
  {
    var t := s.(next := s.next + 1);
    var s1 := WithCall(t, s.next, x, op, Start);
    Overwrite(t, s.next, ClientCall(s.next, x, op), Start, Routing);
    One(s1, Decide(s.next));
    Prepend(s, Submit(x, op), [Decide(s.next)]);
    acts := [Submit(x, op)] + [Decide(s.next)];
  }

  /** For every username a run on which a creation panics: the primary is marked dead after the first read of
      its state and before the second. */
  lemma RouteCanPanic(hash: string -> nat, user: string) returns (acts: seq<Action>)
    ensures IsRun(Init(hash), acts)
    ensures
      var s := After(Init(hash), acts);
      0 in s.calls && s.calls[0].parent.None? && s.calls[0].op == CreateUser(user) && s.calls[0].phase.Panicked?
  {
    var o := UserOwner(hash, user);
    acts := StrayRuns(Init(hash), o.backup, CreateUser(user));
    var more := LossRuns(After(Init(hash), acts), o.backup, o.primary);
    Concatenate(Init(hash), acts, more);
    acts := acts + more;
    One(After(Init(hash), acts), Route(0));
    Concatenate(Init(hash), acts, [Route(0)]);
    acts := acts + [Route(0)];
  }

  /** Both owners of a key crash and the third server marks them dead: a request submitted there is doomed to
      be retried for ever, as DoomedForever shows. */
  lemma BothOwnersLostDooms(hash: string -> nat, op: Op, third: Server) returns (acts: seq<Action>)
    requires third != OwnersOf(hash, op).primary && third != OwnersOf(hash, op).backup
    ensures IsRun(Init(hash), acts)
    ensures
      var s := After(Init(hash), acts);
      0 in s.calls && s.calls[0].parent.None? && s.calls[0].op == op && Doomed(s, 0)
  {
    var o := OwnersOf(hash, op);
    acts := LossRuns(Init(hash), third, o.primary);
    var more := LossRuns(After(Init(hash), acts), third, o.backup);
    Concatenate(Init(hash), acts, more);
    acts := acts + more;
    One(After(Init(hash), acts), Submit(third, op));
    Concatenate(Init(hash), acts, [Submit(third, op)]);
    acts := acts + [Submit(third, op)];
  }

  /** For every username a join that panics on the primary of its own channel: the server is the user's backup,
      and the user's primary is marked dead between the two reads of the lookup. */
  lemma LookupCanPanic(hash: string -> nat, user: string) returns (acts: seq<Action>, channel: string)
    ensures IsRun(Init(hash), acts)
    ensures
      var s := After(Init(hash), acts);
      && 0 in s.calls && s.calls[0].parent.None? && s.calls[0].op == JoinChannel(user, channel)
      && s.calls[0].at == ChannelOwner(hash, channel).primary && s.calls[0].phase.Panicked?
  {
    var o := UserOwner(hash, user);
    var x := o.backup;
    channel := match x case A => "#cs249" case B => "#distributed" case C => "#systems";
    var op := JoinChannel(user, channel);
    var s := Init(hash);
    var t := s.(next := 1);
    var c := ClientCall(0, x, op);
    CheckSteps(t, 0, c);
    SeekStep(t, 0, c, Asked);
    One(WithCall(t, 0, x, op, Checked(Asked)), Seek(0));
    Prepend(WithCall(t, 0, x, op, Authorised), Check(0), [Seek(0)]);
    Prepend(WithCall(t, 0, x, op, Start), Decide(0), [Check(0)] + [Seek(0)]);
    Prepend(s, Submit(x, op), [Decide(0)] + ([Check(0)] + [Seek(0)]));
    acts := [Submit(x, op)] + ([Decide(0)] + ([Check(0)] + [Seek(0)]));
    var more := LossRuns(After(s, acts), x, o.primary);
    Concatenate(s, acts, more);
    acts := acts + more;
    One(After(s, acts), Seek(0));
    Concatenate(s, acts, [Seek(0)]);
    acts := acts + [Seek(0)];
  }

  lemma AnswerAtHome(s: State, at: Server, user: string)
    requires at in s.live && at !in s.poisoned && Authoritative(s, at, UserOwner(s.hash, user))
    ensures
      var acts := [U.Proceed, U.Proceed];
      && U.IsLookup(U.Begin(s, at, user), acts)
      && U.LookupAfter(U.Begin(s, at, user), acts).lookup == Told(HasUser(s, at, user))
  {
    var acts := [U.Proceed, U.Proceed];
    var l1 := U.Act(U.Begin(s, at, user), U.Proceed);
    assert acts[1..] == [U.Proceed] && [U.Proceed][1..] == [];
    assert U.IsLookup(l1, [U.Proceed]);
  }

  /** Without a grant an answer does not last: a creation that the primary has made and not yet copied is
      seen, and no longer seen after the primary's crash. */
  lemma AnswersCanRegress(hash: string -> nat, user: string) returns (acts: seq<Action>, later: seq<Action>)
    requires user != []
    ensures IsRun(Init(hash), acts) && IsRun(After(Init(hash), acts), later)
    ensures
      var o := UserOwner(hash, user);
      var s := After(Init(hash), acts);
      var t := After(s, later);
      var proceed := [U.Proceed, U.Proceed];
      && U.IsLookup(U.Begin(s, o.primary, user), proceed)
      && U.LookupAfter(U.Begin(s, o.primary, user), proceed).lookup == Told(true)
      && o.backup in t.live && U.IsLookup(U.Begin(t, o.backup, user), proceed)
      && U.LookupAfter(U.Begin(t, o.backup, user), proceed).lookup == Told(false)
  {
    var o := UserOwner(hash, user);
    U.NobodyAtStart(hash, user);
    acts := OpeningRuns(Init(hash), o.primary, CreateUser(user));
    var s := After(Init(hash), acts);
    assert HasUser(s, o.primary, user) && !HasUser(s, o.backup, user);
    AnswerAtHome(s, o.primary, user);
    later := LossRuns(s, o.backup, o.primary);
    AnswerAtHome(After(s, later), o.backup, user);
  }
}
