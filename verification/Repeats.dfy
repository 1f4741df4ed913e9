/** Requests that are carried out again: the primary makes and copies the change, crashes before its answer
    arrives, and the retry comes to the backup, which has the change already. */
module Repeats {

  import opened Prelude
  import opened Servers
  import opened StoreSpec
  import opened Cluster
  import opened Protocol
  import opened LogReplication
  import opened Schedules
  import H = Hazards
  import U = UserLookup

  function ChildCall(parent: nat, y: Server, op: Op): Call
  {
    Call(op, y, Some(parent), parent, Start, 0)
  }

  /** The client's call waits for the next one, which is about to be added. */
  function Asking(s: State, x: Server, op: Op): State
  {
    WithCall(s.(next := s.next + 2), s.next, x, op, Forwarded(s.next + 1))
  }

  predicate Third(s: State, x: Server, op: Op)
  {
    x != OwnersOf(s.hash, op).primary && x != OwnersOf(s.hash, op).backup
  }

  lemma ArriveStep(s: State, m: nat, c: Call)
    requires c.at in s.live
    ensures
      var s1 := With(s, m, c, Travelling);
      Enabled(s1, Arrive(m)) && Do(s1, Arrive(m)) == With(s, m, c, Start)
  {
    Overwrite(s, m, c, Travelling, Start);
  }

  lemma RouteStep(s: State, x: Server, op: Op)
    requires x in s.live && Third(s, x, op)
    requires OwnersOf(s.hash, op).primary in s.live && (x, OwnersOf(s.hash, op).primary) !in s.suspects
    ensures
      var n := s.next;
      var s1 := WithCall(s.(next := n + 1), n, x, op, Routing);
      && Enabled(s1, Route(n))
      && Do(s1, Route(n)) == With(Asking(s, x, op), n + 1, ChildCall(n, OwnersOf(s.hash, op).primary, op), Travelling)
  {
    Overwrite(s.(next := s.next + 1), s.next, ClientCall(s.next, x, op), Routing, Forwarded(s.next + 1));
  }

  /** The forwarded call on the primary, in the given phase. */
  function Carried(s: State, x: Server, op: Op, ph: Phase): State
  {
    With(Asking(s, x, op), s.next + 1, ChildCall(s.next, OwnersOf(s.hash, op).primary, op), ph)
  }

  lemma RoutedRuns(s: State, x: Server, op: Op) returns (acts: seq<Action>)
    requires x in s.live && Third(s, x, op)
    requires OwnersOf(s.hash, op).primary in s.live && (x, OwnersOf(s.hash, op).primary) !in s.suspects
    ensures
      var s0 := WithCall(s.(next := s.next + 1), s.next, x, op, Routing);
      IsRun(s0, acts) && After(s0, acts) == Carried(s, x, op, Start)
  {
    var n := s.next;
    RouteStep(s, x, op);
    ArriveStep(Asking(s, x, op), n + 1, ChildCall(n, OwnersOf(s.hash, op).primary, op));
    One(Carried(s, x, op, Travelling), Arrive(n + 1));
    Prepend(WithCall(s.(next := n + 1), n, x, op, Routing), Route(n), [Arrive(n + 1)]);
    acts := [Route(n)] + [Arrive(n + 1)];
  }

  /** A client's call on the third server is forwarded to the primary. */
  lemma ForwardRuns(s: State, x: Server, op: Op) returns (acts: seq<Action>)
    requires x in s.live && Third(s, x, op)
    requires OwnersOf(s.hash, op).primary in s.live && (x, OwnersOf(s.hash, op).primary) !in s.suspects
    ensures IsRun(s, acts)
    ensures After(s, acts) == Carried(s, x, op, Start)
  {
    acts := H.StrayRuns(s, x, op);
    var more := RoutedRuns(s, x, op);
    Concatenate(s, acts, more);
    acts := acts + more;
  }

  lemma AskingKeeps(s: State, x: Server, op: Op, y: Server)
    requires Undisturbed(s, y, op)
    ensures Undisturbed(Asking(s, x, op), y, op)
  {
  }

  /** The primary makes the change and has it copied, but its answer is still to come. */
  lemma CarriedOutRuns(s: State, x: Server, op: Op, st: Store, r: Reply, m: Mirrored) returns (acts: seq<Action>)
    requires x in s.live && Third(s, x, op) && (x, OwnersOf(s.hash, op).primary) !in s.suspects
    requires Undisturbed(s, OwnersOf(s.hash, op).primary, op)
    requires Perform(s.stores[OwnersOf(s.hash, op).primary], op, true) == (st, r)
    requires Copyable(s, OwnersOf(s.hash, op).primary, op, r)
      && Mirror(s.stores[OwnersOf(s.hash, op).backup], op, r) == m
    ensures IsRun(s, acts)
    ensures
      var o := OwnersOf(s.hash, op);
      After(s, acts) == Carried(s.(stores := s.stores[o.primary := st][o.backup := m.store]), x, op, Acked(r, m.ack))
  {
    var o := OwnersOf(s.hash, op);
    var t := s.(stores := s.stores[o.primary := st]);
    acts := ForwardRuns(s, x, op);
    var more := ChangedPart(s, x, op, st, r);
    Concatenate(s, acts, more);
    acts := acts + more;
    more := CopiedPart(t, x, op, r, m);
    Concatenate(s, acts, more);
    acts := acts + more;
  }

  lemma ChangedPart(s: State, x: Server, op: Op, st: Store, r: Reply) returns (acts: seq<Action>)
    requires Undisturbed(s, OwnersOf(s.hash, op).primary, op)
    requires Perform(s.stores[OwnersOf(s.hash, op).primary], op, true) == (st, r)
    ensures
      var s0 := Carried(s, x, op, Start);
      && IsRun(s0, acts)
      && After(s0, acts) == Carried(s.(stores := s.stores[OwnersOf(s.hash, op).primary := st]), x, op, Performed(r))
  {
    var p := OwnersOf(s.hash, op).primary;
    AskingKeeps(s, x, op, p);
    acts := StartedRuns(Asking(s, x, op), s.next + 1, ChildCall(s.next, p, op));
  }

  lemma AskingStores(t: State, x: Server, op: Op, b: Server, st: Store)
    ensures Asking(t, x, op).(stores := t.stores[b := st]) == Asking(t.(stores := t.stores[b := st]), x, op)
  {
  }

  lemma AskingCopies(t: State, x: Server, op: Op, r: Reply)
    requires Copyable(t, OwnersOf(t.hash, op).primary, op, r)
    ensures Copyable(Asking(t, x, op), OwnersOf(t.hash, op).primary, op, r) && Asking(t, x, op).stores == t.stores
    ensures OwnersOf(Asking(t, x, op).hash, op) == OwnersOf(t.hash, op)
  {
  }

  lemma CopiedPart(t: State, x: Server, op: Op, r: Reply, m: Mirrored) returns (acts: seq<Action>)
    requires Copyable(t, OwnersOf(t.hash, op).primary, op, r)
    requires Mirror(t.stores[OwnersOf(t.hash, op).backup], op, r) == m
    ensures
      var s0 := Carried(t, x, op, Performed(r));
      var stores := t.stores[OwnersOf(t.hash, op).backup := m.store];
      && IsRun(s0, acts)
      && After(s0, acts) == Carried(t.(stores := stores), x, op, Acked(r, m.ack))
  {
    var o := OwnersOf(t.hash, op);
    AskingCopies(t, x, op, r);
    AskingStores(t, x, op, o.backup, m.store);
    CopiedRuns(Asking(t, x, op), t.next + 1, ChildCall(t.next, o.primary, op), r, m);
    acts := [Copy(t.next + 1)] + [Replicate(t.next + 1)];
  }

  /** The primary crashes, and x and the backup notice. */
  lemma NoticedRuns(s: State, p: Server, x: Server, b: Server) returns (acts: seq<Action>)
    requires p in s.live && x in s.live && b in s.live && p != x && p != b
    ensures IsRun(s, acts)
    ensures After(s, acts) == s.(live := s.live - {p}, suspects := s.suspects + {(x, p), (b, p)})
  {
    acts := H.LossRuns(s, x, p);
    One(After(s, acts), Suspect(b, p));
    Concatenate(s, acts, [Suspect(b, p)]);
    acts := acts + [Suspect(b, p)];
  }

  /** The waiting call after the retry, and the new forwarded one. */
  function Retried(s: State, n: nat, y: Server): State
    requires n in s.calls
  {
    var c := s.calls[n];
    s.(calls := s.calls[n := c.(phase := Forwarded(s.next), retries := c.retries + 1)]
                       [s.next := ChildCall(n, y, c.op)], next := s.next + 1)
  }

  /** The client's call gives up on the dead primary and is forwarded to the backup. */
  lemma RetryRuns(s: State, n: nat) returns (acts: seq<Action>)
    requires n in s.calls && s.calls[n].phase.Forwarded? && s.calls[n].phase.child in s.calls && s.next !in s.calls
    requires
      var c := s.calls[n];
      var o := OwnersOf(s.hash, c.op);
      && c.root == n && c.at in s.live && c.at != o.primary && c.at != o.backup && o.backup in s.live
      && s.calls[c.phase.child].at == o.primary && (c.at, o.primary) in s.suspects
    ensures IsRun(s, acts)
    ensures After(s, acts) == Retried(s, n, OwnersOf(s.hash, s.calls[n].op).backup)
  {
    var c := s.calls[n];
    var b := OwnersOf(s.hash, c.op).backup;
    var m := s.next;
    var again := c.(retries := c.retries + 1);
    var s1 := With(s, n, again, Start);
    var s2 := With(s, n, again, Routing);
    var s3 := With(s.(calls := s.calls[n := again.(phase := Forwarded(m))], next := m + 1),
                   m, ChildCall(n, b, c.op), Travelling);
    assert Do(s, Retry(n)) == s1;
    Overwrite(s, n, again, Start, Routing);
    assert Do(s1, Decide(n)) == s2;
    Overwrite(s, n, again, Routing, Forwarded(m));
    assert Do(s2, Route(n)) == s3;
    ArriveStep(s.(calls := s.calls[n := again.(phase := Forwarded(m))], next := m + 1), m, ChildCall(n, b, c.op));
    One(s3, Arrive(m));
    Prepend(s2, Route(n), [Arrive(m)]);
    Prepend(s1, Decide(n), [Route(n)] + [Arrive(m)]);
    Prepend(s, Retry(n), [Decide(n)] + ([Route(n)] + [Arrive(m)]));
    acts := [Retry(n)] + ([Decide(n)] + ([Route(n)] + [Arrive(m)]));
  }

  /** Everything up to the second forwarding: the change is on the backup, and the request on its way there. */
  function Second(s: State, x: Server, op: Op, st: Store, r: Reply, m: Mirrored): State
    requires m.Mirrored?
  {
    var o := OwnersOf(s.hash, op);
    var n := s.next;
    s.(live := s.live - {o.primary},
       suspects := s.suspects + {(x, o.primary), (o.backup, o.primary)},
       stores := s.stores[o.primary := st][o.backup := m.store],
       calls := s.calls[n := Call(op, x, None, n, Forwarded(n + 2), 1)]
                       [n + 1 := ChildCall(n, o.primary, op).(phase := Acked(r, m.ack))]
                       [n + 2 := ChildCall(n, o.backup, op)],
       next := n + 3)
  }

  /** What the retry starts from. */
  function Lost(s: State, x: Server, op: Op, r: Reply, m: Mirrored): State
    requires m.Mirrored?
  {
    var o := OwnersOf(s.hash, op);
    Carried(s, x, op, Acked(r, m.ack)).(
      live := s.live - {o.primary}, suspects := s.suspects + {(x, o.primary), (o.backup, o.primary)})
  }

  lemma RetriedEntries(calls: map<nat, Call>, n: nat, before: Call, after: Call, first: Call, second: Call)
    ensures calls[n := before][n + 1 := first][n := after][n + 2 := second]
      == calls[n := after][n + 1 := first][n + 2 := second]
  {
  }

  lemma LostRetried(s: State, x: Server, op: Op, st: Store, r: Reply, m: Mirrored)
    requires Third(s, x, op) && m.Mirrored?
    ensures
      var o := OwnersOf(s.hash, op);
      var t := Lost(s.(stores := s.stores[o.primary := st][o.backup := m.store]), x, op, r, m);
      s.next in t.calls && Retried(t, s.next, o.backup) == Second(s, x, op, st, r, m)
  {
    var o := OwnersOf(s.hash, op);
    var n := s.next;
    RetriedEntries(s.calls, n, Call(op, x, None, n, Forwarded(n + 1), 0), Call(op, x, None, n, Forwarded(n + 2), 1),
                   ChildCall(n, o.primary, op).(phase := Acked(r, m.ack)), ChildCall(n, o.backup, op));
  }

  lemma SecondRuns(s: State, x: Server, op: Op, st: Store, r: Reply, m: Mirrored) returns (acts: seq<Action>)
    requires x in s.live && Third(s, x, op) && (x, OwnersOf(s.hash, op).primary) !in s.suspects
    requires Undisturbed(s, OwnersOf(s.hash, op).primary, op)
    requires Perform(s.stores[OwnersOf(s.hash, op).primary], op, true) == (st, r)
    requires Copyable(s, OwnersOf(s.hash, op).primary, op, r)
      && Mirror(s.stores[OwnersOf(s.hash, op).backup], op, r) == m
    requires forall i :: i in s.calls ==> i < s.next
    ensures IsRun(s, acts) && After(s, acts) == Second(s, x, op, st, r, m)
  {
    var o := OwnersOf(s.hash, op);
    var u := s.(stores := s.stores[o.primary := st][o.backup := m.store]);
    acts := CarriedOutRuns(s, x, op, st, r, m);
    var more := NoticedRuns(After(s, acts), o.primary, x, o.backup);
    assert After(After(s, acts), more) == Lost(u, x, op, r, m);
    Concatenate(s, acts, more);
    acts := acts + more;
    more := LostRuns(u, x, op, r, m);
    LostRetried(s, x, op, st, r, m);
    Concatenate(s, acts, more);
    acts := acts + more;
  }

  lemma LostRuns(s: State, x: Server, op: Op, r: Reply, m: Mirrored) returns (acts: seq<Action>)
    requires Third(s, x, op) && m.Mirrored? && x in s.live && OwnersOf(s.hash, op).backup in s.live
    requires forall i :: i in s.calls ==> i < s.next
    ensures s.next in Lost(s, x, op, r, m).calls && IsRun(Lost(s, x, op, r, m), acts)
    ensures After(Lost(s, x, op, r, m), acts) == Retried(Lost(s, x, op, r, m), s.next, OwnersOf(s.hash, op).backup)
  {
    acts := RetryRuns(Lost(s, x, op, r, m), s.next);
  }

  /** The forwarded call's answer ends the client's call. */
  lemma AnswerRuns(s: State, n: nat, m: nat, c: Call, reply: Reply)
    requires n in s.calls && n != m && s.calls[n].at in s.live && s.calls[n].phase == Forwarded(m)
      && s.calls[n].parent.None?
    requires c.parent == Some(n)
    ensures
      var s1 := With(s, m, c, Replying(reply));
      && IsRun(s1, [Answer(m)])
      && After(s1, [Answer(m)])
         == s.(calls := s.calls[m := c.(phase := Done(reply))][n := s.calls[n].(phase := Done(reply))])
  {
    Overwrite(s, m, c, Replying(reply), Done(reply));
    One(With(s, m, c, Replying(reply)), Answer(m));
  }

  // ---------- a creation ----------

  /** A creation whose answer got lost is refused when it is run again: the client is told that the user
      exists, although nobody but this request has created him. */
  lemma CreationRefusedOnRetry(hash: string -> nat, user: string, x: Server) returns (acts: seq<Action>)
    requires user != [] && x != UserOwner(hash, user).primary && x != UserOwner(hash, user).backup
    ensures IsRun(Init(hash), acts)
    ensures
      var s := After(Init(hash), acts);
      && 0 in s.calls && s.calls[0].op == CreateUser(user) && s.calls[0].phase == Done(Rejected(DuplicateUser))
      && (forall k :: k in s.calls ==> s.calls[k].root == 0)
      && UserOwner(hash, user).backup in s.live && HasUser(s, UserOwner(hash, user).backup, user)
  {
    var o := UserOwner(hash, user);
    var op := CreateUser(user);
    var s := Init(hash);
    U.NobodyAtStart(hash, user);
    assert !HasUser(s, o.primary, user) && !HasUser(s, o.backup, user);
    var (st, r) := Perform(s.stores[o.primary], op, true);
    var m := Mirror(s.stores[o.backup], op, r);
    acts := SecondRuns(s, x, op, st, r, m);
    var more := CreatedAgainRuns(s, x, user, st, r, m);
    Concatenate(s, acts, more);
    acts := acts + more;
  }

  lemma CreatedAgainRuns(s: State, x: Server, user: string, st: Store, r: Reply, m: Mirrored)
      returns (acts: seq<Action>)
    requires m.Mirrored? && user != [] && user in m.store.users && s.poisoned == {} && s.calls == map[] && s.next == 0
    requires Third(s, x, CreateUser(user)) && x in s.live && UserOwner(s.hash, user).backup in s.live
    ensures
      var t := Second(s, x, CreateUser(user), st, r, m);
      && IsRun(t, acts)
      && var t' := After(t, acts);
         && 0 in t'.calls && t'.calls[0].op == CreateUser(user) && t'.calls[0].phase == Done(Rejected(DuplicateUser))
         && (forall k :: k in t'.calls ==> t'.calls[k].root == 0)
         && t'.hash == s.hash
         && UserOwner(s.hash, user).backup in t'.live && HasUser(t', UserOwner(s.hash, user).backup, user)
  {
    acts := DuplicateRuns(Second(s, x, CreateUser(user), st, r, m), 0, 2, user);
  }

  lemma DuplicateRuns(s: State, n: nat, m: nat, user: string) returns (acts: seq<Action>)
    requires n in s.calls && n != m && m in s.calls && user != []
    requires s.calls[n].at in s.live && s.calls[n].phase == Forwarded(m) && s.calls[n].parent.None?
    requires s.calls[m] == ChildCall(n, s.calls[m].at, CreateUser(user))
    requires
      var b := s.calls[m].at;
      && b in s.live && b !in s.poisoned && Authoritative(s, b, UserOwner(s.hash, user)) && HasUser(s, b, user)
    ensures IsRun(s, acts)
    ensures
      var r := Rejected(DuplicateUser);
      After(s, acts)
      == s.(calls := s.calls[m := s.calls[m].(phase := Done(r))][n := s.calls[n].(phase := Done(r))])
  {
    var c := s.calls[m];
    var r := Rejected(DuplicateUser);
    assert With(s, m, c, Start) == s;
    CheckSteps(s, m, c);
    var s3 := With(s, m, c, Checked(Asked));
    assert s3.stores[c.at].users == s.stores[c.at].users;
    assert s.(stores := s.stores[c.at := s.stores[c.at]]) == s;
    Overwrite(s, m, c, Checked(Asked), Replying(r));
    assert Do(s3, Change(m, true)) == With(s, m, c, Replying(r));
    AnswerRuns(s, n, m, c, r);
    Prepend(s3, Change(m, true), [Answer(m)]);
    Prepend(With(s, m, c, Authorised), Check(m), [Change(m, true)] + [Answer(m)]);
    Prepend(s, Decide(m), [Check(m)] + ([Change(m, true)] + [Answer(m)]));
    acts := [Decide(m)] + ([Check(m)] + ([Change(m, true)] + [Answer(m)]));
  }

  // ---------- a send ----------

  /** The request k has two calls that took numbers 0 and 1, and the message is stored under both on B. */
  predicate StoredTwice(s: State, k: nat, v: string, text: string)
  {
    var op := SendMessage(v, H.ROOM, text);
    && B in s.live
    && k in s.calls && s.calls[k].op == op && s.calls[k].parent.None?
         && s.calls[k].phase == Done(Sent(MessageId(H.ROOM, 1)))
    && k + 1 in s.calls && s.calls[k + 1].root == k && Holding(s.calls[k + 1].phase) == Some(Sent(MessageId(H.ROOM, 0)))
    && k + 2 in s.calls && s.calls[k + 2].root == k && s.calls[k + 2].phase == Done(Sent(MessageId(H.ROOM, 1)))
    && StoredAt(s, B, op, Sent(MessageId(H.ROOM, 0))) && StoredAt(s, B, op, Sent(MessageId(H.ROOM, 1)))
  }

  /** A send whose answer got lost is carried out twice: the surviving owner stores the message under two ids,
      and the client is told the second. */
  lemma SendStoredTwice(hash: string -> nat, u: string, v: string, text: string) returns (acts: seq<Action>, k: nat)
    requires u != v && u != [] && v != []
    ensures IsRun(Init(hash), acts) && StoredTwice(After(Init(hash), acts), k, v, text)
  {
    var both := H.Joined(H.Joined(EMPTY_CHANNEL, u), v);
    acts := H.MembersRuns(hash, u, v);
    U.InitLookups(hash);
    U.LookupRun(Init(hash), acts);
    var s := After(Init(hash), acts);
    k := s.next;
    var more := TwiceRuns(s, u, v, both, text);
    Concatenate(Init(hash), acts, more);
    acts := acts + more;
  }

  lemma TwiceRuns(s: State, u: string, v: string, c: Channel, text: string) returns (acts: seq<Action>)
    requires H.Rooms(s, u, v, c, c) && v in c.users && c.log == map[] && c.next == 0
    requires forall i :: i in s.calls ==> i < s.next
    ensures IsRun(s, acts) && StoredTwice(After(s, acts), s.next, v, text)
  {
    var op := SendMessage(v, H.ROOM, text);
    var (st, r) := Perform(s.stores[A], op, true);
    var m := Mirror(s.stores[B], op, r);
    FirstIsReady(s, u, v, c, text, st, r, m);
    acts := SecondRuns(s, C, op, st, r, m);
    SecondIsReady(s, u, v, c, text, st, r, m);
    var more := SecondHalf(s, v, text, c, st, r, m);
    Concatenate(s, acts, more);
    acts := acts + more;
  }

  lemma FirstIsReady(s: State, u: string, v: string, c: Channel, text: string, st: Store, r: Reply, m: Mirrored)
    requires H.Rooms(s, u, v, c, c) && v in c.users
    requires
      var op := SendMessage(v, H.ROOM, text);
      Perform(s.stores[A], op, true) == (st, r) && Mirror(s.stores[B], op, r) == m
    ensures
      var op := SendMessage(v, H.ROOM, text);
      OwnersOf(s.hash, op) == Owners(A, B) && Undisturbed(s, A, op) && Copyable(s, A, op, r)
  {
    H.RegisteredIsKnown(s, v);
  }

  lemma SecondHalf(s: State, v: string, text: string, c: Channel, st: Store, r: Reply, m: Mirrored)
      returns (acts: seq<Action>)
    requires m.Mirrored? && r == Sent(MessageId(H.ROOM, 0)) && m.ack == r && {B, C} <= s.live
    requires v in c.users && c.log == map[] && c.next == 0
    requires
      var op := SendMessage(v, H.ROOM, text);
      && OwnersOf(s.hash, op) == Owners(A, B)
      && Undisturbed(Second(s, C, op, st, r, m), B, op)
      && ChannelAt(m.store, H.ROOM) == SendOn(c, Message(v, text, MessageId(H.ROOM, 0)))
    ensures
      var t := Second(s, C, SendMessage(v, H.ROOM, text), st, r, m);
      IsRun(t, acts) && StoredTwice(After(t, acts), s.next, v, text)
  {
    acts := SecondSendRuns(Second(s, C, SendMessage(v, H.ROOM, text), st, r, m), s.next, s.next + 2, v, text);
    TwiceHolds(s, v, text, c, st, r, m);
  }

  lemma TwiceHolds(s: State, v: string, text: string, c: Channel, st: Store, r: Reply, m: Mirrored)
    requires m.Mirrored? && r == Sent(MessageId(H.ROOM, 0)) && m.ack == r && B in s.live
      && ChannelOwner(s.hash, H.ROOM) == Owners(A, B)
    requires v in c.users && c.log == map[] && c.next == 0
    requires
      var op := SendMessage(v, H.ROOM, text);
      ChannelAt(m.store, H.ROOM) == SendOn(c, Message(v, text, MessageId(H.ROOM, 0)))
    ensures
      var op := SendMessage(v, H.ROOM, text);
      var t := Second(s, C, op, st, r, m);
      var k := s.next;
      var (st', r') := Perform(t.stores[B], op, true);
      StoredTwice(
        t.(stores := t.stores[B := st'],
           calls := t.calls[k + 2 := t.calls[k + 2].(phase := Done(r'))][k := t.calls[k].(phase := Done(r'))]),
        k, v, text)
  {
  }

  /** On the backup the copied send can be carried out again. */
  lemma SecondIsReady(s: State, u: string, v: string, c: Channel, text: string, st: Store, r: Reply, m: Mirrored)
    requires H.Rooms(s, u, v, c, c) && v in c.users && c.log == map[] && c.next == 0
    requires
      var op := SendMessage(v, H.ROOM, text);
      Perform(s.stores[A], op, true) == (st, r) && Mirror(s.stores[B], op, r) == m
    ensures r == Sent(MessageId(H.ROOM, 0)) && m.Mirrored? && m.ack == r
    ensures
      var op := SendMessage(v, H.ROOM, text);
      var t := Second(s, C, op, st, r, m);
      && Undisturbed(t, B, op)
      && ChannelAt(t.stores[B], H.ROOM) == SendOn(c, Message(v, text, MessageId(H.ROOM, 0)))
      && Perform(t.stores[B], op, true).1 == Sent(MessageId(H.ROOM, 1))
  {
    var t := Second(s, C, SendMessage(v, H.ROOM, text), st, r, m);
    forall q: Server
      ensures q in t.live || q == A
    {
      match q case A => case B => case C =>
    }
    var o := UserOwner(s.hash, v);
    assert HasUser(t, o.primary, v) && HasUser(t, o.backup, v);
  }

  lemma SecondSendRuns(s: State, n: nat, m: nat, v: string, text: string) returns (acts: seq<Action>)
    requires n in s.calls && n != m && m in s.calls
    requires s.calls[n].at in s.live && s.calls[n].phase == Forwarded(m) && s.calls[n].parent.None?
    requires s.calls[m] == ChildCall(n, B, SendMessage(v, H.ROOM, text))
    requires Undisturbed(s, B, SendMessage(v, H.ROOM, text)) && ChannelOwner(s.hash, H.ROOM).backup == B
    ensures IsRun(s, acts)
    ensures
      var (st, r) := Perform(s.stores[B], SendMessage(v, H.ROOM, text), true);
      After(s, acts)
      == s.(stores := s.stores[B := st],
            calls := s.calls[m := s.calls[m].(phase := Done(r))][n := s.calls[n].(phase := Done(r))])
  {
    var c := s.calls[m];
    var (st, r) := Perform(s.stores[B], c.op, true);
    var t := s.(stores := s.stores[B := st]);
    assert With(s, m, c, Start) == s;
    acts := StartedRuns(s, m, c);
    AloneStep(t, m, c, r);
    One(With(t, m, c, Performed(r)), Copy(m));
    Concatenate(s, acts, [Copy(m)]);
    acts := acts + [Copy(m)];
    AnswerRuns(t, n, m, c, r);
    Concatenate(s, acts, [Answer(m)]);
    acts := acts + [Answer(m)];
  }
}
