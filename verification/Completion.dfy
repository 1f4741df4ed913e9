/** How a request that can be answered is answered: a schedule without a crash, step by step, on which a
    rank of the call decreases. */
module Completion {

  import opened Prelude
  import opened Servers
  import opened StoreSpec
  import opened Cluster
  import opened Protocol
  import opened UserLookup
  import opened Schedules
  import opened Answers
  import C = Channels

  function Unmarked(s: State, x: Server, q: Server): nat
  {
    if (x, q) in s.suspects then 0 else 1
  }

  function Missing(s: State, op: Op): nat
  {
    if op.SendMessage? && !ChannelExists(s, ChannelOwner(s.hash, op.channel).backup, op.channel) then 1 else 0
  }

  /** The primary has crashed and x has not noticed. */
  predicate Unnoticed(s: State, x: Server, p: Server)
  {
    p !in s.live && (x, p) !in s.suspects
  }

  ghost function SeekRank(s: State, k: nat, x: Server, op: Op, l: Lookup): nat
  {
    var p := UserOwner(s.hash, op.user).primary;
    match l
    case Told(_) => 6
    case Heard(q, found) => if found ==> ChangeEnds(s, k, x, op) then 7 else 13 + Unmarked(s, x, q)
    case AtHome => 7
    case Waiting(q) => if q in s.live then 8 else 13 + Unmarked(s, x, q)
    case Away => if Unnoticed(s, x, p) then 16 else 9
    case Asked => if Unnoticed(s, x, p) then 12 else 11
    case Failed => 0
  }

  function StartRank(s: State, x: Server, o: Owners): nat
  {
    if Authoritative(s, x, o) then 20
    else if x == o.backup && o.primary !in s.live then 21
    else 26 + Unmarked(s, x, o.primary)
  }

  ghost function OwnRank(s: State, k: nat): nat
    requires k in s.calls
  {
    var c := s.calls[k];
    var o := OwnersOf(s.hash, c.op);
    match c.phase
    case Travelling => 1 + StartRank(s, c.at, o)
    case Start => StartRank(s, c.at, o)
    case Routing => if c.at == o.backup && o.primary !in s.live then 24 else 25 + Unmarked(s, c.at, o.primary)
    case Authorised => 18
    case Checked(l) => if c.op.CreateUser? then 6 else SeekRank(s, k, c.at, c.op, l)
    case Performed(_) =>
      if c.at == o.backup then 1
      else if o.backup !in s.live then 2 + Unmarked(s, c.at, o.backup)
      else 4 + Missing(s, c.op)
    case Replicating(_) =>
      if o.backup !in s.live then 2 + Unmarked(s, c.at, o.backup) else 3 + Missing(s, c.op)
    case Acked(_, _) => 1
    case Unanswered(_) => 2 + Unmarked(s, c.at, o.backup)
    case _ => 0
  }

  ghost function Rank(s: State, k: nat): nat
    decreases s.next - k
  {
    if k !in s.calls then 0
    else
      var c := s.calls[k];
      if c.phase.Forwarded? && k < c.phase.child < s.next && c.phase.child in s.calls then
        if CanFinish(s, c.phase.child) then 1 + Rank(s, c.phase.child)
        else 1 + StartRank(s, c.at, OwnersOf(s.hash, c.op)) + Unmarked(s, c.at, s.calls[c.phase.child].at)
      else OwnRank(s, k)
  }

  /** The calls that wait for k, directly or not, are left alone. */
  ghost predicate Spares(s: State, t: State, k: nat)
  {
    && t.hash == s.hash && t.live == s.live && s.next <= t.next
    && (forall i {:trigger SameEntry(s, t, i)} :: i in s.calls && i < k && s.calls[i].phase.Forwarded? ==>
          SameEntry(s, t, i))
  }

  ghost predicate Progresses(s: State, k: nat, acts: seq<Action>)
  {
    && IsRun(s, acts) && CrashFree(acts)
    && var t := After(s, acts);
       CanFinish(t, k) && Rank(t, k) < Rank(s, k) && Spares(s, t, k)
  }

  lemma {:induction false} SaneRun(s: State, acts: seq<Action>)
    requires Sane(s) && IsRun(s, acts)
    ensures Sane(After(s, acts))
    decreases |acts|
  {
    if acts != [] {
      SaneStep(s, acts[0]);
      SaneRun(Do(s, acts[0]), acts[1..]);
    }
  }

  /** A step of the call, or a mark. */
  lemma Single(s: State, k: nat, a: Action)
    requires Sane(s) && Enabled(s, a)
    requires a.Suspect? || (!a.Crash? && !a.Submit? && !a.Answer? && a.k == k)
    requires CanFinish(Do(s, a), k) && Rank(Do(s, a), k) < Rank(s, k)
    ensures Progresses(s, k, [a])
  {
    One(s, a);
  }

  // ---------- from the change on ----------

  lemma LateProgress(s: State, k: nat) returns (a: Action)
    requires Sane(s) && k in s.calls && CanFinish(s, k)
    requires Holding(s.calls[k].phase).Some?
    requires s.calls[k].phase.Replicating? && OwnersOf(s.hash, s.calls[k].op).backup in s.live ==>
      Missing(s, s.calls[k].op) == 0
    ensures Progresses(s, k, [a])
  {
    var c := s.calls[k];
    var b := OwnersOf(s.hash, c.op).backup;
    assert CallOk(s, k);
    a := if c.phase.Acked? then Confirm(k)
         else if c.phase.Performed? && (c.at == b || b in s.live || (c.at, b) in s.suspects) then Copy(k)
         else if c.phase.Replicating? && b in s.live then Replicate(k)
         else if (c.at, b) in s.suspects then Abandon(k)
         else Suspect(c.at, b);
    if a.Copy? { CopyStep(s, k); } else { LateStep(s, k, a); }
    Single(s, k, a);
  }

  lemma LateStep(s: State, k: nat, a: Action)
    requires Sane(s) && k in s.calls && CanFinish(s, k) && Holding(s.calls[k].phase).Some?
    requires
      var c := s.calls[k];
      var b := OwnersOf(s.hash, c.op).backup;
      || (a == Confirm(k) && c.phase.Acked?)
      || (a == Replicate(k) && c.phase.Replicating? && b in s.live && Missing(s, c.op) == 0)
      || (a == Abandon(k) && (c.phase.Replicating? || c.phase.Unanswered?) && b !in s.live && (c.at, b) in s.suspects)
      || (a == Suspect(c.at, b) && !c.phase.Acked? && c.at != b && b !in s.live && (c.at, b) !in s.suspects)
    ensures Enabled(s, a) && CanFinish(Do(s, a), k) && Rank(Do(s, a), k) < Rank(s, k)
  {
    assert CallOk(s, k);
  }

  /** What can bring the channel to the backup still can when another call has moved on from its change. */
  lemma BringStays(s: State, k: nat, ph: Phase, channel: string)
    requires k in s.calls && Holding(s.calls[k].phase).Some? && CanBring(s, channel) && s.calls[k].op.SendMessage?
    ensures CanBring(Move(s, k, ph), channel)
  {
    var t := Move(s, k, ph);
    var p := ChannelOwner(s.hash, channel).primary;
    if j :| JoinToCopy(s, j, channel) {
      assert JoinToCopy(t, j, channel);
    } else if v :| CanLookUp(s, v) {
      assert CanLookUp(t, v);
    } else {
      var j :| JoinReady(s, j, p, channel);
      forall i | ReadyFor(s, i, p, LeaveChannel(s.calls[j].op.user, channel))
        ensures ReadyFor(t, i, p, LeaveChannel(s.calls[j].op.user, channel))
      {
      }
      assert ReadyFor(t, j, p, JoinChannel(s.calls[j].op.user, channel));
      assert JoinReady(t, j, p, channel);
    }
  }

  lemma CopyStep(s: State, k: nat)
    requires Sane(s) && k in s.calls && CanFinish(s, k) && s.calls[k].phase.Performed?
    requires
      var c := s.calls[k];
      var b := OwnersOf(s.hash, c.op).backup;
      c.at == b || b in s.live || (c.at, b) in s.suspects
    ensures Enabled(s, Copy(k))
    ensures CanFinish(Do(s, Copy(k)), k) && Rank(Do(s, Copy(k)), k) < Rank(s, k)
  {
    var s' := Do(s, Copy(k));
    var c := s.calls[k];
    assert CallOk(s, k);
    if s'.calls[k].phase.Replicating? && c.op.SendMessage? {
      if CanBring(s, c.op.channel) { BringStays(s, k, s'.calls[k].phase, c.op.channel); }
    }
  }

  // ---------- the copy of a send whose channel the backup lacks ----------

  /** The channel has come to the backup, and nothing else that matters to the send has changed. */
  ghost predicate BringsChannel(s: State, t: State, k: nat, channel: string)
  {
    && t.live == s.live && t.hash == s.hash && t.poisoned == s.poisoned && s.next <= t.next
    && ChannelExists(t, ChannelOwner(s.hash, channel).backup, channel)
    && (forall i {:trigger SameEntry(s, t, i)} ::
          i == k || (i in s.calls && s.calls[i].phase.Forwarded?) ==> SameEntry(s, t, i))
  }

  /** Nothing has changed that the arrival of the channel depends on. */
  ghost predicate Waits(s: State, t: State, k: nat)
  {
    && t.live == s.live && t.hash == s.hash && t.poisoned == s.poisoned && s.next <= t.next
    && (forall i {:trigger SameEntry(s, t, i)} ::
          i == k || (i in s.calls && s.calls[i].phase.Forwarded?) ==> SameEntry(s, t, i))
  }

  lemma Relay(s: State, t: State, u: State, k: nat, channel: string)
    requires Waits(s, t, k) && BringsChannel(t, u, k, channel) && k in s.calls
    ensures BringsChannel(s, u, k, channel)
  {
    forall i | i == k || (i in s.calls && s.calls[i].phase.Forwarded?)
      ensures SameEntry(s, u, i)
    {
      assert SameEntry(s, t, i);
      assert SameEntry(t, u, i);
    }
  }

  predicate BothSound(s: State, channel: string)
  {
    var o := ChannelOwner(s.hash, channel);
    o.primary in s.live && o.primary !in s.poisoned && o.backup in s.live && o.backup !in s.poisoned
  }

  /** A join that the primary has accepted is copied. */
  lemma PendingJoinRuns(s: State, k: nat, channel: string, j: nat) returns (acts: seq<Action>)
    requires Sane(s) && k in s.calls && s.calls[k].op.SendMessage? && JoinToCopy(s, j, channel)
    requires
      var o := ChannelOwner(s.hash, channel);
      o.primary in s.live && o.backup in s.live && o.backup !in s.poisoned
    ensures IsRun(s, acts) && CrashFree(acts)
    ensures BringsChannel(s, After(s, acts), k, channel)
  {
    assert CallOk(s, j) && C.ChannelCall(s, j);
    assert ChannelExists(s, s.calls[j].at, channel);
    if s.calls[j].phase.Replicating? {
      One(s, Replicate(j));
      acts := [Replicate(j)];
    } else {
      One(Do(s, Copy(j)), Replicate(j));
      Prepend(s, Copy(j), [Replicate(j)]);
      acts := [Copy(j)] + [Replicate(j)];
    }
  }

  /** A call on x whose lookup has found its user makes its change, which is accepted. */
  lemma ReadyRuns(s: State, i: nat, x: Server, op: Op) returns (acts: seq<Action>)
    requires Sane(s) && ReadyFor(s, i, x, op) && x in s.live && x !in s.poisoned
    requires !Perform(s.stores[x], op, true).1.Rejected?
    ensures IsRun(s, acts) && CrashFree(acts)
    ensures
      var t := After(s, acts);
      var (st, r) := Perform(s.stores[x], op, true);
      && t == s.(stores := s.stores[x := st], calls := s.calls[i := s.calls[i].(phase := Performed(r))])
  {
    var c := s.calls[i];
    if c.phase.lookup.Told? {
      One(s, Change(i, true));
      acts := [Change(i, true)];
    } else {
      var s1 := Do(s, Seek(i));
      assert s1 == s.(calls := s.calls[i := c.(phase := Checked(Told(true)))]);
      One(s1, Change(i, true));
      Prepend(s, Seek(i), [Change(i, true)]);
      acts := [Seek(i)] + [Change(i, true)];
      assert s1.calls[i := c.(phase := Performed(Perform(s.stores[x], op, true).1))]
             == s.calls[i := c.(phase := Performed(Perform(s.stores[x], op, true).1))];
    }
  }

  /** A user who can be looked up leaves, if he is a member, and joins; nothing of it is copied yet. */
  lemma RejoinRuns(s: State, k: nat, channel: string, v: string) returns (acts: seq<Action>, j: nat)
    requires Sane(s) && k in s.calls && ValidName(channel) && BothSound(s, channel)
    requires Known(s, v) && Attentive(s, ChannelOwner(s.hash, channel).primary)
    ensures IsRun(s, acts) && CrashFree(acts)
    ensures Waits(s, After(s, acts), k) && JoinToCopy(After(s, acts), j, channel)
  {
    var p := ChannelOwner(s.hash, channel).primary;
    acts := [];
    if v in ChannelAt(s.stores[p], channel).users {
      acts := OpeningRuns(s, p, LeaveChannel(v, channel));
      KnownStays(s, After(s, acts), p, v);
    }
    var s1 := After(s, acts);
    j := s1.next;
    var more := OpeningRuns(s1, p, JoinChannel(v, channel));
    Concatenate(s, acts, more);
    acts := acts + more;
  }

  lemma AcquaintedJoinRuns(s: State, k: nat, channel: string, v: string) returns (acts: seq<Action>, j: nat)
    requires Sane(s) && k in s.calls && ValidName(channel) && BothSound(s, channel) && CanLookUp(s, v)
    ensures IsRun(s, acts) && CrashFree(acts)
    ensures Waits(s, After(s, acts), k) && JoinToCopy(After(s, acts), j, channel)
  {
    acts := AcquaintanceRuns(s, ChannelOwner(s.hash, channel).primary, v);
    var t := After(s, acts);
    assert SameEntry(s, t, k);
    SaneRun(s, acts);
    var more;
    more, j := RejoinRuns(t, k, channel, v);
    Concatenate(s, acts, more);
    WaitsTwice(s, t, After(t, more), k);
    acts := acts + more;
  }

  lemma WaitsTwice(s: State, t: State, u: State, k: nat)
    requires Waits(s, t, k) && Waits(t, u, k) && k in s.calls
    ensures Waits(s, u, k)
  {
    forall i | i == k || (i in s.calls && s.calls[i].phase.Forwarded?)
      ensures SameEntry(s, u, i)
    {
      assert SameEntry(s, t, i);
      assert SameEntry(t, u, i);
    }
  }

  /** A join in flight makes its change, after a leave in flight if it takes one. */
  lemma ReadyJoinRuns(s: State, k: nat, channel: string, j: nat) returns (acts: seq<Action>)
    requires Sane(s) && k in s.calls && s.calls[k].op.SendMessage? && ValidName(channel) && BothSound(s, channel)
    requires JoinReady(s, j, ChannelOwner(s.hash, channel).primary, channel)
    ensures IsRun(s, acts) && CrashFree(acts)
    ensures Waits(s, After(s, acts), k) && JoinToCopy(After(s, acts), j, channel)
  {
    var p := ChannelOwner(s.hash, channel).primary;
    var v := s.calls[j].op.user;
    acts := [];
    if v in ChannelAt(s.stores[p], channel).users {
      var i :| ReadyFor(s, i, p, LeaveChannel(v, channel));
      acts := ReadyRuns(s, i, p, LeaveChannel(v, channel));
      SaneRun(s, acts);
    }
    var more := ReadyRuns(After(s, acts), j, p, JoinChannel(v, channel));
    Concatenate(s, acts, more);
    acts := acts + more;
  }

  lemma ChannelRuns(s: State, k: nat) returns (acts: seq<Action>)
    requires Sane(s) && k in s.calls && s.calls[k].op.SendMessage? && s.calls[k].phase.Replicating?
      && s.calls[k].at in s.live
    requires CopyGetsThrough(s, s.calls[k].op)
    requires
      var b := OwnersOf(s.hash, s.calls[k].op).backup;
      b in s.live && !ChannelExists(s, b, s.calls[k].op.channel)
    ensures IsRun(s, acts) && CrashFree(acts)
    ensures BringsChannel(s, After(s, acts), k, s.calls[k].op.channel)
  {
    var channel := s.calls[k].op.channel;
    assert CallOk(s, k) && C.ChannelCall(s, k);
    assert ChannelExists(s, s.calls[k].at, channel);
    if j :| JoinToCopy(s, j, channel) {
      acts := PendingJoinRuns(s, k, channel, j);
    } else {
      var j;
      if v :| CanLookUp(s, v) {
        acts, j := AcquaintedJoinRuns(s, k, channel, v);
      } else {
        j :| JoinReady(s, j, ChannelOwner(s.hash, channel).primary, channel);
        acts := ReadyJoinRuns(s, k, channel, j);
      }
      var t := After(s, acts);
      SaneRun(s, acts);
      assert SameEntry(s, t, k);
      var more := PendingJoinRuns(t, k, channel, j);
      Concatenate(s, acts, more);
      Relay(s, t, After(t, more), k, channel);
      acts := acts + more;
    }
  }

  lemma ChannelProgress(s: State, k: nat) returns (acts: seq<Action>)
    requires Sane(s) && k in s.calls && s.calls[k].op.SendMessage? && s.calls[k].phase.Replicating?
      && s.calls[k].at in s.live
    requires CanFinish(s, k)
    requires
      var b := OwnersOf(s.hash, s.calls[k].op).backup;
      b in s.live && !ChannelExists(s, b, s.calls[k].op.channel)
    ensures Progresses(s, k, acts)
  {
    acts := ChannelRuns(s, k);
    assert SameEntry(s, After(s, acts), k);
  }

  // ---------- the change ----------

  lemma SpoilerSpoils(st: Store, op: Op)
    requires !Perform(st, op, true).1.Rejected? && Precheck(st, op).None?
    ensures Precheck(st, Spoiler(op)).None? && !Perform(st, Spoiler(op), true).1.Rejected?
    ensures Perform(Perform(st, Spoiler(op), true).0, op, true).1.Rejected?
  {
  }

  lemma SameChannels(st: Store, st': Store, op: Op)
    requires st'.channels == st.channels && !op.CreateUser?
    ensures Precheck(st', op) == Precheck(st, op) && Perform(st', op, true).1 == Perform(st, op, true).1
  {
  }

  lemma CheckedPasses(s: State, k: nat)
    requires Sane(s) && k in s.calls && s.calls[k].phase.Checked?
    ensures Precheck(s.stores[s.calls[k].at], s.calls[k].op).None?
  {
    assert C.ChannelCall(s, k);
    var c := s.calls[k];
    assert c.op.LeaveChannel? || c.op.SendMessage? ==> ChannelExists(s, c.at, c.op.channel);
  }

  /** Call k, left alone, would now be refused. */
  ghost predicate Spoilt(s: State, t: State, k: nat)
    requires k in s.calls
  {
    && Waits(s, t, k) && Perform(t.stores[s.calls[k].at], s.calls[k].op, true).1.Rejected?
  }

  predicate Spoilworthy(s: State, k: nat)
  {
    && k in s.calls && s.calls[k].phase.Checked? && s.calls[k].at in s.live && s.calls[k].at !in s.poisoned
    && !Perform(s.stores[s.calls[k].at], s.calls[k].op, true).1.Rejected?
  }

  /** The same user does it first. */
  lemma TwinRuns(s: State, k: nat) returns (acts: seq<Action>)
    requires Sane(s) && Spoilworthy(s, k)
    requires
      var c := s.calls[k];
      c.op.CreateUser? || (Known(s, c.op.user) && Attentive(s, c.at))
    ensures IsRun(s, acts) && CrashFree(acts) && Spoilt(s, After(s, acts), k)
  {
    var c := s.calls[k];
    assert CallOk(s, k);
    CheckedPasses(s, k);
    SpoilerSpoils(s.stores[c.at], c.op);
    acts := OpeningRuns(s, c.at, Spoiler(c.op));
  }

  lemma AcquaintedTwinRuns(s: State, k: nat) returns (acts: seq<Action>)
    requires Sane(s) && Spoilworthy(s, k) && !s.calls[k].op.CreateUser? && CanLookUp(s, s.calls[k].op.user)
    ensures IsRun(s, acts) && CrashFree(acts) && Spoilt(s, After(s, acts), k)
  {
    var c := s.calls[k];
    acts := AcquaintanceRuns(s, c.at, c.op.user);
    var t := After(s, acts);
    SaneRun(s, acts);
    assert SameEntry(s, t, k);
    SameChannels(s.stores[c.at], t.stores[c.at], c.op);
    var more := TwinRuns(t, k);
    Concatenate(s, acts, more);
    WaitsTwice(s, t, After(t, more), k);
    acts := acts + more;
  }

  lemma SpoilerCallRuns(s: State, k: nat, i: nat) returns (acts: seq<Action>)
    requires Sane(s) && Spoilworthy(s, k) && i != k && ReadyFor(s, i, s.calls[k].at, Spoiler(s.calls[k].op))
    ensures IsRun(s, acts) && CrashFree(acts) && Spoilt(s, After(s, acts), k)
  {
    var c := s.calls[k];
    CheckedPasses(s, k);
    SpoilerSpoils(s.stores[c.at], c.op);
    acts := ReadyRuns(s, i, c.at, Spoiler(c.op));
  }

  lemma SpoilRuns(s: State, k: nat) returns (acts: seq<Action>)
    requires Sane(s) && Spoilworthy(s, k) && s.calls[k].op.user != []
    requires Spoilable(s, k, s.calls[k].at, s.calls[k].op)
    ensures IsRun(s, acts) && CrashFree(acts) && Spoilt(s, After(s, acts), k)
  {
    var c := s.calls[k];
    if c.op.CreateUser? {
      acts := TwinRuns(s, k);
    } else if LookupOpen(s, c.op.user) {
      acts := AcquaintedTwinRuns(s, k);
    } else {
      var i :| i != k && ReadyFor(s, i, c.at, Spoiler(c.op));
      acts := SpoilerCallRuns(s, k, i);
    }
  }

  lemma RefusedIsOver(s: State, k: nat, found: bool)
    requires Enabled(s, Change(k, found))
    requires s.calls[k].at in s.poisoned ==> !ChangeLocks(s.calls[k].op, found)
    requires Perform(s.stores[s.calls[k].at], s.calls[k].op, found).1.Rejected?
    ensures k in Do(s, Change(k, found)).calls && Over(Do(s, Change(k, found)).calls[k].phase)
  {
  }

  lemma ChangeSpares(s: State, k: nat, found: bool)
    requires Enabled(s, Change(k, found))
    ensures Spares(s, Do(s, Change(k, found)), k)
  {
  }

  lemma RefusedEnds(s: State, k: nat, found: bool)
    requires Enabled(s, Change(k, found))
    requires s.calls[k].at in s.poisoned ==> !ChangeLocks(s.calls[k].op, found)
    requires Perform(s.stores[s.calls[k].at], s.calls[k].op, found).1.Rejected?
    ensures
      var t := Do(s, Change(k, found));
      CanFinish(t, k) && Rank(t, k) == 0 && Spares(s, t, k)
  {
    RefusedIsOver(s, k, found);
    ChangeSpares(s, k, found);
    OverRank(Do(s, Change(k, found)), k);
  }

  /** The call is refused after it has been spoilt. */
  lemma SpoiledProgress(s: State, k: nat) returns (acts: seq<Action>)
    requires Sane(s) && Spoilworthy(s, k) && s.calls[k].op.user != []
    requires Enabled(s, Change(k, true)) && Spoilable(s, k, s.calls[k].at, s.calls[k].op)
    ensures Progresses(s, k, acts)
  {
    var c := s.calls[k];
    acts := SpoilRuns(s, k);
    var t := After(s, acts);
    SaneRun(s, acts);
    assert SameEntry(s, t, k);
    RefusedEnds(t, k, true);
    One(t, Change(k, true));
    Concatenate(s, acts, [Change(k, true)]);
    RankOfChecked(s, k);
    SparesTwice(s, t, Do(t, Change(k, true)), k);
    acts := acts + [Change(k, true)];
  }

  lemma RankOfChecked(s: State, k: nat)
    requires k in s.calls && Enabled(s, Change(k, true))
    ensures Rank(s, k) == 6
  {
  }

  lemma SparesTwice(s: State, t: State, u: State, k: nat)
    requires Waits(s, t, k) && Spares(t, u, k)
    ensures Spares(s, u, k)
  {
    forall i | i in s.calls && i < k && s.calls[i].phase.Forwarded?
      ensures SameEntry(s, u, i)
    {
      assert SameEntry(s, t, i) && SameEntry(t, u, i);
    }
  }

  lemma UnlockedIsRefused(st: Store, op: Op, found: bool)
    requires !ChangeLocks(op, found)
    ensures Perform(st, op, found).1.Rejected?
  {
  }

  /** A user who was found has a name. */
  lemma FoundIsNamed(s: State, k: nat)
    requires Sane(s) && k in s.calls && s.calls[k].phase.Checked?
    requires s.calls[k].op.CreateUser? || s.calls[k].phase.lookup == Told(true)
    ensures s.calls[k].op.user != []
  {
    assert Named(s, k) && LookupFits(s, k);
    var o := UserOwner(s.hash, s.calls[k].op.user);
    assert !HasUser(s, o.primary, []) && !HasUser(s, o.backup, []);
  }

  lemma AcceptedStep(s: State, k: nat)
    requires Sane(s) && Enabled(s, Change(k, true)) && s.calls[k].at !in s.poisoned
    requires !Perform(s.stores[s.calls[k].at], s.calls[k].op, true).1.Rejected?
    requires
      var c := s.calls[k];
      var b := OwnersOf(s.hash, c.op).backup;
      c.at == b || b !in s.live || (CopyGetsThrough(s, c.op) && !c.op.SendMessage?)
    ensures CanFinish(Do(s, Change(k, true)), k) && Rank(Do(s, Change(k, true)), k) < Rank(s, k)
  {
    assert CallOk(s, k);
    RankOfChecked(s, k);
  }

  /** The change of an operation whose user is found. */
  lemma ChangeProgress(s: State, k: nat) returns (acts: seq<Action>)
    requires Sane(s) && Enabled(s, Change(k, true)) && CanFinish(s, k)
    ensures Progresses(s, k, acts)
  {
    var c := s.calls[k];
    var b := OwnersOf(s.hash, c.op).backup;
    FoundIsNamed(s, k);
    acts := [Change(k, true)];
    if Perform(s.stores[c.at], c.op, true).1.Rejected? || !ChangeLocks(c.op, true) {
      if !ChangeLocks(c.op, true) { UnlockedIsRefused(s.stores[c.at], c.op, true); }
      RankOfChecked(s, k);
      One(s, Change(k, true));
      RefusedEnds(s, k, true);
    } else if Spoilable(s, k, c.at, c.op) {
      acts := SpoiledProgress(s, k);
    } else {
      SendOrNot(s, k);
      Single(s, k, Change(k, true));
    }
  }

  lemma SendOrNot(s: State, k: nat)
    requires Sane(s) && Enabled(s, Change(k, true)) && s.calls[k].at !in s.poisoned
    requires !Perform(s.stores[s.calls[k].at], s.calls[k].op, true).1.Rejected?
    requires
      var c := s.calls[k];
      var b := OwnersOf(s.hash, c.op).backup;
      c.at == b || b !in s.live || CopyGetsThrough(s, c.op)
    ensures CanFinish(Do(s, Change(k, true)), k) && Rank(Do(s, Change(k, true)), k) < Rank(s, k)
  {
    var c := s.calls[k];
    if c.at == OwnersOf(s.hash, c.op).backup || OwnersOf(s.hash, c.op).backup !in s.live || !c.op.SendMessage? {
      AcceptedStep(s, k);
    } else {
      SentStep(s, k);
    }
  }

  /** A send changes nothing that its own copy depends on. */
  lemma SentStep(s: State, k: nat)
    requires Sane(s) && Enabled(s, Change(k, true)) && s.calls[k].at !in s.poisoned && s.calls[k].op.SendMessage?
    requires !Perform(s.stores[s.calls[k].at], s.calls[k].op, true).1.Rejected?
    requires s.calls[k].at != OwnersOf(s.hash, s.calls[k].op).backup && CopyGetsThrough(s, s.calls[k].op)
    ensures CanFinish(Do(s, Change(k, true)), k) && Rank(Do(s, Change(k, true)), k) < Rank(s, k)
  {
    var t := Do(s, Change(k, true));
    var c := s.calls[k];
    assert CallOk(s, k);
    RankOfChecked(s, k);
    if CanBring(s, c.op.channel) { BringOutlivesSend(s, k); }
  }

  lemma BringOutlivesSend(s: State, k: nat)
    requires Enabled(s, Change(k, true)) && s.calls[k].op.SendMessage? && CanBring(s, s.calls[k].op.channel)
    requires s.calls[k].at !in s.poisoned
    ensures CanBring(Do(s, Change(k, true)), s.calls[k].op.channel)
  {
    var t := Do(s, Change(k, true));
    var channel := s.calls[k].op.channel;
    var p := ChannelOwner(s.hash, channel).primary;
    if j :| JoinToCopy(s, j, channel) {
      assert JoinToCopy(t, j, channel);
    } else if v :| CanLookUp(s, v) {
      assert CanLookUp(t, v);
    } else {
      var j :| JoinReady(s, j, p, channel);
      ReadyOutlivesSend(s, k, j, p, channel);
    }
  }

  lemma ReadyOutlivesSend(s: State, k: nat, j: nat, p: Server, channel: string)
    requires Enabled(s, Change(k, true)) && s.calls[k].op.SendMessage? && JoinReady(s, j, p, channel)
    ensures JoinReady(Do(s, Change(k, true)), j, p, channel)
  {
    var t := Do(s, Change(k, true));
    var v := s.calls[j].op.user;
    assert v in ChannelAt(t.stores[p], channel).users <==> v in ChannelAt(s.stores[p], channel).users;
    if i :| ReadyFor(s, i, p, LeaveChannel(v, channel)) {
      assert ReadyFor(t, i, p, LeaveChannel(v, channel));
    }
  }

  // ---------- the lookup ----------

  /** While a lookup is answered, the change of an operation whose user it finds leads to an answer. */
  lemma HelpedEnds(s: State, k: nat, x: Server, op: Op)
    requires LookupHelps(s, x, op) && HasUser(s, UserServer(s, op.user), op.user)
    ensures ChangeEnds(s, k, x, op)
  {
    if x in s.poisoned {
      assert !ChangeLocks(op, true);
    } else {
      assert Spoilable(s, k, x, op);
    }
  }

  /** The lookup is on its way, and the server it waits for is alive. */
  predicate OnItsWay(s: State, k: nat)
    requires k in s.calls && Seeking(s.calls[k])
  {
    var c := s.calls[k];
    match c.phase.lookup
    case AtHome => true
    case Away => true
    case Waiting(q) => q in s.live
    case Asked => !Unnoticed(s, c.at, UserOwner(s.hash, c.op.user).primary)
    case _ => false
  }

  lemma SeekEnabled(s: State, k: nat)
    requires Sane(s) && k in s.calls && Seeking(s.calls[k]) && CanFinish(s, k) && OnItsWay(s, k)
    ensures Enabled(s, Seek(k)) && LookupHelps(s, s.calls[k].at, s.calls[k].op)
    ensures !Sought(s, s.calls[k].at, s.calls[k].op.user, s.calls[k].phase.lookup).Failed?
  {
    var c := s.calls[k];
    assert CallOk(s, k) && LookupFits(s, k);
    LookupServer(s, c.at, c.op.user, c.phase.lookup);
  }

  /** The step of a lookup on its way. */
  lemma SeekOpens(s: State, k: nat)
    requires Sane(s) && k in s.calls && Seeking(s.calls[k]) && CanFinish(s, k) && OnItsWay(s, k)
    ensures Enabled(s, Seek(k)) && CanFinish(Do(s, Seek(k)), k) && Rank(Do(s, Seek(k)), k) < Rank(s, k)
  {
    SeekEnabled(s, k);
    var s' := Do(s, Seek(k));
    var c := s.calls[k];
    var l := c.phase.lookup;
    assert LookupFits(s, k);
    LookupServer(s, c.at, c.op.user, l);
    assert LookupHelps(s', c.at, c.op);
    if (l.AtHome? || l.Waiting?) && HasUser(s, UserServer(s, c.op.user), c.op.user) {
      HelpedEnds(s', k, c.at, c.op);
    }
  }

  /** Hearing an answer changes nothing that the change depends on. */
  lemma HearingStays(s: State, k: nat)
    requires k in s.calls && Seeking(s.calls[k]) && s.calls[k].phase.lookup.Heard?
    requires ChangeEnds(s, k, s.calls[k].at, s.calls[k].op)
    ensures ChangeEnds(Move(s, k, Checked(Told(s.calls[k].phase.lookup.found))), k, s.calls[k].at, s.calls[k].op)
  {
    var c := s.calls[k];
    var t := Move(s, k, Checked(Told(c.phase.lookup.found)));
    forall i, x: Server, op | ReadyFor(s, i, x, op)
      ensures ReadyFor(t, i, x, op)
    {
    }
    if CopyGetsThrough(s, c.op) && c.op.SendMessage? && CanBring(s, c.op.channel) {
      HearingBrings(s, t, c.op.channel);
    }
  }

  lemma HearingBrings(s: State, t: State, channel: string)
    requires t.hash == s.hash && t.live == s.live && t.poisoned == s.poisoned && t.stores == s.stores
    requires forall i, x: Server, op {:trigger ReadyFor(s, i, x, op)} :: ReadyFor(s, i, x, op) ==> ReadyFor(t, i, x, op)
    requires forall j {:trigger JoinToCopy(s, j, channel)} :: JoinToCopy(s, j, channel) ==> JoinToCopy(t, j, channel)
    requires CanBring(s, channel)
    ensures CanBring(t, channel)
  {
    var p := ChannelOwner(s.hash, channel).primary;
    if j :| JoinToCopy(s, j, channel) {
      assert JoinToCopy(t, j, channel);
    } else if v :| CanLookUp(s, v) {
      assert CanLookUp(t, v);
    } else {
      var j :| JoinReady(s, j, p, channel);
      var v := s.calls[j].op.user;
      assert ReadyFor(t, j, p, JoinChannel(v, channel));
      if i :| ReadyFor(s, i, p, LeaveChannel(v, channel)) {
        assert ReadyFor(t, i, p, LeaveChannel(v, channel));
      }
      assert JoinReady(t, j, p, channel);
    }
  }

  lemma HearStep(s: State, k: nat)
    requires Sane(s) && k in s.calls && Seeking(s.calls[k]) && CanFinish(s, k) && s.calls[k].phase.lookup.Heard?
    requires s.calls[k].phase.lookup.found ==> ChangeEnds(s, k, s.calls[k].at, s.calls[k].op)
    ensures Enabled(s, Seek(k)) && CanFinish(Do(s, Seek(k)), k) && Rank(Do(s, Seek(k)), k) < Rank(s, k)
  {
    if s.calls[k].phase.lookup.found { HearingStays(s, k); }
  }

  /** The server asked has crashed: it is marked, and the question is asked again. */
  lemma RepeatProgress(s: State, k: nat) returns (a: Action)
    requires Sane(s) && k in s.calls && Seeking(s.calls[k]) && CanFinish(s, k)
    requires
      var c := s.calls[k];
      var l := c.phase.lookup;
      && (l.Waiting? || l.Heard?) && l.q !in s.live
      && (l.Heard? ==> l.found && !ChangeEnds(s, k, c.at, c.op))
    ensures Progresses(s, k, [a])
  {
    var c := s.calls[k];
    var q := c.phase.lookup.q;
    if (c.at, q) in s.suspects {
      a := SeekAgain(k);
    } else {
      a := Suspect(c.at, q);
    }
    assert LookupHelps(Do(s, a), c.at, c.op);
    Single(s, k, a);
  }

  lemma LookupProgress(s: State, k: nat) returns (acts: seq<Action>)
    requires Sane(s) && k in s.calls && Seeking(s.calls[k]) && CanFinish(s, k)
    ensures Progresses(s, k, acts)
  {
    var c := s.calls[k];
    var l := c.phase.lookup;
    var p := UserOwner(s.hash, c.op.user).primary;
    if l.Told? {
      acts := ToldProgress(s, k);
    } else if l.Heard? && (l.found ==> ChangeEnds(s, k, c.at, c.op)) {
      HearStep(s, k);
      Single(s, k, Seek(k));
      acts := [Seek(k)];
    } else if l.Heard? || (l.Waiting? && l.q !in s.live) {
      var a := RepeatProgress(s, k);
      acts := [a];
    } else if l.Asked? && Unnoticed(s, c.at, p) {
      assert LookupHelps(Do(s, Suspect(c.at, p)), c.at, c.op);
      Single(s, k, Suspect(c.at, p));
      acts := [Suspect(c.at, p)];
    } else {
      SeekOpens(s, k);
      Single(s, k, Seek(k));
      acts := [Seek(k)];
    }
  }

  lemma ToldProgress(s: State, k: nat) returns (acts: seq<Action>)
    requires Sane(s) && k in s.calls && Seeking(s.calls[k]) && CanFinish(s, k) && s.calls[k].phase.lookup.Told?
    ensures Progresses(s, k, acts)
  {
    if s.calls[k].phase.lookup.found {
      acts := ChangeProgress(s, k);
    } else {
      UnlockedIsRefused(s.stores[s.calls[k].at], s.calls[k].op, false);
      RefusedEnds(s, k, false);
      Single(s, k, Change(k, false));
      acts := [Change(k, false)];
    }
  }

  // ---------- up to the first checks ----------

  lemma EarlyProgress(s: State, k: nat) returns (a: Action)
    requires Sane(s) && k in s.calls && CanFinish(s, k)
    requires s.calls[k].phase.Travelling? || s.calls[k].phase.Start? || s.calls[k].phase.Authorised?
    ensures Progresses(s, k, [a])
  {
    var c := s.calls[k];
    var o := OwnersOf(s.hash, c.op);
    if c.phase.Travelling? {
      a := Arrive(k);
    } else if c.phase.Authorised? {
      a := Check(k);
      CheckOpens(s, k);
    } else if c.at == o.backup && o.primary !in s.live && (c.at, o.primary) !in s.suspects {
      a := Suspect(c.at, o.primary);
    } else {
      a := Decide(k);
      DecideOpens(s, k);
    }
    Single(s, k, a);
  }

  lemma CheckOpens(s: State, k: nat)
    requires Sane(s) && k in s.calls && CanFinish(s, k) && s.calls[k].phase.Authorised?
    ensures Enabled(s, Check(k)) && CanFinish(Do(s, Check(k)), k) && Rank(Do(s, Check(k)), k) < Rank(s, k)
  {
  }

  lemma DecideOpens(s: State, k: nat)
    requires Sane(s) && k in s.calls && CanFinish(s, k) && s.calls[k].phase.Start?
    requires
      var o := OwnersOf(s.hash, s.calls[k].op);
      s.calls[k].at == o.backup && o.primary !in s.live ==> (s.calls[k].at, o.primary) in s.suspects
    ensures Enabled(s, Decide(k)) && CanFinish(Do(s, Decide(k)), k) && Rank(Do(s, Decide(k)), k) < Rank(s, k)
  {
  }

  lemma RouteProgress(s: State, k: nat) returns (a: Action)
    requires Sane(s) && k in s.calls && CanFinish(s, k) && s.calls[k].phase.Routing?
    ensures Progresses(s, k, [a])
  {
    var c := s.calls[k];
    var o := OwnersOf(s.hash, c.op);
    assert CallOk(s, k);
    if c.at != o.backup && Unnoticed(s, c.at, o.primary) {
      a := Suspect(c.at, o.primary);
    } else {
      a := Route(k);
      RouteOpens(s, k);
    }
    Single(s, k, a);
  }

  /** The forwarded call has a path, or the server it goes to is dead and another attempt has. */
  lemma RouteOpens(s: State, k: nat)
    requires Sane(s) && k in s.calls && CanFinish(s, k) && s.calls[k].phase.Routing?
    requires
      var o := OwnersOf(s.hash, s.calls[k].op);
      s.calls[k].at == o.backup || !Unnoticed(s, s.calls[k].at, o.primary)
    ensures Enabled(s, Route(k)) && CanFinish(Do(s, Route(k)), k) && Rank(Do(s, Route(k)), k) < Rank(s, k)
  {
    var s' := Do(s, Route(k));
    var c := s.calls[k];
    assert CallOk(s, k) && s.next !in s.calls;
    assert OwnerPath(s', c.op);
    var child := s'.calls[s.next];
    assert CanFinish(s', s.next) <==> child.at in s.live;
  }

  // ---------- waiting ----------

  lemma AnswerStep(s: State, ch: nat, k: nat)
    requires Enabled(s, Answer(ch)) && s.calls[ch].parent == Some(k) && k < ch && s.next !in s.calls
    ensures
      var t := Do(s, Answer(ch));
      && k in t.calls && Over(t.calls[k].phase) && Spares(s, t, k)
  {
    var t := Do(s, Answer(ch));
    forall i | i in s.calls && i < k
      ensures SameEntry(s, t, i)
    {
    }
  }

  lemma OverRank(t: State, k: nat)
    requires k in t.calls && Over(t.calls[k].phase)
    ensures CanFinish(t, k) && Rank(t, k) == 0
  {
  }

  lemma WaitingRank(s: State, k: nat)
    requires k in s.calls && s.calls[k].phase.Forwarded? && CanFinish(s, k)
    ensures Rank(s, k) > 0
  {
  }

  lemma AnswerProgress(s: State, k: nat)
    requires Sane(s) && k in s.calls && s.calls[k].phase.Forwarded? && CanFinish(s, k)
    requires Over(s.calls[s.calls[k].phase.child].phase)
    ensures Progresses(s, k, [Answer(s.calls[k].phase.child)])
  {
    var ch := s.calls[k].phase.child;
    assert CallOk(s, k) && CallOk(s, ch) && C.Awaited(s, k);
    One(s, Answer(ch));
    AnswerStep(s, ch, k);
    OverRank(Do(s, Answer(ch)), k);
    WaitingRank(s, k);
  }

  lemma RetryProgress(s: State, k: nat) returns (a: Action)
    requires Sane(s) && k in s.calls && s.calls[k].phase.Forwarded? && CanFinish(s, k)
    requires !CanFinish(s, s.calls[k].phase.child)
    ensures Progresses(s, k, [a])
  {
    var c := s.calls[k];
    var ch := c.phase.child;
    assert CallOk(s, k) && CallOk(s, ch);
    if (c.at, s.calls[ch].at) in s.suspects {
      a := Retry(k);
    } else {
      a := Suspect(c.at, s.calls[ch].at);
      StepLost(s, a, ch);
    }
    Single(s, k, a);
  }

  lemma {:induction false} Progress(s: State, k: nat) returns (acts: seq<Action>)
    requires Sane(s) && k in s.calls && CanFinish(s, k) && !Over(s.calls[k].phase)
    ensures Progresses(s, k, acts)
    decreases s.next - k
  {
    var c := s.calls[k];
    if c.phase.Forwarded? {
      acts := WaitingProgress(s, k);
    } else if c.phase.Checked? {
      if c.op.CreateUser? {
        acts := ChangeProgress(s, k);
      } else {
        acts := LookupProgress(s, k);
      }
    } else if c.phase.Routing? {
      var a := RouteProgress(s, k);
      acts := [a];
    } else if Holding(c.phase).None? {
      var a := EarlyProgress(s, k);
      acts := [a];
    } else if c.phase.Replicating? && OwnersOf(s.hash, c.op).backup in s.live && Missing(s, c.op) == 1 {
      acts := ChannelProgress(s, k);
    } else {
      var a := LateProgress(s, k);
      acts := [a];
    }
  }

  lemma {:induction false} WaitingProgress(s: State, k: nat) returns (acts: seq<Action>)
    requires Sane(s) && k in s.calls && CanFinish(s, k) && s.calls[k].phase.Forwarded?
    ensures Progresses(s, k, acts)
    decreases s.next - k, 0
  {
    var ch := s.calls[k].phase.child;
    assert CallOk(s, k) && CallOk(s, ch);
    if !CanFinish(s, ch) {
      var a := RetryProgress(s, k);
      acts := [a];
    } else if Over(s.calls[ch].phase) {
      AnswerProgress(s, k);
      acts := [Answer(ch)];
    } else {
      acts := Progress(s, ch);
      Passes(s, k, acts);
    }
  }

  /** Progress of the call waited for is progress. */
  lemma Passes(s: State, k: nat, acts: seq<Action>)
    requires Sane(s) && k in s.calls && s.calls[k].phase.Forwarded? && CanFinish(s, k)
    requires CanFinish(s, s.calls[k].phase.child) && Progresses(s, s.calls[k].phase.child, acts)
    ensures Progresses(s, k, acts)
  {
    var t := After(s, acts);
    var ch := s.calls[k].phase.child;
    assert CallOk(s, k) && CallOk(s, ch);
    assert SameEntry(s, t, k);
    SaneRun(s, acts);
    assert CanFinish(t, ch) && ch in t.calls && ch < t.next;
    forall i | i in s.calls && i < k && s.calls[i].phase.Forwarded?
      ensures SameEntry(s, t, i)
    {
    }
  }

  lemma {:induction false} CompletionRuns(s: State, k: nat) returns (acts: seq<Action>)
    requires Sane(s) && k in s.calls && CanFinish(s, k)
    ensures IsRun(s, acts) && CrashFree(acts) && k in After(s, acts).calls && Over(After(s, acts).calls[k].phase)
    decreases Rank(s, k)
  {
    if Over(s.calls[k].phase) {
      acts := [];
    } else {
      acts := Progress(s, k);
      var t := After(s, acts);
      CallsStay(s, acts, k);
      SaneRun(s, acts);
      var more := CompletionRuns(t, k);
      Concatenate(s, acts, more);
      acts := acts + more;
    }
  }

  /** Some continuation without a crash answers the client. */
  ghost predicate Answerable(s: State, k: nat)
  {
    exists acts :: IsRun(s, acts) && CrashFree(acts) && k in After(s, acts).calls && After(s, acts).calls[k].phase.Done?
  }

  lemma InitSane(hash: string -> nat, acts: seq<Action>)
    requires IsRun(Init(hash), acts)
    ensures Sane(After(Init(hash), acts))
  {
    C.InitChannels(hash);
    InitLookups(hash);
    SaneRun(Init(hash), acts);
  }

  /** In every reachable state, for every client request: some continuation without a crash answers it if
      and only if CanFinish holds. */
  lemma AnswerableIff(hash: string -> nat, acts: seq<Action>, k: nat)
    requires IsRun(Init(hash), acts)
    requires k in After(Init(hash), acts).calls && After(Init(hash), acts).calls[k].parent.None?
    ensures
      var s := After(Init(hash), acts);
      Answerable(s, k) <==> CanFinish(s, k)
  {
    var s := After(Init(hash), acts);
    InitSane(hash, acts);
    if CanFinish(s, k) {
      var rest := CompletionRuns(s, k);
      SaneRun(s, rest);
      CallsStay(s, rest, k);
      assert CallOk(After(s, rest), k);
    } else {
      forall rest | IsRun(s, rest) && CrashFree(rest)
        ensures k in After(s, rest).calls && !After(s, rest).calls[k].phase.Done?
      {
        RunLost(s, rest, k);
      }
    }
  }

  lemma FreshCanFinish(s: State, x: Server, op: Op)
    requires Enabled(s, Submit(x, op)) && s.poisoned == {} && |{A, B, C} - s.live| <= 1
    ensures CanFinish(Do(s, Submit(x, op)), s.next)
  {
    var t := Do(s, Submit(x, op));
    OwnersLive(s, OwnersOf(s.hash, op));
    OwnersLive(s, UserOwner(s.hash, op.user));
    assert OwnerPath(t, op);
  }

  /** While no lock is poisoned and one server at most has crashed, every new request at a live server can be
      answered. */
  lemma FreshRequestsAnswerable(hash: string -> nat, acts: seq<Action>, x: Server, op: Op)
    requires IsRun(Init(hash), acts)
    requires
      var s := After(Init(hash), acts);
      x in s.live && s.poisoned == {} && |{A, B, C} - s.live| <= 1
    ensures
      var s := After(Init(hash), acts);
      Answerable(Do(s, Submit(x, op)), s.next)
  {
    var s := After(Init(hash), acts);
    var t := Do(s, Submit(x, op));
    InitSane(hash, acts);
    FreshCanFinish(s, x, op);
    SaneStep(s, Submit(x, op));
    var rest := CompletionRuns(t, s.next);
    SaneRun(t, rest);
    CallsStay(t, rest, s.next);
    assert CallOk(After(t, rest), s.next);
  }

  lemma OwnersLive(s: State, o: Owners)
    requires |{A, B, C} - s.live| <= 1 && o.primary != o.backup
    ensures o.primary in s.live || o.backup in s.live
  {
    var crashed := {A, B, C} - s.live;
    var rest := crashed - {o.primary};
    assert o.primary in crashed ==> |crashed| == |rest| + 1;
    assert o.backup in rest ==> |rest| == |rest - {o.backup}| + 1;
  }
}
