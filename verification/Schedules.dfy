/** Building blocks for concrete runs: one client's call on an authoritative server, by itself, with the
    lookup of its user. */
module Schedules {

  import opened Prelude
  import opened Servers
  import opened StoreSpec
  import opened Cluster
  import opened Protocol

  // ---------- runs ----------

  predicate CrashFree(acts: seq<Action>)
  {
    forall i :: 0 <= i < |acts| ==> !acts[i].Crash?
  }

  lemma Prepend(s: State, a: Action, rest: seq<Action>)
    requires Enabled(s, a) && IsRun(Do(s, a), rest)
    ensures IsRun(s, [a] + rest) && After(s, [a] + rest) == After(Do(s, a), rest)
    ensures !a.Crash? && CrashFree(rest) ==> CrashFree([a] + rest)
  {
    assert ([a] + rest)[1..] == rest;
  }

  lemma One(s: State, a: Action)
    requires Enabled(s, a)
    ensures IsRun(s, [a]) && After(s, [a]) == Do(s, a)
  {
    assert [a][1..] == [];
    assert IsRun(Do(s, a), []);
  }

  lemma {:induction false} Concatenate(s: State, xs: seq<Action>, ys: seq<Action>)
    requires IsRun(s, xs) && IsRun(After(s, xs), ys)
    ensures IsRun(s, xs + ys) && After(s, xs + ys) == After(After(s, xs), ys)
    ensures CrashFree(xs) && CrashFree(ys) ==> CrashFree(xs + ys)
    decreases |xs|
  {
    if xs == [] {
      assert xs + ys == ys;
    } else {
      Concatenate(Do(s, xs[0]), xs[1..], ys);
      assert (xs + ys)[1..] == xs[1..] + ys;
    }
  }

  // ---------- who can be looked up ----------

  /** The server that the question for a user comes to. */
  function UserServer(s: State, user: string): Server
  {
    var o := UserOwner(s.hash, user);
    if o.primary in s.live then o.primary else o.backup
  }

  predicate LookupOpen(s: State, user: string)
  {
    UserServer(s, user) in s.live && UserServer(s, user) !in s.poisoned
  }

  predicate Known(s: State, user: string)
  {
    LookupOpen(s, user) && HasUser(s, UserServer(s, user), user)
  }

  /** Server x has marked every crashed server. */
  ghost predicate Attentive(s: State, x: Server)
  {
    x in s.live && Accurate(s) && forall q: Server :: q !in s.live ==> (x, q) in s.suspects
  }

  /** A user stays known while nobody crashes and no lock is poisoned. */
  lemma KnownStays(s: State, t: State, x: Server, user: string)
    requires Known(s, user) && Attentive(s, x)
    requires t.hash == s.hash && t.live == s.live && t.poisoned == s.poisoned && t.suspects == s.suspects
    requires forall y: Server {:trigger t.stores[y]} :: s.stores[y].users <= t.stores[y].users
    ensures Known(t, user) && Attentive(t, x)
  {
    assert s.stores[UserServer(s, user)].users <= t.stores[UserServer(s, user)].users;
  }

  lemma Placed(s: State, x: Server, user: string)
    requires Attentive(s, x) && LookupOpen(s, user)
    ensures Authoritative(s, x, UserOwner(s.hash, user)) <==> x == UserServer(s, user)
    ensures Location(s, x, UserOwner(s.hash, user)) == UserServer(s, user)
  {
  }

  // ---------- one call ----------

  /** The state with call c, in the given phase, under number n. */
  function With(s: State, n: nat, c: Call, ph: Phase): State
  {
    s.(calls := s.calls[n := c.(phase := ph)])
  }

  function ClientCall(n: nat, x: Server, op: Op): Call
  {
    Call(op, x, None, n, Start, 0)
  }

  function WithCall(s: State, n: nat, x: Server, op: Op, ph: Phase): State
  {
    With(s, n, ClientCall(n, x, op), ph)
  }

  lemma Overwrite(s: State, n: nat, c: Call, early: Phase, late: Phase)
    ensures With(With(s, n, c, early), n, c, late) == With(s, n, c, late)
  {
    assert s.calls[n := c.(phase := early)][n := c.(phase := late)] == s.calls[n := c.(phase := late)];
  }

  lemma SeekStep(s: State, n: nat, c: Call, l: Lookup)
    requires c.at in s.live && !c.op.CreateUser? && CanSeek(s, c.at, l) && !Sought(s, c.at, c.op.user, l).Failed?
    ensures
      var s1 := With(s, n, c, Checked(l));
      Enabled(s1, Seek(n)) && Do(s1, Seek(n)) == With(s, n, c, Checked(Sought(s, c.at, c.op.user, l)))
  {
    Overwrite(s, n, c, Checked(l), Checked(Sought(s, c.at, c.op.user, l)));
  }

  /** Two steps when the call's server is the user's authority, four when it is not. */
  lemma LookupRuns(s: State, n: nat, c: Call) returns (acts: seq<Action>)
    requires Attentive(s, c.at) && !c.op.CreateUser? && LookupOpen(s, c.op.user)
    ensures
      var s0 := With(s, n, c, Checked(Asked));
      && IsRun(s0, acts) && CrashFree(acts)
      && After(s0, acts) == With(s, n, c, Checked(Told(HasUser(s, UserServer(s, c.op.user), c.op.user))))
  {
    var y := UserServer(s, c.op.user);
    var found := HasUser(s, y, c.op.user);
    Placed(s, c.at, c.op.user);
    SeekStep(s, n, c, Asked);
    if c.at == y {
      SeekStep(s, n, c, AtHome);
      One(With(s, n, c, Checked(AtHome)), Seek(n));
      Prepend(With(s, n, c, Checked(Asked)), Seek(n), [Seek(n)]);
      acts := [Seek(n)] + [Seek(n)];
    } else {
      AwayRuns(s, n, c);
      Prepend(With(s, n, c, Checked(Asked)), Seek(n), [Seek(n)] + ([Seek(n)] + [Seek(n)]));
      acts := [Seek(n)] + ([Seek(n)] + ([Seek(n)] + [Seek(n)]));
    }
  }

  lemma AwayRuns(s: State, n: nat, c: Call)
    requires Attentive(s, c.at) && !c.op.CreateUser? && LookupOpen(s, c.op.user) && c.at != UserServer(s, c.op.user)
    ensures
      var s0 := With(s, n, c, Checked(Away));
      var acts := [Seek(n)] + ([Seek(n)] + [Seek(n)]);
      && IsRun(s0, acts) && CrashFree(acts)
      && After(s0, acts) == With(s, n, c, Checked(Told(HasUser(s, UserServer(s, c.op.user), c.op.user))))
  {
    var y := UserServer(s, c.op.user);
    var found := HasUser(s, y, c.op.user);
    Placed(s, c.at, c.op.user);
    SeekStep(s, n, c, Away);
    SeekStep(s, n, c, Waiting(y));
    SeekStep(s, n, c, Heard(y, found));
    One(With(s, n, c, Checked(Heard(y, found))), Seek(n));
    Prepend(With(s, n, c, Checked(Waiting(y))), Seek(n), [Seek(n)]);
    Prepend(With(s, n, c, Checked(Away)), Seek(n), [Seek(n)] + [Seek(n)]);
  }

  /** Server x would accept the operation, and can look its user up. */
  ghost predicate Undisturbed(s: State, x: Server, op: Op)
  {
    && x in s.live && x !in s.poisoned
    && Authoritative(s, x, OwnersOf(s.hash, op))
    && Precheck(s.stores[x], op).None?
    && !Perform(s.stores[x], op, true).1.Rejected?
    && (op.CreateUser? || (Known(s, op.user) && Attentive(s, x)))
  }

  lemma ChangeStep(s: State, n: nat, c: Call, l: Lookup, st: Store, r: Reply)
    requires c.at in s.live && c.at !in s.poisoned && Perform(s.stores[c.at], c.op, true) == (st, r) && !r.Rejected?
    requires c.op.CreateUser? || l == Told(true)
    ensures
      var s1 := With(s, n, c, Checked(l));
      && Enabled(s1, Change(n, true))
      && Do(s1, Change(n, true)) == With(s.(stores := s.stores[c.at := st]), n, c, Performed(r))
  {
    Overwrite(s.(stores := s.stores[c.at := st]), n, c, Checked(l), Performed(r));
  }

  lemma ChangeRuns(s: State, n: nat, c: Call, st: Store, r: Reply) returns (acts: seq<Action>)
    requires c.at in s.live && c.at !in s.poisoned && Perform(s.stores[c.at], c.op, true) == (st, r) && !r.Rejected?
    requires c.op.CreateUser? || (Known(s, c.op.user) && Attentive(s, c.at))
    ensures
      var s0 := With(s, n, c, Checked(Asked));
      && IsRun(s0, acts) && CrashFree(acts)
      && After(s0, acts) == With(s.(stores := s.stores[c.at := st]), n, c, Performed(r))
  {
    var l := if c.op.CreateUser? then Asked else Told(true);
    ChangeStep(s, n, c, l, st, r);
    One(With(s, n, c, Checked(l)), Change(n, true));
    if c.op.CreateUser? {
      acts := [Change(n, true)];
    } else {
      var lookup := LookupRuns(s, n, c);
      Concatenate(With(s, n, c, Checked(Asked)), lookup, [Change(n, true)]);
      acts := lookup + [Change(n, true)];
    }
  }

  lemma CheckSteps(s: State, n: nat, c: Call)
    requires c.at in s.live && c.at !in s.poisoned && Authoritative(s, c.at, OwnersOf(s.hash, c.op))
    requires Precheck(s.stores[c.at], c.op).None?
    ensures
      var s1, s2 := With(s, n, c, Start), With(s, n, c, Authorised);
      && Enabled(s1, Decide(n)) && Do(s1, Decide(n)) == s2
      && Enabled(s2, Check(n)) && Do(s2, Check(n)) == With(s, n, c, Checked(Asked))
  {
    Overwrite(s, n, c, Start, Authorised);
    Overwrite(s, n, c, Authorised, Checked(Asked));
  }

  /** A call on its authority, all by itself, up to and including the change. */
  lemma StartedRuns(s: State, n: nat, c: Call) returns (acts: seq<Action>)
    requires Undisturbed(s, c.at, c.op)
    ensures
      var s0 := With(s, n, c, Start);
      var (st, r) := Perform(s.stores[c.at], c.op, true);
      && IsRun(s0, acts) && CrashFree(acts)
      && After(s0, acts) == With(s.(stores := s.stores[c.at := st]), n, c, Performed(r))
  {
    var (st, r) := Perform(s.stores[c.at], c.op, true);
    CheckSteps(s, n, c);
    var rest := ChangeRuns(s, n, c, st, r);
    Prepend(With(s, n, c, Authorised), Check(n), rest);
    Prepend(With(s, n, c, Start), Decide(n), [Check(n)] + rest);
    acts := [Decide(n)] + ([Check(n)] + rest);
  }

  /** A client's call on server x, all by itself, up to and including the change. */
  lemma OpeningRuns(s: State, x: Server, op: Op) returns (acts: seq<Action>)
    requires Undisturbed(s, x, op)
    ensures IsRun(s, acts) && CrashFree(acts)
    ensures
      var (st, r) := Perform(s.stores[x], op, true);
      After(s, acts) == WithCall(s.(stores := s.stores[x := st], next := s.next + 1), s.next, x, op, Performed(r))
  {
    var t := s.(next := s.next + 1);
    var rest := StartedRuns(t, s.next, ClientCall(s.next, x, op));
    Prepend(s, Submit(x, op), rest);
    acts := [Submit(x, op)] + rest;
  }

  /** The primary has made the change and can have it copied. */
  predicate Copyable(s: State, x: Server, op: Op, r: Reply)
  {
    var b := OwnersOf(s.hash, op).backup;
    && x == OwnersOf(s.hash, op).primary && x != b
    && x in s.live && b in s.live && b !in s.poisoned
    && (x, b) !in s.suspects
    && Mirror(s.stores[b], op, r).Mirrored?
  }

  lemma CopySteps(s: State, n: nat, c: Call, r: Reply, m: Mirrored)
    requires Copyable(s, c.at, c.op, r) && Mirror(s.stores[OwnersOf(s.hash, c.op).backup], c.op, r) == m
    ensures
      var t := s.(stores := s.stores[OwnersOf(s.hash, c.op).backup := m.store]);
      var s0 := With(s, n, c, Performed(r));
      var s1 := With(s, n, c, Replicating(r));
      && Enabled(s0, Copy(n)) && Do(s0, Copy(n)) == s1
      && Enabled(s1, Replicate(n)) && Do(s1, Replicate(n)) == With(t, n, c, Acked(r, m.ack))
  {
    var t := s.(stores := s.stores[OwnersOf(s.hash, c.op).backup := m.store]);
    Overwrite(s, n, c, Performed(r), Replicating(r));
    Overwrite(t, n, c, Replicating(r), Acked(r, m.ack));
  }

  /** The change is copied, its acknowledgement not yet received. */
  lemma CopiedRuns(s: State, n: nat, c: Call, r: Reply, m: Mirrored)
    requires Copyable(s, c.at, c.op, r) && Mirror(s.stores[OwnersOf(s.hash, c.op).backup], c.op, r) == m
    ensures
      var t := s.(stores := s.stores[OwnersOf(s.hash, c.op).backup := m.store]);
      var s0 := With(s, n, c, Performed(r));
      var acts := [Copy(n)] + [Replicate(n)];
      IsRun(s0, acts) && CrashFree(acts) && After(s0, acts) == With(t, n, c, Acked(r, m.ack))
  {
    CopySteps(s, n, c, r, m);
    One(With(s, n, c, Replicating(r)), Replicate(n));
    Prepend(With(s, n, c, Performed(r)), Copy(n), [Replicate(n)]);
  }

  lemma ConfirmStep(t: State, n: nat, c: Call, r: Reply, ack: Reply)
    requires c.at in t.live
    ensures
      var s2 := With(t, n, c, Acked(r, ack));
      Enabled(s2, Confirm(n)) && Do(s2, Confirm(n)) == With(t, n, c, Finished(c, ack))
  {
    Overwrite(t, n, c, Acked(r, ack), Finished(c, ack));
  }

  /** The rest of a client's call on the primary, with its backup up. */
  lemma ClosingRuns(s: State, n: nat, c: Call, r: Reply, m: Mirrored) returns (acts: seq<Action>)
    requires Copyable(s, c.at, c.op, r) && Mirror(s.stores[OwnersOf(s.hash, c.op).backup], c.op, r) == m
    ensures
      var t := s.(stores := s.stores[OwnersOf(s.hash, c.op).backup := m.store]);
      var s0 := With(s, n, c, Performed(r));
      && IsRun(s0, acts) && CrashFree(acts)
      && After(s0, acts) == With(t, n, c, Finished(c, m.ack))
  {
    var t := s.(stores := s.stores[OwnersOf(s.hash, c.op).backup := m.store]);
    CopiedRuns(s, n, c, r, m);
    ConfirmStep(t, n, c, r, m.ack);
    One(With(t, n, c, Acked(r, m.ack)), Confirm(n));
    acts := [Copy(n)] + [Replicate(n)];
    Concatenate(With(s, n, c, Performed(r)), acts, [Confirm(n)]);
    acts := acts + [Confirm(n)];
  }

  /** Both in a row, when primary and backup are up and the copy does not panic. */
  lemma WholeRuns(s: State, x: Server, op: Op, st: Store, r: Reply, m: Mirrored) returns (acts: seq<Action>)
    requires Undisturbed(s, x, op) && Perform(s.stores[x], op, true) == (st, r)
    requires Copyable(s, x, op, r) && Mirror(s.stores[OwnersOf(s.hash, op).backup], op, r) == m
    ensures
      var b := OwnersOf(s.hash, op).backup;
      && IsRun(s, acts) && CrashFree(acts)
      && After(s, acts)
         == WithCall(s.(stores := s.stores[x := st][b := m.store], next := s.next + 1), s.next, x, op, Done(m.ack))
  {
    var t := s.(stores := s.stores[x := st], next := s.next + 1);
    var xs := OpeningRuns(s, x, op);
    var ys := ClosingRuns(t, s.next, ClientCall(s.next, x, op), r, m);
    Concatenate(s, xs, ys);
    acts := xs + ys;
  }

  lemma AloneStep(t: State, n: nat, c: Call, r: Reply)
    requires c.at in t.live && c.at == OwnersOf(t.hash, c.op).backup
    ensures
      var s1 := With(t, n, c, Performed(r));
      Enabled(s1, Copy(n)) && Do(s1, Copy(n)) == With(t, n, c, Finished(c, r))
  {
    Overwrite(t, n, c, Performed(r), Finished(c, r));
  }

  /** The backup serves in the place of a primary that it has marked dead. */
  lemma ServedRuns(s: State, x: Server, op: Op, st: Store, r: Reply) returns (acts: seq<Action>)
    requires Undisturbed(s, x, op) && Perform(s.stores[x], op, true) == (st, r)
    requires x == OwnersOf(s.hash, op).backup
    ensures IsRun(s, acts) && CrashFree(acts)
    ensures After(s, acts) == WithCall(s.(stores := s.stores[x := st], next := s.next + 1), s.next, x, op, Done(r))
  {
    var n := s.next;
    var t := s.(stores := s.stores[x := st], next := n + 1);
    var xs := OpeningRuns(s, x, op);
    AloneStep(t, n, ClientCall(n, x, op), r);
    One(After(s, xs), Copy(n));
    Concatenate(s, xs, [Copy(n)]);
    acts := xs + [Copy(n)];
  }

  // ---------- getting ready for a lookup ----------

  predicate SameEntry(s: State, t: State, i: nat)
  {
    i in s.calls ==> i in t.calls && t.calls[i] == s.calls[i]
  }

  /** Nothing but marks, users and new calls has been added. */
  ghost predicate Gentle(s: State, t: State)
  {
    && t.hash == s.hash && t.live == s.live && t.poisoned == s.poisoned && s.suspects <= t.suspects && s.next <= t.next
    && (forall x: Server {:trigger t.stores[x]} ::
          t.stores[x].channels == s.stores[x].channels && s.stores[x].users <= t.stores[x].users)
    && (forall i {:trigger SameEntry(s, t, i)} :: SameEntry(s, t, i))
  }

  lemma GentleTwice(s: State, t: State, u: State)
    requires Gentle(s, t) && Gentle(t, u)
    ensures Gentle(s, u)
  {
    forall i
      ensures SameEntry(s, u, i)
    {
      assert SameEntry(s, t, i) && SameEntry(t, u, i);
    }
    forall x: Server
      ensures u.stores[x].channels == s.stores[x].channels && s.stores[x].users <= u.stores[x].users
    {
      assert t.stores[x].channels == s.stores[x].channels;
    }
  }

  lemma MarkRuns(s: State, x: Server, q: Server) returns (acts: seq<Action>)
    requires x in s.live && Accurate(s)
    ensures IsRun(s, acts) && CrashFree(acts)
    ensures After(s, acts) == if q in s.live then s else s.(suspects := s.suspects + {(x, q)})
  {
    if q in s.live {
      acts := [];
    } else {
      One(s, Suspect(x, q));
      acts := [Suspect(x, q)];
    }
  }

  /** x marks whoever has crashed. */
  lemma AttentionRuns(s: State, x: Server) returns (acts: seq<Action>)
    requires x in s.live && Accurate(s)
    ensures IsRun(s, acts) && CrashFree(acts)
    ensures
      var t := After(s, acts);
      t == s.(suspects := t.suspects) && s.suspects <= t.suspects && Attentive(t, x)
  {
    acts := MarkRuns(s, x, A);
    var more := MarkRuns(After(s, acts), x, B);
    Concatenate(s, acts, more);
    acts := acts + more;
    more := MarkRuns(After(s, acts), x, C);
    Concatenate(s, acts, more);
    acts := acts + more;
    forall q: Server | q !in s.live
      ensures (x, q) in After(s, acts).suspects
    {
      match q case A => case B => case C =>
    }
  }

  /** The user is created where lookups for him come to, if he is not there. */
  lemma CreationRuns(s: State, user: string) returns (acts: seq<Action>)
    requires Inv(s) && LookupOpen(s, user) && user != [] && Attentive(s, UserServer(s, user))
    ensures IsRun(s, acts) && CrashFree(acts)
    ensures
      var t := After(s, acts);
      Gentle(s, t) && t.suspects == s.suspects && Known(t, user)
  {
    var y := UserServer(s, user);
    if HasUser(s, y, user) {
      acts := [];
    } else {
      acts := OpeningRuns(s, y, CreateUser(user));
    }
  }

  /** Afterwards lookups from x find the user. */
  lemma AcquaintanceRuns(s: State, x: Server, user: string) returns (acts: seq<Action>)
    requires Inv(s) && x in s.live && LookupOpen(s, user) && user != []
    ensures IsRun(s, acts) && CrashFree(acts)
    ensures
      var t := After(s, acts);
      Gentle(s, t) && Known(t, user) && Attentive(t, x)
  {
    var y := UserServer(s, user);
    acts := AttentionRuns(s, y);
    var s1 := After(s, acts);
    MarksKeep(s, s1);
    var more := AttentionRuns(s1, x);
    Concatenate(s, acts, more);
    acts := acts + more;
    var s2 := After(s1, more);
    MarksKeep(s1, s2);
    GentleTwice(s, s1, s2);
    more := CreationRuns(s2, user);
    Concatenate(s, acts, more);
    acts := acts + more;
    GentleTwice(s, s2, After(s2, more));
  }

  lemma MarksKeep(s: State, t: State)
    requires Inv(s) && t == s.(suspects := t.suspects) && s.suspects <= t.suspects && Accurate(t)
    ensures Inv(t) && Gentle(s, t)
  {
    forall i | i in t.calls
      ensures CallOk(t, i) && RetriesOk(t, i)
    {
      assert CallOk(s, i) && RetriesOk(s, i);
      Untouched(s, t, i);
    }
  }
}
