/** What every step of the cluster keeps, whatever the operation: marks are accurate, only an
    authoritative server works on an operation, forwarding goes to an owner and is bounded. */
module Protocol {

  import opened Prelude
  import opened Servers
  import opened StoreSpec
  import opened Cluster

  ghost predicate Accurate(s: State)
  {
    forall p: Server, q: Server :: (p, q) in s.suspects ==> q !in s.live
  }

  predicate Working(ph: Phase)
  {
    ph.Authorised? || ph.Checked? || Holding(ph).Some?
  }

  /** Waiting for the backup, or about to stop waiting. */
  predicate OnBackup(ph: Phase)
  {
    ph.Replicating? || ph.Acked? || ph.Unanswered?
  }

  predicate Succeeds(op: Op, r: Reply)
  {
    if op.SendMessage? then r.Sent? else r.Accepted?
  }

  predicate ChannelExists(s: State, x: Server, channel: string)
  {
    channel in s.stores[x].channels
  }

  /** A forwarded call mirrors its parent's operation on an owner other than the parent's server. */
  ghost predicate ChildOk(s: State, k: nat)
    requires k in s.calls && s.calls[k].parent.Some?
  {
    var c := s.calls[k];
    var o := OwnersOf(s.hash, c.op);
    var j := c.parent.value;
    && j in s.calls
    && j < k
    && s.calls[j].op == c.op
    && s.calls[j].root == c.root
    && s.calls[j].at != o.primary
    && s.calls[j].at != c.at
    && (c.at == o.primary || (c.at == o.backup && (s.calls[j].at, o.primary) in s.suspects))
    && (s.calls[j].parent.Some? ==> c.at == o.primary)
  }

  ghost predicate CallOk(s: State, k: nat)
    requires k in s.calls
  {
    var c := s.calls[k];
    var o := OwnersOf(s.hash, c.op);
    && (c.parent.None? ==> c.root == k && !c.phase.Travelling? && !c.phase.Replying?)
    && (c.parent.Some? ==> ChildOk(s, k))
    && (c.phase.Routing? || c.phase.Forwarded? ==> c.at != o.primary)
    && (c.phase.Forwarded? ==> c.phase.child in s.calls && s.calls[c.phase.child].parent == Some(k))
    && (Working(c.phase) ==> Authoritative(s, c.at, o))
    && (OnBackup(c.phase) ==> c.at == o.primary)
    && (Holding(c.phase).Some? ==> Succeeds(c.op, Holding(c.phase).value))
  }

  ghost predicate BothMarked(s: State, k: nat)
    requires k in s.calls
  {
    var o := OwnersOf(s.hash, s.calls[k].op);
    (s.calls[k].at, o.primary) in s.suspects && (s.calls[k].at, o.backup) in s.suspects
  }

  /** Every fruitless forward has cost the call's server one owner it still took for alive. */
  ghost predicate RetriesOk(s: State, k: nat)
    requires k in s.calls && CallOk(s, k)
  {
    var c := s.calls[k];
    var o := OwnersOf(s.hash, c.op);
    BothMarked(s, k) ||
    (&& c.retries <= 1
     && (c.retries == 1 ==> (c.at, o.primary) in s.suspects)
     && (c.phase.Forwarded? && s.calls[c.phase.child].at == o.primary ==> c.retries == 0))
  }

  ghost predicate Inv(s: State)
  {
    && Accurate(s)
    && (forall k :: k in s.calls ==> k < s.next)
    && (forall k {:trigger CallOk(s, k)} :: k in s.calls ==> CallOk(s, k) && RetriesOk(s, k))
  }

  /** The conditions that CallOk puts on a phase other than Forwarded. */
  ghost predicate PhaseFits(s: State, c: Call, ph: Phase)
  {
    var o := OwnersOf(s.hash, c.op);
    && !ph.Forwarded?
    && (c.parent.None? ==> !ph.Travelling? && !ph.Replying?)
    && (ph.Routing? ==> c.at != o.primary)
    && (Working(ph) ==> Authoritative(s, c.at, o))
    && (OnBackup(ph) ==> c.at == o.primary)
    && (Holding(ph).Some? ==> Succeeds(c.op, Holding(ph).value))
  }

  /** The identity of a call never changes, nor does the hash; marks are never taken back. */
  ghost predicate Extends(s: State, s': State)
  {
    && s'.hash == s.hash
    && s.suspects <= s'.suspects
    && (forall k {:trigger k in s'.calls} :: k in s.calls ==> k in s'.calls && SameCall(s.calls[k], s'.calls[k]))
  }

  ghost predicate SameCall(c: Call, c': Call)
  {
    c'.op == c.op && c'.at == c.at && c'.parent == c.parent && c'.root == c.root
  }

  /** A call that a step leaves alone keeps its invariant. */
  lemma Untouched(s: State, s': State, k: nat)
    requires Extends(s, s')
    requires k in s.calls && CallOk(s, k) && RetriesOk(s, k)
    requires s'.calls[k] == s.calls[k]
    ensures CallOk(s', k) && RetriesOk(s', k)
  {
    var c := s.calls[k];
    assert c.parent.Some? ==> c.parent.value in s'.calls;
    assert c.phase.Forwarded? ==> c.phase.child in s'.calls;
  }

  lemma MoveKeeps(s: State, s': State, k: nat, ph: Phase)
    requires Inv(s) && k in s.calls
    requires s'.hash == s.hash && s'.live == s.live && s'.suspects == s.suspects && s'.next == s.next
    requires s'.calls == s.calls[k := s.calls[k].(phase := ph)]
    requires PhaseFits(s, s.calls[k], ph)
    ensures Inv(s')
  {
    forall i | i in s'.calls
      ensures CallOk(s', i) && RetriesOk(s', i)
    {
      assert CallOk(s, i) && RetriesOk(s, i);
      if i != k { Untouched(s, s', i); }
    }
  }

  lemma SubmitKeeps(s: State, at: Server, op: Op)
    requires Inv(s) && Enabled(s, Submit(at, op))
    ensures Inv(Do(s, Submit(at, op)))
  {
    var s' := Do(s, Submit(at, op));
    forall i | i in s'.calls
      ensures CallOk(s', i) && RetriesOk(s', i)
    {
      if i != s.next {
        assert CallOk(s, i) && RetriesOk(s, i);
        Untouched(s, s', i);
      }
    }
  }

  lemma EnvironmentKeeps(s: State, a: Action)
    requires Inv(s) && Enabled(s, a) && (a.Crash? || a.Suspect?)
    ensures Inv(Do(s, a))
  {
    var s' := Do(s, a);
    forall i | i in s'.calls
      ensures CallOk(s', i) && RetriesOk(s', i)
    {
      assert CallOk(s, i) && RetriesOk(s, i);
      Untouched(s, s', i);
    }
  }

  /** The forwarding call and the call it spawns. */
  lemma ForwardOk(s: State, s': State, k: nat)
    requires Inv(s) && k in s.calls && s.calls[k].phase.Routing?
    requires
      var c := s.calls[k];
      var to := Location(s, c.at, OwnersOf(s.hash, c.op));
      && to != c.at
      && s' == s.(calls := s.calls[k := c.(phase := Forwarded(s.next))]
                                  [s.next := Call(c.op, to, Some(k), c.root, Travelling, 0)],
                  next := s.next + 1)
    ensures CallOk(s', k) && RetriesOk(s', k)
    ensures CallOk(s', s.next) && RetriesOk(s', s.next)
  {
    var c := s.calls[k];
    assert CallOk(s, k) && RetriesOk(s, k);
    assert s.next !in s.calls;
    assert c.parent.Some? ==> ChildOk(s, k) && c.parent.value in s'.calls;
  }

  lemma RouteKeeps(s: State, k: nat)
    requires Inv(s) && Enabled(s, Route(k))
    ensures Inv(Do(s, Route(k)))
  {
    var s' := Do(s, Route(k));
    var c := s.calls[k];
    assert CallOk(s, k);
    if Location(s, c.at, OwnersOf(s.hash, c.op)) == c.at {
      MoveKeeps(s, s', k, Panicked);
    } else {
      ForwardOk(s, s', k);
      forall i | i in s'.calls
        ensures CallOk(s', i) && RetriesOk(s', i)
      {
        if i != s.next && i != k {
          assert CallOk(s, i) && RetriesOk(s, i);
          Untouched(s, s', i);
        }
      }
    }
  }

  lemma RetryKeeps(s: State, k: nat)
    requires Inv(s) && Enabled(s, Retry(k))
    ensures Inv(Do(s, Retry(k)))
  {
    var s' := Do(s, Retry(k));
    assert CallOk(s, k) && RetriesOk(s, k) && CallOk(s, s.calls[k].phase.child);
    forall i | i in s'.calls
      ensures CallOk(s', i) && RetriesOk(s', i)
    {
      assert CallOk(s, i) && RetriesOk(s, i);
      if i != k { Untouched(s, s', i); }
    }
  }

  lemma AnswerKeeps(s: State, k: nat)
    requires Inv(s) && Enabled(s, Answer(k))
    ensures Inv(Do(s, Answer(k)))
  {
    var r := s.calls[k].phase.reply;
    var j := s.calls[k].parent.value;
    var mid := Move(s, k, Done(r));
    MoveKeeps(s, mid, k, Done(r));
    MoveKeeps(mid, Do(s, Answer(k)), j, Finished(s.calls[j], r));
  }

  lemma InvStep(s: State, a: Action)
    requires Inv(s) && Enabled(s, a)
    ensures Inv(Do(s, a))
  {
    match a
    case Crash(_) => EnvironmentKeeps(s, a);
    case Suspect(_, _) => EnvironmentKeeps(s, a);
    case Submit(at, op) => SubmitKeeps(s, at, op);
    case Route(k) => RouteKeeps(s, k);
    case Answer(k) => AnswerKeeps(s, k);
    case Retry(k) => RetryKeeps(s, k);
    case Arrive(_) => EarlyKeeps(s, a);
    case Decide(_) => EarlyKeeps(s, a);
    case Check(_) => EarlyKeeps(s, a);
    case Seek(_) => EarlyKeeps(s, a);
    case SeekAgain(_) => EarlyKeeps(s, a);
    case Change(_, _) => EarlyKeeps(s, a);
    case _ => LateKeeps(s, a);
  }

  lemma EarlyFits(s: State, a: Action)
    requires Inv(s) && Enabled(s, a) && (a.Arrive? || a.Decide? || a.Seek? || a.SeekAgain? || a.Check?)
    ensures PhaseFits(s, s.calls[a.k], Do(s, a).calls[a.k].phase)
  {
    assert CallOk(s, a.k);
  }

  lemma ChangeFits(s: State, k: nat, found: bool)
    requires Inv(s) && Enabled(s, Change(k, found))
    ensures PhaseFits(s, s.calls[k], Do(s, Change(k, found)).calls[k].phase)
  {
    assert CallOk(s, k);
  }

  lemma EarlyKeeps(s: State, a: Action)
    requires Inv(s) && Enabled(s, a) && (a.Arrive? || a.Decide? || a.Seek? || a.SeekAgain? || a.Check? || a.Change?)
    ensures Inv(Do(s, a))
  {
    if a.Change? { ChangeFits(s, a.k, a.found); } else { EarlyFits(s, a); }
    MoveKeeps(s, Do(s, a), a.k, Do(s, a).calls[a.k].phase);
  }

  lemma LateKeeps(s: State, a: Action)
    requires Inv(s) && Enabled(s, a) && (a.Copy? || a.Replicate? || a.Confirm? || a.Abandon?)
    ensures Inv(Do(s, a))
  {
    assert CallOk(s, a.k);
    MoveKeeps(s, Do(s, a), a.k, Do(s, a).calls[a.k].phase);
  }

  lemma {:induction false} RootIsEarlier(s: State, k: nat)
    requires Inv(s) && k in s.calls
    ensures s.calls[k].root <= k
  {
    assert CallOk(s, k);
    if s.calls[k].parent.Some? {
      RootIsEarlier(s, s.calls[k].parent.value);
    }
  }

  lemma CallStays(s: State, a: Action, k: nat)
    requires Enabled(s, a) && k in s.calls && s.next !in s.calls
    ensures k in Do(s, a).calls && SameCall(s.calls[k], Do(s, a).calls[k])
  {
  }

  /** A call is never forgotten. */
  lemma {:induction false} CallsStay(s: State, acts: seq<Action>, k: nat)
    requires Inv(s) && k in s.calls && IsRun(s, acts)
    ensures k in After(s, acts).calls && SameCall(s.calls[k], After(s, acts).calls[k])
    decreases |acts|
  {
    if acts != [] {
      InvStep(s, acts[0]);
      CallStays(s, acts[0], k);
      CallsStay(Do(s, acts[0]), acts[1..], k);
    }
  }
}
