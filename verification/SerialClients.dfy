/** A discipline of the clients: a user has at most one channel operation in flight in the whole
    system. Under it, and while the primary of its channel lives, a user has a single active call
    besides the one waiting for it. */
module SerialClients {

  import opened Prelude
  import opened Servers
  import opened StoreSpec
  import opened Cluster
  import opened Protocol

  predicate OnChannel(s: State, k: nat)
  {
    k in s.calls && !s.calls[k].op.CreateUser?
  }

  /** The call, or the replicate request it has sent, can still have an effect. */
  predicate InFlight(s: State, k: nat)
  {
    && OnChannel(s, k)
    && !s.calls[k].phase.Done? && !s.calls[k].phase.Panicked?
    && (s.calls[k].at in s.live
        || (s.calls[k].phase.Replicating? && ChannelOwner(s.hash, s.calls[k].op.channel).backup in s.live))
  }

  /** A client starts a channel operation only when nothing of the same user is in flight. */
  ghost predicate Disciplined(s: State, a: Action)
  {
    a.Submit? && !a.op.CreateUser? ==>
      forall k {:trigger InFlight(s, k)} :: InFlight(s, k) ==> s.calls[k].op.user != a.op.user
  }

  ghost predicate IsSerialRun(s: State, acts: seq<Action>)
    decreases |acts|
  {
    acts == [] || (Enabled(s, acts[0]) && Disciplined(s, acts[0]) && IsSerialRun(Do(s, acts[0]), acts[1..]))
  }

  predicate Active(s: State, k: nat)
  {
    && OnChannel(s, k)
    && !s.calls[k].phase.Done? && !s.calls[k].phase.Panicked?
    && s.calls[k].at in s.live
    && ChannelOwner(s.hash, s.calls[k].op.channel).primary in s.live
  }

  predicate WaitsFor(s: State, i: nat, k: nat)
  {
    i in s.calls && s.calls[i].phase == Forwarded(k)
  }

  ghost predicate Exclusive(s: State)
  {
    forall i, k {:trigger Active(s, i), Active(s, k)} ::
      Active(s, i) && Active(s, k) && s.calls[i].op.user == s.calls[k].op.user
      ==> i == k || WaitsFor(s, i, k) || WaitsFor(s, k, i)
  }

  /** No call becomes active, and nobody stops waiting for an active call. */
  lemma QuietKeeps(s: State, s': State)
    requires Exclusive(s)
    requires forall k {:trigger Active(s', k)} :: Active(s', k) ==> Active(s, k) && s'.calls[k].op == s.calls[k].op
    requires forall i, k {:trigger WaitsFor(s', i, k)} ::
      WaitsFor(s, i, k) && Active(s', i) && Active(s', k) ==> WaitsFor(s', i, k)
    ensures Exclusive(s')
  {
  }

  lemma MoveKeeps(s: State, s': State, k: nat)
    requires Exclusive(s) && k in s.calls && k in s'.calls
    requires s'.hash == s.hash && s'.live == s.live && s'.calls == s.calls[k := s'.calls[k]]
    requires SameCall(s.calls[k], s'.calls[k])
    requires !s.calls[k].phase.Done? && !s.calls[k].phase.Panicked? && !s.calls[k].phase.Forwarded?
    ensures Exclusive(s')
  {
    QuietKeeps(s, s');
  }

  /** With a live primary only the client's own call forwards, so it was alone. */
  lemma RouteKeeps(s: State, k: nat)
    requires Inv(s) && Exclusive(s) && Enabled(s, Route(k))
    ensures Exclusive(Do(s, Route(k)))
  {
    var s' := Do(s, Route(k));
    if s'.calls[k].phase.Panicked? {
      MoveKeeps(s, s', k);
    } else {
      forall i, j | Active(s', i) && Active(s', j) && s'.calls[i].op.user == s'.calls[j].op.user
        ensures i == j || WaitsFor(s', i, j) || WaitsFor(s', j, i)
      {
        if i in s.calls && j in s.calls {
          assert Active(s, i) && Active(s, j);
          if i == k { Alone(s, k, j); }
          if j == k { Alone(s, k, i); }
        } else if i in s.calls {
          Alone(s, k, i);
        } else if j in s.calls {
          Alone(s, k, j);
        }
      }
    }
  }

  lemma Alone(s: State, k: nat, i: nat)
    requires Inv(s) && Exclusive(s) && k in s.calls && s.calls[k].phase.Routing?
    requires Active(s, i)
    requires Active(s, k) && s.calls[i].op.user == s.calls[k].op.user
    ensures i == k
  {
    assert CallOk(s, k) && CallOk(s, i);
  }

  lemma RetryKeeps(s: State, k: nat)
    requires Inv(s) && Exclusive(s) && Enabled(s, Retry(k))
    ensures Exclusive(Do(s, Retry(k)))
  {
    var s' := Do(s, Retry(k));
    assert CallOk(s, k) && CallOk(s, s.calls[k].phase.child);
    forall i | Active(s', i)
      ensures Active(s, i) && i != k
    {
      // the child went to the primary, which is dead
    }
    QuietKeeps(s, s');
  }

  lemma SubmitKeeps(s: State, at: Server, op: Op)
    requires Inv(s) && Exclusive(s) && Enabled(s, Submit(at, op)) && Disciplined(s, Submit(at, op))
    ensures Exclusive(Do(s, Submit(at, op)))
  {
    var s' := Do(s, Submit(at, op));
    forall i, k | Active(s', i) && Active(s', k) && s'.calls[i].op.user == s'.calls[k].op.user
      ensures i == k || WaitsFor(s', i, k) || WaitsFor(s', k, i)
    {
      assert i != s.next ==> Active(s, i) && InFlight(s, i);
      assert k != s.next ==> Active(s, k) && InFlight(s, k);
    }
  }

  lemma AnswerKeeps(s: State, k: nat)
    requires Inv(s) && Exclusive(s) && Enabled(s, Answer(k))
    ensures Exclusive(Do(s, Answer(k)))
  {
    QuietKeeps(s, Do(s, Answer(k)));
  }

  lemma ExclusiveStep(s: State, a: Action)
    requires Inv(s) && Exclusive(s) && Enabled(s, a) && Disciplined(s, a)
    ensures Exclusive(Do(s, a))
  {
    var s' := Do(s, a);
    if a.Crash? || a.Suspect? {
      QuietKeeps(s, s');
    } else if a.Submit? {
      SubmitKeeps(s, a.at, a.op);
    } else if a.Route? {
      RouteKeeps(s, a.k);
    } else if a.Retry? {
      RetryKeeps(s, a.k);
    } else if a.Answer? {
      AnswerKeeps(s, a.k);
    } else {
      MoveKeeps(s, s', a.k);
    }
  }
}
