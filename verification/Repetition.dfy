/** How often one client request is carried out. A retry gives up on a call whose server has crashed; when
    that call had got past its change, the request can be carried out a second time. */
module Repetition {

  import opened Prelude
  import opened Servers
  import opened StoreSpec
  import opened Cluster
  import opened Protocol

  /** Past its change, or refused. */
  predicate Decided(ph: Phase)
  {
    Holding(ph).Some? || ph.Replying? || ph.Done?
  }

  /** The call can still move by itself or wait. */
  predicate Open(s: State, i: nat)
  {
    && i in s.calls && s.calls[i].at in s.live
    && !s.calls[i].phase.Replying? && !s.calls[i].phase.Done? && !s.calls[i].phase.Panicked?
  }

  /** Call k is the one that i waits for, or was forwarded by that one. */
  predicate Below(s: State, i: nat, k: nat)
  {
    && i in s.calls && k in s.calls && s.calls[i].phase.Forwarded?
    && (s.calls[i].phase.child == k || s.calls[k].parent == Some(s.calls[i].phase.child))
  }

  /** The open calls of one request stand in a line. */
  ghost predicate Line(s: State)
  {
    forall i, k {:trigger Open(s, i), Open(s, k)} ::
      Open(s, i) && Open(s, k) && s.calls[i].root == s.calls[k].root ==> i == k || Below(s, i, k) || Below(s, k, i)
  }

  lemma QuietKeeps(s: State, t: State)
    requires Line(s)
    requires forall i {:trigger Open(t, i)} :: Open(t, i) ==> Open(s, i) && SameCall(s.calls[i], t.calls[i])
    requires forall i, k {:trigger Below(t, i, k)} :: Open(t, i) && Open(t, k) && Below(s, i, k) ==> Below(t, i, k)
    ensures Line(t)
  {
  }

  lemma SubmitKeeps(s: State, x: Server, op: Op)
    requires Inv(s) && Line(s) && Enabled(s, Submit(x, op))
    ensures Line(Do(s, Submit(x, op)))
  {
    var t := Do(s, Submit(x, op));
    forall i, k | Open(t, i) && Open(t, k) && t.calls[i].root == t.calls[k].root
      ensures i == k || Below(t, i, k) || Below(t, k, i)
    {
      if i in s.calls { RootIsEarlier(s, i); }
      if k in s.calls { RootIsEarlier(s, k); }
      assert i != s.next && k != s.next ==> Open(s, i) && Open(s, k);
    }
  }

  /** A grandchild is on the primary, which its grandparent has not marked. */
  lemma NoLiveGrandchild(s: State, i: nat, k: nat)
    requires Inv(s) && i in s.calls && k in s.calls && s.calls[i].phase.Forwarded?
    requires s.calls[k].parent == Some(s.calls[i].phase.child)
    ensures s.calls[k].at !in s.live
  {
    assert CallOk(s, i) && CallOk(s, k) && CallOk(s, s.calls[i].phase.child);
  }

  lemma RouteKeeps(s: State, k: nat)
    requires Inv(s) && Line(s) && Enabled(s, Route(k))
    ensures Line(Do(s, Route(k)))
  {
    var t := Do(s, Route(k));
    assert s.next !in s.calls;
    if t.calls[k].phase.Panicked? {
      QuietKeeps(s, t);
    } else {
      forall i, j | Open(t, i) && Open(t, j) && t.calls[i].root == t.calls[j].root
        ensures i == j || Below(t, i, j) || Below(t, j, i)
      {
        if i in s.calls && j in s.calls {
          assert Open(s, i) && Open(s, j);
        } else if i in s.calls {
          ForwardedLine(s, k, i);
        } else if j in s.calls {
          ForwardedLine(s, k, j);
        }
      }
    }
  }

  /** An open call of the request that forwards is that call, or waits for it. */
  lemma ForwardedLine(s: State, k: nat, i: nat)
    requires Inv(s) && Line(s) && Enabled(s, Route(k)) && Open(s, i) && s.calls[i].root == s.calls[k].root
    ensures i == k || (s.calls[i].phase.Forwarded? && s.calls[i].phase.child == k)
  {
    assert Open(s, k);
    if i != k && s.calls[i].phase.Forwarded? && s.calls[k].parent == Some(s.calls[i].phase.child) {
      NoLiveGrandchild(s, i, k);
    }
  }

  lemma RetryKeeps(s: State, j: nat)
    requires Inv(s) && Line(s) && Enabled(s, Retry(j))
    ensures Line(Do(s, Retry(j)))
  {
    var t := Do(s, Retry(j));
    forall i, k | Open(t, i) && Open(t, k) && t.calls[i].root == t.calls[k].root
      ensures i == k || Below(t, i, k) || Below(t, k, i)
    {
      assert Open(s, i) && Open(s, k);
      if Below(s, j, i) { NothingBelow(s, j, i); }
      if Below(s, j, k) { NothingBelow(s, j, k); }
    }
  }

  /** Nobody open is waited for by a call that retries. */
  lemma NothingBelow(s: State, j: nat, i: nat)
    requires Inv(s) && Enabled(s, Retry(j)) && Below(s, j, i)
    ensures !Open(s, i)
  {
    if s.calls[i].parent == Some(s.calls[j].phase.child) { NoLiveGrandchild(s, j, i); }
  }

  lemma LineStep(s: State, a: Action)
    requires Inv(s) && Line(s) && Enabled(s, a)
    ensures Line(Do(s, a))
  {
    if a.Submit? {
      SubmitKeeps(s, a.at, a.op);
    } else if a.Route? {
      RouteKeeps(s, a.k);
    } else if a.Retry? {
      RetryKeeps(s, a.k);
    } else {
      OpenOnlyCloses(s, a);
      QuietKeeps(s, Do(s, a));
    }
  }

  lemma OpenOnlyCloses(s: State, a: Action)
    requires Inv(s) && Enabled(s, a) && !a.Submit? && !a.Route? && !a.Retry?
    ensures forall i {:trigger Open(Do(s, a), i)} ::
              Open(Do(s, a), i) ==> Open(s, i) && SameCall(s.calls[i], Do(s, a).calls[i])
    ensures forall i, k {:trigger Below(Do(s, a), i, k)} ::
              Open(Do(s, a), i) && Open(Do(s, a), k) && Below(s, i, k) ==> Below(Do(s, a), i, k)
  {
    forall i | Open(Do(s, a), i)
      ensures Open(s, i) && SameCall(s.calls[i], Do(s, a).calls[i])
      ensures s.calls[i].phase.Forwarded? ==> Do(s, a).calls[i].phase == s.calls[i].phase
    {
      OneOnlyCloses(s, a, i);
    }
  }

  lemma OneOnlyCloses(s: State, a: Action, i: nat)
    requires Inv(s) && Enabled(s, a) && !a.Submit? && !a.Route? && !a.Retry? && Open(Do(s, a), i)
    ensures Open(s, i) && SameCall(s.calls[i], Do(s, a).calls[i])
    ensures s.calls[i].phase.Forwarded? ==> Do(s, a).calls[i].phase == s.calls[i].phase
  {
    if a.Answer? { assert CallOk(s, a.k); }
  }

  // ---------- counting ----------

  /** The request can still be carried out without a retry that gives up on a decided call. */
  predicate MayAct(s: State, i: nat, request: nat)
  {
    && Open(s, i) && s.calls[i].root == request
    && var ph := s.calls[i].phase;
       if ph.Forwarded? then ph.child in s.calls && !Decided(s.calls[ph.child].phase) else !Decided(ph)
  }

  ghost predicate Pending(s: State, request: nat)
  {
    request >= s.next || exists i :: MayAct(s, i, request)
  }

  /** The step carries the request out: its operation is accepted and changes a server. */
  predicate Effect(s: State, a: Action, request: nat)
    requires Enabled(s, a)
  {
    a.Change? && s.calls[a.k].root == request && Do(s, a).calls[a.k].phase.Performed?
  }

  /** The step gives up on a decided call of the request. */
  predicate Forgets(s: State, a: Action, request: nat)
    requires Enabled(s, a)
  {
    a.Retry? && s.calls[a.k].root == request && Decided(s.calls[s.calls[a.k].phase.child].phase)
  }

  function Effects(s: State, acts: seq<Action>, request: nat): nat
    requires IsRun(s, acts)
    decreases |acts|
  {
    if acts == [] then 0
    else (if Effect(s, acts[0], request) then 1 else 0) + Effects(Do(s, acts[0]), acts[1..], request)
  }

  function Forgotten(s: State, acts: seq<Action>, request: nat): nat
    requires IsRun(s, acts)
    decreases |acts|
  {
    if acts == [] then 0
    else (if Forgets(s, acts[0], request) then 1 else 0) + Forgotten(Do(s, acts[0]), acts[1..], request)
  }

  lemma EffectEnds(s: State, a: Action, request: nat)
    requires Inv(s) && Line(s) && Enabled(s, a) && Effect(s, a, request)
    ensures Pending(s, request) && !Pending(Do(s, a), request)
  {
    var t := Do(s, a);
    var k := a.k;
    assert MayAct(s, k, request);
    RootIsEarlier(s, k);
    forall i
      ensures !MayAct(t, i, request)
    {
      if MayAct(t, i, request) && i != k {
        assert Open(s, i) && Open(s, k);
        if s.calls[k].parent == Some(s.calls[i].phase.child) { NoLiveGrandchild(s, i, k); }
      }
    }
  }

  lemma DecidedStays(s: State, a: Action, i: nat)
    requires Enabled(s, a) && i in s.calls && s.next !in s.calls && Decided(s.calls[i].phase)
    ensures i in Do(s, a).calls && Decided(Do(s, a).calls[i].phase)
  {
  }

  lemma PendingOrigin(s: State, a: Action, request: nat, i: nat)
    requires Inv(s) && Enabled(s, a) && MayAct(Do(s, a), i, request) && !Forgets(s, a, request)
    ensures Pending(s, request)
  {
    var t := Do(s, a);
    assert s.next !in s.calls;
    if i !in s.calls {
      if a.Route? { assert MayAct(s, a.k, request); }
    } else if a == Retry(i) || a == Route(i) {
      if a.Retry? { assert CallOk(s, i); }
      assert MayAct(s, i, request);
    } else {
      StillMayAct(s, a, request, i);
    }
  }

  lemma StillMayAct(s: State, a: Action, request: nat, i: nat)
    requires Inv(s) && Enabled(s, a) && MayAct(Do(s, a), i, request) && i in s.calls && a != Retry(i) && a != Route(i)
    ensures MayAct(s, i, request)
  {
    var t := Do(s, a);
    assert CallOk(s, i);
    CallStays(s, a, i);
    if s.calls[i].phase.Forwarded? && Decided(s.calls[s.calls[i].phase.child].phase) {
      DecidedStays(s, a, s.calls[i].phase.child);
    }
    if Decided(s.calls[i].phase) { DecidedStays(s, a, i); }
  }

  lemma {:induction false} EffectsBounded(s: State, acts: seq<Action>, request: nat)
    requires Inv(s) && Line(s) && IsRun(s, acts)
    ensures Effects(s, acts, request) <= (if Pending(s, request) then 1 else 0) + Forgotten(s, acts, request)
    decreases |acts|
  {
    if acts != [] {
      var a := acts[0];
      var t := Do(s, a);
      InvStep(s, a);
      LineStep(s, a);
      EffectsBounded(t, acts[1..], request);
      if Effect(s, a, request) {
        EffectEnds(s, a, request);
      } else if Pending(t, request) && !Forgets(s, a, request) {
        if request < t.next {
          var i :| MayAct(t, i, request);
          PendingOrigin(s, a, request, i);
        }
      }
    }
  }

  /** In every run a client request is carried out at most once, and once more for each retry that gives up, after
      a crash, on a call that had got past its change. */
  lemma CarriedOutOnce(hash: string -> nat, acts: seq<Action>, request: nat)
    requires IsRun(Init(hash), acts)
    ensures Effects(Init(hash), acts, request) <= 1 + Forgotten(Init(hash), acts, request)
  {
    EffectsBounded(Init(hash), acts, request);
  }
}
