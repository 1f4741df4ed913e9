/** Where a request goes: one authority per key, a bounded number of forwards, no cycle; and the two
    ways in which a request ends without an answer. */
module Forwarding {

  import opened Prelude
  import opened Servers
  import opened StoreSpec
  import opened Cluster
  import opened Protocol

  lemma {:induction false} RunKeeps(s: State, acts: seq<Action>)
    requires Inv(s) && IsRun(s, acts)
    ensures Inv(After(s, acts))
    decreases |acts|
  {
    if acts != [] {
      InvStep(s, acts[0]);
      RunKeeps(Do(s, acts[0]), acts[1..]);
    }
  }

  /** No two live servers ever both treat themselves as authoritative for a key, and work on an
      operation is only ever done by such a server. */
  lemma SingleAuthority(hash: string -> nat, acts: seq<Action>, i: nat, k: nat)
    requires IsRun(Init(hash), acts)
    requires
      var s := After(Init(hash), acts);
      && CanRun(s, i) && CanRun(s, k)
      && Working(s.calls[i].phase) && Working(s.calls[k].phase)
      && OwnersOf(s.hash, s.calls[i].op) == OwnersOf(s.hash, s.calls[k].op)
    ensures
      var s := After(Init(hash), acts);
      && s.calls[i].at == s.calls[k].at
      && Authoritative(s, s.calls[i].at, OwnersOf(s.hash, s.calls[i].op))
      && (forall x :: x in s.live && Authoritative(s, x, OwnersOf(s.hash, s.calls[i].op)) ==> x == s.calls[i].at)
  {
    RunKeeps(Init(hash), acts);
    var s := After(Init(hash), acts);
    assert CallOk(s, i) && CallOk(s, k);
  }

  /** How often the request has been forwarded to reach this call. */
  ghost function Hops(s: State, k: nat): nat
    requires Inv(s) && k in s.calls
  {
    assert CallOk(s, k);
    if s.calls[k].parent.None? then 0 else 1 + Hops(s, s.calls[k].parent.value)
  }

  function Marked(s: State, x: Server, q: Server): nat
  {
    if (x, q) in s.suspects then 1 else 0
  }

  /** A request travels over two hops at most, the second one to the primary, and never back to the
      server it comes from. Unless both owners are marked dead, the forwards of a call that brought
      nothing are at most as many as the owners its server has marked since, hence at most one, and
      a call forwards at most twice. */
  lemma ForwardingIsBounded(hash: string -> nat, acts: seq<Action>, k: nat)
    requires IsRun(Init(hash), acts) && k in After(Init(hash), acts).calls
    ensures
      var s := After(Init(hash), acts);
      var c := s.calls[k];
      var o := OwnersOf(s.hash, c.op);
      && Inv(s)
      && Hops(s, k) <= 2
      && (Hops(s, k) == 2 ==> c.at == o.primary)
      && (c.parent.Some? ==> c.parent.value in s.calls && s.calls[c.parent.value].at != c.at)
      && (!BothMarked(s, k) ==>
            && c.retries <= Marked(s, c.at, o.primary) + Marked(s, c.at, o.backup)
            && c.retries + (if c.phase.Forwarded? then 1 else 0) <= 2)
  {
    RunKeeps(Init(hash), acts);
    var s := After(Init(hash), acts);
    assert CallOk(s, k) && RetriesOk(s, k);
    if s.calls[k].parent.Some? {
      var j := s.calls[k].parent.value;
      assert CallOk(s, j);
      if s.calls[j].parent.Some? {
        assert CallOk(s, s.calls[j].parent.value);
      }
    }
  }

  /** A forward panics exactly when the call is on the backup and the primary has been marked dead
      between the two reads of its state. */
  lemma RoutePanicsIff(hash: string -> nat, acts: seq<Action>, k: nat)
    requires IsRun(Init(hash), acts) && Enabled(After(Init(hash), acts), Route(k))
    ensures
      var s := After(Init(hash), acts);
      var c := s.calls[k];
      var o := OwnersOf(s.hash, c.op);
      Do(s, Route(k)).calls[k].phase.Panicked? <==> c.at == o.backup && (c.at, o.primary) in s.suspects
  {
    RunKeeps(Init(hash), acts);
    assert CallOk(After(Init(hash), acts), k);
  }

  /** A live call whose server has marked both owners dead, between two fruitless forwards. */
  ghost predicate Doomed(s: State, k: nat)
  {
    && k in s.calls
    && BothMarked(s, k)
    && var c := s.calls[k];
       && c.at != OwnersOf(s.hash, c.op).primary
       && c.at != OwnersOf(s.hash, c.op).backup
       && (|| c.phase.Start?
           || c.phase.Routing?
           || (&& c.phase.Forwarded?
               && c.phase.child in s.calls
               && s.calls[c.phase.child].phase.Travelling?
               && s.calls[c.phase.child].at !in s.live))
  }

  /** Only a call's own steps, and an answer to it, change the call. */
  lemma OthersKeepCall(s: State, a: Action, k: nat)
    requires Enabled(s, a) && k in s.calls && s.next !in s.calls
    requires !a.Crash? && !a.Suspect? && !a.Submit? ==> a.k != k
    requires a.Answer? ==> s.calls[a.k].parent != Some(k)
    ensures k in Do(s, a).calls && Do(s, a).calls[k] == s.calls[k]
    ensures Do(s, a).hash == s.hash && Do(s, a).live <= s.live && s.suspects <= Do(s, a).suspects
  {
  }

  lemma OwnStep(s: State, a: Action, k: nat)
    requires Inv(s) && Enabled(s, a) && Doomed(s, k)
    requires (a.Decide? || a.Route? || a.Retry?) && a.k == k
    ensures Doomed(Do(s, a), k)
  {
    assert CallOk(s, k);
  }

  lemma DoomedStep(s: State, a: Action, k: nat)
    requires Inv(s) && Enabled(s, a) && Doomed(s, k)
    ensures Doomed(Do(s, a), k)
  {
    var c := s.calls[k];
    assert CallOk(s, k);
    if (a.Decide? || a.Route? || a.Retry?) && a.k == k {
      OwnStep(s, a, k);
    } else {
      if c.phase.Forwarded? {
        assert CallOk(s, c.phase.child);
        OthersKeepCall(s, a, c.phase.child);
      }
      OthersKeepCall(s, a, k);
    }
  }

  /** With both owners marked dead the retries never end: no continuation of the run answers the call. */
  lemma {:induction false} DoomedForever(s: State, acts: seq<Action>, k: nat)
    requires Inv(s) && Doomed(s, k) && IsRun(s, acts)
    ensures Doomed(After(s, acts), k) && !After(s, acts).calls[k].phase.Done?
    decreases |acts|
  {
    if acts != [] {
      InvStep(s, acts[0]);
      DoomedStep(s, acts[0], k);
      DoomedForever(Do(s, acts[0]), acts[1..], k);
    }
  }
}
