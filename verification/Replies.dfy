/** What a client is told. An answer is what the operation answers on the store of an owner in some state of
    the run; one that was carried out is answered with its own reply unless the backup has acknowledged it;
    and a forwarded request is answered with what the call it was forwarded to has answered. */
module Replies {

  import opened Prelude
  import opened Servers
  import opened StoreSpec
  import opened Cluster
  import opened Protocol
  import opened Outcomes
  import C = Channels

  predicate Answered(ph: Phase)
  {
    ph.Replying? || ph.Done?
  }

  // ---------- the answer to an operation that was carried out ----------

  /** Some state of the run has call k in this phase. */
  predicate Passes(s: State, acts: seq<Action>, k: nat, ph: Phase)
    requires IsRun(s, acts)
    decreases |acts|
  {
    || (k in s.calls && s.calls[k].phase == ph)
    || (acts != [] && Passes(Do(s, acts[0]), acts[1..], k, ph))
  }

  /** There is nobody the server could wait for: it is the backup itself, or has marked the backup dead. */
  predicate Alone(s: State, k: nat)
    requires k in s.calls
  {
    var c := s.calls[k];
    var b := OwnersOf(s.hash, c.op).backup;
    c.at == b || (c.at, b) in s.suspects
  }

  lemma HeldStep(s: State, a: Action, k: nat)
    requires Inv(s) && Enabled(s, a) && k in s.calls && Holding(s.calls[k].phase).Some?
    ensures
      var ph, ph' := s.calls[k].phase, Do(s, a).calls[k].phase;
      || Holding(ph') == Holding(ph)
      || (Answered(ph') && ph == Acked(Holding(ph).value, ph'.reply))
      || (Answered(ph') && ph'.reply == Holding(ph).value && Alone(s, k))
  {
  }

  lemma AnsweredStep(s: State, a: Action, k: nat)
    requires Inv(s) && Enabled(s, a) && k in s.calls && Answered(s.calls[k].phase)
    ensures
      var ph, ph' := s.calls[k].phase, Do(s, a).calls[k].phase;
      Answered(ph') && ph'.reply == ph.reply && (ph.Done? ==> ph'.Done?)
  {
  }

  lemma MarksStay(s: State, a: Action)
    requires Enabled(s, a)
    ensures Do(s, a).hash == s.hash && s.suspects <= Do(s, a).suspects
  {
  }

  lemma {:induction false} AnswerStays(s: State, acts: seq<Action>, k: nat)
    requires Inv(s) && IsRun(s, acts) && k in s.calls && Answered(s.calls[k].phase)
    ensures After(s, acts).hash == s.hash && s.suspects <= After(s, acts).suspects
    ensures k in After(s, acts).calls
    ensures Answered(After(s, acts).calls[k].phase) && After(s, acts).calls[k].phase.reply == s.calls[k].phase.reply
    decreases |acts|
  {
    if acts != [] {
      InvStep(s, acts[0]);
      AnsweredStep(s, acts[0], k);
      MarksStay(s, acts[0]);
      AnswerStays(Do(s, acts[0]), acts[1..], k);
    }
  }

  /** An operation that was carried out, with reply r, still waits with this reply, or is answered: with r, by a
      server that has nobody to wait for, or with what the backup has acknowledged. */
  ghost predicate KeepsFaith(s: State, acts: seq<Action>, k: nat, r: Reply)
    requires IsRun(s, acts)
  {
    var t := After(s, acts);
    && k in t.calls
    && var ph := t.calls[k].phase;
       || Holding(ph) == Some(r)
       || (Answered(ph) && (Passes(s, acts, k, Acked(r, ph.reply)) || (ph.reply == r && Alone(t, k))))
  }

  lemma {:induction false} HeldRun(s: State, acts: seq<Action>, k: nat, r: Reply)
    requires Inv(s) && IsRun(s, acts) && k in s.calls && Holding(s.calls[k].phase) == Some(r)
    ensures KeepsFaith(s, acts, k, r)
    decreases |acts|
  {
    if acts != [] {
      var s' := Do(s, acts[0]);
      InvStep(s, acts[0]);
      CallStays(s, acts[0], k);
      HeldStep(s, acts[0], k);
      MarksStay(s, acts[0]);
      if Holding(s'.calls[k].phase) == Some(r) {
        HeldRun(s', acts[1..], k, r);
      } else {
        AnswerStays(s', acts[1..], k);
        CallsStay(s', acts[1..], k);
        assert Alone(s, k) ==> Alone(After(s', acts[1..]), k);
      }
    }
  }

  /** In every run, from the change of an operation on. */
  lemma CarriedOutIsAnswered(hash: string -> nat, before: seq<Action>, acts: seq<Action>, k: nat, r: Reply)
    requires IsRun(Init(hash), before) && IsRun(After(Init(hash), before), acts)
    requires k in After(Init(hash), before).calls && Holding(After(Init(hash), before).calls[k].phase) == Some(r)
    ensures KeepsFaith(After(Init(hash), before), acts, k, r)
  {
    C.InitChannels(hash);
    C.RunKeeps(Init(hash), before);
    HeldRun(After(Init(hash), before), acts, k, r);
  }

  /** A backup that has crashed acknowledges nothing. */
  lemma {:induction false} NoLateAck(s: State, acts: seq<Action>, k: nat, ph: Phase)
    requires Inv(s) && IsRun(s, acts) && k in s.calls && ph.Acked?
    requires OwnersOf(s.hash, s.calls[k].op).backup !in s.live && !s.calls[k].phase.Acked?
    ensures !Passes(s, acts, k, ph)
    decreases |acts|
  {
    if acts != [] {
      InvStep(s, acts[0]);
      CallStays(s, acts[0], k);
      NoLateAck(Do(s, acts[0]), acts[1..], k, ph);
    }
  }

  /** An operation that the server in charge has accepted is never refused because its backup is lost: if the
      backup crashes before it acknowledges, the answer is the success that the operation had. */
  lemma LostBackupIsNoRefusal(hash: string -> nat, before: seq<Action>, acts: seq<Action>, k: nat)
    requires IsRun(Init(hash), before) && IsRun(After(Init(hash), before), acts)
    requires
      var s := After(Init(hash), before);
      && k in s.calls && Holding(s.calls[k].phase).Some? && !s.calls[k].phase.Acked?
      && OwnersOf(s.hash, s.calls[k].op).backup !in s.live
    ensures
      var s, t := After(Init(hash), before), After(After(Init(hash), before), acts);
      k in t.calls && (Answered(t.calls[k].phase) ==>
        && t.calls[k].phase.reply == Holding(s.calls[k].phase).value
        && (if t.calls[k].op.SendMessage? then t.calls[k].phase.reply.Sent? else t.calls[k].phase.reply.Accepted?))
  {
    var s, t := After(Init(hash), before), After(After(Init(hash), before), acts);
    C.InitChannels(hash);
    C.RunKeeps(Init(hash), before);
    var r := Holding(s.calls[k].phase).value;
    HeldRun(s, acts, k, r);
    CallsStay(s, acts, k);
    assert CallOk(s, k);
    if Answered(t.calls[k].phase) {
      NoLateAck(s, acts, k, Acked(r, t.calls[k].phase.reply));
    }
  }

  // ---------- what a poisoned lock does ----------

  /** The first checks and the change panic exactly when they take a poisoned lock: the checks of a leave or send whose
      channel name is valid, every creation, and the change of any other operation whose user was found, for a join
      provided that the name is valid. All other answers are given without the lock. */
  lemma LockPanicsIff(hash: string -> nat, acts: seq<Action>, a: Action)
    requires IsRun(Init(hash), acts) && Enabled(After(Init(hash), acts), a) && (a.Check? || a.Change?)
    ensures
      var s := After(Init(hash), acts);
      var c := s.calls[a.k];
      Do(s, a).calls[a.k].phase.Panicked?
      <==> && c.at in s.poisoned
           && if a.Check? then (c.op.LeaveChannel? || c.op.SendMessage?) && StartsWithHash(c.op.channel)
              else c.op.CreateUser? || (a.found && (c.op.JoinChannel? ==> StartsWithHash(c.op.channel)))
  {
  }

  // ---------- the answer to a forwarded request ----------

  /** Call k waits for its child, has been answered what the child has answered, or has given up on it. */
  predicate ChildAnswers(t: State, k: nat, child: nat, retries: nat)
  {
    && k in t.calls && t.calls[k].retries >= retries
    && (t.calls[k].retries == retries ==>
          || t.calls[k].phase == Forwarded(child)
          || (&& Answered(t.calls[k].phase)
              && child in t.calls && t.calls[child].phase == Done(t.calls[k].phase.reply)))
  }

  lemma RetriesGrow(s: State, a: Action, k: nat)
    requires Inv(s) && Enabled(s, a) && k in s.calls
    ensures Do(s, a).calls[k].retries >= s.calls[k].retries
  {
  }

  lemma ForwardedStep(s: State, a: Action, k: nat)
    requires Inv(s) && Enabled(s, a) && k in s.calls && s.calls[k].phase.Forwarded?
    ensures
      var c, c' := s.calls[k], Do(s, a).calls[k];
      c'.retries == c.retries ==>
        || c'.phase == c.phase
        || (&& Answered(c'.phase) && c.phase.child in Do(s, a).calls
            && Do(s, a).calls[c.phase.child].phase == Done(c'.phase.reply))
  {
  }

  lemma ChildStep(s: State, a: Action, k: nat, child: nat, retries: nat)
    requires Inv(s) && Enabled(s, a) && ChildAnswers(s, k, child, retries)
    ensures ChildAnswers(Do(s, a), k, child, retries)
  {
    CallStays(s, a, k);
    RetriesGrow(s, a, k);
    if s.calls[k].phase == Forwarded(child) {
      ForwardedStep(s, a, k);
    } else if s.calls[k].retries == retries {
      CallStays(s, a, child);
      AnsweredStep(s, a, k);
      AnsweredStep(s, a, child);
    }
  }

  lemma {:induction false} ChildRun(s: State, acts: seq<Action>, k: nat, child: nat, retries: nat)
    requires Inv(s) && IsRun(s, acts) && ChildAnswers(s, k, child, retries)
    ensures ChildAnswers(After(s, acts), k, child, retries)
    decreases |acts|
  {
    if acts != [] {
      InvStep(s, acts[0]);
      ChildStep(s, acts[0], k, child, retries);
      ChildRun(Do(s, acts[0]), acts[1..], k, child, retries);
    }
  }

  /** A server that has forwarded a request and does not retry it answers with the reply of the call it has
      forwarded it to, which is then done. */
  lemma ForwardedAnswer(hash: string -> nat, before: seq<Action>, acts: seq<Action>, k: nat)
    requires IsRun(Init(hash), before) && IsRun(After(Init(hash), before), acts)
    requires k in After(Init(hash), before).calls && After(Init(hash), before).calls[k].phase.Forwarded?
    ensures
      var s, t := After(Init(hash), before), After(After(Init(hash), before), acts);
      ChildAnswers(t, k, s.calls[k].phase.child, s.calls[k].retries)
  {
    var s := After(Init(hash), before);
    C.InitChannels(hash);
    C.RunKeeps(Init(hash), before);
    ChildRun(s, acts, k, s.calls[k].phase.child, s.calls[k].retries);
  }

  // ---------- where answers come from ----------

  /** In state s the operation of call k has the answer a on the store of an owner: of the server in charge, at
      its first checks or once the lookup of the user is over, or of the backup that is sent the copy. */
  ghost predicate Decides(s: State, k: nat, a: Reply)
    requires k in s.calls
  {
    var c := s.calls[k];
    var o := OwnersOf(s.hash, c.op);
    || (&& c.phase.Authorised? && Authoritative(s, c.at, o)
        && forall found :: RightAnswer(s.stores[c.at], c.op, found, a))
    || (&& c.phase.Checked? && Authoritative(s, c.at, o)
        && exists found :: MayChange(c, found) && RightAnswer(s.stores[c.at], c.op, found, a))
    || (&& c.phase.Replicating? && c.at == o.primary && !c.op.SendMessage?
        && RightAnswer(s.stores[o.backup], c.op, true, a))
  }

  /** A call of the request with this operation. */
  predicate Belongs(s: State, k: nat, root: nat, op: Op)
  {
    k in s.calls && s.calls[k].root == root && s.calls[k].op == op
  }

  /** Some state of the run decides the request. */
  ghost predicate Decided(s: State, acts: seq<Action>, root: nat, op: Op, a: Reply)
    requires IsRun(s, acts)
    decreases |acts|
  {
    || (exists k :: Belongs(s, k, root, op) && Decides(s, k, a))
    || (acts != [] && Decided(Do(s, acts[0]), acts[1..], root, op, a))
  }

  /** Call k holds the answer, has been told it by the backup, or has given it. */
  predicate Has(s: State, k: nat, a: Reply)
    requires k in s.calls
  {
    var ph := s.calls[k].phase;
    (Answered(ph) && ph.reply == a) || Holding(ph) == Some(a) || (ph.Acked? && ph.ack == a)
  }

  /** The change has the right answer: what was checked before the lookup still holds. */
  lemma PerformAnswers(st: Store, op: Op, found: bool)
    requires Precheck(st, op).None?
    ensures RightAnswer(st, op, found, Perform(st, op, found).1)
  {
    AnswersExactly(st, op, found, Perform(st, op, found).1);
  }

  lemma CheckAnswers(st: Store, op: Op, found: bool)
    requires Precheck(st, op).Some?
    ensures RightAnswer(st, op, found, Rejected(Precheck(st, op).value))
  {
    AnswersExactly(st, op, found, Rejected(Precheck(st, op).value));
  }

  lemma ChangeDecides(s: State, k: nat, found: bool, a: Reply)
    requires Inv(s) && C.ChannelInv(s) && Enabled(s, Change(k, found)) && Has(Do(s, Change(k, found)), k, a)
    ensures Decides(s, k, a)
  {
    var c := s.calls[k];
    assert CallOk(s, k) && C.ChannelCall(s, k);
    assert !c.op.CreateUser? && !c.op.JoinChannel? ==> ChannelExists(s, c.at, c.op.channel);
    PerformAnswers(s.stores[c.at], c.op, found);
  }

  lemma CheckDecides(s: State, k: nat, a: Reply)
    requires Inv(s) && Enabled(s, Check(k)) && Has(Do(s, Check(k)), k, a)
    ensures Decides(s, k, a)
  {
    var c := s.calls[k];
    assert CallOk(s, k);
    forall found
      ensures RightAnswer(s.stores[c.at], c.op, found, a)
    {
      CheckAnswers(s.stores[c.at], c.op, found);
    }
  }

  lemma CopyDecides(s: State, k: nat, a: Reply)
    requires Inv(s) && Enabled(s, Replicate(k)) && Has(Do(s, Replicate(k)), k, a) && !Has(s, k, a)
    ensures Decides(s, k, a)
  {
    var c := s.calls[k];
    assert CallOk(s, k);
    AnswersExactly(s.stores[OwnersOf(s.hash, c.op).backup], c.op, true, a);
  }

  lemma ElsewhereStep(s: State, act: Action, k: nat, a: Reply)
    requires Inv(s) && Enabled(s, act) && k in Do(s, act).calls && Has(Do(s, act), k, a)
    requires act != Check(k) && act != Replicate(k) && !(act.Change? && act.k == k)
    requires !(act.Answer? && s.calls[act.k].parent == Some(k))
    ensures k in s.calls && Has(s, k, a)
  {
  }

  /** An answer that shows up in a call was there before, in it or in the call it was waiting for, or is
      decided by this very step. */
  lemma SourceStep(s: State, act: Action, k: nat, a: Reply) returns (j: nat)
    requires Inv(s) && C.ChannelInv(s) && Enabled(s, act) && k in Do(s, act).calls && Has(Do(s, act), k, a)
    ensures Belongs(s, j, Do(s, act).calls[k].root, Do(s, act).calls[k].op)
    ensures Has(s, j, a) || Decides(s, j, a)
  {
    j := k;
    if act == Check(k) {
      CheckDecides(s, k, a);
    } else if act.Change? && act.k == k {
      ChangeDecides(s, k, act.found, a);
    } else if act == Replicate(k) {
      if !Has(s, k, a) { CopyDecides(s, k, a); }
    } else if act.Answer? && s.calls[act.k].parent == Some(k) {
      j := act.k;
      assert CallOk(s, j);
    } else {
      ElsewhereStep(s, act, k, a);
    }
    if k in s.calls { CallStays(s, act, k); }
  }

  lemma {:induction false} SourceRun(s: State, acts: seq<Action>, k: nat, a: Reply)
    requires Inv(s) && C.ChannelInv(s) && IsRun(s, acts) && k in After(s, acts).calls && Has(After(s, acts), k, a)
    ensures
      var c := After(s, acts).calls[k];
      Decided(s, acts, c.root, c.op, a) || exists j :: Belongs(s, j, c.root, c.op) && Has(s, j, a)
    decreases |acts|
  {
    var c := After(s, acts).calls[k];
    if acts == [] {
      assert Belongs(s, k, c.root, c.op);
    } else {
      var s' := Do(s, acts[0]);
      InvStep(s, acts[0]);
      C.ChannelStep(s, acts[0]);
      SourceRun(s', acts[1..], k, a);
      if !Decided(s', acts[1..], c.root, c.op, a) {
        var i :| Belongs(s', i, c.root, c.op) && Has(s', i, a);
        var j := SourceStep(s, acts[0], i, a);
        assert Belongs(s, j, c.root, c.op);
      }
    }
  }

  /** In every run a client is answered only what its operation answers, in some state of the run and for a call
      of this very request, on the store of the server in charge or, for a copy, of its backup. */
  lemma AnswersAreDecided(hash: string -> nat, acts: seq<Action>, k: nat, a: Reply)
    requires IsRun(Init(hash), acts)
    requires k in After(Init(hash), acts).calls && After(Init(hash), acts).calls[k].phase == Done(a)
    ensures
      var c := After(Init(hash), acts).calls[k];
      Decided(Init(hash), acts, c.root, c.op, a)
  {
    C.InitChannels(hash);
    SourceRun(Init(hash), acts, k, a);
  }
}
