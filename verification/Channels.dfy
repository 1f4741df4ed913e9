/** Which channels exist where. Channels are created by joins and never removed, so a call that has found
    its channel keeps it, and the copy of a send panics on a backup exactly while the channel is not
    there: never again once a join of the channel was acknowledged. */
module Channels {

  import opened Prelude
  import opened Servers
  import opened StoreSpec
  import opened Cluster
  import opened Protocol

  predicate JoinAnswered(c: Call)
  {
    c.op.JoinChannel? && (c.phase.Replying? || c.phase.Done?) && c.phase.reply == Accepted
  }

  predicate OnLiveOwners(s: State, channel: string)
  {
    var o := ChannelOwner(s.hash, channel);
    && (o.primary in s.live ==> ChannelExists(s, o.primary, channel))
    && (o.backup in s.live ==> ChannelExists(s, o.backup, channel))
  }

  predicate ChannelCall(s: State, k: nat)
    requires k in s.calls
  {
    var c := s.calls[k];
    && (c.phase.Checked? && c.op.CreateUser? ==> c.op.user != [])
    && (c.phase.Checked? && (c.op.LeaveChannel? || c.op.SendMessage?) ==> ChannelExists(s, c.at, c.op.channel))
    && (Holding(c.phase).Some? && !c.op.CreateUser? ==> ChannelExists(s, c.at, c.op.channel))
    && (c.phase.Acked? && c.op.JoinChannel? ==>
          ChannelExists(s, ChannelOwner(s.hash, c.op.channel).backup, c.op.channel))
    && (JoinAnswered(c) ==> OnLiveOwners(s, c.op.channel))
  }

  /** Nobody waits for a call that is done. */
  predicate Awaited(s: State, i: nat)
    requires i in s.calls
  {
    var ph := s.calls[i].phase;
    ph.Forwarded? ==> ph.child in s.calls && !s.calls[ph.child].phase.Done?
  }

  ghost predicate ChannelInv(s: State)
  {
    && (forall x: Server, ch {:trigger ChannelExists(s, x, ch)} :: ChannelExists(s, x, ch) ==> ValidName(ch))
    && (forall k {:trigger ChannelCall(s, k)} :: k in s.calls ==> ChannelCall(s, k))
    && (forall k {:trigger Awaited(s, k)} :: k in s.calls ==> Awaited(s, k))
  }

  /** Channels are only added, and only under valid names. */
  ghost predicate Grows(s: State, s': State)
  {
    && s'.hash == s.hash && s'.live <= s.live
    && (forall x: Server, ch {:trigger ChannelExists(s', x, ch)} ::
          && (ChannelExists(s, x, ch) ==> ChannelExists(s', x, ch))
          && (ChannelExists(s', x, ch) ==> ChannelExists(s, x, ch) || ValidName(ch)))
  }

  lemma StoreGrows(st: Store, op: Op, found: bool, reply: Reply, ch: string)
    ensures
      var st' := Perform(st, op, found).0;
      (ch in st.channels ==> ch in st'.channels) && (ch in st'.channels ==> ch in st.channels || ValidName(ch))
    ensures
      Mirror(st, op, reply).Mirrored? ==>
        var st' := Mirror(st, op, reply).store;
        (ch in st.channels ==> ch in st'.channels) && (ch in st'.channels ==> ch in st.channels || ValidName(ch))
  {
  }

  lemma StepGrows(s: State, a: Action)
    requires Enabled(s, a)
    ensures Grows(s, Do(s, a))
  {
    var s' := Do(s, a);
    forall x: Server, ch
      ensures ChannelExists(s, x, ch) ==> ChannelExists(s', x, ch)
      ensures ChannelExists(s', x, ch) ==> ChannelExists(s, x, ch) || ValidName(ch)
    {
      if a.Change? {
        StoreGrows(s.stores[x], s.calls[a.k].op, a.found, Accepted, ch);
      } else if a.Replicate? {
        StoreGrows(s.stores[x], s.calls[a.k].op, true, s.calls[a.k].phase.reply, ch);
      }
    }
  }

  /** A call that a step leaves alone keeps its channels. */
  lemma Untouched(s: State, s': State, k: nat)
    requires k in s.calls && k in s'.calls && s'.calls[k] == s.calls[k]
    requires ChannelCall(s, k) && Grows(s, s')
    ensures ChannelCall(s', k)
  {
    var o := ChannelOwner(s.hash, if s.calls[k].op.CreateUser? then "" else s.calls[k].op.channel);
    assert forall x: Server, ch :: ChannelExists(s, x, ch) ==> ChannelExists(s', x, ch);
  }

  lemma PerformFinds(st: Store, op: Op, found: bool)
    requires !op.CreateUser? && !Perform(st, op, found).1.Rejected?
    ensures op.channel in Perform(st, op, found).0.channels
  {
  }

  lemma MirrorFinds(st: Store, op: Op, reply: Reply)
    requires op.JoinChannel? && ValidName(op.channel)
    ensures Mirror(st, op, reply).Mirrored? && op.channel in Mirror(st, op, reply).store.channels
  {
  }

  /** The calls up to the change. */
  lemma EarlyCall(s: State, a: Action)
    requires Inv(s) && ChannelInv(s) && Enabled(s, a)
    requires a.Arrive? || a.Decide? || a.Seek? || a.SeekAgain? || a.Route? || a.Check? || a.Change? || a.Retry?
    ensures ChannelCall(Do(s, a), a.k)
  {
    if a.Change? {
      ChangedCall(s, a.k, a.found);
    } else if a.Seek? || a.SeekAgain? {
      assert ChannelCall(s, a.k);
    } else {
      assert s.next !in s.calls;
    }
  }

  lemma ChangedCall(s: State, k: nat, found: bool)
    requires Inv(s) && Enabled(s, Change(k, found))
    ensures ChannelCall(Do(s, Change(k, found)), k)
  {
    var c := s.calls[k];
    if !c.op.CreateUser? && !Perform(s.stores[c.at], c.op, found).1.Rejected? {
      PerformFinds(s.stores[c.at], c.op, found);
    }
  }

  lemma CopiedCall(s: State, k: nat)
    requires Inv(s) && ChannelInv(s) && Enabled(s, Replicate(k))
    ensures ChannelCall(Do(s, Replicate(k)), k)
  {
    var c := s.calls[k];
    StepGrows(s, Replicate(k));
    assert CallOk(s, k) && ChannelCall(s, k);
    if !c.op.CreateUser? {
      assert ChannelExists(s, c.at, c.op.channel);
      if c.op.JoinChannel? {
        MirrorFinds(s.stores[ChannelOwner(s.hash, c.op.channel).backup], c.op, c.phase.reply);
      }
    }
  }

  /** The calls from the change on: the answer to a join leaves when every live owner has the channel. */
  lemma LateCall(s: State, a: Action)
    requires Inv(s) && ChannelInv(s) && Enabled(s, a)
    requires a.Copy? || a.Replicate? || a.Confirm? || a.Abandon?
    ensures ChannelCall(Do(s, a), a.k)
  {
    if a.Replicate? {
      CopiedCall(s, a.k);
    } else {
      assert CallOk(s, a.k) && ChannelCall(s, a.k);
      if !s.calls[a.k].op.CreateUser? { assert ChannelExists(s, s.calls[a.k].at, s.calls[a.k].op.channel); }
    }
  }

  lemma AnswerCalls(s: State, k: nat)
    requires Inv(s) && ChannelInv(s) && Enabled(s, Answer(k))
    ensures ChannelCall(Do(s, Answer(k)), k) && ChannelCall(Do(s, Answer(k)), s.calls[k].parent.value)
  {
    assert CallOk(s, k) && ChannelCall(s, k) && ChannelCall(s, s.calls[k].parent.value);
  }

  lemma CallsStep(s: State, a: Action, k: nat)
    requires Inv(s) && ChannelInv(s) && Enabled(s, a) && k in Do(s, a).calls
    ensures ChannelCall(Do(s, a), k)
  {
    var s' := Do(s, a);
    StepGrows(s, a);
    if k in s.calls && s'.calls[k] == s.calls[k] {
      assert ChannelCall(s, k);
      Untouched(s, s', k);
    } else if a.Answer? {
      AnswerCalls(s, a.k);
    } else if a.Copy? || a.Replicate? || a.Confirm? || a.Abandon? {
      LateCall(s, a);
    } else if a.Arrive? || a.Decide? || a.Seek? || a.SeekAgain? || a.Route? || a.Check? || a.Change? || a.Retry? {
      if a.k == k { EarlyCall(s, a); }
    }
  }

  /** A forwarded call is done only when it is answered to the call that waits for it. */
  lemma ChildDone(s: State, a: Action, j: nat)
    requires Enabled(s, a) && j in s.calls && s.next !in s.calls && s.calls[j].parent.Some?
    requires !s.calls[j].phase.Done?
    ensures j in Do(s, a).calls && (Do(s, a).calls[j].phase.Done? ==> a == Answer(j))
  {
  }

  lemma WaitsOn(s: State, a: Action, i: nat)
    requires Enabled(s, a) && i in Do(s, a).calls && Do(s, a).calls[i].phase.Forwarded?
    ensures
      var s' := Do(s, a);
      || (i in s.calls && s'.calls[i].phase == s.calls[i].phase && (a.Answer? ==> s.calls[a.k].parent != Some(i)))
      || (s'.calls[i].phase.child in s'.calls && s'.calls[s'.calls[i].phase.child].phase.Travelling?)
  {
  }

  lemma AwaitedStep(s: State, a: Action, i: nat)
    requires Inv(s) && ChannelInv(s) && Enabled(s, a) && i in Do(s, a).calls
    ensures Awaited(Do(s, a), i)
  {
    if Do(s, a).calls[i].phase.Forwarded? {
      WaitsOn(s, a, i);
      if i in s.calls && Do(s, a).calls[i].phase == s.calls[i].phase {
        assert Awaited(s, i) && CallOk(s, i);
        ChildDone(s, a, s.calls[i].phase.child);
      }
    }
  }

  lemma ChannelStep(s: State, a: Action)
    requires Inv(s) && ChannelInv(s) && Enabled(s, a)
    ensures ChannelInv(Do(s, a))
  {
    var s' := Do(s, a);
    StepGrows(s, a);
    forall k | k in s'.calls
      ensures ChannelCall(s', k)
    {
      CallsStep(s, a, k);
    }
    forall k | k in s'.calls
      ensures Awaited(s', k)
    {
      AwaitedStep(s, a, k);
    }
  }

  lemma {:induction false} RunKeeps(s: State, acts: seq<Action>)
    requires Inv(s) && ChannelInv(s) && IsRun(s, acts)
    ensures Inv(After(s, acts)) && ChannelInv(After(s, acts))
    decreases |acts|
  {
    if acts != [] {
      InvStep(s, acts[0]);
      ChannelStep(s, acts[0]);
      RunKeeps(Do(s, acts[0]), acts[1..]);
    }
  }

  lemma InitChannels(hash: string -> nat)
    ensures Inv(Init(hash)) && ChannelInv(Init(hash))
  {
    var s := Init(hash);
    forall x: Server, ch | ChannelExists(s, x, ch)
      ensures ValidName(ch)
    {
      match x case A => case B => case C =>
    }
  }

  /** A leave or send that has passed its first checks finds its channel when it comes to the change, so
      the lookup of the channel there never fails. */
  lemma CheckedFindsChannel(hash: string -> nat, acts: seq<Action>, k: nat)
    requires IsRun(Init(hash), acts) && k in After(Init(hash), acts).calls
    ensures
      var s := After(Init(hash), acts);
      var c := s.calls[k];
      c.phase.Checked? && (c.op.LeaveChannel? || c.op.SendMessage?) ==>
        ValidName(c.op.channel) && ChannelExists(s, c.at, c.op.channel)
  {
    InitChannels(hash);
    RunKeeps(Init(hash), acts);
    assert ChannelCall(After(Init(hash), acts), k);
  }

  /** The copy panics: it is a send, and the lookup of its channel on the backup fails. */
  predicate Panics(s: State, k: nat)
    requires Enabled(s, Replicate(k))
  {
    Do(s, Replicate(k)).poisoned != s.poisoned
  }

  lemma PanicsIff(s: State, k: nat)
    requires Inv(s) && ChannelInv(s) && Enabled(s, Replicate(k))
    ensures
      var c := s.calls[k];
      var b := OwnersOf(s.hash, c.op).backup;
      Panics(s, k) <==> c.op.SendMessage? && b !in s.poisoned && !ChannelExists(s, b, c.op.channel)
  {
    assert CallOk(s, k);
  }

  /** In every run a copy makes the backup panic exactly when it is a send, the backup is sound, and the
      channel does not exist there. */
  lemma CopyPanicsIff(hash: string -> nat, acts: seq<Action>, k: nat)
    requires IsRun(Init(hash), acts) && Enabled(After(Init(hash), acts), Replicate(k))
    ensures
      var s := After(Init(hash), acts);
      var c := s.calls[k];
      var b := OwnersOf(s.hash, c.op).backup;
      Panics(s, k) <==> c.op.SendMessage? && b !in s.poisoned && !ChannelExists(s, b, c.op.channel)
  {
    InitChannels(hash);
    RunKeeps(Init(hash), acts);
    PanicsIff(After(Init(hash), acts), k);
  }

  /** A copied join is refused exactly when the user is a member on the backup already, a copied leave
      exactly when he is not; no other reason is left. */
  lemma CopyRefusedIff(hash: string -> nat, acts: seq<Action>, k: nat)
    requires IsRun(Init(hash), acts) && Enabled(After(Init(hash), acts), Replicate(k))
    requires
      var s := After(Init(hash), acts);
      var op := s.calls[k].op;
      (op.JoinChannel? || op.LeaveChannel?) && OwnersOf(s.hash, op).backup !in s.poisoned
    ensures
      var s := After(Init(hash), acts);
      var c := s.calls[k];
      var member := c.op.user in ChannelAt(s.stores[OwnersOf(s.hash, c.op).backup], c.op.channel).users;
      var phase := Do(s, Replicate(k)).calls[k].phase;
      phase.Acked? && (phase.ack == c.phase.reply <==> (member <==> c.op.LeaveChannel?))
  {
    InitChannels(hash);
    RunKeeps(Init(hash), acts);
    var s := After(Init(hash), acts);
    assert CallOk(s, k) && ChannelCall(s, k);
    assert ChannelExists(s, s.calls[k].at, s.calls[k].op.channel);
  }

  /** A client's join that was accepted. */
  predicate Joined(s: State, k: nat, channel: string)
  {
    && k in s.calls && s.calls[k].parent.None? && s.calls[k].phase == Done(Accepted)
    && s.calls[k].op.JoinChannel? && s.calls[k].op.channel == channel
  }

  /** Once a join of the channel was acknowledged, the channel exists on every live owner and no later copy
      of a send on it panics, whatever the clients do and whatever crashes. */
  lemma NoPanicAfterJoin(hash: string -> nat, acts: seq<Action>, channel: string, join: nat, k: nat)
    requires IsRun(Init(hash), acts) && Joined(After(Init(hash), acts), join, channel)
    ensures
      var s := After(Init(hash), acts);
      && OnLiveOwners(s, channel)
      && (Enabled(s, Replicate(k)) && s.calls[k].op.SendMessage? && s.calls[k].op.channel == channel ==> !Panics(s, k))
  {
    InitChannels(hash);
    RunKeeps(Init(hash), acts);
    var s := After(Init(hash), acts);
    assert ChannelCall(s, join);
    if Enabled(s, Replicate(k)) { PanicsIff(s, k); }
  }

  lemma {:induction false} RunGrows(s: State, acts: seq<Action>)
    requires IsRun(s, acts)
    ensures Grows(s, After(s, acts))
    decreases |acts|
  {
    if acts != [] {
      StepGrows(s, acts[0]);
      RunGrows(Do(s, acts[0]), acts[1..]);
    }
  }
}
