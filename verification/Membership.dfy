/** Channel membership under disciplined clients: what a live primary accepted is never refused by
    the backup, the backup's lookups never panic, and the owners agree on every user at rest. */
module Membership {

  import opened Prelude
  import opened Servers
  import opened StoreSpec
  import opened Cluster
  import opened Protocol
  import opened SerialClients

  predicate IsMember(s: State, x: Server, channel: string, user: string)
  {
    user in ChannelAt(s.stores[x], channel).users
  }

  /** Applied by the primary and not yet by the backup. */
  predicate AppliedFor(s: State, k: nat, channel: string, user: string)
  {
    && OnChannel(s, k)
    && s.calls[k].op.channel == channel
    && s.calls[k].op.user == user
    && s.calls[k].at == ChannelOwner(s.hash, channel).primary
    && (s.calls[k].phase.Performed? || s.calls[k].phase.Replicating?)
  }

  predicate BothLive(s: State, channel: string)
  {
    var o := ChannelOwner(s.hash, channel);
    o.primary in s.live && o.backup in s.live
  }

  predicate MemberCall(s: State, k: nat)
    requires k in s.calls
  {
    var c := s.calls[k];
    && !c.phase.Unanswered?
    && (OnChannel(s, k) ==>
          var o := ChannelOwner(s.hash, c.op.channel);
          var applied := AppliedFor(s, k, c.op.channel, c.op.user);
          && (c.phase.Checked? || applied ==> c.op.JoinChannel? || ValidName(c.op.channel))
          && (applied ==> ValidName(c.op.channel) && Succeeds(c.op, c.phase.reply))
          && (applied && BothLive(s, c.op.channel) ==>
                && (c.op.LeaveChannel? <==> !IsMember(s, o.primary, c.op.channel, c.op.user))
                && (c.op.JoinChannel? <==> !IsMember(s, o.backup, c.op.channel, c.op.user)))
          && (applied && c.op.SendMessage? && o.backup in s.live ==> ChannelExists(s, o.backup, c.op.channel))
          && (c.phase.Acked? && c.at in s.live ==> c.phase.ack == c.phase.reply))
  }

  ghost predicate Settled(s: State, channel: string, user: string)
  {
    var o := ChannelOwner(s.hash, channel);
    BothLive(s, channel) && (forall k :: !AppliedFor(s, k, channel, user)) ==>
      (IsMember(s, o.primary, channel, user) <==> IsMember(s, o.backup, channel, user))
  }

  ghost predicate MemberInv(s: State)
  {
    && s.poisoned == {}
    && (forall k {:trigger MemberCall(s, k)} :: k in s.calls ==> MemberCall(s, k))
    && (forall c, u {:trigger Settled(s, c, u)} :: Settled(s, c, u))
  }

  ghost predicate SameMembers(s: State, s': State)
  {
    forall x: Server, c {:trigger ChannelAt(s'.stores[x], c)} {:trigger ChannelExists(s', x, c)} ::
      && ChannelAt(s'.stores[x], c).users == ChannelAt(s.stores[x], c).users
      && (ChannelExists(s, x, c) ==> ChannelExists(s', x, c))
  }

  lemma FrameKeeps(s: State, s': State)
    requires MemberInv(s)
    requires s'.hash == s.hash && s'.live <= s.live && s'.poisoned == {} && s'.calls == s.calls
    requires SameMembers(s, s')
    ensures MemberInv(s')
  {
    forall k | k in s'.calls
      ensures MemberCall(s', k)
    {
      assert MemberCall(s, k);
      if OnChannel(s, k) {
        var o := ChannelOwner(s.hash, s.calls[k].op.channel);
        assert ChannelExists(s, o.backup, s.calls[k].op.channel) ==> ChannelExists(s', o.backup, s.calls[k].op.channel);
      }
    }
    forall c, u
      ensures Settled(s', c, u)
    {
      assert Settled(s, c, u);
      forall k
        ensures AppliedFor(s, k, c, u) ==> AppliedFor(s', k, c, u)
      {
      }
    }
  }

  /** One call moves on: it is not applied anew, and stops being applied only when that is excused. */
  lemma CallKeeps(s: State, k: nat, c: Call)
    requires MemberInv(s)
    requires MemberCall(s.(calls := s.calls[k := c]), k)
    requires
      var s' := s.(calls := s.calls[k := c]);
      OnChannel(s, k) && AppliedFor(s, k, s.calls[k].op.channel, s.calls[k].op.user)
      && !AppliedFor(s', k, s.calls[k].op.channel, s.calls[k].op.user)
      ==> !BothLive(s, s.calls[k].op.channel)
    ensures MemberInv(s.(calls := s.calls[k := c]))
  {
    var s' := s.(calls := s.calls[k := c]);
    forall i | i in s'.calls
      ensures MemberCall(s', i)
    {
      if i != k { assert MemberCall(s, i); }
    }
    forall ch, u
      ensures Settled(s', ch, u)
    {
      assert Settled(s, ch, u);
      forall i
        ensures AppliedFor(s, i, ch, u) && BothLive(s, ch) ==> AppliedFor(s', i, ch, u)
      {
      }
    }
  }

  predicate Unapplied(c: Call)
  {
    !c.phase.Performed? && !c.phase.Replicating?
  }

  lemma IdleKeeps(s: State, k: nat, c: Call)
    requires MemberInv(s)
    requires k in s.calls ==> Unapplied(s.calls[k])
    requires Unapplied(c) && !c.phase.Unanswered? && !c.phase.Acked?
    requires c.phase.Checked? && !c.op.CreateUser? ==> c.op.JoinChannel? || ValidName(c.op.channel)
    ensures MemberInv(s.(calls := s.calls[k := c]))
  {
    CallKeeps(s, k, c);
  }

  lemma EnvironmentKeeps(s: State, a: Action)
    requires MemberInv(s) && Enabled(s, a)
      && (a.Crash? || a.Suspect? || a.Submit? || a.Arrive? || a.Decide? || a.Seek? || a.SeekAgain?)
    requires s.next !in s.calls
    ensures MemberInv(Do(s, a))
  {
    var s' := Do(s, a);
    if a.Crash? || a.Suspect? {
      FrameKeeps(s, s');
    } else {
      var k := if a.Submit? then s.next else a.k;
      assert !a.Submit? ==> MemberCall(s, k);
      IdleKeeps(s, k, s'.calls[k]);
      FrameKeeps(s.(calls := s.calls[k := s'.calls[k]]), s');
    }
  }

  lemma RoutingKeeps(s: State, a: Action)
    requires MemberInv(s) && Enabled(s, a) && (a.Route? || a.Check? || a.Retry?)
    requires s.next !in s.calls
    ensures MemberInv(Do(s, a))
  {
    var s' := Do(s, a);
    IdleKeeps(s, a.k, s'.calls[a.k]);
    if a.Route? && s'.calls[a.k].phase.Forwarded? {
      var mid := s.(calls := s.calls[a.k := s'.calls[a.k]]);
      IdleKeeps(mid, s.next, s'.calls[s.next]);
      FrameKeeps(mid.(calls := mid.calls[s.next := s'.calls[s.next]]), s');
    }
  }

  lemma AnswerKeeps(s: State, k: nat)
    requires Inv(s) && MemberInv(s) && Enabled(s, Answer(k))
    ensures MemberInv(Do(s, Answer(k)))
  {
    var c := s.calls[k];
    var j := c.parent.value;
    var mid := Move(s, k, Done(c.phase.reply));
    IdleKeeps(s, k, mid.calls[k]);
    IdleKeeps(mid, j, Do(s, Answer(k)).calls[j]);
  }

  lemma NewsStepKeeps(s: State, a: Action)
    requires Inv(s) && MemberInv(s) && Enabled(s, a) && (a.Copy? || a.Confirm? || a.Abandon?)
    ensures MemberInv(Do(s, a))
  {
    assert CallOk(s, a.k) && MemberCall(s, a.k);
    CallKeeps(s, a.k, Do(s, a).calls[a.k]);
  }

  lemma CreateKeepsChannels(st: Store, op: Op, found: bool, reply: Reply)
    requires op.CreateUser?
    ensures Perform(st, op, found).0.channels == st.channels
    ensures Mirror(st, op, reply).Mirrored? && Mirror(st, op, reply).store.channels == st.channels
  {
  }

  lemma CreateKeeps(s: State, a: Action)
    requires MemberInv(s) && Enabled(s, a) && (a.Change? || a.Replicate?)
    requires s.calls[a.k].op.CreateUser?
    ensures MemberInv(Do(s, a))
  {
    var s' := Do(s, a);
    var c := s.calls[a.k];
    if a.Change? {
      CreateKeepsChannels(s.stores[c.at], c.op, a.found, Accepted);
    } else {
      CreateKeepsChannels(s.stores[OwnersOf(s.hash, c.op).backup], c.op, true, c.phase.reply);
    }
    CallKeeps(s, a.k, s'.calls[a.k]);
    FrameKeeps(s.(calls := s'.calls), s');
  }

  /** The step gives `user` the membership `value` in one channel of one server, and nothing else
      about members changes. */
  ghost predicate OneMember(s: State, s': State, x: Server, channel: string, user: string, value: bool)
  {
    && s'.hash == s.hash && s'.live == s.live && s'.poisoned == s.poisoned
    && (forall y: Server, d, v {:trigger IsMember(s', y, d, v)} ::
          IsMember(s', y, d, v) <==> if y == x && d == channel && v == user then value else IsMember(s, y, d, v))
    && (forall y: Server, d {:trigger ChannelExists(s', y, d)} :: ChannelExists(s, y, d) ==> ChannelExists(s', y, d))
    && (value ==> ChannelExists(s', x, channel))
  }

  predicate MemberAfter(op: Op)
    requires !op.CreateUser?
  {
    !op.LeaveChannel?
  }

  lemma PerformMember(st: Store, op: Op, found: bool)
    requires !op.CreateUser? && Succeeds(op, Perform(st, op, found).1)
    ensures
      var st' := Perform(st, op, found).0;
      && found
      && (op.user in ChannelAt(st, op.channel).users <==> !op.JoinChannel?)
      && (op.JoinChannel? ==> ValidName(op.channel))
      && (forall d, v :: v in ChannelAt(st', d).users <==>
            if d == op.channel && v == op.user then MemberAfter(op) else v in ChannelAt(st, d).users)
      && (forall d :: d in st.channels ==> d in st'.channels)
      && op.channel in st'.channels
  {
  }

  lemma MirrorMember(st: Store, op: Op, reply: Reply)
    requires !op.CreateUser? && Succeeds(op, reply) && ValidName(op.channel)
    requires op.user in ChannelAt(st, op.channel).users <==> !op.JoinChannel?
    ensures
      var m := Mirror(st, op, reply);
      && m.Mirrored? && m.ack == reply
      && (forall d, v :: v in ChannelAt(m.store, d).users <==>
            if d == op.channel && v == op.user then MemberAfter(op) else v in ChannelAt(st, d).users)
      && (forall d :: d in st.channels ==> d in m.store.channels)
      && op.channel in m.store.channels
  {
  }

  /** An exclusive call finds nothing else of its user applied to its channel. */
  lemma NothingElseApplied(s: State, k: nat, i: nat)
    requires Exclusive(s) && Active(s, k) && !s.calls[k].phase.Forwarded?
    requires AppliedFor(s, i, s.calls[k].op.channel, s.calls[k].op.user)
    requires s.calls[k].at == ChannelOwner(s.hash, s.calls[k].op.channel).primary
    ensures i == k
  {
    assert Active(s, i);
  }

  /** The accepted change on the primary. */
  ghost predicate PrimaryChange(s: State, s': State, k: nat)
  {
    && Active(s, k)
    && var c := s.calls[k];
       var o := ChannelOwner(s.hash, c.op.channel);
       && c.at == o.primary
       && c.phase.Checked?
       && k in s'.calls && s'.calls == s.calls[k := s'.calls[k]]
       && SameCall(c, s'.calls[k])
       && s'.calls[k].phase.Performed?
       && Succeeds(c.op, s'.calls[k].phase.reply)
       && ValidName(c.op.channel)
       && (IsMember(s, o.primary, c.op.channel, c.op.user) <==> !c.op.JoinChannel?)
       && OneMember(s, s', o.primary, c.op.channel, c.op.user, MemberAfter(c.op))
  }

  lemma PrimaryChangeCalls(s: State, s': State, k: nat, i: nat)
    requires MemberInv(s) && Exclusive(s) && PrimaryChange(s, s', k) && i in s'.calls
    ensures MemberCall(s', i)
  {
    var c := s.calls[k];
    assert MemberCall(s, i);
    if i == k {
      assert Settled(s, c.op.channel, c.op.user);
      forall j
        ensures !AppliedFor(s, j, c.op.channel, c.op.user)
      {
        if AppliedFor(s, j, c.op.channel, c.op.user) { NothingElseApplied(s, k, j); }
      }
    } else if OnChannel(s, i) && AppliedFor(s, i, c.op.channel, c.op.user) {
      NothingElseApplied(s, k, i);
    } else if OnChannel(s, i) {
      var o := ChannelOwner(s.hash, s.calls[i].op.channel);
      assert ChannelExists(s, o.backup, s.calls[i].op.channel) ==> ChannelExists(s', o.backup, s.calls[i].op.channel);
    }
  }

  lemma PrimaryChangeKeeps(s: State, s': State, k: nat)
    requires MemberInv(s) && Exclusive(s) && PrimaryChange(s, s', k)
    ensures MemberInv(s')
  {
    var c := s.calls[k];
    forall i | i in s'.calls
      ensures MemberCall(s', i)
    {
      PrimaryChangeCalls(s, s', k, i);
    }
    assert AppliedFor(s', k, c.op.channel, c.op.user);
    forall ch, u
      ensures Settled(s', ch, u)
    {
      assert Settled(s, ch, u);
      forall i
        ensures AppliedFor(s, i, ch, u) ==> AppliedFor(s', i, ch, u)
      {
      }
    }
  }

  /** A change of the backup's members of a channel whose primary is dead. */
  lemma LateChangeKeeps(s: State, s': State, x: Server, channel: string, user: string, value: bool)
    requires MemberInv(s) && OneMember(s, s', x, channel, user, value)
    requires x == ChannelOwner(s.hash, channel).backup
    requires ChannelOwner(s.hash, channel).primary !in s.live
    requires s'.calls == s.calls
    ensures MemberInv(s')
  {
    forall i | i in s'.calls
      ensures MemberCall(s', i)
    {
      assert MemberCall(s, i);
      if OnChannel(s, i) {
        var o := ChannelOwner(s.hash, s.calls[i].op.channel);
        assert ChannelExists(s, o.backup, s.calls[i].op.channel) ==> ChannelExists(s', o.backup, s.calls[i].op.channel);
      }
    }
    forall ch, u
      ensures Settled(s', ch, u)
    {
      assert Settled(s, ch, u);
      forall i
        ensures AppliedFor(s, i, ch, u) ==> AppliedFor(s', i, ch, u)
      {
      }
    }
  }

  lemma RefusedKeeps(s: State, k: nat, found: bool)
    requires Inv(s) && MemberInv(s) && Enabled(s, Change(k, found)) && OnChannel(s, k)
    requires !Do(s, Change(k, found)).calls[k].phase.Performed?
    ensures MemberInv(Do(s, Change(k, found)))
  {
    var s' := Do(s, Change(k, found));
    IdleKeeps(s, k, s'.calls[k]);
    FrameKeeps(s.(calls := s'.calls), s');
  }

  lemma ChangeEffect(s: State, k: nat, found: bool)
    requires Enabled(s, Change(k, found)) && OnChannel(s, k) && Do(s, Change(k, found)).calls[k].phase.Performed?
    ensures
      var c := s.calls[k];
      var s' := Do(s, Change(k, found));
      && OneMember(s, s', c.at, c.op.channel, c.op.user, MemberAfter(c.op))
      && Succeeds(c.op, s'.calls[k].phase.reply)
      && (IsMember(s, c.at, c.op.channel, c.op.user) <==> !c.op.JoinChannel?)
      && (c.op.JoinChannel? ==> ValidName(c.op.channel))
  {
    PerformMember(s.stores[s.calls[k].at], s.calls[k].op, found);
  }

  lemma ChangeKeeps(s: State, k: nat, found: bool)
    requires Inv(s) && MemberInv(s) && Exclusive(s) && Enabled(s, Change(k, found)) && OnChannel(s, k)
    ensures MemberInv(Do(s, Change(k, found)))
  {
    var s' := Do(s, Change(k, found));
    var c := s.calls[k];
    assert CallOk(s, k) && MemberCall(s, k);
    if !s'.calls[k].phase.Performed? {
      RefusedKeeps(s, k, found);
    } else {
      ChangeEffect(s, k, found);
      if c.at == ChannelOwner(s.hash, c.op.channel).primary {
        assert PrimaryChange(s, s', k);
        PrimaryChangeKeeps(s, s', k);
      } else {
        CallKeeps(s, k, s'.calls[k]);
        LateChangeKeeps(s.(calls := s'.calls), s', c.at, c.op.channel, c.op.user, MemberAfter(c.op));
      }
    }
  }

  /** The backup applies what the primary, still alive, applied before. */
  ghost predicate BackupChange(s: State, s': State, k: nat)
  {
    && Active(s, k)
    && var c := s.calls[k];
       var o := ChannelOwner(s.hash, c.op.channel);
       && AppliedFor(s, k, c.op.channel, c.op.user)
       && o.backup in s.live
       && k in s'.calls && s'.calls == s.calls[k := s'.calls[k]]
       && SameCall(c, s'.calls[k])
       && s'.calls[k].phase == Acked(c.phase.reply, c.phase.reply)
       && OneMember(s, s', o.backup, c.op.channel, c.op.user, MemberAfter(c.op))
  }

  lemma BackupChangeKeeps(s: State, s': State, k: nat)
    requires MemberInv(s) && Exclusive(s) && BackupChange(s, s', k)
    ensures MemberInv(s')
  {
    var c := s.calls[k];
    var o := ChannelOwner(s.hash, c.op.channel);
    assert MemberCall(s, k);
    forall i | i in s'.calls
      ensures MemberCall(s', i)
    {
      assert MemberCall(s, i);
      if OnChannel(s, i) && AppliedFor(s, i, c.op.channel, c.op.user) {
        NothingElseApplied(s, k, i);
      } else if OnChannel(s, i) {
        var p := ChannelOwner(s.hash, s.calls[i].op.channel);
        assert ChannelExists(s, p.backup, s.calls[i].op.channel) ==> ChannelExists(s', p.backup, s.calls[i].op.channel);
      }
    }
    forall ch, u
      ensures Settled(s', ch, u)
    {
      assert Settled(s, ch, u);
      if ch == c.op.channel && u == c.op.user {
        assert IsMember(s', o.primary, ch, u) <==> IsMember(s, o.primary, ch, u);
        assert IsMember(s', o.backup, ch, u) <==> MemberAfter(c.op);
      } else {
        forall i
          ensures AppliedFor(s, i, ch, u) ==> AppliedFor(s', i, ch, u)
        {
        }
      }
    }
  }

  /** A replicate request that outlived its sender: it finds its channel, whatever it does there. */
  lemma LateReplicate(s: State, k: nat)
    requires Inv(s) && MemberInv(s) && Enabled(s, Replicate(k)) && OnChannel(s, k)
    requires s.calls[k].at !in s.live
    ensures MemberInv(Do(s, Replicate(k)))
  {
    var s' := Do(s, Replicate(k));
    var c := s.calls[k];
    var o := ChannelOwner(s.hash, c.op.channel);
    assert CallOk(s, k) && MemberCall(s, k);
    CallKeeps(s, k, s'.calls[k]);
    LateStoreKeeps(s.(calls := s'.calls), s', c.op, c.phase.reply);
  }

  lemma MirrorKeepsOthers(st: Store, op: Op, reply: Reply)
    requires !op.CreateUser? && Mirror(st, op, reply).Mirrored?
    ensures
      var st' := Mirror(st, op, reply).store;
      && (forall d :: d != op.channel ==> ChannelAt(st', d) == ChannelAt(st, d))
      && (forall d :: d in st.channels ==> d in st'.channels)
  {
  }

  lemma LateStoreKeeps(s: State, s': State, op: Op, reply: Reply)
    requires MemberInv(s) && !op.CreateUser?
    requires
      var o := ChannelOwner(s.hash, op.channel);
      && o.primary !in s.live
      && Mirror(s.stores[o.backup], op, reply).Mirrored?
      && s' == s.(stores := s.stores[o.backup := Mirror(s.stores[o.backup], op, reply).store])
    ensures MemberInv(s')
  {
    MirrorKeepsOthers(s.stores[ChannelOwner(s.hash, op.channel).backup], op, reply);
    forall i | i in s'.calls
      ensures MemberCall(s', i)
    {
      assert MemberCall(s, i);
    }
    forall ch, u
      ensures Settled(s', ch, u)
    {
      assert Settled(s, ch, u);
      forall i
        ensures AppliedFor(s, i, ch, u) ==> AppliedFor(s', i, ch, u)
      {
      }
    }
  }

  lemma EarlyReplicate(s: State, k: nat)
    requires Inv(s) && MemberInv(s) && Exclusive(s) && Enabled(s, Replicate(k)) && OnChannel(s, k)
    requires s.calls[k].at in s.live
    ensures MemberInv(Do(s, Replicate(k)))
    ensures Do(s, Replicate(k)).calls[k].phase == Acked(s.calls[k].phase.reply, s.calls[k].phase.reply)
  {
    var s' := Do(s, Replicate(k));
    var c := s.calls[k];
    var o := ChannelOwner(s.hash, c.op.channel);
    assert CallOk(s, k) && MemberCall(s, k);
    MirrorMember(s.stores[o.backup], c.op, c.phase.reply);
    assert OneMember(s, s', o.backup, c.op.channel, c.op.user, MemberAfter(c.op));
    BackupChangeKeeps(s, s', k);
  }

  lemma MemberStep(s: State, a: Action)
    requires Inv(s) && Exclusive(s) && MemberInv(s) && Enabled(s, a)
    ensures MemberInv(Do(s, a))
  {
    if a.Crash? || a.Suspect? || a.Submit? || a.Arrive? || a.Decide? || a.Seek? || a.SeekAgain? {
      EnvironmentKeeps(s, a);
    } else if a.Route? || a.Check? || a.Retry? {
      RoutingKeeps(s, a);
    } else if a.Answer? {
      AnswerKeeps(s, a.k);
    } else if a.Copy? || a.Confirm? || a.Abandon? {
      NewsStepKeeps(s, a);
    } else if s.calls[a.k].op.CreateUser? {
      CreateKeeps(s, a);
    } else if a.Change? {
      ChangeKeeps(s, a.k, a.found);
    } else if s.calls[a.k].at in s.live {
      EarlyReplicate(s, a.k);
    } else {
      LateReplicate(s, a.k);
    }
  }

  lemma {:induction false} RunKeeps(s: State, acts: seq<Action>)
    requires Inv(s) && Exclusive(s) && MemberInv(s) && IsSerialRun(s, acts)
    ensures IsRun(s, acts)
    ensures Inv(After(s, acts)) && Exclusive(After(s, acts)) && MemberInv(After(s, acts))
    decreases |acts|
  {
    if acts != [] {
      InvStep(s, acts[0]);
      ExclusiveStep(s, acts[0]);
      MemberStep(s, acts[0]);
      RunKeeps(Do(s, acts[0]), acts[1..]);
    }
  }

  lemma InitMembers(hash: string -> nat)
    ensures Inv(Init(hash)) && Exclusive(Init(hash)) && MemberInv(Init(hash))
  {
    var s := Init(hash);
    forall c, u
      ensures Settled(s, c, u)
    {
      forall x: Server
        ensures !IsMember(s, x, c, u)
      {
        match x case A => case B => case C =>
      }
    }
  }

  /** The backup never refuses what a live primary accepted: in every run of disciplined clients a
      replicate request whose sender is alive is carried out, and acknowledged with the primary's own
      answer; and no replicate request, however late, makes a lookup panic. */
  lemma BackupNeverRefuses(hash: string -> nat, acts: seq<Action>, k: nat)
    requires IsSerialRun(Init(hash), acts)
    ensures IsRun(Init(hash), acts) && After(Init(hash), acts).poisoned == {}
    ensures
      var s := After(Init(hash), acts);
      Enabled(s, Replicate(k)) && OnChannel(s, k) ==>
        var phase := Do(s, Replicate(k)).calls[k].phase;
        && phase.Acked?
        && (s.calls[k].at in s.live ==> phase.ack == s.calls[k].phase.reply)
  {
    InitMembers(hash);
    RunKeeps(Init(hash), acts);
    var s := After(Init(hash), acts);
    if Enabled(s, Replicate(k)) && OnChannel(s, k) {
      assert MemberCall(s, k) && CallOk(s, k);
      if s.calls[k].at in s.live {
        EarlyReplicate(s, k);
      }
    }
  }

  predicate UserInFlight(s: State, k: nat, user: string)
  {
    InFlight(s, k) && s.calls[k].op.user == user
  }

  /** A user with nothing in flight is a member on both owners of a channel, or on neither. */
  lemma IdleUsersAgree(hash: string -> nat, acts: seq<Action>, channel: string, user: string)
    requires IsSerialRun(Init(hash), acts) && IsRun(Init(hash), acts)
    requires
      var s := After(Init(hash), acts);
      BothLive(s, channel) && forall k :: !UserInFlight(s, k, user)
    ensures
      var s := After(Init(hash), acts);
      var o := ChannelOwner(s.hash, channel);
      IsMember(s, o.primary, channel, user) <==> IsMember(s, o.backup, channel, user)
  {
    InitMembers(hash);
    RunKeeps(Init(hash), acts);
    var s := After(Init(hash), acts);
    assert Settled(s, channel, user);
    forall k
      ensures !AppliedFor(s, k, channel, user)
    {
      assert !UserInFlight(s, k, user);
    }
  }
}
