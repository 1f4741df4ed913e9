/** Message ids across a failover. The backup's counter is a count, so it is a fresh id only when the
    backup's numbers have no gap, and it stays one only when no copy still under way can open a gap. When
    the takeover of a channel finds it so, ids stay fresh for good: no id is issued twice and
    acknowledged messages stay stored. Takeovers.dfy shows that otherwise they need not. */
module Failover {

  import opened Prelude
  import opened Servers
  import opened StoreSpec
  import opened Cluster
  import opened Protocol
  import opened LogReplication

  /** The copy of a message numbered n is on its way to the backup. */
  predicate Copying(s: State, k: nat, channel: string, n: nat)
  {
    OutstandingAs(s, k, channel, n) && s.calls[k].phase.Replicating?
  }

  /** The backup's numbers have no gap, and no copy on its way is numbered above the next one. Sends that
      a crashed primary has numbered and not sent along do not matter. */
  ghost predicate Safe(s: State, channel: string)
  {
    var b := ChannelOwner(s.hash, channel).backup;
    && Numbered(Log(s, b, channel), NextNumber(s, b, channel))
    && (forall k: nat, n: nat {:trigger Copying(s, k, channel, n)} :: Copying(s, k, channel, n) ==>
          n <= NextNumber(s, b, channel))
  }

  /** If the step makes the channel's backup serve, the takeover is safe. */
  ghost predicate SafeStep(s: State, a: Action, channel: string)
  {
    a.Suspect? && ChannelOwner(s.hash, channel) == Owners(a.q, a.p) ==> Safe(s, channel)
  }

  ghost predicate IsSafeRun(s: State, acts: seq<Action>, channel: string)
    decreases |acts|
  {
    acts == [] || (Enabled(s, acts[0]) && SafeStep(s, acts[0], channel)
      && IsSafeRun(Do(s, acts[0]), acts[1..], channel))
  }

  predicate Serving(s: State, x: Server, o: Owners)
  {
    (x == o.primary && x in s.live) || (x == o.backup && TakenOver(s, o))
  }

  /** The reply of a call whose send has been numbered, whether on its way or delivered. */
  function Numbering(ph: Phase): Option<Reply>
  {
    if Holding(ph).Some? then Holding(ph)
    else if BroughtId(ph) then Some(ph.reply)
    else None
  }

  /** The call has a number that can still be, or was, acknowledged. */
  predicate HasId(s: State, k: nat, channel: string)
  {
    && Sends(s, k) && s.calls[k].op.channel == channel
    && Numbering(s.calls[k].phase).Some?
    && (Holding(s.calls[k].phase).Some? ==> s.calls[k].at in s.live)
  }

  ghost predicate IdCall(s: State, k: nat, channel: string)
    requires k in s.calls
  {
    var c := s.calls[k];
    HasId(s, k, channel) ==>
      var r := Numbering(c.phase).value;
      && r.Sent?
      && r.id.channel == channel
      && forall x: Server {:trigger StoredAt(s, x, c.op, r)} ::
           Serving(s, x, ChannelOwner(s.hash, channel)) ==> StoredAt(s, x, c.op, r)
  }

  predicate HasNumber(s: State, k: nat, channel: string, n: nat)
  {
    HasId(s, k, channel)
    && var r := Numbering(s.calls[k].phase).value; r.Sent? && r.id.number == n
  }

  ghost predicate FreshInv(s: State, channel: string)
  {
    && (forall k {:trigger IdCall(s, k, channel)} :: k in s.calls ==> IdCall(s, k, channel))
    && (TakenOver(s, ChannelOwner(s.hash, channel)) ==> Safe(s, channel))
    && (forall i, k, n {:trigger HasNumber(s, i, channel, n), HasNumber(s, k, channel, n)} ::
          HasNumber(s, i, channel, n) && HasNumber(s, k, channel, n) ==> s.calls[i].root == s.calls[k].root)
  }

  ghost predicate SameLog(s: State, s': State, channel: string)
  {
    forall x: Server {:trigger Log(s', x, channel)} {:trigger NextNumber(s', x, channel)} ::
      Log(s', x, channel) == Log(s, x, channel) && NextNumber(s', x, channel) == NextNumber(s, x, channel)
  }

  lemma FrameKeeps(s: State, s': State, ch: string)
    requires FreshInv(s, ch)
    requires s'.hash == s.hash && s'.live <= s.live && s'.suspects == s.suspects && s'.calls == s.calls
    requires SameLog(s, s', ch)
    ensures FreshInv(s', ch)
  {
    forall k | k in s'.calls
      ensures IdCall(s', k, ch)
    {
      assert IdCall(s, k, ch);
      if HasId(s', k, ch) {
        forall x: Server | Serving(s', x, ChannelOwner(s.hash, ch))
          ensures StoredAt(s', x, s.calls[k].op, Numbering(s.calls[k].phase).value)
        {
          assert StoredAt(s, x, s.calls[k].op, Numbering(s.calls[k].phase).value);
        }
      }
    }
    forall k, n | Copying(s', k, ch, n)
      ensures Copying(s, k, ch, n)
    {
    }
    forall i, k, n | HasNumber(s', i, ch, n) && HasNumber(s', k, ch, n)
      ensures s'.calls[i].root == s'.calls[k].root
    {
      assert HasNumber(s, i, ch, n) && HasNumber(s, k, ch, n);
    }
  }

  predicate SendsOn(op: Op, channel: string)
  {
    op.SendMessage? && op.channel == channel
  }

  /** A call keeps its number, or takes over the number of the call it waited for. */
  lemma CallKeeps(s: State, k: nat, c: Call, source: nat, ch: string)
    requires FreshInv(s, ch)
    requires
      HasId(s.(calls := s.calls[k := c]), k, ch) ==>
      && HasId(s, source, ch)
      && s.calls[source].op == c.op
      && s.calls[source].root == c.root
      && Numbering(s.calls[source].phase) == Numbering(c.phase)
    requires SendsOn(c.op, ch) && TakenOver(s, ChannelOwner(s.hash, ch)) && c.phase.Replicating? ==>
      k in s.calls && s.calls[k] == c
    ensures FreshInv(s.(calls := s.calls[k := c]), ch)
  {
    var s' := s.(calls := s.calls[k := c]);
    forall i | i in s'.calls
      ensures IdCall(s', i, ch)
    {
      var i' := if i == k && HasId(s', k, ch) then source else i;
      if i' in s.calls { assert IdCall(s, i', ch); }
      if HasId(s', i, ch) {
        forall x: Server | Serving(s', x, ChannelOwner(s.hash, ch))
          ensures StoredAt(s', x, s'.calls[i].op, Numbering(s'.calls[i].phase).value)
        {
          assert StoredAt(s, x, s'.calls[i].op, Numbering(s'.calls[i].phase).value);
        }
      }
    }
    if TakenOver(s, ChannelOwner(s.hash, ch)) {
      forall i, n | Copying(s', i, ch, n)
        ensures Copying(s, i, ch, n)
      {
      }
    }
    forall i, j, n | HasNumber(s', i, ch, n) && HasNumber(s', j, ch, n)
      ensures s'.calls[i].root == s'.calls[j].root
    {
      var i' := if i == k then source else i;
      var j' := if j == k then source else j;
      assert HasNumber(s, i', ch, n) && HasNumber(s, j', ch, n);
    }
  }

  lemma EnvironmentKeeps(s: State, a: Action, ch: string)
    requires FreshInv(s, ch) && Enabled(s, a)
      && (a.Crash? || a.Submit? || a.Arrive? || a.Decide? || a.Seek? || a.SeekAgain?)
    ensures FreshInv(Do(s, a), ch)
  {
    var s' := Do(s, a);
    if a.Crash? {
      FrameKeeps(s, s', ch);
    } else {
      var k := if a.Submit? then s.next else a.k;
      CallKeeps(s, k, s'.calls[k], k, ch);
      FrameKeeps(s.(calls := s.calls[k := s'.calls[k]]), s', ch);
    }
  }

  lemma RoutingKeeps(s: State, a: Action, ch: string)
    requires FreshInv(s, ch) && Enabled(s, a) && (a.Route? || a.Check? || a.Retry?)
    requires s.next !in s.calls
    ensures FreshInv(Do(s, a), ch)
  {
    var s' := Do(s, a);
    CallKeeps(s, a.k, s'.calls[a.k], a.k, ch);
    if a.Route? && s'.calls[a.k].phase.Forwarded? {
      var mid := s.(calls := s.calls[a.k := s'.calls[a.k]]);
      CallKeeps(mid, s.next, s'.calls[s.next], s.next, ch);
      FrameKeeps(mid.(calls := mid.calls[s.next := s'.calls[s.next]]), s', ch);
    }
  }

  lemma OthersKeepLog(st: Store, op: Op, found: bool, reply: Reply, channel: string)
    requires !SendsOn(op, channel)
    ensures
      var ch' := ChannelAt(Perform(st, op, found).0, channel);
      ch'.log == ChannelAt(st, channel).log && ch'.next == ChannelAt(st, channel).next
    ensures
      var m := Mirror(st, op, reply);
      m.Mirrored? ==>
        ChannelAt(m.store, channel).log == ChannelAt(st, channel).log
          && ChannelAt(m.store, channel).next == ChannelAt(st, channel).next
  {
  }

  /** Whatever happens to operations other than sends on the channel. */
  lemma OtherOpKeeps(s: State, a: Action, ch: string)
    requires FreshInv(s, ch) && Enabled(s, a)
    requires a.Change? || a.Replicate?
    requires !SendsOn(s.calls[a.k].op, ch)
    ensures FreshInv(Do(s, a), ch)
  {
    var s' := Do(s, a);
    var c := s.calls[a.k];
    forall x: Server
      ensures Log(s', x, ch) == Log(s, x, ch) && NextNumber(s', x, ch) == NextNumber(s, x, ch)
    {
      if a.Change? {
        OthersKeepLog(s.stores[x], c.op, a.found, Accepted, ch);
      } else {
        OthersKeepLog(s.stores[x], c.op, true, c.phase.reply, ch);
      }
    }
    CallKeeps(s, a.k, s'.calls[a.k], a.k, ch);
    FrameKeeps(s.(calls := s'.calls), s', ch);
  }

  lemma AnswerKeeps(s: State, k: nat, ch: string)
    requires Inv(s) && FreshInv(s, ch) && Enabled(s, Answer(k))
    ensures FreshInv(Do(s, Answer(k)), ch)
  {
    var c := s.calls[k];
    assert CallOk(s, k);
    CallKeeps(s, k, c.(phase := Done(c.phase.reply)), k, ch);
    AnswerTaken(s.(calls := s.calls[k := c.(phase := Done(c.phase.reply))]), k, c.parent.value, ch);
  }

  /** The waiting call takes the answer over. */
  lemma AnswerTaken(s: State, k: nat, j: nat, ch: string)
    requires FreshInv(s, ch) && k in s.calls && j in s.calls && j != k
    requires s.calls[k].phase.Done? && s.calls[k].op == s.calls[j].op && s.calls[k].root == s.calls[j].root
    ensures FreshInv(Move(s, j, Finished(s.calls[j], s.calls[k].phase.reply)), ch)
  {
    CallKeeps(s, j, s.calls[j].(phase := Finished(s.calls[j], s.calls[k].phase.reply)), k, ch);
  }

  /** Copying and what follows keep the number that the change has given. */
  lemma NumberingStays(s: State, a: Action, k: nat, ch: string)
    requires Inv(s) && LogInv(s) && Enabled(s, a) && (a.Copy? || a.Confirm? || a.Abandon?)
    requires HasId(Do(s, a), k, ch)
    ensures
      var s' := Do(s, a);
      HasId(s, k, ch) && SameCall(s.calls[k], s'.calls[k])
        && Numbering(s.calls[k].phase) == Numbering(s'.calls[k].phase)
  {
    if a.k == k { assert CallOk(s, k) && LogCall(s, k); }
  }

  lemma NewsStepKeeps(s: State, a: Action, ch: string)
    requires Inv(s) && LogInv(s) && FreshInv(s, ch) && Enabled(s, a) && (a.Copy? || a.Confirm? || a.Abandon?)
    ensures FreshInv(Do(s, a), ch)
  {
    assert CallOk(s, a.k);
    if HasId(Do(s, a), a.k, ch) { NumberingStays(s, a, a.k, ch); }
    CallKeeps(s, a.k, Do(s, a).calls[a.k], a.k, ch);
  }

  /** At a takeover whoever can still be told his number has been told, or will be by an answer on its way:
      the backup, alive, stores his message. */
  lemma TakeoverStores(s: State, p: Server, q: Server, k: nat, ch: string)
    requires Inv(s) && LogInv(s)
    requires Enabled(s, Suspect(p, q)) && (p, q) !in s.suspects
    requires HasId(s, k, ch) && ChannelOwner(s.hash, ch) == Owners(q, p)
    ensures StoredAt(s, p, s.calls[k].op, Numbering(s.calls[k].phase).value)
  {
    assert CallOk(s, k) && LogCall(s, k);
  }

  lemma SuspectIds(s: State, p: Server, q: Server, ch: string, k: nat)
    requires Inv(s) && LogInv(s) && FreshInv(s, ch)
    requires Enabled(s, Suspect(p, q)) && (p, q) !in s.suspects && k in s.calls
    ensures IdCall(Do(s, Suspect(p, q)), k, ch)
  {
    var s' := Do(s, Suspect(p, q));
    var o := ChannelOwner(s.hash, ch);
    assert IdCall(s, k, ch);
    if HasId(s, k, ch) {
      if o == Owners(q, p) { TakeoverStores(s, p, q, k, ch); }
      forall x: Server | Serving(s', x, o)
        ensures StoredAt(s', x, s.calls[k].op, Numbering(s.calls[k].phase).value)
      {
        assert Serving(s, x, o) ==> StoredAt(s, x, s.calls[k].op, Numbering(s.calls[k].phase).value);
      }
    }
  }

  lemma SuspectKeeps(s: State, p: Server, q: Server, ch: string)
    requires Inv(s) && LogInv(s) && FreshInv(s, ch)
    requires Enabled(s, Suspect(p, q)) && SafeStep(s, Suspect(p, q), ch)
    ensures FreshInv(Do(s, Suspect(p, q)), ch)
  {
    var s' := Do(s, Suspect(p, q));
    if (p, q) in s.suspects {
      assert s'.suspects == s.suspects;
      FrameKeeps(s, s', ch);
      return;
    }
    forall k | k in s'.calls
      ensures IdCall(s', k, ch)
    {
      SuspectIds(s, p, q, ch, k);
    }
    forall k, n | Copying(s', k, ch, n)
      ensures Copying(s, k, ch, n)
    {
    }
    forall i, k, n | HasNumber(s', i, ch, n) && HasNumber(s', k, ch, n)
      ensures s'.calls[i].root == s'.calls[k].root
    {
      assert HasNumber(s, i, ch, n) && HasNumber(s, k, ch, n);
    }
  }

  /** A serving server takes a number that nobody can be told: the one after all the numbers it holds. */
  ghost predicate ServedSend(s: State, s': State, k: nat)
  {
    && Sends(s, k)
    && var c := s.calls[k];
       var ch := c.op.channel;
       var o := ChannelOwner(s.hash, ch);
       var n := NextNumber(s, c.at, ch);
       var id := MessageId(ch, n);
       && Serving(s, c.at, o)
       && (forall x :: Serving(s, x, o) ==> x == c.at)
       && Numbered(Log(s, c.at, ch), n)
       && OneLog(s, s', c.at, ch, Log(s, c.at, ch)[n := Message(c.op.user, c.op.text, id)], n + 1)
       && s'.calls == s.calls[k := c.(phase := Performed(Sent(id)))]
  }

  lemma SendIsServed(s: State, s': State, k: nat)
    requires Inv(s) && LogInv(s) && Numbers(s, s', k)
    requires s.calls[k].phase.Checked? && s.calls[k].at in s.live
    requires FreshInv(s, s.calls[k].op.channel)
    ensures ServedSend(s, s', k)
  {
    var c := s.calls[k];
    assert CallOk(s, k) && ChannelLogs(s, c.op.channel);
    SendLog(s, s', k);
  }

  lemma SendLog(s: State, s': State, k: nat)
    requires Numbers(s, s', k)
    ensures
      var c := s.calls[k];
      var n := NextNumber(s, c.at, c.op.channel);
      OneLog(s, s', c.at, c.op.channel,
             AddMessage(Log(s, c.at, c.op.channel), n, Message(c.op.user, c.op.text, MessageId(c.op.channel, n))),
             n + 1)
  {
  }

  /** The number taken is larger than every number given out before on the channel. */
  lemma NumberIsNew(s: State, s': State, k: nat, i: nat, n: nat)
    requires ServedSend(s, s', k) && FreshInv(s, s.calls[k].op.channel)
    requires HasNumber(s, i, s.calls[k].op.channel, n)
    ensures n < NextNumber(s, s.calls[k].at, s.calls[k].op.channel)
  {
    var c := s.calls[k];
    assert IdCall(s, i, c.op.channel);
    assert StoredAt(s, c.at, s.calls[i].op, Numbering(s.calls[i].phase).value);
  }

  lemma SendCalls(s: State, s': State, k: nat, i: nat)
    requires ServedSend(s, s', k) && FreshInv(s, s.calls[k].op.channel) && i in s'.calls
    ensures IdCall(s', i, s.calls[k].op.channel)
  {
    var ch := s.calls[k].op.channel;
    assert IdCall(s, i, ch);
    if HasId(s', i, ch) {
      var c := s'.calls[i];
      forall x: Server | Serving(s', x, ChannelOwner(s.hash, ch))
        ensures StoredAt(s', x, c.op, Numbering(c.phase).value)
      {
        assert Serving(s, x, ChannelOwner(s.hash, ch));
        assert x == s.calls[k].at;
        if i != k { assert StoredAt(s, x, c.op, Numbering(c.phase).value); }
      }
    }
  }

  lemma ServedSendKeeps(s: State, s': State, k: nat)
    requires ServedSend(s, s', k) && FreshInv(s, s.calls[k].op.channel) && s.calls[k].phase.Checked?
    requires TakenOver(s, ChannelOwner(s.hash, s.calls[k].op.channel)) ==>
      s.calls[k].at != ChannelOwner(s.hash, s.calls[k].op.channel).primary
    ensures FreshInv(s', s.calls[k].op.channel)
  {
    var ch := s.calls[k].op.channel;
    forall i | i in s'.calls
      ensures IdCall(s', i, ch)
    {
      SendCalls(s, s', k, i);
    }
    forall i, m | Copying(s', i, ch, m)
      ensures Copying(s, i, ch, m)
    {
    }
    forall i, j, m | HasNumber(s', i, ch, m) && HasNumber(s', j, ch, m)
      ensures s'.calls[i].root == s'.calls[j].root
    {
      if i != k && j != k {
        assert HasNumber(s, i, ch, m) && HasNumber(s, j, ch, m);
      } else if i != k {
        if HasNumber(s, i, ch, m) { NumberIsNew(s, s', k, i, m); }
      } else if j != k {
        if HasNumber(s, j, ch, m) { NumberIsNew(s, s', k, j, m); }
      }
    }
  }

  lemma SendKeeps(s: State, k: nat, found: bool)
    requires Inv(s) && LogInv(s) && Enabled(s, Change(k, found)) && Sends(s, k)
    requires FreshInv(s, s.calls[k].op.channel)
    ensures FreshInv(Do(s, Change(k, found)), s.calls[k].op.channel)
  {
    var s' := Do(s, Change(k, found));
    SendIsNumbered(s, k, found);
    assert CallOk(s, k);
    if Numbers(s, s', k) {
      SendIsServed(s, s', k);
      ServedSendKeeps(s, s', k);
    } else {
      CallKeeps(s, k, s'.calls[k], k, s.calls[k].op.channel);
    }
  }

  /** A copy arrives. If the backup serves by then, it is a late one, numbered at most with the next number:
      it is dropped or continues the sequence. */
  ghost predicate Arrives(s: State, s': State, k: nat)
  {
    && Sends(s, k) && s.calls[k].phase.Replicating? && s.calls[k].phase.reply.Sent?
    && var c := s.calls[k];
       var o := ChannelOwner(s.hash, c.op.channel);
       var n := c.phase.reply.id.number;
       var log, next := Log(s, o.backup, c.op.channel), NextNumber(s, o.backup, c.op.channel);
       var m := Message(c.op.user, c.op.text, c.phase.reply.id);
       && Copying(s, k, c.op.channel, n)
       && OneLog(s, s', o.backup, c.op.channel, AddMessage(log, n, m), if n in log then next else next + 1)
       && s'.calls == s.calls[k := c.(phase := Acked(c.phase.reply, c.phase.reply))]
  }

  lemma CopyArrives(s: State, s': State, k: nat)
    requires Inv(s) && LogInv(s) && Enabled(s, Replicate(k)) && Sends(s, k) && s' == Do(s, Replicate(k))
    requires s'.calls[k].phase.Acked?
    ensures Arrives(s, s', k)
  {
    var c := s.calls[k];
    assert CallOk(s, k);
    MirrorLog(s, s', OwnersOf(s.hash, c.op).backup, c.op, c.phase.reply);
  }

  lemma MirrorLog(s: State, s': State, x: Server, op: Op, reply: Reply)
    requires op.SendMessage? && Mirror(s.stores[x], op, reply).Mirrored?
    requires s'.hash == s.hash && s'.live == s.live && s'.suspects == s.suspects
    requires s'.stores == s.stores[x := Mirror(s.stores[x], op, reply).store]
    ensures reply.Sent?
    ensures
      var n := reply.id.number;
      var log, next := Log(s, x, op.channel), NextNumber(s, x, op.channel);
      OneLog(s, s', x, op.channel, AddMessage(log, n, Message(op.user, op.text, reply.id)),
             if n in log then next else next + 1)
  {
  }

  lemma CopyIds(s: State, s': State, k: nat, i: nat)
    requires Arrives(s, s', k) && FreshInv(s, s.calls[k].op.channel) && i in s'.calls
    ensures IdCall(s', i, s.calls[k].op.channel)
  {
    var ch := s.calls[k].op.channel;
    assert IdCall(s, i, ch);
    if HasId(s', i, ch) {
      var d := s'.calls[i];
      assert HasId(s, i, ch) && Numbering(s.calls[i].phase) == Numbering(d.phase);
      forall x: Server | Serving(s', x, ChannelOwner(s.hash, ch))
        ensures StoredAt(s', x, d.op, Numbering(d.phase).value)
      {
        assert StoredAt(s, x, d.op, Numbering(d.phase).value);
      }
    }
  }

  lemma CopyKeeps(s: State, s': State, k: nat)
    requires Arrives(s, s', k) && FreshInv(s, s.calls[k].op.channel)
    ensures FreshInv(s', s.calls[k].op.channel)
  {
    var ch := s.calls[k].op.channel;
    forall i | i in s'.calls
      ensures IdCall(s', i, ch)
    {
      CopyIds(s, s', k, i);
    }
    forall i, n | Copying(s', i, ch, n)
      ensures Copying(s, i, ch, n)
    {
    }
    forall i, j, n | HasNumber(s', i, ch, n) && HasNumber(s', j, ch, n)
      ensures s'.calls[i].root == s'.calls[j].root
    {
      assert HasNumber(s, i, ch, n) && HasNumber(s, j, ch, n);
    }
  }

  lemma ReplicateKeeps(s: State, k: nat)
    requires Inv(s) && LogInv(s) && Enabled(s, Replicate(k)) && Sends(s, k)
    requires FreshInv(s, s.calls[k].op.channel)
    ensures FreshInv(Do(s, Replicate(k)), s.calls[k].op.channel)
  {
    var s' := Do(s, Replicate(k));
    if s'.calls[k].phase.Unanswered? {
      CallKeeps(s, k, s'.calls[k], k, s.calls[k].op.channel);
      FrameKeeps(s.(calls := s'.calls), s', s.calls[k].op.channel);
    } else {
      CopyArrives(s, s', k);
      CopyKeeps(s, s', k);
    }
  }

  lemma FreshStep(s: State, a: Action, ch: string)
    requires Inv(s) && LogInv(s) && FreshInv(s, ch) && Enabled(s, a) && SafeStep(s, a, ch)
    ensures FreshInv(Do(s, a), ch)
  {
    if a.Crash? || a.Submit? || a.Arrive? || a.Decide? || a.Seek? || a.SeekAgain? {
      EnvironmentKeeps(s, a, ch);
    } else if a.Suspect? {
      SuspectKeeps(s, a.p, a.q, ch);
    } else if a.Route? || a.Check? || a.Retry? {
      RoutingKeeps(s, a, ch);
    } else if a.Answer? {
      AnswerKeeps(s, a.k, ch);
    } else if a.Copy? || a.Confirm? || a.Abandon? {
      NewsStepKeeps(s, a, ch);
    } else if !SendsOn(s.calls[a.k].op, ch) {
      OtherOpKeeps(s, a, ch);
    } else if a.Change? {
      SendKeeps(s, a.k, a.found);
    } else {
      ReplicateKeeps(s, a.k);
    }
  }

  lemma {:induction false} RunKeeps(s: State, acts: seq<Action>, ch: string)
    requires Inv(s) && LogInv(s) && FreshInv(s, ch) && IsSafeRun(s, acts, ch)
    ensures IsRun(s, acts)
    ensures Inv(After(s, acts)) && LogInv(After(s, acts)) && FreshInv(After(s, acts), ch)
    decreases |acts|
  {
    if acts != [] {
      InvStep(s, acts[0]);
      LogStep(s, acts[0]);
      FreshStep(s, acts[0], ch);
      RunKeeps(Do(s, acts[0]), acts[1..], ch);
    }
  }

  /** A client's send that has been answered with a message id. */
  predicate Acknowledged(s: State, k: nat)
  {
    Sends(s, k) && s.calls[k].parent.None? && s.calls[k].phase.Done? && s.calls[k].phase.reply.Sent?
  }

  lemma AcknowledgedHasNumber(s: State, k: nat)
    requires Inv(s) && Acknowledged(s, k) && FreshInv(s, s.calls[k].op.channel)
    ensures
      var c := s.calls[k];
      && c.root == k
      && c.phase.reply.id.channel == c.op.channel
      && HasNumber(s, k, c.op.channel, c.phase.reply.id.number)
  {
    assert CallOk(s, k) && IdCall(s, k, s.calls[k].op.channel);
  }

  lemma AcknowledgedIsStored(s: State, k: nat)
    requires Inv(s) && LogInv(s) && Acknowledged(s, k) && FreshInv(s, s.calls[k].op.channel)
    ensures DurableMessage(s, s.calls[k].op, s.calls[k].phase.reply)
  {
    var c := s.calls[k];
    var o := ChannelOwner(s.hash, c.op.channel);
    assert IdCall(s, k, c.op.channel) && LogCall(s, k) && HasId(s, k, c.op.channel);
    assert Serving(s, o.primary, o) ==> StoredAt(s, o.primary, c.op, c.phase.reply);
    assert Serving(s, o.backup, o) ==> StoredAt(s, o.backup, c.op, c.phase.reply);
  }

  /** When the channel's takeover, if there is one, is safe, an acknowledged message on it is stored, under
      the id its sender was told, on every owner that is still alive. */
  lemma AcknowledgedSendsSurvive(hash: string -> nat, acts: seq<Action>, ch: string, k: nat)
    requires IsSafeRun(Init(hash), acts, ch) && IsRun(Init(hash), acts)
    requires Acknowledged(After(Init(hash), acts), k) && After(Init(hash), acts).calls[k].op.channel == ch
    ensures
      var s := After(Init(hash), acts);
      DurableMessage(s, s.calls[k].op, s.calls[k].phase.reply)
  {
    InitLogs(hash);
    RunKeeps(Init(hash), acts, ch);
    AcknowledgedIsStored(After(Init(hash), acts), k);
  }

  /** Then, failover included, no id of the channel is given to two client requests. */
  lemma IdsAreNeverReissued(hash: string -> nat, acts: seq<Action>, ch: string, i: nat, k: nat)
    requires IsSafeRun(Init(hash), acts, ch) && IsRun(Init(hash), acts)
    requires Acknowledged(After(Init(hash), acts), i) && Acknowledged(After(Init(hash), acts), k)
    requires
      var s := After(Init(hash), acts);
      s.calls[i].op.channel == s.calls[k].op.channel == ch && s.calls[i].phase.reply.id == s.calls[k].phase.reply.id
    ensures i == k
  {
    InitLogs(hash);
    RunKeeps(Init(hash), acts, ch);
    var s := After(Init(hash), acts);
    AcknowledgedHasNumber(s, i);
    AcknowledgedHasNumber(s, k);
  }

  /** A number is passed along within one client request, or newly taken by a serving server. */
  lemma NumberOrigin(s: State, a: Action, k: nat, ch: string) returns (source: nat)
    requires Inv(s) && LogInv(s) && FreshInv(s, ch) && Enabled(s, a) && HasId(Do(s, a), k, ch)
    ensures
      var s' := Do(s, a);
      || (a.Change? && a.k == k && ServedSend(s, s', k))
      || (&& HasId(s, source, ch)
          && s.calls[source].op == s'.calls[k].op
          && s.calls[source].root == s'.calls[k].root
          && Numbering(s.calls[source].phase) == Numbering(s'.calls[k].phase))
  {
    source := k;
    if a.Answer? {
      assert CallOk(s, a.k);
      if k == s.calls[a.k].parent.value { source := a.k; }
    } else if a.Change? {
      ChangeOrigin(s, a, k, ch);
    } else if a.Copy? || a.Confirm? || a.Abandon? {
      NumberingStays(s, a, k, ch);
    } else if a.Replicate? {
      CopyingStays(s, a, k, ch);
    } else {
      EarlyOrigin(s, a, k, ch);
    }
  }

  /** Steps before the change give no number. */
  lemma EarlyOrigin(s: State, a: Action, k: nat, ch: string)
    requires Enabled(s, a) && HasId(Do(s, a), k, ch)
    requires !a.Answer? && !a.Change? && !a.Copy? && !a.Confirm? && !a.Abandon? && !a.Replicate?
    ensures HasId(s, k, ch) && Do(s, a).calls[k] == s.calls[k]
  {
  }

  lemma ChangeOrigin(s: State, a: Action, k: nat, ch: string)
    requires Inv(s) && LogInv(s) && FreshInv(s, ch) && Enabled(s, a) && a.Change? && HasId(Do(s, a), k, ch)
    ensures
      var s' := Do(s, a);
      (a.k == k && ServedSend(s, s', k)) || (k in s.calls && s'.calls[k] == s.calls[k])
  {
    if a.k == k {
      SendIsNumbered(s, k, a.found);
      SendIsServed(s, Do(s, a), k);
    }
  }

  lemma CopyingStays(s: State, a: Action, k: nat, ch: string)
    requires Enabled(s, a) && a.Replicate? && HasId(Do(s, a), k, ch)
    ensures
      var s' := Do(s, a);
      HasId(s, k, ch) && SameCall(s.calls[k], s'.calls[k])
        && Numbering(s.calls[k].phase) == Numbering(s'.calls[k].phase)
  {
  }

  /** Every number given on the channel to the requests numbered `from` and later exceeds n. */
  ghost predicate Above(s: State, from: nat, channel: string, n: nat)
  {
    forall k {:trigger HasId(s, k, channel)} ::
      HasId(s, k, channel) && s.calls[k].root >= from
      ==> Numbering(s.calls[k].phase).value.Sent? && n < Numbering(s.calls[k].phase).value.id.number
  }

  lemma AcknowledgedStays(s: State, a: Action, first: nat)
    requires Enabled(s, a) && Acknowledged(s, first) && s.next !in s.calls && (a.Answer? ==> a.k != first)
    requires a.Answer? ==> s.calls[a.k].parent != Some(first)
    ensures first in Do(s, a).calls && Do(s, a).calls[first] == s.calls[first]
  {
  }

  lemma AboveCall(s: State, a: Action, first: nat, from: nat, ch: string, k: nat)
    requires Inv(s) && LogInv(s) && FreshInv(s, ch) && Enabled(s, a)
    requires Acknowledged(s, first) && s.calls[first].op.channel == ch
    requires Above(s, from, ch, s.calls[first].phase.reply.id.number)
    requires HasId(Do(s, a), k, ch) && Do(s, a).calls[k].root >= from
    ensures
      var r := Numbering(Do(s, a).calls[k].phase).value;
      r.Sent? && s.calls[first].phase.reply.id.number < r.id.number
  {
    AcknowledgedHasNumber(s, first);
    var source := NumberOrigin(s, a, k, ch);
    if a.Change? && a.k == k && ServedSend(s, Do(s, a), k) {
      NumberIsNew(s, Do(s, a), k, first, s.calls[first].phase.reply.id.number);
    }
  }

  lemma AboveStep(s: State, a: Action, first: nat, from: nat, ch: string)
    requires Inv(s) && LogInv(s) && FreshInv(s, ch) && Enabled(s, a)
    requires Acknowledged(s, first) && s.calls[first].op.channel == ch
    requires Above(s, from, ch, s.calls[first].phase.reply.id.number)
    ensures first in Do(s, a).calls && Do(s, a).calls[first] == s.calls[first]
    ensures Above(Do(s, a), from, ch, s.calls[first].phase.reply.id.number)
  {
    if a.Answer? { assert CallOk(s, a.k); }
    AcknowledgedStays(s, a, first);
    forall k | HasId(Do(s, a), k, ch) && Do(s, a).calls[k].root >= from
      ensures
        var r := Numbering(Do(s, a).calls[k].phase).value;
        r.Sent? && s.calls[first].phase.reply.id.number < r.id.number
    {
      AboveCall(s, a, first, from, ch, k);
    }
  }

  lemma {:induction false} AboveRun(s: State, acts: seq<Action>, first: nat, from: nat, ch: string)
    requires Inv(s) && LogInv(s) && FreshInv(s, ch) && IsSafeRun(s, acts, ch) && IsRun(s, acts)
    requires Acknowledged(s, first) && s.calls[first].op.channel == ch
    requires Above(s, from, ch, s.calls[first].phase.reply.id.number)
    ensures first in After(s, acts).calls && After(s, acts).calls[first] == s.calls[first]
    ensures Above(After(s, acts), from, ch, s.calls[first].phase.reply.id.number)
    decreases |acts|
  {
    if acts != [] {
      AboveStep(s, acts[0], first, from, ch);
      InvStep(s, acts[0]);
      LogStep(s, acts[0]);
      FreshStep(s, acts[0], ch);
      AboveRun(Do(s, acts[0]), acts[1..], first, from, ch);
    }
  }

  /** A send that a client starts after another send on the channel was acknowledged gets a larger number,
      on whichever owner each of them is served, when the channel's takeover is safe. */
  lemma LaterSendsGetLargerIds(hash: string -> nat, before: seq<Action>, after: seq<Action>, ch: string, first: nat,
      second: nat)
    requires IsSafeRun(Init(hash), before, ch) && IsRun(Init(hash), before)
    requires
      var s := After(Init(hash), before);
      && Acknowledged(s, first) && s.calls[first].op.channel == ch
      && second >= s.next
      && IsSafeRun(s, after, ch) && IsRun(s, after)
      && Acknowledged(After(s, after), second)
      && After(s, after).calls[second].op.channel == ch
    ensures
      var s := After(Init(hash), before);
      s.calls[first].phase.reply.id.number < After(s, after).calls[second].phase.reply.id.number
  {
    InitLogs(hash);
    RunKeeps(Init(hash), before, ch);
    var s := After(Init(hash), before);
    forall k | HasId(s, k, ch)
      ensures s.calls[k].root < s.next
    {
      RootIsEarlier(s, k);
    }
    AboveRun(s, after, first, s.next, ch);
    RunKeeps(s, after, ch);
    AcknowledgedHasNumber(After(s, after), second);
  }

  // What the count-based counter of a backup is worth, by itself.

  lemma {:induction false} BoundedKeys(log: map<nat, Message>, bound: nat)
    requires forall n :: n in log ==> n < bound
    ensures |log| <= bound
    ensures |log| == bound ==> Numbered(log, bound)
  {
    if bound > 0 {
      var last: nat := bound - 1;
      var rest := map n | n in log && n != last :: log[n];
      BoundedKeys(rest, last);
      if last in log {
        assert log == rest[last := log[last]];
      } else {
        assert log == rest;
      }
    }
  }

  /** What can happen to the channel of a serving backup: a send of its own, or the arrival of a copy. */
  datatype Arrival = OwnSend | LateCopy(number: nat)

  function Next(ch: Channel, a: Arrival, m: Message): Channel
  {
    match a
    case OwnSend => SendOn(ch, m)
    case LateCopy(n) => ReplicateSend(ch, n, m)
  }

  function Following(ch: Channel, steps: seq<Arrival>, m: Message): Channel
    decreases |steps|
  {
    if steps == [] then ch else Following(Next(ch, steps[0], m), steps[1..], m)
  }

  predicate Possible(steps: seq<Arrival>, flight: set<nat>)
  {
    forall i :: 0 <= i < |steps| && steps[i].LateCopy? ==> steps[i].number in flight
  }

  /** Whatever sends follow and whatever copies of those in flight arrive, the next number is unused. */
  ghost predicate FreshForever(ch: Channel, flight: set<nat>, m: Message)
  {
    forall steps {:trigger Following(ch, steps, m)} ::
      Possible(steps, flight) ==> Following(ch, steps, m).next !in Following(ch, steps, m).log
  }

  /** A number at or above the next one is run into by enough sends. */
  lemma {:induction false} SendsCollide(ch: Channel, n: nat, flight: set<nat>, m: Message) returns (steps: seq<Arrival>)
    requires n in ch.log && ch.next <= n
    ensures Possible(steps, flight) && Following(ch, steps, m).next in Following(ch, steps, m).log
    decreases n - ch.next
  {
    if ch.next in ch.log {
      steps := [];
    } else {
      var rest := SendsCollide(SendOn(ch, m), n, flight, m);
      steps := [OwnSend] + rest;
      assert steps[1..] == rest;
    }
  }

  lemma {:induction false} SafeStaysFresh(ch: Channel, steps: seq<Arrival>, flight: set<nat>, m: Message)
    requires Numbered(ch.log, ch.next) && (forall n :: n in flight ==> n <= ch.next) && Possible(steps, flight)
    ensures Following(ch, steps, m).next !in Following(ch, steps, m).log
    decreases |steps|
  {
    if steps != [] {
      assert Possible(steps[1..], flight);
      SafeStaysFresh(Next(ch, steps[0], m), steps[1..], flight, m);
    }
  }

  /** A counter that equals the message count, as every backup's does at a takeover, stays fresh in every
      interleaving of sends with copies still in flight if and only if the numbers held are exactly 0 to
      count - 1 and no copy in flight is numbered above the count. */
  lemma FreshIffNoGap(ch: Channel, flight: set<nat>, m: Message)
    requires ch.next == |ch.log|
    ensures FreshForever(ch, flight, m) <==> Numbered(ch.log, ch.next) && forall n :: n in flight ==> n <= ch.next
  {
    if Numbered(ch.log, ch.next) && forall n :: n in flight ==> n <= ch.next {
      forall steps | Possible(steps, flight)
        ensures Following(ch, steps, m).next !in Following(ch, steps, m).log
      {
        SafeStaysFresh(ch, steps, flight, m);
      }
    } else if n :| n in ch.log && ch.next <= n {
      var steps := SendsCollide(ch, n, flight, m);
    } else {
      BoundedKeys(ch.log, ch.next);
      var n :| n in flight && ch.next < n;
      var rest := SendsCollide(Next(ch, LateCopy(n), m), n, flight, m);
      var steps := [LateCopy(n)] + rest;
      assert steps[1..] == rest;
      assert Following(ch, steps, m).next in Following(ch, steps, m).log;
    }
  }
}
