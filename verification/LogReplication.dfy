/** Channel messages: under any reordering of the replicate requests the backup holds exactly the
    primary's messages minus those still outstanding, under the primary's numbers. */
module LogReplication {

  import opened Prelude
  import opened Servers
  import opened StoreSpec
  import opened Cluster
  import opened Protocol

  function Log(s: State, x: Server, channel: string): map<nat, Message>
  {
    ChannelAt(s.stores[x], channel).log
  }

  function NextNumber(s: State, x: Server, channel: string): nat
  {
    ChannelAt(s.stores[x], channel).next
  }

  /** Server x holds the message of a successful send, under the number of its id. */
  predicate StoredAt(s: State, x: Server, op: Op, reply: Reply)
    requires op.SendMessage?
  {
    && reply.Sent?
    && reply.id.number in Log(s, x, op.channel)
    && Log(s, x, op.channel)[reply.id.number] == Message(op.user, op.text, reply.id)
  }

  predicate DurableMessage(s: State, op: Op, reply: Reply)
    requires op.SendMessage?
  {
    var o := ChannelOwner(s.hash, op.channel);
    && (o.primary in s.live ==> StoredAt(s, o.primary, op, reply))
    && (o.backup in s.live ==> StoredAt(s, o.backup, op, reply))
  }

  predicate Sends(s: State, k: nat)
  {
    k in s.calls && s.calls[k].op.SendMessage?
  }

  /** The backup has marked the primary dead and serves in its place. */
  predicate TakenOver(s: State, o: Owners)
  {
    (o.backup, o.primary) in s.suspects
  }

  predicate BroughtId(ph: Phase)
  {
    (ph.Replying? || ph.Done?) && ph.reply.Sent?
  }

  /** Numbered by the primary and not acknowledged by the backup. */
  predicate Outstanding(s: State, k: nat)
  {
    && Sends(s, k)
    && s.calls[k].at == ChannelOwner(s.hash, s.calls[k].op.channel).primary
    && (s.calls[k].phase.Performed? || s.calls[k].phase.Replicating? || s.calls[k].phase.Unanswered?)
    && s.calls[k].phase.reply.Sent?
  }

  predicate OutstandingAs(s: State, k: nat, channel: string, n: nat)
  {
    Outstanding(s, k) && s.calls[k].op.channel == channel && s.calls[k].phase.reply.id.number == n
  }

  predicate LogCall(s: State, k: nat)
    requires k in s.calls
  {
    var c := s.calls[k];
    Sends(s, k) ==>
      var o := ChannelOwner(s.hash, c.op.channel);
      && (Holding(c.phase).Some? && c.at == o.primary ==> StoredAt(s, o.primary, c.op, Holding(c.phase).value))
      && (Outstanding(s, k) && !TakenOver(s, o)
          ==> c.phase.reply.id.number !in Log(s, o.backup, c.op.channel))
      && (c.phase.Acked? && c.at in s.live ==>
            c.phase.ack == c.phase.reply && StoredAt(s, o.backup, c.op, c.phase.reply))
      && (BroughtId(c.phase) && !TakenOver(s, o) ==> DurableMessage(s, c.op, c.phase.reply))
  }

  ghost predicate Numbered(log: map<nat, Message>, next: nat)
  {
    forall n: nat :: n in log <==> n < next
  }

  ghost predicate ChannelLogs(s: State, channel: string)
  {
    var o := ChannelOwner(s.hash, channel);
    var primary := Log(s, o.primary, channel);
    var backup := Log(s, o.backup, channel);
    && Numbered(primary, NextNumber(s, o.primary, channel))
    && (!TakenOver(s, o) ==>
          && (forall n :: n in backup ==> n in primary && backup[n] == primary[n])
          && NextNumber(s, o.backup, channel) == |backup|)
    && (!TakenOver(s, o) && (o.primary, o.backup) !in s.suspects ==>
          forall n :: n in primary && n !in backup ==> exists k :: OutstandingAs(s, k, channel, n))
  }

  ghost predicate LogInv(s: State)
  {
    && (forall k {:trigger LogCall(s, k)} :: k in s.calls ==> LogCall(s, k))
    && (forall c {:trigger ChannelLogs(s, c)} :: ChannelLogs(s, c))
    && (forall i, k, c, n {:trigger OutstandingAs(s, i, c, n), OutstandingAs(s, k, c, n)} ::
          OutstandingAs(s, i, c, n) && OutstandingAs(s, k, c, n) ==> i == k)
  }

  ghost predicate SameLogs(s: State, s': State)
  {
    forall x: Server, c {:trigger Log(s', x, c)} {:trigger NextNumber(s', x, c)} ::
      Log(s', x, c) == Log(s, x, c) && NextNumber(s', x, c) == NextNumber(s, x, c)
  }

  lemma FrameKeeps(s: State, s': State)
    requires LogInv(s)
    requires s'.hash == s.hash && s'.live <= s.live && s.suspects <= s'.suspects && s'.calls == s.calls
    requires SameLogs(s, s')
    ensures LogInv(s')
  {
    forall k | k in s'.calls
      ensures LogCall(s', k)
    {
      assert LogCall(s, k);
    }
    forall c
      ensures ChannelLogs(s', c)
    {
      assert ChannelLogs(s, c);
      forall n, k | OutstandingAs(s, k, c, n)
        ensures OutstandingAs(s', k, c, n)
      {
      }
    }
    forall i, k, c, n | OutstandingAs(s', i, c, n) && OutstandingAs(s', k, c, n)
      ensures i == k
    {
      assert OutstandingAs(s, i, c, n) && OutstandingAs(s, k, c, n);
    }
  }

  /** One call moves on without becoming outstanding; if it was, it stays so or is excused. */
  lemma CallKeeps(s: State, k: nat, c: Call)
    requires LogInv(s)
    requires LogCall(s.(calls := s.calls[k := c]), k)
    requires
      var s' := s.(calls := s.calls[k := c]);
      && (Outstanding(s', k) ==>
            Outstanding(s, k) && s.calls[k].op == c.op && s.calls[k].phase.reply == c.phase.reply)
      && (Outstanding(s, k) && !Outstanding(s', k) ==>
            var o := ChannelOwner(s.hash, s.calls[k].op.channel);
            TakenOver(s, o) || (o.primary, o.backup) in s.suspects)
    ensures LogInv(s.(calls := s.calls[k := c]))
  {
    var s' := s.(calls := s.calls[k := c]);
    forall i | i in s'.calls
      ensures LogCall(s', i)
    {
      if i != k { assert LogCall(s, i); }
    }
    forall ch
      ensures ChannelLogs(s', ch)
    {
      assert ChannelLogs(s, ch);
      var o := ChannelOwner(s.hash, ch);
      if !TakenOver(s, o) && (o.primary, o.backup) !in s.suspects {
        forall n | n in Log(s, o.primary, ch) && n !in Log(s, o.backup, ch)
          ensures exists i :: OutstandingAs(s', i, ch, n)
        {
          var i :| OutstandingAs(s, i, ch, n);
          assert OutstandingAs(s', i, ch, n);
        }
      }
    }
    forall i, j, ch, n | OutstandingAs(s', i, ch, n) && OutstandingAs(s', j, ch, n)
      ensures i == j
    {
      assert OutstandingAs(s, i, ch, n) && OutstandingAs(s, j, ch, n);
    }
  }

  /** Nothing outstanding before or after, no id in hand. */
  predicate Plain(c: Call)
  {
    c.op.SendMessage? ==> Holding(c.phase).None? && !BroughtId(c.phase)
  }

  lemma PlainKeeps(s: State, k: nat, c: Call)
    requires LogInv(s) && Plain(c)
    requires k in s.calls ==> Plain(s.calls[k])
    ensures LogInv(s.(calls := s.calls[k := c]))
  {
    CallKeeps(s, k, c);
  }

  lemma OtherOpsKeepLogs(st: Store, op: Op, found: bool, reply: Reply, channel: string)
    requires !op.SendMessage?
    ensures ChannelAt(Perform(st, op, found).0, channel).log == ChannelAt(st, channel).log
    ensures ChannelAt(Perform(st, op, found).0, channel).next == ChannelAt(st, channel).next
    ensures
      var m := Mirror(st, op, reply);
      m.Mirrored? && ChannelAt(m.store, channel).log == ChannelAt(st, channel).log
      && ChannelAt(m.store, channel).next == ChannelAt(st, channel).next
  {
  }

  lemma EnvironmentKeeps(s: State, a: Action)
    requires LogInv(s) && Enabled(s, a)
      && (a.Crash? || a.Suspect? || a.Submit? || a.Arrive? || a.Decide? || a.Seek? || a.SeekAgain?)
    requires s.next !in s.calls
    ensures LogInv(Do(s, a))
  {
    var s' := Do(s, a);
    if a.Crash? || a.Suspect? {
      FrameKeeps(s, s');
    } else {
      var k := if a.Submit? then s.next else a.k;
      PlainKeeps(s, k, s'.calls[k]);
      FrameKeeps(s.(calls := s.calls[k := s'.calls[k]]), s');
    }
  }

  lemma RoutingKeeps(s: State, a: Action)
    requires LogInv(s) && Enabled(s, a) && (a.Route? || a.Check? || a.Retry?)
    requires s.next !in s.calls
    ensures LogInv(Do(s, a))
  {
    var s' := Do(s, a);
    PlainKeeps(s, a.k, s'.calls[a.k]);
    if a.Route? && s'.calls[a.k].phase.Forwarded? {
      var mid := s.(calls := s.calls[a.k := s'.calls[a.k]]);
      PlainKeeps(mid, s.next, s'.calls[s.next]);
      FrameKeeps(mid.(calls := mid.calls[s.next := s'.calls[s.next]]), s');
    }
  }

  lemma OtherOpKeeps(s: State, a: Action)
    requires LogInv(s) && Enabled(s, a)
    requires a.Change? || a.Copy? || a.Replicate? || a.Confirm? || a.Abandon?
    requires !s.calls[a.k].op.SendMessage?
    ensures LogInv(Do(s, a))
  {
    var s' := Do(s, a);
    var c := s.calls[a.k];
    forall x: Server, ch
      ensures Log(s', x, ch) == Log(s, x, ch) && NextNumber(s', x, ch) == NextNumber(s, x, ch)
    {
      if a.Change? {
        OtherOpsKeepLogs(s.stores[c.at], c.op, a.found, Accepted, ch);
      } else if a.Replicate? {
        OtherOpsKeepLogs(s.stores[OwnersOf(s.hash, c.op).backup], c.op, true, c.phase.reply, ch);
      }
    }
    PlainKeeps(s, a.k, s'.calls[a.k]);
    FrameKeeps(s.(calls := s'.calls), s');
  }

  lemma AnswerKeeps(s: State, k: nat)
    requires Inv(s) && LogInv(s) && Enabled(s, Answer(k))
    ensures LogInv(Do(s, Answer(k)))
  {
    var c := s.calls[k];
    var j := c.parent.value;
    assert CallOk(s, k) && LogCall(s, k);
    var mid := Move(s, k, Done(c.phase.reply));
    CallKeeps(s, k, mid.calls[k]);
    CallKeeps(mid, j, Do(s, Answer(k)).calls[j]);
  }

  lemma NewsOfCopy(s: State, k: nat)
    requires Inv(s) && LogInv(s) && Enabled(s, Copy(k)) && s.calls[k].op.SendMessage?
    ensures LogCall(s.(calls := s.calls[k := Do(s, Copy(k)).calls[k]]), k)
  {
    assert CallOk(s, k) && LogCall(s, k);
  }

  lemma NewsCall(s: State, a: Action)
    requires Inv(s) && LogInv(s) && Enabled(s, a) && (a.Copy? || a.Confirm? || a.Abandon?)
    requires s.calls[a.k].op.SendMessage?
    ensures LogCall(s.(calls := s.calls[a.k := Do(s, a).calls[a.k]]), a.k)
  {
    if a.Copy? {
      NewsOfCopy(s, a.k);
    } else {
      assert CallOk(s, a.k) && LogCall(s, a.k);
    }
  }

  /** The answer leaves the authoritative server only when each live owner has the message. */
  lemma NewsStepKeeps(s: State, a: Action)
    requires Inv(s) && LogInv(s) && Enabled(s, a) && (a.Copy? || a.Confirm? || a.Abandon?)
    requires s.calls[a.k].op.SendMessage?
    ensures LogInv(Do(s, a))
  {
    assert CallOk(s, a.k);
    NewsCall(s, a);
    CallKeeps(s, a.k, Do(s, a).calls[a.k]);
  }

  /** The effect of a send that is accepted by server x. */
  ghost predicate Numbers(s: State, s': State, k: nat)
  {
    && Sends(s, k)
    && var c := s.calls[k];
       var ch := ChannelAt(s.stores[c.at], c.op.channel);
       var id := MessageId(c.op.channel, ch.next);
       var ch' := SendOn(ch, Message(c.op.user, c.op.text, id));
       && s' == s.(stores := s.stores[c.at := PutChannel(s.stores[c.at], c.op.channel, ch')],
                   calls := s.calls[k := c.(phase := Performed(Sent(id)))])
  }

  lemma SendIsNumbered(s: State, k: nat, found: bool)
    requires Enabled(s, Change(k, found)) && Sends(s, k)
    ensures
      var s' := Do(s, Change(k, found));
      Numbers(s, s', k) || (s' == s.(calls := s.calls[k := s'.calls[k]]) && Plain(s'.calls[k]))
  {
  }

  /** Exactly one log changes: channel ch on server x. */
  ghost predicate OneLog(s: State, s': State, x: Server, ch: string, log: map<nat, Message>, next: nat)
  {
    && s'.hash == s.hash && s'.live == s.live && s'.suspects == s.suspects
    && (forall y: Server, d {:trigger Log(s', y, d)} ::
          Log(s', y, d) == if y == x && d == ch then log else Log(s, y, d))
    && (forall y: Server, d {:trigger NextNumber(s', y, d)} ::
          NextNumber(s', y, d) == if y == x && d == ch then next else NextNumber(s, y, d))
  }

  /** The primary takes the next number: the logs of its channel and the moving call. */
  ghost predicate PrimarySend(s: State, s': State, k: nat)
  {
    && Sends(s, k)
    && var c := s.calls[k];
       var o := ChannelOwner(s.hash, c.op.channel);
       var n := NextNumber(s, o.primary, c.op.channel);
       var id := MessageId(c.op.channel, n);
       && c.at == o.primary
       && c.phase.Checked?
       && n !in Log(s, o.primary, c.op.channel)
       && OneLog(s, s', o.primary, c.op.channel,
                 Log(s, o.primary, c.op.channel)[n := Message(c.op.user, c.op.text, id)], n + 1)
       && s'.calls == s.calls[k := c.(phase := Performed(Sent(id)))]
  }

  lemma PrimarySendEffect(s: State, s': State, k: nat)
    requires LogInv(s) && Numbers(s, s', k) && s.calls[k].phase.Checked?
    requires s.calls[k].at == ChannelOwner(s.hash, s.calls[k].op.channel).primary
    ensures PrimarySend(s, s', k)
  {
    assert ChannelLogs(s, s.calls[k].op.channel);
  }

  lemma PrimarySendCalls(s: State, s': State, k: nat)
    requires LogInv(s) && PrimarySend(s, s', k)
    ensures forall i {:trigger LogCall(s', i)} :: i in s'.calls ==> LogCall(s', i)
  {
    assert ChannelLogs(s, s.calls[k].op.channel);
    forall i | i in s'.calls
      ensures LogCall(s', i)
    {
      assert LogCall(s, i);
    }
  }

  /** What the backup lacks was outstanding before, or is the message just numbered. */
  lemma PrimarySendPending(s: State, s': State, k: nat, ch: string, m: nat)
    requires LogInv(s) && PrimarySend(s, s', k)
    requires
      var p := ChannelOwner(s.hash, ch);
      && !TakenOver(s, p) && (p.primary, p.backup) !in s.suspects
      && m in Log(s', p.primary, ch) && m !in Log(s, p.backup, ch)
    ensures exists i :: OutstandingAs(s', i, ch, m)
  {
    var c := s.calls[k];
    assert ChannelLogs(s, ch);
    if m in Log(s, ChannelOwner(s.hash, ch).primary, ch) {
      var i :| OutstandingAs(s, i, ch, m);
      assert OutstandingAs(s', i, ch, m);
    } else {
      assert OutstandingAs(s', k, c.op.channel, NextNumber(s, c.at, c.op.channel));
    }
  }

  lemma PrimarySendNumbered(s: State, s': State, k: nat, ch: string)
    requires LogInv(s) && PrimarySend(s, s', k)
    ensures
      var p := ChannelOwner(s.hash, ch).primary;
      Numbered(Log(s', p, ch), NextNumber(s', p, ch))
  {
    assert ChannelLogs(s, ch);
  }

  /** The backup's log stays, and the primary's only grows. */
  lemma PrimarySendBackup(s: State, s': State, k: nat, ch: string)
    requires LogInv(s) && PrimarySend(s, s', k) && !TakenOver(s, ChannelOwner(s.hash, ch))
    ensures
      var p := ChannelOwner(s.hash, ch);
      var primary, backup := Log(s', p.primary, ch), Log(s', p.backup, ch);
      && backup == Log(s, p.backup, ch)
      && (forall n :: n in backup ==> n in primary && backup[n] == primary[n])
      && NextNumber(s', p.backup, ch) == |backup|
  {
    assert ChannelLogs(s, ch);
  }

  lemma PrimarySendChannels(s: State, s': State, k: nat, ch: string)
    requires LogInv(s) && PrimarySend(s, s', k)
    ensures ChannelLogs(s', ch)
  {
    var p := ChannelOwner(s.hash, ch);
    PrimarySendNumbered(s, s', k, ch);
    if !TakenOver(s, p) {
      PrimarySendBackup(s, s', k, ch);
      if (p.primary, p.backup) !in s.suspects {
        forall m | m in Log(s', p.primary, ch) && m !in Log(s', p.backup, ch)
          ensures exists i :: OutstandingAs(s', i, ch, m)
        {
          PrimarySendPending(s, s', k, ch, m);
        }
      }
    }
  }

  lemma PrimarySendKeeps(s: State, s': State, k: nat)
    requires LogInv(s) && PrimarySend(s, s', k)
    ensures LogInv(s')
  {
    PrimarySendCalls(s, s', k);
    forall ch
      ensures ChannelLogs(s', ch)
    {
      PrimarySendChannels(s, s', k, ch);
    }
    forall i, j, ch, m | OutstandingAs(s', i, ch, m) && OutstandingAs(s', j, ch, m)
      ensures i == j
    {
      assert LogCall(s, i) && LogCall(s, j);
      assert i != k ==> OutstandingAs(s, i, ch, m);
      assert j != k ==> OutstandingAs(s, j, ch, m);
    }
  }

  lemma TakenOverCall(s: State, s': State, k: nat, i: nat, log: map<nat, Message>, next: nat)
    requires Inv(s) && Sends(s, k) && k in s'.calls && i in s'.calls
    requires s'.calls == s.calls[k := s'.calls[k]]
    requires
      var o := ChannelOwner(s.hash, s.calls[k].op.channel);
      && TakenOver(s, o)
      && OneLog(s, s', o.backup, s.calls[k].op.channel, log, next)
    requires s'.calls[k].phase.Acked? ==> s'.calls[k].at !in s.live
    requires LogCall(s.(calls := s'.calls), i)
    ensures LogCall(s', i)
  {
    if i != k { assert CallOk(s, i); }
  }

  /** After a takeover nothing is promised here about the backup's log of the channel. */
  lemma TakenOverKeeps(s: State, s': State, k: nat, log: map<nat, Message>, next: nat)
    requires Inv(s) && LogInv(s) && Sends(s, k) && k in s'.calls
    requires s'.calls == s.calls[k := s'.calls[k]]
    requires
      var o := ChannelOwner(s.hash, s.calls[k].op.channel);
      && TakenOver(s, o)
      && OneLog(s, s', o.backup, s.calls[k].op.channel, log, next)
    requires s'.calls[k].phase.Acked? ==> s'.calls[k].at !in s.live
    requires LogInv(s.(calls := s'.calls))
    ensures LogInv(s')
  {
    var mid := s.(calls := s'.calls);
    forall i | i in s'.calls
      ensures LogCall(s', i)
    {
      TakenOverCall(s, s', k, i, log, next);
    }
    forall ch
      ensures ChannelLogs(s', ch)
    {
      assert ChannelLogs(mid, ch);
      forall n, i | OutstandingAs(mid, i, ch, n)
        ensures OutstandingAs(s', i, ch, n)
      {
      }
    }
    forall i, j, ch, n | OutstandingAs(s', i, ch, n) && OutstandingAs(s', j, ch, n)
      ensures i == j
    {
      assert OutstandingAs(mid, i, ch, n) && OutstandingAs(mid, j, ch, n);
    }
  }

  lemma BackupSendKeeps(s: State, s': State, k: nat)
    requires Inv(s) && LogInv(s) && Numbers(s, s', k) && s.calls[k].phase.Checked?
    requires s.calls[k].at == ChannelOwner(s.hash, s.calls[k].op.channel).backup
    requires TakenOver(s, ChannelOwner(s.hash, s.calls[k].op.channel))
    ensures LogInv(s')
  {
    var c := s.calls[k];
    var ch := ChannelAt(s'.stores[c.at], c.op.channel);
    CallKeeps(s, k, s'.calls[k]);
    TakenOverKeeps(s, s', k, ch.log, ch.next);
  }

  /** The backup, not yet serving, applies one outstanding message. */
  ghost predicate Copies(s: State, s': State, k: nat)
  {
    && Outstanding(s, k)
    && var c := s.calls[k];
       var o := ChannelOwner(s.hash, c.op.channel);
       var r := c.phase.reply;
       && r.id.number !in Log(s, o.backup, c.op.channel)
       && OneLog(s, s', o.backup, c.op.channel,
                 Log(s, o.backup, c.op.channel)[r.id.number := Message(c.op.user, c.op.text, r.id)],
                 NextNumber(s, o.backup, c.op.channel) + 1)
       && s'.calls == s.calls[k := c.(phase := Acked(r, r))]
  }

  lemma CopyCalls(s: State, s': State, k: nat)
    requires LogInv(s) && Copies(s, s', k)
    ensures forall i {:trigger LogCall(s', i)} :: i in s'.calls ==> LogCall(s', i)
  {
    var c := s.calls[k];
    assert LogCall(s, k);
    forall i | i in s'.calls
      ensures LogCall(s', i)
    {
      assert LogCall(s, i);
      assert OutstandingAs(s, k, c.op.channel, c.phase.reply.id.number);
      assert Outstanding(s, i) && s.calls[i].op.channel == c.op.channel && i != k ==>
        !OutstandingAs(s, i, c.op.channel, c.phase.reply.id.number);
    }
  }

  lemma CopyPending(s: State, s': State, k: nat, ch: string, m: nat)
    requires LogInv(s) && Copies(s, s', k)
    requires
      var p := ChannelOwner(s.hash, ch);
      && !TakenOver(s, p) && (p.primary, p.backup) !in s.suspects
      && m in Log(s', p.primary, ch) && m !in Log(s', p.backup, ch)
    ensures exists i :: OutstandingAs(s', i, ch, m)
  {
    assert ChannelLogs(s, ch);
    var i :| OutstandingAs(s, i, ch, m);
    assert i != k;
    assert OutstandingAs(s', i, ch, m);
  }

  lemma CopyChannels(s: State, s': State, k: nat, ch: string)
    requires LogInv(s) && Copies(s, s', k)
    ensures ChannelLogs(s', ch)
  {
    assert ChannelLogs(s, ch) && LogCall(s, k);
    var p := ChannelOwner(s.hash, ch);
    if !TakenOver(s, p) && (p.primary, p.backup) !in s.suspects {
      forall m | m in Log(s', p.primary, ch) && m !in Log(s', p.backup, ch)
        ensures exists i :: OutstandingAs(s', i, ch, m)
      {
        CopyPending(s, s', k, ch, m);
      }
    }
  }

  lemma CopyKeeps(s: State, s': State, k: nat)
    requires LogInv(s) && Copies(s, s', k)
    ensures LogInv(s')
  {
    CopyCalls(s, s', k);
    forall ch
      ensures ChannelLogs(s', ch)
    {
      CopyChannels(s, s', k, ch);
    }
    forall i, j, ch, m | OutstandingAs(s', i, ch, m) && OutstandingAs(s', j, ch, m)
      ensures i == j
    {
      assert OutstandingAs(s, i, ch, m) && OutstandingAs(s, j, ch, m);
    }
  }

  lemma LateCopyKeeps(s: State, s': State, k: nat, st: Store)
    requires Inv(s) && LogInv(s) && Outstanding(s, k)
    requires
      var c := s.calls[k];
      var o := ChannelOwner(s.hash, c.op.channel);
      && TakenOver(s, o)
      && Mirror(s.stores[o.backup], c.op, c.phase.reply) == Mirrored(st, c.phase.reply)
      && s' == s.(stores := s.stores[o.backup := st],
           calls := s.calls[k := c.(phase := Acked(c.phase.reply, c.phase.reply))])
    ensures LogInv(s')
  {
    var c := s.calls[k];
    var ch := ChannelAt(st, c.op.channel);
    assert CallOk(s, k) && LogCall(s, k);
    CallKeeps(s, k, s'.calls[k]);
    TakenOverKeeps(s, s', k, ch.log, ch.next);
  }

  lemma EarlyCopyKeeps(s: State, s': State, k: nat, st: Store)
    requires LogInv(s) && Outstanding(s, k)
    requires
      var c := s.calls[k];
      var o := ChannelOwner(s.hash, c.op.channel);
      && !TakenOver(s, o)
      && Mirror(s.stores[o.backup], c.op, c.phase.reply) == Mirrored(st, c.phase.reply)
      && s' == s.(stores := s.stores[o.backup := st],
           calls := s.calls[k := c.(phase := Acked(c.phase.reply, c.phase.reply))])
    ensures LogInv(s')
  {
    assert LogCall(s, k);
    CopyKeeps(s, s', k);
  }

  lemma PanickedCopyKeeps(s: State, k: nat)
    requires LogInv(s) && Enabled(s, Replicate(k)) && Sends(s, k) && Do(s, Replicate(k)).calls[k].phase.Unanswered?
    ensures LogInv(Do(s, Replicate(k)))
  {
    var s' := Do(s, Replicate(k));
    assert LogCall(s, k);
    CallKeeps(s, k, s'.calls[k]);
    FrameKeeps(s.(calls := s'.calls), s');
  }

  lemma ReplicateKeeps(s: State, k: nat)
    requires Inv(s) && LogInv(s) && Enabled(s, Replicate(k)) && Sends(s, k)
    ensures LogInv(Do(s, Replicate(k)))
  {
    var s' := Do(s, Replicate(k));
    var c := s.calls[k];
    var o := ChannelOwner(s.hash, c.op.channel);
    assert CallOk(s, k);
    if s'.calls[k].phase.Unanswered? {
      PanickedCopyKeeps(s, k);
    } else {
      var st := Mirror(s.stores[o.backup], c.op, c.phase.reply).store;
      if TakenOver(s, o) {
        LateCopyKeeps(s, s', k, st);
      } else {
        EarlyCopyKeeps(s, s', k, st);
      }
    }
  }

  lemma SendKeeps(s: State, k: nat, found: bool)
    requires Inv(s) && LogInv(s) && Enabled(s, Change(k, found)) && Sends(s, k)
    ensures LogInv(Do(s, Change(k, found)))
  {
    var s' := Do(s, Change(k, found));
    SendIsNumbered(s, k, found);
    assert CallOk(s, k);
    if !Numbers(s, s', k) {
      PlainKeeps(s, k, s'.calls[k]);
    } else if s.calls[k].at == ChannelOwner(s.hash, s.calls[k].op.channel).primary {
      PrimarySendEffect(s, s', k);
      PrimarySendKeeps(s, s', k);
    } else {
      BackupSendKeeps(s, s', k);
    }
  }

  lemma LogStep(s: State, a: Action)
    requires Inv(s) && LogInv(s) && Enabled(s, a)
    ensures LogInv(Do(s, a))
  {
    if a.Crash? || a.Suspect? || a.Submit? || a.Arrive? || a.Decide? || a.Seek? || a.SeekAgain? {
      EnvironmentKeeps(s, a);
    } else if a.Route? || a.Check? || a.Retry? {
      RoutingKeeps(s, a);
    } else if a.Answer? {
      AnswerKeeps(s, a.k);
    } else if !s.calls[a.k].op.SendMessage? {
      OtherOpKeeps(s, a);
    } else if a.Change? {
      SendKeeps(s, a.k, a.found);
    } else if a.Replicate? {
      ReplicateKeeps(s, a.k);
    } else {
      NewsStepKeeps(s, a);
    }
  }

  lemma {:induction false} RunKeeps(s: State, acts: seq<Action>)
    requires Inv(s) && LogInv(s) && IsRun(s, acts)
    ensures Inv(After(s, acts)) && LogInv(After(s, acts))
    decreases |acts|
  {
    if acts != [] {
      InvStep(s, acts[0]);
      LogStep(s, acts[0]);
      RunKeeps(Do(s, acts[0]), acts[1..]);
    }
  }

  function OutstandingNumbers(s: State, channel: string): set<nat>
  {
    set k | k in s.calls && Outstanding(s, k) && s.calls[k].op.channel == channel :: s.calls[k].phase.reply.id.number
  }

  lemma {:induction false} NumberedSize(log: map<nat, Message>, next: nat)
    requires Numbered(log, next)
    ensures |log| == next
    decreases next
  {
    if next == 0 {
      assert log == map[];
    } else {
      var n: nat := next - 1;
      var rest := map i | i in log && i != n :: log[i];
      assert log == rest[n := log[n]];
      NumberedSize(rest, n);
    }
  }

  /** Neither owner of the channel has marked the other dead. */
  predicate Paired(s: State, channel: string)
  {
    var o := ChannelOwner(s.hash, channel);
    (o.backup, o.primary) !in s.suspects && (o.primary, o.backup) !in s.suspects
  }

  /** The primary has numbered its messages 0, 1, 2, ... without a gap; they are the disjoint union of
      the backup's messages and the outstanding ones; the backup's counter is its message count. With
      nothing outstanding the two logs and the two counters are equal. */
  ghost predicate Converging(s: State, channel: string)
  {
    var o := ChannelOwner(s.hash, channel);
    var primary, backup, out := Log(s, o.primary, channel), Log(s, o.backup, channel), OutstandingNumbers(s, channel);
    && Numbered(primary, NextNumber(s, o.primary, channel))
    && primary.Keys == backup.Keys + out && backup.Keys !! out
    && (forall n :: n in backup ==> backup[n] == primary[n])
    && NextNumber(s, o.backup, channel) == |backup|
    && (out == {} ==> backup == primary && NextNumber(s, o.backup, channel) == NextNumber(s, o.primary, channel))
  }

  lemma OutstandingIsMissing(s: State, channel: string, n: nat)
    requires LogInv(s) && Paired(s, channel) && n in OutstandingNumbers(s, channel)
    ensures
      var o := ChannelOwner(s.hash, channel);
      n in Log(s, o.primary, channel) && n !in Log(s, o.backup, channel)
  {
    var k :| k in s.calls && Outstanding(s, k) && s.calls[k].op.channel == channel
      && s.calls[k].phase.reply.id.number == n;
    assert LogCall(s, k);
  }

  lemma OutstandingCovers(s: State, channel: string)
    requires LogInv(s) && Paired(s, channel)
    ensures
      var o := ChannelOwner(s.hash, channel);
      var primary, backup, out := Log(s, o.primary, channel), Log(s, o.backup, channel), OutstandingNumbers(s, channel);
      primary.Keys == backup.Keys + out && backup.Keys !! out
  {
    var o := ChannelOwner(s.hash, channel);
    var primary, backup, out := Log(s, o.primary, channel), Log(s, o.backup, channel), OutstandingNumbers(s, channel);
    assert ChannelLogs(s, channel);
    forall n | n in out
      ensures n in primary && n !in backup
    {
      OutstandingIsMissing(s, channel, n);
    }
    forall n | n in primary && n !in backup
      ensures n in out
    {
      var k :| OutstandingAs(s, k, channel, n);
    }
  }

  lemma Converges(s: State, channel: string)
    requires LogInv(s) && Paired(s, channel)
    ensures Converging(s, channel)
  {
    var o := ChannelOwner(s.hash, channel);
    var primary, backup := Log(s, o.primary, channel), Log(s, o.backup, channel);
    assert ChannelLogs(s, channel);
    OutstandingCovers(s, channel);
    if OutstandingNumbers(s, channel) == {} {
      assert backup.Keys == primary.Keys;
      assert backup == primary;
      NumberedSize(primary, NextNumber(s, o.primary, channel));
    }
  }

  lemma InitLogs(hash: string -> nat)
    ensures LogInv(Init(hash))
  {
    var s := Init(hash);
    forall c
      ensures ChannelLogs(s, c)
    {
      forall x: Server
        ensures Log(s, x, c) == map[] && NextNumber(s, x, c) == 0
      {
        match x case A => case B => case C =>
      }
    }
  }

  /** In every run, whatever the order in which replicate requests arrive and whatever crashes, the
      two owners of a channel converge as long as neither has marked the other dead. */
  lemma ReplicasConverge(hash: string -> nat, acts: seq<Action>, channel: string)
    requires IsRun(Init(hash), acts)
    requires Paired(After(Init(hash), acts), channel)
    ensures Converging(After(Init(hash), acts), channel)
  {
    InitLogs(hash);
    RunKeeps(Init(hash), acts);
    Converges(After(Init(hash), acts), channel);
  }
}
