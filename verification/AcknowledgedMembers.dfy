/** Acknowledged joins and leaves survive: as long as nothing that undoes it is under way or begun, the
    user is, or is no longer, a member on every owner that is still alive, whatever crashes. */
module AcknowledgedMembers {

  import opened Prelude
  import opened Servers
  import opened StoreSpec
  import opened Cluster
  import opened Protocol
  import C = Channels
  import opened SerialClients

  /** A user's membership of a channel, and whether it is to begin or to end. */
  datatype Wish = Wish(user: string, channel: string, joins: bool)

  function Asks(w: Wish): Op
  {
    if w.joins then JoinChannel(w.user, w.channel) else LeaveChannel(w.user, w.channel)
  }

  function Undoes(w: Wish): Op
  {
    if w.joins then LeaveChannel(w.user, w.channel) else JoinChannel(w.user, w.channel)
  }

  predicate Holds(s: State, x: Server, w: Wish)
  {
    (w.user in ChannelAt(s.stores[x], w.channel).users) == w.joins
  }

  predicate HoldsOnLive(s: State, w: Wish)
  {
    var o := ChannelOwner(s.hash, w.channel);
    (o.primary in s.live ==> Holds(s, o.primary, w)) && (o.backup in s.live ==> Holds(s, o.backup, w))
  }

  predicate UndoInFlight(s: State, i: nat, w: Wish)
  {
    i in s.calls && s.calls[i].op == Undoes(w) && InFlight(s, i)
  }

  ghost predicate NoUndo(s: State, w: Wish)
  {
    forall i {:trigger UndoInFlight(s, i, w)} :: !UndoInFlight(s, i, w)
  }

  predicate Begins(a: Action, op: Op)
  {
    a.Submit? && a.op == op
  }

  /** A call of the client request numbered `root` for the wish. */
  predicate WishCall(s: State, i: nat, w: Wish, root: nat)
    requires i in s.calls
  {
    var c := s.calls[i];
    c.op == Asks(w) && c.root == root ==>
      && (Holding(c.phase).Some? && c.at in s.live ==> Holds(s, c.at, w))
      && (c.phase.Acked? && c.at in s.live ==> Holds(s, ChannelOwner(s.hash, w.channel).backup, w))
      && ((c.phase.Replying? || c.phase.Done?) && c.phase.reply == Accepted ==> HoldsOnLive(s, w))
  }

  ghost predicate WishInv(s: State, w: Wish, root: nat)
  {
    && NoUndo(s, w)
    && (forall i {:trigger WishCall(s, i, w, root)} :: i in s.calls ==> WishCall(s, i, w, root))
  }

  lemma OpsHold(st: Store, op: Op, found: bool, reply: Reply, w: Wish)
    requires op != Undoes(w) && (w.user in ChannelAt(st, w.channel).users) == w.joins
    ensures (w.user in ChannelAt(Perform(st, op, found).0, w.channel).users) == w.joins
    ensures
      var m := Mirror(st, op, reply);
      m.Mirrored? ==> (w.user in ChannelAt(m.store, w.channel).users) == w.joins
  {
  }

  /** While nothing that undoes the wish is in flight, no step takes it back on a live server. */
  lemma HoldsStays(s: State, a: Action, x: Server, w: Wish)
    requires NoUndo(s, w) && Enabled(s, a) && Holds(s, x, w) && Inv(s)
    ensures Holds(Do(s, a), x, w)
  {
    if a.Change? || a.Replicate? {
      assert !UndoInFlight(s, a.k, w) && CallOk(s, a.k);
      OpsHold(s.stores[x], s.calls[a.k].op, a.Change? && a.found,
              if a.Replicate? then s.calls[a.k].phase.reply else Accepted, w);
    }
  }

  /** A call that has come to nothing stays so, and only clients begin operations. */
  lemma NoUndoStays(s: State, a: Action, w: Wish)
    requires NoUndo(s, w) && Enabled(s, a) && !Begins(a, Undoes(w)) && Inv(s)
    ensures NoUndo(Do(s, a), w)
  {
    forall i
      ensures !UndoInFlight(Do(s, a), i, w)
    {
      NoneBegins(s, a, i, w);
    }
  }

  lemma NoneBegins(s: State, a: Action, i: nat, w: Wish)
    requires NoUndo(s, w) && Enabled(s, a) && !Begins(a, Undoes(w)) && Inv(s)
    ensures !UndoInFlight(Do(s, a), i, w)
  {
    assert !UndoInFlight(s, i, w);
    if a.Route? {
      assert !UndoInFlight(s, a.k, w);
    } else if a.Answer? {
      assert CallOk(s, a.k);
    } else if i in s.calls {
      FlightEnds(s, a, i);
    }
  }

  lemma FlightEnds(s: State, a: Action, i: nat)
    requires Enabled(s, a) && i in s.calls && s.next !in s.calls && !a.Answer? && !a.Route?
    ensures SameCall(s.calls[i], Do(s, a).calls[i]) && (InFlight(Do(s, a), i) ==> InFlight(s, i))
  {
  }

  lemma PerformHolds(st: Store, w: Wish, found: bool)
    requires !Perform(st, Asks(w), found).1.Rejected?
    ensures (w.user in ChannelAt(Perform(st, Asks(w), found).0, w.channel).users) == w.joins
  {
  }

  lemma MirrorHolds(st: Store, w: Wish, reply: Reply)
    requires ValidName(w.channel)
    ensures
      var m := Mirror(st, Asks(w), reply);
      m.Mirrored? && (w.user in ChannelAt(m.store, w.channel).users) == w.joins
  {
  }

  lemma EarlyCall(s: State, a: Action, w: Wish, root: nat)
    requires Inv(s) && WishInv(s, w, root) && Enabled(s, a)
    requires a.Arrive? || a.Decide? || a.Seek? || a.SeekAgain? || a.Route? || a.Check? || a.Change? || a.Retry?
    ensures WishCall(Do(s, a), a.k, w, root)
  {
    var c := s.calls[a.k];
    assert s.next !in s.calls;
    if a.Change? && c.op == Asks(w) && !Perform(s.stores[c.at], c.op, a.found).1.Rejected? {
      PerformHolds(s.stores[c.at], w, a.found);
    }
  }

  lemma LateCall(s: State, a: Action, w: Wish, root: nat)
    requires Inv(s) && C.ChannelInv(s) && WishInv(s, w, root) && Enabled(s, a)
    requires a.Copy? || a.Replicate? || a.Confirm? || a.Abandon?
    requires s.calls[a.k].op == Asks(w) && s.calls[a.k].root == root
    ensures WishCall(Do(s, a), a.k, w, root)
  {
    var c := s.calls[a.k];
    var o := ChannelOwner(s.hash, w.channel);
    assert CallOk(s, a.k) && C.ChannelCall(s, a.k) && WishCall(s, a.k, w, root);
    assert ChannelExists(s, c.at, w.channel);
    if a.Replicate? {
      MirrorHolds(s.stores[o.backup], w, c.phase.reply);
      if c.at in s.live { HoldsStays(s, a, c.at, w); }
    }
  }

  lemma AnswerCalls(s: State, k: nat, w: Wish, root: nat)
    requires Inv(s) && WishInv(s, w, root) && Enabled(s, Answer(k))
    ensures WishCall(Do(s, Answer(k)), k, w, root) && WishCall(Do(s, Answer(k)), s.calls[k].parent.value, w, root)
  {
    assert CallOk(s, k) && WishCall(s, k, w, root);
  }

  lemma Untouched(s: State, a: Action, i: nat, w: Wish, root: nat)
    requires Inv(s) && WishInv(s, w, root) && Enabled(s, a)
    requires i in s.calls && i in Do(s, a).calls && Do(s, a).calls[i] == s.calls[i]
    ensures WishCall(Do(s, a), i, w, root)
  {
    assert WishCall(s, i, w, root);
    forall x: Server | Holds(s, x, w)
      ensures Holds(Do(s, a), x, w)
    {
      HoldsStays(s, a, x, w);
    }
    Frame(s, a);
  }

  lemma Frame(s: State, a: Action)
    requires Enabled(s, a)
    ensures Do(s, a).hash == s.hash && Do(s, a).live <= s.live
  {
  }

  lemma WishStep(s: State, a: Action, w: Wish, root: nat)
    requires Inv(s) && C.ChannelInv(s) && WishInv(s, w, root) && Enabled(s, a) && !Begins(a, Undoes(w))
    ensures WishInv(Do(s, a), w, root)
  {
    var s' := Do(s, a);
    NoUndoStays(s, a, w);
    forall i | i in s'.calls
      ensures WishCall(s', i, w, root)
    {
      WishCallStep(s, a, i, w, root);
    }
  }

  lemma WishCallStep(s: State, a: Action, i: nat, w: Wish, root: nat)
    requires Inv(s) && C.ChannelInv(s) && WishInv(s, w, root) && Enabled(s, a) && i in Do(s, a).calls
    ensures WishCall(Do(s, a), i, w, root)
  {
    var s' := Do(s, a);
    if i in s.calls && s'.calls[i] == s.calls[i] {
      Untouched(s, a, i, w, root);
    } else if a.Answer? {
      AnswerCalls(s, a.k, w, root);
    } else if a.Copy? || a.Replicate? || a.Confirm? || a.Abandon? {
      if s.calls[i].op == Asks(w) && s.calls[i].root == root { LateCall(s, a, w, root); }
    } else if a.Arrive? || a.Decide? || a.Seek? || a.SeekAgain? || a.Route? || a.Check? || a.Change? || a.Retry? {
      if a.k == i { EarlyCall(s, a, w, root); }
    }
  }

  lemma {:induction false} WishRun(s: State, acts: seq<Action>, w: Wish, root: nat)
    requires Inv(s) && C.ChannelInv(s) && WishInv(s, w, root) && IsRun(s, acts)
    requires forall i :: 0 <= i < |acts| ==> !Begins(acts[i], Undoes(w))
    ensures WishInv(After(s, acts), w, root) && After(s, acts).hash == s.hash
    decreases |acts|
  {
    if acts != [] {
      InvStep(s, acts[0]);
      C.ChannelStep(s, acts[0]);
      WishStep(s, acts[0], w, root);
      WishRun(Do(s, acts[0]), acts[1..], w, root);
    }
  }

  lemma SubmittedWish(s: State, x: Server, w: Wish)
    requires Inv(s) && NoUndo(s, w) && Enabled(s, Submit(x, Asks(w)))
    ensures WishInv(Do(s, Submit(x, Asks(w))), w, s.next)
  {
    var s' := Do(s, Submit(x, Asks(w)));
    NoUndoStays(s, Submit(x, Asks(w)), w);
    forall i | i in s'.calls
      ensures WishCall(s', i, w, s.next)
    {
      if i in s.calls { RootIsEarlier(s, i); }
    }
  }

  lemma WishGranted(s: State, x: Server, w: Wish, after: seq<Action>)
    requires Inv(s) && C.ChannelInv(s) && Enabled(s, Submit(x, Asks(w))) && NoUndo(s, w)
    requires IsRun(Do(s, Submit(x, Asks(w))), after)
    requires forall i :: 0 <= i < |after| ==> !Begins(after[i], Undoes(w))
    ensures
      var t := After(Do(s, Submit(x, Asks(w))), after);
      s.next in t.calls && t.calls[s.next].phase == Done(Accepted) ==> HoldsOnLive(t, w)
  {
    var a := Submit(x, Asks(w));
    var s' := Do(s, a);
    SubmittedWish(s, x, w);
    InvStep(s, a);
    C.ChannelStep(s, a);
    WishRun(s', after, w, s.next);
    CallsStay(s', after, s.next);
    assert WishCall(After(s', after), s.next, w, s.next);
  }

  /** In every run: when nothing that undoes it is in flight as a client begins to join (or leave) a channel,
      and nothing of the kind is begun later, then once the operation is acknowledged the user is (or is
      no longer) a member on every owner that is still alive. */
  lemma AcknowledgedMembersStay(hash: string -> nat, before: seq<Action>, x: Server, w: Wish, after: seq<Action>)
    requires IsRun(Init(hash), before)
    requires
      var s := After(Init(hash), before);
      && Enabled(s, Submit(x, Asks(w))) && NoUndo(s, w)
      && IsRun(Do(s, Submit(x, Asks(w))), after)
    requires forall i :: 0 <= i < |after| ==> !Begins(after[i], Undoes(w))
    ensures
      var s := After(Init(hash), before);
      var t := After(Do(s, Submit(x, Asks(w))), after);
      s.next in t.calls && t.calls[s.next].phase == Done(Accepted) ==> HoldsOnLive(t, w)
  {
    C.InitChannels(hash);
    C.RunKeeps(Init(hash), before);
    WishGranted(After(Init(hash), before), x, w, after);
  }
}
