/** Which requests are still answered when nothing crashes any more. A request needs a path to a live owner
    of its key, the answer to its user lookup, and a copy that gets through; or a refusal on the way. */
module Answers {

  import opened Prelude
  import opened Servers
  import opened StoreSpec
  import opened Cluster
  import opened Protocol
  import opened UserLookup
  import opened Schedules
  import C = Channels

  predicate Over(ph: Phase)
  {
    ph.Done? || ph.Replying?
  }

  // ---------- up to the change ----------

  /** The first checks refuse the operation, without a poisoned lock in their way. */
  predicate RefusedEarly(s: State, x: Server, op: Op)
  {
    Precheck(s.stores[x], op).Some? && (x !in s.poisoned || !CheckLocks(op))
  }

  /** The lookup will be answered, and what it answers does not lead to a poisoned lock. */
  predicate LookupHelps(s: State, x: Server, op: Op)
  {
    && LookupOpen(s, op.user)
    && (x !in s.poisoned || !ChangeLocks(op, true) || !HasUser(s, UserServer(s, op.user), op.user))
  }

  /** An operation that has come to its authority x gets to its change, or is refused before. */
  predicate GetsToChange(s: State, x: Server, op: Op)
  {
    || RefusedEarly(s, x, op)
    || (if op.CreateUser? then x !in s.poisoned else (x !in s.poisoned || !CheckLocks(op)) && LookupHelps(s, x, op))
  }

  /** The server that the operation comes to: the primary while it lives, then the backup. */
  predicate OwnerPath(s: State, op: Op)
  {
    var o := OwnersOf(s.hash, op);
    var x := if o.primary in s.live then o.primary else o.backup;
    x in s.live && GetsToChange(s, x, op)
  }

  // ---------- the copy ----------

  /** A call on x whose lookup has found its user. */
  predicate ReadyFor(s: State, i: nat, x: Server, op: Op)
  {
    && i in s.calls && Seeking(s.calls[i]) && s.calls[i].at == x && s.calls[i].op == op
    && var l := s.calls[i].phase.lookup;
       (l.Heard? || l.Told?) && l.found
  }

  predicate JoinToCopy(s: State, j: nat, channel: string)
  {
    && j in s.calls && s.calls[j].op.JoinChannel? && s.calls[j].op.channel == channel
    && s.calls[j].at == ChannelOwner(s.hash, channel).primary
    && (s.calls[j].phase.Performed? || s.calls[j].phase.Replicating?)
  }

  predicate CanLookUp(s: State, user: string)
  {
    user != [] && LookupOpen(s, user)
  }

  /** A join on the primary that will be accepted, if need be after a leave of the same user. */
  ghost predicate JoinReady(s: State, j: nat, p: Server, channel: string)
  {
    && j in s.calls && s.calls[j].op.JoinChannel? && ReadyFor(s, j, p, JoinChannel(s.calls[j].op.user, channel))
    && (|| s.calls[j].op.user !in ChannelAt(s.stores[p], channel).users
        || exists i :: ReadyFor(s, i, p, LeaveChannel(s.calls[j].op.user, channel)))
  }

  /** A join can still bring the channel to its backup. */
  ghost predicate CanBring(s: State, channel: string)
  {
    var p := ChannelOwner(s.hash, channel).primary;
    || (exists j :: JoinToCopy(s, j, channel))
    || (p !in s.poisoned && ((exists v :: CanLookUp(s, v)) || exists j :: JoinReady(s, j, p, channel)))
  }

  /** The live backup can apply the copy: it is sound, and a send finds its channel or a join can still
      bring it there first. */
  ghost predicate CopyGetsThrough(s: State, op: Op)
  {
    var o := OwnersOf(s.hash, op);
    && o.backup !in s.poisoned
    && (op.SendMessage? ==> ChannelExists(s, o.backup, op.channel) || CanBring(s, op.channel))
  }

  // ---------- the change ----------

  /** An operation after which the given one is refused. */
  function Spoiler(op: Op): Op
  {
    if op.SendMessage? then LeaveChannel(op.user, op.channel) else op
  }

  /** Another call can make the change of call k be refused. */
  ghost predicate Spoilable(s: State, k: nat, x: Server, op: Op)
  {
    || op.CreateUser?
    || LookupOpen(s, op.user)
    || exists i :: i != k && ReadyFor(s, i, x, Spoiler(op))
  }

  /** The change of call k, with its user found, leads to an answer. */
  ghost predicate ChangeEnds(s: State, k: nat, x: Server, op: Op)
  {
    var o := OwnersOf(s.hash, op);
    if x in s.poisoned then !ChangeLocks(op, true)
    else
      || Perform(s.stores[x], op, true).1.Rejected?
      || x == o.backup || o.backup !in s.live || CopyGetsThrough(s, op)
      || Spoilable(s, k, x, op)
  }

  ghost predicate SeekViable(s: State, k: nat, x: Server, op: Op, l: Lookup)
  {
    var o := UserOwner(s.hash, op.user);
    match l
    case Told(found) => found ==> ChangeEnds(s, k, x, op)
    case Heard(q, found) =>
      (found ==> ChangeEnds(s, k, x, op)) || (q !in s.live && LookupHelps(s, x, op))
    case Away => LookupHelps(s, x, op) && !(x == o.backup && (x, o.primary) in s.suspects)
    case Failed => false
    case _ => LookupHelps(s, x, op)
  }

  // ---------- calls ----------

  /** A call that does not wait for another one. */
  ghost predicate Viable(s: State, k: nat)
    requires k in s.calls
  {
    var c := s.calls[k];
    var o := OwnersOf(s.hash, c.op);
    || Over(c.phase)
    || (&& c.at in s.live
        && match c.phase
           case Travelling => OwnerPath(s, c.op)
           case Start => OwnerPath(s, c.op)
           case Routing => OwnerPath(s, c.op) && !(c.at == o.backup && (c.at, o.primary) in s.suspects)
           case Authorised => GetsToChange(s, c.at, c.op)
           case Checked(l) => if c.op.CreateUser? then c.at !in s.poisoned else SeekViable(s, k, c.at, c.op, l)
           case Performed(_) => c.at == o.backup || o.backup !in s.live || CopyGetsThrough(s, c.op)
           case Replicating(_) => o.backup !in s.live || CopyGetsThrough(s, c.op)
           case Acked(_, _) => true
           case Unanswered(_) => o.backup !in s.live
           case _ => false)
  }

  /** The call itself is viable, or the one it waits for, or that one's server has crashed and there is a
      path for another attempt. */
  ghost predicate CanFinish(s: State, k: nat)
    decreases s.next - k
  {
    && k in s.calls
    && var c := s.calls[k];
       if c.phase.Forwarded? then
         var ch := c.phase.child;
         && c.at in s.live
         && k < ch < s.next && ch in s.calls
         && (CanFinish(s, ch) || (s.calls[ch].at !in s.live && OwnerPath(s, c.op)))
       else Viable(s, k)
  }

  ghost predicate Sane(s: State)
  {
    Inv(s) && C.ChannelInv(s) && LookupInv(s)
  }

  lemma SaneStep(s: State, a: Action)
    requires Sane(s) && Enabled(s, a)
    ensures Sane(Do(s, a))
  {
    InvStep(s, a);
    C.ChannelStep(s, a);
    LookupInvStep(s, a);
  }

  // ---------- no step opens what is closed ----------

  /** Without a crash servers only get poisoned, users only known and channels only created. */
  lemma OnlyCloses(s: State, a: Action, op: Op)
    requires Enabled(s, a) && !a.Crash?
    ensures Do(s, a).live == s.live && Do(s, a).hash == s.hash
    ensures s.poisoned <= Do(s, a).poisoned && s.suspects <= Do(s, a).suspects
    ensures LookupOpen(Do(s, a), op.user) ==> LookupOpen(s, op.user)
    ensures HasUser(s, UserServer(s, op.user), op.user) ==> HasUser(Do(s, a), UserServer(s, op.user), op.user)
    ensures UserServer(Do(s, a), op.user) == UserServer(s, op.user)
  {
    UsersStay(s, a);
  }

  lemma LookupCloses(s: State, a: Action, x: Server, op: Op)
    requires Enabled(s, a) && !a.Crash?
    ensures LookupHelps(Do(s, a), x, op) ==> LookupHelps(s, x, op)
  {
    OnlyCloses(s, a, op);
  }

  lemma RefusalCloses(s: State, a: Action, x: Server, op: Op)
    requires Enabled(s, a) && !a.Crash?
    ensures RefusedEarly(Do(s, a), x, op) ==> RefusedEarly(s, x, op)
  {
    OnlyCloses(s, a, op);
    C.StepGrows(s, a);
    if !op.CreateUser? { assert ChannelExists(s, x, op.channel) ==> ChannelExists(Do(s, a), x, op.channel); }
  }

  lemma PathCloses(s: State, a: Action, x: Server, op: Op)
    requires Enabled(s, a) && !a.Crash?
    ensures GetsToChange(Do(s, a), x, op) ==> GetsToChange(s, x, op)
  {
    OnlyCloses(s, a, op);
    LookupCloses(s, a, x, op);
    RefusalCloses(s, a, x, op);
  }

  lemma OwnerPathCloses(s: State, a: Action, op: Op)
    requires Enabled(s, a) && !a.Crash?
    ensures OwnerPath(Do(s, a), op) ==> OwnerPath(s, op)
  {
    var o := OwnersOf(s.hash, op);
    OnlyCloses(s, a, op);
    PathCloses(s, a, if o.primary in s.live then o.primary else o.backup, op);
  }

  /** The server that a lookup waits for, or reads at home, is the one that lookups come to. */
  lemma LookupServer(s: State, at: Server, user: string, l: Lookup)
    requires Accurate(s) && LookupOk(s, at, user, l) && at in s.live
    ensures l.AtHome? ==> UserServer(s, user) == at
    ensures (l.Waiting? || l.Heard?) && l.q in s.live ==> UserServer(s, user) == l.q
  {
  }

  /** A lookup newly finds its user only while lookups of him are answered. */
  lemma NewlyReady(s: State, a: Action, i: nat, x: Server, op: Op)
    requires Sane(s) && Enabled(s, a) && ReadyFor(Do(s, a), i, x, op) && !ReadyFor(s, i, x, op)
    ensures CanLookUp(s, op.user)
  {
    SeekingStep(s, a, i);
    if a == Seek(i) && i in s.calls {
      var c := s.calls[i];
      assert LookupFits(s, i);
      LookupServer(s, c.at, c.op.user, c.phase.lookup);
      var y := UserServer(s, c.op.user);
      assert HasUser(s, y, c.op.user) && !HasUser(s, y, []);
    }
  }

  predicate Member(s: State, x: Server, channel: string, v: string)
  {
    v in ChannelAt(s.stores[x], channel).users
  }

  lemma PerformedMember(st: Store, op: Op, found: bool, channel: string, v: string)
    ensures
      var before, after := v in ChannelAt(st, channel).users, v in ChannelAt(Perform(st, op, found).0, channel).users;
      && (after && !before ==> found && op == JoinChannel(v, channel) && ChangeLocks(op, found))
      && (before && !after ==> found && op == LeaveChannel(v, channel) && ChangeLocks(op, found))
  {
  }

  lemma MirroredMember(st: Store, op: Op, reply: Reply, channel: string, v: string)
    requires op.CreateUser? || op.channel != channel
    ensures
      var m := Mirror(st, op, reply);
      m.Mirrored? ==> (v in ChannelAt(m.store, channel).users <==> v in ChannelAt(st, channel).users)
  {
  }

  /** Membership on the primary changes by a call there that has found its user. */
  lemma MemberMoves(s: State, a: Action, channel: string, v: string)
    requires Enabled(s, a)
    ensures
      var p := ChannelOwner(s.hash, channel).primary;
      && (Member(Do(s, a), p, channel, v) && !Member(s, p, channel, v) ==>
            a.Change? && ReadyFor(s, a.k, p, JoinChannel(v, channel)) && p !in s.poisoned)
      && (Member(s, p, channel, v) && !Member(Do(s, a), p, channel, v) ==>
            a.Change? && ReadyFor(s, a.k, p, LeaveChannel(v, channel)) && p !in s.poisoned)
  {
    if a.Change? {
      ChangedMember(s, a, channel, v);
    } else if a.Replicate? {
      CopiedMember(s, a, channel, v);
    }
  }

  lemma ChangedMember(s: State, a: Action, channel: string, v: string)
    requires Enabled(s, a) && a.Change?
    ensures
      var p := ChannelOwner(s.hash, channel).primary;
      && (Member(Do(s, a), p, channel, v) && !Member(s, p, channel, v) ==>
            ReadyFor(s, a.k, p, JoinChannel(v, channel)) && p !in s.poisoned)
      && (Member(s, p, channel, v) && !Member(Do(s, a), p, channel, v) ==>
            ReadyFor(s, a.k, p, LeaveChannel(v, channel)) && p !in s.poisoned)
  {
    PerformedMember(s.stores[ChannelOwner(s.hash, channel).primary], s.calls[a.k].op, a.found, channel, v);
  }

  lemma CopiedMember(s: State, a: Action, channel: string, v: string)
    requires Enabled(s, a) && a.Replicate?
    ensures
      var p := ChannelOwner(s.hash, channel).primary;
      Member(Do(s, a), p, channel, v) <==> Member(s, p, channel, v)
  {
    var op := s.calls[a.k].op;
    if op.CreateUser? || op.channel != channel {
      MirroredMember(s.stores[ChannelOwner(s.hash, channel).primary], op, s.calls[a.k].phase.reply, channel, v);
    }
  }

  lemma NewJoinToCopy(s: State, a: Action, channel: string, j: nat)
    requires Sane(s) && Enabled(s, a) && JoinToCopy(Do(s, a), j, channel) && !JoinToCopy(s, j, channel)
    ensures ChannelOwner(s.hash, channel).primary !in s.poisoned
    ensures JoinReady(s, j, ChannelOwner(s.hash, channel).primary, channel)
  {
    OnlyByChange(s, a, j);
    assert a.Change? && a.k == j;
  }

  /** A call has made its change only by its change. */
  lemma OnlyByChange(s: State, a: Action, j: nat)
    requires Sane(s) && Enabled(s, a) && j in Do(s, a).calls
    requires Do(s, a).calls[j].phase.Performed? || Do(s, a).calls[j].phase.Replicating?
    ensures j in s.calls && SameCall(s.calls[j], Do(s, a).calls[j])
    ensures (a.Change? && a.k == j) || s.calls[j].phase.Performed? || s.calls[j].phase.Replicating?
  {
  }

  lemma JoinReadyCloses(s: State, a: Action, channel: string, j: nat)
    requires Sane(s) && Enabled(s, a) && JoinReady(Do(s, a), j, ChannelOwner(s.hash, channel).primary, channel)
    ensures
      || JoinReady(s, j, ChannelOwner(s.hash, channel).primary, channel)
      || exists v :: CanLookUp(s, v)
  {
    var s' := Do(s, a);
    var p := ChannelOwner(s.hash, channel).primary;
    var v := s'.calls[j].op.user;
    var join, leave := JoinChannel(v, channel), LeaveChannel(v, channel);
    if !ReadyFor(s, j, p, join) {
      NewlyReady(s, a, j, p, join);
    } else if Member(s, p, channel, v) {
      MemberMoves(s, a, channel, v);
      if i :| ReadyFor(s', i, p, leave) && !ReadyFor(s, i, p, leave) {
        NewlyReady(s, a, i, p, leave);
      }
    }
  }

  lemma BringCloses(s: State, a: Action, channel: string)
    requires Sane(s) && Enabled(s, a) && !a.Crash? && CanBring(Do(s, a), channel)
    ensures CanBring(s, channel)
  {
    var s' := Do(s, a);
    var p := ChannelOwner(s.hash, channel).primary;
    OnlyCloses(s, a, CreateUser(""));
    if j :| JoinToCopy(s', j, channel) {
      if !JoinToCopy(s, j, channel) { NewJoinToCopy(s, a, channel, j); }
    } else if v :| CanLookUp(s', v) {
      OnlyCloses(s, a, CreateUser(v));
      assert CanLookUp(s, v);
    } else {
      var j :| JoinReady(s', j, p, channel);
      JoinReadyCloses(s, a, channel, j);
    }
  }

  lemma NoChannelFrom(st: Store, op: Op, found: bool, reply: Reply, channel: string)
    requires channel !in st.channels && !(op.JoinChannel? && op.channel == channel)
    ensures channel !in Perform(st, op, found).0.channels
    ensures Mirror(st, op, reply).Mirrored? ==> channel !in Mirror(st, op, reply).store.channels
  {
  }

  /** The backup of a live primary gets a channel only from a copied join. */
  lemma NewChannel(s: State, a: Action, channel: string)
    requires Sane(s) && Enabled(s, a)
    requires
      var o := ChannelOwner(s.hash, channel);
      && o.primary in s.live
      && !ChannelExists(s, o.backup, channel) && ChannelExists(Do(s, a), o.backup, channel)
    ensures exists j :: JoinToCopy(s, j, channel)
  {
    var b := ChannelOwner(s.hash, channel).backup;
    if a.Change? || a.Replicate? {
      var c := s.calls[a.k];
      assert CallOk(s, a.k);
      if !c.op.JoinChannel? || c.op.channel != channel {
        NoChannelFrom(s.stores[b], c.op, a.Change? && a.found,
                      if a.Replicate? then c.phase.reply else Accepted, channel);
      } else {
        assert a.Replicate? ==> JoinToCopy(s, a.k, channel);
      }
    }
  }

  lemma CopyCloses(s: State, a: Action, op: Op)
    requires Sane(s) && Enabled(s, a) && !a.Crash? && OwnersOf(s.hash, op).primary in s.live
    requires CopyGetsThrough(Do(s, a), op)
    ensures CopyGetsThrough(s, op)
  {
    OnlyCloses(s, a, op);
    if op.SendMessage? && !ChannelExists(s, OwnersOf(s.hash, op).backup, op.channel) {
      if ChannelExists(Do(s, a), OwnersOf(s.hash, op).backup, op.channel) {
        NewChannel(s, a, op.channel);
      } else {
        BringCloses(s, a, op.channel);
      }
    }
  }

  /** An accepted operation comes to be refused only by its spoiler. */
  lemma NewRefusal(s: State, a: Action, k: nat, op: Op)
    requires Enabled(s, a) && !op.CreateUser? && (a.Change? ==> a.k != k)
    requires
      var p := OwnersOf(s.hash, op).primary;
      !Perform(s.stores[p], op, true).1.Rejected? && Perform(Do(s, a).stores[p], op, true).1.Rejected?
    ensures Spoilable(s, k, OwnersOf(s.hash, op).primary, op)
  {
    MemberMoves(s, a, op.channel, op.user);
    var p := OwnersOf(s.hash, op).primary;
    assert Member(s, p, op.channel, op.user) <==> !op.JoinChannel?;
    assert ReadyFor(s, a.k, p, Spoiler(op));
  }

  lemma SpoilCloses(s: State, a: Action, k: nat, x: Server, op: Op)
    requires Sane(s) && Enabled(s, a) && !a.Crash? && Spoilable(Do(s, a), k, x, op)
    ensures Spoilable(s, k, x, op)
  {
    OnlyCloses(s, a, op);
    if !op.CreateUser? && !LookupOpen(s, op.user) {
      var i :| i != k && ReadyFor(Do(s, a), i, x, Spoiler(op));
      if !ReadyFor(s, i, x, Spoiler(op)) { NewlyReady(s, a, i, x, Spoiler(op)); }
    }
  }

  lemma ChangeCloses(s: State, a: Action, k: nat, x: Server, op: Op)
    requires Sane(s) && Enabled(s, a) && !a.Crash? && (a.Change? ==> a.k != k)
    requires x in s.live && Authoritative(s, x, OwnersOf(s.hash, op)) && ChangeEnds(Do(s, a), k, x, op)
    ensures ChangeEnds(s, k, x, op)
  {
    var s' := Do(s, a);
    OnlyCloses(s, a, op);
    if !ChangeEnds(s, k, x, op) {
      if x !in s'.poisoned {
        if Spoilable(s', k, x, op) {
          SpoilCloses(s, a, k, x, op);
        } else if CopyGetsThrough(s', op) {
          CopyCloses(s, a, op);
        } else {
          NewRefusal(s, a, k, op);
        }
      }
    }
  }

  // ---------- a lost call stays lost ----------

  lemma SeekStaysLost(s: State, a: Action, k: nat)
    requires Sane(s) && Enabled(s, a) && !a.Crash? && (a.Change? ==> a.k != k)
    requires k in s.calls && Seeking(s.calls[k]) && s.calls[k].at in s.live
    requires
      var c := s.calls[k];
      SeekViable(Do(s, a), k, c.at, c.op, c.phase.lookup)
    ensures
      var c := s.calls[k];
      SeekViable(s, k, c.at, c.op, c.phase.lookup)
  {
    var c := s.calls[k];
    assert CallOk(s, k);
    OnlyCloses(s, a, c.op);
    LookupCloses(s, a, c.at, c.op);
    if ChangeEnds(Do(s, a), k, c.at, c.op) { ChangeCloses(s, a, k, c.at, c.op); }
  }

  /** A call that the step leaves alone. */
  lemma OthersLost(s: State, a: Action, k: nat)
    requires Sane(s) && Enabled(s, a) && !a.Crash? && (a.Change? ==> a.k != k) && k in s.calls && k in Do(s, a).calls
    requires Do(s, a).calls[k] == s.calls[k] && !s.calls[k].phase.Forwarded? && Viable(Do(s, a), k)
    ensures Viable(s, k)
  {
    var c := s.calls[k];
    assert CallOk(s, k);
    OnlyCloses(s, a, c.op);
    if c.phase.Checked? {
      if !c.op.CreateUser? && c.at in s.live { SeekStaysLost(s, a, k); }
    } else if Holding(c.phase).Some? {
      if c.at in s.live && c.at != OwnersOf(s.hash, c.op).backup && CopyGetsThrough(Do(s, a), c.op) {
        CopyCloses(s, a, c.op);
      }
    } else {
      OwnerPathCloses(s, a, c.op);
      PathCloses(s, a, c.at, c.op);
    }
  }

  lemma StartLost(s: State, a: Action)
    requires Sane(s) && Enabled(s, a) && (a.Arrive? || a.Decide? || a.Check?)
    ensures !Do(s, a).calls[a.k].phase.Forwarded?
    ensures Viable(Do(s, a), a.k) ==> Viable(s, a.k)
  {
    var c := s.calls[a.k];
    assert CallOk(s, a.k);
    OwnerPathCloses(s, a, c.op);
    LookupCloses(s, a, c.at, c.op);
    PathCloses(s, a, c.at, c.op);
  }

  /** The lookup's own steps. */
  lemma SeekLost(s: State, k: nat)
    requires Sane(s) && Enabled(s, Seek(k))
    ensures !Do(s, Seek(k)).calls[k].phase.Forwarded?
    ensures Viable(Do(s, Seek(k)), k) ==> Viable(s, k)
  {
    var s' := Do(s, Seek(k));
    var c := s.calls[k];
    assert CallOk(s, k) && LookupFits(s, k);
    LookupServer(s, c.at, c.op.user, c.phase.lookup);
    if Viable(s', k) && !Viable(s, k) {
      LookupCloses(s, Seek(k), c.at, c.op);
      if ChangeEnds(s', k, c.at, c.op) { ChangeCloses(s, Seek(k), k, c.at, c.op); }
    }
  }

  lemma SeekAgainLost(s: State, k: nat)
    requires Sane(s) && Enabled(s, SeekAgain(k))
    ensures !Do(s, SeekAgain(k)).calls[k].phase.Forwarded?
    ensures Viable(Do(s, SeekAgain(k)), k) ==> Viable(s, k)
  {
    var c := s.calls[k];
    LookupCloses(s, SeekAgain(k), c.at, c.op);
  }

  /** An accepted change that will not be copied was not viable: nothing was there to refuse it. */
  lemma AcceptedLost(s: State, k: nat, found: bool)
    requires Sane(s) && Enabled(s, Change(k, found)) && Do(s, Change(k, found)).calls[k].phase.Performed?
    requires
      var c := s.calls[k];
      var b := OwnersOf(s.hash, c.op).backup;
      c.at == b || b !in s.live || CopyGetsThrough(s, c.op)
    ensures Viable(s, k)
  {
  }

  lemma RefusedLost(s: State, k: nat, found: bool)
    requires Sane(s) && Enabled(s, Change(k, found)) && Over(Do(s, Change(k, found)).calls[k].phase)
    ensures Viable(s, k)
  {
  }

  lemma ChangeLost(s: State, k: nat, found: bool)
    requires Sane(s) && Enabled(s, Change(k, found))
    ensures !Do(s, Change(k, found)).calls[k].phase.Forwarded?
    ensures Viable(Do(s, Change(k, found)), k) ==> Viable(s, k)
  {
    var s' := Do(s, Change(k, found));
    var c := s.calls[k];
    assert CallOk(s, k);
    OnlyCloses(s, Change(k, found), c.op);
    if Over(s'.calls[k].phase) {
      RefusedLost(s, k, found);
    } else if s'.calls[k].phase.Performed? && Viable(s', k) {
      if c.at != OwnersOf(s.hash, c.op).backup && CopyGetsThrough(s', c.op) { CopyCloses(s, Change(k, found), c.op); }
      AcceptedLost(s, k, found);
    }
  }

  lemma CopyLost(s: State, k: nat)
    requires Sane(s) && Enabled(s, Copy(k)) && Viable(Do(s, Copy(k)), k)
    ensures Viable(s, k)
  {
    var c := s.calls[k];
    assert CallOk(s, k);
    OnlyCloses(s, Copy(k), c.op);
    if c.at != OwnersOf(s.hash, c.op).backup && CopyGetsThrough(Do(s, Copy(k)), c.op) { CopyCloses(s, Copy(k), c.op); }
  }

  /** From the change on. */
  lemma LateLost(s: State, a: Action)
    requires Sane(s) && Enabled(s, a) && (a.Copy? || a.Replicate? || a.Confirm? || a.Abandon?)
    ensures !Do(s, a).calls[a.k].phase.Forwarded?
    ensures Viable(Do(s, a), a.k) ==> Viable(s, a.k)
  {
    if a.Copy? {
      if Viable(Do(s, a), a.k) { CopyLost(s, a.k); }
    } else {
      assert CallOk(s, a.k);
      OnlyCloses(s, a, s.calls[a.k].op);
    }
  }

  lemma RouteLost(s: State, k: nat)
    requires Sane(s) && Enabled(s, Route(k)) && CanFinish(Do(s, Route(k)), k)
    ensures CanFinish(s, k)
  {
    var s' := Do(s, Route(k));
    OwnerPathCloses(s, Route(k), s.calls[k].op);
    if CanFinish(s', s.next) { assert Viable(s', s.next); }
  }

  lemma RetryLost(s: State, k: nat)
    requires Sane(s) && Enabled(s, Retry(k)) && CanFinish(Do(s, Retry(k)), k)
    ensures CanFinish(s, k)
  {
    assert CallOk(s, k) && CallOk(s, s.calls[k].phase.child);
    OwnerPathCloses(s, Retry(k), s.calls[k].op);
  }

  /** The call's own step. */
  lemma OwnLost(s: State, a: Action, k: nat)
    requires Sane(s) && Enabled(s, a) && !a.Crash? && k in s.calls && CanFinish(Do(s, a), k)
    requires !a.Suspect? && !a.Submit? && !a.Answer? && a.k == k
    ensures CanFinish(s, k)
  {
    if a.Arrive? || a.Decide? || a.Check? {
      StartLost(s, a);
    } else if a.Seek? {
      SeekLost(s, k);
    } else if a.SeekAgain? {
      SeekAgainLost(s, k);
    } else if a.Change? {
      ChangeLost(s, k, a.found);
    } else if a.Route? {
      RouteLost(s, k);
    } else if a.Retry? {
      RetryLost(s, k);
    } else {
      LateLost(s, a);
    }
  }

  /** A lost call is not answered by another one. */
  lemma LeftAlone(s: State, a: Action, k: nat)
    requires Sane(s) && Enabled(s, a) && k in s.calls && !CanFinish(s, k)
    requires !a.Crash? && !a.Suspect? && !a.Submit? && !a.Answer? ==> a.k != k
    ensures k in Do(s, a).calls && Do(s, a).calls[k] == s.calls[k]
  {
    if a.Answer? { assert CallOk(s, a.k) && CallOk(s, k); }
  }

  lemma SameServer(s: State, a: Action, i: nat)
    requires Enabled(s, a) && i in s.calls && s.next !in s.calls
    ensures i in Do(s, a).calls && Do(s, a).calls[i].at == s.calls[i].at && s.next <= Do(s, a).next
  {
  }

  lemma {:induction false} StepLost(s: State, a: Action, k: nat)
    requires Sane(s) && Enabled(s, a) && !a.Crash? && k in s.calls && !CanFinish(s, k)
    ensures !CanFinish(Do(s, a), k)
    decreases s.next - k
  {
    assert CallOk(s, k);
    if !a.Suspect? && !a.Submit? && !a.Answer? && a.k == k {
      if CanFinish(Do(s, a), k) { OwnLost(s, a, k); }
    } else {
      LeftAlone(s, a, k);
      var c := s.calls[k];
      if c.phase.Forwarded? {
        assert CallOk(s, c.phase.child);
        OwnerPathCloses(s, a, c.op);
        OnlyCloses(s, a, c.op);
        SameServer(s, a, c.phase.child);
        if !CanFinish(s, c.phase.child) { StepLost(s, a, c.phase.child); }
      } else if Viable(Do(s, a), k) {
        OthersLost(s, a, k);
      }
    }
  }

  lemma {:induction false} RunLost(s: State, acts: seq<Action>, k: nat)
    requires Sane(s) && IsRun(s, acts) && CrashFree(acts) && k in s.calls && !CanFinish(s, k)
    ensures k in After(s, acts).calls && !After(s, acts).calls[k].phase.Done?
    decreases |acts|
  {
    if acts != [] {
      assert !acts[0].Crash? && CrashFree(acts[1..]);
      StepLost(s, acts[0], k);
      SaneStep(s, acts[0]);
      SameServer(s, acts[0], k);
      RunLost(Do(s, acts[0]), acts[1..], k);
    }
  }
}
