/** Usernames: an acknowledged creation survives on every live owner, the backup never refuses what
    a live primary accepted, and a username is granted to at most one client request. */
module UserReplication {

  import opened Prelude
  import opened Servers
  import opened StoreSpec
  import opened Cluster
  import opened Protocol

  /** Every owner that has not crashed holds the username. */
  ghost predicate Durable(s: State, u: string)
  {
    var o := UserOwner(s.hash, u);
    && (o.primary in s.live ==> HasUser(s, o.primary, u))
    && (o.backup in s.live ==> HasUser(s, o.backup, u))
  }

  predicate Answered(ph: Phase)
  {
    (ph.Replying? || ph.Done?) && ph.reply == Accepted
  }

  ghost predicate UserCall(s: State, k: nat)
    requires k in s.calls
  {
    var c := s.calls[k];
    c.op.CreateUser? ==>
      var u := c.op.user;
      var o := UserOwner(s.hash, u);
      && (c.phase.Checked? || Holding(c.phase).Some? ==> u != [])
      && (Holding(c.phase).Some? ==> HasUser(s, c.at, u))
      && ((c.phase.Performed? || c.phase.Replicating?) && c.at == o.primary && c.at in s.live
          ==> !HasUser(s, o.backup, u))
      && (c.phase.Acked? && c.at in s.live ==> c.phase.ack == Accepted && HasUser(s, o.backup, u))
      && (Answered(c.phase) ==> Durable(s, u))
  }

  /** What a live primary does not have, its backup does not have either. */
  ghost predicate BackupBehind(s: State)
  {
    forall u {:trigger UserOwner(s.hash, u)} ::
      var o := UserOwner(s.hash, u);
      o.primary in s.live && HasUser(s, o.backup, u) ==> HasUser(s, o.primary, u)
  }

  predicate Changing(s: State, k: nat)
  {
    && k in s.calls
    && s.calls[k].op.CreateUser?
    && s.calls[k].at in s.live
    && Holding(s.calls[k].phase).Some?
  }

  /** The call has made the change or carries the news that it was made. */
  predicate Token(s: State, k: nat)
  {
    Changing(s, k) || (k in s.calls && s.calls[k].op.CreateUser? && Answered(s.calls[k].phase))
  }

  ghost predicate OneGrant(s: State)
  {
    && (forall i, k {:trigger Token(s, i), Token(s, k)} ::
          Token(s, i) && Token(s, k) && s.calls[i].op == s.calls[k].op ==> s.calls[i].root == s.calls[k].root)
    && (forall i, k {:trigger Changing(s, i), Changing(s, k)} ::
          Changing(s, i) && Changing(s, k) && s.calls[i].op == s.calls[k].op && s.calls[i].at == s.calls[k].at
          ==> i == k)
  }

  ghost predicate UserInv(s: State)
  {
    && (forall k {:trigger UserCall(s, k)} :: k in s.calls ==> UserCall(s, k))
    && BackupBehind(s)
    && OneGrant(s)
  }

  /** A call of which UserInv asks nothing. */
  predicate Neutral(c: Call)
  {
    c.op.CreateUser? ==>
      Holding(c.phase).None? && !Answered(c.phase) && (c.phase.Checked? ==> c.op.user != [])
  }

  /** UserInv reads nothing but the user sets, the calls and who is alive; a crash only weakens it. */
  lemma FrameKeeps(s: State, s': State)
    requires UserInv(s)
    requires s'.hash == s.hash && s'.live <= s.live && s'.calls == s.calls
    requires forall x: Server {:trigger s'.stores[x]} :: s'.stores[x].users == s.stores[x].users
    ensures UserInv(s')
  {
    forall k | k in s'.calls
      ensures UserCall(s', k)
    {
      assert UserCall(s, k);
    }
    forall i, k | Changing(s', i) && Changing(s', k) && s'.calls[i].op == s'.calls[k].op
      && s'.calls[i].at == s'.calls[k].at
      ensures i == k
    {
      assert Changing(s, i) && Changing(s, k);
    }
    forall i, k | Token(s', i) && Token(s', k) && s'.calls[i].op == s'.calls[k].op
      ensures s'.calls[i].root == s'.calls[k].root
    {
      assert Token(s, i) && Token(s, k);
    }
    forall u
      ensures
        var o := UserOwner(s'.hash, u);
        o.primary in s'.live && HasUser(s', o.backup, u) ==> HasUser(s', o.primary, u)
    {
      var o := UserOwner(s.hash, u);
    }
  }

  /** A call passes on the news it has, or the news of the call it was waiting for. */
  lemma NewsKeeps(s: State, k: nat, c: Call, source: nat)
    requires UserInv(s)
    requires UserCall(s.(calls := s.calls[k := c]), k)
    requires c.op.CreateUser? && Holding(c.phase).Some? ==>
      k in s.calls && s.calls[k].op == c.op && s.calls[k].at == c.at && s.calls[k].root == c.root
      && Holding(s.calls[k].phase).Some?
    requires c.op.CreateUser? && Answered(c.phase) ==>
      Token(s, source) && s.calls[source].op == c.op && s.calls[source].root == c.root
    ensures UserInv(s.(calls := s.calls[k := c]))
  {
    var s' := s.(calls := s.calls[k := c]);
    forall i | i in s'.calls
      ensures UserCall(s', i)
    {
      if i != k { assert UserCall(s, i); }
    }
    forall i, j | Changing(s', i) && Changing(s', j) && s'.calls[i].op == s'.calls[j].op
      && s'.calls[i].at == s'.calls[j].at
      ensures i == j
    {
      assert Changing(s, i) && Changing(s, j);
    }
    forall i, j | Token(s', i) && Token(s', j) && s'.calls[i].op == s'.calls[j].op
      ensures s'.calls[i].root == s'.calls[j].root
    {
      var i' := if i == k && Answered(c.phase) then source else i;
      var j' := if j == k && Answered(c.phase) then source else j;
      assert Token(s, i') && Token(s, j');
    }
    forall u
      ensures
        var o := UserOwner(s'.hash, u);
        o.primary in s'.live && HasUser(s', o.backup, u) ==> HasUser(s', o.primary, u)
    {
      var o := UserOwner(s.hash, u);
    }
  }

  lemma NeutralKeeps(s: State, k: nat, c: Call)
    requires UserInv(s) && Neutral(c)
    ensures UserInv(s.(calls := s.calls[k := c]))
  {
    NewsKeeps(s, k, c, k);
  }

  lemma ChannelOpsKeepUsers(st: Store, op: Op, found: bool, reply: Reply)
    requires !op.CreateUser?
    ensures Perform(st, op, found).0.users == st.users
    ensures Mirror(st, op, reply).Mirrored? ==> Mirror(st, op, reply).store.users == st.users
  {
  }

  lemma EnvironmentKeeps(s: State, a: Action)
    requires UserInv(s) && Enabled(s, a)
      && (a.Crash? || a.Suspect? || a.Submit? || a.Arrive? || a.Decide? || a.Seek? || a.SeekAgain?)
    ensures UserInv(Do(s, a))
  {
    var s' := Do(s, a);
    if a.Crash? || a.Suspect? {
      FrameKeeps(s, s');
    } else {
      var k := if a.Submit? then s.next else a.k;
      NeutralKeeps(s, k, s'.calls[k]);
      FrameKeeps(s.(calls := s.calls[k := s'.calls[k]]), s');
    }
  }

  lemma RoutingKeeps(s: State, a: Action)
    requires UserInv(s) && Enabled(s, a) && (a.Route? || a.Check? || a.Retry?) && a.k < s.next
    ensures UserInv(Do(s, a))
  {
    var s' := Do(s, a);
    NeutralKeeps(s, a.k, s'.calls[a.k]);
    if a.Route? && s'.calls[a.k].phase.Forwarded? {
      var mid := s.(calls := s.calls[a.k := s'.calls[a.k]]);
      NeutralKeeps(mid, s.next, s'.calls[s.next]);
      FrameKeeps(mid.(calls := mid.calls[s.next := s'.calls[s.next]]), s');
    }
  }

  /** Join, leave and send leave the user sets alone. */
  lemma ChannelOpKeeps(s: State, a: Action)
    requires UserInv(s) && Enabled(s, a)
    requires a.Change? || a.Copy? || a.Replicate? || a.Confirm? || a.Abandon?
    requires !s.calls[a.k].op.CreateUser?
    ensures UserInv(Do(s, a))
  {
    var s' := Do(s, a);
    var c := s.calls[a.k];
    if a.Change? {
      ChannelOpsKeepUsers(s.stores[c.at], c.op, a.found, Accepted);
    } else if a.Replicate? {
      ChannelOpsKeepUsers(s.stores[OwnersOf(s.hash, c.op).backup], c.op, true, c.phase.reply);
    }
    NeutralKeeps(s, a.k, s'.calls[a.k]);
    FrameKeeps(s.(calls := s'.calls), s');
  }

  lemma AnswerKeeps(s: State, k: nat)
    requires Inv(s) && UserInv(s) && Enabled(s, Answer(k))
    ensures UserInv(Do(s, Answer(k)))
  {
    var c := s.calls[k];
    var j := c.parent.value;
    assert CallOk(s, k) && UserCall(s, k);
    var mid := Move(s, k, Done(c.phase.reply));
    NewsKeeps(s, k, mid.calls[k], k);
    NewsKeeps(mid, j, Do(s, Answer(k)).calls[j], k);
  }

  /** The last steps of a creation pass the news on: by then every live owner has the user. */
  lemma NewsStepKeeps(s: State, a: Action)
    requires Inv(s) && UserInv(s) && Enabled(s, a) && (a.Copy? || a.Confirm? || a.Abandon?)
    requires s.calls[a.k].op.CreateUser?
    ensures UserInv(Do(s, a))
  {
    assert CallOk(s, a.k) && UserCall(s, a.k);
    NewsKeeps(s, a.k, Do(s, a).calls[a.k], a.k);
  }

  /** The creation itself: nobody else can have made it, or the user would be there. */
  lemma CreateKeeps(s: State, k: nat, found: bool)
    requires Inv(s) && UserInv(s) && Enabled(s, Change(k, found))
    requires s.calls[k].op.CreateUser?
    ensures UserInv(Do(s, Change(k, found)))
  {
    var s' := Do(s, Change(k, found));
    var c := s.calls[k];
    var u := c.op.user;
    assert CallOk(s, k) && UserCall(s, k);
    if s'.stores == s.stores || Neutral(s'.calls[k]) {
      NeutralKeeps(s, k, s'.calls[k]);
    } else {
      forall i | i in s.calls && s.calls[i].op == c.op
        ensures !Token(s, i)
      {
        assert CallOk(s, i) && UserCall(s, i);
      }
      CreationKeeps(s, s', k);
    }
  }

  lemma CreationKeeps(s: State, s': State, k: nat)
    requires Inv(s) && UserInv(s) && k in s.calls && s.calls[k].op.CreateUser?
    requires
      var c := s.calls[k];
      && c.op.user != []
      && Authoritative(s, c.at, UserOwner(s.hash, c.op.user))
      && c.at in s.live
      && !HasUser(s, c.at, c.op.user)
      && s'.stores[c.at].users == s.stores[c.at].users + {c.op.user}
      && s' == s.(stores := s.stores[c.at := s'.stores[c.at]], calls := s.calls[k := c.(phase := Performed(Accepted))])
    requires forall i :: i in s.calls && s.calls[i].op == s.calls[k].op ==> !Token(s, i)
    ensures UserInv(s')
  {
    var c := s.calls[k];
    forall i | i in s'.calls
      ensures UserCall(s', i)
    {
      assert UserCall(s, i);
      assert CallOk(s, i);
    }
    forall i, j | Changing(s', i) && Changing(s', j) && s'.calls[i].op == s'.calls[j].op
      && s'.calls[i].at == s'.calls[j].at
      ensures i == j
    {
      assert i != k ==> Changing(s, i);
      assert j != k ==> Changing(s, j);
    }
    forall i, j | Token(s', i) && Token(s', j) && s'.calls[i].op == s'.calls[j].op
      ensures s'.calls[i].root == s'.calls[j].root
    {
      assert i != k ==> Token(s, i);
      assert j != k ==> Token(s, j);
    }
    forall u
      ensures
        var o := UserOwner(s'.hash, u);
        o.primary in s'.live && HasUser(s', o.backup, u) ==> HasUser(s', o.primary, u)
    {
      var o := UserOwner(s.hash, u);
    }
  }

  /** The backup has copied the user, who was new there if it says so. */
  ghost predicate Copied(s: State, s': State, k: nat, ack: Reply)
  {
    && k in s.calls && s.calls[k].op.CreateUser?
    && s.calls[k].phase.Replicating?
    && var c := s.calls[k];
       var b := UserOwner(s.hash, c.op.user).backup;
       && s'.stores[b].users == s.stores[b].users + {c.op.user}
       && (!HasUser(s, b, c.op.user) ==> ack == Accepted)
       && s' == s.(stores := s.stores[b := s'.stores[b]],
                   calls := s.calls[k := c.(phase := Acked(c.phase.reply, ack))])
  }

  /** With a live primary the user is new on the backup, and no other call is copying it. */
  lemma MirrorCalls(s: State, s': State, k: nat, ack: Reply)
    requires Inv(s) && UserInv(s) && Copied(s, s', k, ack)
    ensures forall i {:trigger UserCall(s', i)} :: i in s'.calls ==> UserCall(s', i)
  {
    var c := s.calls[k];
    assert CallOk(s, k) && UserCall(s, k);
    forall i | i in s'.calls
      ensures UserCall(s', i)
    {
      assert UserCall(s, i);
      assert Changing(s, i) && Changing(s, k) && s.calls[i].op == c.op && s.calls[i].at == c.at ==> i == k;
    }
  }

  lemma MirrorKeeps(s: State, s': State, k: nat, ack: Reply)
    requires Inv(s) && UserInv(s) && Copied(s, s', k, ack)
    ensures UserInv(s')
  {
    MirrorCalls(s, s', k, ack);
    assert CallOk(s, k) && UserCall(s, k);
    forall i, j | Changing(s', i) && Changing(s', j) && s'.calls[i].op == s'.calls[j].op
      && s'.calls[i].at == s'.calls[j].at
      ensures i == j
    {
      assert Changing(s, i) && Changing(s, j);
    }
    forall i, j | Token(s', i) && Token(s', j) && s'.calls[i].op == s'.calls[j].op
      ensures s'.calls[i].root == s'.calls[j].root
    {
      assert Token(s, i) && Token(s, j);
    }
    forall u
      ensures
        var o := UserOwner(s'.hash, u);
        o.primary in s'.live && HasUser(s', o.backup, u) ==> HasUser(s', o.primary, u)
    {
      var o := UserOwner(s.hash, u);
    }
  }

  lemma ReplicateKeeps(s: State, k: nat)
    requires Inv(s) && UserInv(s) && Enabled(s, Replicate(k))
    requires s.calls[k].op.CreateUser?
    ensures UserInv(Do(s, Replicate(k)))
  {
    var s' := Do(s, Replicate(k));
    assert CallOk(s, k) && UserCall(s, k);
    if s'.calls[k].phase.Unanswered? {
      NewsKeeps(s, k, s'.calls[k], k);
      FrameKeeps(s.(calls := s'.calls), s');
    } else {
      MirrorKeeps(s, s', k, s'.calls[k].phase.ack);
    }
  }

  lemma UserStep(s: State, a: Action)
    requires Inv(s) && UserInv(s) && Enabled(s, a)
    ensures UserInv(Do(s, a))
  {
    if a.Crash? || a.Suspect? || a.Submit? || a.Arrive? || a.Decide? || a.Seek? || a.SeekAgain? {
      EnvironmentKeeps(s, a);
    } else if a.Route? || a.Check? || a.Retry? {
      RoutingKeeps(s, a);
    } else if a.Answer? {
      AnswerKeeps(s, a.k);
    } else if !s.calls[a.k].op.CreateUser? {
      ChannelOpKeeps(s, a);
    } else if a.Change? {
      CreateKeeps(s, a.k, a.found);
    } else if a.Replicate? {
      ReplicateKeeps(s, a.k);
    } else {
      NewsStepKeeps(s, a);
    }
  }

  lemma {:induction false} RunKeeps(s: State, acts: seq<Action>)
    requires Inv(s) && UserInv(s) && IsRun(s, acts)
    ensures Inv(After(s, acts)) && UserInv(After(s, acts))
    decreases |acts|
  {
    if acts != [] {
      InvStep(s, acts[0]);
      UserStep(s, acts[0]);
      RunKeeps(Do(s, acts[0]), acts[1..]);
    }
  }

  /** A client request that has been told its username was created. */
  predicate Granted(s: State, k: nat, u: string)
  {
    k in s.calls && s.calls[k].parent.None? && s.calls[k].op == CreateUser(u) && s.calls[k].phase == Done(Accepted)
  }

  /** Acknowledged writes survive: in every run, over every path and whatever crashes, a granted
      username is in the user set of each owner that is still alive. */
  lemma AcknowledgedUsersSurvive(hash: string -> nat, acts: seq<Action>, k: nat, u: string)
    requires IsRun(Init(hash), acts) && Granted(After(Init(hash), acts), k, u)
    ensures Durable(After(Init(hash), acts), u)
  {
    RunKeeps(Init(hash), acts);
    assert UserCall(After(Init(hash), acts), k);
  }

  /** Over every run, crashes and retries included, one client request at most is granted a username. */
  lemma AtMostOneGrant(hash: string -> nat, acts: seq<Action>, i: nat, k: nat, u: string)
    requires IsRun(Init(hash), acts)
    requires Granted(After(Init(hash), acts), i, u) && Granted(After(Init(hash), acts), k, u)
    ensures i == k
  {
    var s := After(Init(hash), acts);
    RunKeeps(Init(hash), acts);
    assert Token(s, i) && Token(s, k) && CallOk(s, i) && CallOk(s, k);
  }

  /** While the primary lives its backup accepts every creation it is sent, so the client of an
      accepted creation is never told otherwise. */
  lemma BackupAcceptsUsers(hash: string -> nat, acts: seq<Action>, k: nat)
    requires IsRun(Init(hash), acts)
    requires
      var s := After(Init(hash), acts);
      && Enabled(s, Replicate(k))
      && s.calls[k].op.CreateUser?
      && s.calls[k].at in s.live
      && UserOwner(s.hash, s.calls[k].op.user).backup !in s.poisoned
    ensures
      var s := After(Init(hash), acts);
      var phase := Do(s, Replicate(k)).calls[k].phase;
      phase.Acked? && phase.ack == s.calls[k].phase.reply == Accepted
  {
    var s := After(Init(hash), acts);
    RunKeeps(Init(hash), acts);
    assert CallOk(s, k) && UserCall(s, k);
  }
}
