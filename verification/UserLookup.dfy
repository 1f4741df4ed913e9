/** Does a user exist? The question goes to the authoritative owner of the username, is asked again
    when the server asked has died, and is answered from that server's own users, while the cluster
    moves on. Every join, leave and send asks it between its first checks and its change. */
module UserLookup {

  import opened Prelude
  import opened Servers
  import opened StoreSpec
  import opened Cluster
  import opened Protocol
  import opened UserReplication

  predicate OwnerHas(s: State, u: string)
  {
    HasUser(s, UserOwner(s.hash, u).primary, u) || HasUser(s, UserOwner(s.hash, u).backup, u)
  }

  /** Only owners are read, never this server itself from afar, and what was heard was so. */
  predicate LookupOk(s: State, at: Server, user: string, l: Lookup)
  {
    var o := UserOwner(s.hash, user);
    && !l.Failed?
    && (l.AtHome? ==> Authoritative(s, at, o))
    && (l.Away? ==> at != o.primary)
    && (l.Waiting? || l.Heard? ==>
          && at != o.primary && l.q != at
          && (l.q == o.primary || (l.q == o.backup && (at, o.primary) in s.suspects)))
    && ((l.Heard? || l.Told?) && l.found ==> OwnerHas(s, user))
  }

  predicate Denied(l: Lookup)
  {
    (l.Heard? || l.Told?) && !l.found
  }

  lemma UsersStay(s: State, a: Action)
    requires Enabled(s, a)
    ensures Do(s, a).hash == s.hash && Do(s, a).live <= s.live && s.suspects <= Do(s, a).suspects
    ensures forall x: Server, u {:trigger HasUser(Do(s, a), x, u)} :: HasUser(s, x, u) ==> HasUser(Do(s, a), x, u)
  {
  }

  lemma LookupStays(s: State, a: Action, at: Server, user: string, l: Lookup)
    requires Enabled(s, a) && LookupOk(s, at, user, l)
    ensures LookupOk(Do(s, a), at, user, l)
  {
    UsersStay(s, a);
  }

  /** A step of the lookup; when every live owner has the user it is not denied. */
  lemma SoughtOk(s: State, at: Server, user: string, l: Lookup)
    requires LookupOk(s, at, user, l) && CanSeek(s, at, l) && !Sought(s, at, user, l).Failed?
    ensures LookupOk(s, at, user, Sought(s, at, user, l))
    ensures Durable(s, user) && Denied(Sought(s, at, user, l)) ==> Denied(l)
  {
  }

  /** A lookup panics exactly on its second read, on the user's backup that has marked the primary dead since
      the first, or on a server whose lock is poisoned, reading its own users. */
  lemma SoughtFailsIff(s: State, at: Server, user: string, l: Lookup)
    requires LookupOk(s, at, user, l) && CanSeek(s, at, l)
    ensures
      var o := UserOwner(s.hash, user);
      Sought(s, at, user, l).Failed? <==>
        (l.Away? && at == o.backup && (at, o.primary) in s.suspects) || (l.AtHome? && at in s.poisoned)
  {
  }

  // ---------- the lookups of the cluster's calls ----------

  predicate Seeking(c: Call)
  {
    c.phase.Checked? && !c.op.CreateUser?
  }

  predicate LookupFits(s: State, k: nat)
    requires k in s.calls
  {
    Seeking(s.calls[k]) ==> LookupOk(s, s.calls[k].at, s.calls[k].op.user, s.calls[k].phase.lookup)
  }

  ghost predicate LookupInv(s: State)
  {
    && (forall k {:trigger LookupFits(s, k)} :: k in s.calls ==> LookupFits(s, k))
    && (forall x: Server :: !HasUser(s, x, []))
    && (forall k {:trigger Named(s, k)} :: k in s.calls ==> Named(s, k))
  }

  /** A creation of the empty name never gets past its first check. */
  predicate Named(s: State, k: nat)
    requires k in s.calls
  {
    var c := s.calls[k];
    c.op.CreateUser? && (c.phase.Checked? || Holding(c.phase).Some?) ==> c.op.user != []
  }

  lemma FitsStep(s: State, a: Action, k: nat)
    requires LookupInv(s) && Enabled(s, a) && k in Do(s, a).calls
    ensures LookupFits(Do(s, a), k)
  {
    var s' := Do(s, a);
    if Seeking(s'.calls[k]) {
      SeekingStep(s, a, k);
      if k in s.calls && s'.calls[k] == s.calls[k] {
        assert LookupFits(s, k);
        LookupStays(s, a, s.calls[k].at, s.calls[k].op.user, s.calls[k].phase.lookup);
      } else if a == Seek(k) {
        assert LookupFits(s, k);
        SoughtOk(s, s.calls[k].at, s.calls[k].op.user, s.calls[k].phase.lookup);
      }
    }
  }

  /** A lookup begins with the first checks, and moves by its own steps only. */
  lemma SeekingStep(s: State, a: Action, k: nat)
    requires Enabled(s, a) && k in Do(s, a).calls && Seeking(Do(s, a).calls[k])
    ensures
      var s' := Do(s, a);
      || (k in s.calls && s'.calls[k] == s.calls[k])
      || (&& a == Seek(k) && Seeking(s.calls[k]) && SameCall(s.calls[k], s'.calls[k]) && s'.stores == s.stores
          && s'.suspects == s.suspects && s'.hash == s.hash
          && s'.calls[k].phase.lookup == Sought(s, s.calls[k].at, s.calls[k].op.user, s.calls[k].phase.lookup))
      || ((a == SeekAgain(k) || a == Check(k)) && s'.calls[k].phase.lookup == Asked)
  {
  }

  lemma NamedStep(s: State, a: Action, k: nat)
    requires LookupInv(s) && Enabled(s, a) && k in Do(s, a).calls
    ensures Named(Do(s, a), k)
  {
    if k in s.calls { assert Named(s, k); }
  }

  lemma NobodyEmpty(s: State, a: Action, x: Server)
    requires LookupInv(s) && Enabled(s, a) && Inv(s)
    ensures !HasUser(Do(s, a), x, [])
  {
    assert !HasUser(s, x, []);
    if a.Change? || a.Replicate? {
      assert Named(s, a.k);
      NoEmptyName(s.stores[x], s.calls[a.k].op, a.Change? && a.found,
                  if a.Replicate? then s.calls[a.k].phase.reply else Accepted);
    }
  }

  lemma NoEmptyName(st: Store, op: Op, found: bool, reply: Reply)
    requires [] !in st.users && op != CreateUser([])
    ensures [] !in Perform(st, op, found).0.users
    ensures Mirror(st, op, reply).Mirrored? ==> [] !in Mirror(st, op, reply).store.users
  {
  }

  lemma LookupInvStep(s: State, a: Action)
    requires Inv(s) && LookupInv(s) && Enabled(s, a)
    ensures LookupInv(Do(s, a))
  {
    var s' := Do(s, a);
    forall k | k in s'.calls
      ensures LookupFits(s', k) && Named(s', k)
    {
      FitsStep(s, a, k);
      NamedStep(s, a, k);
    }
    forall x: Server
      ensures !HasUser(s', x, [])
    {
      NobodyEmpty(s, a, x);
    }
  }

  lemma {:induction false} LookupRun(s: State, acts: seq<Action>)
    requires Inv(s) && LookupInv(s) && IsRun(s, acts)
    ensures Inv(After(s, acts)) && LookupInv(After(s, acts))
    decreases |acts|
  {
    if acts != [] {
      InvStep(s, acts[0]);
      LookupInvStep(s, acts[0]);
      LookupRun(Do(s, acts[0]), acts[1..]);
    }
  }

  lemma NobodyAtStart(hash: string -> nat, user: string)
    ensures forall x: Server :: !HasUser(Init(hash), x, user)
  {
    forall x: Server
      ensures !HasUser(Init(hash), x, user)
    {
      match x case A => case B => case C =>
    }
  }

  lemma InitLookups(hash: string -> nat)
    ensures Inv(Init(hash)) && LookupInv(Init(hash))
  {
    NobodyAtStart(hash, []);
  }

  /** In every run the lookup of a join, leave or send ends the request by a panic exactly when it comes to the
      second read on the user's backup that has marked the user's primary dead since the first read, or
      reads its own users on a server whose lock is poisoned. */
  lemma LookupPanicsIff(hash: string -> nat, acts: seq<Action>, k: nat)
    requires IsRun(Init(hash), acts) && Enabled(After(Init(hash), acts), Seek(k))
    ensures
      var s := After(Init(hash), acts);
      var c := s.calls[k];
      var o := UserOwner(s.hash, c.op.user);
      Do(s, Seek(k)).calls[k].phase.Panicked? <==>
        || (c.phase.lookup.Away? && c.at == o.backup && (c.at, o.primary) in s.suspects)
        || (c.phase.lookup.AtHome? && c.at in s.poisoned)
  {
    InitLookups(hash);
    LookupRun(Init(hash), acts);
    var s := After(Init(hash), acts);
    assert LookupFits(s, k);
    SoughtFailsIff(s, s.calls[k].at, s.calls[k].op.user, s.calls[k].phase.lookup);
  }

  /** The lookup of call k for the user has not come back negative. */
  predicate NotDenied(s: State, k: nat, user: string)
  {
    k in s.calls && Seeking(s.calls[k]) && s.calls[k].op.user == user ==> !Denied(s.calls[k].phase.lookup)
  }

  lemma NotDeniedStep(s: State, a: Action, k: nat, user: string)
    requires LookupInv(s) && Enabled(s, a) && Durable(s, user) && NotDenied(s, k, user)
    ensures Durable(Do(s, a), user) && NotDenied(Do(s, a), k, user)
  {
    UsersStay(s, a);
    if k in Do(s, a).calls && Seeking(Do(s, a).calls[k]) {
      SeekingStep(s, a, k);
      if a == Seek(k) && k in s.calls {
        assert LookupFits(s, k);
        SoughtOk(s, s.calls[k].at, s.calls[k].op.user, s.calls[k].phase.lookup);
      }
    }
  }

  lemma {:induction false} NotDeniedRun(s: State, acts: seq<Action>, k: nat, user: string)
    requires Inv(s) && LookupInv(s) && IsRun(s, acts) && Durable(s, user) && NotDenied(s, k, user)
    ensures NotDenied(After(s, acts), k, user)
    decreases |acts|
  {
    if acts != [] {
      InvStep(s, acts[0]);
      LookupInvStep(s, acts[0]);
      NotDeniedStep(s, acts[0], k, user);
      NotDeniedRun(Do(s, acts[0]), acts[1..], k, user);
    }
  }

  /** Answers are truthful in every run: when the lookup of a join, leave or send has found the user, an owner
      holds the username; and once the username was granted no lookup that has not come back negative
      before ever does, whatever crashes. */
  lemma LookupsAreTruthful(hash: string -> nat, before: seq<Action>, after: seq<Action>, k: nat, user: string)
    requires IsRun(Init(hash), before) && IsRun(After(Init(hash), before), after)
    ensures
      var s := After(Init(hash), before);
      var t := After(s, after);
      k in t.calls && Seeking(t.calls[k]) && t.calls[k].op.user == user && t.calls[k].phase.lookup.Told? ==>
        && (t.calls[k].phase.lookup.found ==> OwnerHas(t, user))
        && (NotDenied(s, k, user) && (exists i :: Granted(s, i, user)) ==> t.calls[k].phase.lookup.found)
  {
    var s := After(Init(hash), before);
    InitLookups(hash);
    LookupRun(Init(hash), before);
    LookupRun(s, after);
    if k in After(s, after).calls { assert LookupFits(After(s, after), k); }
    if NotDenied(s, k, user) {
      if i :| Granted(s, i, user) {
        AcknowledgedUsersSurvive(hash, before, i, user);
        NotDeniedRun(s, after, k, user);
      }
    }
  }

  // ---------- one lookup by itself, with its repetitions counted ----------

  datatype Question = Question(world: State, at: Server, user: string, lookup: Lookup, retries: nat)

  datatype QuestionAction = World(a: Action) | Proceed | Repeat

  function Begin(s: State, at: Server, user: string): Question
  {
    Question(s, at, user, Asked, 0)
  }

  predicate CanAct(l: Question, a: QuestionAction)
  {
    match a
    case World(step) => Enabled(l.world, step)
    case Proceed => CanSeek(l.world, l.at, l.lookup)
    case Repeat => CanSeekAgain(l.world, l.at, l.lookup)
  }

  function Act(l: Question, a: QuestionAction): Question
    requires CanAct(l, a)
  {
    match a
    case World(step) => l.(world := Do(l.world, step))
    case Proceed => l.(lookup := Sought(l.world, l.at, l.user, l.lookup))
    case Repeat => l.(lookup := Asked, retries := l.retries + 1)
  }

  predicate IsLookup(l: Question, acts: seq<QuestionAction>)
    decreases |acts|
  {
    acts == [] || (CanAct(l, acts[0]) && IsLookup(Act(l, acts[0]), acts[1..]))
  }

  function LookupAfter(l: Question, acts: seq<QuestionAction>): Question
    requires IsLookup(l, acts)
    decreases |acts|
  {
    if acts == [] then l else LookupAfter(Act(l, acts[0]), acts[1..])
  }

  predicate GaveUpOnBoth(l: Question)
  {
    var o := UserOwner(l.world.hash, l.user);
    (l.at, o.primary) in l.world.suspects && (l.at, o.backup) in l.world.suspects
  }

  predicate RepeatsOk(l: Question)
  {
    var o := UserOwner(l.world.hash, l.user);
    && (l.lookup.Failed? || LookupOk(l.world, l.at, l.user, l.lookup))
    && (|| GaveUpOnBoth(l)
        || (&& l.retries <= 1
            && (l.retries == 1 ==> (l.at, o.primary) in l.world.suspects)
            && ((l.lookup.Waiting? || l.lookup.Heard?) && l.lookup.q == o.primary ==> l.retries == 0)))
  }

  lemma LookupStep(l: Question, a: QuestionAction)
    requires RepeatsOk(l) && CanAct(l, a)
    ensures RepeatsOk(Act(l, a))
  {
    if a.World? {
      UsersStay(l.world, a.a);
    } else if a.Proceed? {
      if !Act(l, a).lookup.Failed? { SoughtOk(l.world, l.at, l.user, l.lookup); }
    }
  }

  lemma {:induction false} RepeatsRun(l: Question, acts: seq<QuestionAction>)
    requires RepeatsOk(l) && IsLookup(l, acts)
    ensures RepeatsOk(LookupAfter(l, acts))
    decreases |acts|
  {
    if acts != [] {
      LookupStep(l, acts[0]);
      RepeatsRun(Act(l, acts[0]), acts[1..]);
    }
  }

  /** A question is repeated at most once, unless both owners have been marked dead. */
  lemma LookupRepeatsOnce(hash: string -> nat, acts: seq<Action>, at: Server, user: string, lacts: seq<QuestionAction>)
    requires IsRun(Init(hash), acts) && IsLookup(Begin(After(Init(hash), acts), at, user), lacts)
    ensures
      var l := LookupAfter(Begin(After(Init(hash), acts), at, user), lacts);
      l.retries <= 1 || GaveUpOnBoth(l)
  {
    RepeatsRun(Begin(After(Init(hash), acts), at, user), lacts);
  }
}
