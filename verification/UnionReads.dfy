/** The list of all users, or of all channels: gathered from every server taken for alive, one after the
    other, while the cluster moves on; then sorted and freed of duplicates. */
module UnionReads {

  import opened Prelude
  import opened Servers
  import opened StoreSpec
  import opened Cluster
  import opened Protocol
  import opened UserReplication
  import opened Sorting
  import C = Channels

  // ---------- the gathering, as steps interleaved with those of the cluster ----------

  datatype Kind = Users | Channels

  function NamesOn(s: State, x: Server, kind: Kind): set<string>
  {
    match kind
    case Users => s.stores[x].users
    case Channels => s.stores[x].channels.Keys
  }

  function OwnersOfName(hash: string -> nat, kind: Kind, name: string): Owners
  {
    match kind
    case Users => UserOwner(hash, name)
    case Channels => ChannelOwner(hash, name)
  }

  datatype ReadPhase =
    | Begun                                       // the alive marks have been read, nothing else
    | Between                                     // about to ask the next server
    | Asking(q: Server)                           // waiting for q's answer
    | Replied(q: Server, names: seq<string>)        // q's answer is on its way back

  datatype Reading = Reading(world: State, at: Server, kind: Kind, phase: ReadPhase, todo: seq<Server>,
    gathered: seq<string>)

  datatype ReadAction = World(a: Action) | Local(names: seq<string>) | Ask | Serve(names: seq<string>) | Collect | Skip

  /** A server lists its names in any order; a server whose store is poisoned does not answer. */
  predicate Lists(s: State, x: Server, kind: Kind, names: seq<string>)
  {
    x !in s.poisoned && (set u | u in names) == NamesOn(s, x, kind)
  }

  /** The peers that the server does not take for dead, in the order of their names. */
  function PeersToAsk(s: State, at: Server): seq<Server>
  {
    var a := if at != A && (at, A) !in s.suspects then [A] else [];
    var b := if at != B && (at, B) !in s.suspects then [B] else [];
    var c := if at != C && (at, C) !in s.suspects then [C] else [];
    a + b + c
  }

  function Begin(s: State, at: Server, kind: Kind): Reading
  {
    Reading(s, at, kind, Begun, PeersToAsk(s, at), [])
  }

  predicate ReadEnabled(r: Reading, a: ReadAction)
  {
    match a
    case World(step) => Enabled(r.world, step)
    case Local(names) => r.at in r.world.live && r.phase.Begun? && Lists(r.world, r.at, r.kind, names)
    case Ask => r.at in r.world.live && r.phase.Between? && r.todo != []
    case Serve(names) => r.phase.Asking? && r.phase.q in r.world.live && Lists(r.world, r.phase.q, r.kind, names)
    case Collect => r.at in r.world.live && r.phase.Replied?
    case Skip => r.at in r.world.live && (r.phase.Asking? || r.phase.Replied?) && (r.at, r.phase.q) in r.world.suspects
  }

  function ReadDo(r: Reading, a: ReadAction): Reading
    requires ReadEnabled(r, a)
  {
    match a
    case World(step) => r.(world := Do(r.world, step))
    case Local(names) => r.(phase := Between, gathered := r.gathered + names)
    case Ask => r.(phase := Asking(r.todo[0]), todo := r.todo[1..])
    case Serve(names) => r.(phase := Replied(r.phase.q, names))
    case Collect => r.(phase := Between, gathered := r.gathered + r.phase.names)
    case Skip => r.(phase := Between)
  }

  predicate IsReading(r: Reading, acts: seq<ReadAction>)
    decreases |acts|
  {
    acts == [] || (ReadEnabled(r, acts[0]) && IsReading(ReadDo(r, acts[0]), acts[1..]))
  }

  function ReadAfter(r: Reading, acts: seq<ReadAction>): Reading
    requires IsReading(r, acts)
    decreases |acts|
  {
    if acts == [] then r else ReadAfter(ReadDo(r, acts[0]), acts[1..])
  }

  predicate Finished(r: Reading)
  {
    r.phase.Between? && r.todo == []
  }

  predicate StillToCome(r: Reading, x: Server, u: string)
  {
    || (r.phase.Begun? && x == r.at)
    || x in r.todo
    || r.phase == Asking(x)
    || (r.phase.Replied? && r.phase.q == x && u in r.phase.names)
  }

  predicate Owns(hash: string -> nat, kind: Kind, x: Server, u: string)
  {
    x == OwnersOfName(hash, kind, u).primary || x == OwnersOfName(hash, kind, u).backup
  }

  /** Every live owner of the name holds it. */
  predicate Held(s: State, kind: Kind, u: string)
  {
    var o := OwnersOfName(s.hash, kind, u);
    (o.primary in s.live ==> u in NamesOn(s, o.primary, kind))
      && (o.backup in s.live ==> u in NamesOn(s, o.backup, kind))
  }

  ghost predicate ReadInv(r: Reading, u: string)
  {
    && Accurate(r.world) && Held(r.world, r.kind, u)
    && (u in r.gathered || forall x: Server {:trigger StillToCome(r, x, u)} ::
          x in r.world.live && Owns(r.world.hash, r.kind, x, u) ==> StillToCome(r, x, u))
  }

  lemma NamesStay(s: State, a: Action, x: Server, kind: Kind, u: string)
    requires Enabled(s, a) && u in NamesOn(s, x, kind)
    ensures u in NamesOn(Do(s, a), x, kind)
  {
    match kind
    case Users => assert HasUser(s, x, u) ==> HasUser(Do(s, a), x, u);
    case Channels =>
      C.StepGrows(s, a);
      assert ChannelExists(s, x, u) ==> ChannelExists(Do(s, a), x, u);
  }

  lemma HeldStays(s: State, a: Action, kind: Kind, u: string)
    requires Enabled(s, a) && Held(s, kind, u)
    ensures Held(Do(s, a), kind, u) && Do(s, a).hash == s.hash && Do(s, a).live <= s.live
  {
    var o := OwnersOfName(s.hash, kind, u);
    if o.primary in s.live { NamesStay(s, a, o.primary, kind, u); }
    if o.backup in s.live { NamesStay(s, a, o.backup, kind, u); }
    C.StepGrows(s, a);
  }

  lemma MarksStayAccurate(s: State, a: Action)
    requires Accurate(s) && Enabled(s, a)
    ensures Accurate(Do(s, a))
  {
  }

  lemma ListedName(s: State, x: Server, kind: Kind, names: seq<string>, u: string)
    requires Lists(s, x, kind, names)
    ensures u in NamesOn(s, x, kind) <==> u in names
  {
    assert u in (set w | w in names) <==> u in names;
  }

  lemma WorldStep(r: Reading, a: Action, u: string)
    requires ReadInv(r, u) && Enabled(r.world, a)
    ensures ReadInv(r.(world := Do(r.world, a)), u)
  {
    var r' := r.(world := Do(r.world, a));
    HeldStays(r.world, a, r.kind, u);
    MarksStayAccurate(r.world, a);
    forall x: Server | u !in r.gathered && x in r'.world.live && Owns(r'.world.hash, r.kind, x, u)
      ensures StillToCome(r', x, u)
    {
      assert StillToCome(r, x, u);
    }
  }

  lemma ReadStep(r: Reading, a: ReadAction, u: string)
    requires ReadInv(r, u) && ReadEnabled(r, a)
    ensures ReadInv(ReadDo(r, a), u)
  {
    var r' := ReadDo(r, a);
    if a.World? {
      WorldStep(r, a.a, u);
    } else {
      if a.Local? { ListedName(r.world, r.at, r.kind, a.names, u); }
      if a.Serve? { ListedName(r.world, r.phase.q, r.kind, a.names, u); }
      forall x: Server | u !in r'.gathered && x in r'.world.live && Owns(r'.world.hash, r.kind, x, u)
        ensures StillToCome(r', x, u)
      {
        assert StillToCome(r, x, u);
      }
    }
  }

  /** Only names that some server holds are gathered. */
  ghost predicate Founded(r: Reading, u: string)
  {
    u in r.gathered || (r.phase.Replied? && u in r.phase.names) ==>
      exists x: Server :: u in NamesOn(r.world, x, r.kind)
  }

  lemma FoundedStep(r: Reading, a: ReadAction, u: string)
    requires Founded(r, u) && ReadEnabled(r, a)
    ensures Founded(ReadDo(r, a), u)
  {
    if a.World? {
      if x: Server :| u in NamesOn(r.world, x, r.kind) { NamesStay(r.world, a.a, x, r.kind, u); }
    } else {
      if a.Local? { ListedName(r.world, r.at, r.kind, a.names, u); }
      if a.Serve? { ListedName(r.world, r.phase.q, r.kind, a.names, u); }
    }
  }

  lemma {:induction false} FoundedRun(r: Reading, acts: seq<ReadAction>, u: string)
    requires Founded(r, u) && IsReading(r, acts)
    ensures Founded(ReadAfter(r, acts), u) && ReadAfter(r, acts).kind == r.kind
    decreases |acts|
  {
    if acts != [] {
      FoundedStep(r, acts[0], u);
      FoundedRun(ReadDo(r, acts[0]), acts[1..], u);
    }
  }

  /** A reading lists nothing but names that some server holds. */
  lemma ReadsAreFounded(s: State, at: Server, kind: Kind, racts: seq<ReadAction>, u: string)
    requires IsReading(Begin(s, at, kind), racts) && u in Listed(ReadAfter(Begin(s, at, kind), racts).gathered)
    ensures exists x: Server :: u in NamesOn(ReadAfter(Begin(s, at, kind), racts).world, x, kind)
  {
    ListedIsExact(ReadAfter(Begin(s, at, kind), racts).gathered);
    FoundedRun(Begin(s, at, kind), racts, u);
  }

  /** Every peer that is not taken for dead is asked, and no other. */
  lemma PeersAsked(s: State, at: Server, x: Server)
    ensures x in PeersToAsk(s, at) <==> x != at && (at, x) !in s.suspects
    ensures forall i, j :: 0 <= i < j < |PeersToAsk(s, at)| ==> PeersToAsk(s, at)[i] != PeersToAsk(s, at)[j]
  {
  }

  lemma {:induction false} ReadRun(r: Reading, acts: seq<ReadAction>, u: string)
    requires ReadInv(r, u) && IsReading(r, acts)
    ensures ReadInv(ReadAfter(r, acts), u) && ReadAfter(r, acts).kind == r.kind
    decreases |acts|
  {
    if acts != [] {
      ReadStep(r, acts[0], u);
      ReadRun(ReadDo(r, acts[0]), acts[1..], u);
    }
  }

  lemma BeginCovers(s: State, at: Server, kind: Kind, u: string)
    requires Accurate(s) && Held(s, kind, u)
    ensures ReadInv(Begin(s, at, kind), u)
  {
    var r := Begin(s, at, kind);
    forall x: Server | x in s.live
      ensures StillToCome(r, x, u)
    {
      match x case A => case B => case C =>
    }
  }

  /** No two servers have crashed. */
  predicate OneCrashAtMost(s: State)
  {
    |{A, B, C} - s.live| <= 1
  }

  lemma AnOwnerLives(s: State, kind: Kind, u: string)
    requires OneCrashAtMost(s)
    ensures OwnersOfName(s.hash, kind, u).primary in s.live || OwnersOfName(s.hash, kind, u).backup in s.live
  {
    var o := OwnersOfName(s.hash, kind, u);
    var crashed := {A, B, C} - s.live;
    var rest := crashed - {o.primary};
    assert o.primary in crashed ==> |crashed| == |rest| + 1;
    assert o.backup in rest ==> |rest| == |rest - {o.backup}| + 1;
  }

  lemma EndHasAll(r: Reading, u: string)
    requires ReadInv(r, u) && Finished(r)
    ensures (exists x :: x in r.world.live && Owns(r.world.hash, r.kind, x, u)) ==> u in r.gathered
    ensures OneCrashAtMost(r.world) ==> u in r.gathered
  {
    var o := OwnersOfName(r.world.hash, r.kind, u);
    assert !StillToCome(r, o.primary, u) && !StillToCome(r, o.backup, u);
    if OneCrashAtMost(r.world) { AnOwnerLives(r.world, r.kind, u); }
  }

  // ---------- when a reading comes to its end ----------

  predicate CrashFree(acts: seq<ReadAction>)
  {
    forall i :: 0 <= i < |acts| ==> !(acts[i].World? && acts[i].a.Crash?)
  }

  /** Server x has not answered yet. */
  predicate Outstanding(r: Reading, x: Server)
  {
    (r.phase.Begun? && x == r.at) || x in r.todo || r.phase == Asking(x)
  }

  /** A live server with a poisoned store is still to answer. */
  ghost predicate Obstructed(r: Reading)
  {
    exists x: Server :: Outstanding(r, x) && x in r.world.live && x in r.world.poisoned
  }

  lemma ObstructedStep(r: Reading, a: ReadAction, x: Server)
    requires Accurate(r.world) && ReadEnabled(r, a) && !(a.World? && a.a.Crash?)
    requires Outstanding(r, x) && x in r.world.live && x in r.world.poisoned
    ensures Accurate(ReadDo(r, a).world) && Outstanding(ReadDo(r, a), x)
    ensures x in ReadDo(r, a).world.live && x in ReadDo(r, a).world.poisoned
  {
    if a.World? {
      MarksStayAccurate(r.world, a.a);
      PoisonStays(r.world, a.a);
    }
  }

  lemma PoisonStays(s: State, a: Action)
    requires Enabled(s, a)
    ensures s.poisoned <= Do(s, a).poisoned && (!a.Crash? ==> Do(s, a).live == s.live)
  {
  }

  lemma {:induction false} ObstructedRun(r: Reading, acts: seq<ReadAction>, x: Server)
    requires Accurate(r.world) && IsReading(r, acts) && CrashFree(acts)
    requires Outstanding(r, x) && x in r.world.live && x in r.world.poisoned
    ensures !Finished(ReadAfter(r, acts))
    decreases |acts|
  {
    if acts != [] {
      ObstructedStep(r, acts[0], x);
      ObstructedRun(ReadDo(r, acts[0]), acts[1..], x);
    }
  }

  lemma {:induction false} ListingExists(names: set<string>) returns (listing: seq<string>)
    ensures (set u | u in listing) == names
  {
    if names == {} {
      listing := [];
    } else {
      var u :| u in names;
      var rest := ListingExists(names - {u});
      listing := [u] + rest;
      assert names == names - {u} + {u};
    }
  }

  lemma Chain(r: Reading, a: ReadAction, rest: seq<ReadAction>)
    requires ReadEnabled(r, a) && !(a.World? && a.a.Crash?) && IsReading(ReadDo(r, a), rest) && CrashFree(rest)
    ensures IsReading(r, [a] + rest) && CrashFree([a] + rest)
    ensures ReadAfter(r, [a] + rest) == ReadAfter(ReadDo(r, a), rest)
  {
    assert ([a] + rest)[1..] == rest;
  }

  /** What is left to do. */
  function Left(r: Reading): nat
  {
    5 * |r.todo|
    + match r.phase
      case Begun => 1
      case Between => 0
      case Asking(q) => if (r.at, q) in r.world.suspects then 3 else 4
      case Replied(_, _) => 2
  }

  /** One step towards the end: the server asked answers, or is marked dead and skipped. */
  lemma NextStep(r: Reading) returns (a: ReadAction)
    requires Accurate(r.world) && r.at in r.world.live && !Obstructed(r) && !Finished(r)
    ensures ReadEnabled(r, a) && !(a.World? && a.a.Crash?)
    ensures
      var r' := ReadDo(r, a);
      Accurate(r'.world) && r'.at in r'.world.live && !Obstructed(r') && Left(r') < Left(r)
  {
    match r.phase
    case Begun =>
      assert Outstanding(r, r.at);
      var names := ListingExists(NamesOn(r.world, r.at, r.kind));
      a := Local(names);
    case Between => a := Ask;
    case Replied(_, _) => a := Collect;
    case Asking(q) =>
      assert Outstanding(r, q);
      if q in r.world.live {
        var names := ListingExists(NamesOn(r.world, q, r.kind));
        a := Serve(names);
      } else {
        a := if (r.at, q) in r.world.suspects then Skip else World(Suspect(r.at, q));
      }
    assert forall x: Server :: Outstanding(ReadDo(r, a), x) ==> Outstanding(r, x);
  }

  lemma {:induction false} ReadingRuns(r: Reading) returns (acts: seq<ReadAction>)
    requires Accurate(r.world) && r.at in r.world.live && !Obstructed(r)
    ensures IsReading(r, acts) && CrashFree(acts) && Finished(ReadAfter(r, acts))
    decreases Left(r)
  {
    if Finished(r) {
      acts := [];
    } else {
      var a := NextStep(r);
      var rest := ReadingRuns(ReadDo(r, a));
      Chain(r, a, rest);
      acts := [a] + rest;
    }
  }

  /** A reading on a live server, at any point, can be brought to its end without a crash if and only if no live
      server that is still to answer has a poisoned store. Crashed servers do not stop it. */
  lemma ReadingEndsIff(r: Reading)
    requires Accurate(r.world) && r.at in r.world.live
    ensures (exists acts :: IsReading(r, acts) && CrashFree(acts) && Finished(ReadAfter(r, acts)))
       <==> !Obstructed(r)
  {
    if Obstructed(r) {
      var x: Server :| Outstanding(r, x) && x in r.world.live && x in r.world.poisoned;
      forall acts | IsReading(r, acts) && CrashFree(acts)
        ensures !Finished(ReadAfter(r, acts))
      {
        ObstructedRun(r, acts, x);
      }
    } else {
      var acts := ReadingRuns(r);
    }
  }

  // ---------- the list, as computed ----------

  /** Lexicographic order of strings. */
  predicate AtMost(a: string, b: string)
  {
    a == [] || (b != [] && (a[0] < b[0] || (a[0] == b[0] && AtMost(a[1..], b[1..]))))
  }

  predicate Before(a: string, b: string)
  {
    a != b && AtMost(a, b)
  }

  lemma {:induction false} AtMostTotal(a: string, b: string)
    ensures AtMost(a, b) || AtMost(b, a)
    ensures AtMost(a, b) && AtMost(b, a) ==> a == b
  {
    if a != [] && b != [] && a[0] == b[0] {
      AtMostTotal(a[1..], b[1..]);
      assert a == [a[0]] + a[1..] && b == [b[0]] + b[1..];
    }
  }

  /** a is an initial part of b, or smaller than b at the first place where they differ. */
  lemma {:induction false} AtMostMeans(a: string, b: string)
    ensures AtMost(a, b)
       <==> a <= b || exists i :: 0 <= i < |a| && i < |b| && a[..i] == b[..i] && a[i] < b[i]
  {
    if a != [] && b != [] {
      AtMostMeans(a[1..], b[1..]);
      assert a == [a[0]] + a[1..] && b == [b[0]] + b[1..];
      if i :| 0 <= i < |a[1..]| && i < |b[1..]| && a[1..][..i] == b[1..][..i] && a[1..][i] < b[1..][i] {
        if a[0] == b[0] {
          assert a[..i + 1] == [a[0]] + a[1..][..i] && b[..i + 1] == [b[0]] + b[1..][..i];
          assert a[i + 1] < b[i + 1];
        }
      }
      if a[0] < b[0] { assert a[..0] == b[..0]; }
      if i :| 0 <= i < |a| && i < |b| && a[..i] == b[..i] && a[i] < b[i] {
        if i > 0 {
          assert a[0] == a[..i][0] == b[..i][0] == b[0];
          assert a[1..][..i - 1] == a[..i][1..] && b[1..][..i - 1] == b[..i][1..];
          assert a[1..][i - 1] < b[1..][i - 1];
        }
      }
    }
  }

  lemma {:induction false} AtMostTransitive(a: string, b: string, c: string)
    requires AtMost(a, b) && AtMost(b, c)
    ensures AtMost(a, c)
  {
    if a != [] && b != [] && c != [] && a[0] == b[0] == c[0] {
      AtMostTransitive(a[1..], b[1..], c[1..]);
    }
  }

  ghost predicate StrictlyAscending(s: seq<string>)
  {
    forall i, j :: 0 <= i < j < |s| ==> Before(s[i], s[j])
  }

  /** The comparison that strings are sorted by. */
  const LEXICOGRAPHIC: (string, string) -> bool := (x, y) => AtMost(x, y)

  lemma LexicographicIsTotal()
    ensures Total(LEXICOGRAPHIC)
  {
    forall x, y
      ensures LEXICOGRAPHIC(x, y) || LEXICOGRAPHIC(y, x)
    {
      AtMostTotal(x, y);
    }
    forall x, y, z | LEXICOGRAPHIC(x, y) && LEXICOGRAPHIC(y, z)
      ensures LEXICOGRAPHIC(x, z)
    {
      AtMostTransitive(x, y, z);
    }
  }

  /** Drops every element equal to the one before it. */
  function Dedup(s: seq<string>): seq<string>
  {
    if |s| < 2 then s
    else if s[0] == s[1] then Dedup(s[1..])
    else [s[0]] + Dedup(s[1..])
  }

  lemma {:induction false} DedupAscends(s: seq<string>)
    requires Sorted(LEXICOGRAPHIC, s)
    ensures StrictlyAscending(Dedup(s))
    ensures forall y :: y in Dedup(s) <==> y in s
    ensures s != [] ==> Dedup(s) != [] && Dedup(s)[0] == s[0]
  {
    if |s| >= 2 {
      DedupAscends(s[1..]);
      assert s == [s[0]] + s[1..];
      if s[0] != s[1] {
        forall y | y in Dedup(s[1..])
          ensures Before(s[0], y)
        {
          var i :| 0 <= i < |s[1..]| && s[1..][i] == y;
          AtMostTotal(s[0], s[1]);
          AtMostTotal(s[1], s[1]);
          assert AtMost(s[1], s[i + 1]);
        }
      }
    }
  }

  /** The list returned for the names gathered. */
  function Listed(names: seq<string>): seq<string>
  {
    Dedup(Sort(LEXICOGRAPHIC, names))
  }

  lemma ListedIsExact(names: seq<string>)
    ensures StrictlyAscending(Listed(names)) && forall y :: y in Listed(names) <==> y in names
  {
    LexicographicIsTotal();
    SortSorted(LEXICOGRAPHIC, names);
    forall y
      ensures y in Sort(LEXICOGRAPHIC, names) <==> y in names
    {
      SortMembers(LEXICOGRAPHIC, names, y);
    }
    DedupAscends(Sort(LEXICOGRAPHIC, names));
  }

  function Gathered(mine: seq<string>, answers: seq<Option<seq<string>>>): seq<string>
  {
    if answers == [] then mine
    else
      var front, last := answers[..|answers| - 1], answers[|answers| - 1];
      Gathered(mine, front) + last.GetOr([])
  }

  /** The body of get_users and of get_channels: the own names, those of each peer that answered, sorted
      and deduplicated. */
  method CollectNames(mine: seq<string>, answers: seq<Option<seq<string>>>) returns (all: seq<string>)
    ensures all == Listed(Gathered(mine, answers)) && StrictlyAscending(all)
    ensures forall y ::
              y in all <==> y in mine || exists i :: 0 <= i < |answers| && answers[i].Some? && y in answers[i].value
  {
    all := mine;
    for i := 0 to |answers|
      invariant all == Gathered(mine, answers[..i])
      invariant forall y ::
                  y in all <==> y in mine || exists j :: 0 <= j < i && answers[j].Some? && y in answers[j].value
    {
      assert answers[..i + 1][..i] == answers[..i];
      if answers[i].Some? {
        all := all + answers[i].value;
      }
    }
    assert answers[..|answers|] == answers;
    ListedIsExact(all);
    all := Listed(all);
  }

  /** The finished reading returns, in ascending order and once, the name if an owner of it still lives. */
  ghost predicate Complete(r: Reading, u: string)
  {
    && StrictlyAscending(Listed(r.gathered))
    && ((exists x :: x in r.world.live && Owns(r.world.hash, r.kind, x, u)) ==> u in Listed(r.gathered))
    && (OneCrashAtMost(r.world) ==> u in Listed(r.gathered))
  }

  lemma HeldIsRead(s: State, at: Server, kind: Kind, racts: seq<ReadAction>, u: string)
    requires Accurate(s) && Held(s, kind, u)
    requires IsReading(Begin(s, at, kind), racts) && Finished(ReadAfter(Begin(s, at, kind), racts))
    ensures Complete(ReadAfter(Begin(s, at, kind), racts), u)
  {
    var r := ReadAfter(Begin(s, at, kind), racts);
    BeginCovers(s, at, kind, u);
    ReadRun(Begin(s, at, kind), racts, u);
    EndHasAll(r, u);
    ListedIsExact(r.gathered);
  }

  /** A reading of all users that is over returns every username granted before it began, provided that one of
      the username's owners is still alive: with a single crash at most, that is always so. */
  lemma ReadsAreComplete(hash: string -> nat, acts: seq<Action>, at: Server, racts: seq<ReadAction>, k: nat, u: string)
    requires IsRun(Init(hash), acts) && Granted(After(Init(hash), acts), k, u)
    requires
      var r := Begin(After(Init(hash), acts), at, Users);
      IsReading(r, racts) && Finished(ReadAfter(r, racts))
    ensures Complete(ReadAfter(Begin(After(Init(hash), acts), at, Users), racts), u)
  {
    RunKeeps(Init(hash), acts);
    AcknowledgedUsersSurvive(hash, acts, k, u);
    HeldIsRead(After(Init(hash), acts), at, Users, racts, u);
  }

  /** So does a reading of all channels with a channel a join of which was acknowledged before. */
  lemma ChannelReadsAreComplete(hash: string -> nat, acts: seq<Action>, at: Server, racts: seq<ReadAction>, k: nat,
      c: string)
    requires IsRun(Init(hash), acts) && C.Joined(After(Init(hash), acts), k, c)
    requires
      var r := Begin(After(Init(hash), acts), at, Channels);
      IsReading(r, racts) && Finished(ReadAfter(r, racts))
    ensures Complete(ReadAfter(Begin(After(Init(hash), acts), at, Channels), racts), c)
  {
    RunKeeps(Init(hash), acts);
    C.NoPanicAfterJoin(hash, acts, c, k, 0);
    HeldIsRead(After(Init(hash), acts), at, Channels, racts, c);
  }

  lemma TailMembers(s: seq<string>, y: string)
    requires StrictlyAscending(s) && s != []
    ensures y in s[1..] <==> y in s && y != s[0]
  {
    assert s == [s[0]] + s[1..];
  }

  /** The list is determined by its contents: two servers that gathered the same names list them alike. */
  lemma {:induction false} AscendingIsCanonical(s: seq<string>, t: seq<string>)
    requires StrictlyAscending(s) && StrictlyAscending(t)
    requires forall y :: y in s <==> y in t
    ensures s == t
  {
    assert s != [] ==> s[0] in s;
    assert t != [] ==> t[0] in t;
    if s != [] {
      assert s[0] in t;
      assert t[0] in s;
      var i :| 0 <= i < |t| && t[i] == s[0];
      var j :| 0 <= j < |s| && s[j] == t[0];
      AtMostTotal(s[0], t[0]);
      assert s[0] == t[0];
      forall y
        ensures y in s[1..] <==> y in t[1..]
      {
        TailMembers(s, y);
        TailMembers(t, y);
      }
      AscendingIsCanonical(s[1..], t[1..]);
      assert s == [s[0]] + s[1..] && t == [t[0]] + t[1..];
    }
  }
}
