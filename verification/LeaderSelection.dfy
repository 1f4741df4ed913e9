/** Leader selection: every server recomputes its leader when a peer is declared dead, and believes
    the announcements it receives, however late they come. */
module LeaderSelection {

  import opened Prelude
  import opened ServerConfig
  import opened Sorting

  function Priority(config: Config, id: string): nat
  {
    match Lookup(config, id)
    case None => 0
    case Some(entry) => entry.priority
  }

  predicate Known(config: Config, id: string)
  {
    Lookup(config, id).Some?
  }

  /** x has the highest priority of the given servers. */
  ghost predicate IsTop(config: Config, servers: set<string>, x: string)
  {
    x in servers && forall y :: y in servers ==> Priority(config, y) <= Priority(config, x)
  }

  predicate HighestPriority(config: Config, i: nat)
    requires i < |config|
  {
    forall j :: 0 <= j < |config| ==> config[j].priority <= config[i].priority
  }

  lemma {:induction false} LookupMember(config: Config, id: string)
    requires Known(config, id)
    ensures Lookup(config, id).value in config && Lookup(config, id).value.id == id
  {
    if config[0].id != id { LookupMember(config[1..], id); }
  }

  lemma PrioritiesTell(config: Config, x: string, y: string)
    requires UniquePriorities(config) && Known(config, x) && Known(config, y)
    requires Priority(config, x) == Priority(config, y)
    ensures x == y
  {
    LookupMember(config, x);
    LookupMember(config, y);
    var i :| 0 <= i < |config| && config[i] == Lookup(config, x).value;
    var j :| 0 <= j < |config| && config[j] == Lookup(config, y).value;
    assert i == j;
  }

  // ---------- the recomputation of one server ----------

  predicate AtMostPriority(config: Config, x: string, y: string)
  {
    Priority(config, x) <= Priority(config, y)
  }

  function ByPriority(config: Config): (string, string) -> bool
  {
    (x, y) => AtMostPriority(config, x, y)
  }

  /** The alive servers, the highest priority first. */
  function Ranked(config: Config, alive: seq<string>): seq<string>
  {
    Reverse(Sort(ByPriority(config), alive))
  }

  lemma ByPriorityIsTotal(config: Config)
    ensures Total(ByPriority(config))
  {
  }

  /** The head of the ranking is one of the servers, of the highest priority. */
  lemma RankedHead(config: Config, alive: seq<string>, x: string)
    requires x in alive
    ensures Ranked(config, alive) != [] && Ranked(config, alive)[0] in alive
    ensures Priority(config, x) <= Priority(config, Ranked(config, alive)[0])
  {
    ByPriorityIsTotal(config);
    TopFirst(ByPriority(config), alive, x);
    assert ByPriority(config)(x, Ranked(config, alive)[0]);
  }

  /** The listing holds each server's state once, in some order. */
  ghost predicate Lists(states: map<string, bool>, listing: seq<(string, bool)>)
  {
    && (forall i :: 0 <= i < |listing| ==> listing[i].0 in states && states[listing[i].0] == listing[i].1)
    && (forall x :: x in states ==> (x, states[x]) in listing)
  }

  /** The state of one server that the announcement task works on. */
  class SystemState {
    const config: Config
    const id: string
    var leader: string
    var states: map<string, bool>

    ghost predicate Valid()
      reads this
    {
      forall x :: x in states ==> Known(config, x)
    }

    ghost function Alive(): set<string>
      reads this
    {
      set x | x in states && states[x]
    }

    constructor (config: Config, id: string)
      requires config != []
      ensures Valid() && this.config == config && this.id == id
      ensures states.Keys == Alive() == Ids(config)
      ensures exists i :: 0 <= i < |config| && config[i].id == leader && HighestPriority(config, i)
    {
      this.config, this.id := config, id;
      var top := config[0];
      for i := 1 to |config|
        invariant top in config
        invariant forall j :: 0 <= j < i ==> config[j].priority <= top.priority
      {
        // the last one of equal priority wins
        if config[i].priority >= top.priority { top := config[i]; }
      }
      leader := top.id;
      states := map x: string | x in Ids(config) :: true;
      forall i | 0 <= i < |config|
        ensures Known(config, config[i].id)
      {
        IdsAreKnown(config, i);
      }
    }

    /** Only a server of the configuration can be marked: the lookup of its state is unwrapped. */
    method SetServerState(server: string, alive: bool)
      requires Valid() && server in states
      modifies this`states
      ensures Valid() && states.Keys == old(states).Keys
      ensures Alive() == if alive then old(Alive()) + {server} else old(Alive()) - {server}
    {
      states := states[server := alive];
    }

    /** What the task does when it is woken: the leader becomes the head of the alive servers sorted by
        priority and reversed, and it is announced if it is this server itself. A server never marks
        itself dead, so some server is alive. */
    method OnFailure(listing: seq<(string, bool)>) returns (announce: bool)
      requires Valid() && Lists(states, listing) && Alive() != {}
      modifies this`leader
      ensures IsTop(config, Alive(), leader)
      ensures announce <==> leader == id
    {
      var alive: seq<string> := [];
      for i := 0 to |listing|
        invariant forall x :: x in alive ==> x in Alive()
        invariant forall j :: 0 <= j < i && listing[j].1 ==> listing[j].0 in alive
      {
        if listing[i].1 {
          alive := alive + [listing[i].0];
        }
      }
      ghost var some :| some in Alive();
      assert forall x :: x in Alive() ==> (x, true) in listing;
      assert some in alive;
      RankedHead(config, alive, some);
      forall x | x in alive
        ensures Priority(config, x) <= Priority(config, Ranked(config, alive)[0])
      {
        RankedHead(config, alive, x);
      }
      var ranked := Ranked(config, alive);
      leader := ranked[0];
      announce := leader == id;
    }
  }

  function Ids(config: Config): set<string>
  {
    set i | 0 <= i < |config| :: config[i].id
  }

  lemma {:induction false} IdsAreKnown(config: Config, i: nat)
    requires i < |config|
    ensures Known(config, config[i].id)
  {
    if config[0].id != config[i].id { IdsAreKnown(config[1..], i - 1); }
  }

  // ---------- the servers together ----------

  /** A recomputation under way: the pick is made, then compared with the leader, then perhaps written. */
  datatype Task = Task(server: string, pick: string, writing: bool)

  /** `announcements` holds (receiver, announced leader). */
  datatype Net = Net(
    config: Config,
    live: set<string>,
    alive: map<string, set<string>>,
    leader: map<string, string>,
    tasks: multiset<Task>,
    announcements: multiset<(string, string)>)

  datatype Act =
    | Crash(p: string)
    | Suspect(p: string, q: string)
    | Greet(p: string, to: string)                 // the top server announces itself at the start
    | Pick(p: string, pick: string)                // reads the states and ranks the alive servers
    | Compare(p: string, pick: string)
    | Write(p: string, pick: string)
    | Announce(p: string, to: string, pick: string)
    | Deliver(to: string, x: string)

  predicate HasTask(s: Net, t: Task)
  {
    t in s.tasks
  }

  predicate HasNews(s: Net, m: (string, string))
  {
    m in s.announcements
  }

  ghost predicate Enabled(s: Net, a: Act)
  {
    match a
    case Crash(p) => p in s.live
    case Suspect(p, q) => p in s.live && p in s.alive && q !in s.live
    case Greet(p, _) => p in s.live && IsTop(s.config, Ids(s.config), p)
    case Pick(p, x) => p in s.live && p in s.alive && IsTop(s.config, s.alive[p], x)
    case Compare(p, x) => p in s.live && p in s.leader && HasTask(s, Task(p, x, false))
    case Write(p, x) => p in s.live && HasTask(s, Task(p, x, true))
    case Announce(p, _, x) => p in s.live && x == p && HasTask(s, Task(p, x, false))
    case Deliver(to, x) => to in s.live && HasNews(s, (to, x))
  }

  /** A task may announce as soon as it has picked itself: the order of announcing and writing does not matter here. */
  ghost function Do(s: Net, a: Act): Net
    requires Enabled(s, a)
  {
    match a
    case Crash(p) => s.(live := s.live - {p})
    case Suspect(p, q) => s.(alive := s.alive[p := s.alive[p] - {q}])
    case Greet(p, to) => s.(announcements := s.announcements + multiset{(to, p)})
    case Pick(p, x) => s.(tasks := s.tasks + multiset{Task(p, x, false)})
    case Compare(p, x) =>
      var rest := s.tasks - multiset{Task(p, x, false)};
      s.(tasks := if s.leader[p] == x then rest else rest + multiset{Task(p, x, true)})
    case Write(p, x) =>
      s.(tasks := s.tasks - multiset{Task(p, x, true)}, leader := s.leader[p := x])
    case Announce(p, to, x) => s.(announcements := s.announcements + multiset{(to, x)})
    case Deliver(to, x) =>
      s.(announcements := s.announcements - multiset{(to, x)}, leader := s.leader[to := x])
  }

  ghost predicate IsRun(s: Net, acts: seq<Act>)
    decreases |acts|
  {
    acts == [] || (Enabled(s, acts[0]) && IsRun(Do(s, acts[0]), acts[1..]))
  }

  ghost function After(s: Net, acts: seq<Act>): Net
    requires IsRun(s, acts)
    decreases |acts|
  {
    if acts == [] then s else After(Do(s, acts[0]), acts[1..])
  }

  /** Every server starts with all servers alive and the highest priority of all as its leader. */
  ghost predicate Initial(s: Net)
  {
    && UniquePriorities(s.config)
    && s.live == Ids(s.config)
    && s.alive.Keys == s.live && s.leader.Keys == s.live
    && (forall p :: p in s.live ==> Known(s.config, p) && s.alive[p] == s.live && IsTop(s.config, s.live, s.leader[p]))
    && s.tasks == multiset{} && s.announcements == multiset{}
  }

  /** x is no live server that some live server outranks. */
  ghost predicate NotOutranked(s: Net, x: string)
  {
    x in s.live ==> IsTop(s.config, s.live, x)
  }

  ghost predicate NetInv(s: Net)
  {
    && UniquePriorities(s.config)
    && s.alive.Keys == s.leader.Keys && s.live <= s.alive.Keys && s.live <= Ids(s.config)
    && (forall p {:trigger Known(s.config, p)} :: p in s.alive ==> Known(s.config, p))
    && (forall p {:trigger s.alive[p]} :: p in s.alive ==> s.live <= s.alive[p])
    && (forall p {:trigger s.leader[p]} :: p in s.leader ==> NotOutranked(s, s.leader[p]))
    && (forall t {:trigger HasTask(s, t)} :: HasTask(s, t) ==> NotOutranked(s, t.pick))
    && (forall m {:trigger HasNews(s, m)} :: HasNews(s, m) ==> NotOutranked(s, m.1))
  }

  lemma NetStep(s: Net, a: Act)
    requires NetInv(s) && Enabled(s, a)
    ensures NetInv(Do(s, a))
  {
    var s' := Do(s, a);
    forall x | NotOutranked(s, x)
      ensures NotOutranked(s', x)
    {
    }
    TasksStep(s, a);
    assert a.Write? ==> HasTask(s, Task(a.p, a.pick, true));
    assert a.Deliver? ==> HasNews(s, (a.to, a.x));
  }

  /** Whatever is picked or announced is not outranked at that time, hence never. */
  lemma TasksStep(s: Net, a: Act)
    requires NetInv(s) && Enabled(s, a)
    ensures forall t {:trigger HasTask(Do(s, a), t)} :: HasTask(Do(s, a), t) ==> NotOutranked(Do(s, a), t.pick)
    ensures forall m {:trigger HasNews(Do(s, a), m)} :: HasNews(Do(s, a), m) ==> NotOutranked(Do(s, a), m.1)
  {
    var s' := Do(s, a);
    forall t | HasTask(s', t)
      ensures NotOutranked(s', t.pick)
    {
      assert a.Compare? ==> HasTask(s, Task(a.p, a.pick, false));
      assert HasTask(s, t) || a.Pick? || (a.Compare? && t == Task(a.p, a.pick, true));
    }
    forall m | HasNews(s', m)
      ensures NotOutranked(s', m.1)
    {
      assert a.Announce? ==> HasTask(s, Task(a.p, a.pick, false));
      assert HasNews(s, m) || a.Greet? || a.Announce?;
    }
  }

  lemma {:induction false} NetRun(s: Net, acts: seq<Act>)
    requires NetInv(s) && IsRun(s, acts)
    ensures NetInv(After(s, acts))
    decreases |acts|
  {
    if acts != [] {
      NetStep(s, acts[0]);
      NetRun(Do(s, acts[0]), acts[1..]);
    }
  }

  /** In every reachable state, whatever crashes and however late announcements and recomputations
      come, the leader of each server is the highest-priority live server or a crashed one, and at most
      one live server takes itself for the leader. */
  lemma LeaderNeverOutranked(s: Net, acts: seq<Act>)
    requires Initial(s) && IsRun(s, acts)
    ensures
      var t := After(s, acts);
      && (forall p :: p in t.live ==> p in t.leader && (t.leader[p] !in t.live || IsTop(t.config, t.live, t.leader[p])))
      && (forall p, q :: p in t.live && q in t.live && t.leader[p] == p && t.leader[q] == q ==> p == q)
  {
    InitialIsFine(s);
    NetRun(s, acts);
    OneLeader(After(s, acts));
  }

  lemma InitialIsFine(s: Net)
    requires Initial(s)
    ensures NetInv(s)
  {
    forall p | p in s.alive
      ensures Known(s.config, p) && s.live <= s.alive[p]
    {
      assert p in s.live;
    }
    forall p | p in s.leader
      ensures NotOutranked(s, s.leader[p])
    {
      assert p in s.live;
    }
    forall t
      ensures !HasTask(s, t)
    {
    }
    forall m
      ensures !HasNews(s, m)
    {
    }
  }

  lemma OneLeader(t: Net)
    requires NetInv(t)
    ensures forall p :: p in t.live ==>
      p in t.leader && (t.leader[p] !in t.live || IsTop(t.config, t.live, t.leader[p]))
    ensures forall p, q :: p in t.live && q in t.live && t.leader[p] == p && t.leader[q] == q ==> p == q
  {
    forall p | p in t.live
      ensures p in t.leader && NotOutranked(t, t.leader[p])
    {
      assert p in t.alive;
    }
    forall p, q | p in t.live && q in t.live && t.leader[p] == p && t.leader[q] == q
      ensures p == q
    {
      SameTop(t, p, q);
    }
  }

  lemma SameTop(s: Net, x: string, y: string)
    requires NetInv(s) && IsTop(s.config, s.live, x) && IsTop(s.config, s.live, y)
    ensures x == y
  {
    assert x in s.alive && y in s.alive;
    PrioritiesTell(s.config, x, y);
  }

  /** Detection is over: each live server sees exactly the live ones, and nothing that names a crashed
      server is under way. */
  ghost predicate Quiet(s: Net)
  {
    && NetInv(s)
    && (forall p {:trigger s.alive[p]} :: p in s.live ==> s.alive[p] == s.live)
    && (forall t {:trigger HasTask(s, t)} :: HasTask(s, t) && t.server in s.live ==> t.pick in s.live)
    && (forall m {:trigger HasNews(s, m)} :: HasNews(s, m) && m.0 in s.live ==> m.1 in s.live)
  }

  ghost predicate Settled(s: Net, p: string)
  {
    p in s.live && p in s.leader && IsTop(s.config, s.live, s.leader[p])
  }

  /** The step ends a recomputation of p. */
  predicate Completes(s: Net, a: Act, p: string)
  {
    (a.Write? && a.p == p) || (a.Compare? && a.p == p && p in s.leader && s.leader[p] == a.pick)
  }

  ghost predicate Recomputes(s: Net, acts: seq<Act>, p: string)
    requires IsRun(s, acts)
    decreases |acts|
  {
    acts != [] && (Completes(s, acts[0], p) || Recomputes(Do(s, acts[0]), acts[1..], p))
  }

  lemma QuietStep(s: Net, a: Act)
    requires Quiet(s) && Enabled(s, a) && !a.Crash?
    ensures Quiet(Do(s, a)) && Do(s, a).live == s.live && Do(s, a).config == s.config
  {
    NetStep(s, a);
    var s' := Do(s, a);
    forall t | HasTask(s', t) && t.server in s'.live
      ensures t.pick in s'.live
    {
      assert a.Compare? ==> HasTask(s, Task(a.p, a.pick, false));
      assert HasTask(s, t) || a.Pick? || (a.Compare? && t == Task(a.p, a.pick, true));
    }
    forall m | HasNews(s', m) && m.0 in s'.live
      ensures m.1 in s'.live
    {
      assert HasNews(s, m) || a.Greet? || a.Announce?;
    }
  }

  lemma SettledStep(s: Net, a: Act, p: string)
    requires Quiet(s) && Enabled(s, a) && !a.Crash? && p in s.live
    requires Settled(s, p) || Completes(s, a, p)
    ensures Settled(Do(s, a), p)
  {
    assert a.Write? ==> HasTask(s, Task(a.p, a.pick, true));
    assert a.Compare? ==> HasTask(s, Task(a.p, a.pick, false));
    assert a.Deliver? ==> HasNews(s, (a.to, a.x));
  }

  lemma {:induction false} QuietRun(s: Net, acts: seq<Act>, p: string)
    requires Quiet(s) && IsRun(s, acts) && p in s.live
    requires forall i :: 0 <= i < |acts| ==> !acts[i].Crash?
    ensures Quiet(After(s, acts)) && After(s, acts).live == s.live && After(s, acts).config == s.config
    ensures Settled(s, p) || Recomputes(s, acts, p) ==> Settled(After(s, acts), p)
    decreases |acts|
  {
    if acts != [] {
      QuietStep(s, acts[0]);
      if Settled(s, p) || Completes(s, acts[0], p) { SettledStep(s, acts[0], p); }
      QuietRun(Do(s, acts[0]), acts[1..], p);
    }
  }

  /** Survivors agree: from a quiet state on, without further crashes, once every live server has
      completed a recomputation all hold the highest-priority live server as leader, and later
      announcements and recomputations do not change that. */
  lemma SurvivorsAgree(s: Net, acts: seq<Act>, later: seq<Act>)
    requires Quiet(s) && IsRun(s, acts) && IsRun(After(s, acts), later)
    requires forall i :: 0 <= i < |acts| ==> !acts[i].Crash?
    requires forall i :: 0 <= i < |later| ==> !later[i].Crash?
    requires forall p :: p in s.live ==> Recomputes(s, acts, p)
    ensures
      var t := After(After(s, acts), later);
      && t.live == s.live
      && (forall p :: p in s.live ==> p in t.leader && IsTop(t.config, s.live, t.leader[p]))
      && (forall p, q :: p in s.live && q in s.live ==> t.leader[p] == t.leader[q])
  {
    var t := After(After(s, acts), later);
    forall p | p in s.live
      ensures Settled(t, p) && NetInv(t) && t.live == s.live
    {
      QuietRun(s, acts, p);
      QuietRun(After(s, acts), later, p);
    }
    assert s.live == {} ==> acts == [] && later == [];
    forall p, q | p in s.live && q in s.live
      ensures t.leader[p] == t.leader[q]
    {
      assert Settled(t, p) && Settled(t, q);
      SameTop(t, t.leader[p], t.leader[q]);
    }
  }

  // ---------- announcements ----------

  /** The step sends the name of x to p. */
  predicate Sends(a: Act, p: string, x: string)
  {
    (a.Announce? && a.to == p && a.pick == x) || (a.Greet? && a.to == p && a.p == x)
  }

  lemma NewsStep(s: Net, a: Act, p: string, x: string)
    requires Quiet(s) && Enabled(s, a) && !a.Crash? && p in s.live
    requires Sends(a, p, x) || HasNews(s, (p, x)) || Settled(s, p)
    ensures HasNews(Do(s, a), (p, x)) || Settled(Do(s, a), p)
  {
    if Settled(s, p) {
      SettledStep(s, a, p);
    } else if Sends(a, p, x) {
      assert (p, x) in Do(s, a).announcements;
    } else if a == Deliver(p, x) {
      assert NotOutranked(s, (p, x).1);
    } else {
      assert (p, x) in Do(s, a).announcements;
    }
  }

  lemma {:induction false} NewsRun(s: Net, acts: seq<Act>, p: string, x: string)
    requires Quiet(s) && IsRun(s, acts) && p in s.live
    requires forall i :: 0 <= i < |acts| ==> !acts[i].Crash?
    requires HasNews(s, (p, x)) || Settled(s, p) || exists i :: 0 <= i < |acts| && Sends(acts[i], p, x)
    ensures HasNews(After(s, acts), (p, x)) || Settled(After(s, acts), p)
    decreases |acts|
  {
    if acts != [] {
      QuietStep(s, acts[0]);
      if HasNews(s, (p, x)) || Settled(s, p) || Sends(acts[0], p, x) {
        NewsStep(s, acts[0], p, x);
      } else {
        var i :| 0 <= i < |acts| && Sends(acts[i], p, x);
        assert acts[1..][i - 1] == acts[i];
      }
      NewsRun(Do(s, acts[0]), acts[1..], p, x);
    }
  }

  /** An announcement reaches those who have not recomputed: from a quiet state on, without further crashes, a server
      to which a leader was announced holds the highest-priority live server as soon as this announcement is no
      longer under way. */
  lemma AnnouncementSettles(s: Net, acts: seq<Act>, p: string, x: string)
    requires Quiet(s) && IsRun(s, acts) && p in s.live
    requires forall i :: 0 <= i < |acts| ==> !acts[i].Crash?
    requires exists i :: 0 <= i < |acts| && Sends(acts[i], p, x)
    requires !HasNews(After(s, acts), (p, x))
    ensures
      var t := After(s, acts);
      t.live == s.live && p in t.leader && IsTop(t.config, s.live, t.leader[p])
  {
    NewsRun(s, acts, p, x);
    QuietRun(s, acts, p);
  }

  /** Such an announcement can be made: the top live server picks itself and tells p, who believes it. */
  lemma TakeoverRuns(s: Net, top: string, p: string) returns (acts: seq<Act>)
    requires Quiet(s) && IsTop(s.config, s.live, top) && p in s.live
    ensures IsRun(s, acts) && (forall i :: 0 <= i < |acts| ==> !acts[i].Crash?) && !Recomputes(s, acts, p)
    ensures p in After(s, acts).leader && After(s, acts).leader[p] == top
  {
    var s1 := Do(s, Pick(top, top));
    assert HasTask(s1, Task(top, top, false));
    var s2 := Do(s1, Announce(top, p, top));
    assert HasNews(s2, (p, top));
    OneMore(s2, Deliver(p, top), [], p);
    OneMore(s1, Announce(top, p, top), [Deliver(p, top)] + [], p);
    OneMore(s, Pick(top, top), [Announce(top, p, top)] + ([Deliver(p, top)] + []), p);
    acts := [Pick(top, top)] + ([Announce(top, p, top)] + ([Deliver(p, top)] + []));
  }

  // ---------- which states keep their agreement ----------

  /** Nothing under way can make live server p believe in a crashed one. */
  ghost predicate NothingStale(s: Net, p: string)
  {
    && (forall t {:trigger HasTask(s, t)} :: HasTask(s, t) && t.server == p ==> t.pick in s.live)
    && (forall m {:trigger HasNews(s, m)} :: HasNews(s, m) && m.0 == p ==> m.1 in s.live)
  }

  /** p holds the right leader, and sees exactly the live servers. */
  ghost predicate Holds(s: Net, p: string)
  {
    && NetInv(s) && p in s.live && p in s.alive && s.alive[p] == s.live && Settled(s, p)
  }

  lemma StaleUnderWay(s: Net, a: Act, p: string)
    requires Holds(s, p) && NothingStale(s, p) && Enabled(s, a) && !a.Crash?
    ensures NothingStale(Do(s, a), p)
  {
    var s' := Do(s, a);
    forall t | HasTask(s', t) && t.server == p
      ensures t.pick in s'.live
    {
      assert a.Compare? ==> HasTask(s, Task(a.p, a.pick, false));
      assert HasTask(s, t) || a.Pick? || (a.Compare? && t == Task(a.p, a.pick, true));
    }
    forall m | HasNews(s', m) && m.0 == p
      ensures m.1 in s'.live
    {
      assert HasNews(s, m) || a.Greet? || a.Announce?;
    }
  }

  lemma StaleStep(s: Net, a: Act, p: string)
    requires Holds(s, p) && NothingStale(s, p) && Enabled(s, a) && !a.Crash?
    ensures Holds(Do(s, a), p) && NothingStale(Do(s, a), p) && Do(s, a).live == s.live
  {
    NetStep(s, a);
    StaleUnderWay(s, a, p);
    assert a.Write? ==> HasTask(s, Task(a.p, a.pick, true));
    assert a.Deliver? ==> HasNews(s, (a.to, a.x));
  }

  lemma {:induction false} StaleRun(s: Net, acts: seq<Act>, p: string)
    requires Holds(s, p) && NothingStale(s, p) && IsRun(s, acts) && forall i :: 0 <= i < |acts| ==> !acts[i].Crash?
    ensures Settled(After(s, acts), p)
    decreases |acts|
  {
    if acts != [] {
      StaleStep(s, acts[0], p);
      StaleRun(Do(s, acts[0]), acts[1..], p);
    }
  }

  /** The stale pick is written, or the stale announcement believed. */
  lemma StaleMisleads(s: Net, p: string) returns (acts: seq<Act>)
    requires Holds(s, p) && !NothingStale(s, p)
    ensures IsRun(s, acts) && (forall i :: 0 <= i < |acts| ==> !acts[i].Crash?) && !Settled(After(s, acts), p)
  {
    if t :| HasTask(s, t) && t.server == p && t.pick !in s.live {
      if t.writing {
        acts := [Write(p, t.pick)];
        OneMore(s, Write(p, t.pick), [], p);
        assert [Write(p, t.pick)] + [] == [Write(p, t.pick)];
      } else {
        var s1 := Do(s, Compare(p, t.pick));
        assert HasTask(s1, Task(p, t.pick, true));
        OneMore(s1, Write(p, t.pick), [], p);
        OneMore(s, Compare(p, t.pick), [Write(p, t.pick)] + [], p);
        acts := [Compare(p, t.pick)] + ([Write(p, t.pick)] + []);
      }
    } else {
      var m :| HasNews(s, m) && m.0 == p && m.1 !in s.live;
      acts := [Deliver(p, m.1)];
      OneMore(s, Deliver(p, m.1), [], p);
      assert [Deliver(p, m.1)] + [] == [Deliver(p, m.1)];
    }
  }

  ghost predicate KeepsLeader(s: Net, p: string)
  {
    forall acts: seq<Act> :: IsRun(s, acts) && (forall i :: 0 <= i < |acts| ==> !acts[i].Crash?) ==>
      Settled(After(s, acts), p)
  }

  /** A survivor that sees exactly the live servers and holds the highest-priority one as leader does so in
      every continuation without a crash if and only if no recomputation of its own and no announcement
      to it that names a crashed server is under way. */
  lemma LeaderLastsIff(s: Net, p: string)
    requires Holds(s, p)
    ensures KeepsLeader(s, p) <==> NothingStale(s, p)
  {
    if NothingStale(s, p) {
      forall acts: seq<Act> | IsRun(s, acts) && forall i :: 0 <= i < |acts| ==> !acts[i].Crash?
        ensures Settled(After(s, acts), p)
      {
        StaleRun(s, acts, p);
      }
    } else {
      var acts := StaleMisleads(s, p);
    }
  }

  /** With nothing under way a leader changes only by a new recomputation or greeting. */
  lemma {:induction false} SilenceKeepsLeader(s: Net, acts: seq<Act>, p: string)
    requires s.tasks == multiset{} && s.announcements == multiset{} && p in s.leader && IsRun(s, acts)
    requires forall i :: 0 <= i < |acts| ==> !acts[i].Pick? && !acts[i].Greet?
    ensures p in After(s, acts).leader && After(s, acts).leader[p] == s.leader[p]
    decreases |acts|
  {
    if acts != [] {
      NothingElse(s, acts[0]);
      SilenceKeepsLeader(Do(s, acts[0]), acts[1..], p);
    }
  }

  lemma NothingElse(s: Net, a: Act)
    requires s.tasks == multiset{} && s.announcements == multiset{} && Enabled(s, a) && !a.Pick? && !a.Greet?
    ensures a.Crash? || a.Suspect?
  {
    assert forall t :: !HasTask(s, t);
    assert forall m :: !HasNews(s, m);
  }

  /** All that the next lemma asks of its first state holds initially. */
  lemma InitialLeader(s: Net, top: string, p: string)
    requires Initial(s) && IsTop(s.config, s.live, top) && p in s.live
    ensures top in s.live && s.live == Ids(s.config) && p in s.alive && s.alive[p] == s.live
    ensures p in s.leader && s.leader[p] == top
    ensures s.tasks == multiset{} && s.announcements == multiset{}
  {
    InitialIsFine(s);
    SameTop(s, s.leader[p], top);
  }

  /** Why the announcements must have arrived: the first leader's greeting reaches p after p has
      learned of its crash and recomputed, and p believes it, until something makes it recompute or a new
      announcement reaches it. */
  lemma StaleGreetingMisleads(s: Net, top: string, p: string, second: string) returns (acts: seq<Act>)
    requires p in s.live && top in s.live && p != top && IsTop(s.config, Ids(s.config), top)
    requires p in s.alive && s.alive[p] == s.live && p in s.leader && s.leader[p] == top
    requires s.tasks == multiset{} && s.announcements == multiset{}
    requires IsTop(s.config, s.live - {top}, second)
    ensures IsRun(s, acts) && Recomputes(s, acts, p)
    ensures
      var t := After(s, acts);
      && t.live == s.live - {top} && p in t.alive && t.alive[p] == t.live
      && t.tasks == multiset{} && t.announcements == multiset{}
      && p in t.leader && t.leader[p] == top
  {
    var s3 := s.(announcements := multiset{(p, top)}, live := s.live - {top}, alive := s.alive[p := s.live - {top}]);
    var s4 := s3.(leader := s.leader[p := second]);
    DeliveryRuns(s4, p, top);
    RecomputationRuns(s3, p, second, [Deliver(p, top)]);
    acts := CrashRuns(s, top, p, [Pick(p, second), Compare(p, second), Write(p, second)] + [Deliver(p, top)]);
  }

  lemma DeliveryRuns(s: Net, p: string, x: string)
    requires p in s.live && s.announcements == multiset{(p, x)}
    ensures IsRun(s, [Deliver(p, x)])
    ensures After(s, [Deliver(p, x)]) == s.(announcements := multiset{}, leader := s.leader[p := x])
  {
    assert HasNews(s, (p, x));
    assert s.announcements - multiset{(p, x)} == multiset{};
    OneMore(s, Deliver(p, x), [], p);
    assert [Deliver(p, x)] + [] == [Deliver(p, x)];
  }

  /** The top server greets p and crashes, p learns of the crash, and the rest follows. */
  lemma CrashRuns(s: Net, top: string, p: string, rest: seq<Act>) returns (acts: seq<Act>)
    requires IsTop(s.config, Ids(s.config), top) && top in s.live && p in s.live && p in s.alive && p != top
    requires s.announcements == multiset{}
    requires IsRun(s.(announcements := multiset{(p, top)}, live := s.live - {top},
      alive := s.alive[p := s.alive[p] - {top}]), rest)
    ensures
      var t := s.(announcements := multiset{(p, top)}, live := s.live - {top},
        alive := s.alive[p := s.alive[p] - {top}]);
      IsRun(s, acts) && After(s, acts) == After(t, rest) && (Recomputes(t, rest, p) ==> Recomputes(s, acts, p))
  {
    var s1 := s.(announcements := multiset{(p, top)});
    assert s.announcements + multiset{(p, top)} == multiset{(p, top)};
    var s2 := s1.(live := s.live - {top});
    OneMore(s2, Suspect(p, top), rest, p);
    OneMore(s1, Crash(top), [Suspect(p, top)] + rest, p);
    OneMore(s, Greet(top, p), [Crash(top)] + ([Suspect(p, top)] + rest), p);
    acts := [Greet(top, p)] + ([Crash(top)] + ([Suspect(p, top)] + rest));
  }

  /** An undisturbed recomputation that changes the leader, and what follows it. */
  lemma RecomputationRuns(s: Net, p: string, x: string, rest: seq<Act>)
    requires p in s.live && p in s.alive && p in s.leader && IsTop(s.config, s.alive[p], x) && s.leader[p] != x
    requires s.tasks == multiset{} && IsRun(s.(leader := s.leader[p := x]), rest)
    ensures
      var acts := [Pick(p, x), Compare(p, x), Write(p, x)] + rest;
      IsRun(s, acts) && Recomputes(s, acts, p) && After(s, acts) == After(s.(leader := s.leader[p := x]), rest)
  {
    var s1 := s.(tasks := multiset{Task(p, x, false)});
    var s2 := s.(tasks := multiset{Task(p, x, true)});
    RecomputationSteps(s, p, x);
    OneMore(s2, Write(p, x), rest, p);
    OneMore(s1, Compare(p, x), [Write(p, x)] + rest, p);
    OneMore(s, Pick(p, x), [Compare(p, x)] + ([Write(p, x)] + rest), p);
    assert [Pick(p, x)] + ([Compare(p, x)] + ([Write(p, x)] + rest)) == [Pick(p, x), Compare(p, x), Write(p, x)] + rest;
  }

  lemma RecomputationSteps(s: Net, p: string, x: string)
    requires p in s.live && p in s.alive && p in s.leader && IsTop(s.config, s.alive[p], x) && s.leader[p] != x
    requires s.tasks == multiset{}
    ensures
      var s1 := s.(tasks := multiset{Task(p, x, false)});
      var s2 := s.(tasks := multiset{Task(p, x, true)});
      && Enabled(s, Pick(p, x)) && Do(s, Pick(p, x)) == s1
      && Enabled(s1, Compare(p, x)) && Do(s1, Compare(p, x)) == s2
      && Enabled(s2, Write(p, x)) && Do(s2, Write(p, x)) == s.(leader := s.leader[p := x])
  {
    var s1 := s.(tasks := multiset{Task(p, x, false)});
    var s2 := s.(tasks := multiset{Task(p, x, true)});
    assert HasTask(s1, Task(p, x, false)) && HasTask(s2, Task(p, x, true));
    assert s.tasks + multiset{Task(p, x, false)} == s1.tasks;
    assert s1.tasks - multiset{Task(p, x, false)} + multiset{Task(p, x, true)} == s2.tasks;
    assert s2.tasks - multiset{Task(p, x, true)} == s.tasks;
  }

  lemma OneMore(s: Net, a: Act, rest: seq<Act>, p: string)
    requires Enabled(s, a) && IsRun(Do(s, a), rest)
    ensures IsRun(s, [a] + rest) && After(s, [a] + rest) == After(Do(s, a), rest)
    ensures Recomputes(s, [a] + rest, p) <==> Completes(s, a, p) || Recomputes(Do(s, a), rest, p)
  {
    assert ([a] + rest)[1..] == rest;
  }
}
