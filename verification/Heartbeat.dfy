/** The failure detector of one peer: every ping is resolved once, by its PONG or by its timeout, and
    the peer is declared dead by three timeouts without their PONG and with no accepted PONG between. */
module Heartbeat {

  /** `timers` are the timeout tasks still to fire. */
  datatype Monitor = Monitor(pending: set<nat>, timers: set<nat>, nextKey: nat, missed: nat, declaredDead: bool)

  datatype Event = Ping | Timeout(key: nat) | Pong(key: nat)

  const LIMIT := 3

  const NEW := Monitor({}, {}, 0, 0, false)

  /** A timeout task fires once; a PONG answers a ping that was sent. */
  predicate CanHappen(m: Monitor, e: Event)
  {
    match e
    case Ping => true
    case Timeout(k) => k in m.timers
    case Pong(k) => k < m.nextKey
  }

  function Happen(m: Monitor, e: Event): Monitor
  {
    match e
    case Ping =>
      m.(pending := m.pending + {m.nextKey}, timers := m.timers + {m.nextKey}, nextKey := m.nextKey + 1)
    case Timeout(k) =>
      var fired := m.(timers := m.timers - {k});
      if k !in m.pending then fired
      else
        fired.(pending := m.pending - {k}, missed := m.missed + 1,
               declaredDead := m.declaredDead || m.missed + 1 == LIMIT)
    case Pong(k) =>
      if k !in m.pending then m
      else m.(pending := m.pending - {k}, missed := 0)
  }

  function Run(events: seq<Event>): Monitor
  {
    if events == [] then NEW else Happen(Run(events[..|events| - 1]), events[|events| - 1])
  }

  predicate IsTrace(events: seq<Event>)
  {
    events == [] ||
    (IsTrace(events[..|events| - 1]) && CanHappen(Run(events[..|events| - 1]), events[|events| - 1]))
  }

  // ---------- what the events alone say ----------

  predicate Before(events: seq<Event>, i: nat, e: Event)
    requires i <= |events|
  {
    exists j :: 0 <= j < i && events[j] == e
  }

  /** A timeout that its PONG did not beat. */
  predicate MissedAt(events: seq<Event>, i: nat)
    requires i < |events|
  {
    events[i].Timeout? && !Before(events, i, Pong(events[i].key))
  }

  /** The first PONG of its ping, and in time. */
  predicate AcceptedAt(events: seq<Event>, i: nat)
    requires i < |events|
  {
    events[i].Pong? && !Before(events, i, Pong(events[i].key)) && !Before(events, i, Timeout(events[i].key))
  }

  predicate AcceptedBetween(events: seq<Event>, from: nat, to: nat)
    requires to <= |events|
  {
    exists j :: from < j < to && AcceptedAt(events, j)
  }

  /** The misses since the last accepted PONG. */
  ghost function RecentMisses(events: seq<Event>): set<nat>
  {
    set i | 0 <= i < |events| && MissedAt(events, i) && !AcceptedBetween(events, i, |events|)
  }

  ghost predicate Fatal(events: seq<Event>, a: nat, b: nat, c: nat)
  {
    && a < b < c < |events|
    && MissedAt(events, a) && MissedAt(events, b) && MissedAt(events, c)
    && !AcceptedBetween(events, a, c)
  }

  ghost predicate ThreeMisses(events: seq<Event>)
  {
    exists a: nat, b: nat, c: nat :: Fatal(events, a, b, c)
  }

  // ---------- that the monitor agrees ----------

  ghost predicate Exact(events: seq<Event>, m: Monitor)
  {
    && (forall k: nat {:trigger k in m.pending} ::
          k in m.pending
          <==> k < m.nextKey && !Before(events, |events|, Timeout(k)) && !Before(events, |events|, Pong(k)))
    && (forall k: nat {:trigger k in m.timers} :: k in m.timers
          <==> k < m.nextKey && !Before(events, |events|, Timeout(k)))
    && (forall i {:trigger events[i]} :: 0 <= i < |events| && !events[i].Ping? ==> events[i].key < m.nextKey)
    && m.missed == |RecentMisses(events)|
    && (m.declaredDead <==> ThreeMisses(events))
  }

  /** One more event changes nothing about the earlier ones. */
  lemma EarlierSame(events: seq<Event>, e: Event, i: nat)
    requires i < |events|
    ensures MissedAt(events + [e], i) <==> MissedAt(events, i)
    ensures AcceptedAt(events + [e], i) <==> AcceptedAt(events, i)
  {
    assert forall j :: 0 <= j < i ==> (events + [e])[j] == events[j];
    forall f
      ensures Before(events + [e], i, f) <==> Before(events, i, f)
    {
      if j :| 0 <= j < i && events[j] == f { assert (events + [e])[j] == f; }
    }
  }

  lemma BetweenSame(events: seq<Event>, e: Event, i: nat)
    requires i < |events|
    ensures AcceptedBetween(events + [e], i, |events|) <==> AcceptedBetween(events, i, |events|)
    ensures AcceptedBetween(events + [e], i, |events| + 1)
            <==> AcceptedBetween(events, i, |events|) || AcceptedAt(events + [e], |events|)
  {
    forall j | i < j < |events|
      ensures AcceptedAt(events + [e], j) <==> AcceptedAt(events, j)
    {
      EarlierSame(events, e, j);
    }
    if j :| i < j < |events| && AcceptedAt(events, j) {
      assert AcceptedAt(events + [e], j);
    }
  }

  lemma LastSame(events: seq<Event>, e: Event)
    ensures MissedAt(events + [e], |events|) <==> e.Timeout? && !Before(events, |events|, Pong(e.key))
    ensures AcceptedAt(events + [e], |events|)
            <==> e.Pong? && !Before(events, |events|, Pong(e.key)) && !Before(events, |events|, Timeout(e.key))
    ensures forall f {:trigger Before(events, |events|, f)} ::
              Before(events + [e], |events| + 1, f) <==> f == e || Before(events, |events|, f)
  {
    forall f
      ensures Before(events + [e], |events|, f) <==> Before(events, |events|, f)
      ensures Before(events + [e], |events| + 1, f) <==> f == e || Before(events, |events|, f)
    {
      assert (events + [e])[|events|] == e;
      if j :| 0 <= j < |events| && events[j] == f { assert (events + [e])[j] == f; }
    }
  }

  lemma RecentStep(events: seq<Event>, e: Event)
    ensures RecentMisses(events + [e])
            == (if AcceptedAt(events + [e], |events|) then {}
                else if MissedAt(events + [e], |events|) then RecentMisses(events) + {|events|}
                else RecentMisses(events))
  {
    forall i: nat
      ensures i in RecentMisses(events + [e]) <==>
        (!AcceptedAt(events + [e], |events|) && i in RecentMisses(events))
          || (i == |events| && MissedAt(events + [e], |events|))
    {
      if i < |events| {
        EarlierSame(events, e, i);
        BetweenSame(events, e, i);
      }
    }
  }

  lemma SizeOfThree(s: set<nat>, a: nat, b: nat, c: nat)
    requires {a, b, c} <= s && a != b && b != c && a != c
    ensures |s| >= 3
  {
    assert s == (s - {a, b, c}) + {a, b, c};
    assert |{a, b, c}| == 3;
  }

  lemma TwoBelow(s: set<nat>, c: nat) returns (a: nat, b: nat)
    requires c in s && |s| >= 3 && forall i :: i in s ==> i <= c
    ensures a in s && b in s && a < b < c
  {
    var rest := s - {c};
    assert |rest| >= 2;
    a :| a in rest;
    assert |rest - {a}| >= 1;
    b :| b in rest - {a};
    if b < a { a, b := b, a; }
  }

  /** Three misses since the last accepted PONG are fatal. */
  lemma RecentAreFatal(events: seq<Event>, c: nat)
    requires c in RecentMisses(events) && |RecentMisses(events)| >= 3
    requires forall i :: i in RecentMisses(events) ==> i <= c
    ensures ThreeMisses(events)
  {
    var a, b := TwoBelow(RecentMisses(events), c);
    assert Fatal(events, a, b, c);
  }

  lemma {:induction false} Largest(s: set<nat>) returns (c: nat)
    requires s != {}
    ensures c in s && forall i :: i in s ==> i <= c
  {
    var x :| x in s;
    assert s == (s - {x}) + {x};
    if s - {x} == {} {
      c := x;
    } else {
      c := Largest(s - {x});
      if c < x { c := x; }
    }
  }

  /** A new event makes three misses fatal exactly when it is itself at least the third recent one. */
  lemma FatalStep(events: seq<Event>, e: Event)
    ensures ThreeMisses(events + [e]) <==>
      ThreeMisses(events) || (MissedAt(events + [e], |events|) && |RecentMisses(events + [e])| >= 3)
  {
    var longer := events + [e];
    if a: nat, b: nat, c: nat :| Fatal(events, a, b, c) {
      FatalSame(events, e, a, b, c);
    }
    if a: nat, b: nat, c: nat :| Fatal(longer, a, b, c) {
      if c < |events| {
        FatalSame(events, e, a, b, c);
      } else {
        RecentOfFatal(longer, a, b);
      }
    }
    if MissedAt(longer, |events|) && |RecentMisses(longer)| >= 3 {
      RecentStep(events, e);
      RecentAreFatal(longer, |events|);
    }
  }

  lemma FatalSame(events: seq<Event>, e: Event, a: nat, b: nat, c: nat)
    requires a < b < c < |events|
    ensures Fatal(events + [e], a, b, c) <==> Fatal(events, a, b, c)
  {
    EarlierSame(events, e, a);
    EarlierSame(events, e, b);
    EarlierSame(events, e, c);
    forall j | a < j < c
      ensures AcceptedAt(events + [e], j) <==> AcceptedAt(events, j)
    {
      EarlierSame(events, e, j);
    }
  }

  lemma RecentOfFatal(events: seq<Event>, a: nat, b: nat)
    requires events != [] && Fatal(events, a, b, |events| - 1)
    ensures |RecentMisses(events)| >= 3
  {
    var c: nat := |events| - 1;
    assert !AcceptedAt(events, c);
    assert !AcceptedBetween(events, a, |events|) && !AcceptedBetween(events, b, |events|)
      && !AcceptedBetween(events, c, |events|);
    SizeOfThree(RecentMisses(events), a, b, c);
  }

  lemma ExactStep(events: seq<Event>, m: Monitor, e: Event)
    requires Exact(events, m) && CanHappen(m, e)
    ensures Exact(events + [e], Happen(m, e))
  {
    LastSame(events, e);
    RecentStep(events, e);
    FatalStep(events, e);
    KeysStep(events, m, e);
    if MissedAt(events + [e], |events|) && |RecentMisses(events)| >= 3 {
      var c := Largest(RecentMisses(events));
      RecentAreFatal(events, c);
    }
  }

  lemma KeysStep(events: seq<Event>, m: Monitor, e: Event)
    requires Exact(events, m) && CanHappen(m, e)
    ensures
      var longer, m' := events + [e], Happen(m, e);
      && (forall k: nat {:trigger k in m'.pending} ::
            k in m'.pending
            <==> k < m'.nextKey && !Before(longer, |longer|, Timeout(k)) && !Before(longer, |longer|, Pong(k)))
      && (forall k: nat {:trigger k in m'.timers} :: k in m'.timers
            <==> k < m'.nextKey && !Before(longer, |longer|, Timeout(k)))
      && (forall i {:trigger longer[i]} :: 0 <= i < |longer| && !longer[i].Ping? ==> longer[i].key < m'.nextKey)
  {
    var longer, m' := events + [e], Happen(m, e);
    LastSame(events, e);
    forall k: nat
      ensures k in m'.pending
          <==> k < m'.nextKey && !Before(longer, |longer|, Timeout(k)) && !Before(longer, |longer|, Pong(k))
      ensures k in m'.timers <==> k < m'.nextKey && !Before(longer, |longer|, Timeout(k))
    {
      assert Before(longer, |longer|, Timeout(k)) <==> e == Timeout(k) || Before(events, |events|, Timeout(k));
      assert Before(longer, |longer|, Pong(k)) <==> e == Pong(k) || Before(events, |events|, Pong(k));
      assert k in m.pending
        <==> k < m.nextKey && !Before(events, |events|, Timeout(k)) && !Before(events, |events|, Pong(k));
      assert k in m.timers <==> k < m.nextKey && !Before(events, |events|, Timeout(k));
    }
    forall i | 0 <= i < |longer| && !longer[i].Ping?
      ensures longer[i].key < m'.nextKey
    {
      if i < |events| { assert events[i] == longer[i]; }
    }
  }

  lemma NothingIsExact()
    ensures Exact([], NEW)
  {
    assert RecentMisses([]) == {};
  }

  lemma {:induction false} TraceIsExact(events: seq<Event>)
    requires IsTrace(events)
    ensures Exact(events, Run(events))
  {
    if events == [] {
      NothingIsExact();
    } else {
      var front, e := events[..|events| - 1], events[|events| - 1];
      assert events == front + [e];
      TraceIsExact(front);
      ExactStep(front, Run(front), e);
    }
  }

  lemma {:induction false} TimeoutsDiffer(events: seq<Event>, i: nat, j: nat)
    requires IsTrace(events) && i < j < |events| && events[i].Timeout? && events[j].Timeout?
    ensures events[i].key != events[j].key
  {
    var front := events[..|events| - 1];
    if j < |events| - 1 {
      TimeoutsDiffer(front, i, j);
    } else {
      TraceIsExact(front);
      assert front[i] == events[i];
    }
  }

  /** The ping was resolved here. */
  predicate ResolvesAt(events: seq<Event>, i: nat)
    requires i < |events|
  {
    MissedAt(events, i) || AcceptedAt(events, i)
  }

  /** In every interleaving of pings, timeouts and PONGs: no ping is resolved twice; the counter is the
      number of timeouts that their PONG did not beat since the last PONG that came first and in time;
      and the peer is declared dead if and only if there are three such timeouts with no such PONG
      between the first and the third, hence never when each PONG beats its timeout. */
  lemma HeartbeatIsExact(events: seq<Event>)
    requires IsTrace(events)
    ensures Run(events).missed == |RecentMisses(events)|
    ensures Run(events).declaredDead <==> ThreeMisses(events)
    ensures forall i, j :: 0 <= i < j < |events| && ResolvesAt(events, i) && ResolvesAt(events, j) ==>
      events[i].key != events[j].key
    ensures (forall i :: 0 <= i < |events| && events[i].Timeout? ==> Before(events, i, Pong(events[i].key))) ==>
      !Run(events).declaredDead
  {
    TraceIsExact(events);
    forall i, j | 0 <= i < j < |events| && ResolvesAt(events, i) && ResolvesAt(events, j)
      ensures events[i].key != events[j].key
    {
      if events[i].Timeout? && events[j].Timeout? { TimeoutsDiffer(events, i, j); }
      assert Before(events, j, events[i]);
    }
  }

  /** A ping waits until its PONG or its timeout; a PONG after either changes nothing. */
  lemma LatePongIgnored(events: seq<Event>, k: nat)
    requires IsTrace(events)
    ensures
      var m := Run(events);
      var resolved := Before(events, |events|, Timeout(k)) || Before(events, |events|, Pong(k));
      && (k in m.pending <==> k < m.nextKey && !resolved)
      && (resolved ==> Happen(m, Pong(k)) == m)
  {
    TraceIsExact(events);
  }

  /** The shared counter and set of the ping task, with the events as its operations. */
  class HeartbeatState {
    var missedHeartbeats: nat
    var pendingHeartbeats: set<nat>
    var timers: set<nat>
    var key: nat
    var peerDied: bool

    function View(): Monitor
      reads this
    {
      Monitor(pendingHeartbeats, timers, key, missedHeartbeats, peerDied)
    }

    constructor ()
      ensures View() == NEW
    {
      missedHeartbeats, pendingHeartbeats, timers, key, peerDied := 0, {}, {}, 0, false;
    }

    method SendPing() returns (curKey: nat)
      modifies this
      ensures View() == Happen(old(View()), Ping) && curKey == old(key)
    {
      curKey := key;
      key := key + 1;
      pendingHeartbeats := pendingHeartbeats + {curKey};
      timers := timers + {curKey};
    }

    method OnTimeout(curKey: nat)
      requires CanHappen(View(), Timeout(curKey))
      modifies this
      ensures View() == Happen(old(View()), Timeout(curKey))
    {
      timers := timers - {curKey};
      if curKey in pendingHeartbeats {
        pendingHeartbeats := pendingHeartbeats - {curKey};
        missedHeartbeats := missedHeartbeats + 1;
        if missedHeartbeats == LIMIT {
          peerDied := true;
        }
      }
    }

    method OnPong(curKey: nat)
      modifies this
      ensures View() == Happen(old(View()), Pong(curKey))
    {
      if curKey in pendingHeartbeats {
        pendingHeartbeats := pendingHeartbeats - {curKey};
        missedHeartbeats := 0;
      }
    }
  }
}
