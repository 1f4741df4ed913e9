/** One connection between two servers: numbered requests, the callback table, the single sending
    task and the tasks that declare the peer dead and drain the table. */
module PeerLink {

  import opened Prelude

  /** The part of the peer's state that the lock protects. Callbacks are known by a number. */
  datatype Peer = Peer(alive: bool, sequence: nat, table: map<nat, nat>)

  /** What a callback is completed with: the response, or the news that none will come. */
  datatype Outcome = Value(result: string) | Gone

  datatype Item =
    | Request(body: string, callback: Option<nat>)
    | Response(number: nat, result: string)

  datatype Line =
    | RequestLine(number: nat, body: string)
    | ResponseLine(number: nat, result: string)

  /** First lock section of the sending task: only requests take a number. */
  function Register(p: Peer, item: Item): (Peer, Line)
  {
    match item
    case Response(n, r) => (p, ResponseLine(n, r))
    case Request(body, callback) =>
      var n := p.sequence + 1;
      var table := if callback.Some? then p.table[n := callback.value] else p.table;
      (p.(sequence := n, table := table), RequestLine(n, body))
  }

  function Drain(p: Peer): Peer
  {
    p.(table := map[])
  }

  function Remove(p: Peer, n: nat): Peer
  {
    p.(table := p.table - {n})
  }

  lemma ValuesWithout(m: map<nat, nat>, n: nat)
    requires n in m
    ensures m.Values == (m - {n}).Values + {m[n]}
  {
    forall v | v in m.Values
      ensures v in (m - {n}).Values + {m[n]}
    {
      var k :| k in m && m[k] == v;
      assert k != n ==> k in m - {n} && (m - {n})[k] == v;
    }
  }

  class PeerState {
    var sequenceNum: nat
    var seqToCallback: map<nat, nat>
    var isAlive: bool

    function View(): Peer
      reads this
    {
      Peer(isAlive, sequenceNum, seqToCallback)
    }

    constructor ()
      ensures View() == Peer(true, 0, map[])
    {
      sequenceNum, seqToCallback, isAlive := 0, map[], true;
    }

    method SetAlive(alive: bool)
      modifies this
      ensures View() == old(View()).(alive := alive)
    {
      isAlive := alive;
    }

    method RegisterItem(item: Item) returns (line: Line)
      modifies this
      ensures (View(), line) == Register(old(View()), item)
    {
      match item
      case Response(n, r) =>
        line := ResponseLine(n, r);
      case Request(body, callback) =>
        sequenceNum := sequenceNum + 1;
        if callback.Some? {
          seqToCallback := seqToCallback[sequenceNum := callback.value];
        }
        line := RequestLine(sequenceNum, body);
    }

    /** The callback of a response, if it is still waiting. */
    method Take(number: nat) returns (callback: Option<nat>)
      modifies this
      ensures View() == Remove(old(View()), number)
      ensures callback == if number in old(seqToCallback) then Some(old(seqToCallback)[number]) else None
    {
      callback := None;
      if number in seqToCallback {
        callback := Some(seqToCallback[number]);
      }
      seqToCallback := seqToCallback - {number};
    }

    /** Empties the table and completes each callback in it with None. */
    method DrainCallbacks() returns (gone: set<nat>)
      modifies this
      ensures View() == Drain(old(View()))
      ensures gone == old(seqToCallback).Values
    {
      gone := {};
      while seqToCallback.Keys != {}
        invariant View() == old(View()).(table := seqToCallback)
        invariant seqToCallback.Keys <= old(seqToCallback).Keys
        invariant forall n :: n in seqToCallback ==> seqToCallback[n] == old(seqToCallback)[n]
        invariant gone + seqToCallback.Values == old(seqToCallback).Values
        decreases |seqToCallback.Keys|
      {
        var n :| n in seqToCallback.Keys;
        ghost var before := seqToCallback;
        gone := gone + {seqToCallback[n]};
        seqToCallback := seqToCallback - {n};
        assert seqToCallback.Keys == before.Keys - {n};
        ValuesWithout(before, n);
      }
      assert seqToCallback == map[];
    }
  }

  // ---------- the connection as steps ----------

  datatype SenderPhase =
    | Idle
    | Registered(line: Line)     // numbered and registered, about to read whether the peer is alive
    | Writing(line: Line)
    | Draining

  /** `asked`, `served` and `done` record the past: what each number stands for, what was computed for
      the peer's requests, how callbacks ended. Callbacks are numbered in the order of submission. */
  datatype Endpoint = Endpoint(
    peer: Peer,
    queue: seq<Item>,
    sender: SenderPhase,
    deaths: nat,                             // tasks that have marked the peer dead and not drained yet
    handlers: map<nat, string>,              // requests of the peer being worked on
    wire: seq<Line>,                         // written and not yet read by the peer
    issued: nat,
    asked: map<nat, (Option<nat>, string)>,
    served: map<nat, (string, string)>,
    done: map<nat, Outcome>)

  datatype Step =
    | Submit(body: string, waits: bool)
    | SendNext
    | ReadAlive
    | Write
    | LoseWrite
    | SenderDrains
    | MarkDead
    | DeathDrains
    | Receive
    | Serve(number: nat, result: string)
    | Ignore(number: nat)

  predicate Can(e: Endpoint, f: Endpoint, s: Step)
  {
    match s
    case Submit(_, _) => true
    case SendNext => e.sender.Idle? && e.queue != []
    case ReadAlive => e.sender.Registered?
    case Write => e.sender.Writing?
    case LoseWrite => e.sender.Writing?
    case SenderDrains => e.sender.Draining?
    case MarkDead => true
    case DeathDrains => e.deaths > 0
    case Receive => f.wire != []
    case Serve(n, _) => n in e.handlers
    case Ignore(n) => n in e.handlers
  }

  function AllGone(e: Endpoint): Endpoint
  {
    e.(peer := Drain(e.peer), done := e.done + (map c | c in e.peer.table.Values :: Gone))
  }

  /** A step of endpoint e, whose peer is f. */
  function Next(e: Endpoint, f: Endpoint, s: Step): (Endpoint, Endpoint)
    requires Can(e, f, s)
  {
    match s
    case Submit(body, waits) =>
      if waits then (e.(queue := e.queue + [Request(body, Some(e.issued))], issued := e.issued + 1), f)
      else (e.(queue := e.queue + [Request(body, None)]), f)
    case SendNext =>
      var (peer, line) := Register(e.peer, e.queue[0]);
      var asked := if e.queue[0].Request? then e.asked[line.number := (e.queue[0].callback, e.queue[0].body)]
        else e.asked;
      (e.(peer := peer, asked := asked, queue := e.queue[1..], sender := Registered(line)), f)
    case ReadAlive => (e.(sender := if e.peer.alive then Writing(e.sender.line) else Draining), f)
    case Write => (e.(wire := e.wire + [e.sender.line], sender := Idle), f)
    case LoseWrite => (e.(sender := Idle), f)
    case SenderDrains => (AllGone(e).(sender := Idle), f)
    case MarkDead => (e.(peer := e.peer.(alive := false), deaths := e.deaths + 1), f)
    case DeathDrains => (AllGone(e).(deaths := e.deaths - 1), f)
    case Receive =>
      var f' := f.(wire := f.wire[1..]);
      (match f.wire[0]
       case RequestLine(n, body) => e.(handlers := e.handlers[n := body])
       case ResponseLine(n, r) =>
         if n in e.peer.table then e.(peer := Remove(e.peer, n), done := e.done[e.peer.table[n] := Value(r)]) else e,
       f')
    case Serve(n, result) =>
      (e.(handlers := e.handlers - {n}, served := e.served[n := (e.handlers[n], result)],
          queue := e.queue + [Response(n, result)]), f)
    case Ignore(n) => (e.(handlers := e.handlers - {n}), f)
  }

  const FRESH := Endpoint(Peer(true, 0, map[]), [], Idle, 0, map[], [], 0, map[], map[], map[])

  datatype Link = Link(left: Endpoint, right: Endpoint)

  datatype LinkStep = AtLeft(step: Step) | AtRight(step: Step)

  predicate LinkCan(k: Link, s: LinkStep)
  {
    match s
    case AtLeft(t) => Can(k.left, k.right, t)
    case AtRight(t) => Can(k.right, k.left, t)
  }

  function LinkNext(k: Link, s: LinkStep): Link
    requires LinkCan(k, s)
  {
    match s
    case AtLeft(t) => var (l, r) := Next(k.left, k.right, t); Link(l, r)
    case AtRight(t) => var (r, l) := Next(k.right, k.left, t); Link(l, r)
  }

  predicate IsRun(k: Link, steps: seq<LinkStep>)
    decreases |steps|
  {
    steps == [] || (LinkCan(k, steps[0]) && IsRun(LinkNext(k, steps[0]), steps[1..]))
  }

  function After(k: Link, steps: seq<LinkStep>): Link
    requires IsRun(k, steps)
    decreases |steps|
  {
    if steps == [] then k else After(LinkNext(k, steps[0]), steps[1..])
  }

  // ---------- no waiting request is stranded ----------

  /** Whoever has seen the table filled after the mark still has a drain ahead. */
  predicate DrainAhead(e: Endpoint)
  {
    (e.sender.Idle? || e.sender.Writing?) && e.peer.table != map[] ==> e.peer.alive || e.deaths > 0
  }

  predicate Queued(e: Endpoint, c: nat)
  {
    exists i :: 0 <= i < |e.queue| && e.queue[i].Request? && e.queue[i].callback == Some(c)
  }

  predicate Waiting(e: Endpoint, c: nat)
  {
    c in e.peer.table.Values
  }

  /** Every submitted callback is in exactly one place, and in it only once. */
  ghost predicate Placed(e: Endpoint)
  {
    && (forall c: nat {:trigger Queued(e, c)} :: Queued(e, c) ==> c < e.issued && !Waiting(e, c) && c !in e.done)
    && (forall c: nat {:trigger Waiting(e, c)} :: Waiting(e, c) ==> c < e.issued && c !in e.done)
    && (forall c {:trigger c in e.done} :: c in e.done ==> c < e.issued)
    && (forall c: nat {:trigger Queued(e, c)} {:trigger c in e.done} ::
          c < e.issued ==> Queued(e, c) || Waiting(e, c) || c in e.done)
    && (forall i, j :: 0 <= i < j < |e.queue| && e.queue[i].Request? && e.queue[j].Request? && e.queue[i].callback.Some?
          ==> e.queue[i].callback != e.queue[j].callback)
    && (forall m, n :: m in e.peer.table && n in e.peer.table && e.peer.table[m] == e.peer.table[n] ==> m == n)
    && (forall n :: n in e.peer.table ==> n <= e.peer.sequence)
  }

  lemma PlacedSubmit(e: Endpoint, f: Endpoint, s: Step)
    requires Placed(e) && Can(e, f, s) && (s.Submit? || s.Serve?)
    ensures Placed(Next(e, f, s).0)
  {
    var e' := Next(e, f, s).0;
    forall c: nat
      ensures Queued(e', c) <==> Queued(e, c) || (s.Submit? && s.waits && c == e.issued)
    {
      if Queued(e, c) {
        var i :| 0 <= i < |e.queue| && e.queue[i].Request? && e.queue[i].callback == Some(c);
        assert e'.queue[i] == e.queue[i];
      }
      if s.Submit? && s.waits && c == e.issued {
        assert e'.queue[|e.queue|].callback == Some(c);
      }
    }
    forall i, j | 0 <= i < j < |e'.queue| && e'.queue[i].Request? && e'.queue[j].Request? && e'.queue[i].callback.Some?
      ensures e'.queue[i].callback != e'.queue[j].callback
    {
      assert Queued(e, e'.queue[i].callback.value);
    }
    assert forall c: nat :: Waiting(e', c) <==> Waiting(e, c);
  }

  lemma PlacedSend(e: Endpoint, f: Endpoint)
    requires Placed(e) && Can(e, f, SendNext)
    ensures Placed(Next(e, f, SendNext).0)
  {
    var e' := Next(e, f, SendNext).0;
    var head := e.queue[0];
    var moved := head.Request? && head.callback.Some?;
    forall c: nat
      ensures Queued(e', c) <==> Queued(e, c) && !(moved && c == head.callback.value)
    {
      if Queued(e, c) {
        var i :| 0 <= i < |e.queue| && e.queue[i].Request? && e.queue[i].callback == Some(c);
        if i > 0 { assert e'.queue[i - 1] == e.queue[i]; }
      }
      if Queued(e', c) {
        var i :| 0 <= i < |e'.queue| && e'.queue[i].Request? && e'.queue[i].callback == Some(c);
        assert e.queue[i + 1] == e'.queue[i];
      }
    }
    forall c: nat
      ensures Waiting(e', c) <==> Waiting(e, c) || (moved && c == head.callback.value)
    {
      var n := e.peer.sequence + 1;
      if Waiting(e, c) {
        var m :| m in e.peer.table && e.peer.table[m] == c;
        assert m in e'.peer.table && e'.peer.table[m] == c;
      }
      if moved && c == head.callback.value {
        assert n in e'.peer.table && e'.peer.table[n] == c;
      }
    }
    assert moved ==> Queued(e, head.callback.value);
    forall m, n | m in e'.peer.table && n in e'.peer.table && e'.peer.table[m] == e'.peer.table[n]
      ensures m == n
    {
      assert m in e.peer.table ==> Waiting(e, e.peer.table[m]);
      assert n in e.peer.table ==> Waiting(e, e.peer.table[n]);
    }
  }

  lemma PlacedGone(e: Endpoint)
    requires Placed(e)
    ensures Placed(AllGone(e))
  {
    var e' := AllGone(e);
    forall c: nat
      ensures Queued(e', c) <==> Queued(e, c)
      ensures c in e'.done <==> c in e.done || Waiting(e, c)
    {
    }
  }

  lemma PlacedReceive(e: Endpoint, f: Endpoint)
    requires Placed(e) && Can(e, f, Receive)
    ensures Placed(Next(e, f, Receive).0)
  {
    var e' := Next(e, f, Receive).0;
    if f.wire[0].ResponseLine? && f.wire[0].number in e.peer.table {
      var n := f.wire[0].number;
      ValuesWithout(e.peer.table, n);
      assert Waiting(e, e.peer.table[n]);
      forall c: nat
        ensures Queued(e', c) <==> Queued(e, c)
        ensures Waiting(e', c) <==> Waiting(e, c) && c != e.peer.table[n]
      {
        if Waiting(e', c) {
          var m :| m in e'.peer.table && e'.peer.table[m] == c;
        }
      }
    } else {
      assert forall c: nat :: (Queued(e', c) <==> Queued(e, c)) && (Waiting(e', c) <==> Waiting(e, c));
    }
  }

  lemma PlacedStep(e: Endpoint, f: Endpoint, s: Step)
    requires Placed(e) && Can(e, f, s)
    ensures Placed(Next(e, f, s).0)
  {
    var e' := Next(e, f, s).0;
    match s
    case Submit(_, _) => PlacedSubmit(e, f, s);
    case Serve(_, _) => PlacedSubmit(e, f, s);
    case SendNext => PlacedSend(e, f);
    case Receive => PlacedReceive(e, f);
    case SenderDrains => PlacedGone(e); PlacedFrame(AllGone(e), e');
    case DeathDrains => PlacedGone(e); PlacedFrame(AllGone(e), e');
    case _ => PlacedFrame(e, e');
  }

  lemma PlacedFrame(e: Endpoint, e': Endpoint)
    requires Placed(e)
    requires e'.queue == e.queue && e'.peer.table == e.peer.table && e'.peer.sequence == e.peer.sequence
    requires e'.done == e.done && e'.issued == e.issued
    ensures Placed(e')
  {
    assert forall c: nat :: (Queued(e', c) <==> Queued(e, c)) && (Waiting(e', c) <==> Waiting(e, c));
  }

  lemma DrainStep(e: Endpoint, f: Endpoint, s: Step)
    requires DrainAhead(e) && Can(e, f, s)
    ensures DrainAhead(Next(e, f, s).0)
  {
  }

  // ---------- responses reach the request they answer ----------

  /** The lines that e has composed and that its peer has not read. */
  function Outgoing(e: Endpoint): seq<Line>
  {
    e.wire + (if e.sender.Registered? || e.sender.Writing? then [e.sender.line] else [])
  }

  predicate AskedFor(e: Endpoint, n: nat, body: string)
  {
    n in e.asked && e.asked[n].1 == body
  }

  /** A line of e on its way to f: a request that f has not seen, or the result of a request of f. */
  predicate LineOk(e: Endpoint, f: Endpoint, line: Line)
  {
    match line
    case RequestLine(n, body) => AskedFor(e, n, body) && n !in f.handlers && n !in f.served
    case ResponseLine(n, r) => n in e.served && e.served[n].1 == r
  }

  predicate ItemOk(e: Endpoint, item: Item)
  {
    item.Response? ==> item.number in e.served && e.served[item.number].1 == item.result
  }

  ghost predicate Lines(e: Endpoint, f: Endpoint)
  {
    var out := Outgoing(e);
    && (forall i :: 0 <= i < |out| ==> LineOk(e, f, out[i]))
    && (forall i, j :: 0 <= i < j < |out| && out[i].RequestLine? && out[j].RequestLine? ==>
          out[i].number < out[j].number)
    && (forall i :: 0 <= i < |e.queue| ==> ItemOk(e, e.queue[i]))
  }

  /** The callback was completed with the result that f computed for the request it was sent with. */
  predicate AnsweredFor(e: Endpoint, f: Endpoint, c: nat, r: string, n: nat)
  {
    && n in e.asked && e.asked[n].0 == Some(c)
    && n in f.served && f.served[n] == (e.asked[n].1, r)
  }

  /** The numbers of e: given once, registered under the callback they were given for, worked on and
      served by f under the body they were given for. */
  ghost predicate Numbers(e: Endpoint, f: Endpoint)
  {
    && (forall n {:trigger n in e.asked} :: n in e.asked ==> n <= e.peer.sequence)
    && (forall n {:trigger n in e.peer.table} :: n in e.peer.table ==>
          n in e.asked && e.asked[n].0 == Some(e.peer.table[n]))
    && (forall n {:trigger n in f.handlers} :: n in f.handlers ==> AskedFor(e, n, f.handlers[n]) && n !in f.served)
    && (forall n {:trigger n in f.served} :: n in f.served ==> AskedFor(e, n, f.served[n].0))
    && (forall c: nat {:trigger c in e.done} :: c in e.done && e.done[c].Value? ==>
          exists n :: AnsweredFor(e, f, c, e.done[c].result, n))
  }

  /** Everything that is true of endpoint e in respect of its peer f. */
  ghost predicate Good(e: Endpoint, f: Endpoint)
  {
    Lines(e, f) && Numbers(e, f)
  }

  /** Composing appends, writing keeps, losing drops the last line; reading by the peer drops the first. */
  lemma OutgoingStep(e: Endpoint, f: Endpoint, s: Step)
    requires Can(e, f, s)
    ensures
      var (e', f') := Next(e, f, s);
      var out, out' := Outgoing(e), Outgoing(e');
      if s.SendNext? then out' == out + [Register(e.peer, e.queue[0]).1]
      else out' == out || (out != [] && out' == out[..|out| - 1])
    ensures
      var (e', f') := Next(e, f, s);
      Outgoing(f') == if s.Receive? then Outgoing(f)[1..] else Outgoing(f)
  {
  }

  lemma ServedStays(e: Endpoint, f: Endpoint, s: Step)
    requires Good(f, e) && Can(e, f, s)
    ensures forall n :: n in e.served ==> n in Next(e, f, s).0.served && Next(e, f, s).0.served[n] == e.served[n]
  {
  }

  lemma QueueStep(e: Endpoint, f: Endpoint, s: Step)
    requires Good(e, f) && Good(f, e) && Can(e, f, s)
    ensures
      var e' := Next(e, f, s).0;
      forall i :: 0 <= i < |e'.queue| ==> ItemOk(e', e'.queue[i])
    ensures forall n :: n in e.served ==> n in Next(e, f, s).0.served && Next(e, f, s).0.served[n] == e.served[n]
  {
    var e' := Next(e, f, s).0;
    ServedStays(e, f, s);
    forall i | 0 <= i < |e'.queue|
      ensures ItemOk(e', e'.queue[i])
    {
      QueuedItem(e, f, s, i);
    }
  }

  lemma QueuedItem(e: Endpoint, f: Endpoint, s: Step, i: nat)
    requires Can(e, f, s) && i < |Next(e, f, s).0.queue|
    requires forall j :: 0 <= j < |e.queue| ==> ItemOk(e, e.queue[j])
    requires forall n :: n in e.served ==> n in Next(e, f, s).0.served && Next(e, f, s).0.served[n] == e.served[n]
    ensures ItemOk(Next(e, f, s).0, Next(e, f, s).0.queue[i])
  {
    if s.SendNext? {
      assert ItemOk(e, e.queue[i + 1]);
    } else if i < |e.queue| {
      assert ItemOk(e, e.queue[i]);
    }
  }

  lemma LinesStep(e: Endpoint, f: Endpoint, s: Step)
    requires Good(e, f) && Good(f, e) && Can(e, f, s)
    ensures Lines(Next(e, f, s).0, Next(e, f, s).1)
  {
    var (e', f') := Next(e, f, s);
    var out, out' := Outgoing(e), Outgoing(e');
    OutgoingStep(e, f, s);
    QueueStep(e, f, s);
    if s.SendNext? {
      NewLineOk(e, f);
    }
    forall i | 0 <= i < |out'|
      ensures LineOk(e', f', out'[i])
    {
      if i < |out| {
        assert LineOk(e, f, out[i]) && out'[i] == out[i];
        KeptLine(e, f, s, out[i]);
      }
    }
    forall i, j | 0 <= i < j < |out'| && out'[i].RequestLine? && out'[j].RequestLine?
      ensures out'[i].number < out'[j].number
    {
      assert out'[i] == out[i] && LineOk(e, f, out[i]);
    }
  }

  lemma KeptLine(e: Endpoint, f: Endpoint, s: Step, line: Line)
    requires Good(e, f) && Good(f, e) && Can(e, f, s) && LineOk(e, f, line)
    ensures LineOk(Next(e, f, s).0, Next(e, f, s).1, line)
  {
  }

  lemma NewLineOk(e: Endpoint, f: Endpoint)
    requires Good(e, f) && Can(e, f, SendNext)
    ensures
      var (e', f') := Next(e, f, SendNext);
      var line := Register(e.peer, e.queue[0]).1;
      LineOk(e', f', line) && (line.RequestLine? ==> line.number > e.peer.sequence)
  {
    assert ItemOk(e, e.queue[0]);
  }

  lemma PeerLineKept(e: Endpoint, f: Endpoint, s: Step, line: Line)
    requires Can(e, f, s) && LineOk(f, e, line)
    requires s.Receive? && f.wire[0].RequestLine? && line.RequestLine? ==> f.wire[0].number < line.number
    ensures LineOk(Next(e, f, s).1, Next(e, f, s).0, line)
  {
  }

  /** The peer's unread lines, less the one that is read. */
  lemma PeerOutgoing(e: Endpoint, f: Endpoint, s: Step, i: nat)
    requires Good(e, f) && Good(f, e) && Can(e, f, s) && i < |Outgoing(Next(e, f, s).1)|
    ensures
      var k := if s.Receive? then i + 1 else i;
      && k < |Outgoing(f)| && Outgoing(Next(e, f, s).1)[i] == Outgoing(f)[k]
      && LineOk(Next(e, f, s).1, Next(e, f, s).0, Outgoing(f)[k])
  {
    var out := Outgoing(f);
    var k := if s.Receive? then i + 1 else i;
    OutgoingStep(e, f, s);
    assert LineOk(f, e, out[k]);
    if s.Receive? { assert out[0] == f.wire[0]; }
    PeerLineKept(e, f, s, out[k]);
  }

  lemma PeerLinesStep(e: Endpoint, f: Endpoint, s: Step)
    requires Good(e, f) && Good(f, e) && Can(e, f, s)
    ensures Lines(Next(e, f, s).1, Next(e, f, s).0)
  {
    var (e', f') := Next(e, f, s);
    var out' := Outgoing(f');
    forall i | 0 <= i < |out'|
      ensures LineOk(f', e', out'[i])
    {
      PeerOutgoing(e, f, s, i);
    }
    forall i, j | 0 <= i < j < |out'| && out'[i].RequestLine? && out'[j].RequestLine?
      ensures out'[i].number < out'[j].number
    {
      PeerOutgoing(e, f, s, i);
      PeerOutgoing(e, f, s, j);
    }
    PeerFrame(e, f, s);
    assert forall i :: 0 <= i < |f.queue| ==> ItemOk(f, f.queue[i]) && ItemOk(f', f.queue[i]);
  }

  /** Nothing that Numbers reads has changed, except that callbacks may have been told that no answer comes. */
  lemma NumbersFrame(e: Endpoint, f: Endpoint, e': Endpoint, f': Endpoint)
    requires Numbers(e, f)
    requires e'.asked == e.asked && e'.peer.sequence == e.peer.sequence
    requires e'.peer.table == e.peer.table || e'.peer.table == map[]
    requires f'.handlers == f.handlers && f'.served == f.served
    requires forall c {:trigger c in e'.done} :: c in e'.done && e'.done[c].Value? ==>
      c in e.done && e'.done[c] == e.done[c]
    ensures Numbers(e', f')
  {
    forall c: nat | c in e'.done && e'.done[c].Value?
      ensures exists n :: AnsweredFor(e', f', c, e'.done[c].result, n)
    {
      var n :| AnsweredFor(e, f, c, e.done[c].result, n);
      assert AnsweredFor(e', f', c, e'.done[c].result, n);
    }
  }

  lemma NumbersSend(e: Endpoint, f: Endpoint)
    requires Good(e, f) && Can(e, f, SendNext)
    ensures Numbers(Next(e, f, SendNext).0, f)
  {
    var e' := Next(e, f, SendNext).0;
    forall c: nat | c in e'.done && e'.done[c].Value?
      ensures exists n :: AnsweredFor(e', f, c, e'.done[c].result, n)
    {
      var n :| AnsweredFor(e, f, c, e.done[c].result, n);
      assert AnsweredFor(e', f, c, e'.done[c].result, n);
    }
  }

  lemma NumbersReceive(e: Endpoint, f: Endpoint)
    requires Good(e, f) && Good(f, e) && Can(e, f, Receive)
    ensures Numbers(Next(e, f, Receive).0, Next(e, f, Receive).1)
  {
    var (e', f') := Next(e, f, Receive);
    assert Outgoing(f)[0] == f.wire[0] && LineOk(f, e, f.wire[0]);
    forall c: nat | c in e'.done && e'.done[c].Value?
      ensures exists n :: AnsweredFor(e', f', c, e'.done[c].result, n)
    {
      if c in e.done && e'.done[c] == e.done[c] {
        var n :| AnsweredFor(e, f, c, e.done[c].result, n);
        assert AnsweredFor(e', f', c, e'.done[c].result, n);
      } else {
        assert AnsweredFor(e', f', c, e'.done[c].result, f.wire[0].number);
      }
    }
  }

  lemma NumbersStep(e: Endpoint, f: Endpoint, s: Step)
    requires Good(e, f) && Good(f, e) && Can(e, f, s)
    ensures Numbers(Next(e, f, s).0, Next(e, f, s).1)
  {
    if s.SendNext? {
      NumbersSend(e, f);
    } else if s.Receive? {
      NumbersReceive(e, f);
    } else {
      NumbersFrame(e, f, Next(e, f, s).0, Next(e, f, s).1);
    }
  }

  /** The peer's requests at e: picked up, answered or dropped. */
  lemma NumbersServed(f: Endpoint, e: Endpoint, f': Endpoint, e': Endpoint)
    requires Numbers(f, e)
    requires f'.asked == f.asked && f'.peer == f.peer && f'.done == f.done
    requires forall n {:trigger n in e'.handlers} :: n in e'.handlers ==>
      AskedFor(f, n, e'.handlers[n]) && n !in e'.served
    requires forall n {:trigger n in e.served} :: n in e.served ==> n in e'.served && e'.served[n] == e.served[n]
    requires forall n {:trigger n in e'.served} :: n in e'.served ==> AskedFor(f, n, e'.served[n].0)
    ensures Numbers(f', e')
  {
    forall c: nat | c in f'.done && f'.done[c].Value?
      ensures exists n :: AnsweredFor(f', e', c, f'.done[c].result, n)
    {
      var n :| AnsweredFor(f, e, c, f.done[c].result, n);
      assert AnsweredFor(f', e', c, f'.done[c].result, n);
    }
  }

  lemma PeerNumbersStep(e: Endpoint, f: Endpoint, s: Step)
    requires Good(e, f) && Good(f, e) && Can(e, f, s)
    ensures Numbers(Next(e, f, s).1, Next(e, f, s).0)
  {
    var (e', f') := Next(e, f, s);
    if s.Receive? { assert Outgoing(f)[0] == f.wire[0] && LineOk(f, e, f.wire[0]); }
    NumbersServed(f, e, f', e');
  }

  ghost predicate LinkInv(k: Link)
  {
    && Good(k.left, k.right) && Good(k.right, k.left)
    && Placed(k.left) && Placed(k.right)
    && DrainAhead(k.left) && DrainAhead(k.right)
  }

  lemma EndStep(e: Endpoint, f: Endpoint, s: Step)
    requires Good(e, f) && Good(f, e) && Placed(e) && Placed(f) && DrainAhead(e) && DrainAhead(f) && Can(e, f, s)
    ensures
      var (e', f') := Next(e, f, s);
      Good(e', f') && Good(f', e') && Placed(e') && Placed(f') && DrainAhead(e') && DrainAhead(f')
  {
    var (e', f') := Next(e, f, s);
    LinesStep(e, f, s);
    PeerLinesStep(e, f, s);
    NumbersStep(e, f, s);
    PeerNumbersStep(e, f, s);
    PlacedStep(e, f, s);
    PeerFrame(e, f, s);
    PlacedFrame(f, f');
    DrainStep(e, f, s);
  }

  /** A step of e touches nothing of its peer but the bytes it reads. */
  lemma PeerFrame(e: Endpoint, f: Endpoint, s: Step)
    requires Can(e, f, s)
    ensures Next(e, f, s).1 == f.(wire := Next(e, f, s).1.wire)
  {
  }

  lemma {:induction false} RunKeeps(k: Link, steps: seq<LinkStep>)
    requires LinkInv(k) && IsRun(k, steps)
    ensures LinkInv(After(k, steps))
    decreases |steps|
  {
    if steps != [] {
      match steps[0] {
        case AtLeft(s) => EndStep(k.left, k.right, s);
        case AtRight(s) => EndStep(k.right, k.left, s);
      }
      RunKeeps(LinkNext(k, steps[0]), steps[1..]);
    }
  }

  /** No task of this end has anything left to do, and the peer has been declared dead. */
  predicate DeadAndQuiet(e: Endpoint)
  {
    !e.peer.alive && e.deaths == 0 && e.sender.Idle? && e.queue == []
  }

  /** Every callback submitted so far is queued, waiting or completed, and only one of these; none is
      left once the peer is declared dead and the tasks have come to rest. */
  ghost predicate NoneStranded(e: Endpoint)
  {
    && (forall c: nat :: c < e.issued <==> Queued(e, c) || Waiting(e, c) || c in e.done)
    && (forall c: nat :: !(Queued(e, c) && Waiting(e, c)) && !(Queued(e, c) && c in e.done)
          && !(Waiting(e, c) && c in e.done))
    && (DeadAndQuiet(e) ==> e.peer.table == map[] && forall c: nat :: c < e.issued ==> c in e.done)
  }

  lemma QuietIsEmpty(e: Endpoint)
    requires Placed(e) && DrainAhead(e)
    ensures NoneStranded(e)
  {
    assert DeadAndQuiet(e) ==> forall c: nat :: !Queued(e, c) && !Waiting(e, c);
  }

  /** No waiting request is stranded: for every interleaving of the sending task, of any number of
      death tasks, of incoming responses and of both ends, once the peer is declared dead and the
      tasks have come to rest the table is empty, and every callback ever submitted has been completed. */
  lemma NoRequestStranded(steps: seq<LinkStep>)
    requires IsRun(Link(FRESH, FRESH), steps)
    ensures NoneStranded(After(Link(FRESH, FRESH), steps).left) && NoneStranded(After(Link(FRESH, FRESH), steps).right)
  {
    assert LinkInv(Link(FRESH, FRESH));
    RunKeeps(Link(FRESH, FRESH), steps);
    QuietIsEmpty(After(Link(FRESH, FRESH), steps).left);
    QuietIsEmpty(After(Link(FRESH, FRESH), steps).right);
  }

  /** What a callback has been completed with stays. */
  predicate DoneStays(e: Endpoint, e': Endpoint, c: nat)
  {
    c in e.done ==> c in e'.done && e'.done[c] == e.done[c]
  }

  lemma EndKeepsDone(e: Endpoint, f: Endpoint, s: Step, c: nat)
    requires Placed(e) && Can(e, f, s)
    ensures DoneStays(e, Next(e, f, s).0, c) && DoneStays(f, Next(e, f, s).1, c)
  {
    PeerFrame(e, f, s);
    assert c in e.done ==> !Waiting(e, c);
    assert forall n :: n in e.peer.table ==> e.peer.table[n] in e.peer.table.Values;
  }

  /** A callback is completed at most once, whatever happens later, a drain or a late response included. */
  lemma {:induction false} CompletedOnce(k: Link, steps: seq<LinkStep>, c: nat)
    requires LinkInv(k) && IsRun(k, steps)
    ensures DoneStays(k.left, After(k, steps).left, c) && DoneStays(k.right, After(k, steps).right, c)
    decreases |steps|
  {
    if steps != [] {
      match steps[0] {
        case AtLeft(s) =>
          EndStep(k.left, k.right, s);
          EndKeepsDone(k.left, k.right, s, c);
        case AtRight(s) =>
          EndStep(k.right, k.left, s);
          EndKeepsDone(k.right, k.left, s, c);
      }
      CompletedOnce(LinkNext(k, steps[0]), steps[1..], c);
    }
  }

  /** A callback of e that is completed with a value got the result that f computed for the very request
      the callback was submitted with, and the next number of e has never been used. */
  ghost predicate RightResponses(e: Endpoint, f: Endpoint)
  {
    && (forall c: nat {:trigger c in e.done} :: c in e.done && e.done[c].Value? ==>
          exists n :: AnsweredFor(e, f, c, e.done[c].result, n))
    && e.peer.sequence + 1 !in e.asked
    && e.peer.sequence + 1 !in e.peer.table
    && e.peer.sequence + 1 !in f.served
  }

  /** Responses reach the right request, at both ends of the connection, with handlers that finish in any
      order; registering a callback overwrites nothing. */
  lemma ResponsesMatch(steps: seq<LinkStep>)
    requires IsRun(Link(FRESH, FRESH), steps)
    ensures
      var k := After(Link(FRESH, FRESH), steps);
      RightResponses(k.left, k.right) && RightResponses(k.right, k.left)
  {
    assert LinkInv(Link(FRESH, FRESH));
    RunKeeps(Link(FRESH, FRESH), steps);
  }
}
