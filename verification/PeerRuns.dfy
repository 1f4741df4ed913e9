/** Runs of a connection that is not disturbed: nobody is declared dead, no write fails, no handler gives up.
    Then every request reaches the peer under the number of its submission, and every callback is completed
    with the result that the peer has computed for it, as soon as the two ends have come to rest; and they do
    come to rest. */
module PeerRuns {

  import opened Prelude
  import opened PeerLink

  // ---------- what was submitted ----------

  type Submission = (Option<nat>, string)

  /** The steps of one end. */
  function StepsAt(steps: seq<LinkStep>, left: bool): seq<Step>
  {
    if steps == [] then []
    else (if steps[0].AtLeft? == left then [steps[0].step] else []) + StepsAt(steps[1..], left)
  }

  /** What a single step submits; callbacks are numbered from `issued` on. */
  function SubmittedBy(s: Step, issued: nat): seq<Submission>
  {
    if s.Submit? then [(if s.waits then Some(issued) else None, s.body)] else []
  }

  function Submissions(steps: seq<Step>, issued: nat): seq<Submission>
    decreases |steps|
  {
    if steps == [] then []
    else
      SubmittedBy(steps[0], issued)
      + Submissions(steps[1..], if steps[0].Submit? && steps[0].waits then issued + 1 else issued)
  }

  /** The requests that wait to be numbered. */
  function Requests(queue: seq<Item>): seq<Submission>
  {
    if queue == [] then []
    else (if queue[0].Request? then [(queue[0].callback, queue[0].body)] else []) + Requests(queue[1..])
  }

  lemma {:induction false} RequestsSnoc(queue: seq<Item>, item: Item)
    ensures Requests(queue + [item]) == Requests(queue) + Requests([item])
  {
    if queue == [] {
      assert queue + [item] == [item];
    } else {
      RequestsSnoc(queue[1..], item);
      assert (queue + [item])[1..] == queue[1..] + [item];
    }
  }

  /** The requests submitted so far: the first ones are numbered 1, 2, ... in the order of submission, the
      others are queued in this order. */
  ghost predicate Recorded(e: Endpoint, past: seq<Submission>)
  {
    && e.peer.sequence <= |past|
    && (forall n {:trigger n in e.asked} :: n in e.asked <==> 1 <= n <= e.peer.sequence)
    && (forall n {:trigger e.asked[n]} :: 1 <= n <= e.peer.sequence ==> e.asked[n] == past[n - 1])
    && Requests(e.queue) == past[e.peer.sequence..]
  }

  lemma RecordedFrame(e: Endpoint, e': Endpoint, past: seq<Submission>)
    requires Recorded(e, past)
    requires e'.asked == e.asked && e'.peer.sequence == e.peer.sequence && Requests(e'.queue) == Requests(e.queue)
    ensures Recorded(e', past)
  {
  }

  lemma RecordedSend(e: Endpoint, f: Endpoint, past: seq<Submission>)
    requires Recorded(e, past) && Can(e, f, SendNext)
    ensures Recorded(Next(e, f, SendNext).0, past)
  {
    var rest := Requests(e.queue[1..]);
    if e.queue[0].Request? {
      assert past[e.peer.sequence..] == [past[e.peer.sequence]] + past[e.peer.sequence + 1..];
      assert ([(e.queue[0].callback, e.queue[0].body)] + rest)[1..] == rest;
    }
  }

  lemma RecordedSubmit(e: Endpoint, e': Endpoint, past: seq<Submission>, item: Item)
    requires Recorded(e, past) && item.Request?
    requires e'.asked == e.asked && e'.peer.sequence == e.peer.sequence && e'.queue == e.queue + [item]
    ensures Recorded(e', past + [(item.callback, item.body)])
  {
    RequestsSnoc(e.queue, item);
    assert Requests([item]) == [(item.callback, item.body)];
  }

  lemma RecordedStep(e: Endpoint, f: Endpoint, s: Step, past: seq<Submission>)
    requires Recorded(e, past) && Can(e, f, s)
    ensures Recorded(Next(e, f, s).0, past + SubmittedBy(s, e.issued))
  {
    var e' := Next(e, f, s).0;
    if s.Submit? {
      RecordedSubmit(e, e', past, Request(s.body, if s.waits then Some(e.issued) else None));
    } else {
      assert past + [] == past;
      if s.SendNext? {
        RecordedSend(e, f, past);
      } else {
        if s.Serve? { RequestsSnoc(e.queue, Response(s.number, s.result)); }
        RecordedFrame(e, e', past);
      }
    }
  }

  /** Every result was computed by a step of this end. */
  ghost predicate Computed(e: Endpoint, past: seq<Step>)
  {
    forall n :: n in e.served ==> Serve(n, e.served[n].1) in past
  }

  // ---------- what is under way ----------

  /** The peer f waits for the response to its request n. */
  predicate Expects(f: Endpoint, n: nat)
  {
    n in f.asked && f.asked[n].0.Some?
  }

  predicate Disturbs(f: Endpoint, s: Step)
  {
    s.MarkDead? || s.LoseWrite? || (s.Ignore? && Expects(f, s.number))
  }

  predicate HasRequest(lines: seq<Line>, n: nat)
  {
    exists i :: 0 <= i < |lines| && lines[i].RequestLine? && lines[i].number == n
  }

  predicate HasResponse(lines: seq<Line>, n: nat)
  {
    exists i :: 0 <= i < |lines| && lines[i].ResponseLine? && lines[i].number == n
  }

  predicate QueuedResponse(queue: seq<Item>, n: nat)
  {
    exists i :: 0 <= i < |queue| && queue[i].Response? && queue[i].number == n
  }

  /** The result of request n is on its way back. */
  predicate Owing(f: Endpoint, n: nat)
  {
    QueuedResponse(f.queue, n) || HasResponse(Outgoing(f), n)
  }

  /** Nothing of a failure at this end. */
  ghost predicate Calm(e: Endpoint)
  {
    e.peer.alive && e.deaths == 0 && !e.sender.Draining? && forall c :: c in e.done ==> e.done[c].Value?
  }

  /** A request that has arrived is worked on, served, or of a kind that nobody answers. */
  predicate Arrived(e: Endpoint, f: Endpoint, n: nat, peerSteps: seq<Step>)
  {
    n in f.handlers || n in f.served || (!Expects(e, n) && Ignore(n) in peerSteps)
  }

  /** A numbered request is on its way or has arrived; while its callback waits, its result is coming. */
  ghost predicate Underway(e: Endpoint, f: Endpoint, peerSteps: seq<Step>)
  {
    && (forall n {:trigger n in e.asked} :: n in e.asked ==>
          HasRequest(Outgoing(e), n) || Arrived(e, f, n, peerSteps))
    && (forall n {:trigger n in e.peer.table} :: n in e.peer.table && n in f.served ==> Owing(f, n))
  }

  lemma CalmStep(e: Endpoint, f: Endpoint, s: Step)
    requires Calm(e) && Can(e, f, s) && !Disturbs(f, s)
    ensures Calm(Next(e, f, s).0)
  {
  }

  /** Without a disturbance a line is in Outgoing from its composition until the peer reads it. */
  lemma OutgoingGrows(e: Endpoint, f: Endpoint, s: Step)
    requires Calm(e) && Can(e, f, s) && !Disturbs(f, s)
    ensures
      Outgoing(Next(e, f, s).0) == Outgoing(e) + if s.SendNext? then [Register(e.peer, e.queue[0]).1] else []
  {
  }

  lemma HasAppend(lines: seq<Line>, more: seq<Line>, n: nat)
    ensures HasRequest(lines + more, n) <==> HasRequest(lines, n) || HasRequest(more, n)
    ensures HasResponse(lines + more, n) <==> HasResponse(lines, n) || HasResponse(more, n)
  {
    if HasRequest(lines, n) {
      var i :| 0 <= i < |lines| && lines[i].RequestLine? && lines[i].number == n;
      assert (lines + more)[i] == lines[i];
    }
    if HasResponse(lines, n) {
      var i :| 0 <= i < |lines| && lines[i].ResponseLine? && lines[i].number == n;
      assert (lines + more)[i] == lines[i];
    }
    if HasRequest(more, n) {
      var i :| 0 <= i < |more| && more[i].RequestLine? && more[i].number == n;
      assert (lines + more)[|lines| + i] == more[i];
    }
    if HasResponse(more, n) {
      var i :| 0 <= i < |more| && more[i].ResponseLine? && more[i].number == n;
      assert (lines + more)[|lines| + i] == more[i];
    }
  }

  lemma QueuedAppend(queue: seq<Item>, more: seq<Item>, n: nat)
    ensures QueuedResponse(queue + more, n) <==> QueuedResponse(queue, n) || QueuedResponse(more, n)
  {
    if QueuedResponse(queue, n) {
      var i :| 0 <= i < |queue| && queue[i].Response? && queue[i].number == n;
      assert (queue + more)[i] == queue[i];
    }
    if QueuedResponse(more, n) {
      var i :| 0 <= i < |more| && more[i].Response? && more[i].number == n;
      assert (queue + more)[|queue| + i] == more[i];
    }
  }

  lemma OneLine(line: Line, n: nat)
    ensures HasRequest([line], n) <==> line.RequestLine? && line.number == n
    ensures HasResponse([line], n) <==> line.ResponseLine? && line.number == n
  {
    assert [line][0] == line;
  }

  lemma OneItem(item: Item, n: nat)
    ensures QueuedResponse([item], n) <==> item.Response? && item.number == n
  {
    assert [item][0] == item;
  }

  /** The requests of the end that moves. */
  lemma OwnRequest(e: Endpoint, f: Endpoint, s: Step, n: nat, peerSteps: seq<Step>)
    requires Good(e, f) && Calm(e) && Underway(e, f, peerSteps) && Can(e, f, s) && !Disturbs(f, s)
    requires n in Next(e, f, s).0.asked
    ensures
      var (e', f') := Next(e, f, s);
      HasRequest(Outgoing(e'), n) || Arrived(e', f', n, peerSteps)
  {
    OutgoingGrows(e, f, s);
    if s.SendNext? {
      var line := Register(e.peer, e.queue[0]).1;
      HasAppend(Outgoing(e), [line], n);
      OneLine(line, n);
    } else {
      assert Outgoing(e) + [] == Outgoing(e);
    }
  }

  /** The first line of the wire is what the peer reads. */
  lemma ReadFirst(f: Endpoint, n: nat)
    requires f.wire != []
    ensures
      var rest := Outgoing(f.(wire := f.wire[1..]));
      && (HasRequest(Outgoing(f), n) <==> HasRequest(rest, n) || HasRequest([f.wire[0]], n))
      && (HasResponse(Outgoing(f), n) <==> HasResponse(rest, n) || HasResponse([f.wire[0]], n))
  {
    var rest := Outgoing(f.(wire := f.wire[1..]));
    assert Outgoing(f) == [f.wire[0]] + rest;
    HasAppend([f.wire[0]], rest, n);
  }

  lemma OwnResponse(e: Endpoint, f: Endpoint, s: Step, n: nat, peerSteps: seq<Step>)
    requires Good(e, f) && Good(f, e) && Calm(e) && Underway(e, f, peerSteps) && Can(e, f, s) && !Disturbs(f, s)
    requires n in Next(e, f, s).0.peer.table && n in Next(e, f, s).1.served
    ensures Owing(Next(e, f, s).1, n)
  {
    PeerFrame(e, f, s);
    if s.SendNext? {
      assert n in e.asked;
    } else if s.Receive? {
      ReadFirst(f, n);
      OneLine(f.wire[0], n);
    }
  }

  /** The requests of the peer of the end that moves. */
  lemma PeersRequest(e: Endpoint, f: Endpoint, s: Step, n: nat, ownSteps: seq<Step>)
    requires Underway(f, e, ownSteps) && Can(e, f, s) && !Disturbs(f, s) && n in f.asked
    ensures
      var (e', f') := Next(e, f, s);
      HasRequest(Outgoing(f'), n) || Arrived(f', e', n, ownSteps + [s])
  {
    PeerFrame(e, f, s);
    if s.Receive? {
      ReadFirst(f, n);
      OneLine(f.wire[0], n);
    }
  }

  /** The response that is sent leaves the queue for the wire. */
  lemma SentResponse(e: Endpoint, f: Endpoint, n: nat)
    requires Calm(e) && Can(e, f, SendNext) && Owing(e, n)
    ensures Owing(Next(e, f, SendNext).0, n)
  {
    OutgoingGrows(e, f, SendNext);
    var line := Register(e.peer, e.queue[0]).1;
    HasAppend(Outgoing(e), [line], n);
    OneLine(line, n);
    QueuedAppend([e.queue[0]], e.queue[1..], n);
    OneItem(e.queue[0], n);
    assert [e.queue[0]] + e.queue[1..] == e.queue;
  }

  lemma PeersResponse(e: Endpoint, f: Endpoint, s: Step, n: nat, ownSteps: seq<Step>)
    requires Good(f, e) && Calm(e) && Underway(f, e, ownSteps) && Can(e, f, s) && !Disturbs(f, s)
    requires n in f.peer.table && n in Next(e, f, s).0.served
    ensures Owing(Next(e, f, s).0, n)
  {
    if s.SendNext? {
      SentResponse(e, f, n);
    } else {
      OutgoingGrows(e, f, s);
      assert Outgoing(e) + [] == Outgoing(e);
      if s.Submit? || s.Serve? {
        var item := Next(e, f, s).0.queue[|e.queue|];
        QueuedAppend(e.queue, [item], n);
        OneItem(item, n);
      }
    }
  }

  lemma UnderwayStep(e: Endpoint, f: Endpoint, s: Step, ownSteps: seq<Step>, peerSteps: seq<Step>)
    requires Good(e, f) && Good(f, e) && Calm(e) && Can(e, f, s) && !Disturbs(f, s)
    requires Underway(e, f, peerSteps) && Underway(f, e, ownSteps)
    ensures
      var (e', f') := Next(e, f, s);
      Underway(e', f', peerSteps) && Underway(f', e', ownSteps + [s])
  {
    var (e', f') := Next(e, f, s);
    PeerFrame(e, f, s);
    forall n | n in e'.asked
      ensures HasRequest(Outgoing(e'), n) || Arrived(e', f', n, peerSteps)
    {
      OwnRequest(e, f, s, n, peerSteps);
    }
    forall n | n in e'.peer.table && n in f'.served
      ensures Owing(f', n)
    {
      OwnResponse(e, f, s, n, peerSteps);
    }
    forall n | n in f'.asked
      ensures HasRequest(Outgoing(f'), n) || Arrived(f', e', n, ownSteps + [s])
    {
      PeersRequest(e, f, s, n, ownSteps);
    }
    forall n | n in f'.peer.table && n in e'.served
      ensures Owing(e', n)
    {
      PeersResponse(e, f, s, n, ownSteps);
    }
  }

  // ---------- runs ----------

  function End(k: Link, left: bool): Endpoint
  {
    if left then k.left else k.right
  }

  /** Callbacks are given out once. */
  ghost predicate Distinct(past: seq<Submission>, issued: nat)
  {
    && (forall i :: 0 <= i < |past| && past[i].0.Some? ==> past[i].0.value < issued)
    && (forall i, j :: 0 <= i < j < |past| && past[i].0.Some? ==> past[i].0 != past[j].0)
  }

  ghost predicate Registered(e: Endpoint, past: seq<Submission>)
  {
    Recorded(e, past) && Distinct(past, e.issued)
  }

  lemma RegisteredStep(e: Endpoint, f: Endpoint, s: Step, past: seq<Submission>)
    requires Registered(e, past) && Can(e, f, s)
    ensures Registered(Next(e, f, s).0, past + SubmittedBy(s, e.issued))
  {
    RecordedStep(e, f, s, past);
  }

  lemma {:induction false} RegisteredRun(k: Link, steps: seq<LinkStep>, left: bool, past: seq<Submission>)
    requires IsRun(k, steps) && Registered(End(k, left), past)
    ensures
      Registered(End(After(k, steps), left), past + Submissions(StepsAt(steps, left), End(k, left).issued))
    decreases |steps|
  {
    if steps == [] {
      assert past + [] == past;
    } else {
      var e, f, s := End(k, steps[0].AtLeft?), End(k, !steps[0].AtLeft?), steps[0].step;
      var k' := LinkNext(k, steps[0]);
      PeerFrame(e, f, s);
      StepsFirst(steps, left);
      if steps[0].AtLeft? == left {
        RegisteredStep(e, f, s, past);
        RegisteredRun(k', steps[1..], left, past + SubmittedBy(s, e.issued));
        SubmissionsFirst(past, s, StepsAt(steps[1..], left), e.issued);
      } else {
        RecordedFrame(f, End(k', left), past);
        RegisteredRun(k', steps[1..], left, past);
      }
    }
  }

  lemma SubmissionsFirst(past: seq<Submission>, s: Step, rest: seq<Step>, issued: nat)
    ensures
      past + Submissions([s] + rest, issued)
      == past + SubmittedBy(s, issued) + Submissions(rest, if s.Submit? && s.waits then issued + 1 else issued)
  {
    assert ([s] + rest)[1..] == rest;
  }

  lemma StepsFirst(steps: seq<LinkStep>, left: bool)
    requires steps != []
    ensures
      StepsAt(steps, left)
      == if steps[0].AtLeft? == left then [steps[0].step] + StepsAt(steps[1..], left) else StepsAt(steps[1..], left)
  {
  }

  lemma ComputedStep(e: Endpoint, f: Endpoint, s: Step, past: seq<Step>)
    requires Computed(e, past) && Can(e, f, s)
    ensures Computed(Next(e, f, s).0, past + [s])
  {
  }

  lemma {:induction false} ComputedRun(k: Link, steps: seq<LinkStep>, left: bool, past: seq<Step>)
    requires IsRun(k, steps) && Computed(End(k, left), past)
    ensures Computed(End(After(k, steps), left), past + StepsAt(steps, left))
    decreases |steps|
  {
    if steps == [] {
      assert past + [] == past;
    } else {
      var e, f, s := End(k, steps[0].AtLeft?), End(k, !steps[0].AtLeft?), steps[0].step;
      StepsFirst(steps, left);
      if steps[0].AtLeft? == left {
        ComputedStep(e, f, s, past);
        ComputedRun(LinkNext(k, steps[0]), steps[1..], left, past + [s]);
        assert past + [s] + StepsAt(steps[1..], left) == past + ([s] + StepsAt(steps[1..], left));
      } else {
        PeerFrame(e, f, s);
        ComputedRun(LinkNext(k, steps[0]), steps[1..], left, past);
      }
    }
  }

  lemma StepsAppend(past: seq<Step>, steps: seq<LinkStep>, left: bool)
    requires steps != []
    ensures past + StepsAt([steps[0]], left) + StepsAt(steps[1..], left) == past + StepsAt(steps, left)
  {
    StepsFirst(steps, left);
    StepsFirst([steps[0]], left);
    assert [steps[0]][1..] == [];
    Regroup(past, StepsAt([steps[0]], left), StepsAt(steps[1..], left));
  }

  lemma Regroup<T>(front: seq<T>, back: seq<T>, more: seq<T>)
    ensures front + back + more == front + (back + more)
  {
  }

  /** Nobody has been declared dead, and everything numbered is under way, at both ends. */
  ghost predicate Flowing(k: Link, leftSteps: seq<Step>, rightSteps: seq<Step>)
  {
    && LinkInv(k) && Calm(k.left) && Calm(k.right)
    && Underway(k.left, k.right, rightSteps) && Underway(k.right, k.left, leftSteps)
  }

  predicate Undisturbing(k: Link, s: LinkStep)
  {
    !Disturbs(End(k, !s.AtLeft?), s.step)
  }

  /** Nobody is declared dead, no write fails, and no handler gives up on a request that is waited for. */
  predicate Undisturbed(k: Link, steps: seq<LinkStep>)
    requires IsRun(k, steps)
    decreases |steps|
  {
    steps == [] || (Undisturbing(k, steps[0]) && Undisturbed(LinkNext(k, steps[0]), steps[1..]))
  }

  lemma FlowingStep(k: Link, s: LinkStep, leftSteps: seq<Step>, rightSteps: seq<Step>)
    requires Flowing(k, leftSteps, rightSteps) && LinkCan(k, s) && Undisturbing(k, s)
    ensures Flowing(LinkNext(k, s), leftSteps + StepsAt([s], true), rightSteps + StepsAt([s], false))
  {
    var e, f := End(k, s.AtLeft?), End(k, !s.AtLeft?);
    EndStep(e, f, s.step);
    CalmStep(e, f, s.step);
    UnderwayStep(e, f, s.step, if s.AtLeft? then leftSteps else rightSteps,
                 if s.AtLeft? then rightSteps else leftSteps);
    PeerFrame(e, f, s.step);
    assert leftSteps + [] == leftSteps && rightSteps + [] == rightSteps;
  }

  lemma {:induction false} FlowingRun(k: Link, steps: seq<LinkStep>, leftSteps: seq<Step>, rightSteps: seq<Step>)
    requires Flowing(k, leftSteps, rightSteps) && IsRun(k, steps) && Undisturbed(k, steps)
    ensures Flowing(After(k, steps), leftSteps + StepsAt(steps, true), rightSteps + StepsAt(steps, false))
    decreases |steps|
  {
    if steps == [] {
      assert leftSteps + [] == leftSteps && rightSteps + [] == rightSteps;
    } else {
      var l, r := StepsAt([steps[0]], true), StepsAt([steps[0]], false);
      FlowingStep(k, steps[0], leftSteps, rightSteps);
      FlowingRun(LinkNext(k, steps[0]), steps[1..], leftSteps + l, rightSteps + r);
      StepsAppend(leftSteps, steps, true);
      StepsAppend(rightSteps, steps, false);
    }
  }

  /** Nothing is left to do at this end. */
  predicate AtRest(e: Endpoint)
  {
    e.queue == [] && e.sender.Idle? && e.wire == [] && e.handlers == map[]
  }

  /** Request number n of e has been served by f under its body, by a step of f, and the callback it was
      submitted with, if there is one, has been completed with this very result. A request without a callback
      may have been taken note of instead. */
  predicate Fulfilled(e: Endpoint, f: Endpoint, n: nat, request: Submission, peerSteps: seq<Step>)
  {
    || (&& n in f.served && f.served[n].0 == request.1
        && Serve(n, f.served[n].1) in peerSteps
        && (request.0.Some? ==> request.0.value in e.done && e.done[request.0.value] == Value(f.served[n].1)))
    || (request.0.None? && Ignore(n) in peerSteps)
  }

  /** At rest nothing is queued and no callback waits. */
  lemma NothingLeft(e: Endpoint, f: Endpoint, peerSteps: seq<Step>)
    requires Good(e, f) && Underway(e, f, peerSteps) && AtRest(e) && AtRest(f)
    ensures e.peer.table == map[]
    ensures forall n :: n in e.asked ==> Arrived(e, f, n, peerSteps)
  {
    assert forall n :: n in e.peer.table ==> n in e.asked && Expects(e, n) && !Owing(f, n);
  }

  lemma CallbackDone(e: Endpoint, f: Endpoint, past: seq<Submission>, i: nat)
    requires Good(e, f) && Placed(e) && Calm(e) && e.peer.table == map[] && e.queue == []
    requires Registered(e, past) && |past| == e.peer.sequence && i < |past| && past[i].0.Some?
    requires i + 1 in e.asked && e.asked[i + 1] == past[i]
    ensures
      var c := past[i].0.value;
      i + 1 in f.served && c in e.done && e.done[c] == Value(f.served[i + 1].1)
  {
    var c := past[i].0.value;
    assert !Queued(e, c) && !Waiting(e, c);
    var n: nat :| AnsweredFor(e, f, c, e.done[c].result, n);
    assert e.asked[n] == past[n - 1];
  }

  lemma RestFulfils(e: Endpoint, f: Endpoint, past: seq<Submission>, peerSteps: seq<Step>, i: nat)
    requires Good(e, f) && Good(f, e) && Placed(e) && Calm(e) && Underway(e, f, peerSteps) && AtRest(e) && AtRest(f)
    requires Registered(e, past) && Computed(f, peerSteps) && i < |past|
    ensures Fulfilled(e, f, i + 1, past[i], peerSteps)
  {
    assert |past[e.peer.sequence..]| == 0;
    NothingLeft(e, f, peerSteps);
    assert i + 1 in e.asked && e.asked[i + 1] == past[i];
    if i + 1 in f.served { assert AskedFor(e, i + 1, f.served[i + 1].0); }
    if past[i].0.Some? { CallbackDone(e, f, past, i); }
  }

  /** What the two ends have recorded is what the steps of the run have done. */
  lemma History(steps: seq<LinkStep>, left: bool)
    requires IsRun(Link(FRESH, FRESH), steps)
    ensures
      var k := After(Link(FRESH, FRESH), steps);
      Registered(End(k, left), Submissions(StepsAt(steps, left), 0)) && Computed(End(k, !left), StepsAt(steps, !left))
  {
    RegisteredRun(Link(FRESH, FRESH), steps, left, []);
    ComputedRun(Link(FRESH, FRESH), steps, !left, []);
    assert [] + Submissions(StepsAt(steps, left), 0) == Submissions(StepsAt(steps, left), 0);
    assert [] + StepsAt(steps, !left) == StepsAt(steps, !left);
  }

  /** Every request is answered: in every run in which nobody is declared dead, no write fails and no handler gives
      up, once both ends have come to rest, the requests submitted at each end have been served by the peer
      under the numbers 1, 2, ... in the order of their submission, and every callback has been completed with
      the result of the request it was submitted with. */
  lemma RequestsAreAnswered(steps: seq<LinkStep>, left: bool, i: nat)
    requires IsRun(Link(FRESH, FRESH), steps) && Undisturbed(Link(FRESH, FRESH), steps)
    requires AtRest(After(Link(FRESH, FRESH), steps).left) && AtRest(After(Link(FRESH, FRESH), steps).right)
    requires i < |Submissions(StepsAt(steps, left), 0)|
    ensures
      var k := After(Link(FRESH, FRESH), steps);
      Fulfilled(End(k, left), End(k, !left), i + 1, Submissions(StepsAt(steps, left), 0)[i], StepsAt(steps, !left))
  {
    var k := Link(FRESH, FRESH);
    var past := Submissions(StepsAt(steps, left), 0);
    FlowingRun(k, steps, [], []);
    assert [] + StepsAt(steps, true) == StepsAt(steps, true) && [] + StepsAt(steps, false) == StepsAt(steps, false);
    History(steps, left);
    RestFulfils(End(After(k, steps), left), End(After(k, steps), !left), past, StepsAt(steps, !left), i);
  }

  lemma ValueServed(e: Endpoint, f: Endpoint, past: seq<Submission>, peerSteps: seq<Step>, c: nat) returns (i: nat)
    requires Good(e, f) && Registered(e, past) && Computed(f, peerSteps) && c in e.done && e.done[c].Value?
    ensures i < |past| && past[i].0 == Some(c) && Fulfilled(e, f, i + 1, past[i], peerSteps)
  {
    var n: nat :| AnsweredFor(e, f, c, e.done[c].result, n);
    assert e.asked[n] == past[n - 1];
    i := n - 1;
  }

  /** In every run, disturbed or not, a callback that is completed with a value is that of a submitted request,
      and the value was computed by a step of the peer for this request's number and body. */
  lemma ValuesAreServed(steps: seq<LinkStep>, left: bool, c: nat) returns (i: nat)
    requires IsRun(Link(FRESH, FRESH), steps)
    requires
      var e := End(After(Link(FRESH, FRESH), steps), left);
      c in e.done && e.done[c].Value?
    ensures
      var k := After(Link(FRESH, FRESH), steps);
      var past := Submissions(StepsAt(steps, left), 0);
      && i < |past| && past[i].0 == Some(c)
      && Fulfilled(End(k, left), End(k, !left), i + 1, past[i], StepsAt(steps, !left))
  {
    var k := Link(FRESH, FRESH);
    var past := Submissions(StepsAt(steps, left), 0);
    RunKeeps(k, steps);
    History(steps, left);
    i := ValueServed(End(After(k, steps), left), End(After(k, steps), !left), past, StepsAt(steps, !left), c);
  }

  /** Only an end that has declared its peer dead tells a callback that no answer comes. */
  predicate GoneWhenDead(e: Endpoint)
  {
    e.peer.alive ==> e.deaths == 0 && !e.sender.Draining? && forall c :: c in e.done ==> e.done[c].Value?
  }

  lemma {:induction false} GoneOnlyWhenDead(k: Link, steps: seq<LinkStep>)
    requires IsRun(k, steps) && GoneWhenDead(k.left) && GoneWhenDead(k.right)
    ensures GoneWhenDead(After(k, steps).left) && GoneWhenDead(After(k, steps).right)
    decreases |steps|
  {
    if steps != [] {
      var e, f := End(k, steps[0].AtLeft?), End(k, !steps[0].AtLeft?);
      PeerFrame(e, f, steps[0].step);
      GoneOnlyWhenDead(LinkNext(k, steps[0]), steps[1..]);
    }
  }

  // ---------- coming to rest ----------

  /** The steps that a queued item, and its result, still need. */
  function ItemWork(item: Item): nat
  {
    if item.Request? then 9 else 4
  }

  function LineWork(line: Line): nat
  {
    if line.RequestLine? then 6 else 1
  }

  function QueueWork(queue: seq<Item>): nat
  {
    if queue == [] then 0 else ItemWork(queue[0]) + QueueWork(queue[1..])
  }

  function WireWork(wire: seq<Line>): nat
  {
    if wire == [] then 0 else LineWork(wire[0]) + WireWork(wire[1..])
  }

  function SenderWork(sender: SenderPhase): nat
  {
    match sender
    case Registered(line) => LineWork(line) + 2
    case Writing(line) => LineWork(line) + 1
    case _ => 0
  }

  function Work(e: Endpoint): nat
  {
    QueueWork(e.queue) + SenderWork(e.sender) + WireWork(e.wire) + 5 * |e.handlers|
  }

  lemma {:induction false} QueueWorkSnoc(queue: seq<Item>, item: Item)
    ensures QueueWork(queue + [item]) == QueueWork(queue) + ItemWork(item)
  {
    if queue == [] {
      assert queue + [item] == [item];
    } else {
      QueueWorkSnoc(queue[1..], item);
      assert (queue + [item])[1..] == queue[1..] + [item];
    }
  }

  lemma {:induction false} WireWorkSnoc(wire: seq<Line>, line: Line)
    ensures WireWork(wire + [line]) == WireWork(wire) + LineWork(line)
  {
    if wire == [] {
      assert wire + [line] == [line];
    } else {
      WireWorkSnoc(wire[1..], line);
      assert (wire + [line])[1..] == wire[1..] + [line];
    }
  }

  lemma HandlersSize(handlers: map<nat, string>, n: nat, body: string)
    ensures |handlers[n := body]| <= |handlers| + 1
    ensures n in handlers ==> |handlers - {n}| == |handlers| - 1
  {
    var more := handlers[n := body];
    assert more.Keys == handlers.Keys + {n};
    assert |more.Keys| == |more| && |handlers.Keys| == |handlers|;
    if n in handlers {
      var fewer := handlers - {n};
      assert fewer.Keys == handlers.Keys - {n};
      assert |fewer.Keys| == |fewer|;
    }
  }

  /** Every step that neither submits nor disturbs is progress. */
  lemma WorkStep(e: Endpoint, f: Endpoint, s: Step)
    requires Calm(e) && Can(e, f, s) && !Disturbs(f, s) && !s.Submit?
    ensures
      var (e', f') := Next(e, f, s);
      Work(e') + Work(f') < Work(e) + Work(f)
  {
    match s
    case Write => WireWorkSnoc(e.wire, e.sender.line);
    case Receive =>
      if f.wire[0].RequestLine? { HandlersSize(e.handlers, f.wire[0].number, f.wire[0].body); }
    case Serve(n, result) =>
      QueueWorkSnoc(e.queue, Response(n, result));
      HandlersSize(e.handlers, n, "");
    case _ =>
  }

  lemma LinkWork(k: Link, s: LinkStep)
    requires Calm(k.left) && Calm(k.right) && LinkCan(k, s) && Undisturbing(k, s) && !s.step.Submit?
    ensures Calm(LinkNext(k, s).left) && Calm(LinkNext(k, s).right)
    ensures Work(LinkNext(k, s).left) + Work(LinkNext(k, s).right) < Work(k.left) + Work(k.right)
  {
    var e, f := End(k, s.AtLeft?), End(k, !s.AtLeft?);
    WorkStep(e, f, s.step);
    CalmStep(e, f, s.step);
    PeerFrame(e, f, s.step);
  }

  /** A connection that is not at rest can move on without being disturbed. */
  lemma MovesUntilRest(k: Link) returns (s: LinkStep)
    requires Calm(k.left) && Calm(k.right) && !(AtRest(k.left) && AtRest(k.right))
    ensures LinkCan(k, s) && Undisturbing(k, s) && !s.step.Submit?
  {
    var left := !AtRest(k.left);
    var e := End(k, left);
    if e.wire != [] {
      return if left then AtRight(Receive) else AtLeft(Receive);
    }
    var t: Step;
    if e.handlers != map[] {
      var n :| n in e.handlers;
      t := Serve(n, "");
    } else {
      t := if e.sender.Registered? then ReadAlive else if e.sender.Writing? then Write else SendNext;
    }
    s := if left then AtLeft(t) else AtRight(t);
  }

  /** Undisturbed and without new submissions a connection comes to rest: it can move on until it is at rest, and
      no continuation is longer than the work that is left. */
  lemma {:induction false} ComesToRest(k: Link, steps: seq<LinkStep>)
    requires Calm(k.left) && Calm(k.right) && IsRun(k, steps) && Undisturbed(k, steps)
    requires forall i :: 0 <= i < |steps| ==> !steps[i].step.Submit?
    ensures |steps| + Work(After(k, steps).left) + Work(After(k, steps).right) <= Work(k.left) + Work(k.right)
    ensures !(AtRest(After(k, steps).left) && AtRest(After(k, steps).right)) ==>
      exists s :: LinkCan(After(k, steps), s) && Undisturbing(After(k, steps), s) && !s.step.Submit?
    decreases |steps|
  {
    if steps == [] {
      if !(AtRest(k.left) && AtRest(k.right)) {
        var s := MovesUntilRest(k);
      }
    } else {
      LinkWork(k, steps[0]);
      ComesToRest(LinkNext(k, steps[0]), steps[1..]);
    }
  }
}
