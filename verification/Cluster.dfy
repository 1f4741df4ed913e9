/** The replicated store as a step system. A `Call` is one activation of an operation on one
    server: a client's, or one started by a request forwarded from another server. A call is cut
    at every wait and at every release of a lock, and steps of different calls interleave freely.
    Crashed servers stop for good. A server marks a peer dead only after that peer has crashed and
    never revises the mark. */
module Cluster {

  import opened Prelude
  import opened Servers
  import opened StoreSpec

  /** Where the question whether a user exists stands, for a call that has asked it. */
  datatype Lookup =
    | Asked                                 // about to decide whether this server is the user's authority
    | AtHome                                // it is: about to read its own users
    | Away                                  // it is not: about to read the primary's state again
    | Waiting(q: Server)                    // waiting for q's answer
    | Heard(q: Server, found: bool)         // q's answer on its way back
    | Told(found: bool)
    | Failed                                // panicked

  datatype Phase =
    | Travelling                            // forwarded request on its way to `at`
    | Start                                 // about to decide whether this server is authoritative
    | Routing                               // not authoritative: about to read the primary's state again
    | Forwarded(child: nat)                 // waiting for the answer to the forwarded request
    | Authorised                            // authoritative: about to make the first checks
    | Checked(lookup: Lookup)               // looking the user up, or about to change
    | Performed(reply: Reply)               // changed locally, about to read the backup's state
    | Replicating(reply: Reply)             // replicate request on its way to the backup
    | Acked(reply: Reply, ack: Reply)       // the backup's acknowledgement on its way back
    | Unanswered(reply: Reply)              // the backup panicked on the replicate request
    | Replying(reply: Reply)                // response on its way to the forwarding server
    | Done(reply: Reply)
    | Panicked

  datatype Call = Call(op: Op, at: Server, parent: Option<nat>, root: nat, phase: Phase, retries: nat)

  type Stores = m: map<Server, Store> | forall x: Server :: x in m
    witness EachServer(EMPTY_STORE, EMPTY_STORE, EMPTY_STORE)

  lemma KeysComplete(m: map<Server, Store>)
    requires A in m && B in m && C in m
    ensures forall x: Server :: x in m
  {
    forall x: Server
      ensures x in m
    {
      match x case A => case B => case C =>
    }
  }

  function EachServer(a: Store, b: Store, c: Store): (m: map<Server, Store>)
    ensures forall x: Server :: x in m
  {
    var m := map[A := a, B := b, C := c];
    KeysComplete(m);
    m
  }

  datatype State = State(
    hash: string -> nat,
    live: set<Server>,
    suspects: set<(Server, Server)>,        // (p, q): p has marked q dead
    stores: Stores,
    poisoned: set<Server>,                  // servers whose store lock a panic has poisoned
    calls: map<nat, Call>,
    next: nat)

  datatype Action =
    | Crash(p: Server)
    | Suspect(p: Server, q: Server)
    | Submit(at: Server, op: Op)
    | Arrive(k: nat)
    | Decide(k: nat)
    | Route(k: nat)
    | Check(k: nat)
    | Seek(k: nat)
    | SeekAgain(k: nat)
    | Change(k: nat, found: bool)
    | Copy(k: nat)
    | Replicate(k: nat)
    | Confirm(k: nat)
    | Abandon(k: nat)
    | Answer(k: nat)
    | Retry(k: nat)

  function OwnersOf(hash: string -> nat, op: Op): Owners
  {
    if op.CreateUser? then UserOwner(hash, op.user) else ChannelOwner(hash, op.channel)
  }

  /** The server is the primary, or it is the backup and has marked the primary dead. */
  predicate Authoritative(s: State, x: Server, o: Owners)
  {
    x == o.primary || ((x, o.primary) in s.suspects && x == o.backup)
  }

  function Location(s: State, x: Server, o: Owners): Server
  {
    if (x, o.primary) !in s.suspects then o.primary else o.backup
  }

  predicate HasUser(s: State, x: Server, u: string)
  {
    u in s.stores[x].users
  }

  /** The lookup of a server that has not crashed can move. A server with a poisoned lock does not answer. */
  predicate CanSeek(s: State, at: Server, l: Lookup)
  {
    && at in s.live
    && match l
       case Waiting(q) => q in s.live && q !in s.poisoned
       case Told(_) => false
       case Failed => false
       case _ => true
  }

  function Sought(s: State, at: Server, user: string, l: Lookup): Lookup
    requires CanSeek(s, at, l)
  {
    var o := UserOwner(s.hash, user);
    match l
    case Asked => if Authoritative(s, at, o) then AtHome else Away
    case AtHome => if at in s.poisoned then Failed else Told(HasUser(s, at, user))
    case Away =>
      var to := Location(s, at, o);
      if to == at || at == o.primary then Failed else Waiting(to)
    case Waiting(q) => Heard(q, HasUser(s, q, user))
    case Heard(_, found) => Told(found)
  }

  /** The server asked has been marked dead. */
  predicate CanSeekAgain(s: State, at: Server, l: Lookup)
  {
    at in s.live && (l.Waiting? || l.Heard?) && (at, l.q) in s.suspects
  }

  /** A creation needs no lookup. */
  predicate MayChange(c: Call, found: bool)
  {
    c.phase.Checked? && (c.op.CreateUser? || c.phase.lookup == Told(found))
  }

  /** Each server starts with the fixed channels that it owns. */
  function InitialStore(x: Server): Store
  {
    match x
    case A => Store({}, map["#systems" := EMPTY_CHANNEL, "#cs249" := EMPTY_CHANNEL])
    case B => Store({}, map["#cs249" := EMPTY_CHANNEL, "#distributed" := EMPTY_CHANNEL])
    case C => Store({}, map["#distributed" := EMPTY_CHANNEL, "#systems" := EMPTY_CHANNEL])
  }

  function Init(hash: string -> nat): State
  {
    State(hash, {A, B, C}, {}, EachServer(InitialStore(A), InitialStore(B), InitialStore(C)), {}, map[], 0)
  }

  /** Calls on a server that has not crashed can move. */
  predicate CanRun(s: State, k: nat)
  {
    k in s.calls && s.calls[k].at in s.live
  }

  function Holding(ph: Phase): Option<Reply>
  {
    match ph
    case Performed(r) => Some(r)
    case Replicating(r) => Some(r)
    case Acked(r, _) => Some(r)
    case Unanswered(r) => Some(r)
    case _ => None
  }

  predicate Enabled(s: State, a: Action)
  {
    match a
    case Crash(p) => p in s.live
    case Suspect(p, q) => p in s.live && q !in s.live
    case Submit(at, _) => at in s.live
    case Arrive(k) => CanRun(s, k) && s.calls[k].phase.Travelling?
    case Decide(k) => CanRun(s, k) && s.calls[k].phase.Start?
    case Route(k) => CanRun(s, k) && s.calls[k].phase.Routing?
    case Check(k) => CanRun(s, k) && s.calls[k].phase.Authorised?
    case Seek(k) =>
      CanRun(s, k) && s.calls[k].phase.Checked? && !s.calls[k].op.CreateUser?
        && CanSeek(s, s.calls[k].at, s.calls[k].phase.lookup)
    case SeekAgain(k) =>
      CanRun(s, k) && s.calls[k].phase.Checked? && !s.calls[k].op.CreateUser?
        && CanSeekAgain(s, s.calls[k].at, s.calls[k].phase.lookup)
    case Change(k, found) => CanRun(s, k) && MayChange(s.calls[k], found)
    case Copy(k) => CanRun(s, k) && s.calls[k].phase.Performed?
    case Replicate(k) =>
      // the sender may have crashed meanwhile
      && k in s.calls
      && s.calls[k].phase.Replicating?
      && OwnersOf(s.hash, s.calls[k].op).backup in s.live
    case Confirm(k) => CanRun(s, k) && s.calls[k].phase.Acked?
    case Abandon(k) =>
      && CanRun(s, k)
      && (s.calls[k].phase.Replicating? || s.calls[k].phase.Acked? || s.calls[k].phase.Unanswered?)
      && (s.calls[k].at, OwnersOf(s.hash, s.calls[k].op).backup) in s.suspects
    case Answer(k) =>
      && k in s.calls
      && s.calls[k].phase.Replying?
      && s.calls[k].parent.Some?
      && CanRun(s, s.calls[k].parent.value)
      && s.calls[s.calls[k].parent.value].phase == Forwarded(k)
      && s.calls[k].parent.value != k
    case Retry(k) =>
      && CanRun(s, k)
      && s.calls[k].phase.Forwarded?
      && s.calls[k].phase.child in s.calls
      && (s.calls[k].at, s.calls[s.calls[k].phase.child].at) in s.suspects
  }

  function Move(s: State, k: nat, ph: Phase): State
    requires k in s.calls
  {
    s.(calls := s.calls[k := s.calls[k].(phase := ph)])
  }

  /** A client's call ends with the answer; a forwarded one sends it back. */
  function Finished(c: Call, r: Reply): Phase
  {
    if c.parent.None? then Done(r) else Replying(r)
  }

  function Do(s: State, a: Action): State
    requires Enabled(s, a)
  {
    match a
    case Crash(p) => s.(live := s.live - {p})
    case Suspect(p, q) => s.(suspects := s.suspects + {(p, q)})
    case Submit(at, op) =>
      s.(calls := s.calls[s.next := Call(op, at, None, s.next, Start, 0)], next := s.next + 1)
    case Arrive(k) => Move(s, k, Start)
    case Decide(k) =>
      var c := s.calls[k];
      Move(s, k, if Authoritative(s, c.at, OwnersOf(s.hash, c.op)) then Authorised else Routing)
    case Route(k) =>
      var c := s.calls[k];
      var to := Location(s, c.at, OwnersOf(s.hash, c.op));
      // a server refuses to forward to itself by panicking
      if to == c.at || c.at == OwnersOf(s.hash, c.op).primary then Move(s, k, Panicked)
      else
        var child := Call(c.op, to, Some(k), c.root, Travelling, 0);
        s.(calls := s.calls[k := c.(phase := Forwarded(s.next))][s.next := child], next := s.next + 1)
    case Check(k) =>
      var c := s.calls[k];
      if c.at in s.poisoned && CheckLocks(c.op) then Move(s, k, Panicked)
      else
        var e := Precheck(s.stores[c.at], c.op);
        Move(s, k, if e.Some? then Finished(c, Rejected(e.value)) else Checked(Asked))
    case Seek(k) =>
      var c := s.calls[k];
      var l := Sought(s, c.at, c.op.user, c.phase.lookup);
      Move(s, k, if l.Failed? then Panicked else Checked(l))
    case SeekAgain(k) => Move(s, k, Checked(Asked))
    case Change(k, found) =>
      var c := s.calls[k];
      if c.at in s.poisoned && ChangeLocks(c.op, found) then Move(s, k, Panicked)
      else
        var (st, r) := Perform(s.stores[c.at], c.op, found);
        var s' := s.(stores := s.stores[c.at := st]);
        Move(s', k, if r.Rejected? then Finished(c, r) else Performed(r))
    case Copy(k) =>
      var c := s.calls[k];
      var b := OwnersOf(s.hash, c.op).backup;
      Move(s, k, if b == c.at || (c.at, b) in s.suspects then Finished(c, c.phase.reply)
                 else Replicating(c.phase.reply))
    case Replicate(k) =>
      var c := s.calls[k];
      var b := OwnersOf(s.hash, c.op).backup;
      if b in s.poisoned then Move(s, k, Unanswered(c.phase.reply))
      else
        var m := Mirror(s.stores[b], c.op, c.phase.reply);
        if m.Panic? then Move(s, k, Unanswered(c.phase.reply)).(poisoned := s.poisoned + {b})
        else Move(s.(stores := s.stores[b := m.store]), k, Acked(c.phase.reply, m.ack))
    case Confirm(k) => Move(s, k, Finished(s.calls[k], s.calls[k].phase.ack))
    case Abandon(k) => Move(s, k, Finished(s.calls[k], s.calls[k].phase.reply))
    case Answer(k) =>
      var r := s.calls[k].phase.reply;
      var j := s.calls[k].parent.value;
      Move(Move(s, k, Done(r)), j, Finished(s.calls[j], r))
    case Retry(k) =>
      var c := s.calls[k];
      s.(calls := s.calls[k := c.(phase := Start, retries := c.retries + 1)])
  }

  predicate IsRun(s: State, acts: seq<Action>)
    decreases |acts|
  {
    acts == [] || (Enabled(s, acts[0]) && IsRun(Do(s, acts[0]), acts[1..]))
  }

  function After(s: State, acts: seq<Action>): State
    requires IsRun(s, acts)
    decreases |acts|
  {
    if acts == [] then s else After(Do(s, acts[0]), acts[1..])
  }
}
