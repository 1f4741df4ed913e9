/** What one server's chat state holds and what each operation does to it, as values.
    The class in DiscordStore.dfy is proved against these functions, and the cluster of
    Cluster.dfy runs them on every server. */
module StoreSpec {

  import opened Prelude

  /** The id that the store prints as "{channel}-{number}"; MessageIds shows that printing loses
      nothing and that the number parses back. */
  datatype MessageId = MessageId(channel: string, number: nat)

  datatype Message = Message(username: string, text: string, id: MessageId)

  /** A channel's messages are keyed, and ordered, by the number of their id. */
  datatype Channel = Channel(users: set<string>, log: map<nat, Message>, next: nat)

  datatype Store = Store(users: set<string>, channels: map<string, Channel>)

  datatype Error =
    | InvalidUsername
    | DuplicateUser
    | DuplicateChannel
    | UnknownUser
    | InvalidChannelName
    | UnknownChannel
    | AlreadyMember
    | NotAMember

  datatype Reply =
    | Accepted
    | Sent(id: MessageId)
    | Rejected(error: Error)

  /** The operations that a primary replicates. */
  datatype Op =
    | CreateUser(user: string)
    | JoinChannel(user: string, channel: string)
    | LeaveChannel(user: string, channel: string)
    | SendMessage(user: string, channel: string, text: string)

  const EMPTY_CHANNEL := Channel({}, map[], 0)

  const EMPTY_STORE := Store({}, map[])

  predicate ValidName(channel: string)
  {
    channel != [] && channel[0] == '#'
  }

  /** A channel that does not exist reads as one without members and messages. */
  function ChannelAt(st: Store, channel: string): Channel
  {
    if channel in st.channels then st.channels[channel] else EMPTY_CHANNEL
  }

  function PutChannel(st: Store, channel: string, ch: Channel): Store
  {
    st.(channels := st.channels[channel := ch])
  }

  /** Insertion into the ordered set: an element with an equal number is kept, not replaced. */
  function AddMessage(log: map<nat, Message>, n: nat, m: Message): map<nat, Message>
  {
    if n in log then log else log[n := m]
  }

  /** An accepted send takes the counter's value as its number, whether or not it is in use. */
  function SendOn(ch: Channel, m: Message): Channel
  {
    ch.(log := AddMessage(ch.log, ch.next, m), next := ch.next + 1)
  }

  /** The checks made before the wait for the user lookup. */
  function Precheck(st: Store, op: Op): Option<Error>
  {
    match op
    case CreateUser(u) => if u == [] then Some(InvalidUsername) else None
    case JoinChannel(_, _) => None
    case LeaveChannel(_, c) => CheckChannel(st, c)
    case SendMessage(_, c, _) => CheckChannel(st, c)
  }

  /** The first checks take the store's lock to look for the channel; all others do without. */
  predicate CheckLocks(op: Op)
  {
    (op.LeaveChannel? || op.SendMessage?) && ValidName(op.channel)
  }

  /** The change takes the lock unless the lookup's answer or the channel's name already decides. */
  predicate ChangeLocks(op: Op, found: bool)
  {
    op.CreateUser? || (found && (op.JoinChannel? ==> ValidName(op.channel)))
  }

  function CheckChannel(st: Store, channel: string): Option<Error>
  {
    if !ValidName(channel) then Some(InvalidChannelName)
    else if channel !in st.channels then Some(UnknownChannel)
    else None
  }

  /** The change made under the store's lock, once the user lookup has answered `exists`. */
  function Perform(st: Store, op: Op, found: bool): (Store, Reply)
  {
    match op
    case CreateUser(u) =>
      if u in st.users then (st, Rejected(DuplicateUser))
      else (st.(users := st.users + {u}), Accepted)
    case JoinChannel(u, c) =>
      if !found then (st, Rejected(UnknownUser))
      else if !ValidName(c) then (st, Rejected(InvalidChannelName))
      else
        var ch := ChannelAt(st, c);
        if u in ch.users then (st, Rejected(AlreadyMember))
        else (PutChannel(st, c, ch.(users := ch.users + {u})), Accepted)
    case LeaveChannel(u, c) =>
      var ch := ChannelAt(st, c);
      if !found then (st, Rejected(UnknownUser))
      else if u !in ch.users then (st, Rejected(NotAMember))
      else (PutChannel(st, c, ch.(users := ch.users - {u})), Accepted)
    case SendMessage(u, c, text) =>
      var ch := ChannelAt(st, c);
      if !found then (st, Rejected(UnknownUser))
      else if u !in ch.users then (st, Rejected(NotAMember))
      else
        var id := MessageId(c, ch.next);
        (PutChannel(st, c, SendOn(ch, Message(u, text, id))), Sent(id))
  }

  /** A whole operation on one server with nothing happening during the user lookup. */
  function Execute(st: Store, op: Op, found: bool): (Store, Reply)
  {
    match Precheck(st, op)
    case Some(e) => (st, Rejected(e))
    case None => Perform(st, op, found)
  }

  /** The message copy a primary sends along: its insertion counts only if the number is new. */
  function ReplicateSend(ch: Channel, n: nat, m: Message): Channel
  {
    if n in ch.log then ch else ch.(log := ch.log[n := m], next := ch.next + 1)
  }

  datatype Mirrored = Mirrored(store: Store, ack: Reply) | Panic

  /** What a backup does with a replicate request; `reply` is what the primary answered. The
      handler of a replicated message unwraps the channel. */
  function Mirror(st: Store, op: Op, reply: Reply): Mirrored
  {
    if op.SendMessage? then
      if !reply.Sent? || op.channel !in st.channels then Panic
      else
        var m := Message(op.user, op.text, reply.id);
        Mirrored(PutChannel(st, op.channel, ReplicateSend(st.channels[op.channel], reply.id.number, m)), reply)
    else
      var (st', ack) := Execute(st, op, true);
      Mirrored(st', ack)
  }
}
