/** What each operation answers and what it changes, in the store's own terms: for every error the condition
    under which it is given, for every success the state it leaves. */
module Outcomes {

  import opened Prelude
  import opened StoreSpec

  predicate StartsWithHash(channel: string)
  {
    "#" <= channel
  }

  predicate HasChannel(st: Store, channel: string)
  {
    StartsWithHash(channel) && channel in st.channels
  }

  predicate IsMember(st: Store, user: string, channel: string)
  {
    channel in st.channels && user in st.channels[channel].users
  }

  /** The messages of a channel; none when it does not exist. */
  function MessagesOf(st: Store, channel: string): map<nat, Message>
  {
    if channel in st.channels then st.channels[channel].log else map[]
  }

  function NextNumber(st: Store, channel: string): nat
  {
    if channel in st.channels then st.channels[channel].next else 0
  }

  /** Error e is the answer to the operation; `found` is what the lookup of the user has answered. */
  predicate Reason(st: Store, op: Op, found: bool, e: Error)
  {
    match e
    case InvalidUsername => op.CreateUser? && op.user == ""
    case DuplicateUser => op.CreateUser? && op.user != "" && op.user in st.users
    case UnknownUser =>
      !op.CreateUser? && !found && (op.LeaveChannel? || op.SendMessage? ==> HasChannel(st, op.channel))
    case InvalidChannelName =>
      !op.CreateUser? && !StartsWithHash(op.channel) && (op.JoinChannel? ==> found)
    case UnknownChannel =>
      (op.LeaveChannel? || op.SendMessage?) && StartsWithHash(op.channel) && op.channel !in st.channels
    case AlreadyMember =>
      op.JoinChannel? && found && StartsWithHash(op.channel) && IsMember(st, op.user, op.channel)
    case NotAMember =>
      (op.LeaveChannel? || op.SendMessage?) && found && HasChannel(st, op.channel)
        && !IsMember(st, op.user, op.channel)
    case DuplicateChannel => false
  }

  ghost predicate NoReason(st: Store, op: Op, found: bool)
  {
    forall e :: !Reason(st, op, found, e)
  }

  /** r is the right answer to the operation on this store. */
  ghost predicate RightAnswer(st: Store, op: Op, found: bool, r: Reply)
  {
    match r
    case Rejected(e) => Reason(st, op, found, e)
    case Accepted => !op.SendMessage? && NoReason(st, op, found)
    case Sent(id) =>
      op.SendMessage? && NoReason(st, op, found) && id == MessageId(op.channel, NextNumber(st, op.channel))
  }

  /** Every error and every success is answered exactly when it is the right answer. */
  lemma AnswersExactly(st: Store, op: Op, found: bool, r: Reply)
    ensures Execute(st, op, found).1 == r <==> RightAnswer(st, op, found, r)
  {
    var a := Execute(st, op, found).1;
    if a.Rejected? {
      assert Reason(st, op, found, a.error);
    } else {
      assert NoReason(st, op, found);
    }
  }

  /** No two reasons apply at once. */
  lemma OneReason(st: Store, op: Op, found: bool, e: Error, e': Error)
    requires Reason(st, op, found, e) && Reason(st, op, found, e')
    ensures e == e'
  {
  }

  /** The effect of a success, seen by every reader of users, members and messages. */
  ghost predicate Effect(st: Store, op: Op, st': Store)
  {
    && st'.users == (if op.CreateUser? then st.users + {op.user} else st.users)
    && st'.channels.Keys == st.channels.Keys + (if op.JoinChannel? then {op.channel} else {})
    && (forall u, c {:trigger IsMember(st', u, c)} ::
          IsMember(st', u, c) <==> (op == JoinChannel(u, c) || (IsMember(st, u, c) && op != LeaveChannel(u, c))))
    && (forall c {:trigger MessagesOf(st', c)} ::
          MessagesOf(st', c) == if op.SendMessage? && op.channel == c then WithSent(st, op) else MessagesOf(st, c))
    && (forall c {:trigger NextNumber(st', c)} ::
          NextNumber(st', c) == NextNumber(st, c) + if op.SendMessage? && op.channel == c then 1 else 0)
  }

  /** The sender's message under the next number; one that is in use keeps what it has. */
  function WithSent(st: Store, op: Op): map<nat, Message>
    requires op.SendMessage?
  {
    var n := NextNumber(st, op.channel);
    var m := Message(op.user, op.text, MessageId(op.channel, n));
    if n in MessagesOf(st, op.channel) then MessagesOf(st, op.channel) else MessagesOf(st, op.channel)[n := m]
  }

  /** An operation that is refused changes nothing, any other has exactly its effect. */
  lemma ChangesExactly(st: Store, op: Op, found: bool)
    ensures
      var (st', r) := Execute(st, op, found);
      if r.Rejected? then st' == st else Effect(st, op, st')
  {
  }

  /** The copy of an operation on a backup: a creation, join or leave is carried out like a client's whose
      lookup has found the user; a message is stored under the number it came with, once. */
  lemma CopiesExactly(st: Store, op: Op, reply: Reply)
    requires Mirror(st, op, reply).Mirrored?
    ensures
      var m := Mirror(st, op, reply);
      if op.SendMessage? then
        && m.ack == reply && reply.Sent?
        && m.store.users == st.users && m.store.channels.Keys == st.channels.Keys
        && (forall u, c :: IsMember(m.store, u, c) <==> IsMember(st, u, c))
        && (forall c :: c != op.channel ==>
              MessagesOf(m.store, c) == MessagesOf(st, c) && NextNumber(m.store, c) == NextNumber(st, c))
        && (reply.id.number in MessagesOf(st, op.channel) ==> m.store == st)
        && (reply.id.number !in MessagesOf(st, op.channel) ==>
              && MessagesOf(m.store, op.channel)
                 == MessagesOf(st, op.channel)[reply.id.number := Message(op.user, op.text, reply.id)]
              && NextNumber(m.store, op.channel) == NextNumber(st, op.channel) + 1)
      else
        RightAnswer(st, op, true, m.ack) && if m.ack.Rejected? then m.store == st else Effect(st, op, m.store)
  {
    if op.SendMessage? {
      assert PutChannel(st, op.channel, st.channels[op.channel]) == st;
    } else {
      AnswersExactly(st, op, true, Mirror(st, op, reply).ack);
      ChangesExactly(st, op, true);
    }
  }
}
