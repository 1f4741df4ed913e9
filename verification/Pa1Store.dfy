/** The single-server store of the first assignment: channels with their users, and for each user the
    channels it is in; message numbers are global. Each operation is atomic here. */
module Pa1Store {

  import opened Prelude
  import opened Paging

  datatype Message = Message(username: string, text: string, messageId: nat)

  datatype Channel = Channel(users: set<string>, messages: seq<Message>)

  datatype Store = Store(
    users: set<string>,
    channels: map<string, Channel>,
    userChannels: map<string, set<string>>,
    next: nat)

  datatype Error =
    | UserExists
    | NoSuchUser
    | BadChannelName
    | NoSuchChannel
    | AlreadyInChannel
    | NotInChannel

  datatype Result<+T> = Ok(value: T) | Err(error: Error)

  const EMPTY := Store({}, map[], map[], 0)

  predicate ValidName(channel: string)
  {
    channel != [] && channel[0] == '#'
  }

  // ---------- the operations on values ----------

  datatype Op =
    | CreateUser(user: string)
    | Join(user: string, channel: string)
    | Leave(user: string, channel: string)
    | LeaveAll(user: string)
    | Send(channel: string, user: string, text: string)

  function AfterCreate(st: Store, u: string): (Store, Result<()>)
  {
    if u in st.users then (st, Err(UserExists))
    else (st.(users := st.users + {u}, userChannels := st.userChannels[u := {}]), Ok(()))
  }

  function ChannelsOf(st: Store, u: string): set<string>
  {
    if u in st.userChannels then st.userChannels[u] else {}
  }

  function AfterJoin(st: Store, u: string, c: string): (Store, Result<()>)
  {
    if u !in st.users then (st, Err(NoSuchUser))
    else if !ValidName(c) then (st, Err(BadChannelName))
    else
      var ch := if c in st.channels then st.channels[c] else Channel({}, []);
      if u in ch.users then (st, Err(AlreadyInChannel))
      else
        (st.(channels := st.channels[c := ch.(users := ch.users + {u})],
             userChannels := st.userChannels[u := ChannelsOf(st, u) + {c}]), Ok(()))
  }

  function AfterLeave(st: Store, u: string, c: string): (Store, Result<()>)
  {
    if !ValidName(c) then (st, Err(BadChannelName))
    else if c !in st.channels then (st, Err(NoSuchChannel))
    else if u !in st.users then (st, Err(NoSuchUser))
    else if u !in st.channels[c].users then (st, Err(NotInChannel))
    else
      (st.(channels := st.channels[c := st.channels[c].(users := st.channels[c].users - {u})],
           userChannels := st.userChannels[u := ChannelsOf(st, u) - {c}]), Ok(()))
  }

  predicate Member(st: Store, u: string, c: string)
  {
    c in st.channels && u in st.channels[c].users
  }

  /** User u has come to, or gone from, channel c, which exists now, and nothing else has changed. */
  ghost predicate MembersChanged(st: Store, st': Store, u: string, c: string, joined: bool)
  {
    && st'.users == st.users && st'.next == st.next
    && st'.channels.Keys == st.channels.Keys + {c}
    && (forall v, d {:trigger Member(st', v, d)} ::
          Member(st', v, d) <==> if v == u && d == c then joined else Member(st, v, d))
    && (forall v, d :: d in ChannelsOf(st', v) <==> if v == u && d == c then joined else d in ChannelsOf(st, v))
    && SameMessages(st, st')
  }

  /** One message of the user with the text and the next number has been added at the end of channel c. */
  ghost predicate Posted(st: Store, st': Store, c: string, u: string, text: string)
  {
    && c in st.channels && st'.channels.Keys == st.channels.Keys
    && st'.channels[c].messages == st.channels[c].messages + [Message(u, text, st.next)]
    && st'.channels[c].users == st.channels[c].users
    && (forall d :: d in st.channels && d != c ==> st'.channels[d] == st.channels[d])
    && st'.next == st.next + 1 && st'.users == st.users && st'.userChannels == st.userChannels
  }

  /** User u taken out of every channel. */
  function WithoutUser(st: Store, u: string): Store
  {
    st.(channels := map c | c in st.channels :: st.channels[c].(users := st.channels[c].users - {u}),
        userChannels := st.userChannels[u := {}])
  }

  function AfterLeaveAll(st: Store, u: string): Store
  {
    if u in st.users then WithoutUser(st, u) else st
  }

  function AfterSend(st: Store, c: string, u: string, text: string): (Store, Result<nat>)
  {
    if !ValidName(c) then (st, Err(BadChannelName))
    else if c !in st.channels then (st, Err(NoSuchChannel))
    else if u !in st.users then (st, Err(NoSuchUser))
    else if u !in st.channels[c].users then (st, Err(NotInChannel))
    else
      var m := Message(u, text, st.next);
      (st.(channels := st.channels[c := st.channels[c].(messages := st.channels[c].messages + [m])],
           next := st.next + 1), Ok(st.next))
  }

  function Apply(st: Store, op: Op): Store
  {
    match op
    case CreateUser(u) => AfterCreate(st, u).0
    case Join(u, c) => AfterJoin(st, u, c).0
    case Leave(u, c) => AfterLeave(st, u, c).0
    case LeaveAll(u) => AfterLeaveAll(st, u)
    case Send(c, u, text) => AfterSend(st, c, u, text).0
  }

  function ApplyAll(st: Store, ops: seq<Op>): Store
    decreases |ops|
  {
    if ops == [] then st else ApplyAll(Apply(st, ops[0]), ops[1..])
  }

  // ---------- the membership index ----------

  /** Channel side and user side of the index agree, and both speak of registered users only. */
  ghost predicate Indexed(st: Store)
  {
    && st.userChannels.Keys == st.users
    && (forall u, c :: u in st.userChannels && c in st.userChannels[u] ==>
          c in st.channels && u in st.channels[c].users)
    && (forall u, c :: c in st.channels && u in st.channels[c].users ==> u in st.users && c in st.userChannels[u])
    && (forall c :: c in st.channels ==> ValidName(c))
  }

  // ---------- the message numbers ----------

  /** Number n was given to a message of channel c. */
  predicate HasNumber(st: Store, c: string, n: nat)
  {
    c in st.channels && exists i :: 0 <= i < |st.channels[c].messages| && st.channels[c].messages[i].messageId == n
  }

  ghost predicate Used(st: Store, n: nat)
  {
    exists c :: HasNumber(st, c, n)
  }

  /** The numbers 0 to next - 1 are partitioned over the channels, ascending in each. */
  ghost predicate Partitioned(st: Store)
  {
    && (forall n: nat {:trigger Used(st, n)} :: Used(st, n) <==> n < st.next)
    && (forall c, d, n: nat {:trigger HasNumber(st, c, n), HasNumber(st, d, n)} ::
          HasNumber(st, c, n) && HasNumber(st, d, n) ==> c == d)
    && (forall c :: c in st.channels ==> Ascending(st.channels[c].messages))
  }

  ghost predicate Ascending(ms: seq<Message>)
  {
    forall i, j :: 0 <= i < j < |ms| ==> ms[i].messageId < ms[j].messageId
  }

  lemma IndexedMembers(st: Store, op: Op)
    requires Indexed(st) && (op.Join? || op.Leave?)
    ensures Indexed(Apply(st, op))
  {
  }

  lemma IndexedStep(st: Store, op: Op)
    requires Indexed(st)
    ensures Indexed(Apply(st, op))
  {
    if op.Join? || op.Leave? { IndexedMembers(st, op); }
  }

  /** All operations but a successful send leave every message where it is. */
  ghost predicate SameMessages(st: Store, st': Store)
  {
    && st'.next == st.next
    && (forall c :: c in st.channels ==> c in st'.channels && st'.channels[c].messages == st.channels[c].messages)
    && (forall c :: c in st'.channels && c !in st.channels ==> st'.channels[c].messages == [])
  }

  lemma QuietStep(st: Store, st': Store)
    requires Partitioned(st) && SameMessages(st, st')
    ensures Partitioned(st')
  {
    assert forall c, n: nat :: HasNumber(st', c, n) <==> HasNumber(st, c, n);
    assert forall n: nat :: Used(st', n) <==> Used(st, n);
  }

  lemma SendStep(st: Store, c: string, u: string, text: string)
    requires Partitioned(st) && AfterSend(st, c, u, text).1.Ok?
    ensures Partitioned(AfterSend(st, c, u, text).0)
  {
    var st' := AfterSend(st, c, u, text).0;
    var before, after := st.channels[c].messages, st'.channels[c].messages;
    forall d, n: nat
      ensures HasNumber(st', d, n) <==> HasNumber(st, d, n) || (d == c && n == st.next)
    {
      if HasNumber(st, d, n) {
        var i :| 0 <= i < |st.channels[d].messages| && st.channels[d].messages[i].messageId == n;
        assert st'.channels[d].messages[i].messageId == n;
      }
      if d == c && n == st.next { assert after[|before|].messageId == n; }
    }
    forall n: nat
      ensures Used(st', n) <==> Used(st, n) || n == st.next
    {
      if Used(st, n) {
        var d :| HasNumber(st, d, n);
        assert HasNumber(st', d, n);
      }
      if n == st.next { assert HasNumber(st', c, n); }
    }
    assert !Used(st, st.next);
    forall i | 0 <= i < |before|
      ensures before[i].messageId < st.next
    {
      assert HasNumber(st, c, before[i].messageId) && Used(st, before[i].messageId);
    }
  }

  lemma PartitionedStep(st: Store, op: Op)
    requires Partitioned(st)
    ensures Partitioned(Apply(st, op))
  {
    if op.Send? && AfterSend(st, op.channel, op.user, op.text).1.Ok? {
      SendStep(st, op.channel, op.user, op.text);
    } else {
      QuietStep(st, Apply(st, op));
    }
  }

  lemma {:induction false} RunKeeps(st: Store, ops: seq<Op>)
    requires Indexed(st) && Partitioned(st)
    ensures Indexed(ApplyAll(st, ops)) && Partitioned(ApplyAll(st, ops))
    decreases |ops|
  {
    if ops != [] {
      IndexedStep(st, ops[0]);
      PartitionedStep(st, ops[0]);
      RunKeeps(Apply(st, ops[0]), ops[1..]);
    }
  }

  /** After every sequence of operations: u is in channel c exactly when c is in u's channels, and all
      members are registered; the numbers of all messages together are exactly 0 to next - 1, each in one
      channel, ascending within it; and the pages of a channel add up to its whole history, newest first. */
  lemma StoreIsConsistent(ops: seq<Op>)
    ensures
      var st := ApplyAll(EMPTY, ops);
      && Indexed(st)
      && Partitioned(st)
      && forall c, limit: nat, count: nat :: c in st.channels && |st.channels[c].messages| <= limit * count ==>
           Pages(st.channels[c].messages, limit, 0, count) == Reverse(st.channels[c].messages)
  {
    RunKeeps(EMPTY, ops);
    var st := ApplyAll(EMPTY, ops);
    forall c, limit: nat, count: nat | c in st.channels && |st.channels[c].messages| <= limit * count
      ensures Pages(st.channels[c].messages, limit, 0, count) == Reverse(st.channels[c].messages)
    {
      PagesCoverHistory(st.channels[c].messages, limit, 0, count);
    }
  }

  // ---------- what is stored ----------

  predicate Holds(st: Store, c: string, m: Message)
  {
    c in st.channels && m in st.channels[c].messages
  }

  lemma HoldsStep(st: Store, op: Op, c: string, m: Message)
    ensures Holds(st, c, m) ==> Holds(Apply(st, op), c, m)
    ensures Holds(Apply(st, op), c, m) ==>
      Holds(st, c, m) || (op == Send(c, m.username, m.text) && m.messageId == st.next
                          && Member(st, m.username, c) && m.username in st.users)
  {
  }

  /** Some operation of the sequence sends the message, while its sender is registered and in the channel, and with
      the number that is next then. */
  ghost predicate WasSent(st: Store, ops: seq<Op>, c: string, m: Message)
  {
    exists i :: 0 <= i < |ops| && ops[i] == Send(c, m.username, m.text)
      && var before := ApplyAll(st, ops[..i]);
         m.messageId == before.next && m.username in before.users && Member(before, m.username, c)
  }

  lemma {:induction false} HistoryOf(st: Store, ops: seq<Op>, c: string, m: Message)
    ensures Holds(st, c, m) ==> Holds(ApplyAll(st, ops), c, m)
    ensures Holds(ApplyAll(st, ops), c, m) ==> Holds(st, c, m) || WasSent(st, ops, c, m)
    decreases |ops|
  {
    if ops != [] {
      var st' := Apply(st, ops[0]);
      HoldsStep(st, ops[0], c, m);
      HistoryOf(st', ops[1..], c, m);
      if WasSent(st', ops[1..], c, m) {
        var i :| 0 <= i < |ops[1..]| && ops[1..][i] == Send(c, m.username, m.text)
          && var before := ApplyAll(st', ops[1..][..i]);
             m.messageId == before.next && m.username in before.users && Member(before, m.username, c);
        assert ops[..i + 1][0] == ops[0] && ops[..i + 1][1..] == ops[1..][..i];
        assert ops[i + 1] == Send(c, m.username, m.text);
      } else if !Holds(st, c, m) && Holds(st', c, m) {
        assert ops[..0] == [] && ops[0] == Send(c, m.username, m.text);
      }
    }
  }

  lemma {:induction false} SentIsStored(st: Store, ops: seq<Op>, i: nat)
    requires i < |ops| && ops[i].Send?
    requires
      var before := ApplyAll(st, ops[..i]);
      ops[i].user in before.users && Member(before, ops[i].user, ops[i].channel) && ValidName(ops[i].channel)
    ensures
      Holds(ApplyAll(st, ops), ops[i].channel, Message(ops[i].user, ops[i].text, ApplyAll(st, ops[..i]).next))
    decreases i
  {
    var m := Message(ops[i].user, ops[i].text, ApplyAll(st, ops[..i]).next);
    if i == 0 {
      assert ops[..0] == [];
      assert Holds(Apply(st, ops[0]), ops[0].channel, m) by {
        var ms := st.channels[ops[0].channel].messages;
        assert (ms + [m])[|ms|] == m;
      }
      HistoryOf(Apply(st, ops[0]), ops[1..], ops[0].channel, m);
    } else {
      assert ops[..i][0] == ops[0] && ops[..i][1..] == ops[1..][..i - 1];
      SentIsStored(Apply(st, ops[0]), ops[1..], i - 1);
    }
  }

  /** After every sequence of operations a channel holds exactly the messages that were sent to it by registered
      users while they were members, each under its sender's name, with its text and the number it was given. */
  lemma MessagesAreThoseSent(ops: seq<Op>, c: string, m: Message)
    ensures Holds(ApplyAll(EMPTY, ops), c, m) <==> WasSent(EMPTY, ops, c, m)
  {
    HistoryOf(EMPTY, ops, c, m);
    if WasSent(EMPTY, ops, c, m) {
      var i :| 0 <= i < |ops| && ops[i] == Send(c, m.username, m.text)
        && var before := ApplyAll(EMPTY, ops[..i]);
           m.messageId == before.next && m.username in before.users && Member(before, m.username, c);
      RunKeeps(EMPTY, ops[..i]);
      SentIsStored(EMPTY, ops, i);
    }
  }

  // ---------- the store itself ----------

  /** User u is gone from the channels in `gone` and untouched elsewhere. */
  ghost predicate PartlyWithout(st: Store, before: Store, u: string, gone: set<string>)
  {
    && st.users == before.users && st.next == before.next
    && st.channels.Keys == before.channels.Keys
    && (forall c :: c in before.channels ==>
          st.channels[c] == if c in gone then before.channels[c].(users := before.channels[c].users - {u})
            else before.channels[c])
    && u in before.userChannels
    && st.userChannels == before.userChannels[u := before.userChannels[u] - gone]
  }

  lemma FullyWithout(st: Store, before: Store, u: string)
    requires Indexed(before) && u in before.users
    requires PartlyWithout(st, before, u, before.userChannels[u])
    ensures st == WithoutUser(before, u)
  {
    var want := WithoutUser(before, u);
    forall c | c in before.channels
      ensures st.channels[c] == want.channels[c]
    {
    }
    assert st.channels == want.channels;
    assert before.userChannels[u] - before.userChannels[u] == {};
    assert st.userChannels == want.userChannels;
  }

  class AppState {
    var users: set<string>
    var channels: map<string, Channel>
    var userChannels: map<string, set<string>>
    var nextMessageId: nat

    function View(): Store
      reads this
    {
      Store(users, channels, userChannels, nextMessageId)
    }

    ghost predicate Valid()
      reads this
    {
      Indexed(View())
    }

    constructor ()
      ensures Valid() && View() == EMPTY
    {
      users, channels, userChannels, nextMessageId := {}, map[], map[], 0;
    }

    method CreateUser(username: string) returns (r: Result<()>)
      requires Valid()
      modifies this
      ensures Valid() && (View(), r) == AfterCreate(old(View()), username)
      ensures r == Err(UserExists) <==> username in old(users)
      ensures r == Ok(()) <==> username !in old(users)
      ensures users == old(users) + {username} && channels == old(channels) && nextMessageId == old(nextMessageId)
    {
      IndexedStep(View(), Op.CreateUser(username));
      if username in users {
        return Err(UserExists);
      }
      users := users + {username};
      userChannels := userChannels[username := {}];
      r := Ok(());
    }

    method JoinChannel(username: string, channel: string) returns (r: Result<()>)
      requires Valid()
      modifies this
      ensures Valid() && (View(), r) == AfterJoin(old(View()), username, channel)
      ensures r == Err(NoSuchUser) <==> username !in old(users)
      ensures r == Err(BadChannelName) <==> username in old(users) && !("#" <= channel)
      ensures r == Err(AlreadyInChannel) <==> username in old(users) && Member(old(View()), username, channel)
      ensures r == Ok(())
        <==> username in old(users) && "#" <= channel && !Member(old(View()), username, channel)
      ensures r.Err? ==> View() == old(View())
      ensures r.Ok? ==> MembersChanged(old(View()), View(), username, channel, true)
    {
      IndexedStep(View(), Join(username, channel));
      if username !in users {
        return Err(NoSuchUser);
      }
      if !ValidName(channel) {
        return Err(BadChannelName);
      }
      var ch := if channel in channels then channels[channel] else Channel({}, []);
      if username in ch.users {
        return Err(AlreadyInChannel);
      }
      channels := channels[channel := ch.(users := ch.users + {username})];
      userChannels := userChannels[username := userChannels[username] + {channel}];
      r := Ok(());
    }

    method LeaveChannel(username: string, channel: string) returns (r: Result<()>)
      requires Valid()
      modifies this
      ensures Valid() && (View(), r) == AfterLeave(old(View()), username, channel)
      ensures r == Err(BadChannelName) <==> !("#" <= channel)
      ensures r == Err(NoSuchChannel) <==> "#" <= channel && channel !in old(channels)
      ensures r == Err(NoSuchUser) <==> channel in old(channels) && username !in old(users)
      ensures r == Err(NotInChannel)
        <==> channel in old(channels) && username in old(users) && !Member(old(View()), username, channel)
      ensures r == Ok(()) <==> username in old(users) && Member(old(View()), username, channel)
      ensures r.Err? ==> View() == old(View())
      ensures r.Ok? ==> MembersChanged(old(View()), View(), username, channel, false)
    {
      IndexedStep(View(), Leave(username, channel));
      if !ValidName(channel) {
        return Err(BadChannelName);
      }
      if channel !in channels {
        return Err(NoSuchChannel);
      }
      if username !in users {
        return Err(NoSuchUser);
      }
      if username !in channels[channel].users {
        return Err(NotInChannel);
      }
      channels := channels[channel := channels[channel].(users := channels[channel].users - {username})];
      userChannels := userChannels[username := userChannels[username] - {channel}];
      r := Ok(());
    }

    /** Leaves the user's channels one after the other; no single leave can fail. */
    method LeaveAllChannels(username: string)
      requires Valid()
      modifies this
      ensures Valid() && View() == AfterLeaveAll(old(View()), username)
    {
      if username !in users {
        return;
      }
      var left := userChannels[username];
      ghost var gone: set<string> := {};
      while left != {}
        invariant Valid()
        invariant gone + left == old(userChannels)[username] && gone !! left
        invariant PartlyWithout(View(), old(View()), username, gone)
        decreases left
      {
        var channel :| channel in left;
        ghost var before := View();
        assert channel in userChannels[username];
        var r := LeaveChannel(username, channel);
        assert r.Ok?;
        LeaveOne(before, old(View()), username, gone, channel);
        left := left - {channel};
        gone := gone + {channel};
      }
      FullyWithout(View(), old(View()), username);
    }

    method SendMessage(channel: string, username: string, text: string) returns (r: Result<nat>)
      requires Valid()
      modifies this
      ensures Valid() && (View(), r) == AfterSend(old(View()), channel, username, text)
      ensures r == Err(BadChannelName) <==> !("#" <= channel)
      ensures r == Err(NoSuchChannel) <==> "#" <= channel && channel !in old(channels)
      ensures r == Err(NoSuchUser) <==> channel in old(channels) && username !in old(users)
      ensures r == Err(NotInChannel)
        <==> channel in old(channels) && username in old(users) && !Member(old(View()), username, channel)
      ensures r.Ok? <==> username in old(users) && Member(old(View()), username, channel)
      ensures r.Err? ==> View() == old(View())
      ensures r.Ok? ==> r.value == old(nextMessageId) && Posted(old(View()), View(), channel, username, text)
    {
      IndexedStep(View(), Send(channel, username, text));
      if !ValidName(channel) {
        return Err(BadChannelName);
      }
      if channel !in channels {
        return Err(NoSuchChannel);
      }
      if username !in users {
        return Err(NoSuchUser);
      }
      if username !in channels[channel].users {
        return Err(NotInChannel);
      }
      var messageId := nextMessageId;
      nextMessageId := nextMessageId + 1;
      var message := Message(username, text, messageId);
      channels := channels[channel := channels[channel].(messages := channels[channel].messages + [message])];
      r := Ok(messageId);
    }

    method GetMessages(channel: string, limit: Option<nat>, offset: Option<nat>) returns (r: Result<seq<Message>>)
      requires Valid()
      ensures r == Err(BadChannelName) <==> !("#" <= channel)
      ensures r == Err(NoSuchChannel) <==> "#" <= channel && channel !in channels
      ensures r.Ok? <==> channel in channels
      ensures r.Ok? ==> IsPage(channels[channel].messages, limit, offset, r.value)
    {
      if !ValidName(channel) {
        return Err(BadChannelName);
      }
      if channel !in channels {
        return Err(NoSuchChannel);
      }
      PageContents(channels[channel].messages, limit, offset);
      r := Ok(Page(channels[channel].messages, limit, offset));
    }
  }

  lemma LeaveOne(st: Store, before: Store, u: string, gone: set<string>, c: string)
    requires Indexed(st) && PartlyWithout(st, before, u, gone)
    requires c !in gone && AfterLeave(st, u, c).1.Ok?
    ensures PartlyWithout(AfterLeave(st, u, c).0, before, u, gone + {c})
  {
    var st' := AfterLeave(st, u, c).0;
    assert before.userChannels[u] - (gone + {c}) == (before.userChannels[u] - gone) - {c};
  }

  /** Leaving everywhere takes the user out of every channel and changes nothing else: no other user's
      membership, no message, no number. */
  lemma LeaveAllIsComplete(st: Store, u: string)
    requires Indexed(st) && u in st.users
    ensures
      var st' := AfterLeaveAll(st, u);
      && Indexed(st')
      && ChannelsOf(st', u) == {}
      && SameMessages(st, st') && st'.users == st.users
      && (forall c :: c in st'.channels ==> c in st.channels && u !in st'.channels[c].users)
      && (forall c, v :: v != u && c in st.channels ==> (v in st'.channels[c].users <==> v in st.channels[c].users))
      && (forall v :: v != u ==> ChannelsOf(st', v) == ChannelsOf(st, v))
  {
    IndexedStep(st, LeaveAll(u));
  }

  /** A client connection: the user it is logged in as. */
  class Session {
    const shared: AppState
    var user: Option<string>

    constructor (shared: AppState)
      ensures this.shared == shared && user == None
    {
      this.shared, user := shared, None;
    }

    /** When the connection is lost the user leaves all channels. */
    method HandleUnexpectedClose()
      requires shared.Valid()
      modifies shared
      ensures shared.Valid()
      ensures shared.View() == if user.Some? then AfterLeaveAll(old(shared.View()), user.value) else old(shared.View())
    {
      if user.Some? {
        shared.LeaveAllChannels(user.value);
      }
    }
  }
}
