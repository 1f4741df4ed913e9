/** One server's store as it is kept: mutable sets and maps, and per channel an ordered list of
    messages under their printed ids. Each operation is proved against StoreSpec. */
module DiscordStore {

  import opened Prelude
  import opened MessageIds
  import opened StoreSpec
  import opened OrderedSets
  import opened Paging

  datatype Stored = Stored(username: string, text: string, messageId: string)

  /** `messages` lists the ordered set in ascending order of the parsed numbers. */
  datatype Room = Room(users: set<string>, messages: seq<Stored>, nextMessageId: nat)

  datatype Result<+T> = Ok(value: T) | Err(error: Error)

  function Printed(id: MessageId): string
  {
    FormatId(id.channel, id.number)
  }

  /** The part of s before its last dash. */
  function BeforeLastDash(s: string): string
  {
    if s == [] then []
    else if s[|s| - 1] == '-' then s[..|s| - 1]
    else BeforeLastDash(s[..|s| - 1])
  }

  function ParsedId(s: string): MessageId
  {
    MessageId(BeforeLastDash(s), NumericId(s).GetOr(0))
  }

  /** An id that the system has printed. */
  predicate Genuine(s: string)
  {
    s == Printed(ParsedId(s))
  }

  /** An id by which messages can be ordered; any other one panics. */
  predicate Parses(s: string)
  {
    NumericId(s).Some?
  }

  lemma {:induction false} PrefixBeforeDash(prefix: string, tail: string)
    requires '-' !in tail
    ensures BeforeLastDash(prefix + "-" + tail) == prefix
  {
    var s := prefix + "-" + tail;
    if tail == [] {
      assert s[..|s| - 1] == prefix;
    } else {
      var n := |tail| - 1;
      assert s[|s| - 1] == tail[n];
      assert s[..|s| - 1] == prefix + "-" + tail[..n];
      PrefixBeforeDash(prefix, tail[..n]);
    }
  }

  /** Printing and parsing an id are inverse. */
  lemma PrintedParses(id: MessageId)
    ensures ParsedId(Printed(id)) == id && Genuine(Printed(id)) && Parses(Printed(id))
  {
    FormatParses(id.channel, id.number);
    PrefixBeforeDash(id.channel, Decimal(id.number));
  }

  // ---------- the ordered set of messages ----------

  function Number(m: Stored): nat
  {
    ParsedId(m.messageId).number
  }

  function Meaning(m: Stored): Message
  {
    Message(m.username, m.text, ParsedId(m.messageId))
  }

  /** A well-formed listing: ids that parse, to ascending numbers. */
  ghost predicate Listing(ms: seq<Stored>)
  {
    && (forall m :: m in ms ==> Parses(m.messageId))
    && Ordered(Number, ms)
  }

  ghost predicate AllGenuine(ms: seq<Stored>)
  {
    forall m :: m in ms ==> Genuine(m.messageId)
  }

  ghost function LogOf(ms: seq<Stored>): map<nat, Message>
  {
    MapValues(Meaning, Index(Number, ms))
  }

  lemma InsertIsAdd(ms: seq<Stored>, m: Stored)
    requires Listing(ms) && Parses(m.messageId)
    ensures Listing(Insert(Number, ms, m))
    ensures AllGenuine(ms) && Genuine(m.messageId) ==> AllGenuine(Insert(Number, ms, m))
    ensures LogOf(Insert(Number, ms, m)) == AddMessage(LogOf(ms), Number(m), Meaning(m))
    ensures Number(m) in LogOf(ms) <==> Insert(Number, ms, m) == ms
  {
    InsertMembers(Number, ms, m);
    InsertKeepsOrder(Number, ms, m);
    InsertIntoIndex(Number, ms, m);
    MapValuesUpdate(Meaning, Index(Number, ms), Number(m), m);
  }

  lemma MeaningIsInjective(m: Stored, n: Stored)
    requires Genuine(m.messageId) && Genuine(n.messageId) && Meaning(m) == Meaning(n)
    ensures m == n
  {
  }

  /** A listing of printed ids is determined by the log, so two servers with equal logs return equal pages. */
  lemma EqualLogsEqualPages(ms: seq<Stored>, ns: seq<Stored>, limit: Option<nat>, offset: Option<nat>)
    requires Listing(ms) && Listing(ns) && AllGenuine(ms) && AllGenuine(ns) && LogOf(ms) == LogOf(ns)
    ensures Page(ms, limit, offset) == Page(ns, limit, offset)
  {
    forall m, n | m in ms && n in ns && Meaning(m) == Meaning(n)
      ensures m == n
    {
      MeaningIsInjective(m, n);
    }
    ImageIsCanonical(Number, Meaning, ms, ns);
  }

  // ---------- the store ----------

  ghost function Meant(room: Room): Channel
  {
    Channel(room.users, LogOf(room.messages), room.nextMessageId)
  }

  const EMPTY_ROOM := Room({}, [], 0)

  /** A reply as the store's callers see it: the id of a message printed. */
  function Reported(reply: Reply): Result<string>
  {
    match reply
    case Accepted => Ok("")
    case Sent(id) => Ok(Printed(id))
    case Rejected(e) => Err(e)
  }

  ghost function MeantChannels(channels: map<string, Room>): map<string, Channel>
  {
    map c | c in channels :: Meant(channels[c])
  }

  lemma MeantUpdate(channels: map<string, Room>, c: string, room: Room)
    ensures MeantChannels(channels[c := room]) == MeantChannels(channels)[c := Meant(room)]
  {
  }

  lemma MeantInsert(room: Room, room': Room, n: nat, m: Message)
    requires room'.users == room.users && LogOf(room'.messages) == AddMessage(LogOf(room.messages), n, m)
    requires n in LogOf(room.messages) <==> room'.messages == room.messages
    ensures n == room.nextMessageId && room'.nextMessageId == n + 1 ==> Meant(room') == SendOn(Meant(room), m)
    ensures room'.nextMessageId == room.nextMessageId + (if room'.messages != room.messages then 1 else 0)
      ==> Meant(room') == ReplicateSend(Meant(room), n, m)
  {
  }

  predicate Member(channels: map<string, Room>, username: string, channel: string)
  {
    channel in channels && username in channels[channel].users
  }

  /** The members are the same, the counter has advanced, and the message is among the old ones, unless one with its
      number is. */
  ghost predicate Grown(room: Room, room': Room, m: Stored)
  {
    && room'.users == room.users && room'.nextMessageId == room.nextMessageId + 1
    && Inserted(Number, room.messages, m, room'.messages)
  }

  /** The members are the same, and a message that was not there has advanced the counter. */
  ghost predicate Copied(room: Room, room': Room, m: Stored)
  {
    && room'.users == room.users
    && Inserted(Number, room.messages, m, room'.messages)
    && room'.nextMessageId == room.nextMessageId + |room'.messages| - |room.messages|
  }

  /** The numbering of a new message. */
  method AppendMessage(room: Room, username: string, text: string, channel: string)
      returns (room': Room, messageId: string)
    requires Listing(room.messages)
    ensures Listing(room'.messages) && (AllGenuine(room.messages) ==> AllGenuine(room'.messages))
    ensures messageId == Printed(MessageId(channel, room.nextMessageId))
    ensures Meant(room') == SendOn(Meant(room), Message(username, text, MessageId(channel, room.nextMessageId)))
    ensures Grown(room, room', Stored(username, text, messageId))
  {
    var numericMessageId := room.nextMessageId;
    messageId := FormatId(channel, numericMessageId);
    var message := Stored(username, text, messageId);
    PrintedParses(MessageId(channel, numericMessageId));
    InsertIsAdd(room.messages, message);
    InsertPlaces(Number, room.messages, message);
    room' := room.(messages := Insert(Number, room.messages, message), nextMessageId := numericMessageId + 1);
    MeantInsert(room, room', numericMessageId, Meaning(message));
  }

  /** The insertion of a message numbered elsewhere; the counter counts actual insertions. */
  method InsertCopy(room: Room, message: Stored) returns (room': Room)
    requires Listing(room.messages) && Parses(message.messageId)
    ensures Listing(room'.messages)
    ensures AllGenuine(room.messages) && Genuine(message.messageId) ==> AllGenuine(room'.messages)
    ensures Meant(room') == ReplicateSend(Meant(room), Number(message), Meaning(message))
    ensures Copied(room, room', message)
  {
    InsertIsAdd(room.messages, message);
    InsertPlaces(Number, room.messages, message);
    var inserted := Insert(Number, room.messages, message);
    var didInsert := if inserted != room.messages then 1 else 0;
    room' := room.(messages := inserted, nextMessageId := room.nextMessageId + didInsert);
    MeantInsert(room, room', Number(message), Meaning(message));
  }

  class AppState {
    var users: set<string>
    var channels: map<string, Room>

    ghost predicate Valid()
      reads this
    {
      forall c :: c in channels ==> Listing(channels[c].messages)
    }

    /** All ids were printed by the system. */
    ghost predicate OnlyGenuine()
      reads this
    {
      forall c :: c in channels ==> AllGenuine(channels[c].messages)
    }

    ghost function View(): Store
      reads this
    {
      Store(users, MeantChannels(channels))
    }

    constructor ()
      ensures Valid() && OnlyGenuine() && View() == EMPTY_STORE
    {
      users, channels := {}, map[];
    }

    method UserExists(username: string) returns (found: bool)
      ensures found <==> username in View().users
    {
      found := username in users;
    }

    method CreateUser(username: string) returns (r: Result<string>)
      requires Valid()
      modifies this
      ensures Valid() && (old(OnlyGenuine()) ==> OnlyGenuine())
      ensures
        var (st, reply) := Execute(old(View()), StoreSpec.CreateUser(username), true);
        View() == st && r == Reported(reply)
      ensures r == Err(InvalidUsername) <==> username == ""
      ensures r == Err(DuplicateUser) <==> username != "" && username in old(users)
      ensures r == Ok("") <==> username != "" && username !in old(users)
      ensures channels == old(channels) && users == if r.Ok? then old(users) + {username} else old(users)
    {
      if username == [] {
        return Err(InvalidUsername);
      }
      var inserted := username !in users;
      users := users + {username};
      if !inserted {
        assert users == old(users);
        r := Err(DuplicateUser);
      } else {
        r := Ok("");
      }
    }

    method CreateChannel(channel: string) returns (r: Result<string>)
      requires Valid()
      modifies this
      ensures Valid() && (old(OnlyGenuine()) ==> OnlyGenuine()) && users == old(users)
      ensures r == if channel in old(View()).channels then Err(DuplicateChannel) else Ok("")
      ensures View() == if channel in old(View()).channels then old(View())
        else PutChannel(old(View()), channel, EMPTY_CHANNEL)
    {
      if channel in channels {
        r := Err(DuplicateChannel);
      } else {
        MeantUpdate(channels, channel, EMPTY_ROOM);
        channels := channels[channel := EMPTY_ROOM];
        assert Meant(EMPTY_ROOM) == EMPTY_CHANNEL;
        r := Ok("");
      }
    }

    /** `found` is what the lookup of the user, here or on another server, has answered. */
    method JoinChannel(username: string, channel: string, found: bool) returns (r: Result<string>)
      requires Valid()
      modifies this
      ensures Valid() && (old(OnlyGenuine()) ==> OnlyGenuine())
      ensures
        var (st, reply) := Execute(old(View()), StoreSpec.JoinChannel(username, channel), found);
        View() == st && r == Reported(reply)
      ensures r == Err(UnknownUser) <==> !found
      ensures r == Err(InvalidChannelName) <==> found && !("#" <= channel)
      ensures r == Err(AlreadyMember) <==> found && "#" <= channel && Member(old(channels), username, channel)
      ensures r == Ok("") <==> found && "#" <= channel && !Member(old(channels), username, channel)
      ensures users == old(users) && (r.Err? ==> channels == old(channels))
      ensures r.Ok? ==>
        var room := if channel in old(channels) then old(channels)[channel] else Room({}, [], 0);
        channels == old(channels)[channel := Room(room.users + {username}, room.messages, room.nextMessageId)]
    {
      if !found {
        return Err(UnknownUser);
      }
      if !ValidName(channel) {
        return Err(InvalidChannelName);
      }
      var room := if channel in channels then channels[channel] else EMPTY_ROOM;
      assert Meant(room) == ChannelAt(View(), channel);
      if username in room.users {
        r := Err(AlreadyMember);
      } else {
        room := room.(users := room.users + {username});
        MeantUpdate(channels, channel, room);
        channels := channels[channel := room];
        r := Ok("");
      }
    }

    method LeaveChannel(username: string, channel: string, found: bool) returns (r: Result<string>)
      requires Valid()
      modifies this
      ensures Valid() && (old(OnlyGenuine()) ==> OnlyGenuine())
      ensures
        var (st, reply) := Execute(old(View()), StoreSpec.LeaveChannel(username, channel), found);
        View() == st && r == Reported(reply)
      ensures r == Err(InvalidChannelName) <==> !("#" <= channel)
      ensures r == Err(UnknownChannel) <==> "#" <= channel && channel !in old(channels)
      ensures r == Err(UnknownUser) <==> "#" <= channel && channel in old(channels) && !found
      ensures r == Err(NotAMember)
        <==> "#" <= channel && channel in old(channels) && found && username !in old(channels)[channel].users
      ensures r == Ok("")
        <==> "#" <= channel && channel in old(channels) && found && username in old(channels)[channel].users
      ensures users == old(users) && (r.Err? ==> channels == old(channels))
      ensures r.Ok? ==>
        var room := old(channels)[channel];
        channels == old(channels)[channel := Room(room.users - {username}, room.messages, room.nextMessageId)]
    {
      if !ValidName(channel) {
        return Err(InvalidChannelName);
      }
      if channel !in channels {
        return Err(UnknownChannel);
      }
      if !found {
        return Err(UnknownUser);
      }
      var room := channels[channel];
      if username !in room.users {
        return Err(NotAMember);
      }
      room := room.(users := room.users - {username});
      MeantUpdate(channels, channel, room);
      channels := channels[channel := room];
      r := Ok("");
    }

    method SendMessage(channel: string, username: string, text: string, found: bool) returns (r: Result<string>)
      requires Valid()
      modifies this
      ensures Valid() && (old(OnlyGenuine()) ==> OnlyGenuine())
      ensures
        var (st, reply) := Execute(old(View()), StoreSpec.SendMessage(username, channel, text), found);
        View() == st && r == Reported(reply)
      ensures r == Err(InvalidChannelName) <==> !("#" <= channel)
      ensures r == Err(UnknownChannel) <==> "#" <= channel && channel !in old(channels)
      ensures r == Err(UnknownUser) <==> "#" <= channel && channel in old(channels) && !found
      ensures r == Err(NotAMember)
        <==> "#" <= channel && channel in old(channels) && found && username !in old(channels)[channel].users
      ensures r.Ok?
        <==> "#" <= channel && channel in old(channels) && found && username in old(channels)[channel].users
      ensures users == old(users) && (r.Err? ==> channels == old(channels))
      ensures r.Ok? ==>
        && r.value == FormatId(channel, old(channels)[channel].nextMessageId)
        && channel in channels && channels == old(channels)[channel := channels[channel]]
        && Grown(old(channels)[channel], channels[channel], Stored(username, text, r.value))
    {
      if !ValidName(channel) {
        return Err(InvalidChannelName);
      }
      if channel !in channels {
        return Err(UnknownChannel);
      }
      if !found {
        return Err(UnknownUser);
      }
      var room := channels[channel];
      if username !in room.users {
        return Err(NotAMember);
      }
      var messageId;
      room, messageId := AppendMessage(room, username, text, channel);
      MeantUpdate(channels, channel, room);
      channels := channels[channel := room];
      r := Ok(messageId);
    }

    /** The channel must exist and the id must parse: the handler unwraps both. */
    method ReplicateSendMessage(channel: string, username: string, text: string, messageId: string)
        returns (r: Result<string>)
      requires Valid() && channel in channels && Parses(messageId)
      modifies this
      ensures Valid() && (old(OnlyGenuine()) && Genuine(messageId) ==> OnlyGenuine())
      ensures
        var m := Mirror(old(View()), StoreSpec.SendMessage(username, channel, text), Sent(ParsedId(messageId)));
        m.Mirrored? && View() == m.store && (Genuine(messageId) ==> r == Reported(m.ack))
      ensures r == Ok(messageId) && users == old(users)
      ensures channel in channels && channels == old(channels)[channel := channels[channel]]
      ensures Copied(old(channels)[channel], channels[channel], Stored(username, text, messageId))
    {
      var room := InsertCopy(channels[channel], Stored(username, text, messageId));
      MeantUpdate(channels, channel, room);
      channels := channels[channel := room];
      r := Ok(messageId);
    }

    method GetMessages(channel: string, limit: Option<nat>, offset: Option<nat>) returns (r: Result<seq<Stored>>)
      requires Valid()
      ensures r == Err(InvalidChannelName) <==> !("#" <= channel)
      ensures r == Err(UnknownChannel) <==> "#" <= channel && channel !in channels
      ensures r.Ok? <==> "#" <= channel && channel in channels
      ensures r.Ok? ==>
        && IsPage(channels[channel].messages, limit, offset, r.value)
        && r.value == Page(channels[channel].messages, limit, offset)
    {
      if !ValidName(channel) {
        return Err(InvalidChannelName);
      }
      if channel !in channels {
        return Err(UnknownChannel);
      }
      PageContents(channels[channel].messages, limit, offset);
      r := Ok(Page(channels[channel].messages, limit, offset));
    }

    method ListChannelUsers(channel: string) returns (r: Result<set<string>>)
      ensures r == Err(InvalidChannelName) <==> !("#" <= channel)
      ensures r == Err(UnknownChannel) <==> "#" <= channel && channel !in View().channels
      ensures r.Ok? <==> "#" <= channel && channel in View().channels
      ensures r.Ok? ==> forall u :: u in r.value <==> u in View().channels[channel].users
    {
      if !ValidName(channel) {
        return Err(InvalidChannelName);
      }
      if channel !in channels {
        return Err(UnknownChannel);
      }
      r := Ok(channels[channel].users);
    }
  }
}
