# A verified model of two chat servers

The repository holds two chat servers. `pa2` is a store replicated over three servers: every username and
every channel has a primary and a backup, requests are forwarded to the owner, successful writes are copied
to the backup before they are acknowledged, heartbeats mark peers dead, and the backup serves a dead
primary's keys. `pa1` is its single-server predecessor. This project models both in Dafny 4.11 and proves what
they promise, or exactly when they keep it.

`dafny verify dfyconfig.toml` checks everything.

## How the model is built

| files | part of the program |
|---|---|
| `StoreSpec`, `Outcomes`, `MessageIds`, `OrderedSets`, `Paging`, `Sorting` | what one pa2 server stores, as values; when each error and each success is answered and what it changes; ids; ordered message sets; pages; sorting |
| `DiscordStore`, `Startup` | the pa2 store as a class with mutable fields, each operation proved against `StoreSpec` |
| `Servers`, `Cluster` | owners of a key; the three servers as a step system |
| `Protocol`, `UserReplication`, `LogReplication`, `SerialClients`, `Membership`, `Channels`, `AcknowledgedMembers`, `Failover`, `Forwarding` | invariants of the step system and the theorems about every run |
| `Takeovers`, `Overlaps`, `Answers`, `Completion`, `Repetition` | exactly when a takeover loses messages, a copy can panic, a request can still be answered; how often a request is carried out |
| `Replies`, `ReplicaPages` | what a client is told, and what a reader sees |
| `UserLookup`, `UnionReads` | reads that take several steps while the cluster moves on |
| `Schedules`, `Hazards`, `Repeats` | concrete runs, built from single calls, on which a promise fails |
| `PeerLink`, `PeerRuns`, `Heartbeat`, `LeaderSelection`, `ServerConfig` | one connection, failure detection, leaders, configuration |
| `Pa1Store`, `LineFraming` | the pa1 store and the reading loops of both programs |

**The cluster.** A `Call` is one activation of an operation on one server. It is cut at every wait and at
every release of a lock: deciding whether the server is authoritative, reading the primary's mark again to
route, first checks, each step of the lookup of the user (its own two reads of marks, the question to the
user's owner, the answer, the repetition), the change, reading the backup's mark, copying, the
acknowledgement, the answer, the retry. Steps of different calls interleave freely, so replicate requests
arrive in any order; a crash can happen between any two steps, and a message of a crashed server may still
arrive. `Cluster.Do` is the only definition of a step; a run is any sequence of enabled actions from
`Cluster.Init`. The hash of usernames and channels is an uninterpreted function.

**Hypotheses of all cluster theorems.** Servers crash and stay down; a server marks a peer dead only after
that peer has crashed, and never takes the mark back (the only calls pass `false`,
pa2/src/server_middleware.rs:210 and :518). Both are part of `Cluster.Enabled`.
The step system follows the locks: a poisoned store stops an operation where the source takes the lock, and
not earlier. The user lookup of a join, leave or send is part of the call, so a request whose lookup is never
answered hangs in the model as in the program, and every run that is claimed to exist looks its users up.

Some theorems need more, and each of these conditions is shown to be exact or comes with a run that needs it:

* *Safe takeover of a channel* (`Failover.Safe`): when the backup marks the primary dead, its numbers have no gap and
  no copy still on its way is numbered above its next one. Needed for message ids and acknowledged messages;
  exact by `Takeovers.SafeIffNothingLost`. Sends that the crashed primary numbered and never sent do no harm.
* *The channel exists on the backup*: exactly then no copy of a send can panic there
  (`Overlaps.PanicIffChannelMissing`). An acknowledged join is enough (`Channels.NoPanicAfterJoin`).
* *Disciplined clients* (`SerialClients.Disciplined`): a user has one channel operation in flight at a time. Needed
  for the backup to agree with every answer of the primary; which copies it refuses otherwise is
  `Channels.CopyRefusedIff`.
* *Nothing stale under way* (`LeaderSelection.NothingStale`): exactly then an agreed leader lasts
  (`LeaderSelection.LeaderLastsIff`).

## What was found

* The backup's next id is its message count (pa2/src/discord_stateops.rs:274), not its largest id plus one. If
  a later message was copied before an earlier one and the primary then crashes, the backup gives an
  acknowledged id out a second time, and the insertion into the ordered set drops the new message although its
  sender is told it was stored (`Hazards.GapReissuesId`). A copy that arrives after the takeover can do the same to
  a log without a gap. `Takeovers.SafeIffNothingLost` says exactly which takeovers can lose an acknowledged send.
  The comment at :273 speaks of the state after all replications only.
* `replicate_send_message` unwraps the channel (:269) while holding the lock. A join and a send of one user
  that overlap can poison the backup's store (`Overlaps.OverlapPoisonsBackup`), exactly while the channel is
  not on the backup (`Overlaps.PanicIffChannelMissing`).
* A request whose server forwards it panics at pa2/src/distributed_stateops.rs:59 exactly when that server is the
  backup and the primary has been marked dead between the two reads of its state (`Forwarding.RoutePanicsIff`,
  `Hazards.RouteCanPanic`). The same assertion is reached by the lookup inside a join, leave or send, then with
  the user's owners: the request panics on its channel's own primary (`UserLookup.LookupPanicsIff`,
  `Hazards.LookupCanPanic`).
* pa2/README.md promises that requests are retried against the backup, so that clients do not hang. Without a
  further crash a request is answered on some schedule if and only if `Answers.CanFinish` holds
  (`Completion.AnswerableIff`). Requests at a live server that are not: those whose key has lost both owners, marked or not, or
  comes to a server with a poisoned lock; joins, leaves and sends whose user has lost both owners, or whose user's
  lookup comes to a server with a poisoned lock; those whose copy met, or can only meet, a panicking backup and
  that nothing refuses before; those that wait for a call that has panicked on a live server. With no lock poisoned and one
  crash at most every new request can be answered (`Completion.FreshRequestsAnswerable`).
* A request is carried out at most once, and once more for each retry that gives up on a call which had got past
  its change (`Repetition.CarriedOutOnce`). Such retries happen when the primary crashes before its answer arrives: a
  send is then stored under two ids (`Repeats.SendStoredTwice`), and a client is told that a username exists which
  nobody but his own request has created (`Repeats.CreationRefusedOnRetry`).
* A username seen by a lookup can be gone after a crash when its creation was not acknowledged yet
  (`Hazards.AnswersCanRegress`); one that was acknowledged is never denied.
* An announcement of a crashed leader that is delivered late is believed (`LeaderSelection.StaleGreetingMisleads`),
  until something makes the server recompute or a new announcement reaches it
  (`LeaderSelection.SilenceKeepsLeader`).
* A pa1 command line that starts with `SEND` or `HISTORY` and has no space ends the connection by a panic, and the
  user stays in all channels (pa1/server/src/tcp_handlers.rs:131 and :151).

## Model

| member | source | states |
|---|---|---|
| `Protocol.InvStep` | pa2/src/distributed_stateops.rs:52-110 | Every step keeps: dead marks are accurate; only an authoritative server checks, changes or copies; copies are sent by the primary only; a forwarded call carries its parent's operation to an owner that is another server; each fruitless forward has cost its server one owner it took for alive |
| `UserReplication.AcknowledgedUsersSurvive` | pa2/src/distributed_stateops.rs:300-337 | In every run and over every path (local, forwarded, retried, backup lost while waiting), a username whose creation returned Ok is in the user set of every owner still alive |
| `UserReplication.AtMostOneGrant` | pa2/src/distributed_stateops.rs:305-335 | Over every run, crashes and retries included, at most one client request to create a given username gets Ok |
| `UserReplication.BackupAcceptsUsers` | pa2/src/distributed_stateops.rs:170-174 | While the primary lives its backup accepts each creation it is sent, with the primary's own answer |
| `UserReplication.UserStep` | pa2/src/distributed_stateops.rs:300-337 | Every step of any operation keeps the invariant behind the three theorems: the backup never has a user that the live primary lacks, a creation in progress is unique per server, all news of one creation come from one client request |
| `Replies.CarriedOutIsAnswered` | pa2/src/distributed_stateops.rs:309-325 | In every run an operation that was carried out, with reply r, keeps r until it is answered, and is answered with r by a server that is the backup itself or has marked the backup dead, otherwise only with what the backup has acknowledged for this call |
| `Replies.LostBackupIsNoRefusal` | pa2/src/distributed_stateops.rs:322-324 | In every run, if the backup has crashed before it acknowledged, a creation, join, leave or send that was carried out is answered with its own success, never refused |
| `Replies.ForwardedAnswer` | pa2/src/distributed_stateops.rs:326-335 | In every run a server that has forwarded a request and does not retry it answers with the reply of the call it was forwarded to, which is then done |
| `Replies.AnswersAreDecided` | pa2/src/distributed_stateops.rs:300-337 | In every run a client is answered only what its operation answers, in some state of the run and for a call of this very request, on the store of the server in charge, at its first checks or with the outcome of its lookup, or on the backup's store for the copy |
| `Replies.LockPanicsIff` | pa2/src/discord_stateops.rs:110-324 | In every run the first checks and the change of a call panic exactly when they take a poisoned lock, which depends on operation, channel name and outcome of the lookup |
| `Outcomes.AnswersExactly` | pa2/src/discord_stateops.rs:101-324 | For every operation, store and outcome of the lookup: each error is answered if and only if its condition on names, users, channels and members holds, and a success, for a send with the id of the next number, if and only if none does |
| `Outcomes.ChangesExactly` | pa2/src/discord_stateops.rs:101-324 | A refused operation changes nothing; any other changes exactly one user, one membership or one message and counter, and nothing of any other user or channel |
| `Outcomes.CopiesExactly` | pa2/src/distributed_stateops.rs:166-217 | A copied creation, join or leave is answered and carried out on the backup like a client's whose user was found; a copied message is stored once under the id, sender and text it came with |
| `LogReplication.ReplicasConverge` | pa2/src/discord_stateops.rs:261-276 | Under any reordering of copies and while neither owner has marked the other dead: primary numbers are exactly 0 to next-1, primary messages are the disjoint union of the backup's and those outstanding, the backup's counter is its message count; with nothing outstanding logs and counters are equal |
| `LogReplication.LogStep` | pa2/src/distributed_stateops.rs:581-636 | Every step keeps that each number stands for one call, that what the backup holds the primary holds under the same number, and that what the backup lacks is outstanding in some call |
| `LogReplication.NumberedSize` | pa2/src/discord_stateops.rs:273-274 | A log numbered without a gap has as many messages as its counter says, so a count can serve as the next id |
| `DiscordStore.EqualLogsEqualPages` | pa2/src/discord_stateops.rs:328-362 | Two servers whose logs are equal, of ids that the system has printed, return equal pages for every limit and offset |
| `ReplicaPages.OwnersReturnEqualPages` | pa2/src/discord_stateops.rs:261-276 | In every run, while neither owner has marked the other dead and no copy is outstanding, primary and backup return equal pages for every limit and offset |
| `Membership.BackupNeverRefuses` | pa2/src/distributed_stateops.rs:175-217 | With disciplined clients every copied join, leave and send finds its channel on the backup and no handler panics; while the sender lives the acknowledgement is the primary's own answer |
| `Channels.CopyPanicsIff` | pa2/src/discord_stateops.rs:268-269 | In every run, whatever the clients do, a copy makes the backup panic exactly when it is a send, the backup is sound, and the channel does not exist there |
| `Channels.CopyRefusedIff` | pa2/src/distributed_stateops.rs:175-203 | In every run a sound backup acknowledges a copied join or leave, with the primary's answer exactly when the user is not yet, or is still, a member there |
| `Channels.NoPanicAfterJoin` | pa2/src/discord_stateops.rs:178-182 | Once a join of the channel was acknowledged, the channel is on every live owner and no copy of a send on it panics, without any discipline |
| `Channels.CheckedFindsChannel` | pa2/src/discord_stateops.rs:243-244 | A leave or send that has passed its first checks finds its channel at the change, after whatever happened during the lookup |
| `Channels.ChannelStep` | pa2/src/discord_stateops.rs:140-195 | Every step keeps that channels have valid names and are never removed, that the answer to a join leaves only when every live owner has the channel, and that nobody waits for a finished call |
| `Overlaps.PanicIffChannelMissing` | pa2/src/discord_stateops.rs:269 | In every reachable state with both owners up and sound and a username whose lookups are answered, some crash-free continuation makes the backup panic on a send on the channel if and only if the channel is not on the backup |
| `AcknowledgedMembers.AcknowledgedMembersStay` | pa2/src/distributed_stateops.rs:485-507 | In every run, when nothing undoing it is in flight as a join or leave begins and nothing of the kind begins later, an acknowledged join or leave holds on every owner still alive, takeovers included |
| `Membership.IdleUsersAgree` | pa2/src/distributed_stateops.rs:467-575 | With disciplined clients a user with nothing in flight is a member on both live owners of a channel or on neither |
| `Membership.MemberStep` | pa2/src/discord_stateops.rs:156-254 | Every step keeps the invariant behind both: between change and copy the two owners differ on exactly that user, a send's channel exists on the backup |
| `SerialClients.ExclusiveStep` | pa2/src/distributed_stateops.rs:467-636 | Forwarding and retrying do not multiply a disciplined user's operation: while the channel's primary lives it is active in one call and the call waiting for it |
| `Failover.AcknowledgedSendsSurvive` | pa2/src/distributed_stateops.rs:600-635 | When the channel's takeover, if there is one, is safe, an acknowledged message is stored under the id its sender was told on every owner still alive |
| `Failover.IdsAreNeverReissued` | pa2/src/discord_stateops.rs:317-323 | Then no id of the channel is given to two client requests |
| `Failover.LaterSendsGetLargerIds` | pa2/src/discord_stateops.rs:274-323 | Then a send started after another on the channel was acknowledged gets a larger number, whichever owner serves it |
| `Takeovers.SafeIffNothingLost` | pa2/src/discord_stateops.rs:269-323 | In every reachable state in which a sound backup is about to take a channel over, and with a username whose lookups are answered, some crash-free continuation acknowledges a send that the backup does not store if and only if the takeover is not safe |
| `Failover.FreshIffNoGap` | pa2/src/discord_stateops.rs:270-322 | A counter equal to the message count stays fresh in every interleaving of own sends with arriving copies if and only if the numbers held are 0 to count-1 and no copy in flight is numbered above the count |
| `Failover.FreshStep` | pa2/src/discord_stateops.rs:261-323 | Every step but an unsafe takeover keeps that a serving backup is safe, and that every number a client can still be told is stored on the server in charge and belongs to one client request |
| `Failover.NumberOrigin` | pa2/src/distributed_stateops.rs:600-635 | A call's number is either taken by this very step from the counter of the server in charge, or was already held within the same client request |
| `Hazards.GapReissuesId` | pa2/src/discord_stateops.rs:269-275 | A run of two registered users, whom lookups find when they are known, in which two acknowledged sends share an id and the surviving owner lacks the second message |
| `Overlaps.OverlapPoisonsBackup` | pa2/src/discord_stateops.rs:268-269 | A run without crashes, of a user created first, for every channel that does not exist from the start, in which the copy of a send overtakes that of the join and poisons the backup |
| `Hazards.BothOwnersLostDooms` | pa2/src/distributed_stateops.rs:326-336 | A run, for every operation, that leaves a request retrying with both owners marked dead |
| `Forwarding.DoomedForever` | pa2/src/distributed_stateops.rs:326-336 | From such a state no continuation answers the request, further crashes included |
| `Completion.AnswerableIff` | pa2/src/distributed_stateops.rs:278-336 | In every reachable state, for every client request, some continuation without a crash answers it if and only if `Answers.CanFinish` holds: for itself or the call it waits for, an answer is under way, or its key has a live owner where it is refused at once or gets past the lock, the lookup of its user is answered, and its copy gets through or another call makes it be refused |
| `Completion.FreshRequestsAnswerable` | pa2/src/distributed_stateops.rs:278-336 | While no lock is poisoned and one server at most has crashed, every new request at a live server, of whatever user, can be answered without a further crash |
| `Answers.RunLost` | pa2/src/distributed_stateops.rs:278-336 | A request that cannot finish is not answered in any continuation without a crash |
| `Answers.StepLost` | pa2/src/distributed_stateops.rs:278-336 | No step without a crash, of whatever call, makes a lost call viable again |
| `Completion.CompletionRuns` | pa2/src/distributed_stateops.rs:278-336 | The schedule that answers a request which can finish, with all its lookups, by a decreasing rank |
| `Repetition.CarriedOutOnce` | pa2/src/distributed_stateops.rs:326-336 | In every run a client request is carried out at most once, and once more for each retry that gives up on a call which had got past its change |
| `Repetition.LineStep` | pa2/src/distributed_stateops.rs:95-110 | Every step keeps the open calls of one client request in a line, each waiting for the next |
| `Repeats.SendStoredTwice` | pa2/src/distributed_stateops.rs:629-635 | A run in which one send, retried after its primary crashed, is stored under two ids on the surviving owner |
| `Repeats.CreationRefusedOnRetry` | pa2/src/distributed_stateops.rs:330-335 | A run, for every username and third server, in which the only creation of the user is answered with DUPLICATE_USER |
| `Forwarding.SingleAuthority` | pa2/src/distributed_stateops.rs:305-307 | At most one live server treats itself as authoritative for a key, and all live calls that work on a key are on it |
| `Forwarding.ForwardingIsBounded` | pa2/src/distributed_stateops.rs:95-110 | At most two hops, the second to the primary, never back to the sender's server; unless both owners are marked dead the fruitless forwards of a call are at most as many as the owners marked dead, and it forwards at most twice |
| `Forwarding.RoutePanicsIff` | pa2/src/distributed_stateops.rs:95-109 | Forwarding a request panics exactly when its call is on the backup and the primary has been marked dead since the first read |
| `UserLookup.LookupPanicsIff` | pa2/src/distributed_stateops.rs:278-292 | In every run the lookup of a join, leave or send panics exactly on its second read on the user's backup that has marked the user's primary since the first, or reading its own users under a poisoned lock |
| `Hazards.LookupCanPanic` | pa2/src/distributed_stateops.rs:284-291 | For every username a run in which a join panics this way on the primary of its channel |
| `Hazards.RouteCanPanic` | pa2/src/distributed_stateops.rs:101-109 | Such a run, for every username |
| `UserLookup.LookupsAreTruthful` | pa2/src/distributed_stateops.rs:278-299 | In every run, when the lookup of a join, leave or send has found the user an owner holds the username; and once a username was granted, no lookup that had not come back negative by then ever does, whatever crashes |
| `UserLookup.LookupRepeatsOnce` | pa2/src/distributed_stateops.rs:291-297 | The question is asked again at most once, unless both owners are marked dead |
| `Hazards.AnswersCanRegress` | pa2/src/distributed_stateops.rs:116-120 | A run in which an unacknowledged username is seen by one lookup and denied by a later one |
| `UserLookup.LookupInvStep` | pa2/src/distributed_stateops.rs:278-299 | Every step keeps that lookups ask only owners, another server than their own, and that what they heard was so |
| `UnionReads.ReadsAreComplete` | pa2/src/distributed_stateops.rs:341-362 | The list that a finished reading of all users returns is strictly ascending and holds every username granted before it began, if one of its owners is still alive, hence always when at most one server has crashed |
| `UnionReads.ChannelReadsAreComplete` | pa2/src/distributed_stateops.rs:414-436 | So does the list of all channels with every channel a join of which was acknowledged before |
| `UnionReads.ReadsAreFounded` | pa2/src/distributed_stateops.rs:341-362 | A list of users or channels holds only names that some server holds |
| `UnionReads.ReadingEndsIff` | pa2/src/distributed_stateops.rs:341-362 | A reading on a live server, at any point, can be brought to its end without a crash if and only if no live server that is still to answer has a poisoned store; crashed servers do not stop it |
| `UnionReads.AtMostMeans` | pa2/src/distributed_stateops.rs:359 | The order of the list: a prefix first, otherwise by the first character that differs |
| `UnionReads.CollectNames` | pa2/src/distributed_stateops.rs:346-361 | The list returned is strictly ascending and holds exactly the names of this server and of the servers that answered; `get_channels` ends in the same way |
| `UnionReads.AscendingIsCanonical` | pa2/src/distributed_stateops.rs:359-361 | Equal unions give equal lists |
| `Sorting.SortContents` | pa2/src/distributed_stateops.rs:359 | Sorting is a permutation |
| `Sorting.SortSorted` | pa2/src/distributed_stateops.rs:359 | Its result is sorted, for every total order |
| `UnionReads.DedupAscends` | pa2/src/distributed_stateops.rs:360 | On a sorted list, dropping neighbours that are equal leaves each name once, ascending |
| `MessageIds.FormatParses` | pa2/src/discord_stateops.rs:37-46 | The number parsed after the last dash is the number printed, whatever dashes the channel name holds |
| `MessageIds.FormatInjective` | pa2/src/discord_stateops.rs:37-43 | No two pairs of channel and number print alike |
| `MessageIds.DecimalIsPlain` | pa2/src/discord_stateops.rs:41 | A number below ten prints as its digit, a larger one without a leading zero |
| `MessageIds.NumberReads` | pa2/src/discord_stateops.rs:44-46 | A number is read from exactly the texts that are its decimal with any zeros and at most one plus sign before it |
| `DiscordStore.PrintedParses` | pa2/src/discord_stateops.rs:41-46 | Printing and parsing an id, channel and number, are inverse |
| `DiscordStore.InsertIsAdd` | pa2/src/discord_stateops.rs:17-27 | Insertion into the ordered set, of any id whose number parses, keeps it well formed, adds the message unless its number is taken, and reports which |
| `OrderedSets.InsertKeepsOrder` | pa2/src/discord_stateops.rs:50 | Insertion keeps the listing strictly ascending |
| `OrderedSets.InsertPlaces` | pa2/src/discord_stateops.rs:48-52 | Insertion adds the element at one place and moves no other, or changes nothing when one with its key is there |
| `OrderedSets.ImageIsCanonical` | pa2/src/discord_stateops.rs:354-360 | A listing is determined by what its elements mean under their keys |
| `DiscordStore.AppendMessage` | pa2/src/discord_stateops.rs:317-323 | A sent message takes the counter's value as its number, is printed under it, is stored with its sender and text at one place, and the counter advances whether or not the insertion happened |
| `DiscordStore.InsertCopy` | pa2/src/discord_stateops.rs:270-274 | A copied message keeps its id, and the counter advances exactly when it was not there |
| `DiscordStore.AppState.constructor` | pa2/src/discord_stateops.rs:66-73 | The store starts empty |
| `DiscordStore.AppState.UserExists` | pa2/src/discord_stateops.rs:96-99 | True exactly for the users of the store |
| `DiscordStore.AppState.CreateUser` | pa2/src/discord_stateops.rs:101-120 | Refuses exactly the empty name and a name in use, each with its error; otherwise exactly this name is added; the same as the cluster's creation |
| `DiscordStore.AppState.CreateChannel` | pa2/src/discord_stateops.rs:140-152 | Adds an empty channel, refuses an existing one |
| `DiscordStore.AppState.JoinChannel` | pa2/src/discord_stateops.rs:156-195 | Each error if and only if its condition holds, in the source's order; otherwise the user becomes a member of the channel, created if need be, and nothing else changes; the same as the cluster's join |
| `DiscordStore.AppState.LeaveChannel` | pa2/src/discord_stateops.rs:215-254 | Each of the four errors if and only if its condition holds, in the source's order; otherwise the user is no member any more and nothing else changes; the same as the cluster's leave |
| `DiscordStore.AppState.SendMessage` | pa2/src/discord_stateops.rs:277-324 | Each of the four errors if and only if its condition holds; otherwise the answer is the printed id of the next number, the channel gains the message with this sender and text, and no other channel changes; the same as the cluster's send |
| `DiscordStore.AppState.ReplicateSendMessage` | pa2/src/discord_stateops.rs:261-276 | The message is added with its own id unless one with its number is there, the counter advances exactly if it was added, no other channel changes, the answer is the id; the same as the cluster's copying of a send |
| `DiscordStore.AppState.GetMessages` | pa2/src/discord_stateops.rs:328-362 | Each error if and only if its condition holds; otherwise the messages newest first, from the offset, by default 0, at most the limit, by default 20 |
| `DiscordStore.AppState.ListChannelUsers` | pa2/src/discord_stateops.rs:196-214 | Each error if and only if its condition holds; otherwise exactly the members of the channel |
| `Startup.InitState` | pa2/src/distributed_stateops.rs:230-244 | The store a server starts with is the one the cluster's runs start from; exactly the ids A, B and C are accepted |
| `Startup.FixedChannelsOnOwners` | pa2/src/distributed_stateops.rs:230-240 | At the start exactly the channels #cs249, #distributed and #systems exist, empty, each on its primary and its backup and nowhere else |
| `Servers.OwnersOnRing` | pa2/src/distributed_stateops.rs:254-276 | The hash picks the primary, the next server of the ring is the backup |
| `Paging.PageContents` | pa2/src/discord_stateops.rs:351-360 | For every limit and offset, given or not: the length of the page, 20 by default, and every element of it, counted from the newest message |
| `Paging.PagesConcatenate` | pa2/src/discord_stateops.rs:351-360 | Two consecutive pages are one page of the summed limit |
| `Paging.PagesCoverHistory` | pa1/server/src/stateops.rs:257-267 | Page after page gives the whole history newest first, each message once |
| `PeerLink.NoRequestStranded` | pa2/src/server_middleware.rs:208-219 | For every interleaving of both ends' sending tasks, death tasks and readers: each submitted callback is queued, waiting or completed and only one of these, and once the peer is marked dead and all tasks are at rest the table is empty and every callback completed |
| `PeerLink.CompletedOnce` | pa2/src/server_middleware.rs:282-301 | From every state that meets the link's invariant, which every run keeps, what a callback was completed with never changes, drains and late responses included |
| `PeerLink.ResponsesMatch` | pa2/src/server_middleware.rs:267-278 | At both ends a callback completed with a value got the result computed for the very request it was submitted with; the next number is unused, so registering overwrites nothing |
| `PeerRuns.RequestsAreAnswered` | pa2/src/server_middleware.rs:258-301 | In every run without a mark, a failed write or a handler that gives up on a request with a callback, once both ends are at rest: the requests of each end have arrived under the numbers 1, 2, ... in the order of their submission, each was served under its body by a step of the peer (or, without a callback, only taken note of), and every callback was completed with the result of its own request |
| `PeerRuns.ComesToRest` | pa2/src/server_middleware.rs:411-485 | Such a run, once nothing more is submitted, can always move on until both ends are at rest, and has at most as many steps as a measure of the work left |
| `PeerRuns.ValuesAreServed` | pa2/src/server_middleware.rs:425-434 | In every run whatever, a callback completed with a value was submitted with a request whose number and body the peer has computed this value for |
| `PeerRuns.GoneOnlyWhenDead` | pa2/src/server_middleware.rs:282-301 | Only an end that has marked its peer dead tells a callback that no answer comes |
| `PeerLink.EndStep` | pa2/src/server_middleware.rs:258-301 | Every step of one end keeps, for both ends: the places of callbacks, a drain still ahead whenever the table is not empty after the mark, increasing numbers on the wire, results kept with the request they answer |
| `PeerLink.PeerState.constructor` | pa2/src/server_middleware.rs:45-57 | A peer starts alive, at number 0, with an empty table |
| `PeerLink.PeerState.SetAlive` | pa2/src/server_middleware.rs:105-108 | Only the mark changes |
| `PeerLink.PeerState.RegisterItem` | pa2/src/server_middleware.rs:267-279 | A request takes the next number and its callback is registered under it; a response takes none |
| `PeerLink.PeerState.Take` | pa2/src/server_middleware.rs:427-434 | A response removes exactly the callback of its number, if there is one |
| `PeerLink.PeerState.DrainCallbacks` | pa2/src/server_middleware.rs:298-300 | The loop empties the table and completes exactly the callbacks that were in it |
| `Heartbeat.HeartbeatIsExact` | pa2/src/server_middleware.rs:178-237 | In every sequence of pings, timeouts and PONGs: no ping is resolved twice; the counter is the number of timeouts not beaten by their PONG since the last PONG that came first and in time; dead if and only if there are three such timeouts with no such PONG between first and third, never if every timeout is preceded by its PONG |
| `Heartbeat.LatePongIgnored` | pa2/src/server_middleware.rs:227-236 | A ping waits exactly until its timeout or PONG; a PONG after either changes nothing |
| `Heartbeat.HeartbeatState.constructor` | pa2/src/server_middleware.rs:178-180 | Nothing pending, no miss, key 0 |
| `Heartbeat.HeartbeatState.SendPing` | pa2/src/server_middleware.rs:186-188 | Makes a new key pending |
| `Heartbeat.HeartbeatState.OnTimeout` | pa2/src/server_middleware.rs:198-212 | Counts a miss if the key is still pending, declares the peer dead at the third |
| `Heartbeat.HeartbeatState.OnPong` | pa2/src/server_middleware.rs:227-235 | Resets the counter if the key is still pending, otherwise nothing |
| `LeaderSelection.LeaderNeverOutranked` | pa2/src/server_middleware.rs:312-355 | In every run, however late announcements and recomputations come, each server's leader is the highest-priority live server or a crashed one, and at most one live server names itself |
| `LeaderSelection.SurvivorsAgree` | pa2/src/server_middleware.rs:322-355 | From a quiet state on, once every live server has recomputed, all hold the same leader, the highest-priority live server, and keep it |
| `LeaderSelection.StaleGreetingMisleads` | pa2/src/server_middleware.rs:447-450 | A run in which, from the facts that hold in every initial state (`LeaderSelection.InitialLeader`), a survivor has recomputed, sees exactly the live servers, nothing is under way, and still its leader is the crashed one |
| `LeaderSelection.SilenceKeepsLeader` | pa2/src/server_middleware.rs:322-346 | With nothing under way only a new recomputation or greeting changes a leader |
| `LeaderSelection.LeaderLastsIff` | pa2/src/server_middleware.rs:322-355 | A survivor that sees the live servers and holds the right leader keeps it in every crash-free continuation if and only if no recomputation of its own and no announcement to it that names a crashed server is under way |
| `LeaderSelection.AnnouncementSettles` | pa2/src/server_middleware.rs:348-356 | From a quiet state on, a server to which a leader was announced holds the highest-priority live server once the announcement is delivered, without a recomputation of its own |
| `LeaderSelection.TakeoverRuns` | pa2/src/server_middleware.rs:348-356 | From every quiet state a run in which the top live server picks and announces itself, and the other believes it |
| `LeaderSelection.NetStep` | pa2/src/server_middleware.rs:312-355 | Every step keeps that no leader, pick or announcement names a live server that a live server outranks |
| `LeaderSelection.PrioritiesTell` | pa2/src/config.rs:30-39 | With unique priorities a server is determined by its priority, so the top is unique |
| `LeaderSelection.RankedHead` | pa2/src/server_middleware.rs:330-338 | The head of the sorted and reversed list is one of the alive servers, of the highest priority |
| `LeaderSelection.SystemState.constructor` | pa2/src/server_middleware.rs:77-101 | All configured servers start alive, the leader has the highest priority |
| `LeaderSelection.SystemState.SetServerState` | pa2/src/server_middleware.rs:105-108 | Exactly one server joins or leaves the alive set |
| `LeaderSelection.SystemState.OnFailure` | pa2/src/server_middleware.rs:326-347 | The new leader has the highest priority of the alive servers, in whatever order they are listed, and is announced if and only if it is this server |
| `ServerConfig.ValidateConfig` | pa2/src/config.rs:30-39 | Accepted if and only if all priorities differ |
| `ServerConfig.GetConfigFor` | pa2/src/config.rs:22-29 | The first entry with the id; none exactly when no entry has it |
| `LineFraming.FramingUndoesWriting` | pa2/src/server_middleware.rs:259-279 | A text frames as given lines and a given tail if and only if it is what a writer of those newline-free messages, then of that tail, produces |
| `LineFraming.FramingIsIncremental` | pa2/src/server_middleware.rs:411-423 | Framing a part, then its tail together with the rest, frames the whole |
| `LineFraming.ReadMessages` | pa2/src/server_middleware.rs:410-423 | For every cut into chunks the loop dispatches exactly the terminated lines of the whole text in order and keeps the unterminated tail; it ends by disconnection exactly when a read returned nothing |
| `LineFraming.DeliveryIsExact` | pa2/src/server_middleware.rs:410-423 | Newline-free messages arrive as sent, however their text is cut up |
| `LineFraming.ProcessSocket` | pa1/server/src/tcp_handlers.rs:193-259 | For every cut into chunks the answered lines are those of the whole text up to the first that ends the connection, the ending is the one that line or the closed stream calls for, and the user leaves all channels exactly on a closed stream |
| `LineFraming.AnsweredIsLongestPrefix` | pa1/server/src/tcp_handlers.rs:209-256 | The answered lines are the longest answerable prefix; the connection survives them exactly when that is all lines, and otherwise ends by QUIT or by panic according to the next line |
| `LineFraming.WhatEndsIt` | pa1/server/src/tcp_handlers.rs:209-242 | A line closes the connection exactly when it begins with QUIT, panics exactly when it begins with SEND or HISTORY and has no space, after the whitespace around it is taken off |
| `Pa1Store.StoreIsConsistent` | pa1/server/src/stateops.rs:100-268 | After every sequence of operations: u is in channel c exactly when c is in u's channels, members are registered, all numbers together are exactly 0 to next-1, each in one channel and ascending there, and the pages of a channel add up to its history |
| `Pa1Store.MessagesAreThoseSent` | pa1/server/src/stateops.rs:203-235 | After every sequence of operations a channel holds exactly the messages that registered users sent to it while they were members, each with its sender, its text and the number that was next |
| `Pa1Store.LeaveAllIsComplete` | pa1/server/src/stateops.rs:183-199 | Afterwards u is in no channel and its index entry is empty; no other user's membership, no message and no number has changed |
| `Pa1Store.AppState.constructor` | pa1/server/src/stateops.rs:36-45 | The store starts empty and consistent |
| `Pa1Store.AppState.CreateUser` | pa1/server/src/stateops.rs:70-79 | Refuses exactly a name in use; otherwise registers it with an empty index entry |
| `Pa1Store.AppState.JoinChannel` | pa1/server/src/stateops.rs:100-136 | Each error if and only if its condition holds; otherwise enters user and channel on both sides of the index and changes nothing else; the unwrap cannot fail |
| `Pa1Store.AppState.LeaveChannel` | pa1/server/src/stateops.rs:151-181 | Each error if and only if its condition holds; otherwise removes user and channel on both sides of the index and changes nothing else |
| `Pa1Store.AppState.LeaveAllChannels` | pa1/server/src/stateops.rs:183-199 | The loop over single leaves, none of which can fail, takes the user out of every channel at once |
| `Pa1Store.AppState.SendMessage` | pa1/server/src/stateops.rs:203-235 | Each error if and only if its condition holds; otherwise exactly one message with this sender, this text and the next global number is appended to the channel, and no other channel changes |
| `Pa1Store.AppState.GetMessages` | pa1/server/src/stateops.rs:239-268 | Each error if and only if its condition holds; otherwise the messages newest first, from the offset, by default 0, at most the limit, by default 20 |
| `Pa1Store.Session.HandleUnexpectedClose` | pa1/server/src/tcp_handlers.rs:172-179 | A logged-in user leaves all channels, otherwise nothing changes |

## Left out

- HTTP routes, headers, queries and responses, the command line, the pa1 client, scripts: plumbing.
- JSON and the conversion of results to and from it: messages are datatypes, a serialised message is a newline-free string.
- The concrete hasher: the proofs need only that it is a function.
- Sockets, connecting and retrying to connect, real time, the channel capacity of 100, blocked writes and log output: links are FIFO queues, timeouts happen at any time.
- Servers that never connect, false suspicion, partitions, restarts: the marks are never repaired and no state is transferred back, so they are excluded by hypothesis.
- Overflow of 64-bit counters, numbers and ids, and the parsing failure it causes: naturals are unbounded.
- Channel reads (`get_messages`, `list_channel_users`) forwarded between servers: the decision, routing and retry are those proved for the other operations, and the local reads are in `DiscordStore`.
- The order of names in `ListChannelUsers`: the source's hash sets have none.
- Leader announcements that wake no waiting task, and hence that every survivor recomputes in time.
- The texts and status codes of errors; an error is its kind.
- The arguments of pa1 commands other than the space that `SEND` and `HISTORY` unwrap, and log-in: only framing and choice of the command are modelled.
- Characters split over two reads, and lines that are not valid messages on a pa2 connection.
- LogReplication.ReplicasConverge: ids are pairs of channel and number in the cluster; that nothing is lost by printing them is `DiscordStore.PrintedParses`.
- Sorting.SortContents: the library's stable sort is modelled by an insertion sort.
- Completion.AnswerableIff: says that a schedule exists, not that the scheduler picks it; further crashes, which can free a waiting call, are excluded on both sides.
- Takeovers.SafeIffNothingLost: for a backup whose lock is not poisoned (a poisoned one acknowledges nothing), and with a username whose lookups are answered.
- LeaderSelection.SurvivorsAgree: that every survivor recomputes on the final view is not derived from the notification mechanism.
- Pa1Store.StoreIsConsistent: each operation is atomic, although the source checks and acts under separate locks (pa1/server/src/stateops.rs:71-76).
- Pa1Store.LeaveAllIsComplete: does not consider operations of other connections between the single leaves.
- LineFraming.ProcessSocket: a read error, which the source treats like a closed stream, is not distinguished from it.
