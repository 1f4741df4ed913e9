/** When the copy of a send can overtake that of the join that creates the channel: exactly while the
    backup lacks the channel. */
module Overlaps {

  import opened Servers
  import opened StoreSpec
  import opened Cluster
  import opened Protocol
  import opened UserReplication
  import opened Schedules
  import C = Channels
  import H = Hazards

  /** The copy of a send on the channel is on its way and will panic. */
  predicate AboutToPanic(s: State, k: nat, channel: string)
  {
    && Enabled(s, Replicate(k))
    && s.calls[k].op.SendMessage? && s.calls[k].op.channel == channel
    && C.Panics(s, k)
  }

  predicate SoundOwners(s: State, o: Owners)
  {
    && o.primary in s.live && o.primary !in s.poisoned
    && o.backup in s.live && o.backup !in s.poisoned
  }

  /** A state in which the user's operations on the channel go through on its primary. */
  ghost predicate Ready(s: State, channel: string, user: string)
  {
    && SoundOwners(s, ChannelOwner(s.hash, channel)) && ValidName(channel)
    && Known(s, user) && Attentive(s, ChannelOwner(s.hash, channel).primary)
  }

  /** Nothing about crashes or the channel's backup has changed. */
  ghost predicate BackupSame(s: State, t: State, channel: string)
  {
    var o := ChannelOwner(s.hash, channel);
    && t.hash == s.hash && t.live == s.live && t.poisoned == s.poisoned
    && t.stores[o.backup].channels == s.stores[o.backup].channels
  }

  /** The user is made a member on the primary, if he is not one, and nothing is copied. */
  lemma UncopiedJoinRuns(s: State, channel: string, user: string) returns (acts: seq<Action>)
    requires Ready(s, channel, user)
    ensures IsRun(s, acts) && CrashFree(acts)
    ensures
      var t := After(s, acts);
      var p := ChannelOwner(s.hash, channel).primary;
      && Ready(t, channel, user) && BackupSame(s, t, channel)
      && ChannelExists(t, p, channel) && user in ChannelAt(t.stores[p], channel).users
  {
    var p := ChannelOwner(s.hash, channel).primary;
    if user in ChannelAt(s.stores[p], channel).users {
      acts := [];
    } else {
      acts := OpeningRuns(s, p, JoinChannel(user, channel));
      KnownStays(s, After(s, acts), p, user);
    }
  }

  /** A member's send is numbered and its copy set under way. */
  lemma SendRuns(s: State, channel: string, user: string) returns (acts: seq<Action>)
    requires Ready(s, channel, user)
    requires
      var p := ChannelOwner(s.hash, channel).primary;
      ChannelExists(s, p, channel) && user in ChannelAt(s.stores[p], channel).users
    requires (ChannelOwner(s.hash, channel).primary, ChannelOwner(s.hash, channel).backup) !in s.suspects
    requires !ChannelExists(s, ChannelOwner(s.hash, channel).backup, channel)
    ensures IsRun(s, acts) && CrashFree(acts) && BackupSame(s, After(s, acts), channel)
    ensures AboutToPanic(After(s, acts), s.next, channel)
  {
    var p := ChannelOwner(s.hash, channel).primary;
    acts := OpeningRuns(s, p, SendMessage(user, channel, ""));
    One(After(s, acts), Copy(s.next));
    Concatenate(s, acts, [Copy(s.next)]);
    acts := acts + [Copy(s.next)];
  }

  /** Given a user who can be looked up, the backup is about to panic after some crash-free continuation. */
  lemma OverlapRuns(s: State, channel: string, user: string) returns (acts: seq<Action>, k: nat)
    requires Inv(s) && SoundOwners(s, ChannelOwner(s.hash, channel)) && ValidName(channel)
    requires LookupOpen(s, user) && user != []
    requires !ChannelExists(s, ChannelOwner(s.hash, channel).backup, channel)
    ensures IsRun(s, acts) && CrashFree(acts) && AboutToPanic(After(s, acts), k, channel)
    ensures After(s, acts).live == s.live && After(s, acts).hash == s.hash
  {
    acts := AcquaintanceRuns(s, ChannelOwner(s.hash, channel).primary, user);
    var s1 := After(s, acts);
    var more := UncopiedJoinRuns(s1, channel, user);
    Concatenate(s, acts, more);
    acts := acts + more;
    var s2 := After(s1, more);
    k := s2.next;
    more := SendRuns(s2, channel, user);
    Concatenate(s, acts, more);
    acts := acts + more;
  }

  ghost predicate CanBePoisoned(s: State, channel: string)
  {
    exists acts, k :: IsRun(s, acts) && CrashFree(acts) && AboutToPanic(After(s, acts), k, channel)
  }

  /** In every reachable state with both owners up and sound and a username whose lookups are answered: some crash-free
      continuation makes the backup panic on a send on the channel if and only if the channel does not
      exist on the backup. */
  lemma PanicIffChannelMissing(hash: string -> nat, acts: seq<Action>, channel: string, user: string)
    requires IsRun(Init(hash), acts) && ValidName(channel)
    requires
      var s := After(Init(hash), acts);
      SoundOwners(s, ChannelOwner(s.hash, channel)) && LookupOpen(s, user) && user != []
    ensures
      var s := After(Init(hash), acts);
      CanBePoisoned(s, channel) <==> !ChannelExists(s, ChannelOwner(s.hash, channel).backup, channel)
  {
    C.InitChannels(hash);
    C.RunKeeps(Init(hash), acts);
    var s := After(Init(hash), acts);
    if !ChannelExists(s, ChannelOwner(s.hash, channel).backup, channel) {
      var rest, k := OverlapRuns(s, channel, user);
    }
    if rest, k :| IsRun(s, rest) && CrashFree(rest) && AboutToPanic(After(s, rest), k, channel) {
      PanicNeedsMissing(s, channel, rest, k);
    }
  }

  lemma PanicNeedsMissing(s: State, channel: string, rest: seq<Action>, k: nat)
    requires Inv(s) && C.ChannelInv(s) && IsRun(s, rest) && AboutToPanic(After(s, rest), k, channel)
    ensures !ChannelExists(s, ChannelOwner(s.hash, channel).backup, channel)
  {
    C.RunKeeps(s, rest);
    C.RunGrows(s, rest);
    C.PanicsIff(After(s, rest), k);
  }

  /** From the start: a user is created, joins a new channel and sends before the join is copied, and the copy
      of the send arrives first. */
  lemma OverlapPoisonsBackup(hash: string -> nat, user: string, channel: string) returns (acts: seq<Action>)
    requires user != [] && ValidName(channel) && channel !in {"#cs249", "#distributed", "#systems"}
    ensures IsRun(Init(hash), acts) && CrashFree(acts)
    ensures
      var s := After(Init(hash), acts);
      s.live == {A, B, C} && ChannelOwner(hash, channel).backup in s.poisoned
  {
    var s := Init(hash);
    NothingAtStart(hash, user, channel);
    acts := H.RegistrationRuns(s, user);
    var s1 := After(s, acts);
    C.InitChannels(hash);
    C.RunKeeps(s, acts);
    assert LookupOpen(s1, user);
    assert !ChannelExists(s1, ChannelOwner(hash, channel).backup, channel);
    var more, k := OverlapRuns(s1, channel, user);
    Concatenate(s, acts, more);
    acts := acts + more;
    C.RunKeeps(s, acts);
    C.PanicsIff(After(s, acts), k);
    One(After(s, acts), Replicate(k));
    Concatenate(s, acts, [Replicate(k)]);
    acts := acts + [Replicate(k)];
  }

  lemma NothingAtStart(hash: string -> nat, user: string, channel: string)
    requires channel !in {"#cs249", "#distributed", "#systems"}
    ensures forall x: Server :: !HasUser(Init(hash), x, user) && !ChannelExists(Init(hash), x, channel)
  {
    forall x: Server
      ensures !HasUser(Init(hash), x, user) && !ChannelExists(Init(hash), x, channel)
    {
      match x case A => case B => case C =>
    }
  }
}
