/** Exactly the safe takeovers keep acknowledged sends: after any other, the backup can be led to
    acknowledge a send that it does not store. */
module Takeovers {

  import opened Prelude
  import opened Servers
  import opened StoreSpec
  import opened Cluster
  import opened Protocol
  import opened UserReplication
  import opened LogReplication
  import opened Schedules
  import C = Channels
  import F = Failover

  /** The channel's backup serves it, soundly, and lookups find the user. */
  ghost predicate Served(t: State, ch: string, user: string)
  {
    var o := ChannelOwner(t.hash, ch);
    && TakenOver(t, o) && o.backup in t.live && o.backup !in t.poisoned
    && ValidName(ch) && Known(t, user) && Attentive(t, o.backup)
  }

  predicate Member(t: State, ch: string, user: string)
  {
    var b := ChannelOwner(t.hash, ch).backup;
    ChannelExists(t, b, ch) && user in ChannelAt(t.stores[b], ch).users
  }

  predicate LostSend(t: State, k: nat, ch: string)
  {
    var b := ChannelOwner(t.hash, ch).backup;
    && F.Acknowledged(t, k) && t.calls[k].op.channel == ch
    && b in t.live && !StoredAt(t, b, t.calls[k].op, t.calls[k].phase.reply)
  }

  /** The user joins on the serving backup, if he is not a member. */
  lemma JoinRuns(t: State, ch: string, user: string) returns (acts: seq<Action>)
    requires Served(t, ch, user)
    ensures IsRun(t, acts) && CrashFree(acts)
    ensures
      var t' := After(t, acts);
      var b := ChannelOwner(t.hash, ch).backup;
      && t'.hash == t.hash && Served(t', ch, user) && Member(t', ch, user)
      && Log(t', b, ch) == Log(t, b, ch) && NextNumber(t', b, ch) == NextNumber(t, b, ch)
      && (forall i :: i in t.calls && i != t.next ==> i in t'.calls && t'.calls[i] == t.calls[i])
  {
    var b := ChannelOwner(t.hash, ch).backup;
    var op := JoinChannel(user, ch);
    if user in ChannelAt(t.stores[b], ch).users {
      acts := [];
    } else {
      var (st, r) := Perform(t.stores[b], op, true);
      acts := ServedRuns(t, b, op, st, r);
      KnownStays(t, After(t, acts), b, user);
    }
  }

  /** A member sends on the serving backup. */
  lemma SendRuns(t: State, ch: string, user: string, text: string) returns (acts: seq<Action>)
    requires Served(t, ch, user) && Member(t, ch, user)
    ensures IsRun(t, acts) && CrashFree(acts)
    ensures
      var t' := After(t, acts);
      var b := ChannelOwner(t.hash, ch).backup;
      var n := NextNumber(t, b, ch);
      var m := Message(user, text, MessageId(ch, n));
      && t'.hash == t.hash && Served(t', ch, user) && Member(t', ch, user)
      && Log(t', b, ch) == AddMessage(Log(t, b, ch), n, m) && NextNumber(t', b, ch) == n + 1
      && t.next in t'.calls && t'.calls[t.next]
           == Call(SendMessage(user, ch, text), b, None, t.next, Done(Sent(m.id)), 0)
  {
    var b := ChannelOwner(t.hash, ch).backup;
    var op := SendMessage(user, ch, text);
    var (st, r) := Perform(t.stores[b], op, true);
    acts := ServedRuns(t, b, op, st, r);
    KnownStays(t, After(t, acts), b, user);
  }

  /** With a number at or above the next one in use, enough sends run into it. */
  lemma {:induction false} CollisionRuns(t: State, ch: string, user: string, n: nat) returns (acts: seq<Action>, k: nat)
    requires Served(t, ch, user) && Member(t, ch, user)
    requires
      var b := ChannelOwner(t.hash, ch).backup;
      n in Log(t, b, ch) && NextNumber(t, b, ch) <= n
    ensures IsRun(t, acts) && CrashFree(acts) && LostSend(After(t, acts), k, ch)
    decreases n - NextNumber(t, ChannelOwner(t.hash, ch).backup, ch)
  {
    var b := ChannelOwner(t.hash, ch).backup;
    var next := NextNumber(t, b, ch);
    if next in Log(t, b, ch) {
      acts := SendRuns(t, ch, user, Log(t, b, ch)[next].text + "!");
      k := t.next;
    } else {
      acts := SendRuns(t, ch, user, "");
      var more;
      more, k := CollisionRuns(After(t, acts), ch, user, n);
      Concatenate(t, acts, more);
      acts := acts + more;
    }
  }

  /** A late copy leaves its number in the serving backup's log, whatever that was before. */
  lemma LateCopyRuns(t: State, ch: string, user: string, k: nat, n: nat)
    requires Served(t, ch, user) && Member(t, ch, user) && F.Copying(t, k, ch, n)
    requires NextNumber(t, ChannelOwner(t.hash, ch).backup, ch) < n
    ensures IsRun(t, [Replicate(k)]) && CrashFree([Replicate(k)])
    ensures
      var t' := After(t, [Replicate(k)]);
      var b := ChannelOwner(t.hash, ch).backup;
      && t'.hash == t.hash && Served(t', ch, user) && Member(t', ch, user)
      && n in Log(t', b, ch) && NextNumber(t', b, ch) <= n
  {
    One(t, Replicate(k));
    KnownStays(t, Do(t, Replicate(k)), ChannelOwner(t.hash, ch).backup, user);
  }

  /** What makes a takeover unsafe: a number in use at or above the next one, or a copy under way above it. */
  lemma WhyUnsafe(s: State, ch: string) returns (late: bool, k: nat, n: nat)
    requires Inv(s) && LogInv(s) && C.ChannelInv(s) && !F.Safe(s, ch) && !TakenOver(s, ChannelOwner(s.hash, ch))
    ensures ValidName(ch)
    ensures
      var b := ChannelOwner(s.hash, ch).backup;
      if late then F.Copying(s, k, ch, n) && k < s.next && NextNumber(s, b, ch) < n
      else n in Log(s, b, ch) && NextNumber(s, b, ch) <= n
  {
    var b := ChannelOwner(s.hash, ch).backup;
    assert ChannelLogs(s, ch);
    late, k, n := false, 0, 0;
    if n' :| n' in Log(s, b, ch) && NextNumber(s, b, ch) <= n' {
      n := n';
      assert ChannelExists(s, b, ch);
    } else {
      F.BoundedKeys(Log(s, b, ch), NextNumber(s, b, ch));
      late := true;
      k, n :| F.Copying(s, k, ch, n) && !(n <= NextNumber(s, b, ch));
      assert C.ChannelCall(s, k) && CallOk(s, k);
      assert ChannelExists(s, s.calls[k].at, ch);
    }
  }

  /** The user is made findable, and nothing that makes the takeover unsafe changes. */
  lemma GetReady(t: State, ch: string, user: string) returns (acts: seq<Action>)
    requires Inv(t) && TakenOver(t, ChannelOwner(t.hash, ch)) && ValidName(ch) && LookupOpen(t, user) && user != []
    requires ChannelOwner(t.hash, ch).backup in t.live && ChannelOwner(t.hash, ch).backup !in t.poisoned
    ensures IsRun(t, acts) && CrashFree(acts)
    ensures
      var t' := After(t, acts);
      var b := ChannelOwner(t.hash, ch).backup;
      && Gentle(t, t') && Served(t', ch, user)
      && Log(t', b, ch) == Log(t, b, ch) && NextNumber(t', b, ch) == NextNumber(t, b, ch)
  {
    var b := ChannelOwner(t.hash, ch).backup;
    acts := AcquaintanceRuns(t, b, user);
    assert After(t, acts).stores[b].channels == t.stores[b].channels;
  }

  /** From every unsafe takeover a crash-free continuation, of a user whose lookups are answered, ends with an
      acknowledged send that the backup does not store. */
  lemma UnsafeTakeoverRuns(s: State, b: Server, p: Server, ch: string, user: string) returns (acts: seq<Action>, k: nat)
    requires Inv(s) && LogInv(s) && C.ChannelInv(s)
    requires Enabled(s, Suspect(b, p)) && (b, p) !in s.suspects && ChannelOwner(s.hash, ch) == Owners(p, b)
    requires b !in s.poisoned && LookupOpen(s, user) && user != [] && !F.Safe(s, ch)
    ensures IsRun(Do(s, Suspect(b, p)), acts) && CrashFree(acts)
    ensures LostSend(After(Do(s, Suspect(b, p)), acts), k, ch)
  {
    var t := Do(s, Suspect(b, p));
    var late, i, n := WhyUnsafe(s, ch);
    InvStep(s, Suspect(b, p));
    acts := GetReady(t, ch, user);
    var t0 := After(t, acts);
    var more;
    if late { assert SameEntry(t, t0, i); }
    more, k := CollisionsFollow(t0, ch, user, late, i, n);
    Concatenate(t, acts, more);
    acts := acts + more;
  }

  /** The user joins, a late copy arrives if that is the reason, and sends follow. */
  lemma CollisionsFollow(t: State, ch: string, user: string, late: bool, i: nat, n: nat)
      returns (acts: seq<Action>, k: nat)
    requires Served(t, ch, user)
    requires
      var b := ChannelOwner(t.hash, ch).backup;
      if late then F.Copying(t, i, ch, n) && i < t.next && NextNumber(t, b, ch) < n
      else n in Log(t, b, ch) && NextNumber(t, b, ch) <= n
    ensures IsRun(t, acts) && CrashFree(acts) && LostSend(After(t, acts), k, ch)
  {
    acts := JoinRuns(t, ch, user);
    var t1 := After(t, acts);
    if late {
      assert t1.calls[i] == t.calls[i];
      LateCopyRuns(t1, ch, user, i, n);
      Concatenate(t, acts, [Replicate(i)]);
      acts := acts + [Replicate(i)];
    }
    var more;
    more, k := CollisionRuns(After(t, acts), ch, user, n);
    Concatenate(t, acts, more);
    acts := acts + more;
  }

  // ---------- after a safe takeover nothing is lost ----------

  lemma {:induction false} MarksStay(s: State, acts: seq<Action>)
    requires IsRun(s, acts)
    ensures s.suspects <= After(s, acts).suspects && After(s, acts).hash == s.hash
    decreases |acts|
  {
    if acts != [] { MarksStay(Do(s, acts[0]), acts[1..]); }
  }

  /** Runs without a takeover of the channel are safe. */
  lemma {:induction false} UntakenIsSafe(s: State, acts: seq<Action>, ch: string)
    requires IsRun(s, acts) && !TakenOver(After(s, acts), ChannelOwner(s.hash, ch))
    ensures F.IsSafeRun(s, acts, ch)
    decreases |acts|
  {
    if acts != [] {
      MarksStay(Do(s, acts[0]), acts[1..]);
      UntakenIsSafe(Do(s, acts[0]), acts[1..], ch);
    }
  }

  lemma {:induction false} ServedRunKeeps(t: State, acts: seq<Action>, ch: string)
    requires Inv(t) && LogInv(t) && F.FreshInv(t, ch) && TakenOver(t, ChannelOwner(t.hash, ch)) && IsRun(t, acts)
    ensures Inv(After(t, acts)) && LogInv(After(t, acts)) && F.FreshInv(After(t, acts), ch)
    decreases |acts|
  {
    if acts != [] {
      InvStep(t, acts[0]);
      LogStep(t, acts[0]);
      F.FreshStep(t, acts[0], ch);
      ServedRunKeeps(Do(t, acts[0]), acts[1..], ch);
    }
  }

  lemma SafeTakeoverKeeps(s: State, b: Server, p: Server, ch: string, rest: seq<Action>, k: nat)
    requires Inv(s) && LogInv(s) && F.FreshInv(s, ch) && F.Safe(s, ch)
    requires Enabled(s, Suspect(b, p)) && ChannelOwner(s.hash, ch) == Owners(p, b)
    requires IsRun(Do(s, Suspect(b, p)), rest)
    ensures !LostSend(After(Do(s, Suspect(b, p)), rest), k, ch)
  {
    var t := Do(s, Suspect(b, p));
    InvStep(s, Suspect(b, p));
    LogStep(s, Suspect(b, p));
    F.FreshStep(s, Suspect(b, p), ch);
    ServedRunKeeps(t, rest, ch);
    MarksStay(t, rest);
    if F.Acknowledged(After(t, rest), k) && After(t, rest).calls[k].op.channel == ch {
      F.AcknowledgedIsStored(After(t, rest), k);
    }
  }

  /** Some crash-free continuation of the takeover loses an acknowledged send. */
  ghost predicate CanLose(s: State, b: Server, p: Server, ch: string)
    requires Enabled(s, Suspect(b, p))
  {
    exists rest, k ::
      IsRun(Do(s, Suspect(b, p)), rest) && CrashFree(rest) && LostSend(After(Do(s, Suspect(b, p)), rest), k, ch)
  }

  /** In every reachable state in which a sound backup is about to take a channel over: an acknowledged send
      can be lost without a further crash if and only if the takeover is not safe, that is, if and only
      if the backup's numbers have a gap or a copy still under way can open one. */
  lemma SafeIffNothingLost(hash: string -> nat, acts: seq<Action>, b: Server, p: Server, ch: string, user: string)
    requires IsRun(Init(hash), acts)
    requires
      var s := After(Init(hash), acts);
      && Enabled(s, Suspect(b, p)) && (b, p) !in s.suspects && ChannelOwner(s.hash, ch) == Owners(p, b)
      && b !in s.poisoned && LookupOpen(s, user) && user != []
    ensures
      var s := After(Init(hash), acts);
      CanLose(s, b, p, ch) <==> !F.Safe(s, ch)
  {
    var s := After(Init(hash), acts);
    C.InitChannels(hash);
    C.RunKeeps(Init(hash), acts);
    InitLogs(hash);
    MarksStay(Init(hash), acts);
    UntakenIsSafe(Init(hash), acts, ch);
    F.RunKeeps(Init(hash), acts, ch);
    if !F.Safe(s, ch) {
      var rest, k := UnsafeTakeoverRuns(s, b, p, ch, user);
    }
    var t := Do(s, Suspect(b, p));
    if rest, k :| IsRun(t, rest) && CrashFree(rest) && LostSend(After(t, rest), k, ch) {
      if F.Safe(s, ch) { SafeTakeoverKeeps(s, b, p, ch, rest, k); }
    }
  }
}
