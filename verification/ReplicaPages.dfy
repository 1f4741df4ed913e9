/** Replication seen by a reader: with nothing outstanding the two owners of a channel return the same
    pages. */
module ReplicaPages {

  import opened Prelude
  import opened Servers
  import opened Cluster
  import opened LogReplication
  import opened Paging
  import D = DiscordStore

  /** The listing that server x keeps of its messages on the channel. */
  ghost predicate Keeps(s: State, x: Server, channel: string, messages: seq<D.Stored>)
  {
    D.Listing(messages) && D.AllGenuine(messages) && D.LogOf(messages) == Log(s, x, channel)
  }

  /** In every run, while neither owner has marked the other dead and no copy is outstanding, primary and backup
      return the same page for every limit and offset. */
  lemma OwnersReturnEqualPages(
      hash: string -> nat, acts: seq<Action>, channel: string,
      primary: seq<D.Stored>, backup: seq<D.Stored>, limit: Option<nat>, offset: Option<nat>)
    requires IsRun(Init(hash), acts) && Paired(After(Init(hash), acts), channel)
    requires OutstandingNumbers(After(Init(hash), acts), channel) == {}
    requires
      var s := After(Init(hash), acts);
      var o := ChannelOwner(s.hash, channel);
      Keeps(s, o.primary, channel, primary) && Keeps(s, o.backup, channel, backup)
    ensures Page(primary, limit, offset) == Page(backup, limit, offset)
  {
    ReplicasConverge(hash, acts, channel);
    D.EqualLogsEqualPages(primary, backup, limit, offset);
  }
}
