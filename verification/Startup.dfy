/** The channels that a server creates when it starts: the store from which the cluster's runs begin. */
module Startup {

  import opened Servers
  import opened StoreSpec
  import D = DiscordStore
  import Cluster

  function NameOf(x: Server): string
  {
    match x case A => "A" case B => "B" case C => "C"
  }

  /** Two channels on an empty store. */
  method CreateBoth(state: D.AppState, first: string, second: string)
    requires state.Valid() && state.View() == EMPTY_STORE && first != second
    modifies state
    ensures state.Valid() && state.View() == Store({}, map[first := EMPTY_CHANNEL, second := EMPTY_CHANNEL])
  {
    var r := state.CreateChannel(first);
    assert state.View().channels == map[first := EMPTY_CHANNEL];
    r := state.CreateChannel(second);
    assert state.View().channels == map[first := EMPTY_CHANNEL, second := EMPTY_CHANNEL];
  }

  /** The fixed channels, and no others, exist at the start, without members and messages, each on its primary and
      its backup and nowhere else. */
  lemma FixedChannelsOnOwners(hash: string -> nat, x: Server, channel: string)
    ensures
      var st := Cluster.InitialStore(x);
      var o := ChannelOwner(hash, channel);
      && st.users == {}
      && (channel in st.channels
          <==> channel in {"#cs249", "#distributed", "#systems"} && (x == o.primary || x == o.backup))
      && (channel in st.channels ==> st.channels[channel] == Channel({}, map[], 0))
    ensures ChannelOwner(hash, "#cs249") == Owners(A, B)
    ensures ChannelOwner(hash, "#distributed") == Owners(B, C)
    ensures ChannelOwner(hash, "#systems") == Owners(C, A)
  {
    assert "#cs249"[1] != "#distributed"[1] && "#cs249"[1] != "#systems"[1] && "#distributed"[1] != "#systems"[1];
    match x case A => case B => case C =>
  }

  lemma NamesDiffer(x: Server, y: Server)
    requires NameOf(x) == NameOf(y)
    ensures x == y
  {
    assert NameOf(x)[0] == NameOf(y)[0];
  }

  /** False is the panic on an unknown server id. */
  method InitState(state: D.AppState, id: string) returns (ok: bool)
    requires state.Valid() && state.View() == EMPTY_STORE
    modifies state
    ensures state.Valid()
    ensures ok <==> exists x :: id == NameOf(x)
    ensures forall x :: id == NameOf(x) ==> state.View() == Cluster.InitialStore(x)
  {
    ok := true;
    ghost var self := A;
    if id == "A" {
      CreateBoth(state, "#systems", "#cs249");
    } else if id == "B" {
      CreateBoth(state, "#cs249", "#distributed");
      self := B;
    } else if id == "C" {
      CreateBoth(state, "#distributed", "#systems");
      self := C;
    } else {
      return false;
    }
    assert id == NameOf(self);
    forall x | id == NameOf(x)
      ensures x == self
    {
      NamesDiffer(x, self);
    }
  }
}
