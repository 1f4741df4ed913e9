/** The static configuration: unique priorities, lookup by id. */
module ServerConfig {

  import opened Prelude

  datatype ServerEntry = ServerEntry(id: string, host: string, httpPort: nat, peerPort: nat, priority: nat)

  type Config = seq<ServerEntry>

  predicate UniquePriorities(config: Config)
  {
    forall i, j :: 0 <= i < j < |config| ==> config[i].priority != config[j].priority
  }

  /** The entry of a server; None is the panic of a missing one. */
  method GetConfigFor(config: Config, id: string) returns (entry: Option<ServerEntry>)
    ensures entry == Lookup(config, id)
    ensures entry.None? <==> forall j :: 0 <= j < |config| ==> config[j].id != id
    ensures entry.Some? ==>
      exists i :: 0 <= i < |config| && config[i] == entry.value && entry.value.id == id
        && forall j :: 0 <= j < i ==> config[j].id != id
  {
    for i := 0 to |config|
      invariant forall j :: 0 <= j < i ==> config[j].id != id
    {
      if config[i].id == id {
        LookupAt(config, i);
        return Some(config[i]);
      }
    }
    LookupNone(config, id);
    return None;
  }

  function Lookup(config: Config, id: string): Option<ServerEntry>
  {
    if config == [] then None
    else if config[0].id == id then Some(config[0])
    else Lookup(config[1..], id)
  }

  lemma {:induction false} LookupAt(config: Config, i: nat)
    requires i < |config| && forall j :: 0 <= j < i ==> config[j].id != config[i].id
    ensures Lookup(config, config[i].id) == Some(config[i])
  {
    if i > 0 { LookupAt(config[1..], i - 1); }
  }

  lemma {:induction false} LookupNone(config: Config, id: string)
    requires forall j :: 0 <= j < |config| ==> config[j].id != id
    ensures Lookup(config, id) == None
  {
    if config != [] { LookupNone(config[1..], id); }
  }

  /** True when the configuration is accepted; a duplicate priority panics. */
  method ValidateConfig(config: Config) returns (ok: bool)
    ensures ok <==> UniquePriorities(config)
  {
    var priorities: map<nat, ()> := map[];
    for i := 0 to |config|
      invariant forall p :: p in priorities <==> exists j :: 0 <= j < i && config[j].priority == p
      invariant UniquePriorities(config[..i])
    {
      if config[i].priority in priorities {
        return false;
      }
      priorities := priorities[config[i].priority := ()];
    }
    assert config[..|config|] == config;
    return true;
  }
}
