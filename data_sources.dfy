/**
 * The data-source table `Blazer.data_sources`: one `DataSource` per id under
 * `data_sources:` in the settings, and a lookup that raises for an unknown id.
 */
module DataSources {
  import opened Wrappers
  import opened Errors
  import opened Config

  /** A configured data source. Its connection is abstract; `reconnects` counts how often it was replaced. */
  class DataSource {
    const id: string
    const config: Yaml
    var reconnects: nat

    constructor (id: string, config: Yaml)
      ensures this.id == id && this.config == config && reconnects == 0
    {
      this.id := id;
      this.config := config;
      reconnects := 0;
    }

    /** `data_source.reconnect`: replaces the connection, keeping the identity of the source. */
    method Reconnect()
      modifies this
      ensures reconnects == old(reconnects) + 1
    {
      reconnects := reconnects + 1;
    }
  }

  /** Builds the table from `settings["data_sources"]`, one fresh source per id, a later entry replacing an earlier one. */
  method Load(settings: Settings) returns (r: Result<map<string, DataSource>, Error>)
    ensures r.Failure? <==> !(Get(settings, "data_sources").Some? && Get(settings, "data_sources").value.Mapping?)
    ensures r.Failure? ==> r.error == NotEnumerable("data_sources")
    ensures r.Success? ==>
              var entries := Get(settings, "data_sources").value.entries;
              && (forall id :: id in r.value <==> Get(entries, id).Some?)
              && (forall id :: id in r.value ==>
                    r.value[id].id == id && Some(r.value[id].config) == Get(entries, id) &&
                    r.value[id].reconnects == 0 && fresh(r.value[id]))
  {
    var section := Get(settings, "data_sources");
    if !(section.Some? && section.value.Mapping?) {
      return Failure(NotEnumerable("data_sources"));
    }
    var entries := section.value.entries;
    var ds: map<string, DataSource> := map[];
    var i := 0;
    while i < |entries|
      invariant 0 <= i <= |entries|
      invariant forall id :: id in ds <==> Get(entries[..i], id).Some?
      invariant forall id :: id in ds ==>
                  ds[id].id == id && Some(ds[id].config) == Get(entries[..i], id) &&
                  ds[id].reconnects == 0 && fresh(ds[id])
    {
      var (id, s) := entries[i];
      var source := new DataSource(id, s);
      ds := ds[id := source];
      assert entries[..i + 1][..i] == entries[..i];
      i := i + 1;
    }
    assert entries[..i] == entries;
    return Success(ds);
  }

  /** `data_sources[id]`: the source configured under `id`, or the error the table raises. */
  function Lookup(table: map<string, DataSource>, id: string): (r: Result<DataSource, Error>)
    ensures r.Success? <==> id in table
    ensures r.Success? ==> r.value == table[id]
    ensures r.Failure? ==> Message(r.error) == "Unknown data source: " + id
  {
    if id in table then Success(table[id]) else Failure(UnknownDataSource(id))
  }
}
