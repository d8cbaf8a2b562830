/** The profile store (config/config.go): connection profiles keyed by project ID, the tool
    paths, and the preferred diff viewer. */
module Config {
  import opened Results

  /** How to reach one hosted database project. */
  datatype ConnectionParams = ConnectionParams(
    password: string,
    host: string,
    port: string,
    user: string,
    dbName: string,
    supabaseProjectId: string)

  /** Locations of the external tools; "" means not configured. */
  datatype BinaryPaths = BinaryPaths(
    psql: string,
    pgDumpAll: string,
    pgDump: string,
    supabase: string,
    results: string)

  /** Go's zero value of ConnectionParams, returned by a lookup that finds nothing. */
  const NoParams := ConnectionParams("", "", "", "", "", "")

  /** Go's zero value of BinaryPaths: no tool configured. */
  const NoBinaries := BinaryPaths("", "", "", "", "")

  /** The map lookup that GetConnection performs, as a function for specifications. */
  function Lookup(connections: map<string, ConnectionParams>, id: string): Option<ConnectionParams>
  {
    if id in connections then Some(connections[id]) else None
  }

  /** The three PostgreSQL tools that backup and clone require are all configured. */
  predicate PostgresToolsSet(b: BinaryPaths) {
    b.psql != "" && b.pgDump != "" && b.pgDumpAll != ""
  }

  predicate Distinct(ids: seq<string>) {
    forall i, j :: 0 <= i < j < |ids| ==> ids[i] != ids[j]
  }

  class Config {
    var connections: map<string, ConnectionParams>
    var binaries: BinaryPaths
    /** The chosen diff viewer (the `Editor.Default` setting). */
    var editor: string

    /** The configuration Load returns when no configuration file exists. */
    constructor Empty()
      ensures connections == map[] && binaries == NoBinaries && editor == ""
    {
      connections := map[];
      binaries := NoBinaries;
      editor := "";
    }

    /** Adds a profile, or replaces the one already stored under `id`. */
    method AddConnection(id: string, params: ConnectionParams)
      modifies this
      ensures connections == old(connections)[id := params]
      ensures Lookup(connections, id) == Some(params)
      ensures forall other :: other != id ==> Lookup(connections, other) == Lookup(old(connections), other)
      ensures connections.Keys == old(connections).Keys + {id}
      ensures |connections| == if id in old(connections) then |old(connections)| else |old(connections)| + 1
      ensures binaries == old(binaries) && editor == old(editor)
    {
      connections := connections[id := params];
    }

    /** The profile stored under `id`, with whether there is one; the store is not changed. */
    method GetConnection(id: string) returns (params: ConnectionParams, found: bool)
      ensures found <==> id in connections
      ensures found ==> params == connections[id]
      ensures !found ==> params == NoParams
    {
      found := id in connections;
      params := if found then connections[id] else NoParams;
    }

    /** Deletes the profile stored under `id`; deleting a missing ID changes nothing. */
    method RemoveConnection(id: string)
      modifies this
      ensures connections == old(connections) - {id}
      ensures Lookup(connections, id) == None
      ensures forall other :: other != id ==> Lookup(connections, other) == Lookup(old(connections), other)
      ensures id !in old(connections) ==> connections == old(connections)
      ensures binaries == old(binaries) && editor == old(editor)
    {
      connections := connections - {id};
    }

    /** Every stored project ID exactly once, in no particular order. */
    method ListConnections() returns (ids: seq<string>)
      ensures forall id :: id in ids <==> id in connections
      ensures Distinct(ids)
      ensures |ids| == |connections|
    {
      ids := [];
      var rest := connections.Keys;
      while rest != {}
        invariant rest <= connections.Keys
        invariant forall id :: id in ids <==> id in connections && id !in rest
        invariant Distinct(ids)
        invariant |ids| + |rest| == |connections|
        decreases rest
      {
        var id :| id in rest;
        ids := ids + [id];
        rest := rest - {id};
      }
    }

    /** Replaces the whole tool-path record. */
    method SetBinaryPaths(paths: BinaryPaths)
      modifies this
      ensures binaries == paths
      ensures connections == old(connections) && editor == old(editor)
    {
      binaries := paths;
    }

    /** The tool-path record last set. */
    method GetBinaryPaths() returns (paths: BinaryPaths)
      ensures paths == binaries
    {
      paths := binaries;
    }
  }
}
