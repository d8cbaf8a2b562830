/** `db gen-types` (database/generate.go): TypeScript types for a project's hosted database,
    written by the supabase tool. */
module DbGenerate {
  import opened Results
  import opened Process
  import opened Config

  datatype GenError =
    | WrongArgCount                      // "gen-types command expects exactly one argument ..."
    | ProjectNotFound(id: string)
    | NoSupabaseProjectId(id: string)
    | SupabaseNotSet
    | GenFailed(detail: string)

  /** `supabase gen types --lang typescript --project-id REF --schema public` */
  function GenTypesCommand(supabase: string, ref: string): Command {
    Command(supabase, ["gen", "types", "--lang", "typescript", "--project-id", ref, "--schema", "public"], None)
  }

  /** GenTypes: on success the text written to standard output, the tool's output and a newline. */
  function GenTypes(connections: map<string, ConnectionParams>, binaries: BinaryPaths, args: seq<string>,
                    run: Command -> Exit): (t: Trace<string, GenError>)
    ensures t.spawned != [] <==>
      |args| == 1 && args[0] in connections && connections[args[0]].supabaseProjectId != "" && binaries.supabase != ""
    ensures t.spawned != [] ==> t.spawned == [GenTypesCommand(binaries.supabase, connections[args[0]].supabaseProjectId)]
    ensures t.result.Success? ==> t.spawned != [] && run(t.spawned[0]).Exited? && t.result.value == run(t.spawned[0]).stdout + "\n"
  {
    if |args| != 1 then Trace([], Failure(WrongArgCount))
    else
      var projectId := args[0];
      if projectId !in connections then Trace([], Failure(ProjectNotFound(projectId)))
      else
        var params := connections[projectId];
        if params.supabaseProjectId == "" then Trace([], Failure(NoSupabaseProjectId(projectId)))
        else if binaries.supabase == "" then Trace([], Failure(SupabaseNotSet))
        else
          var cmd := GenTypesCommand(binaries.supabase, params.supabaseProjectId);
          Trace([cmd], if run(cmd).Failed? then Failure(GenFailed(run(cmd).output)) else Success(run(cmd).stdout + "\n"))
  }

  /** The checks fail in the source's order: argument count, project lookup, the project's
      supabase reference, then the supabase path. */
  lemma GenTypesCheckOrder(connections: map<string, ConnectionParams>, binaries: BinaryPaths, args: seq<string>,
                           run: Command -> Exit)
    ensures |args| != 1 ==> GenTypes(connections, binaries, args, run).result == Failure(WrongArgCount)
    ensures |args| == 1 && args[0] !in connections ==>
      GenTypes(connections, binaries, args, run).result == Failure(ProjectNotFound(args[0]))
    ensures |args| == 1 && args[0] in connections && connections[args[0]].supabaseProjectId == "" ==>
      GenTypes(connections, binaries, args, run).result == Failure(NoSupabaseProjectId(args[0]))
    ensures |args| == 1 && args[0] in connections && connections[args[0]].supabaseProjectId != "" &&
            binaries.supabase == "" ==>
      GenTypes(connections, binaries, args, run).result == Failure(SupabaseNotSet)
  {
  }

  /** The supabase tool gets the project's supabase reference, never the database password, and
      the result does not depend on the PostgreSQL tool paths. */
  lemma GenTypesIgnoresPasswordAndPostgresTools(connections: map<string, ConnectionParams>, binaries: BinaryPaths,
                                                id: string, other: string, psql: string, run: Command -> Exit)
    requires id in connections
    ensures GenTypes(connections[id := connections[id].(password := other)], binaries.(psql := psql), [id], run)
         == GenTypes(connections, binaries, [id], run)
  {
  }
}
