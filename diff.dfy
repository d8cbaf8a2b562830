/** `db diff` (database/diff.go): print the migration script that turns the target's schema into
    the source's. */
module DbDiff {
  import opened Results
  import opened Config

  datatype DiffError =
    | WrongArgCount                  // "diff command requires exactly two project IDs ..."
    | SourceNotFound(id: string)
    | TargetNotFound(id: string)
    | GenerateFailed(message: string)

  /** What a successful diff reports: the text written to standard output, and whether the
      "already identical" notice went to standard error. */
  datatype Report = Report(stdout: string, identical: bool)

  /** The diff generator the command calls, which is not part of the model. */
  type DiffGenerator = (ConnectionParams, ConnectionParams, BinaryPaths) -> Result<string, string>

  /** Diff: argument count, source lookup, target lookup, then the generator; no tool path is
      checked. */
  function Diff(connections: map<string, ConnectionParams>, binaries: BinaryPaths, args: seq<string>,
                generateDiff: DiffGenerator): (r: Result<Report, DiffError>)
    ensures r.Success? <==>
      |args| == 2 && args[0] in connections && args[1] in connections
      && generateDiff(connections[args[0]], connections[args[1]], binaries).Success?
    ensures r.Success? ==>
      var script := generateDiff(connections[args[0]], connections[args[1]], binaries).value;
      r.value.stdout == script && (r.value.identical <==> |script| == 0)
  {
    if |args| != 2 then Failure(WrongArgCount)
    else
      var sourceId, targetId := args[0], args[1];
      if sourceId !in connections then Failure(SourceNotFound(sourceId))
      else if targetId !in connections then Failure(TargetNotFound(targetId))
      else
        match generateDiff(connections[sourceId], connections[targetId], binaries)
        case Failure(m) => Failure(GenerateFailed(m))
        case Success(script) =>
          if |script| == 0 then Success(Report("", true)) else Success(Report(script, false))
  }

  /** The lookups fail in the source's order: the source before the target, each with its own
      error. */
  lemma DiffCheckOrder(connections: map<string, ConnectionParams>, binaries: BinaryPaths, args: seq<string>,
                       generateDiff: DiffGenerator)
    ensures |args| != 2 ==> Diff(connections, binaries, args, generateDiff) == Failure(WrongArgCount)
    ensures |args| == 2 && args[0] !in connections ==>
      Diff(connections, binaries, args, generateDiff) == Failure(SourceNotFound(args[0]))
    ensures |args| == 2 && args[0] in connections && args[1] !in connections ==>
      Diff(connections, binaries, args, generateDiff) == Failure(TargetNotFound(args[1]))
  {
  }

  /** No tool path is checked: with every path unset the generator is still reached. */
  lemma DiffNeedsNoTools(connections: map<string, ConnectionParams>, args: seq<string>, generateDiff: DiffGenerator)
    requires |args| == 2 && args[0] in connections && args[1] in connections
    ensures Diff(connections, NoBinaries, args, generateDiff).Success?
        <==> generateDiff(connections[args[0]], connections[args[1]], NoBinaries).Success?
  {
  }
}
