/** `db exec` (database/exec.go): run one SQL file against a registered project with psql. */
module DbExec {
  import opened Results
  import opened Process
  import opened Config

  /** What os.Stat reported for the file: found, missing, or some other error (which Exec does
      not treat as missing). */
  datatype FileStat = Present | Missing | StatFailed

  datatype ExecError =
    | WrongArgCount                 // "exec command expects exactly two arguments ..."
    | FileNotFound(file: string)
    | ProjectNotFound(id: string)
    | PsqlNotSet
    | PsqlFailed(detail: string)

  /** psql running the file; the password travels in PGPASSWORD only. */
  function ExecCommand(p: ConnectionParams, b: BinaryPaths, file: string): Command {
    Command(b.psql, ["-h", p.host, "-p", p.port, "-U", p.user, "-d", p.dbName, "-f", file], Some(p.password))
  }

  /** Every check Exec makes before it launches psql holds. */
  predicate ReadyToRun(connections: map<string, ConnectionParams>, binaries: BinaryPaths, args: seq<string>,
                       stat: string -> FileStat)
  {
    |args| == 2 && stat(args[1]) != Missing && args[0] in connections && binaries.psql != ""
  }

  /** Exec: argument count, then the file, then the project, then the psql path, then one launch. */
  function Exec(connections: map<string, ConnectionParams>, binaries: BinaryPaths, args: seq<string>,
                stat: string -> FileStat, run: Command -> Exit): (t: Trace<(), ExecError>)
    ensures t.spawned != [] <==> ReadyToRun(connections, binaries, args, stat)
    ensures t.spawned != [] ==> t.spawned == [ExecCommand(connections[args[0]], binaries, args[1])]
    ensures t.result.Success? ==> t.spawned != [] && run(t.spawned[0]).Exited?
  {
    if |args| != 2 then Trace([], Failure(WrongArgCount))
    else
      var projectId, filename := args[0], args[1];
      if stat(filename) == Missing then Trace([], Failure(FileNotFound(filename)))
      else if projectId !in connections then Trace([], Failure(ProjectNotFound(projectId)))
      else if binaries.psql == "" then Trace([], Failure(PsqlNotSet))
      else
        var cmd := ExecCommand(connections[projectId], binaries, filename);
        Trace([cmd], if run(cmd).Failed? then Failure(PsqlFailed(run(cmd).output)) else Success(()))
  }

  /** The checks fail in the source's order: a wrong argument count hides everything else, a
      missing file hides an unknown project, and an unknown project hides a missing psql path. */
  lemma ExecCheckOrder(connections: map<string, ConnectionParams>, binaries: BinaryPaths, args: seq<string>,
                       stat: string -> FileStat, run: Command -> Exit)
    ensures |args| != 2 ==> Exec(connections, binaries, args, stat, run).result == Failure(WrongArgCount)
    ensures |args| == 2 && stat(args[1]) == Missing ==>
      Exec(connections, binaries, args, stat, run).result == Failure(FileNotFound(args[1]))
    ensures |args| == 2 && stat(args[1]) != Missing && args[0] !in connections ==>
      Exec(connections, binaries, args, stat, run).result == Failure(ProjectNotFound(args[0]))
    ensures |args| == 2 && stat(args[1]) != Missing && args[0] in connections && binaries.psql == "" ==>
      Exec(connections, binaries, args, stat, run).result == Failure(PsqlNotSet)
  {
  }

  /** The password is never an argument: changing it changes neither the program nor the
      argument vector, only the PGPASSWORD value. */
  lemma ExecPasswordOnlyInEnvironment(p: ConnectionParams, b: BinaryPaths, file: string, other: string)
    ensures ExecCommand(p.(password := other), b, file).program == ExecCommand(p, b, file).program
    ensures ExecCommand(p.(password := other), b, file).args == ExecCommand(p, b, file).args
    ensures ExecCommand(p, b, file).pgPassword == Some(p.password)
    ensures |ExecCommand(p, b, file).args| == 10 && ExecCommand(p, b, file).args[9] == file
  {
  }
}
