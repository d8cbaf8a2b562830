/** `db backup` (database/backup.go): flag parsing, defaults, validation, and the three dumps
    (roles, schema, data) run in that order, each a launched tool whose outcome is given by `run`. */
module DbBackup {
  import opened Results
  import opened GoStrings
  import opened Process
  import opened Config

  /** Platform-internal roles that are filtered out of the roles dump. */
  const ExcludedRoles: seq<string> := [
    "postgres", "anon", "authenticated", "authenticator", "service_role",
    "supabase_admin", "supabase_auth_admin", "supabase_functions_admin",
    "supabase_read_only_user", "supabase_realtime_admin", "supabase_replication_admin",
    "supabase_storage_admin", "dashboard_user", "pgbouncer",
    "pgsodium_keyholder", "pgsodium_keyiduser", "pgsodium_keymaker"]

  /** Platform-internal schemas left out of the schema and data dumps. */
  const ExcludedSchemas: seq<string> := [
    "auth", "cron", "extensions", "graphql", "graphql_public", "net", "pgbouncer",
    "pgsodium", "pgsodium_masks", "realtime", "storage", "supabase_functions",
    "supabase_migrations", "vault", "_realtime"]

  datatype Dump = Roles | Schema | Data

  /** What the flag loop has read: the project ID, the file prefix and the three type flags. */
  datatype Flags = Flags(projectId: string, prefix: string, roles: bool, schema: bool, data: bool)

  const NoFlags := Flags("", "", false, false, false)

  datatype BackupError =
    | NoArguments                      // "backup command requires at least a project ID"
    | PrefixNeedsValue                 // "--prefix flag requires a value"
    | UnknownFlag(flag: string)        // "unknown flag: ..."
    | NoProjectId                      // "no project ID specified"
    | ProjectNotFound(id: string)      // "project with ID '...' not found"
    | ToolsNotSet                      // "one or more PostgreSQL binary paths are not set"
    | DumpFailed(dump: Dump, detail: string)

  // ---------------------------------------------------------------------------
  // Flag parsing

  /** The flag loop over the remaining arguments, starting from the settings read so far. */
  function Scan(args: seq<string>, acc: Flags): Result<Flags, BackupError>
    decreases |args|
  {
    if |args| == 0 then Success(acc)
    else
      var arg := args[0];
      if arg == "--roles" then Scan(args[1..], acc.(roles := true))
      else if arg == "--schema" then Scan(args[1..], acc.(schema := true))
      else if arg == "--data" then Scan(args[1..], acc.(data := true))
      else if arg == "--prefix" then
        if |args| > 1 then Scan(args[2..], acc.(prefix := args[1])) else Failure(PrefixNeedsValue)
      else if !HasPrefix(arg, "--") then Scan(args[1..], acc.(projectId := arg))
      else Failure(UnknownFlag(arg))
  }

  /** The argument loop of Backup. */
  method ParseBackupArgs(args: seq<string>) returns (r: Result<Flags, BackupError>)
    ensures r == Scan(args, NoFlags)
  {
    var projectId, filePrefix := "", "";
    var doRoles, doSchema, doData := false, false, false;
    var i := 0;
    while i < |args|
      invariant 0 <= i <= |args|
      invariant Scan(args[i..], Flags(projectId, filePrefix, doRoles, doSchema, doData)) == Scan(args, NoFlags)
    {
      var arg := args[i];
      assert args[i..][1..] == args[i + 1..];
      if arg == "--roles" {
        doRoles := true;
      } else if arg == "--schema" {
        doSchema := true;
      } else if arg == "--data" {
        doData := true;
      } else if arg == "--prefix" {
        if i + 1 < |args| {
          assert args[i..][2..] == args[i + 2..];
          filePrefix := args[i + 1];
          i := i + 1;
        } else {
          return Failure(PrefixNeedsValue);
        }
      } else if !HasPrefix(arg, "--") {
        projectId := arg;
      } else {
        return Failure(UnknownFlag(arg));
      }
      i := i + 1;
    }
    assert args[i..] == [];
    return Success(Flags(projectId, filePrefix, doRoles, doSchema, doData));
  }

  /** Parsing is compositional: once a stretch of arguments has been read without error, the
      rest is read from the settings it left. */
  lemma {:induction false} ScanConcat(a: seq<string>, b: seq<string>, acc: Flags, f: Flags)
    requires Scan(a, acc) == Success(f)
    ensures Scan(a + b, acc) == Scan(b, f)
    decreases |a|
  {
    if |a| > 0 {
      var arg := a[0];
      assert (a + b)[0] == arg;
      assert (a + b)[1..] == a[1..] + b;
      if arg == "--prefix" {
        assert |a| > 1;
        assert (a + b)[1] == a[1];
        assert (a + b)[2..] == a[2..] + b;
        ScanConcat(a[2..], b, acc.(prefix := a[1]), f);
      } else if arg == "--roles" {
        ScanConcat(a[1..], b, acc.(roles := true), f);
      } else if arg == "--schema" {
        ScanConcat(a[1..], b, acc.(schema := true), f);
      } else if arg == "--data" {
        ScanConcat(a[1..], b, acc.(data := true), f);
      } else {
        ScanConcat(a[1..], b, acc.(projectId := arg), f);
      }
    } else {
      assert a + b == b;
    }
  }

  /** A `--prefix` that ends the arguments is an error. */
  lemma PrefixWithoutValue(a: seq<string>, acc: Flags, f: Flags)
    requires Scan(a, acc) == Success(f)
    ensures Scan(a + ["--prefix"], acc) == Failure(PrefixNeedsValue)
  {
    ScanConcat(a, ["--prefix"], acc, f);
  }

  /** `--prefix` takes the next argument as the prefix, even one that starts with "--". */
  lemma PrefixTakesNextArgument(a: seq<string>, v: string, b: seq<string>, acc: Flags, f: Flags)
    requires Scan(a, acc) == Success(f)
    ensures Scan(a + ["--prefix", v] + b, acc) == Scan(b, f.(prefix := v))
  {
    assert a + ["--prefix", v] + b == a + (["--prefix", v] + b);
    ScanConcat(a, ["--prefix", v] + b, acc, f);
    assert (["--prefix", v] + b)[2..] == b;
  }

  /** Any other argument starting with "--" stops parsing with an unknown-flag error. */
  lemma UnknownFlagRejected(a: seq<string>, x: string, b: seq<string>, acc: Flags, f: Flags)
    requires Scan(a, acc) == Success(f)
    requires HasPrefix(x, "--") && x != "--roles" && x != "--schema" && x != "--data" && x != "--prefix"
    ensures Scan(a + [x] + b, acc) == Failure(UnknownFlag(x))
  {
    assert a + [x] + b == a + ([x] + b);
    ScanConcat(a, [x] + b, acc, f);
  }

  /** An argument not starting with "--" is the project ID; a later one replaces it. */
  lemma PositionalSetsProject(a: seq<string>, x: string, b: seq<string>, acc: Flags, f: Flags)
    requires Scan(a, acc) == Success(f)
    requires !HasPrefix(x, "--")
    ensures Scan(a + [x] + b, acc) == Scan(b, f.(projectId := x))
  {
    assert a + [x] + b == a + ([x] + b);
    ScanConcat(a, [x] + b, acc, f);
    assert ([x] + b)[1..] == b;
  }

  /** Without `--prefix`, a type flag is set exactly when it occurs among the arguments. */
  lemma {:induction false} TypeFlagsAreTheGivenOnes(args: seq<string>, acc: Flags, f: Flags)
    requires "--prefix" !in args
    requires Scan(args, acc) == Success(f)
    ensures f.roles <==> acc.roles || "--roles" in args
    ensures f.schema <==> acc.schema || "--schema" in args
    ensures f.data <==> acc.data || "--data" in args
    ensures f.prefix == acc.prefix
    decreases |args|
  {
    if |args| > 0 {
      assert args == [args[0]] + args[1..];
      var arg := args[0];
      if arg == "--roles" {
        TypeFlagsAreTheGivenOnes(args[1..], acc.(roles := true), f);
      } else if arg == "--schema" {
        TypeFlagsAreTheGivenOnes(args[1..], acc.(schema := true), f);
      } else if arg == "--data" {
        TypeFlagsAreTheGivenOnes(args[1..], acc.(data := true), f);
      } else {
        TypeFlagsAreTheGivenOnes(args[1..], acc.(projectId := arg), f);
      }
    }
  }

  // ---------------------------------------------------------------------------
  // Defaults

  /** The dumps to run, in the fixed order roles, schema, data: all three when no type flag was
      given, else exactly the flagged ones. */
  function SelectedDumps(f: Flags): (ds: seq<Dump>)
    ensures !f.roles && !f.schema && !f.data ==> ds == [Roles, Schema, Data]
    ensures f.roles || f.schema || f.data ==>
      (Roles in ds <==> f.roles) && (Schema in ds <==> f.schema) && (Data in ds <==> f.data)
    ensures forall i, j :: 0 <= i < j < |ds| ==> Rank(ds[i]) < Rank(ds[j])
  {
    if !f.roles && !f.schema && !f.data then [Roles, Schema, Data]
    else (if f.roles then [Roles] else []) + (if f.schema then [Schema] else []) + (if f.data then [Data] else [])
  }

  function Rank(d: Dump): nat {
    match d
    case Roles => 0
    case Schema => 1
    case Data => 2
  }

  /** The file-name prefix: the one given, or `projectID_timestamp` when none (or "") was given. */
  function FilePrefix(f: Flags, timestamp: string): string {
    if f.prefix == "" then f.projectId + "_" + timestamp else f.prefix
  }

  function Suffix(d: Dump): string {
    match d
    case Roles => "_roles.sql"
    case Schema => "_schema.sql"
    case Data => "_data.sql"
  }

  function DumpFile(prefix: string, d: Dump): string {
    prefix + Suffix(d)
  }

  function DumpFiles(prefix: string, ds: seq<Dump>): (files: seq<string>)
    ensures |files| == |ds|
    ensures forall k :: 0 <= k < |ds| ==> files[k] == DumpFile(prefix, ds[k])
  {
    seq(|ds|, k requires 0 <= k < |ds| => DumpFile(prefix, ds[k]))
  }

  // ---------------------------------------------------------------------------
  // Validation

  /** Everything the dumps need once the arguments and the store have been checked. */
  datatype Plan = Plan(params: ConnectionParams, binaries: BinaryPaths, prefix: string, dumps: seq<Dump>)

  /** Argument parsing, defaults and the store checks of Backup, in the source's order. */
  function PlanBackup(connections: map<string, ConnectionParams>, binaries: BinaryPaths,
                      args: seq<string>, timestamp: string): Result<Plan, BackupError>
  {
    if |args| < 1 then Failure(NoArguments)
    else
      match Scan(args, NoFlags)
      case Failure(e) => Failure(e)
      case Success(f) =>
        if f.projectId == "" then Failure(NoProjectId)
        else
          match Lookup(connections, f.projectId)
          case None => Failure(ProjectNotFound(f.projectId))
          case Some(p) =>
            if !PostgresToolsSet(binaries) then Failure(ToolsNotSet)
            else Success(Plan(p, binaries, FilePrefix(f, timestamp), SelectedDumps(f)))
  }

  // ---------------------------------------------------------------------------
  // The tool invocations

  /** The extended regular expression matching the excluded role names. */
  const RolePattern: string := Join(ExcludedRoles, "|")

  function RoleDumpCommand(p: ConnectionParams, b: BinaryPaths): Command {
    Command(b.pgDumpAll, ["--roles-only", "--no-role-passwords", "-h", p.host, "-p", p.port, "-U", p.user],
            Some(p.password))
  }

  /** grep -vE dropping the `CREATE ROLE <excluded>;` lines from the roles dump. */
  function RoleFilterCommand(): Command {
    Command("grep", ["-vE", "CREATE ROLE (" + RolePattern + ");"], None)
  }

  function ConnectionFlags(p: ConnectionParams): seq<string> {
    ["-h", p.host, "-p", p.port, "-U", p.user, "-d", p.dbName]
  }

  const SchemaModeFlags: seq<string> := ["--schema-only", "--no-owner", "--no-privileges"]
  const DataModeFlags: seq<string> := ["--data-only", "--quote-all-identifiers"]

  /** One `--exclude-schema=s` per schema, in list order. */
  function ExcludeSchemaFlags(schemas: seq<string>): (flags: seq<string>)
    ensures |flags| == |schemas|
    ensures forall k :: 0 <= k < |schemas| ==> flags[k] == "--exclude-schema=" + schemas[k]
  {
    seq(|schemas|, k requires 0 <= k < |schemas| => "--exclude-schema=" + schemas[k])
  }

  function SchemaDumpCommand(p: ConnectionParams, b: BinaryPaths): Command {
    Command(b.pgDump, ConnectionFlags(p) + SchemaModeFlags + ExcludeSchemaFlags(ExcludedSchemas), Some(p.password))
  }

  function DataDumpCommand(p: ConnectionParams, b: BinaryPaths): Command {
    Command(b.pgDump, ConnectionFlags(p) + DataModeFlags + ExcludeSchemaFlags(ExcludedSchemas), Some(p.password))
  }

  /** The processes one dump launches when each of them succeeds. */
  function DumpCommands(d: Dump, p: ConnectionParams, b: BinaryPaths): seq<Command> {
    match d
    case Roles => [RoleDumpCommand(p, b), RoleFilterCommand()]
    case Schema => [SchemaDumpCommand(p, b)]
    case Data => [DataDumpCommand(p, b)]
  }

  /** One dump: its launches and, on success, the file it wrote. A failing grep counts as a
      failure only when it wrote something to its error stream. */
  function RunDump(d: Dump, file: string, p: ConnectionParams, b: BinaryPaths, run: Command -> Exit)
    : Trace<string, BackupError>
  {
    match d
    case Roles =>
      var dump := RoleDumpCommand(p, b);
      if run(dump).Failed? then Trace([dump], Failure(DumpFailed(Roles, run(dump).output)))
      else
        var filter := RoleFilterCommand();
        if run(filter).Failed? && run(filter).output != "" then
          Trace([dump, filter], Failure(DumpFailed(Roles, run(filter).output)))
        else Trace([dump, filter], Success(file))
    case Schema =>
      var c := SchemaDumpCommand(p, b);
      if run(c).Failed? then Trace([c], Failure(DumpFailed(Schema, run(c).output))) else Trace([c], Success(file))
    case Data =>
      var c := DataDumpCommand(p, b);
      if run(c).Failed? then Trace([c], Failure(DumpFailed(Data, run(c).output))) else Trace([c], Success(file))
  }

  /** The dumps in order; the first failure ends the backup. */
  function RunDumps(ds: seq<Dump>, prefix: string, p: ConnectionParams, b: BinaryPaths, run: Command -> Exit)
    : Trace<seq<string>, BackupError>
    decreases |ds|
  {
    if |ds| == 0 then Trace([], Success([]))
    else Cons(RunDump(ds[0], DumpFile(prefix, ds[0]), p, b, run), RunDumps(ds[1..], prefix, p, b, run))
  }

  /** One dump followed by the rest, which runs only if the first succeeded. */
  function Cons(first: Trace<string, BackupError>, rest: Trace<seq<string>, BackupError>)
    : Trace<seq<string>, BackupError>
  {
    if first.result.Failure? then Trace(first.spawned, Failure(first.result.error))
    else
      Trace(first.spawned + rest.spawned,
            if rest.result.Failure? then Failure(rest.result.error) else Success([first.result.value] + rest.result.value))
  }

  /** What one dump can do, given the commands `cs` it would launch: launch a non-empty prefix of
      them; succeed exactly with all of them launched and its file written; fail under its own
      name; and succeed whenever every one of its launches exits normally. */
  predicate DumpOutcome(d: Dump, cs: seq<Command>, file: string, run: Command -> Exit, t: Trace<string, BackupError>)
  {
    && 0 < |t.spawned| && t.spawned <= cs
    && (t.result.Success? ==> t.spawned == cs && t.result.value == file)
    && (t.result.Failure? ==> t.result.error.DumpFailed? && t.result.error.dump == d)
    && ((forall k :: 0 <= k < |cs| ==> run(cs[k]).Exited?) ==> t.result.Success?)
  }

  lemma RunDumpOutcome(d: Dump, file: string, p: ConnectionParams, b: BinaryPaths, run: Command -> Exit)
    ensures DumpOutcome(d, DumpCommands(d, p, b), file, run, RunDump(d, file, p, b, run))
  {
    var t := RunDump(d, file, p, b, run);
    match d
    case Roles =>
      var dump, filter := RoleDumpCommand(p, b), RoleFilterCommand();
      assert t == if run(dump).Failed? then Trace([dump], Failure(DumpFailed(Roles, run(dump).output)))
                  else if run(filter).Failed? && run(filter).output != "" then
                    Trace([dump, filter], Failure(DumpFailed(Roles, run(filter).output)))
                  else Trace([dump, filter], Success(file));
      PairOutcome(dump, filter, file, run, t);
    case Schema =>
      var c := SchemaDumpCommand(p, b);
      SingleOutcome(Schema, c, file, run, t);
    case Data =>
      var c := DataDumpCommand(p, b);
      SingleOutcome(Data, c, file, run, t);
  }

  lemma PairOutcome(dump: Command, filter: Command, file: string, run: Command -> Exit, t: Trace<string, BackupError>)
    requires t == if run(dump).Failed? then Trace([dump], Failure(DumpFailed(Roles, run(dump).output)))
                  else if run(filter).Failed? && run(filter).output != "" then
                    Trace([dump, filter], Failure(DumpFailed(Roles, run(filter).output)))
                  else Trace([dump, filter], Success(file))
    ensures DumpOutcome(Roles, [dump, filter], file, run, t)
  {
    var cs := [dump, filter];
    assert cs[0] == dump && cs[1] == filter;
    assert [dump] <= cs;
  }

  lemma SingleOutcome(d: Dump, c: Command, file: string, run: Command -> Exit, t: Trace<string, BackupError>)
    requires t == if run(c).Failed? then Trace([c], Failure(DumpFailed(d, run(c).output))) else Trace([c], Success(file))
    ensures DumpOutcome(d, [c], file, run, t)
  {
    assert [c][0] == c;
  }

  /** Everything the dumps launch when each launch succeeds, in order. */
  function PlannedCommands(ds: seq<Dump>, p: ConnectionParams, b: BinaryPaths): seq<Command>
    decreases |ds|
  {
    if |ds| == 0 then [] else DumpCommands(ds[0], p, b) + PlannedCommands(ds[1..], p, b)
  }

  /** The whole `db backup` command. */
  function BackupSpec(connections: map<string, ConnectionParams>, binaries: BinaryPaths,
                      args: seq<string>, timestamp: string, run: Command -> Exit): Trace<seq<string>, BackupError>
  {
    match PlanBackup(connections, binaries, args, timestamp)
    case Failure(e) => Trace([], Failure(e))
    case Success(plan) => RunDumps(plan.dumps, plan.prefix, plan.params, plan.binaries, run)
  }

  // ---------------------------------------------------------------------------
  // The imperative handlers

  /** The loop that appends one `--exclude-schema=` flag per schema. */
  method AppendExcludeSchemas(base: seq<string>, schemas: seq<string>) returns (args: seq<string>)
    ensures args == base + ExcludeSchemaFlags(schemas)
  {
    args := base;
    for k := 0 to |schemas|
      invariant args == base + ExcludeSchemaFlags(schemas[..k])
    {
      assert ExcludeSchemaFlags(schemas[..k + 1]) == ExcludeSchemaFlags(schemas[..k]) + ["--exclude-schema=" + schemas[k]];
      args := args + ["--exclude-schema=" + schemas[k]];
    }
    assert schemas[..|schemas|] == schemas;
  }

  /** backupRoles */
  method BackupRoles(p: ConnectionParams, b: BinaryPaths, file: string, run: Command -> Exit)
    returns (t: Trace<string, BackupError>)
    ensures t == RunDump(Roles, file, p, b, run)
  {
    var dumpCmd := Command(b.pgDumpAll, ["--roles-only", "--no-role-passwords", "-h", p.host, "-p", p.port, "-U", p.user],
                           Some(p.password));
    var dumpOut := run(dumpCmd);
    if dumpOut.Failed? {
      return Trace([dumpCmd], Failure(DumpFailed(Roles, dumpOut.output)));
    }
    var excludePattern := Join(ExcludedRoles, "|");
    var grepCmd := Command("grep", ["-vE", "CREATE ROLE (" + excludePattern + ");"], None);
    var grepOut := run(grepCmd);
    if grepOut.Failed? && |grepOut.output| > 0 {
      return Trace([dumpCmd, grepCmd], Failure(DumpFailed(Roles, grepOut.output)));
    }
    return Trace([dumpCmd, grepCmd], Success(file));
  }

  /** backupSchema */
  method BackupSchema(p: ConnectionParams, b: BinaryPaths, file: string, run: Command -> Exit)
    returns (t: Trace<string, BackupError>)
    ensures t == RunDump(Schema, file, p, b, run)
  {
    var args := AppendExcludeSchemas(ConnectionFlags(p) + SchemaModeFlags, ExcludedSchemas);
    var cmd := Command(b.pgDump, args, Some(p.password));
    if run(cmd).Failed? {
      return Trace([cmd], Failure(DumpFailed(Schema, run(cmd).output)));
    }
    return Trace([cmd], Success(file));
  }

  /** backupData */
  method BackupData(p: ConnectionParams, b: BinaryPaths, file: string, run: Command -> Exit)
    returns (t: Trace<string, BackupError>)
    ensures t == RunDump(Data, file, p, b, run)
  {
    var args := AppendExcludeSchemas(ConnectionFlags(p) + DataModeFlags, ExcludedSchemas);
    var cmd := Command(b.pgDump, args, Some(p.password));
    if run(cmd).Failed? {
      return Trace([cmd], Failure(DumpFailed(Data, run(cmd).output)));
    }
    return Trace([cmd], Success(file));
  }

  /** Backup: parse, default, validate, then run the selected dumps in order. */
  method Backup(cfg: Config, args: seq<string>, timestamp: string, run: Command -> Exit)
    returns (t: Trace<seq<string>, BackupError>)
    ensures t == BackupSpec(cfg.connections, cfg.binaries, args, timestamp, run)
  {
    if |args| < 1 {
      return Trace([], Failure(NoArguments));
    }
    var parsed := ParseBackupArgs(args);
    if parsed.Failure? {
      return Trace([], Failure(parsed.error));
    }
    var f := parsed.value;
    var projectId, filePrefix := f.projectId, f.prefix;
    var doRoles, doSchema, doData := f.roles, f.schema, f.data;
    if projectId == "" {
      return Trace([], Failure(NoProjectId));
    }
    var isFullBackup := !doRoles && !doSchema && !doData;
    if isFullBackup {
      doRoles, doSchema, doData := true, true, true;
    }
    if filePrefix == "" {
      filePrefix := projectId + "_" + timestamp;
    }
    var params, found := cfg.GetConnection(projectId);
    if !found {
      return Trace([], Failure(ProjectNotFound(projectId)));
    }
    var binaries := cfg.GetBinaryPaths();
    if binaries.psql == "" || binaries.pgDump == "" || binaries.pgDumpAll == "" {
      return Trace([], Failure(ToolsNotSet));
    }
    assert PlanBackup(cfg.connections, cfg.binaries, args, timestamp)
        == Success(Plan(params, binaries, filePrefix, SelectedDumps(f)));
    assert Requested(doRoles, doSchema, doData) == SelectedDumps(f);
    t := RunRequestedDumps(doRoles, doSchema, doData, filePrefix, params, binaries, run);
  }

  /** The flagged dumps in the order roles, schema, data. */
  function Requested(doRoles: bool, doSchema: bool, doData: bool): seq<Dump> {
    (if doRoles then [Roles] else []) + (if doSchema then [Schema] else []) + (if doData then [Data] else [])
  }

  /** Nothing launched and no file written yet. */
  const Start: Trace<seq<string>, BackupError> := Trace([], Success([]))

  /** One `if doX { ... }` block of Backup applied to the progress so far: skipped when not
      requested or when an earlier dump already failed, else the dump's launches are added and
      either its file is recorded or its error ends the backup. */
  function Stage(enabled: bool, d: Dump, acc: Trace<seq<string>, BackupError>,
                 prefix: string, p: ConnectionParams, b: BinaryPaths, run: Command -> Exit)
    : Trace<seq<string>, BackupError>
  {
    if !enabled || acc.result.Failure? then acc else After(acc, RunDump(d, DumpFile(prefix, d), p, b, run))
  }

  /** The progress `acc` after one more dump with outcome `step`. */
  function After(acc: Trace<seq<string>, BackupError>, step: Trace<string, BackupError>)
    : Trace<seq<string>, BackupError>
    requires acc.result.Success?
  {
    Trace(acc.spawned + step.spawned,
          if step.result.Failure? then Failure(step.result.error) else Success(acc.result.value + [step.result.value]))
  }

  /** The three blocks in the order the source writes them. */
  function Stages(doRoles: bool, doSchema: bool, doData: bool,
                  prefix: string, p: ConnectionParams, b: BinaryPaths, run: Command -> Exit)
    : Trace<seq<string>, BackupError>
  {
    Stage(doData, Data, Stage(doSchema, Schema, Stage(doRoles, Roles, Start, prefix, p, b, run), prefix, p, b, run),
          prefix, p, b, run)
  }

  /** The tail of Backup that runs the requested dumps, stopping at the first failure. */
  method RunRequestedDumps(doRoles: bool, doSchema: bool, doData: bool, filePrefix: string,
                           params: ConnectionParams, binaries: BinaryPaths, run: Command -> Exit)
    returns (t: Trace<seq<string>, BackupError>)
    ensures t == RunDumps(Requested(doRoles, doSchema, doData), filePrefix, params, binaries, run)
  {
    StagesRunRequested(doRoles, doSchema, doData, filePrefix, params, binaries, run);
    var spawned: seq<Command> := [];
    var files: seq<string> := [];
    if doRoles {
      var step := BackupRoles(params, binaries, filePrefix + "_roles.sql", run);
      spawned := spawned + step.spawned;
      if step.result.Failure? {
        return Trace(spawned, Failure(step.result.error));
      }
      files := files + [step.result.value];
    }
    assert Stage(doRoles, Roles, Start, filePrefix, params, binaries, run) == Trace(spawned, Success(files));
    if doSchema {
      var step := BackupSchema(params, binaries, filePrefix + "_schema.sql", run);
      spawned := spawned + step.spawned;
      if step.result.Failure? {
        return Trace(spawned, Failure(step.result.error));
      }
      files := files + [step.result.value];
    }
    if doData {
      var step := BackupData(params, binaries, filePrefix + "_data.sql", run);
      spawned := spawned + step.spawned;
      if step.result.Failure? {
        return Trace(spawned, Failure(step.result.error));
      }
      files := files + [step.result.value];
    }
    return Trace(spawned, Success(files));
  }

  /** The trace of a backup whose progress so far is `acc` and which goes on with `rest`. */
  function Continue(acc: Trace<seq<string>, BackupError>, rest: Trace<seq<string>, BackupError>)
    : Trace<seq<string>, BackupError>
  {
    if acc.result.Failure? then acc
    else
      Trace(acc.spawned + rest.spawned,
            if rest.result.Failure? then Failure(rest.result.error) else Success(acc.result.value + rest.result.value))
  }

  lemma ContinueCons(acc: Trace<seq<string>, BackupError>, step: Trace<string, BackupError>,
                     rest: Trace<seq<string>, BackupError>)
    requires acc.result.Success?
    ensures Continue(acc, Cons(step, rest)) == Continue(After(acc, step), rest)
  {
    if step.result.Success? {
      assert acc.spawned + (step.spawned + rest.spawned) == acc.spawned + step.spawned + rest.spawned;
      if rest.result.Success? {
        assert acc.result.value + ([step.result.value] + rest.result.value)
            == acc.result.value + [step.result.value] + rest.result.value;
      }
    }
  }

  /** One block of the source consumes the head of the remaining dump list exactly when it is
      requested. */
  lemma StageAdvance(enabled: bool, d: Dump, acc: Trace<seq<string>, BackupError>, todo: seq<Dump>,
                     prefix: string, p: ConnectionParams, b: BinaryPaths, run: Command -> Exit)
    ensures Continue(acc, RunDumps((if enabled then [d] else []) + todo, prefix, p, b, run))
         == Continue(Stage(enabled, d, acc, prefix, p, b, run), RunDumps(todo, prefix, p, b, run))
  {
    if enabled && acc.result.Success? {
      RunStage(d, acc, todo, prefix, p, b, run);
    } else {
      SkipStage(enabled, d, acc, todo, prefix, p, b, run);
    }
  }

  lemma SkipStage(enabled: bool, d: Dump, acc: Trace<seq<string>, BackupError>, todo: seq<Dump>,
                  prefix: string, p: ConnectionParams, b: BinaryPaths, run: Command -> Exit)
    requires !enabled || acc.result.Failure?
    ensures Continue(acc, RunDumps((if enabled then [d] else []) + todo, prefix, p, b, run))
         == Continue(Stage(enabled, d, acc, prefix, p, b, run), RunDumps(todo, prefix, p, b, run))
  {
    if !enabled {
      assert [] + todo == todo;
    }
  }

  lemma RunStage(d: Dump, acc: Trace<seq<string>, BackupError>, todo: seq<Dump>,
                 prefix: string, p: ConnectionParams, b: BinaryPaths, run: Command -> Exit)
    requires acc.result.Success?
    ensures Continue(acc, RunDumps([d] + todo, prefix, p, b, run))
         == Continue(After(acc, RunDump(d, DumpFile(prefix, d), p, b, run)), RunDumps(todo, prefix, p, b, run))
  {
    var ds := [d] + todo;
    assert ds[0] == d && ds[1..] == todo;
    ContinueCons(acc, RunDump(d, DumpFile(prefix, d), p, b, run), RunDumps(todo, prefix, p, b, run));
  }

  /** The source's three blocks run exactly the requested dumps, in order, as RunDumps does. */
  lemma StagesRunRequested(doRoles: bool, doSchema: bool, doData: bool,
                           prefix: string, p: ConnectionParams, b: BinaryPaths, run: Command -> Exit)
    ensures Stages(doRoles, doSchema, doData, prefix, p, b, run)
         == RunDumps(Requested(doRoles, doSchema, doData), prefix, p, b, run)
  {
    var a1 := Stage(doRoles, Roles, Start, prefix, p, b, run);
    var a2 := Stage(doSchema, Schema, a1, prefix, p, b, run);
    var tail2 := (if doData then [Data] else []) + [];
    var tail1 := (if doSchema then [Schema] else []) + tail2;
    assert Requested(doRoles, doSchema, doData) == (if doRoles then [Roles] else []) + tail1;
    ContinueFromStart(RunDumps(Requested(doRoles, doSchema, doData), prefix, p, b, run));
    StageAdvance(doRoles, Roles, Start, tail1, prefix, p, b, run);
    StageAdvance(doSchema, Schema, a1, tail2, prefix, p, b, run);
    StageAdvance(doData, Data, a2, [], prefix, p, b, run);
    ContinueWithNothing(Stage(doData, Data, a2, prefix, p, b, run), prefix, p, b, run);
  }

  lemma ContinueFromStart(whole: Trace<seq<string>, BackupError>)
    ensures Continue(Start, whole) == whole
  {
    assert [] + whole.spawned == whole.spawned;
    if whole.result.Success? {
      assert [] + whole.result.value == whole.result.value;
    }
  }

  lemma ContinueWithNothing(acc: Trace<seq<string>, BackupError>,
                            prefix: string, p: ConnectionParams, b: BinaryPaths, run: Command -> Exit)
    ensures Continue(acc, RunDumps([], prefix, p, b, run)) == acc
  {
    assert acc.spawned + [] == acc.spawned;
    if acc.result.Success? {
      assert acc.result.value + [] == acc.result.value;
    }
  }

  // ---------------------------------------------------------------------------
  // Properties of the whole command

  /** A run of dumps launches a prefix of the planned commands; it succeeds only after launching
      all of them and writing one file per dump, and a failure names one of the requested dumps. */
  lemma {:induction false} RunDumpsOutcome(ds: seq<Dump>, prefix: string, p: ConnectionParams, b: BinaryPaths,
                                           run: Command -> Exit)
    ensures RunDumps(ds, prefix, p, b, run).spawned <= PlannedCommands(ds, p, b)
    ensures RunDumps(ds, prefix, p, b, run).result.Success? ==>
      RunDumps(ds, prefix, p, b, run).spawned == PlannedCommands(ds, p, b)
      && RunDumps(ds, prefix, p, b, run).result.value == DumpFiles(prefix, ds)
    ensures RunDumps(ds, prefix, p, b, run).result.Failure? ==>
      RunDumps(ds, prefix, p, b, run).result.error.DumpFailed? && RunDumps(ds, prefix, p, b, run).result.error.dump in ds
    decreases |ds|
  {
    if |ds| > 0 {
      RunDumpsOutcome(ds[1..], prefix, p, b, run);
      RunDumpOutcome(ds[0], DumpFile(prefix, ds[0]), p, b, run);
      var first := RunDump(ds[0], DumpFile(prefix, ds[0]), p, b, run);
      var rest := RunDumps(ds[1..], prefix, p, b, run);
      ConsBounds(DumpCommands(ds[0], p, b), PlannedCommands(ds[1..], p, b),
                 DumpFile(prefix, ds[0]), DumpFiles(prefix, ds[1..]), first, rest);
      DumpFilesCons(prefix, ds);
      if first.result.Success? && rest.result.Failure? {
        assert rest.result.error.dump in ds[1..];
      }
    }
  }

  lemma DumpFilesCons(prefix: string, ds: seq<Dump>)
    requires |ds| > 0
    ensures DumpFiles(prefix, ds) == [DumpFile(prefix, ds[0])] + DumpFiles(prefix, ds[1..])
  {
    assert DumpFiles(prefix, ds)[1..] == DumpFiles(prefix, ds[1..]);
  }

  /** The step of RunDumpsOutcome on plain sequences: a first dump within its commands, followed
      by a rest within its own, stays within both. */
  lemma ConsBounds(own: seq<Command>, later: seq<Command>, file: string, laterFiles: seq<string>,
                   first: Trace<string, BackupError>, rest: Trace<seq<string>, BackupError>)
    requires first.spawned <= own && (first.result.Success? ==> first.spawned == own && first.result.value == file)
    requires rest.spawned <= later && (rest.result.Success? ==> rest.spawned == later && rest.result.value == laterFiles)
    ensures Cons(first, rest).spawned <= own + later
    ensures Cons(first, rest).result.Success? ==>
      Cons(first, rest).spawned == own + later && Cons(first, rest).result.value == [file] + laterFiles
    ensures Cons(first, rest).result.Failure? ==>
      Cons(first, rest).result.error == if first.result.Failure? then first.result.error else rest.result.error
  {
    if first.result.Failure? {
      assert (own + later)[..|first.spawned|] == first.spawned;
    } else {
      PrefixUnderConcat(own, rest.spawned, later);
    }
  }

  /** A failed run of dumps stopped in dump `i`: it launched every command of the dumps before
      it and then a non-empty prefix of that dump's own commands, and reports that dump. */
  predicate StoppedAt(ds: seq<Dump>, i: int, p: ConnectionParams, b: BinaryPaths, t: Trace<seq<string>, BackupError>) {
    && 0 <= i < |ds|
    && t.result.Failure? && t.result.error.DumpFailed? && t.result.error.dump == ds[i]
    && PlannedCommands(ds[..i], p, b) <= t.spawned
    && t.spawned <= PlannedCommands(ds[..i], p, b) + DumpCommands(ds[i], p, b)
    && |PlannedCommands(ds[..i], p, b)| < |t.spawned|
  }

  /** The first failing dump ends the run: a failed run stopped in one of the requested dumps,
      after all the launches planned before it and before any launch planned after it. */
  lemma {:induction false} FirstFailureStops(ds: seq<Dump>, prefix: string, p: ConnectionParams, b: BinaryPaths,
                                             run: Command -> Exit)
    requires RunDumps(ds, prefix, p, b, run).result.Failure?
    ensures exists i :: StoppedAt(ds, i, p, b, RunDumps(ds, prefix, p, b, run))
    decreases |ds|
  {
    var t := RunDumps(ds, prefix, p, b, run);
    var first := RunDump(ds[0], DumpFile(prefix, ds[0]), p, b, run);
    var rest := RunDumps(ds[1..], prefix, p, b, run);
    RunDumpOutcome(ds[0], DumpFile(prefix, ds[0]), p, b, run);
    if first.result.Failure? {
      assert ds[..0] == [];
      assert StoppedAt(ds, 0, p, b, t);
    } else {
      FirstFailureStops(ds[1..], prefix, p, b, run);
      var j :| StoppedAt(ds[1..], j, p, b, rest);
      StoppedAfterFirst(ds, j, p, b, rest, t);
    }
  }

  /** A run stopped in dump `j` of the tail, behind the first dump's complete launches, stopped
      in dump `j + 1` of the whole list. */
  lemma StoppedAfterFirst(ds: seq<Dump>, j: int, p: ConnectionParams, b: BinaryPaths,
                          rest: Trace<seq<string>, BackupError>, t: Trace<seq<string>, BackupError>)
    requires |ds| > 0 && StoppedAt(ds[1..], j, p, b, rest)
    requires t == Trace(DumpCommands(ds[0], p, b) + rest.spawned, rest.result)
    ensures StoppedAt(ds, j + 1, p, b, t)
  {
    var c0 := DumpCommands(ds[0], p, b);
    var before := PlannedCommands(ds[1..][..j], p, b);
    PlannedCons(ds, j, p, b);
    PrefixBetween(c0, before, DumpCommands(ds[j + 1], p, b), rest.spawned);
  }

  /** The commands planned before dump `j + 1` are the first dump's followed by those planned
      before dump `j` of the tail. */
  lemma PlannedCons(ds: seq<Dump>, j: nat, p: ConnectionParams, b: BinaryPaths)
    requires j < |ds| - 1
    ensures PlannedCommands(ds[..j + 1], p, b) == DumpCommands(ds[0], p, b) + PlannedCommands(ds[1..][..j], p, b)
  {
    assert ds[..j + 1][1..] == ds[1..][..j];
  }

  /** Putting the same commands in front keeps a run between the same bounds. */
  lemma PrefixBetween(c: seq<Command>, before: seq<Command>, own: seq<Command>, spawned: seq<Command>)
    requires before <= spawned <= before + own && |before| < |spawned|
    ensures c + before <= c + spawned <= c + before + own && |c + before| < |c + spawned|
  {
    PrefixUnderConcat(c, before, spawned);
    PrefixUnderConcat(c, spawned, before + own);
    assert c + (before + own) == c + before + own;
  }

  lemma PrefixUnderConcat(c: seq<Command>, x: seq<Command>, y: seq<Command>)
    requires x <= y
    ensures c + x <= c + y
  {
    assert (c + y)[..|c + x|] == c + x;
  }

  /** When every planned launch exits normally, every requested dump is written. */
  lemma {:induction false} AllLaunchesSucceed(ds: seq<Dump>, prefix: string, p: ConnectionParams, b: BinaryPaths,
                                              run: Command -> Exit)
    requires forall k :: 0 <= k < |PlannedCommands(ds, p, b)| ==> run(PlannedCommands(ds, p, b)[k]).Exited?
    ensures RunDumps(ds, prefix, p, b, run).result.Success?
    decreases |ds|
  {
    if |ds| > 0 {
      var here := DumpCommands(ds[0], p, b);
      var later := PlannedCommands(ds[1..], p, b);
      assert PlannedCommands(ds, p, b) == here + later;
      forall k | 0 <= k < |here| ensures run(here[k]).Exited? {
        assert here[k] == (here + later)[k];
      }
      forall k | 0 <= k < |later| ensures run(later[k]).Exited? {
        assert later[k] == (here + later)[|here| + k];
      }
      AllLaunchesSucceed(ds[1..], prefix, p, b, run);
      RunDumpOutcome(ds[0], DumpFile(prefix, ds[0]), p, b, run);
    }
  }

  /** Empty arguments, arguments that do not parse and arguments without a project ID are
      rejected whatever the store holds: these checks come before the lookup. */
  lemma RejectedBeforeLookup(c1: map<string, ConnectionParams>, b1: BinaryPaths,
                             c2: map<string, ConnectionParams>, b2: BinaryPaths,
                             args: seq<string>, timestamp: string)
    requires |args| == 0 || Scan(args, NoFlags).Failure? || Scan(args, NoFlags).value.projectId == ""
    ensures PlanBackup(c1, b1, args, timestamp).Failure?
    ensures PlanBackup(c1, b1, args, timestamp) == PlanBackup(c2, b2, args, timestamp)
  {
  }

  /** Nothing is launched unless the arguments parse to a known project and the three tools are
      configured; a successful backup launches every planned command and writes one file per
      selected dump under the chosen prefix. */
  lemma BackupOutcome(connections: map<string, ConnectionParams>, binaries: BinaryPaths,
                      args: seq<string>, timestamp: string, run: Command -> Exit)
    ensures var t := BackupSpec(connections, binaries, args, timestamp, run);
      t.spawned != [] || t.result.Success? ==>
        && |args| > 0 && Scan(args, NoFlags).Success?
        && var f := Scan(args, NoFlags).value;
        && f.projectId in connections && PostgresToolsSet(binaries)
        && t.spawned <= PlannedCommands(SelectedDumps(f), connections[f.projectId], binaries)
        && (t.result.Success? ==>
              t.spawned == PlannedCommands(SelectedDumps(f), connections[f.projectId], binaries)
              && t.result.value == DumpFiles(FilePrefix(f, timestamp), SelectedDumps(f)))
  {
    match PlanBackup(connections, binaries, args, timestamp)
    case Failure(_) =>
    case Success(plan) =>
      RunDumpsOutcome(plan.dumps, plan.prefix, plan.params, plan.binaries, run);
  }

  /** A backup whose checks pass and whose launches all exit normally writes one file per
      selected dump, named from the chosen prefix. */
  lemma SuccessfulBackup(connections: map<string, ConnectionParams>, binaries: BinaryPaths,
                         args: seq<string>, timestamp: string, run: Command -> Exit, plan: Plan)
    requires PlanBackup(connections, binaries, args, timestamp) == Success(plan)
    requires forall c :: run(c).Exited?
    ensures BackupSpec(connections, binaries, args, timestamp, run).result == Success(DumpFiles(plan.prefix, plan.dumps))
  {
    AllLaunchesSucceed(plan.dumps, plan.prefix, plan.params, plan.binaries, run);
    RunDumpsOutcome(plan.dumps, plan.prefix, plan.params, plan.binaries, run);
  }

  /** `db backup ID` with every launch succeeding writes the three default files, named after the
      project and the timestamp. */
  lemma FullBackupFiles(connections: map<string, ConnectionParams>, binaries: BinaryPaths, id: string,
                        timestamp: string, run: Command -> Exit)
    requires id in connections && PostgresToolsSet(binaries) && !HasPrefix(id, "--") && id != ""
    requires forall c :: run(c).Exited?
    ensures BackupSpec(connections, binaries, [id], timestamp, run).result
         == Success([id + "_" + timestamp + "_roles.sql", id + "_" + timestamp + "_schema.sql",
                     id + "_" + timestamp + "_data.sql"])
  {
    var plan := Plan(connections[id], binaries, id + "_" + timestamp, [Roles, Schema, Data]);
    IdOnlyPlan(connections, binaries, id, timestamp);
    SuccessfulBackup(connections, binaries, [id], timestamp, run, plan);
    AllDumpFiles(plan.prefix);
  }

  lemma IdOnlyPlan(connections: map<string, ConnectionParams>, binaries: BinaryPaths, id: string, timestamp: string)
    requires id in connections && PostgresToolsSet(binaries) && !HasPrefix(id, "--") && id != ""
    ensures PlanBackup(connections, binaries, [id], timestamp)
         == Success(Plan(connections[id], binaries, id + "_" + timestamp, [Roles, Schema, Data]))
  {
    var f := Flags(id, "", false, false, false);
    assert [id][1..] == [];
    assert Scan([id], NoFlags) == Scan([], f);
  }

  lemma AllDumpFiles(prefix: string)
    ensures DumpFiles(prefix, [Roles, Schema, Data]) == [prefix + "_roles.sql", prefix + "_schema.sql", prefix + "_data.sql"]
  {
    var files := DumpFiles(prefix, [Roles, Schema, Data]);
    assert [Roles, Schema, Data][2] == Data;
    assert files[0] == prefix + "_roles.sql" && files[1] == prefix + "_schema.sql" && files[2] == prefix + "_data.sql";
  }

  /** `db backup ID --schema --prefix P` writes only the schema file, named from the prefix. */
  lemma SchemaOnlyBackupFiles(connections: map<string, ConnectionParams>, binaries: BinaryPaths, id: string,
                              prefix: string, timestamp: string, run: Command -> Exit)
    requires id in connections && PostgresToolsSet(binaries) && !HasPrefix(id, "--") && id != "" && prefix != ""
    requires forall c :: run(c).Exited?
    ensures BackupSpec(connections, binaries, [id, "--schema", "--prefix", prefix], timestamp, run).result
         == Success([prefix + "_schema.sql"])
  {
    var args := [id, "--schema", "--prefix", prefix];
    var plan := Plan(connections[id], binaries, prefix, [Schema]);
    SchemaOnlyPlan(connections, binaries, id, prefix, timestamp);
    SuccessfulBackup(connections, binaries, args, timestamp, run, plan);
    assert DumpFiles(prefix, [Schema])[0] == prefix + "_schema.sql";
    assert DumpFiles(prefix, [Schema]) == [prefix + "_schema.sql"];
  }

  lemma SchemaOnlyPlan(connections: map<string, ConnectionParams>, binaries: BinaryPaths, id: string,
                       prefix: string, timestamp: string)
    requires id in connections && PostgresToolsSet(binaries) && !HasPrefix(id, "--") && id != "" && prefix != ""
    ensures PlanBackup(connections, binaries, [id, "--schema", "--prefix", prefix], timestamp)
         == Success(Plan(connections[id], binaries, prefix, [Schema]))
  {
    var args := [id, "--schema", "--prefix", prefix];
    assert args[1..] == ["--schema", "--prefix", prefix];
    assert args[1..][1..] == ["--prefix", prefix];
    assert args[1..][1..][2..] == [];
    var f0 := Flags(id, "", false, false, false);
    var f1 := f0.(schema := true);
    var f := f1.(prefix := prefix);
    assert args[0] == id && args[1..][0] == "--schema";
    assert args[1..][1..][0] == "--prefix" && args[1..][1..][1] == prefix;
    assert Scan(args, NoFlags) == Scan(args[1..], f0);
    assert Scan(args[1..], f0) == Scan(args[1..][1..], f1);
    assert Scan(args[1..][1..], f1) == Scan([], f);
    assert SelectedDumps(f) == [Schema];
  }

  /** The regular expression handed to grep is the excluded role names joined with '|':
      splitting it at '|' gives the list back. */
  lemma RolePatternAlternatives()
    ensures SplitOn(RolePattern, '|') == ExcludedRoles
  {
    SplitJoin(ExcludedRoles, '|');
  }

  /** The schema dump's arguments: the connection flags, the three schema-mode flags, then one
      exclusion per listed schema, in list order. */
  lemma SchemaDumpArguments(p: ConnectionParams, b: BinaryPaths)
    ensures var args := SchemaDumpCommand(p, b).args;
      && |args| == 8 + 3 + |ExcludedSchemas|
      && args[..8] == ["-h", p.host, "-p", p.port, "-U", p.user, "-d", p.dbName]
      && args[8..11] == ["--schema-only", "--no-owner", "--no-privileges"]
      && forall k :: 0 <= k < |ExcludedSchemas| ==> args[11 + k] == "--exclude-schema=" + ExcludedSchemas[k]
  {
    var args := SchemaDumpCommand(p, b).args;
    assert args == ConnectionFlags(p) + SchemaModeFlags + ExcludeSchemaFlags(ExcludedSchemas);
    forall k | 0 <= k < |ExcludedSchemas| ensures args[11 + k] == "--exclude-schema=" + ExcludedSchemas[k] {
      assert args[11 + k] == ExcludeSchemaFlags(ExcludedSchemas)[k];
    }
  }

  /** The data dump's arguments: the connection flags, the two data-mode flags, then one
      exclusion per listed schema, in list order. */
  lemma DataDumpArguments(p: ConnectionParams, b: BinaryPaths)
    ensures var args := DataDumpCommand(p, b).args;
      && |args| == 8 + 2 + |ExcludedSchemas|
      && args[..8] == ["-h", p.host, "-p", p.port, "-U", p.user, "-d", p.dbName]
      && args[8..10] == ["--data-only", "--quote-all-identifiers"]
      && forall k :: 0 <= k < |ExcludedSchemas| ==> args[10 + k] == "--exclude-schema=" + ExcludedSchemas[k]
  {
    var args := DataDumpCommand(p, b).args;
    assert args == ConnectionFlags(p) + DataModeFlags + ExcludeSchemaFlags(ExcludedSchemas);
    forall k | 0 <= k < |ExcludedSchemas| ensures args[10 + k] == "--exclude-schema=" + ExcludedSchemas[k] {
      assert args[10 + k] == ExcludeSchemaFlags(ExcludedSchemas)[k];
    }
  }

  /** Two lists of launches that differ at most in their PGPASSWORD: same length, and at every
      position the same program and arguments, with the password `pw` in the environment of
      every launch except the grep filter, which connects to nothing. */
  predicate PasswordOnlyIn(xs: seq<Command>, ys: seq<Command>, pw: string) {
    && |xs| == |ys|
    && forall k :: 0 <= k < |xs| ==>
      && xs[k].program == ys[k].program
      && xs[k].args == ys[k].args
      && (xs[k].pgPassword == Some(pw) || xs[k] == RoleFilterCommand())
  }

  /** The password reaches the tools only through PGPASSWORD: changing it changes no program and
      no argument of any planned launch, and every launch that connects carries it. */
  lemma {:induction false} PasswordOnlyInEnvironment(ds: seq<Dump>, p: ConnectionParams, b: BinaryPaths, other: string)
    ensures PasswordOnlyIn(PlannedCommands(ds, p, b), PlannedCommands(ds, p.(password := other), b), p.password)
    decreases |ds|
  {
    if |ds| > 0 {
      var q := p.(password := other);
      PasswordOnlyInEnvironment(ds[1..], p, b, other);
      DumpPasswordOnlyIn(ds[0], p, b, other);
      PasswordOnlyInConcat(DumpCommands(ds[0], p, b), PlannedCommands(ds[1..], p, b),
                           DumpCommands(ds[0], q, b), PlannedCommands(ds[1..], q, b), p.password);
    }
  }

  lemma DumpPasswordOnlyIn(d: Dump, p: ConnectionParams, b: BinaryPaths, other: string)
    ensures PasswordOnlyIn(DumpCommands(d, p, b), DumpCommands(d, p.(password := other), b), p.password)
  {
  }

  lemma PasswordOnlyInConcat(xs: seq<Command>, xs2: seq<Command>, ys: seq<Command>, ys2: seq<Command>, pw: string)
    requires PasswordOnlyIn(xs, ys, pw) && PasswordOnlyIn(xs2, ys2, pw)
    ensures PasswordOnlyIn(xs + xs2, ys + ys2, pw)
  {
    forall k | |xs| <= k < |xs + xs2|
      ensures (xs + xs2)[k] == xs2[k - |xs|] && (ys + ys2)[k] == ys2[k - |xs|]
    {
    }
  }
}
