/** Project management commands (projects/manage.go): register, list, remove, log in, and the
    interactive `init` that sets the tool paths and the diff viewer.

    Terminal input is a sequence of answers already trimmed by the prompt helper; running out of
    answers is the prompt's read error. Writing the configuration file is the `saveOk` flag. */
module Projects {
  import opened Results
  import opened Process
  import opened Config

  datatype ManageError =
    | TakesNoArguments(command: string)  // "<command> command takes no arguments"
    | RemoveNeedsOneArgument
    | InputFailed                        // the prompt could not read an answer
    | AlreadyRegistered(id: string)
    | ProjectNotFound(id: string)
    | SaveFailed
    | SupabaseNotSet
    | LoginFailed(detail: string)

  const DefaultPort: string := "5432"
  const DefaultDbName: string := "postgres"

  /** Register asks for: ID, host, port, user, password, database name, supabase reference. */
  const RegisterPrompts: nat := 7

  /** The profile Register stores from its answers: an empty port or database name takes its
      default, every other answer is kept as typed. */
  function RegisterEntry(answers: seq<string>): ConnectionParams
    requires |answers| >= RegisterPrompts
  {
    ConnectionParams(
      password := answers[4],
      host := answers[1],
      port := if answers[2] == "" then DefaultPort else answers[2],
      user := answers[3],
      dbName := if answers[5] == "" then DefaultDbName else answers[5],
      supabaseProjectId := answers[6])
  }

  /** What Register decides before it touches the store: the ID and profile to add, or why not. */
  function RegisterPlan(connections: map<string, ConnectionParams>, args: seq<string>, answers: seq<string>)
    : (r: Result<(string, ConnectionParams), ManageError>)
  {
    if |args| != 0 then Failure(TakesNoArguments("register"))
    else if |answers| == 0 then Failure(InputFailed)
    else if answers[0] in connections then Failure(AlreadyRegistered(answers[0]))
    else if |answers| < RegisterPrompts then Failure(InputFailed)
    else Success((answers[0], RegisterEntry(answers)))
  }

  /** The error a command returns when saving follows a successful change. */
  function Saved(saveOk: bool): Outcome<ManageError> {
    if saveOk then Pass else Fail(SaveFailed)
  }

  /** Register: reject arguments, ask for the ID and refuse a known one, ask for the rest, add the
      profile, save. A failed save still leaves the profile in the in-memory store. */
  method Register(cfg: Config, args: seq<string>, answers: seq<string>, saveOk: bool) returns (r: Outcome<ManageError>)
    modifies cfg
    ensures RegisterPlan(old(cfg.connections), args, answers).Failure? ==>
      r == Fail(RegisterPlan(old(cfg.connections), args, answers).error) && cfg.connections == old(cfg.connections)
    ensures RegisterPlan(old(cfg.connections), args, answers).Success? ==>
      var (id, params) := RegisterPlan(old(cfg.connections), args, answers).value;
      r == Saved(saveOk) && cfg.connections == old(cfg.connections)[id := params]
    ensures cfg.binaries == old(cfg.binaries) && cfg.editor == old(cfg.editor)
  {
    if |args| != 0 {
      return Fail(TakesNoArguments("register"));
    }
    if |answers| == 0 {
      return Fail(InputFailed);
    }
    var projectId := answers[0];
    var _, found := cfg.GetConnection(projectId);
    if found {
      return Fail(AlreadyRegistered(projectId));
    }
    if |answers| < RegisterPrompts {
      return Fail(InputFailed);
    }
    var host := answers[1];
    var port := answers[2];
    if port == "" {
      port := DefaultPort;
    }
    var user := answers[3];
    var password := answers[4];
    var dbName := answers[5];
    if dbName == "" {
      dbName := DefaultDbName;
    }
    var supabaseProjectId := answers[6];
    cfg.AddConnection(projectId, ConnectionParams(password, host, port, user, dbName, supabaseProjectId));
    if !saveOk {
      return Fail(SaveFailed);
    }
    return Pass;
  }

  /** A successful register plan names a new ID: the store grows by exactly that one key, and the
      stored port and database name are never empty. */
  lemma RegisterAddsOneEntry(connections: map<string, ConnectionParams>, args: seq<string>, answers: seq<string>)
    requires RegisterPlan(connections, args, answers).Success?
    ensures var (id, params) := RegisterPlan(connections, args, answers).value;
      id == answers[0] && id !in connections &&
      connections[id := params].Keys == connections.Keys + {id} &&
      |connections[id := params]| == |connections| + 1 &&
      params.port != "" && params.dbName != ""
  {
    var (id, params) := RegisterPlan(connections, args, answers).value;
    assert id !in connections;
    assert connections[id := params].Keys == connections.Keys + {id};
  }

  /** Register rejects exactly: any argument, a missing answer, or an ID already in the store. */
  lemma RegisterRejects(connections: map<string, ConnectionParams>, args: seq<string>, answers: seq<string>)
    ensures RegisterPlan(connections, args, answers).Failure? <==>
      |args| != 0 || |answers| < RegisterPrompts || answers[0] in connections
    ensures |args| == 0 && |answers| > 0 && answers[0] in connections ==>
      RegisterPlan(connections, args, answers) == Failure(AlreadyRegistered(answers[0]))
  {
  }

  /** What Remove checks before it deletes: exactly one argument, naming a stored project. */
  function RemoveCheck(connections: map<string, ConnectionParams>, args: seq<string>): Outcome<ManageError>
  {
    if |args| != 1 then Fail(RemoveNeedsOneArgument)
    else if args[0] !in connections then Fail(ProjectNotFound(args[0]))
    else Pass
  }

  /** Remove: check, delete, save. A rejected request leaves the store as it was. */
  method Remove(cfg: Config, args: seq<string>, saveOk: bool) returns (r: Outcome<ManageError>)
    modifies cfg
    ensures RemoveCheck(old(cfg.connections), args).Fail? ==>
      r == RemoveCheck(old(cfg.connections), args) && cfg.connections == old(cfg.connections)
    ensures RemoveCheck(old(cfg.connections), args).Pass? ==>
      r == Saved(saveOk) && cfg.connections == old(cfg.connections) - {args[0]}
    ensures cfg.binaries == old(cfg.binaries) && cfg.editor == old(cfg.editor)
  {
    if |args| != 1 {
      return Fail(RemoveNeedsOneArgument);
    }
    var projectId := args[0];
    var _, found := cfg.GetConnection(projectId);
    if !found {
      return Fail(ProjectNotFound(projectId));
    }
    cfg.RemoveConnection(projectId);
    if !saveOk {
      return Fail(SaveFailed);
    }
    return Pass;
  }

  /** Registering a project and then removing it is accepted and gives back the original store. */
  lemma RemoveUndoesRegister(connections: map<string, ConnectionParams>, answers: seq<string>)
    requires RegisterPlan(connections, [], answers).Success?
    ensures var (id, params) := RegisterPlan(connections, [], answers).value;
      RemoveCheck(connections[id := params], [id]) == Pass &&
      connections[id := params] - {id} == connections
  {
    var (id, params) := RegisterPlan(connections, [], answers).value;
    assert id !in connections;
    assert connections[id := params] - {id} == connections;
  }

  /** One line of the project table: ID, host, user and database name. */
  datatype Row = Row(id: string, host: string, user: string, dbName: string)

  datatype Listing =
    | NoProjectsWarning  // "No projects are registered yet ..."
    | Table(rows: seq<Row>)

  function RowIds(rows: seq<Row>): (ids: seq<string>)
    ensures |ids| == |rows| && forall k :: 0 <= k < |rows| ==> ids[k] == rows[k].id
  {
    seq(|rows|, k requires 0 <= k < |rows| => rows[k].id)
  }

  /** List: no arguments allowed; a warning when nothing is registered; otherwise one row per
      stored project, carrying that project's host, user and database name. */
  method List(cfg: Config, args: seq<string>) returns (r: Result<Listing, ManageError>)
    ensures |args| != 0 ==> r == Failure(TakesNoArguments("list"))
    ensures |args| == 0 && |cfg.connections| == 0 ==> r == Success(NoProjectsWarning)
    ensures |args| == 0 && |cfg.connections| != 0 ==> r.Success? && r.value.Table?
    ensures r.Success? && r.value.Table? ==>
      var rows := r.value.rows;
      |rows| == |cfg.connections| && Distinct(RowIds(rows)) &&
      (forall id :: id in RowIds(rows) <==> id in cfg.connections) &&
      forall k :: 0 <= k < |rows| ==> (rows[k].id in cfg.connections &&
        var p := cfg.connections[rows[k].id];
        rows[k] == Row(rows[k].id, p.host, p.user, p.dbName))
  {
    if |args| != 0 {
      return Failure(TakesNoArguments("list"));
    }
    var ids := cfg.ListConnections();
    if |ids| == 0 {
      return Success(NoProjectsWarning);
    }
    var rows: seq<Row> := [];
    for k := 0 to |ids|
      invariant |rows| == k
      invariant forall j :: 0 <= j < k ==> (rows[j].id == ids[j] && ids[j] in cfg.connections &&
        var p := cfg.connections[ids[j]];
        rows[j] == Row(ids[j], p.host, p.user, p.dbName))
    {
      var params, _ := cfg.GetConnection(ids[k]);
      rows := rows + [Row(ids[k], params.host, params.user, params.dbName)];
    }
    assert RowIds(rows) == ids;
    return Success(Table(rows));
  }

  function LoginCommand(supabase: string): Command {
    Command(supabase, ["login"], None)
  }

  /** Login: no arguments allowed and the supabase path must be set, both checked before the
      supabase tool is started with `login`. */
  function Login(binaries: BinaryPaths, args: seq<string>, run: Command -> Exit): (t: Trace<(), ManageError>)
    ensures t.spawned != [] <==> |args| == 0 && binaries.supabase != ""
    ensures t.spawned != [] ==> t.spawned == [LoginCommand(binaries.supabase)]
    ensures |args| != 0 ==> t.result == Failure(TakesNoArguments("login"))
    ensures |args| == 0 && binaries.supabase == "" ==> t.result == Failure(SupabaseNotSet)
    ensures t.result.Success? <==> t.spawned != [] && run(t.spawned[0]).Exited?
  {
    if |args| != 0 then Trace([], Failure(TakesNoArguments("login")))
    else if binaries.supabase == "" then Trace([], Failure(SupabaseNotSet))
    else
      var cmd := LoginCommand(binaries.supabase);
      Trace([cmd], if run(cmd).Failed? then Failure(LoginFailed(run(cmd).output)) else Success(()))
  }

  /** Init asks for: psql, pg_dump, pg_dumpall, supabase, then the diff viewer. */
  const InitPrompts: nat := 5

  /** The diff viewers Init accepts. */
  const AcceptedEditors: set<string> := {"zed", "git", "vscode", "meld"}

  /** A non-empty answer replaces the current value; an empty one keeps it. */
  function Override(current: string, answer: string): string {
    if answer != "" then answer else current
  }

  /** The tool paths after Init's answers (psql, pg_dump, pg_dumpall, supabase). */
  function MergeBinaries(b: BinaryPaths, answers: seq<string>): BinaryPaths
    requires |answers| >= InitPrompts
  {
    b.(psql := Override(b.psql, answers[0]),
       pgDump := Override(b.pgDump, answers[1]),
       pgDumpAll := Override(b.pgDumpAll, answers[2]),
       supabase := Override(b.supabase, answers[3]))
  }

  /** The diff viewer after Init: the answer only when it is non-empty and accepted. */
  function ChooseEditor(current: string, answer: string): string {
    if answer != "" && answer in AcceptedEditors then answer else current
  }

  /** Init: all five questions are asked before anything changes; then each non-empty path answer
      replaces its path, an accepted viewer replaces the viewer, and the configuration is saved. */
  method Init(cfg: Config, answers: seq<string>, saveOk: bool) returns (r: Outcome<ManageError>)
    modifies cfg
    ensures |answers| < InitPrompts ==>
      r == Fail(InputFailed) && cfg.binaries == old(cfg.binaries) && cfg.editor == old(cfg.editor)
    ensures |answers| >= InitPrompts ==>
      r == Saved(saveOk) && cfg.binaries == MergeBinaries(old(cfg.binaries), answers) &&
      cfg.editor == ChooseEditor(old(cfg.editor), answers[4])
    ensures cfg.connections == old(cfg.connections)
  {
    if |answers| < InitPrompts {
      return Fail(InputFailed);
    }
    var psqlPath, pgDumpPath, pgDumpAllPath, supabasePath := answers[0], answers[1], answers[2], answers[3];
    var editor := answers[4];
    if psqlPath != "" {
      cfg.binaries := cfg.binaries.(psql := psqlPath);
    }
    if pgDumpPath != "" {
      cfg.binaries := cfg.binaries.(pgDump := pgDumpPath);
    }
    if pgDumpAllPath != "" {
      cfg.binaries := cfg.binaries.(pgDumpAll := pgDumpAllPath);
    }
    if editor != "" && editor in AcceptedEditors {
      cfg.editor := editor;
    }
    if supabasePath != "" {
      cfg.binaries := cfg.binaries.(supabase := supabasePath);
    }
    if !saveOk {
      return Fail(SaveFailed);
    }
    return Pass;
  }

  /** Init never touches the results path, leaves everything as it was when every answer is
      empty, and gives the same configuration when run twice with the same answers. */
  lemma InitMergeProperties(b: BinaryPaths, editor: string, answers: seq<string>)
    requires |answers| >= InitPrompts
    ensures MergeBinaries(b, answers).results == b.results
    ensures (forall k :: 0 <= k < InitPrompts ==> answers[k] == "") ==>
      MergeBinaries(b, answers) == b && ChooseEditor(editor, answers[4]) == editor
    ensures MergeBinaries(MergeBinaries(b, answers), answers) == MergeBinaries(b, answers)
    ensures ChooseEditor(ChooseEditor(editor, answers[4]), answers[4]) == ChooseEditor(editor, answers[4])
  {
  }

  /** The viewer Init leaves is the previous one or an accepted one; an accepted answer always
      wins and any other answer (empty included) is ignored. */
  lemma ChooseEditorAccepted(current: string, answer: string)
    ensures ChooseEditor(current, answer) == current || ChooseEditor(current, answer) in AcceptedEditors
    ensures ChooseEditor(current, answer) == answer <== answer in AcceptedEditors
    ensures answer !in AcceptedEditors ==> ChooseEditor(current, answer) == current
  {
  }
}
