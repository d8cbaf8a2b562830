# proman command layer in Dafny

proman is a command-line tool for hosted PostgreSQL (Supabase) projects. It keeps
connection profiles and tool paths in a configuration store. Its commands register and
remove profiles, back up a project with `pg_dumpall`/`pg_dump`, clone one project's schema
onto another, run SQL files with `psql`, generate TypeScript types with the `supabase` tool,
and show migration diffs in a viewer.

This project models the deterministic layer under those commands:

- the profile store (`Config`);
- the argument parsers and the order of their checks;
- the exact program, argument vector and password channel of every process the commands start;
- the decisions that depend on user answers (defaults, merges, the clone confirmation).

Each process start is a `Command(program, args, pgPassword)` value, where `pgPassword` is the
`PGPASSWORD` environment entry when there is one. A command's result is a `Trace`: the
commands it started, in order, plus its result or error. How each started process ends comes
from a function parameter `run`. Timestamps, prompt answers, `os.Stat` results and the outcome
of writing the configuration file are parameters too.

The modules follow the source files:

| module | source file |
|---|---|
| `Config` | config/config.go |
| `DbUtils` | database/utils.go |
| `DbBackup` | database/backup.go |
| `DbClone` | database/clone.go |
| `DbExec` | database/exec.go |
| `DbGenerate` | database/generate.go |
| `DbDiff` | database/diff.go |
| `Projects` | projects/manage.go |
| `Router` | main.go |
| `DiffViewer` | utils/diffViewer.go |
| `LegacyDiffViewer` | diffViewer.go |

`Results`, `Process` and `GoStrings` hold shared datatypes and models of the Go `strings`
functions the commands call.

The state-changing code is imperative Dafny:

- the store is a class;
- `Register`, `Remove` and `Init` are methods that modify it;
- the flag loops of `backup` and `clone` are `while` loops;
- the exclude-schema loop is a `for` loop.

Each such method is proved equal to a specification function, and the lemmas are stated about
those functions.

Two consequences of the code are worth knowing:

- `db clone` hands each project ID to `Backup` as a plain argument. A registered project whose
  ID starts with `--` therefore cannot be cloned: `Backup` reads the ID as a flag
  (`DbClone.DashIdBackupFails`).
- In `db backup`, `--prefix` takes the next argument even when it starts with `--`.

## Model

| member | source | states |
|---|---|---|
| Config.Config.Empty | config/config.go:37-43 | the configuration used when no file exists has no profiles, no tool paths and no viewer |
| Config.Config.AddConnection | config/config.go:65-68 | after adding, the ID maps to the new profile; every other ID's entry is unchanged; the key set gains only the ID; the count grows by one only for a new ID |
| Config.Config.GetConnection | config/config.go:70-75 | found exactly when the ID is a key; the stored profile when found, the zero profile otherwise; nothing is modified |
| Config.Config.RemoveConnection | config/config.go:77-80 | afterwards the ID is absent; other entries are unchanged; removing an absent ID changes nothing |
| Config.Config.ListConnections | config/config.go:82-89 | every stored ID exactly once (no duplicates), and as many IDs as profiles |
| Config.Config.SetBinaryPaths | config/config.go:91-94 | the whole tool-path record is replaced; profiles and viewer are kept |
| Config.Config.GetBinaryPaths | config/config.go:96-99 | returns the record last set |
| DbUtils.FormatRemoteConnectionString | database/utils.go:8-13 | total; starts with `postgres://`; ends with `?sslmode=disable`; its length is the fields' lengths plus the fixed separators |
| DbUtils.FormatReadsBack | database/utils.go:8-13 | reading the URL back gives user, password, host, port and database in that order, unescaped, plus `sslmode=disable`, when no field contains its delimiter |
| DbBackup.ParseBackupArgs | database/backup.go:141-163 | the flag loop yields exactly the result of the scan function `Scan` over the arguments |
| DbBackup.ScanConcat | database/backup.go:142-163 | parsing is compositional: after an error-free stretch, the rest is read from the settings it left |
| DbBackup.PrefixWithoutValue | database/backup.go:151-157 | a trailing `--prefix` is the "requires a value" error |
| DbBackup.PrefixTakesNextArgument | database/backup.go:151-155 | `--prefix` consumes the next argument as the prefix, whatever it starts with |
| DbBackup.UnknownFlagRejected | database/backup.go:158-161 | any other argument starting with `--` is the unknown-flag error |
| DbBackup.PositionalSetsProject | database/backup.go:158-159 | an argument not starting with `--` becomes the project ID, and a later one replaces it |
| DbBackup.TypeFlagsAreTheGivenOnes | database/backup.go:145-150 | in an argument list without `--prefix`, a type flag is set exactly when it occurs among the arguments (with `--prefix`, its value word is not read as a flag) |
| DbBackup.SelectedDumps | database/backup.go:169-173 | no type flag selects all three dumps; otherwise exactly the flagged ones; always in the order roles, schema, data |
| DbBackup.DumpFiles | database/backup.go:192-203 | one file per dump, each the prefix followed by the dump's suffix |
| DbBackup.ExcludeSchemaFlags | database/backup.go:86-88 | one `--exclude-schema=s` per schema, in list order |
| DbBackup.AppendExcludeSchemas | database/backup.go:86-88 | the append loop yields the base arguments followed by the exclusion flags |
| DbBackup.BackupRoles | database/backup.go:14-63 | the roles dump: pg_dumpall, then grep with the role pattern; a grep failure counts only when grep wrote to its error stream |
| DbBackup.BackupSchema | database/backup.go:66-96 | the schema dump: one pg_dump with the schema argument vector |
| DbBackup.BackupData | database/backup.go:99-128 | the data dump: one pg_dump with the data argument vector |
| DbBackup.RunDumpOutcome | database/backup.go:39-62 | each dump starts a non-empty prefix of its commands; it succeeds only with all of them started and its file written; its failure names this dump; it succeeds when every start exits normally |
| DbBackup.PairOutcome | database/backup.go:43-59 | the outcome of the pg_dumpall-plus-grep pair, as above |
| DbBackup.SingleOutcome | database/backup.go:90-95 | the outcome of a single pg_dump, as above |
| DbBackup.Backup | database/backup.go:132-210 | the command equals `BackupSpec`: parse, default, look up, check the tools, then run the selected dumps |
| DbBackup.RunRequestedDumps | database/backup.go:191-206 | the three `if` blocks run exactly the requested dumps in order and stop at the first failure |
| DbBackup.StagesRunRequested | database/backup.go:191-206 | the source's three blocks behave as the ordered dump list |
| DbBackup.RunDumpsOutcome | database/backup.go:191-206 | the started commands are a prefix of the planned ones; success means all were started and one file per dump was written; a failure names a requested dump |
| DbBackup.FirstFailureStops | database/backup.go:191-206 | a failed run stopped in one requested dump, which it reports: it launched every command planned before that dump, then a non-empty prefix of that dump's own commands, and nothing planned after it |
| DbBackup.AllLaunchesSucceed | database/backup.go:191-206 | when every planned start exits normally, the backup succeeds |
| DbBackup.RejectedBeforeLookup | database/backup.go:132-167 | empty arguments, a parse error or a missing project ID are rejected the same way whatever the store holds |
| DbBackup.BackupOutcome | database/backup.go:181-206 | nothing starts unless the arguments parse to a known project and the three tools are set; success starts every planned command and writes the selected files under the chosen prefix |
| DbBackup.SuccessfulBackup | database/backup.go:191-209 | checks passing and all starts exiting normally give one file per selected dump |
| DbBackup.FullBackupFiles | database/backup.go:169-179 | `db backup ID` writes `ID_TIMESTAMP_roles.sql`, `_schema.sql` and `_data.sql` |
| DbBackup.AllDumpFiles | database/backup.go:192-203 | the three dump files of a prefix, in order |
| DbBackup.SchemaOnlyBackupFiles | database/backup.go:145-157 | `db backup ID --schema --prefix P` writes only `P_schema.sql` |
| DbBackup.RolePatternAlternatives | database/backup.go:18-37 | the pattern given to grep splits at the bar character back into the seventeen excluded roles |
| DbBackup.SchemaDumpArguments | database/backup.go:75-91 | schema dump arguments: connection flags, `--schema-only --no-owner --no-privileges`, then one exclusion per schema in order |
| DbBackup.DataDumpArguments | database/backup.go:108-123 | data dump arguments: connection flags, `--data-only --quote-all-identifiers`, then one exclusion per schema in order |
| DbBackup.PasswordOnlyInEnvironment | database/backup.go:40-123 | changing the password changes no program and no argument of any planned start; every start except grep carries it in `PGPASSWORD` |
| DbClone.ScanClone | database/clone.go:143-162 | parsing fails only with a missing-value or unknown-flag error, and an unknown flag is an argument other than `--source`/`--target` |
| DbClone.ParseCloneArgs | database/clone.go:143-162 | the flag loop yields exactly the result of `ScanClone` |
| DbClone.ScanCloneConcat | database/clone.go:143-162 | parsing is compositional over concatenated arguments |
| DbClone.FlagWithoutValue | database/clone.go:145-158 | a trailing `--source` or `--target` is its own missing-value error |
| DbClone.OtherArgumentRejected | database/clone.go:159-161 | every other argument in flag position, a bare ID included, is the unknown-flag error |
| DbClone.LastValueWins | database/clone.go:145-158 | a flag takes the next argument, and a repeated flag keeps the last value |
| DbClone.Clone | database/clone.go:139-281 | the command equals `CloneSpec`: checks, source backup, target backup, diff, confirmation, apply |
| DbClone.RunMigration | database/clone.go:202-281 | the tail of Clone equals `Migrate`: a diff error, an empty script, a read error, a refusal, or the apply |
| DbClone.Confirmed | database/clone.go:257-260 | the answer confirms exactly when, after leading white space, it is `y` or `Y` followed only by white space |
| DbClone.CloneChecksOutcome | database/clone.go:164-182 | the checks pass exactly when both IDs are non-empty and registered and the three tools are set; a flag error is passed through; an empty ID gives the missing-IDs error; a missing source is reported before the target, and a missing target (with the source present) before the tool check, whatever the tool paths |
| DbClone.NothingLaunchedBeforeChecks | database/clone.go:164-191 | a failed check ends the clone before anything starts |
| DbClone.CloneIdBackup | database/clone.go:187-199 | each safety backup is a full backup under `ID_clone_backup_TIMESTAMP` |
| DbClone.DashIdBackupFails | database/clone.go:190-197 | a project ID starting with `--` makes the safety backup fail before anything starts |
| DbClone.BackupsInOrder | database/clone.go:185-199 | the source is backed up before the target; a failed backup ends the clone with what was started |
| DbClone.EmptyScriptIsNoOp | database/clone.go:209-212 | when the diff of the two projects named is an empty script, the clone succeeds as "already identical" whatever the answer would be |
| DbClone.ApplyOnlyWhenConfirmed | database/clone.go:250-272 | the migration is applied exactly when the checks and both backups pass, the script is non-empty and the answer confirms; the apply is then the last start |
| DbClone.NoApplyWithoutConfirmation | database/clone.go:139-261 | a clone that does not attempt the migration launches nothing if a check fails, and otherwise only a prefix of the two safety backups' commands |
| DbClone.ApplyUrl | database/clone.go:264-268 | the URL starts with `postgresql://`, followed by the user, a colon and the password; its length is that of its fields and separators |
| DbClone.ApplyCommand | database/clone.go:269-271 | psql is given the URL after `-d` and the script unchanged after `-c`; no password is put in the environment |
| DbClone.ApplyUrlMatchesConnectionString | database/clone.go:264-268 | the utils connection string is the apply URL with the scheme swapped and the SSL query appended |
| DbExec.Exec | database/exec.go:11-49 | psql starts exactly when there are two arguments, the file is not missing, the project is known and psql is set; it runs `-h -p -U -d -f FILE`; success needs psql to exit normally |
| DbExec.ExecCheckOrder | database/exec.go:12-31 | the errors come in the order argument count, missing file, unknown project, unset psql |
| DbExec.ExecPasswordOnlyInEnvironment | database/exec.go:37-38 | the password is only in `PGPASSWORD`; changing it changes no argument; the file is the last argument |
| DbGenerate.GenTypes | database/generate.go:11-53 | supabase starts exactly when there is one argument, the project is known with a supabase reference, and supabase is set; success prints the tool's output and a newline |
| DbGenerate.GenTypesCheckOrder | database/generate.go:12-32 | the errors come in the order argument count, unknown project, missing supabase reference, unset supabase path |
| DbGenerate.GenTypesIgnoresPasswordAndPostgresTools | database/generate.go:22-39 | the result depends neither on the database password nor on the psql path |
| DbDiff.Diff | database/diff.go:10-45 | succeeds exactly when there are two arguments, both IDs are known and the generator succeeds; stdout is the script verbatim, empty for an empty script |
| DbDiff.DiffCheckOrder | database/diff.go:11-25 | argument count, then the source lookup, then the target lookup, each with its own error |
| DbDiff.DiffNeedsNoTools | database/diff.go:27-31 | no tool path is checked: with none set, the generator is still reached |
| Projects.Register | projects/manage.go:15-83 | follows `RegisterPlan`: rejected requests leave the store unchanged; otherwise the profile is added under the entered ID and the save outcome is returned |
| Projects.RegisterAddsOneEntry | projects/manage.go:67-75 | a successful registration adds exactly one new key, the entered ID, and its port and database name are never empty |
| Projects.RegisterRejects | projects/manage.go:16-29 | registration is rejected exactly for arguments, missing answers or a known ID, and a known ID is reported as already existing |
| Projects.Remove | projects/manage.go:110-128 | one known ID is deleted and the save outcome is returned; otherwise the store is unchanged |
| Projects.RemoveUndoesRegister | projects/manage.go:15-128 | removing a just-registered ID is accepted and restores the store |
| Projects.List | projects/manage.go:85-108 | arguments are rejected; an empty store gives the warning; otherwise one row per stored ID with that profile's host, user and database |
| Projects.Login | projects/manage.go:130-151 | arguments and an unset supabase path are rejected before anything starts; otherwise `supabase login` runs |
| Projects.Init | projects/manage.go:153-213 | five answers are read before any change; then each non-empty path answer replaces its path, an accepted viewer replaces the viewer, and profiles are kept |
| Projects.InitMergeProperties | projects/manage.go:191-205 | the results path is never touched; all-empty answers change nothing; applying the same answers twice equals once |
| Projects.ChooseEditorAccepted | projects/manage.go:179-202 | the viewer afterwards is the old one or an accepted one; an accepted answer always wins; any other answer is ignored |
| Router.Dispatch | main.go:64-126 | no arguments prints help; a handler other than init is reached only with a subcommand and gets exactly the words after it; init is reached only by `init` and gets nothing |
| Router.DispatchCommandLine | main.go:73-123 | every handler's command line routes to it with the arguments after the subcommand (none for init) |
| Router.DispatchOnlyCommandLines | main.go:73-123 | a command line that reaches a handler is that handler's words followed by its arguments |
| Router.HelpRoutes | main.go:64-77 | no arguments, or `help`, prints the help text |
| Router.GroupNeedsSubcommand | main.go:78-115 | `connection`, `db` or `supabase` alone is fatal |
| Router.ExecIsUnroutable | main.go:100-111 | `db exec` is an unknown subcommand |
| Router.UnknownCommandIsFatal | main.go:124-125 | any other first word is fatal |
| DiffViewer.OpenDiff | utils/diffViewer.go:9-53 | only the git fallback runs attached; the program is one of zed, code, meld or git; both files are passed |
| DiffViewer.DetachedExactlyForGuiViewers | utils/diffViewer.go:11-52 | zed, vscode and meld start detached; every other setting, the empty one included, runs `git diff --no-index` attached |
| DiffViewer.LabelsOnlyForMeld | utils/diffViewer.go:9-35 | the labels make no difference for any viewer but meld |
| DiffViewer.FilesInOrder | utils/diffViewer.go:11-43 | every viewer gets both files, the first before the second |
| LegacyDiffViewer.LegacyOpenDiff | diffViewer.go:9-46 | the old dispatch runs every viewer attached and passes both files |
| LegacyDiffViewer.AgreesWithOpenDiff | diffViewer.go:11-40 | same program as the current dispatch; same arguments except meld, which gets only the two files; anything unrecognised runs git |

## Left out

- Process execution is not modelled: starting processes, wiring their streams, `os.Environ`, `less`, temporary files, and the spinner. Each start is a `Command` value, and how it ends comes from the `run` parameter.
- `generateDiffSupabase` and `generateDiffStripe` (database/clone.go:26-136) are not modelled. They depend on the supabase tool and a schema-diff library, so both `db clone` and `db diff` take the diff generator as a parameter. The `generateDiff` that database/diff.go calls is not part of this model.
- `formatRemoteConnectionString` in database/clone.go:19-24 is a character-for-character copy of `FormatRemoteConnectionString` in database/utils.go, so the model defines it once (`DbUtils`). It is used only by the unmodelled diff generators.
- File writes in backup (`os.Create`, `os.WriteFile`) are folded into the outcome of the dump's own start; a failed write is not a separate case.
- In clone, the temporary-file errors (database/clone.go:220-229) are not modelled, and neither is the non-fatal `less` failure.
- grep's regular-expression semantics are not modelled; the model states only the pattern text grep receives.
- JSON encoding, `Load` and `Save` file I/O are not modelled. `Load` keeps only the default empty configuration, and `Save` is the `saveOk` parameter.
- The configuration-directory bootstrap in main.go:38-61 is not modelled, nor is the `log.Fatal` after a handler returns an error.
- `time.Now` is a `timestamp` parameter.
- Terminal I/O is not modelled: prompts, colour printing, tabwriter layout and the table header lines. Prompt answers are given already trimmed, and running out of answers is the prompt's read error. `List` returns rows rather than text.
- `GoStrings.ToLower` lowers ASCII letters only. This is exact for the clone confirmation, because no other character lowers to `y` or to white space.
- config/config.go:28-31 declares no editor field, yet projects/manage.go:201 and utils/diffViewer.go:11 read `cfg.Editor.Default`. The model gives `Config` an `editor` string field, and `OpenDiff` takes its value.
- A Go map left nil by a configuration file without `connections` makes `AddConnection` panic; the model's store is always a map.
- `exec` (database/exec.go) is modelled, but main.go has no route to it, so `db exec` is fatal there.
- The start errors of `OpenDiff` (`Run`/`Start` errors) are not modelled.
