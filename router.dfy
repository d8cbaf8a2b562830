/** The command-line front end (main.go): `proman <command> <subcommand> [arguments]` is routed
    to one handler, to the help text, or to a fatal usage error. */
module Router {
  /** The operations a command line can reach. */
  datatype Handler =
    | Init      // init
    | Register  // connection register
    | List      // connection list
    | Remove    // connection remove
    | Backup    // db backup
    | Clone     // db clone
    | Diff      // db diff
    | GenTypes  // db gen-types
    | Login     // supabase login

  datatype FatalReason =
    | MissingSubcommand(command: string)
    | UnknownSubcommand(command: string, subcommand: string)
    | UnknownCommand(command: string)

  datatype Route =
    | PrintHelp
    | Run(handler: Handler, handlerArgs: seq<string>)
    | Fatal(reason: FatalReason)

  /** The words that select a handler. */
  function Path(h: Handler): (words: seq<string>)
    ensures 1 <= |words| <= 2
  {
    match h
    case Init => ["init"]
    case Register => ["connection", "register"]
    case List => ["connection", "list"]
    case Remove => ["connection", "remove"]
    case Backup => ["db", "backup"]
    case Clone => ["db", "clone"]
    case Diff => ["db", "diff"]
    case GenTypes => ["db", "gen-types"]
    case Login => ["supabase", "login"]
  }

  /** The command line that calls a handler with the given arguments. */
  function CommandLine(h: Handler, handlerArgs: seq<string>): seq<string> {
    Path(h) + handlerArgs
  }

  function ConnectionRoute(sub: string, rest: seq<string>): Route {
    match sub
    case "register" => Run(Register, rest)
    case "list" => Run(List, rest)
    case "remove" => Run(Remove, rest)
    case _ => Fatal(UnknownSubcommand("connection", sub))
  }

  function DbRoute(sub: string, rest: seq<string>): Route {
    match sub
    case "backup" => Run(Backup, rest)
    case "clone" => Run(Clone, rest)
    case "diff" => Run(Diff, rest)
    case "gen-types" => Run(GenTypes, rest)
    case _ => Fatal(UnknownSubcommand("db", sub))
  }

  function SupabaseRoute(sub: string, rest: seq<string>): Route {
    match sub
    case "login" => Run(Login, rest)
    case _ => Fatal(UnknownSubcommand("supabase", sub))
  }

  /** The routing switch; `args` is the command line without the program name. A handler gets
      the words after its subcommand; init, which has none, gets nothing. */
  function Dispatch(args: seq<string>): (r: Route)
    ensures |args| == 0 ==> r == PrintHelp
    ensures r.Run? ==> |args| >= 1 && (r.handler == Init <==> args[0] == "init")
    ensures r.Run? && r.handler == Init ==> r.handlerArgs == []
    ensures r.Run? && r.handler != Init ==> |args| >= 2 && r.handlerArgs == args[2..]
  {
    if |args| < 1 then PrintHelp
    else
      var command, commandArgs := args[0], args[1..];
      match command
      case "init" => Run(Init, [])
      case "help" => PrintHelp
      case "connection" =>
        if |commandArgs| < 1 then Fatal(MissingSubcommand(command))
        else ConnectionRoute(commandArgs[0], commandArgs[1..])
      case "db" =>
        if |commandArgs| < 1 then Fatal(MissingSubcommand(command))
        else DbRoute(commandArgs[0], commandArgs[1..])
      case "supabase" =>
        if |commandArgs| < 1 then Fatal(MissingSubcommand(command))
        else SupabaseRoute(commandArgs[0], commandArgs[1..])
      case _ => Fatal(UnknownCommand(command))
  }

  /** Every handler is reachable: its command line routes to it with exactly the arguments after
      the subcommand (init takes none and ignores what follows it). */
  lemma DispatchCommandLine(h: Handler, handlerArgs: seq<string>)
    ensures Dispatch(CommandLine(h, handlerArgs)) == Run(h, if h == Init then [] else handlerArgs)
  {
    var line := CommandLine(h, handlerArgs);
    assert line[0] == Path(h)[0];
    if h != Init {
      assert line[1] == Path(h)[1];
      assert line[2..] == handlerArgs;
    }
  }

  /** Conversely, a command line that reaches a handler is that handler's path followed by the
      arguments it receives. */
  lemma DispatchOnlyCommandLines(args: seq<string>)
    requires Dispatch(args).Run?
    ensures var Run(h, handlerArgs) := Dispatch(args);
      if h == Init then args[0] == "init" && handlerArgs == []
      else args == CommandLine(h, handlerArgs)
  {
    var Run(h, handlerArgs) := Dispatch(args);
    if h != Init {
      assert args[0] == Path(h)[0] && args[1] == Path(h)[1];
      assert args == Path(h) + args[2..];
    }
  }

  /** No arguments, or `help` with anything after it, prints the help text. */
  lemma HelpRoutes(rest: seq<string>)
    ensures Dispatch([]) == PrintHelp
    ensures Dispatch(["help"] + rest) == PrintHelp
  {
    assert (["help"] + rest)[0] == "help";
  }

  /** A group command without a subcommand is fatal. */
  lemma GroupNeedsSubcommand(command: string)
    requires command in {"connection", "db", "supabase"}
    ensures Dispatch([command]) == Fatal(MissingSubcommand(command))
  {
  }

  /** `db exec` reaches no handler: exec is not in the routing table. */
  lemma ExecIsUnroutable(rest: seq<string>)
    ensures Dispatch(["db", "exec"] + rest) == Fatal(UnknownSubcommand("db", "exec"))
  {
    var line := ["db", "exec"] + rest;
    assert line[0] == "db" && line[1..][0] == "exec";
  }

  /** Any first word outside the table is fatal. */
  lemma UnknownCommandIsFatal(args: seq<string>)
    requires |args| >= 1 && args[0] !in {"init", "help", "connection", "db", "supabase"}
    ensures Dispatch(args) == Fatal(UnknownCommand(args[0]))
  {
  }
}
