/** External programs as values: what would be launched, and what the launch reported. */
module Process {
  import opened Results

  /** One `exec.Command`: the program, its argument vector, and the value put into
      PGPASSWORD in the child's environment (None when the environment is passed unchanged). */
  datatype Command = Command(program: string, args: seq<string>, pgPassword: Option<string>)

  /** How a launched process ended: success with its standard output, or failure with
      the text it reported (standard error, or combined output where the caller asks for it). */
  datatype Exit = Exited(stdout: string) | Failed(output: string)

  /** The processes a command handler launched, in launch order, and what it returned. */
  datatype Trace<+T, +E> = Trace(spawned: seq<Command>, result: Result<T, E>)
}
