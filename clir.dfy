/** `Router` and `Main` (clir.go): the oldest dispatcher. A path table, and
    an entry point that looks only at the second argument vector entry. */
module Clir {
  import opened Errors

  /** An `io.Reader`, only passed along. */
  class Reader {
  }

  /** An `io.Writer`: the lines written to it so far. */
  class Writer {
    var lines: seq<string>

    constructor ()
      ensures lines == []
    {
      lines := [];
    }
  }

  /** What a command is handed: the three streams and nothing else. */
  datatype Context = Context(input: Reader?, output: Writer?, errors: Writer?)

  /** A command function: when run it returns `result`. */
  datatype Command = Command(name: string, result: Status)

  /** A command that ran, with the context it was handed. */
  datatype Invocation = Invocation(name: string, ctx: Context)

  class Router {
    var paths: seq<string>
    var commands: map<string, Command>

    constructor ()
      ensures paths == [] && commands == map[]
    {
      paths := [];
      commands := map[];
    }

    /** A repeated path is appended again and its command replaced. */
    method Route(path: string, cmd: Command)
      modifies this
      ensures paths == old(paths) + [path] && commands == old(commands)[path := cmd]
    {
      paths := paths + [path];
      commands := commands[path := cmd];
    }
  }

  /** The command `Main` runs for an argument vector: the one registered for
      `args[1]`, if there is a second entry and it is registered. */
  function Selected(commands: map<string, Command>, args: seq<string>): Option<Command>
  {
    if |args| < 2 then None
    else if args[1] in commands then Some(commands[args[1]])
    else None
  }

  /** What `Main` writes to the error stream after running `cmd`. */
  function ErrorLines(cmd: Option<Command>): seq<string>
  {
    match cmd
    case Some(Command(_, Fail(e))) => ["Error: " + e.msg]
    case _ => []
  }

  /** `Main`, renamed because Dafny takes a method called `Main` as the
      program's entry point: runs the selected command with
      exactly the given streams, and reports its error as one line on the
      error stream. A nil error stream is never written unless the command
      fails, where the source would panic. */
  method RunMain(args: seq<string>, inR: Reader?, outW: Writer?, errW: Writer?, r: Router)
      returns (ran: Option<Invocation>)
    requires errW == null ==> ErrorLines(Selected(r.commands, args)) == []
    modifies errW
    ensures ran == match Selected(r.commands, args)
                   case None => None
                   case Some(cmd) => Some(Invocation(cmd.name, Context(inR, outW, errW)))
    ensures errW != null ==> errW.lines == old(errW.lines) + ErrorLines(Selected(r.commands, args))
  {
    if |args| < 2 {
      return None;
    }

    var path := args[1];
    if path in r.commands {
      var cmd := r.commands[path];
      var ctx := Context(inR, outW, errW);
      ran := Some(Invocation(cmd.name, ctx));
      if cmd.result.Fail? {
        errW.lines := errW.lines + ["Error: " + cmd.result.err.msg];
      }
    } else {
      ran := None;
    }
  }

  /** `Main` decides by `args[1]` alone: the program name and everything after
      the second entry make no difference, and fewer than two entries select
      nothing. */
  lemma SelectedBySecondArgOnly(commands: map<string, Command>, a: seq<string>, b: seq<string>)
    requires |a| >= 2 && |b| >= 2 && a[1] == b[1]
    ensures Selected(commands, a) == Selected(commands, b)
    ensures Selected(commands, a[..2]) == Selected(commands, a)
    ensures Selected(commands, a[..1]) == None
  {
  }

  /** Success writes nothing; an error writes exactly one line naming it. */
  lemma ErrorLineIffFailure(cmd: Command)
    ensures |ErrorLines(Some(cmd))| == (if cmd.result.Fail? then 1 else 0)
    ensures cmd.result.Fail? ==> ErrorLines(Some(cmd))[0] == "Error: " + cmd.result.err.msg
    ensures ErrorLines(None) == []
  {
  }
}
