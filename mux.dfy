/** `CommandMux` (mux.go): the middleware-free dispatcher. The first token
    selects a command by literal equality and is consumed; no args selects
    the `""` command. */
module Mux {
  import opened Errors

  datatype Context = Context(args: seq<string>)

  /** A registered command function: when run it records the args it was
      handed and returns `result`. */
  datatype Command = Command(name: string, result: Status)

  /** A command that ran, with the args it saw. */
  datatype Invocation = Invocation(name: string, args: seq<string>)

  /** The `error` returned, and the command that ran, if any. */
  datatype Outcome = Outcome(status: Status, ran: Option<Invocation>)

  function Exec(cmd: Command, ctx: Context): Outcome
  {
    Outcome(cmd.result, Some(Invocation(cmd.name, ctx.args)))
  }

  const Unrouted: Outcome := Outcome(Fail(NotFound), None)

  class CommandMux {
    var patterns: seq<string>
    var commands: map<string, Command>

    /** Every pattern is a key of `commands` and every key a pattern. */
    ghost predicate Valid()
      reads this
    {
      forall p :: p in patterns <==> p in commands
    }

    constructor ()
      ensures Valid() && patterns == [] && commands == map[]
    {
      patterns := [];
      commands := map[];
    }

    /** Reads the mux and changes nothing. With no args the `""` command runs
        on the unchanged context; otherwise the command registered for the
        first token runs on the rest; a missing command is the not-found
        sentinel. */
    method Run(ctx: Context) returns (o: Outcome)
      requires Valid()
      ensures ctx.args == [] ==>
        o == if "" in commands then Exec(commands[""], ctx) else Unrouted
      ensures ctx.args != [] ==>
        o == if ctx.args[0] in commands then Exec(commands[ctx.args[0]], ctx.(args := ctx.args[1..]))
             else Unrouted
    {
      if |ctx.args| == 0 {
        if "" !in commands {
          return Unrouted;
        }
        return Exec(commands[""], ctx);
      }

      for i := 0 to |patterns|
        invariant forall k :: 0 <= k < i ==> patterns[k] != ctx.args[0]
      {
        if ctx.args[0] == patterns[i] {
          assert patterns[i] in patterns;
          var cmd := commands[patterns[i]];
          var next := ctx.(args := ctx.args[1..]);
          return Exec(cmd, next);
        }
      }

      return Unrouted;
    }

    /** `Handle` and `HandleFunc`: a repeated pattern is appended again and
        its command replaced. */
    method Handle(pattern: string, cmd: Command)
      requires Valid()
      modifies this
      ensures Valid()
      ensures patterns == old(patterns) + [pattern] && commands == old(commands)[pattern := cmd]
    {
      patterns := patterns + [pattern];
      commands := commands[pattern := cmd];
    }
  }
}
