/** `CommandRouter` (router.go): literal sub-command patterns tried in
    registration order, middleware wrapped around the matched command, and
    groups of commands that inherit a snapshot of the parent's middleware and
    are tried, in order, when no pattern matches. */
module Routing {
  import opened Errors

  /** What a command or middleware is handed: the unconsumed argument
      tokens. The streams and the cancellation signal are not modelled; what
      a run would write is the trace of its `Outcome`. */
  datatype Context = Context(args: seq<string>)

  /** One observable step of a run, with the arguments it was handed. */
  datatype Event =
    | Entered(name: string, args: seq<string>)  // a middleware announced itself
    | Ran(name: string, args: seq<string>)      // a handler ran

  /** The `error` a run returns, and what it wrote on the way, in order. */
  datatype Outcome = Outcome(status: Status, trace: seq<Event>)

  /** A registered command: a function handler, or a router used as a command. */
  datatype Command =
    | Handler(name: string, result: Status)
    | Nested(router: Router)

  /** A middleware closure, by what it observably does with `next`. */
  datatype Middleware =
    | Log(name: string)                   // announces itself, then calls next
    | Halt(name: string, result: Status)  // announces itself, returns without calling next
    | Consume(count: nat)                 // calls next with the args left after `count` positional ones

  /** A command with middleware wrapped around it, as the wrapping loop of
      `Run` builds it: the outermost middleware first. */
  datatype Runner = Terminal(cmd: Command) | Wrapped(middleware: Middleware, next: Runner)

  /** One call made inside a `Group` callback. */
  datatype Step =
    | SubStep(pattern: string, cmd: Command)
    | UseStep(middlewares: seq<Middleware>)
    | GroupStep(callback: seq<Step>)

  /** The value of a built router: its four fields. */
  datatype Router = Router(
    patterns: seq<string>,
    commands: map<string, Command>,
    middlewares: seq<Middleware>,
    subRouters: seq<Router>)
  {
    /** Dispatch as router.go writes it: a loop over the patterns with an
        early return, the middleware wrapped by a reverse loop, then a loop
        over the sub-routers that returns on the first success. */
    method Run(ctx: Context) returns (o: Outcome)
      requires WellFormed(this)
      ensures o == Dispatch(this, ctx)
      decreases this
    {
      if |ctx.args| == 0 {
        if "" !in commands {
          return Outcome(Fail(NotFound), []);
        }
        var cmd := Compose(middlewares, commands[""]);
        return Invoke(cmd, ctx);
      }

      for i := 0 to |patterns|
        invariant forall k :: 0 <= k < i ==> patterns[k] != ctx.args[0]
      {
        if ctx.args[0] == patterns[i] {
          assert patterns[i] in patterns;
          var cmd := Compose(middlewares, commands[patterns[i]]);
          return Invoke(cmd, ctx.(args := ctx.args[1..]));
        }
      }

      var trace := [];
      for j := 0 to |subRouters|
        invariant Fallback(this, 0, ctx)
          == Outcome(Fallback(this, j, ctx).status, trace + Fallback(this, j, ctx).trace)
      {
        var sub := subRouters[j].Run(ctx);
        if sub.status == Ok {
          return Outcome(Ok, trace + sub.trace);
        }
        trace := trace + sub.trace;
      }
      return Outcome(Fail(NotFound), trace);
    }
  }

  /** Every pattern is a key of `commands` and every key a pattern, in this
      router and in every router below it. `Sub` keeps this. */
  ghost predicate WellFormed(r: Router)
    decreases r, 1
  {
    && (forall p :: p in r.patterns <==> p in r.commands)
    && (forall p | p in r.commands :: CommandWellFormed(r.commands[p]))
    && (forall i | 0 <= i < |r.subRouters| :: WellFormed(r.subRouters[i]))
  }

  ghost predicate CommandWellFormed(c: Command)
    decreases c, 0
  {
    c.Nested? ==> WellFormed(c.router)
  }

  ghost predicate RunnerWellFormed(w: Runner)
  {
    match w
    case Terminal(cmd) => CommandWellFormed(cmd)
    case Wrapped(_, next) => RunnerWellFormed(next)
  }

  ghost predicate StepsWellFormed(cb: seq<Step>)
    decreases cb
  {
    forall i | 0 <= i < |cb| ::
      match cb[i]
      case SubStep(_, cmd) => CommandWellFormed(cmd)
      case UseStep(_) => true
      case GroupStep(inner) => StepsWellFormed(inner)
  }

  // ---------------------------------------------------------------------
  // Dispatch semantics

  /** The args that positional-argument middleware leaves for `next`. */
  function Rest(args: seq<string>, count: nat): seq<string>
  {
    if count < |args| then args[count..] else []
  }

  /** The context a middleware hands to `next`, or None when it does not call it. */
  function Handoff(m: Middleware, ctx: Context): Option<Context>
  {
    match m
    case Log(_) => Some(ctx)
    case Halt(_, _) => None
    case Consume(count) => Some(ctx.(args := Rest(ctx.args, count)))
  }

  /** What a middleware returns and writes, given what `next` returned
      (`inner` is ignored when the middleware does not call `next`). */
  function Finish(m: Middleware, ctx: Context, inner: Outcome): Outcome
  {
    match m
    case Log(name) => Outcome(inner.status, [Entered(name, ctx.args)] + inner.trace)
    case Halt(name, result) => Outcome(result, [Entered(name, ctx.args)])
    case Consume(_) => inner
  }

  /** The first position of `token` in `patterns`, if any. */
  function Find(patterns: seq<string>, token: string): (r: Option<nat>)
    ensures r.Some? ==> r.value < |patterns| && patterns[r.value] == token
    ensures r.Some? ==> forall k :: 0 <= k < r.value ==> patterns[k] != token
    ensures r.None? <==> token !in patterns
  {
    if patterns == [] then None
    else if patterns[0] == token then Some(0)
    else
      match Find(patterns[1..], token)
      case None => None
      case Some(i) => Some(i + 1)
  }

  /** `Run` of router.go, as a function of the router and the context. */
  function Dispatch(r: Router, ctx: Context): Outcome
    requires WellFormed(r)
    decreases r, 2, 0
  {
    if |ctx.args| == 0 then
      if "" in r.commands then RunInOrder(r.middlewares, r.commands[""], ctx)
      else Outcome(Fail(NotFound), [])
    else
      match Find(r.patterns, ctx.args[0])
      case Some(i) =>
        assert r.patterns[i] in r.patterns;
        RunInOrder(r.middlewares, r.commands[r.patterns[i]], ctx.(args := ctx.args[1..]))
      case None => Fallback(r, 0, ctx)
  }

  /** The sub-routers from the `i`-th on, tried in order with the same context
      until one returns nil. */
  function Fallback(r: Router, i: nat, ctx: Context): Outcome
    requires WellFormed(r) && i <= |r.subRouters|
    decreases r, 1, |r.subRouters| - i
  {
    if i == |r.subRouters| then Outcome(Fail(NotFound), [])
    else
      var o := Dispatch(r.subRouters[i], ctx);
      if o.status == Ok then o
      else
        var rest := Fallback(r, i + 1, ctx);
        Outcome(rest.status, o.trace + rest.trace)
  }

  /** The middleware run in declaration order, then the command: the
      reference meaning of a wrapped command. */
  function RunInOrder(mws: seq<Middleware>, cmd: Command, ctx: Context): Outcome
    requires CommandWellFormed(cmd)
    decreases cmd, 1, |mws|
  {
    if mws == [] then Exec(cmd, ctx)
    else
      match Handoff(mws[0], ctx)
      case None => Finish(mws[0], ctx, Outcome(Ok, []))
      case Some(next) => Finish(mws[0], ctx, RunInOrder(mws[1..], cmd, next))
  }

  function Exec(cmd: Command, ctx: Context): Outcome
    requires CommandWellFormed(cmd)
    decreases cmd, 0, 0
  {
    match cmd
    case Handler(name, result) => Outcome(result, [Ran(name, ctx.args)])
    case Nested(r) => Dispatch(r, ctx)
  }

  /** Running a wrapped command: each middleware around what it wraps. */
  function Invoke(w: Runner, ctx: Context): Outcome
    requires RunnerWellFormed(w)
  {
    match w
    case Terminal(cmd) => Exec(cmd, ctx)
    case Wrapped(m, next) =>
      match Handoff(m, ctx)
      case None => Finish(m, ctx, Outcome(Ok, []))
      case Some(c) => Finish(m, ctx, Invoke(next, c))
  }

  /** The wrapping loop of `Run`: from the last middleware to the first, each
      wraps what has been built so far; the result runs them in declaration
      order. */
  method Compose(mws: seq<Middleware>, cmd: Command) returns (w: Runner)
    requires CommandWellFormed(cmd)
    ensures RunnerWellFormed(w)
    ensures forall ctx :: Invoke(w, ctx) == RunInOrder(mws, cmd, ctx)
  {
    w := Terminal(cmd);
    var i := |mws|;
    while i > 0
      invariant 0 <= i <= |mws|
      invariant RunnerWellFormed(w)
      invariant forall ctx :: Invoke(w, ctx) == RunInOrder(mws[i..], cmd, ctx)
    {
      i := i - 1;
      assert mws[i..][1..] == mws[i + 1..];
      w := Wrapped(mws[i], w);
    }
    assert mws[0..] == mws;
  }

  // ---------------------------------------------------------------------
  // Building

  /** `Sub`: the pattern is appended (duplicates too) and its map entry set. */
  function AddSub(r: Router, pattern: string, cmd: Command): Router
  {
    r.(patterns := r.patterns + [pattern], commands := r.commands[pattern := cmd])
  }

  /** `Use`: None where the source panics, because a command exists. */
  function AddUse(r: Router, mws: seq<Middleware>): Option<Router>
  {
    if |r.commands| > 0 then None else Some(r.(middlewares := r.middlewares + mws))
  }

  /** `Group`: a child seeded with a copy of the middleware, built by the
      callback, then appended to the sub-routers; None if the callback panics. */
  function AddGroup(r: Router, callback: seq<Step>): Option<Router>
    decreases callback, 1
  {
    match Build(Router([], map[], r.middlewares, []), callback)
    case None => None
    case Some(child) => Some(r.(subRouters := r.subRouters + [child]))
  }

  /** The calls of a callback made in order on `r`; None if one of them panics. */
  function Build(r: Router, cb: seq<Step>): Option<Router>
    decreases cb, 0
  {
    if cb == [] then Some(r)
    else
      var next :=
        match cb[0]
        case SubStep(pattern, cmd) => Some(AddSub(r, pattern, cmd))
        case UseStep(mws) => AddUse(r, mws)
        case GroupStep(inner) => AddGroup(r, inner);
      match next
      case None => None
      case Some(r') => Build(r', cb[1..])
  }

  /** The router under construction. Its fields are replaced by the build
      calls; sub-routers are held as values, since the child a `Group` call
      appends is reachable from nowhere else. */
  class CommandRouter {
    var commands: map<string, Command>
    var middlewares: seq<Middleware>
    var patterns: seq<string>
    var subRouters: seq<Router>

    function Value(): Router
      reads this
    {
      Router(patterns, commands, middlewares, subRouters)
    }

    ghost predicate Valid()
      reads this
    {
      WellFormed(Value())
    }

    constructor ()
      ensures Valid() && Value() == Router([], map[], [], [])
    {
      commands := map[];
      middlewares := [];
      patterns := [];
      subRouters := [];
    }

    method Run(ctx: Context) returns (o: Outcome)
      requires Valid()
      ensures o == Dispatch(Value(), ctx)
    {
      o := Value().Run(ctx);
    }

    /** `Sub` and `SubFunc`. */
    method Sub(pattern: string, cmd: Command)
      requires Valid() && CommandWellFormed(cmd)
      modifies this
      ensures Valid() && Value() == AddSub(old(Value()), pattern, cmd)
      ensures patterns == old(patterns) + [pattern] && commands == old(commands)[pattern := cmd]
      ensures middlewares == old(middlewares) && subRouters == old(subRouters)
    {
      patterns := patterns + [pattern];
      commands := commands[pattern := cmd];
    }

    /** The source panics when a command is already registered. */
    method Use(mws: seq<Middleware>)
      requires Valid() && |commands| == 0
      modifies this
      ensures Valid() && Some(Value()) == AddUse(old(Value()), mws)
      ensures middlewares == old(middlewares) + mws
      ensures patterns == old(patterns) && commands == old(commands) && subRouters == old(subRouters)
    {
      middlewares := middlewares + mws;
    }

    method Group(callback: seq<Step>)
      requires Valid() && StepsWellFormed(callback) && AddGroup(Value(), callback).Some?
      modifies this
      ensures Valid() && Some(Value()) == AddGroup(old(Value()), callback)
      ensures patterns == old(patterns) && commands == old(commands) && middlewares == old(middlewares)
      ensures |subRouters| == |old(subRouters)| + 1 && subRouters[..|old(subRouters)|] == old(subRouters)
      decreases callback, 1
    {
      var child := new CommandRouter();
      child.middlewares := middlewares;
      child.Perform(callback);
      subRouters := subRouters + [child.Value()];
    }

    /** Makes the calls of a `Group` callback on this router, in order. */
    method Perform(cb: seq<Step>)
      requires Valid() && StepsWellFormed(cb) && Build(Value(), cb).Some?
      modifies this
      ensures Valid() && Some(Value()) == Build(old(Value()), cb)
      decreases cb, 0
    {
      for i := 0 to |cb|
        invariant Valid() && Build(Value(), cb[i..]) == Build(old(Value()), cb)
      {
        assert cb[i..][1..] == cb[i + 1..];
        match cb[i]
        case SubStep(pattern, cmd) => Sub(pattern, cmd);
        case UseStep(mws) => Use(mws);
        case GroupStep(inner) => Group(inner);
      }
    }
  }
}
