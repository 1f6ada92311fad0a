# clir dispatchers in Dafny

This project models the command dispatchers of the Go package `clir` and its
positional-argument middleware, and proves what they promise:

- `CommandRouter` (router.go) is the main dispatcher.
  - `Sub` registers literal patterns in order. `Use` attaches middleware and is only allowed while no command exists. `Group` builds a child router that starts from a copy of the parent's middleware.
  - `Run` handles a call. With no args it runs the `""` command. Otherwise the first token selects a command and is consumed. The router's middleware is wrapped around that command from last to first, so it runs in declaration order. If no pattern matches, the sub-routers are tried in order.
- `CommandMux` (mux.go) is the earlier dispatcher without middleware.
- `Router`/`Main` (clir.go) is the oldest form: a path table, and an entry point that looks only at `args[1]`.
- `ArgSet` (middleware/middleware.go) parses positional arguments. Around it sit the `Args` middleware and the control flow of the `Flags` middleware.

Each Go file is one Dafny module with its own minimal types. `Errors` holds
the package's string error type, `ErrorNotFound` and Go's `error` return
value. Handlers and middleware are Go closures. The model represents them as
a closed set of observable behaviours:

- a handler that records the args it saw and returns a given error or nil;
- a router used as a command;
- a middleware that announces itself and calls next;
- a middleware that returns without calling next;
- a middleware that consumes positional args.

A run returns its `error` together with the ordered trace of what it wrote.
This is how ordering is stated.

The builders are classes whose methods replace their fields, as the Go
methods do. Dispatch over a built tree is a method with the source's loops:

- a pattern loop with an early return;
- a reverse loop that wraps the middleware around the command;
- a sub-router loop that returns on the first success.

Each of these methods is proved equal to a functional specification
(`Dispatch`, `RunInOrder`, `ParseSpec`), and the lemmas state the
properties of those functions.

Behaviour of the code worth knowing, all of it modelled as written:

- With no args and no `""` command, `Run` returns `ErrorNotFound` without trying the sub-routers (router.go:19-23).
- The sub-router loop moves on after ANY error, not just after not-found. When no sub-router succeeds, the result is `ErrorNotFound` and a sub-router's own error is discarded (router.go:46-52).
- A repeated `Sub` pattern is not rejected. The map keeps the command registered last. For literal patterns the first matching position therefore always runs the latest command for that token (`LatestRegistrationRuns`).
- `Use` is refused only when a command exists. `Group` adds no command, so `Use` after `Group` is allowed, and the group keeps its earlier snapshot.

## Model

| member | source | states |
|---|---|---|
| `Routing.Router.Run` | router.go:18-53 | The loop implementation returns exactly `Dispatch`: the `""` command with no args, else the first pattern equal to `Args[0]` with one token consumed, else the sub-routers in order until one returns nil, else `ErrorNotFound`; the trace includes what failed sub-routers wrote |
| `Routing.CommandRouter.Run` | router.go:17-53 | Running the router under construction is `Dispatch` of its current fields; it changes nothing |
| `Routing.Compose` | router.go:25-28 | Wrapping from the last middleware to the first yields a runner that, for every context, behaves as the middleware run in declaration order and then the command |
| `Routing.Find` | router.go:33-34 | The pattern loop stops at the first position equal to the token, every earlier position differs, and it finds nothing exactly when the token is not a pattern |
| `Routing.CommandRouter.constructor` | router.go:11-15 | A new router has no patterns, commands, middleware or sub-routers |
| `Routing.CommandRouter.Sub` | router.go:55-65 | Appends the pattern, duplicates included, and sets its map entry; middleware and sub-routers are untouched; every pattern stays a key and every key a pattern |
| `Routing.CommandRouter.Use` | router.go:78-85 | Callable only while no command is registered (the source panics otherwise); appends the middleware in argument order and changes nothing else |
| `Routing.CommandRouter.Group` | router.go:67-74 | Builds a child from a copy of the current middleware by the callback's calls and appends it last; the parent's patterns, commands and middleware are unchanged and earlier sub-routers keep their place |
| `Routing.CommandRouter.Perform` | router.go:72 | Making a callback's calls on a router leaves it equal to what `Build` computes for those calls |
| `RoutingProperties.RootIgnoresSubRouters` | router.go:19-31 | With no args the result does not depend on the sub-routers; without a `""` command it is `ErrorNotFound` with nothing written, with one it is that command behind the middleware |
| `RoutingProperties.MatchedCommandRuns` | router.go:33-43 | When `Args[0]` is a pattern, its command runs behind the middleware on `Args[1:]`, its result is returned unchanged and the sub-routers are never consulted |
| `RoutingProperties.LatestRegistrationRuns` | router.go:56-59 | Registering a pattern twice is accepted, and dispatching that token runs the command registered second |
| `RoutingProperties.MiddlewareRunsInDeclarationOrder` | router.go:25-28 | For announcing middleware m1..mn the trace is m1, ..., mn, then what the command writes, and the command's result is returned |
| `RoutingProperties.HaltShortCircuits` | router.go:38-42 | After announcing middleware m1..mk, a middleware that returns without calling next writes exactly m1..mk and itself, and its result is returned |
| `RoutingProperties.HaltCutsOffTheRest` | router.go:38-42 | Whatever middleware comes before it, the first one that returns without calling next decides the result; any command and any later middleware give the same outcome, so they never run |
| `RoutingProperties.ConsumeHandsOnTheRest` | middleware/middleware.go:138-142 | A middleware that replaces the args hands later middleware and the command only the remainder |
| `RoutingProperties.FallbackResult` | router.go:46-52 | Trying sub-routers returns nil exactly when one of them does, and `ErrorNotFound` otherwise, whatever they returned |
| `RoutingProperties.UnmatchedFallsBackToSubRouters` | router.go:46-52 | When no pattern matches a token, dispatch succeeds exactly when some sub-router does, and otherwise reports `ErrorNotFound`, never a handler error |
| `RoutingProperties.FirstSuccessfulSubRouter` | router.go:46-50 | The first sub-router that succeeds ends the search; the trace is what the failed ones before it wrote, then its own |
| `RoutingProperties.BuildPreservesWellFormed` | router.go:56-59 | Any sequence of `Sub`, `Use` and `Group` calls keeps every router of the tree with patterns and command keys in agreement |
| `RoutingProperties.BuildExtends` | router.go:55-85 | The build calls only append: middleware, patterns and sub-routers grow at the end and registered commands stay registered |
| `RoutingProperties.GroupSnapshotsMiddleware` | router.go:67-74 | The child starts from a copy of the parent's middleware; whatever the callback adds stays in the child, and the parent's fields are as before except for the appended child |
| `RoutingProperties.UseAfterSubPanics` | router.go:80-83 | Once a command is registered, any later `Use` call panics |
| `RoutingProperties.RootWithTwoMiddlewares` | router.go:19-30 | `Use(m1, m2)` with a root command that prints "root": no args writes m1, m2, root in that order |
| `RoutingProperties.GroupRunsInheritedThenOwnMiddleware` | router.go:67-74 | A group made after `Use(m1)` that adds m2 runs m1, m2, then its command when the parent has no match; an m3 added to the parent afterwards does not reach it |
| `Mux.CommandMux.constructor` | mux.go:9-13 | A new mux has no patterns and no commands |
| `Mux.CommandMux.Run` | mux.go:15-33 | With no args the `""` command runs on the unchanged context, or `ErrorNotFound`; otherwise the command registered for `Args[0]` runs on `Args[1:]` and its result is returned, or `ErrorNotFound` when none is; the mux is not changed |
| `Mux.CommandMux.Handle` | mux.go:35-42 | Appends the pattern and sets its map entry; every pattern is a key and every key a pattern before and after |
| `Clir.Router.constructor` | clir.go:13-17 | A new router has no paths and no commands |
| `Clir.Router.Route` | clir.go:27-30 | Appends the path and maps it to the command; a repeated path replaces the entry |
| `Clir.RunMain` | clir.go:32-49 | `Main`: fewer than two args, or an unregistered `args[1]`, runs nothing and writes nothing; otherwise the command for `args[1]` runs with exactly the given input, output and error streams, and an error is written as exactly one line "Error: <err>" on the error stream |
| `Clir.SelectedBySecondArgOnly` | clir.go:33-39 | The command chosen depends on `args[1]` alone, and fewer than two args choose none |
| `Clir.ErrorLineIffFailure` | clir.go:45-47 | Exactly one error line, naming the error, is written when the command fails, and none when it succeeds |
| `Middleware.Slot.Set` | middleware/middleware.go:156-199 | The string, int and bool `Set` store the decoded text and return nil, or return the parse error and leave the variable as it was; a variable always holds a value of its own kind |
| `Middleware.ArgSet.constructor` | middleware/middleware.go:35-40 | A new argument set has no declarations and no args |
| `Middleware.ArgSet.Var` | middleware/middleware.go:90-93 | Appends one declaration, with the current value's string form as its default |
| `Middleware.ArgSet.DeclareVar` | middleware/middleware.go:49-76 | `StringVar`, `IntVar`, `BoolVar`: the given variable holds the default and one declaration is appended with its string form |
| `Middleware.ArgSet.Declare` | middleware/middleware.go:42-71 | `String`, `Int`, `Bool`: returns a new variable holding the default and appends one declaration with its string form; declarations made this way never share a variable |
| `Middleware.ArgSet.Parse` | middleware/middleware.go:95-116 | Stores the args, and returns and writes exactly what `ParseSpec` says: resets, then positional assignments, stopping at the first error |
| `Middleware.ArgSet.ResetAll` | middleware/middleware.go:98-103 | Sets each variable from its default string in order, stopping at and returning the first error |
| `Middleware.ArgSet.AssignAll` | middleware/middleware.go:105-113 | Sets the i-th variable from `args[i]` while args remain, stopping at and returning the first error |
| `Middleware.ArgSet.Args` | middleware/middleware.go:118-124 | The stored args are the consumed positional prefix followed by the result when there are more args than declarations; otherwise the result is empty |
| `Middleware.ArgsHandoff` | middleware/middleware.go:130-145 | A parse error is returned without calling next; otherwise next is called with the args after the positional ones |
| `Middleware.FlagsHandoff` | middleware/middleware.go:13-31 | Next is called exactly when flag parsing succeeds, with the args left after the flags; a help request returns nil without next, and any other parse error is returned unchanged |
| `MiddlewareProperties.ResetsRestoreDefaults` | middleware/middleware.go:98-103 | When every reset succeeds, each variable holds its declared default afterwards |
| `MiddlewareProperties.AssignsSetPositionally` | middleware/middleware.go:105-113 | The i-th variable is set from `args[i]` when that arg exists and it and every earlier arg decode; otherwise it keeps its value |
| `MiddlewareProperties.AssignsStatus` | middleware/middleware.go:106-115 | Assignment returns nil exactly when every arg with a declaration decodes; otherwise it returns the error of the first arg that does not |
| `MiddlewareProperties.ParseSetsPositionally` | middleware/middleware.go:95-116 | After `Parse`, variable i holds `args[i]` if that arg exists and no earlier arg failed, and its default otherwise; `Parse` returns nil exactly when all args with declarations decode |
| `MiddlewareProperties.NothingLeaksBetweenParses` | middleware/middleware.go:98-103 | What a variable holds after `Parse` does not depend on what it held before |
| `MiddlewareProperties.DefaultRoundTrip` | middleware/middleware.go:90-93 | A default's string form decodes back to the default: always for strings and bools, and for ints whenever the int parser reads `Itoa`'s output back |
| `MiddlewareProperties.StringSetThenString` | middleware/middleware.go:156-163 | `stringValue.Set` always succeeds and `String()` returns exactly the text set |
| `MiddlewareProperties.BoolSetThenString` | middleware/middleware.go:192-203 | `boolValue.Set` succeeds exactly on the twelve spellings `strconv.ParseBool` accepts, and `String()` is then "true" or "false" |
| `MiddlewareProperties.DeclaredDefaultsReset` | middleware/middleware.go:42-103 | Declarations whose defaults are the `String()` of values of their variables' kinds, as `String`, `Int` and `Bool` make them, reset without error and each back to exactly its default value |
| `MiddlewareProperties.ResetsSucceed` | middleware/middleware.go:99-103 | If every default string decodes, no reset fails |

## Left out

- Streams, the cancellation signal, `Context.Println`/`Printfln`/`Errorln`/`Errorfln` and `SetOutput`/usage printing are I/O. What handlers and middleware write is abstracted to a trace of events.
- The `Run` entry points of runner.go and command.go read the process arguments, install signal handling, bind stdio and exit the process. They are process I/O and are not modelled.
- Regular-expression patterns, capture `Matches`, `Branch`, `RouteFunc` and `Scope` belong to a router API whose source is not part of this model and are not modelled.
- Handlers and middleware are arbitrary Go closures. The model uses a closed datatype of observable behaviours: a handler, a router used as a command, announcing, halting and arg-consuming middleware.
- Routing.CommandRouter.Group: the callback is a closed script of `Sub`, `Use` and `Group` calls on the child. A callback that touches the parent, or keeps the child pointer after `Group` returns, is not modelled.
- Routing.CommandRouter.Sub: a router registered as a command is held by value. Changes made to that router after registration are not seen, although the source holds a pointer to it.
- Routing.CommandRouter.Use: the source's panic is a precondition of the method. In the `Build` script model it is a `None` result.
- Routing.Router.Run: both branches share one `Compose` method. The source repeats the wrapping loop inline.
- Mux.CommandMux.Run: commands are function handlers only. A mux registered as a command inside another mux is not modelled. Nesting is covered by the `CommandRouter` model.
- Clir.RunMain: a nil error stream is accepted only when the selected command does not fail. The source would panic writing to it.
- `strconv.ParseInt` (base prefixes, digit separators, the 64-bit range) is an abstract parser parameter, because it is standard-library code. `strconv.ParseBool`, `FormatBool` and `Itoa` are written out.
- The quoting of the text in `ParseBool`'s error message is plain double quotes. The escaping `strconv.Quote` applies is not modelled.
- `Float64`/`float64Value` are floating point and are not modelled.
- `flag.FlagSet` parsing inside `Flags` is standard-library code. It is a parser parameter that returns the remaining args, a help request, or an error.
- `Get()` of the value types returns the same value as the variable and is not modelled separately.
- internal/examples/app/main.go is a demo program that does network calls, logging and random numbers. It is not modelled.
