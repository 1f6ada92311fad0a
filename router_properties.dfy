/** What router.go promises about dispatch and building, stated over the
    model in `Routing`. */
module RoutingProperties {
  import opened Errors
  import opened Routing

  /** With no args only the `""` command can run; without one the result is
      the not-found sentinel and the sub-routers are never consulted. */
  lemma RootIgnoresSubRouters(r: Router, others: seq<Router>, ctx: Context)
    requires WellFormed(r) && WellFormed(r.(subRouters := others))
    requires ctx.args == []
    ensures Dispatch(r, ctx) == Dispatch(r.(subRouters := others), ctx)
    ensures "" !in r.commands ==> Dispatch(r, ctx) == Outcome(Fail(NotFound), [])
    ensures "" in r.commands ==> Dispatch(r, ctx) == RunInOrder(r.middlewares, r.commands[""], ctx)
  {
  }

  /** When `Args[0]` is a registered pattern, its command runs behind this
      router's middleware with one token consumed, its result is the result,
      and the sub-routers are never consulted. */
  lemma MatchedCommandRuns(r: Router, others: seq<Router>, ctx: Context)
    requires WellFormed(r) && WellFormed(r.(subRouters := others))
    requires |ctx.args| > 0 && ctx.args[0] in r.patterns
    ensures Dispatch(r, ctx)
      == RunInOrder(r.middlewares, r.commands[ctx.args[0]], ctx.(args := ctx.args[1..]))
    ensures Dispatch(r, ctx) == Dispatch(r.(subRouters := others), ctx)
  {
  }

  /** `Sub` does not reject a repeated pattern: the first occurrence is what
      the loop finds, but the map holds the command registered last. */
  lemma LatestRegistrationRuns(r: Router, pattern: string, first: Command, second: Command, rest: seq<string>)
    requires WellFormed(r) && CommandWellFormed(first) && CommandWellFormed(second)
    ensures WellFormed(AddSub(AddSub(r, pattern, first), pattern, second))
    ensures Dispatch(AddSub(AddSub(r, pattern, first), pattern, second), Context([pattern] + rest))
         == RunInOrder(r.middlewares, second, Context(rest))
  {
    var r1 := AddSub(r, pattern, first);
    var r2 := AddSub(r1, pattern, second);
    assert WellFormed(r1);
    assert WellFormed(r2);
    assert ([pattern] + rest)[1..] == rest;
    assert r2.patterns[|r.patterns|] == pattern;
  }

  /** What a chain of announcing middleware writes before the command runs. */
  function Announcements(mws: seq<Middleware>, args: seq<string>): (t: seq<Event>)
    requires forall i | 0 <= i < |mws| :: mws[i].Log?
    ensures |t| == |mws|
    ensures forall i | 0 <= i < |mws| :: t[i] == Entered(mws[i].name, args)
  {
    if mws == [] then [] else [Entered(mws[0].name, args)] + Announcements(mws[1..], args)
  }

  /** The first-added middleware runs first: m1, m2, then the command. */
  lemma {:induction false} MiddlewareRunsInDeclarationOrder(mws: seq<Middleware>, cmd: Command, ctx: Context)
    requires CommandWellFormed(cmd)
    requires forall i | 0 <= i < |mws| :: mws[i].Log?
    ensures RunInOrder(mws, cmd, ctx)
         == Outcome(Exec(cmd, ctx).status, Announcements(mws, ctx.args) + Exec(cmd, ctx).trace)
  {
    if mws != [] {
      MiddlewareRunsInDeclarationOrder(mws[1..], cmd, ctx);
    }
  }

  /** A middleware that returns without calling next decides the result;
      the command and everything after it never run. */
  lemma {:induction false} HaltShortCircuits(mws: seq<Middleware>, k: nat, cmd: Command, ctx: Context)
    requires CommandWellFormed(cmd)
    requires k < |mws| && mws[k].Halt?
    requires forall i | 0 <= i < k :: mws[i].Log?
    ensures RunInOrder(mws, cmd, ctx)
         == Outcome(mws[k].result, Announcements(mws[..k], ctx.args) + [Entered(mws[k].name, ctx.args)])
  {
    if k > 0 {
      HaltShortCircuits(mws[1..], k - 1, cmd, ctx);
      assert mws[1..][..k - 1] == mws[..k][1..];
    }
  }

  /** Whatever comes before it, the first middleware that returns without
      calling next decides the result, and nothing after it matters: any
      command and any later middleware give the same outcome. */
  lemma {:induction false} HaltCutsOffTheRest(mws: seq<Middleware>, k: nat, cmd: Command, other: Command, ctx: Context)
    requires CommandWellFormed(cmd) && CommandWellFormed(other)
    requires k < |mws| && mws[k].Halt?
    requires forall i | 0 <= i < k :: !mws[i].Halt?
    ensures RunInOrder(mws, cmd, ctx) == RunInOrder(mws[..k + 1], other, ctx)
    ensures RunInOrder(mws, cmd, ctx).status == mws[k].result
  {
    if k > 0 {
      var next := Handoff(mws[0], ctx).value;
      HaltCutsOffTheRest(mws[1..], k - 1, cmd, other, next);
      assert mws[..k + 1][1..] == mws[1..][..k];
    }
  }

  /** A middleware that rewrites the args hides the original ones from
      everything after it. */
  lemma ConsumeHandsOnTheRest(count: nat, mws: seq<Middleware>, cmd: Command, ctx: Context)
    requires CommandWellFormed(cmd)
    ensures RunInOrder([Consume(count)] + mws, cmd, ctx)
         == RunInOrder(mws, cmd, ctx.(args := Rest(ctx.args, count)))
  {
    assert ([Consume(count)] + mws)[1..] == mws;
  }

  /** Sub-routers from `i` on: the result is nil exactly when one of them
      returns nil, and otherwise the not-found sentinel, whatever they returned. */
  lemma {:induction false} FallbackResult(r: Router, i: nat, ctx: Context)
    requires WellFormed(r) && i <= |r.subRouters|
    ensures Fallback(r, i, ctx).status == Ok
       <==> exists j :: i <= j < |r.subRouters| && Dispatch(r.subRouters[j], ctx).status == Ok
    ensures Fallback(r, i, ctx).status != Ok ==> Fallback(r, i, ctx).status == Fail(NotFound)
    decreases |r.subRouters| - i
  {
    if i < |r.subRouters| {
      FallbackResult(r, i + 1, ctx);
    }
  }

  /** When no pattern matches, dispatch succeeds exactly when a sub-router
      does; any other error of theirs is replaced by the not-found sentinel. */
  lemma UnmatchedFallsBackToSubRouters(r: Router, ctx: Context)
    requires WellFormed(r)
    requires |ctx.args| > 0 && ctx.args[0] !in r.patterns
    ensures Dispatch(r, ctx).status == Ok
       <==> exists j :: 0 <= j < |r.subRouters| && Dispatch(r.subRouters[j], ctx).status == Ok
    ensures Dispatch(r, ctx).status == Ok || Dispatch(r, ctx).status == Fail(NotFound)
  {
    FallbackResult(r, 0, ctx);
  }

  /** The first sub-router that succeeds decides the trace: the output of the
      ones tried before it, then its own. */
  lemma {:induction false} FirstSuccessfulSubRouter(r: Router, i: nat, j: nat, ctx: Context)
    requires WellFormed(r) && i <= j < |r.subRouters|
    requires Dispatch(r.subRouters[j], ctx).status == Ok
    requires forall k | i <= k < j :: Dispatch(r.subRouters[k], ctx).status != Ok
    ensures Fallback(r, i, ctx) == Outcome(Ok, Traces(r.subRouters[i..j], ctx) + Dispatch(r.subRouters[j], ctx).trace)
    decreases j - i
  {
    if i < j {
      FirstSuccessfulSubRouter(r, i + 1, j, ctx);
      assert r.subRouters[i..j][1..] == r.subRouters[i + 1..j];
    }
  }

  function Traces(routers: seq<Router>, ctx: Context): seq<Event>
    requires forall k | 0 <= k < |routers| :: WellFormed(routers[k])
  {
    if routers == [] then [] else Dispatch(routers[0], ctx).trace + Traces(routers[1..], ctx)
  }

  /** A callback's calls keep every router of the tree well formed. */
  lemma {:induction false} BuildPreservesWellFormed(r: Router, cb: seq<Step>)
    requires WellFormed(r) && StepsWellFormed(cb)
    ensures Build(r, cb).Some? ==> WellFormed(Build(r, cb).value)
    decreases cb, 0
  {
    if cb != [] {
      assert StepsWellFormed(cb[1..]) by {
        assert forall i | 0 <= i < |cb[1..]| :: cb[1..][i] == cb[i + 1];
      }
      match cb[0]
      case SubStep(pattern, cmd) =>
        BuildPreservesWellFormed(AddSub(r, pattern, cmd), cb[1..]);
      case UseStep(mws) =>
        if |r.commands| == 0 {
          BuildPreservesWellFormed(r.(middlewares := r.middlewares + mws), cb[1..]);
        }
      case GroupStep(inner) =>
        GroupPreservesWellFormed(r, inner);
        if AddGroup(r, inner).Some? {
          BuildPreservesWellFormed(AddGroup(r, inner).value, cb[1..]);
        }
    }
  }

  lemma {:induction false} GroupPreservesWellFormed(r: Router, inner: seq<Step>)
    requires WellFormed(r) && StepsWellFormed(inner)
    ensures AddGroup(r, inner).Some? ==> WellFormed(AddGroup(r, inner).value)
    decreases inner, 1
  {
    BuildPreservesWellFormed(Router([], map[], r.middlewares, []), inner);
  }

  /** A callback only ever adds: middleware, patterns and sub-routers grow
      at the end and registered commands stay registered. */
  lemma {:induction false} BuildExtends(r: Router, cb: seq<Step>)
    requires Build(r, cb).Some?
    ensures r.middlewares <= Build(r, cb).value.middlewares
    ensures r.patterns <= Build(r, cb).value.patterns
    ensures r.subRouters <= Build(r, cb).value.subRouters
    ensures r.commands.Keys <= Build(r, cb).value.commands.Keys
    decreases cb
  {
    if cb != [] {
      match cb[0]
      case SubStep(pattern, cmd) => BuildExtends(AddSub(r, pattern, cmd), cb[1..]);
      case UseStep(mws) => BuildExtends(r.(middlewares := r.middlewares + mws), cb[1..]);
      case GroupStep(inner) => BuildExtends(AddGroup(r, inner).value, cb[1..]);
    }
  }

  /** `Group` copies the parent's middleware into the child, appends the
      child last, and leaves the parent's own middleware and commands as they
      were, whatever the callback adds to the child. */
  lemma GroupSnapshotsMiddleware(r: Router, callback: seq<Step>)
    requires AddGroup(r, callback).Some?
    ensures var r' := AddGroup(r, callback).value;
      && r'.patterns == r.patterns && r'.commands == r.commands
      && r'.middlewares == r.middlewares
      && |r'.subRouters| == |r.subRouters| + 1 && r'.subRouters[..|r.subRouters|] == r.subRouters
      && r.middlewares <= r'.subRouters[|r.subRouters|].middlewares
  {
    BuildExtends(Router([], map[], r.middlewares, []), callback);
  }

  /** Once a command is registered, every later `Use` call panics. */
  lemma {:induction false} UseAfterSubPanics(r: Router, cb: seq<Step>, k: nat)
    requires |r.commands| > 0
    requires k < |cb| && cb[k].UseStep?
    ensures Build(r, cb) == None
    decreases cb
  {
    match cb[0]
    case SubStep(pattern, cmd) =>
      assert pattern in AddSub(r, pattern, cmd).commands;
      UseAfterSubPanics(AddSub(r, pattern, cmd), cb[1..], k - 1);
    case UseStep(_) =>
    case GroupStep(inner) =>
      if AddGroup(r, inner).Some? {
        assert AddGroup(r, inner).value.commands == r.commands;
        UseAfterSubPanics(AddGroup(r, inner).value, cb[1..], k - 1);
      }
  }

  /** Middleware m1, m2 on a router with a root command that prints "root":
      running with no args writes m1, m2, root in that order. */
  lemma RootWithTwoMiddlewares()
    ensures var r := Router([""], map["" := Handler("root", Ok)], [Log("m1"), Log("m2")], []);
      WellFormed(r) && Dispatch(r, Context([]))
        == Outcome(Ok, [Entered("m1", []), Entered("m2", []), Ran("root", [])])
  {
    var r := Router([""], map["" := Handler("root", Ok)], [Log("m1"), Log("m2")], []);
    assert [Log("m1"), Log("m2")][1..] == [Log("m2")];
    assert [Log("m2")][1..] == [];
  }

  /** A group made after `Use(m1)` that adds m2 itself: running "dance"
      falls through to the group, which runs m1, m2, then the command; an m3
      added to the parent afterwards reaches neither. */
  lemma GroupRunsInheritedThenOwnMiddleware()
    ensures var cb := [
        UseStep([Log("m1")]),
        GroupStep([UseStep([Log("m2")]), SubStep("dance", Handler("dance", Ok))]),
        UseStep([Log("m3")])];
      && Build(Router([], map[], [], []), cb).Some?
      && WellFormed(Build(Router([], map[], [], []), cb).value)
      && Dispatch(Build(Router([], map[], [], []), cb).value, Context(["dance"]))
        == Outcome(Ok, [Entered("m1", []), Entered("m2", []), Ran("dance", [])])
  {
    var empty := Router([], map[], [], []);
    var inner := [UseStep([Log("m2")]), SubStep("dance", Handler("dance", Ok))];
    var cb := [UseStep([Log("m1")]), GroupStep(inner), UseStep([Log("m3")])];
    var child := Router(["dance"], map["dance" := Handler("dance", Ok)], [Log("m1"), Log("m2")], []);
    var seed := Router([], map[], [Log("m1")], []);
    var seeded2 := Router([], map[], [Log("m1"), Log("m2")], []);
    assert inner[1..][1..] == [];
    assert Build(child, inner[1..][1..]) == Some(child);
    assert AddSub(seeded2, "dance", Handler("dance", Ok)) == child;
    assert Build(seeded2, inner[1..]) == Some(child);
    assert [Log("m1")] + [Log("m2")] == [Log("m1"), Log("m2")];
    assert AddUse(seed, [Log("m2")]) == Some(seeded2);
    assert Build(seed, inner) == Some(child);
    var grouped := Router([], map[], [Log("m1")], [child]);
    var root := Router([], map[], [Log("m1"), Log("m3")], [child]);
    assert cb[1..][1..][1..] == [];
    assert Build(root, cb[1..][1..][1..]) == Some(root);
    assert [Log("m1")] + [Log("m3")] == [Log("m1"), Log("m3")];
    assert Build(grouped, cb[1..][1..]) == Some(root);
    assert [] + [child] == [child];
    assert AddGroup(seed, inner) == Some(grouped);
    assert Build(seed, cb[1..]) == Some(root);
    assert [] + [Log("m1")] == [Log("m1")];
    assert AddUse(empty, [Log("m1")]) == Some(seed);
    assert Build(empty, cb) == Some(root);
    assert WellFormed(child);
    assert WellFormed(root);
    assert ["dance"][1..] == [];
    assert [Log("m1"), Log("m2")][1..] == [Log("m2")];
    assert [Log("m2")][1..] == [];
    assert Dispatch(child, Context(["dance"]))
      == Outcome(Ok, [Entered("m1", []), Entered("m2", []), Ran("dance", [])]);
  }
}
