/** The middleware package (middleware/middleware.go): `ArgSet`, a parser
    for positional arguments declared in order, the `Args` middleware built
    on it, and the control flow of the `Flags` middleware. */
module Middleware {
  import opened Errors
  import Routing

  /** `strconv.ParseInt(s, 0, strconv.IntSize)`, left abstract. */
  type IntParser = string -> Result<int>

  datatype Kind = StringKind | IntKind | BoolKind

  /** The value a declared variable holds. */
  datatype Value = Str(s: string) | Int(i: int) | Bool(b: bool)

  function KindOf(v: Value): Kind
  {
    match v
    case Str(_) => StringKind
    case Int(_) => IntKind
    case Bool(_) => BoolKind
  }

  function DigitChar(d: nat): char
    requires d < 10
  {
    "0123456789"[d]
  }

  function Digits(n: nat): string
    decreases n
  {
    if n < 10 then [DigitChar(n)] else Digits(n / 10) + [DigitChar(n % 10)]
  }

  /** `strconv.Itoa`. */
  function Itoa(i: int): string
  {
    if i < 0 then "-" + Digits(-i) else Digits(i)
  }

  /** `strconv.FormatBool`. */
  function FormatBool(b: bool): string
  {
    if b then "true" else "false"
  }

  /** `strconv.ParseBool`: the accepted spellings, and its syntax error. */
  function ParseBool(text: string): Result<bool>
  {
    if text in {"1", "t", "T", "TRUE", "true", "True"} then Success(true)
    else if text in {"0", "f", "F", "FALSE", "false", "False"} then Success(false)
    else Failure(Error("strconv.ParseBool: parsing \"" + text + "\": invalid syntax"))
  }

  /** `String()` of the string, int and bool values. */
  function Format(v: Value): string
  {
    match v
    case Str(s) => s
    case Int(i) => Itoa(i)
    case Bool(b) => FormatBool(b)
  }

  /** What `Set(text)` of a value of the given kind stores, or its error. */
  function Decode(kind: Kind, text: string, parseInt: IntParser): Result<Value>
  {
    match kind
    case StringKind => Success(Str(text))
    case IntKind =>
      (match parseInt(text)
       case Success(i) => Success(Int(i))
       case Failure(e) => Failure(e))
    case BoolKind =>
      (match ParseBool(text)
       case Success(b) => Success(Bool(b))
       case Failure(e) => Failure(e))
  }

  /** The variable behind a declaration: what `String`, `Int` and `Bool`
      return a pointer to, and what `Set` writes through. */
  class Slot {
    const kind: Kind
    var value: Value

    constructor (v: Value)
      ensures kind == KindOf(v) && value == v
    {
      kind := KindOf(v);
      value := v;
    }

    function String(): string
      reads this
    {
      Format(value)
    }

    /** `Set` of the string, int and bool values: on an error the variable
        keeps what it held. */
    method Set(text: string, parseInt: IntParser) returns (status: Status)
      modifies this
      ensures match Decode(kind, text, parseInt)
              case Success(v) => value == v && status == Ok
              case Failure(e) => value == old(value) && status == Fail(e)
      ensures old(kind == KindOf(value)) ==> kind == KindOf(value)
    {
      match Decode(kind, text, parseInt)
      case Success(v) =>
        value := v;
        status := Ok;
      case Failure(e) =>
        status := Fail(e);
    }
  }

  /** A declared positional argument (`flag.Flag`). */
  datatype Formal = Formal(name: string, usage: string, defValue: string, slot: Slot)

  /** Every declaration has its own variable (the case for `String`, `Int`
      and `Bool`, which allocate one each). */
  predicate DistinctSlots(fs: seq<Formal>)
  {
    forall j, k | 0 <= j < k < |fs| :: fs[j].slot != fs[k].slot
  }

  /** One successful `Set`: the variable written and the value stored. */
  datatype Write = Write(slot: Slot, value: Value)

  /** The error `Parse` returns and the writes it made, in order. */
  datatype ParseRun = ParseRun(status: Status, writes: seq<Write>)

  /** The value a variable holds after `ws`, starting from `init`. */
  function Final(ws: seq<Write>, s: Slot, init: Value): Value
    decreases |ws|
  {
    if ws == [] then init
    else Final(ws[1..], s, if ws[0].slot == s then ws[0].value else init)
  }

  /** The first loop of `Parse`, from the `i`-th declaration on: each
      variable set from its default's string form, up to the first error. */
  function Resets(fs: seq<Formal>, i: nat, parseInt: IntParser): ParseRun
    requires i <= |fs|
    decreases |fs| - i
  {
    if i == |fs| then ParseRun(Ok, [])
    else
      match Decode(fs[i].slot.kind, fs[i].defValue, parseInt)
      case Failure(e) => ParseRun(Fail(e), [])
      case Success(v) =>
        var rest := Resets(fs, i + 1, parseInt);
        ParseRun(rest.status, [Write(fs[i].slot, v)] + rest.writes)
  }

  /** The second loop of `Parse`, from the `i`-th declaration on: each
      variable that has an arg set from it, up to the first error. */
  function Assigns(fs: seq<Formal>, args: seq<string>, i: nat, parseInt: IntParser): ParseRun
    requires i <= |fs|
    decreases |fs| - i
  {
    if i == |fs| then ParseRun(Ok, [])
    else if i < |args| then
      match Decode(fs[i].slot.kind, args[i], parseInt)
      case Failure(e) => ParseRun(Fail(e), [])
      case Success(v) =>
        var rest := Assigns(fs, args, i + 1, parseInt);
        ParseRun(rest.status, [Write(fs[i].slot, v)] + rest.writes)
    else Assigns(fs, args, i + 1, parseInt)
  }

  /** `Parse`: the resets, then, if they all succeeded, the assignments. */
  function ParseSpec(fs: seq<Formal>, args: seq<string>, parseInt: IntParser): ParseRun
  {
    var r := Resets(fs, 0, parseInt);
    if r.status != Ok then r
    else
      var a := Assigns(fs, args, 0, parseInt);
      ParseRun(a.status, r.writes + a.writes)
  }

  lemma {:induction false} FinalAppend(ws: seq<Write>, w: Write, s: Slot, init: Value)
    ensures Final(ws + [w], s, init) == if w.slot == s then w.value else Final(ws, s, init)
    decreases |ws|
  {
    if ws != [] {
      assert (ws + [w])[1..] == ws[1..] + [w];
      FinalAppend(ws[1..], w, s, if ws[0].slot == s then ws[0].value else init);
    }
  }

  lemma {:induction false} FinalConcat(ws: seq<Write>, more: seq<Write>, s: Slot, init: Value)
    ensures Final(ws + more, s, init) == Final(more, s, Final(ws, s, init))
    decreases |ws|
  {
    if ws != [] {
      assert (ws + more)[1..] == ws[1..] + more;
      FinalConcat(ws[1..], more, s, if ws[0].slot == s then ws[0].value else init);
    } else {
      assert ws + more == more;
    }
  }

  /** The context the middleware hand on: the unconsumed args. */
  datatype Context = Context(args: seq<string>)

  /** What a middleware does about `next`: returns without calling it, or
      calls it with the given context. */
  datatype Handoff = Return(status: Status) | CallNext(ctx: Context)

  class ArgSet {
    var args: seq<string>
    var formal: seq<Formal>

    constructor ()
      ensures args == [] && formal == []
    {
      args := [];
      formal := [];
    }

    /** The variables `Parse` may write. */
    function Slots(): set<Slot>
      reads this
    {
      set i | 0 <= i < |formal| :: formal[i].slot
    }

    /** `Var`: declares one more positional argument, recording its current
        value's string form as the default. */
    method Var(slot: Slot, name: string, usage: string)
      modifies this
      ensures formal == old(formal) + [Formal(name, usage, slot.String(), slot)]
      ensures args == old(args)
    {
      formal := formal + [Formal(name, usage, slot.String(), slot)];
    }

    /** `StringVar`, `IntVar` and `BoolVar`: the variable is set to the
        default, then declared. */
    method DeclareVar(slot: Slot, name: string, value: Value, usage: string)
      requires slot.kind == KindOf(value)
      modifies this, slot
      ensures slot.value == value
      ensures formal == old(formal) + [Formal(name, usage, Format(value), slot)]
      ensures args == old(args)
    {
      slot.value := value;
      Var(slot, name, usage);
    }

    /** `String`, `Int` and `Bool`: a new variable holding the default. */
    method Declare(name: string, value: Value, usage: string) returns (p: Slot)
      modifies this
      ensures fresh(p) && p.kind == KindOf(value) && p.value == value
      ensures formal == old(formal) + [Formal(name, usage, Format(value), p)]
      ensures DistinctSlots(old(formal)) ==> DistinctSlots(formal)
      ensures args == old(args)
    {
      p := new Slot(value);
      Var(p, name, usage);
    }

    /** Stores the args, resets every variable from its default, then sets
        the i-th variable from `args[i]`, stopping at the first error. */
    method Parse(args: seq<string>, parseInt: IntParser) returns (status: Status)
      modifies this, Slots()
      ensures this.args == args && formal == old(formal)
      ensures status == ParseSpec(formal, args, parseInt).status
      ensures forall s | s in Slots() :: s.value == Final(ParseSpec(formal, args, parseInt).writes, s, old(s.value))
    {
      this.args := args;
      status := ResetAll(parseInt);
      if status.Fail? {
        return;
      }
      ghost var reset := Resets(formal, 0, parseInt).writes;
      status := AssignAll(args, parseInt);
      forall s | s in Slots()
        ensures s.value == Final(reset + Assigns(formal, args, 0, parseInt).writes, s, old(s.value))
      {
        FinalConcat(reset, Assigns(formal, args, 0, parseInt).writes, s, old(s.value));
      }
    }

    /** The first loop of `Parse`: every variable set from its default's
        string form, up to the first error. */
    method ResetAll(parseInt: IntParser) returns (status: Status)
      modifies Slots()
      ensures status == Resets(formal, 0, parseInt).status
      ensures forall s | s in Slots() :: s.value == Final(Resets(formal, 0, parseInt).writes, s, old(s.value))
    {
      ghost var done: seq<Write> := [];
      for i := 0 to |formal|
        invariant Resets(formal, 0, parseInt)
          == ParseRun(Resets(formal, i, parseInt).status, done + Resets(formal, i, parseInt).writes)
        invariant forall s | s in Slots() :: s.value == Final(done, s, old(s.value))
      {
        var f := formal[i];
        assert f.slot in Slots();
        status := f.slot.Set(f.defValue, parseInt);
        if status.Fail? {
          assert done + Resets(formal, i, parseInt).writes == done;
          return;
        }
        var w := Write(f.slot, f.slot.value);
        forall s | s in Slots() ensures s.value == Final(done + [w], s, old(s.value)) {
          FinalAppend(done, w, s, old(s.value));
        }
        assert [w] + Resets(formal, i + 1, parseInt).writes == Resets(formal, i, parseInt).writes;
        done := done + [w];
      }
      assert done + Resets(formal, |formal|, parseInt).writes == done;
      status := Ok;
    }

    /** The second loop of `Parse`: the i-th variable set from `args[i]`
        while there are args, up to the first error. */
    method AssignAll(args: seq<string>, parseInt: IntParser) returns (status: Status)
      modifies Slots()
      ensures status == Assigns(formal, args, 0, parseInt).status
      ensures forall s | s in Slots() :: s.value == Final(Assigns(formal, args, 0, parseInt).writes, s, old(s.value))
    {
      ghost var done: seq<Write> := [];
      for i := 0 to |formal|
        invariant Assigns(formal, args, 0, parseInt)
          == ParseRun(Assigns(formal, args, i, parseInt).status, done + Assigns(formal, args, i, parseInt).writes)
        invariant forall s | s in Slots() :: s.value == Final(done, s, old(s.value))
      {
        var f := formal[i];
        if i < |args| {
          assert f.slot in Slots();
          status := f.slot.Set(args[i], parseInt);
          if status.Fail? {
            assert done + Assigns(formal, args, i, parseInt).writes == done;
            return;
          }
          var w := Write(f.slot, f.slot.value);
          forall s | s in Slots() ensures s.value == Final(done + [w], s, old(s.value)) {
            FinalAppend(done, w, s, old(s.value));
          }
          assert [w] + Assigns(formal, args, i + 1, parseInt).writes == Assigns(formal, args, i, parseInt).writes;
          done := done + [w];
        }
      }
      assert done + Assigns(formal, args, |formal|, parseInt).writes == done;
      status := Ok;
    }

    /** `Args`: the args after the positional ones, or none. */
    function Args(): (rest: seq<string>)
      reads this
      ensures |formal| < |args| ==> args == args[..|formal|] + rest
      ensures |args| <= |formal| ==> rest == []
    {
      Routing.Rest(args, |formal|)
    }
  }

  /** The `Args` middleware: a parse error is returned without calling next;
      otherwise next is called with the args left after the positional ones. */
  method ArgsHandoff(argSet: ArgSet, ctx: Context, parseInt: IntParser) returns (h: Handoff)
    modifies argSet, argSet.Slots()
    ensures argSet.args == ctx.args && argSet.formal == old(argSet.formal)
    ensures var run := ParseSpec(argSet.formal, ctx.args, parseInt);
      && (forall s | s in argSet.Slots() :: s.value == Final(run.writes, s, old(s.value)))
      && h == if run.status.Fail? then Return(run.status)
              else CallNext(ctx.(args := Routing.Rest(ctx.args, |argSet.formal|)))
  {
    var status := argSet.Parse(ctx.args, parseInt);
    if status.Fail? {
      return Return(status);
    }
    var next := ctx.(args := argSet.Args());
    return CallNext(next);
  }

  /** What `flag.FlagSet.Parse` reports: the args after the flags, a help
      request, or another error. */
  datatype FlagParse = Parsed(rest: seq<string>) | HelpRequested | Invalid(err: Error)

  /** The `Flags` middleware: a help request ends the run successfully
      without next, another parse error is returned, and otherwise next
      sees only the args after the flags. */
  function FlagsHandoff(parse: seq<string> -> FlagParse, ctx: Context): (h: Handoff)
    ensures h.CallNext? <==> parse(ctx.args).Parsed?
    ensures h.CallNext? ==> h.ctx.args == parse(ctx.args).rest
    ensures h.Return? ==> (h.status == Ok <==> parse(ctx.args).HelpRequested?)
    ensures parse(ctx.args).HelpRequested? ==> h == Return(Ok)
    ensures parse(ctx.args).Invalid? ==> h == Return(Fail(parse(ctx.args).err))
  {
    match parse(ctx.args)
    case Parsed(rest) => CallNext(ctx.(args := rest))
    case HelpRequested => Return(Ok)
    case Invalid(err) => Return(Fail(err))
  }
}
