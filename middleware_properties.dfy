/** What middleware/middleware.go promises about `ArgSet.Parse` and the
    values it sets, stated over the model in `Middleware`. */
module MiddlewareProperties {
  import opened Errors
  import opened Middleware

  /** The args from position `lo` up to (not including) `hi` that exist all
      decode for their declarations. */
  predicate AllDecode(fs: seq<Formal>, args: seq<string>, parseInt: IntParser, lo: nat, hi: nat)
    requires hi <= |fs|
  {
    forall j | lo <= j < hi && j < |args| :: Decode(fs[j].slot.kind, args[j], parseInt).Success?
  }

  /** The value a declaration is reset to: its default string, decoded. */
  function ResetValue(f: Formal, parseInt: IntParser): Value
    requires Decode(f.slot.kind, f.defValue, parseInt).Success?
  {
    Decode(f.slot.kind, f.defValue, parseInt).value
  }

  lemma {:induction false} ResetsLeaveOthers(fs: seq<Formal>, i: nat, parseInt: IntParser, s: Slot, init: Value)
    requires i <= |fs|
    requires forall j | i <= j < |fs| :: fs[j].slot != s
    ensures Final(Resets(fs, i, parseInt).writes, s, init) == init
    decreases |fs| - i
  {
    if i < |fs| {
      ResetsLeaveOthers(fs, i + 1, parseInt, s, init);
    }
  }

  lemma {:induction false} AssignsLeaveOthers(fs: seq<Formal>, args: seq<string>, i: nat, parseInt: IntParser, s: Slot, init: Value)
    requires i <= |fs|
    requires forall j | i <= j < |fs| :: fs[j].slot != s
    ensures Final(Assigns(fs, args, i, parseInt).writes, s, init) == init
    decreases |fs| - i
  {
    if i < |fs| {
      AssignsLeaveOthers(fs, args, i + 1, parseInt, s, init);
    }
  }

  /** When every reset succeeds, each variable ends up holding its default. */
  lemma {:induction false} ResetsRestoreDefaults(fs: seq<Formal>, i: nat, k: nat, parseInt: IntParser, init: Value)
    requires DistinctSlots(fs) && i <= k < |fs|
    requires Resets(fs, i, parseInt).status == Ok
    ensures Decode(fs[k].slot.kind, fs[k].defValue, parseInt).Success?
    ensures Final(Resets(fs, i, parseInt).writes, fs[k].slot, init) == ResetValue(fs[k], parseInt)
    decreases |fs| - i
  {
    if i == k {
      ResetsLeaveOthers(fs, i + 1, parseInt, fs[k].slot, ResetValue(fs[k], parseInt));
    } else {
      ResetsRestoreDefaults(fs, i + 1, k, parseInt, init);
    }
  }

  /** The i-th variable is set from `args[i]` when that arg exists and it
      and every arg before it decode; otherwise it keeps what it held. */
  lemma {:induction false} AssignsSetPositionally(fs: seq<Formal>, args: seq<string>, i: nat, k: nat, parseInt: IntParser, init: Value)
    requires DistinctSlots(fs) && i <= k < |fs|
    ensures Final(Assigns(fs, args, i, parseInt).writes, fs[k].slot, init)
         == if k < |args| && AllDecode(fs, args, parseInt, i, k + 1)
            then Decode(fs[k].slot.kind, args[k], parseInt).value
            else init
    decreases |fs| - i
  {
    if i == k {
      if k < |args| && Decode(fs[k].slot.kind, args[k], parseInt).Success? {
        AssignsLeaveOthers(fs, args, i + 1, parseInt, fs[k].slot, Decode(fs[k].slot.kind, args[k], parseInt).value);
      } else if k >= |args| {
        AssignsLeaveOthers(fs, args, i + 1, parseInt, fs[k].slot, init);
      }
    } else {
      AssignsSetPositionally(fs, args, i + 1, k, parseInt, init);
      if i < |args| && Decode(fs[i].slot.kind, args[i], parseInt).Failure? {
        assert !AllDecode(fs, args, parseInt, i, k + 1);
      }
    }
  }

  /** The assignments succeed exactly when every arg that has a declaration
      decodes; otherwise the error is that of the first one that does not. */
  lemma {:induction false} AssignsStatus(fs: seq<Formal>, args: seq<string>, i: nat, parseInt: IntParser)
    requires i <= |fs|
    ensures Assigns(fs, args, i, parseInt).status == Ok <==> AllDecode(fs, args, parseInt, i, |fs|)
    ensures Assigns(fs, args, i, parseInt).status.Fail? ==>
      exists k | i <= k < |fs| && k < |args| ::
        && AllDecode(fs, args, parseInt, i, k)
        && Decode(fs[k].slot.kind, args[k], parseInt) == Failure(Assigns(fs, args, i, parseInt).status.err)
    decreases |fs| - i
  {
    if i < |fs| {
      AssignsStatus(fs, args, i + 1, parseInt);
      if i < |args| && Decode(fs[i].slot.kind, args[i], parseInt).Failure? {
        assert AllDecode(fs, args, parseInt, i, i);
      }
    }
  }

  /** `Parse` when every declaration can be reset: the i-th variable holds
      `args[i]` decoded if that arg exists and no earlier arg failed, and its
      default otherwise; the result is nil exactly when every arg that has a
      declaration decodes. */
  lemma ParseSetsPositionally(fs: seq<Formal>, args: seq<string>, parseInt: IntParser, k: nat, init: Value)
    requires DistinctSlots(fs) && k < |fs|
    requires Resets(fs, 0, parseInt).status == Ok
    ensures Decode(fs[k].slot.kind, fs[k].defValue, parseInt).Success?
    ensures Final(ParseSpec(fs, args, parseInt).writes, fs[k].slot, init)
         == if k < |args| && AllDecode(fs, args, parseInt, 0, k + 1)
            then Decode(fs[k].slot.kind, args[k], parseInt).value
            else ResetValue(fs[k], parseInt)
    ensures ParseSpec(fs, args, parseInt).status == Ok <==> AllDecode(fs, args, parseInt, 0, |fs|)
  {
    var r := Resets(fs, 0, parseInt).writes;
    var a := Assigns(fs, args, 0, parseInt).writes;
    ResetsRestoreDefaults(fs, 0, k, parseInt, init);
    FinalConcat(r, a, fs[k].slot, init);
    AssignsSetPositionally(fs, args, 0, k, parseInt, ResetValue(fs[k], parseInt));
    AssignsStatus(fs, args, 0, parseInt);
  }

  /** Values from a previous parse never leak: what a variable holds after
      `Parse` does not depend on what it held before. */
  lemma NothingLeaksBetweenParses(fs: seq<Formal>, args: seq<string>, parseInt: IntParser, k: nat, before: Value, other: Value)
    requires DistinctSlots(fs) && k < |fs|
    requires Resets(fs, 0, parseInt).status == Ok
    ensures Final(ParseSpec(fs, args, parseInt).writes, fs[k].slot, before)
         == Final(ParseSpec(fs, args, parseInt).writes, fs[k].slot, other)
  {
    ParseSetsPositionally(fs, args, parseInt, k, before);
    ParseSetsPositionally(fs, args, parseInt, k, other);
  }

  /** A declaration's default string decodes back to the default: always for
      strings and bools, and for ints whenever the int parser reads `Itoa`'s
      output back, as `strconv.ParseInt` does. */
  lemma DefaultRoundTrip(v: Value, parseInt: IntParser)
    requires v.Int? ==> parseInt(Itoa(v.i)) == Success(v.i)
    ensures Decode(KindOf(v), Format(v), parseInt) == Success(v)
  {
    if v.Bool? {
      assert FormatBool(v.b) in {"1", "t", "T", "TRUE", "true", "True"} <==> v.b;
    }
  }

  /** `stringValue.Set` always succeeds, and `String()` gives back exactly
      the text that was set. */
  lemma StringSetThenString(text: string, parseInt: IntParser)
    ensures Decode(StringKind, text, parseInt).Success?
    ensures Format(Decode(StringKind, text, parseInt).value) == text
  {
  }

  /** `boolValue.Set` succeeds exactly on the twelve spellings, and after it
      `String()` is the canonical "true" or "false". */
  lemma BoolSetThenString(text: string, parseInt: IntParser)
    ensures Decode(BoolKind, text, parseInt).Success?
       <==> text in {"1", "t", "T", "TRUE", "true", "True", "0", "f", "F", "FALSE", "false", "False"}
    ensures Decode(BoolKind, text, parseInt).Success? ==>
      Format(Decode(BoolKind, text, parseInt).value) in {"true", "false"}
  {
  }

  /** If every default decodes, no reset fails. */
  lemma {:induction false} ResetsSucceed(fs: seq<Formal>, i: nat, parseInt: IntParser)
    requires i <= |fs|
    requires forall k | i <= k < |fs| :: Decode(fs[k].slot.kind, fs[k].defValue, parseInt).Success?
    ensures Resets(fs, i, parseInt).status == Ok
    decreases |fs| - i
  {
    if i < |fs| {
      ResetsSucceed(fs, i + 1, parseInt);
    }
  }

  /** Declarations made by `String`, `Int` and `Bool` hold up what
      `ParseSetsPositionally` assumes: each default string is the `String()`
      of a value of the variable's kind, so every reset succeeds and restores
      exactly that value (for ints, given a parser that reads `Itoa`'s output
      back, as `strconv.ParseInt` does). */
  lemma DeclaredDefaultsReset(fs: seq<Formal>, defaults: seq<Value>, parseInt: IntParser)
    requires |defaults| == |fs|
    requires forall k | 0 <= k < |fs| :: fs[k].defValue == Format(defaults[k]) && fs[k].slot.kind == KindOf(defaults[k])
    requires forall k | 0 <= k < |fs| :: defaults[k].Int? ==> parseInt(Itoa(defaults[k].i)) == Success(defaults[k].i)
    ensures forall k | 0 <= k < |fs| :: Decode(fs[k].slot.kind, fs[k].defValue, parseInt) == Success(defaults[k])
    ensures Resets(fs, 0, parseInt).status == Ok
  {
    forall k | 0 <= k < |fs|
      ensures Decode(fs[k].slot.kind, fs[k].defValue, parseInt) == Success(defaults[k])
    {
      DefaultRoundTrip(defaults[k], parseInt);
    }
    ResetsSucceed(fs, 0, parseInt);
  }
}
