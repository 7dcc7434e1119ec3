/**
 * Signature validation for `with_args`: the expected call is checked
 * against the original's parameter list before it is stored.
 */
module Signature {
  import opened Values
  import opened Errors
  import opened Text

  /**
   * `inspect.getfullargspec`, reduced to what the validator reads: the
   * positional parameter names, whether `*args`/`**kwargs` exist, how many
   * positionals have defaults, the keyword-only names and which of them
   * have defaults.
   */
  datatype ArgSpec = ArgSpec(
    args: seq<string>,
    varargs: Option<string>,
    varkw: Option<string>,
    numDefaults: nat,
    kwonlyargs: seq<string>,
    kwonlyDefaults: set<string>)

  /**
   * What the oldest revision's `FullArgSpec` wrapper receives: a Python 2
   * four-field result, or an already complete one.
   */
  datatype RawSpec =
    | Legacy(args: seq<string>, varargs: Option<string>, keywords: Option<string>, numDefaults: nat)
    | Full(spec: ArgSpec)

  /** The four-field form is padded with no keyword-only parameters. */
  function PadSpec(raw: RawSpec): (s: ArgSpec)
    ensures raw.Full? ==> s == raw.spec
    ensures raw.Legacy? ==>
              s.args == raw.args && s.varargs == raw.varargs && s.varkw == raw.keywords &&
              s.numDefaults == raw.numDefaults && s.kwonlyargs == [] && s.kwonlyDefaults == {}
  {
    match raw
    case Legacy(a, v, k, d) => ArgSpec(a, v, k, d, [], {})
    case Full(spec) => spec
  }

  /** The kind of the captured original, as `inspect` classifies it. */
  datatype OrigKind =
    | BoundMethod       // inspect.ismethod
    | PlainFunction     // inspect.isfunction
    | ClassObject       // inspect.isclass
    | BuiltinMethod     // types.BuiltinMethodType
    | OtherObject

  /** `_method_type`: how the attribute is defined on its class. */
  datatype MethodType = StaticMethodType | ClassMethodType | OrdinaryType

  predicate NotStatic(mt: Option<MethodType>)
  {
    mt != Some(StaticMethodType)
  }

  /**
   * Whether the first parameter is the implicit `self`/`cls`, which the
   * expected call does not supply.
   */
  function ImplicitReceiver(rev: Revision, kind: OrigKind, mt: Option<MethodType>,
                            targetIsClass: bool, targetIsModule: bool, spec: ArgSpec): bool
  {
    var hasSelf := |spec.args| > 0 && spec.args[0] == "self";
    match rev
    case Current =>
      (kind == BuiltinMethod && hasSelf) || (kind == BoundMethod && NotStatic(mt)) ||
      kind == ClassObject || (kind == PlainFunction && targetIsClass && NotStatic(mt))
    case Earlier =>
      kind == BuiltinMethod || (kind == BoundMethod && NotStatic(mt)) ||
      kind == ClassObject || (kind == PlainFunction && targetIsClass && NotStatic(mt))
    case Oldest =>
      (kind == BoundMethod || kind == PlainFunction || kind == ClassObject) && NotStatic(mt) &&
      (!targetIsModule || kind == ClassObject)
  }

  /** A static method never has its first parameter skipped, in any revision. */
  lemma StaticMethodsHaveNoReceiver(rev: Revision, kind: OrigKind, targetIsClass: bool, targetIsModule: bool, spec: ArgSpec)
    requires kind != BuiltinMethod && kind != ClassObject
    ensures !ImplicitReceiver(rev, kind, Some(StaticMethodType), targetIsClass, targetIsModule, spec)
  {
  }

  // ---------------------------------------------------------------- filters

  function Filter(xs: seq<string>, p: string -> bool): (r: seq<string>)
    ensures |r| <= |xs|
    ensures forall x :: x in r <==> x in xs && p(x)
  {
    if xs == [] then [] else (if p(xs[0]) then [xs[0]] else []) + Filter(xs[1..], p)
  }

  /** Python's `any(a for a in ...)`: some name in the list is truthy (non-empty). */
  predicate AnyTruthy(xs: seq<string>)
  {
    exists i :: 0 <= i < |xs| && xs[i] != ""
  }

  /** The positional parameters that carry a default value (the last `numDefaults`). */
  function DefaultedParams(spec: ArgSpec): seq<string>
  {
    var d := if spec.numDefaults <= |spec.args| then spec.numDefaults else |spec.args|;
    spec.args[|spec.args| - d..]
  }

  /** The parameters a call's positional arguments fill, after any implicit receiver. */
  function FilledByPosition(spec: ArgSpec, receiver: bool, numPositional: nat): seq<string>
  {
    var offset := if receiver && |spec.args| > 0 then 1 else 0;
    var end := if offset + numPositional <= |spec.args| then offset + numPositional else |spec.args|;
    spec.args[offset..end]
  }

  // ---------------------------------------------------------------- the check

  /**
   * The error messages, worded per revision: the current revision uses the
   * singular "argument" for a count of one; the earlier ones always say
   * "arguments" and "argument(s)".
   */
  function Plural(rev: Revision, n: int): string
  {
    if rev == Current then Arguments(n) else "arguments"
  }

  function TooFew(rev: Revision, name: string, minimum: int, provided: int): Error
  {
    Flex(MethodSignatureError, name + " requires at least " + IntToString(minimum) + " " + Plural(rev, minimum) +
      ", expectation provided " + IntToString(provided))
  }

  function TooMany(rev: Revision, name: string, maximum: int, provided: int): Error
  {
    Flex(MethodSignatureError, name + " requires at most " + IntToString(maximum) + " " + Plural(rev, maximum) +
      ", expectation provided " + IntToString(provided))
  }

  function AlreadyGiven(rev: Revision, name: string, given: seq<string>): Error
  {
    Flex(MethodSignatureError, ListRepr(given) + " already given as positional " + Plural(rev, |given|) + " to " + name)
  }

  function NotAKeyword(name: string, invalid: string): Error
  {
    Flex(MethodSignatureError, invalid + " is not a valid keyword argument to " + name)
  }

  function MissingKeywordOnly(rev: Revision, name: string, missing: seq<string>): Error
  {
    var what := if rev == Current then Arguments(|missing|) else "argument(s)";
    Flex(MethodSignatureError, name + " requires keyword-only " + what + " \"" + Join(missing, "\", \"") + "\"")
  }

  /** The figures the check computes from the signature and the expected call. */
  datatype Figures = Figures(argsLen: int, minimum: int, maximum: Option<int>, totalPositional: int)

  function ComputeFigures(spec: ArgSpec, receiver: bool, given: ArgSet): (f: Figures)
    ensures f.maximum.Some? <==> spec.varargs.None? && spec.varkw.None?
    ensures f.totalPositional == |given.kargs| + |Filter(Keys(given.kwargs), a => a in spec.args)|
  {
    var argsLen := |spec.args| - (if receiver then 1 else 0);
    var d := spec.numDefaults;
    var minimum0 := argsLen - d;
    var maximum := if spec.varargs.None? && spec.varkw.None? then Some(argsLen) else None;
    var kwNames := Keys(given.kwargs);
    var tp := |given.kargs| + |Filter(kwNames, a => a in spec.args)|;
    var namedOptionals := if d > 0 then Filter(kwNames, a => a in DefaultedParams(spec)) else [];
    var minimum := if d > 0 && tp == minimum0 && |namedOptionals| > 0 then minimum0 + |namedOptionals| else minimum0;
    Figures(argsLen, minimum, maximum, tp)
  }

  /** The keyword-only parameters without defaults that the call leaves out, in declaration order. */
  function MissingKeywordOnlyArgs(spec: ArgSpec, given: ArgSet): (missing: seq<string>)
    ensures forall a :: a in missing <==>
              a in spec.kwonlyargs && a !in spec.kwonlyDefaults && a !in Keys(given.kwargs)
  {
    var kwNames := Keys(given.kwargs);
    Filter(spec.kwonlyargs, a => a !in spec.kwonlyDefaults && a !in kwNames)
  }

  /** The call's keywords that name a positional parameter, in the call's order. */
  function RepeatedKeywords(spec: ArgSpec, given: ArgSet): (r: seq<string>)
    ensures forall a :: a in r <==> a in Keys(given.kwargs) && a in spec.args
  {
    Filter(Keys(given.kwargs), a => a in spec.args)
  }

  /** The call's keywords that name no parameter at all, in the call's order. */
  function InvalidKeywords(spec: ArgSpec, given: ArgSet): (r: seq<string>)
    ensures forall a :: a in r <==> a in Keys(given.kwargs) && a !in spec.args + spec.kwonlyargs
  {
    Filter(Keys(given.kwargs), a => a !in spec.args + spec.kwonlyargs)
  }

  /** Some keyword of the call, a non-empty name, names a positional parameter. */
  predicate RepeatsParameter(spec: ArgSpec, given: ArgSet)
  {
    exists a :: a in Keys(given.kwargs) && a != "" && a in spec.args
  }

  /** Some keyword of the call, a non-empty name, names no parameter. */
  predicate UnknownKeyword(spec: ArgSpec, given: ArgSet)
  {
    exists a :: a in Keys(given.kwargs) && a != "" && a !in spec.args + spec.kwonlyargs
  }

  /**
   * `_verify_signature_match`, checking in the source's order: too few,
   * too many, keywords repeating positionals, unknown keywords, missing
   * keyword-only parameters. `strict` selects the corrected duplicate rule
   * (see `VerifySignatureMatchStrict`).
   */
  function Check(rev: Revision, name: string, spec: ArgSpec, receiver: bool, onFake: bool,
                 given: ArgSet, strict: bool): Result<()>
  {
    if onFake then Ok(())
    else
      var f := ComputeFigures(spec, receiver, given);
      var kwNames := Keys(given.kwargs);
      var repeated := RepeatedKeywords(spec, given);
      var invalid := InvalidKeywords(spec, given);
      var missing := MissingKeywordOnlyArgs(spec, given);
      var twice := Filter(kwNames, a => a in FilledByPosition(spec, receiver, |given.kargs|));
      if f.totalPositional < f.minimum then Err(TooFew(rev, name, f.minimum, f.totalPositional))
      else if f.maximum.Some? && f.totalPositional > f.maximum.value then
        Err(TooMany(rev, name, f.maximum.value, f.totalPositional))
      else if f.argsLen == |given.kargs| && AnyTruthy(repeated) then Err(AlreadyGiven(rev, name, repeated))
      else if strict && twice != [] then Err(AlreadyGiven(rev, name, twice))
      else if spec.varkw.None? && AnyTruthy(invalid) then Err(NotAKeyword(name, invalid[0]))
      else if missing != [] then Err(MissingKeywordOnly(rev, name, missing))
      else Ok(())
  }

  /** The signature check as each revision writes it. */
  function VerifySignatureMatch(rev: Revision, name: string, spec: ArgSpec, receiver: bool, onFake: bool,
                                given: ArgSet): (r: Result<()>)
    ensures onFake ==> r.Ok?
    ensures r.Err? ==> r.error.Flex? && r.error.kind == MethodSignatureError
    ensures !onFake && ComputeFigures(spec, receiver, given).totalPositional < ComputeFigures(spec, receiver, given).minimum ==>
              r == Err(TooFew(rev, name, ComputeFigures(spec, receiver, given).minimum, ComputeFigures(spec, receiver, given).totalPositional))
    ensures !onFake && MissingKeywordOnlyArgs(spec, given) != [] ==> r.Err?
    ensures !onFake && spec.varkw.None? && UnknownKeyword(spec, given) ==> r.Err?
    ensures var f := ComputeFigures(spec, receiver, given);
            !onFake && f.totalPositional >= f.minimum && f.maximum.Some? && f.totalPositional > f.maximum.value ==>
              r == Err(TooMany(rev, name, f.maximum.value, f.totalPositional))
    ensures var f := ComputeFigures(spec, receiver, given);
            !onFake && f.totalPositional >= f.minimum && !(f.maximum.Some? && f.totalPositional > f.maximum.value) &&
            f.argsLen == |given.kargs| && RepeatsParameter(spec, given) ==>
              r == Err(AlreadyGiven(rev, name, RepeatedKeywords(spec, given)))
    ensures var f := ComputeFigures(spec, receiver, given);
            r.Ok? <==> onFake ||
                       (f.totalPositional >= f.minimum &&
                        !(f.maximum.Some? && f.totalPositional > f.maximum.value) &&
                        !(f.argsLen == |given.kargs| && RepeatsParameter(spec, given)) &&
                        !(spec.varkw.None? && UnknownKeyword(spec, given)) &&
                        MissingKeywordOnlyArgs(spec, given) == [])
  {
    InvalidKeywordIsTruthy(spec, given);
    RepeatedKeywordIsTruthy(spec, given);
    Check(rev, name, spec, receiver, onFake, given, false)
  }

  /** `any(...)` over the unknown keywords holds exactly when a non-empty one exists. */
  lemma InvalidKeywordIsTruthy(spec: ArgSpec, given: ArgSet)
    ensures UnknownKeyword(spec, given) <==> AnyTruthy(InvalidKeywords(spec, given))
  {
    var invalid := InvalidKeywords(spec, given);
    if UnknownKeyword(spec, given) {
      var a :| a in Keys(given.kwargs) && a != "" && a !in spec.args + spec.kwonlyargs;
      assert a in invalid;
      var i :| 0 <= i < |invalid| && invalid[i] == a;
    }
    if AnyTruthy(invalid) {
      var i :| 0 <= i < |invalid| && invalid[i] != "";
      assert invalid[i] in invalid;
    }
  }

  /** `any(...)` over the repeated keywords holds exactly when a non-empty one exists. */
  lemma RepeatedKeywordIsTruthy(spec: ArgSpec, given: ArgSet)
    ensures RepeatsParameter(spec, given) <==> AnyTruthy(RepeatedKeywords(spec, given))
  {
    var repeated := RepeatedKeywords(spec, given);
    if RepeatsParameter(spec, given) {
      var a :| a in Keys(given.kwargs) && a != "" && a in spec.args;
      assert a in repeated;
      var i :| 0 <= i < |repeated| && repeated[i] == a;
    }
    if AnyTruthy(repeated) {
      var i :| 0 <= i < |repeated| && repeated[i] != "";
      assert repeated[i] in repeated;
    }
  }

  /**
   * The corrected check: a keyword that names a parameter a positional
   * argument already fills is refused however many positionals there are.
   */
  function VerifySignatureMatchStrict(rev: Revision, name: string, spec: ArgSpec, receiver: bool, onFake: bool,
                                      given: ArgSet): (r: Result<()>)
    ensures onFake ==> r.Ok?
    ensures r.Err? ==> r.error.Flex? && r.error.kind == MethodSignatureError
    ensures !onFake && (exists a :: a in Keys(given.kwargs) && a in FilledByPosition(spec, receiver, |given.kargs|)) ==> r.Err?
    ensures r.Ok? ==> VerifySignatureMatch(rev, name, spec, receiver, onFake, given).Ok?
  {
    Check(rev, name, spec, receiver, onFake, given, true)
  }

  /**
   * The two checks differ only where a keyword repeats a positionally
   * filled parameter.
   */
  lemma StrictAgreesWithoutRepeats(rev: Revision, name: string, spec: ArgSpec, receiver: bool, onFake: bool, given: ArgSet)
    requires forall a :: a in Keys(given.kwargs) ==> a !in FilledByPosition(spec, receiver, |given.kargs|)
    ensures VerifySignatureMatchStrict(rev, name, spec, receiver, onFake, given) ==
            VerifySignatureMatch(rev, name, spec, receiver, onFake, given)
  {
    FilterNone(Keys(given.kwargs), a => a in FilledByPosition(spec, receiver, |given.kargs|));
  }

  lemma {:induction false} FilterNone(xs: seq<string>, p: string -> bool)
    requires forall x :: x in xs ==> !p(x)
    ensures Filter(xs, p) == []
  {
    if xs != [] {
      FilterNone(xs[1..], p);
    }
  }

  /**
   * As written, `with_args(1, a=5)` against `method(self, a, b)` passes the
   * check although the keyword repeats the parameter the positional fills;
   * the corrected check refuses it.
   */
  lemma RepeatedKeywordSlipsThrough()
    ensures var spec := ArgSpec(["self", "a", "b"], None, None, 0, [], {});
            var given := ArgSet([Int(1)], [("a", Int(5))]);
            VerifySignatureMatch(Current, "method", spec, true, false, given).Ok? &&
            VerifySignatureMatchStrict(Current, "method", spec, true, false, given).Err?
  {
    var spec := ArgSpec(["self", "a", "b"], None, None, 0, [], {});
    var given := ArgSet([Int(1)], [("a", Int(5))]);
    assert Keys(given.kwargs) == ["a"];
    assert FilledByPosition(spec, true, 1) == ["a"];
    assert RepeatedKeywords(spec, given) == ["a"];
    assert ComputeFigures(spec, true, given) == Figures(2, 2, Some(2), 2);
    assert InvalidKeywords(spec, given) == [];
    assert MissingKeywordOnlyArgs(spec, given) == [];
  }

  /** Three positionals against `m(self, a)` on an instance are one too many for a single parameter. */
  lemma TooManyPositionals()
    ensures var spec := ArgSpec(["self", "a"], None, None, 0, [], {});
            VerifySignatureMatch(Current, "m", spec, true, false, ArgSet([Int(1), Int(2), Int(3)], [])) ==
              Err(TooMany(Current, "m", 1, 3))
  {
    var spec := ArgSpec(["self", "a"], None, None, 0, [], {});
    var given := ArgSet([Int(1), Int(2), Int(3)], []);
    assert Keys(given.kwargs) == [];
    assert ComputeFigures(spec, true, given) == Figures(1, 1, Some(1), 3);
  }

  /** The messages the library's examples pin down. */
  lemma TooFewMessages()
    ensures TooFew(Current, "method1", 1, 0).message == "method1 requires at least 1 argument, expectation provided 0"
    ensures TooFew(Earlier, "method1", 1, 0).message == "method1 requires at least 1 arguments, expectation provided 0"
  {
    SmallNumerals();
    assert Plural(Current, 1) == "argument" && Plural(Earlier, 1) == "arguments";
    TooFewWording("argument");
    TooFewWording("arguments");
    TooFewLiterals();
  }

  lemma TooFewWording(noun: string)
    ensures "method1" + " requires at least " + IntToString(1) + " " + noun + ", expectation provided " + IntToString(0)
            == "method1 requires at least 1 " + noun + ", expectation provided 0"
  {
    SmallNumerals();
    assert "method1" + " requires at least " + "1" + " " == "method1 requires at least 1 ";
  }

  lemma TooFewLiterals()
    ensures "method1 requires at least 1 " + "argument" + ", expectation provided 0"
            == "method1 requires at least 1 argument, expectation provided 0"
    ensures "method1 requires at least 1 " + "arguments" + ", expectation provided 0"
            == "method1 requires at least 1 arguments, expectation provided 0"
  {
    assert "method1 requires at least 1 " + "argument" == "method1 requires at least 1 argument";
    assert "method1 requires at least 1 " + "arguments" == "method1 requires at least 1 arguments";
  }

  /** An unknown keyword, as the library's examples show it. */
  lemma NotAKeywordMessage()
    ensures NotAKeyword("method", "d").message == "d is not a valid keyword argument to method"
  {
    assert "d" + " is not a valid keyword argument to " == "d is not a valid keyword argument to ";
    assert "d is not a valid keyword argument to " + "method" == "d is not a valid keyword argument to method";
  }

  /** A keyword repeating a positional, as the library's examples show it. */
  lemma AlreadyGivenMessage()
    ensures AlreadyGiven(Current, "method", ["arg3"]).message == "['arg3'] already given as positional argument to method"
  {
    ListReprSingle("arg3");
    assert "['" + "arg3" == "['arg3";
    assert "['arg3" + "']" == "['arg3']";
    assert ListRepr(["arg3"]) == "['arg3']";
    assert Plural(Current, |["arg3"]|) == "argument";
    assert "['arg3']" + " already given as positional " == "['arg3'] already given as positional ";
    assert "['arg3'] already given as positional " + "argument" == "['arg3'] already given as positional argument";
    assert "['arg3'] already given as positional argument" + " to " == "['arg3'] already given as positional argument to ";
    assert "['arg3'] already given as positional argument to " + "method"
        == "['arg3'] already given as positional argument to method";
  }

  /**
   * A keyword naming a defaulted parameter raises the minimum when it is
   * what brings the count to the bare minimum: `with_args(1, arg3=2)`
   * against `method(self, arg1, arg2, arg3=1)` needs three arguments.
   */
  lemma NamedOptionalRaisesMinimum()
    ensures var spec := ArgSpec(["self", "arg1", "arg2", "arg3"], None, None, 1, [], {});
            var given := ArgSet([Int(1)], [("arg3", Int(2))]);
            VerifySignatureMatch(Current, "method", spec, true, false, given) == Err(TooFew(Current, "method", 3, 2))
  {
    var spec := ArgSpec(["self", "arg1", "arg2", "arg3"], None, None, 1, [], {});
    var given := ArgSet([Int(1)], [("arg3", Int(2))]);
    assert Keys(given.kwargs) == ["arg3"];
    assert DefaultedParams(spec) == ["arg3"];
    assert Filter(["arg3"], a => a in spec.args) == ["arg3"];
    assert Filter(["arg3"], a => a in DefaultedParams(spec)) == ["arg3"];
  }
}
