/**
 * One expectation: the record `should_receive` creates and the builder
 * calls (`with_args`, `and_return`, `times`, ...) that refine it.
 */
module Expectations {
  import opened Values
  import opened Errors
  import opened Text
  import opened CallCount
  import opened ResultQueue
  import opened Matcher
  import opened Signature
  import opened Namespace

  /** What an expectation's `_mock` is: one of the engine's fake objects, or a real object. */
  datatype Target = FakeMock(fake: nat) | RealObj(obj: ObjId)

  /**
   * What the host's `inspect` says about the kept original: its parameter
   * list and its kind (a bound method's first parameter is dropped when
   * arguments are normalised), with whether the patched object is a class
   * or a module, which the receiver rule of the signature check reads.
   */
  datatype SigInfo = SigInfo(spec: ArgSpec, kind: OrigKind, onClass: bool, onModule: bool)

  /** Whether `_verify_signature_match` of revision `rev` skips the first parameter as the implicit receiver. */
  function SigReceiver(rev: Revision, s: SigInfo, mt: Option<MethodType>): bool
  {
    ImplicitReceiver(rev, s.kind, mt, s.onClass, s.onModule, s.spec)
  }

  datatype Expectation = Expectation(
    name: string,
    target: Target,
    args: Option<ArgSet>,          // None until with_args: matches anything
    sig: Option<SigInfo>,          // None without a (truthy, inspectable) original
    original: Option<Attr>,        // `_original`, once captured
    methodType: Option<MethodType>,
    results: seq<ReturnValue>,
    replaceWith: Option<Value>,
    passThru: bool,
    count: Constraint,
    timesCalled: nat,
    guard: Option<Value>,          // `_runnable`; None is the default that always allows
    ordered: bool,
    oneByOne: bool,
    verified: bool,
    callable: bool,
    localOverride: bool)

  /**
   * `Expectation(mock, name, return_value, original, method_type)`: a
   * return value other than None becomes the first queued result.
   */
  function NewExpectation(target: Target, name: string, returnValue: Value, original: Option<Attr>,
                          methodType: Option<MethodType>, sig: Option<SigInfo>): (e: Expectation)
    ensures e.results == (if returnValue == PyNone then [] else [ReturnValue(Val(returnValue), None)])
    ensures e.count == Unconstrained && e.timesCalled == 0 && !e.verified && e.callable
    ensures e.args.None? && e.guard.None? && e.replaceWith.None? && !e.passThru && !e.ordered && !e.oneByOne
  {
    Expectation(name, target, None, sig, original, methodType,
      if returnValue == PyNone then [] else [ReturnValue(Val(returnValue), None)],
      None, false, Unconstrained, 0, None, false, false, false, true, false)
  }

  /**
   * The outcome of a builder call: the refined expectation, or an error.
   * `resetFirst` marks errors raised through the reset-then-raise helper,
   * which first restores what the expectation patched.
   */
  datatype Built = Built(e: Expectation) | Refused(error: Error, resetFirst: bool)

  function Raise(message: string): (b: Built)
    ensures b.Refused? && b.resetFirst && b.error == Flex(FlexmockError, message)
  {
    Refused(Flex(FlexmockError, message), true)
  }

  function StubOnly(what: string): string
  {
    "can't use " + what + "() with attribute stubs"
  }

  // ---------------------------------------------------------------- arguments

  /** The parameter names positionals are bound to: a bound method's first one is dropped. */
  function ParamNames(e: Expectation): Option<seq<string>>
  {
    match e.sig
    case None => None
    case Some(s) => Some(if s.kind == BoundMethod && s.spec.args != [] then s.spec.args[1..] else if s.kind == BoundMethod then [] else s.spec.args)
  }

  /** `_match_args`: the given arguments are normalised like the expected ones were. */
  function Matches(o: Oracle, e: Expectation, given: ArgSet): Result<bool>
  {
    MatchArgs(o, e.args, Normalize(ParamNames(e), given))
  }

  /**
   * `with_args`: refused on attribute stubs; with a signature the call is
   * checked against it and stored normalised, without one it is stored as
   * given. The signature check is the one the source runs, with the
   * receiver rule of the revision at hand.
   */
  function WithArgs(rev: Revision, e: Expectation, given: ArgSet): (b: Built)
    ensures !e.callable ==> b == Raise(StubOnly("with_args"))
    ensures e.callable && e.sig.None? ==> b == Built(e.(args := Some(given)))
    ensures b.Built? ==> b.e == e.(args := Some(Normalize(ParamNames(e), given)))
    ensures b.Refused? && e.callable ==> b.error.Flex? && b.error.kind == MethodSignatureError && !b.resetFirst
    ensures e.callable && e.sig.Some? ==>
              (b.Built? <==> VerifySignatureMatch(rev, e.name, e.sig.value.spec, SigReceiver(rev, e.sig.value, e.methodType),
                                                  e.target.FakeMock?, given).Ok?)
  {
    if !e.callable then Raise(StubOnly("with_args"))
    else if e.sig.None? then Built(e.(args := Some(given)))
    else
      var s := e.sig.value;
      match VerifySignatureMatch(rev, e.name, s.spec, SigReceiver(rev, s, e.methodType), e.target.FakeMock?, given)
      case Err(err) => Refused(err, false)
      case Ok(_) => Built(e.(args := Some(Normalize(ParamNames(e), given))))
  }

  /**
   * `with_args(1, a=5)` against `def method(self, a, b)` on an instance:
   * the signature check lets the repeated `a` through, and normalising
   * binds the positional `1` to `a` over the keyword's `5`.
   */
  lemma WithArgsRepeatedKeywordOverwritten()
    ensures var e := NewExpectation(RealObj(0), "method", PyNone, None, Some(OrdinaryType),
                                    Some(SigInfo(ArgSpec(["self", "a", "b"], None, None, 0, [], {}), BoundMethod, false, false)));
            WithArgs(Current, e, ArgSet([Int(1)], [("a", Int(5))])) == Built(e.(args := Some(ArgSet([], [("a", Int(1))]))))
  {
    var spec := ArgSpec(["self", "a", "b"], None, None, 0, [], {});
    var e := NewExpectation(RealObj(0), "method", PyNone, None, Some(OrdinaryType), Some(SigInfo(spec, BoundMethod, false, false)));
    var given := ArgSet([Int(1)], [("a", Int(5))]);
    assert SigReceiver(Current, e.sig.value, e.methodType);
    RepeatedKeywordSlipsThrough();
    assert ParamNames(e) == Some(["a", "b"]);
    assert Put([("a", Int(5))], "a", Int(1)) == [("a", Int(1))];
    assert Normalize(ParamNames(e), given) == ArgSet([], [("a", Int(1))]);
  }

  /**
   * Expected arguments stored by `with_args` match the same call later,
   * whatever the oracle says.
   */
  lemma WithArgsMatchesSameCall(rev: Revision, o: Oracle, e: Expectation, given: ArgSet)
    requires WithArgs(rev, e, given).Built? && DistinctKeys(given.kwargs)
    ensures Matches(o, WithArgs(rev, e, given).e, given) == Ok(true)
  {
    NormalizeKeepsDistinct(ParamNames(e), given);
    ArgsEqualReflexive(Normalize(ParamNames(e), given));
  }

  // ---------------------------------------------------------------- results

  /**
   * `and_return` on a method: the values join the result queue. On an
   * attribute stub the expectation is untouched; the value `StubValue`
   * gives is written onto the object (see `Dispatch.AndReturnOn`).
   */
  function AndReturn(e: Expectation, values: seq<Value>): (r: Expectation)
    ensures !e.callable ==> r == e
    ensures e.callable ==> r == e.(results := ResultQueue.AndReturn(e.results, e.oneByOne, values))
    ensures e.callable ==> |r.results| >= |e.results| && r.results[..|e.results|] == e.results
  {
    if !e.callable then e else e.(results := ResultQueue.AndReturn(e.results, e.oneByOne, values))
  }

  /** The value `and_return` writes onto the object when the expectation stubs an attribute. */
  function StubValue(e: Expectation, values: seq<Value>): (v: Option<Value>)
    ensures v.Some? <==> !e.callable
    ensures !e.callable ==> v == Some(PackValues(values))
    ensures v.Some? && |values| == 1 ==> v.value == values[0]
  {
    if e.callable then None else Some(PackValues(values))
  }

  /** `iter(args)`: a truthy object whose items are the arguments, told apart by `id`. */
  function Iterator(id: nat, args: seq<Value>): (it: Value)
    ensures Truthy(it) && Iterate(Val(it)) == Some(args)
  {
    Opaque(id, "<tuple_iterator object>", true, Some(args))
  }

  /**
   * `and_yield(*args)`: `and_return(iter(args))`. The iterator is queued as
   * one value, or, once `one_by_one` is on, split into its items.
   */
  function AndYield(e: Expectation, id: nat, args: seq<Value>): (b: Built)
    ensures !e.callable ==> b == Raise(StubOnly("and_yield"))
    ensures e.callable && !e.oneByOne ==> b == Built(e.(results := e.results + [ReturnValue(Val(Iterator(id, args)), None)]))
    ensures e.callable && e.oneByOne ==>
              b.Built? && b.e == e.(results := b.e.results) &&
              |b.e.results| == |e.results| + |args| && b.e.results[..|e.results|] == e.results &&
              forall k :: 0 <= k < |args| ==> b.e.results[|e.results| + k] == ReturnValue(Val(args[k]), None)
  {
    if !e.callable then Raise(StubOnly("and_yield")) else Built(AndReturn(e, [Iterator(id, args)]))
  }

  /**
   * `and_raise`: queues an exception. The current revision first tries to
   * build an exception class with the given arguments and refuses when
   * that fails; the earlier ones queue it unchecked.
   */
  function AndRaise(rev: Revision, e: Expectation, exception: Raisable, args: ArgSet, constructible: bool): (b: Built)
    ensures !e.callable ==> b == Raise(StubOnly("and_raise"))
    ensures e.callable && (rev != Current || exception.RaiseInstance? || constructible) ==>
              b == Built(e.(results := e.results + [AndRaiseEntry(exception, args)]))
    ensures e.callable && rev == Current && exception.RaiseClass? && !constructible ==>
              b == Raise("can't initialize " + Repr(ClassRef(exception.cls)) + " with the given arguments")
  {
    if !e.callable then Raise(StubOnly("and_raise"))
    else if rev == Current && exception.RaiseClass? && !constructible then
      Raise("can't initialize " + Repr(ClassRef(exception.cls)) + " with the given arguments")
    else Built(e.(results := e.results + [AndRaiseEntry(exception, args)]))
  }

  /** `one_by_one`: the first use splits iterable results into one per call; later uses do nothing. */
  function OneByOne(e: Expectation): (b: Built)
    ensures !e.callable ==> b == Raise(StubOnly("one_by_one"))
    ensures e.callable && e.oneByOne ==> b == Built(e)
    ensures e.callable && !e.oneByOne ==> b == Built(e.(oneByOne := true, results := SplitEntries(e.results)))
  {
    if !e.callable then Raise(StubOnly("one_by_one"))
    else if e.oneByOne then Built(e)
    else Built(e.(oneByOne := true, results := SplitEntries(e.results)))
  }

  /** Applying `one_by_one` twice is the same as applying it once. */
  lemma OneByOneIdempotent(e: Expectation)
    requires OneByOne(e).Built?
    ensures OneByOne(OneByOne(e).e) == OneByOne(e)
  {
  }

  /**
   * Values given before `one_by_one` end up queued exactly as if
   * `one_by_one` had come first.
   */
  lemma OneByOneCommutesWithAndReturn(e: Expectation, values: seq<Value>)
    requires e.callable && !e.oneByOne
    ensures OneByOne(AndReturn(e, values)) == Built(AndReturn(OneByOne(e).e, values))
  {
    AndReturnCommutesWithSplit(e.results, values);
  }

  /**
   * `replace_with`: refused on stubs and when a truthy replacement is
   * already set; a replacement equal to the kept original turns the
   * expectation into a pass-through spy.
   */
  function ReplaceWith(e: Expectation, f: Value): (b: Built)
    ensures !e.callable ==> b == Raise("can't use replace_with() with attribute/property stubs")
    ensures e.callable && e.replaceWith.Some? && Truthy(e.replaceWith.value) ==> b == Raise("replace_with cannot be specified twice")
    ensures b.Built? ==> b.e.replaceWith == Some(f)
    ensures b.Built? ==> (b.e.passThru <==> e.passThru || (e.original.Some? && e.original.value.value == f))
    ensures b.Built? ==> b.e == e.(replaceWith := Some(f), passThru := b.e.passThru)
  {
    if !e.callable then Raise("can't use replace_with() with attribute/property stubs")
    else if e.replaceWith.Some? && Truthy(e.replaceWith.value) then Raise("replace_with cannot be specified twice")
    else
      var passThru := e.passThru || (e.original.Some? && e.original.value.value == f);
      Built(e.(replaceWith := Some(f), passThru := passThru))
  }

  /** A second truthy replacement is always refused. */
  lemma ReplaceWithOnlyOnce(e: Expectation, f: Value, g: Value)
    requires ReplaceWith(e, f).Built? && Truthy(f)
    ensures ReplaceWith(ReplaceWith(e, f).e, g) == Raise("replace_with cannot be specified twice")
  {
  }

  /** `when`: refused on stubs and for a guard that is not callable. */
  function When(e: Expectation, guard: Value, isCallable: bool): (b: Built)
    ensures !e.callable ==> b == Raise(StubOnly("when"))
    ensures e.callable && !isCallable ==> b == Raise("when() parameter must be callable")
    ensures e.callable && isCallable ==> b == Built(e.(guard := Some(guard)))
  {
    if !e.callable then Raise(StubOnly("when"))
    else if !isCallable then Raise("when() parameter must be callable")
    else Built(e.(guard := Some(guard)))
  }

  /** `ordered`: marks the expectation; the caller also appends it to the ordering queue. */
  function MarkOrdered(e: Expectation): (b: Built)
    ensures !e.callable ==> b == Raise(StubOnly("ordered"))
    ensures e.callable ==> b == Built(e.(ordered := true))
  {
    if !e.callable then Raise(StubOnly("ordered")) else Built(e.(ordered := true))
  }

  // ---------------------------------------------------------------- counts

  /** `times(n)`: sets the slot the current modifier names; `once`, `twice`, `never` are 1, 2, 0. */
  function SetTimes(e: Expectation, n: int): (b: Built)
    ensures !e.callable ==> b == Raise(StubOnly("times"))
    ensures b.Built? ==> Slot(b.e.count, e.count.modifier) == Some(n) && b.e.timesCalled == e.timesCalled
    ensures b.Built? ==> forall m :: m != e.count.modifier ==> Slot(b.e.count, m) == Slot(e.count, m)
    ensures b.Built? ==> b.e == e.(count := b.e.count)
  {
    if !e.callable then Raise(StubOnly("times")) else Built(e.(count := Times(e.count, n)))
  }

  function Once(e: Expectation): Built { SetTimes(e, 1) }
  function Twice(e: Expectation): Built { SetTimes(e, 2) }
  function Never(e: Expectation): Built { SetTimes(e, 0) }

  /** `at_least()`, refused on stubs and in the cases the constraint machine refuses. */
  function AtLeast(e: Expectation): (b: Built)
    ensures !e.callable ==> b == Raise(StubOnly("at_least"))
    ensures e.callable ==> (b.Built? <==> AddAtLeast(e.count).Ok?)
    ensures b.Built? ==> b.e == e.(count := e.count.(modifier := CallCount.AtLeast))
    ensures b.Refused? ==> b.resetFirst && b.error.Flex? && b.error.kind == FlexmockError
  {
    if !e.callable then Raise(StubOnly("at_least"))
    else
      match AddAtLeast(e.count)
      case Ok(c) => Built(e.(count := c))
      case Err(err) => Refused(err, true)
  }

  /** `at_most()`, the mirror image of `at_least()`. */
  function AtMost(e: Expectation): (b: Built)
    ensures !e.callable ==> b == Raise(StubOnly("at_most"))
    ensures e.callable ==> (b.Built? <==> AddAtMost(e.count).Ok?)
    ensures b.Built? ==> b.e == e.(count := e.count.(modifier := CallCount.AtMost))
    ensures b.Refused? ==> b.resetFirst && b.error.Flex? && b.error.kind == FlexmockError
  {
    if !e.callable then Raise(StubOnly("at_most"))
    else
      match AddAtMost(e.count)
      case Ok(c) => Built(e.(count := c))
      case Err(err) => Refused(err, true)
  }

  /** The expectation after `_verify`, and the MethodCallError it raised, if any. */
  datatype Verified = Verified(e: Expectation, error: Option<Error>)

  /**
   * `_verify`: when the count breaks the constraint and nothing was
   * reported yet, marks the expectation reported and raises (resetting
   * first) MethodCallError naming the call, the constraint and the count.
   */
  function Verify(rev: Revision, e: Expectation, final: bool): (v: Verified)
    ensures v.error.Some? <==> !Allows(e.count, e.timesCalled, final) && !e.verified
    ensures v.error.Some? ==> v.error.value.Flex? && v.error.value.kind == MethodCallError
    ensures v.error.Some? ==> StartsWith(v.error.value.message, FormatArgs(e.name, e.args) + " expected to be called ")
    ensures v.e == e.(verified := e.verified || v.error.Some?)
  {
    var verdict := CheckCount(rev, e.count, e.timesCalled, final);
    CheckCountMeansAllows(rev, e.count, e.timesCalled, final);
    if verdict.failed && !e.verified then
      Verified(e.(verified := true),
        Some(Flex(MethodCallError, CountMessage(rev, FormatArgs(e.name, e.args), verdict.message, e.timesCalled))))
    else Verified(e, None)
  }

  /** An expectation reports a broken count at most once, whatever happens to its count later. */
  lemma VerifyReportsOnce(rev: Revision, e: Expectation, final: bool, more: nat, final2: bool)
    requires Verify(rev, e, final).error.Some?
    ensures var e2 := Verify(rev, e, final).e;
            Verify(rev, e2.(timesCalled := e2.timesCalled + more), final2).error.None?
  {
  }

  /** The count message the library's tests pin for `times(1)` never met. */
  lemma NeverCalledOnceMessage()
    ensures var e := NewExpectation(FakeMock(0), "method_foo", PyNone, None, None, None);
            Verify(Current, SetTimes(e, 1).e, true).error ==
              Some(Flex(MethodCallError, "method_foo()" + " expected to be called exactly 1 time, called 0 times"))
  {
    ExactlyOnceNeverCalled("method_foo()");
    assert FormatArgs("method_foo", None) == "method_foo()";
  }
}
