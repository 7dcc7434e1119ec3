/**
 * What happens when a mocked method is called: `mock_method` looks the
 * call up, `_handle_matched_expectation` checks the guard, counts the call
 * and produces the outcome, and a spy (`pass_thru`) runs the original and
 * checks what it returned or raised against the configured results.
 */
module Dispatch {
  import opened Values
  import opened Errors
  import opened Text
  import opened CallCount
  import opened ResultQueue
  import opened Matcher
  import opened Signature
  import opened Namespace
  import opened Expectations
  import opened Registry

  /** What running host code did: returned a value or raised an exception (class and message). */
  datatype Outcome = Returned(value: Value) | Raised(cls: string, message: string)

  /**
   * The host code the engine calls into: a guard's answer and its source
   * text, calling a replacement or an original, `str()` of an exception
   * built from `and_raise` arguments (or the error building it raises), and
   * the direct base classes of an exception class.
   */
  datatype Host = Host(
    oracle: Oracle,
    runnable: Value -> bool,
    describe: Value -> string,
    call: (Value, ArgSet) -> Outcome,
    construct: (Raisable, ArgSet) -> Result<string>,
    bases: string -> seq<string>)

  /** The engine's state: the registry, and the objects it patches. */
  datatype Session = Session(c: Container, w: World)

  /** A call's effect on the session and what the caller gets back. */
  datatype Answer = Answer(s: Session, result: Result<Value>)

  /** A host call's outcome as the caller sees it. */
  function Run(o: Outcome): (r: Result<Value>)
    ensures o.Returned? ==> r == Ok(o.value)
    ensures o.Raised? ==> r == Err(Foreign(o.cls, o.message))
  {
    match o
    case Returned(v) => Ok(v)
    case Raised(cls, m) => Err(Foreign(cls, m))
  }

  // ---------------------------------------------------------------- resetting

  /** `_reset` of one expectation: fake objects are never touched; real ones get their attribute back. */
  function ResetExpectation(w: World, e: Expectation): (w2: World)
    ensures w2.Keys == w.Keys
    ensures e.target.FakeMock? || e.original.None? || !AttrTruthy(e.original.value) ==> w2 == w
    ensures e.target.RealObj? && e.target.obj in w ==> w2 == Restore(w, e.target.obj, e.name, e.original, e.localOverride)
    ensures forall o :: o in w && e.target != RealObj(o) ==> w2[o] == w[o]
  {
    match e.target
    case FakeMock(_) => w
    case RealObj(obj) => if obj in w then Restore(w, obj, e.name, e.original, e.localOverride) else w
  }

  /** Resetting a list of expectations touches nothing but their targets. */
  function ResetIds(w: World, c: Container, ids: seq<ExpId>): (w2: World)
    requires IdsIn(c, ids)
    ensures w2.Keys == w.Keys
    ensures forall o :: o in w && (forall k :: 0 <= k < |ids| ==> c.arena[ids[k]].target != RealObj(o)) ==> w2[o] == w[o]
    decreases |ids|
  {
    if ids == [] then w
    else
      assert forall k :: 1 <= k < |ids| ==> ids[1..][k - 1] == ids[k];
      ResetIds(ResetExpectation(w, c.arena[ids[0]]), c, ids[1..])
  }

  /** Whether a saved expectation of these proxies patches `o`. */
  predicate Patches(c: Container, entries: seq<Entry>, o: ObjId)
  {
    exists i, k :: 0 <= i < |entries| && 0 <= k < |entries[i].exps| &&
      entries[i].exps[k] < |c.arena| && c.arena[entries[i].exps[k]].target == RealObj(o)
  }

  /** An object no expectation of the first proxy patches, and none of the remaining ones. */
  lemma PatchesTail(c: Container, entries: seq<Entry>)
    requires entries != [] && IdsIn(c, entries[0].exps)
    ensures forall o :: !Patches(c, entries, o) ==>
              !Patches(c, entries[1..], o) &&
              forall k :: 0 <= k < |entries[0].exps| ==> c.arena[entries[0].exps[k]].target != RealObj(o)
  {
    forall o | !Patches(c, entries, o)
      ensures !Patches(c, entries[1..], o)
    {
      forall i, k | 0 <= i < |entries[1..]| && 0 <= k < |entries[1..][i].exps| && entries[1..][i].exps[k] < |c.arena|
        ensures c.arena[entries[1..][i].exps[k]].target != RealObj(o)
      {
        assert entries[1..][i] == entries[i + 1];
      }
    }
  }

  /**
   * Resetting every expectation of the registry, proxy by proxy in
   * registration order: an object none of them patches is left alone.
   */
  function ResetEntries(w: World, c: Container, entries: seq<Entry>): (w2: World)
    requires forall i :: 0 <= i < |entries| ==> IdsIn(c, entries[i].exps)
    ensures w2.Keys == w.Keys
    ensures forall o :: o in w && !Patches(c, entries, o) ==> w2[o] == w[o]
    decreases |entries|
  {
    if entries == [] then w
    else
      PatchesTail(c, entries);
      ResetEntries(ResetIds(w, c, entries[0].exps), c, entries[1..])
  }

  /** Fake objects only: nothing in the world changes when every expectation is on a fake object. */
  lemma {:induction false} ResetIdsOnFakes(w: World, c: Container, ids: seq<ExpId>)
    requires IdsIn(c, ids)
    requires forall k :: 0 <= k < |ids| ==> c.arena[ids[k]].target.FakeMock?
    ensures ResetIds(w, c, ids) == w
    decreases |ids|
  {
    if ids != [] {
      ResetIdsOnFakes(w, c, ids[1..]);
    }
  }

  // ---------------------------------------------------------------- builders on a registered expectation

  /** A builder call's effect on the session, and the error it raised, if any. */
  datatype Applied = Applied(s: Session, error: Option<Error>)

  /**
   * A builder's outcome applied to the stored expectation; a refusal made
   * through the reset-then-raise helper first restores what the
   * expectation patched.
   */
  function Apply(s: Session, id: ExpId, b: Built): (r: Applied)
    requires Valid(s.c) && id < |s.c.arena|
    ensures Valid(r.s.c)
    ensures b.Built? ==> r == Applied(s.(c := s.c.(arena := s.c.arena[id := b.e])), None)
    ensures b.Refused? ==> r.error == Some(b.error) && r.s.c == s.c
    ensures b.Refused? && !b.resetFirst ==> r.s == s
    ensures b.Refused? && b.resetFirst ==> r.s.w == ResetExpectation(s.w, s.c.arena[id])
  {
    match b
    case Built(e) => Applied(s.(c := s.c.(arena := s.c.arena[id := e])), None)
    case Refused(err, resetFirst) =>
      Applied(if resetFirst then s.(w := ResetExpectation(s.w, s.c.arena[id])) else s, Some(err))
  }

  /** `ordered()`: marks the expectation and appends it to the ordering queue. */
  function Ordered(s: Session, id: ExpId): (r: Applied)
    requires Valid(s.c) && id < |s.c.arena|
    ensures Valid(r.s.c)
    ensures r.error.None? <==> s.c.arena[id].callable
    ensures r.error.None? ==> r.s.c.objects == s.c.objects && |r.s.c.arena| == |s.c.arena|
    ensures r.error.None? ==> r.s.c.ordered == s.c.ordered + [id] && r.s.c.arena[id].ordered && r.s.w == s.w
  {
    var a := Apply(s, id, MarkOrdered(s.c.arena[id]));
    if a.error.Some? then a
    else Applied(a.s.(c := a.s.c.(ordered := a.s.c.ordered + [id])), None)
  }

  /**
   * `and_return` on a registered expectation: a method's values join its
   * result queue; on an attribute stub the packed value is written onto
   * the object through `_setattr`, whatever revision. A fake object's
   * namespace is outside the world, so a stub on one leaves the world as
   * it is.
   */
  function AndReturnOn(s: Session, id: ExpId, values: seq<Value>): (r: Applied)
    requires Valid(s.c) && id < |s.c.arena|
    ensures Valid(r.s.c) && r.error.None? && r.s.w.Keys == s.w.Keys
    ensures var e := s.c.arena[id];
            e.callable ==>
              r.s.w == s.w && r.s.c == s.c.(arena := s.c.arena[id := e.(results := ResultQueue.AndReturn(e.results, e.oneByOne, values))])
    ensures !s.c.arena[id].callable ==> r.s.c == s.c
    ensures var e := s.c.arena[id];
            !e.callable && e.target.RealObj? && e.target.obj in s.w ==>
              var o := e.target.obj;
              Resolve(r.s.w, o, e.name) == Some(Attr(DataAttr, PackValues(values))) &&
              r.s.w[o].kind == s.w[o].kind && r.s.w[o].dict == s.w[o].dict && r.s.w[o].mro == s.w[o].mro &&
              r.s.w[o].own - {e.name} == s.w[o].own - {e.name}
    ensures forall o :: o in s.w && s.c.arena[id].target != RealObj(o) ==> r.s.w[o] == s.w[o]
  {
    var e := s.c.arena[id];
    var a := Apply(s, id, Built(Expectations.AndReturn(e, values)));
    match StubValue(e, values)
    case None => a
    case Some(v) =>
      if e.target.RealObj? && e.target.obj in s.w then
        Applied(a.s.(w := Setattr(Current, s.w, e.target.obj, e.name, Attr(DataAttr, v)).world), None)
      else a
  }

  /**
   * Resetting a stub after `and_return` wrote its value undoes the write:
   * the kept original is back, or the name a local override introduced is
   * gone again; the object's other names are as before.
   */
  lemma StubValueUndoneByReset(s: Session, id: ExpId, values: seq<Value>)
    requires Valid(s.c) && id < |s.c.arena|
    requires var e := s.c.arena[id];
             !e.callable && e.target.RealObj? && e.target.obj in s.w && e.original.Some? && AttrTruthy(e.original.value)
    ensures var e := s.c.arena[id];
            var o := e.target.obj;
            var back := ResetExpectation(AndReturnOn(s, id, values).s.w, e);
            back.Keys == s.w.Keys && back[o].own - {e.name} == s.w[o].own - {e.name} &&
            (!e.localOverride || s.w[o].dict == NoDict ==> Resolve(back, o, e.name) == e.original) &&
            (e.localOverride && s.w[o].dict != NoDict ==> e.name !in back[o].own)
  {
    var e := s.c.arena[id];
    var o := e.target.obj;
    var w1 := AndReturnOn(s, id, values).s.w;
    assert w1 == PySetattr(s.w, o, e.name, Attr(DataAttr, PackValues(values)));
    assert e.name in w1[o].own;
  }

  // ---------------------------------------------------------------- the spy

  /** `__name__` of a class given by qualified name: the part after the last dot. */
  function ShortName(cls: string): (r: string)
    ensures |r| <= |cls| && EndsWith(cls, r)
    ensures '.' !in r
  {
    if cls == [] then []
    else if cls[|cls| - 1] == '.' then
      assert cls[|cls| - 0..] == [];
      []
    else
      var r := ShortName(cls[..|cls| - 1]) + [cls[|cls| - 1]];
      assert cls == cls[..|cls| - 1] + [cls[|cls| - 1]];
      r
  }

  /** The arguments the kept original is called with: a class's ordinary method also gets the runtime receiver. */
  function OriginalArgs(w: World, e: Expectation, runtimeSelf: Value, given: ArgSet): (a: ArgSet)
    ensures a.kwargs == given.kwargs
    ensures a == given || a.kargs == [runtimeSelf] + given.kargs
  {
    if e.target.RealObj? && e.target.obj in w && w[e.target.obj].kind == ClassObj
       && e.methodType != Some(StaticMethodType) && e.methodType != Some(ClassMethodType)
    then ArgSet([runtimeSelf] + given.kargs, given.kwargs)
    else given
  }

  /** The MethodSignatureError text for a spied return value that does not match. */
  function ReturnMismatch(rev: Revision, name: string, expected: Value, returned: Value): string
  {
    if rev == Current then
      "Returned values for call " + name + " did not match expectation:\n  Expected:\t" + Repr(expected)
        + "\n  Returned:\t" + Repr(returned)
    else "expected to return " + StrOf(expected) + ", returned " + StrOf(returned)
  }

  /** The constructor arguments of a raising entry (every entry `and_raise` queues carries them). */
  function CtorArgsOf(p: Payload): (r: Result<ArgSet>)
    ensures p.CtorArgs? ==> r == Ok(p.args)
  {
    match p
    case CtorArgs(a) => Ok(a)
    case Val(_) => Err(Foreign("AssertionError", ""))
  }

  /** The message check once the exception's class was accepted; `expectedMessage` is `str()` of the configured exception. */
  function CheckMessage(rev: Revision, h: Host, cls: string, args: ArgSet, expectedMessage: string, message: string): (r: Result<Value>)
    ensures r.Ok? ==> r.value == PyNone
    ensures r.Err? ==> r.error.Flex? && r.error.kind == ExceptionMessageError
    ensures args.kargs != [] && args.kargs[0].PatternRef? ==> (r.Ok? <==> h.oracle.search(args.kargs[0].pattern, message))
    ensures (args.kargs == [] || !args.kargs[0].PatternRef?) ==>
              (r.Ok? <==> expectedMessage == "" || expectedMessage == message)
  {
    if args.kargs != [] && args.kargs[0].PatternRef? then
      var p := args.kargs[0].pattern;
      if h.oracle.search(p, message) then Ok(PyNone)
      else if rev == Current then
        Fail(ExceptionMessageError, "Error message mismatch with raised " + ShortName(cls) + ":\n  Expected pattern:\n\t/"
          + p + "/\n  Received message:\n\t'" + message + "'")
      else Fail(ExceptionMessageError, "expected /" + p + "/, raised \"" + message + "\"")
    else if expectedMessage != "" && expectedMessage != message then
      if rev == Current then
        Fail(ExceptionMessageError, "Error message mismatch with raised " + ShortName(cls) + ":\n  Expected message:\n\t'"
          + message + "'\n  Received message:\n\t'" + expectedMessage + "'")
      else Fail(ExceptionMessageError, "expected \"" + expectedMessage + "\", raised \"" + message + "\"")
    else Ok(PyNone)
  }

  /**
   * `_handle_exception_matching`: with no configured results, or a first
   * result that does not raise, the original's exception propagates.
   * Otherwise the raised class must be the configured one or one of its
   * direct subclasses, and the message must match; a compiled pattern as
   * the first constructor argument is searched in the message. An accepted
   * exception is swallowed: the call returns None. The current revision
   * builds the expected exception only for a class and rejects an instance
   * outright; the earlier ones build it (call it) first, whatever it is.
   */
  function MatchRaised(rev: Revision, h: Host, e: Expectation, raised: string, message: string): (r: Result<Value>)
    ensures e.results == [] || e.results[0].raises.None? ==> r == Err(Foreign(raised, message))
    ensures r.Ok? ==> r.value == PyNone
    ensures r.Ok? ==> e.results != [] && e.results[0].raises.Some? && e.results[0].raises.value.RaiseClass?
    ensures r.Ok? ==> var cls := e.results[0].raises.value.cls; cls == raised || cls in h.bases(raised)
  {
    if e.results == [] || e.results[0].raises.None? then Err(Foreign(raised, message))
    else
      var expected := e.results[0].raises.value;
      var args :- CtorArgsOf(e.results[0].value);
      if rev == Current then
        match expected
        case RaiseInstance(v) =>
          Fail(ExceptionClassError, "Raised exception for call " + e.name + " did not match expectation:\n  Expected:\t"
            + Repr(v) + "\n  Raised:\t" + Repr(ClassRef(raised)) + "\n\nDid you try to call and_raise with an instance?\n"
            + "Instead of and_raise(Exception(\"arg\")), try and_raise(Exception, \"arg\")")
        case RaiseClass(cls) =>
          var expectedMessage :- h.construct(expected, args);
          if cls != raised && cls !in h.bases(raised) then
            Fail(ExceptionClassError, "Raised exception for call " + e.name + " did not match expectation:\n  Expected:\t"
              + Repr(ClassRef(cls)) + "\n  Raised:\t" + Repr(ClassRef(raised)))
          else CheckMessage(rev, h, cls, args, expectedMessage, message)
      else
        var expectedMessage :- h.construct(expected, args);
        match expected
        case RaiseInstance(v) =>
          Fail(ExceptionClassError, "expected \"" + StrOf(v) + "\", raised \"" + Repr(ClassRef(raised)) + "\"")
        case RaiseClass(cls) =>
          if cls != raised && cls !in h.bases(raised) then
            Fail(ExceptionClassError, "expected " + Repr(ClassRef(cls)) + ", raised " + Repr(ClassRef(raised)))
          else CheckMessage(rev, h, cls, args, expectedMessage, message)
  }

  /**
   * A configured pattern decides by search alone: once the class is
   * accepted, the spied call passes exactly when the pattern finds a match
   * in the raised message.
   */
  lemma PatternDecidesMessage(rev: Revision, h: Host, e: Expectation, raised: string, message: string, p: string, rest: seq<Value>, kw: Kw)
    requires e.results != [] && e.results[0] == AndRaiseEntry(RaiseClass(raised), ArgSet([PatternRef(p)] + rest, kw))
    requires h.construct(RaiseClass(raised), ArgSet([PatternRef(p)] + rest, kw)).Ok?
    ensures MatchRaised(rev, h, e, raised, message).Ok? <==> h.oracle.search(p, message)
    ensures !h.oracle.search(p, message) ==>
              MatchRaised(rev, h, e, raised, message).Err? && MatchRaised(rev, h, e, raised, message).error.Flex? &&
              MatchRaised(rev, h, e, raised, message).error.kind == ExceptionMessageError
  {
  }

  /** One level of inheritance only: a grandchild of the configured class is rejected. */
  lemma DirectBasesOnly(rev: Revision, h: Host, e: Expectation, expected: string, raised: string, message: string, args: ArgSet)
    requires e.results != [] && e.results[0] == AndRaiseEntry(RaiseClass(expected), args)
    requires expected != raised && expected !in h.bases(raised)
    requires h.construct(RaiseClass(expected), args).Ok?
    ensures MatchRaised(rev, h, e, raised, message).Err?
    ensures MatchRaised(rev, h, e, raised, message).error.Flex?
    ensures MatchRaised(rev, h, e, raised, message).error.kind == ExceptionClassError
  {
  }

  /** The current revision rejects an exception instance given to `and_raise`, whatever was raised. */
  lemma InstanceNeverMatches(h: Host, e: Expectation, v: Value, raised: string, message: string, args: ArgSet)
    requires e.results != [] && e.results[0] == AndRaiseEntry(RaiseInstance(v), args)
    ensures MatchRaised(Current, h, e, raised, message).Err?
    ensures MatchRaised(Current, h, e, raised, message).error.Flex?
    ensures MatchRaised(Current, h, e, raised, message).error.kind == ExceptionClassError
  {
  }

  /**
   * `pass_thru`: runs the kept original. An exception goes through the
   * exception check; a returned value must match the first configured
   * result, when there is one, and is handed back.
   */
  function PassThru(rev: Revision, h: Host, w: World, e: Expectation, runtimeSelf: Value, given: ArgSet): (r: Result<Value>)
    ensures e.results == [] && e.original.Some? && h.call(e.original.value.value, OriginalArgs(w, e, runtimeSelf, given)).Returned? ==>
              r == Ok(h.call(e.original.value.value, OriginalArgs(w, e, runtimeSelf, given)).value)
    ensures r.Ok? && e.original.Some? && h.call(e.original.value.value, OriginalArgs(w, e, runtimeSelf, given)).Returned? ==>
              r.value == h.call(e.original.value.value, OriginalArgs(w, e, runtimeSelf, given)).value &&
              (e.results == [] || MatchReturnValues(h.oracle, PayloadValue(e.results[0].value), r.value) == Ok(true))
  {
    var outcome :=
      if e.original.None? then Raised("AttributeError", "'Expectation' object has no attribute '_original'")
      else h.call(e.original.value.value, OriginalArgs(w, e, runtimeSelf, given));
    match outcome
    case Raised(cls, message) => MatchRaised(rev, h, e, cls, message)
    case Returned(v) =>
      if e.results == [] then Ok(v)
      else
        var expected := PayloadValue(e.results[0].value);
        match MatchReturnValues(h.oracle, expected, v)
        case Err(err) => Err(err)
        case Ok(true) => Ok(v)
        case Ok(false) => Fail(MethodSignatureError, ReturnMismatch(rev, e.name, expected, v))
  }

  // ---------------------------------------------------------------- a matched call

  /** Storing a changed expectation keeps the registry well formed and touches nothing else. */
  lemma StoreKeepsValid(c: Container, id: ExpId, e: Expectation)
    requires Valid(c) && id < |c.arena|
    ensures Valid(c.(arena := c.arena[id := e]))
  {
    var c2 := c.(arena := c.arena[id := e]);
    forall i | 0 <= i < |c2.objects| ensures IdsIn(c2, c2.objects[i].exps) {
      assert IdsIn(c, c.objects[i].exps);
    }
  }

  /**
   * The outcome of a counted call whose count check passed: a spy runs the
   * original; otherwise a truthy replacement is called; otherwise the
   * queue's head is taken, moved to the back and delivered.
   */
  function Respond(rev: Revision, h: Host, s: Session, id: ExpId, runtimeSelf: Value, given: ArgSet): (r: Answer)
    requires Valid(s.c) && id < |s.c.arena|
    ensures Valid(r.s.c) && r.s.w == s.w && |r.s.c.arena| == |s.c.arena|
    ensures r.s.c.objects == s.c.objects && r.s.c.ordered == s.c.ordered && r.s.c.last == s.c.last
    ensures forall k :: 0 <= k < |s.c.arena| && k != id ==> r.s.c.arena[k] == s.c.arena[k]
    ensures r.s.c.arena[id] == s.c.arena[id].(results := r.s.c.arena[id].results)
    ensures var e := s.c.arena[id];
            e.passThru ==> r.result == PassThru(rev, h, s.w, e, runtimeSelf, given) && r.s == s
    ensures var e := s.c.arena[id];
            !e.passThru && e.replaceWith.Some? && Truthy(e.replaceWith.value) ==>
              r.result == Run(h.call(e.replaceWith.value, given)) && r.s == s
    ensures var e := s.c.arena[id];
            !e.passThru && !(e.replaceWith.Some? && Truthy(e.replaceWith.value)) ==>
              r.result == Deliver(h.construct, TakeNext(e.results).entry) && r.s.c.arena[id].results == TakeNext(e.results).rest
  {
    var e := s.c.arena[id];
    if e.passThru then Answer(s, PassThru(rev, h, s.w, e, runtimeSelf, given))
    else if e.replaceWith.Some? && Truthy(e.replaceWith.value) then Answer(s, Run(h.call(e.replaceWith.value, given)))
    else
      var t := TakeNext(e.results);
      StoreKeepsValid(s.c, id, e.(results := t.rest));
      Answer(s.(c := s.c.(arena := s.c.arena[id := e.(results := t.rest)])), Deliver(h.construct, t.entry))
  }

  /**
   * `_handle_matched_expectation`: a guard that says no raises StateError
   * and changes nothing. Otherwise the call is counted and the count
   * checked as not final; a failure resets the expectation and raises
   * MethodCallError, anything else goes on to the outcome.
   */
  function HandleMatched(rev: Revision, h: Host, s: Session, id: ExpId, runtimeSelf: Value, given: ArgSet): (r: Answer)
    requires Valid(s.c) && id < |s.c.arena|
    ensures Valid(r.s.c) && |r.s.c.arena| == |s.c.arena|
    ensures r.s.c.objects == s.c.objects && r.s.c.ordered == s.c.ordered && r.s.c.last == s.c.last
    ensures forall k :: 0 <= k < |s.c.arena| && k != id ==> r.s.c.arena[k] == s.c.arena[k]
    ensures var e := s.c.arena[id];
            e.guard.Some? && !h.runnable(e.guard.value) ==>
              r == Answer(s, Fail(StateError, e.name + " expected to be called when " + h.describe(e.guard.value) + " is True"))
    ensures var e := s.c.arena[id];
            !(e.guard.Some? && !h.runnable(e.guard.value)) ==>
              r.s.c.arena[id].timesCalled == e.timesCalled + 1 &&
              r.s.c.arena[id].verified == (e.verified || !Allows(e.count, e.timesCalled + 1, false))
    ensures var e := s.c.arena[id];
            var v := Verify(rev, e.(timesCalled := e.timesCalled + 1), false);
            !(e.guard.Some? && !h.runnable(e.guard.value)) && v.error.Some? ==>
              r.result == Err(v.error.value) && r.s.w == ResetExpectation(s.w, v.e)
    ensures var e := s.c.arena[id];
            var v := Verify(rev, e.(timesCalled := e.timesCalled + 1), false);
            !(e.guard.Some? && !h.runnable(e.guard.value)) && v.error.None? ==>
              r == Respond(rev, h, s.(c := s.c.(arena := s.c.arena[id := v.e])), id, runtimeSelf, given)
  {
    var e := s.c.arena[id];
    if e.guard.Some? && !h.runnable(e.guard.value) then
      Answer(s, Fail(StateError, e.name + " expected to be called when " + h.describe(e.guard.value) + " is True"))
    else Counted(rev, h, s, id, runtimeSelf, given)
  }

  /** A call the guard let through: counted, checked, then answered. */
  function Counted(rev: Revision, h: Host, s: Session, id: ExpId, runtimeSelf: Value, given: ArgSet): (r: Answer)
    requires Valid(s.c) && id < |s.c.arena|
    ensures Valid(r.s.c) && |r.s.c.arena| == |s.c.arena|
    ensures r.s.c.objects == s.c.objects && r.s.c.ordered == s.c.ordered && r.s.c.last == s.c.last
    ensures forall k :: 0 <= k < |s.c.arena| && k != id ==> r.s.c.arena[k] == s.c.arena[k]
    ensures var e := s.c.arena[id];
            r.s.c.arena[id].timesCalled == e.timesCalled + 1 &&
            r.s.c.arena[id].verified == (e.verified || !Allows(e.count, e.timesCalled + 1, false))
    ensures var e := s.c.arena[id];
            var v := Verify(rev, e.(timesCalled := e.timesCalled + 1), false);
            v.error.Some? ==> r.result == Err(v.error.value) && r.s.w == ResetExpectation(s.w, v.e)
    ensures var e := s.c.arena[id];
            var v := Verify(rev, e.(timesCalled := e.timesCalled + 1), false);
            v.error.None? ==> r == Respond(rev, h, s.(c := s.c.(arena := s.c.arena[id := v.e])), id, runtimeSelf, given)
  {
    var e := s.c.arena[id];
    var v := Verify(rev, e.(timesCalled := e.timesCalled + 1), false);
    StoreKeepsValid(s.c, id, v.e);
    var s1 := s.(c := s.c.(arena := s.c.arena[id := v.e]));
    if v.error.Some? then Answer(s1.(w := ResetExpectation(s1.w, v.e)), Err(v.error.value))
    else Respond(rev, h, s1, id, runtimeSelf, given)
  }

  /**
   * Under `times(n)`, after `n` calls the next one fails at once with
   * MethodCallError, and the expectation is marked as reported.
   */
  lemma OneCallTooMany(rev: Revision, h: Host, s: Session, id: ExpId, runtimeSelf: Value, given: ArgSet, n: nat)
    requires Valid(s.c) && id < |s.c.arena|
    requires var e := s.c.arena[id]; e.count.exactly == Some(n) && e.timesCalled == n && !e.verified
    requires var e := s.c.arena[id]; e.guard.None? || h.runnable(e.guard.value)
    ensures var r := HandleMatched(rev, h, s, id, runtimeSelf, given);
            r.result.Err? && r.result.error.Flex? && r.result.error.kind == MethodCallError && r.s.c.arena[id].verified
  {
  }

  /**
   * A pass-through expectation with nothing queued and no guard hands back
   * what the original returns, for every call its count allows.
   */
  lemma PassThruReturnsOriginal(rev: Revision, h: Host, s: Session, id: ExpId, runtimeSelf: Value, given: ArgSet)
    requires Valid(s.c) && id < |s.c.arena|
    requires var e := s.c.arena[id];
             e.passThru && e.results == [] && e.guard.None? && Allows(e.count, e.timesCalled + 1, false) && e.original.Some?
    requires var e := s.c.arena[id];
             h.call(e.original.value.value, OriginalArgs(s.w, e, runtimeSelf, given)).Returned?
    ensures var e := s.c.arena[id];
            var r := HandleMatched(rev, h, s, id, runtimeSelf, given);
            r.result == Ok(h.call(e.original.value.value, OriginalArgs(s.w, e, runtimeSelf, given)).value) &&
            r.s.w == s.w && r.s.c.arena[id] == e.(timesCalled := e.timesCalled + 1)
  {
    var e := s.c.arena[id];
    var e1 := e.(timesCalled := e.timesCalled + 1);
    var v := Verify(rev, e1, false);
    assert v.error.None? && v.e == e1;
    var s1 := s.(c := s.c.(arena := s.c.arena[id := e1]));
    assert HandleMatched(rev, h, s, id, runtimeSelf, given) == Respond(rev, h, s1, id, runtimeSelf, given);
    var args := OriginalArgs(s.w, e, runtimeSelf, given);
    assert OriginalArgs(s.w, e1, runtimeSelf, given) == args;
    assert PassThru(rev, h, s.w, e1, runtimeSelf, given) == Ok(h.call(e.original.value.value, args).value);
  }

  /**
   * Answering the calls of a stub configured with `times(n)` and the
   * result queue `q`. Before call `j + 1` (after `j` calls) the queue is
   * `q` rotated `j` times; while `j < n` the call delivers entry `j mod |q|`
   * and leaves the stub in the same shape one call further on, so the
   * lemma applies again; call `n + 1` fails with MethodCallError.
   */
  lemma CallsFollowQueue(rev: Revision, h: Host, s: Session, id: ExpId, runtimeSelf: Value, given: ArgSet,
                         q: seq<ReturnValue>, n: nat, j: nat)
    requires Valid(s.c) && id < |s.c.arena| && q != [] && j <= n
    requires var e := s.c.arena[id];
             e.guard.None? && !e.passThru && e.replaceWith.None? && e.count.exactly == Some(n) &&
             e.timesCalled == j && !e.verified && e.results == Rotated(q, j)
    ensures var r := HandleMatched(rev, h, s, id, runtimeSelf, given);
            j < n ==> r.result == Deliver(h.construct, q[j % |q|]) && r.s.w == s.w &&
                      r.s.c.arena[id] == s.c.arena[id].(timesCalled := j + 1, results := Rotated(q, j + 1))
    ensures var r := HandleMatched(rev, h, s, id, runtimeSelf, given);
            j == n ==> r.result.Err? && r.result.error.Flex? && r.result.error.kind == MethodCallError
  {
    TakeFromRotated(q, j);
  }

  // ---------------------------------------------------------------- the mocked method

  /** The MethodSignatureError text when no expectation matches; `tried` lists the same-named ones, most recent first. */
  function NoMatchMessage(rev: Revision, c: Container, name: string, given: ArgSet, tried: seq<ExpId>): string
    requires IdsIn(c, tried)
  {
    if rev == Current then
      "Arguments for call " + name + " did not match expectations:\n  Received call:\t" + FormatArgs(name, Some(given)) + "\n"
        + Join(seq(|tried|, k requires 0 <= k < |tried| =>
                 "  Expected call[" + IntToString(k + 1) + "]:\t" + FormatArgs(name, c.arena[tried[k]].args)), "\n")
    else
      FormatArgs(name, Some(given))
        + Join(seq(|tried|, k requires 0 <= k < |tried| =>
                 "\nDid not match expectation " + FormatArgs(name, c.arena[tried[k]].args)), "")
  }

  function Reversed(ids: seq<ExpId>): (r: seq<ExpId>)
    ensures |r| == |ids| && forall k :: 0 <= k < |ids| ==> r[k] == ids[|ids| - 1 - k]
  {
    if ids == [] then [] else Reversed(ids[1..]) + [ids[0]]
  }

  /**
   * `mock_method`: looks the call up; a matched expectation handles it.
   * Without a match, MethodSignatureError lists the same-named
   * expectations, most recent first; the earlier revisions first reset
   * every expectation in the registry.
   */
  function MockMethod(rev: Revision, h: Host, s: Session, proxy: ProxyId, name: string, runtimeSelf: Value, given: ArgSet)
    : (r: Answer)
    requires Valid(s.c)
    ensures Valid(r.s.c) && |r.s.c.arena| == |s.c.arena| && r.s.c.objects == s.c.objects
    ensures var l := GetFlexmockExpectation(rev, h.oracle, s.c, proxy, name, given);
            l.found.Err? ==> r == Answer(s.(c := l.c), Err(l.found.error))
    ensures var l := GetFlexmockExpectation(rev, h.oracle, s.c, proxy, name, given);
            l.found.Ok? && l.found.value.Some? ==> r == HandleMatched(rev, h, s.(c := l.c), l.found.value.value, runtimeSelf, given)
    ensures var l := GetFlexmockExpectation(rev, h.oracle, s.c, proxy, name, given);
            l.found == Ok(None) ==>
              r.s.c == s.c && r.result.Err? && r.result.error.Flex? && r.result.error.kind == MethodSignatureError &&
              r.result.error.message == NoMatchMessage(rev, s.c, name, given, Reversed(Named(s.c, ExpsOf(s.c, proxy), name))) &&
              (rev == Current ==> r.s.w == s.w) &&
              (rev != Current ==> r.s.w == ResetEntries(s.w, s.c, s.c.objects))
  {
    var l := GetFlexmockExpectation(rev, h.oracle, s.c, proxy, name, given);
    match l.found
    case Err(err) => Answer(s.(c := l.c), Err(err))
    case Ok(Some(id)) => HandleMatched(rev, h, s.(c := l.c), id, runtimeSelf, given)
    case Ok(None) =>
      var tried := Reversed(Named(s.c, ExpsOf(s.c, proxy), name));
      var message := NoMatchMessage(rev, s.c, name, given, tried);
      if rev == Current then Answer(s, Fail(MethodSignatureError, message))
      else Answer(s.(w := ResetEntries(s.w, s.c, s.c.objects)), Fail(MethodSignatureError, message))
  }

  /**
   * After teardown a fake object's methods are still installed: calling
   * one raises KeyError in the current revision, and in the earlier ones
   * reports a call that matches nothing.
   */
  lemma CallAfterTeardown(rev: Revision, h: Host, s: Session, proxy: ProxyId, name: string, runtimeSelf: Value, given: ArgSet)
    requires Valid(s.c) && s.c.objects == []
    ensures rev == Current ==> MockMethod(rev, h, s, proxy, name, runtimeSelf, given).result == Err(Foreign("KeyError", ""))
    ensures rev != Current ==>
              MockMethod(rev, h, s, proxy, name, runtimeSelf, given).result == Fail(MethodSignatureError, FormatArgs(name, Some(given)))
  {
    assert !Registered(s.c, proxy);
    assert ExpsOf(s.c, proxy) == [];
    assert Named(s.c, [], name) == [];
    if rev != Current {
      assert Join(seq(0, k requires 0 <= k < 0 => ""), "") == "";
    }
  }
}
