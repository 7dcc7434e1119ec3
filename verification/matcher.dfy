/**
 * Argument matching: how a received argument is compared with an expected
 * one (equality, class membership, regular-expression search), how
 * positional arguments are bound to parameter names before the comparison,
 * and how spied return values are compared.
 */
module Matcher {
  import opened Values
  import opened Errors

  /**
   * The host relations the matcher consults: `isinstance(arg, cls)` and
   * whether `re.compile(pattern).search(text)` finds a match.
   */
  datatype Oracle = Oracle(isInstance: (Value, string) -> bool, search: (string, string) -> bool)

  const SearchTypeError := Foreign("TypeError", "expected string or bytes-like object")

  /**
   * `_arguments_match`: equal values match; a class matches its instances;
   * a pattern matches a string it finds a match in. Searching anything but
   * a string raises TypeError.
   */
  function ArgumentsMatch(o: Oracle, arg: Value, expected: Value): (r: Result<bool>)
    ensures r.Err? <==> expected != arg && !(expected.ClassRef? && o.isInstance(arg, expected.cls))
                        && expected.PatternRef? && !arg.Str?
    ensures r.Err? ==> r.error == SearchTypeError
    ensures r == Ok(true) <==>
              expected == arg ||
              (expected.ClassRef? && o.isInstance(arg, expected.cls)) ||
              (expected.PatternRef? && arg.Str? && o.search(expected.pattern, arg.s))
  {
    if expected == arg then Ok(true)
    else if expected.ClassRef? && o.isInstance(arg, expected.cls) then Ok(true)
    else if expected.PatternRef? then
      if arg.Str? then Ok(o.search(expected.pattern, arg.s)) else Err(SearchTypeError)
    else Ok(false)
  }

  // ---------------------------------------------------------------- binding

  predicate DistinctNames(names: seq<string>)
  {
    forall i, j :: 0 <= i < j < |names| ==> names[i] != names[j]
  }

  /**
   * The loop of `_normalize_named_args` from position `i` on: each
   * positional argument is stored under its parameter's name; when the
   * parameters run out, the original positionals come back together with
   * the bindings made so far.
   */
  function BindPositionals(names: seq<string>, kargs: seq<Value>, i: nat, kw: Kw): (r: ArgSet)
    requires i <= |kargs|
    decreases |kargs| - i
  {
    if i == |kargs| then ArgSet([], kw)
    else if |names| <= i then ArgSet(kargs, kw)
    else BindPositionals(names, kargs, i + 1, Put(kw, names[i], kargs[i]))
  }

  /**
   * `_normalize_named_args`: without a signature the arguments stay as
   * given; with one, positionals are turned into keywords.
   */
  function Normalize(names: Option<seq<string>>, given: ArgSet): ArgSet
  {
    if names.None? then given else BindPositionals(names.value, given.kargs, 0, given.kwargs)
  }

  /** Binding positionals keeps a dictionary's keys distinct. */
  lemma {:induction false} BindKeepsDistinct(names: seq<string>, kargs: seq<Value>, i: nat, kw: Kw)
    requires i <= |kargs| && DistinctKeys(kw)
    ensures DistinctKeys(BindPositionals(names, kargs, i, kw).kwargs)
    decreases |kargs| - i
  {
    if i < |kargs| && i < |names| {
      PutKeepsDistinct(kw, names[i], kargs[i]);
      BindKeepsDistinct(names, kargs, i + 1, Put(kw, names[i], kargs[i]));
    }
  }

  lemma NormalizeKeepsDistinct(names: Option<seq<string>>, given: ArgSet)
    requires DistinctKeys(given.kwargs)
    ensures DistinctKeys(Normalize(names, given).kwargs)
  {
    if names.Some? {
      BindKeepsDistinct(names.value, given.kargs, 0, given.kwargs);
    }
  }

  /**
   * When every positional has a parameter, normalising leaves no
   * positionals and stores each under its parameter name.
   */
  lemma {:induction false} BindWithinSignature(names: seq<string>, kargs: seq<Value>, i: nat, kw: Kw)
    requires i <= |kargs| <= |names| && DistinctNames(names) && DistinctKeys(kw)
    requires forall j :: 0 <= j < i ==> Lookup(kw, names[j]) == Some(kargs[j])
    ensures var r := BindPositionals(names, kargs, i, kw);
            r.kargs == [] && DistinctKeys(r.kwargs) &&
            forall j :: 0 <= j < |kargs| ==> Lookup(r.kwargs, names[j]) == Some(kargs[j])
    decreases |kargs| - i
  {
    if i < |kargs| {
      var kw2 := Put(kw, names[i], kargs[i]);
      PutKeepsDistinct(kw, names[i], kargs[i]);
      LookupPutSame(kw, names[i], kargs[i]);
      forall j | 0 <= j < i
        ensures Lookup(kw2, names[j]) == Some(kargs[j])
      {
        LookupPutOther(kw, names[i], kargs[i], names[j]);
      }
      BindWithinSignature(names, kargs, i + 1, kw2);
    }
  }

  /** Normalising leaves the value of every keyword that names no bound parameter alone. */
  lemma {:induction false} BindKeepsOtherKeywords(names: seq<string>, kargs: seq<Value>, i: nat, kw: Kw, k: string)
    requires i <= |kargs|
    requires forall j :: i <= j < |kargs| && j < |names| ==> names[j] != k
    ensures Lookup(BindPositionals(names, kargs, i, kw).kwargs, k) == Lookup(kw, k)
    decreases |kargs| - i
  {
    if i < |kargs| && i < |names| {
      assert names[i] != k;
      var kw2 := Put(kw, names[i], kargs[i]);
      assert BindPositionals(names, kargs, i, kw) == BindPositionals(names, kargs, i + 1, kw2);
      LookupPutOther(kw, names[i], kargs[i], k);
      BindKeepsOtherKeywords(names, kargs, i + 1, kw2, k);
    }
  }

  /** Parameter names paired with values, in order: the keywords of a call made by name. */
  function Zip(names: seq<string>, vals: seq<Value>): (kw: Kw)
    requires |names| == |vals|
    ensures |kw| == |vals|
  {
    seq(|vals|, k requires 0 <= k < |vals| => (names[k], vals[k]))
  }

  /**
   * A call made with positionals is recorded exactly like the same call made
   * with keywords in parameter order: `f(1, 2)` becomes `f(a=1, b=2)`.
   */
  lemma {:induction false} PositionalCallBecomesKeywordCall(names: seq<string>, vals: seq<Value>, i: nat)
    requires DistinctNames(names) && i <= |vals| <= |names|
    ensures BindPositionals(names, vals, i, Zip(names[..i], vals[..i])) == ArgSet([], Zip(names[..|vals|], vals))
    decreases |vals| - i
  {
    if i == |vals| {
      assert vals[..i] == vals;
    } else {
      var kw := Zip(names[..i], vals[..i]);
      assert !HasKey(kw, names[i]) by {
        forall j | 0 <= j < |kw|
          ensures kw[j].0 != names[i]
        {
          assert kw[j].0 == names[j];
        }
      }
      assert Put(kw, names[i], vals[i]) == Zip(names[..i + 1], vals[..i + 1]);
      PositionalCallBecomesKeywordCall(names, vals, i + 1);
    }
  }

  /**
   * When there are more positionals than parameters, normalising gives the
   * positionals back unchanged, yet the keywords already carry a binding for
   * every parameter.
   */
  lemma {:induction false} BindBeyondSignature(names: seq<string>, kargs: seq<Value>, i: nat, kw: Kw)
    requires i <= |names| < |kargs| && DistinctNames(names) && DistinctKeys(kw)
    requires forall j :: 0 <= j < i ==> Lookup(kw, names[j]) == Some(kargs[j])
    ensures var r := BindPositionals(names, kargs, i, kw);
            r.kargs == kargs &&
            forall j :: 0 <= j < |names| ==> Lookup(r.kwargs, names[j]) == Some(kargs[j])
    decreases |kargs| - i
  {
    if i < |names| {
      var kw2 := Put(kw, names[i], kargs[i]);
      PutKeepsDistinct(kw, names[i], kargs[i]);
      LookupPutSame(kw, names[i], kargs[i]);
      forall j | 0 <= j < i
        ensures Lookup(kw2, names[j]) == Some(kargs[j])
      {
        LookupPutOther(kw, names[i], kargs[i], names[j]);
      }
      BindBeyondSignature(names, kargs, i + 1, kw2);
    }
  }

  // ---------------------------------------------------------------- matching

  /** Positional arguments compared pairwise from position `i`, stopping at the first mismatch or error. */
  function MatchPositional(o: Oracle, given: seq<Value>, expected: seq<Value>, i: nat): Result<bool>
    requires |given| == |expected| && i <= |given|
    decreases |given| - i
  {
    if i == |given| then Ok(true)
    else
      var m :- ArgumentsMatch(o, given[i], expected[i]);
      if !m then Ok(false) else MatchPositional(o, given, expected, i + 1)
  }

  /** Keyword arguments compared in the order the call gave them. */
  function MatchKeywords(o: Oracle, given: Kw, expected: Kw, i: nat): Result<bool>
    requires i <= |given|
    decreases |given| - i
  {
    if i == |given| then Ok(true)
    else
      match Lookup(expected, given[i].0)
      case None => Err(Foreign("KeyError", given[i].0))
      case Some(e) =>
        var m :- ArgumentsMatch(o, given[i].1, e);
        if !m then Ok(false) else MatchKeywords(o, given, expected, i + 1)
  }

  /** Same number of arguments and the same keyword names (`sorted(keys)` equal). */
  predicate SameShape(given: ArgSet, expected: ArgSet)
  {
    |given.kargs| == |expected.kargs| && |given.kwargs| == |expected.kwargs| &&
    multiset(Keys(given.kwargs)) == multiset(Keys(expected.kwargs))
  }

  /**
   * `_match_args` on already normalised arguments: no expectation or an
   * equal argument set matches; a different shape does not; otherwise every
   * pair must match.
   */
  function MatchArgs(o: Oracle, expected: Option<ArgSet>, given: ArgSet): (r: Result<bool>)
    ensures expected.None? ==> r == Ok(true)
    ensures expected.Some? && ArgsEqual(expected.value, given) ==> r == Ok(true)
    ensures expected.Some? && !ArgsEqual(expected.value, given) && !SameShape(given, expected.value) ==> r == Ok(false)
  {
    if expected.None? || ArgsEqual(expected.value, given) then Ok(true)
    else
      var e := expected.value;
      if !SameShape(given, e) then Ok(false)
      else
        var p :- MatchPositional(o, given.kargs, e.kargs, 0);
        if !p then Ok(false) else MatchKeywords(o, given.kwargs, e.kwargs, 0)
  }

  /** Pairwise matching succeeds exactly when every pair matches. */
  lemma {:induction false} MatchPositionalAll(o: Oracle, given: seq<Value>, expected: seq<Value>, i: nat)
    requires |given| == |expected| && i <= |given|
    ensures MatchPositional(o, given, expected, i) == Ok(true) <==>
            forall j :: i <= j < |given| ==> ArgumentsMatch(o, given[j], expected[j]) == Ok(true)
    decreases |given| - i
  {
    if i < |given| {
      MatchPositionalAll(o, given, expected, i + 1);
    }
  }

  /** Every keyword the call gave is expected, and its value matches the expected one. */
  predicate KeywordsAllMatch(o: Oracle, given: Kw, expected: Kw, i: nat)
  {
    forall j :: i <= j < |given| ==>
      Lookup(expected, given[j].0).Some? &&
      ArgumentsMatch(o, given[j].1, Lookup(expected, given[j].0).value) == Ok(true)
  }

  lemma {:induction false} MatchKeywordsAll(o: Oracle, given: Kw, expected: Kw, i: nat)
    requires i <= |given|
    ensures MatchKeywords(o, given, expected, i) == Ok(true) <==> KeywordsAllMatch(o, given, expected, i)
    decreases |given| - i
  {
    if i < |given| {
      MatchKeywordsAll(o, given, expected, i + 1);
    }
  }

  /**
   * `_match_args` in full: an expectation without arguments matches
   * everything; otherwise the call matches when the argument sets are equal,
   * or when they have the same shape and every positional and keyword pair
   * matches.
   */
  lemma MatchArgsMeaning(o: Oracle, expected: ArgSet, given: ArgSet)
    ensures MatchArgs(o, Some(expected), given) == Ok(true) <==>
            ArgsEqual(expected, given) ||
            (SameShape(given, expected) &&
             (forall j :: 0 <= j < |given.kargs| ==> ArgumentsMatch(o, given.kargs[j], expected.kargs[j]) == Ok(true)) &&
             KeywordsAllMatch(o, given.kwargs, expected.kwargs, 0))
  {
    if !ArgsEqual(expected, given) && SameShape(given, expected) {
      MatchPositionalAll(o, given.kargs, expected.kargs, 0);
      MatchKeywordsAll(o, given.kwargs, expected.kwargs, 0);
    }
  }

  /** Identical positionals always match, whatever the oracle says. */
  lemma IdenticalPositionalsMatch(o: Oracle, xs: seq<Value>)
    ensures MatchPositional(o, xs, xs, 0) == Ok(true)
  {
    MatchPositionalAll(o, xs, xs, 0);
  }

  // ---------------------------------------------------------------- return values

  /** A spied return value, seen as a tuple: a non-tuple becomes a 1-tuple. */
  function AsTuple(v: Value): seq<Value>
  {
    if v.Tuple? then v.items else [v]
  }

  /** `match_return_values`: tuple lengths must agree, then items match pairwise. */
  function MatchReturnValues(o: Oracle, expected: Value, received: Value): Result<bool>
  {
    var e := AsTuple(expected);
    var r := AsTuple(received);
    if |r| != |e| then Ok(false) else MatchPositional(o, r, e, 0)
  }

  /**
   * Return values are compared by the same rule as positional call
   * arguments, once both sides are seen as tuples.
   */
  lemma ReturnValuesMatchLikeArguments(o: Oracle, expected: Value, received: Value)
    ensures MatchReturnValues(o, expected, received) ==
            MatchArgs(o, Some(ArgSet(AsTuple(expected), [])), ArgSet(AsTuple(received), []))
  {
    var e := AsTuple(expected);
    var r := AsTuple(received);
    if ArgsEqual(ArgSet(e, []), ArgSet(r, [])) {
      IdenticalPositionalsMatch(o, r);
    } else if |r| == |e| {
      assert Keys([]) == [];
      assert SameShape(ArgSet(r, []), ArgSet(e, []));
      var p := MatchPositional(o, r, e, 0);
      if p.Ok? && p.value {
        assert MatchKeywords(o, [], [], 0) == Ok(true);
      }
    }
  }
}
