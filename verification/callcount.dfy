/**
 * The call-count constraint an expectation carries: an exact count, a
 * lower and an upper bound, and the modifier that decides which of the
 * three the next `times(n)` sets.
 */
module CallCount {
  import opened Values
  import opened Errors
  import opened Text

  datatype Modifier = Exactly | AtLeast | AtMost

  /** `_modifier` together with the three slots of `_expected_calls`. */
  datatype Constraint = Constraint(modifier: Modifier, exactly: Option<int>, atLeast: Option<int>, atMost: Option<int>)

  /** A fresh expectation: modifier "exactly", no count required. */
  const Unconstrained := Constraint(Exactly, None, None, None)

  function Slot(c: Constraint, m: Modifier): Option<int>
  {
    match m
    case Exactly => c.exactly
    case AtLeast => c.atLeast
    case AtMost => c.atMost
  }

  /** `times(n)`: stores `n` in the slot the current modifier names. */
  function Times(c: Constraint, n: int): (r: Constraint)
    ensures r.modifier == c.modifier
    ensures Slot(r, c.modifier) == Some(n)
    ensures forall m :: m != c.modifier ==> Slot(r, m) == Slot(c, m)
  {
    match c.modifier
    case Exactly => c.(exactly := Some(n))
    case AtLeast => c.(atLeast := Some(n))
    case AtMost => c.(atMost := Some(n))
  }

  /**
   * `at_least()`: refused when a lower bound is already set or pending, or
   * when a pending `at_most()` never received its count.
   */
  function AddAtLeast(c: Constraint): (r: Result<Constraint>)
    ensures r.Ok? ==> r.value == c.(modifier := AtLeast)
    ensures r.Err? ==> r.error.Flex? && r.error.kind == FlexmockError
    ensures r.Ok? <==> c.atLeast.None? && c.modifier != AtLeast && !(c.modifier == AtMost && c.atMost.None?)
  {
    if c.atLeast.Some? || c.modifier == AtLeast then
      Fail(FlexmockError, "cannot use at_least modifier twice")
    else if c.modifier == AtMost && c.atMost.None? then
      Fail(FlexmockError, "cannot use at_least with at_most unset")
    else
      Ok(c.(modifier := AtLeast))
  }

  /** `at_most()`: the mirror image of `at_least()`. */
  function AddAtMost(c: Constraint): (r: Result<Constraint>)
    ensures r.Ok? ==> r.value == c.(modifier := AtMost)
    ensures r.Err? ==> r.error.Flex? && r.error.kind == FlexmockError
    ensures r.Ok? <==> c.atMost.None? && c.modifier != AtMost && !(c.modifier == AtLeast && c.atLeast.None?)
  {
    if c.atMost.Some? || c.modifier == AtMost then
      Fail(FlexmockError, "cannot use at_most modifier twice")
    else if c.modifier == AtLeast && c.atLeast.None? then
      Fail(FlexmockError, "cannot use at_most with at_least unset")
    else
      Ok(c.(modifier := AtMost))
  }

  /** A modifier, once its count is given, cannot be chosen again. */
  lemma ModifierOnlyOnce(c: Constraint, n: int, m: int)
    requires AddAtLeast(c).Ok? || AddAtMost(c).Ok?
    ensures AddAtLeast(c).Ok? ==> AddAtLeast(Times(AddAtLeast(c).value, n)).Err?
    ensures AddAtMost(c).Ok? ==> AddAtMost(Times(AddAtMost(c).value, m)).Err?
  {
  }

  /** The count phrase, with " time"/" times" after each number in the current revision. */
  function CountPhrase(rev: Revision, what: string, n: int): string
  {
    what + IntToString(n) + (if rev != Current then "" else if n == 1 then " time" else " times")
  }

  /** Whether a count breaks the constraint, and the phrase describing the constraint. */
  datatype Verdict = Verdict(failed: bool, message: string)

  /**
   * `_verify_number_of_calls`: whether `t` calls break the constraint, and
   * the phrase describing it. When not final (a call is in progress), the
   * lower bound is not checked yet.
   */
  function CheckCount(rev: Revision, c: Constraint, t: int, final: bool): Verdict
  {
    if c.exactly.Some? then
      var n := c.exactly.value;
      Verdict(if final then t != n else t > n, CountPhrase(rev, "exactly ", n))
    else
      var (f1, m1) :=
        if final && c.atLeast.Some? then (t < c.atLeast.value, CountPhrase(rev, "at least ", c.atLeast.value))
        else (false, "");
      if c.atMost.Some? then
        Verdict(f1 || t > c.atMost.value, (if m1 != "" then m1 + " and " else "") + CountPhrase(rev, "at most ", c.atMost.value))
      else Verdict(f1, m1)
  }

  /**
   * What the count constraint means, stated independently: an exact count
   * overrides both bounds; otherwise the upper bound is enforced on every
   * call and the lower bound only at the end.
   */
  predicate Allows(c: Constraint, t: int, final: bool)
  {
    match c.exactly
    case Some(n) => if final then t == n else t <= n
    case None =>
      (final && c.atLeast.Some? ==> c.atLeast.value <= t) &&
      (c.atMost.Some? ==> t <= c.atMost.value)
  }

  /** The check fails exactly when the count breaks the constraint, in every revision. */
  lemma CheckCountMeansAllows(rev: Revision, c: Constraint, t: int, final: bool)
    ensures CheckCount(rev, c, t, final).failed <==> !Allows(c, t, final)
  {
  }

  /** The revisions differ only in the wording, never in the verdict. */
  lemma CheckCountVerdictSameInAllRevisions(c: Constraint, t: int, final: bool)
    ensures CheckCount(Current, c, t, final).failed == CheckCount(Earlier, c, t, final).failed
    ensures CheckCount(Earlier, c, t, final).failed == CheckCount(Oldest, c, t, final).failed
  {
  }

  /** A call in progress that breaks the constraint also breaks it at the end. */
  lemma InterimFailureIsFinal(rev: Revision, c: Constraint, t: int)
    ensures CheckCount(rev, c, t, false).failed ==> CheckCount(rev, c, t, true).failed
  {
  }

  /** Once a call in progress breaks the constraint, every further call does too. */
  lemma InterimFailureIsPermanent(rev: Revision, c: Constraint, t: int, t2: int)
    requires t <= t2
    ensures CheckCount(rev, c, t, false).failed ==> CheckCount(rev, c, t2, false).failed
  {
  }

  /** With an exact count set, the bounds make no difference. */
  lemma ExactlyOverridesBounds(rev: Revision, c: Constraint, t: int, final: bool, lo: Option<int>, hi: Option<int>)
    requires c.exactly.Some?
    ensures CheckCount(rev, c, t, final) == CheckCount(rev, c.(atLeast := lo, atMost := hi), t, final)
  {
  }

  /** `times(n)` on a fresh expectation: the (n+1)-th call fails at once, n calls pass at the end. */
  lemma TimesOnFreshExpectation(rev: Revision, n: nat, t: nat)
    ensures var c := Times(Unconstrained, n);
            (CheckCount(rev, c, t, false).failed <==> t > n) &&
            (CheckCount(rev, c, t, true).failed <==> t != n)
  {
  }

  /** `at_least().once().at_most().twice()` accepts one or two calls. */
  lemma AtLeastOnceAtMostTwice(rev: Revision, t: int)
    ensures AddAtLeast(Unconstrained).Ok?
    ensures var c1 := Times(AddAtLeast(Unconstrained).value, 1);
            AddAtMost(c1).Ok? &&
            var c2 := Times(AddAtMost(c1).value, 2);
            (!CheckCount(rev, c2, t, true).failed <==> 1 <= t <= 2) &&
            (!CheckCount(rev, c2, t, false).failed <==> t <= 2)
  {
  }

  /** The phrase for that constraint when the method was never called, as the current revision words it. */
  lemma AtLeastOnceAtMostTwiceMessage()
    ensures CheckCount(Current, Constraint(AtMost, None, Some(1), Some(2)), 0, true)
            == Verdict(true, "at least 1 time and at most 2 times")
  {
    var p1 := CountPhrase(Current, "at least ", 1);
    var p2 := CountPhrase(Current, "at most ", 2);
    assert p1 == "at least 1 time" by {
      assert IntToString(1) == "1";
    }
    assert p2 == "at most 2 times" by {
      assert IntToString(2) == "2";
    }
    assert p1 + " and " + p2 == "at least 1 time and at most 2 times";
  }

  /** The current revision's report for `times(1)` with no call. */
  lemma ExactlyOnceNeverCalled(call: string)
    ensures CountMessage(Current, call, CountPhrase(Current, "exactly ", 1), 0)
            == call + " expected to be called exactly 1 time, called 0 times"
  {
    SmallNumerals();
    assert CountPhrase(Current, "exactly ", 1) == "exactly 1 time" by {
      assert "exactly " + "1" == "exactly 1";
      assert "exactly 1" + " time" == "exactly 1 time";
    }
    assert ", called " + "0" == ", called 0";
    assert ", called 0" + " times" == ", called 0 times";
    assert " expected to be called " + "exactly 1 time" == " expected to be called exactly 1 time";
    assert " expected to be called exactly 1 time" + ", called 0 times"
        == " expected to be called exactly 1 time, called 0 times";
  }

  /**
   * The MethodCallError text `_verify` raises: the rendered call, the
   * phrase, and the count (the earlier revisions always say "times").
   */
  function CountMessage(rev: Revision, call: string, phrase: string, t: int): (s: string)
    ensures StartsWith(s, call + " expected to be called ")
  {
    var s := call + " expected to be called " + phrase +
      (if rev == Current then ", called " + IntToString(t) + (if t == 1 then " time" else " times")
       else " times, called " + IntToString(t) + " times");
    assert s[..|call + " expected to be called "|] == call + " expected to be called ";
    s
  }
}
