/**
 * The queue of configured results an expectation hands out: values from
 * `and_return`, exceptions from `and_raise`, the `one_by_one` split, and
 * the rotation that makes the queue cycle on successive calls.
 */
module ResultQueue {
  import opened Values
  import opened Errors
  import opened Text

  /**
   * What a queue entry holds: a plain value, or (for `and_raise`) the
   * `{"kargs": ..., "kwargs": ...}` dictionary of constructor arguments.
   */
  datatype Payload = Val(v: Value) | CtorArgs(args: ArgSet)

  datatype ReturnValue = ReturnValue(value: Payload, raises: Option<Raisable>)

  /** `ReturnValue()`: what a call returns when nothing was configured. */
  const NoneReturn := ReturnValue(Val(PyNone), None)

  // ---------------------------------------------------------------- rendering

  /** `str()` of the constructor-argument dictionary. */
  function CtorArgsStr(a: ArgSet): string
  {
    var kw := Join(seq(|a.kwargs|, k requires 0 <= k < |a.kwargs| => "'" + a.kwargs[k].0 + "': " + Repr(a.kwargs[k].1)), ", ");
    "{'kargs': " + Repr(Tuple(a.kargs)) + ", 'kwargs': {" + kw + "}}"
  }

  function PayloadArgStr(p: Payload): string
  {
    match p
    case Val(v) => ArgToStr(v)
    case CtorArgs(a) => CtorArgsStr(a)
  }

  function RaisableStr(r: Raisable): string
  {
    match r
    case RaiseClass(c) => Repr(ClassRef(c))
    case RaiseInstance(v) => StrOf(v)
  }

  /**
   * `ReturnValue.__str__`: the exception followed by its arguments in
   * parentheses; otherwise the value, a 1-tuple shown as its only item and
   * a longer tuple as a parenthesised list.
   */
  function ReturnValueStr(rv: ReturnValue): (s: string)
    ensures rv.raises.None? && rv.value.Val? && !rv.value.v.Tuple? ==> s == ArgToStr(rv.value.v)
    ensures rv.raises.None? && rv.value == Val(Tuple([])) ==> s == "()"
  {
    if rv.raises.Some? then RaisableStr(rv.raises.value) + "(" + PayloadArgStr(rv.value) + ")"
    else match rv.value
      case Val(Tuple(items)) =>
        if |items| == 1 then ArgToStr(items[0])
        else "(" + Join(seq(|items|, k requires 0 <= k < |items| => ArgToStr(items[k])), ", ") + ")"
      case _ => PayloadArgStr(rv.value)
  }

  /** A 1-tuple prints as its item and a bare value prints the same way. */
  lemma SingletonPrintsLikeItsItem(v: Value)
    ensures ReturnValueStr(ReturnValue(Val(Tuple([v])), None)) == ReturnValueStr(ReturnValue(Val(v), None)) || v.Tuple?
  {
  }

  /** A bare value and a 1-tuple both print as the value: `1`. */
  lemma ReturnValueStrSingle()
    ensures ReturnValueStr(ReturnValue(Val(Int(1)), None)) == "1"
    ensures ReturnValueStr(ReturnValue(Val(Tuple([Int(1)])), None)) == "1"
  {
    assert IntToString(1) == "1";
  }

  /** A longer tuple prints in parentheses: `(1, 2)`. */
  lemma ReturnValueStrPair()
    ensures ReturnValueStr(ReturnValue(Val(Tuple([Int(1), Int(2)])), None)) == "(1, 2)"
  {
    assert ArgToStr(Int(1)) == "1" by { assert IntToString(1) == "1"; }
    assert ArgToStr(Int(2)) == "2" by { assert IntToString(2) == "2"; }
    var items := [Int(1), Int(2)];
    var shown := seq(|items|, k requires 0 <= k < |items| => ArgToStr(items[k]));
    assert shown == ["1", "2"];
    assert Join(shown, ", ") == "1, 2" by {
      assert shown[1..] == ["2"];
    }
  }

  /** The stored dictionary for one positional argument: `{'kargs': (1,), 'kwargs': {}}`. */
  lemma CtorArgsStrOne()
    ensures CtorArgsStr(ArgSet([Int(1)], [])) == "{'kargs': (1,), 'kwargs': {}}"
  {
    var a := ArgSet([Int(1)], []);
    assert Repr(Int(1)) == "1" by { assert IntToString(1) == "1"; }
    assert Repr(Tuple(a.kargs)) == "(1,)";
  }

  /**
   * An `and_raise` entry prints the class and then the constructor-argument
   * dictionary it stores: `<class 'RuntimeError'>({'kargs': (1,), 'kwargs': {}})`.
   */
  lemma ReturnValueStrRaise()
    ensures ReturnValueStr(AndRaiseEntry(RaiseClass("RuntimeError"), ArgSet([Int(1)], [])))
            == "<class 'RuntimeError'>" + "(" + "{'kargs': (1,), 'kwargs': {}}" + ")"
  {
    CtorArgsStrOne();
    var rv := AndRaiseEntry(RaiseClass("RuntimeError"), ArgSet([Int(1)], []));
    var cls := RaisableStr(RaiseClass("RuntimeError"));
    var args := CtorArgsStr(ArgSet([Int(1)], []));
    assert cls == "<class 'RuntimeError'>";
    assert ReturnValueStr(rv) == cls + "(" + args + ")";
  }

  // ---------------------------------------------------------------- building

  /** `and_return(*values)` packs its arguments: none is None, one is itself, more are a tuple. */
  function PackValues(values: seq<Value>): (v: Value)
    ensures |values| == 0 ==> v == PyNone
    ensures |values| == 1 ==> v == values[0]
    ensures |values| >= 2 ==> v.Tuple? && v.items == values
  {
    if values == [] then PyNone else if |values| == 1 then values[0] else Tuple(values)
  }

  /**
   * Python iteration over an entry's value: a string yields its
   * characters, a tuple its items, an iterable object its elements, and the
   * constructor-argument dictionary its two keys. `None` means iterating
   * raises TypeError.
   */
  function Iterate(p: Payload): (items: Option<seq<Value>>)
    ensures p.Val? && p.v.Tuple? ==> items == Some(p.v.items)
    ensures p.CtorArgs? ==> items == Some([Str("kargs"), Str("kwargs")])
    ensures p.Val? && (p.v.PyNone? || p.v.Int? || p.v.ClassRef? || p.v.PatternRef?) ==> items.None?
  {
    match p
    case CtorArgs(_) => Some([Str("kargs"), Str("kwargs")])
    case Val(v) =>
      match v
      case Str(s) => Some(seq(|s|, k requires 0 <= k < |s| => Str([s[k]])))
      case Tuple(items) => Some(items)
      case Opaque(_, _, _, elems) => elems
      case _ => None
  }

  /** One entry after `one_by_one`: an iterable entry becomes one plain entry per item. */
  function Expand(rv: ReturnValue): (r: seq<ReturnValue>)
    ensures Iterate(rv.value).None? ==> r == [rv]
    ensures Iterate(rv.value).Some? ==>
              |r| == |Iterate(rv.value).value| &&
              forall k :: 0 <= k < |r| ==> r[k] == ReturnValue(Val(Iterate(rv.value).value[k]), None)
  {
    match Iterate(rv.value)
    case None => [rv]
    case Some(items) => seq(|items|, k requires 0 <= k < |items| => ReturnValue(Val(items[k]), None))
  }

  /** The queue rewrite `one_by_one` performs, entry by entry, in order. */
  function SplitEntries(q: seq<ReturnValue>): seq<ReturnValue>
  {
    if q == [] then [] else Expand(q[0]) + SplitEntries(q[1..])
  }

  /** Splitting works entry by entry, so it distributes over concatenation. */
  lemma {:induction false} SplitEntriesAppend(a: seq<ReturnValue>, b: seq<ReturnValue>)
    ensures SplitEntries(a + b) == SplitEntries(a) + SplitEntries(b)
  {
    if a == [] {
      assert a + b == b;
    } else {
      assert (a + b)[0] == a[0];
      assert (a + b)[1..] == a[1..] + b;
      SplitEntriesAppend(a[1..], b);
    }
  }

  /** A queue with nothing iterable in it is left alone by the split. */
  lemma {:induction false} SplitEntriesKeepsNonIterable(q: seq<ReturnValue>)
    requires forall k :: 0 <= k < |q| ==> Iterate(q[k].value).None?
    ensures SplitEntries(q) == q
  {
    if q != [] {
      SplitEntriesKeepsNonIterable(q[1..]);
    }
  }

  /**
   * `and_return(*values)` on a callable expectation: one entry holding the
   * packed value, or, once `one_by_one` is on, one entry per item when the
   * packed value is iterable.
   */
  function AndReturn(q: seq<ReturnValue>, oneByOne: bool, values: seq<Value>): (r: seq<ReturnValue>)
    ensures !oneByOne ==> r == q + [ReturnValue(Val(PackValues(values)), None)]
    ensures oneByOne && |values| >= 2 ==>
              |r| == |q| + |values| &&
              forall k :: 0 <= k < |values| ==> r[|q| + k] == ReturnValue(Val(values[k]), None)
    ensures |r| >= |q| && r[..|q|] == q
  {
    var rv := ReturnValue(Val(PackValues(values)), None);
    if oneByOne then q + Expand(rv) else q + [rv]
  }

  /**
   * `one_by_one()` and `and_return()` commute: splitting the queue after
   * adding values gives the same queue as adding them after the split.
   */
  lemma AndReturnCommutesWithSplit(q: seq<ReturnValue>, values: seq<Value>)
    ensures SplitEntries(AndReturn(q, false, values)) == AndReturn(SplitEntries(q), true, values)
  {
    var rv := ReturnValue(Val(PackValues(values)), None);
    SplitEntriesAppend(q, [rv]);
    assert SplitEntries([rv]) == Expand(rv) + SplitEntries([]);
  }

  /**
   * `and_raise(exception, *args, **kwargs)`: an entry that raises, keeping
   * the constructor arguments as its value.
   */
  function AndRaiseEntry(exception: Raisable, args: ArgSet): (rv: ReturnValue)
    ensures rv.raises == Some(exception) && rv.value == CtorArgs(args)
  {
    ReturnValue(CtorArgs(args), Some(exception))
  }

  // ---------------------------------------------------------------- calling

  /** The entry a call uses and the queue it leaves: the head moves to the back. */
  datatype Taken = Taken(entry: ReturnValue, rest: seq<ReturnValue>)

  function TakeNext(q: seq<ReturnValue>): (t: Taken)
    ensures q == [] ==> t == Taken(NoneReturn, [])
    ensures q != [] ==> t.entry == q[0] && t.rest == q[1..] + [q[0]]
    ensures |t.rest| == |q| && multiset(t.rest) == multiset(q)
  {
    if q == [] then Taken(NoneReturn, [])
    else
      assert q == [q[0]] + q[1..];
      Taken(q[0], q[1..] + [q[0]])
  }

  /** The queue after `j` calls: rotated left by `j` places. */
  function Rotated(q: seq<ReturnValue>, j: nat): seq<ReturnValue>
    requires q != []
  {
    q[j % |q|..] + q[..j % |q|]
  }

  lemma MulAtLeast(e: int, n: int)
    requires e >= 1 && n > 0
    ensures e * n >= n
  {
    assert e * n == (e - 1) * n + n;
    assert (e - 1) * n >= 0;
  }

  lemma ModUnique(x: nat, n: nat, d: nat, r: nat)
    requires n > 0 && r < n && x == d * n + r
    ensures x % n == r
  {
    var d2 := x / n;
    var r2 := x % n;
    assert x == d2 * n + r2;
    var e := d - d2;
    assert d * n == d2 * n + e * n;
    assert e * n == r2 - r;
    if e >= 1 {
      MulAtLeast(e, n);
    } else if e <= -1 {
      MulAtLeast(-e, n);
    }
  }

  lemma ModSuccessor(j: nat, n: nat)
    requires n > 0
    ensures j % n + 1 < n ==> (j + 1) % n == j % n + 1
    ensures j % n + 1 == n ==> (j + 1) % n == 0
  {
    var d := j / n;
    var r := j % n;
    assert j == d * n + r;
    if r + 1 < n {
      ModUnique(j + 1, n, d, r + 1);
    } else {
      assert j + 1 == (d + 1) * n + 0;
      ModUnique(j + 1, n, d + 1, 0);
    }
  }

  lemma TakeFromRotated(q: seq<ReturnValue>, j: nat)
    requires q != []
    ensures TakeNext(Rotated(q, j)) == Taken(q[j % |q|], Rotated(q, j + 1))
  {
    var n := |q|;
    var i := j % n;
    var r := q[i..] + q[..i];
    assert r == Rotated(q, j);
    assert r[0] == q[i];
    ModSuccessor(j, n);
    if i + 1 < n {
      assert r[1..] == q[i + 1..] + q[..i];
      assert q[..i] + [q[i]] == q[..i + 1];
      assert r[1..] + [r[0]] == q[i + 1..] + q[..i + 1];
    } else {
      assert r[1..] == q[..i];
      assert q[..i] + [q[i]] == q;
      assert Rotated(q, j + 1) == q[0..] + q[..0];
      assert q[0..] + q[..0] == q;
    }
  }

  /** The entries `k` successive calls use, and the queue they leave. */
  datatype Run = Run(used: seq<ReturnValue>, rest: seq<ReturnValue>)

  function Calls(q: seq<ReturnValue>, k: nat): (r: Run)
    ensures |r.used| == k
  {
    if k == 0 then Run([], q)
    else
      var prev := Calls(q, k - 1);
      var t := TakeNext(prev.rest);
      Run(prev.used + [t.entry], t.rest)
  }

  /**
   * Call `i` (counting from zero) uses entry `i mod n` of a queue of `n`
   * entries: the configured results cycle.
   */
  lemma {:induction false} CallsCycle(q: seq<ReturnValue>, k: nat)
    requires q != []
    ensures Calls(q, k).rest == Rotated(q, k)
    ensures forall i :: 0 <= i < k ==> Calls(q, k).used[i] == q[i % |q|]
  {
    if k == 0 {
      assert Rotated(q, 0) == q[0..] + q[..0];
      assert q[0..] + q[..0] == q;
    } else {
      CallsCycle(q, k - 1);
      var prev := Calls(q, k - 1);
      assert prev.rest == Rotated(q, k - 1);
      TakeFromRotated(q, k - 1);
      var t := TakeNext(prev.rest);
      assert t.entry == q[(k - 1) % |q|];
      assert t.rest == Rotated(q, k);
      var used := prev.used + [t.entry];
      assert Calls(q, k) == Run(used, t.rest);
      forall i | 0 <= i < k
        ensures used[i] == q[i % |q|]
      {
        if i < k - 1 {
          assert used[i] == prev.used[i];
        }
      }
    }
  }

  /** With nothing configured every call returns None. */
  lemma {:induction false} EmptyQueueReturnsNone(k: nat)
    ensures Calls([], k).rest == []
    ensures forall i :: 0 <= i < k ==> Calls([], k).used[i] == NoneReturn
  {
    if k > 0 {
      EmptyQueueReturnsNone(k - 1);
    }
  }

  /** The value a non-raising entry hands back; a dictionary payload is shown as an object. */
  function PayloadValue(p: Payload): Value
  {
    match p
    case Val(v) => v
    case CtorArgs(a) => Opaque(0, CtorArgsStr(a), true, Some([Str("kargs"), Str("kwargs")]))
  }

  /**
   * What a call does with the entry it took: raise the configured exception
   * or return the value. A class is instantiated with the stored arguments
   * through `construct`, and whatever building it raises (a TypeError for
   * arguments the class does not accept) is raised instead.
   */
  function Deliver(construct: (Raisable, ArgSet) -> Result<string>, rv: ReturnValue): (r: Result<Value>)
    ensures rv.raises.None? ==> r == Ok(PayloadValue(rv.value))
    ensures rv.raises.Some? ==> r.Err?
    ensures rv.raises.Some? && rv.raises.value.RaiseInstance? ==> r == Err(Configured(rv.raises.value, NoArgs))
    ensures rv.raises.Some? && rv.raises.value.RaiseClass? && rv.value.CtorArgs? && construct(rv.raises.value, rv.value.args).Ok? ==>
              r == Err(Configured(rv.raises.value, rv.value.args))
    ensures rv.raises.Some? && rv.raises.value.RaiseClass? && rv.value.CtorArgs? && construct(rv.raises.value, rv.value.args).Err? ==>
              r == Err(construct(rv.raises.value, rv.value.args).error)
  {
    match rv.raises
    case None => Ok(PayloadValue(rv.value))
    case Some(RaiseInstance(v)) => Err(Configured(RaiseInstance(v), NoArgs))
    case Some(RaiseClass(c)) =>
      if rv.value.CtorArgs? then
        match construct(RaiseClass(c), rv.value.args)
        case Err(err) => Err(err)
        case Ok(_) => Err(Configured(RaiseClass(c), rv.value.args))
      else Err(Foreign("AssertionError", ""))
  }
}
