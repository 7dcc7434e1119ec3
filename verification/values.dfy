/**
 * The Python values the mocking engine stores, compares and prints:
 * call arguments, return values and the insertion-ordered keyword-argument
 * dictionaries that accompany them.
 */
module Values {

  datatype Option<T> = None | Some(value: T)
  {
    function GetOr(default: T): T
    {
      if Some? then value else default
    }
  }

  /**
   * A Python value as far as the engine looks at it.
   * `ClassRef` is a class object (named by its qualified name, as `repr`
   * shows it), `PatternRef` a compiled regular expression, and `Opaque`
   * any other object: its `str()` text, its truthiness and, when it is
   * iterable, the items iterating it yields.
   */
  datatype Value =
    | PyNone
    | Int(i: int)
    | Str(s: string)
    | Tuple(items: seq<Value>)
    | ClassRef(cls: string)
    | PatternRef(pattern: string)
    | Opaque(id: nat, text: string, truthy: bool, elems: Option<seq<Value>>)

  /** Python truthiness (`bool(v)`). */
  predicate Truthy(v: Value)
  {
    match v
    case PyNone => false
    case Int(i) => i != 0
    case Str(s) => s != ""
    case Tuple(items) => items != []
    case ClassRef(_) => true
    case PatternRef(_) => true
    case Opaque(_, _, t, _) => t
  }

  /**
   * A keyword-argument dictionary. Python dictionaries remember insertion
   * order and the engine's messages print keywords in that order, so the
   * dictionary is an association list rather than a `map`.
   */
  type Kw = seq<(string, Value)>

  function Keys(kw: Kw): (ks: seq<string>)
    ensures |ks| == |kw|
    ensures forall i :: 0 <= i < |kw| ==> ks[i] == kw[i].0
  {
    if kw == [] then [] else [kw[0].0] + Keys(kw[1..])
  }

  predicate HasKey(kw: Kw, k: string)
  {
    exists i :: 0 <= i < |kw| && kw[i].0 == k
  }

  /** No key is stored twice, as in every Python dictionary. */
  predicate DistinctKeys(kw: Kw)
  {
    forall i, j :: 0 <= i < j < |kw| ==> kw[i].0 != kw[j].0
  }

  /** `kw.get(k)`. */
  function Lookup(kw: Kw, k: string): (r: Option<Value>)
    ensures r.Some? <==> HasKey(kw, k)
  {
    if kw == [] then None
    else if kw[0].0 == k then Some(kw[0].1)
    else
      var r := Lookup(kw[1..], k);
      assert forall i :: 1 <= i < |kw| ==> kw[i] == kw[1..][i - 1];
      r
  }

  /**
   * `kw[k] = v`: an existing key keeps its position and takes the new
   * value; a new key goes to the end.
   */
  function Put(kw: Kw, k: string, v: Value): (r: Kw)
    ensures HasKey(kw, k) ==> |r| == |kw|
    ensures !HasKey(kw, k) ==> r == kw + [(k, v)]
    ensures forall i :: 0 <= i < |kw| ==> r[i].0 == kw[i].0
    ensures forall i :: 0 <= i < |kw| && kw[i].0 != k ==> r[i] == kw[i]
  {
    if kw == [] then [(k, v)]
    else if kw[0].0 == k then [(k, v)] + kw[1..]
    else
      assert HasKey(kw, k) <==> HasKey(kw[1..], k) by {
        if HasKey(kw, k) {
          var i :| 0 <= i < |kw| && kw[i].0 == k;
          assert kw[1..][i - 1].0 == k;
        }
        if HasKey(kw[1..], k) {
          var i :| 0 <= i < |kw[1..]| && kw[1..][i].0 == k;
          assert kw[i + 1].0 == k;
        }
      }
      [kw[0]] + Put(kw[1..], k, v)
  }

  /** `Put` keeps the keys distinct. */
  lemma {:induction false} PutKeepsDistinct(kw: Kw, k: string, v: Value)
    requires DistinctKeys(kw)
    ensures DistinctKeys(Put(kw, k, v))
  {
    var r := Put(kw, k, v);
    if !HasKey(kw, k) {
      forall i | 0 <= i < |kw|
        ensures kw[i].0 != k
      {
      }
    }
  }

  /** The value `Put` stores is what a later lookup of that key finds. */
  lemma {:induction false} LookupPutSame(kw: Kw, k: string, v: Value)
    requires DistinctKeys(kw)
    ensures Lookup(Put(kw, k, v), k) == Some(v)
  {
    if kw == [] {
    } else if kw[0].0 == k {
    } else {
      LookupPutSame(kw[1..], k, v);
      assert ([kw[0]] + Put(kw[1..], k, v))[1..] == Put(kw[1..], k, v);
    }
  }

  /** `Put` leaves every other key's value alone. */
  lemma {:induction false} LookupPutOther(kw: Kw, k: string, v: Value, other: string)
    requires other != k
    ensures Lookup(Put(kw, k, v), other) == Lookup(kw, other)
  {
    if kw == [] {
    } else if kw[0].0 == k {
      assert ([(k, v)] + kw[1..])[1..] == kw[1..];
    } else {
      LookupPutOther(kw[1..], k, v, other);
      assert ([kw[0]] + Put(kw[1..], k, v))[1..] == Put(kw[1..], k, v);
    }
  }

  /** With distinct keys, looking up an entry's key finds that entry's value. */
  lemma {:induction false} LookupAt(kw: Kw, i: nat)
    requires DistinctKeys(kw) && i < |kw|
    ensures Lookup(kw, kw[i].0) == Some(kw[i].1)
  {
    if i > 0 {
      assert kw[1..][i - 1] == kw[i];
      LookupAt(kw[1..], i - 1);
    }
  }

  /**
   * Dictionary equality: the same keys with equal values, whatever the
   * insertion order.
   */
  predicate KwEqual(a: Kw, b: Kw)
  {
    (forall i :: 0 <= i < |a| ==> Lookup(b, a[i].0) == Some(a[i].1)) &&
    (forall j :: 0 <= j < |b| ==> HasKey(a, b[j].0))
  }

  /** The positional and keyword arguments of one call or one expectation. */
  datatype ArgSet = ArgSet(kargs: seq<Value>, kwargs: Kw)

  const NoArgs := ArgSet([], [])

  /** Python's `==` on `{"kargs": ..., "kwargs": ...}`. */
  predicate ArgsEqual(a: ArgSet, b: ArgSet)
  {
    a.kargs == b.kargs && KwEqual(a.kwargs, b.kwargs)
  }

  /** Every dictionary equals itself. */
  lemma ArgsEqualReflexive(a: ArgSet)
    requires DistinctKeys(a.kwargs)
    ensures ArgsEqual(a, a)
  {
    forall i | 0 <= i < |a.kwargs|
      ensures Lookup(a.kwargs, a.kwargs[i].0) == Some(a.kwargs[i].1)
    {
      LookupAt(a.kwargs, i);
    }
    forall j | 0 <= j < |a.kwargs|
      ensures HasKey(a.kwargs, a.kwargs[j].0)
    {
    }
  }

  /** What `raise` is configured to throw: an exception class or an instance. */
  datatype Raisable = RaiseClass(cls: string) | RaiseInstance(instance: Value)
}
