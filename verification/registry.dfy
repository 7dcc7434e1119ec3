/**
 * `FlexmockContainer`: the global registry of proxies and their
 * expectations, the queue of ordered expectations, the properties to tear
 * down, and the lookup that picks which expectation answers a call.
 *
 * Expectations live in an arena and are referred to by index, which stands
 * for Python object identity (`is`, and `in` on a list of expectations).
 */
module Registry {
  import opened Values
  import opened Errors
  import opened Text
  import opened Matcher
  import opened Namespace
  import opened Expectations

  type ExpId = nat

  /** A proxy (`Mock`) object, by identity. */
  type ProxyId = nat

  /** One key of `flexmock_objects`: a proxy, the object it stands for, and its expectations in declaration order. */
  datatype Entry = Entry(proxy: ProxyId, target: Target, exps: seq<ExpId>)

  datatype Container = Container(
    arena: seq<Expectation>,
    objects: seq<Entry>,                    // insertion-ordered dictionary keyed by proxy
    ordered: seq<ExpId>,                    // the FIFO queue of ordered expectations
    last: Option<ExpId>,                    // the ordered expectation popped last
    properties: seq<(ObjId, seq<string>)>)  // attributes to delete at teardown

  predicate IdsIn(c: Container, ids: seq<ExpId>)
  {
    forall k :: 0 <= k < |ids| ==> ids[k] < |c.arena|
  }

  predicate DistinctProxies(objects: seq<Entry>)
  {
    forall i, j :: 0 <= i < j < |objects| ==> objects[i].proxy != objects[j].proxy
  }

  /** Every stored reference points into the arena, and each proxy is a key once. */
  predicate Valid(c: Container)
  {
    && DistinctProxies(c.objects)
    && (forall i :: 0 <= i < |c.objects| ==> IdsIn(c, c.objects[i].exps))
    && IdsIn(c, c.ordered)
    && (c.last.Some? ==> c.last.value < |c.arena|)
  }

  // ---------------------------------------------------------------- the dictionary

  /** The position of a proxy among the keys. */
  function FindEntry(objects: seq<Entry>, proxy: ProxyId): (r: Option<nat>)
    ensures r.Some? ==> r.value < |objects| && objects[r.value].proxy == proxy
    ensures r.Some? ==> forall i :: 0 <= i < r.value ==> objects[i].proxy != proxy
    ensures r.None? <==> forall i :: 0 <= i < |objects| ==> objects[i].proxy != proxy
  {
    if objects == [] then None
    else if objects[0].proxy == proxy then Some(0)
    else
      match FindEntry(objects[1..], proxy)
      case None =>
        assert forall i :: 1 <= i < |objects| ==> objects[i] == objects[1..][i - 1];
        None
      case Some(i) => Some(i + 1)
  }

  /** Only the keys decide where a proxy is found. */
  lemma {:induction false} FindEntrySameKeys(a: seq<Entry>, b: seq<Entry>, proxy: ProxyId)
    requires |a| == |b| && forall i :: 0 <= i < |a| ==> a[i].proxy == b[i].proxy
    ensures FindEntry(a, proxy) == FindEntry(b, proxy)
  {
    if a != [] && a[0].proxy != proxy {
      FindEntrySameKeys(a[1..], b[1..], proxy);
    }
  }

  /** Adding a key at the end does not move the others. */
  lemma {:induction false} FindEntryAppend(a: seq<Entry>, x: Entry, proxy: ProxyId)
    ensures FindEntry(a, proxy).Some? ==> FindEntry(a + [x], proxy) == FindEntry(a, proxy)
    ensures FindEntry(a, proxy).None? && x.proxy == proxy ==> FindEntry(a + [x], proxy) == Some(|a|)
    ensures FindEntry(a, proxy).None? && x.proxy != proxy ==> FindEntry(a + [x], proxy).None?
  {
    if a != [] && a[0].proxy != proxy {
      assert (a + [x])[1..] == a[1..] + [x];
      FindEntryAppend(a[1..], x, proxy);
    }
  }

  predicate Registered(c: Container, proxy: ProxyId)
  {
    FindEntry(c.objects, proxy).Some?
  }

  /** `flexmock_objects.get(proxy, [])`. */
  function ExpsOf(c: Container, proxy: ProxyId): (ids: seq<ExpId>)
    requires Valid(c)
    ensures IdsIn(c, ids)
    ensures !Registered(c, proxy) ==> ids == []
  {
    match FindEntry(c.objects, proxy)
    case None => []
    case Some(i) => c.objects[i].exps
  }

  /** The registry `reset()` leaves behind: nothing registered, nothing queued. */
  function Reset(c: Container): (r: Container)
    ensures Valid(r)
    ensures r.objects == [] && r.ordered == [] && r.last.None? && r.properties == []
    ensures forall proxy :: !Registered(r, proxy)
  {
    Container(c.arena, [], [], None, [])
  }

  datatype Added = Added(c: Container, id: ExpId)

  /** The registry with one more expectation for `proxy`, before anything is said about it. */
  function Appended(c: Container, proxy: ProxyId, target: Target, e: Expectation): Container
  {
    var id := |c.arena|;
    match FindEntry(c.objects, proxy)
    case Some(i) => c.(arena := c.arena + [e], objects := c.objects[i := c.objects[i].(exps := c.objects[i].exps + [id])])
    case None => c.(arena := c.arena + [e], objects := c.objects + [Entry(proxy, target, [id])])
  }

  lemma AppendedKeys(c: Container, proxy: ProxyId, target: Target, e: Expectation, p: ProxyId)
    ensures var c2 := Appended(c, proxy, target, e);
            p == proxy ==> FindEntry(c2.objects, p).Some?
    ensures var c2 := Appended(c, proxy, target, e);
            p != proxy ==> FindEntry(c2.objects, p) == FindEntry(c.objects, p)
  {
    var id := |c.arena|;
    match FindEntry(c.objects, proxy)
    case Some(i) =>
      FindEntrySameKeys(c.objects[i := c.objects[i].(exps := c.objects[i].exps + [id])], c.objects, p);
    case None =>
      FindEntryAppend(c.objects, Entry(proxy, target, [id]), p);
  }

  lemma AppendedValid(c: Container, proxy: ProxyId, target: Target, e: Expectation)
    requires Valid(c)
    ensures Valid(Appended(c, proxy, target, e))
  {
    var c2 := Appended(c, proxy, target, e);
    forall i | 0 <= i < |c2.objects| ensures IdsIn(c2, c2.objects[i].exps) {
      if i < |c.objects| {
        assert IdsIn(c, c.objects[i].exps);
      }
    }
    if FindEntry(c.objects, proxy).None? {
      forall i, j | 0 <= i < j < |c2.objects| ensures c2.objects[i].proxy != c2.objects[j].proxy {
        if j == |c.objects| {
          assert c2.objects[i] == c.objects[i];
        }
      }
    }
  }

  lemma AppendedExps(c: Container, proxy: ProxyId, target: Target, e: Expectation, p: ProxyId)
    requires Valid(c)
    ensures Valid(Appended(c, proxy, target, e))
    ensures p == proxy ==> ExpsOf(Appended(c, proxy, target, e), p) == ExpsOf(c, p) + [|c.arena|]
    ensures p != proxy ==> ExpsOf(Appended(c, proxy, target, e), p) == ExpsOf(c, p)
  {
    AppendedValid(c, proxy, target, e);
    AppendedKeys(c, proxy, target, e, p);
    if p == proxy && FindEntry(c.objects, proxy).None? {
      FindEntryAppend(c.objects, Entry(proxy, target, [|c.arena|]), proxy);
    }
  }

  /**
   * `add_expectation`: the expectation joins the end of its proxy's list;
   * a proxy seen for the first time becomes the last key.
   */
  function AddExpectation(c: Container, proxy: ProxyId, target: Target, e: Expectation): (r: Added)
    requires Valid(c)
    ensures Valid(r.c)
    ensures r.id == |c.arena| && r.c.arena == c.arena + [e]
    ensures Registered(r.c, proxy)
    ensures ExpsOf(r.c, proxy) == ExpsOf(c, proxy) + [r.id]
    ensures forall p :: p != proxy ==> Registered(r.c, p) == Registered(c, p) && ExpsOf(r.c, p) == ExpsOf(c, p)
    ensures r.c.ordered == c.ordered && r.c.last == c.last && r.c.properties == c.properties
  {
    var c2 := Appended(c, proxy, target, e);
    AppendedKeys(c, proxy, target, e, proxy);
    AppendedExps(c, proxy, target, e, proxy);
    forall p | p != proxy
      ensures Registered(c2, p) == Registered(c, p) && ExpsOf(c2, p) == ExpsOf(c, p)
    {
      AppendedKeys(c, proxy, target, e, p);
      AppendedExps(c, proxy, target, e, p);
    }
    Added(c2, |c.arena|)
  }

  /** `get_expectations_with_name`: a proxy's expectations for one name, in declaration order. */
  function Named(c: Container, ids: seq<ExpId>, name: string): (r: seq<ExpId>)
    requires IdsIn(c, ids)
    ensures IdsIn(c, r) && |r| <= |ids|
    ensures forall k :: 0 <= k < |r| ==> c.arena[r[k]].name == name
    ensures forall k :: 0 <= k < |ids| && c.arena[ids[k]].name == name ==> ids[k] in r
    ensures forall id :: id in r ==> id in ids
  {
    if ids == [] then []
    else
      var rest := Named(c, ids[1..], name);
      assert forall k :: 1 <= k < |ids| ==> ids[k] == ids[1..][k - 1];
      if c.arena[ids[0]].name == name then [ids[0]] + rest else rest
  }

  /** The expectations with the name in every list are those of each part. */
  lemma {:induction false} NamedAppend(c: Container, a: seq<ExpId>, b: seq<ExpId>, name: string)
    requires IdsIn(c, a) && IdsIn(c, b)
    ensures IdsIn(c, a + b) && Named(c, a + b, name) == Named(c, a, name) + Named(c, b, name)
  {
    assert forall k :: 0 <= k < |a + b| ==> (a + b)[k] == if k < |a| then a[k] else b[k - |a|];
    if a == [] {
      assert a + b == b;
    } else {
      assert (a + b)[1..] == a[1..] + b;
      NamedAppend(c, a[1..], b, name);
    }
  }

  // ---------------------------------------------------------------- choosing an expectation

  /** Position `p` holds an expectation with the name whose arguments match the call. */
  predicate Candidate(o: Oracle, c: Container, ids: seq<ExpId>, name: string, given: ArgSet, p: nat)
    requires IdsIn(c, ids)
  {
    p < |ids| && c.arena[ids[p]].name == name && Matches(o, c.arena[ids[p]], given) == Ok(true)
  }

  /** A candidate still waiting in the ordering queue. */
  predicate Queued(o: Oracle, c: Container, ids: seq<ExpId>, name: string, given: ArgSet, p: nat)
    requires IdsIn(c, ids)
  {
    Candidate(o, c, ids, name, given, p) && ids[p] in c.ordered
  }

  /** A candidate that was never made ordered. */
  predicate Free(o: Oracle, c: Container, ids: seq<ExpId>, name: string, given: ArgSet, p: nat)
    requires IdsIn(c, ids)
  {
    Candidate(o, c, ids, name, given, p) && !c.arena[ids[p]].ordered
  }

  /** The earliest queued candidate at or after `lo`. */
  function FirstQueued(o: Oracle, c: Container, ids: seq<ExpId>, name: string, given: ArgSet, lo: nat): (r: Option<nat>)
    requires IdsIn(c, ids) && lo <= |ids|
    ensures r.Some? ==> lo <= r.value < |ids| && Queued(o, c, ids, name, given, r.value)
    ensures r.Some? ==> forall p :: lo <= p < r.value ==> !Queued(o, c, ids, name, given, p)
    ensures r.None? ==> forall p :: lo <= p < |ids| ==> !Queued(o, c, ids, name, given, p)
    decreases |ids| - lo
  {
    if lo == |ids| then None
    else if Queued(o, c, ids, name, given, lo) then Some(lo)
    else FirstQueued(o, c, ids, name, given, lo + 1)
  }

  /** The latest free candidate at or after `lo`. */
  function LastFree(o: Oracle, c: Container, ids: seq<ExpId>, name: string, given: ArgSet, lo: nat): (r: Option<nat>)
    requires IdsIn(c, ids) && lo <= |ids|
    ensures r.Some? ==> lo <= r.value < |ids| && Free(o, c, ids, name, given, r.value)
    ensures r.Some? ==> forall p :: r.value < p < |ids| ==> !Free(o, c, ids, name, given, p)
    ensures r.None? ==> forall p :: lo <= p < |ids| ==> !Free(o, c, ids, name, given, p)
    decreases |ids| - lo
  {
    if lo == |ids| then None
    else
      match LastFree(o, c, ids, name, given, lo + 1)
      case Some(p) => Some(p)
      case None => if Free(o, c, ids, name, given, lo) then Some(lo) else None
  }

  /**
   * The precedence rule, stated directly: the earliest-declared candidate
   * still in the ordering queue; failing that the most recently declared
   * candidate that is not ordered; failing that nothing. Ordered
   * expectations already taken off the queue never answer.
   */
  function Preferred(o: Oracle, c: Container, ids: seq<ExpId>, name: string, given: ArgSet, lo: nat): (r: Option<ExpId>)
    requires IdsIn(c, ids) && lo <= |ids|
    ensures r.Some? ==> r.value in ids[lo..] && r.value < |c.arena|
    ensures r.Some? && c.arena[r.value].ordered ==> r.value in c.ordered
  {
    match FirstQueued(o, c, ids, name, given, lo)
    case Some(p) => Some(ids[p])
    case None =>
      match LastFree(o, c, ids, name, given, lo)
      case Some(p) => Some(ids[p])
      case None => None
  }

  /**
   * The loop of `get_flexmock_expectation`, over the list from the back:
   * a matching expectation with the name replaces the one found so far
   * when it is in the ordering queue, or when it is unordered and nothing
   * was found yet. A matcher error ends the loop.
   */
  function Scan(o: Oracle, c: Container, ids: seq<ExpId>, name: string, given: ArgSet, i: nat, found: Option<ExpId>)
    : Result<Option<ExpId>>
    requires IdsIn(c, ids) && i <= |ids|
    decreases i
  {
    if i == 0 then Ok(found)
    else
      var e := c.arena[ids[i - 1]];
      if e.name != name then Scan(o, c, ids, name, given, i - 1, found)
      else
        match Matches(o, e, given)
        case Err(err) => Err(err)
        case Ok(false) => Scan(o, c, ids, name, given, i - 1, found)
        case Ok(true) =>
          if ids[i - 1] in c.ordered || (!e.ordered && found.None?) then Scan(o, c, ids, name, given, i - 1, Some(ids[i - 1]))
          else Scan(o, c, ids, name, given, i - 1, found)
  }

  /** Having scanned the positions from `i` on, the loop holds exactly the preferred one among them. */
  lemma {:induction false} ScanFindsPreferred(o: Oracle, c: Container, ids: seq<ExpId>, name: string, given: ArgSet, i: nat)
    requires IdsIn(c, ids) && i <= |ids|
    ensures Scan(o, c, ids, name, given, i, Preferred(o, c, ids, name, given, i)).Ok? ==>
            Scan(o, c, ids, name, given, i, Preferred(o, c, ids, name, given, i)).value == Preferred(o, c, ids, name, given, 0)
    decreases i
  {
    if i > 0 {
      var found := Preferred(o, c, ids, name, given, i);
      var e := c.arena[ids[i - 1]];
      var next := Preferred(o, c, ids, name, given, i - 1);
      if e.name == name && Matches(o, e, given).Ok? {
        var picked := ids[i - 1] in c.ordered || (!e.ordered && found.None?);
        if Matches(o, e, given).value && picked {
          assert next == Some(ids[i - 1]);
        } else {
          assert next == found;
        }
      } else {
        assert next == found;
      }
      ScanFindsPreferred(o, c, ids, name, given, i - 1);
    }
  }

  /** The scan fails only with the error some same-named expectation's matcher raised. */
  lemma {:induction false} ScanErrorComesFromMatcher(o: Oracle, c: Container, ids: seq<ExpId>, name: string, given: ArgSet, i: nat, found: Option<ExpId>)
    requires IdsIn(c, ids) && i <= |ids|
    requires Scan(o, c, ids, name, given, i, found).Err?
    ensures exists p :: 0 <= p < i && c.arena[ids[p]].name == name &&
              Matches(o, c.arena[ids[p]], given) == Err(Scan(o, c, ids, name, given, i, found).error)
    decreases i
  {
    var e := c.arena[ids[i - 1]];
    if e.name == name && Matches(o, e, given).Err? {
    } else if e.name == name && Matches(o, e, given) == Ok(true)
              && (ids[i - 1] in c.ordered || (!e.ordered && found.None?)) {
      ScanErrorComesFromMatcher(o, c, ids, name, given, i - 1, Some(ids[i - 1]));
    } else {
      ScanErrorComesFromMatcher(o, c, ids, name, given, i - 1, found);
    }
  }

  /** The selection over a proxy's expectations. */
  function Select(o: Oracle, c: Container, proxy: ProxyId, name: string, given: ArgSet): (r: Result<Option<ExpId>>)
    requires Valid(c)
    ensures r.Ok? ==> r.value == Preferred(o, c, ExpsOf(c, proxy), name, given, 0)
    ensures r.Err? ==> exists id :: id in ExpsOf(c, proxy) && c.arena[id].name == name && Matches(o, c.arena[id], given) == Err(r.error)
  {
    var ids := ExpsOf(c, proxy);
    ScanFindsPreferred(o, c, ids, name, given, |ids|);
    var r := Scan(o, c, ids, name, given, |ids|, None);
    if r.Err? then
      ScanErrorComesFromMatcher(o, c, ids, name, given, |ids|, None);
      r
    else r
  }

  // ---------------------------------------------------------------- call order

  datatype CallOrder = CallOrder(c: Container, error: Option<Error>)

  function OutOfOrder(c: Container, id: ExpId, next: ExpId, given: ArgSet): (err: Error)
    requires id < |c.arena| && next < |c.arena|
    ensures err.Flex? && err.kind == CallOrderError
  {
    Flex(CallOrderError, FormatArgs(c.arena[id].name, Some(given)) + " called before " +
                         FormatArgs(c.arena[next].name, c.arena[next].args))
  }

  /**
   * `_verify_call_order`: the queue's head is taken off and remembered as
   * `last`; the call is out of order when the chosen expectation is not
   * that head. With an empty queue the current revision's `pop` fails, the
   * earlier one compares with `last` (and accepts when there is none), and
   * the oldest compares with `last` and fails on None.
   */
  function VerifyCallOrder(rev: Revision, c: Container, id: ExpId, given: ArgSet): (r: CallOrder)
    requires Valid(c) && id < |c.arena|
    ensures Valid(r.c) && r.c.arena == c.arena && r.c.objects == c.objects && r.c.properties == c.properties
    ensures c.ordered != [] ==> r.c.ordered == c.ordered[1..] && r.c.last == Some(c.ordered[0])
    ensures c.ordered != [] ==> (r.error.None? <==> id == c.ordered[0])
    ensures c.ordered != [] && r.error.Some? ==> r.error == Some(OutOfOrder(c, id, c.ordered[0], given))
    ensures c.ordered == [] ==> r.c == c
  {
    if c.ordered == [] then
      match rev
      case Current => CallOrder(c, Some(Foreign("IndexError", "pop from empty list")))
      case Earlier =>
        if c.last.None? || c.last.value == id then CallOrder(c, None)
        else CallOrder(c, Some(OutOfOrder(c, id, c.last.value, given)))
      case Oldest =>
        if c.last == Some(id) then CallOrder(c, None)
        else if c.last.None? then CallOrder(c, Some(Foreign("AttributeError", "'NoneType' object has no attribute 'name'")))
        else CallOrder(c, Some(OutOfOrder(c, id, c.last.value, given)))
    else
      var next := c.ordered[0];
      var c2 := c.(ordered := c.ordered[1..], last := Some(next));
      if next == id then CallOrder(c2, None) else CallOrder(c2, Some(OutOfOrder(c, id, next, given)))
  }

  /** With a non-empty queue the three revisions check call order identically. */
  lemma CallOrderSameInAllRevisions(rev: Revision, c: Container, id: ExpId, given: ArgSet)
    requires Valid(c) && id < |c.arena| && c.ordered != []
    ensures VerifyCallOrder(rev, c, id, given) == VerifyCallOrder(Current, c, id, given)
  {
  }

  /**
   * Where the revisions' guards part: an empty queue with a remembered
   * `last`. No lookup reaches this state, since an ordered expectation is
   * found only while it is still queued (`OrderedLookupPopsHead`), so the
   * difference is in the code and not in observable behaviour.
   */
  lemma EmptyQueueDiffers(c: Container, id: ExpId, given: ArgSet)
    requires Valid(c) && id < |c.arena| && c.ordered == [] && c.last == Some(id)
    ensures VerifyCallOrder(Current, c, id, given).error == Some(Foreign("IndexError", "pop from empty list"))
    ensures VerifyCallOrder(Earlier, c, id, given).error.None?
    ensures VerifyCallOrder(Oldest, c, id, given).error.None?
  {
  }

  // ---------------------------------------------------------------- lookup

  datatype Lookup = Lookup(c: Container, found: Result<Option<ExpId>>)

  /**
   * `get_flexmock_expectation`: select, then check call order when the
   * chosen expectation is ordered. The current revision indexes the
   * registry directly (a KeyError for an unregistered proxy); the earlier
   * ones answer None for an empty name or an unregistered proxy.
   */
  function GetFlexmockExpectation(rev: Revision, o: Oracle, c: Container, proxy: ProxyId, name: string, given: ArgSet)
    : (r: Lookup)
    requires Valid(c)
    ensures Valid(r.c) && r.c.arena == c.arena && r.c.objects == c.objects && r.c.properties == c.properties
    ensures rev == Current && !Registered(c, proxy) ==> r == Lookup(c, Err(Foreign("KeyError", "")))
    ensures rev != Current && (name == "" || !Registered(c, proxy)) ==> r == Lookup(c, Ok(None))
    ensures r.found.Ok? && r.found.value.Some? ==>
              var id := r.found.value.value;
              id in ExpsOf(c, proxy) && c.arena[id].name == name && Matches(o, c.arena[id], given) == Ok(true)
    ensures r.found.Ok? && r.found.value.Some? ==> r.found.value == Preferred(o, c, ExpsOf(c, proxy), name, given, 0)
    ensures r.found.Ok? && r.found.value.Some? && c.arena[r.found.value.value].ordered ==>
              c.ordered != [] && r.found.value.value == c.ordered[0] && r.c.ordered == c.ordered[1..]
    ensures r.found.Ok? && (r.found.value.None? || !c.arena[r.found.value.value].ordered) ==> r.c == c
  {
    if rev == Current && !Registered(c, proxy) then Lookup(c, Err(Foreign("KeyError", "")))
    else if rev != Current && (name == "" || !Registered(c, proxy)) then Lookup(c, Ok(None))
    else
      match Select(o, c, proxy, name, given)
      case Err(err) => Lookup(c, Err(err))
      case Ok(None) => Lookup(c, Ok(None))
      case Ok(Some(id)) =>
        var ids := ExpsOf(c, proxy);
        var p :| 0 <= p < |ids| && ids[p] == id;
        assert Candidate(o, c, ids, name, given, p) by {
          var q := FirstQueued(o, c, ids, name, given, 0);
          if q.None? {
            var f := LastFree(o, c, ids, name, given, 0);
            assert f.Some? && ids[f.value] == id;
            NoDuplicateNeeded(o, c, ids, name, given, f.value, p);
          } else {
            NoDuplicateNeeded(o, c, ids, name, given, q.value, p);
          }
        }
        if !c.arena[id].ordered then Lookup(c, Ok(Some(id)))
        else
          var v := VerifyCallOrder(rev, c, id, given);
          if v.error.Some? then Lookup(v.c, Err(v.error.value)) else Lookup(v.c, Ok(Some(id)))
  }

  /** Two positions holding the same expectation agree on being a candidate. */
  lemma NoDuplicateNeeded(o: Oracle, c: Container, ids: seq<ExpId>, name: string, given: ArgSet, p: nat, q: nat)
    requires IdsIn(c, ids) && p < |ids| && q < |ids| && ids[p] == ids[q]
    requires Candidate(o, c, ids, name, given, p)
    ensures Candidate(o, c, ids, name, given, q)
  {
  }

  /**
   * Ordered expectations are consumed strictly first-in first-out: when a
   * lookup answers with an ordered expectation, it was the queue's head
   * and the queue loses exactly that head, in every revision.
   */
  lemma OrderedLookupPopsHead(rev: Revision, o: Oracle, c: Container, proxy: ProxyId, name: string, given: ArgSet, id: ExpId)
    requires Valid(c)
    requires Select(o, c, proxy, name, given) == Ok(Some(id)) && c.arena[id].ordered && Registered(c, proxy) && name != ""
    ensures id in c.ordered
    ensures GetFlexmockExpectation(rev, o, c, proxy, name, given) ==
            GetFlexmockExpectation(Current, o, c, proxy, name, given)
  {
    CallOrderSameInAllRevisions(rev, c, id, given);
  }

  // ---------------------------------------------------------------- properties

  /** `obj in cls.properties`: the position of the object's entry in the property list, if any. */
  function PropsIndex(props: seq<(ObjId, seq<string>)>, obj: ObjId): (i: Option<nat>)
    ensures i.Some? ==> i.value < |props| && props[i.value].0 == obj
    ensures i.Some? ==> forall j :: 0 <= j < i.value ==> props[j].0 != obj
    ensures i.None? ==> forall j :: 0 <= j < |props| ==> props[j].0 != obj
  {
    if props == [] then None
    else if props[0].0 == obj then Some(0)
    else
      var rest := PropsIndex(props[1..], obj);
      if rest.None? then None else Some(rest.value + 1)
  }

  /**
   * `add_teardown_property`: the name is appended to the object's list,
   * and an object not yet listed becomes the last key with just that name.
   */
  function AddTeardownProperty(props: seq<(ObjId, seq<string>)>, obj: ObjId, name: string): (r: seq<(ObjId, seq<string>)>)
    ensures |r| == |props| || |r| == |props| + 1
    ensures exists k :: 0 <= k < |r| && r[k].0 == obj && |r[k].1| > 0 && r[k].1[|r[k].1| - 1] == name
    ensures PropsIndex(props, obj).Some? ==>
              var i := PropsIndex(props, obj).value;
              r == props[i := (obj, props[i].1 + [name])]
    ensures PropsIndex(props, obj).None? ==> r == props + [(obj, [name])]
  {
    match PropsIndex(props, obj)
    case Some(i) =>
      var r := props[i := (obj, props[i].1 + [name])];
      assert r[i].0 == obj && r[i].1[|r[i].1| - 1] == name;
      r
    case None =>
      var r := props + [(obj, [name])];
      assert r[|props|].0 == obj && r[|props|].1[|r[|props|].1| - 1] == name;
      r
  }

  /** The world after deleting attributes, and the AttributeError that stopped the deletions, if any. */
  datatype Deleted = Deleted(w: World, error: Option<Error>)

  /**
   * `teardown_properties`: deletes every registered attribute in order; a
   * name the object no longer holds raises AttributeError (its message is
   * modelled as the bare name), which ends the deletions where they stand.
   */
  function TeardownProperties(w: World, props: seq<(ObjId, seq<string>)>): (r: Deleted)
    ensures r.w.Keys == w.Keys
    ensures forall o :: o in w ==> r.w[o].own.Keys <= w[o].own.Keys
    ensures r.error.Some? ==> r.error.value.Foreign? && r.error.value.cls == "AttributeError"
    ensures r.error.None? ==> forall k, n :: 0 <= k < |props| && n in props[k].1 ==> props[k].0 in w && n !in r.w[props[k].0].own
    ensures props == [] ==> r == Deleted(w, None)
    ensures forall o :: o in w && (forall k :: 0 <= k < |props| ==> props[k].0 != o) ==> r.w[o] == w[o]
    decreases |props|
  {
    if props == [] then Deleted(w, None)
    else
      var d := DeleteAll(w, props[0].0, props[0].1);
      if d.error.Some? then d
      else
        var r := TeardownProperties(d.w, props[1..]);
        assert forall k :: 1 <= k < |props| ==> props[k] == props[1..][k - 1];
        r
  }

  /** Deleting a list of names from one object, stopping at the first one it does not hold. */
  function DeleteAll(w: World, obj: ObjId, names: seq<string>): (r: Deleted)
    ensures r.w.Keys == w.Keys
    ensures forall o :: o in w ==> r.w[o].own.Keys <= w[o].own.Keys
    ensures r.error.Some? ==> r.error.value.Foreign? && r.error.value.cls == "AttributeError"
    ensures r.error.None? && names != [] ==> obj in w
    ensures r.error.None? && obj in w ==> forall n :: n in r.w[obj].own <==> n in w[obj].own && n !in names
    ensures obj in w ==> forall n :: n in r.w[obj].own ==> r.w[obj].own[n] == w[obj].own[n]
    ensures obj in w ==> r.w[obj] == w[obj].(own := r.w[obj].own)
    ensures forall k :: k in w && k != obj ==> r.w[k] == w[k]
    ensures names == [] ==> r == Deleted(w, None)
    decreases |names|
  {
    if names == [] then Deleted(w, None)
    else if obj !in w || names[0] !in w[obj].own then Deleted(w, Some(Foreign("AttributeError", names[0])))
    else DeleteAll(Unset(w, obj, names[0]), obj, names[1..])
  }
}
