/**
 * `flexmock_teardown`: puts back every patched attribute, removes the
 * saved method types and the entry points attached to real objects,
 * deletes the properties registered for teardown, empties the registry
 * and only then checks the call counts of everything that was saved.
 */
module Teardown {
  import opened Values
  import opened Errors
  import opened CallCount
  import opened Signature
  import opened Namespace
  import opened Expectations
  import opened Registry
  import opened Dispatch
  import opened Proxies

  // ---------------------------------------------------------------- what was saved

  /** Every saved expectation, proxy by proxy in registration order. */
  function AllIds(c: Container, entries: seq<Entry>): (ids: seq<ExpId>)
    requires forall i :: 0 <= i < |entries| ==> IdsIn(c, entries[i].exps)
    ensures IdsIn(c, ids)
    ensures forall i, k :: 0 <= i < |entries| && 0 <= k < |entries[i].exps| ==> entries[i].exps[k] in ids
    ensures forall id :: id in ids ==> exists i :: 0 <= i < |entries| && id in entries[i].exps
    ensures entries == [] ==> ids == []
    decreases |entries|
  {
    if entries == [] then []
    else
      var rest := AllIds(c, entries[1..]);
      assert forall i :: 1 <= i < |entries| ==> entries[i] == entries[1..][i - 1];
      var ids := entries[0].exps + rest;
      assert forall k :: 0 <= k < |ids| ==> ids[k] < |c.arena| by {
        forall k | 0 <= k < |ids|
          ensures ids[k] < |c.arena|
        {
          if k >= |entries[0].exps| {
            assert ids[k] == rest[k - |entries[0].exps|];
            assert IdsIn(c, rest);
          } else {
            assert ids[k] == entries[0].exps[k];
            assert IdsIn(c, entries[0].exps);
          }
        }
      }
      ids
  }

  /** Whether the teardown has anything to do with `o`: a proxy or an expectation targets it, or it holds registered properties. */
  predicate Touched(c: Container, o: ObjId)
  {
    (exists i :: 0 <= i < |c.objects| && c.objects[i].target == RealObj(o)) ||
    Patches(c, c.objects, o) ||
    (exists k :: 0 <= k < |c.properties| && c.properties[k].0 == o)
  }

  // ---------------------------------------------------------------- resetting

  /** The names under which the method types of these expectations were saved. */
  function Tags(c: Container, ids: seq<ExpId>): set<string>
    requires IdsIn(c, ids)
  {
    set k | 0 <= k < |ids| :: TagName(c.arena[ids[k]].name)
  }

  /**
   * Deleting `<name>__flexmock__method_type` from the target for each
   * expectation; a name the target does not hold itself is skipped, as the
   * AttributeError is swallowed.
   */
  function DropTags(w: World, c: Container, target: Target, ids: seq<ExpId>): (w2: World)
    requires IdsIn(c, ids)
    ensures w2.Keys == w.Keys
    ensures target.FakeMock? || target.obj !in w ==> w2 == w
    ensures target.RealObj? && target.obj in w ==>
              w2[target.obj] == w[target.obj].(own := w2[target.obj].own) &&
              (forall n :: n in w2[target.obj].own <==> n in w[target.obj].own && n !in Tags(c, ids)) &&
              (forall n :: n in w2[target.obj].own ==> w2[target.obj].own[n] == w[target.obj].own[n])
    ensures forall o :: o in w && target != RealObj(o) ==> w2[o] == w[o]
    decreases |ids|
  {
    if ids == [] || target.FakeMock? || target.obj !in w then w
    else
      var w2 := DropTags(Unset(w, target.obj, TagName(c.arena[ids[0]].name)), c, target, ids[1..]);
      assert forall n :: n in Tags(c, ids) <==> n == TagName(c.arena[ids[0]].name) || n in Tags(c, ids[1..]) by {
        forall n
          ensures n in Tags(c, ids) <==> n == TagName(c.arena[ids[0]].name) || n in Tags(c, ids[1..])
        {
          if n in Tags(c, ids) {
            var k :| 0 <= k < |ids| && n == TagName(c.arena[ids[k]].name);
            if k > 0 {
              assert ids[k] == ids[1..][k - 1];
            }
          }
          if n in Tags(c, ids[1..]) {
            var k :| 0 <= k < |ids[1..]| && n == TagName(c.arena[ids[1..][k]].name);
            assert ids[1..][k] == ids[k + 1];
          }
        }
      }
      w2
  }

  /** Resetting a proxy's expectations and then dropping their saved method types. */
  function ResetAndDrop(w: World, c: Container, entries: seq<Entry>): (w2: World)
    requires forall i :: 0 <= i < |entries| ==> IdsIn(c, entries[i].exps)
    ensures w2.Keys == w.Keys
    ensures forall o :: o in w && !Patches(c, entries, o) && (forall i :: 0 <= i < |entries| ==> entries[i].target != RealObj(o)) ==>
              w2[o] == w[o]
    decreases |entries|
  {
    if entries == [] then w
    else
      PatchesTail(c, entries);
      assert forall i :: 1 <= i < |entries| ==> entries[1..][i - 1] == entries[i];
      ResetAndDrop(DropTags(ResetIds(w, c, entries[0].exps), c, entries[0].target, entries[0].exps), c, entries[1..])
  }

  /**
   * The first step of each revision: the current one removes the saved
   * method types after each proxy's resets; the earlier ones only reset.
   */
  function ResetStage(rev: Revision, w: World, c: Container): (w2: World)
    requires Valid(c)
    ensures w2.Keys == w.Keys
    ensures forall o :: o in w && !Patches(c, c.objects, o) && (forall i :: 0 <= i < |c.objects| ==> c.objects[i].target != RealObj(o)) ==>
              w2[o] == w[o]
  {
    if rev == Current then ResetAndDrop(w, c, c.objects) else ResetEntries(w, c, c.objects)
  }

  // ---------------------------------------------------------------- the attached entry points

  /** Whether an own attribute is one of the entry points `_attach_flexmock_methods` put there. */
  predicate IsAttachedApi(o: Obj, n: string)
    requires n in o.own
  {
    n in UpdatedAttrs && o.own[n].kind == ApiMethodAttr
  }

  /** An object without the entry points it holds itself; an inherited one is left alone. */
  function StripApi(o: Obj): (o2: Obj)
    ensures o2 == o.(own := o2.own)
    ensures forall n :: n in o2.own <==> n in o.own && !IsAttachedApi(o, n)
    ensures forall n :: n in o2.own ==> o2.own[n] == o.own[n]
  {
    o.(own := map n | n in o.own && !IsAttachedApi(o, n) :: o.own[n])
  }

  /** Stripping every real object behind a registered proxy; fake objects are skipped. */
  function StripAll(w: World, entries: seq<Entry>): (w2: World)
    ensures w2.Keys == w.Keys
    ensures forall o :: o in w ==> w2[o] == w[o] || w2[o] == StripApi(w[o])
    ensures forall o :: o in w && (forall i :: 0 <= i < |entries| ==> entries[i].target != RealObj(o)) ==> w2[o] == w[o]
    ensures forall i :: 0 <= i < |entries| && entries[i].target.RealObj? && entries[i].target.obj in w ==>
              w2[entries[i].target.obj] == StripApi(w[entries[i].target.obj])
    decreases |entries|
  {
    if entries == [] then w
    else
      var w1 := match entries[0].target
                case FakeMock(_) => w
                case RealObj(o) => if o in w then w[o := StripApi(w[o])] else w;
      var w2 := StripAll(w1, entries[1..]);
      assert forall i :: 1 <= i < |entries| ==> entries[i] == entries[1..][i - 1];
      StripIdempotent(w, entries, w1, w2);
      w2
  }

  /** Stripping twice is stripping once. */
  lemma StripApiTwice(o: Obj)
    ensures StripApi(StripApi(o)) == StripApi(o)
  {
    assert StripApi(StripApi(o)).own == StripApi(o).own;
  }

  lemma StripIdempotent(w: World, entries: seq<Entry>, w1: World, w2: World)
    requires entries != []
    requires w1 == match entries[0].target
                   case FakeMock(_) => w
                   case RealObj(o) => if o in w then w[o := StripApi(w[o])] else w
    requires w2.Keys == w1.Keys
    requires forall o :: o in w1 ==> w2[o] == w1[o] || w2[o] == StripApi(w1[o])
    ensures forall o :: o in w && entries[0].target == RealObj(o) ==> w2[o] == StripApi(w[o])
  {
    forall o | o in w && entries[0].target == RealObj(o)
      ensures w2[o] == StripApi(w[o])
    {
      StripApiTwice(w[o]);
    }
  }

  // ---------------------------------------------------------------- the whole teardown

  /**
   * Everything before the count checks: resets, stripping, then the
   * property deletions, whose AttributeError aborts the teardown.
   */
  function CleanUp(rev: Revision, s: Session): (d: Deleted)
    requires Valid(s.c)
    ensures d.w.Keys == s.w.Keys
    ensures forall o :: o in s.w && !Touched(s.c, o) ==> d.w[o] == s.w[o]
    ensures d.error.None? ==> forall k, n :: 0 <= k < |s.c.properties| && n in s.c.properties[k].1 ==>
              s.c.properties[k].0 in s.w && n !in d.w[s.c.properties[k].0].own
  {
    TeardownProperties(StripAll(ResetStage(rev, s.w, s.c), s.c.objects), s.c.properties)
  }

  /** A saved expectation whose count check at teardown fails. */
  predicate Unmet(e: Expectation)
  {
    !Allows(e.count, e.timesCalled, true) && !e.verified
  }

  /** The position of the first saved expectation whose count check fails. */
  function FirstUnmet(arena: seq<Expectation>, ids: seq<ExpId>): (r: Option<nat>)
    requires forall k :: 0 <= k < |ids| ==> ids[k] < |arena|
    ensures r.None? <==> forall k :: 0 <= k < |ids| ==> !Unmet(arena[ids[k]])
    ensures r.Some? ==> r.value < |ids| && Unmet(arena[ids[r.value]])
    ensures r.Some? ==> forall j :: 0 <= j < r.value ==> !Unmet(arena[ids[j]])
    decreases |ids|
  {
    if ids == [] then None
    else if Unmet(arena[ids[0]]) then Some(0)
    else
      match FirstUnmet(arena, ids[1..])
      case None =>
        assert forall k :: 1 <= k < |ids| ==> ids[k] == ids[1..][k - 1];
        None
      case Some(j) =>
        assert forall k :: 1 <= k <= j ==> ids[k] == ids[1..][k - 1];
        Some(j + 1)
  }

  /** The session after teardown, and the exception it raised, if any. */
  datatype TornDown = TornDown(s: Session, error: Option<Error>)

  /**
   * The teardown with the count checks kept apart from the cleanup: a
   * failing check raises MethodCallError and changes nothing else, so the
   * objects end as the cleanup left them whatever the counts were.
   */
  function FlexmockTeardown(rev: Revision, s: Session): (r: TornDown)
    requires Valid(s.c)
    ensures r.s.w == CleanUp(rev, s).w
    ensures CleanUp(rev, s).error.Some? ==> r.s.c == s.c && r.error == CleanUp(rev, s).error
    ensures CleanUp(rev, s).error.None? ==>
              Valid(r.s.c) && r.s.c.objects == [] && r.s.c.ordered == [] && r.s.c.last.None? && r.s.c.properties == []
    ensures CleanUp(rev, s).error.None? ==>
              var ids := AllIds(s.c, s.c.objects);
              (r.error.None? <==> forall k :: 0 <= k < |ids| ==> !Unmet(s.c.arena[ids[k]]))
    ensures CleanUp(rev, s).error.None? && r.error.Some? ==>
              r.error.value.Flex? && r.error.value.kind == MethodCallError
  {
    var d := CleanUp(rev, s);
    if d.error.Some? then TornDown(s.(w := d.w), d.error)
    else
      var ids := AllIds(s.c, s.c.objects);
      var c := Reset(s.c);
      match FirstUnmet(s.c.arena, ids)
      case None => TornDown(Session(c, d.w), None)
      case Some(k) =>
        var v := Verify(rev, s.c.arena[ids[k]], true);
        TornDown(Session(c.(arena := c.arena[ids[k] := v.e]), d.w), v.error)
  }

  /**
   * The teardown as each revision writes it: `_verify` raises through the
   * helper that resets the expectation first, so a failing count check
   * resets its expectation a second time, after the cleanup.
   */
  function FlexmockTeardownAsWritten(rev: Revision, s: Session): (r: TornDown)
    requires Valid(s.c)
    ensures r.s.c == FlexmockTeardown(rev, s).s.c && r.error == FlexmockTeardown(rev, s).error
    ensures r.error.None? ==> r == FlexmockTeardown(rev, s)
    ensures r.s.w.Keys == s.w.Keys
    ensures forall o :: o in s.w && !Touched(s.c, o) ==> r.s.w[o] == CleanUp(rev, s).w[o]
    ensures var ids := AllIds(s.c, s.c.objects);
            CleanUp(rev, s).error.None? && FirstUnmet(s.c.arena, ids).Some? ==>
              r.s.w == ResetAgain(rev, s.c, CleanUp(rev, s).w, ids[FirstUnmet(s.c.arena, ids).value])
  {
    var d := CleanUp(rev, s);
    if d.error.Some? then TornDown(s.(w := d.w), d.error)
    else
      var ids := AllIds(s.c, s.c.objects);
      var c := Reset(s.c);
      match FirstUnmet(s.c.arena, ids)
      case None => TornDown(Session(c, d.w), None)
      case Some(k) =>
        var v := Verify(rev, s.c.arena[ids[k]], true);
        TornDown(Session(c.(arena := c.arena[ids[k] := v.e]), ResetAgain(rev, s.c, d.w, ids[k])), v.error)
  }

  /** The reset `_verify` does before raising, on the world the cleanup left. */
  function ResetAgain(rev: Revision, c: Container, w: World, id: ExpId): (w2: World)
    requires Valid(c) && id in AllIds(c, c.objects)
    ensures w2 == ResetExpectation(w, Verify(rev, c.arena[id], true).e)
    ensures w2.Keys == w.Keys
    ensures forall o :: o in w && !Touched(c, o) ==> w2[o] == w[o]
  {
    SavedTargetTouched(c, id);
    ResetExpectation(w, Verify(rev, c.arena[id], true).e)
  }

  // ---------------------------------------------------------------- properties of the teardown

  /** Objects the teardown has nothing to do with come out of it as they went in. */
  lemma {:induction false} UntouchedUnchanged(rev: Revision, s: Session, o: ObjId)
    requires Valid(s.c) && o in s.w && !Touched(s.c, o)
    ensures FlexmockTeardown(rev, s).s.w[o] == s.w[o]
    ensures FlexmockTeardownAsWritten(rev, s).s.w[o] == s.w[o]
  {
  }

  /** A saved expectation targets only an object the teardown has to do with. */
  lemma SavedTargetTouched(c: Container, id: ExpId)
    requires Valid(c) && id in AllIds(c, c.objects)
    ensures forall o :: !Touched(c, o) ==> c.arena[id].target != RealObj(o)
  {
    var i :| 0 <= i < |c.objects| && id in c.objects[i].exps;
    var j :| 0 <= j < |c.objects[i].exps| && c.objects[i].exps[j] == id;
    assert forall o :: !Patches(c, c.objects, o) ==> c.arena[c.objects[i].exps[j]].target != RealObj(o);
  }

  /** A second teardown right after a clean one finds nothing to do. */
  lemma SecondTeardownIsQuiet(rev: Revision, s: Session)
    requires Valid(s.c) && CleanUp(rev, s).error.None?
    ensures var r := FlexmockTeardown(rev, s);
            FlexmockTeardown(rev, r.s) == TornDown(r.s, None)
  {
    var r := FlexmockTeardown(rev, s);
    assert CleanUp(rev, r.s) == Deleted(r.s.w, None);
  }

  // ---------------------------------------------------------------- the repeated reset

  /** An instance whose class defines `f`, patched by one `once()` expectation that was never called. */
  function InheritedScenario(): (s: Session)
    ensures Valid(s.c)
  {
    var f := Attr(FunctionAttr, Opaque(1, "<function f>", true, None));
    var base := Obj(ClassObj, ProxyDict, map["f" := f], []);
    var patched := Obj(InstanceObj, PlainDict,
                       map["f" := Proxies.MockMethod("f", Some(1)), TagName("f") := Attr(MethodTypeTag(OrdinaryType), PyNone)], [0]);
    var e := NewExpectation(RealObj(1), "f", PyNone, Some(f), Some(OrdinaryType), None)
               .(count := Times(Unconstrained, 1), localOverride := true);
    Session(Container([e], [Entry(7, RealObj(1), [0])], [], None, []), map[0 := base, 1 := patched])
  }

  /** The scenario's world once the cleanup is done: the instance's namespace is empty again. */
  function CleanedScenario(): World
  {
    var s := InheritedScenario();
    s.w[1 := s.w[1].(own := map[])]
  }

  lemma ScenarioResetStage()
    ensures ResetStage(Current, InheritedScenario().w, InheritedScenario().c) == CleanedScenario()
  {
    var s := InheritedScenario();
    var w1 := ResetExpectation(s.w, s.c.arena[0]);
    assert w1 == Unset(s.w, 1, "f");
    assert ResetIds(s.w, s.c, [0]) == w1;
    assert Tags(s.c, [0]) == {TagName("f")};
    var w2 := DropTags(w1, s.c, RealObj(1), [0]);
    assert w2[1].own.Keys == {} by {
      assert "f" != TagName("f");
    }
    assert w2[1] == CleanedScenario()[1];
    assert ResetAndDrop(s.w, s.c, s.c.objects) == ResetAndDrop(w2, s.c, []);
  }

  lemma ScenarioCleanUp()
    ensures CleanUp(Current, InheritedScenario()) == Deleted(CleanedScenario(), None)
  {
    var s := InheritedScenario();
    ScenarioResetStage();
    var w := CleanedScenario();
    assert StripApi(w[1]) == w[1];
    assert StripAll(w, s.c.objects) == w;
  }

  lemma ScenarioFails()
    ensures AllIds(InheritedScenario().c, InheritedScenario().c.objects) == [0]
    ensures FirstUnmet(InheritedScenario().c.arena, [0]) == Some(0)
  {
    var s := InheritedScenario();
    assert AllIds(s.c, s.c.objects[1..]) == [];
    assert Unmet(s.c.arena[0]);
  }

  /**
   * As written, the never-called expectation fails its count check after
   * the cleanup already deleted the instance's replacement, so the reset
   * done before raising finds nothing to delete and writes the class's
   * function into the instance's own namespace.
   */
  lemma RepeatedResetLeavesCopy()
    ensures var r := FlexmockTeardownAsWritten(Current, InheritedScenario());
            r.error.Some? && r.error.value.kind == MethodCallError &&
            "f" in r.s.w[1].own && r.s.w[1].own["f"].kind == FunctionAttr
  {
    var s := InheritedScenario();
    ScenarioCleanUp();
    ScenarioFails();
    ScenarioResetAgain();
    var r := FlexmockTeardownAsWritten(Current, s);
    assert r.error == FlexmockTeardown(Current, s).error;
    assert r.s.w == ResetAgain(Current, s.c, CleanedScenario(), 0);
  }

  /** The repeated reset on the cleaned scenario writes the class's function onto the instance. */
  lemma ScenarioResetAgain()
    ensures var s := InheritedScenario();
            0 in AllIds(s.c, s.c.objects) &&
            ResetAgain(Current, s.c, CleanedScenario(), 0) == PySetattr(CleanedScenario(), 1, "f", s.w[0].own["f"])
  {
    var s := InheritedScenario();
    ScenarioFails();
    var v := Verify(Current, s.c.arena[0], true);
    assert v.e == s.c.arena[0].(verified := true);
    assert ResetExpectation(CleanedScenario(), v.e) == PySetattr(CleanedScenario(), 1, "f", s.w[0].own["f"]);
  }

  /** Without the repeated reset, the same teardown leaves the instance with an empty namespace, as before patching. */
  lemma CleanScenario()
    ensures var r := FlexmockTeardown(Current, InheritedScenario());
            r.error.Some? && r.error.value.kind == MethodCallError &&
            r.s.w[1].own == map[] && r.s.w[0] == InheritedScenario().w[0]
  {
    ScenarioCleanUp();
    ScenarioFails();
  }
}
