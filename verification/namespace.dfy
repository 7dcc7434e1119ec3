/**
 * The attribute namespaces the engine patches and restores. Python's
 * reflection is replaced by explicit data: every object has its own
 * attributes and, for classes and instances, the classes searched after
 * them; each attribute carries the kind of descriptor it is.
 */
module Namespace {
  import opened Values
  import opened Errors
  import opened Signature

  type ObjId = nat

  /** What an attribute holds, as far as the engine's classifiers look. */
  datatype AttrKind =
    | DataAttr                      // a plain value
    | FunctionAttr                  // a function (bound when read through an instance)
    | ClassMethodAttr               // a classmethod descriptor
    | StaticMethodAttr              // a staticmethod descriptor
    | PropertyAttr                  // a property descriptor
    | MockMethodAttr(bound: Option<ObjId>) // a replacement method the engine installed, bound or not
    | ApiMethodAttr                 // one of the engine's entry points, such as should_receive
    | MethodTypeTag(mt: MethodType) // the saved `<name>__flexmock__method_type`

  datatype Attr = Attr(kind: AttrKind, value: Value)

  /** Python truthiness: only plain values can be falsy. */
  predicate AttrTruthy(a: Attr)
  {
    !a.kind.DataAttr? || Truthy(a.value)
  }

  datatype ObjKind = ModuleObj | ClassObj | InstanceObj

  /** `__dict__`: a real dictionary, a class's read-only mapping proxy, or none at all. */
  datatype DictKind = PlainDict | ProxyDict | NoDict

  /**
   * An object: its own attributes (its `__dict__`, or its slot values when
   * it has none) and the classes searched after them, in resolution order:
   * a class's bases, or an instance's class followed by that class's bases.
   */
  datatype Obj = Obj(kind: ObjKind, dict: DictKind, own: map<string, Attr>, mro: seq<ObjId>)

  /** Classes, and only classes, have a mapping proxy for a namespace. */
  predicate ProxyIffClass(o: Obj)
  {
    o.kind == ClassObj <==> o.dict == ProxyDict
  }

  type World = map<ObjId, Obj>

  // ---------------------------------------------------------------- lookup

  /** Whether class `c` itself defines `name` with an entry that `p` accepts. */
  predicate DefinesWith(w: World, c: ObjId, name: string, p: Attr -> bool)
  {
    c in w && name in w[c].own && p(w[c].own[name])
  }

  /** The position of the first class in `mro` that defines `name` acceptably. */
  function FirstDefining(w: World, mro: seq<ObjId>, name: string, p: Attr -> bool): (r: Option<nat>)
    ensures r.Some? ==> r.value < |mro| && DefinesWith(w, mro[r.value], name, p)
    ensures r.Some? ==> forall j :: 0 <= j < r.value ==> !DefinesWith(w, mro[j], name, p)
    ensures r.None? ==> forall j :: 0 <= j < |mro| ==> !DefinesWith(w, mro[j], name, p)
  {
    if mro == [] then None
    else if DefinesWith(w, mro[0], name, p) then Some(0)
    else
      var rest := FirstDefining(w, mro[1..], name, p);
      if rest.None? then
        assert forall j :: 1 <= j < |mro| ==> mro[j] == mro[1..][j - 1];
        None
      else
        assert forall j :: 1 <= j < rest.value + 1 ==> mro[j] == mro[1..][j - 1];
        Some(rest.value + 1)
  }

  function AnyAttr(a: Attr): bool { true }

  /** The attribute the first class in `mro` that defines `name` holds. */
  function Inherited(w: World, mro: seq<ObjId>, name: string): Option<Attr>
  {
    var i := FirstDefining(w, mro, name, AnyAttr);
    if i.None? then None else Some(w[mro[i.value]].own[name])
  }

  /**
   * `inspect.getattr_static`: the object's own entry, else the first class
   * in the resolution order that defines it (for a module, its type's).
   */
  function Resolve(w: World, id: ObjId, name: string): (r: Option<Attr>)
    requires id in w
    ensures name in w[id].own ==> r == Some(w[id].own[name])
    ensures name !in w[id].own ==> r == Inherited(w, w[id].mro, name)
  {
    var o := w[id];
    if name in o.own then Some(o.own[name]) else Inherited(w, o.mro, name)
  }

  /** An instance's class, as the start of its resolution order. */
  function ClassOf(o: Obj): Option<ObjId>
  {
    if o.kind == InstanceObj && o.mro != [] then Some(o.mro[0]) else None
  }

  /**
   * `_hasattr`: for a non-class object with a `__dict__` that lacks the
   * name, the attributes every class inherits from `type` count as missing
   * and anything else is looked up on the class; otherwise a plain lookup.
   */
  predicate HasAttr(w: World, rootTypeAttrs: set<string>, id: ObjId, name: string)
    requires id in w
  {
    var o := w[id];
    if o.kind != ClassObj && o.dict != NoDict && name !in o.own then
      name !in rootTypeAttrs && Inherited(w, o.mro, name).Some?
    else Resolve(w, id, name).Some?
  }

  /** `_hasattr` agrees with lookup except for the root-type names an instance only inherits. */
  lemma HasAttrMeansResolvable(w: World, rootTypeAttrs: set<string>, id: ObjId, name: string)
    requires id in w
    ensures HasAttr(w, rootTypeAttrs, id, name) <==>
              Resolve(w, id, name).Some? &&
              !(w[id].kind != ClassObj && w[id].dict != NoDict && name !in w[id].own && name in rootTypeAttrs)
  {
  }

  /**
   * `_isproperty`: whether the attribute is a property, read on the class
   * for an instance that does not hold the name itself. Reading a name no
   * class defines raises AttributeError.
   */
  function IsProperty(w: World, id: ObjId, name: string): (r: Result<bool>)
    requires id in w
    ensures r == Ok(true) ==> name !in w[id].own || w[id].kind == ClassObj
    ensures r == Ok(true) ==> Resolve(w, id, name).Some? && Resolve(w, id, name).value.kind == PropertyAttr
  {
    var o := w[id];
    if o.kind != ClassObj && o.dict != NoDict && name !in o.own then
      match Inherited(w, o.mro, name)
      case None => Err(Foreign("AttributeError", name))
      case Some(a) => Ok(a.kind == PropertyAttr)
    else if o.kind == ClassObj then
      match Resolve(w, id, name)
      case None => Err(Foreign("AttributeError", name))
      case Some(a) => Ok(a.kind == PropertyAttr)
    else Ok(false)
  }

  function NotNone(a: Attr): bool { a != Attr(DataAttr, PyNone) }

  /** A class followed by its bases. */
  function FullMro(w: World, c: ObjId): seq<ObjId>
    requires c in w
  {
    [c] + w[c].mro
  }

  /**
   * `_is_class_method`: only a method bound to a class qualifies, and the
   * first class in that class's resolution order that defines the name
   * decides.
   */
  predicate IsClassMethod(w: World, boundTo: Option<ObjId>, name: string)
  {
    boundTo.Some? && boundTo.value in w && w[boundTo.value].kind == ClassObj &&
    var i := FirstDefining(w, FullMro(w, boundTo.value), name, NotNone);
    i.Some? && w[FullMro(w, boundTo.value)[i.value]].own[name].kind == ClassMethodAttr
  }

  /** `_is_static_method`: the statically looked-up attribute is a staticmethod. */
  predicate IsStaticMethod(w: World, id: ObjId, name: string)
    requires id in w
  {
    var r := Resolve(w, id, name);
    r.Some? && r.value.kind == StaticMethodAttr
  }

  /** The attribute name under which a method's type is saved on the patched object. */
  function TagName(name: string): string
  {
    name + "__flexmock__method_type"
  }

  /**
   * `_get_saved_method_type`: for a method bound to a class, the type
   * saved on the first class of its resolution order that carries one.
   */
  function SavedMethodType(w: World, boundTo: Option<ObjId>, name: string): (r: Option<MethodType>)
    ensures r.Some? ==> boundTo.Some? && boundTo.value in w && w[boundTo.value].kind == ClassObj
  {
    if boundTo.None? || boundTo.value !in w || w[boundTo.value].kind != ClassObj then None
    else
      var mro := FullMro(w, boundTo.value);
      var i := FirstDefining(w, mro, TagName(name), AttrTruthy);
      if i.None? then None
      else
        match w[mro[i.value]].own[TagName(name)].kind
        case MethodTypeTag(mt) => Some(mt)
        case _ => Some(OrdinaryType)
  }

  // ---------------------------------------------------------------- capture

  /**
   * The original the engine keeps: the raw entry when the object's own
   * namespace holds the name, otherwise what reading the attribute gives,
   * together with the class a method read that way is bound to.
   */
  datatype Captured = Captured(attr: Attr, raw: bool, boundTo: Option<ObjId>)

  /**
   * The object a stored attribute is already bound to: only an installed
   * mock method is stored bound (`types.MethodType`), and reading it,
   * raw or through a subclass, keeps that binding.
   */
  function StoredBinding(a: Attr): Option<ObjId>
  {
    if a.kind.MockMethodAttr? then a.kind.bound else None
  }

  /**
   * `_update_original`; reading a name nothing defines raises
   * AttributeError. A classmethod read through a class or instance is
   * bound to that class; a stored bound method keeps its binding.
   */
  function Capture(w: World, id: ObjId, name: string): (r: Result<Captured>)
    requires id in w
    ensures r.Ok? <==> Resolve(w, id, name).Some?
    ensures r.Ok? ==> r.value.attr == Resolve(w, id, name).value
    ensures r.Ok? && name in w[id].own ==> r.value.raw && r.value.boundTo == StoredBinding(w[id].own[name])
    ensures r.Ok? && name !in w[id].own && r.value.attr.kind.MockMethodAttr? ==> r.value.boundTo == r.value.attr.kind.bound
    ensures r.Ok? && name !in w[id].own && r.value.attr.kind == ClassMethodAttr ==>
              r.value.boundTo == (if w[id].kind == ClassObj then Some(id) else ClassOf(w[id]))
  {
    var o := w[id];
    if name in o.own then Ok(Captured(o.own[name], true, StoredBinding(o.own[name])))
    else
      match Resolve(w, id, name)
      case None => Err(Foreign("AttributeError", name))
      case Some(a) =>
        var bound :=
          if a.kind.MockMethodAttr? then a.kind.bound
          else if a.kind != ClassMethodAttr then None
          else if o.kind == ClassObj then Some(id)
          else ClassOf(o);
        Ok(Captured(a, false, bound))
  }

  /** `type(original)`: only a raw descriptor is a classmethod or staticmethod object. */
  function TypeOf(c: Captured): MethodType
  {
    if c.raw && c.attr.kind == ClassMethodAttr then ClassMethodType
    else if c.raw && c.attr.kind == StaticMethodAttr then StaticMethodType
    else OrdinaryType
  }

  /** Python's `setattr`: the value lands in the object's own namespace. */
  function PySetattr(w: World, id: ObjId, name: string, a: Attr): (w2: World)
    requires id in w
    ensures w2.Keys == w.Keys && w2[id] == w[id].(own := w[id].own[name := a])
    ensures forall k :: k in w && k != id ==> w2[k] == w[k]
  {
    w[id := w[id].(own := w[id].own[name := a])]
  }

  /** Removes a name from an object's own namespace. */
  function Unset(w: World, id: ObjId, name: string): (w2: World)
    requires id in w
    ensures w2.Keys == w.Keys && w2[id] == w[id].(own := w[id].own - {name})
    ensures forall k :: k in w && k != id ==> w2[k] == w[k]
  {
    w[id := w[id].(own := w[id].own - {name})]
  }

  /** The method type recorded for a patched method, and the world after recording it. */
  datatype Typed = Typed(mt: MethodType, world: World)

  /**
   * How each revision decides the method type of a freshly captured
   * original. The current one consults a type saved on the class, then the
   * resolution order, then the original's own type, and saves what it
   * found on the patched object; the earlier ones take the original's
   * type, overridden by the type of the raw entry in the instance's own
   * class (`object.__getattribute__` on the class reads only that
   * class's namespace; a class's or module's own type is outside the
   * world, so for them the original's type stands).
   */
  function MethodTypeOf(rev: Revision, w: World, id: ObjId, name: string, c: Captured): (t: Typed)
    requires id in w
    ensures t.world.Keys == w.Keys
    ensures rev != Current ==> t.world == w
    ensures rev == Current && t.world != w ==> t.world == PySetattr(w, id, TagName(name), Attr(MethodTypeTag(t.mt), PyNone))
    ensures rev == Current && IsClassMethod(w, c.boundTo, name) ==> t.mt == ClassMethodType || SavedMethodType(w, c.boundTo, name).Some?
    ensures rev != Current && ClassEntry(w, id, name).Some? ==> t.mt == TypeOf(Captured(ClassEntry(w, id, name).value, true, None))
    ensures rev != Current && ClassEntry(w, id, name).None? ==> t.mt == TypeOf(c)
  {
    if rev == Current then
      var saved := SavedMethodType(w, c.boundTo, name);
      if saved.Some? then Typed(saved.value, w)
      else
        var mt :=
          if IsClassMethod(w, c.boundTo, name) then ClassMethodType
          else if IsStaticMethod(w, id, name) then StaticMethodType
          else TypeOf(c);
        Typed(mt, PySetattr(w, id, TagName(name), Attr(MethodTypeTag(mt), PyNone)))
    else
      match ClassEntry(w, id, name)
      case Some(a) => Typed(TypeOf(Captured(a, true, None)), w)
      case None => Typed(TypeOf(c), w)
  }

  /** What an instance's own class itself holds under `name`, read raw. */
  function ClassEntry(w: World, id: ObjId, name: string): (a: Option<Attr>)
    requires id in w
    ensures a.Some? <==> w[id].kind == InstanceObj && ClassOf(w[id]).Some? && ClassOf(w[id]).value in w &&
                         name in w[ClassOf(w[id]).value].own
    ensures a.Some? ==> a.value == w[ClassOf(w[id]).value].own[name]
  {
    var cls := ClassOf(w[id]);
    if w[id].kind == InstanceObj && cls.Some? && cls.value in w && name in w[cls.value].own then
      Some(w[cls.value].own[name])
    else None
  }

  /**
   * In the earlier revisions a classmethod or staticmethod the instance's
   * class defines itself is typed as such, whatever the captured original
   * is; one the class only inherits keeps the original's type.
   */
  lemma EarlierTypeFromOwnClass(rev: Revision, w: World, id: ObjId, name: string, c: Captured)
    requires rev != Current && id in w && w[id].kind == InstanceObj && w[id].mro != [] && w[id].mro[0] in w
    ensures var cls := w[w[id].mro[0]];
            var mt := MethodTypeOf(rev, w, id, name, c).mt;
            (name in cls.own && cls.own[name].kind == StaticMethodAttr ==> mt == StaticMethodType) &&
            (name in cls.own && cls.own[name].kind == ClassMethodAttr ==> mt == ClassMethodType) &&
            (name !in cls.own ==> mt == TypeOf(c))
  {
  }

  /** A static method stays static in the current revision, whatever is bound. */
  lemma StaticMethodOnInstanceIsStatic(w: World, id: ObjId, name: string, c: Captured)
    requires id in w && w[id].kind == InstanceObj && name !in w[id].own
    requires c.boundTo.None?
    requires IsStaticMethod(w, id, name)
    ensures MethodTypeOf(Current, w, id, name, c).mt == StaticMethodType
  {
  }

  // ---------------------------------------------------------------- patching

  /** The world after `_setattr`, and whether the name was introduced locally. */
  datatype Patched = Patched(world: World, localOverride: bool)

  /**
   * `_setattr`: a real dictionary is written directly and the override is
   * local when the name was absent. Anything else goes through `setattr`;
   * the current revision reports a class that did not itself hold a truthy
   * entry as a local override, the earlier ones never do.
   */
  function Setattr(rev: Revision, w: World, id: ObjId, name: string, a: Attr): (p: Patched)
    requires id in w
    ensures p.world == PySetattr(w, id, name, a)
    ensures p.localOverride <==>
              (w[id].dict == PlainDict && name !in w[id].own) ||
              (w[id].dict != PlainDict && rev == Current && w[id].kind == ClassObj &&
               (name !in w[id].own || !AttrTruthy(w[id].own[name])))
  {
    var o := w[id];
    if o.dict == PlainDict then Patched(PySetattr(w, id, name, a), name !in o.own)
    else
      var local := rev == Current && o.kind == ClassObj && (name !in o.own || !AttrTruthy(o.own[name]));
      Patched(PySetattr(w, id, name, a), local)
  }

  /**
   * `_reset` for an expectation on a real object: nothing happens unless
   * the kept original is truthy; a local override present in the object's
   * namespace is deleted, anything else has the original written back.
   */
  function Restore(w: World, id: ObjId, name: string, original: Option<Attr>, localOverride: bool): (w2: World)
    requires id in w
    ensures original.None? || !AttrTruthy(original.value) ==> w2 == w
    ensures original.Some? && AttrTruthy(original.value) && localOverride && w[id].dict != NoDict && name in w[id].own ==>
              w2 == Unset(w, id, name)
    ensures original.Some? && AttrTruthy(original.value) && !(localOverride && w[id].dict != NoDict && name in w[id].own) ==>
              w2 == PySetattr(w, id, name, original.value)
  {
    if original.None? || !AttrTruthy(original.value) then w
    else
      var o := w[id];
      if o.dict != NoDict && name in o.own && localOverride then Unset(w, id, name)
      else PySetattr(w, id, name, original.value)
  }

  /**
   * Patching a name and resetting it gives back the object's namespace,
   * when the kept original is truthy and is what the object itself held,
   * provided the object has a namespace to write to and, before the
   * current revision, is not a class that only inherits the name.
   */
  lemma PatchThenRestore(rev: Revision, w: World, id: ObjId, name: string, replacement: Attr, original: Attr)
    requires id in w && ProxyIffClass(w[id])
    requires AttrTruthy(original)
    requires name in w[id].own ==> w[id].own[name] == original
    requires w[id].dict != NoDict || name in w[id].own
    requires rev != Current && w[id].kind == ClassObj ==> name in w[id].own
    ensures var p := Setattr(rev, w, id, name, replacement);
            Restore(p.world, id, name, Some(original), p.localOverride) == w
  {
    var p := Setattr(rev, w, id, name, replacement);
    var o := w[id];
    if name in o.own {
      assert o.own[name := replacement][name := original] == o.own;
      assert Restore(p.world, id, name, Some(original), p.localOverride) == PySetattr(p.world, id, name, original);
    } else {
      assert o.own[name := replacement] - {name} == o.own;
    }
  }

  /**
   * Before the current revision, a class that only inherits a method is
   * left holding its own copy after patching and resetting it.
   */
  lemma EarlierClassKeepsInheritedCopy(rev: Revision)
    requires rev != Current
    ensures var f := Attr(FunctionAttr, Opaque(1, "<function f>", true, None));
            var base := Obj(ClassObj, ProxyDict, map["f" := f], []);
            var child := Obj(ClassObj, ProxyDict, map[], [0]);
            var w := map[0 := base, 1 := child];
            var p := Setattr(rev, w, 1, "f", Attr(MockMethodAttr(None), Opaque(2, "<mock>", true, None)));
            var after := Restore(p.world, 1, "f", Some(f), p.localOverride);
            "f" !in w[1].own && "f" in after[1].own && after[1].own["f"] == f
  {
  }

  /** In the current revision the same sequence leaves the child class as it was. */
  lemma CurrentClassDropsInheritedCopy()
    ensures var f := Attr(FunctionAttr, Opaque(1, "<function f>", true, None));
            var base := Obj(ClassObj, ProxyDict, map["f" := f], []);
            var child := Obj(ClassObj, ProxyDict, map[], [0]);
            var w := map[0 := base, 1 := child];
            var p := Setattr(Current, w, 1, "f", Attr(MockMethodAttr(None), Opaque(2, "<mock>", true, None)));
            Restore(p.world, 1, "f", Some(f), p.localOverride) == w
  {
    var f := Attr(FunctionAttr, Opaque(1, "<function f>", true, None));
    var base := Obj(ClassObj, ProxyDict, map["f" := f], []);
    var child := Obj(ClassObj, ProxyDict, map[], [0]);
    var w := map[0 := base, 1 := child];
    PatchThenRestore(Current, w, 1, "f", Attr(MockMethodAttr(None), Opaque(2, "<mock>", true, None)), f);
  }
}
