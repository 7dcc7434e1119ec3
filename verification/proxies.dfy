/**
 * The proxy side of the engine: `should_receive` and its relatives, the
 * expectations they create and the patching they do, and the memoised
 * creation of a proxy for a real object. Creation follows the current
 * revision; the name checks are given for all three.
 */
module Proxies {
  import opened Values
  import opened Errors
  import opened Text
  import opened Signature
  import opened CallCount
  import opened Namespace
  import opened Expectations
  import opened Registry
  import opened ResultQueue
  import opened Dispatch

  /** The engine's entry points, which it installs on the objects it patches. */
  const UpdatedAttrs: seq<string> := ["should_receive", "should_call", "new_instances"]

  // ---------------------------------------------------------------- names

  /** The position of the first `ch` in `s`, or `|s|` when there is none. */
  function IndexOf(s: string, ch: char): (i: nat)
    ensures i <= |s|
    ensures i < |s| ==> s[i] == ch
    ensures forall k :: 0 <= k < i ==> s[k] != ch
  {
    if s == [] then 0
    else if s[0] == ch then 0
    else
      var j := IndexOf(s[1..], ch);
      assert forall k :: 1 <= k < j + 1 ==> s[k] == s[1..][k - 1];
      j + 1
  }

  /** A requested name, split into the attribute on this object and the chain after it. */
  datatype Split = Split(head: string, rest: Option<string>)

  /** `name.split(".", 1)`, done only when the name holds a dot. */
  function SplitChained(name: string): (r: Split)
    ensures r.rest.None? <==> '.' !in name
    ensures r.rest.None? ==> r.head == name
    ensures r.rest.Some? ==> name == r.head + "." + r.rest.value && '.' !in r.head
  {
    var i := IndexOf(name, '.');
    if i == |name| then Split(name, None)
    else
      assert name == name[..i] + "." + name[i + 1..];
      Split(name[..i], Some(name[i + 1..]))
  }

  /** Splitting undoes joining at a head without dots: the first dot is the one joined in. */
  lemma SplitJoined(head: string, rest: string)
    requires '.' !in head
    ensures SplitChained(head + "." + rest) == Split(head, Some(rest))
  {
    var name := head + "." + rest;
    var i := IndexOf(name, '.');
    assert forall k :: 0 <= k < |head| ==> name[k] == head[k];
    assert name[|head|] == '.';
    assert i == |head|;
    assert name[..i] == head;
    assert name[i + 1..] == rest;
  }

  /** How the host prints an object: its `__name__` when it has one, and `str()` of it. */
  datatype ObjDisplay = ObjDisplay(dunderName: Option<string>, text: string)

  /** The error each revision raises for a name the object does not have. */
  function MissingAttribute(rev: Revision, d: ObjDisplay, name: string): Error
  {
    match rev
    case Current =>
      Flex(FlexmockError, (if d.dunderName.Some? then d.dunderName.value else d.text) +
                          " does not have attribute '" + name + "'")
    case Earlier => Flex(FlexmockError, d.text + " does not have attribute " + name)
    case Oldest =>
      if name == "__new__" then Flex(FlexmockError, "old-style classes do not have a __new__() method")
      else Flex(FlexmockError, d.text + " does not have attribute " + name)
  }

  predicate IsModule(w: World, target: Target)
  {
    target.RealObj? && target.obj in w && w[target.obj].kind == ModuleObj
  }

  predicate IsClass(w: World, target: Target)
  {
    target.RealObj? && target.obj in w && w[target.obj].kind == ClassObj
  }

  /** `_ensure_object_has_named_attribute`'s test: fake objects are never checked. */
  predicate Has(w: World, rootTypeAttrs: set<string>, target: Target, name: string)
    requires target.RealObj? ==> target.obj in w
  {
    target.FakeMock? || HasAttr(w, rootTypeAttrs, target.obj, name)
  }

  /**
   * The checks `should_receive` makes on the name before creating
   * anything: the engine's own entry points are refused, a chain is split
   * off at the first dot, a private name is mangled with the class name
   * (`className` is the `__name__` of the target's class, or of the target
   * when it is a class), and the object must have the attribute.
   */
  function ReceivedName(rev: Revision, w: World, rootTypeAttrs: set<string>, target: Target,
                        className: string, d: ObjDisplay, name: string): (r: Result<Split>)
    requires target.RealObj? ==> target.obj in w
    ensures name in UpdatedAttrs ==> r == Fail(FlexmockError, "unable to replace flexmock methods")
    ensures var n := MangleName(SplitChained(name).head, IsModule(w, target), className);
            r.Ok? <==> name !in UpdatedAttrs && Has(w, rootTypeAttrs, target, n)
    ensures var n := MangleName(SplitChained(name).head, IsModule(w, target), className);
            r.Ok? ==> r.value == Split(n, SplitChained(name).rest)
    ensures var n := MangleName(SplitChained(name).head, IsModule(w, target), className);
            name !in UpdatedAttrs && !Has(w, rootTypeAttrs, target, n) ==> r == Err(MissingAttribute(rev, d, n))
  {
    if name in UpdatedAttrs then Fail(FlexmockError, "unable to replace flexmock methods")
    else
      var sp := SplitChained(name);
      var n := MangleName(sp.head, IsModule(w, target), className);
      if !Has(w, rootTypeAttrs, target, n) then Err(MissingAttribute(rev, d, n))
      else Ok(Split(n, sp.rest))
  }

  /** The current revision names a class by its `__name__` and quotes the attribute. */
  lemma CurrentMissingAttributeMessage()
    ensures MissingAttribute(Current, ObjDisplay(Some("Plane"), "<class 'Plane'>"), "fly").message ==
              "Plane" + " does not have attribute '" + "fly" + "'"
  {
  }

  /** The earlier revisions print the object and leave the attribute unquoted. */
  lemma EarlierMissingAttributeMessage(rev: Revision)
    requires rev != Current
    ensures MissingAttribute(rev, ObjDisplay(Some("Plane"), "<class 'Plane'>"), "fly").message ==
              "<class 'Plane'>" + " does not have attribute " + "fly"
  {
    assert "fly" != "__new__" by { assert |"fly"| != |"__new__"|; }
  }

  /** Only the oldest revision has a dedicated message for a missing `__new__`. */
  lemma OldestMissingNewMessage()
    ensures MissingAttribute(Oldest, ObjDisplay(Some("Plane"), "<class 'Plane'>"), "__new__").message ==
              "old-style classes do not have a __new__() method"
  {
  }

  // ---------------------------------------------------------------- partial mocks

  /** The first registered proxy whose object is `obj`. */
  function ProxyFor(objects: seq<Entry>, obj: ObjId): (r: Option<nat>)
    ensures r.Some? ==> r.value < |objects| && objects[r.value].target == RealObj(obj)
    ensures r.Some? ==> forall i :: 0 <= i < r.value ==> objects[i].target != RealObj(obj)
    ensures r.None? <==> forall i :: 0 <= i < |objects| ==> objects[i].target != RealObj(obj)
  {
    if objects == [] then None
    else if objects[0].target == RealObj(obj) then Some(0)
    else
      var rest := ProxyFor(objects[1..], obj);
      assert forall i :: 1 <= i < |objects| ==> objects[i] == objects[1..][i - 1];
      if rest.None? then None else Some(rest.value + 1)
  }

  /** A proxy added at the end is found only when none before it stands for the object. */
  lemma {:induction false} ProxyForAppend(objects: seq<Entry>, x: Entry, obj: ObjId)
    requires ProxyFor(objects, obj).None? && x.target == RealObj(obj)
    ensures ProxyFor(objects + [x], obj) == Some(|objects|)
  {
    if objects != [] {
      assert (objects + [x])[1..] == objects[1..] + [x];
      ProxyForAppend(objects[1..], x, obj);
    }
  }

  datatype Proxied = Proxied(c: Container, proxy: ProxyId)

  /**
   * `_create_partial_mock` without keyword stubs: the proxy already
   * registered for the object is reused; otherwise the new proxy is
   * registered with an empty list, which stands for the nameless
   * placeholder expectation the library stores for it.
   */
  function CreatePartialMock(c: Container, obj: ObjId, newProxy: ProxyId): (r: Proxied)
    requires Valid(c) && !Registered(c, newProxy)
    ensures Valid(r.c)
    ensures ProxyFor(c.objects, obj).Some? ==> r == Proxied(c, c.objects[ProxyFor(c.objects, obj).value].proxy)
    ensures ProxyFor(c.objects, obj).None? ==>
              r.proxy == newProxy && r.c == c.(objects := c.objects + [Entry(newProxy, RealObj(obj), [])])
    ensures ProxyFor(r.c.objects, obj).Some? && r.c.objects[ProxyFor(r.c.objects, obj).value].proxy == r.proxy
  {
    match ProxyFor(c.objects, obj)
    case Some(i) => Proxied(c, c.objects[i].proxy)
    case None =>
      var objects := c.objects + [Entry(newProxy, RealObj(obj), [])];
      ProxyForAppend(c.objects, Entry(newProxy, RealObj(obj), []), obj);
      Proxied(c.(objects := objects), newProxy)
  }

  /** Asking again for a proxy of the same object changes nothing and gives the same proxy. */
  lemma {:induction false} PartialMockMemoised(c: Container, obj: ObjId, newProxy: ProxyId, newProxy2: ProxyId)
    requires Valid(c) && !Registered(c, newProxy)
    requires !Registered(CreatePartialMock(c, obj, newProxy).c, newProxy2)
    ensures var r := CreatePartialMock(c, obj, newProxy);
            CreatePartialMock(r.c, obj, newProxy2) == r
  {
  }

  /** Whether reading an attribute gives something with code the engine can compare. */
  predicate HasCode(a: Attr)
  {
    a.kind.FunctionAttr? || a.kind.ClassMethodAttr? || a.kind.StaticMethodAttr? ||
    a.kind.MockMethodAttr? || a.kind.ApiMethodAttr?
  }

  const ApiMethod := Attr(ApiMethodAttr, PyNone)

  /** The object with the engine's entry points installed, and whether they were. */
  datatype Attached = Attached(w: World, attached: bool)

  /** The first entry point, from position `i`, that the object already holds as something else. */
  function Clash(w: World, obj: ObjId, i: nat): (r: Result<bool>)
    requires obj in w && i <= |UpdatedAttrs|
    decreases |UpdatedAttrs| - i
  {
    if i == |UpdatedAttrs| then Ok(false)
    else
      match Resolve(w, obj, UpdatedAttrs[i])
      case None => Clash(w, obj, i + 1)
      case Some(a) =>
        if !HasCode(a) then Err(Flex(MockBuiltinError, BuiltinInstanceMessage))
        else if a.kind != ApiMethodAttr then Ok(true)
        else Clash(w, obj, i + 1)
  }

  const BuiltinInstanceMessage :=
    "Python does not allow you to mock instances of builtin objects. Consider wrapping it in a class you can mock instead"

  /**
   * `_attach_flexmock_methods`: when the object holds none of the entry
   * points as anything but the engine's own, all three are written onto
   * it; an object without a namespace to write to is refused.
   */
  function AttachApi(w: World, obj: ObjId): (r: Result<Attached>)
    requires obj in w
    ensures Clash(w, obj, 0) == Ok(true) ==> r == Ok(Attached(w, false))
    ensures r.Ok? && r.value.attached ==>
              r.value.w.Keys == w.Keys &&
              r.value.w[obj] == w[obj].(own := w[obj].own["should_receive" := ApiMethod]["should_call" := ApiMethod]["new_instances" := ApiMethod]) &&
              forall k :: k in w && k != obj ==> r.value.w[k] == w[k]
    ensures r.Ok? && r.value.attached <==> Clash(w, obj, 0) == Ok(false) && w[obj].dict != NoDict
  {
    match Clash(w, obj, 0)
    case Err(e) => Err(e)
    case Ok(true) => Ok(Attached(w, false))
    case Ok(false) =>
      if w[obj].dict == NoDict then Err(Flex(MockBuiltinError, BuiltinInstanceMessage))
      else
        var w1 := PySetattr(w, obj, "should_receive", ApiMethod);
        var w2 := PySetattr(w1, obj, "should_call", ApiMethod);
        Ok(Attached(PySetattr(w2, obj, "new_instances", ApiMethod), true))
  }

  // ---------------------------------------------------------------- expectations

  /** What `inspect` reports about an attribute: its parameter list, when it has one, and its kind. */
  datatype Inspector = Inspector(argspec: Attr -> Option<ArgSpec>, kind: Attr -> OrigKind)

  /**
   * `_update_argspec`: the signature `with_args` checks against, taken from
   * a truthy original that has a parameter list, with what the receiver
   * rule needs to know about the original and the patched object.
   */
  function SigOf(ins: Inspector, original: Option<Attr>, isClass: bool, isModule: bool): (s: Option<SigInfo>)
    ensures s.Some? <==> original.Some? && AttrTruthy(original.value) && ins.argspec(original.value).Some?
    ensures s.Some? ==> s.value.spec == ins.argspec(original.value).value && s.value.kind == ins.kind(original.value)
    ensures s.Some? ==> s.value.onClass == isClass && s.value.onModule == isModule
  {
    if original.None? || !AttrTruthy(original.value) then None
    else
      match ins.argspec(original.value)
      case None => None
      case Some(spec) => Some(SigInfo(spec, ins.kind(original.value), isClass, isModule))
  }

  /**
   * `_get_or_create_expectation`: a newProxy expectation, which takes the
   * kept original and method type of the proxy's first expectation with
   * the same name. An original that is None is not carried over.
   */
  function GetOrCreateExpectation(c: Container, proxy: ProxyId, target: Target, name: string, returnValue: Value): (e: Expectation)
    requires Valid(c)
    ensures e.name == name && e.target == target && e.timesCalled == 0 && e.callable && !e.verified
    ensures e.results == (if returnValue == PyNone then [] else [ReturnValue(Val(returnValue), None)])
    ensures var same := Named(c, ExpsOf(c, proxy), name);
            same == [] ==> e.original.None? && e.methodType.None?
    ensures var same := Named(c, ExpsOf(c, proxy), name);
            same != [] ==> e.methodType == c.arena[same[0]].methodType &&
                           (e.original.Some? <==> c.arena[same[0]].original.Some? && NotNone(c.arena[same[0]].original.value)) &&
                           (e.original.Some? ==> e.original == c.arena[same[0]].original)
  {
    var same := Named(c, ExpsOf(c, proxy), name);
    if same == [] then NewExpectation(target, name, returnValue, None, None, None)
    else
      var first := c.arena[same[0]];
      var original := if first.original.Some? && NotNone(first.original.value) then first.original else None;
      NewExpectation(target, name, returnValue, original, first.methodType, None)
  }

  /** The replacement method the engine installs, bound to `bound` when it is. */
  function MockMethod(name: string, bound: Option<ObjId>): Attr
  {
    Attr(MockMethodAttr(bound), Str(name))
  }

  /** A classmethod or staticmethod. */
  predicate Special(mt: Option<MethodType>)
  {
    mt == Some(ClassMethodType) || mt == Some(StaticMethodType)
  }

  /**
   * What `_update_method` binds the mock method to: the patched object,
   * unless it is a class whose method is neither a classmethod nor a
   * staticmethod.
   */
  function MockBinding(obj: ObjId, isClass: bool, mt: Option<MethodType>): (b: Option<ObjId>)
    ensures b.Some? <==> !isClass || Special(mt)
    ensures b.Some? ==> b.value == obj
  {
    if !isClass || Special(mt) then Some(obj) else None
  }

  /** An expectation after patching, and the world it patched. */
  datatype Patch = Patch(w: World, e: Expectation)

  /**
   * The capture step of `_update_method`: without a kept original, the
   * attribute is captured (when the object has it) and its method type is
   * decided, which may record the type on the object.
   */
  function CaptureOriginal(w: World, rootTypeAttrs: set<string>, obj: ObjId, e: Expectation): (p: Patch)
    requires obj in w
    ensures p.w.Keys == w.Keys
    ensures p.e == e.(original := p.e.original, methodType := p.e.methodType)
    ensures e.original.Some? || !HasAttr(w, rootTypeAttrs, obj, e.name) ==> p == Patch(w, e)
    ensures e.original.None? && HasAttr(w, rootTypeAttrs, obj, e.name) ==>
              p.e.original == Resolve(w, obj, e.name) && p.e.methodType.Some?
    ensures p.w == w ||
            (p.e.methodType.Some? && p.w == PySetattr(w, obj, TagName(e.name), Attr(MethodTypeTag(p.e.methodType.value), PyNone)))
  {
    if e.original.None? && HasAttr(w, rootTypeAttrs, obj, e.name) then
      HasAttrMeansResolvable(w, rootTypeAttrs, obj, e.name);
      match Capture(w, obj, e.name)
      case Ok(cap) =>
        var t := MethodTypeOf(Current, w, obj, e.name, cap);
        Patch(t.world, e.(original := Some(cap.attr), methodType := Some(t.mt)))
      case Err(_) => Patch(w, e)
    else Patch(w, e)
  }

  /**
   * `_update_method` on a real object: the original is captured when none
   * is kept, then the replacement is written and the override recorded.
   */
  function UpdateMethod(w: World, rootTypeAttrs: set<string>, ins: Inspector, obj: ObjId, e: Expectation): (p: Patch)
    requires obj in w
    ensures p.w.Keys == w.Keys
    ensures var q := CaptureOriginal(w, rootTypeAttrs, obj, e);
            var set_ := Setattr(Current, q.w, obj, e.name, MockMethod(e.name, MockBinding(obj, w[obj].kind == ClassObj, q.e.methodType)));
            p.w == set_.world &&
            p.e == q.e.(localOverride := set_.localOverride,
                        sig := SigOf(ins, q.e.original, w[obj].kind == ClassObj, w[obj].kind == ModuleObj))
    ensures e.name in p.w[obj].own && p.w[obj].own[e.name] == MockMethod(e.name, MockBinding(obj, w[obj].kind == ClassObj, p.e.methodType))
  {
    var q := CaptureOriginal(w, rootTypeAttrs, obj, e);
    var set_ := Setattr(Current, q.w, obj, e.name, MockMethod(e.name, MockBinding(obj, w[obj].kind == ClassObj, q.e.methodType)));
    Patch(set_.world, q.e.(localOverride := set_.localOverride,
                           sig := SigOf(ins, q.e.original, w[obj].kind == ClassObj, w[obj].kind == ModuleObj)))
  }

  /**
   * `_update_attribute`: the expectation becomes a stub, the original is
   * captured as for a method, and the value is written onto the object.
   */
  function UpdateAttribute(w: World, rootTypeAttrs: set<string>, obj: ObjId, e: Expectation, value: Value): (p: Patch)
    requires obj in w
    ensures p.e == e.(callable := false, original := p.e.original, localOverride := p.e.localOverride)
    ensures e.original.Some? ==> p.e.original == e.original
    ensures e.original.None? && HasAttr(w, rootTypeAttrs, obj, e.name) ==> p.e.original == Resolve(w, obj, e.name)
    ensures p.w == PySetattr(w, obj, e.name, Attr(DataAttr, value))
    ensures p.e.localOverride == Setattr(Current, w, obj, e.name, Attr(DataAttr, value)).localOverride
  {
    var original :=
      if e.original.None? && HasAttr(w, rootTypeAttrs, obj, e.name) then Resolve(w, obj, e.name) else e.original;
    var p := Setattr(Current, w, obj, e.name, Attr(DataAttr, value));
    Patch(p.world, e.(callable := false, original := original, localOverride := p.localOverride))
  }

  /** Whether `getattr(obj, name)` is callable or a class, so that a method is patched. */
  predicate Invocable(a: Attr, callableData: Value -> bool)
  {
    match a.kind
    case DataAttr => a.value.ClassRef? || callableData(a.value)
    case PropertyAttr => false
    case _ => true
  }

  /** Every class an object names as searched after it is itself an object of the world. */
  predicate Closed(w: World)
  {
    forall id | id in w :: forall j | 0 <= j < |w[id].mro| :: w[id].mro[j] in w
  }

  /** The state after a proxy operation and what it returns. */
  datatype Made = Made(s: Session, result: Result<ExpId>)

  /** Host facts about a call of `should_receive`. */
  datatype Request = Request(
    rootTypeAttrs: set<string>,    // names every class inherits from `type`
    ins: Inspector,
    callableData: Value -> bool,   // whether a plain value is callable
    fakeAttr: Option<Attr>,        // what a fake object holds under the name
    placeholder: ProxyId)          // the proxy a property shadow is registered under

  /** The class a property is read on: the target itself, or the class of an instance. */
  function OwnerClass(w: World, obj: ObjId): (cls: ObjId)
    requires obj in w && Closed(w)
    ensures cls in w
  {
    if w[obj].kind == ClassObj || w[obj].mro == [] then obj else w[obj].mro[0]
  }

  /**
   * `_update_property`: the class gets a shadow property; the first time,
   * the original is kept on the class under `_flexmock__<name>`, that name
   * is queued for deletion at teardown, and a placeholder expectation on
   * the class restores the original at teardown.
   */
  function UpdateProperty(s: Session, obj: ObjId, id: ExpId, placeholder: ProxyId): (r: Made)
    requires Valid(s.c) && id < |s.c.arena| && obj in s.w && Closed(s.w)
    requires !Registered(s.c, placeholder)
    ensures Valid(r.s.c) && r.s.w.Keys == s.w.Keys
    ensures |r.s.c.arena| >= |s.c.arena| && !r.s.c.arena[id].callable
    ensures forall k :: 0 <= k < |s.c.arena| && k != id ==> r.s.c.arena[k] == s.c.arena[k]
    ensures forall p :: p != placeholder ==> Registered(r.s.c, p) == Registered(s.c, p) && ExpsOf(r.s.c, p) == ExpsOf(s.c, p)
    ensures r.s.c.ordered == s.c.ordered && r.s.c.last == s.c.last
    ensures r.s.c.arena[id] == s.c.arena[id].(callable := false)
    ensures var name := s.c.arena[id].name; var cls := OwnerClass(s.w, obj);
            Resolve(s.w, cls, name).None? ==> r.result.Err? && r.s.w == s.w
    ensures var name := s.c.arena[id].name; var cls := OwnerClass(s.w, obj);
            Resolve(s.w, cls, name).Some? ==>
              r.result == Ok(id) &&
              name in r.s.w[cls].own && r.s.w[cls].own[name].kind == PropertyAttr
    ensures var name := s.c.arena[id].name; var cls := OwnerClass(s.w, obj);
            Resolve(s.w, cls, name).Some? && Resolve(s.w, cls, "_flexmock__" + name).None? ==>
              "_flexmock__" + name in r.s.w[cls].own && r.s.w[cls].own["_flexmock__" + name] == Resolve(s.w, cls, name).value &&
              Registered(r.s.c, placeholder) &&
              ExpsOf(r.s.c, placeholder) == [|s.c.arena|] && |r.s.c.arena| == |s.c.arena| + 1 &&
              r.s.c.arena[|s.c.arena|] == NewExpectation(RealObj(cls), name, PyNone, Resolve(s.w, cls, name), None, None) &&
              r.s.c.properties == AddTeardownProperty(s.c.properties, cls, "_flexmock__" + name)
    ensures var name := s.c.arena[id].name; var cls := OwnerClass(s.w, obj);
            !(Resolve(s.w, cls, name).Some? && Resolve(s.w, cls, "_flexmock__" + name).None?) ==>
              r.s.c == s.c.(arena := s.c.arena[id := s.c.arena[id].(callable := false)])
  {
    var e := s.c.arena[id];
    var cls := OwnerClass(s.w, obj);
    var c1 := s.c.(arena := s.c.arena[id := e.(callable := false)]);
    StoreKeepsValid(s.c, id, e.(callable := false));
    var newName := "_flexmock__" + e.name;
    match Resolve(s.w, cls, e.name)
    case None => Made(Session(c1, s.w), Err(Foreign("AttributeError", e.name)))
    case Some(original) =>
      var w1 := PySetattr(s.w, cls, e.name, Attr(PropertyAttr, Str(newName)));
      if Resolve(s.w, cls, newName).Some? then Made(Session(c1, w1), Ok(id))
      else
        var c2 := c1.(properties := AddTeardownProperty(c1.properties, cls, newName));
        var w2 := PySetattr(w1, cls, newName, original);
        var a := AddExpectation(c2, placeholder, RealObj(cls), NewExpectation(RealObj(cls), e.name, PyNone, Some(original), None, None));
        Made(Session(a.c, w2), Ok(id))
  }

  /** The registry with one expectation replaced, and the result it reports. */
  function Store(s: Session, w: World, id: ExpId, e: Expectation): (r: Made)
    requires Valid(s.c) && id < |s.c.arena|
    ensures Valid(r.s.c) && r.s == Session(s.c.(arena := s.c.arena[id := e]), w) && r.result == Ok(id)
  {
    StoreKeepsValid(s.c, id, e);
    Made(Session(s.c.(arena := s.c.arena[id := e]), w), Ok(id))
  }

  /**
   * `_create_expectation` in the current revision: the expectation is
   * built and registered first, then the target is patched according to
   * what the name holds: a property, something callable, or a plain value.
   * A fake object's namespace is outside the world; what it holds under
   * the name is supplied with the request.
   */
  function CreateExpectation(s: Session, proxy: ProxyId, target: Target, name: string, returnValue: Value, q: Request): (r: Made)
    requires Valid(s.c) && Closed(s.w) && (target.RealObj? ==> target.obj in s.w)
    requires !Registered(s.c, q.placeholder) && q.placeholder != proxy
    ensures Valid(r.s.c) && r.s.w.Keys == s.w.Keys && |r.s.c.arena| > |s.c.arena|
    ensures r.result.Ok? ==> r.result.value == |s.c.arena|
    ensures Registered(r.s.c, proxy) && ExpsOf(r.s.c, proxy) == ExpsOf(s.c, proxy) + [|s.c.arena|]
    ensures r.s.c.ordered == s.c.ordered && r.s.c.last == s.c.last
    ensures var e := r.s.c.arena[|s.c.arena|];
            e.name == name && e.target == target && e.timesCalled == 0 && e.count == Unconstrained &&
            e.results == (if returnValue == PyNone then [] else [ReturnValue(Val(returnValue), None)]) && !e.oneByOne
    ensures var same := Named(s.c, ExpsOf(s.c, proxy), name);
            same != [] && s.c.arena[same[0]].original.Some? && NotNone(s.c.arena[same[0]].original.value) ==>
              r.s.c.arena[|s.c.arena|].original == s.c.arena[same[0]].original
    ensures target.RealObj? && r.result.Ok? && r.s.c.arena[|s.c.arena|].callable ==>
              name in r.s.w[target.obj].own &&
              r.s.w[target.obj].own[name] == MockMethod(name, MockBinding(target.obj, s.w[target.obj].kind == ClassObj, r.s.c.arena[|s.c.arena|].methodType))
    ensures target.FakeMock? ==> r.s.w == s.w && r.result.Ok?
  {
    var e := GetOrCreateExpectation(s.c, proxy, target, name, returnValue);
    var a := AddExpectation(s.c, proxy, target, e);
    var s1 := s.(c := a.c);
    match target
    case FakeMock(_) =>
      var e1 :=
        if e.original.None? && q.fakeAttr.Some? then
          e.(original := q.fakeAttr, methodType := Some(TypeOf(Captured(q.fakeAttr.value, true, None))))
        else e;
      Store(s1, s.w, a.id, e1.(localOverride := q.fakeAttr.None?, sig := SigOf(q.ins, e1.original, false, false)))
    case RealObj(obj) =>
      match IsProperty(s.w, obj, name)
      case Err(err) => Made(s1, Err(err))
      case Ok(true) => UpdateProperty(s1, obj, a.id, q.placeholder)
      case Ok(false) =>
        match Resolve(s.w, obj, name)
        case None => Made(s1, Err(Foreign("AttributeError", name)))
        case Some(attr) =>
          if Invocable(attr, q.callableData) then
            var p := UpdateMethod(s.w, q.rootTypeAttrs, q.ins, obj, e);
            Store(s1, p.w, a.id, p.e)
          else
            var p := UpdateAttribute(s.w, q.rootTypeAttrs, obj, e, returnValue);
            Store(s1, p.w, a.id, p.e)
  }

  // ---------------------------------------------------------------- entry points

  /**
   * What `should_receive` leaves: the expectation for the first name and,
   * for a chained name, the rest to request of the object that expectation
   * returns.
   */
  datatype Received = Received(s: Session, result: Result<ExpId>, chain: Option<string>)

  /**
   * `should_receive` in the current revision. For a chained name the first
   * attribute's expectation returns `nested`, the proxy the rest of the
   * chain is requested of; an empty rest after the dot is no chain.
   */
  function ShouldReceive(s: Session, proxy: ProxyId, target: Target, className: string, d: ObjDisplay,
                         name: string, nested: Value, q: Request): (r: Received)
    requires Valid(s.c) && Closed(s.w) && (target.RealObj? ==> target.obj in s.w)
    requires !Registered(s.c, q.placeholder) && q.placeholder != proxy
    ensures Valid(r.s.c) && r.s.w.Keys == s.w.Keys
    ensures ReceivedName(Current, s.w, q.rootTypeAttrs, target, className, d, name).Err? ==>
              r == Received(s, Err(ReceivedName(Current, s.w, q.rootTypeAttrs, target, className, d, name).error), None)
    ensures r.result.Ok? ==> r.result.value == |s.c.arena| < |r.s.c.arena|
    ensures r.result.Ok? ==>
              var sp := ReceivedName(Current, s.w, q.rootTypeAttrs, target, className, d, name);
              sp.Ok? && r.s.c.arena[|s.c.arena|].name == sp.value.head && r.s.c.arena[|s.c.arena|].target == target
    ensures r.chain.Some? ==>
              var sp := ReceivedName(Current, s.w, q.rootTypeAttrs, target, className, d, name);
              sp.Ok? && r.chain == sp.value.rest && r.chain.value != "" && r.result.Ok?
    ensures r.result.Ok? && r.chain.None? ==> r.s.c.arena[|s.c.arena|].results == []
    ensures r.chain.Some? && nested != PyNone ==> r.s.c.arena[|s.c.arena|].results == [ReturnValue(Val(nested), None)]
    ensures r.result.Ok? ==> ExpsOf(r.s.c, proxy) == ExpsOf(s.c, proxy) + [r.result.value]
    ensures r.result.Ok? ==>
              var e := r.s.c.arena[|s.c.arena|];
              e.timesCalled == 0 && e.count == Unconstrained && !e.oneByOne
  {
    match ReceivedName(Current, s.w, q.rootTypeAttrs, target, className, d, name)
    case Err(err) => Received(s, Err(err), None)
    case Ok(sp) =>
      var chained := sp.rest.Some? && sp.rest.value != "";
      var m := CreateExpectation(s, proxy, target, sp.head, if chained then nested else PyNone, q);
      Received(m.s, m.result, if chained && m.result.Ok? then sp.rest else None)
  }

  /**
   * The step `should_call` adds: the expectation replaces the method with
   * its own kept original, which makes it a pass-through spy. Without a
   * kept original the lookup of it raises KeyError.
   */
  function SpyOn(s: Session, id: ExpId): (r: Made)
    requires Valid(s.c) && id < |s.c.arena|
    ensures Valid(r.s.c) && |r.s.c.arena| == |s.c.arena|
    ensures s.c.arena[id].original.None? ==> r == Made(s, Err(Foreign("KeyError", "_original")))
    ensures r.result.Ok? ==> r.result.value == id && r.s.c.arena[id].passThru &&
                             r.s.c.arena[id].replaceWith == Some(s.c.arena[id].original.value.value)
    ensures r.result.Ok? ==> r.s.c.arena[id].original == s.c.arena[id].original
    ensures r.result.Err? && s.c.arena[id].original.Some? ==>
              r.result.error.Flex? && r.result.error.kind == FlexmockError && r.s.c == s.c
  {
    var e := s.c.arena[id];
    if e.original.None? then Made(s, Err(Foreign("KeyError", "_original")))
    else
      var ap := Apply(s, id, ReplaceWith(e, e.original.value.value));
      Made(ap.s, if ap.error.Some? then Err(ap.error.value) else Ok(id))
  }

  /**
   * A spy answers like the original: once an expectation with no queued
   * results and no guard is turned into a spy, a call the count allows
   * returns exactly what the kept original returns for the same
   * arguments, and counts the call.
   */
  lemma SpyReturnsOriginal(rev: Revision, h: Host, s: Session, id: ExpId, runtimeSelf: Value, given: ArgSet)
    requires Valid(s.c) && id < |s.c.arena| && SpyOn(s, id).result.Ok?
    requires var e := s.c.arena[id];
             e.results == [] && e.guard.None? && Allows(e.count, e.timesCalled + 1, false)
    requires var e := s.c.arena[id];
             h.call(e.original.value.value, OriginalArgs(s.w, e, runtimeSelf, given)).Returned?
    ensures var e := s.c.arena[id];
            var r := HandleMatched(rev, h, SpyOn(s, id).s, id, runtimeSelf, given);
            r.result == Ok(h.call(e.original.value.value, OriginalArgs(s.w, e, runtimeSelf, given)).value) &&
            r.s.c.arena[id].timesCalled == e.timesCalled + 1
  {
    var e := s.c.arena[id];
    var m := SpyOn(s, id);
    assert m.s.w == s.w;
    var spy := m.s.c.arena[id];
    assert spy == e.(replaceWith := Some(e.original.value.value), passThru := true);
    assert OriginalArgs(m.s.w, spy, runtimeSelf, given) == OriginalArgs(s.w, e, runtimeSelf, given);
    PassThruReturnsOriginal(rev, h, m.s, id, runtimeSelf, given);
  }

  /**
   * `should_call`: on a fake object the name must already be there; then
   * `should_receive`, and the resulting expectation becomes a spy. For a
   * chained name the spy step belongs to the end of the chain.
   */
  function ShouldCall(s: Session, proxy: ProxyId, target: Target, className: string, d: ObjDisplay,
                      name: string, nested: Value, q: Request): (r: Received)
    requires Valid(s.c) && Closed(s.w) && (target.RealObj? ==> target.obj in s.w)
    requires !Registered(s.c, q.placeholder) && q.placeholder != proxy
    ensures Valid(r.s.c)
    ensures r.result.Ok? ==> r.result.value < |r.s.c.arena|
    ensures target.FakeMock? && q.fakeAttr.None? ==>
              r == Received(s, Fail(FlexmockError, "Mock object does not have attribute '" + name +
                                    "'. Did you mean to call should_receive(\"" + name + "\") instead?"), None)
    ensures r.result.Ok? && r.chain.None? ==>
              var e := r.s.c.arena[r.result.value];
              e.passThru && e.original.Some? && e.replaceWith == Some(e.original.value.value)
  {
    if target.FakeMock? && q.fakeAttr.None? then
      Received(s, Fail(FlexmockError, "Mock object does not have attribute '" + name +
                      "'. Did you mean to call should_receive(\"" + name + "\") instead?"), None)
    else
      var r := ShouldReceive(s, proxy, target, className, d, name, nested, q);
      if r.result.Err? || r.chain.Some? then r
      else
        var m := SpyOn(r.s, r.result.value);
        Received(m.s, m.result, None)
  }

  /**
   * `new_instances(*args)`: only on a class, `__new__` is made to return
   * the given objects one per call.
   */
  function NewInstances(s: Session, proxy: ProxyId, target: Target, className: string, d: ObjDisplay,
                        args: seq<Value>, q: Request): (r: Made)
    requires Valid(s.c) && Closed(s.w) && (target.RealObj? ==> target.obj in s.w)
    requires !Registered(s.c, q.placeholder) && q.placeholder != proxy
    ensures Valid(r.s.c)
    ensures r.result.Ok? ==> r.result.value < |r.s.c.arena|
    ensures !IsClass(s.w, target) ==> r == Made(s, Fail(FlexmockError, "new_instances can only be called on a class mock"))
    ensures r.result.Ok? ==>
              var e := r.s.c.arena[r.result.value];
              e.name == "__new__" && e.oneByOne &&
              |e.results| == |args| && forall k :: 0 <= k < |args| ==> e.results[k] == ReturnValue(Val(args[k]), None)
  {
    if !IsClass(s.w, target) then Made(s, Fail(FlexmockError, "new_instances can only be called on a class mock"))
    else
      var r := ShouldReceive(s, proxy, target, className, d, "__new__", PyNone, q);
      if r.result.Err? then Made(r.s, r.result)
      else
        var id := r.result.value;
        var e := r.s.c.arena[id];
        NewIsNotRenamed(Current, s.w, q.rootTypeAttrs, target, className, d);
        var ap := Apply(r.s, id, OneByOne(Expectations.AndReturn(e, [Tuple(args)])));
        var made := Made(ap.s, if ap.error.Some? then Err(ap.error.value) else Ok(id));
        if e.callable then OneByOneQueuesEach(e, args); made else made
  }

  /** `__new__` is neither chained nor private, so `should_receive` takes it as it is. */
  lemma NewIsNotRenamed(rev: Revision, w: World, rootTypeAttrs: set<string>, target: Target, className: string, d: ObjDisplay)
    requires target.RealObj? ==> target.obj in w
    ensures ReceivedName(rev, w, rootTypeAttrs, target, className, d, "__new__").Ok? ==>
              ReceivedName(rev, w, rootTypeAttrs, target, className, d, "__new__").value == Split("__new__", None)
  {
    assert '.' !in "__new__";
    assert EndsWith("__new__", "__") by { assert "__new__"[5..] == "__"; }
  }

  /** Values handed to a fresh expectation as one tuple come back one per call once split. */
  lemma OneByOneQueuesEach(e: Expectation, args: seq<Value>)
    requires e.callable && !e.oneByOne && e.results == []
    ensures var b := OneByOne(Expectations.AndReturn(e, [Tuple(args)]));
            b.Built? && b.e.oneByOne && |b.e.results| == |args| &&
            forall k :: 0 <= k < |args| ==> b.e.results[k] == ReturnValue(Val(args[k]), None)
  {
    var rv := ReturnValue(Val(Tuple(args)), None);
    assert Expectations.AndReturn(e, [Tuple(args)]).results == [rv];
    assert SplitEntries([rv]) == Expand(rv) + SplitEntries([]);
  }

  /** The saved method-type name never collides with the method's own name. */
  lemma TagNameDiffers(name: string)
    ensures TagName(name) != name
  {
    assert |TagName(name)| > |name|;
  }

  /** Capturing a classmethod or staticmethod a class holds itself types it as such and tags the class. */
  lemma CaptureSpecialOnClass(w: World, rootTypeAttrs: set<string>, base: ObjId, e: Expectation, mt: MethodType)
    requires base in w && w[base].kind == ClassObj
    requires e.original.None? && e.name in w[base].own
    requires mt == (if w[base].own[e.name].kind == ClassMethodAttr then ClassMethodType else StaticMethodType)
    requires w[base].own[e.name].kind == ClassMethodAttr || w[base].own[e.name].kind == StaticMethodAttr
    ensures var q := CaptureOriginal(w, rootTypeAttrs, base, e);
            q.e.methodType == Some(mt) && q.w == PySetattr(w, base, TagName(e.name), Attr(MethodTypeTag(mt), PyNone))
  {
    HasAttrMeansResolvable(w, rootTypeAttrs, base, e.name);
    var cap := Capture(w, base, e.name);
    assert cap == Ok(Captured(w[base].own[e.name], true, None));
    assert SavedMethodType(w, None, e.name).None?;
    assert !IsClassMethod(w, None, e.name);
  }

  /** A subclass that inherits a mock bound to its base reads the type saved on the base. */
  lemma CaptureInheritedMock(w: World, rootTypeAttrs: set<string>, base: ObjId, derived: ObjId, e2: Expectation, mt: MethodType)
    requires base in w && derived in w && w[base].kind == ClassObj && w[derived].kind == ClassObj
    requires w[derived].mro != [] && w[derived].mro[0] == base && e2.name !in w[derived].own
    requires e2.name in w[base].own && w[base].own[e2.name] == MockMethod(e2.name, Some(base))
    requires TagName(e2.name) in w[base].own && w[base].own[TagName(e2.name)] == Attr(MethodTypeTag(mt), PyNone)
    requires e2.original.None?
    ensures CaptureOriginal(w, rootTypeAttrs, derived, e2).e.methodType == Some(mt)
  {
    var name := e2.name;
    assert DefinesWith(w, base, name, AnyAttr);
    assert Resolve(w, derived, name) == Some(MockMethod(name, Some(base)));
    HasAttrMeansResolvable(w, rootTypeAttrs, derived, name);
    assert Capture(w, derived, name) == Ok(Captured(MockMethod(name, Some(base)), false, Some(base)));
    assert DefinesWith(w, base, TagName(name), AttrTruthy);
    assert SavedMethodType(w, Some(base), name) == Some(mt);
  }

  /**
   * The reason the method type is saved: once a base class's classmethod
   * or staticmethod is replaced by a mock bound to the base, patching the
   * same name on a subclass reads that bound mock and finds the saved type
   * on the base, so the subclass's expectation gets the same type.
   */
  lemma DerivedSeesSavedType(w: World, rootTypeAttrs: set<string>, ins: Inspector, base: ObjId, derived: ObjId,
                             e: Expectation, e2: Expectation)
    requires base in w && derived in w && base != derived
    requires w[base].kind == ClassObj && w[derived].kind == ClassObj
    requires w[derived].mro != [] && w[derived].mro[0] == base && e.name !in w[derived].own
    requires e.original.None? && e.name in w[base].own
    requires w[base].own[e.name].kind == ClassMethodAttr || w[base].own[e.name].kind == StaticMethodAttr
    requires e2.original.None? && e2.name == e.name
    ensures var mt := if w[base].own[e.name].kind == ClassMethodAttr then ClassMethodType else StaticMethodType;
            var p := UpdateMethod(w, rootTypeAttrs, ins, base, e);
            p.e.methodType == Some(mt) &&
            CaptureOriginal(p.w, rootTypeAttrs, derived, e2).e.methodType == Some(mt)
  {
    var name := e.name;
    var mt := if w[base].own[name].kind == ClassMethodAttr then ClassMethodType else StaticMethodType;
    TagNameDiffers(name);
    CaptureSpecialOnClass(w, rootTypeAttrs, base, e, mt);
    var q := CaptureOriginal(w, rootTypeAttrs, base, e);
    var p := UpdateMethod(w, rootTypeAttrs, ins, base, e);
    assert p.w == PySetattr(q.w, base, name, MockMethod(name, Some(base)));
    CaptureInheritedMock(p.w, rootTypeAttrs, base, derived, e2, mt);
  }

  /**
   * Patching a method the object itself holds, truthy, and resetting the
   * expectation gives back the object's namespace, except for the method
   * type the current revision may have saved on it.
   */
  lemma UpdateMethodThenReset(w: World, rootTypeAttrs: set<string>, ins: Inspector, obj: ObjId, e: Expectation)
    requires obj in w && ProxyIffClass(w[obj])
    requires e.target == RealObj(obj) && e.original.None?
    requires e.name in w[obj].own && AttrTruthy(w[obj].own[e.name])
    ensures var p := UpdateMethod(w, rootTypeAttrs, ins, obj, e);
            var back := ResetExpectation(p.w, p.e);
            back.Keys == w.Keys &&
            (forall k :: k in w && k != obj ==> back[k] == w[k]) &&
            back[obj].kind == w[obj].kind && back[obj].dict == w[obj].dict && back[obj].mro == w[obj].mro &&
            back[obj].own - {TagName(e.name)} == w[obj].own - {TagName(e.name)}
  {
    var p := UpdateMethod(w, rootTypeAttrs, ins, obj, e);
    var q := CaptureOriginal(w, rootTypeAttrs, obj, e);
    var original := w[obj].own[e.name];
    TagNameDiffers(e.name);
    HasAttrMeansResolvable(w, rootTypeAttrs, obj, e.name);
    assert q.e.original == Some(original);
    assert q.w[obj] == w[obj].(own := q.w[obj].own) && q.w[obj].own[e.name] == original;
    assert q.w[obj].own - {TagName(e.name)} == w[obj].own - {TagName(e.name)};
    var mock := MockMethod(e.name, MockBinding(obj, w[obj].kind == ClassObj, q.e.methodType));
    var set_ := Setattr(Current, q.w, obj, e.name, mock);
    assert p.w == set_.world && p.e.original == Some(original) && p.e.localOverride == set_.localOverride;
    PatchThenRestore(Current, q.w, obj, e.name, mock, original);
    assert ResetExpectation(p.w, p.e) == Restore(set_.world, obj, e.name, Some(original), set_.localOverride);
  }
}
