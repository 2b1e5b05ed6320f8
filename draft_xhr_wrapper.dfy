/**
 * The older draft of the wrapper (src/xhrWrapper.js): two factory object literals, the same
 * method and property names, but only two event properties, a raw handler stored as it is when
 * no delegate is defined, read-only properties without setter, and `eval` strings on
 * `this.impl` / `impl` instead of `obj`.
 */
module DraftXhrWrappers {
  import opened JsValues
  import CallStrings
  import opened PropMethodFactories
  import XhrWrappers

  /** The draft's event properties. */
  const DraftEventPropertyNames: seq<string> := ["onreadystatechange", "ontimeout"]

  /** The draft's groups of names; methods, read-write and read-only names are those of XHRWrapper. */
  datatype DraftGroup = DraftMethods | DraftEvents | DraftReadWrite | DraftReadOnly

  datatype DraftSetter = NoDraftSetter | DraftPlainSetter | DraftEventSetter

  /** A member of the draft prototype: a method closure, or an accessor built by the factory. */
  datatype DraftMember =
    | DraftData(value: Value)
    | DraftAccessor(factory: DraftFactory, name: string, setter: DraftSetter)

  /**
   * The member each loop gives a name. The read-only loop passes `createNullPropSetter(name)`,
   * which returns `undefined`, as the setter: the property has no setter.
   */
  function DraftMemberFor(group: DraftGroup, f: DraftFactory, name: string): DraftMember {
    match group
    case DraftMethods => DraftData(DraftMethodFn(f, name))
    case DraftEvents => DraftAccessor(f, name, DraftEventSetter)
    case DraftReadWrite => DraftAccessor(f, name, DraftPlainSetter)
    case DraftReadOnly => DraftAccessor(f, name, NoDraftSetter)
  }

  function DraftGroupTable(group: DraftGroup, f: DraftFactory, names: seq<string>): map<string, DraftMember> {
    map n | n in names :: DraftMemberFor(group, f, n)
  }

  /** The group of a name in the draft, if any. */
  function DraftKindOf(name: string): Option<DraftGroup> {
    if name in XhrWrappers.MethodNames then Some(DraftMethods)
    else if name in DraftEventPropertyNames then Some(DraftEvents)
    else if name in XhrWrappers.ReadWritePropertyNames then Some(DraftReadWrite)
    else if name in XhrWrappers.ResponsePropertyNames then Some(DraftReadOnly)
    else None
  }

  /** The member table the draft's load-time loops produce with factory `f`. */
  function DraftTable(f: DraftFactory): map<string, DraftMember> {
    map n | n in XhrWrappers.MethodNames + DraftEventPropertyNames + XhrWrappers.ReadWritePropertyNames
                 + XhrWrappers.ResponsePropertyNames
      :: DraftMemberFor(DraftKindOf(n).value, f, n)
  }

  class DraftPrototype {
    var members: map<string, DraftMember>

    constructor ()
      ensures members == map[]
    {
      members := map[];
    }
  }

  /** One of the draft's load-time loops over a name array. */
  method AddGroup(proto: DraftPrototype, f: DraftFactory, group: DraftGroup, names: seq<string>)
    modifies proto
    ensures proto.members == old(proto.members) + DraftGroupTable(group, f, names)
  {
    var i := 0;
    while i < |names|
      invariant 0 <= i <= |names|
      invariant proto.members == old(proto.members) + DraftGroupTable(group, f, names[..i])
    {
      DraftGroupTableSnoc(group, f, names, i);
      UnionUpdate(old(proto.members), DraftGroupTable(group, f, names[..i]), names[i], DraftMemberFor(group, f, names[i]));
      proto.members := proto.members[names[i] := DraftMemberFor(group, f, names[i])];
      i := i + 1;
    }
    assert names[..|names|] == names;
  }

  /** One more name of the loop adds that name's member to the table of the names before it. */
  lemma DraftGroupTableSnoc(group: DraftGroup, f: DraftFactory, names: seq<string>, i: nat)
    requires i < |names|
    ensures DraftGroupTable(group, f, names[..i + 1])
         == DraftGroupTable(group, f, names[..i])[names[i] := DraftMemberFor(group, f, names[i])]
  {
    assert names[..i + 1] == names[..i] + [names[i]];
  }

  /** Updating a union at one key updates its right operand there. */
  lemma UnionUpdate(a: map<string, DraftMember>, t: map<string, DraftMember>, k: string, v: DraftMember)
    ensures (a + t)[k := v] == a + t[k := v]
  {
  }

  /** The draft's event names are among XHRWrapper's, so its four groups are disjoint too. */
  lemma DraftGroupsDistinct()
    ensures forall n :: n in DraftEventPropertyNames ==> n in XhrWrappers.EventPropertyNames
    ensures forall n :: n in DraftEventPropertyNames ==>
      n !in XhrWrappers.MethodNames && n !in XhrWrappers.ReadWritePropertyNames && n !in XhrWrappers.ResponsePropertyNames
  {
    XhrWrappers.NameGroupsDistinct();
  }

  /** A name is in the draft table exactly when it is in a group, with that group's member. */
  lemma DraftTableLookup(f: DraftFactory, name: string)
    ensures name in DraftTable(f) <==> DraftKindOf(name).Some?
    ensures name in DraftTable(f) ==> DraftTable(f)[name] == DraftMemberFor(DraftKindOf(name).value, f, name)
    ensures name in XhrWrappers.MethodNames ==> DraftKindOf(name) == Some(DraftMethods)
    ensures name in DraftEventPropertyNames ==> DraftKindOf(name) == Some(DraftEvents)
    ensures name in XhrWrappers.ReadWritePropertyNames ==> DraftKindOf(name) == Some(DraftReadWrite)
    ensures name in XhrWrappers.ResponsePropertyNames ==> DraftKindOf(name) == Some(DraftReadOnly)
  {
    XhrWrappers.NameGroupsDistinct();
    DraftGroupsDistinct();
  }

  /**
   * The draft's load-time set-up: the factory is the ActiveX-aware literal iff ActiveX is
   * supported; then the four loops fill the prototype.
   */
  method DraftSetUp(activeXSupported: bool) returns (f: DraftFactory, proto: DraftPrototype)
    ensures fresh(proto)
    ensures f == DraftActiveXAware <==> activeXSupported
    ensures proto.members == DraftTable(f)
  {
    f := if activeXSupported then DraftActiveXAware else DraftNative;
    proto := new DraftPrototype();
    AddGroup(proto, f, DraftMethods, XhrWrappers.MethodNames);
    AddGroup(proto, f, DraftEvents, DraftEventPropertyNames);
    AddGroup(proto, f, DraftReadWrite, XhrWrappers.ReadWritePropertyNames);
    AddGroup(proto, f, DraftReadOnly, XhrWrappers.ResponsePropertyNames);
    DraftTableSplit(f);
  }

  /** The union of the four loops' tables, in load order. */
  function DraftLoadTable(f: DraftFactory): map<string, DraftMember> {
    map[] + DraftGroupTable(DraftMethods, f, XhrWrappers.MethodNames)
      + DraftGroupTable(DraftEvents, f, DraftEventPropertyNames)
      + DraftGroupTable(DraftReadWrite, f, XhrWrappers.ReadWritePropertyNames)
      + DraftGroupTable(DraftReadOnly, f, XhrWrappers.ResponsePropertyNames)
  }

  /** The draft table is the union of the four loops' tables. */
  lemma DraftTableSplit(f: DraftFactory)
    ensures DraftTable(f) == DraftLoadTable(f)
  {
    DraftLoadTableInTable(f);
    DraftTableInLoadTable(f);
  }

  lemma DraftLoadTableInTable(f: DraftFactory)
    ensures forall n :: n in DraftLoadTable(f) ==> n in DraftTable(f) && DraftLoadTable(f)[n] == DraftTable(f)[n]
  {
    forall n | n in DraftLoadTable(f)
      ensures n in DraftTable(f) && DraftLoadTable(f)[n] == DraftTable(f)[n]
    {
      DraftTableLookup(f, n);
    }
  }

  lemma DraftTableInLoadTable(f: DraftFactory)
    ensures forall n :: n in DraftTable(f) ==> n in DraftLoadTable(f)
  {
    forall n | n in DraftTable(f)
      ensures n in DraftLoadTable(f)
    {
      DraftTableLookup(f, n);
    }
  }

  // ---------------------------------------------------------------- the factory closures

  /** `invokeActiveXMethod(funcName, impl, args)`: the code it evaluates. */
  method InvokeActiveXMethod(funcName: string, args: seq<Value>) returns (r: Outcome)
    ensures r == Evaluated(CallStrings.CallString("impl", funcName, |args|))
    ensures |args| == 0 ==> r == Evaluated("impl." + funcName + "();")
  {
    var evalStr := CallStrings.BuildCallString("impl", funcName, |args|);
    CallStrings.CallStringShape("impl", funcName, |args|);
    assert "impl" + "." == "impl.";
    r := Evaluated(evalStr);
  }

  /** The draft's `createMethod(name)` closure, run with `this.impl` being `impl`. */
  function DraftInvoke(f: DraftFactory, impl: ObjView, name: string, args: seq<Value>): (o: Outcome)
    ensures o.Evaluated? <==> f == DraftActiveXAware && IsActiveX(impl)
    ensures o.Evaluated? ==> o.code == CallStrings.CallString("impl", name, |args|)
    ensures !o.Evaluated? ==> (o.Threw? <==> impl.Missing? || !IsCallable(Lookup(impl.members, name)))
    ensures o.Called? ==> impl.Obj? && name in impl.members && o.call == Call(impl.members[name], TransportThis, args)
    ensures !o.Returned?
  {
    if f == DraftActiveXAware && IsActiveX(impl) then Evaluated(CallStrings.CallString("impl", name, |args|))
    else if impl.Missing? || !IsCallable(Lookup(impl.members, name)) then Threw(TypeError)
    else Called(Call(Lookup(impl.members, name), TransportThis, args))
  }

  /** The draft's `createPropGetter(name)` closure. */
  function DraftGet(f: DraftFactory, impl: ObjView, name: string): (o: Outcome)
    ensures o.Evaluated? <==> f == DraftActiveXAware && IsActiveX(impl)
    ensures o.Threw? <==> impl.Missing?
    ensures o.Returned? ==> impl.Obj? && o.v == Lookup(impl.members, name)
    ensures !o.Called?
  {
    if f == DraftActiveXAware && IsActiveX(impl) then Evaluated(CallStrings.GetPropertyString("this.impl", name))
    else if impl.Missing? then Threw(TypeError)
    else Returned(Lookup(impl.members, name))
  }

  /**
   * A store into `this.impl[name]`: by `eval` of `this.impl.name = variable;` on an ActiveX
   * object when the factory is the ActiveX-aware one, by plain assignment otherwise.
   */
  function DraftStore(f: DraftFactory, impl: ObjView, name: string, value: Value, variable: string): SetOutcome {
    if f == DraftActiveXAware && IsActiveX(impl) then
      SetOutcome(None, impl, Some(CallStrings.SetPropertyString("this.impl", name, variable)), false)
    else if impl.Missing? then SetOutcome(Some(TypeError), impl, None, false)
    else SetOutcome(None, Obj(impl.members[name := value], impl.activeX), None, false)
  }

  /** The draft's `createPropSetter(name)` closure. */
  function DraftSet(f: DraftFactory, impl: ObjView, name: string, value: Value): (r: SetOutcome)
    ensures r.error.Some? <==> impl.Missing?
    ensures r.evaluated.Some? <==> f == DraftActiveXAware && IsActiveX(impl)
    ensures r.error.None? && r.evaluated.None? ==> r.obj == Obj(impl.members[name := value], impl.activeX)
    ensures r.error.Some? || r.evaluated.Some? ==> r.obj == impl
    ensures !r.logged
  {
    DraftStore(f, impl, name, value, "value")
  }

  /**
   * The draft's `createEvtPropSetter(name)` closure, run by wrapper `wrapper`: with a delegate
   * for the name it stores a delegate wrapper whose state holds the handler (and, in the native
   * literal only, `callRealHandler`); without one it stores the handler itself.
   */
  function DraftEvtSet(f: DraftFactory, wrapper: ObjectId, eventDelegate: map<string, Value>,
                       impl: ObjView, name: string, value: Value): (r: SetOutcome)
    ensures r.error.Some? <==> impl.Missing?
    ensures r.evaluated.Some? <==> f == DraftActiveXAware && IsActiveX(impl)
    ensures r.error.None? && r.evaluated.None? ==> r.obj.Obj? && name in r.obj.members
    ensures r.error.None? && r.evaluated.None? && name !in eventDelegate ==> r.obj.members[name] == value
    ensures r.error.None? && r.evaluated.None? && name in eventDelegate ==>
      && r.obj.members[name].DraftDelegateWrapper?
      && r.obj.members[name].draftFunc == eventDelegate[name]
      && r.obj.members[name].draftState.realHandler == value
      && (r.obj.members[name].draftState.hasCallRealHandler <==> f == DraftNative)
  {
    if name in eventDelegate then
      var state := DraftDelegateState(value, wrapper, f == DraftNative, None);
      DraftStore(f, impl, name, DraftDelegateWrapper(eventDelegate[name], state), "delWrapper")
    else DraftStore(f, impl, name, value, "value")
  }

  /**
   * The transport calling a stored handler: a delegate wrapper records the transport as
   * `realScope` and runs the delegate with the state as `this`; anything else is called with
   * the transport as `this`.
   */
  function DraftFire(handler: Value, args: seq<Value>): (c: Call)
    ensures c.args == args
    ensures !handler.DraftDelegateWrapper? ==> c.callee == handler && c.receiver == TransportThis
    ensures handler.DraftDelegateWrapper? ==>
      && c.callee == handler.draftFunc && c.receiver.DraftStateThis?
      && c.receiver.draft.realScope == Some(TransportThis)
      && c.receiver.draft.realHandler == handler.draftState.realHandler
      && c.receiver.draft.owner == handler.draftState.owner
  {
    match handler
    case DraftDelegateWrapper(fn, st) => Call(fn, DraftStateThis(st.(realScope := Some(TransportThis))), args)
    case _ => Call(handler, TransportThis, args)
  }

  /** `delState.callRealHandler(...)`: only the native literal's state has it. */
  function DraftCallRealHandler(st: DraftDelegateState, args: seq<Value>): (r: Result<Call>)
    ensures r.Err? <==> !st.hasCallRealHandler
    ensures r.Err? ==> r.error == TypeError
    ensures r.Ok? ==> r.value.callee == st.realHandler && r.value.receiver == WrapperThis(st.owner) && r.value.args == args
  {
    if st.hasCallRealHandler then Ok(Call(st.realHandler, WrapperThis(st.owner), args)) else Err(TypeError)
  }

  // ---------------------------------------------------------------- the draft wrapper

  /** How an assignment to a draft wrapper member finishes. */
  function DraftAssignSpec(id: ObjectId, eventDelegate: map<string, Value>, members: map<string, DraftMember>,
                           own: map<string, Value>, impl: ObjView, name: string, value: Value)
    : (SetOutcome, map<string, Value>)
  {
    if name in own || name !in members || members[name].DraftData? then
      (SetOutcome(None, impl, None, false), own[name := value])
    else
      var m := members[name];
      match m.setter
      case NoDraftSetter => (SetOutcome(None, impl, None, false), own)
      case DraftPlainSetter => (DraftSet(m.factory, impl, m.name, value), own)
      case DraftEventSetter => (DraftEvtSet(m.factory, id, eventDelegate, impl, m.name, value), own)
  }

  /** A draft assignment never turns the implementation object into another kind of object. */
  lemma DraftAssignKeepsObject(id: ObjectId, eventDelegate: map<string, Value>, members: map<string, DraftMember>,
                               own: map<string, Value>, impl: ObjView, name: string, value: Value)
    ensures var s := DraftAssignSpec(id, eventDelegate, members, own, impl, name, value).0;
      && (impl.Missing? ==> s.obj == impl)
      && (impl.Obj? ==> s.obj.Obj? && s.obj.activeX == impl.activeX)
  {
  }

  class DraftWrapper {
    const id: ObjectId
    const proto: DraftPrototype
    const eventDelegate: map<string, Value>
    const impl: XhrObject?
    var own: map<string, Value>

    /** `new xhrWrapper(impl)`: stores the implementation; an undefined one is only reported by `console.assert`. */
    constructor (id: ObjectId, impl: XhrObject?, proto: DraftPrototype, eventDelegate: map<string, Value>)
      ensures this.id == id && this.impl == impl && this.proto == proto && this.eventDelegate == eventDelegate
      ensures own == map[]
    {
      this.id := id;
      this.impl := impl;
      this.proto := proto;
      this.eventDelegate := eventDelegate;
      own := map[];
    }

    /** `wrapper[name]`. */
    function Get(name: string): Outcome
      reads this, proto, impl
    {
      if name in own then Returned(own[name])
      else if name !in proto.members then Returned(Undefined)
      else match proto.members[name]
        case DraftData(v) => Returned(v)
        case DraftAccessor(f, pn, _) => DraftGet(f, View(impl), pn)
    }

    /** `wrapper[name](args...)`; a draft method closure forwards to the implementation. */
    function InvokeSpec(name: string, args: seq<Value>): Outcome
      reads this, proto, impl
    {
      var g := Get(name);
      if !g.Returned? then g
      else if g.v.DraftMethodFn? then DraftInvoke(g.v.draftFactory, View(impl), g.v.methodName, args)
      else if IsCallable(g.v) then Called(Call(g.v, WrapperThis(id), args))
      else Threw(TypeError)
    }

    method Invoke(name: string, args: seq<Value>) returns (r: Outcome)
      ensures r == InvokeSpec(name, args)
    {
      var g := Get(name);
      if g.Returned? && g.v.DraftMethodFn? && g.v.draftFactory == DraftActiveXAware && impl != null && impl.activeX {
        r := InvokeActiveXMethod(g.v.methodName, args);
      } else {
        r := InvokeSpec(name, args);
      }
    }

    method Assign(name: string, value: Value) returns (error: Option<JsError>)
      modifies this, impl
      ensures var (s, own') := DraftAssignSpec(id, eventDelegate, proto.members, old(own), old(View(impl)), name, value);
        error == s.error && own == own' && View(impl) == s.obj
    {
      var (s, own') := DraftAssignSpec(id, eventDelegate, proto.members, own, View(impl), name, value);
      DraftAssignKeepsObject(id, eventDelegate, proto.members, own, View(impl), name, value);
      own := own';
      if impl != null && s.obj.Obj? {
        impl.members := s.obj.members;
      }
      error := s.error;
    }
  }

  // ---------------------------------------------------------------- properties

  /**
   * The native draft's event setter installs a delegate wrapper exactly when a delegate is
   * defined for the name, and otherwise stores the raw handler, which the transport then calls
   * with itself, not the wrapper, as `this`. Through the wrapper the delegate runs with the
   * state as `this`, the transport recorded as `realScope`, and `callRealHandler` calls the
   * handler with the wrapper as `this`.
   */
  lemma DraftNativeEventSetter(wrapper: ObjectId, eventDelegate: map<string, Value>, impl: ObjView,
                               name: string, value: Value, args: seq<Value>)
    requires impl.Obj?
    ensures var r := DraftEvtSet(DraftNative, wrapper, eventDelegate, impl, name, value);
      && r.error.None? && r.obj.Obj? && name in r.obj.members
      && var stored := r.obj.members[name];
      && (name !in eventDelegate ==> stored == value)
      && (name !in eventDelegate && !value.DraftDelegateWrapper? ==> DraftFire(stored, args) == Call(value, TransportThis, args))
      && (name in eventDelegate ==>
            var c := DraftFire(stored, args);
            && stored.DraftDelegateWrapper? && stored != value
            && c.callee == eventDelegate[name] && c.receiver.DraftStateThis? && c.args == args
            && c.receiver.draft.realScope == Some(TransportThis)
            && c.receiver.draft.realHandler == value
            && DraftCallRealHandler(c.receiver.draft, args) == Ok(Call(value, WrapperThis(wrapper), args)))
  {
    if name in eventDelegate {
      var state := DraftDelegateState(value, wrapper, true, None);
      assert value < state < DraftDelegateWrapper(eventDelegate[name], state);
    }
  }

  /** The ActiveX-aware draft's delegate state has no `callRealHandler`: calling it throws. */
  lemma DraftActiveXStateHasNoCallRealHandler(wrapper: ObjectId, eventDelegate: map<string, Value>, impl: ObjView,
                                              name: string, value: Value, args: seq<Value>)
    requires impl.Obj? && !impl.activeX && name in eventDelegate
    ensures var r := DraftEvtSet(DraftActiveXAware, wrapper, eventDelegate, impl, name, value);
      && name in r.obj.members && r.obj.members[name].DraftDelegateWrapper?
      && DraftCallRealHandler(r.obj.members[name].draftState, args) == Err(TypeError)
  {
  }

  /** On an ActiveX object the ActiveX-aware draft reads and writes through `this.impl.name` strings. */
  lemma DraftActiveXStrings(impl: ObjView, name: string, value: Value, args: seq<Value>)
    requires IsActiveX(impl)
    ensures DraftGet(DraftActiveXAware, impl, name) == Evaluated("this.impl." + name + ";")
    ensures DraftSet(DraftActiveXAware, impl, name, value)
         == SetOutcome(None, impl, Some("this.impl." + name + " = value;"), false)
    ensures DraftInvoke(DraftActiveXAware, impl, name, args) == Evaluated(CallStrings.CallString("impl", name, |args|))
  {
    assert CallStrings.GetPropertyString("this.impl", name) == "this.impl." + name + ";";
    assert CallStrings.SetPropertyString("this.impl", name, "value") == "this.impl." + name + " = value;";
  }

  /**
   * In the draft only `onreadystatechange` and `ontimeout` are event properties, and assigning
   * a read-only name (such as `readyState`) changes nothing and throws nothing.
   */
  lemma DraftTableShape(f: DraftFactory, w: DraftWrapper, name: string, value: Value)
    requires w.proto.members == DraftTable(f) && name !in w.own
    ensures (name in DraftTable(f) && DraftTable(f)[name].DraftAccessor? && DraftTable(f)[name].setter.DraftEventSetter?)
        <==> name in DraftEventPropertyNames
    ensures name in XhrWrappers.ResponsePropertyNames ==>
      DraftAssignSpec(w.id, w.eventDelegate, w.proto.members, w.own, View(w.impl), name, value)
        == (SetOutcome(None, View(w.impl), None, false), w.own)
  {
    DraftTableLookup(f, name);
  }

  /**
   * On the set-up draft prototype, a name without an own property is served by the draft
   * literal's closures: a method name calls `createMethod`'s closure, a property name reads through
   * `createPropGetter`'s and writes through `createPropSetter`'s or `createEvtPropSetter`'s, and
   * a name in no list (such as `onload`, an event property only of XHRWrapper) reads as
   * `undefined` and throws TypeError when called.
   */
  lemma DraftWrapperForwards(w: DraftWrapper, f: DraftFactory, name: string, value: Value, args: seq<Value>)
    requires w.proto.members == DraftTable(f) && name !in w.own
    ensures name in XhrWrappers.MethodNames ==> w.InvokeSpec(name, args) == DraftInvoke(f, View(w.impl), name, args)
    ensures name in DraftEventPropertyNames || name in XhrWrappers.ReadWritePropertyNames
            || name in XhrWrappers.ResponsePropertyNames ==>
      w.Get(name) == DraftGet(f, View(w.impl), name)
    ensures name in XhrWrappers.ReadWritePropertyNames ==>
      DraftAssignSpec(w.id, w.eventDelegate, w.proto.members, w.own, View(w.impl), name, value)
        == (DraftSet(f, View(w.impl), name, value), w.own)
    ensures name in DraftEventPropertyNames ==>
      DraftAssignSpec(w.id, w.eventDelegate, w.proto.members, w.own, View(w.impl), name, value)
        == (DraftEvtSet(f, w.id, w.eventDelegate, View(w.impl), name, value), w.own)
    ensures DraftKindOf(name).None? ==>
      w.Get(name) == Returned(Undefined) && w.InvokeSpec(name, args) == Threw(TypeError)
    ensures name in XhrWrappers.EventPropertyNames && name !in DraftEventPropertyNames ==> DraftKindOf(name).None?
  {
    DraftTableLookup(f, name);
    XhrWrappers.NameGroupsDistinct();
  }
}
