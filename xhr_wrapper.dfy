/**
 * XHRWrapper (src/XHRWrapper.js and its bundled form in dist/xhr-adaptor-js.js): the proxy
 * object that callers use in place of an XMLHttpRequest. Its prototype is filled once, at
 * load time, by the builder with the factory chosen for the browser; an instance holds the
 * wrapped implementation in `impl` and forwards every listed member to it.
 */
module XhrWrappers {
  import opened JsValues
  import EventDelegates
  import PropMethodFactories
  import opened ProtoBuilders

  /** The names given to `buildMethods`. */
  const MethodNames: seq<string> := [
    "abort", "getAllResponseHeaders", "getResponseHeader", "open", "overrideMimeType",
    "send", "setRequestHeader", "init", "openRequest", "sendAsBinary"]

  /** The names given to `buildEventProperties`. */
  const EventPropertyNames: seq<string> := [
    "onreadystatechange", "ontimeout", "onloadstart", "onprogress",
    "onabort", "onerror", "onload", "onloadend"]

  /** The names given to the first `buildReadWriteProperties`. */
  const ReadWritePropertyNames: seq<string> := [
    "responseType", "timeout", "withCredentials", "mozBackgroundRequest", "multipart"]

  /** The names given to the second `buildReadWriteProperties`: the response state, built writable too. */
  const ResponsePropertyNames: seq<string> := [
    "readyState", "response", "responseText", "responseXML", "status", "statusText",
    "upload", "channel", "mozAnon", "mozSystem", "mozResponseArrayBuffer"]

  /** The load-time switch for the debug decoration; it is off. */
  const DebugXhr: bool := false

  /** The bundled prototype's default `eventDelegate`: no delegate for any event. */
  const DefaultEventDelegate: map<string, Value> := map[]

  /** The kind of member the prototype set-up gives a name, if any. */
  function KindOf(name: string): Option<BuildKind> {
    if name in MethodNames then Some(Methods)
    else if name in EventPropertyNames then Some(EventProperties)
    else if name in ReadWritePropertyNames || name in ResponsePropertyNames then Some(ReadWriteProperties)
    else None
  }

  /** The member table the set-up produces with factory `f`. */
  function StandardTable(f: Factory): map<string, Member> {
    map n | n in MethodNames + EventPropertyNames + ReadWritePropertyNames + ResponsePropertyNames
      :: MemberFor(KindOf(n).value, f, n)
  }

  /** The factory the set-up chooses: ActiveX-aware iff ActiveX is supported, debug-decorated iff asked. */
  function SelectFactory(activeXSupported: bool, debugXhr: bool): (f: Factory)
    ensures f.kind != AbstractBase
    ensures f.kind == ActiveXAware <==> activeXSupported
    ensures f.debug <==> debugXhr
  {
    Factory(if activeXSupported then ActiveXAware else Native, debugXhr)
  }

  /** The name groups are free of repetitions and pairwise disjoint. */
  lemma NameGroupsDistinct()
    ensures Distinct(MethodNames) && Distinct(EventPropertyNames)
    ensures Distinct(ReadWritePropertyNames) && Distinct(ResponsePropertyNames)
    ensures forall n :: n in EventPropertyNames ==> n !in MethodNames
    ensures forall n :: n in ReadWritePropertyNames ==> n !in MethodNames && n !in EventPropertyNames
    ensures forall n :: n in ResponsePropertyNames ==>
      n !in MethodNames && n !in EventPropertyNames && n !in ReadWritePropertyNames
  {
    NameListsDistinct();
    NameListsDisjoint();
  }

  /** No list repeats a name. */
  lemma NameListsDistinct()
    ensures Distinct(MethodNames) && Distinct(EventPropertyNames)
    ensures Distinct(ReadWritePropertyNames) && Distinct(ResponsePropertyNames)
  {
  }

  /** No name is in two lists. */
  lemma NameListsDisjoint()
    ensures forall n :: n in EventPropertyNames ==> n !in MethodNames
    ensures forall n :: n in ReadWritePropertyNames ==> n !in MethodNames && n !in EventPropertyNames
    ensures forall n :: n in ResponsePropertyNames ==>
      n !in MethodNames && n !in EventPropertyNames && n !in ReadWritePropertyNames
  {
  }

  /** A name is in the set-up table exactly when it is in a group, with that group's member. */
  lemma StandardTableLookup(f: Factory, name: string)
    ensures name in StandardTable(f) <==> KindOf(name).Some?
    ensures name in StandardTable(f) ==> StandardTable(f)[name] == MemberFor(KindOf(name).value, f, name)
    ensures name in MethodNames ==> KindOf(name) == Some(Methods)
    ensures name in EventPropertyNames ==> KindOf(name) == Some(EventProperties)
    ensures name in ReadWritePropertyNames || name in ResponsePropertyNames ==> KindOf(name) == Some(ReadWriteProperties)
  {
    NameGroupsDistinct();
  }

  /**
   * The load-time set-up of the prototype: choose the factory, then build the methods, the
   * event properties and the two groups of read-write properties. None of the builds throws,
   * and every listed name gets the member of its group.
   */
  method SetUpPrototype(activeXSupported: bool, debugXhr: bool) returns (f: Factory, proto: Prototype)
    ensures fresh(proto)
    ensures f == SelectFactory(activeXSupported, debugXhr)
    ensures proto.members == StandardTable(f)
  {
    f := SelectFactory(activeXSupported, debugXhr);
    proto := new Prototype();
    var builder := new ProtoBuilder(f, proto);
    NameGroupsDistinct();

    ghost var g1 := GroupTable(Methods, f, MethodNames);
    ghost var g2 := GroupTable(EventProperties, f, EventPropertyNames);
    ghost var g3 := GroupTable(ReadWriteProperties, f, ReadWritePropertyNames);
    ghost var g4 := GroupTable(ReadWriteProperties, f, ResponsePropertyNames);

    BuildFreshGroup(Methods, f, map[], MethodNames);
    var r := builder.BuildMethods(MethodNames);
    assert r.Ok? && proto.members == map[] + g1;

    BuildFreshGroup(EventProperties, f, map[] + g1, EventPropertyNames);
    r := builder.BuildEventProperties(EventPropertyNames);
    assert r.Ok? && proto.members == map[] + g1 + g2;

    BuildFreshGroup(ReadWriteProperties, f, map[] + g1 + g2, ReadWritePropertyNames);
    r := builder.BuildReadWriteProperties(ReadWritePropertyNames);
    assert r.Ok? && proto.members == map[] + g1 + g2 + g3;

    BuildFreshGroup(ReadWriteProperties, f, map[] + g1 + g2 + g3, ResponsePropertyNames);
    r := builder.BuildReadWriteProperties(ResponsePropertyNames);
    assert r.Ok?;
    StandardTableSplit(f);
  }

  /** The union of the four groups' tables, in build order. */
  function BuildTable(f: Factory): map<string, Member> {
    map[] + GroupTable(Methods, f, MethodNames) + GroupTable(EventProperties, f, EventPropertyNames)
      + GroupTable(ReadWriteProperties, f, ReadWritePropertyNames) + GroupTable(ReadWriteProperties, f, ResponsePropertyNames)
  }

  /** The set-up table is the union of the four groups' tables. */
  lemma StandardTableSplit(f: Factory)
    ensures StandardTable(f) == BuildTable(f)
  {
    BuildTableInStandardTable(f);
    StandardTableInBuildTable(f);
  }

  lemma BuildTableInStandardTable(f: Factory)
    ensures forall n :: n in BuildTable(f) ==> n in StandardTable(f) && BuildTable(f)[n] == StandardTable(f)[n]
  {
    forall n | n in BuildTable(f)
      ensures n in StandardTable(f) && BuildTable(f)[n] == StandardTable(f)[n]
    {
      StandardTableLookup(f, n);
    }
  }

  lemma StandardTableInBuildTable(f: Factory)
    ensures forall n :: n in StandardTable(f) ==> n in BuildTable(f)
  {
    forall n | n in StandardTable(f)
      ensures n in BuildTable(f)
    {
      StandardTableLookup(f, n);
    }
  }

  /** How an assignment to a wrapper member finishes. */
  datatype Assignment = Assignment(error: Option<JsError>, impl: PropMethodFactories.ObjView,
                                   own: map<string, Value>, evaluated: Option<string>)

  /**
   * `wrapper[name] = value`: an own or non-accessor name becomes an own data property; an
   * accessor without setter ignores the assignment; otherwise its factory setter runs with the
   * wrapper as `this`.
   */
  function AssignSpec(id: ObjectId, eventDelegate: map<string, Value>, members: map<string, Member>,
                      own: map<string, Value>, impl: PropMethodFactories.ObjView, name: string, value: Value): Assignment
  {
    if name in own || !IsAccessor(members, name) then Assignment(None, impl, own[name := value], None)
    else
      var m := members[name];
      match m.setter
      case NoSetter => Assignment(None, impl, own, None)
      case PropertySetter =>
        var r := PropMethodFactories.SetterBody(PropSetter(m.factory, m.name), impl, value);
        Assignment(r.error, r.obj, own, r.evaluated)
      case EventSetter =>
        var r := PropMethodFactories.EvtSetterBody(EvtPropSetter(m.factory, m.name), id, eventDelegate, impl, value);
        Assignment(r.error, r.obj, own, r.evaluated)
  }

  /** An instance of XHRWrapper (or of a variant derived from it, with its own `eventDelegate`). */
  class Wrapper {
    const id: ObjectId
    const proto: Prototype
    const eventDelegate: map<string, Value>
    const impl: XhrObject?
    var own: map<string, Value>

    /** `new XHRWrapper(impl)`: stores the implementation; an undefined one is only reported by `console.assert`. */
    constructor (id: ObjectId, impl: XhrObject?, proto: Prototype, eventDelegate: map<string, Value>)
      ensures this.id == id && this.impl == impl && this.proto == proto && this.eventDelegate == eventDelegate
      ensures own == map[]
    {
      this.id := id;
      this.impl := impl;
      this.proto := proto;
      this.eventDelegate := eventDelegate;
      own := map[];
    }

    /** `wrapper[name]`. */
    function Get(name: string): Outcome
      reads this, proto, impl
    {
      if name in own then Returned(own[name])
      else if name !in proto.members then Returned(Undefined)
      else match proto.members[name]
        case DataMember(v) => Returned(v)
        case Accessor(f, pn, _) => PropMethodFactories.GetterBody(PropGetter(f, pn), PropMethodFactories.View(impl))
    }

    /** Calling a value with the wrapper as `this`: a factory method forwards to `invokeMethod`. */
    function CallValue(v: Value, args: seq<Value>): Outcome
      reads impl
    {
      if v.ClosureFn? && v.closure.MethodFn? then
        PropMethodFactories.InvokeMethodSpec(v.closure.factory, PropMethodFactories.View(impl), v.closure.name, args)
      else if IsCallable(v) then Called(Call(v, WrapperThis(id), args))
      else Threw(TypeError)
    }

    /** `wrapper[name](args...)`; when the member is produced by code outside the model, that outcome is returned. */
    function InvokeSpec(name: string, args: seq<Value>): Outcome
      reads this, proto, impl
    {
      var g := Get(name);
      if g.Returned? then CallValue(g.v, args) else g
    }

    method Invoke(name: string, args: seq<Value>) returns (r: Outcome)
      ensures r == InvokeSpec(name, args)
    {
      var g := Get(name);
      if g.Returned? && g.v.ClosureFn? && g.v.closure.MethodFn? {
        r := PropMethodFactories.MethodBody(g.v.closure, impl, args);
      } else if g.Returned? {
        r := CallValue(g.v, args);
      } else {
        r := g;
      }
    }

    method Assign(name: string, value: Value) returns (error: Option<JsError>)
      modifies this, impl
      ensures var a := AssignSpec(id, eventDelegate, proto.members, old(own), old(PropMethodFactories.View(impl)), name, value);
        error == a.error && own == a.own && PropMethodFactories.View(impl) == a.impl
    {
      if name in own || !IsAccessor(proto.members, name) {
        own := own[name := value];
        error := None;
      } else {
        var m := proto.members[name];
        match m.setter {
          case NoSetter =>
            error := None;
          case PropertySetter =>
            var r := PropMethodFactories.SetPropertyOn(m.factory, impl, m.name, value);
            error := r.error;
          case EventSetter =>
            var r := PropMethodFactories.SetEventPropertyOn(m.factory, impl, m.name, EventDelegates.New(id, value),
                                                           PropMethodFactories.PickDelegate(eventDelegate, m.name), value);
            error := r.error;
        }
      }
    }

    /**
     * The bundled constructor: stores `impl`, then assigns a no-op handler to every event named
     * in `eventDelegate`, so that each delegate runs even when the caller sets no handler. When
     * every such name is an event property of a concrete factory and the implementation is a
     * native object, the transport's handler for each of them is the delegate wrapper around
     * the no-op.
     */
    static method NewBundled(id: ObjectId, impl: XhrObject?, proto: Prototype, eventDelegate: map<string, Value>)
      returns (w: Wrapper, error: Option<JsError>)
      modifies impl
      ensures fresh(w) && w.id == id && w.impl == impl && w.proto == proto && w.eventDelegate == eventDelegate
      ensures DelegatesInstallable(impl, proto, eventDelegate) ==>
        && error.None? && w.own == map[]
        && forall e :: e in eventDelegate ==>
             e in impl.members && impl.members[e] == DelegateWrapper(Custom(eventDelegate[e]), EventDelegate(id, NoOpFn))
    {
      w := new Wrapper(id, impl, proto, eventDelegate);
      error := None;
      var pending := eventDelegate.Keys;
      ghost var done: set<string> := {};
      ghost var ready := DelegatesInstallable(impl, proto, eventDelegate);
      while pending != {}
        invariant pending + done == eventDelegate.Keys && pending !! done
        invariant w.impl == impl && w.proto == proto && w.eventDelegate == eventDelegate && w.id == id
        invariant ready ==> DelegatesInstallable(impl, proto, eventDelegate)
        invariant ready ==> error.None? && w.own == map[]
        invariant ready ==> forall e :: e in done ==>
          e in impl.members && impl.members[e] == DelegateWrapper(Custom(eventDelegate[e]), EventDelegate(id, NoOpFn))
        decreases pending
      {
        var e :| e in pending;
        ghost var before := PropMethodFactories.View(impl);
        var err := w.Assign(e, NoOpFn);
        if ready {
          var m := proto.members[e];
          PropMethodFactories.EventSetterWrapsHandler(m.factory, id, eventDelegate, before, e, NoOpFn, []);
        }
        if err.Some? {
          error := err;
          return;
        }
        pending := pending - {e};
        done := done + {e};
      }
    }
  }

  /**
   * The case in which the bundled constructor's loop installs every delegate: a native
   * implementation object, and every name of `eventDelegate` an event property of a concrete
   * factory (and not the debug flag's name).
   */
  ghost predicate DelegatesInstallable(impl: XhrObject?, proto: Prototype, eventDelegate: map<string, Value>)
    reads impl, proto
  {
    && impl != null && !impl.activeX
    && forall e :: e in eventDelegate ==>
         && e != PropMethodFactories.SkipPropLog
         && IsAccessor(proto.members, e)
         && proto.members[e] == Accessor(proto.members[e].factory, e, EventSetter)
         && proto.members[e].factory.kind != AbstractBase
  }

  // ---------------------------------------------------------------- properties

  /**
   * On the set-up prototype a wrapper forwards: each method name invokes the factory's
   * `invokeMethod` on `impl`, each property name reads through `getProperty`, each read-write
   * name writes through `setProperty`, and each event name installs through the event setter.
   */
  lemma WrapperForwards(w: Wrapper, f: Factory, name: string, value: Value, args: seq<Value>)
    requires w.proto.members == StandardTable(f) && name !in w.own
    ensures name in MethodNames ==>
      w.InvokeSpec(name, args) == PropMethodFactories.InvokeMethodSpec(f, PropMethodFactories.View(w.impl), name, args)
    ensures name in EventPropertyNames || name in ReadWritePropertyNames || name in ResponsePropertyNames ==>
      w.Get(name) == PropMethodFactories.GetProperty(f, PropMethodFactories.View(w.impl), name)
    ensures name in ReadWritePropertyNames || name in ResponsePropertyNames ==>
      var a := AssignSpec(w.id, w.eventDelegate, w.proto.members, w.own, PropMethodFactories.View(w.impl), name, value);
      var s := PropMethodFactories.SetProperty(f, PropMethodFactories.View(w.impl), name, value);
      a == Assignment(s.error, s.obj, w.own, s.evaluated)
    ensures name in EventPropertyNames ==>
      var a := AssignSpec(w.id, w.eventDelegate, w.proto.members, w.own, PropMethodFactories.View(w.impl), name, value);
      var s := PropMethodFactories.SetEventProperty(f, PropMethodFactories.View(w.impl), name, EventDelegate(w.id, value),
                                                    PropMethodFactories.PickDelegate(w.eventDelegate, name), value);
      a == Assignment(s.error, s.obj, w.own, s.evaluated)
    ensures KindOf(name).None? ==> w.Get(name) == Returned(Undefined)
  {
    StandardTableLookup(f, name);
  }

  /** With the default (empty) `eventDelegate`, every event setter uses the pass-through delegate. */
  lemma DefaultDelegatesPassThrough(id: ObjectId, name: string, handler: Value, args: seq<Value>)
    ensures PropMethodFactories.PickDelegate(DefaultEventDelegate, name) == PassThrough
    ensures PropMethodFactories.FireDelegateWrapper(PropMethodFactories.PickDelegate(DefaultEventDelegate, name),
                                                    EventDelegates.New(id, handler), args)
         == Call(handler, WrapperThis(id), args)
  {
  }
}
