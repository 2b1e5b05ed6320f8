/**
 * The property/method factories (src/PropMethodFactory/): the abstract base that builds the
 * wrapper's forwarding closures, the native factory that reaches the implementation with
 * `obj[name]` and `apply`, the ActiveX-aware factory that falls back to `eval` strings for
 * ActiveX objects, and the debug decoration that logs around either.
 *
 * A factory is a base kind plus an optional debug decoration. A primitive of the debug level
 * does its logging and then runs the same primitive of the base level; inside the native
 * `setEventProperty`, `this.setProperty` is the instance's own, so the debug level is
 * consulted again there.
 */
module PropMethodFactories {
  import opened JsValues
  import EventDelegates
  import CallStrings

  /** A snapshot of the implementation object: `undefined`, or its members and ActiveX-ness. */
  datatype ObjView = Missing | Obj(members: map<string, Value>, activeX: bool)

  function View(o: XhrObject?): ObjView
    reads o
  {
    if o == null then Missing else Obj(o.members, o.activeX)
  }

  predicate IsActiveX(obj: ObjView) {
    obj.Obj? && obj.activeX
  }

  /** `obj[name]`: the member, or `undefined` when there is none. */
  function Lookup(m: map<string, Value>, name: string): Value {
    if name in m then m[name] else Undefined
  }

  /** The flag the debug factory sets on the object while it installs an event handler. */
  const SkipPropLog: string := "_skipPropLog"

  /**
   * How a setter finishes: the error it threw (if any), the object afterwards, the code it
   * handed to `eval` (if any) and whether the debug factory logged the assignment.
   */
  datatype SetOutcome = SetOutcome(error: Option<JsError>, obj: ObjView, evaluated: Option<string>, logged: bool)

  // ---------------------------------------------------------------- getProperty

  /**
   * `getProperty` of one class level: the abstract base throws "not implemented"; the others
   * evaluate `obj.name;` exactly on ActiveX objects under the ActiveX-aware level, throw
   * TypeError on an undefined object and otherwise return the member (or `undefined`).
   */
  function GetPropertyAt(kind: FactoryKind, obj: ObjView, name: string): (o: Outcome)
    ensures kind == AbstractBase ==> o == Threw(NotImplemented)
    ensures kind != AbstractBase ==> (o.Threw? <==> obj.Missing?) && (o.Threw? ==> o.error == TypeError)
    ensures o.Evaluated? <==> kind == ActiveXAware && IsActiveX(obj)
    ensures o.Evaluated? ==> o.code == "obj." + name + ";"
    ensures o.Returned? ==> obj.Obj? && o.v == Lookup(obj.members, name)
  {
    match kind
    case AbstractBase => Threw(NotImplemented)
    case Native => NativeGetProperty(obj, name)
    case ActiveXAware =>
      if IsActiveX(obj) then Evaluated(CallStrings.GetPropertyString("obj", name))
      else NativeGetProperty(obj, name)
  }

  function NativeGetProperty(obj: ObjView, name: string): Outcome {
    if obj.Missing? then Threw(TypeError) else Returned(Lookup(obj.members, name))
  }

  /**
   * `getProperty` of a factory instance; the debug level logs and returns its parent's result,
   * so the outcome depends on the base kind only.
   */
  function GetProperty(f: Factory, obj: ObjView, name: string): (o: Outcome)
    ensures o.Threw? <==> f.kind == AbstractBase || obj.Missing?
    ensures o.Evaluated? <==> f.kind == ActiveXAware && IsActiveX(obj)
    ensures o.Returned? ==> obj.Obj? && o.v == Lookup(obj.members, name)
    ensures !o.Called?
  {
    GetPropertyAt(f.kind, obj, name)
  }

  // ---------------------------------------------------------------- setProperty

  /**
   * `setProperty` of one class level: it fails exactly on the abstract base and on an undefined
   * object, evaluates `obj.name = value;` exactly on ActiveX objects under the ActiveX-aware
   * level, and otherwise stores the value under the name and nothing else.
   */
  function SetPropertyAt(kind: FactoryKind, obj: ObjView, name: string, value: Value): (r: SetOutcome)
    ensures r.error.Some? <==> kind == AbstractBase || obj.Missing?
    ensures kind == AbstractBase ==> r.error == Some(NotImplemented)
    ensures r.evaluated.Some? <==> kind == ActiveXAware && IsActiveX(obj)
    ensures r.evaluated.Some? ==> r.evaluated.value == "obj." + name + " = value;"
    ensures r.error.None? && r.evaluated.None? ==> r.obj == Obj(obj.members[name := value], obj.activeX)
    ensures r.error.Some? || r.evaluated.Some? ==> r.obj == obj
    ensures !r.logged
  {
    match kind
    case AbstractBase => SetOutcome(Some(NotImplemented), obj, None, false)
    case Native => NativeSetProperty(obj, name, value)
    case ActiveXAware =>
      if IsActiveX(obj) then SetOutcome(None, obj, Some(CallStrings.SetPropertyString("obj", name, "value")), false)
      else NativeSetProperty(obj, name, value)
  }

  function NativeSetProperty(obj: ObjView, name: string, value: Value): SetOutcome {
    if obj.Missing? then SetOutcome(Some(TypeError), obj, None, false)
    else SetOutcome(None, Obj(obj.members[name := value], obj.activeX), None, false)
  }

  /**
   * `setProperty` of a factory instance; the debug level logs unless the object carries
   * `_skipPropLog`, and otherwise does what its parent does.
   */
  function SetProperty(f: Factory, obj: ObjView, name: string, value: Value): (r: SetOutcome)
    ensures r.error.Some? <==> f.kind == AbstractBase || obj.Missing?
    ensures r.evaluated.Some? <==> f.kind == ActiveXAware && IsActiveX(obj)
    ensures r.error.None? && r.evaluated.None? ==> r.obj == Obj(obj.members[name := value], obj.activeX)
    ensures r.error.Some? || r.evaluated.Some? ==> r.obj == obj
    ensures r.logged <==> f.debug && obj.Obj? && SkipPropLog !in obj.members
  {
    if !f.debug then SetPropertyAt(f.kind, obj, name, value)
    else if obj.Missing? then SetOutcome(Some(TypeError), obj, None, false)  // `'_skipPropLog' in undefined`
    else SetPropertyAt(f.kind, obj, name, value).(logged := SkipPropLog !in obj.members)
  }

  /** The `setProperty` method: writes into the implementation object in place. */
  method SetPropertyOn(f: Factory, obj: XhrObject?, name: string, value: Value) returns (r: SetOutcome)
    modifies obj
    ensures r == SetProperty(f, old(View(obj)), name, value)
    ensures View(obj) == r.obj
  {
    r := SetProperty(f, View(obj), name, value);
    if obj != null && r.obj.Obj? {
      obj.members := r.obj.members;
    }
  }

  // ---------------------------------------------------------------- invokeMethod

  /**
   * `invokeMethod` of one class level: the abstract base throws "not implemented"; the
   * ActiveX-aware level evaluates the call string exactly on ActiveX objects; otherwise the
   * member is called with the object as `this` and the same arguments, and TypeError is thrown
   * when the object is undefined or the member is not a function. Nothing completes by itself.
   */
  function InvokeMethodAt(kind: FactoryKind, obj: ObjView, name: string, args: seq<Value>): (o: Outcome)
    ensures kind == AbstractBase ==> o == Threw(NotImplemented)
    ensures o.Evaluated? <==> kind == ActiveXAware && IsActiveX(obj)
    ensures o.Evaluated? ==> o.code == CallStrings.CallString("obj", name, |args|)
    ensures kind != AbstractBase && !o.Evaluated? ==>
      (o.Threw? <==> obj.Missing? || !IsCallable(Lookup(obj.members, name)))
    ensures o.Called? ==> obj.Obj? && name in obj.members && o.call == Call(obj.members[name], TransportThis, args)
    ensures !o.Returned?
  {
    match kind
    case AbstractBase => Threw(NotImplemented)
    case Native => NativeInvokeMethod(obj, name, args)
    case ActiveXAware =>
      if IsActiveX(obj) then Evaluated(CallStrings.CallString("obj", name, |args|))
      else NativeInvokeMethod(obj, name, args)
  }

  function NativeInvokeMethod(obj: ObjView, name: string, args: seq<Value>): Outcome {
    if obj.Missing? || !IsCallable(Lookup(obj.members, name)) then Threw(TypeError)
    else Called(Call(Lookup(obj.members, name), TransportThis, args))
  }

  /**
   * `invokeMethod` of a factory instance; the debug level logs and returns its parent's result,
   * so the outcome depends on the base kind only.
   */
  function InvokeMethodSpec(f: Factory, obj: ObjView, name: string, args: seq<Value>): (o: Outcome)
    ensures o.Evaluated? <==> f.kind == ActiveXAware && IsActiveX(obj)
    ensures o.Threw? <==>
      f.kind == AbstractBase || (!o.Evaluated? && (obj.Missing? || !IsCallable(Lookup(obj.members, name))))
    ensures o.Called? ==> obj.Obj? && name in obj.members && o.call == Call(obj.members[name], TransportThis, args)
    ensures !o.Returned?
  {
    InvokeMethodAt(f.kind, obj, name, args)
  }

  /** The debug factory's copy of the arguments into a fresh array, for its log line. */
  method CopyArgs(args: seq<Value>) returns (arrArgs: seq<Value>)
    ensures |arrArgs| == |args| && forall i :: 0 <= i < |args| ==> arrArgs[i] == args[i]
  {
    arrArgs := [];
    var i := 0;
    while i < |args|
      invariant 0 <= i <= |args| && arrArgs == args[..i]
    {
      arrArgs := arrArgs + [args[i]];
      i := i + 1;
    }
  }

  /** The `invokeMethod` method of a factory instance, with the loops of the source. */
  method InvokeMethod(f: Factory, obj: XhrObject?, name: string, args: seq<Value>) returns (r: Outcome)
    ensures r == InvokeMethodSpec(f, View(obj), name, args)
  {
    if f.debug {
      var arrArgs := CopyArgs(args);  // only logged
    }
    match f.kind
    case AbstractBase =>
      r := Threw(NotImplemented);
    case Native =>
      r := NativeInvokeMethod(View(obj), name, args);
    case ActiveXAware =>
      if obj != null && obj.activeX {
        var code := CallStrings.BuildCallString("obj", name, |args|);
        r := Evaluated(code);
      } else {
        r := NativeInvokeMethod(View(obj), name, args);
      }
  }

  // ---------------------------------------------------------------- setEventProperty

  /**
   * `setEventProperty` of one class level; `instance` is the factory whose `setProperty` it
   * calls. Below the abstract base it stores the delegate wrapper, never the handler itself.
   */
  function SetEventPropertyAt(kind: FactoryKind, instance: Factory, obj: ObjView, name: string,
                              delState: EventDelegate, delFunc: DelegateFn): (r: SetOutcome)
    ensures kind == AbstractBase ==> r == SetOutcome(Some(NotImplemented), obj, None, false)
    ensures kind != AbstractBase ==> (r.error.Some? <==> instance.kind == AbstractBase || obj.Missing?)
    ensures kind != AbstractBase && r.error.None? && r.evaluated.None? ==>
      r.obj == Obj(obj.members[name := DelegateWrapper(delFunc, delState)], obj.activeX)
  {
    match kind
    case AbstractBase => SetOutcome(Some(NotImplemented), obj, None, false)
    case _ => SetProperty(instance, obj, name, DelegateWrapper(delFunc, delState))
  }

  /** Deletes `_skipPropLog` from the object. */
  function Unflag(obj: ObjView): ObjView {
    if obj.Missing? then obj else Obj(obj.members - {SkipPropLog}, obj.activeX)
  }

  /**
   * `setEventProperty` of a factory instance. The debug level sets `_skipPropLog`, runs its
   * parent's `setEventProperty` and deletes the flag again whether or not that threw.
   * (`realHandler` is passed only for the debug log line.)
   */
  function SetEventProperty(f: Factory, obj: ObjView, name: string, delState: EventDelegate,
                            delFunc: DelegateFn, realHandler: Value): (r: SetOutcome)
    ensures r.error.Some? <==> f.kind == AbstractBase || obj.Missing?
    ensures !r.logged
    ensures f.debug && r.obj.Obj? ==> SkipPropLog !in r.obj.members
    ensures r.error.None? && r.evaluated.None? && name != SkipPropLog ==>
      r.obj.Obj? && name in r.obj.members && r.obj.members[name] == DelegateWrapper(delFunc, delState)
  {
    if !f.debug then SetEventPropertyAt(f.kind, f, obj, name, delState, delFunc)
    else if obj.Missing? then SetOutcome(Some(TypeError), obj, None, false)  // `undefined._skipPropLog = true`
    else
      var flagged := Obj(obj.members[SkipPropLog := Prim("true")], obj.activeX);
      var r := SetEventPropertyAt(f.kind, f, flagged, name, delState, delFunc);
      r.(obj := Unflag(r.obj))
  }

  /** The `setEventProperty` method: writes the wrapper closure into the implementation object. */
  method SetEventPropertyOn(f: Factory, obj: XhrObject?, name: string, delState: EventDelegate,
                            delFunc: DelegateFn, realHandler: Value) returns (r: SetOutcome)
    modifies obj
    ensures r == SetEventProperty(f, old(View(obj)), name, delState, delFunc, realHandler)
    ensures View(obj) == r.obj
  {
    r := SetEventProperty(f, View(obj), name, delState, delFunc, realHandler);
    if obj != null {
      SetEventPropertyKeepsObject(f, View(obj), name, delState, delFunc, realHandler);
      obj.members := r.obj.members;
    }
  }

  /** A setter never turns an existing object into `undefined` and never changes its ActiveX-ness. */
  lemma SetEventPropertyKeepsObject(f: Factory, obj: ObjView, name: string, delState: EventDelegate,
                                    delFunc: DelegateFn, realHandler: Value)
    requires obj.Obj?
    ensures SetEventProperty(f, obj, name, delState, delFunc, realHandler).obj.Obj?
    ensures SetEventProperty(f, obj, name, delState, delFunc, realHandler).obj.activeX == obj.activeX
  {
  }

  /**
   * What the transport's call of the installed `delWrapper` does: it runs the delegate with the
   * delegate state as `this`. The default delegate only applies the real handler.
   */
  function FireDelegateWrapper(delFunc: DelegateFn, delState: EventDelegate, args: seq<Value>): (c: Call)
    ensures c.args == args
    ensures delFunc.PassThrough? ==> c == Call(delState.realHandler, WrapperThis(delState.xhr), args)
    ensures delFunc.Custom? ==> c.callee == delFunc.fn && c.receiver == DelegateStateThis(delState)
  {
    match delFunc
    case PassThrough => EventDelegates.ApplyRealHandler(delState, args)
    case Custom(fn) => Call(fn, DelegateStateThis(delState), args)
  }

  // ---------------------------------------------------------------- the create* closures

  /** The delegate function the event setter picks: the variant's own, or the default one. */
  function PickDelegate(eventDelegate: map<string, Value>, name: string): (d: DelegateFn)
    ensures d.Custom? <==> name in eventDelegate
    ensures d.Custom? ==> d.fn == eventDelegate[name]
  {
    if name in eventDelegate then Custom(eventDelegate[name]) else PassThrough
  }

  /** The closure of `createPropGetter(name)`, run with a wrapper whose `impl` is `impl`. */
  function GetterBody(c: Closure, impl: ObjView): (o: Outcome)
    requires c.PropGetter?
    ensures o.Threw? <==> c.factory.kind == AbstractBase || impl.Missing?
    ensures o.Returned? ==> impl.Obj? && o.v == Lookup(impl.members, c.name)
  {
    GetProperty(c.factory, impl, c.name)
  }

  /** The closure of `createPropSetter(name)`, run with a wrapper whose `impl` is `impl`. */
  function SetterBody(c: Closure, impl: ObjView, value: Value): (r: SetOutcome)
    requires c.PropSetter?
    ensures r.error.Some? <==> c.factory.kind == AbstractBase || impl.Missing?
    ensures r.error.None? && r.evaluated.None? ==> r.obj == Obj(impl.members[c.name := value], impl.activeX)
  {
    SetProperty(c.factory, impl, c.name, value)
  }

  /**
   * The closure of `createEvtPropSetter(name)`, run with wrapper `wrapper` (whose variant's
   * delegates are `eventDelegate` and whose `impl` is `impl`) and the assigned `value`.
   */
  function EvtSetterBody(c: Closure, wrapper: ObjectId, eventDelegate: map<string, Value>,
                         impl: ObjView, value: Value): (r: SetOutcome)
    requires c.EvtPropSetter?
    ensures r.error.Some? <==> c.factory.kind == AbstractBase || impl.Missing?
    ensures !r.logged
  {
    SetEventProperty(c.factory, impl, c.name, EventDelegates.New(wrapper, value),
                     PickDelegate(eventDelegate, c.name), value)
  }

  /** The closure of `createMethod(name)`, run with a wrapper whose `impl` is `impl`. */
  method MethodBody(c: Closure, impl: XhrObject?, args: seq<Value>) returns (r: Outcome)
    requires c.MethodFn?
    ensures r == InvokeMethodSpec(c.factory, View(impl), c.name, args)
  {
    r := InvokeMethod(c.factory, impl, c.name, args);
  }

  // ---------------------------------------------------------------- properties

  /** The four primitives of the abstract base each throw "Must be implemented in subclass!". */
  lemma AbstractPrimitivesThrow(obj: ObjView, name: string, value: Value, args: seq<Value>,
                                delState: EventDelegate, delFunc: DelegateFn)
    ensures GetProperty(Factory(AbstractBase, false), obj, name) == Threw(NotImplemented)
    ensures SetProperty(Factory(AbstractBase, false), obj, name, value) == SetOutcome(Some(NotImplemented), obj, None, false)
    ensures InvokeMethodSpec(Factory(AbstractBase, false), obj, name, args) == Threw(NotImplemented)
    ensures SetEventProperty(Factory(AbstractBase, false), obj, name, delState, delFunc, value).error == Some(NotImplemented)
  {
  }

  /** The native and ActiveX-aware factories override all four primitives: none throws NotImplemented. */
  lemma ConcretePrimitivesImplemented(f: Factory, obj: ObjView, name: string, value: Value, args: seq<Value>,
                                      delState: EventDelegate, delFunc: DelegateFn)
    requires f.kind != AbstractBase
    ensures GetProperty(f, obj, name) != Threw(NotImplemented)
    ensures SetProperty(f, obj, name, value).error != Some(NotImplemented)
    ensures InvokeMethodSpec(f, obj, name, args) != Threw(NotImplemented)
    ensures SetEventProperty(f, obj, name, delState, delFunc, value).error != Some(NotImplemented)
  {
  }

  /**
   * Native `setProperty` changes exactly the one member, and a following `getProperty` returns
   * the value set.
   */
  lemma NativeSetThenGet(obj: ObjView, name: string, value: Value)
    requires obj.Obj?
    ensures var r := SetProperty(Factory(Native, false), obj, name, value);
      && r.error.None? && r.obj.Obj?
      && GetProperty(Factory(Native, false), r.obj, name) == Returned(value)
      && r.obj.members.Keys == obj.members.Keys + {name}
      && forall n :: n in obj.members && n != name ==> r.obj.members[n] == obj.members[n]
  {
  }

  /** Native `getProperty` returns the object's current member, `undefined` when absent. */
  lemma NativeGetReadsMember(obj: ObjView, name: string)
    requires obj.Obj?
    ensures name in obj.members ==> GetProperty(Factory(Native, false), obj, name) == Returned(obj.members[name])
    ensures name !in obj.members ==> GetProperty(Factory(Native, false), obj, name) == Returned(Undefined)
  {
  }

  /**
   * Native `invokeMethod` calls the named member with the object as `this` and the given
   * arguments, and returns its result; a member that is not a function throws.
   */
  lemma NativeInvokeCallsMember(obj: ObjView, name: string, args: seq<Value>)
    requires obj.Obj?
    ensures var r := InvokeMethodSpec(Factory(Native, false), obj, name, args);
      && (name in obj.members && IsCallable(obj.members[name]) ==>
            r == Called(Call(obj.members[name], TransportThis, args)))
      && (name !in obj.members || !IsCallable(obj.members[name]) ==> r == Threw(TypeError))
  {
  }

  /** On anything but an ActiveX object the ActiveX-aware factory behaves exactly like the native one. */
  lemma ActiveXAwareAsNativeOffActiveX(debug: bool, obj: ObjView, name: string, value: Value, args: seq<Value>,
                                       delState: EventDelegate, delFunc: DelegateFn)
    requires !IsActiveX(obj)
    ensures GetProperty(Factory(ActiveXAware, debug), obj, name) == GetProperty(Factory(Native, debug), obj, name)
    ensures SetProperty(Factory(ActiveXAware, debug), obj, name, value) == SetProperty(Factory(Native, debug), obj, name, value)
    ensures InvokeMethodSpec(Factory(ActiveXAware, debug), obj, name, args) == InvokeMethodSpec(Factory(Native, debug), obj, name, args)
    ensures SetEventProperty(Factory(ActiveXAware, debug), obj, name, delState, delFunc, value)
         == SetEventProperty(Factory(Native, debug), obj, name, delState, delFunc, value)
  {
    if debug && obj.Obj? {
      var flagged := Obj(obj.members[SkipPropLog := Prim("true")], obj.activeX);
      assert !IsActiveX(flagged);
    }
  }

  /**
   * On an ActiveX object the ActiveX-aware factory evaluates `obj.name;` to read,
   * `obj.name = value;` to write (returning nothing and storing nothing itself), and
   * `obj.name(args[0], ..., args[n-1]);` to invoke.
   */
  lemma ActiveXAwareEvaluatesStrings(debug: bool, obj: ObjView, name: string, value: Value, args: seq<Value>)
    requires IsActiveX(obj)
    ensures GetProperty(Factory(ActiveXAware, debug), obj, name) == Evaluated("obj." + name + ";")
    ensures var r := SetProperty(Factory(ActiveXAware, debug), obj, name, value);
      r.error.None? && r.obj == obj && r.evaluated == Some("obj." + name + " = value;")
    ensures |args| == 0 ==> InvokeMethodSpec(Factory(ActiveXAware, debug), obj, name, args) == Evaluated("obj." + name + "();")
    ensures InvokeMethodSpec(Factory(ActiveXAware, debug), obj, name, args)
         == Evaluated("obj." + name + "(" + CallStrings.Join(CallStrings.ArgRefs(|args|)) + ");")
  {
    ActiveXAwareSetString(debug, obj, name, value);
    ActiveXAwareCallString(debug, obj, name, args);
  }

  lemma ActiveXAwareSetString(debug: bool, obj: ObjView, name: string, value: Value)
    requires IsActiveX(obj)
    ensures var r := SetProperty(Factory(ActiveXAware, debug), obj, name, value);
      r.error.None? && r.obj == obj && r.evaluated == Some("obj." + name + " = value;")
  {
    assert CallStrings.SetPropertyString("obj", name, "value") == "obj." + name + " = value;";
  }

  lemma ActiveXAwareCallString(debug: bool, obj: ObjView, name: string, args: seq<Value>)
    requires IsActiveX(obj)
    ensures |args| == 0 ==> InvokeMethodSpec(Factory(ActiveXAware, debug), obj, name, args) == Evaluated("obj." + name + "();")
    ensures InvokeMethodSpec(Factory(ActiveXAware, debug), obj, name, args)
         == Evaluated("obj." + name + "(" + CallStrings.Join(CallStrings.ArgRefs(|args|)) + ");")
  {
    assert InvokeMethodSpec(Factory(ActiveXAware, debug), obj, name, args) == Evaluated(CallStrings.CallString("obj", name, |args|));
    if |args| == 0 {
      CallStrings.CallStringNoArgs("obj", name);
    }
  }

  /**
   * The debug decoration returns exactly its parent's results and changes the object exactly as
   * its parent does; `setProperty` logs exactly when the object has no `_skipPropLog`.
   */
  lemma DebugPassesThrough(kind: FactoryKind, obj: ObjView, name: string, value: Value, args: seq<Value>)
    ensures GetProperty(Factory(kind, true), obj, name) == GetProperty(Factory(kind, false), obj, name)
    ensures InvokeMethodSpec(Factory(kind, true), obj, name, args) == InvokeMethodSpec(Factory(kind, false), obj, name, args)
    ensures obj.Obj? ==>
      var d, p := SetProperty(Factory(kind, true), obj, name, value), SetProperty(Factory(kind, false), obj, name, value);
      d.error == p.error && d.obj == p.obj && d.evaluated == p.evaluated && d.logged == (SkipPropLog !in obj.members)
  {
  }

  /**
   * The debug `setEventProperty` sets `_skipPropLog` around its parent's, so the inner
   * `setProperty` does not log, and removes it afterwards, also when the parent throws.
   */
  lemma DebugSetEventPropertySkipsLog(kind: FactoryKind, obj: ObjView, name: string, delState: EventDelegate,
                                      delFunc: DelegateFn, realHandler: Value)
    requires obj.Obj?
    ensures var r := SetEventProperty(Factory(kind, true), obj, name, delState, delFunc, realHandler);
      && !r.logged
      && r.obj.Obj? && SkipPropLog !in r.obj.members
      && (kind == AbstractBase ==> r.error == Some(NotImplemented) && r.obj.members == obj.members - {SkipPropLog})
  {
  }

  /**
   * The native `setEventProperty` stores the wrapper closure, never the real handler; when the
   * transport fires it, the delegate runs with the delegate state as `this` and the same arguments.
   */
  lemma NativeSetEventPropertyInstallsWrapper(obj: ObjView, name: string, delState: EventDelegate,
                                              delFunc: DelegateFn, args: seq<Value>)
    requires obj.Obj?
    ensures var r := SetEventProperty(Factory(Native, false), obj, name, delState, delFunc, delState.realHandler);
      && r.error.None? && r.obj.Obj?
      && r.obj.members == obj.members[name := DelegateWrapper(delFunc, delState)]
      && r.obj.members[name] != delState.realHandler
      && (delFunc.Custom? ==> FireDelegateWrapper(delFunc, delState, args) == Call(delFunc.fn, DelegateStateThis(delState), args))
  {
    assert delState.realHandler < DelegateWrapper(delFunc, delState);
  }

  /**
   * The event setter built by `createEvtPropSetter` on a non-ActiveX object: it installs a
   * wrapper around the assigned value, never the value itself, whose delegate is the variant's
   * own for that name when it has one and the default otherwise; fired without a delegate of
   * the variant's own, it calls the assigned handler with the wrapper as `this` and the same
   * arguments. No other member changes (the debug flag aside).
   */
  lemma EventSetterWrapsHandler(f: Factory, wrapper: ObjectId, eventDelegate: map<string, Value>,
                                impl: ObjView, name: string, value: Value, args: seq<Value>)
    requires f.kind != AbstractBase && impl.Obj? && !impl.activeX && name != SkipPropLog
    ensures var r := EvtSetterBody(EvtPropSetter(f, name), wrapper, eventDelegate, impl, value);
      && r.error.None? && r.obj.Obj? && name in r.obj.members
      && var installed := r.obj.members[name];
      && installed != value
      && installed == DelegateWrapper(PickDelegate(eventDelegate, name), EventDelegate(wrapper, value))
      && (name in eventDelegate ==> installed.delFunc == Custom(eventDelegate[name]))
      && (name !in eventDelegate ==>
            FireDelegateWrapper(installed.delFunc, installed.delState, args) == Call(value, WrapperThis(wrapper), args))
      && r.obj.activeX == impl.activeX
      && forall n :: n != name && n != SkipPropLog ==>
           (n in r.obj.members <==> n in impl.members) && (n in impl.members ==> r.obj.members[n] == impl.members[n])
  {
    var st := EventDelegates.New(wrapper, value);
    var w := DelegateWrapper(PickDelegate(eventDelegate, name), st);
    assert value < st < w;
    if f.debug {
      var flagged := Obj(impl.members[SkipPropLog := Prim("true")], impl.activeX);
      assert flagged.members[name := w] - {SkipPropLog} == (impl.members - {SkipPropLog})[name := w];
    }
  }
}
