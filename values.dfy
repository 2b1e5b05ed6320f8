/**
 * The JavaScript values that flow through the XHR proxy: the handlers a caller assigns, the
 * closures the proxy installs on the wrapped implementation, the calls it makes into code it
 * does not own, and the implementation object itself.
 *
 * Code outside the library (a caller's handler, a custom delegate, `eval`) is never executed
 * by the model: an operation that hands control to such code yields the `Call` it makes (or the
 * string it evaluates), and what that code then does is the caller's business.
 */
module JsValues {

  /** Identity of an XHRWrapper-derived object; it stands for `this` when a wrapper is the call context. */
  type ObjectId = nat

  /** The kinds of property/method factory (src/PropMethodFactory/). */
  datatype FactoryKind = AbstractBase | Native | ActiveXAware

  /**
   * A factory instance: its base class, optionally decorated by `deriveDebugFactoryFrom`
   * (src/XHRWrapper.js:56-58 picks the base, then the debug decoration).
   */
  datatype Factory = Factory(kind: FactoryKind, debug: bool)

  /** The two factory object literals of the draft wrapper (src/xhrWrapper.js). */
  datatype DraftFactory = DraftNative | DraftActiveXAware

  /** The closures that the factory's `create*` members return. */
  datatype Closure =
    | MethodFn(factory: Factory, name: string)       // createMethod(name)
    | PropGetter(factory: Factory, name: string)     // createPropGetter(name)
    | PropSetter(factory: Factory, name: string)     // createPropSetter(name)
    | EvtPropSetter(factory: Factory, name: string)  // createEvtPropSetter(name)

  /**
   * The delegate function run when an event fires: the default one, whose whole body is
   * `this.applyRealHandler(arguments)`, or the one a wrapper variant lists in `eventDelegate`.
   */
  datatype DelegateFn = PassThrough | Custom(fn: Value)

  /** The delegate state: the wrapper (`xhr`) and the handler the caller assigned (`realHandler`). */
  datatype EventDelegate = EventDelegate(xhr: ObjectId, realHandler: Value)

  /**
   * The delegate state of the draft wrapper (src/xhrWrapper.js): no `xhr` field, `callRealHandler`
   * only in the native factory's variant, and `realScope` recorded when the event fires.
   */
  datatype DraftDelegateState = DraftDelegateState(
    realHandler: Value, owner: ObjectId, hasCallRealHandler: bool, realScope: Option<Receiver>)

  datatype Value =
    | Undefined
    | Prim(text: string)                    // a number, string or boolean
    | UserFn(id: nat)                       // a function supplied by the caller
    | NoOpFn                                // `function() {}`
    | ClosureFn(closure: Closure)           // a closure built by a factory
    | DelegateWrapper(delFunc: DelegateFn, delState: EventDelegate)       // `delWrapper`
    | DraftDelegateWrapper(draftFunc: Value, draftState: DraftDelegateState)
    | DraftMethodFn(draftFactory: DraftFactory, methodName: string)       // the draft's `createMethod(name)`

  /** JavaScript's `typeof v == "function"`. */
  predicate IsCallable(v: Value) {
    !(v.Undefined? || v.Prim?)
  }

  /** The `this` of a call. */
  datatype Receiver =
    | WrapperThis(id: ObjectId)
    | TransportThis
    | DelegateStateThis(state: EventDelegate)
    | DraftStateThis(draft: DraftDelegateState)

  /** A call made into code the library does not own. */
  datatype Call = Call(callee: Value, receiver: Receiver, args: seq<Value>)

  datatype JsError =
    | NotImplemented     // Error("Must be implemented in subclass!")
    | TypeError          // access to a member of undefined, call of a non-function, redefinition
    | Unsupported        // Error("This browser does not support XMLHttpRequest or ActiveX XMLHTTP.")
    | ReferenceError     // read of an undeclared variable

  /** The message the abstract factory primitives throw with. */
  const NotImplementedMessage: string := "Must be implemented in subclass!"

  /** How a primitive finishes. */
  datatype Outcome =
    | Returned(v: Value)        // completed; `undefined` for setters
    | Threw(error: JsError)
    | Called(call: Call)        // hands over to external code and returns what it returns
    | Evaluated(code: string)   // `eval(code)` on an ActiveX object and returns its value

  datatype Option<T> = None | Some(value: T)

  datatype Result<T> = Ok(value: T) | Err(error: JsError)

  /** No name occurs twice: a list of property names, or the keys of a map in for-in order. */
  predicate Distinct(names: seq<string>) {
    forall i, j :: 0 <= i < j < |names| ==> names[i] != names[j]
  }

  /**
   * The wrapped implementation (a native XMLHttpRequest or an ActiveX XMLHTTP object): its
   * members by name, and whether it is an ActiveX object (`obj instanceof ActiveXObject`).
   */
  class XhrObject {
    var members: map<string, Value>
    const activeX: bool

    constructor (members: map<string, Value>, activeX: bool)
      ensures this.members == members && this.activeX == activeX
    {
      this.members := members;
      this.activeX := activeX;
    }
  }
}
