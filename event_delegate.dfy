/**
 * EventDelegate (src/EventDelegate.js): the call context handed to every event delegate. It
 * remembers the wrapper and the handler the caller assigned, and runs that handler with the
 * wrapper, never the raw implementation, as `this`.
 */
module EventDelegates {
  import opened JsValues

  /** `new EventDelegate(xhr, realHandler)`. */
  function New(xhr: ObjectId, realHandler: Value): (d: EventDelegate)
    ensures Xhr(d) == xhr && d.realHandler == realHandler
  {
    EventDelegate(xhr, realHandler)
  }

  /** `callRealHandler(...)`: the real handler, with the wrapper as `this`, on the arguments given. */
  function CallRealHandler(d: EventDelegate, args: seq<Value>): (c: Call)
    ensures c.callee == d.realHandler && c.args == args
    ensures c.receiver == WrapperThis(Xhr(d)) && !c.receiver.TransportThis?
  {
    Call(d.realHandler, WrapperThis(d.xhr), args)
  }

  /** `applyRealHandler(argArray)`: the real handler, with the wrapper as `this`, on exactly `argArray`. */
  function ApplyRealHandler(d: EventDelegate, argArray: seq<Value>): (c: Call)
    ensures c.callee == d.realHandler && c.args == argArray
    ensures c.receiver == WrapperThis(Xhr(d)) && !c.receiver.TransportThis?
  {
    Call(d.realHandler, WrapperThis(d.xhr), argArray)
  }

  /** The read-only `xhr` accessor; the model has no setter for it. */
  function Xhr(d: EventDelegate): ObjectId
  {
    d.xhr
  }
}
