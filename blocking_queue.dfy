/**
 * BlockingRequestQueueXHR (src/BlockingRequestQueueXHR.js): a wrapper class whose completed
 * responses are routed through response handlers registered per URL pattern. While a handler
 * has not called its continuation, its pattern is blocked: further matching responses and
 * sends are appended to a request queue shared by all instances instead of going ahead.
 *
 * Pattern matching (`url.match(key)`) is the parameter `matches`; the real handler, the
 * response handlers and the base class's `open`/`send` are external code, so an operation
 * returns the effect it has on them.
 */
module BlockingRequestQueue {
  import opened JsValues
  import EventDelegates

  /** A registered entry: `{handler, isBlocked, invokeHandler}`. */
  class ResponseHandlerEntry {
    const handler: Value
    var isBlocked: bool

    constructor (handler: Value)
      ensures this.handler == handler && !isBlocked
    {
      this.handler := handler;
      isBlocked := false;
    }
  }

  /** The continuation a response handler receives: the response it holds back. */
  datatype Continuation = Continuation(entry: ResponseHandlerEntry, delegate: EventDelegate, args: seq<Value>)

  /** A closure pushed on the request queue. */
  datatype Deferred =
    | DeferredResponse(entry: ResponseHandlerEntry, delegate: EventDelegate, args: seq<Value>)
    | DeferredSend(xhr: ObjectId, sendArgs: seq<Value>)

  /** What an operation does outside the library. */
  datatype Effect =
    | RealHandlerApplied(call: Call)                                  // `applyRealHandler(args)`
    | HandlerInvoked(handler: Value, continuation: Continuation)      // `this.handler(continue)`
    | BaseOpen(xhr: ObjectId, verb: Value, url: string, async: Value) // the parent class's `open`
    | BaseSend(xhr: ObjectId, args: seq<Value>)                       // the parent class's `send`
    | Queued                                                          // pushed on the request queue

  // ---------------------------------------------------------------- registry key order

  /**
   * The for-in order of the handler map after assigning `key`: a key already present keeps its
   * position, a new key goes last.
   */
  function RegisterKeys(keys: seq<string>, key: string): (r: seq<string>)
    ensures keys <= r && |r| <= |keys| + 1
    ensures forall k :: k in r <==> k in keys || k == key
    ensures Distinct(keys) ==> Distinct(r)
  {
    if key in keys then keys else keys + [key]
  }

  /** The for-in order after `delete map[key]`: the others keep their relative order. */
  function RemoveKey(keys: seq<string>, key: string): (r: seq<string>)
    ensures forall k :: k in r <==> k in keys && k != key
    ensures Distinct(keys) ==> Distinct(r)
    ensures key !in keys ==> r == keys
    decreases |keys|
  {
    if keys == [] then []
    else if keys[0] == key then RemoveKey(keys[1..], key)
    else
      var rest := RemoveKey(keys[1..], key);
      assert Distinct(keys) ==> keys[0] !in keys[1..] && keys[0] !in rest;
      [keys[0]] + rest
  }

  /** Removing a key that occurs once cuts exactly that position out. */
  lemma {:induction false} RemoveKeyCutsOut(keys: seq<string>, i: nat)
    requires Distinct(keys) && i < |keys|
    ensures RemoveKey(keys, keys[i]) == keys[..i] + keys[i + 1..]
    decreases i
  {
    if i == 0 {
      assert keys[0] !in keys[1..];
      assert RemoveKey(keys, keys[0]) == RemoveKey(keys[1..], keys[0]) == keys[1..];
    } else {
      var tail := keys[1..];
      assert tail[i - 1] == keys[i];
      assert Distinct(tail);
      RemoveKeyCutsOut(tail, i - 1);
      assert keys[..i] == [keys[0]] + tail[..i - 1];
      assert keys[i + 1..] == tail[i..];
    }
  }

  /** Re-registering an existing key keeps its place; unregistering it first moves it to the end. */
  lemma ReRegisterOrder(keys: seq<string>, key: string)
    requires Distinct(keys) && key in keys
    ensures RegisterKeys(keys, key) == keys
    ensures RegisterKeys(RemoveKey(keys, key), key) == RemoveKey(keys, key) + [key]
  {
  }

  /**
   * The first key, from position `i` on, whose pattern matches `url`: the lookup order of
   * `findResponseHandlerMatch`.
   */
  function FirstMatchFrom(keys: seq<string>, url: string, matches: (string, string) -> bool, i: nat): (r: Option<nat>)
    requires i <= |keys|
    ensures r.Some? ==> i <= r.value < |keys| && matches(url, keys[r.value])
                        && forall j :: i <= j < r.value ==> !matches(url, keys[j])
    ensures r.None? ==> forall j :: i <= j < |keys| ==> !matches(url, keys[j])
    decreases |keys| - i
  {
    if i == |keys| then None
    else if matches(url, keys[i]) then Some(i)
    else FirstMatchFrom(keys, url, matches, i + 1)
  }

  /** Registering a new pattern never changes the entry a URL that already matches finds. */
  lemma {:induction false} NewPatternDoesNotShadow(keys: seq<string>, key: string, url: string, matches: (string, string) -> bool, i: nat)
    requires i <= |keys| && FirstMatchFrom(keys, url, matches, i).Some?
    ensures FirstMatchFrom(keys + [key], url, matches, i) == FirstMatchFrom(keys, url, matches, i)
    decreases |keys| - i
  {
    assert (keys + [key])[i] == keys[i];
    if !matches(url, keys[i]) {
      NewPatternDoesNotShadow(keys, key, url, matches, i + 1);
    }
  }

  // ---------------------------------------------------------------- the shared statics

  /** The prototype's `responseHandlerMap` (with its for-in order) and `requestQueue`. */
  class RequestQueuePrototype {
    var keys: seq<string>
    var handlers: map<string, ResponseHandlerEntry>
    var requestQueue: seq<Deferred>

    ghost predicate Valid()
      reads this
    {
      Distinct(keys) && forall k :: k in handlers <==> k in keys
    }

    constructor ()
      ensures Valid() && keys == [] && handlers == map[] && requestQueue == []
    {
      keys := [];
      handlers := map[];
      requestQueue := [];
    }

    /** `registerResponseHandler(urlRegEx, responseHandler)`: a fresh unblocked entry replaces any old one. */
    method RegisterResponseHandler(urlRegEx: string, responseHandler: Value) returns (entry: ResponseHandlerEntry)
      requires Valid()
      modifies this
      ensures Valid() && fresh(entry)
      ensures entry.handler == responseHandler && !entry.isBlocked
      ensures handlers == old(handlers)[urlRegEx := entry]
      ensures keys == RegisterKeys(old(keys), urlRegEx)
      ensures requestQueue == old(requestQueue)
    {
      entry := new ResponseHandlerEntry(responseHandler);
      handlers := handlers[urlRegEx := entry];
      keys := RegisterKeys(keys, urlRegEx);
    }

    /** `unregisterResponseHandler(urlRegEx)`: removes that key only. */
    method UnregisterResponseHandler(urlRegEx: string)
      requires Valid()
      modifies this
      ensures Valid()
      ensures handlers == old(handlers) - {urlRegEx}
      ensures keys == RemoveKey(old(keys), urlRegEx)
      ensures requestQueue == old(requestQueue)
    {
      handlers := handlers - {urlRegEx};
      keys := RemoveKey(keys, urlRegEx);
    }
  }

  // ---------------------------------------------------------------- decisions

  /** What the lookup found, as far as the decisions depend on it. */
  datatype MatchView = NoMatch | MatchFound(blocked: bool)

  datatype ResponseAction = ToRealHandler | ToResponseHandler | Enqueue

  datatype SendAction = ForwardSend | EnqueueSend

  /** A completed response: through when unmatched, queued when blocked, handled otherwise. */
  function ResponseActionFor(m: MatchView): (a: ResponseAction)
    ensures a.ToRealHandler? <==> m.NoMatch?
    ensures a.Enqueue? <==> m.MatchFound? && m.blocked
  {
    match m
    case NoMatch => ToRealHandler
    case MatchFound(blocked) => if blocked then Enqueue else ToResponseHandler
  }

  /** `send`, with no match read as "not blocked". */
  function SendActionFor(m: MatchView): (a: SendAction)
    ensures a.EnqueueSend? <==> m.MatchFound? && m.blocked
  {
    if m.MatchFound? && m.blocked then EnqueueSend else ForwardSend
  }

  /** `send` as written: `handlerObj.isBlocked` on a null match throws. */
  function SendActionAsWritten(m: MatchView): (r: Result<SendAction>)
    ensures m.MatchFound? ==> r == Ok(SendActionFor(m))
  {
    if m.NoMatch? then Err(TypeError) else Ok(SendActionFor(m))
  }

  /** An unmatched `send` goes ahead, while the code as written throws before it. */
  lemma UnmatchedSendDiffers()
    ensures SendActionFor(NoMatch) == ForwardSend
    ensures SendActionAsWritten(NoMatch) == Err(TypeError)
  {
  }

  /** A blocked entry queues every matching response and send until something clears it. */
  lemma BlockedEntryQueuesEverything()
    ensures ResponseActionFor(MatchFound(true)) == Enqueue && SendActionFor(MatchFound(true)) == EnqueueSend
    ensures ResponseActionFor(MatchFound(false)) == ToResponseHandler && SendActionFor(MatchFound(false)) == ForwardSend
  {
  }

  /** What `findResponseHandlerMatch` found, as seen by the decisions. */
  function ViewOf(found: Result<Option<ResponseHandlerEntry>>): Result<MatchView>
    reads if found.Ok? && found.value.Some? then {found.value.value} else {}
  {
    if found.Err? then Err(found.error)
    else if found.value.None? then Ok(NoMatch)
    else Ok(MatchFound(found.value.value.isBlocked))
  }

  // ---------------------------------------------------------------- the continuation

  /** The continuation, as intended: applies the real handler, then unblocks the entry. */
  method Continue(k: Continuation) returns (c: Call)
    modifies k.entry
    ensures c == EventDelegates.ApplyRealHandler(k.delegate, k.args)
    ensures !k.entry.isBlocked
  {
    c := EventDelegates.ApplyRealHandler(k.delegate, k.args);
    k.entry.isBlocked := false;
  }

  /**
   * The continuation as written: after applying the real handler it assigns to the undeclared
   * `requestHandlerObj`, which throws, so the entry stays blocked.
   */
  method ContinueAsWritten(k: Continuation) returns (c: Call, error: Option<JsError>)
    ensures c == EventDelegates.ApplyRealHandler(k.delegate, k.args)
    ensures error == Some(ReferenceError)
  {
    c := EventDelegates.ApplyRealHandler(k.delegate, k.args);
    error := Some(ReferenceError);
  }

  // ---------------------------------------------------------------- the instances

  class BlockingRequestQueueXhr {
    const id: ObjectId
    const proto: RequestQueuePrototype
    /** Set by `open`; `null` before. */
    var requestUrl: Option<string>

    constructor (id: ObjectId, proto: RequestQueuePrototype)
      ensures this.id == id && this.proto == proto && requestUrl == None
    {
      this.id := id;
      this.proto := proto;
      requestUrl := None;
    }

    /**
     * The entry of the first registered pattern, in for-in order, that matches the recorded URL;
     * `null.match` throws when no URL was recorded and some pattern is registered.
     */
    function Found(matches: (string, string) -> bool): (r: Result<Option<ResponseHandlerEntry>>)
      reads this, proto
      requires proto.Valid()
      ensures r.Err? <==> requestUrl.None? && proto.keys != []
      ensures r.Err? ==> r.error == TypeError
      ensures r.Ok? && r.value.Some? ==>
        exists i :: 0 <= i < |proto.keys| && matches(requestUrl.value, proto.keys[i])
          && (forall j :: 0 <= j < i ==> !matches(requestUrl.value, proto.keys[j]))
          && r.value.value == proto.handlers[proto.keys[i]]
      ensures r == Ok(None) && requestUrl.Some? ==> forall j :: 0 <= j < |proto.keys| ==> !matches(requestUrl.value, proto.keys[j])
      ensures r.Ok? && r.value.Some? ==> r.value.value in proto.handlers.Values
    {
      if proto.keys == [] then Ok(None)
      else if requestUrl.None? then Err(TypeError)
      else
        var m := FirstMatchFrom(proto.keys, requestUrl.value, matches, 0);
        if m.None? then Ok(None)
        else
          var key := proto.keys[m.value];
          assert key in proto.handlers;
          Ok(Some(proto.handlers[key]))
    }

    /** `findResponseHandlerMatch()`: the for-in loop with early return. */
    method FindResponseHandlerMatch(matches: (string, string) -> bool) returns (r: Result<Option<ResponseHandlerEntry>>)
      requires proto.Valid()
      ensures r == Found(matches)
    {
      var keys := proto.keys;
      var i := 0;
      while i < |keys|
        invariant 0 <= i <= |keys|
        invariant i > 0 ==> requestUrl.Some?
        invariant i > 0 ==> FirstMatchFrom(keys, requestUrl.value, matches, 0) == FirstMatchFrom(keys, requestUrl.value, matches, i)
      {
        if requestUrl.None? {
          return Err(TypeError);
        }
        if matches(requestUrl.value, keys[i]) {
          assert keys[i] in proto.handlers;
          return Ok(Some(proto.handlers[keys[i]]));
        }
        i := i + 1;
      }
      return Ok(None);
    }

    /** `open(verb, url, async)`: records the URL, then forwards to the parent class. */
    method Open(verb: Value, url: string, async: Value) returns (e: Effect)
      modifies this
      ensures requestUrl == Some(url)
      ensures e == BaseOpen(id, verb, url, async)
    {
      requestUrl := Some(url);
      e := BaseOpen(id, verb, url, async);
    }

    /** `send(...)`: queued while the matching entry is blocked, forwarded otherwise. */
    method Send(args: seq<Value>, matches: (string, string) -> bool) returns (r: Result<Effect>)
      requires proto.Valid()
      modifies proto
      ensures proto.Valid() && proto.keys == old(proto.keys) && proto.handlers == old(proto.handlers)
      ensures match old(ViewOf(Found(matches)))
        case Err(e) => r == Err(e) && proto.requestQueue == old(proto.requestQueue)
        case Ok(m) =>
          match SendActionFor(m)
          case ForwardSend => r == Ok(BaseSend(id, args)) && proto.requestQueue == old(proto.requestQueue)
          case EnqueueSend => r == Ok(Queued) && proto.requestQueue == old(proto.requestQueue) + [DeferredSend(id, args)]
    {
      var found := FindResponseHandlerMatch(matches);
      if found.Err? {
        return Err(found.error);
      }
      if found.value.Some? && found.value.value.isBlocked {
        proto.requestQueue := proto.requestQueue + [DeferredSend(id, args)];
        return Ok(Queued);
      }
      r := Ok(BaseSend(id, args));
    }

    /** The outcome of a completed response, against the lookup and queue before it. */
    ghost predicate ResponseDone(found: Result<Option<ResponseHandlerEntry>>, m: Result<MatchView>, oldQueue: seq<Deferred>,
                                 d: EventDelegate, args: seq<Value>, r: Result<Effect>)
      reads this, proto, if found.Ok? && found.value.Some? then {found.value.value} else {}
    {
      match m
      case Err(e) => r == Err(e) && proto.requestQueue == oldQueue
      case Ok(view) =>
        match ResponseActionFor(view)
        case ToRealHandler =>
          r == Ok(RealHandlerApplied(EventDelegates.ApplyRealHandler(d, args))) && proto.requestQueue == oldQueue
        case Enqueue =>
          found.Ok? && found.value.Some? && found.value.value.isBlocked
          && r == Ok(Queued) && proto.requestQueue == oldQueue + [DeferredResponse(found.value.value, d, args)]
        case ToResponseHandler =>
          found.Ok? && found.value.Some? && found.value.value.isBlocked
          && r == Ok(HandlerInvoked(found.value.value.handler, Continuation(found.value.value, d, args)))
          && proto.requestQueue == oldQueue
    }

    /**
     * `processResponse(args)`: an unmatched response goes to the real handler; a matching one is
     * queued while its entry is blocked, and otherwise blocks the entry and goes to its handler.
     * No other entry changes.
     */
    method ProcessResponse(d: EventDelegate, args: seq<Value>, matches: (string, string) -> bool) returns (r: Result<Effect>)
      requires proto.Valid()
      modifies proto, proto.handlers.Values
      ensures proto.Valid() && proto.keys == old(proto.keys) && proto.handlers == old(proto.handlers)
      ensures ResponseDone(old(Found(matches)), old(ViewOf(Found(matches))), old(proto.requestQueue), d, args, r)
      ensures forall e :: e in old(proto.handlers.Values) && e.isBlocked != old(e.isBlocked) ==> old(Found(matches)) == Ok(Some(e))
    {
      var found := FindResponseHandlerMatch(matches);
      if found.Err? {
        return Err(found.error);
      }
      if found.value.None? {
        return Ok(RealHandlerApplied(EventDelegates.ApplyRealHandler(d, args)));
      }
      var entry := found.value.value;
      if entry.isBlocked {
        proto.requestQueue := proto.requestQueue + [DeferredResponse(entry, d, args)];
        return Ok(Queued);
      }
      entry.isBlocked := true;
      r := Ok(HandlerInvoked(entry.handler, Continuation(entry, d, args)));
    }

    /** The `onreadystatechange` delegate: only a completed request (`readyState == 4`) is processed. */
    method OnReadyStateChange(d: EventDelegate, readyState: nat, args: seq<Value>, matches: (string, string) -> bool)
      returns (r: Result<Effect>)
      requires proto.Valid()
      modifies proto, proto.handlers.Values
      ensures proto.Valid() && proto.keys == old(proto.keys) && proto.handlers == old(proto.handlers)
      ensures readyState != 4 ==>
        && r == Ok(RealHandlerApplied(EventDelegates.ApplyRealHandler(d, args)))
        && proto.requestQueue == old(proto.requestQueue)
        && (forall e :: e in old(proto.handlers.Values) ==> e.isBlocked == old(e.isBlocked))
      ensures readyState == 4 ==> ResponseDone(old(Found(matches)), old(ViewOf(Found(matches))), old(proto.requestQueue), d, args, r)
      ensures forall e :: e in old(proto.handlers.Values) && e.isBlocked != old(e.isBlocked) ==> old(Found(matches)) == Ok(Some(e))
    {
      if readyState == 4 {
        r := ProcessResponse(d, args, matches);
      } else {
        r := Ok(RealHandlerApplied(EventDelegates.ApplyRealHandler(d, args)));
      }
    }

    /** The `onload` delegate: every load is a completed response. */
    method OnLoad(d: EventDelegate, args: seq<Value>, matches: (string, string) -> bool) returns (r: Result<Effect>)
      requires proto.Valid()
      modifies proto, proto.handlers.Values
      ensures proto.Valid() && proto.keys == old(proto.keys) && proto.handlers == old(proto.handlers)
      ensures ResponseDone(old(Found(matches)), old(ViewOf(Found(matches))), old(proto.requestQueue), d, args, r)
      ensures forall e :: e in old(proto.handlers.Values) && e.isBlocked != old(e.isBlocked) ==> old(Found(matches)) == Ok(Some(e))
    {
      r := ProcessResponse(d, args, matches);
    }
  }
  /**
   * Two requests to one registered pattern, the second sent while the first response's handler
   * still holds its continuation: the first response reaches the handler, the second send is
   * queued rather than forwarded, and continuing applies the first real handler and unblocks.
   */
  method SecondRequestWaitsForContinue(d: EventDelegate, args: seq<Value>, handler: Value, pattern: string, url: string,
                                       matches: (string, string) -> bool)
    returns (first: Result<Effect>, second: Result<Effect>, queue: seq<Deferred>, continued: Call, unblocked: bool)
    requires matches(url, pattern)
    ensures first.Ok? && first.value.HandlerInvoked? && first.value.handler == handler
    ensures second == Ok(Queued) && queue == [DeferredSend(2, [])]
    ensures continued == EventDelegates.ApplyRealHandler(d, args) && unblocked
  {
    var proto := new RequestQueuePrototype();
    var entry := proto.RegisterResponseHandler(pattern, handler);
    var firstXhr := new BlockingRequestQueueXhr(1, proto);
    var _ := firstXhr.Open(Prim("get"), url, Undefined);
    first := firstXhr.OnLoad(d, args, matches);
    assert first == Ok(HandlerInvoked(handler, Continuation(entry, d, args)));
    var secondXhr := new BlockingRequestQueueXhr(2, proto);
    var _ := secondXhr.Open(Prim("get"), url, Undefined);
    second := secondXhr.Send([], matches);
    queue := proto.requestQueue;
    continued := Continue(first.value.continuation);
    unblocked := !entry.isBlocked;
  }

  /**
   * With the continuation as intended, a later response to the same pattern reaches the
   * handler again.
   */
  method ResponseAfterContinueReachesHandler(d: EventDelegate, args: seq<Value>, handler: Value, pattern: string,
                                             url: string, matches: (string, string) -> bool)
    returns (first: Result<Effect>, later: Result<Effect>)
    requires matches(url, pattern)
    ensures first.Ok? && first.value.HandlerInvoked?
    ensures later.Ok? && later.value.HandlerInvoked? && later.value.handler == handler
  {
    var proto := new RequestQueuePrototype();
    var entry := proto.RegisterResponseHandler(pattern, handler);
    var xhr := new BlockingRequestQueueXhr(1, proto);
    var _ := xhr.Open(Prim("get"), url, Undefined);
    first := xhr.OnLoad(d, args, matches);
    assert first == Ok(HandlerInvoked(handler, Continuation(entry, d, args)));
    var _ := Continue(first.value.continuation);
    later := xhr.OnLoad(d, args, matches);
  }

  /**
   * With the continuation as written, the entry is never unblocked: the continuation throws and
   * every later response to the same pattern is queued, and nothing drains the queue.
   */
  method ResponseAfterContinueAsWrittenIsQueued(d: EventDelegate, args: seq<Value>, handler: Value, pattern: string,
                                                url: string, matches: (string, string) -> bool)
    returns (first: Result<Effect>, error: Option<JsError>, later: Result<Effect>, queue: seq<Deferred>)
    requires matches(url, pattern)
    ensures first.Ok? && first.value.HandlerInvoked?
    ensures error == Some(ReferenceError)
    ensures later == Ok(Queued) && |queue| == 1 && queue[0].DeferredResponse?
  {
    var proto := new RequestQueuePrototype();
    var entry := proto.RegisterResponseHandler(pattern, handler);
    var xhr := new BlockingRequestQueueXhr(1, proto);
    var _ := xhr.Open(Prim("get"), url, Undefined);
    first := xhr.OnLoad(d, args, matches);
    assert first == Ok(HandlerInvoked(handler, Continuation(entry, d, args)));
    var _, e := ContinueAsWritten(first.value.continuation);
    error := e;
    later := xhr.OnLoad(d, args, matches);
    queue := proto.requestQueue;
  }
}
