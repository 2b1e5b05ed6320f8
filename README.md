# xhr-adaptor-js in Dafny

This project models the core of xhr-adaptor-js, a JavaScript library that puts a proxy in
front of the browser's `XMLHttpRequest`. The model covers four parts.

- **The forwarding proxy.** `XHRWrapper` forwards every method and property of the wrapped
  request (`impl`) through a property/method factory. There are three factories:
  - native, which uses `obj[name]` and `apply`;
  - ActiveX-aware, which falls back to `eval` strings on ActiveX objects;
  - a debug decoration that logs around either.

  A builder fills the wrapper prototype from lists of names. Event properties never install
  the caller's handler directly. They install a closure that runs an event delegate with an
  `EventDelegate` state, and that state calls the real handler with the wrapper as `this`.
  The model also covers the bundled build (`dist/xhr-adaptor-js.js`) and the older draft
  (`src/xhrWrapper.js`).
- **ActiveX call strings.** These are the `obj.name(args[0], ..., args[n-1]);` strings handed
  to `eval`.
- **The manager.** It finds the request constructor, trying the ActiveX program ids in
  order. Each injection wraps the previous constructor. The bundled manager also records
  the original constructor and restores it on `resetXHR`.
- **BlockingRequestQueueXHR.** A completed response whose URL matches a registered pattern
  goes to that pattern's response handler, and the pattern stays blocked until the handler
  calls its continuation. While a pattern is blocked, further matching responses and sends
  are appended to a queue that all instances share.

External code is never run. This covers the real handlers, the custom delegates, the
transport's methods, `eval`, and the base class's `open`/`send`. Instead, an operation
returns what it hands to that code: a call (callee, `this`, arguments), the string given to
`eval`, or an effect such as "base `send` with these arguments". A throw is a `JsError` result.

Modules, one per file:

- `values.dfy`: JsValues
- `event_delegate.dfy`: EventDelegates
- `call_strings.dfy`: CallStrings
- `prop_method_factory.dfy`: PropMethodFactories
- `proto_builder.dfy`: ProtoBuilders
- `xhr_wrapper.dfy`: XhrWrappers
- `draft_xhr_wrapper.dfy`: DraftXhrWrappers
- `xhr_manager.dfy`: XhrManagers
- `blocking_queue.dfy`: BlockingRequestQueue

### Where the model departs from the written code or the documentation

- **Response properties are writable.** The builder has `buildReadOnlyProperties`
  (`src/XHRWrapperProtoBuilder.js:50-60`), and the older draft (`src/xhrWrapper.js:188-210`)
  makes the response properties (`readyState`, `response`, `status`, ...) read-only. Yet
  `src/XHRWrapper.js:95-108` and the bundled build pass the same names to
  `buildReadWriteProperties`, so the model gives them setters there, following the code.
  `buildReadOnlyProperties` is modelled but not used by that set-up. The draft model keeps the
  draft's read-only properties.
- **BlockingRequestQueueXHR is an unfinished draft.** The model takes its evident intent, as
  follows.
  - The `onreadystatechange`/`onload` delegates run with the delegate state as `this`. As
    written, `this.readyState` and `this.requestUrl` are undefined there. The model reads the
    ready state as a parameter and uses the instance's recorded URL.
  - `send` with no matching pattern is treated as "not blocked". The written code throws
    there (see Findings).
  - The continuation clears the entry's `isBlocked`. The written code assigns to an
    undeclared variable (see Findings).
  - The closure that `send` pushes on the queue calls the parent's `open` with the undefined
    variables `verb`, `url` and `async`. The model records it as a deferred `send` of that
    instance with the original arguments.
  - `this.parent` is defined nowhere in `src` or `dist` (the factories have `_parent`, nothing
    else). As written, `open` (line 84), `send` (line 107) and the queued closure (line 102)
    throw TypeError when they read it. The model's `Open` and `Send` forward to the base
    class's `open` and `send` instead (the `BaseOpen` and `BaseSend` effects).
  - Line 131 assigns `eventDelegate` on `prototype.delegate`, which is undefined, so loading
    the file throws TypeError and no delegate is ever installed. `OnReadyStateChange` and
    `OnLoad` model the two delegates of that table as evidently intended.
  - The constructor (lines 10-13) never calls `XHRWrapper`, so an instance's `impl` is never
    set. The model's instance has no `impl`; everything it hands to the wrapped request is an
    effect of the base class.
  - The tests register through `BlockingRequestQueueXHR.prototype`
    (`test/BlockingRequestQueueXHRTest.js` lines 28, 66 and 109). Called that way,
    `Object.getPrototypeOf(this)` is XHRWrapper's prototype, which has no
    `responseHandlerMap`, so registering throws TypeError. `RegisterResponseHandler` models
    the registry that all instances share, reached from an instance, where
    `Object.getPrototypeOf(this)` is the prototype holding the map.

## Model

| member | source | states |
|---|---|---|
| EventDelegates.New | src/EventDelegate.js:25-28 | the state remembers the wrapper and the real handler given |
| EventDelegates.CallRealHandler | src/EventDelegate.js:41-43 | calls the real handler with the wrapper, not the transport, as `this`, on the arguments given |
| EventDelegates.ApplyRealHandler | src/EventDelegate.js:58-60 | calls the real handler with the wrapper as `this` on exactly the argument array |
| EventDelegates.Xhr | src/EventDelegate.js:72-76 | the read-only `xhr` accessor gives back the wrapper the state was created with (stated by `EventDelegates.New`), the same wrapper both real-handler calls use as `this` |
| CallStrings.DecimalString | src/PropMethodFactory/ActiveXAwarePropMethodFactory.js:50 | `"" + i` for an index gives one or more decimal digits without a leading zero |
| CallStrings.ParseDecimalInverse | src/PropMethodFactory/ActiveXAwarePropMethodFactory.js:49-51 | the decimal text of an argument index reads back as that index |
| CallStrings.ArgRefInjective | src/PropMethodFactory/ActiveXAwarePropMethodFactory.js:49-51 | distinct argument positions get distinct `args[i]` references, so each argument is passed once and in place |
| CallStrings.BuildCallString | src/PropMethodFactory/ActiveXAwarePropMethodFactory.js:43-53 | the loop builds `receiver.name(` + the comma-joined references `args[0]` … `args[n-1]` + `);` |
| CallStrings.CallStringShape | src/PropMethodFactory/ActiveXAwarePropMethodFactory.js:43-53 | no argument gives `receiver.name();`; otherwise the list starts with `args[0]`, and each further argument appends `, args[i]` |
| CallStrings.ArgRefsFirst | src/PropMethodFactory/ActiveXAwarePropMethodFactory.js:45-47 | a non-empty argument list starts with `args[0]` |
| PropMethodFactories.GetPropertyAt | src/PropMethodFactory/ActiveXAwarePropMethodFactory.js:22-29 | the abstract base throws "not implemented"; `obj.name;` is evaluated exactly on ActiveX objects under the ActiveX-aware level; otherwise an undefined object throws TypeError and a defined one yields its member or `undefined` |
| PropMethodFactories.GetProperty | src/PropMethodFactory/DebugPropMethodFactory.js:32-35 | the same outcomes for any factory instance, whatever its debug decoration: throws iff abstract or undefined object, evaluates iff ActiveX-aware on ActiveX, never calls out |
| PropMethodFactories.SetPropertyAt | src/PropMethodFactory/ActiveXAwarePropMethodFactory.js:31-38 | fails iff abstract base or undefined object; evaluates `obj.name = value;` iff ActiveX-aware on ActiveX and then stores nothing itself; otherwise stores the value under the name and changes nothing else |
| PropMethodFactories.SetProperty | src/PropMethodFactory/DebugPropMethodFactory.js:37-41 | the parent's store and error for any instance; logs iff debug-decorated and the object carries no `_skipPropLog` |
| PropMethodFactories.InvokeMethodAt | src/PropMethodFactory/ActiveXAwarePropMethodFactory.js:40-60 | abstract base throws "not implemented"; the call string is evaluated exactly on ActiveX objects under the ActiveX-aware level; otherwise the member is called with the object as `this` and the same arguments, TypeError iff undefined object or non-function member |
| PropMethodFactories.InvokeMethodSpec | src/PropMethodFactory/DebugPropMethodFactory.js:43-49 | the same outcomes for any instance, whatever its debug decoration; a method never completes without handing over to the transport or `eval` |
| PropMethodFactories.SetEventPropertyAt | src/PropMethodFactory/NativePropMethodFactory.js:31-39 | below the abstract base, stores the delegate wrapper (state plus delegate), never the handler, through the instance's own `setProperty` |
| PropMethodFactories.SetEventProperty | src/PropMethodFactory/DebugPropMethodFactory.js:51-59 | fails iff abstract or undefined object; never logs the inner store; the debug level leaves no `_skipPropLog` behind; a plain store puts the delegate wrapper under the name |
| PropMethodFactories.FireDelegateWrapper | src/PropMethodFactory/NativePropMethodFactory.js:35-37 | the transport firing `delWrapper` runs a custom delegate with the state as `this`, and the default delegate calls the real handler with the wrapper as `this`, on the same arguments |
| PropMethodFactories.PickDelegate | src/PropMethodFactory/PropMethodFactoryBase.js:97-107 | the variant's own delegate iff it defines one for the name, the default pass-through otherwise |
| PropMethodFactories.GetterBody | src/PropMethodFactory/PropMethodFactoryBase.js:52-58 | the getter closure reads the named member of `this.impl`; it throws iff the factory is abstract or `impl` is undefined |
| PropMethodFactories.SetterBody | src/PropMethodFactory/PropMethodFactoryBase.js:67-73 | the setter closure stores the value under its name in `this.impl`; it throws iff the factory is abstract or `impl` is undefined |
| PropMethodFactories.EvtSetterBody | src/PropMethodFactory/PropMethodFactoryBase.js:92-133 | the event setter closure throws iff the factory is abstract or `impl` is undefined, and never logs the store (what it installs: `PropMethodFactories.EventSetterWrapsHandler`) |
| PropMethodFactories.SetPropertyOn | src/PropMethodFactory/NativePropMethodFactory.js:23-25 | writes the factory's `setProperty` result into the implementation object in place |
| PropMethodFactories.CopyArgs | src/PropMethodFactory/DebugPropMethodFactory.js:44-46 | the debug copy of the arguments has the same length and elements |
| PropMethodFactories.InvokeMethod | src/PropMethodFactory/ActiveXAwarePropMethodFactory.js:40-60 | with its loops, returns exactly the factory's `invokeMethod` outcome (eval string on ActiveX, native call otherwise) |
| PropMethodFactories.SetEventPropertyOn | src/PropMethodFactory/NativePropMethodFactory.js:31-39 | writes the factory's `setEventProperty` result (the delegate wrapper) into the implementation object |
| PropMethodFactories.SetEventPropertyKeepsObject | src/PropMethodFactory/DebugPropMethodFactory.js:51-59 | an event setter never loses the implementation object or changes its ActiveX-ness |
| PropMethodFactories.MethodBody | src/PropMethodFactory/PropMethodFactoryBase.js:37-43 | the `createMethod` closure forwards to the factory's `invokeMethod` on `this.impl` with the same name and arguments |
| PropMethodFactories.AbstractPrimitivesThrow | src/PropMethodFactory/PropMethodFactoryBase.js:144-194 | all four primitives of the abstract base throw "Must be implemented in subclass!" |
| PropMethodFactories.ConcretePrimitivesImplemented | src/PropMethodFactory/NativePropMethodFactory.js:19-39 | the native and ActiveX-aware factories override all four primitives |
| PropMethodFactories.NativeSetThenGet | src/PropMethodFactory/NativePropMethodFactory.js:19-25 | native set changes exactly the one member, and a following get returns the value set |
| PropMethodFactories.NativeGetReadsMember | src/PropMethodFactory/NativePropMethodFactory.js:19-21 | native get returns the object's member, or `undefined` when it has none |
| PropMethodFactories.NativeInvokeCallsMember | src/PropMethodFactory/NativePropMethodFactory.js:27-29 | native invoke calls the member with the object as `this` and the same arguments; a non-function throws TypeError |
| PropMethodFactories.ActiveXAwareAsNativeOffActiveX | src/PropMethodFactory/ActiveXAwarePropMethodFactory.js:22-60 | off ActiveX objects, all four ActiveX-aware primitives equal the native ones |
| PropMethodFactories.ActiveXAwareEvaluatesStrings | src/PropMethodFactory/ActiveXAwarePropMethodFactory.js:22-56 | on ActiveX objects the primitives evaluate `obj.name;`, `obj.name = value;` (storing nothing themselves) and the call string |
| PropMethodFactories.DebugPassesThrough | src/PropMethodFactory/DebugPropMethodFactory.js:32-49 | the debug level returns its parent's results and changes the object as its parent does; `setProperty` logs exactly when `_skipPropLog` is absent |
| PropMethodFactories.DebugSetEventPropertySkipsLog | src/PropMethodFactory/DebugPropMethodFactory.js:51-59 | the inner `setProperty` does not log, and `_skipPropLog` is gone afterwards even when the parent throws |
| PropMethodFactories.NativeSetEventPropertyInstallsWrapper | src/PropMethodFactory/NativePropMethodFactory.js:31-39 | stores the delegate wrapper, never the real handler; firing it runs the delegate with the state as `this` and the same arguments |
| PropMethodFactories.EventSetterWrapsHandler | src/PropMethodFactory/PropMethodFactoryBase.js:89-134 | the event setter installs a wrapper around the handler, using the variant's own delegate when it has one and the default otherwise; the default calls the handler with the wrapper as `this`; no other member changes |
| ProtoBuilders.ProtoBuilder.constructor | src/XHRWrapperProtoBuilder.js:6-9 | keeps the factory and the prototype |
| ProtoBuilders.ProtoBuilder.Build | src/XHRWrapperProtoBuilder.js:11-60 | the shared loop leaves the prototype as the fold of the names, stopping at the first throw; on success it returns the builder |
| ProtoBuilders.ProtoBuilder.BuildMethods | src/XHRWrapperProtoBuilder.js:11-19 | `buildMethods` writes each name's method closure and returns the builder |
| ProtoBuilders.ProtoBuilder.BuildEventProperties | src/XHRWrapperProtoBuilder.js:22-33 | defines a getter and event setter per name |
| ProtoBuilders.ProtoBuilder.BuildReadWriteProperties | src/XHRWrapperProtoBuilder.js:36-47 | defines a getter and property setter per name |
| ProtoBuilders.ProtoBuilder.BuildReadOnlyProperties | src/XHRWrapperProtoBuilder.js:50-60 | defines a getter without setter per name |
| ProtoBuilders.AssignMember | src/XHRWrapperProtoBuilder.js:15 | `proto[name] = closure` throws iff the name is an accessor with a setter, is ignored by an accessor without one, and otherwise replaces only that name |
| ProtoBuilders.DefineAccessor | src/XHRWrapperProtoBuilder.js:40-43 | `defineProperty` throws TypeError iff the name is already an accessor (leaving the prototype as it was), and otherwise installs the accessor |
| ProtoBuilders.BuildStopsAtError | src/XHRWrapperProtoBuilder.js:24-30 | after a throw, the remaining names are not looked at |
| ProtoBuilders.BuildLeavesOthers | src/XHRWrapperProtoBuilder.js:13-16 | a build never touches a name it was not given |
| ProtoBuilders.DefinePropertiesIff | src/XHRWrapperProtoBuilder.js:36-47 | the property builders succeed iff the names are distinct and none is already an accessor; then every name has the kind's accessor; otherwise TypeError |
| ProtoBuilders.BuildMethodsIff | src/XHRWrapperProtoBuilder.js:11-19 | `buildMethods` throws iff some name is an accessor with a setter; on success non-accessors hold the method and accessors without setter are unchanged |
| ProtoBuilders.BuildFreshGroup | src/XHRWrapperProtoBuilder.js:22-33 | distinct names new to the prototype never throw and add exactly the group's members |
| ProtoBuilders.SetterOnPrototypeThrows | src/PropMethodFactory/PropMethodFactoryBase.js:67-73 | a factory setter run on the prototype itself (no `impl`) throws the error the builder model assigns |
| XhrWrappers.SelectFactory | src/XHRWrapper.js:56-58 | ActiveX-aware iff ActiveX is supported, debug-decorated iff `debugXHR`, never the abstract base |
| XhrWrappers.NameGroupsDistinct | src/XHRWrapper.js:61-108 | the four name lists are free of repetitions and pairwise disjoint |
| XhrWrappers.StandardTableLookup | src/XHRWrapper.js:74-108 | a name is on the set-up prototype iff it is in a list, with that list's member kind |
| XhrWrappers.SetUpPrototype | src/XHRWrapper.js:55-110 | none of the four builds throws, and the prototype holds exactly the member table of the chosen factory |
| XhrWrappers.Wrapper.constructor | src/XHRWrapper.js:23-28 | stores `impl` (also when undefined) with no own properties |
| XhrWrappers.Wrapper.Invoke | src/XHRWrapper.js:61-72 | calling a wrapper member equals the specified forwarding outcome |
| XhrWrappers.Wrapper.Assign | src/XHRWrapper.js:74-108 | an assignment runs the member's setter (or stores an own property or is ignored), as specified, with the implementation changed in place |
| XhrWrappers.Wrapper.NewBundled | dist/xhr-adaptor-js.js:627-637 | with a native object and event-property names, every delegate's event gets the delegate wrapper around a no-op handler |
| XhrWrappers.WrapperForwards | src/PropMethodFactory/PropMethodFactoryBase.js:37-73 | on the set-up prototype, each method invokes `invokeMethod`, each property reads through `getProperty`, and each setter goes through `setProperty`/`setEventProperty` of the chosen factory |
| XhrWrappers.DefaultDelegatesPassThrough | dist/xhr-adaptor-js.js:741 | with the default empty delegate map, firing an event calls the handler with the wrapper as `this` |
| DraftXhrWrappers.AddGroup | src/xhrWrapper.js:176-182 | one load-time loop adds exactly its names' members |
| DraftXhrWrappers.DraftGroupsDistinct | src/xhrWrapper.js:156-159 | the draft's two event names are among the main list and disjoint from the other groups |
| DraftXhrWrappers.DraftTableLookup | src/xhrWrapper.js:137-210 | a name is on the draft prototype iff it is in a list, with that list's member kind |
| DraftXhrWrappers.DraftSetUp | src/xhrWrapper.js:135-210 | the factory is the ActiveX-aware literal iff ActiveX is supported; the prototype holds exactly the draft table |
| DraftXhrWrappers.InvokeActiveXMethod | src/xhrWrapper.js:9-25 | evaluates `impl.name(args[0], …);`, which is `impl.name();` with no arguments |
| DraftXhrWrappers.DraftWrapper.constructor | src/xhrWrapper.js:2-7 | stores `impl` with no own properties |
| DraftXhrWrappers.DraftWrapper.Invoke | src/xhrWrapper.js:37-43 | calling a draft member equals the specified outcome, which `DraftXhrWrappers.DraftWrapperForwards` ties to the draft's `createMethod` closure on `this.impl` |
| DraftXhrWrappers.DraftWrapper.Assign | src/xhrWrapper.js:53-89 | an assignment runs the draft setter as specified, changing the implementation in place |
| DraftXhrWrappers.DraftNativeEventSetter | src/xhrWrapper.js:109-131 | installs a delegate wrapper iff a delegate exists, otherwise the raw handler, which the transport calls with itself as `this`; `callRealHandler` uses the wrapper |
| DraftXhrWrappers.DraftActiveXStateHasNoCallRealHandler | src/xhrWrapper.js:63-89 | the ActiveX-aware draft's delegate state has no `callRealHandler` |
| DraftXhrWrappers.DraftActiveXStrings | src/xhrWrapper.js:44-62 | on ActiveX objects the draft evaluates `this.impl.name;` and `this.impl.name = value;`, and calls through the `impl.` call string |
| DraftXhrWrappers.DraftTableShape | src/xhrWrapper.js:156-210 | only the two draft event names have event setters; assigning a read-only name changes nothing |
| DraftXhrWrappers.DraftInvoke | src/xhrWrapper.js:37-43 | the call string on `impl` is evaluated iff the ActiveX-aware literal meets an ActiveX object; otherwise the member is called with the transport as `this`, TypeError iff `impl` is undefined or the member is not a function |
| DraftXhrWrappers.DraftGet | src/xhrWrapper.js:44-52 | evaluates `this.impl.name;` iff ActiveX-aware on ActiveX; throws iff `impl` is undefined; otherwise yields the member or `undefined` |
| DraftXhrWrappers.DraftSet | src/xhrWrapper.js:53-62 | fails iff `impl` is undefined; evaluates iff ActiveX-aware on ActiveX, storing nothing itself; otherwise stores the value under the name |
| DraftXhrWrappers.DraftEvtSet | src/xhrWrapper.js:63-89 | stores the raw handler when no delegate is defined, and otherwise a delegate wrapper holding the handler whose state has `callRealHandler` iff the literal is the native one |
| DraftXhrWrappers.DraftFire | src/xhrWrapper.js:120-123 | a delegate wrapper runs the delegate with its state as `this` and the transport recorded as `realScope`; a raw handler runs with the transport as `this` |
| DraftXhrWrappers.DraftCallRealHandler | src/xhrWrapper.js:116-118 | `callRealHandler` exists iff the state comes from the native literal, and calls the handler with the wrapper as `this`; otherwise calling it throws TypeError |
| DraftXhrWrappers.DraftWrapperForwards | src/xhrWrapper.js:137-210 | on the set-up draft prototype, methods call the `createMethod` closure, properties read through `createPropGetter` and write through `createPropSetter` or `createEvtPropSetter`, and a name in no list (such as `onload`) reads `undefined` and throws when called |
| XhrManagers.NewActiveX | src/XHRManager.js:28-40 | returns the first available program id in order 6.0, 3.0, Microsoft; throws the unsupported-browser error iff none is available |
| XhrManagers.XhrClass | src/XHRManager.js:25-28 | the defined `window.XMLHttpRequest`, else the ActiveX fallback |
| XhrManagers.Construct | src/XHRManager.js:60-62 | `new` of an injected closure yields the wrapper classes of the chain in order, and fails iff the base is the ActiveX fallback with no program id |
| XhrManagers.XhrManager.GetXhrClass | src/XHRManager.js:23-41 | `window.XMLHttpRequest` when defined, else the ActiveX fallback |
| XhrManagers.XhrManager.InjectWrapper | src/XHRManager.js:57-63 | the new constructor wraps the class current before |
| XhrManagers.DraftXhrManager.GetXhrClass | src/xhrManager.js:3-21 | as in XHRManager |
| XhrManagers.DraftXhrManager.InjectWrapper | src/xhrManager.js:23-29 | as in XHRManager |
| XhrManagers.BundledXhrManager.GetXhrClass | dist/xhr-adaptor-js.js:845-863 | as in XHRManager |
| XhrManagers.BundledXhrManager.InjectWrapper | dist/xhr-adaptor-js.js:886-899 | the window state after the call and the error are those of the specified injection step |
| XhrManagers.BundledXhrManager.ResetXhr | dist/xhr-adaptor-js.js:910-915 | restores the recorded original, if any |
| XhrManagers.BundledInject | dist/xhr-adaptor-js.js:886-899 | throws TypeError, changing nothing, iff no class is current; otherwise the current class is wrapped, and a recorded original that is not an injected closure stays so |
| XhrManagers.BundledReset | dist/xhr-adaptor-js.js:910-915 | a recorded original becomes current and stays recorded; with none recorded nothing changes |
| XhrManagers.InjectionChainNests | src/XHRManager.js:57-63 | after injecting classes in order, the constructor wraps them last-injected-outermost around the class current before |
| XhrManagers.TwoInjections | src/XHRManager.js:58-62 | injecting A then B over the native class gives B wrapping A wrapping the native request |
| XhrManagers.FallbackThrowsIffNoProgId | src/XHRManager.js:28-40 | with no native class, construction throws iff no program id is available |
| XhrManagers.BundledInjectRecordsOriginal | dist/xhr-adaptor-js.js:888-898 | records the current class as the original only when it is not an injected closure, then wraps it |
| XhrManagers.ResetWithoutOriginalIsNoOp | dist/xhr-adaptor-js.js:912-914 | reset with nothing recorded changes nothing |
| XhrManagers.ResetRestoresFirstClass | dist/xhr-adaptor-js.js:886-915 | after one or more injections, reset brings back the class current before the first one |
| XhrManagers.InjectionsKeepOriginal | dist/xhr-adaptor-js.js:890-894 | once an injected closure is current, further injections keep the recorded original |
| BlockingRequestQueue.ResponseHandlerEntry.constructor | src/BlockingRequestQueueXHR.js:113-123 | a fresh entry holds the handler and is not blocked |
| BlockingRequestQueue.RegisterKeys | src/BlockingRequestQueueXHR.js:113 | assigning a key keeps the order of existing keys, puts a new key last, and keeps keys distinct |
| BlockingRequestQueue.RemoveKey | src/BlockingRequestQueueXHR.js:127 | deleting a key leaves exactly the other keys, still distinct |
| BlockingRequestQueue.RemoveKeyCutsOut | src/BlockingRequestQueueXHR.js:126-128 | deleting cuts exactly that key's position out of the order |
| BlockingRequestQueue.ReRegisterOrder | src/BlockingRequestQueueXHR.js:111-128 | re-registering keeps a key's place; unregister-then-register moves it last |
| BlockingRequestQueue.FirstMatchFrom | src/BlockingRequestQueueXHR.js:30-36 | the first key in order whose pattern matches, or none matches |
| BlockingRequestQueue.NewPatternDoesNotShadow | src/BlockingRequestQueueXHR.js:30-36 | registering a new pattern never changes the entry an already-matching URL finds |
| BlockingRequestQueue.RequestQueuePrototype.constructor | src/BlockingRequestQueueXHR.js:73-78 | empty handler map and empty queue |
| BlockingRequestQueue.RequestQueuePrototype.RegisterResponseHandler | src/BlockingRequestQueueXHR.js:111-124 | a fresh unblocked entry replaces any other under the key; the queue is unchanged |
| BlockingRequestQueue.RequestQueuePrototype.UnregisterResponseHandler | src/BlockingRequestQueueXHR.js:126-128 | removes only that key |
| BlockingRequestQueue.ResponseActionFor | src/BlockingRequestQueueXHR.js:38-63 | to the real handler iff unmatched, queued iff the match is blocked, otherwise to the response handler |
| BlockingRequestQueue.SendActionFor | src/BlockingRequestQueueXHR.js:90-108 | queued iff the match is blocked |
| BlockingRequestQueue.SendActionAsWritten | src/BlockingRequestQueueXHR.js:96-99 | agrees with the intended decision whenever a pattern matches |
| BlockingRequestQueue.UnmatchedSendDiffers | src/BlockingRequestQueueXHR.js:99 | an unmatched send should go ahead but throws as written |
| BlockingRequestQueue.BlockedEntryQueuesEverything | src/BlockingRequestQueueXHR.js:52-58 | a blocked entry queues matching responses and sends; an unblocked one hands them on |
| BlockingRequestQueue.Continue | src/BlockingRequestQueueXHR.js:21-26 | applies the real handler with the original arguments, then unblocks the entry |
| BlockingRequestQueue.ContinueAsWritten | src/BlockingRequestQueueXHR.js:118-121 | applies the real handler, then throws ReferenceError and changes nothing |
| BlockingRequestQueue.BlockingRequestQueueXhr.constructor | src/BlockingRequestQueueXHR.js:10-13 | no URL recorded yet |
| BlockingRequestQueue.BlockingRequestQueueXhr.Found | src/BlockingRequestQueueXHR.js:30-36 | the entry of the first matching pattern in registry order, none when nothing matches, TypeError iff no URL is recorded and some pattern is registered |
| BlockingRequestQueue.BlockingRequestQueueXhr.FindResponseHandlerMatch | src/BlockingRequestQueueXHR.js:30-36 | the for-in loop with early return computes exactly that lookup |
| BlockingRequestQueue.BlockingRequestQueueXhr.Open | src/BlockingRequestQueueXHR.js:82-85 | records exactly the URL, then forwards `open` with the same verb, URL and async flag |
| BlockingRequestQueue.BlockingRequestQueueXhr.Send | src/BlockingRequestQueueXHR.js:90-108 | a blocked match appends exactly one deferred send and does not forward; otherwise forwards with the original arguments and leaves the queue alone |
| BlockingRequestQueue.BlockingRequestQueueXhr.ProcessResponse | src/BlockingRequestQueueXHR.js:38-63 | unmatched: real handler once, nothing else changes; blocked: appends one deferred response; otherwise blocks the entry and invokes its handler with a continuation; no other entry changes |
| BlockingRequestQueue.BlockingRequestQueueXhr.OnReadyStateChange | src/BlockingRequestQueueXHR.js:132-146 | `readyState` other than 4 goes straight to the real handler with nothing changed; 4 is processed as a response |
| BlockingRequestQueue.BlockingRequestQueueXhr.OnLoad | src/BlockingRequestQueueXHR.js:147-149 | every load is processed as a completed response |
| BlockingRequestQueue.SecondRequestWaitsForContinue | src/BlockingRequestQueueXHR.js:90-124 | a second matching send while the first response is held is queued, and continuing applies the first real handler and unblocks |
| BlockingRequestQueue.ResponseAfterContinueReachesHandler | src/BlockingRequestQueueXHR.js:21-26 | after the continuation, the next matching response reaches the handler again |
| BlockingRequestQueue.ResponseAfterContinueAsWrittenIsQueued | src/BlockingRequestQueueXHR.js:116-121 | with the continuation as written, the next matching response is queued for good |

## Left out

- `eval` is not executed. The model gives the string it is handed and says nothing about the
  ActiveX object it changes.
- ActiveXObject detection (`isActiveXObjectSupported`) is a boolean parameter. `instanceof
  ActiveXObject` is a flag on the implementation object.
- URL pattern matching (`String.prototype.match` with a regular expression) is the abstract
  parameter `matches`.
- Console output is not modelled: `console.debug` lines, `JSON.stringify` of the arguments and
  `console.assert` messages. The assert in the wrapper constructors only logs, so an undefined
  `impl` is stored, and later accesses throw TypeError.
- The `_parent()` mechanics are replaced by explicit class levels. As written, a debug
  decoration of the ActiveX-aware factory, used on a non-ActiveX object, would call
  `_parent()` on the most-derived instance again and recurse forever.
  PropMethodFactories.DebugPassesThrough states the intended pass-through instead. The
  situation does not arise, because `debugXHR` is fixed to false.
- getTypeString's regular expression is not modelled. An injected closure is recognised by
  its constructor form (`WrapperClosure`), not by its function name. A browser class that
  happened to be named `xhrWrapperClosure` is not covered.
- The bundled `injectWrapper` throws TypeError when `window.XMLHttpRequest` is undefined,
  because it reads `.prototype` of undefined. The model keeps that behaviour.
- src/xhrNormalize.js, src/amd.js, the Gruntfile and the tests are not part of this model.
  `clearResponseHandlers`, which the tests call, is not defined in the source and is not
  modelled.
- The `eventDelegate` of a wrapper is a map. The case where `this.eventDelegate` is not an
  object (the `!== undefined` test) is not modelled.
- XhrWrappers.Wrapper.Invoke: when a member's value comes from a getter, the outcome is the
  getter's outcome, not a call of the value `eval` or the transport would return.
- Nothing drains the shared `requestQueue`. The model keeps it append-only, so the ordering
  the source's test of blocked requests expects (a queued send running after the
  continuation) is not stated.
- BlockingRequestQueue.BlockingRequestQueueXhr.OnReadyStateChange takes `readyState` as a
  natural number. JavaScript's loose `== 4` on other value types is not modelled.
- Response handlers are called with the continuation only. The source passes no wrapper
  object, although a test's handler expects one as a second argument.
- The deferred closures on the queue are records of what they would run. Running them is
  not modelled.
- The handler map's for-in order is insertion order. JavaScript lists integer-like keys
  first, in numeric order, but URL patterns of that form are not modelled.

## Findings

| source | as written | input that shows it | evidently intended | confidence | as-written member | corrected member |
|---|---|---|---|---|---|---|
| src/BlockingRequestQueueXHR.js:99 | `send` reads `handlerObj.isBlocked` on the lookup result, which is `null` when no pattern matches | register `"http://www.google.com"`, open `"data/simpleSentence.txt"`, call `send()`: TypeError (as written, `send` gets this far only if the caller catches the TypeError that `this.parent` raises in `open` at line 84) | an unmatched request is sent normally (the source's test of a non-matching filter expects the response) | high, not executed | BlockingRequestQueue.SendActionAsWritten (shown by BlockingRequestQueue.UnmatchedSendDiffers) | BlockingRequestQueue.SendActionFor, used by BlockingRequestQueue.BlockingRequestQueueXhr.Send |
| src/BlockingRequestQueueXHR.js:120 | the continuation assigns `requestHandlerObj.isBlocked = false`, but `requestHandlerObj` is not declared | a matching response, then the handler calls its continuation: ReferenceError after the real handler, and the pattern stays blocked, so every later matching response is queued | the continuation unblocks its own entry, as `createContinueCallback` (lines 21-26) does | high, not executed | BlockingRequestQueue.ContinueAsWritten (shown by BlockingRequestQueue.ResponseAfterContinueAsWrittenIsQueued) | BlockingRequestQueue.Continue (shown by BlockingRequestQueue.ResponseAfterContinueReachesHandler) |
