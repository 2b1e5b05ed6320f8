/**
 * The XHR manager (src/XHRManager.js, its draft src/xhrManager.js and the bundled version in
 * dist/xhr-adaptor-js.js): finds the XMLHttpRequest constructor, falling back to ActiveX
 * XMLHTTP objects, and injects wrapper classes by replacing `window.XMLHttpRequest` with a
 * closure that wraps a new instance of the previous constructor. The bundled version also
 * remembers the original constructor so that `resetXHR` can restore it.
 */
module XhrManagers {
  import opened JsValues

  /** The ActiveX program ids tried, in this order. */
  const ProgIds: seq<string> := ["Msxml2.XMLHTTP.6.0", "Msxml2.XMLHTTP.3.0", "Microsoft.XMLHTTP"]

  /** The message of the error thrown when no constructor can be found. */
  const UnsupportedMessage: string := "This browser does not support XMLHttpRequest or ActiveX XMLHTTP."

  /**
   * A value of `window.XMLHttpRequest`: a class that is not an injected closure (the browser's
   * own XMLHttpRequest, or any other class put there), the ActiveX fallback pseudo-constructor,
   * or an injected closure that wraps a new instance of `prev` in `wrapperClass`.
   */
  datatype Ctor =
    | BrowserClass(id: nat)
    | ActiveXFallback
    | WrapperClosure(wrapperClass: nat, prev: Ctor)

  /** What `new c()` yields. */
  datatype Instance =
    | BrowserXhr(id: nat)
    | ActiveXXhr(progId: string)
    | Wrapped(wrapperClass: nat, inner: Instance)

  /** The wrapper classes of an injected constructor, outermost first. */
  function Chain(c: Ctor): seq<nat> {
    if c.WrapperClosure? then [c.wrapperClass] + Chain(c.prev) else []
  }

  /** The constructor at the bottom of an injection chain. */
  function Base(c: Ctor): Ctor {
    if c.WrapperClosure? then Base(c.prev) else c
  }

  /** The wrapper classes around an instance, outermost first. */
  function InstanceChain(i: Instance): seq<nat> {
    if i.Wrapped? then [i.wrapperClass] + InstanceChain(i.inner) else []
  }

  /** The `getXhrClass` choice: `window.XMLHttpRequest` when defined, the ActiveX fallback otherwise. */
  function XhrClass(current: Option<Ctor>): (c: Ctor)
    ensures current.Some? ==> c == current.value
    ensures current.None? ==> c.ActiveXFallback?
  {
    if current.Some? then current.value else ActiveXFallback
  }

  /**
   * The ActiveX fallback pseudo-constructor: `new ActiveXObject(id)` for each program id in
   * order, returning the first that succeeds (`available` holds the ids this browser can
   * instantiate) and throwing when none does.
   */
  function NewActiveX(available: set<string>): (r: Result<Instance>)
    ensures r.Ok? <==> exists i :: 0 <= i < |ProgIds| && ProgIds[i] in available
    ensures r.Ok? ==> exists i :: 0 <= i < |ProgIds| && ProgIds[i] in available && r.value == ActiveXXhr(ProgIds[i])
                        && forall j :: 0 <= j < i ==> ProgIds[j] !in available
    ensures r.Err? ==> r.error == Unsupported
  {
    if ProgIds[0] in available then Ok(ActiveXXhr(ProgIds[0]))
    else if ProgIds[1] in available then Ok(ActiveXXhr(ProgIds[1]))
    else if ProgIds[2] in available then Ok(ActiveXXhr(ProgIds[2]))
    else Err(Unsupported)
  }

  /**
   * `new c()`: an injected closure builds the previous constructor's instance and wraps it; the
   * result has exactly the constructor's wrapper classes, in the same order, and fails exactly
   * when the bottom of the chain is the ActiveX fallback and no program id is available.
   */
  function Construct(c: Ctor, available: set<string>): (r: Result<Instance>)
    ensures r.Ok? ==> InstanceChain(r.value) == Chain(c)
    ensures r.Err? <==> Base(c).ActiveXFallback? && NewActiveX(available).Err?
  {
    match c
    case BrowserClass(id) => Ok(BrowserXhr(id))
    case ActiveXFallback => NewActiveX(available)
    case WrapperClosure(w, prev) =>
      var inner := Construct(prev, available);
      if inner.Err? then inner else Ok(Wrapped(w, inner.value))
  }

  /** The browser's `window`, as far as the manager uses it. */
  class Window {
    var xmlHttpRequest: Option<Ctor>
    var origXmlHttpRequest: Option<Ctor>

    constructor (xmlHttpRequest: Option<Ctor>)
      ensures this.xmlHttpRequest == xmlHttpRequest && origXmlHttpRequest == None
    {
      this.xmlHttpRequest := xmlHttpRequest;
      origXmlHttpRequest := None;
    }
  }

  /** The manager of src/XHRManager.js. */
  class XhrManager {
    constructor ()
    {
    }

    /** `getXhrClass()`. */
    function GetXhrClass(w: Window): (c: Ctor)
      reads w
      ensures c == XhrClass(w.xmlHttpRequest)
    {
      if w.xmlHttpRequest.Some? then w.xmlHttpRequest.value else ActiveXFallback
    }

    /** `injectWrapper(xhrWrapperClass)`: the new constructor wraps the one current before. */
    method InjectWrapper(w: Window, wrapperClass: nat)
      modifies w
      ensures w.xmlHttpRequest == Some(WrapperClosure(wrapperClass, XhrClass(old(w.xmlHttpRequest))))
      ensures w.origXmlHttpRequest == old(w.origXmlHttpRequest)
    {
      var prevXhr := GetXhrClass(w);
      w.xmlHttpRequest := Some(WrapperClosure(wrapperClass, prevXhr));
    }
  }

  /** The draft manager object of src/xhrManager.js. */
  class DraftXhrManager {
    constructor ()
    {
    }

    /** `getXhrClass()`. */
    function GetXhrClass(w: Window): (c: Ctor)
      reads w
      ensures c == XhrClass(w.xmlHttpRequest)
    {
      if w.xmlHttpRequest.Some? then w.xmlHttpRequest.value else ActiveXFallback
    }

    /** `injectWrapper(xhrWrapperClass)`: assigns `window.XMLHttpRequest` a closure over the previous constructor. */
    method InjectWrapper(w: Window, wrapperClass: nat)
      modifies w
      ensures w.xmlHttpRequest == Some(WrapperClosure(wrapperClass, XhrClass(old(w.xmlHttpRequest))))
      ensures w.origXmlHttpRequest == old(w.origXmlHttpRequest)
    {
      var prevXhr := GetXhrClass(w);
      w.xmlHttpRequest := Some(WrapperClosure(wrapperClass, prevXhr));
    }
  }

  /** The two globals the bundled manager reads and writes. */
  datatype WindowState = WindowState(xmlHttpRequest: Option<Ctor>, origXmlHttpRequest: Option<Ctor>)

  /**
   * The bundled `injectWrapper`: reading `window.XMLHttpRequest.prototype` throws when the class
   * is undefined; otherwise the current class is recorded as the original unless it is already
   * an injected closure, and is then wrapped.
   */
  function BundledInject(s: WindowState, wrapperClass: nat): (r: (Option<JsError>, WindowState))
    ensures r.0.Some? <==> s.xmlHttpRequest.None?
    ensures r.0.Some? ==> r == (Some(TypeError), s)
    ensures r.0.None? ==> r.1.xmlHttpRequest == Some(WrapperClosure(wrapperClass, s.xmlHttpRequest.value))
    ensures (s.origXmlHttpRequest.None? || !s.origXmlHttpRequest.value.WrapperClosure?) ==>
      (r.1.origXmlHttpRequest.None? || !r.1.origXmlHttpRequest.value.WrapperClosure?)
  {
    if s.xmlHttpRequest.None? then (Some(TypeError), s)
    else
      var prev := s.xmlHttpRequest.value;
      var orig := if prev.WrapperClosure? then s.origXmlHttpRequest else Some(prev);
      (None, WindowState(Some(WrapperClosure(wrapperClass, prev)), orig))
  }

  /** The bundled `resetXHR`: restores the recorded original, if any. */
  function BundledReset(s: WindowState): (r: WindowState)
    ensures r.origXmlHttpRequest == s.origXmlHttpRequest
    ensures s.origXmlHttpRequest.Some? ==> r.xmlHttpRequest == s.origXmlHttpRequest
    ensures s.origXmlHttpRequest.None? ==> r == s
  {
    if s.origXmlHttpRequest.Some? then s.(xmlHttpRequest := s.origXmlHttpRequest) else s
  }

  /** Several bundled injections in a row; a throw leaves the state as it is and stops the rest. */
  function BundledInjectAll(s: WindowState, classes: seq<nat>): (Option<JsError>, WindowState)
    decreases |classes|
  {
    if classes == [] then (None, s)
    else
      var (e, s') := BundledInject(s, classes[0]);
      if e.Some? then (e, s') else BundledInjectAll(s', classes[1..])
  }

  /** The manager of dist/xhr-adaptor-js.js. */
  class BundledXhrManager {
    constructor ()
    {
    }

    /** `getXhrClass()`. */
    function GetXhrClass(w: Window): (c: Ctor)
      reads w
      ensures c == XhrClass(w.xmlHttpRequest)
    {
      if w.xmlHttpRequest.Some? then w.xmlHttpRequest.value else ActiveXFallback
    }

    /** `injectWrapper(xhrWrapperClass)`. */
    method InjectWrapper(w: Window, wrapperClass: nat) returns (error: Option<JsError>)
      modifies w
      ensures (error, WindowState(w.xmlHttpRequest, w.origXmlHttpRequest))
           == BundledInject(WindowState(old(w.xmlHttpRequest), old(w.origXmlHttpRequest)), wrapperClass)
    {
      var prevXhr := GetXhrClass(w);
      if w.xmlHttpRequest.None? {
        return Some(TypeError);
      }
      if !w.xmlHttpRequest.value.WrapperClosure? {
        w.origXmlHttpRequest := Some(prevXhr);
      }
      w.xmlHttpRequest := Some(WrapperClosure(wrapperClass, prevXhr));
      error := None;
    }

    /** `resetXHR()`. */
    method ResetXhr(w: Window)
      modifies w
      ensures WindowState(w.xmlHttpRequest, w.origXmlHttpRequest)
           == BundledReset(WindowState(old(w.xmlHttpRequest), old(w.origXmlHttpRequest)))
    {
      if w.origXmlHttpRequest.Some? {
        w.xmlHttpRequest := w.origXmlHttpRequest;
      }
    }
  }

  // ---------------------------------------------------------------- properties

  /** Injecting `classes` one after the other with the (draft or current) unbundled manager. */
  function InjectAll(current: Option<Ctor>, classes: seq<nat>): Option<Ctor>
    decreases |classes|
  {
    if classes == [] then current
    else InjectAll(Some(WrapperClosure(classes[0], XhrClass(current))), classes[1..])
  }

  function Reverse(s: seq<nat>): seq<nat> {
    if s == [] then [] else Reverse(s[1..]) + [s[0]]
  }

  /**
   * After injecting `classes` in order, a new request is wrapped by the last class injected,
   * which wraps the one before, and so on down to the class that was current before the first
   * injection (or the ActiveX fallback when there was none).
   */
  lemma {:induction false} InjectionChainNests(current: Option<Ctor>, classes: seq<nat>)
    requires classes != []
    ensures var c := InjectAll(current, classes);
      && c.Some?
      && Chain(c.value) == Reverse(classes) + Chain(XhrClass(current))
      && Base(c.value) == Base(XhrClass(current))
    decreases |classes|
  {
    var next := Some(WrapperClosure(classes[0], XhrClass(current)));
    if |classes| > 1 {
      InjectionChainNests(next, classes[1..]);
      assert Reverse(classes) == Reverse(classes[1..]) + [classes[0]];
    } else {
      assert Reverse(classes) == [classes[0]] by {
        assert classes[1..] == [];
      }
    }
  }

  /**
   * Injecting A then B into a browser with a native class `n` yields B wrapping A wrapping the
   * native object.
   */
  lemma TwoInjections(n: nat, a: nat, b: nat, available: set<string>)
    ensures InjectAll(Some(BrowserClass(n)), [a, b]) == Some(WrapperClosure(b, WrapperClosure(a, BrowserClass(n))))
    ensures Construct(InjectAll(Some(BrowserClass(n)), [a, b]).value, available)
         == Ok(Wrapped(b, Wrapped(a, BrowserXhr(n))))
  {
    var wa := Some(WrapperClosure(a, BrowserClass(n)));
    assert [a, b][1..] == [b] && [b][1..] == [];
    assert InjectAll(Some(BrowserClass(n)), [a, b]) == InjectAll(wa, [b]);
    assert InjectAll(wa, [b]) == InjectAll(Some(WrapperClosure(b, wa.value)), []);
    assert Construct(wa.value, available) == Ok(Wrapped(a, BrowserXhr(n)));
  }

  /** The fallback throws the unsupported-browser error exactly when no program id is available. */
  lemma FallbackThrowsIffNoProgId(available: set<string>)
    ensures Construct(XhrClass(None), available) == Err(Unsupported)
        <==> forall i :: 0 <= i < |ProgIds| ==> ProgIds[i] !in available
  {
  }

  /** The bundled injection records the original only when the current class is not an injected closure. */
  lemma BundledInjectRecordsOriginal(s: WindowState, wrapperClass: nat)
    requires s.xmlHttpRequest.Some?
    ensures var (e, s') := BundledInject(s, wrapperClass);
      && e.None?
      && s'.xmlHttpRequest == Some(WrapperClosure(wrapperClass, s.xmlHttpRequest.value))
      && (!s.xmlHttpRequest.value.WrapperClosure? ==> s'.origXmlHttpRequest == s.xmlHttpRequest)
      && (s.xmlHttpRequest.value.WrapperClosure? ==> s'.origXmlHttpRequest == s.origXmlHttpRequest)
  {
  }

  /** `resetXHR` with nothing recorded changes nothing. */
  lemma ResetWithoutOriginalIsNoOp(s: WindowState)
    requires s.origXmlHttpRequest.None?
    ensures BundledReset(s) == s
  {
  }

  /**
   * After any number (at least one) of bundled injections starting from a class that is not an
   * injected closure, `resetXHR` brings back exactly that class.
   */
  lemma {:induction false} ResetRestoresFirstClass(c: Ctor, orig: Option<Ctor>, classes: seq<nat>)
    requires !c.WrapperClosure? && classes != []
    ensures var (e, s) := BundledInjectAll(WindowState(Some(c), orig), classes);
      e.None? && BundledReset(s).xmlHttpRequest == Some(c)
  {
    var s0 := WindowState(Some(c), orig);
    var (e1, s1) := BundledInject(s0, classes[0]);
    assert e1.None? && s1.origXmlHttpRequest == Some(c) && s1.xmlHttpRequest.value.WrapperClosure?;
    assert BundledInjectAll(s0, classes) == BundledInjectAll(s1, classes[1..]);
    InjectionsKeepOriginal(s1, c, classes[1..]);
  }

  /** Once the current class is an injected closure, further injections keep the recorded original. */
  lemma {:induction false} InjectionsKeepOriginal(s: WindowState, c: Ctor, classes: seq<nat>)
    requires s.xmlHttpRequest.Some? && s.xmlHttpRequest.value.WrapperClosure? && s.origXmlHttpRequest == Some(c)
    ensures var (e, s') := BundledInjectAll(s, classes);
      && e.None? && s'.origXmlHttpRequest == Some(c)
      && s'.xmlHttpRequest.Some? && s'.xmlHttpRequest.value.WrapperClosure?
    decreases |classes|
  {
    if classes != [] {
      var (e1, s1) := BundledInject(s, classes[0]);
      InjectionsKeepOriginal(s1, c, classes[1..]);
    }
  }
}
