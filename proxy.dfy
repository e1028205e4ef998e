/** The adapter's name-dispatch proxy, `WeChatAdapter.__getattr__`: a table
    from operation name to shim, and pass-through to the library object for
    every other name. The lookup is modelled twice: as written, where the
    pass-through is never reached, and as evidently intended. */
module Proxy {
  import opened Values
  import opened Backend
  import opened Shims

  /** The operations that have a `_handle_<name>` method. */
  datatype Handler =
    | HChatWith | HSendMsg | HSendTypingText | HSendFiles | HGetNextNewMessage
    | HAddListenChat | HGetListenMessage | HRemoveListenChat | HChatWindowMethod

  /** The operation name a shim answers to. */
  function HandlerName(h: Handler): string {
    match h
    case HChatWith => "ChatWith"
    case HSendMsg => "SendMsg"
    case HSendTypingText => "SendTypingText"
    case HSendFiles => "SendFiles"
    case HGetNextNewMessage => "GetNextNewMessage"
    case HAddListenChat => "AddListenChat"
    case HGetListenMessage => "GetListenMessage"
    case HRemoveListenChat => "RemoveListenChat"
    case HChatWindowMethod => "chat_window_method"
  }

  /** The shim for an operation name, if it has one. */
  function HandlerFor(name: string): (r: Option<Handler>)
    ensures r.Some? ==> HandlerName(r.value) == name
    ensures r.None? <==> forall h :: HandlerName(h) != name
  {
    if name == "ChatWith" then Some(HChatWith)
    else if name == "SendMsg" then Some(HSendMsg)
    else if name == "SendTypingText" then Some(HSendTypingText)
    else if name == "SendFiles" then Some(HSendFiles)
    else if name == "GetNextNewMessage" then Some(HGetNextNewMessage)
    else if name == "AddListenChat" then Some(HAddListenChat)
    else if name == "GetListenMessage" then Some(HGetListenMessage)
    else if name == "RemoveListenChat" then Some(HRemoveListenChat)
    else if name == "chat_window_method" then Some(HChatWindowMethod)
    else None
  }

  /** The table and the names agree: each shim is found under its own name. */
  lemma HandlerForName(h: Handler)
    ensures HandlerFor(HandlerName(h)) == Some(h)
  {
  }

  /** No operation name starts with an underscore. */
  lemma UnderscoreHasNoHandler(name: string)
    requires |name| > 0 && name[0] == '_'
    ensures HandlerFor(name).None?
  {
    forall h ensures HandlerName(h) != name {
      assert HandlerName(h)[0] != '_';
    }
  }

  /** What an attribute lookup on the adapter produces. */
  datatype Resolution =
    | ToHandler(h: Handler)        // the bound `_handle_` method
    | ToAttribute(attr: string)    // the library object's attribute `attr`
    | NoAttribute                  // `AttributeError`
    | RecursionLimitExceeded       // `RecursionError`

  /** CPython's default limit on the depth of the call stack. */
  const RecursionLimit: nat := 1000

  /** `__getattr__(name)` as written, entered `depth` frames deep while an
      instance exists. `getattr(self, "_handle_" + name, None)` finds the shim
      when there is one; otherwise that attribute is missing as well, so Python
      calls `__getattr__("_handle_" + name)` one frame deeper. Only an
      `AttributeError` would let the default `None` through; running out of
      stack raises `RecursionError`, which propagates. A truthy value from the
      inner lookup is returned as the handler. */
  function ResolveAsWritten(o: UiObject, name: string, depth: nat): Resolution
    decreases RecursionLimit - depth
  {
    if depth >= RecursionLimit then RecursionLimitExceeded
    else match HandlerFor(name)
      case Some(h) => ToHandler(h)
      case None =>
        var inner := ResolveAsWritten(o, "_handle_" + name, depth + 1);
        if inner.RecursionLimitExceeded? then RecursionLimitExceeded
        else if inner.NoAttribute? || (inner.ToAttribute? && !Truthy(AttrValue(o, inner.attr, VNone))) then
          if HasAttr(o, name) then ToAttribute(name) else NoAttribute
        else inner
  }

  /** As written, every name without a shim ends in `RecursionError`: the
      pass-through to the library object is never reached. */
  lemma {:induction false} AsWrittenNeverPassesThrough(o: UiObject, name: string, depth: nat)
    requires HandlerFor(name).None?
    ensures ResolveAsWritten(o, name, depth) == RecursionLimitExceeded
    decreases RecursionLimit - depth
  {
    if depth < RecursionLimit {
      UnderscoreHasNoHandler("_handle_" + name);
      AsWrittenNeverPassesThrough(o, "_handle_" + name, depth + 1);
    }
  }

  /** The lookup the proxy is meant to perform: the shim when there is one,
      else the library object's own attribute. */
  function Resolve(o: UiObject, name: string): (r: Resolution)
    ensures !r.RecursionLimitExceeded?
    ensures HandlerFor(name).Some? ==> r == ToHandler(HandlerFor(name).value)
    ensures HandlerFor(name).None? && HasAttr(o, name) ==> r == ToAttribute(name)
    ensures HandlerFor(name).None? && !HasAttr(o, name) ==> r == NoAttribute
  {
    match HandlerFor(name)
    case Some(h) => ToHandler(h)
    case None => if HasAttr(o, name) then ToAttribute(name) else NoAttribute
  }

  /** On the names of the shims, the lookup as written and the intended one agree. */
  lemma AsWrittenAgreesOnShims(o: UiObject, name: string, depth: nat)
    requires HandlerFor(name).Some? && depth < RecursionLimit
    ensures ResolveAsWritten(o, name, depth) == Resolve(o, name)
  {
  }

  /** The library's `GetSessionList` is unreachable through the proxy as
      written, though the intended lookup finds it. */
  lemma PassThroughExample()
    ensures var o := UiObject(map[], {"GetSessionList"}, [], [], []);
            && ResolveAsWritten(o, "GetSessionList", 0) == RecursionLimitExceeded
            && Resolve(o, "GetSessionList") == ToAttribute("GetSessionList")
  {
    var o := UiObject(map[], {"GetSessionList"}, [], [], []);
    assert HandlerFor("GetSessionList").None?;
    AsWrittenNeverPassesThrough(o, "GetSessionList", 0);
  }

  /** `chat_window_method` reached through the proxy with plain values: the
      window argument is a value, which has no methods of its own. */
  function ChatWindowMethodOnValues(o: UiObject, args: seq<Value>): (s: Step)
    ensures s.inst == o && s.out.Raised?
  {
    if |args| < 2 || !args[1].VStr? then
      Step(Raised(Error("_handle_chat_window_method() missing required positional argument")), o)
    else if !Truthy(args[0]) then Step(Raised(EmptyWindow(args[1].s)), o)
    else Step(Raised(NoWindowMethod(args[1].s)), o)
  }

  /** The shim of `h`, run on the library object. */
  function HandlerStep(h: Handler, lib: Lib, o: UiObject, args: seq<Value>, kwargs: Kwargs): Step {
    match h
    case HChatWith => ChatWithStep(lib, o, args, kwargs)
    case HSendMsg => SendMsgStep(lib, o, args, kwargs)
    case HSendTypingText => SendTypingTextStep(lib, o, args, kwargs)
    case HSendFiles => SendFilesStep(lib, o, args, kwargs)
    case HGetNextNewMessage => NextNewMessageStep(lib, o, args, kwargs)
    case HAddListenChat => AddListenChatStep(lib, o, args, kwargs)
    case HGetListenMessage => ListenMessageStep(lib, o, args, kwargs)
    case HRemoveListenChat => RemoveListenChatStep(lib, o, args, kwargs)
    case HChatWindowMethod => ChatWindowMethodOnValues(o, args)
  }

  /** `adapter.<name>(*args, **kwargs)` with the intended lookup: the shim, or
      the library object's method called as is (a missing one raises
      `AttributeError`, a data attribute is not callable). */
  function DispatchStep(lib: Lib, o: UiObject, name: string, args: seq<Value>, kwargs: Kwargs): (s: Step)
    ensures HandlerFor(name).Some? ==> s == HandlerStep(HandlerFor(name).value, lib, o, args, kwargs)
    ensures HandlerFor(name).None? ==> s == Invoke(o, name, args, kwargs)
  {
    match Resolve(o, name)
    case ToHandler(h) => HandlerStep(h, lib, o, args, kwargs)
    case _ => Invoke(o, name, args, kwargs)
  }
}
