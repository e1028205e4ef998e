/** The per-operation shims of the adapter (`_handle_*`), as functions from the
    library object and the call's arguments to what the call returns and the
    library object afterwards. The adapter's methods are proved against them. */
module Shims {
  import opened Values
  import opened Text
  import opened Backend

  // ----- Error signatures -------------------------------------------------

  /** A parameter mismatch, as `GetNextNewMessage` recognises it: "参数"
      anywhere, or "parameter"/"argument" in any letter case. */
  predicate IsParamMismatch(message: string) {
    Contains(message, "参数") || Contains(Lower(message), "parameter") || Contains(Lower(message), "argument")
  }

  /** `AddListenChat` also counts an unexpected keyword as a mismatch. */
  predicate IsListenParamMismatch(message: string) {
    IsParamMismatch(message) || Contains(Lower(message), "unexpected keyword")
  }

  /** The "消息" control was not found: there is no chat window open. */
  predicate IsMissingMessageControl(message: string) {
    Contains(message, "Find Control Timeout") && Contains(message, "消息")
  }

  /** A chat window could not be brought to the front. */
  predicate IsWindowFailure(text: string) {
    Contains(text, "激活聊天窗口失败") || Contains(text, "SetWindowPos") || Contains(text, "无效的窗口句柄")
  }

  /** The failures after which `GetListenMessage` re-registers its chats. */
  predicate IsRecoverable(message: string) {
    IsWindowFailure(message) || Contains(message, "Find Control Timeout")
  }

  /** A missing "消息" control is one of the recoverable listen failures. */
  lemma MissingControlIsRecoverable(message: string)
    requires IsMissingMessageControl(message)
    ensures IsRecoverable(message)
  {
  }

  // ----- Keyword-argument edits ---------------------------------------------

  /** Keyword arguments only the extended library understands. */
  const ExtendedOnly: set<string> := {"savevideo", "parseurl"}

  /** The saving options every library understands. */
  const BasicSaveKeys: set<string> := {"savepic", "savefile", "savevoice"}

  /** `ChatWith`: the standard library has no `exact` parameter; nothing else changes. */
  function ChatWithKwargs(lib: Lib, kwargs: Kwargs): (r: Kwargs)
    ensures lib == WxAutoX ==> r == kwargs
    ensures lib == WxAuto ==> r.Keys == kwargs.Keys - {"exact"}
    ensures forall k :: k in r ==> k in kwargs && r[k] == kwargs[k]
  {
    if lib == WxAuto then kwargs - {"exact"} else kwargs
  }

  /** `GetNextNewMessage` and `AddListenChat`: the standard library has no
      `savevideo` or `parseurl`; nothing else changes. */
  function StandardKwargs(lib: Lib, kwargs: Kwargs): (r: Kwargs)
    ensures lib == WxAutoX ==> r == kwargs
    ensures lib == WxAuto ==> r.Keys == kwargs.Keys - ExtendedOnly
    ensures forall k :: k in r ==> k in kwargs && r[k] == kwargs[k]
  {
    if lib == WxAuto then kwargs - ExtendedOnly else kwargs
  }

  /** The standard library's `clear` is a string flag: a boolean becomes "1" or "0". */
  function ClearFlag(v: Value): (r: Value)
    ensures !r.VBool?
    ensures v.VBool? ==> r.VStr? && (r.s == "1" <==> v.b) && (r.s == "0" <==> !v.b)
    ensures !v.VBool? ==> r == v
  {
    match v
    case VBool(b) => VStr(if b then "1" else "0")
    case _ => v
  }

  /** Rewrites a boolean `clear`; every other argument is left alone. */
  function CoerceClear(kwargs: Kwargs): (r: Kwargs)
    ensures r.Keys == kwargs.Keys
    ensures forall k :: k in kwargs && k != "clear" ==> r[k] == kwargs[k]
    ensures "clear" in r ==> !r["clear"].VBool? && r["clear"] == ClearFlag(kwargs["clear"])
  {
    if "clear" in kwargs then kwargs["clear" := ClearFlag(kwargs["clear"])] else kwargs
  }

  /** `SendMsg`: the clear flag is rewritten for the standard library only. */
  function SendMsgKwargs(lib: Lib, kwargs: Kwargs): (r: Kwargs)
    ensures lib == WxAutoX ==> r == kwargs
    ensures lib == WxAuto ==> r == CoerceClear(kwargs)
  {
    if lib == WxAuto then CoerceClear(kwargs) else kwargs
  }

  /** Coercing twice is coercing once. */
  lemma CoerceClearIdempotent(kwargs: Kwargs)
    ensures CoerceClear(CoerceClear(kwargs)) == CoerceClear(kwargs)
  {
  }

  /** The keys the `AddListenChat` retry keeps: the chat and the saving options,
      and for the extended library also `savevideo`, `parseurl` and `exact`. */
  function RetryKeys(lib: Lib): (r: set<string>)
    ensures {"who"} + BasicSaveKeys <= r
    ensures lib == WxAuto ==> r * (ExtendedOnly + {"exact"}) == {}
    ensures lib == WxAutoX ==> ExtendedOnly + {"exact"} <= r
    ensures lib == WxAuto ==> r == {"who", "savepic", "savefile", "savevoice"}
    ensures lib == WxAutoX ==> r == {"who", "savepic", "savefile", "savevoice", "savevideo", "parseurl", "exact"}
  {
    {"who"} + BasicSaveKeys + (if lib == WxAutoX then ExtendedOnly + {"exact"} else {})
  }

  // ----- Simple handlers ----------------------------------------------------

  /** The chat opened before reading new messages when no session is found. */
  const FileHelper: string := "文件传输助手"

  function ChatWithStep(lib: Lib, o: UiObject, args: seq<Value>, kwargs: Kwargs): (s: Step)
    ensures Extends(o, s.inst)
  {
    Invoke(o, "ChatWith", args, ChatWithKwargs(lib, kwargs))
  }

  function SendMsgStep(lib: Lib, o: UiObject, args: seq<Value>, kwargs: Kwargs): (s: Step)
    ensures Extends(o, s.inst)
  {
    Invoke(o, "SendMsg", args, SendMsgKwargs(lib, kwargs))
  }

  /** Typing text is native to the extended library (when its object has the
      method); otherwise the text is sent with `SendMsg`. */
  function SendTypingTextStep(lib: Lib, o: UiObject, args: seq<Value>, kwargs: Kwargs): (s: Step)
    ensures lib == WxAutoX && HasAttr(o, "SendTypingText") ==> s == Invoke(o, "SendTypingText", args, kwargs)
    ensures lib == WxAutoX && !HasAttr(o, "SendTypingText") ==> s == SendMsgStep(lib, o, args, kwargs)
    ensures lib == WxAuto ==> s == SendMsgStep(lib, o, args, kwargs)
  {
    if lib == WxAutoX then
      if HasAttr(o, "SendTypingText") then Invoke(o, "SendTypingText", args, kwargs)
      else Invoke(o, "SendMsg", args, kwargs)
    else
      Invoke(o, "SendMsg", args, CoerceClear(kwargs))
  }

  /** Raised when neither `SendFiles` nor `SendFile` exists. */
  function SendFilesUnsupported(lib: Lib): Exc {
    Error(LibName(lib) + "不支持文件发送功能")
  }

  /** `SendFiles`, else the older `SendFile`, else an `AttributeError`. */
  function SendFilesStep(lib: Lib, o: UiObject, args: seq<Value>, kwargs: Kwargs): (s: Step)
    ensures !HasAttr(o, "SendFiles") && !HasAttr(o, "SendFile") ==> s == Step(Raised(SendFilesUnsupported(lib)), o)
    ensures Extends(o, s.inst)
    ensures "SendFiles" in o.methods ==> s == Invoke(o, "SendFiles", args, kwargs)
    ensures !HasAttr(o, "SendFiles") && "SendFile" in o.methods ==> s == Invoke(o, "SendFile", args, kwargs)
  {
    if HasAttr(o, "SendFiles") then Invoke(o, "SendFiles", args, kwargs)
    else if HasAttr(o, "SendFile") then Invoke(o, "SendFile", args, kwargs)
    else Step(Raised(SendFilesUnsupported(lib)), o)
  }

  // ----- GetNextNewMessage ----------------------------------------------------

  /** Before reading new messages: list the sessions (resetting the list) and,
      when there are none, open the file helper; failures are ignored. */
  function WarmUpSessions(o: UiObject): (r: UiObject)
    ensures Extends(o, r) && r.listen == o.listen
    ensures var listed := Invoke(o, "GetSessionList", [], map["reset" := VBool(true)]);
            var opens := listed.out.Returned? && !Truthy(listed.out.value) && "ChatWith" in o.methods;
            r.calls == o.calls
                       + (if "GetSessionList" in o.methods then [Call("GetSessionList", [], map["reset" := VBool(true)])] else [])
                       + (if opens then [Call("ChatWith", [VStr(FileHelper)], map[])] else [])
  {
    var listed := Invoke(o, "GetSessionList", [], map["reset" := VBool(true)]);
    if listed.out.Raised? || Truthy(listed.out.value) then listed.inst
    else
      var helper := Invoke(listed.inst, "ChatWith", [VStr(FileHelper)], map[]).inst;
      helper
  }

  /** Listing the sessions and opening the file helper read no messages. */
  lemma WarmUpReadsNothing(o: UiObject)
    ensures CountCalls(WarmUpSessions(o).calls, "GetNextNewMessage") == CountCalls(o.calls, "GetNextNewMessage")
  {
    var listed := Invoke(o, "GetSessionList", [], map["reset" := VBool(true)]);
    InvokeCount(o, "GetSessionList", [], map["reset" := VBool(true)], "GetNextNewMessage");
    InvokeCount(listed.inst, "ChatWith", [VStr(FileHelper)], map[], "GetNextNewMessage");
  }

  /** `GetNextNewMessage` never raises: a parameter mismatch is retried once with
      only the saving options, and any other failure, or a failed retry, reads as
      "no new messages" (`[]`). */
  function NextNewMessageStep(lib: Lib, o: UiObject, args: seq<Value>, kwargs: Kwargs): (s: Step)
    ensures s.out.Returned?
    ensures Extends(o, s.inst)
    ensures var ready := WarmUpSessions(o);
            var kw := StandardKwargs(lib, kwargs);
            var first := Invoke(ready, "GetNextNewMessage", args, kw);
            var retry := Invoke(first.inst, "GetNextNewMessage", args, Restrict(kw, BasicSaveKeys));
            && (first.out.Returned? ==> s == first)
            && ((first.out.Raised? && (IsMissingMessageControl(first.out.error.message)
                                       || !IsParamMismatch(first.out.error.message)))
                  ==> s == Step(Returned(EmptyList), first.inst))
            && ((first.out.Raised? && !IsMissingMessageControl(first.out.error.message)
                                   && IsParamMismatch(first.out.error.message))
                  ==> s == (if retry.out.Raised? then Step(Returned(EmptyList), retry.inst) else retry))
  {
    var kw := StandardKwargs(lib, kwargs);
    var ready := WarmUpSessions(o);
    var first := Invoke(ready, "GetNextNewMessage", args, kw);
    match first.out
    case Returned(_) => first
    case Raised(e) =>
      if IsMissingMessageControl(e.message) then Step(Returned(EmptyList), first.inst)
      else if IsParamMismatch(e.message) then
        var retry := Invoke(first.inst, "GetNextNewMessage", args, Restrict(kw, BasicSaveKeys));
        if retry.out.Raised? then Step(Returned(EmptyList), retry.inst) else retry
      else Step(Returned(EmptyList), first.inst)
  }

  /** At most two reads, and the second only after a parameter mismatch. */
  lemma NextNewMessageReadsAtMostTwice(lib: Lib, o: UiObject, args: seq<Value>, kwargs: Kwargs)
    ensures var s := NextNewMessageStep(lib, o, args, kwargs);
            CountCalls(s.inst.calls, "GetNextNewMessage") <= CountCalls(o.calls, "GetNextNewMessage") + 2
    ensures var s := NextNewMessageStep(lib, o, args, kwargs);
            var ready := WarmUpSessions(o);
            var first := Invoke(ready, "GetNextNewMessage", args, StandardKwargs(lib, kwargs));
            (CountCalls(s.inst.calls, "GetNextNewMessage") == CountCalls(o.calls, "GetNextNewMessage") + 2)
              ==> first.out.Raised? && IsParamMismatch(first.out.error.message)
                  && !IsMissingMessageControl(first.out.error.message)
  {
    WarmUpReadsNothing(o);
    var kw := StandardKwargs(lib, kwargs);
    var ready := WarmUpSessions(o);
    var first := Invoke(ready, "GetNextNewMessage", args, kw);
    InvokeCount(ready, "GetNextNewMessage", args, kw, "GetNextNewMessage");
    InvokeCount(first.inst, "GetNextNewMessage", args, Restrict(kw, BasicSaveKeys), "GetNextNewMessage");
  }

  // ----- AddListenChat ---------------------------------------------------------

  /** `AddListenChat`: a parameter mismatch is retried once with the retry keys;
      any other error is raised again. */
  function AddListenChatStep(lib: Lib, o: UiObject, args: seq<Value>, kwargs: Kwargs): (s: Step)
    ensures Extends(o, s.inst)
    ensures var kw := StandardKwargs(lib, kwargs);
            var first := Invoke(o, "AddListenChat", args, kw);
            && ((first.out.Raised? && IsListenParamMismatch(first.out.error.message))
                  ==> s == Invoke(first.inst, "AddListenChat", args, Restrict(kw, RetryKeys(lib))))
            && (!(first.out.Raised? && IsListenParamMismatch(first.out.error.message)) ==> s == first)
  {
    var kw := StandardKwargs(lib, kwargs);
    var first := Invoke(o, "AddListenChat", args, kw);
    if first.out.Raised? && IsListenParamMismatch(first.out.error.message) then
      Invoke(first.inst, "AddListenChat", args, Restrict(kw, RetryKeys(lib)))
    else first
  }

  /** `AddListenChat` is called at most twice. */
  lemma AddListenChatCallsAtMostTwice(lib: Lib, o: UiObject, args: seq<Value>, kwargs: Kwargs)
    ensures CountCalls(AddListenChatStep(lib, o, args, kwargs).inst.calls, "AddListenChat")
            <= CountCalls(o.calls, "AddListenChat") + 2
  {
    var kw := StandardKwargs(lib, kwargs);
    var first := Invoke(o, "AddListenChat", args, kw);
    InvokeCount(o, "AddListenChat", args, kw, "AddListenChat");
    InvokeCount(first.inst, "AddListenChat", args, Restrict(kw, RetryKeys(lib)), "AddListenChat");
  }

  /** `AddListenChat` calls no other method of the library. */
  lemma AddListenChatCallsNothingElse(lib: Lib, o: UiObject, args: seq<Value>, kwargs: Kwargs, n: string)
    requires n != "AddListenChat"
    ensures CountCalls(AddListenChatStep(lib, o, args, kwargs).inst.calls, n) == CountCalls(o.calls, n)
  {
    var kw := StandardKwargs(lib, kwargs);
    var first := Invoke(o, "AddListenChat", args, kw);
    InvokeCount(o, "AddListenChat", args, kw, n);
    InvokeCount(first.inst, "AddListenChat", args, Restrict(kw, RetryKeys(lib)), n);
  }

  /** A second `AddListenChat` call is made only after a parameter mismatch. */
  lemma AddListenChatRetriesOnlyOnMismatch(lib: Lib, o: UiObject, args: seq<Value>, kwargs: Kwargs)
    ensures var s := AddListenChatStep(lib, o, args, kwargs);
            var first := Invoke(o, "AddListenChat", args, StandardKwargs(lib, kwargs));
            (CountCalls(s.inst.calls, "AddListenChat") == CountCalls(o.calls, "AddListenChat") + 2)
              ==> first.out.Raised? && IsListenParamMismatch(first.out.error.message)
  {
    var kw := StandardKwargs(lib, kwargs);
    var first := Invoke(o, "AddListenChat", args, kw);
    InvokeCount(o, "AddListenChat", args, kw, "AddListenChat");
    InvokeCount(first.inst, "AddListenChat", args, Restrict(kw, RetryKeys(lib)), "AddListenChat");
  }

  // ----- RemoveListenChat ------------------------------------------------------

  /** `who in listen` for a chat name given as a Python value. */
  predicate IsListening(o: UiObject, who: Value) {
    who.VStr? && who.s in Keys(o.listen)
  }

  /** `RemoveListenChat` never raises. The extended library's own method is
      called, a failure reading as `False`. For the standard library the adapter
      edits the registry itself: `True` exactly when `who` was registered, and
      then only that entry goes. */
  function RemoveListenChatStep(lib: Lib, o: UiObject, args: seq<Value>, kwargs: Kwargs): (s: Step)
    ensures s.out.Returned?
    ensures Extends(o, s.inst)
    ensures lib == WxAutoX ==>
              var call := Invoke(o, "RemoveListenChat", args, kwargs);
              s == (if call.out.Raised? then Step(Returned(VBool(false)), call.inst) else call)
    ensures lib == WxAuto ==> s.out.value.VBool?
    ensures lib == WxAuto ==>
              var who := Target(args, kwargs);
              && (s.out.value.b <==> Truthy(who) && IsListening(o, who))
              && (s.out.value.b ==> s.inst == o.(listen := RemoveKey(o.listen, who.s)))
              && (!s.out.value.b ==> s.inst == o)
  {
    if lib == WxAutoX then
      var call := Invoke(o, "RemoveListenChat", args, kwargs);
      if call.out.Raised? then Step(Returned(VBool(false)), call.inst) else call
    else
      var who := Target(args, kwargs);
      if !Truthy(who) then Step(Returned(VBool(false)), o)
      else if IsListening(o, who) then Step(Returned(VBool(true)), o.(listen := RemoveKey(o.listen, who.s)))
      else Step(Returned(VBool(false)), o)
  }

  /** Removing a registered chat leaves every other chat registered as it was. */
  lemma RemoveKeepsOthers(o: UiObject, who: string, e: Entry)
    requires e in o.listen && e.who != who
    ensures e in RemoveListenChatStep(WxAuto, o, [VStr(who)], map[]).inst.listen
  {
  }

  // ----- chat_window_method ------------------------------------------------------

  /** A call on a chat-window object, and the window afterwards (None stands
      for an empty window argument). */
  datatype WindowStep = WindowStep(out: Outcome, window: Option<UiObject>)

  function EmptyWindow(methodName: string): Exc {
    Error("聊天窗口对象为空，无法调用 " + methodName + " 方法")
  }

  function NoWindowMethod(methodName: string): Exc {
    Error("聊天窗口对象没有 " + methodName + " 方法")
  }

  /** `_handle_chat_window_method`: an empty window or a missing (or falsy)
      attribute raises `AttributeError` before any call; otherwise the window's
      method is called and its failure raised again. */
  function ChatWindowMethodStep(window: Option<UiObject>, methodName: string, args: seq<Value>, kwargs: Kwargs): (r: WindowStep)
    ensures window.None? ==> r == WindowStep(Raised(EmptyWindow(methodName)), None)
    ensures window.Some? && !Truthy(AttrValue(window.value, methodName, VNone)) ==>
              r == WindowStep(Raised(NoWindowMethod(methodName)), window)
    ensures window.Some? && methodName in window.value.methods && methodName !in window.value.attrs ==>
              var s := Invoke(window.value, methodName, args, kwargs);
              r == WindowStep(s.out, Some(s.inst))
    ensures window.Some? && methodName in window.value.attrs && methodName !in window.value.methods
            && Truthy(window.value.attrs[methodName]) ==>
              r == WindowStep(Raised(NotCallable(window.value, methodName)), window)
  {
    match window
    case None => WindowStep(Raised(EmptyWindow(methodName)), None)
    case Some(w) =>
      if !Truthy(AttrValue(w, methodName, VNone)) then WindowStep(Raised(NoWindowMethod(methodName)), window)
      else
        var s := Invoke(w, methodName, args, kwargs);
        WindowStep(s.out, Some(s.inst))
  }

  // ----- GetListenMessage --------------------------------------------------------

  /** What `GetListenMessage` gives when it gives up: `[]` for one chat, `{}` for all. */
  function Neutral(who: Value): (r: Value)
    ensures !Truthy(r)
    ensures Truthy(who) ==> r == EmptyList
    ensures !Truthy(who) ==> r == EmptyDict
  {
    if Truthy(who) then EmptyList else EmptyDict
  }

  /** `GetListenMessage(who)` when `who` is given, `GetListenMessage()` otherwise. */
  function ListenArgs(who: Value): seq<Value> {
    if Truthy(who) then [who] else []
  }

  /** A dictionary key that is the chat window of `who`. */
  predicate IsChatOf(key: Value, who: Value) {
    key.VChat? && who == VStr(key.who)
  }

  /** The messages stored under the chat window of `who`, or `[]`. */
  function ChatMessages(entries: seq<(Value, Value)>, who: Value): (r: Value)
    ensures (forall i :: 0 <= i < |entries| ==> !IsChatOf(entries[i].0, who)) ==> r == EmptyList
    ensures (exists i :: 0 <= i < |entries| && IsChatOf(entries[i].0, who)) ==>
              exists i :: 0 <= i < |entries| && IsChatOf(entries[i].0, who) && r == entries[i].1
                          && forall j :: 0 <= j < i ==> !IsChatOf(entries[j].0, who)
  {
    if entries == [] then EmptyList
    else if IsChatOf(entries[0].0, who) then entries[0].1
    else
      var r := ChatMessages(entries[1..], who);
      assert forall i :: 1 <= i < |entries| ==> entries[1..][i - 1] == entries[i];
      r
  }

  /** The standard library's result, brought to the shape asked for: messages
      of one chat are a list, messages of all chats a dictionary. */
  function NormalizeListen(who: Value, result: Value): (r: Value)
    ensures !Truthy(who) ==> r.VDict?
    ensures !Truthy(who) && result.VDict? ==> r == result
    ensures !Truthy(who) && !result.VDict? ==> r == EmptyDict
    ensures Truthy(who) && result.VList? ==> r == result
    ensures Truthy(who) && !result.VList? && !Truthy(result) ==> r == EmptyDict
    ensures Truthy(who) && result.VDict? && Truthy(result) ==> r == ChatMessages(result.entries, who)
    ensures Truthy(who) && !result.VList? && !result.VDict? && Truthy(result) ==> r == EmptyList
  {
    if Truthy(who) && result.VList? then result
    else if !Truthy(who) && result.VDict? then result
    else if !Truthy(result) then EmptyDict
    else if result.VList? && !Truthy(who) then EmptyDict
    else if result.VDict? && Truthy(who) then ChatMessages(result.entries, who)
    else Neutral(who)
  }

  /** Remove `who`, reopen its chat and add it again (standard library). Only the
      outcome of the re-add is kept: a failed removal or reopening is ignored. */
  function Reregister(o: UiObject, who: Value, params: Kwargs): (s: Step)
    ensures Extends(o, s.inst)
  {
    var removed := RemoveListenChatStep(WxAuto, o, [who], map[]);
    var reopened := ChatWithStep(WxAuto, removed.inst, [who], map[]);
    var added := AddListenChatStep(WxAuto, reopened.inst, [], params);
    added
  }

  /** A re-registration reads no messages. */
  lemma ReregisterReadsNothing(o: UiObject, who: Value, params: Kwargs)
    ensures CountCalls(Reregister(o, who, params).inst.calls, "GetListenMessage") == CountCalls(o.calls, "GetListenMessage")
  {
    var removed := RemoveListenChatStep(WxAuto, o, [who], map[]);
    var reopened := ChatWithStep(WxAuto, removed.inst, [who], map[]);
    InvokeCount(removed.inst, "ChatWith", [who], ChatWithKwargs(WxAuto, map[]), "GetListenMessage");
    AddListenChatCallsNothingElse(WxAuto, reopened.inst, [], params, "GetListenMessage");
  }

  /** Once the registry entry is dropped, a re-registration asks the library
      for `ChatWith(who)` and then `AddListenChat(**params)`; a third call can
      only be the retry of the re-add. */
  lemma ReregisterCalls(o: UiObject, who: Value, params: Kwargs)
    requires "ChatWith" in o.methods && "AddListenChat" in o.methods
    requires params.Keys !! ExtendedOnly
    ensures var s := Reregister(o, who, params);
            && |o.calls| + 2 <= |s.inst.calls| <= |o.calls| + 3
            && s.inst.calls[|o.calls|] == Call("ChatWith", [who], map[])
            && s.inst.calls[|o.calls| + 1] == Call("AddListenChat", [], params)
  {
    var removed := RemoveListenChatStep(WxAuto, o, [who], map[]);
    assert removed.inst.calls == o.calls && removed.inst.methods == o.methods;
    assert ChatWithKwargs(WxAuto, map[]) == map[];
    var reopened := ChatWithStep(WxAuto, removed.inst, [who], map[]);
    assert reopened.inst.calls == o.calls + [Call("ChatWith", [who], map[])];
    assert StandardKwargs(WxAuto, params) == params;
    var kw := StandardKwargs(WxAuto, params);
    var first := Invoke(reopened.inst, "AddListenChat", [], kw);
    assert first.inst.calls == reopened.inst.calls + [Call("AddListenChat", [], params)];
  }

  /** A re-registration keeps every other registered chat, and when its re-add
      succeeds, `who` is registered again. */
  lemma ReregisterRegisters(o: UiObject, who: string, params: Kwargs)
    requires "who" in params && params["who"] == VStr(who)
    ensures var s := Reregister(o, VStr(who), params);
            s.out.Returned? ==> who in Keys(s.inst.listen)
    ensures var s := Reregister(o, VStr(who), params);
            forall e :: e in o.listen && e.who != who ==> e in s.inst.listen
  {
    var removed := RemoveListenChatStep(WxAuto, o, [VStr(who)], map[]);
    assert forall e :: e in o.listen && e.who != who ==> e in removed.inst.listen;
    var reopened := ChatWithStep(WxAuto, removed.inst, [VStr(who)], map[]);
    assert reopened.inst.listen == removed.inst.listen;
    var kw := StandardKwargs(WxAuto, params);
    assert "who" in kw && kw["who"] == VStr(who);
    var first := Invoke(reopened.inst, "AddListenChat", [], kw);
    var retryKw := Restrict(kw, RetryKeys(WxAuto));
    assert "who" in retryKw && retryKw["who"] == VStr(who);
    var retry := Invoke(first.inst, "AddListenChat", [], retryKw);
    assert Target([], kw) == VStr(who) && Target([], retryKw) == VStr(who);
    if first.out.Raised? && IsListenParamMismatch(first.out.error.message) {
      assert Reregister(o, VStr(who), params) == retry;
      assert first.inst.listen == reopened.inst.listen;
    } else {
      assert Reregister(o, VStr(who), params) == first;
    }
  }

  /** The result of a recovery (None when it gave up) and the object afterwards. */
  datatype Recovery = Recovery(result: Option<Value>, inst: UiObject)

  /** The options `who` is registered again with: its name and whichever saving
      options the call was given. */
  function RecoveryParams(who: Value, kwargs: Kwargs): (r: Kwargs)
    ensures r.Keys == {"who"} + kwargs.Keys * BasicSaveKeys
    ensures r["who"] == who
    ensures forall k :: k in r && k != "who" ==> r[k] == kwargs[k]
  {
    Restrict(kwargs, BasicSaveKeys)["who" := who]
  }

  /** Recovery for one chat: re-register it, then read its messages once more. */
  function RecoverChat(o: UiObject, who: Value, kwargs: Kwargs): (r: Recovery)
    requires Truthy(who)
    ensures Extends(o, r.inst)
    ensures var added := Reregister(o, who, RecoveryParams(who, kwargs));
            && (added.out.Raised? ==> r == Recovery(None, added.inst))
            && (added.out.Returned? ==>
                  var retry := Invoke(added.inst, "GetListenMessage", [who], map[]);
                  r == Recovery(if retry.out.Returned? then Some(retry.out.value) else None, retry.inst))
  {
    var added := Reregister(o, who, RecoveryParams(who, kwargs));
    if added.out.Raised? then Recovery(None, added.inst)
    else
      var retry := Invoke(added.inst, "GetListenMessage", [who], map[]);
      Recovery(if retry.out.Returned? then Some(retry.out.value) else None, retry.inst)
  }

  /** A recovery of one chat that gets its messages leaves the chat
      registered, and its last call read that chat's messages. */
  lemma RecoverChatRegisters(o: UiObject, who: string, kwargs: Kwargs)
    requires who != ""
    ensures var r := RecoverChat(o, VStr(who), kwargs);
            r.result.Some? ==>
              && who in Keys(r.inst.listen)
              && |r.inst.calls| > 0 && r.inst.calls[|r.inst.calls| - 1] == Call("GetListenMessage", [VStr(who)], map[])
  {
    var params := RecoveryParams(VStr(who), kwargs);
    ReregisterRegisters(o, who, params);
    var added := Reregister(o, VStr(who), params);
    var retry := Invoke(added.inst, "GetListenMessage", [VStr(who)], map[]);
    assert retry.out.Returned? ==> retry.inst.listen == added.inst.listen;
  }

  /** Recovering one chat reads its messages at most once more. */
  lemma RecoverChatReadsOnce(o: UiObject, who: Value, kwargs: Kwargs)
    requires Truthy(who)
    ensures CountCalls(RecoverChat(o, who, kwargs).inst.calls, "GetListenMessage") <= CountCalls(o.calls, "GetListenMessage") + 1
  {
    var added := Reregister(o, who, RecoveryParams(who, kwargs));
    ReregisterReadsNothing(o, who, RecoveryParams(who, kwargs));
    InvokeCount(added.inst, "GetListenMessage", [who], map[], "GetListenMessage");
  }

  /** The options an entry of the registry is registered again with: the
      saving options of its chat window, `False` where it has none. */
  function EntryParams(e: Entry): (r: Kwargs)
    ensures r.Keys == {"who"} + BasicSaveKeys
    ensures r.Keys !! ExtendedOnly
    ensures r["who"] == VStr(e.who)
    ensures forall k :: k in BasicSaveKeys ==> r[k] == KwGet(e.opts.options, k, VBool(false))
  {
    map["who" := VStr(e.who),
        "savepic" := KwGet(e.opts.options, "savepic", VBool(false)),
        "savefile" := KwGet(e.opts.options, "savefile", VBool(false)),
        "savevoice" := KwGet(e.opts.options, "savevoice", VBool(false))]
  }

  /** Re-register each entry of `entries` in turn; a failure moves on to the next. */
  function ReregisterAll(o: UiObject, entries: Registry): (r: UiObject)
    ensures Extends(o, r)
    decreases |entries|
  {
    if entries == [] then o
    else
      var first := Reregister(o, VStr(entries[0].who), EntryParams(entries[0])).inst;
      ReregisterAll(first, entries[1..])
  }

  /** The entries are re-registered from first to last, each on the object the
      previous ones left. */
  lemma {:induction false} ReregisterAllSnoc(o: UiObject, entries: Registry, e: Entry)
    ensures ReregisterAll(o, entries + [e]) == Reregister(ReregisterAll(o, entries), VStr(e.who), EntryParams(e)).inst
    decreases |entries|
  {
    if entries == [] {
      assert [e][1..] == [];
    } else {
      var first := Reregister(o, VStr(entries[0].who), EntryParams(entries[0])).inst;
      assert (entries + [e])[0] == entries[0];
      assert (entries + [e])[1..] == entries[1..] + [e];
      ReregisterAllSnoc(first, entries[1..], e);
    }
  }

  /** The re-add of a registry entry: `AddListenChat(**EntryParams(e))`. */
  function ReAdd(e: Entry): Call {
    Call("AddListenChat", [], EntryParams(e))
  }

  /** Every entry is re-added with its own options, whether or not the
      re-adds before it failed. */
  lemma {:induction false} ReregisterAllAddsEach(o: UiObject, entries: Registry)
    requires "ChatWith" in o.methods && "AddListenChat" in o.methods
    ensures |o.calls| <= |ReregisterAll(o, entries).calls|
    ensures forall i :: 0 <= i < |entries| ==> ReAdd(entries[i]) in ReregisterAll(o, entries).calls[|o.calls|..]
    decreases |entries|
  {
    if entries != [] {
      var first := Reregister(o, VStr(entries[0].who), EntryParams(entries[0])).inst;
      FirstReAdd(o, entries[0]);
      ReregisterAllAddsEach(first, entries[1..]);
      AddsEachStep(o.calls, first.calls, ReregisterAll(o, entries).calls, entries);
    }
  }

  /** Re-registering one entry re-adds it as the second call. */
  lemma FirstReAdd(o: UiObject, e: Entry)
    requires "ChatWith" in o.methods && "AddListenChat" in o.methods
    ensures var f := Reregister(o, VStr(e.who), EntryParams(e)).inst;
            && |o.calls| + 1 < |f.calls| && f.calls[|o.calls| + 1] == ReAdd(e)
  {
    ReregisterCalls(o, VStr(e.who), EntryParams(e));
  }

  /** The induction step of `ReregisterAllAddsEach`, on the call logs alone:
      the first re-add sits in the first entry's log, the rest after it. */
  lemma AddsEachStep(before: seq<Call>, first: seq<Call>, calls: seq<Call>, entries: Registry)
    requires entries != []
    requires |before| + 1 < |first| && first[|before| + 1] == ReAdd(entries[0])
    requires first <= calls
    requires forall j :: 0 <= j < |entries[1..]| ==> ReAdd(entries[1..][j]) in calls[|first|..]
    ensures forall i :: 0 <= i < |entries| ==> ReAdd(entries[i]) in calls[|before|..]
  {
    forall i | 0 <= i < |entries| ensures ReAdd(entries[i]) in calls[|before|..] {
      if i == 0 {
        CallAtIsNew(calls, first, |before|, 1, ReAdd(entries[0]));
      } else {
        TailCallIsNew(calls, |before|, |first|, entries, i);
      }
    }
  }

  /** A call at a known place after `from` in a prefix of `calls` is among `calls[from..]`. */
  lemma CallAtIsNew(calls: seq<Call>, prefix: seq<Call>, from: nat, k: nat, c: Call)
    requires prefix <= calls && from + k < |prefix| && prefix[from + k] == c
    ensures c in calls[from..]
  {
    assert calls[from..][k] == c;
  }

  /** The re-add of a later entry, made after `mid`, was made after any earlier `from`. */
  lemma TailCallIsNew(calls: seq<Call>, from: nat, mid: nat, entries: Registry, i: nat)
    requires 1 <= i < |entries| && from <= mid <= |calls|
    requires forall j :: 0 <= j < |entries[1..]| ==> ReAdd(entries[1..][j]) in calls[mid..]
    ensures ReAdd(entries[i]) in calls[from..]
  {
    assert entries[i] == entries[1..][i - 1];
    LaterCallIsNew(calls, from, mid, ReAdd(entries[i]));
  }

  /** A call made after `mid` was made after any earlier `from`. */
  lemma LaterCallIsNew(calls: seq<Call>, from: nat, mid: nat, c: Call)
    requires from <= mid <= |calls| && c in calls[mid..]
    ensures c in calls[from..]
  {
    var k :| 0 <= k < |calls[mid..]| && calls[mid..][k] == c;
    assert calls[from..][k + mid - from] == c;
  }

  /** A call made after `from` in a prefix of `calls` is among `calls[from..]`. */
  lemma EarlierCallIsNew(calls: seq<Call>, prefix: seq<Call>, from: nat, c: Call)
    requires prefix <= calls && from <= |prefix| && c in prefix[from..]
    ensures c in calls[from..]
  {
    var k :| 0 <= k < |prefix[from..]| && prefix[from..][k] == c;
    assert calls[from..][k] == c;
  }

  /** Re-registering any number of entries reads no messages. */
  lemma {:induction false} ReregisterAllReadsNothing(o: UiObject, entries: Registry)
    ensures CountCalls(ReregisterAll(o, entries).calls, "GetListenMessage") == CountCalls(o.calls, "GetListenMessage")
    decreases |entries|
  {
    if entries != [] {
      var first := Reregister(o, VStr(entries[0].who), EntryParams(entries[0])).inst;
      ReregisterReadsNothing(o, VStr(entries[0].who), EntryParams(entries[0]));
      ReregisterAllReadsNothing(first, entries[1..]);
    }
  }

  /** Recovery for all chats: re-register every entry of a copy of the registry,
      then read all messages once more. An empty registry gives up at once. */
  function RecoverAll(o: UiObject): (r: Recovery)
    ensures Extends(o, r.inst)
    ensures o.listen == [] ==> r == Recovery(None, o)
  {
    if o.listen == [] then Recovery(None, o)
    else
      var again := ReregisterAll(o, o.listen);
      var retry := Invoke(again, "GetListenMessage", [], map[]);
      Recovery(if retry.out.Returned? then Some(retry.out.value) else None, retry.inst)
  }

  /** A recovery of all chats re-adds every registered chat with its own
      options and then reads all messages once more. */
  lemma RecoverAllReaddsEach(o: UiObject)
    requires o.listen != []
    requires "ChatWith" in o.methods && "AddListenChat" in o.methods && "GetListenMessage" in o.methods
    ensures var r := RecoverAll(o);
            && |o.calls| < |r.inst.calls|
            && r.inst.calls[|r.inst.calls| - 1] == Call("GetListenMessage", [], map[])
            && forall i :: 0 <= i < |o.listen| ==>
                 ReAdd(o.listen[i]) in r.inst.calls[|o.calls|..]
  {
    var again := ReregisterAll(o, o.listen);
    ReregisterAllAddsEach(o, o.listen);
    var retry := Invoke(again, "GetListenMessage", [], map[]);
    assert retry.inst.calls == again.calls + [Call("GetListenMessage", [], map[])];
    forall i | 0 <= i < |o.listen|
      ensures ReAdd(o.listen[i]) in retry.inst.calls[|o.calls|..]
    {
      EarlierCallIsNew(retry.inst.calls, again.calls, |o.calls|, ReAdd(o.listen[i]));
    }
  }

  /** Recovering all chats reads the messages at most once more. */
  lemma RecoverAllReadsOnce(o: UiObject)
    ensures CountCalls(RecoverAll(o).inst.calls, "GetListenMessage") <= CountCalls(o.calls, "GetListenMessage") + 1
  {
    if o.listen != [] {
      var again := ReregisterAll(o, o.listen);
      ReregisterAllReadsNothing(o, o.listen);
      InvokeCount(again, "GetListenMessage", [], map[], "GetListenMessage");
    }
  }

  /** Which recovery a failure of the standard library's `GetListenMessage`
      leads to: the window signatures in the message (one chat or all chats),
      or the first three of them in the traceback (one chat only). */
  function Recover(o: UiObject, who: Value, kwargs: Kwargs, e: Exc): (r: Recovery)
    ensures Extends(o, r.inst)
    ensures !IsRecoverable(e.message) && !(IsWindowFailure(e.traceback) && Truthy(who)) ==> r == Recovery(None, o)
    ensures IsRecoverable(e.message) && Truthy(who) ==> r == RecoverChat(o, who, kwargs)
    ensures IsRecoverable(e.message) && !Truthy(who) ==> r == RecoverAll(o)
    ensures !IsRecoverable(e.message) && IsWindowFailure(e.traceback) && Truthy(who) ==> r == RecoverChat(o, who, kwargs)
  {
    if IsRecoverable(e.message) then
      if Truthy(who) then RecoverChat(o, who, kwargs) else RecoverAll(o)
    else if IsWindowFailure(e.traceback) && Truthy(who) then RecoverChat(o, who, kwargs)
    else Recovery(None, o)
  }

  /** Every recovery reads the messages at most once more. */
  lemma RecoverReadsOnce(o: UiObject, who: Value, kwargs: Kwargs, e: Exc)
    ensures CountCalls(Recover(o, who, kwargs, e).inst.calls, "GetListenMessage") <= CountCalls(o.calls, "GetListenMessage") + 1
  {
    if Truthy(who) { RecoverChatReadsOnce(o, who, kwargs); } else { RecoverAllReadsOnce(o); }
  }

  /** `GetListenMessage` never raises. The extended library's failure reads as
      `{}`; the standard library's result is normalised, and its failure is
      recovered from or read as the neutral result for `who`. */
  function ListenMessageStep(lib: Lib, o: UiObject, args: seq<Value>, kwargs: Kwargs): (s: Step)
    ensures s.out.Returned?
    ensures Extends(o, s.inst)
    ensures var who := Target(args, kwargs);
            var first := Invoke(o, "GetListenMessage", ListenArgs(who), map[]);
            && (lib == WxAutoX ==> s == (if first.out.Raised? then Step(Returned(EmptyDict), first.inst) else first))
            && (lib == WxAuto && first.out.Returned? ==>
                  s == Step(Returned(NormalizeListen(who, first.out.value)), first.inst))
            && (lib == WxAuto && first.out.Raised? ==>
                  var rec := Recover(first.inst, who, kwargs, first.out.error);
                  s == Step(Returned(if rec.result.Some? then rec.result.value else Neutral(who)), rec.inst))
  {
    var who := Target(args, kwargs);
    var first := Invoke(o, "GetListenMessage", ListenArgs(who), map[]);
    match first.out
    case Returned(v) =>
      if lib == WxAutoX then first else Step(Returned(NormalizeListen(who, v)), first.inst)
    case Raised(e) =>
      if lib == WxAutoX then Step(Returned(EmptyDict), first.inst)
      else
        var rec := Recover(first.inst, who, kwargs, e);
        Step(Returned(if rec.result.Some? then rec.result.value else Neutral(who)), rec.inst)
  }

  /** At most two reads of the messages, and the second only during the
      standard library's recovery from a failed first read. */
  lemma ListenMessageReadsAtMostTwice(lib: Lib, o: UiObject, args: seq<Value>, kwargs: Kwargs)
    ensures var s := ListenMessageStep(lib, o, args, kwargs);
            CountCalls(s.inst.calls, "GetListenMessage") <= CountCalls(o.calls, "GetListenMessage") + 2
    ensures var s := ListenMessageStep(lib, o, args, kwargs);
            var first := Invoke(o, "GetListenMessage", ListenArgs(Target(args, kwargs)), map[]);
            (CountCalls(s.inst.calls, "GetListenMessage") == CountCalls(o.calls, "GetListenMessage") + 2)
              ==> lib == WxAuto && first.out.Raised?
  {
    var who := Target(args, kwargs);
    var first := Invoke(o, "GetListenMessage", ListenArgs(who), map[]);
    InvokeCount(o, "GetListenMessage", ListenArgs(who), map[], "GetListenMessage");
    if first.out.Raised? {
      RecoverReadsOnce(first.inst, who, kwargs, first.out.error);
    }
  }

  /** A failure without a known signature is not recovered from: the standard
      library gives the neutral result after the one read, and nothing else is called. */
  lemma UnrecognisedFailureIsNeutral(o: UiObject, args: seq<Value>, kwargs: Kwargs)
    requires var first := Invoke(o, "GetListenMessage", ListenArgs(Target(args, kwargs)), map[]);
             first.out.Raised? && !IsRecoverable(first.out.error.message) && !IsWindowFailure(first.out.error.traceback)
    ensures var s := ListenMessageStep(WxAuto, o, args, kwargs);
            var first := Invoke(o, "GetListenMessage", ListenArgs(Target(args, kwargs)), map[]);
            s == Step(Returned(Neutral(Target(args, kwargs))), first.inst)
  {
  }
}
