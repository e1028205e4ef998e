/** `WeChatAdapter`: the object the HTTP layer talks to. It picks the library,
    builds its `WeChat` object once, answers the display-name and connection
    queries, and dispatches every other operation to a shim or to the library
    object. Each method is proved against the functions of `Selection`,
    `Shims`, `Proxy` and `Queries`. */
module Adapter {
  import opened Values
  import opened Backend
  import opened Selection
  import opened Shims
  import opened Proxy
  import opened Queries

  /** What a shim raises when there is no instance. */
  const NotInitialized: Exc := Error("微信实例未初始化")

  /** What the proxy raises for any name when there is no instance. */
  function NoInstanceFor(name: string): Exc {
    Error("微信实例未初始化，无法调用 " + name + " 方法")
  }

  class WeChatAdapter {
    var instance: Option<UiObject>     // `_instance`
    var libName: Option<Lib>           // `_lib_name`
    const requestedLibName: string     // `_requested_lib_name`
    const lazyInit: bool               // `_lazy_init`
    const avail: Availability          // the libraries installed in this environment
    const ownListen: Registry          // `_listen`, never written after construction
    var cachedWindowName: Value        // `_cached_window_name`
    var initialized: bool              // `_initialized`

    /** A library is chosen exactly when initialisation is done, it is the one
        selection settles on, and an instance exists only after initialisation. */
    predicate Valid()
      reads this
    {
      && (initialized <==> libName.Some?)
      && (instance.Some? ==> initialized)
      && (libName.Some? ==> libName == SelectBackend(requestedLibName, avail))
      && ownListen == []
    }

    /** The library in use, as the shims compare `_lib_name`. */
    function CurrentLib(): Lib
      reads this
    {
      if libName == Some(WxAutoX) then WxAutoX else WxAuto
    }

    /** Only the library object changed. */
    twostate predicate OnlyInstanceChanged()
      reads this
    {
      libName == old(libName) && initialized == old(initialized) && cachedWindowName == old(cachedWindowName)
    }

    /** The call returned what `s` says and left the library object as `s` does. */
    twostate predicate Took(s: Step, r: Outcome)
      reads this
    {
      && r == s.out && instance == Some(s.inst)
      && libName == old(libName) && initialized == old(initialized) && cachedWindowName == old(cachedWindowName)
    }

    /** `__init__` up to the point where it may initialise. */
    constructor Uninitialized(requested: string, lazy: bool, installed: Availability)
      ensures Valid()
      ensures requestedLibName == requested && lazyInit == lazy && avail == installed
      ensures instance.None? && libName.None? && !initialized && cachedWindowName == VStr("")
    {
      instance := None;
      libName := None;
      requestedLibName := requested;
      ownListen := [];
      cachedWindowName := VStr("");
      lazyInit := lazy;
      initialized := false;
      avail := installed;
    }

    /** `WeChatAdapter(lib_name, lazy_init)`: without lazy initialisation the
        library is selected at once, and a failed selection raises out of the
        constructor. */
    static method Create(requested: string, lazy: bool, installed: Availability)
      returns (adapter: WeChatAdapter?, raised: Option<Exc>)
      ensures raised.Some? <==> adapter == null
      ensures raised.Some? <==> !lazy && SelectBackend(requested, installed).None?
      ensures raised.Some? ==> raised == Some(ImportFailure)
      ensures adapter != null ==>
                && fresh(adapter) && adapter.Valid()
                && adapter.requestedLibName == requested && adapter.lazyInit == lazy && adapter.avail == installed
                && adapter.instance.None? && adapter.cachedWindowName == VStr("")
                && (adapter.initialized <==> !lazy)
                && (!lazy ==> adapter.libName == SelectBackend(requested, installed))
    {
      adapter := new WeChatAdapter.Uninitialized(requested, lazy, installed);
      raised := None;
      if !lazy {
        raised := adapter.PerformInitialization();
        if raised.Some? {
          adapter := null;
        }
      }
    }

    /** `_try_import_wxauto` / `_try_import_wxautox`: success exactly when the
        library is installed, and then it becomes `_lib_name`. */
    method TryImport(lib: Lib) returns (ok: bool)
      modifies this
      ensures ok == Available(avail, lib)
      ensures !ok ==> unchanged(this)
      ensures ok ==> libName == Some(lib)
      ensures instance == old(instance) && initialized == old(initialized) && cachedWindowName == old(cachedWindowName)
    {
      ok := Available(avail, lib);
      if ok {
        libName := Some(lib);
      }
    }

    /** `_perform_initialization`: nothing once initialised; otherwise the
        extended library (on request) and then the standard one are tried,
        and `ImportError` is raised when neither loads. */
    method PerformInitialization() returns (raised: Option<Exc>)
      requires Valid()
      modifies this
      ensures Valid()
      ensures old(initialized) ==> raised.None? && unchanged(this)
      ensures !old(initialized) ==>
                raised == (if SelectBackend(requestedLibName, avail).None? then Some(ImportFailure) else None)
      ensures raised.Some? ==> unchanged(this)
      ensures !old(initialized) && raised.None? ==>
                && initialized && libName == SelectBackend(requestedLibName, avail)
                && instance == old(instance) && cachedWindowName == old(cachedWindowName)
    {
      if initialized {
        return None;
      }
      if RequestsExtended(requestedLibName) {
        var ok := TryImport(WxAutoX);
        if !ok {
          ok := TryImport(WxAuto);
          if !ok {
            return Some(ImportFailure);
          }
        }
      } else {
        var ok := TryImport(WxAuto);
        if !ok {
          return Some(ImportFailure);
        }
      }
      initialized := true;
      raised := None;
    }

    /** `_ensure_initialized` (the lock is left out: calls are sequential here). */
    method EnsureInitialized() returns (raised: Option<Exc>)
      requires Valid()
      modifies this
      ensures Valid()
      ensures old(initialized) ==> raised.None? && unchanged(this)
      ensures !old(initialized) ==>
                raised == (if SelectBackend(requestedLibName, avail).None? then Some(ImportFailure) else None)
      ensures raised.Some? ==> unchanged(this)
      ensures raised.None? ==>
                && initialized && libName == SelectBackend(requestedLibName, avail)
                && instance == old(instance) && cachedWindowName == old(cachedWindowName)
    {
      raised := None;
      if !initialized {
        raised := PerformInitialization();
      }
    }

    /** The `listen` property: the library object's registry, else the
        adapter's own (empty) one. */
    method Listen() returns (listen: Registry, raised: Option<Exc>)
      requires Valid()
      modifies this
      ensures Valid()
      ensures raised.Some? ==> raised == Some(ImportFailure) && !old(initialized) && unchanged(this)
      ensures raised.None? ==>
                && initialized && instance == old(instance) && cachedWindowName == old(cachedWindowName)
                && listen == (if instance.Some? then instance.value.listen else [])
    {
      listen := [];
      raised := EnsureInitialized();
      if raised.Some? {
        return;
      }
      if instance.Some? {
        listen := instance.value.listen;
      } else {
        listen := ownListen;
      }
    }

    /** `initialize`: with an instance already there, `True` and nothing else;
        otherwise the library's `WeChat()` is built, `made` being the object
        it produces when it succeeds. A failed construction gives `False` and
        no instance. A new instance has its window name probed and cached, and
        the file helper chat is opened (its failure ignored). */
    method Initialize(c: Construction, made: UiObject) returns (raised: Option<Exc>, ok: bool)
      requires Valid()
      modifies this
      ensures Valid()
      ensures raised.Some? <==> !old(initialized) && SelectBackend(requestedLibName, avail).None?
      ensures raised.Some? ==> raised == Some(ImportFailure) && !ok && unchanged(this)
      ensures raised.None? ==> initialized && libName == SelectBackend(requestedLibName, avail)
      ensures raised.None? ==> (ok <==> instance.Some?)
      ensures old(instance).Some? ==> ok && unchanged(this)
      ensures raised.None? && old(instance).None? ==> (ok <==> Constructs(CurrentLib(), c))
      ensures raised.None? && old(instance).None? && !ok ==> cachedWindowName == old(cachedWindowName)
      ensures raised.None? && old(instance).None? && ok ==>
                var p := InitialWindowName(made);
                && instance == Some(Invoke(p.inst, "ChatWith", [VStr(FileHelper)], map[]).inst)
                && cachedWindowName == NextCache(p.name, old(cachedWindowName))
    {
      ok := false;
      raised := EnsureInitialized();
      if raised.Some? {
        return;
      }
      if instance.Some? {
        ok := true;
        return;
      }
      if !Constructs(CurrentLib(), c) {
        return;
      }
      instance := Some(made);
      var probe := InitialWindowName(made);
      if Truthy(probe.name) {
        cachedWindowName := probe.name;
      }
      var helper := Invoke(probe.inst, "ChatWith", [VStr(FileHelper)], map[]);
      instance := Some(helper.inst);
      ok := true;
    }

    /** `get_window_name`: `""` without an instance; otherwise the probes in
        order, then the cache, then `"微信"`. A name found is cached. */
    method GetWindowName() returns (name: Value)
      requires Valid()
      modifies this
      ensures Valid()
      ensures old(instance).None? ==> name == VStr("") && unchanged(this)
      ensures old(instance).Some? ==>
                var p := ProbeDisplayName(CurrentLib() == WxAutoX, old(instance).value);
                && name == DisplayName(p.name, old(cachedWindowName))
                && cachedWindowName == NextCache(p.name, old(cachedWindowName))
                && instance == Some(p.inst) && libName == old(libName) && initialized == old(initialized)
    {
      if instance.None? {
        return VStr("");
      }
      var windowName, o := ProbeName(CurrentLib() == WxAutoX, instance.value);
      instance := Some(o);
      if Truthy(windowName) {
        cachedWindowName := windowName;
        return windowName;
      }
      if Truthy(cachedWindowName) {
        return cachedWindowName;
      }
      return VStr("微信");
    }

    /** The probes of `get_window_name`, in order, on the library object `o`. */
    static method ProbeName(extended: bool, o: UiObject) returns (windowName: Value, after: UiObject)
      ensures ProbeDisplayName(extended, o) == Probe(Found(windowName), after)
    {
      after := o;
      windowName := VStr("");
      if HasAttr(o, "window_name") {
        windowName := AttrValue(o, "window_name", VStr(""));
      }
      if !Truthy(windowName) && HasAttr(o, "GetWindowName") {
        var s := Invoke(o, "GetWindowName", [], map[]);
        after := s.inst;
        if s.out.Returned? {
          windowName := s.out.value;
        }
      }
      if !Truthy(windowName) && HasAttr(after, "nickname") {
        var nickname := AttrValue(after, "nickname", VStr(""));
        if Truthy(nickname) {
          windowName := nickname;
        }
      }
      if !Truthy(windowName) {
        windowName, after := ProbeInfo(extended, after);
      }
    }

    /** The last probes of `get_window_name`, `ChatInfo()` and (extended
        library only) `GetMyInfo()`. */
    static method ProbeInfo(extended: bool, o: UiObject) returns (windowName: Value, after: UiObject)
      ensures InfoProbes(extended, o) == Probe(Found(windowName), after)
    {
      windowName := VStr("");
      var s := Invoke(o, "ChatInfo", [], map[]);
      after := s.inst;
      if s.out.Returned? && Truthy(s.out.value) && s.out.value.VDict? {
        windowName := FirstTruthyKey(s.out.value.entries, ["nickname", "name", "title"]);
      }
      if !Truthy(windowName) && extended && HasAttr(after, "GetMyInfo") {
        s := Invoke(after, "GetMyInfo", [], map[]);
        after := s.inst;
        if s.out.Returned? && Truthy(s.out.value) && s.out.value.VDict? {
          windowName := FirstTruthyKey(s.out.value.entries, ["nickname", "name"]);
        }
      }
    }

    /** `_safe_get_window_name`: the cache, then the `window_name` and
        `nickname` attributes, then `"微信"`; only attributes are read. */
    method SafeGetWindowName() returns (name: Value)
      modifies this
      ensures var r := SafeDisplayName(old(cachedWindowName), old(instance));
              name == r.name && cachedWindowName == r.cache
      ensures instance == old(instance) && libName == old(libName) && initialized == old(initialized)
    {
      if Truthy(cachedWindowName) {
        return cachedWindowName;
      }
      if instance.Some? && HasAttr(instance.value, "window_name") {
        var windowName := AttrValue(instance.value, "window_name", VStr(""));
        if Truthy(windowName) {
          cachedWindowName := windowName;
          return windowName;
        }
      }
      if instance.Some? && HasAttr(instance.value, "nickname") {
        var nickname := AttrValue(instance.value, "nickname", VStr(""));
        if Truthy(nickname) {
          cachedWindowName := nickname;
          return nickname;
        }
      }
      return Or(cachedWindowName, VStr("微信"));
    }

    /** `_safe_get_session_list`: never raises. */
    method SafeGetSessionList() returns (sessions: Value)
      modifies this
      ensures old(instance).None? ==> sessions == VNone && unchanged(this)
      ensures old(instance).Some? ==> Took(SessionListProbe(old(instance).value), Returned(sessions))
    {
      if instance.None? || !HasAttr(instance.value, "GetSessionList") {
        return VNone;
      }
      var call := Invoke(instance.value, "GetSessionList", [], map[]);
      instance := Some(call.inst);
      if call.out.Raised? {
        return VNone;
      }
      return call.out.value;
    }

    /** `check_connection`: there must be an instance and a window name; the
        session list is fetched but cannot change the verdict. */
    method CheckConnection() returns (connected: bool)
      requires Valid()
      modifies this
      ensures Valid()
      ensures connected == ConnectionVerdict(old(instance), old(cachedWindowName))
      ensures old(instance).None? ==> unchanged(this)
      ensures old(instance).Some? ==>
                && instance == Some(SessionListProbe(old(instance).value).inst)
                && cachedWindowName == SafeDisplayName(old(cachedWindowName), old(instance)).cache
                && libName == old(libName) && initialized == old(initialized)
    {
      if instance.None? {
        return false;
      }
      var windowName := SafeGetWindowName();
      connected := Truthy(windowName);
      if connected {
        var sessions := SafeGetSessionList();
      }
    }

    /** `self._instance.<name>(*args, **kwargs)`. */
    method CallInstance(name: string, args: seq<Value>, kwargs: Kwargs) returns (r: Outcome)
      requires instance.Some?
      modifies this
      ensures Took(Invoke(old(instance).value, name, args, kwargs), r)
    {
      var s := Invoke(instance.value, name, args, kwargs);
      instance := Some(s.inst);
      r := s.out;
    }

    /** `_handle_ChatWith`. */
    method HandleChatWith(args: seq<Value>, kwargs: Kwargs) returns (r: Outcome)
      requires Valid()
      modifies this
      ensures Valid()
      ensures old(instance).None? ==> r == Raised(NotInitialized) && unchanged(this)
      ensures old(instance).Some? ==> Took(ChatWithStep(CurrentLib(), old(instance).value, args, kwargs), r)
    {
      if instance.None? {
        return Raised(NotInitialized);
      }
      var kw := kwargs;
      if CurrentLib() == WxAuto {
        if "exact" in kw {
          kw := kw - {"exact"};
        }
      }
      assert kw == ChatWithKwargs(CurrentLib(), kwargs);
      r := CallInstance("ChatWith", args, kw);
    }

    /** `_handle_SendMsg`. */
    method HandleSendMsg(args: seq<Value>, kwargs: Kwargs) returns (r: Outcome)
      requires Valid()
      modifies this
      ensures Valid()
      ensures old(instance).None? ==> r == Raised(NotInitialized) && unchanged(this)
      ensures old(instance).Some? ==> Took(SendMsgStep(CurrentLib(), old(instance).value, args, kwargs), r)
    {
      if instance.None? {
        return Raised(NotInitialized);
      }
      var kw := kwargs;
      if CurrentLib() == WxAuto {
        if "clear" in kw && kw["clear"].VBool? {
          kw := kw["clear" := VStr(if kw["clear"].b then "1" else "0")];
        }
      }
      assert kw == SendMsgKwargs(CurrentLib(), kwargs);
      r := CallInstance("SendMsg", args, kw);
    }

    /** `_handle_SendTypingText`. */
    method HandleSendTypingText(args: seq<Value>, kwargs: Kwargs) returns (r: Outcome)
      requires Valid()
      modifies this
      ensures Valid()
      ensures old(instance).None? ==> r == Raised(NotInitialized) && unchanged(this)
      ensures old(instance).Some? ==> Took(SendTypingTextStep(CurrentLib(), old(instance).value, args, kwargs), r)
    {
      if instance.None? {
        return Raised(NotInitialized);
      }
      if CurrentLib() == WxAutoX {
        if HasAttr(instance.value, "SendTypingText") {
          r := CallInstance("SendTypingText", args, kwargs);
        } else {
          r := CallInstance("SendMsg", args, kwargs);
        }
      } else {
        var kw := kwargs;
        if "clear" in kw && kw["clear"].VBool? {
          kw := kw["clear" := VStr(if kw["clear"].b then "1" else "0")];
        }
        assert kw == CoerceClear(kwargs);
        r := CallInstance("SendMsg", args, kw);
      }
    }

    /** `_handle_SendFiles`. */
    method HandleSendFiles(args: seq<Value>, kwargs: Kwargs) returns (r: Outcome)
      requires Valid()
      modifies this
      ensures Valid()
      ensures old(instance).None? ==> r == Raised(NotInitialized) && unchanged(this)
      ensures old(instance).Some? ==> Took(SendFilesStep(CurrentLib(), old(instance).value, args, kwargs), r)
    {
      if instance.None? {
        return Raised(NotInitialized);
      }
      if HasAttr(instance.value, "SendFiles") {
        r := CallInstance("SendFiles", args, kwargs);
      } else if HasAttr(instance.value, "SendFile") {
        r := CallInstance("SendFile", args, kwargs);
      } else {
        r := Raised(SendFilesUnsupported(CurrentLib()));
      }
    }

    /** The keyword arguments `kw` has among the saving options. */
    static method BasicSaveKwargs(kw: Kwargs) returns (basic: Kwargs)
      ensures basic == Restrict(kw, BasicSaveKeys)
    {
      basic := map[];
      if "savepic" in kw {
        basic := basic["savepic" := kw["savepic"]];
      }
      if "savefile" in kw {
        basic := basic["savefile" := kw["savefile"]];
      }
      if "savevoice" in kw {
        basic := basic["savevoice" := kw["savevoice"]];
      }
    }

    /** The keyword arguments the `AddListenChat` retry keeps: the chat and
        the saving options that were given, and for the extended library also
        `savevideo`, `parseurl` and `exact`. */
    static method RetryKwargs(lib: Lib, kw: Kwargs) returns (basic: Kwargs)
      ensures basic == Restrict(kw, RetryKeys(lib))
    {
      basic := BasicSaveKwargs(kw);
      RestrictAdd(kw, BasicSaveKeys, "who");
      if "who" in kw {
        basic := basic["who" := kw["who"]];
      }
      if lib == WxAutoX {
        ghost var kept := BasicSaveKeys + {"who"};
        RestrictAdd(kw, kept, "savevideo");
        if "savevideo" in kw {
          basic := basic["savevideo" := kw["savevideo"]];
        }
        RestrictAdd(kw, kept + {"savevideo"}, "parseurl");
        if "parseurl" in kw {
          basic := basic["parseurl" := kw["parseurl"]];
        }
        RestrictAdd(kw, kept + {"savevideo"} + {"parseurl"}, "exact");
        if "exact" in kw {
          basic := basic["exact" := kw["exact"]];
        }
        assert RetryKeys(lib) == kept + {"savevideo"} + {"parseurl"} + {"exact"};
      } else {
        assert RetryKeys(lib) == BasicSaveKeys + {"who"};
      }
    }

    /** The keyword arguments without those only the extended library takes,
        when the standard library is in use. */
    static method StandardKwargsOf(lib: Lib, kwargs: Kwargs) returns (kw: Kwargs)
      ensures kw == StandardKwargs(lib, kwargs)
    {
      kw := kwargs;
      if lib == WxAuto {
        if "savevideo" in kw {
          kw := kw - {"savevideo"};
        }
        if "parseurl" in kw {
          kw := kw - {"parseurl"};
        }
      }
    }

    /** `GetSessionList(reset=True)`, then the file helper's chat when no
        session is listed. */
    method WarmUp()
      requires instance.Some?
      modifies this
      ensures instance == Some(WarmUpSessions(old(instance).value)) && OnlyInstanceChanged()
    {
      var listed := CallInstance("GetSessionList", [], map["reset" := VBool(true)]);
      if listed.Returned? && !Truthy(listed.value) {
        var helper := CallInstance("ChatWith", [VStr(FileHelper)], map[]);
      }
    }

    /** `_handle_GetNextNewMessage` (the save-path setup is left out). */
    method HandleGetNextNewMessage(args: seq<Value>, kwargs: Kwargs) returns (r: Outcome)
      requires Valid()
      modifies this
      ensures Valid()
      ensures old(instance).None? ==> r == Raised(NotInitialized) && unchanged(this)
      ensures old(instance).Some? ==> Took(NextNewMessageStep(CurrentLib(), old(instance).value, args, kwargs), r)
    {
      if instance.None? {
        return Raised(NotInitialized);
      }
      var kw := StandardKwargsOf(CurrentLib(), kwargs);
      WarmUp();
      var first := CallInstance("GetNextNewMessage", args, kw);
      if first.Returned? {
        return first;
      }
      if IsMissingMessageControl(first.error.message) {
        return Returned(EmptyList);
      }
      if IsParamMismatch(first.error.message) {
        var basic := BasicSaveKwargs(kw);
        var retry := CallInstance("GetNextNewMessage", args, basic);
        if retry.Raised? {
          return Returned(EmptyList);
        }
        return retry;
      }
      return Returned(EmptyList);
    }

    /** `_handle_AddListenChat`. */
    method HandleAddListenChat(args: seq<Value>, kwargs: Kwargs) returns (r: Outcome)
      requires Valid()
      modifies this
      ensures Valid()
      ensures old(instance).None? ==> r == Raised(NotInitialized) && unchanged(this)
      ensures old(instance).Some? ==> Took(AddListenChatStep(CurrentLib(), old(instance).value, args, kwargs), r)
    {
      if instance.None? {
        return Raised(NotInitialized);
      }
      var kw := kwargs;
      if CurrentLib() == WxAuto {
        if "savevideo" in kw {
          kw := kw - {"savevideo"};
        }
        if "parseurl" in kw {
          kw := kw - {"parseurl"};
        }
      }
      assert kw == StandardKwargs(CurrentLib(), kwargs);
      var first := CallInstance("AddListenChat", args, kw);
      if first.Raised? && IsListenParamMismatch(first.error.message) {
        var basic := RetryKwargs(CurrentLib(), kw);
        r := CallInstance("AddListenChat", args, basic);
      } else {
        r := first;
      }
    }

    /** `_handle_RemoveListenChat` (closing the chat's window is left out). */
    method HandleRemoveListenChat(args: seq<Value>, kwargs: Kwargs) returns (r: Outcome)
      requires Valid()
      modifies this
      ensures Valid()
      ensures old(instance).None? ==> r == Raised(NotInitialized) && unchanged(this)
      ensures old(instance).Some? ==> Took(RemoveListenChatStep(CurrentLib(), old(instance).value, args, kwargs), r)
    {
      if instance.None? {
        return Raised(NotInitialized);
      }
      if CurrentLib() == WxAutoX {
        var call := CallInstance("RemoveListenChat", args, kwargs);
        if call.Raised? {
          return Returned(VBool(false));
        }
        return call;
      }
      var who := Target(args, kwargs);
      if !Truthy(who) {
        return Returned(VBool(false));
      }
      if IsListening(instance.value, who) {
        instance := Some(instance.value.(listen := RemoveKey(instance.value.listen, who.s)));
        return Returned(VBool(true));
      }
      return Returned(VBool(false));
    }

    /** Recovery for one chat, through the adapter's own shims: remove it,
        reopen it, add it again, then read its messages once more. */
    method RecoverTarget(who: Value, kwargs: Kwargs) returns (result: Option<Value>)
      requires Valid() && instance.Some? && CurrentLib() == WxAuto && Truthy(who)
      modifies this
      ensures Valid()
      ensures var rec := RecoverChat(old(instance).value, who, kwargs);
              result == rec.result && instance == Some(rec.inst)
      ensures OnlyInstanceChanged()
    {
      var removed := HandleRemoveListenChat([who], map[]);
      var reopened := HandleChatWith([who], map[]);
      var params: Kwargs := map["who" := who];
      var saving := BasicSaveKwargs(kwargs);
      params := saving + params;
      assert params == RecoveryParams(who, kwargs);
      var added := HandleAddListenChat([], params);
      if added.Raised? {
        return None;
      }
      var retry := CallInstance("GetListenMessage", [who], map[]);
      result := if retry.Returned? then Some(retry.value) else None;
    }

    /** Recovery for all chats: re-register every entry of a copy of the
        registry (a failure moves on to the next), then read all messages once
        more. An empty registry gives up at once. */
    method RecoverAllTargets() returns (result: Option<Value>)
      requires Valid() && instance.Some? && CurrentLib() == WxAuto
      modifies this
      ensures Valid()
      ensures var rec := RecoverAll(old(instance).value);
              result == rec.result && instance == Some(rec.inst)
      ensures OnlyInstanceChanged()
    {
      var snapshot := instance.value.listen;
      if snapshot == [] {
        return None;
      }
      var i := 0;
      while i < |snapshot|
        invariant 0 <= i <= |snapshot|
        invariant Valid() && instance.Some? && OnlyInstanceChanged()
        invariant ReregisterAll(instance.value, snapshot[i..]) == ReregisterAll(old(instance).value, snapshot)
      {
        var e := snapshot[i];
        assert snapshot[i..][0] == e && snapshot[i..][1..] == snapshot[i + 1..];
        var removed := HandleRemoveListenChat([VStr(e.who)], map[]);
        var reopened := HandleChatWith([VStr(e.who)], map[]);
        var added := HandleAddListenChat([], EntryParams(e));
        i := i + 1;
      }
      assert snapshot[i..] == [];
      var retry := CallInstance("GetListenMessage", [], map[]);
      result := if retry.Returned? then Some(retry.value) else None;
    }

    /** The recovery a failed read of the standard library leads to. */
    method RecoverFrom(who: Value, kwargs: Kwargs, e: Exc) returns (result: Option<Value>)
      requires Valid() && instance.Some? && CurrentLib() == WxAuto
      modifies this
      ensures Valid()
      ensures var rec := Recover(old(instance).value, who, kwargs, e);
              result == rec.result && instance == Some(rec.inst)
      ensures OnlyInstanceChanged()
    {
      if IsRecoverable(e.message) {
        if Truthy(who) {
          result := RecoverTarget(who, kwargs);
        } else {
          result := RecoverAllTargets();
        }
      } else if IsWindowFailure(e.traceback) && Truthy(who) {
        result := RecoverTarget(who, kwargs);
      } else {
        result := None;
      }
    }

    /** `_handle_GetListenMessage` (the save-path setup is left out). */
    method HandleGetListenMessage(args: seq<Value>, kwargs: Kwargs) returns (r: Outcome)
      requires Valid()
      modifies this
      ensures Valid()
      ensures old(instance).None? ==> r == Raised(NotInitialized) && unchanged(this)
      ensures old(instance).Some? ==> Took(ListenMessageStep(CurrentLib(), old(instance).value, args, kwargs), r)
    {
      if instance.None? {
        return Raised(NotInitialized);
      }
      var who := Target(args, kwargs);
      var first := CallInstance("GetListenMessage", ListenArgs(who), map[]);
      if CurrentLib() == WxAutoX {
        if first.Raised? {
          return Returned(EmptyDict);
        }
        return first;
      }
      if first.Returned? {
        return Returned(NormalizeListen(who, first.value));
      }
      var recovered := RecoverFrom(who, kwargs, first.error);
      if recovered.Some? {
        return Returned(recovered.value);
      }
      return Returned(Neutral(who));
    }

    /** `_handle_chat_window_method`: works on the chat-window object it is
        given, not on the adapter's state. */
    method HandleChatWindowMethod(window: Option<UiObject>, methodName: string, args: seq<Value>, kwargs: Kwargs)
      returns (r: Outcome, after: Option<UiObject>)
      ensures WindowStep(r, after) == ChatWindowMethodStep(window, methodName, args, kwargs)
    {
      if window.None? {
        return Raised(EmptyWindow(methodName)), None;
      }
      var w := window.value;
      if !Truthy(AttrValue(w, methodName, VNone)) {
        return Raised(NoWindowMethod(methodName)), window;
      }
      var s := Invoke(w, methodName, args, kwargs);
      r, after := s.out, Some(s.inst);
    }

    /** `adapter.<name>(*args, **kwargs)` with the intended lookup of `__getattr__`:
        the shim of `name`, else the library object's own method. Python only
        gets here for names the adapter does not define itself, so `name` stands
        for such a name (not `initialize`, `get_window_name` or a `_handle_` method). */
    method Dispatch(name: string, args: seq<Value>, kwargs: Kwargs) returns (r: Outcome)
      requires Valid()
      modifies this
      ensures Valid()
      ensures old(instance).None? ==> r == Raised(NoInstanceFor(name)) && unchanged(this)
      ensures old(instance).Some? ==> Took(DispatchStep(CurrentLib(), old(instance).value, name, args, kwargs), r)
    {
      if instance.None? {
        return Raised(NoInstanceFor(name));
      }
      match HandlerFor(name)
      case Some(HChatWith) => r := HandleChatWith(args, kwargs);
      case Some(HSendMsg) => r := HandleSendMsg(args, kwargs);
      case Some(HSendTypingText) => r := HandleSendTypingText(args, kwargs);
      case Some(HSendFiles) => r := HandleSendFiles(args, kwargs);
      case Some(HGetNextNewMessage) => r := HandleGetNextNewMessage(args, kwargs);
      case Some(HAddListenChat) => r := HandleAddListenChat(args, kwargs);
      case Some(HGetListenMessage) => r := HandleGetListenMessage(args, kwargs);
      case Some(HRemoveListenChat) => r := HandleRemoveListenChat(args, kwargs);
      case Some(HChatWindowMethod) => r := ChatWindowMethodOnValues(instance.value, args).out;
      case None => r := CallInstance(name, args, kwargs);
    }

    /** `get_friend_list`: `GetAllFriends()`, its failure raised again. */
    method GetFriendList() returns (r: Outcome)
      modifies this
      ensures old(instance).None? ==> r == Raised(NotInitialized) && unchanged(this)
      ensures old(instance).Some? ==> Took(Invoke(old(instance).value, "GetAllFriends", [], map[]), r)
    {
      if instance.None? {
        return Raised(NotInitialized);
      }
      r := CallInstance("GetAllFriends", [], map[]);
    }

    /** `get_group_list`: `GetAllGroups()`, then the summary of each group. */
    method GetGroupList() returns (r: Outcome)
      modifies this
      ensures old(instance).None? ==> r == Raised(NotInitialized) && unchanged(this)
      ensures old(instance).Some? ==> Took(GroupListStep(old(instance).value), r)
    {
      if instance.None? {
        return Raised(NotInitialized);
      }
      var call := CallInstance("GetAllGroups", [], map[]);
      if call.Raised? {
        return call;
      }
      match Elements(call.value)
      case None => r := Raised(NotIterable(call.value));
      case Some(groups) => r := SummarizeGroupsLoop(groups);
    }
  }
}
