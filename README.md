# WXAUTO-HTTP-API adapter and control-panel logic in Dafny

This project models two parts of a Windows service that exposes WeChat desktop automation over HTTP.

The first part is `WeChatAdapter`, the object the HTTP layer talks to. It picks one of two automation libraries: `wxauto`, the standard one, or `wxautox`, the extended one. It builds that library's `WeChat` object once, answers the display-name and connection queries, and dispatches every other operation. Each operation goes either to a shim (`_handle_*`) or straight to the library object. The shims work around the two libraries' differences:
- they drop or coerce keyword arguments;
- they retry with a smaller set of keywords when the error text signals a parameter mismatch;
- they turn failures into neutral results (`[]` or `{}`);
- for listen messages, they rebuild the library's listen registry after a window failure.

The second part is the string and counter logic of the desktop control panel:
- the API call counter driven by log lines;
- the log filter;
- the rewrite of the web server's access lines;
- the API key fallback;
- the validation in the settings dialog.

The library object is modelled as a value, `Backend.UiObject`:
- its data attributes;
- the names of its methods;
- its listen registry, an ordered list of chat names with their options;
- a script of outcomes, one per call: a returned value or a raised exception with message and traceback text;
- the log of calls made so far.

`Backend.Invoke` is one method call on it. Each shim is a function in `Shims` from the library object and the call's arguments to a `Backend.Step`: the outcome together with the library object afterwards. The class `Adapter.WeChatAdapter` keeps the fields the source updates (`_instance`, `_lib_name`, `_initialized`, `_cached_window_name`). Its methods are proved to do what those functions say. Further lemmas relate the functions to each other; for example, they bound how many times a shim can call the library.

The installed libraries are an input (`Selection.Availability`). So is the outcome of constructing `WeChat()` (`Selection.Construction`). Tk variables become parameters.

Files:
- `values.dfy`: Python values and their truthiness, keyword dictionaries, exceptions and outcomes.
- `text.dfy`: `in`, `find`, `split`, `strip` and `lower` on strings.
- `backend.dfy`: the library object, its listen registry and method calls.
- `selection.dfy`: choosing a library, and the GBK retry of the constructor.
- `shims.dfy`: the `_handle_*` shims.
- `proxy.dfy`: `__getattr__`, both as written and as intended.
- `queries.dfy`: display name, session list, connection verdict, friend and group lists.
- `adapter.dfy`: the `WeChatAdapter` class.
- `control_panel.dfy`: `ApiCounter` and the panel's pure helpers.

Behaviour of the code worth noting:
- `SendMsg` coerces a boolean `clear` to `"1"`/`"0"` only for `wxauto`.
- `initialize()` returns `False`, and does not raise, when constructing `WeChat()` fails.
- The `wxautox` `GetListenMessage` path returns `{}` on any exception, whether or not `who` was given.
- `check_connection` returns `False` when no window name is obtained (app/wechat_adapter.py:443-445). In the model, reading an attribute never raises, so `_safe_get_window_name` always yields a non-empty name (the cache or `"微信"`) and the verdict is exactly "an instance exists" (`Queries.ConnectionVerdict`). In the source, a raising attribute read in `hasattr` reaches the outer handler of `_safe_get_window_name`, which gives `""` with an empty cache (see "## Left out").

## Model

| member | source | states |
|---|---|---|
| Values.Or | app/wechat_adapter.py:329-330 | Python `a or b`: `a` when truthy, else `b` |
| Values.DictGet | app/wechat_adapter.py:329-330 | `d.get(k, default)` on an entry list: the value of the first entry with key `k`, or the default when there is none |
| Values.Restrict | app/wechat_adapter.py:692-700 | the keyword dictionary cut down to the given keys, values unchanged |
| Values.RestrictAdd | app/wechat_adapter.py:692-700 | building the retry dictionary key by key, as the source's `if k in kwargs` chain does, gives the restriction to those keys |
| Text.IndexOf | app/app_ui.py:1348-1350 | `find`: an occurrence of `sub` at the index returned, none earlier; `None` exactly when there is no occurrence at all |
| Text.ShiftOccurrence | app/app_ui.py:1348-1350 | an occurrence in `s[1..]` is an occurrence in `s` one place further on |
| Text.FirstOccurrence | app/app_ui.py:1348-1350 | an occurrence before which no character could start one is the one `find` returns |
| Text.ContainsIff | app/app_ui.py:65-79 | `sub in s` holds exactly when `sub` occurs at some index |
| Text.Before | app/app_ui.py:1350 | `s.split(sep, 1)[0]`: all of `s` without `sep`, else the text before the first `sep` |
| Text.After | app/app_ui.py:1348-1351 | `s.split(sep, 1)[1]`: `s` is the text before, then `sep`, then the result |
| Text.Split | app/app_ui.py:591 | `s.split(sep)`: at least one piece, the pieces joined by `sep` give `s` back, no piece contains `sep`, and every cut is at the leftmost occurrence of `sep` in the text still to split |
| Text.PrefixFree | app/app_ui.py:1348-1350 | the text before the first `sep` does not contain `sep` |
| Text.StripStart | app/app_ui.py:591 | a suffix of `s`; what it drops is whitespace, and it starts with a non-space |
| Text.StripEnd | app/app_ui.py:591 | a prefix of `s`; what it drops is whitespace, and it ends with a non-space |
| Text.Strip | app/app_ui.py:1502-1503 | `strip()`: no longer than `s`, and no whitespace at either end |
| Text.StripKeepsUnpadded | app/app_ui.py:1502-1503 | a string without whitespace at either end is its own strip |
| Text.StripRemovesOnlyEnds | app/app_ui.py:1502-1503 | the strip is a slice `s[a..b]` with only whitespace before `a` and after `b` |
| Text.StripIdempotent | app/app_ui.py:591 | stripping twice is stripping once |
| Text.Lower | app/wechat_adapter.py:70 | `lower()`: same length, each ASCII capital lowered, every other character kept |
| Backend.RemoveKey | app/wechat_adapter.py:1169 | `del listen[who]`: the keys lose exactly `who`, no key is duplicated, and every other entry stays |
| Backend.RemoveKeyDistributes | app/wechat_adapter.py:1169 | removal keeps the order of the remaining entries: removing from `a + b` is removing from `a`, then from `b` |
| Backend.RemoveAbsentKey | app/wechat_adapter.py:1169 | removing a chat that is not registered leaves the registry as it is |
| Backend.Upsert | app/wechat_adapter.py:727-788 | registering a chat: the keys gain `who`, no key is duplicated, the new entry is present and every other entry stays |
| Backend.AttrValue | app/wechat_adapter.py:304-305 | `getattr(o, name, default)`: the default for a missing attribute, truthy for a method |
| Backend.Invoke | app/wechat_adapter.py:492-508 | a method call: a missing method raises `AttributeError` and changes nothing; otherwise the call is logged, the next scripted outcome happens, attributes and methods are unchanged; only `AddListenChat` can change the registry, and a successful one leaves it as `Registered` gives |
| Backend.Registered | app/wechat_adapter.py:750 | the library's own `AddListenChat(who, **rest)`: the entry for `who` is added, or replaced in place, with the remaining keywords as its options; a call that names no chat leaves the registry as it was |
| Backend.InvokeCount | app/wechat_adapter.py:692-725 | a call adds one to the count of calls to that method, and to no other |
| Selection.FirstAvailable | app/wechat_adapter.py:64-84 | the library chosen is one of those tried and is available; none is chosen exactly when none of them is |
| Selection.SelectBackend | app/wechat_adapter.py:64-84 | a request for `wxautox` in any letter case gets `wxautox` when it is installed, else `wxauto`; any other request gets `wxauto` or nothing; `wxautox` is chosen only when requested; nothing is chosen exactly when neither tried library is installed |
| Selection.SelectBackendIsFirstAttempt | app/wechat_adapter.py:70-82 | the choice is the first available library in the order of attempts (`wxautox` then `wxauto`, or `wxauto` alone) |
| Selection.ConstructorCalls | app/wechat_adapter.py:193-236 | `WeChat()` is called once or twice, twice exactly for `wxauto` when the first attempt raises a `UnicodeEncodeError` mentioning GBK |
| Selection.Constructs | app/wechat_adapter.py:193-236 | construction succeeds when the first attempt does; for `wxautox` only then; otherwise only through the GBK retry |
| Shims.IsMissingMessageControl | app/wechat_adapter.py:697 | the text names both `Find Control Timeout` and the "消息" control |
| Shims.IsParamMismatch | app/wechat_adapter.py:704 | the text contains "参数", or "parameter" or "argument" in any letter case |
| Shims.IsListenParamMismatch | app/wechat_adapter.py:754 | a parameter mismatch, or "unexpected keyword" in any letter case |
| Shims.IsRecoverable | app/wechat_adapter.py:971 | the message names a failed window activation, `SetWindowPos`, an invalid window handle or `Find Control Timeout` |
| Shims.IsWindowFailure | app/wechat_adapter.py:1074 | the traceback names a failed window activation, `SetWindowPos` or an invalid window handle |
| Shims.MissingControlIsRecoverable | app/wechat_adapter.py:971 | a missing "消息" control is one of the failures listen recovery handles |
| Shims.ChatWithKwargs | app/wechat_adapter.py:498-508 | for `wxauto` exactly `exact` is dropped; for `wxautox` the keywords pass through; values are never changed |
| Shims.StandardKwargs | app/wechat_adapter.py:655-663 | for `wxauto` exactly `savevideo` and `parseurl` are dropped; for `wxautox` the keywords pass through; values are never changed |
| Shims.ClearFlag | app/wechat_adapter.py:516-519 | a boolean becomes `"1"` for true and `"0"` for false; anything else is kept; the result is never a boolean |
| Shims.CoerceClear | app/wechat_adapter.py:516-519 | only `clear` changes, and no boolean `clear` is left |
| Shims.SendMsgKwargs | app/wechat_adapter.py:510-522 | `clear` is coerced for `wxauto`; for `wxautox` the keywords pass through |
| Shims.CoerceClearIdempotent | app/wechat_adapter.py:516-519 | coercing twice is coercing once |
| Shims.RetryKeys | app/wechat_adapter.py:762-775 | the `AddListenChat` retry keeps exactly `who`, `savepic`, `savefile` and `savevoice` for `wxauto`, and exactly those plus `savevideo`, `parseurl` and `exact` for `wxautox` |
| Shims.ChatWithStep | app/wechat_adapter.py:492-508 | `ChatWith` only adds calls to the library object |
| Shims.SendMsgStep | app/wechat_adapter.py:510-522 | `SendMsg` only adds calls to the library object |
| Shims.SendTypingTextStep | app/wechat_adapter.py:524-544 | `wxautox` with the method types the text; otherwise the text goes through `SendMsg`, with `clear` coerced for `wxauto` |
| Shims.SendFilesStep | app/wechat_adapter.py:546-562 | `SendFiles`, else `SendFile`, else an `AttributeError` naming the library, raised before any call |
| Shims.WarmUpSessions | app/wechat_adapter.py:665-686 | `GetSessionList(reset=True)` is called when the object has it, then `ChatWith("文件传输助手")` exactly when the listing returned a falsy value and the object has `ChatWith`; a raised listing opens nothing; the registry, attributes and methods are unchanged |
| Shims.WarmUpReadsNothing | app/wechat_adapter.py:665-686 | the warm-up reads no messages |
| Shims.NextNewMessageStep | app/wechat_adapter.py:564-725 | never raises; a first success is returned; a missing message control, or a failure that is not a parameter mismatch, gives `[]`; a mismatch is retried once with only the save flags, and a failed retry gives `[]` |
| Shims.NextNewMessageReadsAtMostTwice | app/wechat_adapter.py:692-725 | at most two message reads, and two only after a parameter mismatch that is not a missing control |
| Shims.AddListenChatStep | app/wechat_adapter.py:727-788 | a parameter or unexpected-keyword mismatch is retried once with the retry keys; anything else, including other errors, is the first call's outcome |
| Shims.AddListenChatCallsAtMostTwice | app/wechat_adapter.py:747-788 | at most two `AddListenChat` calls |
| Shims.AddListenChatCallsNothingElse | app/wechat_adapter.py:747-788 | no call to any other method |
| Shims.AddListenChatRetriesOnlyOnMismatch | app/wechat_adapter.py:753-788 | a second call is made only after the first raised a parameter or unexpected-keyword mismatch |
| Shims.RemoveListenChatStep | app/wechat_adapter.py:1124-1181 | never raises; `wxautox` calls its own method, and a failure reads as `False`; for `wxauto` the result is `True` exactly when `who` is given and registered, and then only that entry is deleted; otherwise nothing changes |
| Shims.RemoveKeepsOthers | app/wechat_adapter.py:1165-1172 | removing one chat keeps every other registered chat |
| Shims.ChatWindowMethodStep | app/wechat_adapter.py:1184-1201 | an empty window or a missing or falsy attribute raises before any call; a method is called and its outcome kept; a truthy data attribute is not callable and raises `TypeError` |
| Shims.Neutral | app/wechat_adapter.py:1119-1122 | the falsy result of an unrecovered failure: `[]` with `who`, `{}` without |
| Shims.ChatMessages | app/wechat_adapter.py:951-957 | the messages under the first chat-window key whose `who` matches, or `[]` when none does |
| Shims.NormalizeListen | app/wechat_adapter.py:905-961 | without `who` a dictionary passes through and anything else gives `{}`; with `who` a list passes through, a non-empty dictionary gives that chat's messages, any other empty result gives `{}`, and any other truthy result gives `[]` |
| Shims.Reregister | app/wechat_adapter.py:977-1005 | the removal, reopening and re-add of one chat only add calls; which calls, and the registration they leave, are stated by the two lemmas below |
| Shims.ReregisterCalls | app/wechat_adapter.py:977-1005 | the standard library's removal edits the registry without a call; then `ChatWith(who)` and `AddListenChat(**params)` are the next two calls, and at most one more (the keyword retry) follows |
| Shims.ReregisterRegisters | app/wechat_adapter.py:1005 | after a successful re-add, `who` is in the registry, and every other chat registered before still is |
| Shims.ReregisterReadsNothing | app/wechat_adapter.py:980-1000 | re-registering reads no messages |
| Shims.RecoveryParams | app/wechat_adapter.py:984-992 | the re-add keywords are `who` and those of the save flags the caller gave |
| Shims.RecoverChat | app/wechat_adapter.py:969-1015 | a failed re-add gives nothing; otherwise one retry of `GetListenMessage(who)`, whose value is the result when it succeeds |
| Shims.RecoverChatRegisters | app/wechat_adapter.py:1005-1011 | when the recovery of one chat yields messages, that chat is registered and the last call was `GetListenMessage(who)` |
| Shims.RecoverChatReadsOnce | app/wechat_adapter.py:1002-1010 | the recovery of one chat reads messages at most once |
| Shims.EntryParams | app/wechat_adapter.py:1040-1050 | the re-add keywords of a registered chat: `who` and each save flag from its window, `False` when absent |
| Shims.ReregisterAll | app/wechat_adapter.py:1034-1064 | re-registering every chat of the registry copy only adds calls; order and coverage are stated by the two lemmas below |
| Shims.ReregisterAllSnoc | app/wechat_adapter.py:1034-1064 | the chats are re-registered in the order of the copy: one more entry is one more `Reregister` after the others |
| Shims.ReregisterAllAddsEach | app/wechat_adapter.py:1034-1064 | every chat of the copy gets its own `AddListenChat(**EntryParams(entry))` call, even when the re-adds before it failed |
| Shims.ReregisterAllReadsNothing | app/wechat_adapter.py:1034-1064 | re-registering all chats reads no messages |
| Shims.RecoverAll | app/wechat_adapter.py:1016-1070 | with no registered chat nothing happens and nothing is returned; otherwise only calls are added, as `RecoverAllReaddsEach` states |
| Shims.RecoverAllReaddsEach | app/wechat_adapter.py:1016-1070 | with a non-empty registry, every registered chat is re-added with its window's options and the last call is `GetListenMessage()` |
| Shims.RecoverAllReadsOnce | app/wechat_adapter.py:1016-1070 | recovering all chats reads messages at most once |
| Shims.Recover | app/wechat_adapter.py:962-1117 | a recoverable message leads to the recovery of that chat when `who` is given, and of all chats otherwise; a window failure seen only in the traceback recovers that chat when `who` is given; any other failure recovers nothing and changes nothing |
| Shims.RecoverReadsOnce | app/wechat_adapter.py:962-1117 | any recovery reads messages at most once |
| Shims.ListenArgs | app/wechat_adapter.py:920-923 | `GetListenMessage(who)` when `who` is truthy, `GetListenMessage()` otherwise |
| Shims.ListenMessageStep | app/wechat_adapter.py:790-1122 | never raises; `wxautox` returns the call's value or `{}`; `wxauto` normalises a success, and after a failure returns the recovered value or the neutral result |
| Shims.ListenMessageReadsAtMostTwice | app/wechat_adapter.py:962-1122 | at most two message reads, two only on the `wxauto` path after a failure |
| Shims.UnrecognisedFailureIsNeutral | app/wechat_adapter.py:1119-1122 | an unrecognised failure gives the neutral result with no further call |
| Proxy.HandlerFor | app/wechat_adapter.py:479-486 | the shim found has the requested name; none is found exactly when no shim has that name |
| Proxy.HandlerStep | app/wechat_adapter.py:485-487 | calling a found handler runs that `_handle_` method's shim |
| Proxy.HandlerForName | app/wechat_adapter.py:479-486 | every shim is found by its own name |
| Proxy.UnderscoreHasNoHandler | app/wechat_adapter.py:481-486 | no name starting with `_` has a shim |
| Proxy.AsWrittenNeverPassesThrough | app/wechat_adapter.py:479-490 | as written, every name without a shim ends in `RecursionError` |
| Proxy.Resolve | app/wechat_adapter.py:479-490 | the intended lookup never recurses: the shim if there is one, else the library object's attribute, else `AttributeError` |
| Proxy.AsWrittenAgreesOnShims | app/wechat_adapter.py:479-486 | for names with a shim, the code as written and the intended lookup agree |
| Proxy.PassThroughExample | app/wechat_adapter.py:479-490 | `GetSessionList` on an object that has it: as written it recurses, the intended lookup passes it through |
| Proxy.ChatWindowMethodOnValues | app/wechat_adapter.py:1184-1201 | through the proxy, `chat_window_method` on plain values raises and changes nothing |
| Proxy.DispatchStep | app/wechat_adapter.py:479-490 | a name with a shim runs the shim; any other name is called on the library object as is |
| Queries.Found | app/wechat_adapter.py:304-322 | a probe result keeps its truthiness: the value when truthy, else `""` |
| Queries.FirstTruthyKey | app/wechat_adapter.py:329-330 | `d.get(k1, "") or d.get(k2, "") or ...`: the result is truthy exactly when some key's value is, and then it is the value of the first key whose value is truthy |
| Queries.InfoName | app/wechat_adapter.py:326-330 | a failed call, a non-dictionary or an empty dictionary gives `""`; a non-empty dictionary gives the first truthy value among the keys; the result is a truthy name or `""` |
| Queries.CallProbe | app/wechat_adapter.py:309-315 | a probe call changes the library object as the call does; its name is the returned value (falsy values as `""`), or `""` when the call raises |
| Queries.ProbeDisplayName | app/wechat_adapter.py:300-344 | a truthy `window_name` wins without a call; then a truthy `GetWindowName()`; then `nickname`, on the object after that call; then the `ChatInfo`/`GetMyInfo` probes; the result is a name or `""` |
| Queries.InfoProbes | app/wechat_adapter.py:324-344 | `ChatInfo()` is looked into for `nickname`, `name` and `title`; only when that finds nothing, and the extended library is in use and has `GetMyInfo`, is `GetMyInfo()` looked into for `nickname` and `name`; otherwise `""` |
| Queries.MyInfoOnlyWhenExtended | app/wechat_adapter.py:335-338 | `GetMyInfo` is never called for `wxauto` |
| Queries.InfoProbesWithoutMyInfo | app/wechat_adapter.py:335-338 | the info probes for `wxauto` do not call `GetMyInfo` |
| Queries.DisplayName | app/wechat_adapter.py:346-358 | the probe's name, else the cache, else `"微信"`; never empty |
| Queries.NextCache | app/wechat_adapter.py:346-348 | the cache is only ever replaced by a non-empty name, and a non-empty cache stays non-empty |
| Queries.ReturnedNameIsCached | app/wechat_adapter.py:346-358 | the name returned is the new cache whenever that is non-empty, else `"微信"` |
| Queries.FailedProbeUsesCache | app/wechat_adapter.py:352-354 | when the probes find nothing, a non-empty cache is returned and kept |
| Queries.InitialWindowName | app/wechat_adapter.py:238-253 | at construction, `window_name` is read without a call when present; otherwise `GetWindowName()` is probed when it exists; when neither exists nothing is read |
| Queries.SafeDisplayName | app/wechat_adapter.py:369-405 | never empty; a non-empty cache is returned unchanged; with an empty cache, a truthy `window_name`, else a truthy `nickname`, is returned and cached; otherwise (and with no object) `"微信"` is returned and the cache kept |
| Queries.SessionListProbe | app/wechat_adapter.py:407-424 | never raises; `None` without `GetSessionList` or when the call fails, else the call's value |
| Queries.ConnectionVerdict | app/wechat_adapter.py:426-477 | connected exactly when an instance exists |
| Queries.Elements | app/wechat_adapter.py:1239 | `for x in v`: a list's items, a dictionary's keys in order, a string's characters one by one, nothing for other values |
| Queries.Subscript | app/wechat_adapter.py:1240-1242 | `group[key]` succeeds exactly on a dictionary holding the key, with that key's value |
| Queries.SummaryOf | app/wechat_adapter.py:1240-1242 | `{"name": g["name"], "member_count": g["member_count"]}`, subscripted in that order |
| Queries.SummaryOfMeaning | app/wechat_adapter.py:1240-1242 | a group is summarised exactly when it is a dictionary holding `name` and `member_count`, as `{name, member_count}` with those two values; otherwise the error is that of the first subscript that fails |
| Queries.Collect | app/wechat_adapter.py:1239-1243 | an append loop that stops at the first exception gives a list, or that exception |
| Queries.Prepend | app/wechat_adapter.py:1239-1243 | results already appended go in front of a success and are lost on a failure |
| Queries.PrependTwice | app/wechat_adapter.py:1239-1243 | appending one more result and then the rest is appending both at once |
| Queries.CollectFrom | app/wechat_adapter.py:1239-1243 | one step of the loop: a failing element ends it, a succeeding one is appended |
| Queries.CollectedIffAllReturned | app/wechat_adapter.py:1239-1243 | the loop succeeds exactly when every element can be summarised |
| Queries.CollectedInOrder | app/wechat_adapter.py:1239-1243 | on success, one result per element, in order |
| Queries.FirstFailureReported | app/wechat_adapter.py:1239-1248 | on failure, the error is that of the first element that fails, all earlier ones having succeeded |
| Queries.SummarizeGroupsLoop | app/wechat_adapter.py:1237-1245 | the append loop computes the collection of group summaries |
| Queries.GroupListStep | app/wechat_adapter.py:1223-1249 | `GetAllGroups()` is called once; its failure is raised, a non-iterable result raises, and otherwise the result is the collected group summaries |
| Adapter.WeChatAdapter.constructor | app/wechat_adapter.py:37-62 | a fresh adapter: nothing chosen, no instance, empty cache |
| Adapter.WeChatAdapter.Create | app/wechat_adapter.py:37-62 | an eager adapter raises `ImportError` exactly when no library can be chosen; otherwise it is initialised with the selected library; a lazy one never raises |
| Adapter.WeChatAdapter.TryImport | app/wechat_adapter.py:102-180 | success exactly when the library is installed, and then it becomes the library; a failure changes nothing |
| Adapter.WeChatAdapter.PerformInitialization | app/wechat_adapter.py:64-84 | once initialised nothing changes; otherwise `ImportError` when nothing loads, with nothing changed, else initialised with the selected library |
| Adapter.WeChatAdapter.EnsureInitialized | app/wechat_adapter.py:86-91 | the same single-shot effect as `_perform_initialization` |
| Adapter.WeChatAdapter.Listen | app/wechat_adapter.py:93-100 | the instance's registry, or the adapter's own empty one, after initialising |
| Adapter.WeChatAdapter.Initialize | app/wechat_adapter.py:182-284 | `ImportError` exactly when initialisation fails; with an existing instance `True` and nothing changes; otherwise `True` exactly when construction succeeds; then a non-empty name read at construction replaces the cache and the file helper chat is opened; `False` leaves no instance and the cache unchanged |
| Adapter.WeChatAdapter.GetWindowName | app/wechat_adapter.py:294-367 | `""` without an instance; otherwise the display name of the probes, and the new cache |
| Adapter.WeChatAdapter.ProbeName | app/wechat_adapter.py:300-344 | the probe chain computes `ProbeDisplayName` |
| Adapter.WeChatAdapter.ProbeInfo | app/wechat_adapter.py:324-344 | the info probes compute `InfoProbes` |
| Adapter.WeChatAdapter.SafeGetWindowName | app/wechat_adapter.py:369-405 | returns the safe display name and updates the cache to match |
| Adapter.WeChatAdapter.SafeGetSessionList | app/wechat_adapter.py:407-424 | `None` without an instance, else the session-list probe |
| Adapter.WeChatAdapter.CheckConnection | app/wechat_adapter.py:426-477 | the verdict is the connection verdict (an instance exists), after the name and session-list probes |
| Adapter.WeChatAdapter.CallInstance | app/wechat_adapter.py:487-490 | a call on the instance |
| Adapter.WeChatAdapter.HandleChatWith | app/wechat_adapter.py:492-508 | raises without an instance, else performs `ChatWithStep` |
| Adapter.WeChatAdapter.HandleSendMsg | app/wechat_adapter.py:510-522 | raises without an instance, else performs `SendMsgStep` |
| Adapter.WeChatAdapter.HandleSendTypingText | app/wechat_adapter.py:524-544 | raises without an instance, else performs `SendTypingTextStep` |
| Adapter.WeChatAdapter.HandleSendFiles | app/wechat_adapter.py:546-562 | raises without an instance, else performs `SendFilesStep` |
| Adapter.WeChatAdapter.BasicSaveKwargs | app/wechat_adapter.py:692-700 | the `GetNextNewMessage` retry keeps only the save flags |
| Adapter.WeChatAdapter.RetryKwargs | app/wechat_adapter.py:758-775 | the `AddListenChat` retry keeps only the retry keys |
| Adapter.WeChatAdapter.StandardKwargsOf | app/wechat_adapter.py:655-663 | the in-place `pop` of the extended-only keys |
| Adapter.WeChatAdapter.WarmUp | app/wechat_adapter.py:665-686 | the session-list warm-up |
| Adapter.WeChatAdapter.HandleGetNextNewMessage | app/wechat_adapter.py:564-725 | raises without an instance, else performs `NextNewMessageStep` |
| Adapter.WeChatAdapter.HandleAddListenChat | app/wechat_adapter.py:727-788 | raises without an instance, else performs `AddListenChatStep` |
| Adapter.WeChatAdapter.HandleRemoveListenChat | app/wechat_adapter.py:1124-1181 | raises without an instance, else performs `RemoveListenChatStep` |
| Adapter.WeChatAdapter.RecoverTarget | app/wechat_adapter.py:969-1015 | performs `RecoverChat` on the instance |
| Adapter.WeChatAdapter.RecoverAllTargets | app/wechat_adapter.py:1016-1070 | performs `RecoverAll` on the instance |
| Adapter.WeChatAdapter.RecoverFrom | app/wechat_adapter.py:962-1117 | performs `Recover` on the instance |
| Adapter.WeChatAdapter.HandleGetListenMessage | app/wechat_adapter.py:790-1122 | raises without an instance, else performs `ListenMessageStep` |
| Adapter.WeChatAdapter.HandleChatWindowMethod | app/wechat_adapter.py:1184-1201 | performs `ChatWindowMethodStep` on the window |
| Adapter.WeChatAdapter.Dispatch | app/wechat_adapter.py:479-490 | raises naming the operation without an instance, else performs the intended `DispatchStep` |
| Adapter.WeChatAdapter.GetFriendList | app/wechat_adapter.py:1205-1221 | raises without an instance, else calls `GetAllFriends()` |
| Adapter.WeChatAdapter.GetGroupList | app/wechat_adapter.py:1223-1249 | raises without an instance, else performs `GroupListStep` |
| ControlPanel.Classify | app/app_ui.py:63-79 | a line counts as a success exactly when it is a completed request, not a poll, with a 200/201 status and the status label; as an error exactly when it is instead a 400/401/404/500 one; otherwise not at all |
| ControlPanel.PollsAreNotCounted | app/app_ui.py:68-70 | the status and new-message polls are never counted |
| ControlPanel.Tally | app/app_ui.py:641-649 | a run of lines adds at most one count per line |
| ControlPanel.TallySnoc | app/app_ui.py:641-649 | one more line adds that line's count |
| ControlPanel.TallyIgnoresUncounted | app/app_ui.py:63-79 | a line that is not counted can be dropped from a run without changing the counts |
| ControlPanel.ApiCounter.constructor | app/app_ui.py:55-57 | both counters start at zero |
| ControlPanel.ApiCounter.Reset | app/app_ui.py:59-61 | both counters become zero |
| ControlPanel.ApiCounter.CountRequest | app/app_ui.py:63-79 | at most one counter goes up by one, as `Classify` says; neither ever goes down |
| ControlPanel.ApiCounter.CountQueued | app/app_ui.py:641-649 | the counters go up by the tally of the queued lines |
| ControlPanel.AnyContained | app/app_ui.py:579-586 | `any(p in line for p in patterns)` holds exactly when some pattern occurs in the line |
| ControlPanel.NonEmpty | app/app_ui.py:591 | the `if k.strip()` filter keeps fewer or as many pieces |
| ControlPanel.NonEmptyMembers | app/app_ui.py:591 | a keyword is kept exactly when it was a piece and is not empty |
| ControlPanel.TrimAll | app/app_ui.py:591 | every piece stripped, in order |
| ControlPanel.Keywords | app/app_ui.py:589-591 | a blank filter gives no keywords |
| ControlPanel.KeywordIsTrimmed | app/app_ui.py:591 | every keyword is non-empty and stripped |
| ControlPanel.KeptPieces | app/app_ui.py:591 | a keyword is kept exactly when it is non-empty and is the strip of some piece |
| ControlPanel.ShouldFilterLog | app/app_ui.py:566-596 | a line is hidden exactly when a set switch matches it, a stack-trace pattern occurs in it, or a keyword occurs in it |
| ControlPanel.KeywordMatches | app/app_ui.py:592-594 | some keyword occurs in the line |
| ControlPanel.DefaultSettingsHideOnlyStackTraces | app/app_ui.py:569-596 | with both switches off and a blank filter, only stack-trace lines are hidden |
| ControlPanel.FilterIsMonotone | app/app_ui.py:569-596 | turning a switch on never shows a line that was hidden |
| ControlPanel.FilterLine | app/app_ui.py:566-596 | the keyword loop decides `ShouldFilterLog` |
| ControlPanel.RewriteAccessLine | app/app_ui.py:1347-1352 | without both markers the line is unchanged; otherwise it is the text before `" - - ["` in the part before the first `'] "'`, then `" - "`, then everything after that |
| ControlPanel.NoBracketInPrefix | app/app_ui.py:1348-1350 | a text with no `]` cannot contain `'] "'` |
| ControlPanel.AccessLineLosesDate | app/app_ui.py:1347-1352 | `ip - - [date] "request` becomes `ip - request` |
| ControlPanel.FirstKey | app/app_ui.py:1556 | `api_keys[0]`: a list's first item, a string's first character, a dictionary's value at key `0`; nothing when that subscript would raise |
| ControlPanel.ApiKey | app/app_ui.py:1544-1560 | the stripped panel key if non-empty; else the first configured key when the list is non-empty; else `"test-key-2"` when the configuration is missing or its `api_keys` is missing or falsy |
| ControlPanel.ParseInt | app/app_ui.py:1515-1516 | `int()` on the stripped text succeeds exactly on digits, with single underscores allowed between digits, and an optional leading sign; digits give their value, `+digits` the same and `-digits` its negation |
| ControlPanel.ShowNat | app/app_ui.py:1515-1516 | `str(n)` is a non-empty run of digits |
| ControlPanel.ShowNatIsDigitString | app/app_ui.py:1515-1516 | `str(n)` is a digit string `int()` accepts |
| ControlPanel.ShowNatValue | app/app_ui.py:1515-1516 | the digits of `str(n)` stand for `n` |
| ControlPanel.ParseShowInt | app/app_ui.py:1515-1516 | `int(str(n)) == n` |
| ControlPanel.WithPortAndKey | app/app_ui.py:1530-1535 | `port` and `api_keys` are set and every other setting is kept |
| ControlPanel.SaveConfig | app/app_ui.py:1498-1542 | the four warnings, in the source's order, write nothing; an unloadable configuration writes nothing; otherwise the configuration is written with the parsed port and the one key |
| ControlPanel.ShownNatParses | app/app_ui.py:1502-1516 | the text of a number strips to itself and parses back |
| ControlPanel.SavePortRoundTrip | app/app_ui.py:1498-1535 | every port in range, typed as `str` writes it, is saved as that number |

## Left out

- The `threading.Lock` and its double-checked locking. The model is sequential, and the single-shot effect is kept.
- `pythoncom` COM set-up, `time.sleep` delays and logging. They are foreign or OS calls with no effect on the results.
- The `builtins.print` patch of the GBK retry. Only the retry itself is modelled, as an outcome of `Selection.Construction`.
- The import of `wxauto`/`wxautox`, its `sys.frozen` and `sys.path` variants, and the `config_manager` import.
  - Each `_try_import_*` is reduced to "installed or not" (`Selection.Availability`).
  - Adapter.WeChatAdapter.TryImport: each `_try_import_*` calls `WeChatLibAdapter.set_lib_name_static` right after setting `_lib_name`. The fallback class defined when `app.logs` is missing has only `set_lib_name`, so there the call would raise after the name is set. `app/logs.py` is not part of this model; `Selection.Availability` treats the library as installed or not and does not capture this partial update.
- The `WxParam` save-path search in `GetNextNewMessage` and `GetListenMessage` (652-653, 878-879). It is filesystem plumbing whose failures are swallowed.
- The `win32gui` window closing in `RemoveListenChat`. It is an OS call whose failure is swallowed.
- `get_instance` and `get_lib_name`. They only read a field; the model reads the field directly.
- The outer `except` branches that no modelled step can reach. Two examples:
  - `get_window_name`'s outer handler, reached when the unguarded `hasattr`/`getattr` of `window_name` (304-305) or a `hasattr` of a later probe raises; in the model reading an attribute never raises, and every call probe catches its own failure;
  - a failing `listen.copy()`.
- Queries.SafeDisplayName: reading an attribute of the library object never raises in the model. In the source, `hasattr(self._instance, "window_name")` and `hasattr(self._instance, "nickname")` (380, 390) sit outside the inner `try`, and Python 3's `hasattr` lets every exception other than `AttributeError` through; the outer handler then returns `self._cached_window_name or ""` (403-405). The model therefore never returns `""`, and does not capture that case.
- Queries.ConnectionVerdict: because of the same assumption, the model does not capture the source's `False` with an instance present, which follows when that outer handler returns `""` with an empty cache (403-405, then 443-445); the model's verdict is exactly "an instance exists".
- `app/api/moments_routes.py`. It is route glue: an instance check, then opaque window calls and JSON building.
- The Tk user interface, the config file I/O, `CONFIG_MODIFIED` and save failures in `app/app_ui.py`.
  - Loading the configuration is a parameter (`None` when it fails), and writing is the `Saved` outcome.
- The byte decoding and the regex timestamp removal in `read_process_output`. They rely on codec and regex-library behaviour.
- The library's own `AddListenChat` is not part of this model. `Backend.Registered` assumes that a successful call adds `who` to the registry, or replaces it in place, with the remaining keywords as its options (`Backend.Upsert`).
- Proxy.ChatWindowMethodOnValues: the proxy route to `chat_window_method` raises in the model, because plain values cannot carry a window object; the window case is modelled by `Adapter.WeChatAdapter.HandleChatWindowMethod`.
- Queries.ProbeDisplayName: falsy probe values are normalised to `""`, since only their truthiness is observed.
- ControlPanel.ParseInt: only ASCII digits are accepted, while Python's `int()` also accepts other Unicode decimal digits. Whitespace needs no handling, because the text is stripped first.
- ControlPanel.ApiKey: `api_keys[0]` on a dictionary looks up the key `0` only; Python would also match `False` and `0.0`, which hash equal.
- ControlPanel.Keywords: its own contract only covers the blank filter; what the keywords are is stated by `ControlPanel.KeywordIsTrimmed` and `ControlPanel.KeptPieces` on the pieces of the split, not on the filter text as a whole.
- Shims.ChatWithStep, Shims.SendMsgStep: their contracts state only that the library object is extended; what they pass on is stated by `Shims.ChatWithKwargs` and `Shims.SendMsgKwargs`.
- Text.Lower: only ASCII letters are lowered; the names it is applied to (`wxautox`, `gbk`, English error words) are ASCII.

## Findings

| source | as written | input that shows it | evidently intended | confidence | as-written member | corrected member |
|---|---|---|---|---|---|---|
| app/wechat_adapter.py:479-490 | `__getattr__` looks up `"_handle_" + name` with `getattr(self, ...)`, which calls `__getattr__` again for the missing attribute, and so on, until `RecursionError`; the pass-through to the library object at line 490 is never reached | any name without a shim, e.g. `GetSessionList` on an instance that has that method | a name without a shim is looked up on the library object (`getattr(self._instance, name)`) | not executed | Proxy.ResolveAsWritten (Proxy.AsWrittenNeverPassesThrough, Proxy.PassThroughExample) | Proxy.Resolve (Proxy.DispatchStep, Adapter.WeChatAdapter.Dispatch) |
