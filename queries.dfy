/** The adapter's read-only queries on the library object: the display name
    of the logged-in window (with its cache), the session list, the verdict of
    the connection check and the group summaries. */
module Queries {
  import opened Values
  import opened Backend

  // ----- Display name ------------------------------------------------------------

  /** What a probe found (an empty or other falsy value is normalised to `""`:
      only its truthiness is ever looked at) and the library object afterwards. */
  datatype Probe = Probe(name: Value, inst: UiObject)

  /** A probed value as far as it matters. */
  function Found(v: Value): (r: Value)
    ensures Truthy(r) <==> Truthy(v)
    ensures Truthy(v) ==> r == v
    ensures !Truthy(v) ==> r == VStr("")
  {
    if Truthy(v) then v else VStr("")
  }

  /** `getattr(o, attr, "")`, guarded by `hasattr`. */
  function AttrProbe(o: UiObject, attr: string): Value {
    Found(AttrValue(o, attr, VStr("")))
  }

  /** `a.get(k1, "") or a.get(k2, "") or ...` on the entries of a dictionary. */
  function FirstTruthyKey(entries: seq<(Value, Value)>, keys: seq<string>): (r: Value)
    ensures Truthy(r) <==> exists k :: 0 <= k < |keys| && Truthy(KeyValue(entries, keys[k]))
    ensures Truthy(r) ==>
              exists k :: 0 <= k < |keys| && r == KeyValue(entries, keys[k])
                          && forall j :: 0 <= j < k ==> !Truthy(KeyValue(entries, keys[j]))
    decreases |keys|
  {
    if keys == [] then VStr("")
    else
      var rest := FirstTruthyKey(entries, keys[1..]);
      FirstTruthyStep(entries, keys, rest);
      Or(KeyValue(entries, keys[0]), rest)
  }

  /** The first truthy value among the keys after the first stays the first
      truthy one when the first key's value is falsy. */
  lemma FirstTruthyStep(entries: seq<(Value, Value)>, keys: seq<string>, rest: Value)
    requires keys != []
    requires Truthy(rest) <==> exists k :: 0 <= k < |keys[1..]| && Truthy(KeyValue(entries, keys[1..][k]))
    requires Truthy(rest) ==>
               exists k :: 0 <= k < |keys[1..]| && rest == KeyValue(entries, keys[1..][k])
                           && forall j :: 0 <= j < k ==> !Truthy(KeyValue(entries, keys[1..][j]))
    ensures var r := Or(KeyValue(entries, keys[0]), rest);
            && (Truthy(r) <==> exists k :: 0 <= k < |keys| && Truthy(KeyValue(entries, keys[k])))
            && (Truthy(r) ==>
                  exists k :: 0 <= k < |keys| && r == KeyValue(entries, keys[k])
                              && forall j :: 0 <= j < k ==> !Truthy(KeyValue(entries, keys[j])))
  {
    var r := Or(KeyValue(entries, keys[0]), rest);
    forall k | 1 <= k < |keys| ensures keys[1..][k - 1] == keys[k] { }
    if Truthy(r) && !Truthy(KeyValue(entries, keys[0])) {
      var k :| 0 <= k < |keys[1..]| && rest == KeyValue(entries, keys[1..][k])
               && forall j :: 0 <= j < k ==> !Truthy(KeyValue(entries, keys[1..][j]));
      assert keys[1..][k] == keys[k + 1];
      forall j | 1 <= j < k + 1 ensures !Truthy(KeyValue(entries, keys[j])) {
        assert keys[1..][j - 1] == keys[j];
      }
    }
  }

  /** `d.get(key, "")`. */
  function KeyValue(entries: seq<(Value, Value)>, key: string): Value {
    DictGet(entries, VStr(key), VStr(""))
  }

  /** The name inside an information dictionary a method returned: only a
      non-empty dictionary is looked into; a failure finds nothing. */
  function InfoName(out: Outcome, keys: seq<string>): (r: Value)
    ensures !out.Returned? || !out.value.VDict? || !Truthy(out.value) ==> r == VStr("")
    ensures out.Returned? && out.value.VDict? && Truthy(out.value) ==> r == Found(FirstTruthyKey(out.value.entries, keys))
    ensures Truthy(r) || r == VStr("")
  {
    if out.Returned? && Truthy(out.value) && out.value.VDict? then Found(FirstTruthyKey(out.value.entries, keys))
    else VStr("")
  }

  /** Calls the method `name` without arguments, as `get_window_name` does, and
      keeps what it returned unless it raised. */
  function CallProbe(o: UiObject, name: string): (p: Probe)
    ensures Extends(o, p.inst)
    ensures p.inst == Invoke(o, name, [], map[]).inst
    ensures Invoke(o, name, [], map[]).out.Returned? ==> p.name == Found(Invoke(o, name, [], map[]).out.value)
    ensures Invoke(o, name, [], map[]).out.Raised? ==> p.name == VStr("")
  {
    var s := Invoke(o, name, [], map[]);
    Probe(if s.out.Returned? then Found(s.out.value) else VStr(""), s.inst)
  }

  /** The probes of `get_window_name`, in order, each tried only while nothing
      has been found: the `window_name` attribute, `GetWindowName()`, the
      `nickname` attribute, the nickname, name or title in `ChatInfo()`, and
      (extended library only) the nickname or name in `GetMyInfo()`. Every
      failure is swallowed. */
  function ProbeDisplayName(extended: bool, o: UiObject): (p: Probe)
    ensures Extends(o, p.inst)
    ensures Truthy(p.name) || p.name == VStr("")
    ensures Truthy(AttrValue(o, "window_name", VStr(""))) ==> p == Probe(AttrValue(o, "window_name", VStr("")), o)
    ensures (!Truthy(AttrValue(o, "window_name", VStr(""))) && !HasAttr(o, "GetWindowName")
             && Truthy(AttrValue(o, "nickname", VStr("")))) ==> p == Probe(AttrValue(o, "nickname", VStr("")), o)
    // the stages after a falsy `window_name`, each reached only when every earlier one found nothing
    ensures var named := WindowNameCall(o);
            var nick := AttrProbe(o, "nickname");
            && (!Truthy(AttrProbe(o, "window_name")) && Truthy(named.name) ==> p == named)
            && (!Truthy(AttrProbe(o, "window_name")) && !Truthy(named.name) && Truthy(nick) ==>
                  p == Probe(nick, named.inst))
            && (!Truthy(AttrProbe(o, "window_name")) && !Truthy(named.name) && !Truthy(nick) ==>
                  p == InfoProbes(extended, named.inst))
  {
    var first := AttrProbe(o, "window_name");
    if Truthy(first) then Probe(first, o)
    else
      var second := WindowNameCall(o);
      if Truthy(second.name) then second
      else
        var third := AttrProbe(second.inst, "nickname");
        if Truthy(third) then Probe(third, second.inst)
        else InfoProbes(extended, second.inst)
  }

  /** `GetWindowName()` when the object has it; nothing found otherwise. */
  function WindowNameCall(o: UiObject): Probe {
    if HasAttr(o, "GetWindowName") then CallProbe(o, "GetWindowName") else Probe(VStr(""), o)
  }

  /** The last probes of `get_window_name`: `ChatInfo()`, then `GetMyInfo()`
      when the extended library is in use and its object has the method. */
  function InfoProbes(extended: bool, o: UiObject): (p: Probe)
    ensures Extends(o, p.inst)
    ensures Truthy(p.name) || p.name == VStr("")
    ensures var info := Invoke(o, "ChatInfo", [], map[]);
            var fromInfo := InfoName(info.out, ["nickname", "name", "title"]);
            var mine := Invoke(info.inst, "GetMyInfo", [], map[]);
            && (Truthy(fromInfo) ==> p == Probe(fromInfo, info.inst))
            && (!Truthy(fromInfo) && extended && HasAttr(info.inst, "GetMyInfo") ==>
                  p == Probe(InfoName(mine.out, ["nickname", "name"]), mine.inst))
            && (!Truthy(fromInfo) && !(extended && HasAttr(info.inst, "GetMyInfo")) ==> p == Probe(VStr(""), info.inst))
  {
    var info := Invoke(o, "ChatInfo", [], map[]);
    var fourth := InfoName(info.out, ["nickname", "name", "title"]);
    if Truthy(fourth) then Probe(fourth, info.inst)
    else if extended && HasAttr(info.inst, "GetMyInfo") then
      var mine := Invoke(info.inst, "GetMyInfo", [], map[]);
      Probe(InfoName(mine.out, ["nickname", "name"]), mine.inst)
    else Probe(VStr(""), info.inst)
  }

  /** `GetMyInfo` is asked only when the extended library is in use. */
  lemma {:induction false} MyInfoOnlyWhenExtended(o: UiObject)
    ensures CountCalls(ProbeDisplayName(false, o).inst.calls, "GetMyInfo") == CountCalls(o.calls, "GetMyInfo")
  {
    var p := ProbeDisplayName(false, o);
    if !Truthy(AttrProbe(o, "window_name")) {
      var second := WindowNameCall(o);
      assert CountCalls(second.inst.calls, "GetMyInfo") == CountCalls(o.calls, "GetMyInfo") by {
        InvokeCount(o, "GetWindowName", [], map[], "GetMyInfo");
      }
      if !Truthy(second.name) && !Truthy(AttrProbe(second.inst, "nickname")) {
        assert p == InfoProbes(false, second.inst);
        InfoProbesWithoutMyInfo(second.inst);
      }
    }
  }

  lemma InfoProbesWithoutMyInfo(o: UiObject)
    ensures CountCalls(InfoProbes(false, o).inst.calls, "GetMyInfo") == CountCalls(o.calls, "GetMyInfo")
  {
    InvokeCount(o, "ChatInfo", [], map[], "GetMyInfo");
  }

  /** What `get_window_name` returns once an instance exists: a name just found,
      else the cached one, else `"微信"`. */
  function DisplayName(found: Value, cache: Value): (r: Value)
    ensures Truthy(r)
    ensures Truthy(found) ==> r == found
    ensures !Truthy(found) && Truthy(cache) ==> r == cache
    ensures !Truthy(found) && !Truthy(cache) ==> r == VStr("微信")
  {
    if Truthy(found) then found else if Truthy(cache) then cache else VStr("微信")
  }

  /** The cache after a probe: overwritten only by a name just found. */
  function NextCache(found: Value, cache: Value): (r: Value)
    ensures r == found || r == cache
    ensures r != cache ==> Truthy(r)
    ensures Truthy(cache) ==> Truthy(r)
  {
    if Truthy(found) then found else cache
  }

  /** After `get_window_name` the returned name is the cached one, unless
      nothing was ever found and the default `"微信"` is returned. */
  lemma ReturnedNameIsCached(found: Value, cache: Value)
    ensures Truthy(NextCache(found, cache)) ==> DisplayName(found, cache) == NextCache(found, cache)
    ensures !Truthy(NextCache(found, cache)) ==> DisplayName(found, cache) == VStr("微信")
  {
  }

  /** A probe that finds nothing leaves the cache alone and returns it when set. */
  lemma FailedProbeUsesCache(found: Value, cache: Value)
    requires !Truthy(found) && Truthy(cache)
    ensures NextCache(found, cache) == cache && DisplayName(found, cache) == cache
  {
  }

  /** The probe `initialize` makes on a new instance: the `window_name`
      attribute, else `GetWindowName()` (a failure finds nothing). */
  function InitialWindowName(o: UiObject): (p: Probe)
    ensures Extends(o, p.inst)
    ensures HasAttr(o, "window_name") ==> p == Probe(AttrProbe(o, "window_name"), o)
    ensures !HasAttr(o, "window_name") && HasAttr(o, "GetWindowName") ==> p == CallProbe(o, "GetWindowName")
    ensures !HasAttr(o, "window_name") && !HasAttr(o, "GetWindowName") ==> p == Probe(VStr(""), o)
  {
    if HasAttr(o, "window_name") then Probe(AttrProbe(o, "window_name"), o)
    else if HasAttr(o, "GetWindowName") then CallProbe(o, "GetWindowName")
    else Probe(VStr(""), o)
  }

  /** A name returned by `_safe_get_window_name` and the cache afterwards. */
  datatype Named = Named(name: Value, cache: Value)

  /** `_safe_get_window_name`: the cache first; then the `window_name` and
      `nickname` attributes, a truthy one being cached; else `"微信"`. It reads
      attributes only and calls nothing. */
  function SafeDisplayName(cache: Value, inst: Option<UiObject>): (r: Named)
    ensures Truthy(r.name)
    ensures Truthy(cache) ==> r == Named(cache, cache)
    ensures r.cache == cache || r.cache == r.name
    ensures inst.None? && !Truthy(cache) ==> r == Named(VStr("微信"), cache)
    ensures !Truthy(cache) && inst.Some? && Truthy(AttrProbe(inst.value, "window_name")) ==>
              r == Named(AttrProbe(inst.value, "window_name"), AttrProbe(inst.value, "window_name"))
    ensures !Truthy(cache) && inst.Some? && !Truthy(AttrProbe(inst.value, "window_name"))
            && Truthy(AttrProbe(inst.value, "nickname")) ==>
              r == Named(AttrProbe(inst.value, "nickname"), AttrProbe(inst.value, "nickname"))
    ensures (!Truthy(cache) && inst.Some? && !Truthy(AttrProbe(inst.value, "window_name"))
             && !Truthy(AttrProbe(inst.value, "nickname"))) ==> r == Named(VStr("微信"), cache)
  {
    if Truthy(cache) then Named(cache, cache)
    else if inst.Some? && Truthy(AttrProbe(inst.value, "window_name")) then
      Named(AttrProbe(inst.value, "window_name"), AttrProbe(inst.value, "window_name"))
    else if inst.Some? && Truthy(AttrProbe(inst.value, "nickname")) then
      Named(AttrProbe(inst.value, "nickname"), AttrProbe(inst.value, "nickname"))
    else Named(Or(cache, VStr("微信")), cache)
  }

  // ----- Session list and connection -----------------------------------------------

  /** `_safe_get_session_list`: `GetSessionList()` when the object has it; a
      missing method or a failure reads as None. */
  function SessionListProbe(o: UiObject): (s: Step)
    ensures s.out.Returned?
    ensures Extends(o, s.inst)
    ensures !HasAttr(o, "GetSessionList") ==> s == Step(Returned(VNone), o)
    ensures HasAttr(o, "GetSessionList") ==>
              var call := Invoke(o, "GetSessionList", [], map[]);
              s.inst == call.inst && (call.out.Returned? ==> s.out == call.out)
                && (call.out.Raised? ==> s.out == Returned(VNone))
  {
    if !HasAttr(o, "GetSessionList") then Step(Returned(VNone), o)
    else
      var call := Invoke(o, "GetSessionList", [], map[]);
      if call.out.Raised? then Step(Returned(VNone), call.inst) else call
  }

  /** The verdict of `check_connection`: an instance must exist and
      `_safe_get_window_name` must give a non-empty name; the session list
      that follows cannot change the verdict. */
  function ConnectionVerdict(inst: Option<UiObject>, cache: Value): (connected: bool)
    ensures connected <==> inst.Some?
  {
    inst.Some? && Truthy(SafeDisplayName(cache, inst).name)
  }

  // ----- Group list ------------------------------------------------------------------

  /** What `for x in v` goes through: the items of a list, the keys of a
      dictionary, the characters of a string; None for the rest. */
  function Elements(v: Value): (r: Option<seq<Value>>)
    ensures v.VList? ==> r == Some(v.items)
    ensures v.VDict? ==> r.Some? && |r.value| == |v.entries|
    ensures v.VDict? ==> forall i :: 0 <= i < |v.entries| ==> r.value[i] == v.entries[i].0
    ensures v.VStr? ==> r.Some? && |r.value| == |v.s| && forall i :: 0 <= i < |v.s| ==> r.value[i] == VStr([v.s[i]])
    ensures r.None? <==> !(v.VList? || v.VDict? || v.VStr?)
  {
    match v
    case VList(items) => Some(items)
    case VDict(entries) => Some(seq(|entries|, i requires 0 <= i < |entries| => entries[i].0))
    case VStr(s) => Some(seq(|s|, i requires 0 <= i < |s| => VStr([s[i]])))
    case _ => None
  }

  function NotIterable(v: Value): Exc {
    Error("'" + TypeName(v) + "' object is not iterable")
  }

  /** `key in d` for the entries of a dictionary. */
  predicate HasKey(entries: seq<(Value, Value)>, key: Value) {
    exists i :: 0 <= i < |entries| && entries[i].0 == key
  }

  /** `group[key]`: a dictionary without the key raises `KeyError`, anything
      but a dictionary raises `TypeError`. */
  function Subscript(group: Value, key: string): (r: Outcome)
    ensures r.Returned? <==> group.VDict? && HasKey(group.entries, VStr(key))
    ensures r.Returned? ==> r.value == DictGet(group.entries, VStr(key), VNone)
  {
    match group
    case VDict(entries) =>
      if HasKey(entries, VStr(key)) then Returned(DictGet(entries, VStr(key), VNone))
      else Raised(Error("'" + key + "'"))
    case VList(_) => Raised(Error("list indices must be integers or slices, not str"))
    case VStr(_) => Raised(Error("string indices must be integers, not 'str'"))
    case _ => Raised(Error("'" + TypeName(group) + "' object is not subscriptable"))
  }

  /** The summary of one group: its `name` and `member_count`, read in that order. */
  function SummaryOf(group: Value): Outcome {
    var name := Subscript(group, "name");
    if name.Raised? then name
    else
      var count := Subscript(group, "member_count");
      if count.Raised? then count
      else Returned(VDict([(VStr("name"), name.value), (VStr("member_count"), count.value)]))
  }

  /** A group is summarised exactly when it is a dictionary with both keys, as
      the two values read from it; otherwise the first failed read is the error. */
  lemma SummaryOfMeaning(group: Value)
    ensures SummaryOf(group).Returned? <==>
              group.VDict? && HasKey(group.entries, VStr("name")) && HasKey(group.entries, VStr("member_count"))
    ensures SummaryOf(group).Returned? ==>
              SummaryOf(group).value == VDict([(VStr("name"), DictGet(group.entries, VStr("name"), VNone)),
                                               (VStr("member_count"), DictGet(group.entries, VStr("member_count"), VNone))])
    ensures SummaryOf(group).Raised? ==>
              SummaryOf(group) == (if Subscript(group, "name").Raised? then Subscript(group, "name")
                                   else Subscript(group, "member_count"))
  {
  }

  /** The results of `f` on every element, in order, or the first failure:
      the shape of a loop that appends one result per element and stops at
      the first exception. */
  function Collect(xs: seq<Value>, f: Value -> Outcome): (r: Outcome)
    ensures r.Returned? ==> r.value.VList?
  {
    if xs == [] then Returned(VList([]))
    else
      var first := f(xs[0]);
      if first.Raised? then first else Prepend([first.value], Collect(xs[1..], f))
  }

  /** The list `done` of results already made, in front of the outcome of the rest. */
  function Prepend(done: seq<Value>, rest: Outcome): (r: Outcome)
    requires rest.Returned? ==> rest.value.VList?
    ensures r.Raised? <==> rest.Raised?
    ensures r.Raised? ==> r == rest
    ensures r.Returned? ==> r.value == VList(done + rest.value.items)
  {
    if rest.Raised? then rest else Returned(VList(done + rest.value.items))
  }

  /** Prepending a list and then one more result is prepending both at once. */
  lemma PrependTwice(done: seq<Value>, v: Value, rest: Outcome)
    requires rest.Returned? ==> rest.value.VList?
    ensures Prepend(done, Prepend([v], rest)) == Prepend(done + [v], rest)
  {
    if rest.Returned? {
      assert done + ([v] + rest.value.items) == done + [v] + rest.value.items;
    }
  }

  /** One step of the collection from index `i` on. */
  lemma CollectFrom(xs: seq<Value>, f: Value -> Outcome, i: nat)
    requires i < |xs|
    ensures Collect(xs[i..], f) == if f(xs[i]).Raised? then f(xs[i]) else Prepend([f(xs[i]).value], Collect(xs[i + 1..], f))
  {
    assert xs[i..][0] == xs[i] && xs[i..][1..] == xs[i + 1..];
  }

  /** The collection succeeds exactly when `f` succeeds on every element. */
  lemma {:induction false} CollectedIffAllReturned(xs: seq<Value>, f: Value -> Outcome)
    ensures Collect(xs, f).Returned? <==> forall j :: 0 <= j < |xs| ==> f(xs[j]).Returned?
    decreases |xs|
  {
    if xs != [] {
      var rest := xs[1..];
      CollectedIffAllReturned(rest, f);
      if forall j :: 0 <= j < |xs| ==> f(xs[j]).Returned? {
        forall j | 0 <= j < |rest| ensures f(rest[j]).Returned? {
          assert rest[j] == xs[j + 1];
        }
      } else {
        var k :| 0 <= k < |xs| && !f(xs[k]).Returned?;
        if k > 0 {
          assert rest[k - 1] == xs[k];
        }
      }
    }
  }

  /** A successful collection lists the results of `f`, one per element, in order. */
  lemma {:induction false} CollectedInOrder(xs: seq<Value>, f: Value -> Outcome)
    ensures Collect(xs, f).Returned? ==>
              |Collect(xs, f).value.items| == |xs|
              && forall j :: 0 <= j < |xs| ==> f(xs[j]) == Returned(Collect(xs, f).value.items[j])
    decreases |xs|
  {
    if xs != [] && Collect(xs, f).Returned? {
      var rest := xs[1..];
      CollectedInOrder(rest, f);
      var later := Collect(rest, f);
      var items := Collect(xs, f).value.items;
      assert items == [f(xs[0]).value] + later.value.items;
      forall j | 1 <= j < |xs| ensures f(xs[j]) == Returned(items[j]) {
        assert xs[j] == rest[j - 1];
        assert items[j] == later.value.items[j - 1];
      }
    }
  }

  /** A failed collection reports the failure of the first element `f` fails on. */
  lemma {:induction false} FirstFailureReported(xs: seq<Value>, f: Value -> Outcome)
    ensures Collect(xs, f).Raised? ==>
              exists i :: 0 <= i < |xs| && Collect(xs, f) == f(xs[i])
                          && forall j :: 0 <= j < i ==> f(xs[j]).Returned?
    decreases |xs|
  {
    if xs != [] && Collect(xs, f).Raised? && !f(xs[0]).Raised? {
      var rest := xs[1..];
      FirstFailureReported(rest, f);
      var i :| 0 <= i < |rest| && Collect(rest, f) == f(rest[i])
               && forall j :: 0 <= j < i ==> f(rest[j]).Returned?;
      assert rest[i] == xs[i + 1];
      forall j | 0 <= j < i + 1 ensures f(xs[j]).Returned? {
        if j > 0 {
          assert xs[j] == rest[j - 1];
        }
      }
    }
  }

  /** The summaries of all groups, in order, or the failure of the first group
      that has none. */
  function SummarizeGroups(groups: seq<Value>): Outcome {
    Collect(groups, SummaryOf)
  }

  /** The append loop of `get_group_list`: one summary per group, in order,
      stopping at the first group that has none. */
  method SummarizeGroupsLoop(groups: seq<Value>) returns (r: Outcome)
    ensures r == SummarizeGroups(groups)
  {
    var groupList: seq<Value> := [];
    var i := 0;
    while i < |groups|
      invariant 0 <= i <= |groups|
      invariant SummarizeGroups(groups) == Prepend(groupList, Collect(groups[i..], SummaryOf))
    {
      CollectFrom(groups, SummaryOf, i);
      var summary := SummaryOf(groups[i]);
      if summary.Raised? {
        assert Prepend(groupList, summary) == summary;
        return summary;
      }
      PrependTwice(groupList, summary.value, Collect(groups[i + 1..], SummaryOf));
      groupList := groupList + [summary.value];
      i := i + 1;
    }
    assert groups[i..] == [];
    assert groupList + [] == groupList;
    r := Returned(VList(groupList));
  }

  /** `get_group_list` once an instance exists: `GetAllGroups()`, then a
      summary per group; every failure is raised again. */
  function GroupListStep(o: UiObject): (s: Step)
    ensures Extends(o, s.inst)
    ensures s.inst == Invoke(o, "GetAllGroups", [], map[]).inst
    ensures Invoke(o, "GetAllGroups", [], map[]).out.Raised? ==> s.out == Invoke(o, "GetAllGroups", [], map[]).out
    ensures var call := Invoke(o, "GetAllGroups", [], map[]);
            call.out.Returned? ==>
              && (Elements(call.out.value).None? ==> s.out.Raised?)
              && (Elements(call.out.value).Some? ==> s.out == SummarizeGroups(Elements(call.out.value).value))
  {
    var call := Invoke(o, "GetAllGroups", [], map[]);
    match call.out
    case Raised(_) => call
    case Returned(v) =>
      match Elements(v)
      case None => Step(Raised(NotIterable(v)), call.inst)
      case Some(groups) => Step(SummarizeGroups(groups), call.inst)
  }
}
