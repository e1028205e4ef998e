/** The automation library, seen from the adapter: which of the two libraries
    is in use, and the `WeChat` object it provides. The object is abstract: it
    has data attributes and callable methods, a listen registry, and a script
    that fixes what each successive call does (return a value or raise). Every
    call the adapter makes is recorded, so that contracts can say which calls
    were made with which arguments. */
module Backend {
  import opened Values

  /** The two interchangeable libraries. */
  datatype Lib = WxAuto | WxAutoX

  /** The name the source compares `_lib_name` with. */
  function LibName(lib: Lib): string {
    match lib
    case WxAuto => "wxauto"
    case WxAutoX => "wxautox"
  }

  /** The attributes of the chat-window object registered for a listen target
      (`savepic`, `savefile`, `savevoice`, ...). */
  datatype ListenOpts = ListenOpts(options: Kwargs)

  /** One entry of `listen`, the library's dictionary from chat name to chat window. */
  datatype Entry = Entry(who: string, opts: ListenOpts)

  /** The listen registry, in its insertion order (Python dictionaries keep it). */
  type Registry = seq<Entry>

  /** The chat names the registry holds. */
  function Keys(reg: Registry): set<string> {
    if reg == [] then {} else {reg[0].who} + Keys(reg[1..])
  }

  /** No chat name occurs twice, as in a Python dictionary. */
  predicate DistinctKeys(reg: Registry) {
    reg == [] || (reg[0].who !in Keys(reg[1..]) && DistinctKeys(reg[1..]))
  }

  /** `del listen[who]`: the registry without `who`, in the same order. */
  function RemoveKey(reg: Registry, who: string): (r: Registry)
    ensures Keys(r) == Keys(reg) - {who}
    ensures DistinctKeys(reg) ==> DistinctKeys(r)
    ensures forall e :: e in r <==> e in reg && e.who != who
  {
    if reg == [] then []
    else if reg[0].who == who then RemoveKey(reg[1..], who)
    else
      var rest := RemoveKey(reg[1..], who);
      assert ([reg[0]] + rest)[1..] == rest;
      [reg[0]] + rest
  }

  /** Removal keeps the order of the other entries: it works piece by piece. */
  lemma {:induction false} RemoveKeyDistributes(a: Registry, b: Registry, who: string)
    ensures RemoveKey(a + b, who) == RemoveKey(a, who) + RemoveKey(b, who)
    decreases |a|
  {
    if a == [] {
      assert a + b == b;
    } else {
      var ab := a + b;
      assert ab[0] == a[0] && ab[1..] == a[1..] + b;
      RemoveKeyDistributes(a[1..], b, who);
      if a[0].who != who {
        assert RemoveKey(ab, who) == [a[0]] + (RemoveKey(a[1..], who) + RemoveKey(b, who));
      }
    }
  }

  /** A registry without `who` is left as it is. */
  lemma {:induction false} RemoveAbsentKey(reg: Registry, who: string)
    requires who !in Keys(reg)
    ensures RemoveKey(reg, who) == reg
    decreases |reg|
  {
    if reg != [] {
      RemoveAbsentKey(reg[1..], who);
      assert reg == [reg[0]] + reg[1..];
    }
  }

  /** `listen[who] = opts`: an existing entry is replaced in place, a new one
      goes at the end. */
  function Upsert(reg: Registry, who: string, opts: ListenOpts): (r: Registry)
    ensures Keys(r) == Keys(reg) + {who}
    ensures DistinctKeys(reg) ==> DistinctKeys(r)
    ensures Entry(who, opts) in r
    ensures forall e :: e in r && e.who != who ==> e in reg
    ensures forall e :: e in reg && e.who != who ==> e in r
  {
    if reg == [] then [Entry(who, opts)]
    else if reg[0].who == who then
      assert ([Entry(who, opts)] + reg[1..])[1..] == reg[1..];
      [Entry(who, opts)] + reg[1..]
    else
      var rest := Upsert(reg[1..], who, opts);
      assert ([reg[0]] + rest)[1..] == rest;
      [reg[0]] + rest
  }

  /** One call made on the library object. */
  datatype Call = Call(name: string, args: seq<Value>, kwargs: Kwargs)

  /** The library's `WeChat` object (or a chat-window object). */
  datatype UiObject = UiObject(
    attrs: map<string, Value>,   // data attributes, read with getattr
    methods: set<string>,        // callable methods
    listen: Registry,            // the `listen` dictionary
    script: seq<Outcome>,        // what the next calls do, in order
    calls: seq<Call>)            // the calls made so far

  predicate WellFormed(o: UiObject) {
    o.attrs.Keys !! o.methods && DistinctKeys(o.listen)
  }

  /** `hasattr(o, name)`. */
  predicate HasAttr(o: UiObject, name: string) {
    name in o.attrs || name in o.methods
  }

  /** `getattr(o, name, default)`; a method reads as a (truthy) bound method. */
  function AttrValue(o: UiObject, name: string, default: Value): (r: Value)
    ensures !HasAttr(o, name) ==> r == default
    ensures name !in o.attrs && name in o.methods ==> Truthy(r)
  {
    if name in o.attrs then o.attrs[name]
    else if name in o.methods then VObject("method")
    else default
  }

  /** What `o.name(*args, **kwargs)` raises when `o` has no such method. */
  function NotCallable(o: UiObject, name: string): Exc {
    if name in o.attrs then Error("'" + TypeName(o.attrs[name]) + "' object is not callable")
    else Error("'WeChat' object has no attribute '" + name + "'")
  }

  /** How many of `calls` go to the method `name`. */
  function CountCalls(calls: seq<Call>, name: string): nat {
    if calls == [] then 0
    else CountCalls(calls[..|calls| - 1], name) + (if calls[|calls| - 1].name == name then 1 else 0)
  }

  /** `after` is `before` once some further calls have been made: attributes
      and methods are as they were, and the earlier calls are kept. */
  predicate Extends(before: UiObject, after: UiObject) {
    && after.attrs == before.attrs
    && after.methods == before.methods
    && before.calls <= after.calls
    && (WellFormed(before) ==> WellFormed(after))
  }

  /** A result together with the library object's state after the call. */
  datatype Step = Step(out: Outcome, inst: UiObject)

  /** The chat a successful `AddListenChat` registers: the library keeps a
      chat window for it under its name, with the remaining keyword arguments. */
  function Registered(reg: Registry, args: seq<Value>, kwargs: Kwargs): Registry {
    match Target(args, kwargs)
    case VStr(who) => Upsert(reg, who, ListenOpts(kwargs - {"who"}))
    case _ => reg
  }

  /** `o.name(*args, **kwargs)`. A missing method raises without touching the
      object; otherwise the call is recorded and the next scripted outcome
      happens (a call beyond the script returns None). */
  function Invoke(o: UiObject, name: string, args: seq<Value>, kwargs: Kwargs): (s: Step)
    ensures name !in o.methods ==> s == Step(Raised(NotCallable(o, name)), o)
    ensures name in o.methods ==>
              && s.inst.calls == o.calls + [Call(name, args, kwargs)]
              && s.inst.attrs == o.attrs && s.inst.methods == o.methods
              && s.out == (if |o.script| > 0 then o.script[0] else Returned(VNone))
              && s.inst.script == (if |o.script| > 0 then o.script[1..] else [])
    ensures name != "AddListenChat" || s.out.Raised? ==> s.inst.listen == o.listen
    ensures name == "AddListenChat" && name in o.methods && s.out.Returned? ==>
              s.inst.listen == Registered(o.listen, args, kwargs)
    ensures Extends(o, s.inst)
  {
    if name !in o.methods then Step(Raised(NotCallable(o, name)), o)
    else
      var out := if |o.script| > 0 then o.script[0] else Returned(VNone);
      var listen := if name == "AddListenChat" && out.Returned? then Registered(o.listen, args, kwargs) else o.listen;
      Step(out, o.(listen := listen,
                   script := if |o.script| > 0 then o.script[1..] else [],
                   calls := o.calls + [Call(name, args, kwargs)]))
  }

  /** A call adds one to the count of its own method, when the method exists,
      and leaves every other count alone. */
  lemma InvokeCount(o: UiObject, name: string, args: seq<Value>, kwargs: Kwargs, n: string)
    ensures CountCalls(Invoke(o, name, args, kwargs).inst.calls, n)
            == CountCalls(o.calls, n) + (if n == name && name in o.methods then 1 else 0)
  {
    if name in o.methods {
      var calls := Invoke(o, name, args, kwargs).inst.calls;
      assert calls[..|calls| - 1] == o.calls;
    }
  }

  /** The calls made between two states of the object. */
  function NewCalls(before: UiObject, after: UiObject): seq<Call>
    requires |before.calls| <= |after.calls|
  {
    after.calls[|before.calls|..]
  }
}
