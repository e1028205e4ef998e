/** Python values as the adapter and the control panel handle them: keyword
    arguments, results returned by the automation library, and the
    exceptions it raises. */
module Values {

  datatype Option<+T> = None | Some(value: T)

  /** A Python value. Dictionaries keep their insertion order, as Python's do;
      `VChat` is a chat-window object, whose `who` attribute names the chat;
      `VObject` is any other object. */
  datatype Value =
    | VNone
    | VBool(b: bool)
    | VInt(i: int)
    | VStr(s: string)
    | VList(items: seq<Value>)
    | VDict(entries: seq<(Value, Value)>)
    | VChat(who: string)
    | VObject(kind: string)

  /** `type(v).__name__`; a chat window is `wxauto`'s `ChatWnd`. */
  function TypeName(v: Value): string {
    match v
    case VNone => "NoneType"
    case VBool(_) => "bool"
    case VInt(_) => "int"
    case VStr(_) => "str"
    case VList(_) => "list"
    case VDict(_) => "dict"
    case VChat(_) => "ChatWnd"
    case VObject(kind) => kind
  }

  /** Python's `bool(v)`. */
  predicate Truthy(v: Value) {
    match v
    case VNone => false
    case VBool(b) => b
    case VInt(i) => i != 0
    case VStr(s) => s != ""
    case VList(items) => items != []
    case VDict(entries) => entries != []
    case VChat(_) => true
    case VObject(_) => true
  }

  const EmptyList: Value := VList([])
  const EmptyDict: Value := VDict([])

  /** Python's `a or b`: the first operand when it is truthy, else the second. */
  function Or(a: Value, b: Value): (r: Value)
    ensures Truthy(r) <==> Truthy(a) || Truthy(b)
    ensures Truthy(a) ==> r == a
    ensures !Truthy(a) ==> r == b
  {
    if Truthy(a) then a else b
  }

  /** `d.get(key, default)` on the entries of a dictionary. */
  function DictGet(entries: seq<(Value, Value)>, key: Value, default: Value): (r: Value)
    ensures (forall i :: 0 <= i < |entries| ==> entries[i].0 != key) ==> r == default
    ensures (exists i :: 0 <= i < |entries| && entries[i].0 == key) ==>
              exists i :: 0 <= i < |entries| && entries[i].0 == key && r == entries[i].1
    ensures forall i :: 0 <= i < |entries| && entries[i].0 == key && (forall j :: 0 <= j < i ==> entries[j].0 != key) ==>
              r == entries[i].1
  {
    if entries == [] then default
    else if entries[0].0 == key then entries[0].1
    else DictGet(entries[1..], key, default)
  }

  /** Keyword arguments of a call (`**kwargs`). */
  type Kwargs = map<string, Value>

  /** `kwargs.get(key, default)`. */
  function KwGet(kwargs: Kwargs, key: string, default: Value): Value {
    if key in kwargs then kwargs[key] else default
  }

  /** The dictionary holding only those of `keys` that `kwargs` has. */
  function Restrict(kwargs: Kwargs, keys: set<string>): (r: Kwargs)
    ensures r.Keys == kwargs.Keys * keys
    ensures forall k :: k in r ==> r[k] == kwargs[k]
  {
    map k | k in kwargs && k in keys :: kwargs[k]
  }

  /** Widening the kept keys by one adds that key's argument, if it was given. */
  lemma RestrictAdd(kwargs: Kwargs, keys: set<string>, k: string)
    ensures Restrict(kwargs, keys + {k})
            == if k in kwargs then Restrict(kwargs, keys)[k := kwargs[k]] else Restrict(kwargs, keys)
  {
  }

  /** The chat a call is about: `args[0] if args else kwargs.get('who')`. */
  function Target(args: seq<Value>, kwargs: Kwargs): Value {
    if |args| > 0 then args[0] else KwGet(kwargs, "who", VNone)
  }

  /** An exception: `str(e)` and the text `traceback.format_exc()` gives for it. */
  datatype Exc = Exc(message: string, traceback: string)

  /** What a call does: return a value or raise. */
  datatype Outcome = Returned(value: Value) | Raised(error: Exc)

  function Error(message: string): Exc {
    Exc(message, "")
  }
}
