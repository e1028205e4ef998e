/** Choosing the automation library, and building its `WeChat` object. */
module Selection {
  import opened Values
  import opened Text
  import opened Backend

  /** Which libraries can be imported right now (the frozen-build import or the
      development-time detector, whichever applies). */
  datatype Availability = Availability(wxauto: bool, wxautox: bool)

  predicate Available(avail: Availability, lib: Lib) {
    match lib
    case WxAuto => avail.wxauto
    case WxAutoX => avail.wxautox
  }

  /** The text of the `ImportError` raised when no library loads. */
  const ImportFailure: Exc := Error("无法导入wxauto库，请确保已正确安装")

  /** The request names the extended library, in any letter case. */
  predicate RequestsExtended(requested: string) {
    Lower(requested) == "wxautox"
  }

  /** The libraries tried for a request, in the order they are tried. */
  function Attempts(requested: string): seq<Lib> {
    if RequestsExtended(requested) then [WxAutoX, WxAuto] else [WxAuto]
  }

  /** The first library of `libs` that is available. */
  function FirstAvailable(libs: seq<Lib>, avail: Availability): (r: Option<Lib>)
    ensures r.Some? ==> r.value in libs && Available(avail, r.value)
    ensures r.None? <==> forall i :: 0 <= i < |libs| ==> !Available(avail, libs[i])
  {
    if libs == [] then None
    else if Available(avail, libs[0]) then Some(libs[0])
    else FirstAvailable(libs[1..], avail)
  }

  /** The library `_perform_initialization` settles on, or None when it raises
      `ImportError`: the extended library is tried only on request, with the
      standard one as its fallback; the standard one has no fallback. */
  function SelectBackend(requested: string, avail: Availability): (r: Option<Lib>)
    ensures r.Some? ==> Available(avail, r.value)
    ensures r == Some(WxAutoX) ==> RequestsExtended(requested)
    ensures RequestsExtended(requested) && avail.wxautox ==> r == Some(WxAutoX)
    ensures RequestsExtended(requested) && !avail.wxautox && avail.wxauto ==> r == Some(WxAuto)
    ensures !RequestsExtended(requested) ==> r == (if avail.wxauto then Some(WxAuto) else None)
    ensures r.None? <==> !avail.wxauto && (RequestsExtended(requested) ==> !avail.wxautox)
  {
    if RequestsExtended(requested) then
      if avail.wxautox then Some(WxAutoX)
      else if avail.wxauto then Some(WxAuto)
      else None
    else if avail.wxauto then Some(WxAuto)
    else None
  }

  /** Selection is "the first available library among the attempts". */
  lemma SelectBackendIsFirstAttempt(requested: string, avail: Availability)
    ensures SelectBackend(requested, avail) == FirstAvailable(Attempts(requested), avail)
  {
  }

  /** How one call of the library's `WeChat()` constructor ends. */
  datatype Attempt = Built | RaisesUnicodeEncodeError(message: string) | RaisesOther(message: string)

  /** The first construction attempt and, should it be retried, the retry. */
  datatype Construction = Construction(first: Attempt, retry: Attempt)

  /** A `UnicodeEncodeError` that mentions the GBK codec, which the standard
      library's console output raises on Chinese Windows. */
  predicate GbkEncodingFailure(a: Attempt) {
    a.RaisesUnicodeEncodeError? && Contains(Lower(a.message), "gbk")
  }

  /** How many times `WeChat()` is called: the standard library's constructor
      is retried once, after patching `print`, when it fails on GBK output;
      nothing else is retried. */
  function ConstructorCalls(lib: Lib, c: Construction): (n: nat)
    ensures 1 <= n <= 2
    ensures n == 2 <==> lib == WxAuto && GbkEncodingFailure(c.first)
  {
    if lib == WxAuto && GbkEncodingFailure(c.first) then 2 else 1
  }

  /** Whether `initialize` ends up with a `WeChat` object. */
  function Constructs(lib: Lib, c: Construction): (ok: bool)
    ensures c.first.Built? ==> ok
    ensures lib == WxAutoX ==> (ok <==> c.first.Built?)
    ensures ok <==> (c.first.Built? || (ConstructorCalls(lib, c) == 2 && c.retry.Built?))
  {
    match c.first
    case Built => true
    case RaisesUnicodeEncodeError(m) =>
      lib == WxAuto && Contains(Lower(m), "gbk") && c.retry.Built?
    case RaisesOther(_) => false
  }
}
