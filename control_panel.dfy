/** The string and counter logic of the desktop control panel: the API call
    counter driven by the server's log lines, the log filter, the rewrite of
    the web server's access lines, the API key the panel uses, and the
    validation of the settings dialog. The Tk widgets are not modelled; the
    values read from them are parameters. */
module ControlPanel {
  import opened Values
  import opened Text

  // ----- The API call counter ------------------------------------------------

  /** The marker of the one log line written per completed request. */
  const CompletionMarker := "请求处理完成:"
  /** The status poll and the new-message poll, which are not counted. */
  const StatusPoll := "GET /api/wechat/status"
  const MessagePoll := "GET /api/message/get-next-new"
  /** The label in front of the status code. */
  const StatusLabel := "状态码:"

  /** What a log line contributes to the counters. */
  datatype RequestKind = NotCounted | Succeeded | Failed

  /** The lines `count_request` returns on at once. */
  predicate Skipped(line: string) {
    !Contains(line, CompletionMarker) || Contains(line, StatusPoll) || Contains(line, MessagePoll)
  }

  /** A 200 or 201 status, with spaces around it so that other numbers do not match. */
  predicate SuccessStatus(line: string) {
    (Contains(line, " 200 ") || Contains(line, " 201 ")) && Contains(line, StatusLabel)
  }

  /** A 400, 401, 404 or 500 status. */
  predicate ErrorStatus(line: string) {
    (Contains(line, " 400 ") || Contains(line, " 401 ") || Contains(line, " 404 ") || Contains(line, " 500 "))
    && Contains(line, StatusLabel)
  }

  /** The counter a line increments, if any. A success status wins over an error status. */
  function Classify(line: string): (k: RequestKind)
    ensures k == Succeeded <==> !Skipped(line) && SuccessStatus(line)
    ensures k == Failed <==> !Skipped(line) && !SuccessStatus(line) && ErrorStatus(line)
    ensures k == NotCounted <==> Skipped(line) || (!SuccessStatus(line) && !ErrorStatus(line))
  {
    if Skipped(line) then NotCounted
    else if SuccessStatus(line) then Succeeded
    else if ErrorStatus(line) then Failed
    else NotCounted
  }

  /** Polls are never counted, whatever their status. */
  lemma PollsAreNotCounted(line: string)
    requires Contains(line, StatusPoll) || Contains(line, MessagePoll)
    ensures Classify(line) == NotCounted
  {
  }

  /** The counts a run of log lines produces, starting from zero. */
  function Tally(lines: seq<string>): (t: (nat, nat))
    ensures t.0 + t.1 <= |lines|
  {
    if lines == [] then (0, 0)
    else
      var t := Tally(lines[..|lines| - 1]);
      match Classify(lines[|lines| - 1])
      case Succeeded => (t.0 + 1, t.1)
      case Failed => (t.0, t.1 + 1)
      case NotCounted => t
  }

  /** Extending a run by one line adds that line's contribution to the tally. */
  lemma TallySnoc(lines: seq<string>, i: nat)
    requires i < |lines|
    ensures Tally(lines[..i + 1]).0 == Tally(lines[..i]).0 + (if Classify(lines[i]) == Succeeded then 1 else 0)
    ensures Tally(lines[..i + 1]).1 == Tally(lines[..i]).1 + (if Classify(lines[i]) == Failed then 1 else 0)
  {
    assert lines[..i + 1][..i] == lines[..i];
    assert lines[..i + 1][i] == lines[i];
  }

  /** Lines that are not counted can be dropped from a run without changing its tally. */
  lemma {:induction false} TallyIgnoresUncounted(lines: seq<string>, line: string, rest: seq<string>)
    requires Classify(line) == NotCounted
    ensures Tally(lines + [line] + rest) == Tally(lines + rest)
    decreases |rest|
  {
    if rest == [] {
      assert (lines + [line] + rest)[..|lines + [line] + rest| - 1] == lines;
      assert lines + rest == lines;
    } else {
      var last := rest[|rest| - 1];
      var front := rest[..|rest| - 1];
      TallyIgnoresUncounted(lines, line, front);
      assert (lines + [line] + rest)[..|lines + [line] + rest| - 1] == lines + [line] + front;
      assert (lines + rest)[..|lines + rest| - 1] == lines + front;
      assert (lines + [line] + rest)[|lines + [line] + rest| - 1] == last;
      assert (lines + rest)[|lines + rest| - 1] == last;
    }
  }

  /** `ApiCounter`: the success and error counts shown in the panel. */
  class ApiCounter {
    var successCount: nat
    var errorCount: nat

    constructor ()
      ensures successCount == 0 && errorCount == 0
    {
      successCount := 0;
      errorCount := 0;
    }

    /** `reset`. */
    method Reset()
      modifies this
      ensures successCount == 0 && errorCount == 0
    {
      successCount := 0;
      errorCount := 0;
    }

    /** `count_request`: at most one counter goes up by one, as `Classify` says. */
    method CountRequest(line: string)
      modifies this
      ensures successCount == old(successCount) + (if Classify(line) == Succeeded then 1 else 0)
      ensures errorCount == old(errorCount) + (if Classify(line) == Failed then 1 else 0)
    {
      if !Contains(line, CompletionMarker) {
        return;
      }
      if Contains(line, StatusPoll) || Contains(line, MessagePoll) {
        return;
      }
      if (Contains(line, " 200 ") || Contains(line, " 201 ")) && Contains(line, StatusLabel) {
        successCount := successCount + 1;
      } else if (Contains(line, " 400 ") || Contains(line, " 401 ") || Contains(line, " 404 ") || Contains(line, " 500 "))
                && Contains(line, StatusLabel) {
        errorCount := errorCount + 1;
      }
    }

    /** The counting part of `update_log`'s loop over the queued log lines:
        the counters go up by the tally of the lines. */
    method CountQueued(lines: seq<string>)
      modifies this
      ensures successCount == old(successCount) + Tally(lines).0
      ensures errorCount == old(errorCount) + Tally(lines).1
    {
      var i := 0;
      while i < |lines|
        invariant 0 <= i <= |lines|
        invariant successCount == old(successCount) + Tally(lines[..i]).0
        invariant errorCount == old(errorCount) + Tally(lines[..i]).1
      {
        TallySnoc(lines, i);
        CountRequest(lines[i]);
        i := i + 1;
      }
      assert lines[..|lines|] == lines;
    }
  }

  // ----- The log filter ----------------------------------------------------------

  /** The filter switches and the comma-separated keywords of the panel. */
  datatype FilterSettings = FilterSettings(hideStatusCheck: bool, hideDebug: bool, customFilter: string)

  const DebugMarker := " - DEBUG - "

  /** The lines of the HTTP server's stack traces, hidden whatever the settings. */
  const StackTracePatterns: seq<string> := [
    "BaseHTTPRequestHandler.handle",
    "handle_one_request",
    "self.run_wsgi",
    "execute(self.server.app)",
    "File \"C:\\Users\\jackson\\AppData\\Local\\miniconda3\\envs\\wxauto-api"
  ]

  /** `any(p in line for p in patterns)`. */
  function AnyContained(patterns: seq<string>, line: string): (r: bool)
    ensures r <==> exists i :: 0 <= i < |patterns| && Contains(line, patterns[i])
  {
    if patterns == [] then false
    else Contains(line, patterns[0]) || AnyContained(patterns[1..], line)
  }

  /** The strings of `xs` that are not empty, in order. */
  function NonEmpty(xs: seq<string>): (r: seq<string>)
    ensures |r| <= |xs|
  {
    if xs == [] then []
    else if xs[0] == "" then NonEmpty(xs[1..])
    else [xs[0]] + NonEmpty(xs[1..])
  }

  /** A string is kept exactly when it is one of `xs` and not empty. */
  lemma {:induction false} NonEmptyMembers(xs: seq<string>)
    ensures forall k :: k in NonEmpty(xs) <==> k in xs && k != ""
  {
    if xs != [] {
      NonEmptyMembers(xs[1..]);
      assert xs == [xs[0]] + xs[1..];
    }
  }

  /** Every piece, trimmed. */
  function TrimAll(pieces: seq<string>): (r: seq<string>)
    ensures |r| == |pieces| && forall i :: 0 <= i < |pieces| ==> r[i] == Strip(pieces[i])
  {
    seq(|pieces|, i requires 0 <= i < |pieces| => Strip(pieces[i]))
  }

  /** The custom keywords, `[k.strip() for k in text.split(',') if k.strip()]`
      on the trimmed filter text; blank filter text has none. */
  function Keywords(customFilter: string): (r: seq<string>)
    ensures Strip(customFilter) == "" ==> r == []
  {
    var text := Strip(customFilter);
    if text == "" then [] else NonEmpty(TrimAll(Split(text, ",")))
  }

  /** Every keyword is non-blank and already trimmed. */
  lemma KeywordIsTrimmed(customFilter: string, k: string)
    requires k in Keywords(customFilter)
    ensures k != "" && Strip(k) == k
  {
    var pieces := Split(Strip(customFilter), ",");
    KeptPieces(pieces, k);
    var i :| 0 <= i < |pieces| && Strip(pieces[i]) == k;
    StripIdempotent(pieces[i]);
  }

  /** A kept keyword is a piece that is not blank, trimmed, and every such
      piece is kept. */
  lemma KeptPieces(pieces: seq<string>, k: string)
    ensures k in NonEmpty(TrimAll(pieces)) <==> k != "" && exists i :: 0 <= i < |pieces| && Strip(pieces[i]) == k
  {
    var trimmed := TrimAll(pieces);
    NonEmptyMembers(trimmed);
    if k in trimmed {
      var i :| 0 <= i < |trimmed| && trimmed[i] == k;
      assert Strip(pieces[i]) == k;
    }
    if exists i :: 0 <= i < |pieces| && Strip(pieces[i]) == k {
      var i :| 0 <= i < |pieces| && Strip(pieces[i]) == k;
      assert trimmed[i] == k;
    }
  }

  /** `should_filter_log`. */
  function ShouldFilterLog(settings: FilterSettings, line: string): (filtered: bool)
    ensures filtered <==>
              || (settings.hideStatusCheck && Contains(line, StatusPoll))
              || (settings.hideDebug && Contains(line, DebugMarker))
              || (exists i :: 0 <= i < |StackTracePatterns| && Contains(line, StackTracePatterns[i]))
              || (exists k :: k in Keywords(settings.customFilter) && Contains(line, k))
  {
    || (settings.hideStatusCheck && Contains(line, StatusPoll))
    || (settings.hideDebug && Contains(line, DebugMarker))
    || AnyContained(StackTracePatterns, line)
    || KeywordMatches(Keywords(settings.customFilter), line)
  }

  /** Some keyword of `keywords` occurs in `line`. */
  function KeywordMatches(keywords: seq<string>, line: string): (r: bool)
    ensures r <==> exists k :: k in keywords && Contains(line, k)
  {
    if keywords == [] then false
    else Contains(line, keywords[0]) || KeywordMatches(keywords[1..], line)
  }

  /** With both switches off and a blank custom filter, only the stack traces are hidden. */
  lemma DefaultSettingsHideOnlyStackTraces(customFilter: string, line: string)
    requires Strip(customFilter) == ""
    ensures ShouldFilterLog(FilterSettings(false, false, customFilter), line)
            <==> exists i :: 0 <= i < |StackTracePatterns| && Contains(line, StackTracePatterns[i])
  {
  }

  /** Turning a switch on or adding keywords never shows a line that was hidden. */
  lemma {:induction false} FilterIsMonotone(s: FilterSettings, t: FilterSettings, line: string)
    requires s.hideStatusCheck ==> t.hideStatusCheck
    requires s.hideDebug ==> t.hideDebug
    requires forall k :: k in Keywords(s.customFilter) ==> k in Keywords(t.customFilter)
    ensures ShouldFilterLog(s, line) ==> ShouldFilterLog(t, line)
  {
    if ShouldFilterLog(s, line) && !AnyContained(StackTracePatterns, line)
       && !(s.hideStatusCheck && Contains(line, StatusPoll)) && !(s.hideDebug && Contains(line, DebugMarker)) {
      var k :| k in Keywords(s.customFilter) && Contains(line, k);
      assert k in Keywords(t.customFilter);
    }
  }

  /** The keywords from `i` on match when the one at `i` does or those after it do. */
  lemma KeywordMatchesFrom(keywords: seq<string>, i: nat, line: string)
    requires i < |keywords|
    ensures KeywordMatches(keywords[i..], line) == (Contains(line, keywords[i]) || KeywordMatches(keywords[i + 1..], line))
  {
    assert keywords[i..][0] == keywords[i] && keywords[i..][1..] == keywords[i + 1..];
  }

  /** The filter's loop over the custom keywords, as the panel runs it. */
  method FilterLine(settings: FilterSettings, line: string) returns (filtered: bool)
    ensures filtered == ShouldFilterLog(settings, line)
  {
    if settings.hideStatusCheck && Contains(line, StatusPoll) {
      return true;
    }
    if settings.hideDebug && Contains(line, DebugMarker) {
      return true;
    }
    if AnyContained(StackTracePatterns, line) {
      return true;
    }
    var keywords := Keywords(settings.customFilter);
    for i := 0 to |keywords|
      invariant KeywordMatches(keywords, line) == KeywordMatches(keywords[i..], line)
    {
      KeywordMatchesFrom(keywords, i, line);
      if Contains(line, keywords[i]) {
        return true;
      }
    }
    return false;
  }

  // ----- The access-line rewrite ----------------------------------------------------

  const AccessSeparator := " - - ["
  const RequestStart := "] \""

  /** The rewrite of a web server access line, `<ip> - - [<date>] "<request>`,
      into `<ip> - <request>`; other lines are kept as they are. */
  function RewriteAccessLine(line: string): (r: string)
    ensures !(Contains(line, AccessSeparator) && Contains(line, RequestStart)) ==> r == line
    ensures Contains(line, AccessSeparator) && Contains(line, RequestStart) ==>
              exists head, request :: line == head + RequestStart + request && !Contains(head, RequestStart)
                                     && r == Before(head, AccessSeparator) + " - " + request
  {
    if Contains(line, AccessSeparator) && Contains(line, RequestStart) then
      var head := Before(line, RequestStart);
      var request := After(line, RequestStart);
      PrefixFree(line, RequestStart, IndexOf(line, RequestStart).value);
      Before(head, AccessSeparator) + " - " + request
    else line
  }

  /** No bracket comes before the end of the date in an access line. */
  lemma NoBracketInPrefix(ip: string, date: string, rest: string)
    requires forall i :: 0 <= i < |ip| ==> ip[i] != ']'
    requires forall i :: 0 <= i < |date| ==> date[i] != ']'
    ensures forall j :: 0 <= j < |ip + AccessSeparator + date| ==> (ip + AccessSeparator + date + rest)[j] != ']'
  {
    var line := ip + AccessSeparator + date + rest;
    forall j | 0 <= j < |ip + AccessSeparator + date| ensures line[j] != ']' {
      if j < |ip| {
        assert line[j] == ip[j];
      } else if j < |ip| + 6 {
        assert line[j] == AccessSeparator[j - |ip|];
      } else {
        assert line[j] == date[j - |ip| - 6];
      }
    }
  }

  /** An access line loses its date and the request's opening quote, when the
      address has no space or bracket and the date no bracket. */
  lemma AccessLineLosesDate(ip: string, date: string, request: string)
    requires forall i :: 0 <= i < |ip| ==> ip[i] != ' ' && ip[i] != ']'
    requires forall i :: 0 <= i < |date| ==> date[i] != ']'
    ensures RewriteAccessLine(ip + AccessSeparator + date + RequestStart + request) == ip + " - " + request
  {
    var head := ip + AccessSeparator + date;
    var line := head + RequestStart + request;
    assert OccursAt(line, RequestStart, |head|) by {
      assert line[|head|..|head| + 3] == RequestStart;
    }
    NoBracketInPrefix(ip, date, RequestStart + request);
    assert line == ip + AccessSeparator + date + (RequestStart + request);
    FirstOccurrence(line, RequestStart, |head|);
    assert Before(line, RequestStart) == head by {
      assert line[..|head|] == head;
    }
    assert OccursAt(line, AccessSeparator, |ip|) by {
      assert line[|ip|..|ip| + 6] == AccessSeparator;
    }
    assert OccursAt(head, AccessSeparator, |ip|) by {
      assert head[|ip|..|ip| + 6] == AccessSeparator;
    }
    assert forall j :: 0 <= j < |ip| ==> head[j] != ' ' by {
      forall j | 0 <= j < |ip| ensures head[j] != ' ' {
        assert head[j] == ip[j];
      }
    }
    FirstOccurrence(head, AccessSeparator, |ip|);
    assert Before(head, AccessSeparator) == ip by {
      assert head[..|ip|] == ip;
    }
    var rest := After(line, RequestStart);
    assert rest == request by {
      assert line == head + RequestStart + rest;
      assert rest == line[|head| + 3..];
      assert request == line[|head| + 3..];
    }
  }

  // ----- The API key ------------------------------------------------------------------

  /** The configuration file's contents, as a dictionary. */
  type Config = map<string, Value>

  const DefaultApiKey := "test-key-2"

  /** `api_keys[0]` on a truthy value; a value that cannot be indexed by 0 raises. */
  function FirstKey(keys: Value): Option<Value> {
    match keys
    case VList(items) => if |items| > 0 then Some(items[0]) else None
    case VStr(s) => if |s| > 0 then Some(VStr([s[0]])) else None
    case VDict(entries) =>
      if exists i :: 0 <= i < |entries| && entries[i].0 == VInt(0) then Some(DictGet(entries, VInt(0), VNone)) else None
    case _ => None
  }

  /** `get_api_key`: the key typed in the panel, trimmed, if there is one; else the
      first of the configuration's `api_keys` when that is non-empty; else the
      default key. A configuration that cannot be loaded (`None`) or read counts
      as having no keys. */
  function ApiKey(uiKey: string, loaded: Option<Config>): (r: Value)
    ensures Strip(uiKey) != "" ==> r == VStr(Strip(uiKey))
    ensures Strip(uiKey) == "" && loaded.Some? && "api_keys" in loaded.value
            && loaded.value["api_keys"].VList? && |loaded.value["api_keys"].items| > 0
            ==> r == loaded.value["api_keys"].items[0]
    ensures Strip(uiKey) == "" && (loaded.None? || "api_keys" !in loaded.value || !Truthy(loaded.value["api_keys"]))
            ==> r == VStr(DefaultApiKey)
  {
    var key := Strip(uiKey);
    if key != "" then VStr(key)
    else match loaded
      case None => VStr(DefaultApiKey)
      case Some(config) =>
        var keys := if "api_keys" in config then config["api_keys"] else EmptyList;
        if Truthy(keys) && FirstKey(keys).Some? then FirstKey(keys).value else VStr(DefaultApiKey)
  }

  // ----- The settings dialog ----------------------------------------------------------

  predicate IsDigit(c: char) {
    '0' <= c <= '9'
  }

  /** The digits of a decimal literal as `int()` accepts them: digits, with single
      underscores between them. */
  predicate DigitString(s: string) {
    && |s| > 0 && IsDigit(s[0]) && IsDigit(s[|s| - 1])
    && (forall i :: 0 <= i < |s| ==> IsDigit(s[i]) || s[i] == '_')
    && (forall i :: 0 <= i < |s| - 1 ==> IsDigit(s[i]) || IsDigit(s[i + 1]))
  }

  /** The number the digits stand for, underscores skipped. */
  function DigitsValue(s: string): nat {
    if s == [] then 0
    else if IsDigit(s[|s| - 1]) then 10 * DigitsValue(s[..|s| - 1]) + (s[|s| - 1] as int - '0' as int)
    else DigitsValue(s[..|s| - 1])
  }

  /** `int(s)` on a trimmed string: an optional sign, then the digits. Anything
      else raises `ValueError` (`None`). */
  function ParseInt(s: string): (r: Option<int>)
    ensures r.Some? ==> |s| > 0
    ensures r.Some? <==> DigitString(s) || (|s| > 0 && (s[0] == '-' || s[0] == '+') && DigitString(s[1..]))
    ensures DigitString(s) ==> r == Some(DigitsValue(s))
    ensures |s| > 0 && s[0] == '+' && DigitString(s[1..]) ==> r == Some(DigitsValue(s[1..]))
    ensures |s| > 0 && s[0] == '-' && DigitString(s[1..]) ==> r == Some(-(DigitsValue(s[1..]) as int))
  {
    if |s| > 0 && (s[0] == '-' || s[0] == '+') then
      var magnitude: int := DigitsValue(s[1..]);
      if DigitString(s[1..]) then Some(if s[0] == '-' then -magnitude else magnitude) else None
    else if DigitString(s) then Some(DigitsValue(s))
    else None
  }

  /** `str(n)` for a natural number. */
  function ShowNat(n: nat): (r: string)
    ensures |r| > 0 && forall i :: 0 <= i < |r| ==> IsDigit(r[i])
  {
    var d := ['0' + (n % 10) as char];
    if n < 10 then d else ShowNat(n / 10) + d
  }

  /** `str(n)`. */
  function ShowInt(n: int): string {
    if n < 0 then "-" + ShowNat(-n) else ShowNat(n)
  }

  /** `str(n)` is a digit string. */
  lemma ShowNatIsDigitString(n: nat)
    ensures DigitString(ShowNat(n)) && ShowNat(n)[0] != '-' && ShowNat(n)[0] != '+'
  {
    var r := ShowNat(n);
    assert IsDigit(r[0]) && IsDigit(r[|r| - 1]);
  }

  lemma {:induction false} ShowNatValue(n: nat)
    ensures DigitsValue(ShowNat(n)) == n
  {
    var r := ShowNat(n);
    assert r[..|r| - 1] == (if n < 10 then "" else ShowNat(n / 10));
    if n >= 10 {
      ShowNatValue(n / 10);
    }
  }

  /** `int(str(n)) == n`. */
  lemma ParseShowInt(n: int)
    ensures ParseInt(ShowInt(n)) == Some(n)
  {
    if n < 0 {
      ShowNatValue(-n);
      ShowNatIsDigitString(-n);
      assert ShowInt(n)[1..] == ShowNat(-n);
    } else {
      ShowNatValue(n);
      ShowNatIsDigitString(n);
    }
  }

  /** What the settings dialog's save does. */
  datatype SaveOutcome =
    | Warned(message: string)       // a warning box; nothing is written
    | Saved(config: Config)         // the configuration written
    | LoadFailed                    // the configuration could not be loaded; nothing is written

  const EmptyPort := "端口号不能为空"
  const EmptyKey := "API Key不能为空"
  const PortOutOfRange := "端口号必须在1-65535之间"
  const PortNotNumber := "端口号必须是数字"

  /** The configuration with `port` set to the number and `api_keys` to the
      one key; every other setting is kept. */
  function WithPortAndKey(config: Config, port: int, key: string): (r: Config)
    ensures r.Keys == config.Keys + {"port", "api_keys"}
    ensures r["port"] == VInt(port) && r["api_keys"] == VList([VStr(key)])
    ensures forall k :: k in config && k != "port" && k != "api_keys" ==> r[k] == config[k]
  {
    config["port" := VInt(port)]["api_keys" := VList([VStr(key)])]
  }

  /** `save_config` on the texts of the port and key fields and the configuration
      as loaded (`None` when loading fails). */
  function SaveConfig(portText: string, keyText: string, loaded: Option<Config>): (r: SaveOutcome)
    ensures Strip(portText) == "" ==> r == Warned(EmptyPort)
    ensures Strip(portText) != "" && Strip(keyText) == "" ==> r == Warned(EmptyKey)
    ensures Strip(portText) != "" && Strip(keyText) != "" && ParseInt(Strip(portText)).None? ==> r == Warned(PortNotNumber)
    ensures (Strip(portText) != "" && Strip(keyText) != "" && ParseInt(Strip(portText)).Some?
             && !(1 <= ParseInt(Strip(portText)).value <= 65535)) ==> r == Warned(PortOutOfRange)
    ensures r == LoadFailed <==>
              Strip(keyText) != "" && ParseInt(Strip(portText)).Some? && 1 <= ParseInt(Strip(portText)).value <= 65535 && loaded.None?
    ensures r.Saved? <==>
              && Strip(keyText) != "" && ParseInt(Strip(portText)).Some?
              && 1 <= ParseInt(Strip(portText)).value <= 65535 && loaded.Some?
    ensures r.Saved? ==> r.config == WithPortAndKey(loaded.value, ParseInt(Strip(portText)).value, Strip(keyText))
  {
    var port := Strip(portText);
    var key := Strip(keyText);
    if port == "" then Warned(EmptyPort)
    else if key == "" then Warned(EmptyKey)
    else match ParseInt(port)
      case None => Warned(PortNotNumber)
      case Some(n) =>
        if n < 1 || n > 65535 then Warned(PortOutOfRange)
        else match loaded
          case None => LoadFailed
          case Some(config) => Saved(WithPortAndKey(config, n, key))
  }

  /** The text `str` writes for a natural number strips to itself and parses back. */
  lemma ShownNatParses(n: nat)
    ensures Strip(ShowInt(n)) == ShowInt(n) && ParseInt(Strip(ShowInt(n))) == Some(n as int)
  {
    var text := ShowInt(n);
    assert text == ShowNat(n);
    assert !IsSpace(text[0]) && !IsSpace(text[|text| - 1]);
    StripKeepsUnpadded(text);
    ParseShowInt(n);
  }

  /** Every port in range, typed as `str` writes it, is saved as that number. */
  lemma SavePortRoundTrip(port: nat, keyText: string, config: Config)
    requires 1 <= port <= 65535 && Strip(keyText) != ""
    ensures SaveConfig(ShowInt(port), keyText, Some(config)).Saved?
    ensures SaveConfig(ShowInt(port), keyText, Some(config)).config["port"] == VInt(port)
  {
    ShownNatParses(port);
    var saved := SaveConfig(ShowInt(port), keyText, Some(config));
    assert saved == Saved(WithPortAndKey(config, port, Strip(keyText)));
  }
}
