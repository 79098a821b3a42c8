/** The JSON text of a run's outcome, and that it survives extraction (section 7 of RFC 8259 for its strings). */
module RunOutcome {
  import opened Wrappers
  import opened Texts
  import opened JsonText
  import opened Sequences

  datatype RunStatus = Completed | Interrupted | Failed | Cancelled

  datatype RunFinishReason =
    | Stop | ToolLimit | InvalidInput | UserCancelled | Timeout | ContextOverflow | ProviderError
    | TransportError | InternalError

  datatype RunSeverity = Info | Warning | Error

  datatype RetryMode =
    | NoRetry | RetrySame | ContinueRun | CompactAndRetry | AdjustSettings | ChangeModel | Reauthenticate

  datatype RetryAdvice = RetryAdvice(available: bool, mode: RetryMode, requiresUserConfirmation: bool,
                                     afterSeconds: int, reason: string)

  datatype Outcome = Outcome(
    status: RunStatus, reason: RunFinishReason, severity: RunSeverity, code: string, source: string, message: string,
    detailsJson: string, retry: RetryAdvice)

  function StatusText(s: RunStatus): string {
    match s
    case Completed => "completed"
    case Interrupted => "interrupted"
    case Failed => "failed"
    case Cancelled => "cancelled"
  }

  function ReasonText(r: RunFinishReason): string {
    match r
    case Stop => "stop"
    case ToolLimit => "tool_limit"
    case InvalidInput => "invalid_input"
    case UserCancelled => "user_cancelled"
    case Timeout => "timeout"
    case ContextOverflow => "context_overflow"
    case ProviderError => "provider_error"
    case TransportError => "transport_error"
    case InternalError => "internal_error"
  }

  function SeverityText(s: RunSeverity): string {
    match s case Info => "info" case Warning => "warning" case Error => "error"
  }

  function ModeText(m: RetryMode): string {
    match m
    case NoRetry => "none"
    case RetrySame => "retry_same"
    case ContinueRun => "continue_run"
    case CompactAndRetry => "compact_and_retry"
    case AdjustSettings => "adjust_settings"
    case ChangeModel => "change_model"
    case Reauthenticate => "reauthenticate"
  }

  // ---------------------------------------------------------------- escaping

  function EscapeChar(c: char): string {
    if c == '"' then "\\\""
    else if c == '\\' then "\\\\"
    else if c == '\n' then "\\n"
    else if c == '\r' then "\\r"
    else if c == '\t' then "\\t"
    else if c < ' ' then " "
    else [c]
  }

  function Escape(s: string): string {
    if s == [] then [] else EscapeChar(s[0]) + Escape(s[1..])
  }

  method EscapeJsonString(value: string) returns (out: string)
    ensures out == Escape(value)
  {
    out := "";
    var i := 0;
    while i < |value|
      invariant 0 <= i <= |value| && Escape(value) == out + Escape(value[i..])
    {
      var ch := value[i];
      var piece;
      if ch == '"' {
        piece := "\\\"";
      } else if ch == '\\' {
        piece := "\\\\";
      } else if ch == '\n' {
        piece := "\\n";
      } else if ch == '\r' {
        piece := "\\r";
      } else if ch == '\t' {
        piece := "\\t";
      } else if ch < ' ' {
        piece := " ";
      } else {
        piece := [ch];
      }
      EscapeStep(out, piece, value, i);
      out := out + piece;
      i := i + 1;
    }
  }

  lemma EscapeStep(out: string, piece: string, value: string, i: nat)
    requires i < |value| && piece == EscapeChar(value[i])
    ensures out + Escape(value[i..]) == out + piece + Escape(value[i + 1..])
  {
    assert value[i..][0] == value[i] && value[i..][1..] == value[i + 1..];
  }

  function Unescaped(c: char): char {
    if c == 'n' then '\n'
    else if c == 'r' then '\r'
    else if c == 't' then '\t'
    else if c == 'b' then 8 as char
    else if c == 'f' then 12 as char
    else c
  }

  /** What a JSON reader makes of a string body without \u escapes. */
  function Read(body: string): string {
    if body == [] then []
    else if body[0] == '\\' && |body| >= 2 then [Unescaped(body[1])] + Read(body[2..])
    else [body[0]] + Read(body[1..])
  }

  /** Control characters other than newline, return and tab come out as blanks. */
  function Sanitized(s: string): string {
    if s == [] then []
    else [if s[0] < ' ' && s[0] != '\n' && s[0] != '\r' && s[0] != '\t' then ' ' else s[0]] + Sanitized(s[1..])
  }

  lemma {:induction false} SanitizedIs(s: string)
    ensures |Sanitized(s)| == |s|
    ensures forall i | 0 <= i < |s| ::
              Sanitized(s)[i] == if s[i] < ' ' && s[i] !in "\n\r\t" then ' ' else s[i]
  {
    if s != [] {
      SanitizedIs(s[1..]);
      assert forall i | 0 < i < |s| :: s[i] == s[1..][i - 1];
    }
  }

  lemma PieceReads(c: char, rest: string)
    requires StringBody(rest)
    ensures StringBody(EscapeChar(c) + rest)
    ensures Read(EscapeChar(c) + rest) == Sanitized([c]) + Read(rest)
  {
    var e := EscapeChar(c);
    var t := e + rest;
    assert t[|e|..] == rest && [c][1..] == [];
    if |e| == 2 {
      assert t[0] == '\\' && t[1] == e[1];
    } else {
      assert t[0] == e[0];
    }
  }

  lemma SanitizedStep(s: string)
    requires s != []
    ensures Sanitized(s) == Sanitized([s[0]]) + Sanitized(s[1..])
  {
    assert [s[0]][1..] == [];
  }

  lemma {:induction false} NoRawNewline(s: string)
    ensures '\n' !in Escape(s)
  {
    if s != [] {
      NoRawNewline(s[1..]);
    }
  }

  /** Escaping gives a valid string body that reads back as the text, with no raw line end. */
  lemma {:induction false} EscapeRoundTrip(s: string)
    ensures StringBody(Escape(s)) && Read(Escape(s)) == Sanitized(s) && '\n' !in Escape(s)
  {
    NoRawNewline(s);
    if s != [] {
      EscapeRoundTrip(s[1..]);
      hide StringBody, Read, Sanitized, EscapeChar;
      PieceReads(s[0], Escape(s[1..]));
      SanitizedStep(s);
    }
  }

  // ---------------------------------------------------------------- printing

  /** A field as the printers write it, without blanks. */
  function Entry(key: string, v: Value): Member {
    Member("", key, "", Item("", v, ""))
  }

  function BoolAtom(b: bool): Value {
    Atom(if b then "true" else "false")
  }

  function RetryFields(r: RetryAdvice): seq<Member> {
    [Entry("available", BoolAtom(r.available)), Entry("mode", Str(ModeText(r.mode))),
     Entry("requires_user_confirmation", BoolAtom(r.requiresUserConfirmation)),
     Entry("after_seconds", Atom(IntText(r.afterSeconds)))]
    + if r.reason != "" then [Entry("reason", Str(Escape(r.reason)))] else []
  }

  function RetryValue(r: RetryAdvice): Value {
    Obj("", RetryFields(r))
  }

  function OutcomeFields(o: Outcome): seq<Member> {
    [Entry("status", Str(StatusText(o.status))), Entry("reason", Str(ReasonText(o.reason))),
     Entry("severity", Str(SeverityText(o.severity))), Entry("code", Str(Escape(o.code))),
     Entry("source", Str(Escape(o.source))), Entry("message", Str(Escape(o.message))),
     Entry("retry", RetryValue(o.retry))]
  }

  lemma {:induction false} PrintSnoc(ms: seq<Member>, m: Member)
    requires ms != []
    ensures PrintMembers(ms + [m]) == PrintMembers(ms) + "," + PrintMember(m)
  {
    var r := ms + [m];
    assert r[0] == ms[0] && r[1..] == ms[1..] + [m];
    if |ms| == 1 {
      assert r[1..] == [m];
    } else {
      PrintSnoc(ms[1..], m);
      var a, b, c := PrintMember(ms[0]) + ",", PrintMembers(ms[1..]), "," + PrintMember(m);
      assert b + "," + PrintMember(m) == b + c;
      assert a + (b + c) == a + b + c;
      assert a + b + c == a + b + "," + PrintMember(m);
    }
  }

  lemma PrintEntry(key: string, v: Value)
    ensures PrintMember(Entry(key, v)) == "\"" + key + "\":" + Print(v)
  {
    var p := Print(v);
    assert "" + p + "" == p && "" + Quoted(key) + "" == Quoted(key);
    assert Quoted(key) + ":" == "\"" + key + "\":";
  }

  // The printers write an object from left to right; a string value is open until the next separator closes it.

  predicate Closed(json: string, ms: seq<Member>) {
    ms != [] && json == "{" + PrintMembers(ms)
  }

  predicate Open(json: string, ms: seq<Member>) {
    Closed(json + "\"", ms)
  }

  lemma StartValue(key: string, v: Value)
    ensures Closed("{" + ("\"" + key + "\":") + Print(v), [Entry(key, v)])
  {
    PrintEntry(key, v);
    Assoc("{", "\"" + key + "\":", Print(v));
  }

  lemma StartText(key: string, body: string)
    ensures Open("{" + ("\"" + key + "\":\"") + body, [Entry(key, Str(body))])
  {
    StartValue(key, Str(body));
    assert "{" + ("\"" + key + "\":\"") + body + "\"" == "{" + ("\"" + key + "\":") + Quoted(body);
  }

  lemma ThenValue(json: string, ms: seq<Member>, key: string, v: Value)
    requires Closed(json, ms)
    ensures Closed(json + (",\"" + key + "\":") + Print(v), ms + [Entry(key, v)])
  {
    PrintSnoc(ms, Entry(key, v));
    PrintEntry(key, v);
    var a, p := PrintMembers(ms), Print(v);
    assert "{" + (a + "," + ("\"" + key + "\":" + p)) == ("{" + a) + (",\"" + key + "\":") + p;
  }

  lemma ThenText(json: string, ms: seq<Member>, key: string, body: string)
    requires Closed(json, ms)
    ensures Open(json + (",\"" + key + "\":\"") + body, ms + [Entry(key, Str(body))])
  {
    ThenValue(json, ms, key, Str(body));
    assert json + (",\"" + key + "\":\"") + body + "\"" == json + (",\"" + key + "\":") + Quoted(body);
  }

  lemma CloseThenValue(json: string, ms: seq<Member>, key: string, v: Value)
    requires Open(json, ms)
    ensures Closed(json + ("\",\"" + key + "\":") + Print(v), ms + [Entry(key, v)])
  {
    ThenValue(json + "\"", ms, key, v);
    assert json + ("\",\"" + key + "\":") == json + "\"" + (",\"" + key + "\":");
  }

  lemma CloseThenText(json: string, ms: seq<Member>, key: string, body: string)
    requires Open(json, ms)
    ensures Open(json + ("\",\"" + key + "\":\"") + body, ms + [Entry(key, Str(body))])
  {
    ThenText(json + "\"", ms, key, body);
    assert json + ("\",\"" + key + "\":\"") == json + "\"" + (",\"" + key + "\":\"");
  }

  function BoolText(b: bool): string {
    if b then "true" else "false"
  }

  function RetryJson(r: RetryAdvice): string {
    var json := "{" + "\"available\":" + BoolText(r.available) + ",\"mode\":\"" + ModeText(r.mode)
                + "\",\"requires_user_confirmation\":" + BoolText(r.requiresUserConfirmation)
                + ",\"after_seconds\":" + IntText(r.afterSeconds);
    (if r.reason != "" then json + ",\"reason\":\"" + Escape(r.reason) + "\"" else json) + "}"
  }

  /** The details are pasted in as they are. */
  function ToJson(o: Outcome): string {
    var json := "{" + "\"status\":\"" + StatusText(o.status) + "\",\"reason\":\"" + ReasonText(o.reason)
                + "\",\"severity\":\"" + SeverityText(o.severity) + "\",\"code\":\"" + Escape(o.code)
                + "\",\"source\":\"" + Escape(o.source) + "\",\"message\":\"" + Escape(o.message)
                + "\",\"retry\":" + RetryJson(o.retry);
    (if o.detailsJson != "" then json + ",\"details\":" + o.detailsJson else json) + "}"
  }

  method RetryToJson(retry: RetryAdvice) returns (json: string)
    ensures json == RetryJson(retry)
  {
    json := "{";
    json := json + "\"available\":";
    json := json + (if retry.available then "true" else "false");
    json := json + ",\"mode\":\"";
    json := json + ModeText(retry.mode);
    json := json + "\",\"requires_user_confirmation\":";
    json := json + (if retry.requiresUserConfirmation then "true" else "false");
    json := json + ",\"after_seconds\":";
    json := json + IntText(retry.afterSeconds);
    if retry.reason != "" {
      var escaped := EscapeJsonString(retry.reason);
      json := json + ",\"reason\":\"";
      json := json + escaped;
      json := json + "\"";
    }
    json := json + "}";
  }

  method OutcomeToJson(outcome: Outcome) returns (json: string)
    ensures json == ToJson(outcome)
  {
    var code := EscapeJsonString(outcome.code);
    var source := EscapeJsonString(outcome.source);
    var message := EscapeJsonString(outcome.message);
    var retry := RetryToJson(outcome.retry);
    json := "{";
    json := json + "\"status\":\"";
    json := json + StatusText(outcome.status);
    json := json + "\",\"reason\":\"";
    json := json + ReasonText(outcome.reason);
    json := json + "\",\"severity\":\"";
    json := json + SeverityText(outcome.severity);
    json := json + "\",\"code\":\"";
    json := json + code;
    json := json + "\",\"source\":\"";
    json := json + source;
    json := json + "\",\"message\":\"";
    json := json + message;
    json := json + "\",\"retry\":";
    json := json + retry;
    if outcome.detailsJson != "" {
      json := json + ",\"details\":";
      json := json + outcome.detailsJson;
    }
    json := json + "}";
  }

  // ---------------------------------------------------------------- what is printed is JSON

  function RetryStart(r: RetryAdvice): string {
    "{" + "\"available\":" + BoolText(r.available) + ",\"mode\":\"" + ModeText(r.mode)
  }

  function RetryMiddle(r: RetryAdvice): string {
    RetryStart(r) + "\",\"requires_user_confirmation\":" + BoolText(r.requiresUserConfirmation)
  }

  lemma RetryStartPrints(r: RetryAdvice)
    ensures Open(RetryStart(r), RetryFields(r)[..2])
  {
    var f := RetryFields(r);
    assert "\"available\":" == "\"" + "available" + "\":";
    StartValue("available", BoolAtom(r.available));
    assert ",\"mode\":\"" == ",\"" + "mode" + "\":\"";
    ThenText("{" + "\"available\":" + BoolText(r.available), [f[0]], "mode", ModeText(r.mode));
    assert [f[0]] + [f[1]] == f[..2];
  }

  lemma ConfirmationKey()
    ensures "\",\"requires_user_confirmation\":" == "\",\"" + "requires_user_confirmation" + "\":"
  {
  }

  lemma RetryMiddlePrints(r: RetryAdvice)
    ensures Closed(RetryMiddle(r), RetryFields(r)[..3])
  {
    var f := RetryFields(r);
    RetryStartPrints(r);
    ConfirmationKey();
    CloseThenValue(RetryStart(r), f[..2], "requires_user_confirmation", BoolAtom(r.requiresUserConfirmation));
    assert f[..2] + [f[2]] == f[..3];
  }

  lemma RetryHeadPrints(r: RetryAdvice)
    ensures Closed(RetryMiddle(r) + ",\"after_seconds\":" + IntText(r.afterSeconds), RetryFields(r)[..4])
  {
    var f := RetryFields(r);
    RetryMiddlePrints(r);
    assert ",\"after_seconds\":" == ",\"" + "after_seconds" + "\":";
    ThenValue(RetryMiddle(r), f[..3], "after_seconds", Atom(IntText(r.afterSeconds)));
    assert f[..3] + [f[3]] == f[..4];
  }

  lemma ClosedIsObject(json: string, ms: seq<Member>)
    requires Closed(json, ms)
    ensures json + "}" == Print(Obj("", ms))
  {
    assert "" + PrintMembers(ms) == PrintMembers(ms);
  }

  lemma RetryPrints(r: RetryAdvice)
    ensures RetryJson(r) == Print(RetryValue(r))
  {
    var f := RetryFields(r);
    var head := RetryMiddle(r) + ",\"after_seconds\":" + IntText(r.afterSeconds);
    RetryHeadPrints(r);
    if r.reason != "" {
      assert ",\"reason\":\"" == ",\"" + "reason" + "\":\"";
      ThenText(head, f[..4], "reason", Escape(r.reason));
      assert f[..4] + [f[4]] == f;
      ClosedIsObject(head + ",\"reason\":\"" + Escape(r.reason) + "\"", f);
    } else {
      assert f[..4] == f;
      ClosedIsObject(head, f);
    }
  }

  // ---------------------------------------------------------------- factories

  const ADVICE_NONE := RetryAdvice(false, NoRetry, false, 0, "")

  /** The ways the program makes an outcome. */
  datatype Factory =
    | Succeeded
    | OnInvalidInput(message: string)
    | OnProviderError(http: int, message: string)
    | OnContextOverflow(message: string)
    | OnToolLimit(maxSteps: int, stepsUsed: int, maxToolCalls: int, toolCallsUsed: int,
                  maxToolCallsPerStep: int, toolCallsInStep: int, message: string)
    | OnCancelled(message: string)
    | OnTimeout(message: string)
    | OnInternalError(message: string)

  predicate Retryable(status: int) {
    status == 0 || status == 408 || status == 409 || status == 429 || status >= 500
  }

  function HttpDetails(status: int): string {
    "{" + "\"http_status\":" + IntText(status) + "}"
  }

  function LimitDetails(f: Factory): string
    requires f.OnToolLimit?
  {
    "{" + "\"max_steps\":" + IntText(f.maxSteps)
    + ",\"steps_used\":" + IntText(if f.stepsUsed >= 0 then f.stepsUsed else f.maxSteps)
    + ",\"max_tool_calls\":" + IntText(f.maxToolCalls) + ",\"tool_calls_used\":" + IntText(f.toolCallsUsed)
    + ",\"max_tool_calls_per_step\":" + IntText(f.maxToolCallsPerStep)
    + ",\"tool_calls_in_step\":" + IntText(f.toolCallsInStep) + "}"
  }

  function Build(f: Factory): Outcome {
    match f
    case Succeeded => Outcome(Completed, Stop, Info, "agent.stop", "agent", "Completed", "", ADVICE_NONE)
    case OnInvalidInput(message) =>
      Outcome(Failed, InvalidInput, Error, "agent.invalid_input", "agent", message, "",
              RetryAdvice(true, AdjustSettings, false, 0, "input can be corrected"))
    case OnProviderError(status, message) =>
      Outcome(Failed, ProviderError, Error, "provider.error", "provider", message, HttpDetails(status),
              RetryAdvice(Retryable(status), if Retryable(status) then RetrySame else NoRetry, Retryable(status),
                          if status == 429 then 10 else 0,
                          if Retryable(status) then "provider error may be transient"
                          else "provider error is not retryable"))
    case OnContextOverflow(message) =>
      Outcome(Failed, ContextOverflow, Error, "agent.context_overflow", "agent", message, "",
              RetryAdvice(true, CompactAndRetry, true, 0, "context can be compacted before retry"))
    case OnToolLimit(_, _, _, _, _, _, message) =>
      Outcome(Interrupted, ToolLimit, Warning, "agent.tool_limit", "agent", message, LimitDetails(f),
              RetryAdvice(true, ContinueRun, true, 0, "run can continue with more tool budget"))
    case OnCancelled(message) =>
      Outcome(Cancelled, UserCancelled, Info, "agent.cancelled", "agent", message, "",
              RetryAdvice(true, RetrySame, true, 0, "user may restart the request"))
    case OnTimeout(message) =>
      Outcome(Interrupted, Timeout, Warning, "agent.timeout", "agent", message, "",
              RetryAdvice(true, RetrySame, true, 0, "timeout may be transient"))
    case OnInternalError(message) =>
      Outcome(Failed, InternalError, Error, "agent.internal_error", "agent", message, "",
              RetryAdvice(true, RetrySame, true, 0, "internal error may be transient"))
  }

  // ---------------------------------------------------------------- what the texts and the factories tell

  lemma NamesAre()
    ensures StatusText(Completed) == "completed" && StatusText(Interrupted) == "interrupted"
    ensures StatusText(Failed) == "failed" && StatusText(Cancelled) == "cancelled"
    ensures ReasonText(Stop) == "stop" && ReasonText(ToolLimit) == "tool_limit"
    ensures ReasonText(InvalidInput) == "invalid_input" && ReasonText(UserCancelled) == "user_cancelled"
    ensures ReasonText(Timeout) == "timeout" && ReasonText(ContextOverflow) == "context_overflow"
    ensures ReasonText(ProviderError) == "provider_error" && ReasonText(TransportError) == "transport_error"
    ensures ReasonText(InternalError) == "internal_error"
    ensures SeverityText(Info) == "info" && SeverityText(Warning) == "warning" && SeverityText(Error) == "error"
    ensures ModeText(NoRetry) == "none" && ModeText(RetrySame) == "retry_same"
    ensures ModeText(ContinueRun) == "continue_run" && ModeText(CompactAndRetry) == "compact_and_retry"
    ensures ModeText(AdjustSettings) == "adjust_settings" && ModeText(ChangeModel) == "change_model"
    ensures ModeText(Reauthenticate) == "reauthenticate"
  {
  }

  /** The one factory whose outcome the source calls ok. */
  predicate IsOk(o: Outcome) {
    o.status == Completed && o.reason == Stop
  }

  /** The kind of a factory-built outcome: its reason is its factory's, its severity goes by its status. */
  lemma FactoryTells(f: Factory)
    ensures var o := Build(f);
            && (IsOk(o) <==> f.Succeeded?) && (f.Succeeded? || o.message == f.message)
            && (o.severity == Error <==> o.status == Failed) && (o.severity == Warning <==> o.status == Interrupted)
            && (o.status == Interrupted <==> f.OnToolLimit? || f.OnTimeout?)
            && (o.status == Cancelled <==> f.OnCancelled?)
            && o.reason == match f
                           case Succeeded => Stop
                           case OnInvalidInput(_) => InvalidInput
                           case OnProviderError(_, _) => ProviderError
                           case OnContextOverflow(_) => ContextOverflow
                           case OnToolLimit(_, _, _, _, _, _, _) => ToolLimit
                           case OnCancelled(_) => UserCancelled
                           case OnTimeout(_) => Timeout
                           case OnInternalError(_) => InternalError
  {
    hide HttpDetails, LimitDetails, Retryable;
  }

  /** The code names the source and, but for two, the reason. */
  lemma CodeTells(f: Factory)
    ensures Build(f).source == if f.OnProviderError? then "provider" else "agent"
    ensures Build(f).code == match f
                             case Succeeded => "agent.stop"
                             case OnInvalidInput(_) => "agent.invalid_input"
                             case OnProviderError(_, _) => "provider.error"
                             case OnContextOverflow(_) => "agent.context_overflow"
                             case OnToolLimit(_, _, _, _, _, _, _) => "agent.tool_limit"
                             case OnCancelled(_) => "agent.cancelled"
                             case OnTimeout(_) => "agent.timeout"
                             case OnInternalError(_) => "agent.internal_error"
  {
    hide HttpDetails, LimitDetails, Retryable;
  }

  /**
   The advice is available exactly when it names a way to go on, for all but a success and a provider error that is
   final; only corrected input needs no confirmation, and only a rate limit asks to wait.
   */
  lemma AdviceTells(f: Factory)
    ensures var r := Build(f).retry;
            && (r.available <==> r.mode != NoRetry)
            && (r.available <==> !f.Succeeded? && (f.OnProviderError? ==> Retryable(f.http)))
            && (r.requiresUserConfirmation <==> r.available && !f.OnInvalidInput?)
            && r.afterSeconds == (if f.OnProviderError? && f.http == 429 then 10 else 0)
            && (r.mode == AdjustSettings <==> f.OnInvalidInput?)
               && (r.mode == CompactAndRetry <==> f.OnContextOverflow?)
            && (r.mode == ContinueRun <==> f.OnToolLimit?) && r.mode != ChangeModel && r.mode != Reauthenticate
  {
    hide HttpDetails, LimitDetails, Retryable;
  }

  /** Which provider errors may be tried again: no answer, time-outs, conflicts, too many requests, server errors. */
  lemma RetryableAre(status: int)
    ensures Retryable(status) <==> status in {0, 408, 409, 429} || status >= 500
  {
  }

  /** The details of the two factories that have some are JSON objects of counters. */
  lemma DetailsTell(f: Factory)
    ensures match f
            case OnProviderError(http, _) => DetailsOf(f) == Some(Obj("", [Counter("http_status", http)]))
            case OnToolLimit(steps, used, calls, callsUsed, perStep, inStep, _) =>
              DetailsOf(f) == Some(Obj("", [
                Counter("max_steps", steps), Counter("steps_used", if used < 0 then steps else used),
                Counter("max_tool_calls", calls), Counter("tool_calls_used", callsUsed),
                Counter("max_tool_calls_per_step", perStep), Counter("tool_calls_in_step", inStep)]))
            case _ => DetailsOf(f) == None && Build(f).detailsJson == ""
  {
  }

  // ---------------------------------------------------------------- factory-built outcomes are extracted unchanged

  function StatusPart(o: Outcome): string {
    "{" + "\"status\":\"" + StatusText(o.status) + "\",\"reason\":\"" + ReasonText(o.reason)
  }

  function CodePart(o: Outcome): string {
    StatusPart(o) + "\",\"severity\":\"" + SeverityText(o.severity) + "\",\"code\":\"" + Escape(o.code)
  }

  function MessagePart(o: Outcome): string {
    CodePart(o) + "\",\"source\":\"" + Escape(o.source) + "\",\"message\":\"" + Escape(o.message)
  }

  lemma StatusPrints(o: Outcome)
    ensures Open(StatusPart(o), OutcomeFields(o)[..2])
  {
    var f := OutcomeFields(o);
    assert "\"status\":\"" == "\"" + "status" + "\":\"";
    StartText("status", StatusText(o.status));
    assert "\",\"reason\":\"" == "\",\"" + "reason" + "\":\"";
    CloseThenText("{" + "\"status\":\"" + StatusText(o.status), [f[0]], "reason", ReasonText(o.reason));
    assert [f[0]] + [f[1]] == f[..2];
  }

  lemma SeverityPrints(o: Outcome)
    ensures Open(StatusPart(o) + "\",\"severity\":\"" + SeverityText(o.severity), OutcomeFields(o)[..3])
  {
    var f := OutcomeFields(o);
    StatusPrints(o);
    assert "\",\"severity\":\"" == "\",\"" + "severity" + "\":\"";
    CloseThenText(StatusPart(o), f[..2], "severity", SeverityText(o.severity));
    assert f[..2] + [f[2]] == f[..3];
  }

  lemma CodePrints(o: Outcome)
    ensures Open(CodePart(o), OutcomeFields(o)[..4])
  {
    var f := OutcomeFields(o);
    SeverityPrints(o);
    assert "\",\"code\":\"" == "\",\"" + "code" + "\":\"";
    CloseThenText(StatusPart(o) + "\",\"severity\":\"" + SeverityText(o.severity), f[..3], "code", Escape(o.code));
    assert f[..3] + [f[3]] == f[..4];
  }

  lemma SourcePrints(o: Outcome)
    ensures Open(CodePart(o) + "\",\"source\":\"" + Escape(o.source), OutcomeFields(o)[..5])
  {
    var f := OutcomeFields(o);
    CodePrints(o);
    assert "\",\"source\":\"" == "\",\"" + "source" + "\":\"";
    CloseThenText(CodePart(o), f[..4], "source", Escape(o.source));
    assert f[..4] + [f[4]] == f[..5];
  }

  lemma MessagePrints(o: Outcome)
    ensures Open(MessagePart(o), OutcomeFields(o)[..6])
  {
    var f := OutcomeFields(o);
    SourcePrints(o);
    assert "\",\"message\":\"" == "\",\"" + "message" + "\":\"";
    CloseThenText(CodePart(o) + "\",\"source\":\"" + Escape(o.source), f[..5], "message", Escape(o.message));
    assert f[..5] + [f[5]] == f[..6];
  }

  lemma OutcomeHeadPrints(o: Outcome)
    ensures Closed(MessagePart(o) + "\",\"retry\":" + RetryJson(o.retry), OutcomeFields(o))
  {
    var f := OutcomeFields(o);
    MessagePrints(o);
    RetryPrints(o.retry);
    assert "\",\"retry\":" == "\",\"" + "retry" + "\":";
    CloseThenValue(MessagePart(o), f[..6], "retry", RetryValue(o.retry));
    assert f[..6] + [f[6]] == f;
  }

  /** The JSON value an outcome prints as, given the one its details are the text of. */
  function OutcomeValue(o: Outcome, details: Option<Value>): Value {
    Obj("", OutcomeFields(o) + match details case None => [] case Some(d) => [Entry("details", d)])
  }

  predicate DetailsAre(o: Outcome, details: Option<Value>) {
    match details case None => o.detailsJson == "" case Some(d) => o.detailsJson != "" && o.detailsJson == Print(d)
  }

  /** What is printed is the text of a JSON object with the outcome's fields. */
  lemma OutcomePrints(o: Outcome, details: Option<Value>)
    requires DetailsAre(o, details)
    ensures ToJson(o) == Print(OutcomeValue(o, details))
  {
    var head := MessagePart(o) + "\",\"retry\":" + RetryJson(o.retry);
    var f := OutcomeFields(o);
    OutcomeHeadPrints(o);
    match details {
      case None =>
        assert f + [] == f;
        ClosedIsObject(head, f);
      case Some(d) =>
        assert ",\"details\":" == ",\"" + "details" + "\":";
        ThenValue(head, f, "details", d);
        ClosedIsObject(head + ",\"details\":" + Print(d), f + [Entry("details", d)]);
    }
  }

  // ---------------------------------------------------------------- well-formed, on one line

  /** A well-formed value whose text has no line end. */
  predicate OneLine(v: Value) {
    WellFormed(v) && '\n' !in Print(v)
  }

  predicate Simple(s: string) {
    forall i | 0 <= i < |s| :: s[i] != '"' && s[i] != '\\' && s[i] >= ' '
  }

  lemma {:induction false} SimpleIsBody(s: string)
    requires Simple(s)
    ensures StringBody(s)
  {
    if s != [] {
      assert s[0] in s;
      assert forall c | c in s[1..] :: c in s;
      SimpleIsBody(s[1..]);
    }
  }

  lemma SimpleText(s: string)
    requires Simple(s)
    ensures OneLine(Str(s))
  {
    SimpleIsBody(s);
  }

  lemma EscapedText(s: string)
    ensures OneLine(Str(Escape(s)))
  {
    EscapeRoundTrip(s);
  }

  lemma Numeral(n: int)
    ensures OneLine(Atom(IntText(n)))
  {
  }

  predicate GoodEntries(ms: seq<Member>) {
    forall i | 0 <= i < |ms| :: GoodEntry(ms[i])
  }

  predicate GoodEntry(m: Member) {
    && m.before == "" && m.colon == "" && Simple(m.key)
    && m.value.before == "" && m.value.after == "" && OneLine(m.value.value)
  }

  lemma GoodEntryPrints(m: Member)
    requires GoodEntry(m)
    ensures '\n' !in PrintMember(m) && WellFormedMembers([m])
  {
    SimpleIsBody(m.key);
    hide Simple, StringBody, Print, WellFormed;
    assert [m][0] == m && [m][1..] == [];
    assert WellFormedItem(m.value);
    assert WellFormedMembers([m][1..]);
  }

  lemma {:induction false} GoodEntriesPrint(ms: seq<Member>)
    requires GoodEntries(ms)
    ensures WellFormedMembers(ms) && '\n' !in PrintMembers(ms)
  {
    if ms != [] {
      GoodEntryPrints(ms[0]);
      assert GoodEntry(ms[0]);
      SimpleIsBody(ms[0].key);
      GoodEntriesPrint(ms[1..]);
    }
  }

  lemma GoodObject(ms: seq<Member>)
    requires GoodEntries(ms)
    ensures OneLine(Obj("", ms))
  {
    GoodEntriesPrint(ms);
  }

  lemma StatusIsSimple(x: RunStatus)
    ensures Simple(StatusText(x))
  {
    match x { case Completed => case Interrupted => case Failed => case Cancelled => }
  }

  lemma ReasonIsSimple(x: RunFinishReason)
    ensures Simple(ReasonText(x))
  {
    match x {
      case Stop => assert Simple("stop");
      case ToolLimit => assert Simple("tool_limit");
      case InvalidInput => assert Simple("invalid_input");
      case UserCancelled => assert Simple("user_cancelled");
      case Timeout => assert Simple("timeout");
      case ContextOverflow => assert Simple("context_overflow");
      case ProviderError => assert Simple("provider_error");
      case TransportError => assert Simple("transport_error");
      case InternalError => assert Simple("internal_error");
    }
  }

  lemma SeverityIsSimple(x: RunSeverity)
    ensures Simple(SeverityText(x))
  {
    match x { case Info => case Warning => case Error => }
  }

  lemma ModeIsSimple(x: RetryMode)
    ensures Simple(ModeText(x))
  {
    match x {
      case NoRetry => assert Simple("none");
      case RetrySame => assert Simple("retry_same");
      case ContinueRun => assert Simple("continue_run");
      case CompactAndRetry => assert Simple("compact_and_retry");
      case AdjustSettings => assert Simple("adjust_settings");
      case ChangeModel => assert Simple("change_model");
      case Reauthenticate => assert Simple("reauthenticate");
    }
  }

  lemma RetryKeysAreSimple()
    ensures Simple("available") && Simple("mode") && Simple("requires_user_confirmation") && Simple("after_seconds")
  {
  }

  lemma OutcomeKeysAreSimple()
    ensures Simple("status") && Simple("reason") && Simple("severity") && Simple("code")
    ensures Simple("source") && Simple("message") && Simple("retry") && Simple("details")
  {
  }

  lemma MoreEntries(ms: seq<Member>, key: string, v: Value)
    requires GoodEntries(ms) && Simple(key) && OneLine(v)
    ensures GoodEntries(ms + [Entry(key, v)])
  {
  }

  lemma BoolIsOneLine(b: bool)
    ensures OneLine(BoolAtom(b))
  {
  }

  /** One more of the fields that are listed anyway. */
  lemma NextField(f: seq<Member>, k: nat, key: string, v: Value)
    requires k < |f| && f[k] == Entry(key, v) && GoodEntries(f[..k]) && Simple(key) && OneLine(v)
    ensures GoodEntries(f[..k + 1])
  {
    MoreEntries(f[..k], key, v);
    hide GoodEntries, Simple, OneLine;
    PrefixStep(f, k);
  }

  lemma NoFieldYet(f: seq<Member>)
    ensures GoodEntries(f[..0]) && f[..|f|] == f
  {
  }

  lemma RetryHeadIsGood(r: RetryAdvice)
    ensures GoodEntries(RetryFields(r)[..4])
  {
    var f := RetryFields(r);
    hide GoodEntries, Simple, OneLine, RetryFields, ModeText, BoolAtom;
    RetryFieldsAre(r);
    RetryKeysAreSimple();
    NoFieldYet(f);
    BoolIsOneLine(r.available);
    NextField(f, 0, "available", BoolAtom(r.available));
    ModeIsSimple(r.mode);
    SimpleText(ModeText(r.mode));
    NextField(f, 1, "mode", Str(ModeText(r.mode)));
    BoolIsOneLine(r.requiresUserConfirmation);
    NextField(f, 2, "requires_user_confirmation", BoolAtom(r.requiresUserConfirmation));
    Numeral(r.afterSeconds);
    NextField(f, 3, "after_seconds", Atom(IntText(r.afterSeconds)));
  }

  lemma RetryFieldsAre(r: RetryAdvice)
    ensures var f := RetryFields(r);
            && |f| == (if r.reason == "" then 4 else 5)
            && f[0] == Entry("available", BoolAtom(r.available)) && f[1] == Entry("mode", Str(ModeText(r.mode)))
            && f[2] == Entry("requires_user_confirmation", BoolAtom(r.requiresUserConfirmation))
            && f[3] == Entry("after_seconds", Atom(IntText(r.afterSeconds)))
            && (r.reason != "" ==> f[4] == Entry("reason", Str(Escape(r.reason))))
  {
    hide ModeText, BoolAtom;
  }

  lemma RetryIsOneLine(r: RetryAdvice)
    ensures OneLine(RetryValue(r))
  {
    var f := RetryFields(r);
    RetryHeadIsGood(r);
    RetryFieldsAre(r);
    OutcomeKeysAreSimple();
    EscapedText(r.reason);
    hide GoodEntries, Simple, OneLine, RetryFields;
    NoFieldYet(f);
    if r.reason != "" {
      NextField(f, 4, "reason", Str(Escape(r.reason)));
    }
    GoodObject(f);
  }

  lemma OutcomeFieldsAreGood(o: Outcome)
    ensures GoodEntries(OutcomeFields(o))
  {
    OutcomeKeysAreSimple();
    StatusIsSimple(o.status);
    SimpleText(StatusText(o.status));
    ReasonIsSimple(o.reason);
    SimpleText(ReasonText(o.reason));
    SeverityIsSimple(o.severity);
    SimpleText(SeverityText(o.severity));
    EscapedText(o.code);
    EscapedText(o.source);
    EscapedText(o.message);
    RetryIsOneLine(o.retry);
  }

  lemma OutcomeIsOneLine(o: Outcome, details: Option<Value>)
    requires details.Some? ==> OneLine(details.value)
    ensures OneLine(OutcomeValue(o, details))
  {
    var f := OutcomeFields(o);
    OutcomeFieldsAreGood(o);
    if details.Some? {
      OutcomeKeysAreSimple();
      MoreEntries(f, "details", details.value);
      GoodObject(f + [Entry("details", details.value)]);
    } else {
      assert f + [] == f;
      GoodObject(f);
    }
  }

  /** An outcome whose details are JSON on one line is extracted from its own text unchanged, fences and all. */
  lemma OutcomeSurvivesExtraction(o: Outcome, details: Option<Value>)
    requires DetailsAre(o, details) && (details.Some? ==> OneLine(details.value))
    ensures Extract(ToJson(o)) == ToJson(o)
  {
    OutcomePrints(o, details);
    OutcomeIsOneLine(o, details);
    ExtractFromOneLine(OutcomeValue(o, details));
  }

  // ---------------------------------------------------------------- the details of the factories

  function Counter(key: string, n: int): Member {
    Entry(key, Atom(IntText(n)))
  }

  function LimitCounters(f: Factory): seq<Member>
    requires f.OnToolLimit?
  {
    [Counter("max_steps", f.maxSteps), Counter("steps_used", if f.stepsUsed >= 0 then f.stepsUsed else f.maxSteps),
     Counter("max_tool_calls", f.maxToolCalls), Counter("tool_calls_used", f.toolCallsUsed),
     Counter("max_tool_calls_per_step", f.maxToolCallsPerStep), Counter("tool_calls_in_step", f.toolCallsInStep)]
  }

  function DetailsOf(f: Factory): Option<Value> {
    match f
    case OnProviderError(status, _) => Some(Obj("", [Counter("http_status", status)]))
    case OnToolLimit(_, _, _, _, _, _, _) => Some(Obj("", LimitCounters(f)))
    case _ => None
  }

  lemma StartCounter(key: string, n: int)
    requires Simple(key)
    ensures Closed("{" + ("\"" + key + "\":") + IntText(n), [Counter(key, n)]) && GoodEntries([Counter(key, n)])
  {
    StartValue(key, Atom(IntText(n)));
    Numeral(n);
  }

  lemma NextCounter(json: string, ms: seq<Member>, key: string, n: int)
    requires Closed(json, ms) && GoodEntries(ms) && Simple(key)
    ensures Closed(json + (",\"" + key + "\":") + IntText(n), ms + [Counter(key, n)])
            && GoodEntries(ms + [Counter(key, n)])
  {
    ThenValue(json, ms, key, Atom(IntText(n)));
    Numeral(n);
    MoreEntries(ms, key, Atom(IntText(n)));
  }

  lemma HttpDetailsPrint(status: int)
    ensures HttpDetails(status) == Print(Obj("", [Counter("http_status", status)]))
    ensures OneLine(Obj("", [Counter("http_status", status)]))
  {
    assert "\"http_status\":" == "\"" + "http_status" + "\":";
    assert Simple("http_status");
    StartCounter("http_status", status);
    ClosedIsObject("{" + "\"http_status\":" + IntText(status), [Counter("http_status", status)]);
    GoodObject([Counter("http_status", status)]);
  }

  function StepsPart(f: Factory): string
    requires f.OnToolLimit?
  {
    "{" + "\"max_steps\":" + IntText(f.maxSteps)
    + ",\"steps_used\":" + IntText(if f.stepsUsed >= 0 then f.stepsUsed else f.maxSteps)
  }

  function CallsPart(f: Factory): string
    requires f.OnToolLimit?
  {
    StepsPart(f) + ",\"max_tool_calls\":" + IntText(f.maxToolCalls) + ",\"tool_calls_used\":" + IntText(f.toolCallsUsed)
  }

  lemma StepKeys()
    ensures "\"max_steps\":" == "\"" + "max_steps" + "\":" && Simple("max_steps")
    ensures ",\"steps_used\":" == ",\"" + "steps_used" + "\":" && Simple("steps_used")
  {
  }

  lemma CallKeys()
    ensures ",\"max_tool_calls\":" == ",\"" + "max_tool_calls" + "\":" && Simple("max_tool_calls")
    ensures ",\"tool_calls_used\":" == ",\"" + "tool_calls_used" + "\":" && Simple("tool_calls_used")
  {
  }

  lemma PerStepKey()
    ensures ",\"max_tool_calls_per_step\":" == ",\"" + "max_tool_calls_per_step" + "\":"
            && Simple("max_tool_calls_per_step")
  {
  }

  lemma InStepKey()
    ensures ",\"tool_calls_in_step\":" == ",\"" + "tool_calls_in_step" + "\":" && Simple("tool_calls_in_step")
  {
  }

  /** One more counter, given the separator as the source writes it. */
  lemma WriteCounter(json: string, all: seq<Member>, k: nat, key: string, n: int, separator: string)
    requires k < |all| && all[k] == Counter(key, n) && separator == ",\"" + key + "\":" && Simple(key)
    requires Closed(json, all[..k]) && GoodEntries(all[..k])
    ensures Closed(json + separator + IntText(n), all[..k + 1]) && GoodEntries(all[..k + 1])
  {
    NextCounter(json, all[..k], key, n);
    assert all[..k] + [all[k]] == all[..k + 1];
  }

  lemma StepsPrint(f: Factory)
    requires f.OnToolLimit?
    ensures Closed(StepsPart(f), LimitCounters(f)[..2]) && GoodEntries(LimitCounters(f)[..2])
  {
    var c := LimitCounters(f);
    StepKeys();
    StartCounter("max_steps", f.maxSteps);
    assert c[..1] == [c[0]];
    WriteCounter("{" + "\"max_steps\":" + IntText(f.maxSteps), c, 1, "steps_used",
                 if f.stepsUsed >= 0 then f.stepsUsed else f.maxSteps, ",\"steps_used\":");
  }

  lemma CallsPrint(f: Factory)
    requires f.OnToolLimit?
    ensures Closed(CallsPart(f), LimitCounters(f)[..4]) && GoodEntries(LimitCounters(f)[..4])
  {
    var c := LimitCounters(f);
    StepsPrint(f);
    CallKeys();
    WriteCounter(StepsPart(f), c, 2, "max_tool_calls", f.maxToolCalls, ",\"max_tool_calls\":");
    WriteCounter(StepsPart(f) + ",\"max_tool_calls\":" + IntText(f.maxToolCalls), c, 3, "tool_calls_used",
                 f.toolCallsUsed,
                 ",\"tool_calls_used\":");
  }

  function PerStepPart(f: Factory): string
    requires f.OnToolLimit?
  {
    CallsPart(f) + ",\"max_tool_calls_per_step\":" + IntText(f.maxToolCallsPerStep)
  }

  lemma PerStepPrint(f: Factory)
    requires f.OnToolLimit?
    ensures Closed(PerStepPart(f), LimitCounters(f)[..5]) && GoodEntries(LimitCounters(f)[..5])
  {
    CallsPrint(f);
    PerStepKey();
    WriteCounter(CallsPart(f), LimitCounters(f), 4, "max_tool_calls_per_step", f.maxToolCallsPerStep,
                 ",\"max_tool_calls_per_step\":");
  }

  lemma LimitDetailsPrint(f: Factory)
    requires f.OnToolLimit?
    ensures LimitDetails(f) == Print(Obj("", LimitCounters(f))) && OneLine(Obj("", LimitCounters(f)))
  {
    var c := LimitCounters(f);
    PerStepPrint(f);
    InStepKey();
    WriteCounter(PerStepPart(f), c, 5, "tool_calls_in_step", f.toolCallsInStep, ",\"tool_calls_in_step\":");
    assert c[..6] == c;
    ClosedIsObject(PerStepPart(f) + ",\"tool_calls_in_step\":" + IntText(f.toolCallsInStep), c);
    GoodObject(c);
  }

  lemma DetailsArePrinted(f: Factory)
    ensures DetailsAre(Build(f), DetailsOf(f)) && (DetailsOf(f).Some? ==> OneLine(DetailsOf(f).value))
  {
    match f {
      case OnProviderError(status, _) => HttpDetailsPrint(status);
      case OnToolLimit(_, _, _, _, _, _, _) => LimitDetailsPrint(f);
      case _ =>
    }
  }

  /** Whatever message it carries, the JSON of a factory-built outcome is extracted unchanged. */
  lemma FactorySurvivesExtraction(f: Factory)
    ensures ToJson(Build(f)) == Print(OutcomeValue(Build(f), DetailsOf(f)))
    ensures Extract(ToJson(Build(f))) == ToJson(Build(f))
  {
    var o, d := Build(f), DetailsOf(f);
    DetailsArePrinted(f);
    OutcomePrints(o, d);
    OutcomeSurvivesExtraction(o, d);
  }
}
