/**
 The agent's step loop: request, read the reply, check the call budgets, filter for plan mode,
 execute, append. The model and the tools are unknown: a run is driven by an arbitrary sequence of turns.
 */
module AgentLoop {
  import opened Wrappers
  import opened Texts
  import opened Messages
  import opened ContextPruner
  import opened Conversation
  import opened Compactor
  import opened Session
  import opened ToolCalls
  import opened Adapter
  import opened Sequences

  // ---------------------------------------------------------------- what the world does in one step

  /** A provider reply as received; `Raised` stands for every exception, cancellation included. */
  datatype Raw =
    | Raised
    | Whole(valid: bool, status: int, message: string, overflow: bool, hasCalls: bool, text: string, calls: seq<Call>)
    | Streamed(status: int, overflow: bool, raw: string, text: string, deltas: seq<Delta>)

  /** Where the handling of a turn's calls is broken off by an exception; `During(k)` is raised by call `k`. */
  datatype BreakOff = Never | BeforeCalls | During(k: nat) | AfterCalls

  /** One step of the world, with its reply as received (`Turn<Raw>`) or as understood (`Turn<Reply>`). */
  datatype Turn<R> = Turn(
    cancelled: bool, reply: R, planMode: bool, broken: BreakOff, tools: Tools,
    recovery: Recovery, compacts: bool, summaries: nat -> string)

  datatype Limits = Limits(maxSteps: int, maxCalls: int, maxPerStep: int)

  function NormalizeLimit(value: int): (r: nat)
    ensures r >= 1
  {
    if value > 0 then value else 1
  }

  // ---------------------------------------------------------------- reading the reply

  datatype Reply =
    | Interrupted
    | Overflowed
    | Rejected(status: int, message: string)
    | Answer(text: string)
    | Calls(text: string, calls: seq<Call>)

  function Understood(raw: Raw): Reply {
    match raw
    case Raised => Interrupted
    case Whole(valid, status, message, overflow, hasCalls, text, calls) =>
      if !valid then (if overflow then Overflowed else Rejected(if status > 0 then status else 500, CString(message)))
      else if hasCalls then Calls(text, calls) else Answer(text)
    case Streamed(status, overflow, body, text, deltas) =>
      if !(200 <= status < 300) then
        if overflow then Overflowed
        else Rejected(status, if body == "" then "Provider stream request failed" else body)
      else if deltas == [] then Answer(text) else Calls(text, StreamedCalls(deltas))
  }

  predicate IsSuccess(status: int) {
    200 <= status < 300
  }

  function ReadTurn(t: Turn<Raw>): Turn<Reply> {
    Turn(t.cancelled, Understood(t.reply), t.planMode, t.broken, t.tools, t.recovery, t.compacts, t.summaries)
  }

  function ReadTurns(turns: nat -> Turn<Raw>): nat -> Turn<Reply> {
    (i: nat) => ReadTurn(turns(i))
  }

  /** A stream into which a turn's calls have been cut is understood like the turn sent whole. */
  lemma StreamIsRead(status: int, overflow: bool, raw: string, text: string, deltas: seq<Delta>,
                     indices: seq<int>, calls: seq<Call>)
    requires IsSuccess(status) && Cuts(deltas, indices, calls)
    ensures Understood(Streamed(status, overflow, raw, text, deltas))
         == Understood(Whole(true, status, "", false, calls != [], text, calls))
    ensures Understood(Streamed(status, overflow, raw, text, deltas))
         == if calls == [] then Answer(text) else Calls(text, calls)
  {
    hide Cuts, StreamedCalls;
    CutsAreReassembled(deltas, indices, calls);
  }

  /**
   A response is a rejection or an overflow unless it is valid (a stream: has a status of success). The calls of
   a stream are those that were cut into its fragments, and a stream without fragments is an answer.
   */
  method ReadReply(raw: Raw) returns (reply: Reply)
    ensures reply == Understood(raw)
    ensures raw.Raised? <==> reply.Interrupted?
    ensures raw.Whole? ==>
              && (reply.Overflowed? <==> !raw.valid && raw.overflow)
              && (!raw.valid && !raw.overflow ==>
                    reply == Rejected(if raw.status > 0 then raw.status else 500, CString(raw.message)))
              && (raw.valid ==> reply == if raw.hasCalls then Calls(raw.text, raw.calls) else Answer(raw.text))
    ensures raw.Streamed? ==>
              && (reply.Overflowed? <==> !(200 <= raw.status < 300) && raw.overflow)
              && (reply.Rejected? <==> !(200 <= raw.status < 300) && !raw.overflow)
              && (reply.Rejected? ==>
                    && reply.status == raw.status
                    && reply.message == if raw.raw == "" then "Provider stream request failed" else raw.raw)
              && (reply.Answer? <==> 200 <= raw.status < 300 && raw.deltas == [])
              && (reply.Answer? || reply.Calls? ==> reply.text == raw.text)
    ensures forall indices, calls | raw.Streamed? && 200 <= raw.status < 300 && Cuts(raw.deltas, indices, calls) ::
              reply == if calls == [] then Answer(raw.text) else Calls(raw.text, calls)
  {
    match raw {
      case Raised =>
        reply := Interrupted;
      case Whole(valid, status, message, overflow, hasCalls, text, calls) =>
        if !valid {
          reply := if overflow then Overflowed else Rejected(if status > 0 then status else 500, CString(message));
        } else {
          reply := if hasCalls then Calls(text, calls) else Answer(text);
        }
      case Streamed(status, overflow, body, text, deltas) =>
        if status < 200 || status >= 300 {
          reply := if overflow then Overflowed
                   else Rejected(status, if body == "" then "Provider stream request failed" else body);
        } else if deltas == [] {
          reply := Answer(text);
        } else {
          var calls := CollectStream(deltas);
          reply := Calls(text, calls);
        }
    }
    forall indices, calls | raw.Streamed? && 200 <= raw.status < 300 && Cuts(raw.deltas, indices, calls)
      ensures reply == if calls == [] then Answer(raw.text) else Calls(raw.text, calls)
    {
      StreamIsRead(raw.status, raw.overflow, raw.raw, raw.text, raw.deltas, indices, calls);
    }
  }

  // ---------------------------------------------------------------- the step as a function

  datatype Outcome =
    | Answered(text: string)
    | InvalidInput
    | StepLimit
    | PerStepLimit(inStep: nat)
    | TotalLimit(inStep: nat)
    | OverflowFailed
    | ProviderError(status: int, message: string)
    | Broken

  /** What one request was built from. */
  datatype Request = Request(history: History, options: Options)

  datatype State = State(history: History, options: Options, used: nat, requests: seq<Request>, executed: seq<Call>)

  datatype Progress = Going(state: State) | Done(outcome: Outcome, state: State)

  function Answers(results: seq<CallResult>): (h: History)
    ensures |h| == |results|
    ensures forall i | 0 <= i < |h| :: h[i] == ToolMessage(CallResult(results[i].callId, "", results[i].output, false))
  {
    seq(|results|,
        i requires 0 <= i < |results| => ToolMessage(CallResult(results[i].callId, "", results[i].output, false)))
  }

  /** What a completed step appends: the calls in one assistant message, then one tool message per result. */
  function Exchanged(text: string, allowed: seq<Call>, blocked: seq<Call>, t: Tools): History {
    [Message(Assistant, [Text(text, false)] + UseBlocks(allowed + blocked))]
    + (Answers(ExecuteAll(allowed, t)) + Answers(BlockedResults(blocked)))
  }

  function Permitted(calls: seq<Call>, t: Turn<Reply>): seq<Call> {
    if t.planMode then Allowed(calls, t.tools) else calls
  }

  function Refused(calls: seq<Call>, t: Turn<Reply>): seq<Call> {
    if t.planMode then Blocked(calls, t.tools) else []
  }

  function HandleCalls(s: State, text: string, calls: seq<Call>, t: Turn<Reply>, limits: Limits): Progress {
    var budget := Budgeted(calls);
    if budget > NormalizeLimit(limits.maxPerStep) then Done(PerStepLimit(budget), s)
    else if s.used + budget > NormalizeLimit(limits.maxCalls) then Done(TotalLimit(budget), s)
    else
      var allowed, blocked := Permitted(calls, t), Refused(calls, t);
      var s1 := s.(used := s.used + budget);
      match t.broken
      case BeforeCalls => Done(Broken, s1)
      case During(k) => Done(Broken, s1.(executed := s1.executed + allowed[..Min(k, |allowed|)]))
      case AfterCalls => Done(Broken, s1.(executed := s1.executed + allowed))
      case Never =>
        Going(s1.(executed := s1.executed + allowed,
                  history := s1.history + Exchanged(text, allowed, blocked, t.tools)))
  }

  function FinalHistory(h: History, text: string, t: Turn<Reply>, c: Config): History {
    var answered := h + [TextMessage(Assistant, text)];
    if t.compacts then Compaction(answered, 0, c, t.summaries) else answered
  }

  /** Fixed surroundings of a run: limits, whether histories are pruned, compaction settings. */
  datatype Env = Env(limits: Limits, pruning: bool, config: Config)

  function React(s: State, t: Turn<Reply>, env: Env): Progress {
    match t.reply
    case Interrupted => Done(Broken, s)
    case Overflowed =>
      var r := RecoverFrom(0, 0, s.history, s.options, env.pruning, env.config, t.recovery);
      var s1 := s.(history := r.history, options := r.options);
      if r.ok then Going(s1) else Done(OverflowFailed, s1)
    case Rejected(status, message) => Done(ProviderError(status, message), s)
    case Answer(text) => Done(Answered(text), s.(history := FinalHistory(s.history, text, t, env.config)))
    case Calls(text, calls) => HandleCalls(s, text, calls, t, env.limits)
  }

  function OneStep(s: State, t: Turn<Reply>, env: Env): Progress {
    if t.cancelled then Done(Broken, s)
    else React(s.(requests := s.requests + [Request(s.history, s.options)]), t, env)
  }

  /** The run from step `step` on, over every possible future `turns`. */
  function Run(s: State, step: nat, turns: nat -> Turn<Reply>, env: Env): (end: Progress)
    ensures end.Done?
    decreases NormalizeLimit(env.limits.maxSteps) - step
  {
    if step >= NormalizeLimit(env.limits.maxSteps) then Done(StepLimit, s)
    else match OneStep(s, turns(step), env)
      case Done(o, s1) => Done(o, s1)
      case Going(s1) => Run(s1, step + 1, turns, env)
  }

  // ---------------------------------------------------------------- the loop

  lemma AnswersStep(h: History, results: seq<CallResult>, i: nat)
    requires i < |results|
    ensures h + Answers(results[..i + 1])
         == h + Answers(results[..i]) + [ToolMessage(CallResult(results[i].callId, "", results[i].output, false))]
  {
    assert Answers(results[..i + 1]) == Answers(results[..i]) + [Answers(results)[i]];
  }

  method AddResults(history: ConversationHistory, results: seq<CallResult>)
    requires history.Valid()
    modifies history`messages, history`cachedOriginalTokens, history`pruneDirty, history`cachedPrunedTokens
    modifies history`cachedOpenAi, history`openAiCount, history`cachedAnthropic, history`anthropicCount
    ensures history.Valid() && (history.Current() <==> old(history.Current()))
    ensures history.messages == old(history.messages) + Answers(results)
  {
    var i := 0;
    while i < |results|
      invariant 0 <= i <= |results|
      invariant history.Valid() && (history.Current() <==> old(history.Current()))
      invariant history.messages == old(history.messages) + Answers(results[..i])
    {
      AnswersStep(old(history.messages), results, i);
      history.AddToolResult(results[i].callId, results[i].output);
      i := i + 1;
    }
    assert results[..i] == results;
  }

  method AppendExchange(history: ConversationHistory, text: string, allowed: seq<Call>, blocked: seq<Call>,
                        results: seq<CallResult>, blockedResults: seq<CallResult>, ghost t: Tools)
    requires history.Valid() && results == ExecuteAll(allowed, t) && blockedResults == BlockedResults(blocked)
    modifies history`messages, history`cachedOriginalTokens, history`pruneDirty, history`cachedPrunedTokens
    modifies history`cachedOpenAi, history`openAiCount, history`cachedAnthropic, history`anthropicCount
    ensures history.Valid() && (history.Current() <==> old(history.Current()))
    ensures history.messages == old(history.messages) + Exchanged(text, allowed, blocked, t)
  {
    var message := Message(Assistant, [Text(text, false)] + UseBlocks(allowed + blocked));
    history.AddMessage(message);
    AddResults(history, results);
    AddResults(history, blockedResults);
    Assoc(old(history.messages), [message], Answers(results));
    Assoc(old(history.messages), [message] + Answers(results), Answers(blockedResults));
    Assoc([message], Answers(results), Answers(blockedResults));
  }

  /** The array of a request: the pruned view, converted; None is a read past the cache. */
  function Sent(api: Api, view: Option<History>): Option<Payload> {
    match view case None => None case Some(v) => Some(PayloadOf(api, v))
  }

  /** A request built from these inputs is the full pruning: zones apart, no assistant the stripping would delete. */
  predicate Exact(r: Request) {
    SeparateZones(r.options) && AllSurvive(r.history)
  }

  predicate ExactUpTo(requests: seq<Request>, i: nat)
    requires i <= |requests|
  {
    forall j | 0 <= j < i :: Exact(requests[j])
  }

  /** The full pruning of what a request was built from, converted. */
  function FullPayload(api: Api, r: Request): Payload {
    PayloadOf(api, Pruned(r.history, r.options).messages)
  }

  /** The log of arrays: as long as every request has been exact, what goes out is the converted full pruning. */
  predicate SentFrom(sent: seq<Option<Payload>>, requests: seq<Request>, api: Api, pruning: bool) {
    && |sent| == |requests|
    && forall i | 0 <= i < |sent| && pruning && ExactUpTo(requests, i + 1) ::
       sent[i] == Some(FullPayload(api, requests[i]))
  }

  /** With pruning off every array is the conversion of the whole history. */
  predicate SentWhole(sent: seq<Option<Payload>>, requests: seq<Request>, api: Api) {
    && |sent| == |requests|
    && forall i | 0 <= i < |sent| :: sent[i] == Some(PayloadOf(api, requests[i].history))
  }

  lemma WholeAppend(sentA: seq<Option<Payload>>, a: seq<Request>, sentB: seq<Option<Payload>>, b: seq<Request>,
                    api: Api)
    requires SentWhole(sentA, a, api) && SentWhole(sentB, b, api)
    ensures SentWhole(sentA + sentB, a + b, api)
  {
    hide PayloadOf;
  }

  lemma ExactPrefix(a: seq<Request>, b: seq<Request>, i: nat)
    requires i <= |a|
    ensures ExactUpTo(a + b, i) <==> ExactUpTo(a, i)
  {
    assert forall j | 0 <= j < i :: (a + b)[j] == a[j];
  }

  lemma ExactBeyond(a: seq<Request>, b: seq<Request>, i: nat)
    requires i <= |b|
    ensures ExactUpTo(a + b, |a| + i) <==> ExactUpTo(a, |a|) && ExactUpTo(b, i)
  {
    hide Exact;
    assert forall j | 0 <= j < |a| :: (a + b)[j] == a[j];
    assert forall j | 0 <= j < i :: (a + b)[|a| + j] == b[j];
  }

  /** A second log continues a first one if it is sound whenever everything before it was exact. */
  lemma SentAppend(sentA: seq<Option<Payload>>, a: seq<Request>, sentB: seq<Option<Payload>>, b: seq<Request>,
                   api: Api, pruning: bool)
    requires SentFrom(sentA, a, api, pruning) && |sentB| == |b|
    requires pruning && ExactUpTo(a, |a|) ==> SentFrom(sentB, b, api, pruning)
    ensures SentFrom(sentA + sentB, a + b, api, pruning)
  {
    hide FullPayload, ExactUpTo;
    forall i | 0 <= i < |sentA + sentB| && pruning && ExactUpTo(a + b, i + 1)
      ensures (sentA + sentB)[i] == Some(FullPayload(api, (a + b)[i]))
    {
      if i < |a| {
        ExactPrefix(a, b, i + 1);
      } else {
        ExactBeyond(a, b, i + 1 - |a|);
      }
    }
  }

  /** One request: the view is brought up to date and converted. */
  method SendRequest(history: ConversationHistory, api: Api) returns (payload: Option<Payload>)
    requires history.Valid()
    modifies history`prunedMessages, history`pruneDirty, history`lastPrunedCount, history`cachedPrunedTokens
    modifies history`cachedOpenAi, history`openAiCount, history`cachedAnthropic, history`anthropicCount
    ensures history.Valid() && payload == Sent(api, old(history.View()))
    ensures old(history.Current()) && Exact(Request(history.messages, history.pruneOptions)) ==>
              history.Current() && payload == Some(FullPayload(api, Request(history.messages, history.pruneOptions)))
    ensures !history.pruneEnabled ==> payload == Some(PayloadOf(api, history.messages))
  {
    hide Pruned, IncrementalView, HistoryWires, AnthropicMessages;
    hide ConversationHistory.Valid, ConversationHistory.View;
    ghost var exact := history.Current() && Exact(Request(history.messages, history.pruneOptions));
    if exact {
      CurrentViewIsExact(history);
    }
    match api {
      case OpenAi =>
        var wires := history.ToOpenAiMessages();
        payload := if wires.None? then None else Some(OpenAiArray(wires.value));
      case Anthropic =>
        var turns := history.ToAnthropicMessages();
        payload := if turns.None? then None else Some(AnthropicArray(turns.value));
    }
    if exact {
      FreshViewIsCurrent(history);
    }
  }

  method HandleCallsOf(history: ConversationHistory, text: string, calls: seq<Call>, t: Turn<Reply>, limits: Limits,
                       used: nat, executed: seq<Call>, ghost s: State)
    returns (outcome: Option<Outcome>, usedAfter: nat, executedAfter: seq<Call>)
    requires history.Valid() && s.history == history.messages && s.options == history.pruneOptions
    requires s.used == used && s.executed == executed
    modifies history`messages, history`cachedOriginalTokens, history`pruneDirty, history`cachedPrunedTokens
    modifies history`cachedOpenAi, history`openAiCount, history`cachedAnthropic, history`anthropicCount
    ensures history.Valid() && (history.Current() <==> old(history.Current()))
    ensures HandleCalls(s, text, calls, t, limits)
         == var after := State(history.messages, history.pruneOptions, usedAfter, s.requests, executedAfter);
            if outcome.Some? then Done(outcome.value, after) else Going(after)
  {
    hide Exchanged, Budgeted;
    usedAfter, executedAfter := used, executed;
    var budgetedCalls := BudgetedToolCallCount(calls);
    if budgetedCalls > NormalizeLimit(limits.maxPerStep) {
      return Some(PerStepLimit(budgetedCalls)), usedAfter, executedAfter;
    }
    if used + budgetedCalls > NormalizeLimit(limits.maxCalls) {
      return Some(TotalLimit(budgetedCalls)), usedAfter, executedAfter;
    }
    usedAfter := used + budgetedCalls;
    var allowed, blocked, blockedResults := calls, [], [];
    if t.planMode {
      allowed, blocked, blockedResults := FilterPlanModeTools(calls, t.tools);
    }
    if t.broken.BeforeCalls? {
      return Some(Broken), usedAfter, executedAfter;
    }
    if t.broken.During? {
      executedAfter := executed + allowed[..Min(t.broken.k, |allowed|)];
      return Some(Broken), usedAfter, executedAfter;
    }
    var results := ExecuteToolCalls(allowed, t.tools);
    executedAfter := executed + allowed;
    if t.broken.AfterCalls? {
      return Some(Broken), usedAfter, executedAfter;
    }
    AppendExchange(history, text, allowed, blocked, results, blockedResults, t.tools);
    return None, usedAfter, executedAfter;
  }

  method AnswerWith(history: ConversationHistory, compactor: Compactor, text: string, t: Turn<Reply>)
    requires history.Valid()
    modifies history, compactor
    ensures history.Valid() && history.messages == FinalHistory(old(history.messages), text, t, compactor.config)
    ensures history.pruneEnabled == old(history.pruneEnabled) && history.pruneOptions == old(history.pruneOptions)
    ensures old(history.Current()) ==> history.Current()
  {
    history.AddAssistant(text);
    if t.compacts {
      compactor.Compact(history, t.summaries, 0);
      history.InvalidateAllCache();
    }
  }

  function Named(outcome: Option<Outcome>, after: State): Progress {
    match outcome case None => Going(after) case Some(o) => Done(o, after)
  }

  /** What follows the request: act on the reply. */
  method Act(history: ConversationHistory, compactor: Compactor, t: Turn<Raw>, env: Env,
             used: nat, executed: seq<Call>, ghost s: State)
    returns (outcome: Option<Outcome>, usedAfter: nat, executedAfter: seq<Call>)
    requires history.Valid() && s.history == history.messages && s.options == history.pruneOptions
    requires s.used == used && s.executed == executed
    requires env.pruning == history.pruneEnabled && env.config == compactor.config
    modifies history, compactor
    ensures history.Valid() && history.pruneEnabled == old(history.pruneEnabled)
    ensures old(history.Current()) ==> history.Current()
    ensures outcome == Some(OverflowFailed) && history.pruneEnabled ==> history.Current() && !history.pruneDirty
    ensures React(s, ReadTurn(t), env)
         == Named(outcome, State(history.messages, history.pruneOptions, usedAfter, s.requests, executedAfter))
  {
    usedAfter, executedAfter := used, executed;
    var reply := ReadReply(t.reply);
    hide Understood, Exchanged, FinalHistory, RecoverFrom;
    hide ConversationHistory.Valid;
    match reply {
      case Interrupted =>
        return Some(Broken), usedAfter, executedAfter;
      case Overflowed =>
        var ok := ForceCompact(history, compactor, t.recovery);
        return if ok then None else Some(OverflowFailed), usedAfter, executedAfter;
      case Rejected(status, message) =>
        return Some(ProviderError(status, message)), usedAfter, executedAfter;
      case Answer(text) =>
        AnswerWith(history, compactor, text, ReadTurn(t));
        return Some(Answered(text)), usedAfter, executedAfter;
      case Calls(text, calls) =>
        outcome, usedAfter, executedAfter :=
          HandleCallsOf(history, text, calls, ReadTurn(t), env.limits, used, executed, s);
    }
  }

  lemma RunUnfolds(s: State, step: nat, turns: nat -> Turn<Reply>, env: Env)
    requires step < NormalizeLimit(env.limits.maxSteps)
    ensures Run(s, step, turns, env)
         == match OneStep(s, turns(step), env)
            case Done(o, s1) => Done(o, s1)
            case Going(s1) => Run(s1, step + 1, turns, env)
  {
  }

  lemma ExactOne(r: Request)
    ensures ExactUpTo([], 0) && (ExactUpTo([r], 1) <==> Exact(r))
  {
    assert [r][0] == r;
  }

  lemma SentNothing(api: Api, pruning: bool)
    ensures SentFrom([], [], api, pruning) && SentWhole([], [], api)
  {
  }

  lemma SentOne(payload: Option<Payload>, r: Request, api: Api, pruning: bool)
    requires pruning && Exact(r) ==> payload == Some(FullPayload(api, r))
    ensures SentFrom([payload], [r], api, pruning)
  {
    ExactOne(r);
  }

  /** What the log of arrays says, from a current cache on and with pruning off. */
  predicate LogsSound(current: bool, sent: seq<Option<Payload>>, requests: seq<Request>, api: Api, pruning: bool) {
    && |sent| == |requests|
    && (current ==> SentFrom(sent, requests, api, pruning))
    && (!pruning ==> SentWhole(sent, requests, api))
  }

  lemma NothingLogged(current: bool, api: Api, pruning: bool)
    ensures LogsSound(current, [], [], api, pruning) && ExactUpTo([], 0)
  {
  }

  /** The log of a loop after one more part. */
  lemma LogsGrow(current: bool, sent: seq<Option<Payload>>, requests: seq<Request>, more: seq<Option<Payload>>,
                 asked: seq<Request>, api: Api, pruning: bool)
    requires LogsSound(current, sent, requests, api, pruning)
    requires LogsSound(current && ExactUpTo(requests, |requests|), more, asked, api, pruning)
    ensures LogsSound(current, sent + more, requests + asked, api, pruning)
    ensures ExactUpTo(requests + asked, |requests + asked|)
       <==> ExactUpTo(requests, |requests|) && ExactUpTo(asked, |asked|)
  {
    hide SentFrom, SentWhole, ExactUpTo;
    ExactBeyond(requests, asked, |asked|);
    if current {
      SentAppend(sent, requests, more, asked, api, pruning);
    }
    if !pruning {
      WholeAppend(sent, requests, more, asked, api);
    }
  }

  lemma LogsOfLess(current: bool, less: bool, sent: seq<Option<Payload>>, requests: seq<Request>, api: Api,
                   pruning: bool)
    requires LogsSound(current, sent, requests, api, pruning) && (less ==> current)
    ensures LogsSound(less, sent, requests, api, pruning)
  {
    hide SentFrom, SentWhole;
  }

  lemma RunContinues(s: State, step: nat, turns: nat -> Turn<Raw>, env: Env, stop: Option<Outcome>, after: State)
    requires step < NormalizeLimit(env.limits.maxSteps) && OneStep(s, ReadTurn(turns(step)), env) == Named(stop, after)
    ensures Run(s, step, ReadTurns(turns), env)
         == match stop
            case Some(o) => Done(o, after)
            case None => Run(after, step + 1, ReadTurns(turns), env)
  {
    RunUnfolds(s, step, ReadTurns(turns), env);
  }

  lemma FirstOf<T>(a: seq<T>, b: seq<T>)
    ensures a + b == [] <==> a == [] && b == []
    ensures a + b != [] ==> (a + b)[0] == if a == [] then b[0] else a[0]
  {
  }

  /** One turn of the loop: nothing if cancelled, else a request and what its reply asks for. */
  method TakeTurn(history: ConversationHistory, compactor: Compactor, api: Api, t: Turn<Raw>, env: Env,
                  used: nat, executed: seq<Call>, ghost s: State)
    returns (stop: Option<Outcome>, usedAfter: nat, executedAfter: seq<Call>, sent: seq<Option<Payload>>,
             ghost asked: seq<Request>)
    requires history.Valid() && s.history == history.messages && s.options == history.pruneOptions
    requires s.used == used && s.executed == executed
    requires env.pruning == history.pruneEnabled && env.config == compactor.config
    modifies history, compactor
    ensures history.Valid() && history.pruneEnabled == old(history.pruneEnabled)
    ensures OneStep(s, ReadTurn(t), env)
         == Named(stop, State(history.messages, history.pruneOptions, usedAfter, s.requests + asked, executedAfter))
    ensures if t.cancelled then sent == [] && asked == [] && stop.Some?
            else sent == [Sent(api, old(history.View()))] && asked == [Request(s.history, s.options)]
    ensures LogsSound(old(history.Current()), sent, asked, api, env.pruning)
    ensures old(history.Current()) && ExactUpTo(asked, |asked|) ==> history.Current()
    ensures stop == Some(OverflowFailed) && env.pruning ==> history.Current() && !history.pruneDirty
  {
    hide React, ExactUpTo, SentFrom, FullPayload, Exact, PayloadOf;
    hide ConversationHistory.Valid, ConversationHistory.Current, ConversationHistory.View;
    SentNothing(api, env.pruning);
    if t.cancelled {
      Ends(s.requests);
      return Some(Broken), used, executed, [], [];
    }
    ghost var r := Request(s.history, s.options);
    var payload := SendRequest(history, api);
    sent, asked := [payload], [r];
    ExactOne(r);
    if old(history.Current()) {
      SentOne(payload, r, api, env.pruning);
    }
    stop, usedAfter, executedAfter :=
      Act(history, compactor, t, env, used, executed, s.(requests := s.requests + asked));
  }

  /** Both step loops of the agent, whole-response and streaming: they differ only in how the reply is read. */
  method RunSteps(history: ConversationHistory, compactor: Compactor, api: Api, turns: nat -> Turn<Raw>, limits: Limits)
    returns (outcome: Outcome, used: nat, executed: seq<Call>, sent: seq<Option<Payload>>, ghost requests: seq<Request>)
    requires history.Valid()
    modifies history, compactor
    ensures history.Valid() && history.pruneEnabled == old(history.pruneEnabled)
    ensures Done(outcome, State(history.messages, history.pruneOptions, used, requests, executed))
         == Run(State(old(history.messages), old(history.pruneOptions), 0, [], []), 0, ReadTurns(turns),
                Env(limits, old(history.pruneEnabled), compactor.config))
    ensures sent != [] ==> sent[0] == Sent(api, old(history.View()))
    ensures LogsSound(old(history.Current()), sent, requests, api, history.pruneEnabled)
    ensures old(history.Current()) && ExactUpTo(requests, |requests|) ==> history.Current()
    ensures outcome == OverflowFailed && history.pruneEnabled ==> history.Current() && !history.pruneDirty
  {
    var env := Env(limits, history.pruneEnabled, compactor.config);
    ghost var end := Run(State(history.messages, history.pruneOptions, 0, [], []), 0, ReadTurns(turns), env);
    used, executed, sent, requests := 0, [], [], [];
    hide Run, OneStep, Named, ReadTurn, ReadTurns, ExactUpTo, LogsSound, Sent;
    hide ConversationHistory.Valid, ConversationHistory.Current, ConversationHistory.View;
    ghost var current, view := history.Current(), history.View();
    NothingLogged(current, api, env.pruning);
    var step := 0;
    while step < NormalizeLimit(limits.maxSteps)
      invariant 0 <= step <= NormalizeLimit(limits.maxSteps)
      invariant history.Valid() && history.pruneEnabled == env.pruning
      invariant end == Run(State(history.messages, history.pruneOptions, used, requests, executed), step,
                           ReadTurns(turns), env)
      invariant if sent == [] then history.View() == view else sent[0] == Sent(api, view)
      invariant LogsSound(current, sent, requests, api, env.pruning)
      invariant current && ExactUpTo(requests, |requests|) ==> history.Current()
    {
      ghost var s := State(history.messages, history.pruneOptions, used, requests, executed);
      var stop, more;
      ghost var asked;
      ghost var now := history.Current();
      stop, used, executed, more, asked := TakeTurn(history, compactor, api, turns(step), env, used, executed, s);
      LogsOfLess(now, current && ExactUpTo(requests, |requests|), more, asked, api, env.pruning);
      RunContinues(s, step, turns, env, stop,
                   State(history.messages, history.pruneOptions, used, requests + asked, executed));
      LogsGrow(current, sent, requests, more, asked, api, env.pruning);
      FirstOf(sent, more);
      sent, requests := sent + more, requests + asked;
      if stop.Some? {
        outcome := stop.value;
        return;
      }
      step := step + 1;
    }
    outcome := StepLimit;
  }
}
