/**
 What the agent does, outcome by outcome: what a step executes, appends and reports, and the prompt it goes on with.
 */
module AgentSteps {
  import opened Wrappers
  import opened Texts
  import opened Messages
  import opened ContextPruner
  import opened Conversation
  import opened Compactor
  import opened Session
  import opened ToolCalls
  import opened Adapter
  import opened AgentLoop
  import opened AgentLaws
  import opened Sequences

  // ---------------------------------------------------------------- tool calls

  /** How many of the calls count against the limits. */
  function Costs(calls: seq<Call>): nat {
    |Counting(calls)|
  }

  predicate OverStep(calls: seq<Call>, env: Env) {
    Costs(calls) > Max(1, env.limits.maxPerStep)
  }

  predicate OverRun(s: State, calls: seq<Call>, env: Env) {
    s.used + Costs(calls) > Max(1, env.limits.maxCalls)
  }

  /** The message of a completed step: the text of the reply, then its calls. */
  predicate Announces(m: Message, text: string, calls: seq<Call>) {
    && m.role == Assistant && |m.content| == 1 + |calls| && m.content[0] == Text(text, false)
    && forall k | 0 <= k < |calls| :: m.content[1 + k] == ToolUse(calls[k])
  }

  predicate Answering(m: Message, id: string, output: string) {
    m == Message(Tool, [ToolResult(CallResult(id, "", output, false))])
  }

  /** The history grew by one message with the calls, and by one per call with what its own execution gave. */
  predicate Exchanges(before: History, after: History, text: string, run: seq<Call>, held: seq<Call>, t: Tools) {
    var n := |before|;
    && |after| == n + 1 + |run| + |held| && after[..n] == before
    && Announces(after[n], text, run + held)
    && (forall k | 0 <= k < |run| :: Answering(after[n + 1 + k], run[k].id, Execute(run[k], t.run(run[k])).output))
    && forall k | 0 <= k < |held| :: Answering(after[n + 1 + |run| + k], held[k].id, BLOCKED)
  }

  lemma {:induction false} UseBlocksAt(calls: seq<Call>)
    ensures |UseBlocks(calls)| == |calls| && forall k | 0 <= k < |calls| :: UseBlocks(calls)[k] == ToolUse(calls[k])
  {
    if calls != [] {
      UseBlocksAt(calls[1..]);
    }
  }

  lemma ExchangeAnnounces(text: string, run: seq<Call>, held: seq<Call>, t: Tools)
    ensures var g := Exchanged(text, run, held, t);
            |g| == 1 + |run| + |held| && Announces(g[0], text, run + held)
  {
    UseBlocksAt(run + held);
    hide UseBlocks;
  }

  lemma ExchangeAnswers(text: string, run: seq<Call>, held: seq<Call>, t: Tools)
    ensures var g := Exchanged(text, run, held, t);
            && |g| == 1 + |run| + |held|
            && (forall k | 0 <= k < |run| :: Answering(g[1 + k], run[k].id, Execute(run[k], t.run(run[k])).output))
            && forall k | 0 <= k < |held| :: Answering(g[1 + |run| + k], held[k].id, BLOCKED)
  {
    hide UseBlocks, Execute;
    var g, a, b := Exchanged(text, run, held, t), Answers(ExecuteAll(run, t)), Answers(BlockedResults(held));
    forall k | 0 <= k < |run|
      ensures Answering(g[1 + k], run[k].id, Execute(run[k], t.run(run[k])).output)
    {
      assert g[1 + k] == (a + b)[k] == a[k];
    }
    forall k | 0 <= k < |held|
      ensures Answering(g[1 + |run| + k], held[k].id, BLOCKED)
    {
      assert g[1 + |run| + k] == (a + b)[|run| + k] == b[k];
    }
  }

  lemma ExchangedIs(before: History, text: string, run: seq<Call>, held: seq<Call>, t: Tools)
    ensures Exchanges(before, before + Exchanged(text, run, held, t), text, run, held, t)
  {
    var g, n := Exchanged(text, run, held, t), |before|;
    var after := before + g;
    ExchangeAnnounces(text, run, held, t);
    ExchangeAnswers(text, run, held, t);
    hide Exchanged, Execute, Announces, Answering;
    assert forall k | 0 <= k < |g| :: after[n + k] == g[k];
    assert after[n] == g[0] && after[..n] == before;
    forall k | 0 <= k < |run|
      ensures Answering(after[n + 1 + k], run[k].id, Execute(run[k], t.run(run[k])).output)
    {
      assert after[n + (1 + k)] == g[1 + k];
    }
    forall k | 0 <= k < |held|
      ensures Answering(after[n + 1 + |run| + k], held[k].id, BLOCKED)
    {
      assert after[n + (1 + |run| + k)] == g[1 + |run| + k];
    }
  }

  /** What happens to a reply with calls: too many for the step, for the run, or broken off; else all of it is done. */
  lemma CallsAreServed(s: State, t: Turn<Reply>, env: Env)
    requires !t.cancelled && t.reply.Calls?
    ensures var calls, p := t.reply.calls, OneStep(s, t, env);
            var run, held := Permitted(calls, t), Refused(calls, t);
            && (p.Going? <==> !OverStep(calls, env) && !OverRun(s, calls, env) && t.broken.Never?)
            && (p.Going? ==>
                  && p.state.executed == s.executed + run && p.state.used == s.used + Costs(calls)
                  && p.state.options == s.options
                  && Exchanges(s.history, p.state.history, t.reply.text, run, held, t.tools))
            && (p.Done? ==> p.state.history == s.history)
            && (OverStep(calls, env) ==>
                  p.Done? && p.outcome == PerStepLimit(Costs(calls)) && p.state.executed == s.executed)
            && (!OverStep(calls, env) && OverRun(s, calls, env) ==>
                  p.Done? && p.outcome == TotalLimit(Costs(calls)) && p.state.executed == s.executed)
            && (!OverStep(calls, env) && !OverRun(s, calls, env) && !t.broken.Never? ==>
                  && p.Done? && p.outcome == Broken && p.state.used == s.used + Costs(calls)
                  && p.state.executed == s.executed + run[..match t.broken
                                                           case BeforeCalls => 0
                                                           case During(k) => Min(k, |run|)
                                                           case _ => |run|])
  {
    hide Exchanged, Exchanges, Permitted, Refused;
    var calls := t.reply.calls;
    BudgetedCounts(calls);
    ExchangedIs(s.history, t.reply.text, Permitted(calls, t), Refused(calls, t), t.tools);
  }

  /**
   Outside plan mode everything is run; in plan mode what is read-only, in order, and the rest is held back, in
   order.
   */
  lemma PermittedIs(calls: seq<Call>, more: seq<Call>, c: Call, t: Turn<Reply>)
    ensures !t.planMode ==> Permitted(calls, t) == calls && Refused(calls, t) == []
    ensures Permitted([], t) == Refused([], t) == []
    ensures t.planMode ==>
              && Permitted(calls + [c] + more, t)
              == Permitted(calls, t) + (if t.tools.readOnly(c.name) then [c] else []) + Permitted(more, t)
              && Refused(calls + [c] + more, t)
              == Refused(calls, t) + (if t.tools.readOnly(c.name) then [] else [c]) + Refused(more, t)
  {
    FilterAppend(calls + [c], more, t.tools);
    FilterAppend(calls, [c], t.tools);
    assert [c][1..] == [];
    assert Allowed([c], t.tools) == if t.tools.readOnly(c.name) then [c] else [];
    assert Blocked([c], t.tools) == if t.tools.readOnly(c.name) then [] else [c];
  }

  // ---------------------------------------------------------------- every other reply

  /** A request is made unless the run is cancelled, and only then; an answer is kept, a refusal reported. */
  lemma OtherReplies(s: State, t: Turn<Reply>, env: Env)
    ensures var p := OneStep(s, t, env);
            && p.state.requests == (if t.cancelled then s.requests else s.requests + [Request(s.history, s.options)])
            && (t.cancelled ==> p == Done(Broken, s))
            && (!t.cancelled && t.reply.Interrupted? ==> p.Done? && p.outcome == Broken && p.state.history == s.history)
            && (!t.cancelled && t.reply.Rejected? ==>
                  p.Done? && p.outcome == ProviderError(t.reply.status, t.reply.message) && p.state.history
                      == s.history)
            && (!t.cancelled && t.reply.Answer? ==>
                  && p.Done? && p.outcome == Answered(t.reply.text)
                  && var kept := s.history + [Message(Assistant, [Text(t.reply.text, false)])];
                     p.state.history == if t.compacts then Compaction(kept, 0, env.config, t.summaries) else kept)
            && (!t.cancelled && t.reply.Overflowed? ==>
                  var r := RecoverFrom(0, 0, s.history, s.options, env.pruning, env.config, t.recovery);
                  && (p.Going? <==> r.ok) && (p.Done? ==> p.outcome == OverflowFailed)
                  && p.state.history == r.history && p.state.options == r.options)
  {
    hide Exchanged, Permitted, Refused, Compaction, RecoverFrom;
  }

  // ---------------------------------------------------------------- a run, step by step

  /** From `s` at this step on, every step goes on to the next of these states. */
  ghost predicate Steps(s: State, step: nat, states: seq<State>, turns: nat -> Turn<Reply>, env: Env)
    decreases |states|
  {
    states != [] ==>
      && OneStep(s, turns(step), env) == Going(states[0])
      && Steps(states[0], step + 1, states[1..], turns, env)
  }

  /**
   A run takes one turn after another, each from where the last one ended, and stops at the first that does not go on,
   with its outcome, or when as many have been taken as the limit allows; a limit below one counts as one.
   */
  lemma {:induction false} RunTrail(s: State, step: nat, turns: nat -> Turn<Reply>, env: Env)
    returns (states: seq<State>)
    requires step <= Max(1, env.limits.maxSteps)
    ensures Steps(s, step, states, turns, env) && step + |states| <= Max(1, env.limits.maxSteps)
    ensures var last, n := if states == [] then s else Last(states), step + |states|;
            if n == Max(1, env.limits.maxSteps) then Run(s, step, turns, env) == Done(StepLimit, last)
            else OneStep(last, turns(n), env).Done? && Run(s, step, turns, env) == OneStep(last, turns(n), env)
    decreases Max(1, env.limits.maxSteps) - step
  {
    hide OneStep;
    states := [];
    if step < Max(1, env.limits.maxSteps) {
      RunUnfolds(s, step, turns, env);
      var p := OneStep(s, turns(step), env);
      if p.Going? {
        var rest := RunTrail(p.state, step + 1, turns, env);
        states := [p.state] + rest;
        assert states[1..] == rest;
      }
    }
  }

  lemma {:induction false} ConverseSnoc(x: SessionState, prompts: seq<Prompt>, p: Prompt, env: Env)
    ensures Converse(x, [], env) == x && Converse(x, prompts + [p], env)
         == Converse(Converse(x, prompts, env), [p], env)
    decreases |prompts|
  {
    hide RunPrompt;
    if prompts == [] {
      assert prompts + [p] == [p];
    } else {
      ConsAppend(prompts, [p]);
      var end := RunPrompt(x.history, x.options, prompts[0], env).state;
      ConverseSnoc(SessionState(end.history, end.options, x.requests + end.requests), prompts[1..], p, env);
    }
  }

  /**
   A further prompt runs on the history and the settings the last one left, its system prompt renewed and its text
   said, with fresh counters; an empty one changes nothing and is refused.
   */
  lemma TalkGoesOn(x: SessionState, prompts: seq<Prompt>, p: Prompt, env: Env)
    ensures var y, z := Converse(x, prompts, env), Converse(x, prompts + [p], env);
            if p.text == "" then
              z == y && RunPrompt(y.history, y.options, p, env).outcome == InvalidInput
            else
              var said := Message(User, [Text(p.modelPrompt, false)]);
              var s := State(WithSystemPrompt(y.history, p.systemPrompt) + [said], y.options, 0, [], []);
              var end := Run(s, 0, ReadTurns(p.turns), env);
              && RunPrompt(y.history, y.options, p, env) == end
              && z == SessionState(end.state.history, end.state.options, y.requests + end.state.requests)
  {
    ConverseSnoc(x, prompts, p, env);
    hide Run, WithSystemPrompt;
    var y := Converse(x, prompts, env);
    assert [p][1..] == [];
    assert Converse(y, [p], env) == var end := RunPrompt(y.history, y.options, p, env).state;
                                    Converse(SessionState(end.history, end.options, y.requests + end.requests), [],
                                             env);
    Ends(y.requests);
  }

  // ---------------------------------------------------------------- streamed and whole replies

  /** Reading the reply changes nothing else of a turn. */
  lemma OnlyTheReplyIsRead(turns: nat -> Turn<Raw>, i: nat)
    ensures var t, r := turns(i), ReadTurns(turns)(i);
            && r.reply == Understood(t.reply)
            && r.cancelled == t.cancelled && r.planMode == t.planMode && r.broken == t.broken && r.tools == t.tools
            && r.recovery == t.recovery && r.compacts == t.compacts && r.summaries == t.summaries
  {
  }

  /** The same turn with its streamed reply sent whole. */
  ghost predicate SameTurn(t: Turn<Raw>, w: Turn<Raw>) {
    w == t || (&& t.reply.Streamed? && IsSuccess(t.reply.status)
               && exists indices, calls ::
                    && Cuts(t.reply.deltas, indices, calls)
                    && w == t.(reply := Whole(true, t.reply.status, "", false, calls != [], t.reply.text, calls)))
  }

  lemma SameReply(t: Turn<Raw>, w: Turn<Raw>)
    requires SameTurn(t, w)
    ensures ReadTurn(t) == ReadTurn(w)
  {
    if w != t {
      var indices, calls :|
        && Cuts(t.reply.deltas, indices, calls)
        && w == t.(reply := Whole(true, t.reply.status, "", false, calls != [], t.reply.text, calls));
      var r := t.reply;
      StreamIsRead(r.status, r.overflow, r.raw, r.text, r.deltas, indices, calls);
    }
  }

  /** Whether replies are streamed, and how they are cut into fragments, makes no difference to a run. */
  lemma {:induction false} StreamingMakesNoDifference(s: State, step: nat, turns: nat -> Turn<Raw>,
                                                      whole: nat -> Turn<Raw>,
                                                      env: Env)
    requires forall i: nat :: SameTurn(turns(i), whole(i))
    ensures Run(s, step, ReadTurns(turns), env) == Run(s, step, ReadTurns(whole), env)
    decreases NormalizeLimit(env.limits.maxSteps) - step
  {
    if step < NormalizeLimit(env.limits.maxSteps) {
      hide Understood, OneStep, SameTurn;
      SameReply(turns(step), whole(step));
      assert ReadTurns(turns)(step) == ReadTurns(whole)(step);
      RunUnfolds(s, step, ReadTurns(turns), env);
      RunUnfolds(s, step, ReadTurns(whole), env);
      var p := OneStep(s, ReadTurns(turns)(step), env);
      if p.Going? {
        StreamingMakesNoDifference(p.state, step + 1, turns, whole, env);
      }
    }
  }

  // ---------------------------------------------------------------- the prompt a run goes on with

  lemma OnlySystemAppend(h: History, g: History, m: Message)
    requires OnlySystem(h, m) && NoneIsSystem(g)
    ensures OnlySystem(h + g, m)
  {
    var i: nat :| i < |h| && FirstOfSystem(h, i) && h[i] == m && NoneIsSystem(h[i + 1..]);
    var r := h + g;
    assert r[..i] == h[..i] && r[i + 1..] == h[i + 1..] + g;
    assert FirstOfSystem(r, i);
  }

  lemma ExchangeHasNoSystem(text: string, run: seq<Call>, held: seq<Call>, t: Tools)
    ensures NoneIsSystem(Exchanged(text, run, held, t))
  {
  }

  lemma StepKeepsSystem(s: State, t: Turn<Reply>, env: Env, m: Message)
    requires OnlySystem(s.history, m)
    ensures OnlySystem(OneStep(s, t, env).state.history, m)
  {
    hide OnlySystem, Exchanged, Permitted, Refused, Compaction, RecoverFrom, Budgeted;
    if !t.cancelled {
      match t.reply {
        case Overflowed =>
          RecoveryKeepsSystem(0, 0, s.history, s.options, env.pruning, env.config, t.recovery, m);
        case Answer(text) =>
          var answered := s.history + [TextMessage(Assistant, text)];
          OnlySystemAppend(s.history, [TextMessage(Assistant, text)], m);
          CompactionKeepsOnlySystem(answered, 0, env.config, t.summaries, m);
        case Calls(text, calls) =>
          ExchangeHasNoSystem(text, Permitted(calls, t), Refused(calls, t), t.tools);
          OnlySystemAppend(s.history, Exchanged(text, Permitted(calls, t), Refused(calls, t), t.tools), m);
        case _ =>
      }
    }
  }

  predicate AllWithSystem(requests: seq<Request>, m: Message) {
    forall r | r in requests :: OnlySystem(r.history, m)
  }

  lemma RunKeepsSystem(s: State, step: nat, turns: nat -> Turn<Reply>, env: Env, m: Message)
    requires OnlySystem(s.history, m) && AllWithSystem(s.requests, m)
    ensures var e := Run(s, step, turns, env).state; OnlySystem(e.history, m) && AllWithSystem(e.requests, m)
  {
    var inv := (x: State) => OnlySystem(x.history, m) && AllWithSystem(x.requests, m);
    forall i: nat, x: State | inv(x)
      ensures inv(OneStep(x, turns(i), env).state)
    {
      StepKeepsSystem(x, turns(i), env, m);
      OtherReplies(x, turns(i), env);
      hide OnlySystem, OneStep;
    }
    RunInvariant(s, step, turns, env, inv);
  }

  /**
   Every request of an agent call, before and after compaction and recovery, is made from a history with exactly
   one system message, which says what the prompt of this call says, and the run began with the user's text.
   */
  lemma RequestsCarryThePrompt(h: History, o: Options, p: Prompt, env: Env) returns (m: Message)
    requires p.text != ""
    ensures AllText(m.content) == p.systemPrompt
    ensures var e := RunPrompt(h, o, p, env).state; OnlySystem(e.history, m) && AllWithSystem(e.requests, m)
    ensures Opened(h, p) != [] && Last(Opened(h, p)) == Message(User, [Text(p.modelPrompt, false)])
    ensures NoSystem(Front(Opened(h, p))) == NoSystem(h)
  {
    m := PromptIsCurrent(h, p.systemPrompt);
    var refreshed, said := WithSystemPrompt(h, p.systemPrompt), TextMessage(User, p.modelPrompt);
    SystemIsRefreshed(h, p.systemPrompt);
    assert Front(refreshed + [said]) == refreshed;
    OnlySystemAppend(refreshed, [said], m);
    hide OnlySystem, Run;
    RunKeepsSystem(State(Opened(h, p), o, 0, [], []), 0, ReadTurns(p.turns), env, m);
  }

  lemma SystemIsRefreshed(h: History, text: string)
    ensures NoSystem(WithSystemPrompt(h, text)) == NoSystem(h)
  {
    if HasSystem(h) {
      OneSystemLeft(h, text);
    }
  }
}
