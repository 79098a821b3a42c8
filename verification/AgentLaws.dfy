/** What the step loop guarantees on every run and every exit: pairing end to end, budgets, plan mode. */
module AgentLaws {
  import opened Wrappers
  import opened Texts
  import opened Messages
  import opened ContextPruner
  import opened PrunerLaws
  import opened Conversation
  import opened Compactor
  import opened Session
  import opened ToolCalls
  import opened Adapter
  import opened AgentLoop
  import opened Sequences

  // ---------------------------------------------------------------- invariants of a run

  ghost predicate KeptByEveryStep(inv: State -> bool, turns: nat -> Turn<Reply>, env: Env) {
    forall i: nat, s: State | inv(s) :: inv(OneStep(s, turns(i), env).state)
  }

  /** What every step keeps holds at the end of the run, whichever way it ends. */
  lemma {:induction false} RunInvariant(s: State, step: nat, turns: nat -> Turn<Reply>, env: Env, inv: State -> bool)
    requires inv(s) && KeptByEveryStep(inv, turns, env)
    ensures inv(Run(s, step, turns, env).state)
    decreases NormalizeLimit(env.limits.maxSteps) - step
  {
    if step < NormalizeLimit(env.limits.maxSteps) {
      RunUnfolds(s, step, turns, env);
      var p := OneStep(s, turns(step), env);
      if p.Going? {
        RunInvariant(p.state, step + 1, turns, env, inv);
      }
    }
  }

  ghost predicate KeptStepByStep(inv: (nat, State) -> bool, turns: nat -> Turn<Reply>, env: Env) {
    forall i: nat, s: State | inv(i, s) :: inv(i + 1, OneStep(s, turns(i), env).state)
  }

  /** The same with the number of the step; `k` is where the run ended. */
  lemma {:induction false} RunInvariantAt(s: State, step: nat, turns: nat -> Turn<Reply>, env: Env,
                                          inv: (nat, State) -> bool)
    returns (k: nat)
    requires inv(step, s) && KeptStepByStep(inv, turns, env) && step <= NormalizeLimit(env.limits.maxSteps)
    ensures step <= k <= NormalizeLimit(env.limits.maxSteps) && inv(k, Run(s, step, turns, env).state)
    decreases NormalizeLimit(env.limits.maxSteps) - step
  {
    k := step;
    if step < NormalizeLimit(env.limits.maxSteps) {
      RunUnfolds(s, step, turns, env);
      var p := OneStep(s, turns(step), env);
      k := step + 1;
      if p.Going? {
        k := RunInvariantAt(p.state, step + 1, turns, env, inv);
      }
    }
  }

  // ---------------------------------------------------------------- one completed step

  lemma {:induction false} AnswersIds(results: seq<CallResult>)
    ensures AllResultIds(Answers(results)) == AnsweredIds(results)
    ensures ToolOnly(Answers(results))
  {
    forall k | 0 <= k < |results|
      ensures var m := Answers(results)[k]; ResultIds(m.content) == [results[k].callId] && UseIds(m.content) == []
    {
      SingleBlock(Answers(results)[k].content[0]);
    }
    if results != [] {
      AnswersIds(results[1..]);
      assert Answers(results)[1..] == Answers(results[1..]);
      assert AnsweredIds(results) == [results[0].callId] + AnsweredIds(results[1..]);
    }
  }

  lemma {:induction false} AllResultIdsAppend(a: History, b: History)
    ensures AllResultIds(a + b) == AllResultIds(a) + AllResultIds(b)
  {
    if a == [] {
      assert a + b == b;
    } else {
      assert (a + b)[1..] == a[1..] + b;
      AllResultIdsAppend(a[1..], b);
    }
  }

  lemma {:induction false} UseBlocksAnswerNothing(calls: seq<Call>)
    ensures Results(UseBlocks(calls)) == []
  {
    if calls != [] {
      UseBlocksAnswerNothing(calls[1..]);
      assert UseBlocks(calls)[1..] == UseBlocks(calls[1..]);
    }
  }

  lemma CallerMessage(text: string, calls: seq<Call>)
    ensures Uses([Text(text, false)] + UseBlocks(calls)) == calls
    ensures Results([Text(text, false)] + UseBlocks(calls)) == []
  {
    var content := [Text(text, false)] + UseBlocks(calls);
    assert content[1..] == UseBlocks(calls);
    UseBlocksFacts(calls, text);
    UseBlocksAnswerNothing(calls);
  }

  lemma IdsOfBoth(allowed: seq<Call>, blocked: seq<Call>, t: Tools)
    ensures AnsweredIds(ExecuteAll(allowed, t)) + AnsweredIds(BlockedResults(blocked)) == CallIds(allowed + blocked)
  {
    var x, y := ExecuteAll(allowed, t), BlockedResults(blocked);
    assert AnsweredIds(x) == CallIds(allowed);
    assert AnsweredIds(y) == CallIds(blocked);
    assert CallIds(allowed) + CallIds(blocked) == CallIds(allowed + blocked);
  }

  /** The results appended, in order: each permitted call's own execution, then a refusal per blocked call. */
  lemma ExchangedResults(allowed: seq<Call>, blocked: seq<Call>, t: Tools)
    ensures var run := Answers(ExecuteAll(allowed, t)) + Answers(BlockedResults(blocked));
            ToolOnly(run) && AllResultIds(run) == CallIds(allowed + blocked)
  {
    var x, y := ExecuteAll(allowed, t), BlockedResults(blocked);
    AnswersIds(x);
    AnswersIds(y);
    AllResultIdsAppend(Answers(x), Answers(y));
    IdsOfBoth(allowed, blocked, t);
  }

  /** A completed step is one exchange: every call, permitted or blocked, answered in order and nothing else. */
  lemma ExchangedPaired(text: string, allowed: seq<Call>, blocked: seq<Call>, t: Tools)
    ensures Exchange(Exchanged(text, allowed, blocked, t)) && Paired(Exchanged(text, allowed, blocked, t))
  {
    var g := Exchanged(text, allowed, blocked, t);
    CallerMessage(text, allowed + blocked);
    ExchangedResults(allowed, blocked, t);
    var run := Answers(ExecuteAll(allowed, t)) + Answers(BlockedResults(blocked));
    assert g[1..] == run;
    forall k | 1 <= k < |g|
      ensures g[k].role == Tool && ResultIds(g[k].content) != [] && UseIds(g[k].content) == []
    {
      assert g[k] == run[k - 1];
    }
    ExchangePaired(g);
  }

  /** The step's message names exactly the calls of the reply, whatever plan mode held back. */
  lemma StepKeepsEveryCall(text: string, calls: seq<Call>, t: Turn<Reply>)
    ensures multiset(Uses(Exchanged(text, Permitted(calls, t), Refused(calls, t), t.tools)[0].content))
         == multiset(calls)
    ensures |Exchanged(text, Permitted(calls, t), Refused(calls, t), t.tools)| == 1 + |calls|
  {
    CallerMessage(text, Permitted(calls, t) + Refused(calls, t));
    FilterPartitions(calls, t.tools);
    if !t.planMode {
      assert calls + [] == calls;
    }
  }

  // ---------------------------------------------------------------- pairing on every run

  predicate RequestsPaired(requests: seq<Request>) {
    forall r | r in requests :: Paired(r.history)
  }

  lemma TextMessagePaired(role: Role, text: string)
    requires role != Tool
    ensures Paired([TextMessage(role, text)])
  {
    var m := TextMessage(role, text);
    SingleBlock(m.content[0]);
    PlainStep(m);
  }

  lemma FinalPaired(h: History, text: string, t: Turn<Reply>, c: Config)
    requires Paired(h)
    ensures Paired(FinalHistory(h, text, t, c))
  {
    var m := TextMessage(Assistant, text);
    TextMessagePaired(Assistant, text);
    PairedAppend(h, [m]);
    CompactionKeepsPairing(h + [m], 0, c, t.summaries);
  }

  lemma CallsPaired(s: State, text: string, calls: seq<Call>, t: Turn<Reply>, limits: Limits)
    requires Paired(s.history)
    ensures Paired(HandleCalls(s, text, calls, t, limits).state.history)
  {
    hide Scan, Exchanged, Permitted, Refused;
    var g := Exchanged(text, Permitted(calls, t), Refused(calls, t), t.tools);
    ExchangedPaired(text, Permitted(calls, t), Refused(calls, t), t.tools);
    PairedAppend(s.history, g);
  }

  lemma ReactPaired(s: State, t: Turn<Reply>, env: Env)
    requires Paired(s.history)
    ensures Paired(React(s, t, env).state.history) && React(s, t, env).state.requests == s.requests
  {
    hide Scan, RecoverFrom, FinalHistory, Exchanged;
    match t.reply {
      case Overflowed =>
        RecoveryKeepsPairing(0, 0, s.history, s.options, env.pruning, env.config, t.recovery);
      case Answer(text) =>
        FinalPaired(s.history, text, t, env.config);
      case Calls(text, calls) =>
        CallsPaired(s, text, calls, t, env.limits);
      case _ =>
    }
  }

  lemma OneStepPaired(s: State, t: Turn<Reply>, env: Env)
    requires Paired(s.history) && RequestsPaired(s.requests)
    ensures Paired(OneStep(s, t, env).state.history) && RequestsPaired(OneStep(s, t, env).state.requests)
  {
    ReactPaired(s.(requests := s.requests + [Request(s.history, s.options)]), t, env);
  }

  /**
   Whatever the model and the tools do, and however the run ends, the history it leaves and every
   history it made a request from is paired.
   */
  lemma RunKeepsPairing(s: State, step: nat, turns: nat -> Turn<Reply>, env: Env)
    requires Paired(s.history) && RequestsPaired(s.requests)
    ensures Paired(Run(s, step, turns, env).state.history) && RequestsPaired(Run(s, step, turns, env).state.requests)
  {
    var inv := (x: State) => Paired(x.history) && RequestsPaired(x.requests);
    forall i: nat, x: State | inv(x)
      ensures inv(OneStep(x, turns(i), env).state)
    {
      OneStepPaired(x, turns(i), env);
    }
    RunInvariant(s, step, turns, env, inv);
  }

  // ---------------------------------------------------------------- budgets

  lemma {:induction false} PrefixBudget(calls: seq<Call>, k: nat)
    requires k <= |calls|
    ensures Budgeted(calls[..k]) <= Budgeted(calls)
  {
    assert calls == calls[..k] + calls[k..];
    BudgetedAppend(calls[..k], calls[k..]);
  }

  predicate WithinBudget(s: State, limits: Limits) {
    Budgeted(s.executed) <= s.used <= NormalizeLimit(limits.maxCalls)
  }

  /** What a turn's calls may use and execute: everything executed was counted before. */
  lemma CallsWithinBudget(s: State, text: string, calls: seq<Call>, t: Turn<Reply>, limits: Limits)
    requires WithinBudget(s, limits)
    ensures var e := HandleCalls(s, text, calls, t, limits).state;
            WithinBudget(e, limits) && e.used - s.used <= NormalizeLimit(limits.maxPerStep) && e.requests == s.requests
  {
    var allowed := Permitted(calls, t);
    FilterSeparates(calls, t.tools);
    BudgetedAppend(s.executed, allowed);
    hide Exchanged, Budgeted, Allowed, Refused;
    if t.broken.During? {
      var k := Min(t.broken.k, |allowed|);
      PrefixBudget(allowed, k);
      BudgetedAppend(s.executed, allowed[..k]);
    }
  }

  lemma ReactWithinBudget(s: State, t: Turn<Reply>, env: Env)
    requires WithinBudget(s, env.limits)
    ensures WithinBudget(React(s, t, env).state, env.limits)
    ensures React(s, t, env).state.used - s.used <= NormalizeLimit(env.limits.maxPerStep)
    ensures React(s, t, env).state.requests == s.requests
  {
    match t.reply {
      case Calls(text, calls) => CallsWithinBudget(s, text, calls, t, env.limits);
      case _ =>
    }
  }

  /** One step executes at most `maxPerStep` budgeted calls. */
  lemma OneStepBudget(s: State, t: Turn<Reply>, env: Env)
    requires WithinBudget(s, env.limits)
    ensures WithinBudget(OneStep(s, t, env).state, env.limits)
    ensures OneStep(s, t, env).state.used - s.used <= Max(1, env.limits.maxPerStep)
  {
    ReactWithinBudget(s.(requests := s.requests + [Request(s.history, s.options)]), t, env);
  }

  lemma OneMoreRequest(s: State, t: Turn<Reply>, env: Env)
    ensures |OneStep(s, t, env).state.requests| <= |s.requests| + 1
  {
    var s1 := s.(requests := s.requests + [Request(s.history, s.options)]);
    assert React(s1, t, env).state.requests == s1.requests;
  }

  /** A run executes at most `maxCalls` budgeted calls and makes at most `maxSteps` requests. */
  lemma RunWithinBudget(s: State, step: nat, turns: nat -> Turn<Reply>, env: Env)
    requires WithinBudget(s, env.limits) && |s.requests| <= step <= NormalizeLimit(env.limits.maxSteps)
    ensures Budgeted(Run(s, step, turns, env).state.executed) <= Max(1, env.limits.maxCalls)
    ensures |Run(s, step, turns, env).state.requests| <= Max(1, env.limits.maxSteps)
  {
    var inv := (i: nat, x: State) => WithinBudget(x, env.limits) && |x.requests| <= i;
    forall i: nat, x: State | inv(i, x)
      ensures inv(i + 1, OneStep(x, turns(i), env).state)
    {
      OneStepBudget(x, turns(i), env);
      OneMoreRequest(x, turns(i), env);
    }
    var _ := RunInvariantAt(s, step, turns, env, inv);
  }

  // ---------------------------------------------------------------- plan mode

  /** A tool call a run executes, and the step that does. */
  datatype Execution = Execution(step: nat, call: Call)

  function Stamped(step: nat, calls: seq<Call>): (x: seq<Execution>)
    ensures |x| == |calls| && forall k | 0 <= k < |x| :: x[k] == Execution(step, calls[k])
  {
    seq(|calls|, k requires 0 <= k < |calls| => Execution(step, calls[k]))
  }

  function CallsOf(xs: seq<Execution>): (calls: seq<Call>)
    ensures |calls| == |xs| && forall k | 0 <= k < |calls| :: calls[k] == xs[k].call
  {
    seq(|xs|, k requires 0 <= k < |xs| => xs[k].call)
  }

  function NewlyExecuted(s: State, t: Turn<Reply>, env: Env): seq<Call> {
    var after := OneStep(s, t, env).state.executed;
    if |s.executed| <= |after| then after[|s.executed|..] else []
  }

  /** Every execution of a run in order, each with its step. */
  function Executions(s: State, step: nat, turns: nat -> Turn<Reply>, env: Env): seq<Execution>
    decreases NormalizeLimit(env.limits.maxSteps) - step
  {
    if step >= NormalizeLimit(env.limits.maxSteps) then []
    else
      var p := OneStep(s, turns(step), env);
      Stamped(step, NewlyExecuted(s, turns(step), env))
      + if p.Going? then Executions(p.state, step + 1, turns, env) else []
  }

  /** A call of this turn's reply, and a read-only one if the turn is in plan mode. */
  predicate Permissible(call: Call, t: Turn<Reply>) {
    && !t.cancelled && t.reply.Calls? && call in t.reply.calls
    && (t.planMode ==> t.tools.readOnly(call.name))
  }

  lemma PermittedAre(calls: seq<Call>, t: Turn<Reply>)
    ensures forall c | c in Permitted(calls, t) :: c in calls && (t.planMode ==> t.tools.readOnly(c.name))
  {
    FilterPartitions(calls, t.tools);
    FilterSeparates(calls, t.tools);
    forall c | c in Allowed(calls, t.tools)
      ensures c in calls
    {
      assert c in multiset(Allowed(calls, t.tools));
      assert c in multiset(calls);
    }
  }

  lemma StepExecutes(s: State, t: Turn<Reply>, env: Env)
    ensures OneStep(s, t, env).state.executed == s.executed + NewlyExecuted(s, t, env)
    ensures forall c | c in NewlyExecuted(s, t, env) :: Permissible(c, t)
  {
    hide Allowed, Blocked, Budgeted, Exchanged, RecoverFrom, FinalHistory, Permitted, Refused;
    var after := OneStep(s, t, env).state.executed;
    if !t.cancelled && t.reply.Calls? {
      var allowed := Permitted(t.reply.calls, t);
      PermittedAre(t.reply.calls, t);
      var k := if t.broken.During? then Min(t.broken.k, |allowed|) else |allowed|;
      Ends(allowed);
      Ends(s.executed);
      assert after == s.executed || after == s.executed + allowed[..k];
    } else {
      assert after == s.executed;
    }
  }

  ghost predicate AllPermissible(xs: seq<Execution>, step: nat, turns: nat -> Turn<Reply>, env: Env) {
    forall x | x in xs :: step <= x.step < NormalizeLimit(env.limits.maxSteps) && Permissible(x.call, turns(x.step))
  }

  lemma StampedPermissible(s: State, step: nat, turns: nat -> Turn<Reply>, env: Env)
    requires step < NormalizeLimit(env.limits.maxSteps)
    ensures var now := Stamped(step, NewlyExecuted(s, turns(step), env));
            AllPermissible(now, step, turns, env) && CallsOf(now) == NewlyExecuted(s, turns(step), env)
  {
    hide NewlyExecuted, Permissible;
    StepExecutes(s, turns(step), env);
  }

  lemma PermissibleAppend(now: seq<Execution>, later: seq<Execution>, step: nat, turns: nat -> Turn<Reply>, env: Env)
    requires AllPermissible(now, step, turns, env) && AllPermissible(later, step + 1, turns, env)
    ensures AllPermissible(now + later, step, turns, env) && CallsOf(now + later) == CallsOf(now) + CallsOf(later)
  {
    hide Permissible;
  }

  /** What is executed from a step on accounts for what the run has executed in the end, and was permissible. */
  ghost predicate Accounted(s: State, step: nat, turns: nat -> Turn<Reply>, env: Env) {
    var xs := Executions(s, step, turns, env);
    AllPermissible(xs, step, turns, env) && Run(s, step, turns, env).state.executed == s.executed + CallsOf(xs)
  }

  lemma NoStepLeft(s: State, step: nat, turns: nat -> Turn<Reply>, env: Env)
    requires step >= NormalizeLimit(env.limits.maxSteps)
    ensures Accounted(s, step, turns, env)
  {
    hide OneStep, Permissible;
    assert CallsOf([]) == [];
    Ends(s.executed);
  }

  lemma RunStopsHere(s: State, step: nat, turns: nat -> Turn<Reply>, env: Env)
    requires step < NormalizeLimit(env.limits.maxSteps) && OneStep(s, turns(step), env).Done?
    ensures Accounted(s, step, turns, env)
  {
    var now := Stamped(step, NewlyExecuted(s, turns(step), env));
    StepExecutes(s, turns(step), env);
    StampedPermissible(s, step, turns, env);
    hide OneStep, NewlyExecuted, AllPermissible;
    Ends(now);
  }

  lemma RunGoesOn(s: State, step: nat, turns: nat -> Turn<Reply>, env: Env, p: Progress)
    requires step < NormalizeLimit(env.limits.maxSteps) && p == OneStep(s, turns(step), env) && p.Going?
    requires Accounted(p.state, step + 1, turns, env)
    ensures Accounted(s, step, turns, env)
  {
    var now, later := Stamped(step, NewlyExecuted(s, turns(step), env)), Executions(p.state, step + 1, turns, env);
    StepExecutes(s, turns(step), env);
    StampedPermissible(s, step, turns, env);
    PermissibleAppend(now, later, step, turns, env);
    RunUnfolds(s, step, turns, env);
    Assoc(s.executed, CallsOf(now), CallsOf(later));
    hide OneStep, NewlyExecuted, AllPermissible, Run;
  }

  lemma {:induction false} AlwaysAccounted(s: State, step: nat, turns: nat -> Turn<Reply>, env: Env)
    ensures Accounted(s, step, turns, env)
    decreases NormalizeLimit(env.limits.maxSteps) - step
  {
    hide Accounted, OneStep;
    if step >= NormalizeLimit(env.limits.maxSteps) {
      NoStepLeft(s, step, turns, env);
    } else {
      var p := OneStep(s, turns(step), env);
      if p.Going? {
        AlwaysAccounted(p.state, step + 1, turns, env);
        RunGoesOn(s, step, turns, env, p);
      } else {
        RunStopsHere(s, step, turns, env);
      }
    }
  }

  /**
   Everything a run executes was asked for by the reply of the step that executes it, and in a step in plan
   mode it is read-only, whatever the steps before and after it do.
   */
  lemma PlanModeOnlyReads(s: State, step: nat, turns: nat -> Turn<Reply>, env: Env)
    ensures Run(s, step, turns, env).state.executed == s.executed + CallsOf(Executions(s, step, turns, env))
    ensures forall x | x in Executions(s, step, turns, env) ::
              step <= x.step < NormalizeLimit(env.limits.maxSteps) && Permissible(x.call, turns(x.step))
  {
    hide Run, Executions, Permissible;
    AlwaysAccounted(s, step, turns, env);
  }

  // ---------------------------------------------------------------- the shape of histories the loop builds

  /** One result per tool message, and no assistant message that stripping would delete. */
  predicate Regular(m: Message) {
    && (m.role == Tool ==> |Results(m.content)| == 1)
    && (m.role == Assistant ==> Survives(m))
  }

  predicate Shaped(h: History) {
    forall m | m in h :: Regular(m)
  }

  lemma ShapedIs(h: History)
    ensures Shaped(h) <==> OneResultEach(h) && AllSurvive(h)
  {
    if Shaped(h) {
      assert forall i | 0 <= i < |h| && h[i].role == Tool :: h[i] in h && Regular(h[i]);
    }
    if OneResultEach(h) && AllSurvive(h) {
      forall m | m in h
        ensures Regular(m)
      {
        var i :| 0 <= i < |h| && h[i] == m;
      }
    }
  }

  /** `a` is made of messages of `b` and plain text messages. */
  predicate DrawnFrom(a: History, b: History) {
    forall m | m in a :: m in b || IsText(m)
  }

  predicate IsText(m: Message) {
    m.role != Tool && |m.content| == 1 && m.content[0].Text? && !m.content[0].thinking
  }

  lemma DrawnIsShaped(a: History, b: History)
    requires DrawnFrom(a, b) && Shaped(b)
    ensures Shaped(a)
  {
  }

  lemma {:induction false} FlattenSuffix(rounds: seq<Round>, k: nat)
    requires k <= |rounds|
    ensures forall m | m in Flatten(rounds[k..]) :: m in Flatten(rounds)
  {
    assert rounds == rounds[..k] + rounds[k..];
    FlattenAppend(rounds[..k], rounds[k..]);
  }

  lemma {:induction false} FilteredMembers(h: History)
    ensures forall m | m in NoSystem(h) :: m in h
    ensures forall m | m in FromFirstUser(h) :: m in h
    ensures forall m | m in FirstSystem(h) :: m in h
  {
    if h != [] {
      FilteredMembers(h[1..]);
    }
  }

  lemma {:induction false} SummaryRoundsAreText(rounds: seq<Round>, n: nat, summaries: map<nat, string>)
    requires n <= |rounds|
    ensures forall m | m in Flatten(SummaryRounds(rounds, n, summaries)) :: IsText(m)
  {
    if n > 0 {
      SummaryRoundsAreText(rounds, n - 1, summaries);
      var before := SummaryRounds(rounds, n - 1, summaries);
      if n - 1 in summaries {
        var r := SummaryRound(rounds[n - 1], summaries[n - 1]);
        FlattenAppend(before, [r]);
        FlattenOne(r);
      } else {
        assert before + [] == before;
      }
    }
  }

  lemma CompactionDraws(h: History, override: int, c: Config, answer: nat -> string)
    ensures DrawnFrom(Compaction(h, override, c, answer), h)
  {
    hide Rounds, Flatten, SummaryRounds, KeepCount, NoSystem, FirstSystem, FromFirstUser, Summaries, IsText;
    var rounds := Rounds(h);
    if |rounds| > 1 {
      var keep := KeepCount(rounds, override, c);
      SummaryRoundsAreText(rounds, |rounds| - keep, Summaries(rounds[..|rounds| - keep], answer));
      FlattenSuffix(rounds, |rounds| - keep);
      RoundsPartition(h);
      FilteredMembers(h);
      FilteredMembers(NoSystem(h));
    }
  }

  lemma {:induction false} RecoveryDraws(i: nat, calls: nat, h: History, o: Options, enabled: bool, c: Config,
                                         r: Recovery)
    requires i <= |LEVELS|
    ensures DrawnFrom(RecoverFrom(i, calls, h, o, enabled, c, r).history, h)
    decreases |LEVELS| - i
  {
    if i < |LEVELS| {
      var l := OneLevel(i, calls, h, o, enabled, c, r);
      CompactionDraws(h, LevelKeep(i, c), c, r.answers(calls));
      RecoveryDraws(i + 1, l.calls, l.history, l.options, enabled, c, r);
    }
  }

  lemma ExchangedShaped(text: string, allowed: seq<Call>, blocked: seq<Call>, t: Tools)
    ensures Shaped(Exchanged(text, allowed, blocked, t))
  {
    var g := Exchanged(text, allowed, blocked, t);
    forall results: seq<CallResult>, i | 0 <= i < |results|
      ensures Regular(Answers(results)[i])
    {
      SingleBlock(Answers(results)[i].content[0]);
    }
    assert g[0].content[0].Text? && SpokenText(g[0].content) != [];
  }

  predicate RequestsShaped(requests: seq<Request>) {
    forall r | r in requests :: Shaped(r.history)
  }

  lemma FinalShaped(h: History, text: string, t: Turn<Reply>, c: Config)
    requires Shaped(h)
    ensures Shaped(FinalHistory(h, text, t, c))
  {
    var m := TextMessage(Assistant, text);
    assert SpokenText(m.content) != [];
    hide Compaction, SpokenText, IsText;
    CompactionDraws(h + [m], 0, c, t.summaries);
  }

  lemma CallsShaped(s: State, text: string, calls: seq<Call>, t: Turn<Reply>, limits: Limits)
    requires Shaped(s.history)
    ensures Shaped(HandleCalls(s, text, calls, t, limits).state.history)
  {
    ExchangedShaped(text, Permitted(calls, t), Refused(calls, t), t.tools);
  }

  lemma ReactShaped(s: State, t: Turn<Reply>, env: Env)
    requires Shaped(s.history)
    ensures Shaped(React(s, t, env).state.history) && React(s, t, env).state.requests == s.requests
  {
    match t.reply {
      case Overflowed =>
        RecoveryDraws(0, 0, s.history, s.options, env.pruning, env.config, t.recovery);
        DrawnIsShaped(RecoverFrom(0, 0, s.history, s.options, env.pruning, env.config, t.recovery).history, s.history);
      case Answer(text) =>
        FinalShaped(s.history, text, t, env.config);
      case Calls(text, calls) =>
        CallsShaped(s, text, calls, t, env.limits);
      case _ =>
    }
  }

  lemma OneStepShaped(s: State, t: Turn<Reply>, env: Env)
    requires Shaped(s.history) && RequestsShaped(s.requests)
    ensures Shaped(OneStep(s, t, env).state.history) && RequestsShaped(OneStep(s, t, env).state.requests)
  {
    ReactShaped(s.(requests := s.requests + [Request(s.history, s.options)]), t, env);
  }

  /** Every history a run passes through holds one result per tool message and nothing stripping would delete. */
  lemma RunKeepsShape(s: State, step: nat, turns: nat -> Turn<Reply>, env: Env)
    requires Shaped(s.history) && RequestsShaped(s.requests)
    ensures Shaped(Run(s, step, turns, env).state.history) && RequestsShaped(Run(s, step, turns, env).state.requests)
  {
    var inv := (x: State) => Shaped(x.history) && RequestsShaped(x.requests);
    forall i: nat, x: State | inv(x)
      ensures inv(OneStep(x, turns(i), env).state)
    {
      OneStepShaped(x, turns(i), env);
    }
    RunInvariant(s, step, turns, env, inv);
  }

  // ---------------------------------------------------------------- on the wire

  lemma {:induction false} PruneKeepsSingleResults(h: History, gov: int, after: nat, o: Options)
    requires OneResultEach(h)
    ensures OneResultEach(PruneFrom(h, gov, after, o).messages)
  {
    if h != [] {
      var m := h[0];
      var d := if m.role == Assistant then Assistants(h) + after else gov;
      assert forall i | 0 <= i < |h[1..]| :: h[1..][i] == h[i + 1];
      PruneKeepsSingleResults(h[1..], d, after, o);
      SoftBlocksKeepIds(m.content, o);
      assert forall x | x in PruneMessage(m, d, o).messages && x.role == Tool :: |Results(x.content)| == 1;
    }
  }

  /** The full pruning of a paired history with single results is accepted by either API. */
  lemma PrunedIsAccepted(h: History, o: Options, api: Api)
    requires Paired(h) && OneResultEach(h)
    ensures Acceptable(PayloadOf(api, Pruned(h, o).messages))
  {
    PruneKeepsPairing(h, o);
    PruneKeepsSingleResults(h, -1, 0, o);
    hide Pruned;
    UnsplitPairedIff(Pruned(h, o).messages);
    AnthropicPaired(Pruned(h, o).messages, []);
  }

  predicate Accepted(sent: Option<Payload>) {
    sent.Some? && Acceptable(sent.value)
  }

  predicate ZonesApart(requests: seq<Request>, i: nat)
    requires i <= |requests|
  {
    forall j | 0 <= j < i :: SeparateZones(requests[j].options)
  }

  lemma RequestIsExact(requests: seq<Request>, i: nat)
    requires RequestsShaped(requests) && i <= |requests| && ZonesApart(requests, i)
    ensures ExactUpTo(requests, i)
  {
    forall j | 0 <= j < i
      ensures Exact(requests[j])
    {
      assert requests[j] in requests;
      ShapedIs(requests[j].history);
    }
  }

  lemma ExactRequestIsAccepted(r: Request, requests: seq<Request>, api: Api)
    requires r in requests && RequestsPaired(requests) && RequestsShaped(requests)
    ensures Acceptable(FullPayload(api, r))
  {
    ShapedIs(r.history);
    PrunedIsAccepted(r.history, r.options, api);
  }

  lemma SentAreAccepted(requests: seq<Request>, sent: seq<Option<Payload>>, api: Api)
    requires RequestsPaired(requests) && RequestsShaped(requests) && SentFrom(sent, requests, api, true)
    ensures forall i | 0 <= i < |sent| && ZonesApart(requests, i + 1) :: Accepted(sent[i])
  {
    forall i | 0 <= i < |sent| && ZonesApart(requests, i + 1)
      ensures Accepted(sent[i])
    {
      RequestIsExact(requests, i + 1);
      ExactRequestIsAccepted(requests[i], requests, api);
    }
  }

  /**
   End to end: a run from a paired, regular history sends only arrays the API accepts, for as long as
   the prune settings keep the protected and the stripped zone apart.
   */
  lemma SentIsAccepted(s: State, turns: nat -> Turn<Reply>, env: Env, api: Api, sent: seq<Option<Payload>>)
    requires Paired(s.history) && Shaped(s.history) && s.requests == [] && env.pruning
    requires SentFrom(sent, Run(s, 0, turns, env).state.requests, api, true)
    ensures var requests := Run(s, 0, turns, env).state.requests;
            |sent| == |requests|
            && forall i | 0 <= i < |sent| && ZonesApart(requests, i + 1) :: Accepted(sent[i])
  {
    RunKeepsPairing(s, 0, turns, env);
    RunKeepsShape(s, 0, turns, env);
    SentAreAccepted(Run(s, 0, turns, env).state.requests, sent, api);
  }

  // ---------------------------------------------------------------- when the zones stay apart

  ghost predicate NeverOverflows(turns: nat -> Turn<Reply>) {
    forall i: nat :: !turns(i).reply.Overflowed?
  }

  predicate SameOptions(requests: seq<Request>, o: Options) {
    forall r | r in requests :: r.options == o
  }

  /** Only overflow recovery changes the prune settings, and it leaves the protected zone as it is. */
  lemma StepKeepsOptions(s: State, t: Turn<Reply>, env: Env)
    ensures var e := OneStep(s, t, env).state;
            && (t.cancelled || !t.reply.Overflowed? ==> e.options == s.options)
            && e.options.protectRecent == s.options.protectRecent
            && (e.requests == s.requests || e.requests == s.requests + [Request(s.history, s.options)])
  {
    hide Budgeted, Permitted, Refused, Exchanged, FinalHistory, RecoverFrom;
    if !t.cancelled && t.reply.Overflowed? {
      RecoveryKeepsProtection(0, 0, s.history, s.options, env.pruning, env.config, t.recovery);
    }
  }

  /** Overflow recovery is the only way the prune settings change. */
  lemma OptionsStay(s: State, step: nat, turns: nat -> Turn<Reply>, env: Env)
    requires NeverOverflows(turns) && SameOptions(s.requests, s.options)
    ensures SameOptions(Run(s, step, turns, env).state.requests, s.options)
    ensures Run(s, step, turns, env).state.options == s.options
  {
    var inv := (x: State) => x.options == s.options && SameOptions(x.requests, s.options);
    forall i: nat, x: State | inv(x)
      ensures inv(OneStep(x, turns(i), env).state)
    {
      StepKeepsOptions(x, turns(i), env);
    }
    RunInvariant(s, step, turns, env, inv);
  }

  /** Without an overflow, settings that keep the zones apart make every request of the run acceptable. */
  lemma OrdinaryRunIsAccepted(s: State, turns: nat -> Turn<Reply>, env: Env, api: Api, sent: seq<Option<Payload>>)
    requires Paired(s.history) && Shaped(s.history) && s.requests == [] && env.pruning
    requires NeverOverflows(turns) && SeparateZones(s.options)
    requires SentFrom(sent, Run(s, 0, turns, env).state.requests, api, true)
    ensures forall i | 0 <= i < |sent| :: Accepted(sent[i])
  {
    var requests := Run(s, 0, turns, env).state.requests;
    OptionsStay(s, 0, turns, env);
    SentIsAccepted(s, turns, env, api, sent);
    forall i | 0 <= i < |sent|
      ensures Accepted(sent[i])
    {
      assert forall j | 0 <= j < i + 1 :: requests[j] in requests;
      assert ZonesApart(requests, i + 1);
    }
  }

  // ---------------------------------------------------------------- whole sessions

  /** One call of the agent: the user's text, the prompts built from it, and the turns that follow. */
  datatype Prompt = Prompt(text: string, systemPrompt: string, modelPrompt: string, turns: nat -> Turn<Raw>)

  function Opened(h: History, p: Prompt): History {
    WithSystemPrompt(h, p.systemPrompt) + [TextMessage(User, p.modelPrompt)]
  }

  function RunPrompt(h: History, o: Options, p: Prompt, env: Env): Progress {
    if p.text == "" then Done(InvalidInput, State(h, o, 0, [], []))
    else Run(State(Opened(h, p), o, 0, [], []), 0, ReadTurns(p.turns), env)
  }

  method RunSession(history: ConversationHistory, compactor: Compactor, api: Api, p: Prompt, limits: Limits)
    returns (outcome: Outcome, sent: seq<Option<Payload>>, ghost requests: seq<Request>)
    requires history.Valid()
    modifies history, compactor
    ensures history.Valid() && history.pruneEnabled == old(history.pruneEnabled)
    ensures var end := RunPrompt(old(history.messages), old(history.pruneOptions), p,
                                 Env(limits, old(history.pruneEnabled), compactor.config));
            && outcome == end.outcome && history.messages == end.state.history
            && history.pruneOptions == end.state.options && requests == end.state.requests
    ensures LogsSound(old(history.Current()), sent, requests, api, history.pruneEnabled)
    ensures old(history.Current()) && ExactUpTo(requests, |requests|) ==> history.Current()
    ensures outcome == OverflowFailed && history.pruneEnabled ==> history.Current() && !history.pruneDirty
    ensures old(history.messages) == WithSystemPrompt(old(history.messages), p.systemPrompt) && sent != [] ==>
              sent[0] == Sent(api, old(history.NextView(TextMessage(User, p.modelPrompt))))
  {
    sent, requests := [], [];
    if p.text == "" {
      outcome := InvalidInput;
      return;
    }
    var _ := history.SetSystemPrompt(p.systemPrompt);
    history.AddUser(p.modelPrompt);
    var used, executed;
    outcome, used, executed, sent, requests := RunSteps(history, compactor, api, p.turns, limits);
  }

  lemma {:induction false} RenewedMembers(h: History, text: string)
    ensures DrawnFrom(FirstSystemRenewed(h, text), h) && DrawnFrom(NoSystem(h), h)
  {
    if h != [] {
      RenewedMembers(h[1..], text);
    }
  }

  lemma OpenedIsSound(h: History, p: Prompt)
    requires Paired(h) && Shaped(h)
    ensures Paired(Opened(h, p)) && Shaped(Opened(h, p))
  {
    SystemPromptKeepsPairing(h, p.systemPrompt);
    RenewedMembers(h, p.systemPrompt);
    var m := TextMessage(User, p.modelPrompt);
    TextMessagePaired(User, p.modelPrompt);
    PairedAppend(WithSystemPrompt(h, p.systemPrompt), [m]);
  }

  datatype SessionState = SessionState(history: History, options: Options, requests: seq<Request>)

  /** A session: one prompt after another, each run starting where the last one ended, however it ended. */
  function Converse(x: SessionState, prompts: seq<Prompt>, env: Env): SessionState
    decreases |prompts|
  {
    if prompts == [] then x
    else
      var end := RunPrompt(x.history, x.options, prompts[0], env).state;
      Converse(SessionState(end.history, end.options, x.requests + end.requests), prompts[1..], env)
  }

  /** In any session, whatever model, tools and exits, every history and every request stays paired and regular. */
  lemma {:induction false} SessionStaysPaired(x: SessionState, prompts: seq<Prompt>, env: Env)
    requires Paired(x.history) && Shaped(x.history)
    requires RequestsPaired(x.requests) && RequestsShaped(x.requests)
    ensures var y := Converse(x, prompts, env);
            Paired(y.history) && Shaped(y.history) && RequestsPaired(y.requests) && RequestsShaped(y.requests)
    decreases |prompts|
  {
    if prompts != [] {
      var p := prompts[0];
      var end := RunPrompt(x.history, x.options, p, env).state;
      if p.text != "" {
        OpenedIsSound(x.history, p);
        var s := State(Opened(x.history, p), x.options, 0, [], []);
        RunKeepsPairing(s, 0, ReadTurns(p.turns), env);
        RunKeepsShape(s, 0, ReadTurns(p.turns), env);
      }
      SessionStaysPaired(SessionState(end.history, end.options, x.requests + end.requests), prompts[1..], env);
    }
  }

  lemma ConverseStep(x: SessionState, prompts: seq<Prompt>, i: nat, env: Env)
    requires i < |prompts|
    ensures Converse(x, prompts[i..], env)
         == var end := RunPrompt(x.history, x.options, prompts[i], env).state;
            Converse(SessionState(end.history, end.options, x.requests + end.requests), prompts[i + 1..], env)
  {
    SuffixStep(prompts, i);
  }

  lemma ConverseEnds(x: SessionState, prompts: seq<Prompt>, env: Env)
    ensures Converse(x, prompts[0..], env) == Converse(x, prompts, env) && Converse(x, prompts[|prompts|..], env) == x
  {
    Ends(prompts);
  }

  /** The prompt loop: one agent call after another on the same history object. */
  method Chat(history: ConversationHistory, compactor: Compactor, api: Api, prompts: seq<Prompt>, limits: Limits)
    returns (sent: seq<Option<Payload>>, ghost requests: seq<Request>)
    requires history.Valid()
    modifies history, compactor
    ensures history.Valid() && history.pruneEnabled == old(history.pruneEnabled)
    ensures SessionState(history.messages, history.pruneOptions, requests)
         == Converse(SessionState(old(history.messages), old(history.pruneOptions), []), prompts,
                     Env(limits, old(history.pruneEnabled), compactor.config))
    ensures LogsSound(old(history.Current()), sent, requests, api, history.pruneEnabled)
  {
    hide LogsSound, ExactUpTo, RunPrompt, Converse, ConversationHistory.Valid, ConversationHistory.Current;
    sent, requests := [], [];
    ghost var env := Env(limits, history.pruneEnabled, compactor.config);
    ghost var current := history.Current();
    NothingLogged(current, api, env.pruning);
    ghost var end := Converse(SessionState(history.messages, history.pruneOptions, []), prompts, env);
    ConverseEnds(SessionState(history.messages, history.pruneOptions, []), prompts, env);
    var i := 0;
    while i < |prompts|
      invariant 0 <= i <= |prompts|
      invariant history.Valid() && history.pruneEnabled == env.pruning
      invariant end == Converse(SessionState(history.messages, history.pruneOptions, requests), prompts[i..], env)
      invariant LogsSound(current, sent, requests, api, env.pruning)
      invariant current && ExactUpTo(requests, |requests|) ==> history.Current()
    {
      ConverseStep(SessionState(history.messages, history.pruneOptions, requests), prompts, i, env);
      var outcome, more;
      ghost var asked;
      ghost var now := history.Current();
      outcome, more, asked := RunSession(history, compactor, api, prompts[i], limits);
      LogsOfLess(now, current && ExactUpTo(requests, |requests|), more, asked, api, env.pruning);
      LogsGrow(current, sent, requests, more, asked, api, env.pruning);
      sent, requests := sent + more, requests + asked;
      i := i + 1;
    }
    ConverseEnds(SessionState(history.messages, history.pruneOptions, requests), prompts, env);
  }

  /** Over a whole session, whatever recovery and compaction do: accepted for as long as the zones stay apart. */
  lemma SessionIsAccepted(x: SessionState, prompts: seq<Prompt>, env: Env, api: Api, sent: seq<Option<Payload>>)
    requires Paired(x.history) && Shaped(x.history) && x.requests == []
    requires SentFrom(sent, Converse(x, prompts, env).requests, api, true)
    ensures var requests := Converse(x, prompts, env).requests;
            forall i | 0 <= i < |sent| && ZonesApart(requests, i + 1) :: Accepted(sent[i])
  {
    SessionStaysPaired(x, prompts, env);
    SentAreAccepted(Converse(x, prompts, env).requests, sent, api);
  }

  /** With pruning off every array of every session is accepted, whatever overflows and recoveries occur. */
  lemma UnprunedIsAccepted(x: SessionState, prompts: seq<Prompt>, env: Env, api: Api, sent: seq<Option<Payload>>)
    requires Paired(x.history) && Shaped(x.history) && x.requests == []
    requires SentWhole(sent, Converse(x, prompts, env).requests, api)
    ensures forall i | 0 <= i < |sent| :: Accepted(sent[i])
  {
    hide Converse, HistoryWires, AnthropicMessages;
    SessionStaysPaired(x, prompts, env);
    var requests := Converse(x, prompts, env).requests;
    forall i | 0 <= i < |sent|
      ensures Accepted(sent[i])
    {
      var h := requests[i].history;
      assert requests[i] in requests;
      ShapedIs(h);
      UnsplitPairedIff(h);
      AnthropicPaired(h, []);
    }
  }
}
