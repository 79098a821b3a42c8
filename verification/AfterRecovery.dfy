/**
 What overflow recovery means for the requests after it: its last levels strip without regard for the
 protected zone, and a session that goes on from there loses an answer from the array it sends.
 */
module AfterRecovery {
  import opened Wrappers
  import opened Texts
  import opened Messages
  import opened ContextPruner
  import opened Conversation
  import opened Compactor
  import opened Session
  import opened ToolCalls
  import opened Adapter
  import opened AgentLoop
  import opened AgentLaws
  import opened Sequences

  // ---------------------------------------------------------------- nothing protected: nothing lost

  predicate Unprotected(requests: seq<Request>) {
    forall r | r in requests :: r.options.protectRecent <= 0
  }

  lemma {:induction false} ProtectionStays(x: SessionState, prompts: seq<Prompt>, env: Env)
    requires x.options.protectRecent <= 0 && Unprotected(x.requests)
    ensures Unprotected(Converse(x, prompts, env).requests)
    decreases |prompts|
  {
    if prompts != [] {
      var p := prompts[0];
      var end := RunPrompt(x.history, x.options, p, env).state;
      if p.text != "" {
        var inv := (s: State) => s.options.protectRecent <= 0 && Unprotected(s.requests);
        forall i: nat, s: State | inv(s)
          ensures inv(OneStep(s, ReadTurns(p.turns)(i), env).state)
        {
          StepKeepsOptions(s, ReadTurns(p.turns)(i), env);
        }
        RunInvariant(State(Opened(x.history, p), x.options, 0, [], []), 0, ReadTurns(p.turns), env, inv);
      }
      ProtectionStays(SessionState(end.history, end.options, x.requests + end.requests), prompts[1..], env);
    }
  }

  /** With nothing protected every array of every session is accepted, failed recoveries included. */
  lemma UnprotectedIsAccepted(x: SessionState, prompts: seq<Prompt>, env: Env, api: Api, sent: seq<Option<Payload>>)
    requires Paired(x.history) && Shaped(x.history) && x.requests == [] && x.options.protectRecent <= 0
    requires SentFrom(sent, Converse(x, prompts, env).requests, api, true)
    ensures forall i | 0 <= i < |sent| :: Accepted(sent[i])
  {
    var requests := Converse(x, prompts, env).requests;
    SessionIsAccepted(x, prompts, env, api, sent);
    ProtectionStays(x, prompts, env);
    forall i | 0 <= i < |sent|
      ensures Accepted(sent[i])
    {
      assert forall j | 0 <= j < i + 1 :: requests[j] in requests;
      assert ZonesApart(requests, i + 1);
    }
  }

  // ---------------------------------------------------------------- something protected: something lost

  const CALL := Call("c", "t", "{}")
  const DONE := CallResult("c", "", "done", false)

  const SYSTEM := TextMessage(System, "s")
  const FIRST_USER := TextMessage(User, "go")
  const CALLING := Message(Assistant, [Text("ok", false), ToolUse(CALL)])
  const DONE_MESSAGE := ToolMessage(DONE)
  const SECOND_USER := TextMessage(User, "on")

  /** The history the first prompt leaves. */
  const SERVED := [SYSTEM, FIRST_USER, CALLING, DONE_MESSAGE]

  /** The view sent for the second prompt. */
  const CUT := [SYSTEM, FIRST_USER, CALLING, SECOND_USER]

  const TOOLS := Tools(c => Finished(true, "done"), n => true)

  function Plainly(raw: Raw, r: Recovery): Turn<Raw> {
    Turn(false, raw, false, Never, TOOLS, r, false, i => "")
  }

  /** The model calls a tool; the request after that does not fit, and recovery goes as `r` says. */
  function First(r: Recovery): Prompt {
    Prompt("go", "s", "go",
           (i: nat) => Plainly(if i == 0 then Whole(true, 200, "", false, true, "ok", [CALL])
                               else Whole(false, 413, "", true, false, "", []), r))
  }

  function Second(r: Recovery): Prompt {
    Prompt("on", "s", "on", (i: nat) => Plainly(Raw.Raised, r))
  }

  const LIMITS := Limits(2, 1, 1)

  /** What is served is a single round, which compaction leaves alone. */
  lemma ServedIsOneRound(override: int, c: Config, answer: nat -> string)
    ensures Compaction(SERVED, override, c, answer) == SERVED
  {
    var r0, r1, r2, r3 := Rounds([]), Rounds([SYSTEM]), Rounds([SYSTEM, FIRST_USER]), Rounds(SERVED[..3]);
    assert Front([SYSTEM]) == [] && Front([SYSTEM, FIRST_USER]) == [SYSTEM];
    assert Front(SERVED[..3]) == [SYSTEM, FIRST_USER] && Front(SERVED) == SERVED[..3];
    assert r0 == [] && r1 == Extended(r0, SYSTEM) == [];
    assert r2 == Extended(r1, FIRST_USER) && |r2| == 1;
    assert r3 == Extended(r2, CALLING) && |r3| == 1;
    assert Rounds(SERVED) == Extended(r3, DONE_MESSAGE) && |Rounds(SERVED)| == 1;
  }

  /** A failed recovery has run through all levels: the history is what it was, the settings are the last level's. */
  lemma {:induction false} FailedRecovery(i: nat, calls: nat, o: Options, enabled: bool, c: Config, r: Recovery)
    requires i <= |LEVELS| && !RecoverFrom(i, calls, SERVED, o, enabled, c, r).ok
    ensures var x := RecoverFrom(i, calls, SERVED, o, enabled, c, r);
            && x.history == SERVED && x.options.protectRecent == o.protectRecent
            && (i < |LEVELS| ==> x.options.hardPruneAfter == 0)
    decreases |LEVELS| - i
  {
    hide ViewTokens, Compaction;
    if i < |LEVELS| {
      var l := OneLevel(i, calls, SERVED, o, enabled, c, r);
      ServedIsOneRound(LevelKeep(i, c), c, r.answers(calls));
      assert l.history == SERVED && l.options == AtLevel(o, LEVELS[i]) && !l.fits;
      FailedRecovery(i + 1, l.calls, l.options, enabled, c, r);
    }
  }

  /** Recovery can fail: with a safe size of zero it always does. */
  lemma {:induction false} NothingIsSafe(i: nat, calls: nat, h: History, o: Options, enabled: bool, c: Config,
                                         r: Recovery)
    requires i <= |LEVELS| && r.safeThreshold <= 0
    ensures !RecoverFrom(i, calls, h, o, enabled, c, r).ok
    decreases |LEVELS| - i
  {
    hide ViewTokens, Compaction;
    if i < |LEVELS| {
      var l := OneLevel(i, calls, h, o, enabled, c, r);
      NothingIsSafe(i + 1, l.calls, l.history, l.options, enabled, c, r);
    }
  }

  lemma CallIsExchanged()
    ensures [SYSTEM, FIRST_USER] + Exchanged("ok", [CALL], [], TOOLS) == SERVED
    ensures Budgeted([CALL]) == 1
  {
    assert [CALL] + [] == [CALL] && [CALL][1..] == [];
    assert UseBlocks([CALL]) == [ToolUse(CALL)] + UseBlocks([CALL][1..]) == [ToolUse(CALL)];
    assert [Text("ok", false)] + [ToolUse(CALL)] == CALLING.content;
    assert Answers(ExecuteAll([CALL], TOOLS)) == [DONE_MESSAGE];
    assert Answers(BlockedResults([])) == [];
    assert Budgeted([CALL]) == 1 + Budgeted([CALL][1..]);
  }

  lemma FirstCalls(o: Options, env: Env, r: Recovery)
    requires env.limits == LIMITS
    ensures var s := State([SYSTEM, FIRST_USER], o, 0, [], []);
            OneStep(s, ReadTurns(First(r).turns)(0), env)
            == Going(State(SERVED, o, 1, [Request(s.history, o)], [CALL]))
  {
    hide Exchanged, Budgeted;
    CallIsExchanged();
    var s := State([SYSTEM, FIRST_USER], o, 0, [], []);
    assert [] + [Request(s.history, o)] == [Request(s.history, o)] && [] + [CALL] == [CALL];
    assert First(r).turns(0) == Plainly(Whole(true, 200, "", false, true, "ok", [CALL]), r);
    assert ReadTurns(First(r).turns)(0).reply == Calls("ok", [CALL]);
  }

  predicate Fails(o: Options, env: Env, r: Recovery) {
    !RecoverFrom(0, 0, SERVED, o, env.pruning, env.config, r).ok
  }

  lemma ThenOverflows(o: Options, env: Env, r: Recovery, s: State)
    requires s.history == SERVED && s.options == o && Fails(o, env, r)
    ensures var p := OneStep(s, ReadTurns(First(r).turns)(1), env);
            && p.Done? && p.outcome == OverflowFailed && p.state.history == SERVED
            && p.state.options.protectRecent == o.protectRecent && p.state.options.hardPruneAfter == 0
  {
    hide RecoverFrom;
    FailedRecovery(0, 0, o, env.pruning, env.config, r);
    assert First(r).turns(1) == Plainly(Whole(false, 413, "", true, false, "", []), r);
    assert ReadTurns(First(r).turns)(1).reply == Overflowed;
  }

  lemma FirstRun(o: Options, env: Env, r: Recovery)
    requires env.limits == LIMITS && Fails(o, env, r)
    ensures var end := RunPrompt([], o, First(r), env);
            && end.outcome == OverflowFailed && end.state.history == SERVED
            && end.state.options.protectRecent == o.protectRecent && end.state.options.hardPruneAfter == 0
  {
    assert Opened([], First(r)) == [SYSTEM, FIRST_USER] by {
      assert [SYSTEM] + [] + [FIRST_USER] == [SYSTEM, FIRST_USER];
    }
    hide OneStep, ReadTurns, Run, Opened, Fails;
    var s := State([SYSTEM, FIRST_USER], o, 0, [], []);
    FirstCalls(o, env, r);
    RunUnfolds(s, 0, ReadTurns(First(r).turns), env);
    var s1 := OneStep(s, ReadTurns(First(r).turns)(0), env).state;
    ThenOverflows(o, env, r, s1);
    RunUnfolds(s1, 1, ReadTurns(First(r).turns), env);
  }

  /** The second prompt makes a request. */
  lemma SecondRun(o: Options, env: Env, r: Recovery)
    requires env.limits == LIMITS
    ensures |RunPrompt(SERVED, o, Second(r), env).state.requests| == 1
  {
    var s := State(Opened(SERVED, Second(r)), o, 0, [], []);
    hide Opened;
    assert ReadTurns(Second(r).turns)(0).reply == Interrupted;
    RunUnfolds(s, 0, ReadTurns(Second(r).turns), env);
  }

  lemma SamePrompt()
    ensures WithSystemPrompt(SERVED, "s") == SERVED
  {
    var rest := SERVED[1..];
    assert AllText(SYSTEM.content) == "s" by {
      assert SYSTEM.content[1..] == [];
      assert TextFrom(SYSTEM.content, "") == TextFrom(SYSTEM.content[1..], "s");
    }
    assert rest[1..] == [CALLING, DONE_MESSAGE] && rest[1..][1..] == [DONE_MESSAGE] && [DONE_MESSAGE][1..] == [];
    assert NoSystem([DONE_MESSAGE]) == [DONE_MESSAGE] + NoSystem([DONE_MESSAGE][1..]) == [DONE_MESSAGE];
    assert NoSystem(rest[1..]) == [CALLING] + NoSystem(rest[1..][1..]);
    assert NoSystem(rest) == [rest[0]] + NoSystem(rest[1..]) == rest;
    assert SERVED == [SYSTEM] + rest;
  }

  lemma ServedDepths()
    ensures Depths(SERVED + [SECOND_USER]) == [-1, -1, 1, -1, -1]
    ensures Governing(SERVED + [SECOND_USER], 2) == -1
    ensures Governing(SERVED + [SECOND_USER], 3) == Governing(SERVED + [SECOND_USER], 4) == 1
    ensures Assistants((SERVED + [SECOND_USER])[4..]) == 0 && Assistants(SERVED) == 1
  {
    var h := SERVED + [SECOND_USER];
    assert h[2..] == [CALLING] + [DONE_MESSAGE, SECOND_USER] && h[3..] == [DONE_MESSAGE, SECOND_USER];
    assert h[2..][1..] == h[3..] && h[3..][1..] == h[4..] == [SECOND_USER] && h[4..][1..] == [];
    assert Assistants(h[4..]) == 0 && Assistants(h[3..]) == 0 && Assistants(h[2..]) == 1;
    assert Governing(h, 1) == Governing(h, 0) == -1;
    assert SERVED == [SYSTEM, FIRST_USER] + [CALLING] + [DONE_MESSAGE];
    AssistantsAppend([SYSTEM, FIRST_USER] + [CALLING], [DONE_MESSAGE]);
    AssistantsAppend([SYSTEM, FIRST_USER], [CALLING]);
    AssistantsAppend([SYSTEM], [FIRST_USER]);
    assert [SYSTEM] + [FIRST_USER] == [SYSTEM, FIRST_USER];
    assert [SYSTEM][1..] == [] && [FIRST_USER][1..] == [] && [CALLING][1..] == [] && [DONE_MESSAGE][1..] == [];
  }

  /** Everything is cut off after the depth of the only call, which is protected: pruning keeps it all. */
  lemma ServedIsKept(o: Options)
    requires o.protectRecent > 0
    ensures Pruned(SERVED, o).messages == SERVED
  {
    ServedDepths();
    var a, b, c := SERVED[1..], SERVED[1..][1..], SERVED[1..][1..][1..];
    assert b == [CALLING, DONE_MESSAGE] && c == [DONE_MESSAGE] && c[1..] == [];
    assert Assistants(c) == 0 && Assistants(b) == 1;
    assert PruneFrom(c, 1, 0, o).messages == [DONE_MESSAGE] + PruneFrom(c[1..], 1, 0, o).messages == [DONE_MESSAGE];
    assert PruneFrom(b, -1, 0, o).messages == [CALLING] + PruneFrom(c, 1, 0, o).messages;
    assert PruneFrom(a, -1, 0, o).messages == [FIRST_USER] + PruneFrom(b, -1, 0, o).messages;
    assert PruneFrom(SERVED, -1, 0, o).messages == [SYSTEM] + PruneFrom(a, -1, 0, o).messages;
  }

  lemma AnswerIsCounted(o: Options)
    requires o.hardPruneAfter == 0
    ensures Boundary(SERVED + [SECOND_USER], 4, o) == 4 && AssumedStripped(SERVED + [SECOND_USER], 4, o) == 1
  {
    var h := SERVED + [SECOND_USER];
    ServedDepths();
    var d := Depths(h);
    assert FreezeEnd(d, 4, 0, 0) == FreezeEnd(d, 4, 0, 1) == FreezeEnd(d, 4, 0, 2) == FreezeEnd(d, 4, 0, 3) == 4;
    assert AssumedStripped(h, 3, o) == AssumedStripped(h, 2, o) == AssumedStripped(h, 1, o);
    assert AssumedStripped(h, 1, o) == AssumedStripped(h, 0, o) == 0;
  }

  /** The view after one more user message: the answer is counted as stripped, so the copy stops in front of it. */
  lemma AnswerIsCut(o: Options)
    requires o.hardPruneAfter == 0 && o.protectRecent > 0
    ensures IncrementalView(SERVED + [SECOND_USER], Pruned(SERVED, o).messages, 4, o) == Some(CUT)
  {
    ServedDepths();
    ServedIsKept(o);
    AnswerIsCounted(o);
    var last := (SERVED + [SECOND_USER])[4..];
    assert last == [SECOND_USER] && last[1..] == [];
    assert PruneFrom(last, 1, 0, o).messages == [SECOND_USER] + PruneFrom(last[1..], 1, 0, o).messages == [SECOND_USER];
    hide PruneFrom, Boundary, AssumedStripped, Governing;
    assert SERVED[..3] + [SECOND_USER] == CUT;
  }

  lemma CutUses()
    ensures UseIds(CALLING.content) == ["c"] && ResultIds(CALLING.content) == []
    ensures UseIds(SECOND_USER.content) == [] && ResultIds(SECOND_USER.content) == []
    ensures UseIds(FIRST_USER.content) == [] && ResultIds(FIRST_USER.content) == []
  {
    assert CALLING.content == [Text("ok", false)] + [ToolUse(CALL)];
    UsesAppend([Text("ok", false)], [ToolUse(CALL)]);
    ResultsAppend([Text("ok", false)], [ToolUse(CALL)]);
    SingleBlock(Text("ok", false));
    SingleBlock(ToolUse(CALL));
    SingleBlock(Text("on", false));
    SingleBlock(Text("go", false));
  }

  lemma CutSuffixes()
    ensures CUT[1..] == [FIRST_USER, CALLING, SECOND_USER] && CUT[2..] == [CALLING, SECOND_USER]
    ensures CUT[3..] == [SECOND_USER] && CUT[4..] == []
    ensures CUT[0..] == CUT && CUT[0..][1..] == CUT[1..] && CUT[1..][1..] == CUT[2..]
    ensures CUT[2..][1..] == CUT[3..] && CUT[3..][1..] == CUT[4..]
  {
  }

  lemma WireScanHead(h: History, owed: seq<string>)
    requires h != []
    ensures WireScan(HistoryWires(h), owed)
         == match WireStep(OpenAiFormat(h[0]), owed) case None => None case Some(o) => WireScan(HistoryWires(h[1..]), o)
  {
    hide OpenAiFormat, WireStep;
    WireHead(h);
  }

  lemma FourthWireRefused(h: History)
    requires |h| == 4
    requires WireStep(OpenAiFormat(h[0]), []) == Some([]) && WireStep(OpenAiFormat(h[1]), []) == Some([])
    requires WireStep(OpenAiFormat(h[2]), []) == Some(["c"]) && WireStep(OpenAiFormat(h[3]), ["c"]) == None
    ensures WireScan(HistoryWires(h), []) == None
  {
    hide WireStep, OpenAiFormat, WireScan, HistoryWires;
    WireScanHead(h, []);
    SuffixStep(h, 1);
    WireScanHead(h[1..], []);
    SuffixStep(h, 2);
    WireScanHead(h[2..], []);
    SuffixStep(h, 3);
    WireScanHead(h[3..], ["c"]);
  }

  lemma CutIsNoOpenAiArray()
    ensures !WirePaired(HistoryWires(CUT))
  {
    CutUses();
    FormatKeepsCalls(SYSTEM);
    FormatKeepsCalls(FIRST_USER);
    FormatKeepsCalls(CALLING);
    FormatKeepsCalls(SECOND_USER);
    SingleBlock(SYSTEM.content[0]);
    hide Uses, Results, OpenAiFormat, WireScan, HistoryWires;
    FourthWireRefused(CUT);
  }

  lemma CutIsNoAnthropicArray()
    ensures TurnScan(AnthropicMessages(CUT), []) == None
  {
    CutSuffixes();
    CutUses();
    PartsKeepIds(FIRST_USER.content);
    PartsKeepIds(CALLING.content);
    PartsKeepIds(SECOND_USER.content);
    hide UseIds, ResultIds, PartUses, PartResults, Parts;
    TurnsStep(CUT, 0);
    TurnsStep(CUT, 1);
    TurnsStep(CUT, 2);
    TurnsStep(CUT, 3);
    var t1, t2, t3 := ApiTurn(User, Parts(FIRST_USER.content)), ApiTurn(Assistant, Parts(CALLING.content)),
                      ApiTurn(User, Parts(SECOND_USER.content));
    assert TurnStep(t1, []) == Some([]) && TurnStep(t2, []) == Some(["c"]) && TurnStep(t3, ["c"]) == None;
    hide TurnStep, AnthropicMessages;
    var a1, a2, a3 := AnthropicMessages(CUT[1..]), AnthropicMessages(CUT[2..]), AnthropicMessages(CUT[3..]);
    Ends(a1);
    assert a1[1..] == a2 && a2[1..] == a3;
    assert TurnScan(a3, ["c"]) == None;
    assert TurnScan(a2, []) == None;
  }

  lemma CutIsRefused(api: Api)
    ensures !Acceptable(PayloadOf(api, CUT))
  {
    CutIsNoOpenAiArray();
    CutIsNoAnthropicArray();
    hide WireScan, TurnScan, HistoryWires, AnthropicMessages;
  }

  /**
   After a failed recovery, for whatever reason it fails, the next array of the session lacks an answer, for
   every size of the protected zone but zero and for either API.
   */
  method RefusedAfterRecovery(o: Options, api: Api, config: Config, r: Recovery) returns (sent: seq<Option<Payload>>)
    requires o.protectRecent > 0 && Fails(o, Env(LIMITS, true, config), r)
    ensures |sent| == 1 && !Accepted(sent[0])
  {
    hide RunPrompt, IncrementalView, Pruned, WithSystemPrompt, Acceptable, PayloadOf, Fails;
    var history := new ConversationHistory(true, o);
    var compactor := new Compactor(config);
    ghost var env := Env(LIMITS, true, config);
    FirstRun(o, env, r);
    var outcome, before;
    ghost var asked;
    outcome, before, asked := RunSession(history, compactor, api, First(r), LIMITS);
    Ends(history.messages);
    SamePrompt();
    AnswerIsCut(history.pruneOptions);
    SecondRun(history.pruneOptions, env, r);
    outcome, sent, asked := RunSession(history, compactor, api, Second(r), LIMITS);
    CutIsRefused(api);
  }
}
