# Verified models of the agent runtime

Dafny models of six parts of the runtime, each written in the form of the code it models (classes with
fields where an object updates itself, loops where the source loops) and proved against functions the
theorems are about. `dafny verify dfyconfig.toml` checks everything.

- **Tool-call history** (`Messages`, `ToolCalls`, `AgentLoop`, `AgentLaws`, `AgentSteps`, `ContextPruner`,
  `PrunerLaws`, `PrunerMeaning`, `TokenEstimate`, `ConversationHistory`, `Compactor`, `CompactorMeaning`, `Session`,
  `Adapter`, `AdapterMeaning`, `AfterRecovery`). Pairing of calls and results is an automaton over messages. The
  agent's step loop runs against an arbitrary sequence of turns: any reply, any tool result, plan mode on or off at
  any step, an exception or cancellation at any point of a step. Pruning, the incremental pruned view, compaction,
  overflow recovery and the wire forms are proved to keep or to reflect pairing, up to the arrays that are sent, for
  both APIs and over whole sessions.
- **HTTP/1.1 responses** (`ChunkSize`, `ChunkedBody`, `ChunkedCoding`, `ChunkedDrain`, `HttpResponse`,
  `ConnectionPool`; sections 6.3 and 7.1 of RFC 9112). The transport is a byte string with an arbitrary cut for each
  read. The incremental decoder equals a one-shot decoder, which accepts exactly the encodings; the reuse decision is
  tied to the end of the response; the pool keeps every connection in one place.
- **Event loop** (`EventQueue`, `EventQueueLaws`, `EventQueueProgress`, `Deadlines`). The inbound queue is a state
  machine over single atomic steps of any number of activities; the theorems are about every reachable state, what it
  keeps and what can still be done from it. Timers and close requests are sorted lists with a record of the past.
- **Plan protocol** (`PlanModel`, `PlanManager`, `PlanSafety`, `PlanJson`). Each transition is a method of a class whose contract states
  the whole new state and every error; a transition function tied to it carries safety over all runs. Saving and
  reading back is proved field by field.
- **JSON text** (`JsonText`, `RunOutcome`; RFC 8259). The bracket scanner recovers exactly what the printers write.
- **Section merge** (`SectionMerge`, `SectionMergeMeaning`, `SectionMergeLaws`). The index-map loop equals its
  specification, and what it keeps is stated on the sections of the texts.

`Wrappers`, `Sequences`, `Texts` and `Utf8` hold what the others share. Strings are byte strings: one `char` is one byte.
`hide` statements in proofs only narrow what the verifier looks at.

## What does not hold, and when it does

- `docs/memory.md:479-485` justifies reusing the cache for every message deeper than the stripping depth by
  "once hard-pruned, always hard-pruned". The code does not strip a message that is deeper than `hard_prune_after` but
  still within `protect_recent`, so with such options the reused part is not what was stripped.
  `Conversation.IncrementalIsSoundIff` gives the exact condition on the options, and
  `Conversation.OverlapLosesAResult` a history for every other choice of options: a call copied from the cache
  without its result. The last two recovery levels leave such options behind if and only if anything is protected
  (`Session.DeepRecoveryOverlapsZones`). So no session ever sends a refused array when nothing is protected
  (`AfterRecovery.UnprotectedIsAccepted`) or pruning is off (`AgentLaws.UnprunedIsAccepted`), and for every other
  setting some session does (`AfterRecovery.RefusedAfterRecovery`).
- Even with separate zones the incremental view counts an assistant message that stripping deletes as copied:
  `Conversation.IncrementalIsExactIff`. `AgentLaws.RunKeepsShape` shows that the agent never builds one.
- `batch_summarize` stores model answers under the index among the long rounds, `compact` looks them up under the
  round index: an old round disappears unless all long rounds come first (`Compactor.NoRoundLostIff`).
- `ConversationHistory::to_openai_messages` does not split tool messages: `Adapter.UnsplitPairedIff`. The agent
  adds one tool message per result, so its histories meet the condition.
- A task from an empty function, a throwing task and the tasks behind it in its batch are never subtracted from the
  pending counter (`EventQueueLaws.EmptyTaskLeaks`, `EventQueueLaws.LeakIsForever`).
- `drain_chunked_body` starts with nothing buffered: what the decoder had buffered when the callback stopped it is
  dropped. The end it finds is the end of the response, however the peer goes on, if and only if the dropped bytes
  end neither inside chunk data nor inside a size line that may still announce data (`ChunkedDrain.Hazard`,
  `ChunkedDrain.DropIsSafeIff`). Otherwise the connection can be released inside the response:
  `HttpResponse.ReleaseInsideAResponse`.
- `drain_chunked_body` adds two to a chunk size without the check the decoder makes (`src/net/http.hpp:739`, `:787`):
  `ChunkedDrain.HugeChunkIsPassedOver`.
- `apply_revised_final` looks neither at the stage nor at the decisions (`PlanSafety.RevisedFinalSkipsTheGate`).
  What executes is resolved throughout a run if and only if, whenever it succeeds, all required decisions of the
  draft are resolved, and every draft that is restored was resolved (`PlanSafety.FinalStaysResolvedIff`).
- Revisions and orders are read back from JSON as 32-bit numbers: `PlanJson.DraftRoundTripIff`,
  `PlanJson.PersistRestoreIff`.
- `cancel_close` removes one entry: a close requested twice survives it (`Deadlines.CancelLeavesTheSecond`).
- `merge_sections` returns a C string: a NUL in a kept section ends the text
  (`SectionMergeLaws.RemergeIsStableIff`).

## Model

| member | source | states |
|---|---|---|
| Messages.PairedIffGrouped | src/agent/agent.cpp:388-408 | The pairing automaton accepts a history if and only if it is a sequence of complete exchanges: a non-tool message followed by exactly the results of its calls, in order. |
| Messages.CallsBalanceResults | src/agent/agent.cpp:388-408 | Conservation on every accepted history: calls opened minus results given is what is still owed. |
| Messages.PairedCut | src/memory/compactor.cpp:121-141 | A paired history cut in front of any message that is not a tool result leaves two paired histories. |
| ToolCalls.Execute | src/tool/manager.cpp:126-184 | Every way an execution can end (unknown tool, bad arguments, denied, thrown, truncated) returns a result that carries the id and name of its own call. |
| ToolCalls.ExecuteToolCalls | src/agent/agent.cpp:154-167 | The loop gives one result per call, in order, each of its own call; the answered ids are the call ids. |
| ToolCalls.BudgetedToolCallCount | src/agent/agent.cpp:59-63 | Counts the calls that are not todo updates. |
| ToolCalls.FilterPlanModeTools | src/tool/registry.cpp:202-222 | The loop splits the calls into permitted and blocked ones and pairs each blocked call with one failed result of the same id. |
| ToolCalls.FilterPartitions | src/tool/registry.cpp:202-222 | Plan-mode filtering loses no call and invents none (as multisets). |
| ToolCalls.FilterSeparates | src/tool/registry.cpp:202-222 | What gets through is read-only, what is held back is not, and the budgeted count does not grow. |
| ToolCalls.CollectStream | src/agent/agent.cpp:455-548 | Collecting streamed fragments in a map gives one call per index, by ascending index, each folded from its own fragments. |
| ToolCalls.InterleavingIrrelevant | src/agent/agent.cpp:455-548 | Swapping two neighbouring fragments of different calls anywhere in the stream changes none of the collected calls. |
| ToolCalls.CutsAreReassembled | src/agent/agent.cpp:455-548 | A list of calls cut into fragments, one index per call in call order, interleaved in any way, is collected as exactly those calls. |
| ToolCalls.ExecuteReports | src/tool/manager.cpp:126-184 | What each kind of execution reports: the output, truncated with a note of its size beyond the limit, or the error, and whether it succeeded. |
| ToolCalls.BudgetedCounts | src/agent/agent.cpp:59-63 | The budgeted count is the number of positions whose call is no todo update. |
| ToolCalls.FilterAppend | src/tool/registry.cpp:202-222 | Filtering keeps the order of the permitted calls and of the blocked ones. |
| AgentLoop.ReadReply | src/agent/agent.cpp:300-350 | What every reply is read as: a stream of success is an answer if and only if it has no fragment, and its calls are those it was cut from, however cut and interleaved; any other is an overflow exactly when flagged, or else a rejection with its own status and body; a whole reply goes by its flags. |
| AgentLoop.SendRequest | src/llm/openai_client.hpp:193-205 | A request to either API sends the converted pruned view, whether the arrays were cached or not; while the cache is current and the inputs are exact it sends the converted full pruning and the cache stays current. |
| AgentLoop.AppendExchange | src/agent/agent.cpp:388-408 | Appends one assistant message with all calls, permitted and blocked, then one tool message per result, in that order. |
| AgentLoop.HandleCallsOf | src/agent/agent.cpp:334-408 | Budget checks, plan-mode filter, execution and appending, with a break-off possible before, inside or after execution: history, call counter, executed calls and exit are those of the transition function. |
| AgentLoop.Act | src/agent/agent.cpp:262-426 | One step after the request, for every kind of reply, moves history, options, counter and outcome as the transition function does. |
| AgentLoop.RunSteps | src/agent/agent.cpp:262-426 | The step loop over every possible sequence of turns ends in the outcome, history, settings, counters and request log of the recursive run; what it sent, to either API, is the log of those requests; a failed recovery leaves a freshly pruned view. |
| AgentLaws.ExchangedPaired | src/agent/agent.cpp:386-408 | A completed step appends exactly one exchange: every call answered once, in order, and nothing else. |
| AgentLaws.StepKeepsEveryCall | src/agent/agent.cpp:356-408 | The appended message names exactly the calls of the reply as a multiset, whatever plan mode held back, and one message follows per call. |
| AgentLaws.RunKeepsPairing | src/agent/agent.cpp:262-426 | On every run and every exit (answer, step, per-step and total limit, provider error, exception or cancellation, failed recovery) the final history and the history behind every request are paired. |
| AgentLaws.RunWithinBudget | src/agent/agent.cpp:336-354 | A run executes at most the configured number of budgeted calls and makes at most the configured number of requests. |
| AgentLaws.OneStepBudget | src/agent/agent.cpp:336-354 | One step counts at most the per-step limit, and never executes a call it has not counted. |
| AgentLaws.PlanModeOnlyReads | src/agent/agent.cpp:356-368 | On every run, mixed or not: each call executed was asked for by the reply of its own step, and in a step in plan mode it is read-only under the registry of that step; together these are all the calls executed. |
| AgentLaws.RunKeepsShape | src/agent/agent.cpp:262-426 | Every history of a run holds one result per tool message and no assistant message that stripping would delete. |
| AgentLaws.PrunedIsAccepted | src/memory/context_pruner.cpp:46-71 | The full pruning of a paired history with single results converts to an array the API accepts, in OpenAI as in Anthropic form. |
| AgentLaws.SentIsAccepted | src/agent/agent.cpp:262-426 | End to end, for either API: a run from a paired, regular history sends only accepted arrays for as long as the prune settings keep the zones apart, through growth, incremental pruning, compaction and recovery. |
| AgentLaws.OptionsStay | src/agent/agent.cpp:262-426 | Only overflow recovery changes the prune settings of a run. |
| AgentLaws.OrdinaryRunIsAccepted | src/agent/agent.cpp:262-426 | A run without overflow under settings with separate zones sends only accepted arrays, to either API. |
| AgentLaws.RunSession | src/agent/agent.cpp:196-260 | One agent call, from refreshing the system prompt to the exit, on the shared history object: outcome, history, settings, requests and what was sent are those of the run it specifies; with an unchanged system prompt its first array is the view after one more user message. |
| AgentLaws.SessionStaysPaired | src/agent/agent.cpp:196-426 | Over any number of agent calls, each starting from what the last one left, every history and every request stays paired and regular. |
| AgentLaws.Chat | src/cli/repl/chat_repl.cpp:209-243 | The prompt loop, one agent call after another on the same history object, ends in the history, settings and requests of the session it specifies, and what it sent is the log of those requests. |
| AgentLaws.SessionIsAccepted | src/agent/agent.cpp:196-426 | Over a whole session from a paired, regular history, to either API: every array is accepted for as long as the zones have stayed apart. |
| AfterRecovery.UnprotectedIsAccepted | src/workspace/session.cpp:122-234 | When nothing is protected, every array of every session is accepted, whatever overflows and recoveries occur. |
| AfterRecovery.FailedRecovery | src/workspace/session.cpp:122-234 | A failed recovery has gone through all levels: a history of one round is what it was, the protected depth too, and the stripping depth is zero. |
| AfterRecovery.RefusedAfterRecovery | src/workspace/session.cpp:122-234 | Whatever is protected, whichever API it is and for whatever reason recovery fails: a session that calls a tool, overflows and fails to recover sends, for its next prompt, an array with the call but without its answer. |
| AgentLaws.UnprunedIsAccepted | src/agent/agent.cpp:196-426 | With pruning off every array of every session is the conversion of the whole history and is accepted, whatever overflows and recoveries occur. |
| AgentSteps.CallsAreServed | src/agent/agent.cpp:336-408 | Every reply with calls: over the step or the run limit nothing is executed and the run ends with that limit; otherwise the permitted calls are executed and counted, and the history grows by one message with all calls and one result per call, each with the output of its own execution. |
| AgentSteps.PermittedIs | src/agent/agent.cpp:356-368 | Outside plan mode everything is run; in plan mode the read-only calls in order, and the others are held back in order. |
| AgentSteps.OtherReplies | src/agent/agent.cpp:278-334 | Every other reply: a request is made unless the run is cancelled; an answer is kept and may be compacted after, a rejection is reported with its status and message, an overflow goes on exactly when recovery succeeds. |
| AgentSteps.RunTrail | src/agent/agent.cpp:262-426 | A run takes one turn after another, each from where the last one ended, and stops at the first that does not go on, with its outcome, or exactly when as many have been taken as the limit allows; a limit below one counts as one. |
| AgentSteps.TalkGoesOn | src/agent/agent.cpp:196-260 | A further prompt runs on the history and the settings the last run left, its system prompt renewed and its text said, with fresh counters; an empty prompt changes nothing and is refused. |
| AgentSteps.StreamingMakesNoDifference | src/agent/agent.cpp:300-350 | Whether replies are streamed, and however they are cut into fragments, makes no difference to a run. |
| AgentSteps.RunKeepsSystem | src/agent/agent.cpp:262-426 | A history with one system message keeps exactly that one through a run, behind every request and at the end, whatever is compacted and recovered. |
| AgentSteps.RequestsCarryThePrompt | src/agent/agent.cpp:196-260 | Every request of an agent call goes out from a history with exactly one system message, which says what the system prompt of this call says, and the run starts from the old history with the user text said last. |
| ContextPruner.ComputeDepths | src/memory/context_pruner.cpp:17-40 | The backward loop gives each assistant the number of assistants at or after it, every other message -1. |
| ContextPruner.SoftPrune | src/memory/context_pruner.cpp:272-331 | Shortening keeps the first and last lines, or bytes cut at character boundaries when the lines are few, around a note of how much was left out. |
| ContextPruner.StripAssistant | src/memory/context_pruner.cpp:160-236 | Stripping keeps the spoken text, replaces calls by a summary of at most twelve when nothing was said, and counts every removed call. |
| ContextPruner.PruneRangeWithDepths | src/memory/context_pruner.cpp:73-236 | The index loop from any start equals the recursive pruner on the rest of the history under the depth that governs the start. |
| ContextPruner.Prune | src/memory/context_pruner.cpp:46-71 | Pruning a history equals the recursive three-zone pruner. |
| PrunerLaws.PruneSplit | src/memory/context_pruner.cpp:73-236 | Pruning a concatenation is pruning the front with the later assistants counted in, then the back under the last depth of the front. |
| PrunerLaws.FullPruneSplits | src/memory/context_pruner.cpp:46-236 | At any index, full pruning is the pruned prefix followed by range pruning from that index. |
| PrunerLaws.DepthGrows | src/memory/context_pruner.cpp:17-40 | Appending messages raises every depth by exactly the number of assistants appended. |
| PrunerLaws.FrozenStaysFrozen | src/memory/context_pruner.cpp:87-236 | A message whose depth exceeds both the stripping and the protected depth prunes to the same output after any messages are appended. |
| PrunerLaws.PruneKeepsPairing | src/memory/context_pruner.cpp:73-236 | Pruning a paired history leaves a paired history, whatever the options. |
| PrunerLaws.PruneConserves | src/memory/context_pruner.cpp:73-236 | User and system messages come through verbatim and in order, and every message is kept, counted as stripped, or an assistant message emptied by stripping. |
| PrunerMeaning.PrunedIsPieces | src/memory/context_pruner.cpp:46-236 | Pruning prunes each message by its own depth, counted from the end for an assistant message and taken from the last one before it for any other; messages come in order and counts add up. |
| PrunerMeaning.ZonesDecide | src/memory/context_pruner.cpp:87-236 | What the depth of a message decides: the protected keep everything, tool results beyond the stripping depth go, calls with them, and between the two the long results are shortened; everything else stays. |
| PrunerMeaning.CountsAre | src/memory/context_pruner.cpp:87-236 | The counts of a pruned message are the number of its shortened results, itself if it is a deleted tool message, and the number of its deleted calls. |
| PrunerMeaning.LongTextKeepsItsEnds | src/memory/context_pruner.cpp:272-331 | A result of more than twice the lines to keep is cut to its first and last lines around a note of how many were between them. |
| PrunerMeaning.WideTextKeepsItsEnds | src/memory/context_pruner.cpp:272-331 | A result of few but long lines keeps as many whole characters as fit into the first and the last bytes, around a note of how many bytes were left out; a result neither long nor wide is unchanged. |
| PrunerMeaning.StripIs | src/memory/context_pruner.cpp:160-236 | Stripping leaves the spoken text in order, or, of a message that says nothing, a listing of its calls: the first twelve by name with up to 160 bytes of arguments, and how many more. |
| PrunerMeaning.AssistantsCount | src/memory/context_pruner.cpp:17-40 | The depth counter is the number of assistant messages. |
| TokenEstimate.EstimateTextTokens | src/memory/context.cpp:59-84 | The counter-reset loop counts multi-byte leads plus a quarter of the single bytes, rounded up, on every byte string. |
| TokenEstimate.EstimatePrunerTokens | src/memory/context_pruner.cpp:344-356 | The second estimator computes its own formula on every byte string. |
| TokenEstimate.SplitEstimate | src/memory/context.cpp:59-84 | Splitting at a scan boundary never lowers the estimate and adds at most one token. |
| TokenEstimate.EstimatorsAgree | src/memory/context_pruner.cpp:344-356 | The two estimators differ by at most one token, and exactly when each is the larger. |
| TokenEstimate.EstimateBounds | src/memory/context.cpp:59-84 | Each byte is scanned at most once and each token stands for at most four bytes. |
| TokenEstimate.EstimateHistoryTokens | src/memory/context_pruner.cpp:239-267 | The estimate of a history is the sum over its blocks. |
| TokenEstimate.TokensOfText | src/memory/context.cpp:59-84 | On text given character by character (RFC 3629): one token per wide character and one per four others, a rest counting as four; the second estimator rounds down but counts at least one. |
| TokenEstimate.OneBlockCosts | src/memory/context_pruner.cpp:239-267 | What each kind of block costs: its text, the output of a result, name and arguments of a call, nothing for media. |
| Conversation.RecomputeView | src/workspace/conversation_history.cpp:48-130 | The incremental path (new-assistant count, freeze boundary, stripped count, copy, range prune) computes the incremental view, or reports that it would read past its cache. |
| Conversation.IncrementalIsExactIff | src/workspace/conversation_history.cpp:48-130 | With separate zones the incremental view equals full pruning if and only if the cache was empty or no assistant in front of the boundary is one that stripping deletes. |
| Conversation.OverlapLosesAResult | src/workspace/conversation_history.cpp:48-130 | For all options with overlapping zones there is a paired history whose incremental view has a call without its result. |
| Conversation.IncrementalIsSoundIff | src/workspace/conversation_history.cpp:48-130 | Incremental pruning is exact, and keeps pairing, on all histories if and only if the protected zone does not reach beyond the stripping depth. |
| Conversation.RenewSystem | src/workspace/conversation_history.hpp:68-96 | The in-place loop renews the first system message, deletes the others, adds one if there was none, and reports a change exactly when there is one. |
| Conversation.SystemPromptKeepsPairing | src/workspace/conversation_history.hpp:68-96 | Refreshing the system prompt keeps pairing, leaves exactly one system message and every other message as it was. |
| Conversation.PromptIsCurrent | src/workspace/conversation_history.hpp:68-96 | After a refresh the history has exactly one system message, and its text is the prompt. |
| Conversation.ConversationHistory.AddMessage | src/workspace/conversation_history.hpp:45-52 | Appends the message, keeps the token cache right and leaves the pruned view stale but recoverable: what it will answer is the incremental view over the message added. |
| Conversation.ConversationHistory.SetPruneConfig | src/workspace/conversation_history.hpp:166-171 | Changing the settings only marks the view stale. |
| Conversation.ConversationHistory.Swap | src/workspace/conversation_history.hpp:230-239 | Exchanges the messages, keeps the settings and drops every cache of this object; the other one is left with this one's counts. |
| Conversation.ConversationHistory.PrunedMessages | src/workspace/conversation_history.cpp:10-145 | Answers the cached, full or incremental view as the state calls for, and leaves the state untouched when the copy would run past the cache. |
| Conversation.CurrentViewIsExact | src/workspace/conversation_history.cpp:10-145 | A cache that holds the full pruning of what it covers answers with the full pruning of everything, when the zones are separate and no assistant is emptied. |
| Conversation.ConversationHistory.PrunedTokens | src/workspace/conversation_history.cpp:149-155 | The token count is that of the view, whether cached or not. |
| Conversation.ConversationHistory.ToOpenAiMessages | src/workspace/conversation_history.cpp:166-185 | The count-based cache converts only what is new, and the array is always the conversion of the whole view. |
| Conversation.ConversationHistory.ToAnthropicMessages | src/workspace/conversation_history.cpp:187-208 | The same for the Anthropic form, in which system messages count but are not converted. |
| Compactor.SplitRounds | src/memory/compactor.cpp:121-141 | The loop cuts the history into the rounds of the recursive definition. |
| Compactor.RoundsPartition | src/memory/compactor.cpp:121-141 | The rounds are exactly the non-system messages from the first user message on, in order. |
| Compactor.RoundsOfFlatten | src/memory/compactor.cpp:121-141 | Cutting into rounds undoes flattening rounds, after any history. |
| Compactor.FitFromNewest | src/memory/compactor.cpp:143-169 | Counting rounds from the newest while they fit stops at the largest number of last rounds that fits the budget. |
| Compactor.DetermineKeepRounds | src/memory/compactor.cpp:143-169 | Keeps max(1, k), k the largest count up to the limit whose last k rounds fit the budget. |
| Compactor.BatchSummarize | src/memory/compactor.cpp:171-299 | The two passes build the map of short transcripts under their round index, overwritten by model answers under their candidate index. |
| Compactor.SummariesCompleteIff | src/memory/compactor.cpp:245-285 | Every old round gets an entry if and only if no short round precedes a long one. |
| Compactor.Compactor.Compact | src/memory/compactor.cpp:28-116 | Compaction replaces the history by its specification, whatever the model answers, keeps the settings, leaves a usable cache and records how many rounds were dropped. |
| Compactor.CompactionKeepsPairing | src/memory/compactor.cpp:28-116 | A paired history stays paired, whatever the summaries and however many rounds are kept. |
| Compactor.CompactedRounds | src/memory/compactor.cpp:48-86 | The result is again a sequence of rounds: a stand-in per old round with a summary, then the last kept rounds unchanged. |
| Compactor.NoRoundLostIff | src/memory/compactor.cpp:62-76 | No old round disappears if and only if no short old round precedes a long one. |
| Compactor.CompactionKeepsSystem | src/memory/compactor.cpp:54-61 | If compaction changes a history, the result starts with its first system message, verbatim, and holds no other; of a history without any it holds none. |
| CompactorMeaning.CompactionOutcome | src/memory/compactor.cpp:28-116 | The whole outcome: unchanged if at most one round or nothing to drop; otherwise the first system message, stand-ins in order for exactly the old rounds with a summary, each a user message of up to 100 bytes and the summary, and the kept rounds as they were; as many rounds kept as asked for, or as the budget and the configured number allow, but always one. |
| CompactorMeaning.TranscriptReads | src/memory/compactor.cpp:186-216 | The transcript of a round is its user text and one line per assistant and tool message, the output of a tool up to 200 bytes. |
| CompactorMeaning.SummaryIs | src/memory/compactor.cpp:218-285 | An old round has a summary if and only if its index is below the number of long transcripts, and then it is the model answer of that index, or its transcript is short, and then it is the transcript. |
| CompactorMeaning.AllTextSnoc | src/tool/acp/core/message.hpp:117-128 | The text of a message is that of its text blocks, thinking included, a newline between any two that say something. |
| Session.ForceCompact | src/workspace/session.cpp:122-234 | The five-level recovery loop on the shared history computes the recursive recovery: settings, messages and verdict. |
| Session.RecoveryKeepsPairing | src/workspace/session.cpp:122-234 | Recovery keeps pairing at every level and never changes the protected depth. |
| Session.RecoveryFits | src/workspace/session.cpp:122-234 | A recovery that reports success leaves a view below the safe size. |
| Session.RecoveryTrail | src/workspace/session.cpp:155-234 | A recovery goes through the levels in order, each setting its own three limits and compacting, with its own number of rounds to keep, only if stricter pruning is not enough and a model call is left; it ends at the first level whose view fits, or fails after the fifth. |
| Session.RecoveryKeepsSystem | src/workspace/session.cpp:122-234 | Recovery keeps the one system message, whatever it compacts. |
| Session.DeepRecoveryOverlapsZones | src/workspace/session.cpp:140-190 | The last two levels leave separate zones if and only if nothing is protected, so otherwise the incremental view is unsound afterwards. |
| Adapter.ToOpenAiMessages | src/llm/adapter.cpp:114-141 | The loop converts message by message and splits a tool message into one element per result. |
| Adapter.FlatteningPaired | src/llm/adapter.cpp:114-141 | The flattened array is accepted if and only if the history is paired (given blocks in their proper messages), so flattening preserves and reflects pairing. |
| Adapter.UnsplitPairedIff | src/workspace/conversation_history.cpp:166-185 | What the history object sends for a paired history is accepted if and only if every tool message holds exactly one result. |
| Adapter.OpenAiRoundTripIff | src/llm/adapter.cpp:7-112 | A message survives conversion to the wire form and back if and only if it is text followed by calls, a tool message with one plain result, or an empty tool message. |
| Adapter.ToAnthropicMessages | src/llm/adapter.cpp:233-242 | The loop drops system messages and converts every block of the others in order. |
| Adapter.AnthropicPaired | src/llm/adapter.cpp:163-242 | A paired history is accepted in Anthropic form too, although results travel under the user role. |
| Adapter.AnthropicRoundTripIff | src/llm/adapter.cpp:145-231 | A message survives the Anthropic form and back if and only if it is no tool message and the form can tell each of its blocks: no thinking, no media, of a result its id and output. |
| Adapter.AnthropicRereadIff | src/llm/adapter.cpp:145-231 | Whatever the API can send is written again as it was read. |
| AdapterMeaning.ArrayTells | src/llm/adapter.cpp:114-141 | The split array tells every message in order and holds nothing else: text and calls of a message, or one element per result with its id and output. |
| AdapterMeaning.TurnsTell | src/llm/adapter.cpp:233-242 | The Anthropic array tells every message but the system messages, in order, and holds nothing else: every block but media with its text, its call, or its id and output. |
| AdapterMeaning.PayloadTells | src/workspace/conversation_history.cpp:166-208 | What the history object sends to each API tells each message of the view: to the one the text and calls, or the first result, to the other every block. |
| EventQueueLaws.StepKeeps | src/net/event_loop.cpp:98-156 | Every atomic step of every activity keeps the invariant: no node in two places or none, lists linked, logs and counter in agreement. |
| EventQueueLaws.OthersNodeKept | src/net/event_loop.cpp:98-156 | No step writes a node that another activity holds, recycled nodes included. |
| EventQueueLaws.QueueLinearizes | src/net/event_loop.cpp:98-121 | In every interleaving the list from the head ends and holds the queue newest first; drained then queued elements are the pushes in compare-and-swap order, each once; each producer is first-in first-out. |
| EventQueueLaws.DrainReturnsPushOrder | src/net/event_loop.cpp:111-121 | The vector a drain returns holds, oldest first, exactly the stretch of pushes its exchange took; that an exchange takes the whole queue is EventQueueProgress.DrainCompletes. |
| EventQueueLaws.GracefulDrain | src/net/event_loop.cpp:269-276 | The counter equals the tasks counted and not finished; it reads zero if and only if every counted task is finished, and then each ran exactly once. |
| EventQueueLaws.QuietMeansDoneOrLeaked | src/net/event_loop.cpp:327-344 | With nothing in progress every submission has come to an end, and the counter is zero if and only if nothing leaked. |
| EventQueueLaws.EmptyTaskLeaks | src/net/event_loop.cpp:414-427 | A task made from an empty function is counted and never subtracted: the counter is never zero again. |
| EventQueueLaws.LeakIsForever | src/net/event_loop.cpp:484-489 | After a task has thrown or was abandoned by a throw, no continuation brings the counter to zero. |
| EventQueueProgress.DrainCompletes | src/net/event_loop.cpp:111-156 | Progress from every reachable state: the steps of one idle activity alone take the whole queue, leave it empty and themselves idle, and bring every queued submission to its end; a queued task has then run once and is finished, an empty one is dropped, any other is accepted. |
| EventQueueProgress.DrainReachesZero | src/net/event_loop.cpp:369-489 | With all activities idle, no empty task and none given up, such a drain brings the counter to zero. |
| EventQueueProgress.SubmissionArrives | src/net/event_loop.cpp:98-145 | From every state of the invariant a submission without interference gets onto the queue behind everything that waits, and changes nothing else; a recycled node is used if there is one. |
| EventQueueProgress.SwapSucceedsIff | src/net/event_loop.cpp:102-109 | The swap pushes if and only if it does not fail spuriously and the link is the head; having failed with the head in its link, its next try without interference pushes. |
| EventQueueProgress.SubmittedTaskRuns | src/net/event_loop.cpp:249-276 | From every reachable state a task submitted by one idle activity and drained by another, or by the same, has run exactly once and is finished. |
| EventQueueProgress.ThrowGivesUp | src/net/event_loop.cpp:484-489 | A throw ends the drain: the task that threw and all behind it are given up, and the counter stays. |
| Deadlines.DeadlineLists.AddTimer | src/net/event_loop.cpp:466-474 | Inserts at the lower bound and keeps the list sorted. |
| Deadlines.DeadlineLists.CloseAfter | src/net/event_loop.cpp:282-288 | Inserts a close entry at the lower bound and keeps the list sorted. |
| Deadlines.DeadlineLists.CancelClose | src/net/event_loop.cpp:290-298 | Removes the first entry of the socket and no other. |
| Deadlines.DeadlineLists.NextWait | src/net/event_loop.cpp:357-367 | With a timer due the poller does not wait; otherwise it waits the longest time that passes neither the request nor, but for rounding up to 1 ms, any deadline. |
| Deadlines.DeadlineLists.ExpireTimers | src/net/event_loop.cpp:660-679 | Takes exactly the expired front of the timer list and leaves the rest. |
| Deadlines.DeadlineLists.ExpireCloses | src/net/event_loop.cpp:681-712 | Takes the expired closes in order, wakes exactly the operations on those sockets, and leaves all others waiting. |
| Deadlines.InsertSorts | src/net/event_loop.cpp:466-474 | A new entry goes in front of those with the same deadline, and the list stays sorted. |
| Deadlines.ExpiryIsExact | src/net/event_loop.cpp:660-679 | Expiry takes exactly the entries whose deadline has passed. |
| Deadlines.WaitIsBounded | src/net/event_loop.cpp:357-367 | For every request and clock: the wait is zero if and only if zero was requested or a timer is due, and otherwise the longest punctual one. |
| Deadlines.RefreshKeepsOne | src/net/http.hpp:313-321 | Cancel-then-add leaves one entry for a socket that had at most one. |
| Deadlines.WokenExactly | src/net/event_loop.cpp:681-712 | Closing sockets wakes every operation on them and no other, none twice. |
| Deadlines.EachTimerOnce | src/net/event_loop.cpp:660-679 | On every run each accepted timer is waiting or has been resumed, once and after its deadline. |
| Deadlines.NoTimerOverdue | src/net/event_loop.cpp:660-679 | Right after an expiry pass every timer whose deadline has passed has been resumed. |
| Deadlines.TimersMove | src/net/event_loop.cpp:660-679 | What each call does to the timers: an added one is accepted and waits, an expiry pass resumes each that is due, now, and leaves the others. |
| Deadlines.NeverClosedEarly | src/net/http.hpp:313-335 | A socket refreshed by cancel-then-add keeps at most one close entry and is never closed before its last refresh plus the delay. |
| Deadlines.CancelLeavesTheSecond | src/net/event_loop.cpp:290-298 | A close requested twice outlives one cancel. |
| Deadlines.CancelRemovesFirst | src/net/event_loop.cpp:290-298 | What a cancel removes is the first entry of the socket, if it has one. |
| Deadlines.ClosesMove | src/net/event_loop.cpp:282-298 | What each call does to the close list: a request waits for its own deadline, a cancel takes one entry of its socket away, an expiry pass closes each that is due, now, and leaves the others. |
| Deadlines.WokenInOrder | src/net/event_loop.cpp:681-712 | Operations that go on waiting keep their order; those on one socket are woken in theirs, socket after socket. |
| ChunkSize.GuardIsExact | src/net/http.hpp:703-711 | The overflow guard refuses a digit exactly when the 64-bit accumulator would wrap. |
| ChunkSize.ParseChunkSize | src/net/http.hpp:683-716 | A size line, after its extension and blanks are removed, is accepted if and only if it is a non-empty hexadecimal number up to 2^64 - 1, with exactly that value; which characters are digits and what they count is ChunkSize.DigitIs. |
| ChunkSize.SizeRoundTrip | src/net/http.hpp:683-716 | Every number written in hexadecimal is read back exactly if it fits 64 bits and refused otherwise. |
| ChunkSize.DigitIs | src/net/http.hpp:701-707 | A character is a digit if and only if it is one of the sixteen, in lower or upper case, and counts for its position among them. |
| ChunkSize.SpellingIsRead | src/net/http.hpp:683-716 | Every spelling of a number, each digit in either case, with leading zeros, blanks around it and an extension, is read as that number if it fits 64 bits and refused otherwise. |
| ChunkSize.OnlySpellingsAreRead | src/net/http.hpp:683-716 | Nothing else is accepted: a line that is read as a number is a spelling of it. |
| ChunkedBody.EnsureLine | src/net/http.hpp:668-681 | Refills until a line end is buffered or the stream has ended; no byte is lost or repeated. |
| ChunkedBody.EnsureBuffer | src/net/http.hpp:651-666 | Refills until enough is buffered or the stream has ended; no byte is lost or repeated. |
| ChunkedBody.ConsumeTrailers | src/net/http.hpp:803-821 | Skips lines up to the first empty one, or fails exactly when the stream has none. |
| ChunkedBody.ReadChunkedBody | src/net/http.hpp:748-800 | However the transport cuts the stream into reads and wherever the buffer is compacted, status, output and chunk sequence are those of the one-shot decoder, the output is the concatenated chunks, and what is left over is what follows the body. |
| ChunkedBody.DrainChunkedBody | src/net/http.hpp:719-746 | From an empty buffer the drain succeeds exactly on the streams its specification accepts, leaves what that leaves, and never waits for more than the peer sends when it succeeds. |
| ChunkedCoding.DecodeEncode | src/net/http.hpp:748-800 | Decoding any encoding delivers its chunks in order, stops where the handler stops and uses no byte beyond it. |
| ChunkedCoding.ChunkedRoundTrip | src/net/http.hpp:748-800 | Whatever the size-line spelling, the extensions, the trailers and the bytes that follow, decoding completes with the chunks of the encoding and leaves exactly what follows. |
| ChunkedCoding.EncodeDecode | src/net/http.hpp:748-800 | The decoder accepts nothing else: a stream it completes on is the encoding of the chunks it delivered. |
| ChunkedDrain.DrainFollowsDecoder | src/net/http.hpp:719-746 | On every stream the decoder completes on, the drain completes at the same place. |
| ChunkedDrain.DropIsSafeIff | src/net/http.hpp:503-513 | Whatever was dropped with the decoder's buffer: a drain that succeeds is at the end of the response, however the peer completes it, if and only if the dropped bytes end neither inside chunk data nor inside a size line that may still announce data. |
| ChunkedDrain.WholeChunksAreSafe | src/net/http.hpp:503-513 | If whole chunks were dropped, or nothing, the drain succeeds and ends where the body ends. |
| ChunkedDrain.HugeChunkIsPassedOver | src/net/http.hpp:738-743 | A chunk said to have 2^64 - 2 bytes, which the decoder refuses, is passed over by the drain as if it were not there: its sum wraps. |
| HttpResponse.ReadHead | src/net/http.hpp:463-490 | Finds the end of the header block of the whole stream, however it is cut, or reads to the end. |
| HttpResponse.ReadFixedBody | src/net/http.hpp:519-560 | Reads exactly the declared number of bytes, or reports the body incomplete exactly when the stream is shorter. |
| HttpResponse.ReadChunkedResponse | src/net/http.hpp:495-517 | Status, body and completeness are those of the one-shot decoder; without a stop it is reusable exactly when complete and not closing; after a stop exactly when the drain of the unread bytes succeeds, and the connection is then where that drain ends. |
| HttpResponse.ReadResponse | src/net/http.hpp:463-594 | Under every cut a handler that never stops gets the response the stream holds; a response declared reusable has been read to its very end, or after a stop to where the drain took the end for, without one read beyond what the peer sends. |
| HttpResponse.SendWithTransport | src/net/http.hpp:343-349 | A connection released without a stop has consumed exactly one framed response; after a stop the same holds if the dropped bytes are no hazard; no released connection was read past what the peer sent; and a framed response is released if and only if its status is positive. |
| HttpResponse.ReleaseInsideAResponse | src/net/http.hpp:503-513 | A concrete run: a well-formed keep-alive response of two chunks, a handler that stops after the first, and the connection is released with the end of that response still unread on it. |
| HttpResponse.FramedIsReusable | src/net/http.hpp:463-594 | A framed response whose handler never stops it is declared reusable, so the claim about reads holds for each of them. |
| HttpResponse.FramesOnce | src/net/http.hpp:463-594 | Where a framed response ends is determined by the stream. |
| HttpResponse.ChunkedResponseFrames | src/net/http.hpp:495-517 | Every keep-alive response with a chunked body, whatever its chunking and trailers, is framed. |
| HttpResponse.FixedResponseFrames | src/net/http.hpp:519-560 | Every keep-alive response with a Content-Length is framed. |
| HttpResponse.FramedIsAResponse | src/net/http.hpp:463-594 | Nothing else is framed: the stream was a head, and an encoding or as many bytes as its Content-Length says. |
| HttpResponse.ChunkedResponseIsRead | src/net/http.hpp:495-517 | What is read of a chunked response, whatever its chunking, extensions and trailers, is the data of its chunks, complete, and reusable unless it closes. |
| HttpResponse.ResponseIsRead | src/net/http.hpp:519-594 | What is read of any other: the bytes its Content-Length says or, incomplete, those there are; nothing for an unreadable length; everything when it is closed at its end. |
| ConnectionPool.ConnectionPool.Acquire | src/net/connection_pool.cpp:28-91 | Hands out the most recently released usable entry, drops everything newer, and touches no other key; the erase-from-the-back loop stays in bounds. |
| ConnectionPool.ConnectionPool.Release | src/net/connection_pool.cpp:93-131 | Keeps the connection exactly when keep-alive is on, the stream is valid and there is room; nothing else changes. |
| ConnectionPool.ConnectionPool.CleanupIdle | src/net/connection_pool.cpp:132-156 | Every deque keeps exactly its usable entries, in order. |
| ConnectionPool.ConnectionPool.Size | src/net/connection_pool.cpp:158-165 | The size is the number of entries over all keys. |
| ConnectionPool.EveryConnectionOnce | src/net/connection_pool.cpp:28-156 | Over any mix of calls every deque holds at most the configured number of idle valid entries in release order, and every connection is in one deque once, handed out, or closed. |
| ConnectionPool.InOnePlace | src/net/connection_pool.cpp:28-156 | A connection is at one position of one deque. |
| ConnectionPool.ReusesMostRecent | src/net/connection_pool.cpp:28-91 | Whenever some entry is usable, acquire reuses one that was released no earlier. |
| ConnectionPool.AcquireMoves | src/net/connection_pool.cpp:28-91 | What acquire does to every connection: it hands out the newest usable one of the key or a new one, closes every entry of the key it passed, and leaves everything else where it was. |
| ConnectionPool.ReleaseMoves | src/net/connection_pool.cpp:93-131 | What release does: a connection that was handed out becomes the newest entry of its key, or is closed if it cannot be reused or there is no room; nothing else moves. |
| ConnectionPool.CleanMoves | src/net/connection_pool.cpp:132-156 | What the clean-up does: it closes the entries that may not be used any more and nothing else. |
| ConnectionPool.UsableIs | src/net/connection_pool.cpp:46-60 | An entry may be used for less than the idle time after its release, and only while its socket is alive. |
| PlanModel.NormalizeItems | src/orchestration/plan.cpp:474-521 | The in-place loops fill ids, titles, orders and preselections as the normal form says. |
| PlanModel.NormalizingIsExact | src/orchestration/plan.cpp:474-521 | Normalizing yields a normalized list, is idempotent, and leaves a list unchanged if and only if it is normalized. |
| PlanModel.PickingIsIdempotent | src/orchestration/plan.cpp:493-521 | Preselecting is idempotent and selects a choice wherever there is one. |
| PlanModel.NormalizingFillsGaps | src/orchestration/plan.cpp:474-521 | Normalizing fills only what is missing: ids by position, titles from descriptions or a default, orders, and the first recommended choice or else the first; every other field stays. |
| PlanModel.NamingFillsGaps | src/orchestration/plan.cpp:140-165 | Naming options fills missing ids by position and normalizes their items; every other field stays. |
| PlanManager.ItemsArePatched | src/orchestration/plan.cpp:256-280 | A patch succeeds if and only if some item has the id and the first such item has a decision with the id; then exactly the first such decision of that item has the choice and the note of the patch, and everything else is unchanged; otherwise the error says which of the two was missing. |
| PlanManager.PlanManager.NextRequestId | src/orchestration/plan.cpp:461-465 | The next id wraps in 64 bits and is never zero. |
| PlanManager.PlanManager.StartPlan | src/orchestration/plan.cpp:106-117 | Replaces the draft by a fresh one in drafting, revision 1, request id 0. Stated against the transition function the run theorems are about. |
| PlanManager.PlanManager.MarkDrafting | src/orchestration/plan.cpp:119-123 | Only status and time change. |
| PlanManager.PlanManager.ApplyModelDraft | src/orchestration/plan.cpp:125-138 | Normalized items, decision review, cleared final plan, next revision. |
| PlanManager.PlanManager.ApplyModelOptions | src/orchestration/plan.cpp:140-165 | Named and normalized options, option review, cleared items and final plan, next revision. |
| PlanManager.PlanManager.BeginDetailing | src/orchestration/plan.cpp:167-191 | Throws on a wrong state, revision or option and then changes nothing; otherwise issues the next request id. |
| PlanManager.PlanManager.ApplyModelDetail | src/orchestration/plan.cpp:193-217 | Throws on a stale id or a wrong state and then changes nothing; otherwise the detailed plan at the next revision. |
| PlanManager.PlanManager.SelectOption | src/orchestration/plan.cpp:219-240 | Throws on an unknown option or a wrong state and then changes nothing; otherwise copies the option into the plan. |
| PlanManager.PlanManager.ApplyUserItems | src/orchestration/plan.cpp:242-254 | Throws outside review and then changes nothing; otherwise the normalized items at the next revision. |
| PlanManager.PlanManager.ApplyDecision | src/orchestration/plan.cpp:256-280 | Patches the first decision with the id in the first item with the id, with the choice and the note of the patch, and changes nothing else of the items; a throw, for a wrong state, a stale revision, no such item or no such decision, exactly then, leaves the draft untouched; the answer says whether all required decisions are resolved. |
| PlanManager.PlanManager.BeginChatRevision | src/orchestration/plan.cpp:282-294 | Throws on a wrong state or revision and then changes nothing; otherwise issues the next request id. |
| PlanManager.PlanManager.ApplyRevisedOptions | src/orchestration/plan.cpp:296-305 | Rejects a stale id, else applies the options. |
| PlanManager.PlanManager.ApplyRevisedDetail | src/orchestration/plan.cpp:307-329 | Rejects a stale id, else replaces the plan at the next revision. |
| PlanManager.PlanManager.ApplyRevisedFinal | src/orchestration/plan.cpp:331-348 | Rejects a stale id or an empty plan, else sets the final plan at the next revision without looking at the stage. |
| PlanManager.PlanManager.BeginFinalizing | src/orchestration/plan.cpp:350-369 | Throws on a wrong state or revision or with decisions open and then changes nothing; otherwise issues the next request id. |
| PlanManager.PlanManager.ApplyModelFinal | src/orchestration/plan.cpp:371-388 | Rejects a stale id, a wrong stage or an empty plan, else sets the final plan at the next revision. |
| PlanManager.PlanManager.MarkFailed | src/orchestration/plan.cpp:390-395 | Only status, error and time change. |
| PlanManager.PlanManager.MarkReviewError | src/orchestration/plan.cpp:397-402 | Only status, error and time change. |
| PlanManager.PlanManager.Confirm | src/orchestration/plan.cpp:404-417 | Throws outside a final review at this revision and then changes nothing. |
| PlanManager.PlanManager.MarkExecuting | src/orchestration/plan.cpp:419-426 | Throws unless confirmed and then changes nothing. |
| PlanManager.PlanManager.CancelPlan | src/orchestration/plan.cpp:428-432 | Only status and time change. |
| PlanManager.PlanManager.RestorePlan | src/orchestration/plan.cpp:434-446 | Takes the saved draft, normalizes its lists and repairs a missing stage and time stamp. |
| PlanManager.PlanManager.ResetPlan | src/orchestration/plan.cpp:448-450 | Back to the empty draft. |
| PlanSafety.FinalStaysInStepIff | src/orchestration/plan.cpp:106-446 | Over any run, restores included: final review holds exactly when there is a final plan, made at the revision before the current one, and confirmed or executing implies that stage, at every point if and only if every restored draft is like that. |
| PlanSafety.FinalStaysResolvedIff | src/orchestration/plan.cpp:331-348 | Every final plan keeps all required decisions resolved, at every point of a run, if and only if each revised final plan it accepts finds them resolved, in whatever stage, and each draft it restores is resolved. |
| PlanSafety.ExecutingIsResolved | src/orchestration/plan.cpp:94-104 | Then at every point of the run a confirmed or executing plan has a final plan and every required decision resolved. |
| PlanSafety.RevisedFinalSkipsTheGate | src/orchestration/plan.cpp:331-348 | Without that condition any draft at all, open decisions included, reaches executing in three calls. |
| PlanSafety.RevisionNeverFalls | src/orchestration/plan.cpp:452-455 | Within one plan the revision never decreases. |
| PlanSafety.OnePatchPerRevision | src/orchestration/plan.cpp:167-280 | At most one apply_decision or begin_detailing succeeds per revision, whatever happens in between. |
| PlanSafety.OldResultsAreRejected | src/orchestration/plan.cpp:193-388 | Within one plan and fewer than 2^64 - 1 requests, a model result with an id older than the latest request is rejected, whichever call delivers it. |
| PlanSafety.RunStaysNormal | src/orchestration/plan.cpp:106-450 | Every transition, restoring included, leaves every item list in normal form. |
| PlanSafety.RestoreIsIdentityIff | src/orchestration/plan.cpp:434-446 | Restoring a normal draft gives it back if and only if it is not a reviewing draft without a stage and has a time stamp (or the clock reads zero). |
| PlanJson.DraftFromJson | src/orchestration/serializer.cpp:307-340 | The field-by-field reader computes the specified draft for every JSON value, missing fields, wrong types and numbers out of the range of their field included. |
| PlanJson.CastsRoundTrip | src/orchestration/serializer.cpp:193-215 | Every 64-bit unsigned number survives the signed cast and back. |
| PlanJson.NamesRoundTrip | src/orchestration/plan.cpp:34-76 | Every status and stage survives its text form. |
| PlanJson.NamesAre | src/orchestration/plan.cpp:34-76 | The text forms of every status and stage in the file; any other status reads as failed, any other stage as none. |
| PlanJson.MissingDraft | src/orchestration/serializer.cpp:307-340 | A JSON value without any of the fields is read as the empty draft. |
| PlanJson.DraftRoundTripIff | src/orchestration/serializer.cpp:193-340 | A draft is read back as it was saved if and only if its revisions and orders fit the 32 bits of their fields; its 64-bit numbers always survive. |
| PlanJson.PersistRestoreIff | src/orchestration/serializer.cpp:193-340 | Saving and restoring a draft any run can reach gives it back exactly if and only if its revisions fit 32 bits, it is not a reviewing draft without a stage and it carries a time stamp (or the clock reads zero). |
| PlanJson.ReloadKeepsSafety | src/server/session/pool.cpp:25-38 | Loading a saved draft over any other gives one in step, and one with its final plan resolved, exactly when the saved one was. |
| JsonText.ScanBrackets | src/orchestration/plan_parser.cpp:38-57 | The scanning loop cuts from the first bracket to the one that closes it, or to the end when none does. |
| JsonText.ExtractJsonText | src/orchestration/plan_parser.cpp:24-58 | The extractor takes the first complete fenced block, else the first bracketed text, else everything. |
| JsonText.PrintIsNeutral | src/orchestration/plan_parser.cpp:38-57 | Scanning the text of any well-formed value, strings with quotes, brackets and escapes included, leaves the scanner where it was. |
| JsonText.ExtractUndoesPrint | src/orchestration/plan_parser.cpp:24-58 | Any printed object or array is extracted exactly, from any prefix without a bracket and any suffix, when there is no fence in the text. |
| JsonText.ExtractFromOneLine | src/orchestration/plan_parser.cpp:24-58 | A value printed on one line is extracted unchanged even with fences inside its strings. |
| JsonText.FencedIsExtracted | src/orchestration/plan_parser.cpp:25-34 | Behind the fence that opens the block, the first that says json or else the first of any kind, everything from the next line up to the next fence is extracted as it is. |
| JsonText.WhatIsNotClosed | src/orchestration/plan_parser.cpp:35-57 | A value that breaks off is taken to the end of the text. |
| RunOutcome.EscapeJsonString | src/llm/run_outcome.hpp:228-248 | The escaping loop, character by character. |
| RunOutcome.EscapeRoundTrip | src/llm/run_outcome.hpp:228-248 | Escaping gives a valid string body without raw line ends that reads back as the text, control characters blanked. |
| RunOutcome.OutcomeToJson | src/llm/run_outcome.hpp:269-291 | The appending writer produces the specified text. |
| RunOutcome.OutcomePrints | src/llm/run_outcome.hpp:269-291 | What is written is the text of a JSON object with the fields of the outcome, given details that are JSON. |
| RunOutcome.OutcomeSurvivesExtraction | src/llm/run_outcome.hpp:269-291 | An outcome whose details are JSON on one line is extracted from its own text unchanged. |
| RunOutcome.FactorySurvivesExtraction | src/llm/run_outcome.hpp:58-178 | The JSON of every factory-built outcome is a printed object and is extracted unchanged, whatever message it carries. |
| RunOutcome.FactoryTells | src/llm/run_outcome.hpp:58-178 | The kind of every factory-built outcome: reason by factory, severity by status, the message of the caller, and ok for a success only. |
| RunOutcome.AdviceTells | src/llm/run_outcome.hpp:58-178 | The advice is available exactly when it names a way to go on, for all but a success and a final provider error; only corrected input needs no confirmation, and only a rate limit asks to wait. |
| SectionMerge.MergeSections | src/memory/section_merge.cpp:12-93 | The one-pass loop with its index map equals: distinct titles in first-occurrence order, the last body of each, the last non-empty preamble. |
| SectionMerge.TitlesFacts | src/memory/section_merge.cpp:36-50 | The titles are exactly those that occur, each once. |
| SectionMergeLaws.RemergeIsStableIff | src/memory/section_merge.cpp:12-93 | Merging the merged text again finds the same titles, order, header and bodies up to blank lines at their ends if and only if nothing kept holds a NUL. |
| SectionMergeMeaning.CutIsFaithful | src/memory/section_merge.cpp:51-80 | Cutting a text into sections loses no line and cuts exactly in front of every heading. |
| SectionMergeMeaning.TitleIs | src/memory/section_merge.cpp:58-66 | A title is what follows the two hashes and the blank, without the blanks and returns at its end. |
| SectionMergeMeaning.TitlesInOrder | src/memory/section_merge.cpp:36-50 | The titles come in the order of their first sections. |
| SectionMergeMeaning.LastUnderIs | src/memory/section_merge.cpp:36-50 | The body kept of a title is that of its last section. |
| SectionMergeMeaning.HeaderIs | src/memory/section_merge.cpp:36-50 | The preamble kept is the last one that has a line. |

## Left out

- Sockets, TLS, poller back ends, wakeup descriptors and coroutine frames: foreign calls; a read returns some bytes or the end.
- Weak memory order: every atomic operation of the queue is one sequentially consistent step, relaxed loads may return anything.
- The poller phase of `run_once` and the IOCP and `select` branches: platform code with the same effect on the lists.
- Header parsing: `HttpResponse` takes any interpretation of the header block as a parameter.
- AgentLaws.Chat: every line of input is a prompt; slash commands, `/compact` and `/clear` among them, are not modelled.
- AgentLoop.SendRequest: the other fields of the request body, the Anthropic `system` field among them, are not modelled.
- AgentLoop.RunSteps: stands for both step loops of the agent, which differ in how a reply is read (`AgentLoop.ReadReply`); callbacks, logging and persistence are not modelled.
- AgentLoop.ReadReply: extraction of calls and text from provider JSON is not part of this model; a whole response arrives as text and calls, a stream as text and fragments.
- ToolCalls.Execute: what a tool, a hook or a permission check does is an arbitrary attempt; its output text is kept only as far as the result carries it.
- ToolCalls.CollectStream: argument fragments are joined as text; parsing the joined text as JSON is not modelled.
- Session.ForceCompact: a session without a compactor is not modelled; token thresholds computed from doubles are integer inputs, and whether a compaction happens after an answer is an input of the turn.
- Compactor.BatchSummarize: prompts and the summary cache file are not modelled; the model's answers are an arbitrary function of the candidate index.
- ContextPruner.SoftPrune: text is bytes; character boundaries are those of the lead-byte table, and invalid UTF-8 is not repaired.
- Conversation.ConversationHistory.PrunedMessages: session ids, persistence and the mutex are not modelled.
- Adapter.OpenAiRoundTripIff: JSON objects are records; media blocks become nothing in the Anthropic form and text-only in the other.
- ConnectionPool.ConnectionPool.Acquire: making a new connection and its object pool are not modelled; `None` stands for it.
- Deadlines.DeadlineLists.ExpireCloses: closing sockets and resuming coroutines are the returned lists.
- EventQueueLaws.GracefulDrain: the time-out of `drain` is not modelled; the claim is about what reading zero means.
- PlanManager.PlanManager.StartPlan: revision numbers are unbounded integers; request ids and time stamps wrap in 64 bits.
- PlanJson.DraftFromJson: a JSON number is an integer, numbers with a fraction are not modelled; the text form of JSON is not part of this model.
- JsonText.ExtractUndoesPrint: a text with a triple backtick is taken by the fence branch first, as in the source.
- Token and step counters of the agent are unbounded integers.
- Model answer parsing beyond `extract_json_text`, prompts, the registry, the workflow graph, memory files, plugins, the CLI and the web server: they would only add easy members or are input and output.
