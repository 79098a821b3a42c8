/** What compaction makes of a history: which rounds stay, and what stands for the others. */
module CompactorMeaning {
  import opened Wrappers
  import opened Texts
  import opened Messages
  import opened ContextPruner
  import opened TokenEstimate
  import opened Conversation
  import opened Compactor
  import opened Sequences

  // ---------------------------------------------------------------- the text of a message

  lemma {:induction false} TextFromSnoc(content: seq<Block>, b: Block, acc: string)
    ensures TextFrom(content + [b], acc)
         == var before := TextFrom(content, acc);
            if b.Text? then (if before == "" then b.text else before + "\n" + b.text) else before
  {
    if content == [] {
      assert content + [b] == [b] && [b][1..] == [];
    } else {
      ConsAppend(content, [b]);
      TextFromSnoc(content[1..], b,
                   if content[0].Text? then (if acc == [] then content[0].text else acc + "\n" + content[0].text)
                   else acc);
    }
  }

  /**
   The text of a message is that of its text blocks, thinking included, a newline between any two that say something.
   */
  lemma AllTextSnoc(content: seq<Block>, b: Block)
    ensures AllText([]) == ""
    ensures AllText(content + [b])
         == var before := AllText(content);
            if b.Text? then (if before == "" then b.text else before + "\n" + b.text) else before
  {
    TextFromSnoc(content, b, "");
  }

  // ---------------------------------------------------------------- how much is kept

  /** What messages cost by their texts. */
  function Cost(h: History): nat {
    if h == [] then 0 else Cost(Front(h)) + TextTokens(AllText(Last(h).content))
  }

  lemma CostSnoc(h: History, m: Message)
    ensures Cost(h + [m]) == Cost(h) + TextTokens(AllText(m.content))
  {
    assert Front(h + [m]) == h && Last(h + [m]) == m;
  }

  lemma {:induction false} CostOfRun(h: History, run: History)
    ensures Cost(h + run) == Cost(h) + RunTokens(run)
    decreases |run|
  {
    if run == [] {
      Ends(h);
    } else {
      Assoc(h, [run[0]], run[1..]);
      assert run == [run[0]] + run[1..];
      CostSnoc(h, run[0]);
      CostOfRun(h + [run[0]], run[1..]);
    }
  }

  lemma {:induction false} CostOfRounds(h: History, rounds: seq<Round>)
    ensures Cost(h + Flatten(rounds)) == Cost(h) + RoundsTokens(rounds)
    decreases |rounds|
  {
    if rounds == [] {
      Ends(h);
    } else {
      var r := rounds[0];
      Assoc(h, [r.user] + r.execution, Flatten(rounds[1..]));
      Assoc(h, [r.user], r.execution);
      CostSnoc(h, r.user);
      CostOfRun(h + [r.user], r.execution);
      CostOfRounds(h + ([r.user] + r.execution), rounds[1..]);
    }
  }

  /** What the last `k` rounds cost. */
  function NewestCost(rounds: seq<Round>, k: nat): nat
    requires k <= |rounds|
  {
    Cost(Flatten(rounds[|rounds| - k..]))
  }

  lemma NewestCostIs(rounds: seq<Round>, k: nat)
    requires k <= |rounds|
    ensures NewestTokens(rounds, k) == NewestCost(rounds, k)
  {
    var newest := rounds[|rounds| - k..];
    CostOfRounds([], newest);
    Ends(Flatten(newest));
  }

  /**
   How many rounds are kept: as many as are asked for, otherwise as many as the budget and the configured number
   allow, but always one.
   */
  predicate Keeps(rounds: seq<Round>, override: int, c: Config, keep: nat) {
    1 <= keep <= |rounds| &&
    if override > 0 then keep == |rounds| || keep == override <= |rounds|
    else
      && (keep > 1 ==> keep <= c.keepRecent && NewestCost(rounds, keep) <= c.keepBudget)
      && forall j | keep < j <= |rounds| && j <= c.keepRecent :: NewestCost(rounds, j) > c.keepBudget
  }

  lemma KeepIs(rounds: seq<Round>, override: int, c: Config)
    requires rounds != []
    ensures Keeps(rounds, override, c, KeepCount(rounds, override, c))
    ensures override > 0 && override <= |rounds| ==> KeepCount(rounds, override, c) == override
  {
    hide NewestCost, NewestTokens;
    if override <= 0 {
      var keep := KeptRounds(rounds, c.keepBudget, c.keepRecent);
      NewestCostIs(rounds, keep);
      forall j | keep < j <= |rounds| && j <= c.keepRecent
        ensures NewestCost(rounds, j) > c.keepBudget
      {
        assert NewestTokens(rounds, j) > c.keepBudget;
        NewestCostIs(rounds, j);
      }
    }
  }

  // ---------------------------------------------------------------- what a round reads like

  /** What a message of a round is written as: a tool's output up to 200 bytes. */
  function Line(m: Message): string {
    var text := AllText(m.content);
    match m.role
    case Assistant => "Assistant: " + text + "\n"
    case Tool => "Tool: " + (if |text| <= 200 then text else text[..200] + "...") + "\n"
    case _ => ""
  }

  function Record(h: History): string {
    if h == [] then "" else Record(Front(h)) + Line(Last(h))
  }

  lemma {:induction false} RecordOfRun(h: History, run: History)
    ensures Record(h + run) == Record(h) + RunTranscript(run)
    decreases |run|
  {
    if run == [] {
      Ends(h);
      Ends(Record(h));
    } else {
      Assoc(h, [run[0]], run[1..]);
      assert run == [run[0]] + run[1..];
      assert Front(h + [run[0]]) == h && Last(h + [run[0]]) == run[0];
      RecordOfRun(h + [run[0]], run[1..]);
      Assoc(Record(h), Line(run[0]), RunTranscript(run[1..]));
    }
  }

  lemma TranscriptReads(r: Round)
    ensures Transcript(r) == "User: " + AllText(r.user.content) + "\n" + Record(r.execution)
  {
    RecordOfRun([], r.execution);
    Ends(r.execution);
    Ends(RunTranscript(r.execution));
  }

  // ---------------------------------------------------------------- what stands for the rest

  /** How many of the rounds are sent to the model. */
  function Longs(rounds: seq<Round>): nat {
    if rounds == [] then 0 else Longs(Front(rounds)) + if |Transcript(Last(rounds))| >= 100 then 1 else 0
  }

  lemma {:induction false} LongsCount(rounds: seq<Round>)
    ensures CountLong(rounds) == Longs(rounds)
  {
    if rounds != [] {
      var f, r := Front(rounds), Last(rounds);
      assert rounds == f + [r] && [r][1..] == [];
      CountLongSplit(f, [r]);
      LongsCount(f);
    }
  }

  /** The summary of round `i`, if it has one. */
  predicate Summarized(dropped: seq<Round>, i: nat)
    requires i < |dropped|
  {
    i < Longs(dropped) || |Transcript(dropped[i])| < 100
  }

  function SummaryOf(dropped: seq<Round>, i: nat, answer: nat -> string): string
    requires i < |dropped|
  {
    if i < Longs(dropped) then answer(i) else CString(Transcript(dropped[i]))
  }

  lemma {:induction false} AnsweredAt(m: map<nat, string>, n: nat, answer: nat -> string, i: nat)
    requires i in Answered(m, n, answer)
    ensures Answered(m, n, answer)[i] == if i < n then answer(i) else m[i]
  {
    if n > 0 && i != n - 1 {
      AnsweredAt(m, n - 1, answer, i);
    }
  }

  lemma {:induction false} ShortTextAt(rounds: seq<Round>, n: nat, i: nat)
    requires n <= |rounds| && i in ShortTexts(rounds, n)
    ensures i < n && ShortTexts(rounds, n)[i] == CString(Transcript(rounds[i]))
  {
    hide Transcript, IsLong;
    if n > 0 {
      if IsLong(rounds[n - 1]) {
        ShortTextAt(rounds, n - 1, i);
      } else if i != n - 1 {
        ShortTextAt(rounds, n - 1, i);
      }
    }
  }

  lemma SummaryIs(dropped: seq<Round>, answer: nat -> string, i: nat)
    requires i < |dropped|
    ensures i in Summaries(dropped, answer) <==> Summarized(dropped, i)
    ensures i in Summaries(dropped, answer) ==> Summaries(dropped, answer)[i] == SummaryOf(dropped, i, answer)
  {
    LongsCount(dropped);
    var short := ShortTexts(dropped, |dropped|);
    if i in Summaries(dropped, answer) {
      AnsweredAt(short, CountLong(dropped), answer, i);
      if i in short {
        ShortTextAt(dropped, |dropped|, i);
      }
    }
  }

  /** A user message of up to 100 bytes, and a reply. */
  predicate StandsFor(s: Round, r: Round, summary: string) {
    var text := AllText(r.user.content);
    && s.user == TextMessage(User, CString(if |text| <= 100 then text else Utf8Truncate(text, 100) + "..."))
    && s.execution == [TextMessage(Assistant, summary)]
  }

  /** `stand` stands for those of the old rounds that have a summary, which are those at `at`, in order. */
  ghost predicate StandIns(stand: seq<Round>, dropped: seq<Round>, at: seq<nat>, answer: nat -> string) {
    && |stand| == |at|
    && (forall j, k | 0 <= j < k < |at| :: at[j] < at[k])
    && (forall i: nat :: i in at <==> i < |dropped| && Summarized(dropped, i))
    && forall k | 0 <= k < |at| ::
         at[k] < |dropped| && StandsFor(stand[k], dropped[at[k]], SummaryOf(dropped, at[k], answer))
  }

  ghost predicate Indices(at: seq<nat>, n: nat, summaries: map<nat, string>) {
    && (forall j, k | 0 <= j < k < |at| :: at[j] < at[k])
    && (forall i: nat :: i in at <==> i < n && i in summaries)
  }

  predicate StandsAt(stand: seq<Round>, dropped: seq<Round>, at: seq<nat>, summaries: map<nat, string>) {
    && |stand| == |at|
    && forall k | 0 <= k < |at| ::
         at[k] < |dropped| && at[k] in summaries && stand[k] == SummaryRound(dropped[at[k]], summaries[at[k]])
  }

  lemma MoreIndices(at: seq<nat>, n: nat, summaries: map<nat, string>) returns (more: seq<nat>)
    requires Indices(at, n, summaries)
    ensures Indices(more, n + 1, summaries) && more == at + if n in summaries then [n] else []
  {
    more := at + if n in summaries then [n] else [];
    assert forall k | 0 <= k < |at| :: at[k] in at;
    assert forall i: nat :: i in more <==> i in at || (n in summaries && i == n);
  }

  lemma {:induction false} StandsWhere(dropped: seq<Round>, n: nat, summaries: map<nat, string>) returns (at: seq<nat>)
    requires n <= |dropped|
    ensures Indices(at, n, summaries) && StandsAt(SummaryRounds(dropped, n, summaries), dropped, at, summaries)
  {
    if n == 0 {
      at := [];
    } else {
      var before := StandsWhere(dropped, n - 1, summaries);
      at := MoreIndices(before, n - 1, summaries);
      hide SummaryRound, Indices;
    }
  }

  lemma {:induction false} FirstSystemHasNoRound(h: History)
    ensures Rounds(FirstSystem(h)) == []
  {
    if h != [] {
      if h[0].role == System {
        assert Front([h[0]]) == [] && Last([h[0]]) == h[0];
      } else {
        FirstSystemHasNoRound(h[1..]);
      }
    }
  }

  lemma StandsForIs(r: Round, summary: string)
    ensures StandsFor(SummaryRound(r, summary), r, summary)
  {
    hide AllText, CString, Utf8Truncate;
  }

  /** The summaries of the dropped rounds are those the model or the transcript gives. */
  ghost predicate Agree(dropped: seq<Round>, summaries: map<nat, string>, answer: nat -> string) {
    forall i: nat | i < |dropped| ::
      && (i in summaries <==> Summarized(dropped, i))
      && (i in summaries ==> summaries[i] == SummaryOf(dropped, i, answer))
  }

  lemma StandInsFrom(stand: seq<Round>, dropped: seq<Round>, at: seq<nat>, summaries: map<nat, string>,
                     answer: nat -> string)
    requires Indices(at, |dropped|, summaries) && StandsAt(stand, dropped, at, summaries)
    requires Agree(dropped, summaries, answer)
    ensures StandIns(stand, dropped, at, answer)
  {
    hide SummaryRound, StandsFor, Summarized, SummaryOf;
    forall k | 0 <= k < |at|
      ensures at[k] < |dropped| && StandsFor(stand[k], dropped[at[k]], SummaryOf(dropped, at[k], answer))
    {
      StandsForIs(dropped[at[k]], summaries[at[k]]);
    }
  }

  lemma StandInsOf(dropped: seq<Round>, answer: nat -> string) returns (stand: seq<Round>, at: seq<nat>)
    ensures stand == SummaryRounds(dropped, |dropped|, Summaries(dropped, answer))
    ensures StandIns(stand, dropped, at, answer)
  {
    hide Summaries, SummaryRounds, Summarized, SummaryOf, Indices, StandsAt, StandIns;
    var summaries := Summaries(dropped, answer);
    at := StandsWhere(dropped, |dropped|, summaries);
    stand := SummaryRounds(dropped, |dropped|, summaries);
    forall i: nat | i < |dropped|
      ensures i in summaries <==> Summarized(dropped, i)
      ensures i in summaries ==> summaries[i] == SummaryOf(dropped, i, answer)
    {
      SummaryIs(dropped, answer, i);
    }
    StandInsFrom(stand, dropped, at, summaries, answer);
  }

  /** The first system message of a history, if it has one. */
  ghost predicate SystemOf(h: History, head: History) {
    && (NoneIsSystem(h) ==> head == [])
    && forall i: nat | FirstOfSystem(h, i) :: head == [h[i]]
  }

  lemma SystemIs(h: History)
    ensures SystemOf(h, FirstSystem(h))
  {
    if NoneIsSystem(h) {
      NoSystemIsFound(h);
    }
    forall i: nat | FirstOfSystem(h, i)
      ensures FirstSystem(h) == [h[i]]
    {
      SystemIsFound(h, i);
    }
  }

  /** What replaces a history of which `keep` rounds are kept. */
  ghost predicate Replaces(r: History, h: History, keep: nat, head: History, stand: seq<Round>, at: seq<nat>,
                           answer: nat -> string) {
    var rounds := Rounds(h);
    && keep <= |rounds|
    && SystemOf(h, head)
    && StandIns(stand, rounds[..|rounds| - keep], at, answer)
    && r == head + Flatten(stand) + Flatten(rounds[|rounds| - keep..])
    && Rounds(r) == stand + rounds[|rounds| - keep..]
  }

  lemma CompactedIs(h: History, keep: nat, answer: nat -> string)
    returns (head: History, stand: seq<Round>, at: seq<nat>)
    requires keep <= |Rounds(h)|
    ensures Replaces(Compacted(h, Rounds(h), keep, Summaries(Rounds(h)[..|Rounds(h)| - keep], answer)), h, keep, head,
                     stand, at, answer)
  {
    hide Rounds, Summaries, SummaryRounds, FirstSystem, Flatten, StandIns, SystemOf;
    var rounds := Rounds(h);
    var n := |rounds| - keep;
    var summaries := Summaries(rounds[..n], answer);
    head := FirstSystem(h);
    SystemIs(h);
    stand, at := StandInsOf(rounds[..n], answer);
    SummaryRoundsPrefix(rounds, n, n, summaries);
    FirstSystemHasNoRound(h);
    RoundsPartition(h);
    AllStandInsWellFormed(rounds, n, summaries);
    RoundsOfParts(head, stand, rounds[n..]);
  }

  /**
   Compaction leaves a history alone if nothing is to be dropped. Otherwise it makes one of the first system message,
   stand-ins for the old rounds that have a summary, and the newest rounds as they were.
   */
  lemma CompactionOutcome(h: History, override: int, c: Config, answer: nat -> string)
    returns (keep: nat, head: History, stand: seq<Round>, at: seq<nat>)
    ensures var rounds, r := Rounds(h), Compaction(h, override, c, answer);
            if |rounds| <= 1 then r == h
            else
              && Keeps(rounds, override, c, keep) && (0 < override <= |rounds| ==> keep == override)
              && if keep == |rounds| then r == h else Replaces(r, h, keep, head, stand, at, answer)
  {
    hide Rounds, KeepCount, Summaries, Compacted, Keeps, Replaces;
    keep, head, stand, at := 0, [], [], [];
    var rounds := Rounds(h);
    if |rounds| > 1 {
      KeepIs(rounds, override, c);
      keep := KeepCount(rounds, override, c);
      head, stand, at := CompactedIs(h, keep, answer);
    }
  }
}
