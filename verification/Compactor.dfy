/**
 Compaction: the history is cut into rounds (a user message and what followed it), old rounds are
 replaced by summary pairs and the recent ones kept verbatim.
 */
module Compactor {
  import opened Wrappers
  import opened Texts
  import opened Messages
  import opened ContextPruner
  import opened TokenEstimate
  import opened Conversation
  import opened Sequences

  datatype Round = Round(user: Message, execution: History)

  // ---------------------------------------------------------------- rounds

  /** The rounds after one more message. */
  function Extended(rounds: seq<Round>, m: Message): seq<Round> {
    if m.role == System then rounds
    else if m.role == User then rounds + [Round(m, [])]
    else if rounds == [] then []
    else Front(rounds) + [Round(Last(rounds).user, Last(rounds).execution + [m])]
  }

  function Rounds(h: History): seq<Round> {
    if h == [] then [] else Extended(Rounds(Front(h)), Last(h))
  }

  method SplitRounds(h: History) returns (rounds: seq<Round>)
    ensures rounds == Rounds(h)
  {
    rounds := [];
    var i := 0;
    while i < |h|
      invariant 0 <= i <= |h|
      invariant rounds == Rounds(h[..i])
    {
      var msg := h[i];
      assert Front(h[..i + 1]) == h[..i] && Last(h[..i + 1]) == msg;
      if msg.role == System {
      } else if msg.role == User {
        rounds := rounds + [Round(msg, [])];
      } else if rounds != [] {
        var current := rounds[|rounds| - 1];
        rounds := rounds[|rounds| - 1 := Round(current.user, current.execution + [msg])];
      }
      i := i + 1;
    }
    assert h[..i] == h;
  }

  function Flatten(rounds: seq<Round>): History {
    if rounds == [] then [] else [rounds[0].user] + rounds[0].execution + Flatten(rounds[1..])
  }

  predicate WellFormedRound(r: Round) {
    r.user.role == User && forall m | m in r.execution :: m.role == Assistant || m.role == Tool
  }

  predicate WellFormedRounds(rounds: seq<Round>) {
    forall i | 0 <= i < |rounds| :: WellFormedRound(rounds[i])
  }

  /** What the rounds must cover: everything but system messages, from the first user message on. */
  function FromFirstUser(h: History): History {
    if h == [] then [] else if h[0].role == User then h else FromFirstUser(h[1..])
  }

  lemma {:induction false} FlattenAppend(a: seq<Round>, b: seq<Round>)
    ensures Flatten(a + b) == Flatten(a) + Flatten(b)
  {
    if a == [] {
      assert a + b == b;
    } else {
      assert (a + b)[1..] == a[1..] + b;
      FlattenAppend(a[1..], b);
    }
  }

  lemma FlattenOne(r: Round)
    ensures Flatten([r]) == [r.user] + r.execution
  {
    assert [r][1..] == [];
  }

  lemma FlattenExtended(rounds: seq<Round>, m: Message)
    ensures Flatten(Extended(rounds, m)) ==
            if m.role == System || (m.role != User && rounds == []) then Flatten(rounds) else Flatten(rounds) + [m]
    ensures WellFormedRounds(rounds) ==> WellFormedRounds(Extended(rounds, m))
  {
    if m.role == User {
      FlattenAppend(rounds, [Round(m, [])]);
      FlattenOne(Round(m, []));
    } else if m.role != System && rounds != [] {
      var last := Last(rounds);
      assert rounds == Front(rounds) + [last];
      FlattenAppend(Front(rounds), [last]);
      FlattenAppend(Front(rounds), [Round(last.user, last.execution + [m])]);
      FlattenOne(last);
      FlattenOne(Round(last.user, last.execution + [m]));
      Assoc(Flatten(Front(rounds)), [last.user] + last.execution, [m]);
      Assoc([last.user], last.execution, [m]);
    }
  }

  lemma {:induction false} NoSystemSnoc(h: History, m: Message)
    ensures NoSystem(h + [m]) == if m.role == System then NoSystem(h) else NoSystem(h) + [m]
  {
    if h == [] {
      assert h + [m] == [m] && [m][1..] == [];
    } else {
      assert (h + [m])[1..] == h[1..] + [m];
      NoSystemSnoc(h[1..], m);
    }
  }

  lemma {:induction false} FromFirstUserSnoc(h: History, m: Message)
    ensures FromFirstUser(h + [m]) == if FromFirstUser(h) == [] && m.role != User then [] else FromFirstUser(h) + [m]
  {
    if h == [] {
      assert h + [m] == [m] && [m][1..] == [];
    } else {
      assert (h + [m])[1..] == h[1..] + [m];
      FromFirstUserSnoc(h[1..], m);
    }
  }

  /** Rounds partition the non-system messages from the first user message on, in order. */
  lemma {:induction false} RoundsPartition(h: History)
    ensures Flatten(Rounds(h)) == FromFirstUser(NoSystem(h))
    ensures WellFormedRounds(Rounds(h))
    ensures Rounds(h) == [] <==> FromFirstUser(NoSystem(h)) == []
  {
    if h != [] {
      var f, m := Front(h), Last(h);
      assert h == f + [m];
      RoundsPartition(f);
      FlattenExtended(Rounds(f), m);
      NoSystemSnoc(f, m);
      FromFirstUserSnoc(NoSystem(f), m);
    }
  }

  lemma {:induction false} RoundsAppendRun(h: History, run: History)
    requires Rounds(h) != []
    requires forall m | m in run :: m.role == Assistant || m.role == Tool
    ensures Rounds(h + run) == Front(Rounds(h)) + [Round(Last(Rounds(h)).user, Last(Rounds(h)).execution + run)]
  {
    if run == [] {
      Ends(h);
      Ends(Last(Rounds(h)).execution);
    } else {
      hide Rounds, Extended;
      var f, m := Front(run), Last(run);
      assert run == f + [m] && m in run && forall x | x in f :: x in run;
      RoundsAppendRun(h, f);
      RoundsSnoc(h + f, m);
      ExecutionGrows(Front(Rounds(h)), Last(Rounds(h)), f, m);
      Assoc(h, f, [m]);
    }
  }

  lemma ExecutionGrows(before: seq<Round>, r: Round, run: History, m: Message)
    requires m.role == Assistant || m.role == Tool
    ensures Extended(before + [Round(r.user, r.execution + run)], m)
         == before + [Round(r.user, r.execution + (run + [m]))]
  {
    var now := Round(r.user, r.execution + run);
    assert Front(before + [now]) == before && Last(before + [now]) == now;
    Assoc(r.execution, run, [m]);
  }

  lemma RoundsSnoc(h: History, m: Message)
    ensures Rounds(h + [m]) == Extended(Rounds(h), m)
  {
    assert Front(h + [m]) == h && Last(h + [m]) == m;
  }

  lemma OneMoreRound(base: History, r: Round)
    requires WellFormedRound(r)
    ensures Rounds(base + [r.user] + r.execution) == Rounds(base) + [r]
  {
    var started := base + [r.user];
    assert Front(started) == base && Last(started) == r.user;
    assert Rounds(started) == Rounds(base) + [Round(r.user, [])];
    RoundsAppendRun(started, r.execution);
    assert Front(Rounds(started)) == Rounds(base);
    Ends(r.execution);
  }

  /** Cutting into rounds is the inverse of flattening, after any history. */
  lemma {:induction false} RoundsOfFlatten(h: History, rounds: seq<Round>)
    requires WellFormedRounds(rounds)
    ensures Rounds(h + Flatten(rounds)) == Rounds(h) + rounds
  {
    if rounds == [] {
      Ends(h);
      Ends(Rounds(h));
    } else {
      hide Flatten, Rounds;
      var f, r := Front(rounds), Last(rounds);
      assert rounds == f + [r] && WellFormedRound(rounds[|rounds| - 1]);
      RoundsOfFlatten(h, f);
      FlattenAppend(f, [r]);
      FlattenOne(r);
      var base := h + Flatten(f);
      Assoc(h, Flatten(f), [r.user] + r.execution);
      Assoc(base, [r.user], r.execution);
      OneMoreRound(base, r);
      Assoc(Rounds(h), f, [r]);
    }
  }

  // ---------------------------------------------------------------- how many rounds to keep

  function RunTokens(run: History): nat {
    if run == [] then 0 else TextTokens(AllText(run[0].content)) + RunTokens(run[1..])
  }

  function RoundTokens(r: Round): nat {
    TextTokens(AllText(r.user.content)) + RunTokens(r.execution)
  }

  function RoundsTokens(rounds: seq<Round>): nat {
    if rounds == [] then 0 else RoundTokens(rounds[0]) + RoundsTokens(rounds[1..])
  }

  /** Cost of the last `k` rounds. */
  function NewestTokens(rounds: seq<Round>, k: nat): nat
    requires k <= |rounds|
  {
    RoundsTokens(rounds[|rounds| - k..])
  }

  /** The largest k up to `limit` whose last k rounds fit the budget; 0 if none does. */
  function LargestFit(rounds: seq<Round>, budget: int, limit: nat): (k: nat)
    requires limit <= |rounds|
    ensures k <= limit
    ensures k > 0 ==> NewestTokens(rounds, k) <= budget
    ensures forall j | k < j <= limit :: NewestTokens(rounds, j) > budget
  {
    if limit == 0 || NewestTokens(rounds, limit) <= budget then limit
    else LargestFit(rounds, budget, limit - 1)
  }

  lemma {:induction false} MoreRoundsCostMore(rounds: seq<Round>, k: nat, j: nat)
    requires k <= j <= |rounds|
    ensures NewestTokens(rounds, k) <= NewestTokens(rounds, j)
    decreases j
  {
    if k < j {
      assert rounds[|rounds| - j..][1..] == rounds[|rounds| - (j - 1)..];
      MoreRoundsCostMore(rounds, k, j - 1);
    }
  }

  /** The upward search stops at the downward answer because suffix costs only grow. */
  lemma LargestFitIs(rounds: seq<Round>, budget: int, limit: nat, k: nat)
    requires k <= limit <= |rounds|
    requires k > 0 ==> NewestTokens(rounds, k) <= budget
    requires k < limit ==> NewestTokens(rounds, k + 1) > budget
    ensures LargestFit(rounds, budget, limit) == k
  {
    var f := LargestFit(rounds, budget, limit);
    if f > k {
      MoreRoundsCostMore(rounds, k + 1, f);
    }
  }

  method RoundCost(r: Round) returns (tokens: nat)
    ensures tokens == RoundTokens(r)
  {
    tokens := EstimateTextTokens(AllText(r.user.content));
    var i := 0;
    while i < |r.execution|
      invariant 0 <= i <= |r.execution|
      invariant tokens + RunTokens(r.execution[i..]) == RoundTokens(r)
    {
      assert r.execution[i..][1..] == r.execution[i + 1..];
      var n := EstimateTextTokens(AllText(r.execution[i].content));
      tokens := tokens + n;
      i := i + 1;
    }
  }

  function KeptRounds(rounds: seq<Round>, budget: int, keepRecent: int): nat {
    Max(1, LargestFit(rounds, budget, Min(|rounds|, Max(keepRecent, 1))))
  }

  lemma NewestStep(rounds: seq<Round>, k: nat)
    requires k < |rounds|
    ensures NewestTokens(rounds, k + 1) == RoundTokens(rounds[|rounds| - 1 - k]) + NewestTokens(rounds, k)
  {
    assert rounds[|rounds| - (k + 1)..][1..] == rounds[|rounds| - k..];
  }

  /** Counts rounds from the newest while they fit; stops at `limit` or at the first that does not. */
  method FitFromNewest(rounds: seq<Round>, budget: int, limit: nat) returns (keep: nat)
    requires limit <= |rounds|
    ensures keep == LargestFit(rounds, budget, limit)
  {
    var used := 0;
    keep := 0;
    while keep < limit
      invariant keep <= limit
      invariant used == NewestTokens(rounds, keep)
      invariant keep > 0 ==> used <= budget
    {
      var cost := RoundCost(rounds[|rounds| - 1 - keep]);
      NewestStep(rounds, keep);
      if used + cost > budget {
        break;
      }
      used := used + cost;
      keep := keep + 1;
    }
    LargestFitIs(rounds, budget, limit, keep);
  }

  method DetermineKeepRounds(rounds: seq<Round>, budget: int, keepRecent: int) returns (keep: nat)
    ensures keep == KeptRounds(rounds, budget, keepRecent)
  {
    // the source tests `keep >= keep_recent` only after counting a round, so the limit is at least one
    keep := FitFromNewest(rounds, budget, Min(|rounds|, Max(keepRecent, 1)));
    keep := Max(keep, 1);
  }

  // ---------------------------------------------------------------- summaries

  function Clip(s: string, max: nat): string {
    if |s| > max then s[..max] + "..." else s
  }

  function RunTranscript(run: History): string {
    if run == [] then ""
    else
      (if run[0].role == Assistant then "Assistant: " + AllText(run[0].content) + "\n"
       else if run[0].role == Tool then "Tool: " + Clip(AllText(run[0].content), 200) + "\n"
       else "") + RunTranscript(run[1..])
  }

  function Transcript(r: Round): string {
    "User: " + AllText(r.user.content) + "\n" + RunTranscript(r.execution)
  }

  const SHORT_TRANSCRIPT := 100

  /** A round whose transcript is long enough to be sent to the model for a summary. */
  predicate IsLong(r: Round) {
    |Transcript(r)| >= SHORT_TRANSCRIPT
  }

  function CountLong(rounds: seq<Round>): (n: nat)
    ensures n <= |rounds|
  {
    if rounds == [] then 0 else (if IsLong(rounds[0]) then 1 else 0) + CountLong(rounds[1..])
  }

  /** Short rounds, stored under their round index. */
  function ShortTexts(rounds: seq<Round>, n: nat): (m: map<nat, string>)
    requires n <= |rounds|
    ensures forall i: nat :: i in m <==> i < n && !IsLong(rounds[i])
  {
    if n == 0 then map[]
    else if IsLong(rounds[n - 1]) then ShortTexts(rounds, n - 1)
    else ShortTexts(rounds, n - 1)[n - 1 := CString(Transcript(rounds[n - 1]))]
  }

  /** Model answers written over a map, under their index among the long rounds. */
  function Answered(m: map<nat, string>, n: nat, answer: nat -> string): (r: map<nat, string>)
    ensures forall i: nat :: i in r <==> i in m || i < n
  {
    if n == 0 then m else Answered(m, n - 1, answer)[n - 1 := answer(n - 1)]
  }

  /** The map the batch summariser returns; `answer` is the model's text for each long round. */
  function Summaries(rounds: seq<Round>, answer: nat -> string): map<nat, string> {
    Answered(ShortTexts(rounds, |rounds|), CountLong(rounds), answer)
  }

  lemma ShortStep(rounds: seq<Round>, i: nat)
    requires i < |rounds|
    ensures ShortTexts(rounds, i + 1) == if IsLong(rounds[i]) then ShortTexts(rounds, i)
                                         else ShortTexts(rounds, i)[i := CString(Transcript(rounds[i]))]
    ensures CountLong(rounds[i..]) == (if IsLong(rounds[i]) then 1 else 0) + CountLong(rounds[i + 1..])
  {
    SuffixStep(rounds, i);
  }

  lemma NothingSummarized(rounds: seq<Round>, m: map<nat, string>, answer: nat -> string)
    ensures ShortTexts(rounds, 0) == map[] && Answered(m, 0, answer) == m
    ensures CountLong(rounds[0..]) == CountLong(rounds) && CountLong(rounds[|rounds|..]) == 0
  {
    Ends(rounds);
  }

  lemma AnsweredStep(m: map<nat, string>, j: nat, answer: nat -> string)
    ensures Answered(m, j + 1, answer) == Answered(m, j, answer)[j := answer(j)]
  {
  }

  method BatchSummarize(oldRounds: seq<Round>, answer: nat -> string) returns (summaries: map<nat, string>)
    ensures summaries == Summaries(oldRounds, answer)
  {
    hide ShortTexts, CountLong, Answered, Transcript;
    NothingSummarized(oldRounds, ShortTexts(oldRounds, |oldRounds|), answer);
    summaries := map[];
    var candidates := 0;
    var i := 0;
    while i < |oldRounds|
      invariant 0 <= i <= |oldRounds|
      invariant summaries == ShortTexts(oldRounds, i)
      invariant candidates + CountLong(oldRounds[i..]) == CountLong(oldRounds)
    {
      ShortStep(oldRounds, i);
      var text := Transcript(oldRounds[i]);
      if |text| < SHORT_TRANSCRIPT {
        summaries := summaries[i := CString(text)];
      } else {
        candidates := candidates + 1;
      }
      i := i + 1;
    }
    var j := 0;
    while j < candidates
      invariant 0 <= j <= candidates
      invariant summaries == Answered(ShortTexts(oldRounds, |oldRounds|), j, answer)
    {
      AnsweredStep(ShortTexts(oldRounds, |oldRounds|), j, answer);
      summaries := summaries[j := answer(j)];
      j := j + 1;
    }
  }

  lemma {:induction false} CountLongSplit(a: seq<Round>, b: seq<Round>)
    ensures CountLong(a + b) == CountLong(a) + CountLong(b)
  {
    if a == [] {
      assert a + b == b;
    } else {
      assert (a + b)[1..] == a[1..] + b;
      CountLongSplit(a[1..], b);
    }
  }

  lemma {:induction false} CountLongExtremes(rounds: seq<Round>)
    ensures CountLong(rounds) == |rounds| <==> forall i | 0 <= i < |rounds| :: IsLong(rounds[i])
    ensures CountLong(rounds) == 0 <==> forall i | 0 <= i < |rounds| :: !IsLong(rounds[i])
  {
    if rounds != [] {
      CountLongExtremes(rounds[1..]);
      assert forall i | 1 <= i < |rounds| :: rounds[i] == rounds[1..][i - 1];
      assert forall i | 0 <= i < |rounds[1..]| :: rounds[1..][i] == rounds[i + 1];
    }
  }

  predicate Covers(summaries: map<nat, string>, n: nat) {
    forall i: nat | i < n :: i in summaries
  }

  /** Every long round comes before every short one. */
  predicate LongRoundsFirst(rounds: seq<Round>) {
    forall i, j | 0 <= i < j < |rounds| && IsLong(rounds[j]) :: IsLong(rounds[i])
  }

  lemma SomeLong(b: seq<Round>)
    requires b != []
    ensures IsLong(b[0]) ==> CountLong(b) > 0
    ensures (forall k | 0 <= k < |b| :: !IsLong(b[k])) ==> CountLong(b) == 0
  {
    CountLongExtremes(b);
  }

  lemma AllLong(a: seq<Round>)
    requires forall k | 0 <= k < |a| :: IsLong(a[k])
    ensures CountLong(a) == |a|
  {
    CountLongExtremes(a);
  }

  lemma LongPrefixAt(rounds: seq<Round>, i: nat)
    requires i < |rounds| && LongRoundsFirst(rounds)
    ensures IsLong(rounds[i]) <==> i < CountLong(rounds)
  {
    hide CountLong, IsLong;
    var a, b := rounds[..i], rounds[i..];
    assert rounds == a + b;
    CountLongSplit(a, b);
    SuffixStep(rounds, i);
    if IsLong(rounds[i]) {
      AllLong(a);
    } else {
      forall k | 0 <= k < |b|
        ensures !IsLong(b[k])
      {
        assert b[k] == rounds[i + k];
      }
    }
    SomeLong(b);
  }

  lemma LongFirstPrefix(rounds: seq<Round>)
    ensures LongRoundsFirst(rounds) <==>
            (forall i | 0 <= i < |rounds| :: IsLong(rounds[i]) <==> i < CountLong(rounds))
  {
    hide CountLong, IsLong;
    if LongRoundsFirst(rounds) {
      forall i | 0 <= i < |rounds|
        ensures IsLong(rounds[i]) <==> i < CountLong(rounds)
      {
        LongPrefixAt(rounds, i);
      }
    }
  }

  lemma NoLongFrom(rounds: seq<Round>, c: nat)
    requires c <= |rounds|
    requires forall i | 0 <= i < |rounds| && IsLong(rounds[i]) :: i < c
    ensures CountLong(rounds) == CountLong(rounds[..c])
  {
    hide CountLong, IsLong;
    var b := rounds[c..];
    assert rounds == rounds[..c] + b;
    CountLongSplit(rounds[..c], b);
    forall k | 0 <= k < |b|
      ensures !IsLong(b[k])
    {
      assert b[k] == rounds[c + k];
    }
    CountLongExtremes(b);
  }

  /** If the c long rounds all sit below index c they are exactly the first c rounds. */
  lemma LongBelowCount(rounds: seq<Round>)
    requires forall i | 0 <= i < |rounds| && IsLong(rounds[i]) :: i < CountLong(rounds)
    ensures LongRoundsFirst(rounds)
  {
    var c := CountLong(rounds);
    var a := rounds[..c];
    NoLongFrom(rounds, c);
    CountLongExtremes(a);
    forall i, j | 0 <= i < j < |rounds| && IsLong(rounds[j])
      ensures IsLong(rounds[i])
    {
      assert a[i] == rounds[i];
    }
  }

  lemma LongRoundNeedsAnswer(rounds: seq<Round>, answer: nat -> string, i: nat)
    requires i < |rounds| && IsLong(rounds[i]) && i in Summaries(rounds, answer)
    ensures i < CountLong(rounds)
  {
  }

  lemma CompleteMeansLongFirst(rounds: seq<Round>, answer: nat -> string)
    requires Covers(Summaries(rounds, answer), |rounds|)
    ensures LongRoundsFirst(rounds)
  {
    forall i | 0 <= i < |rounds| && IsLong(rounds[i])
      ensures i < CountLong(rounds)
    {
      LongRoundNeedsAnswer(rounds, answer, i);
    }
    LongBelowCount(rounds);
  }

  /** The summariser leaves no old round without an entry if and only if no short round precedes a long one. */
  lemma SummariesCompleteIff(rounds: seq<Round>, answer: nat -> string)
    ensures Covers(Summaries(rounds, answer), |rounds|) <==> LongRoundsFirst(rounds)
  {
    if Covers(Summaries(rounds, answer), |rounds|) {
      CompleteMeansLongFirst(rounds, answer);
    }
    if LongRoundsFirst(rounds) {
      LongFirstPrefix(rounds);
    }
  }

  // ---------------------------------------------------------------- the compacted history

  function FirstSystem(h: History): History {
    if h == [] then [] else if h[0].role == System then [h[0]] else FirstSystem(h[1..])
  }

  function ClippedPrompt(text: string): string {
    CString(if |text| > 100 then Utf8Truncate(text, 100) + "..." else text)
  }

  function SummaryRound(r: Round, summary: string): Round {
    Round(TextMessage(User, ClippedPrompt(AllText(r.user.content))), [TextMessage(Assistant, summary)])
  }

  /** Stand-ins for those of the first `n` old rounds that have a summary under their index. */
  function SummaryRounds(oldRounds: seq<Round>, n: nat, summaries: map<nat, string>): (r: seq<Round>)
    requires n <= |oldRounds|
    ensures |r| <= n
  {
    if n == 0 then []
    else SummaryRounds(oldRounds, n - 1, summaries)
         + if n - 1 in summaries then [SummaryRound(oldRounds[n - 1], summaries[n - 1])] else []
  }

  function Compacted(h: History, rounds: seq<Round>, keep: nat, summaries: map<nat, string>): History
    requires keep <= |rounds|
  {
    FirstSystem(h) + Flatten(SummaryRounds(rounds, |rounds| - keep, summaries)) + Flatten(rounds[|rounds| - keep..])
  }

  datatype Config = Config(keepBudget: int, keepRecent: int)

  function KeepCount(rounds: seq<Round>, override: int, c: Config): (keep: nat)
    requires rounds != []
    ensures 1 <= keep <= |rounds|
  {
    if override > 0 then Min(override, |rounds|) else KeptRounds(rounds, c.keepBudget, c.keepRecent)
  }

  /** The history after compaction; `answer` gives the model's summaries. */
  function Compaction(h: History, override: int, c: Config, answer: nat -> string): History {
    var rounds := Rounds(h);
    if |rounds| <= 1 then h
    else
      var keep := KeepCount(rounds, override, c);
      if keep == |rounds| then h
      else Compacted(h, rounds, keep, Summaries(rounds[..|rounds| - keep], answer))
  }

  lemma SummaryRoundsPrefix(rounds: seq<Round>, m: nat, n: nat, summaries: map<nat, string>)
    requires n <= m <= |rounds|
    ensures SummaryRounds(rounds[..m], n, summaries) == SummaryRounds(rounds, n, summaries)
  {
  }

  lemma SummaryStep(rounds: seq<Round>, i: nat, summaries: map<nat, string>)
    requires i < |rounds|
    ensures Flatten(SummaryRounds(rounds, i + 1, summaries)) == Flatten(SummaryRounds(rounds, i, summaries))
         + if i in summaries then var s := SummaryRound(rounds[i], summaries[i]); [s.user] + s.execution else []
  {
    hide Flatten, SummaryRound;
    var before := SummaryRounds(rounds, i, summaries);
    if i in summaries {
      var pair := SummaryRound(rounds[i], summaries[i]);
      FlattenAppend(before, [pair]);
      FlattenOne(pair);
    } else {
      Ends(before);
      Ends(Flatten(before));
    }
  }

  lemma NoSummaries(rounds: seq<Round>, summaries: map<nat, string>, h: History)
    ensures h + Flatten(SummaryRounds(rounds, 0, summaries)) == h
  {
  }

  method AddSummaries(newHistory: ConversationHistory, oldRounds: seq<Round>, summaries: map<nat, string>)
    requires newHistory.Valid()
    modifies newHistory
    ensures newHistory.Valid()
    ensures newHistory.messages == old(newHistory.messages) + Flatten(SummaryRounds(oldRounds, |oldRounds|, summaries))
  {
    hide Flatten, SummaryRounds;
    NoSummaries(oldRounds, summaries, newHistory.messages);
    var i := 0;
    while i < |oldRounds|
      invariant 0 <= i <= |oldRounds| && newHistory.Valid()
      invariant newHistory.messages == old(newHistory.messages) + Flatten(SummaryRounds(oldRounds, i, summaries))
    {
      ghost var before := Flatten(SummaryRounds(oldRounds, i, summaries));
      SummaryStep(oldRounds, i, summaries);
      if i in summaries {
        var userContent := AllText(oldRounds[i].user.content);
        if |userContent| > 100 {
          userContent := Utf8Truncate(userContent, 100) + "...";
        }
        ghost var pair := SummaryRound(oldRounds[i], summaries[i]);
        newHistory.AddUser(CString(userContent));
        newHistory.AddAssistant(summaries[i]);
        Assoc(old(newHistory.messages), before, [pair.user] + pair.execution);
        Assoc(old(newHistory.messages) + before, [pair.user], pair.execution);
      } else {
        Ends(before);
      }
      i := i + 1;
    }
  }

  method AddExecution(newHistory: ConversationHistory, execution: History)
    requires newHistory.Valid()
    modifies newHistory
    ensures newHistory.Valid()
    ensures newHistory.messages == old(newHistory.messages) + execution
  {
    hide IncrementalView;
    var j := 0;
    while j < |execution|
      invariant 0 <= j <= |execution| && newHistory.Valid()
      invariant newHistory.messages == old(newHistory.messages) + execution[..j]
    {
      PrefixStep(execution, j);
      Assoc(old(newHistory.messages), execution[..j], [execution[j]]);
      newHistory.AddMessage(execution[j]);
      j := j + 1;
    }
    Ends(execution);
  }

  method AddRounds(newHistory: ConversationHistory, rounds: seq<Round>)
    requires newHistory.Valid()
    modifies newHistory
    ensures newHistory.Valid()
    ensures newHistory.messages == old(newHistory.messages) + Flatten(rounds)
  {
    hide IncrementalView;
    ghost var before := newHistory.messages;
    Ends(before);
    Ends(rounds);
    assert Flatten([]) == [];
    hide Flatten;
    var i := 0;
    while i < |rounds|
      invariant 0 <= i <= |rounds| && newHistory.Valid()
      invariant newHistory.messages == before + Flatten(rounds[..i])
    {
      var round := rounds[i];
      PrefixStep(rounds, i);
      FlattenAppend(rounds[..i], [round]);
      FlattenOne(round);
      Assoc(before, Flatten(rounds[..i]), [round.user] + round.execution);
      Assoc(before + Flatten(rounds[..i]), [round.user], round.execution);
      newHistory.AddMessage(round.user);
      AddExecution(newHistory, round.execution);
      i := i + 1;
    }
  }

  method AddFirstSystem(newHistory: ConversationHistory, messages: History)
    requires newHistory.Valid()
    modifies newHistory
    ensures newHistory.Valid()
    ensures newHistory.messages == old(newHistory.messages) + FirstSystem(messages)
  {
    var i := 0;
    while i < |messages|
      invariant 0 <= i <= |messages| && newHistory.Valid() && newHistory.messages == old(newHistory.messages)
      invariant FirstSystem(messages) == FirstSystem(messages[i..])
    {
      assert messages[i..][1..] == messages[i + 1..];
      if messages[i].role == System {
        newHistory.AddMessage(messages[i]);
        return;
      }
      i := i + 1;
    }
  }

  method BuildCompacted(messages: History, rounds: seq<Round>, keep: nat, summaries: map<nat, string>)
    returns (newHistory: ConversationHistory)
    requires keep <= |rounds|
    ensures fresh(newHistory) && newHistory.Valid()
    ensures newHistory.messages == Compacted(messages, rounds, keep, summaries)
  {
    var oldRounds, recentRounds := rounds[..|rounds| - keep], rounds[|rounds| - keep..];
    newHistory := new ConversationHistory(true, Options(3, 5, 10, 2000));
    AddFirstSystem(newHistory, messages);
    AddSummaries(newHistory, oldRounds, summaries);
    SummaryRoundsPrefix(rounds, |oldRounds|, |oldRounds|, summaries);
    AddRounds(newHistory, recentRounds);
    assert [] + FirstSystem(messages) == FirstSystem(messages);
  }

  class Compactor {
    const config: Config
    var lastRoundCount: nat

    constructor (config: Config)
      ensures this.config == config && lastRoundCount == 0
    {
      this.config := config;
      lastRoundCount := 0;
    }

    method Compact(history: ConversationHistory, answer: nat -> string, keepRecentOverride: int)
      requires history.Valid()
      modifies this`lastRoundCount, history
      ensures history.Valid()
      ensures history.messages == Compaction(old(history.messages), keepRecentOverride, config, answer)
      ensures history.pruneEnabled == old(history.pruneEnabled) && history.pruneOptions == old(history.pruneOptions)
      ensures old(history.Current()) ==> history.Current()
      ensures var rounds := Rounds(old(history.messages));
              var dropped := if |rounds| <= 1 then 0 else |rounds| - KeepCount(rounds, keepRecentOverride, config);
              lastRoundCount == if dropped == 0 then old(lastRoundCount) else dropped
    {
      hide Rounds, LargestFit, Summaries, Compacted;
      var rounds := SplitRounds(history.messages);
      if |rounds| <= 1 {
        return;
      }
      var keep;
      if keepRecentOverride > 0 {
        keep := Min(keepRecentOverride, |rounds|);
      } else {
        keep := DetermineKeepRounds(rounds, config.keepBudget, config.keepRecent);
      }
      var oldRounds := rounds[..|rounds| - keep];
      if oldRounds == [] {
        return;
      }
      var summaries := BatchSummarize(oldRounds, answer);
      var newHistory := BuildCompacted(history.messages, rounds, keep, summaries);
      lastRoundCount := |oldRounds|;
      history.Swap(newHistory);
    }
  }

  // ---------------------------------------------------------------- laws

  lemma SummaryRoundPaired(r: Round, summary: string)
    ensures Paired(Flatten([SummaryRound(r, summary)])) && WellFormedRound(SummaryRound(r, summary))
  {
    var s := SummaryRound(r, summary);
    var u, a := s.user, s.execution[0];
    SingleBlock(u.content[0]);
    SingleBlock(a.content[0]);
    PlainStep(u);
    PlainStep(a);
    FlattenOne(s);
    assert s.execution == [a];
    hide Scan, Flatten, AllText, CString, Utf8Truncate;
    PairedAppend([u], [a]);
  }

  lemma {:induction false} SummaryRoundsWellFormed(rounds: seq<Round>, n: nat, summaries: map<nat, string>)
    requires n <= |rounds|
    ensures WellFormedRounds(SummaryRounds(rounds, n, summaries))
    ensures Paired(Flatten(SummaryRounds(rounds, n, summaries)))
  {
    if n > 0 {
      var before := SummaryRounds(rounds, n - 1, summaries);
      SummaryRoundsWellFormed(rounds, n - 1, summaries);
      if n - 1 in summaries {
        var r := SummaryRound(rounds[n - 1], summaries[n - 1]);
        SummaryRoundPaired(rounds[n - 1], summaries[n - 1]);
        FlattenAppend(before, [r]);
        PairedAppend(Flatten(before), Flatten([r]));
      } else {
        assert before + [] == before;
      }
    }
  }

  lemma {:induction false} SummaryRoundsCount(rounds: seq<Round>, n: nat, summaries: map<nat, string>)
    requires n <= |rounds|
    ensures |SummaryRounds(rounds, n, summaries)| == n <==> Covers(summaries, n)
  {
    if n > 0 {
      SummaryRoundsCount(rounds, n - 1, summaries);
    }
  }

  lemma {:induction false} FirstSystemPaired(h: History, owed: seq<string>)
    requires Scan(h, owed).Some?
    ensures Paired(FirstSystem(h)) && Rounds(FirstSystem(h)) == []
  {
    if h != [] {
      if h[0].role == System {
        PlainStep(h[0]);
        assert Front([h[0]]) == [] && Last([h[0]]) == h[0];
      } else {
        FirstSystemPaired(h[1..], Step(h[0], owed).value);
      }
    }
  }

  lemma {:induction false} FromFirstUserIsSuffix(h: History) returns (before: History)
    ensures h == before + FromFirstUser(h)
    ensures FromFirstUser(h) != [] ==> FromFirstUser(h)[0].role == User
  {
    if h == [] || h[0].role == User {
      before := [];
    } else {
      var b := FromFirstUserIsSuffix(h[1..]);
      before := [h[0]] + b;
    }
  }

  /** Any number of newest rounds of a paired history is paired. */
  lemma NewestRoundsPaired(h: History, k: nat)
    requires Paired(h) && k <= |Rounds(h)|
    ensures Paired(Flatten(Rounds(h)[|Rounds(h)| - k..]))
  {
    var rounds := Rounds(h);
    var a, b := rounds[..|rounds| - k], rounds[|rounds| - k..];
    RoundsPartition(h);
    NoSystemPaired(h, []);
    var before := FromFirstUserIsSuffix(NoSystem(h));
    var all := FromFirstUser(NoSystem(h));
    if k > 0 {
      assert rounds == a + b;
      FlattenAppend(a, b);
      assert b[0] == rounds[|rounds| - k] && Flatten(b)[0] == b[0].user;
      if all != [] {
        PairedCut(before, all);
      }
      PairedCut(Flatten(a), Flatten(b));
    }
  }

  lemma CompactedPaired(h: History, keep: nat, summaries: map<nat, string>)
    requires Paired(h) && keep <= |Rounds(h)|
    ensures Paired(Compacted(h, Rounds(h), keep, summaries))
  {
    var rounds := Rounds(h);
    var n := |rounds| - keep;
    var head, stand, kept := FirstSystem(h), Flatten(SummaryRounds(rounds, n, summaries)), Flatten(rounds[n..]);
    FirstSystemPaired(h, []);
    SummaryRoundsWellFormed(rounds, n, summaries);
    NewestRoundsPaired(h, keep);
    PairedAppend(head, stand);
    PairedAppend(head + stand, kept);
  }

  /** Compaction keeps pairing, whatever the model answers and however many rounds it keeps. */
  lemma CompactionKeepsPairing(h: History, override: int, c: Config, answer: nat -> string)
    requires Paired(h)
    ensures Paired(Compaction(h, override, c, answer))
  {
    hide Rounds, KeepCount, Summaries, Compacted, Scan;
    var rounds := Rounds(h);
    if |rounds| > 1 {
      var keep := KeepCount(rounds, override, c);
      CompactedPaired(h, keep, Summaries(rounds[..|rounds| - keep], answer));
    }
  }

  lemma RoundsOfParts(head: History, a: seq<Round>, b: seq<Round>)
    requires Rounds(head) == [] && WellFormedRounds(a) && WellFormedRounds(b)
    ensures Rounds(head + Flatten(a) + Flatten(b)) == a + b
  {
    RoundsOfFlatten(head, a);
    RoundsOfFlatten(head + Flatten(a), b);
    assert [] + a == a;
  }

  /**
   Whatever the summaries, a compacted history is again a sequence of rounds: a stand-in for each old
   round with a summary, then the last `keep` rounds unchanged.
   */
  lemma CompactedRounds(h: History, keep: nat, summaries: map<nat, string>)
    requires Paired(h) && keep <= |Rounds(h)|
    ensures Rounds(Compacted(h, Rounds(h), keep, summaries))
         == SummaryRounds(Rounds(h), |Rounds(h)| - keep, summaries) + Rounds(h)[|Rounds(h)| - keep..]
  {
    hide Rounds, Flatten, SummaryRounds, FirstSystem, Scan;
    var rounds := Rounds(h);
    var n := |rounds| - keep;
    RoundsPartition(h);
    FirstSystemPaired(h, []);
    SummaryRoundsWellFormed(rounds, n, summaries);
    RoundsOfParts(FirstSystem(h), SummaryRounds(rounds, n, summaries), rounds[n..]);
  }

  lemma RoundsLeft(h: History, keep: nat, summaries: map<nat, string>)
    requires Paired(h) && keep <= |Rounds(h)|
    ensures |Rounds(Compacted(h, Rounds(h), keep, summaries))| == |Rounds(h)|
       <==> Covers(summaries, |Rounds(h)| - keep)
  {
    hide Rounds, Compacted, SummaryRounds, Scan;
    var rounds := Rounds(h);
    var n := |rounds| - keep;
    CompactedRounds(h, keep, summaries);
    SummaryRoundsCount(rounds, n, summaries);
    var stand := SummaryRounds(rounds, n, summaries);
    assert |stand + rounds[n..]| == |stand| + keep;
  }

  /** No old round disappears in a compaction if and only if no short old round precedes a long one. */
  lemma NoRoundLostIff(h: History, keep: nat, oldRounds: seq<Round>, answer: nat -> string)
    requires Paired(h) && keep <= |Rounds(h)| && oldRounds == Rounds(h)[..|Rounds(h)| - keep]
    ensures |Rounds(Compacted(h, Rounds(h), keep, Summaries(oldRounds, answer)))| == |Rounds(h)|
       <==> LongRoundsFirst(oldRounds)
  {
    hide Rounds, Compacted, Summaries, Covers, LongRoundsFirst;
    RoundsLeft(h, keep, Summaries(oldRounds, answer));
    SummariesCompleteIff(oldRounds, answer);
    assert |oldRounds| == |Rounds(h)| - keep;
  }

  // ---------------------------------------------------------------- the system prompt survives

  lemma {:induction false} NoSystemIsFound(h: History)
    requires NoneIsSystem(h)
    ensures FirstSystem(h) == []
  {
    if h != [] {
      assert forall k | 0 <= k < |h[1..]| :: h[1..][k] == h[k + 1];
      NoSystemIsFound(h[1..]);
    }
  }

  lemma {:induction false} SystemIsFound(h: History, i: nat)
    requires FirstOfSystem(h, i)
    ensures FirstSystem(h) == [h[i]]
  {
    if i > 0 {
      var t := h[1..];
      assert h[..i][0] == h[0];
      assert t[..i - 1] == h[..i][1..] && t[i - 1] == h[i];
      assert forall k | 0 <= k < |h[..i][1..]| :: h[..i][1..][k] == h[..i][k + 1];
      SystemIsFound(t, i - 1);
    }
  }

  lemma {:induction false} FlattenHasNoSystem(rounds: seq<Round>)
    requires WellFormedRounds(rounds)
    ensures NoneIsSystem(Flatten(rounds))
  {
    if rounds != [] {
      var r, rest := rounds[0], rounds[1..];
      assert forall i | 0 <= i < |rest| :: rest[i] == rounds[i + 1];
      FlattenHasNoSystem(rest);
      assert WellFormedRound(r);
      assert forall k | 0 <= k < |r.execution| :: r.execution[k] in r.execution;
    }
  }

  /** What a change by compaction begins with: the system message, and no other one follows. */
  lemma CompactedSystem(h: History, keep: nat, summaries: map<nat, string>)
    requires keep <= |Rounds(h)|
    ensures var r := Compacted(h, Rounds(h), keep, summaries);
            && (NoneIsSystem(h) ==> NoneIsSystem(r))
            && forall i: nat | FirstOfSystem(h, i) :: r != [] && r[0] == h[i] && NoneIsSystem(r[1..])
  {
    hide Rounds, Flatten, SummaryRounds, FirstSystem, NoneIsSystem, FirstOfSystem;
    var rounds := Rounds(h);
    var n := |rounds| - keep;
    var stand, kept := Flatten(SummaryRounds(rounds, n, summaries)), Flatten(rounds[n..]);
    RestHasNoSystem(h, keep, summaries);
    Assoc(FirstSystem(h), stand, kept);
    SystemThenRest(h, stand + kept);
  }

  lemma RestHasNoSystem(h: History, keep: nat, summaries: map<nat, string>)
    requires keep <= |Rounds(h)|
    ensures var n := |Rounds(h)| - keep;
            NoneIsSystem(Flatten(SummaryRounds(Rounds(h), n, summaries)) + Flatten(Rounds(h)[n..]))
  {
    hide Rounds, Flatten, SummaryRounds;
    var rounds := Rounds(h);
    var n := |rounds| - keep;
    RoundsPartition(h);
    AllStandInsWellFormed(rounds, n, summaries);
    FlattenHasNoSystem(SummaryRounds(rounds, n, summaries));
    FlattenHasNoSystem(rounds[n..]);
  }

  lemma SystemThenRest(h: History, rest: History)
    requires NoneIsSystem(rest)
    ensures var r := FirstSystem(h) + rest;
            && (NoneIsSystem(h) ==> NoneIsSystem(r))
            && forall i: nat | FirstOfSystem(h, i) :: r != [] && r[0] == h[i] && NoneIsSystem(r[1..])
  {
    hide FirstSystem, NoneIsSystem;
    if NoneIsSystem(h) {
      NoSystemIsFound(h);
      Ends(rest);
    }
    forall i: nat | FirstOfSystem(h, i)
      ensures FirstSystem(h) + rest != [] && (FirstSystem(h) + rest)[0] == h[i] && (FirstSystem(h) + rest)[1..] == rest
    {
      SystemIsFound(h, i);
      assert ([h[i]] + rest)[1..] == rest;
    }
  }

  lemma {:induction false} AllStandInsWellFormed(rounds: seq<Round>, n: nat, summaries: map<nat, string>)
    requires n <= |rounds|
    ensures WellFormedRounds(SummaryRounds(rounds, n, summaries))
  {
    if n > 0 {
      AllStandInsWellFormed(rounds, n - 1, summaries);
    }
  }

  /**
   Compaction either leaves a history as it is or makes one that starts with its first system message,
   verbatim, and has no other; of a history without any it makes one without any.
   */
  lemma CompactionKeepsSystem(h: History, override: int, c: Config, answer: nat -> string)
    ensures var r := Compaction(h, override, c, answer);
            r == h || (&& (NoneIsSystem(h) ==> NoneIsSystem(r))
                       && forall i: nat | FirstOfSystem(h, i) :: r != [] && r[0] == h[i] && NoneIsSystem(r[1..]))
  {
    hide Rounds, KeepCount, Summaries, Compacted, FirstOfSystem, NoneIsSystem;
    var rounds := Rounds(h);
    if |rounds| > 1 {
      var keep := KeepCount(rounds, override, c);
      CompactedSystem(h, keep, Summaries(rounds[..|rounds| - keep], answer));
    }
  }

  lemma CompactionKeepsOnlySystem(h: History, override: int, c: Config, answer: nat -> string, m: Message)
    requires OnlySystem(h, m)
    ensures OnlySystem(Compaction(h, override, c, answer), m)
  {
    hide Compaction;
    var i: nat :| i < |h| && FirstOfSystem(h, i) && h[i] == m && NoneIsSystem(h[i + 1..]);
    var r := Compaction(h, override, c, answer);
    CompactionKeepsSystem(h, override, c, answer);
    if r != h {
      assert r[..0] == [];
      assert FirstOfSystem(r, 0);
    }
  }
}
