/** What pruning keeps of a message: the ends of a long result, the words of an old reply, everything else untouched. */
module PrunerMeaning {
  import opened Wrappers
  import opened Texts
  import opened Messages
  import opened ContextPruner
  import opened PrunerLaws
  import opened Sequences
  import opened Utf8

  // ---------------------------------------------------------------- cutting at characters

  /** Length in bytes of the first `k` characters. */
  function Bytes(cs: seq<string>, k: nat): nat
    requires k <= |cs|
  {
    |TextOf(cs[..k])|
  }

  lemma BytesStep(cs: seq<string>, k: nat)
    requires Characters(cs) && k < |cs|
    ensures Bytes(cs, k + 1) == Bytes(cs, k) + |cs[k]| <= |TextOf(cs)| && |cs[k]| > 0
    ensures TextOf(cs)[Bytes(cs, k)..Bytes(cs, k + 1)] == cs[k]
  {
    assert Character(cs[k]);
    TextStep(cs, k);
    TextSplit(cs, k);
    TextSplit(cs, k + 1);
    assert TextOf(cs)[Bytes(cs, k)..] == cs[k] + TextOf(cs[k + 1..]);
  }

  lemma ByteIs(cs: seq<string>, k: nat, j: nat)
    requires Characters(cs) && k < |cs| && j < |cs[k]|
    ensures Bytes(cs, k) + j < |TextOf(cs)| && TextOf(cs)[Bytes(cs, k) + j] == cs[k][j]
  {
    BytesStep(cs, k);
    assert TextOf(cs)[Bytes(cs, k)..Bytes(cs, k + 1)][j] == cs[k][j];
  }

  lemma {:induction false} HeadFrom(cs: seq<string>, j: nat, max: nat) returns (k: nat)
    requires Characters(cs) && j <= |cs| && Bytes(cs, j) <= max < |TextOf(cs)|
    ensures k < |cs| && HeadBoundary(TextOf(cs), max, Bytes(cs, j)) == Bytes(cs, k) <= max < Bytes(cs, k + 1)
    decreases |cs| - j
  {
    if j == |cs| {
      Ends(cs);
    }
    BytesStep(cs, j);
    ByteIs(cs, j, 0);
    assert Character(cs[j]) && CharStep(cs[j][0]) == |cs[j]|;
    if Bytes(cs, j + 1) > max {
      k := j;
    } else {
      k := HeadFrom(cs, j + 1, max);
    }
  }

  /** A text cut to `max` bytes keeps as many whole characters as fit. */
  lemma TruncateKeepsCharacters(cs: seq<string>, max: nat) returns (k: nat)
    requires Characters(cs)
    ensures k <= |cs| && Utf8Truncate(TextOf(cs), max) == TextOf(cs[..k])
    ensures Bytes(cs, k) <= max && (k < |cs| ==> Bytes(cs, k + 1) > max)
  {
    Ends(cs);
    if |TextOf(cs)| <= max {
      k := |cs|;
    } else {
      k := HeadFrom(cs, 0, max);
      TextSplit(cs, k);
    }
  }

  lemma {:induction false} TailInside(cs: seq<string>, k: nat, start: nat)
    requires Characters(cs) && k < |cs| && Bytes(cs, k) < start <= Bytes(cs, k + 1) <= |TextOf(cs)|
    ensures TailBoundary(TextOf(cs), start) == Bytes(cs, k + 1)
    decreases Bytes(cs, k + 1) - start
  {
    BytesStep(cs, k);
    if start < Bytes(cs, k + 1) {
      ByteIs(cs, k, start - Bytes(cs, k));
      assert Character(cs[k]) && Continues(cs[k][start - Bytes(cs, k)]);
      TailInside(cs, k, start + 1);
    } else {
      TailAt(cs, k + 1);
    }
  }

  lemma TailAt(cs: seq<string>, k: nat)
    requires Characters(cs) && k <= |cs| && Bytes(cs, k) <= |TextOf(cs)|
    ensures TailBoundary(TextOf(cs), Bytes(cs, k)) == Bytes(cs, k)
  {
    if k < |cs| {
      assert Character(cs[k]);
      ByteIs(cs, k, 0);
    } else {
      Ends(cs);
    }
    hide TextOf, Bytes, Characters;
  }

  lemma {:induction false} TailFrom(cs: seq<string>, m: nat, start: nat) returns (k: nat)
    requires Characters(cs) && m <= |cs| && Bytes(cs, m) <= start <= |TextOf(cs)|
    ensures k <= |cs| && TailBoundary(TextOf(cs), start) == Bytes(cs, k) >= start
    ensures k > m ==> Bytes(cs, k - 1) < start
    ensures k >= m
    decreases |cs| - m
  {
    if start == Bytes(cs, m) {
      TailAt(cs, m);
      k := m;
    } else {
      if m == |cs| {
        Ends(cs);
      }
      BytesStep(cs, m);
      if start <= Bytes(cs, m + 1) {
        TailInside(cs, m, start);
        k := m + 1;
      } else {
        k := TailFrom(cs, m + 1, start);
      }
    }
  }

  lemma RestIs(cs: seq<string>, k: nat)
    requires k <= |cs|
    ensures Bytes(cs, k) <= |TextOf(cs)| && TextOf(cs)[Bytes(cs, k)..] == TextOf(cs[k..])
    ensures |TextOf(cs[k..])| == |TextOf(cs)| - Bytes(cs, k)
  {
    TextSplit(cs, k);
  }

  lemma NoBytes(cs: seq<string>)
    ensures Bytes(cs, 0) == 0 && cs[0..] == cs
  {
  }

  /** A text cut to its last `max` bytes keeps as many whole characters as fit. */
  lemma TailKeepsCharacters(cs: seq<string>, max: nat) returns (k: nat)
    requires Characters(cs)
    ensures k <= |cs| && Utf8TruncateTail(TextOf(cs), max) == TextOf(cs[k..])
    ensures |TextOf(cs[k..])| <= max && (k > 0 ==> |TextOf(cs[k - 1..])| > max)
  {
    hide TextOf, TailBoundary, Characters, Bytes;
    NoBytes(cs);
    if |TextOf(cs)| <= max {
      k := 0;
    } else {
      k := TailFrom(cs, 0, |TextOf(cs)| - max);
      RestIs(cs, k);
      if k > 0 {
        RestIs(cs, k - 1);
      }
    }
  }

  // ---------------------------------------------------------------- shortening

  lemma {:induction false} JoinIsRejoined(lines: seq<string>)
    ensures JoinLines(lines) == Rejoined(lines)
  {
    if |lines| > 1 {
      JoinIsRejoined(lines[1..]);
    } else if |lines| == 1 {
      assert Rejoined(lines) == lines[0] + "" + Rejoined(lines[1..]);
    }
  }

  predicate Unbroken(lines: seq<string>) {
    forall i | 0 <= i < |lines| :: '\n' !in lines[i]
  }

  /**
   A result of more than twice `keep` lines is cut to its first and last `keep` lines around a note of how many
   were between them.
   */
  lemma LongTextKeepsItsEnds(content: string, keep: nat)
    returns (first: seq<string>, middle: seq<string>, last: seq<string>)
    requires |Lines(content)| > keep * 2
    ensures Unbroken(first) && Unbroken(middle) && Unbroken(last) && |first| == |last| == keep && middle != []
    ensures content == Rejoined(first + middle + last) + LastNewline(content)
    ensures Shortened(content, keep)
         == Rejoined(first) + "\n... (" + NatText(|middle|) + " lines omitted) ...\n" + Rejoined(last)
  {
    var ls := Lines(content);
    LinesAreUnbroken(content);
    LinesRejoin(content);
    hide Lines, Rejoined, JoinLines, NatText, LastNewline;
    first, middle, last := ThreeParts(ls, keep);
    JoinIsRejoined(first);
    JoinIsRejoined(last);
    NoteIs(|middle|);
  }

  lemma NoteIs(n: nat)
    ensures LinesNote(n) == "\n... (" + NatText(n) + " lines omitted) ...\n"
  {
  }

  lemma ThreeParts(ls: seq<string>, keep: nat) returns (first: seq<string>, middle: seq<string>, last: seq<string>)
    requires |ls| > keep * 2 && forall i | 0 <= i < |ls| :: '\n' !in ls[i]
    ensures ls == first + middle + last && first == ls[..keep] && last == ls[|ls| - keep..]
    ensures |middle| == |ls| - keep * 2 && Unbroken(first) && Unbroken(middle) && Unbroken(last)
  {
    first, middle, last := ls[..keep], ls[keep..|ls| - keep], ls[|ls| - keep..];
  }

  /**
   A result of few but long lines keeps as many whole characters as fit into the first and the last 80 bytes per
   line to keep; a result that is neither long nor wide is kept as it is.
   */
  lemma WideTextKeepsItsEnds(cs: seq<string>, keep: nat) returns (j: nat, k: nat)
    requires Characters(cs) && |Lines(TextOf(cs))| <= keep * 2
    ensures j <= |cs| && k <= |cs|
    ensures if |TextOf(cs)| <= keep * 160 then Shortened(TextOf(cs), keep) == TextOf(cs)
            else && Shortened(TextOf(cs), keep)
                    == TextOf(cs[..j]) + ("\n... (" + IntText(|TextOf(cs)| - keep * 160) + " chars omitted) ...\n")
                        + TextOf(cs[k..])
                 && |TextOf(cs[..j])| <= keep * 80 && (j < |cs| ==> |TextOf(cs[..j + 1])| > keep * 80)
                 && |TextOf(cs[k..])| <= keep * 80 && (k > 0 ==> |TextOf(cs[k - 1..])| > keep * 80)
  {
    j := TruncateKeepsCharacters(cs, keep * 80);
    k := TailKeepsCharacters(cs, keep * 80);
    FewLines(TextOf(cs), keep);
    hide Lines, TextOf, Utf8Truncate, Utf8TruncateTail, IntText, Characters, Shortened;
  }

  lemma FewLines(content: string, keep: nat)
    requires |Lines(content)| <= keep * 2
    ensures Shortened(content, keep)
         == if |content| <= keep * 160 then content
            else Utf8Truncate(content, keep * 80)
                 + ("\n... (" + IntText(|content| - keep * 160) + " chars omitted) ...\n")
                 + Utf8TruncateTail(content, keep * 80)
  {
    hide Lines, Utf8Truncate, Utf8TruncateTail, IntText, EndLines;
  }

  // ---------------------------------------------------------------- the three zones

  /**
   A block as soft pruning leaves it: a long result keeps its ends, its id and whether it succeeded, the rest stays.
   */
  predicate Softened(after: Block, before: Block, o: Options) {
    if before.ToolResult? && 0 <= o.maxToolResultChars < |before.result.output| then
      after == ToolResult(CallResult(before.result.callId, "", Shortened(before.result.output, o.softPruneLines),
                                     before.result.success))
    else after == before
  }

  predicate AllSoftened(after: seq<Block>, before: seq<Block>, o: Options) {
    |after| == |before| && forall k | 0 <= k < |before| :: Softened(after[k], before[k], o)
  }

  lemma {:induction false} SoftBlocksAre(content: seq<Block>, o: Options)
    ensures AllSoftened(SoftBlocks(content, o), content, o)
  {
    if content != [] {
      SoftBlocksAre(content[1..], o);
      assert forall k | 0 < k < |content| :: content[k] == content[1..][k - 1];
      assert forall k | 0 < k < |content| :: SoftBlocks(content, o)[k] == SoftBlocks(content[1..], o)[k - 1];
    }
  }

  /**
   What the depth of a message decides: the protected keep everything, tool results beyond the stripping depth are
   deleted and their calls with them, and between the two long results are shortened; all other messages stay.
   */
  lemma ZonesDecide(m: Message, depth: int, o: Options)
    ensures var r := PruneMessage(m, depth, o).messages;
            var protected := 0 < depth <= o.protectRecent;
            && (m.role == User || m.role == System || protected ==> r == [m])
            && (m.role == Tool && !protected ==>
                  if 0 < depth && o.hardPruneAfter < depth then r == []
                  else |r| == 1 && r[0].role == Tool && AllSoftened(r[0].content, m.content, o))
            && (m.role == Assistant && !protected ==>
                  if o.hardPruneAfter < depth then |r| <= 1
                      && (r != [] ==> r[0].role == Assistant && StripsTo(m.content, r[0].content))
                  else |r| == 1 && r[0].role == Assistant && AllSoftened(r[0].content, m.content, o))
            && (m.role == Assistant && !protected && o.hardPruneAfter < depth ==>
                  (r == [] <==> forall k | 0 <= k < |m.content| :: !Speaks(m.content[k]) && !m.content[k].ToolUse?))
  {
    SoftBlocksAre(m.content, o);
    StripIs(m.content);
    hide SoftBlocks, AllSoftened, SpokenText, UsedTools, CallSummaries;
  }

  /** Text that is no thinking. */
  predicate Speaks(b: Block) {
    b.Text? && !b.thinking
  }

  function Spoken(content: seq<Block>): (r: seq<Block>)
    ensures forall k | 0 <= k < |r| :: Speaks(r[k])
  {
    if content == [] then []
    else Spoken(Front(content)) + if Speaks(Last(content)) then [Last(content)] else []
  }

  /** What stripping leaves: the spoken text in order, or a summary of the calls of a message that says nothing. */
  predicate StripsTo(before: seq<Block>, after: seq<Block>) {
    if Spoken(before) != [] || Uses(before) == [] then after == Spoken(before)
    else |after| == 1 && after[0] == Text(CString(Listing(Uses(before))), false)
  }

  /** A call by name, with up to 160 bytes of its arguments if it has any. */
  function Named(c: Call): string {
    CString(if c.arguments == "" || c.arguments == "{}" then c.name
            else c.name + "(" + (if |c.arguments| <= 160 then c.arguments else c.arguments[..160] + ELLIPSIS) + ")")
  }

  function Names(calls: seq<Call>, n: nat): string
    requires n <= |calls|
  {
    if n == 0 then "" else if n == 1 then Named(calls[0]) else Names(calls, n - 1) + ", " + Named(calls[n - 1])
  }

  /** The first twelve calls by name, and how many more there were. */
  function Listing(calls: seq<Call>): string {
    if |calls| <= 12 then "[used tools: " + Names(calls, |calls|) + "]"
    else "[used tools: " + Names(calls, 12) + ", ... +" + NatText(|calls| - 12) + " more]"
  }

  lemma {:induction false} SpokenIs(content: seq<Block>)
    ensures SpokenText(content) == Spoken(content)
  {
    if content != [] {
      var f, b := Front(content), Last(content);
      assert content == f + [b];
      SpokenTextAppend(f, [b]);
      SpokenIs(f);
      assert [b][1..] == [];
      assert SpokenText([b]) == if Speaks(b) then [b] else [];
    }
  }

  lemma NamedIs(c: Call)
    ensures CallSummary(c) == Named(c)
  {
    if c.arguments == "" || c.arguments == "{}" {
      Ends(c.name);
    } else {
      var shown := if |c.arguments| <= 160 then c.arguments else c.arguments[..160] + ELLIPSIS;
      Assoc(c.name, "(", shown);
      Assoc(c.name, "(" + shown, ")");
    }
  }

  lemma SummariesStep(calls: seq<Call>)
    requires calls != []
    ensures CallSummaries(calls) == [CallSummary(calls[0])] + CallSummaries(calls[1..])
  {
    hide CallSummary;
  }

  lemma {:induction false} SummariesAre(calls: seq<Call>)
    ensures |CallSummaries(calls)| == |calls|
    ensures forall k | 0 <= k < |calls| :: CallSummaries(calls)[k] == Named(calls[k])
  {
    if calls != [] {
      NamedIs(calls[0]);
      SummariesAre(calls[1..]);
      SummariesStep(calls);
      hide CallSummaries, CallSummary, Named;
      assert forall k | 0 < k < |calls| :: calls[k] == calls[1..][k - 1];
    }
  }

  lemma {:induction false} NamesJoin(calls: seq<Call>, n: nat)
    requires n <= |calls|
    ensures JoinCommas(CallSummaries(calls)[..n]) == Names(calls, n)
  {
    SummariesAre(calls);
    var ss := CallSummaries(calls);
    hide CallSummaries, Named;
    if n > 0 {
      NamesJoin(calls, n - 1);
      PrefixStep(ss, n - 1);
      JoinCommasSnoc(ss[..n - 1], ss[n - 1]);
    }
  }

  lemma ListingIs(calls: seq<Call>)
    ensures UsedTools(CallSummaries(calls)) == Listing(calls)
  {
    var n := Min(|calls|, 12);
    NamesJoin(calls, n);
    SummariesAre(calls);
    hide CallSummaries, Names, JoinCommas, Named;
    var names := Names(calls, n);
    if |calls| <= 12 {
      Ends("[used tools: " + names);
    } else {
      var count := NatText(|calls| - 12);
      assert ", ... +" + count + " more" + "]" == ", ... +" + count + " more]" by {
        assert " more" + "]" == " more]";
        Assoc(", ... +" + count, " more", "]");
      }
      Assoc("[used tools: " + names, ", ... +" + count + " more", "]");
      Assoc("[used tools: " + names, ", ... +" + count, " more]");
      Assoc("[used tools: " + names, ", ... +", count);
    }
  }

  lemma StripIs(content: seq<Block>)
    ensures StripsTo(content, StrippedContent(content))
    ensures SpokenText(content) != [] <==> exists k :: 0 <= k < |content| && Speaks(content[k])
    ensures Uses(content) != [] <==> exists k :: 0 <= k < |content| && content[k].ToolUse?
  {
    SpokenIs(content);
    ListingIs(Uses(content));
    SomethingSaid(content);
    hide SpokenText, Spoken, UsedTools, CallSummaries, Listing;
  }

  lemma {:induction false} SomethingSaid(content: seq<Block>)
    ensures SpokenText(content) != [] <==> exists k :: 0 <= k < |content| && Speaks(content[k])
    ensures Uses(content) != [] <==> exists k :: 0 <= k < |content| && content[k].ToolUse?
  {
    if content != [] {
      var t := content[1..];
      SomethingSaid(t);
      assert forall k | 0 < k < |content| :: content[k] == t[k - 1];
      if SpokenText(t) != [] {
        var k :| 0 <= k < |t| && Speaks(t[k]);
        assert Speaks(content[k + 1]);
      }
      if Uses(t) != [] {
        var k :| 0 <= k < |t| && t[k].ToolUse?;
        assert content[k + 1].ToolUse?;
      }
    }
  }

  // ---------------------------------------------------------------- what is counted

  /** The results that are too long. */
  function LongResults(content: seq<Block>, o: Options): set<nat> {
    set k: nat | k < |content| && content[k].ToolResult? && 0 <= o.maxToolResultChars < |content[k].result.output|
  }

  lemma {:induction false} TooLongSnoc(content: seq<Block>, b: Block, o: Options)
    ensures TooLongBlocks(content + [b], o) == TooLongBlocks(content, o) + if TooLong(b, o) then 1 else 0
  {
    if content == [] {
      assert content + [b] == [b] && [b][1..] == [];
    } else {
      ConsAppend(content, [b]);
      TooLongSnoc(content[1..], b, o);
    }
  }

  lemma {:induction false} LongResultsCount(content: seq<Block>, o: Options)
    ensures TooLongBlocks(content, o) == |LongResults(content, o)|
  {
    if content == [] {
      assert LongResults(content, o) == {};
    } else {
      var f, b := Front(content), Last(content);
      LongResultsCount(f, o);
      assert content == f + [b];
      TooLongSnoc(f, b, o);
      assert LongResults(content, o) == LongResults(f, o) + if TooLong(b, o) then {|f|} else {};
    }
  }

  /** What is counted of a message: its shortened results, itself if it is a deleted tool message, its deleted calls. */
  lemma CountsAre(m: Message, depth: int, o: Options)
    ensures var r := PruneMessage(m, depth, o);
            var protected := 0 < depth <= o.protectRecent;
            var beyond := o.hardPruneAfter < depth;
            && r.softPruned == (if protected || m.role == User || m.role == System || (m.role == Assistant && beyond)
                                   || (m.role == Tool && 0 < depth && beyond) then 0
                                else |LongResults(m.content, o)|)
            && r.strippedMsgs == (if m.role == Tool && !protected && 0 < depth && beyond then 1 else 0)
            && r.strippedUses == if m.role == Assistant && !protected && beyond then |Uses(m.content)| else 0
  {
    LongResultsCount(m.content, o);
    hide TooLongBlocks, LongResults, SoftBlocks, StrippedContent;
  }

  // ---------------------------------------------------------------- every message by its own depth

  function AssistantPlaces(h: History): set<nat> {
    set k: nat | k < |h| && h[k].role == Assistant
  }

  lemma {:induction false} AssistantsCount(h: History)
    ensures Assistants(h) == |AssistantPlaces(h)|
  {
    if h != [] {
      var f, m := Front(h), Last(h);
      assert h == f + [m];
      AssistantsAppend(f, [m]);
      AssistantsCount(f);
      assert [m][1..] == [];
      assert AssistantPlaces(h) == AssistantPlaces(f) + if m.role == Assistant then {|f|} else {};
    } else {
      assert AssistantPlaces(h) == {};
    }
  }

  /** What is not an assistant message goes by the last one before it, at `j`, or by none. */
  lemma {:induction false} GoverningIs(h: History, i: nat, j: int)
    requires -1 <= j < i <= |h| && (j >= 0 ==> h[j].role == Assistant)
    requires forall k | j < k < i :: h[k].role != Assistant
    ensures Governing(h, i) == if j < 0 then -1 else Assistants(h[j..])
  {
    if j < i - 1 {
      GoverningIs(h, i - 1, j);
    }
  }

  /** The results of pruning the first `n` messages, each by its own depth, put together. */
  function Pieces(h: History, n: nat, o: Options): PruneResult
    requires n <= |h|
  {
    if n == 0 then PruneResult([], 0, 0, 0)
    else
      var a, b := Pieces(h, n - 1, o), PruneMessage(h[n - 1], DepthAt(h, n - 1), o);
      PruneResult(a.messages + b.messages, a.softPruned + b.softPruned, a.strippedMsgs + b.strippedMsgs,
                  a.strippedUses + b.strippedUses)
  }

  lemma OnePiece(m: Message, gov: int, after: nat, o: Options)
    ensures PruneFrom([m], gov, after, o)
         == PruneMessage(m, if m.role == Assistant then 1 + after else gov, o)
  {
    hide PruneMessage, PruneFrom;
    assert [m][1..] == [];
    assert Assistants([m]) == (if m.role == Assistant then 1 else 0) + Assistants([m][1..]);
    var d := if m.role == Assistant then 1 + after else gov;
    PruneFromUnfolds([m], gov, after, o, d);
    PruneNothing(d, after, o);
    Ends(PruneMessage(m, d, o).messages);
  }

  lemma DepthOf(h: History, i: nat)
    requires i < |h|
    ensures DepthAt(h, i) == if h[i].role == Assistant then 1 + Assistants(h[i + 1..]) else Governing(h, i)
    ensures Assistants(h[i..]) == Assistants([h[i]]) + Assistants(h[i + 1..])
  {
    SuffixStep(h, i);
    AssistantsAppend([h[i]], h[i + 1..]);
    assert h[i..] == [h[i]] + h[i + 1..] && [h[i]][1..] == [];
  }

  lemma PieceStep(h: History, n: nat, o: Options)
    requires n < |h|
    ensures PruneFrom(h[..n + 1], -1, Assistants(h[n + 1..]), o)
         == Both(PruneFrom(h[..n], -1, Assistants(h[n..]), o), PruneMessage(h[n], DepthAt(h, n), o))
  {
    hide PruneFrom, PruneMessage, Governing, Assistants, GovAfter, DepthAt, Both;
    var f, m, after := h[..n], h[n], Assistants(h[n + 1..]);
    PrefixStep(h, n);
    DepthOf(h, n);
    GoverningIsGovAfter(h, n);
    PruneSplit(f, [m], -1, after, o);
    OnePiece(m, Governing(h, n), after, o);
  }

  lemma {:induction false} PrefixIsPieces(h: History, n: nat, o: Options)
    requires n <= |h|
    ensures PruneFrom(h[..n], -1, Assistants(h[n..]), o) == Pieces(h, n, o)
  {
    hide PruneFrom, PruneMessage, DepthAt;
    if n == 0 {
      PruneNothing(-1, Assistants(h[n..]), o);
      Ends(h);
    } else {
      PrefixIsPieces(h, n - 1, o);
      PieceStep(h, n - 1, o);
    }
  }

  /**
   Pruning prunes each message by its own depth: an assistant message by how many of its kind are left from it on, any
   other by the last assistant message before it.
   */
  lemma PrunedIsPieces(h: History, o: Options)
    ensures Pruned(h, o) == Pieces(h, |h|, o)
  {
    PrefixIsPieces(h, |h|, o);
    Ends(h);
    assert Assistants([]) == 0;
  }
}
