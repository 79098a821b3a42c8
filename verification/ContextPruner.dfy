/**
 The three-zone context pruner: tool results near the end are kept, older ones shortened, the oldest
 stripped together with the calls they answer. The zone of a message is set by its governing depth:
 the number of assistant messages from its assistant to the end of the history.
 */
module ContextPruner {
  import opened Wrappers
  import opened Texts
  import opened Messages
  import opened Sequences

  datatype Options = Options(protectRecent: int, softPruneLines: int, hardPruneAfter: int, maxToolResultChars: int)

  datatype PruneResult = PruneResult(messages: History, softPruned: nat, strippedMsgs: nat, strippedUses: nat)

  const NOTHING := PruneResult([], 0, 0, 0)

  function Both(a: PruneResult, b: PruneResult): PruneResult {
    PruneResult(a.messages + b.messages, a.softPruned + b.softPruned,
                a.strippedMsgs + b.strippedMsgs, a.strippedUses + b.strippedUses)
  }

  lemma BothAssoc(a: PruneResult, b: PruneResult, c: PruneResult)
    ensures Both(Both(a, b), c) == Both(a, Both(b, c))
    ensures Both(a, NOTHING) == a == Both(NOTHING, a)
  {
    assert a.messages + b.messages + c.messages == a.messages + (b.messages + c.messages);
  }

  // ---------------------------------------------------------------- depths

  function Assistants(h: History): nat {
    if h == [] then 0 else (if h[0].role == Assistant then 1 else 0) + Assistants(h[1..])
  }

  /** Depth of each message: assistants at or after it for an assistant, -1 otherwise. */
  function Depths(h: History): (d: seq<int>)
    ensures |d| == |h|
    ensures forall i | 0 <= i < |h| :: d[i] == if h[i].role == Assistant then Assistants(h[i..]) else -1
  {
    seq(|h|, i requires 0 <= i < |h| => if h[i].role == Assistant then Assistants(h[i..]) as int else -1)
  }

  lemma {:induction false} AssistantsAppend(a: History, b: History)
    ensures Assistants(a + b) == Assistants(a) + Assistants(b)
  {
    if a == [] {
      assert a + b == b;
    } else {
      assert (a + b)[1..] == a[1..] + b;
      AssistantsAppend(a[1..], b);
    }
  }

  method ComputeDepths(history: History) returns (depths: seq<int>)
    ensures depths == Depths(history)
  {
    var assistantCount := 0;
    var i := |history|;
    while i > 0
      invariant 0 <= i <= |history|
      invariant assistantCount == Assistants(history[i..])
    {
      i := i - 1;
      assert history[i..][1..] == history[i + 1..];
      if history[i].role == Assistant {
        assistantCount := assistantCount + 1;
      }
    }
    assert history[0..] == history;

    depths := [];
    var current := assistantCount;
    i := 0;
    while i < |history|
      invariant 0 <= i <= |history|
      invariant current == Assistants(history[i..])
      invariant depths == Depths(history)[..i]
    {
      assert history[i..][1..] == history[i + 1..];
      if history[i].role == Assistant {
        depths := depths + [current];
        current := current - 1;
      } else {
        depths := depths + [-1];
      }
      i := i + 1;
    }
  }

  /** Depth of the assistant nearest before index `i`, or -1. */
  function Governing(h: History, i: nat): int
    requires i <= |h|
  {
    if i == 0 then -1
    else if h[i - 1].role == Assistant then Assistants(h[i - 1..])
    else Governing(h, i - 1)
  }

  method NearestDepth(history: History, depths: seq<int>, idx: nat) returns (nearest: int)
    requires idx <= |history| && depths == Depths(history)
    ensures nearest == Governing(history, idx)
  {
    nearest := -1;
    var j := idx - 1;
    while j >= 0
      invariant -1 <= j < idx
      invariant nearest == -1
      invariant Governing(history, idx) == Governing(history, j + 1)
    {
      if history[j].role == Assistant {
        nearest := depths[j];
        break;
      }
      j := j - 1;
    }
  }

  // ---------------------------------------------------------------- zones

  predicate Protected(depth: int, o: Options) {
    0 < depth <= o.protectRecent
  }

  /** Messages of this depth lose their tool traffic. */
  predicate Stripped(depth: int, o: Options) {
    depth > 0 && !Protected(depth, o) && depth > o.hardPruneAfter
  }

  // ---------------------------------------------------------------- shortening a tool result

  function JoinLines(ls: seq<string>): string {
    if ls == [] then "" else if |ls| == 1 then ls[0] else ls[0] + "\n" + JoinLines(ls[1..])
  }

  /** Byte length of the UTF-8 character a lead byte opens. */
  function CharStep(c: char): nat {
    var b := c as int;
    if 0xC0 <= b < 0xE0 then 2 else if 0xE0 <= b < 0xF0 then 3 else if 0xF0 <= b < 0xF8 then 4 else 1
  }

  function HeadBoundary(s: string, max: nat, i: nat): (r: nat)
    requires i <= max < |s|
    ensures r <= max
    decreases max - i
  {
    if i == max || i + CharStep(s[i]) > max then i else HeadBoundary(s, max, i + CharStep(s[i]))
  }

  function Utf8Truncate(s: string, max: nat): string {
    if |s| <= max then s else s[..HeadBoundary(s, max, 0)]
  }

  function TailBoundary(s: string, start: nat): (r: nat)
    requires start <= |s|
    ensures start <= r <= |s|
    decreases |s| - start
  {
    if start == |s| || (s[start] as int) < 0x80 || (s[start] as int) % 0x100 >= 0xC0 then start
    else TailBoundary(s, start + 1)
  }

  function Utf8TruncateTail(s: string, max: nat): string {
    if |s| <= max then s else s[TailBoundary(s, |s| - max)..]
  }

  function LinesNote(n: int): string {
    "\n... (" + IntText(n) + " lines omitted) ...\n"
  }

  function CharsNote(n: int): string {
    "\n... (" + IntText(n) + " chars omitted) ...\n"
  }

  function EndLines(lines: seq<string>, keep: int): string
    requires |lines| > keep * 2
  {
    var k := Max(keep, 0);
    JoinLines(lines[..k]) + LinesNote(|lines| - keep * 2) + JoinLines(lines[|lines| - k..])
  }

  function EndChars(content: string, keep: nat): string {
    Utf8Truncate(content, keep) + CharsNote(|content| - keep * 2) + Utf8TruncateTail(content, keep)
  }

  /** First and last `keep` lines around a note of how much was left out, by bytes if the lines are few. */
  function Shortened(content: string, keep: int): string {
    if |Lines(content)| > keep * 2 then EndLines(Lines(content), keep)
    else if |content| > keep * 160 then EndChars(content, keep * 80)
    else content
  }

  lemma SliceOf(sv: string, start: nat, i: nat)
    requires start <= i < |sv|
    ensures sv[start..][..i - start] == sv[start..i] && sv[start..][i - start] == sv[i]
    ensures sv[start..][i - start + 1..] == sv[i + 1..]
  {
  }

  lemma FirstLineIs(t: string, n: nat, line: string, rest: string)
    requires n < |t| && t[..n] == line && t[n] == '\n' && t[n + 1..] == rest && '\n' !in line
    ensures Lines(t) == [line] + Lines(rest)
  {
    LinesStep(t, n);
  }

  lemma LineEnds(sv: string, start: nat, i: nat)
    requires start <= i < |sv| && sv[i] == '\n' && '\n' !in sv[start..i]
    ensures Lines(sv[start..]) == [sv[start..i]] + Lines(sv[i + 1..])
  {
    SliceOf(sv, start, i);
    FirstLineIs(sv[start..], i - start, sv[start..i], sv[i + 1..]);
  }

  /** The lines before `start` are split off, and the line that starts there has not ended before `i`. */
  predicate SplitUpTo(sv: string, start: nat, i: nat, lines: seq<string>)
    requires start <= i <= |sv|
  {
    '\n' !in sv[start..i] && Lines(sv) == lines + Lines(sv[start..])
  }

  lemma LineGrows(sv: string, start: nat, i: nat, lines: seq<string>)
    requires start <= i < |sv| && sv[i] != '\n' && SplitUpTo(sv, start, i, lines)
    ensures SplitUpTo(sv, start, i + 1, lines)
  {
    assert sv[start..i + 1] == sv[start..i] + [sv[i]];
  }

  lemma LineSplits(sv: string, start: nat, i: nat, lines: seq<string>)
    requires start <= i < |sv| && sv[i] == '\n' && SplitUpTo(sv, start, i, lines)
    ensures SplitUpTo(sv, i + 1, i + 1, lines + [sv[start..i]])
  {
    LineEnds(sv, start, i);
    Assoc(lines, [sv[start..i]], Lines(sv[i + 1..]));
  }

  lemma SplitEnds(sv: string, start: nat, lines: seq<string>)
    ensures SplitUpTo(sv, 0, 0, [])
    ensures start <= |sv| && SplitUpTo(sv, start, |sv|, lines) ==>
              Lines(sv) == if start < |sv| then lines + [sv[start..]] else lines
  {
    Ends(sv);
    Ends(Lines(sv));
    Ends(lines);
    if start <= |sv| {
      assert sv[start..|sv|] == sv[start..];
    }
  }

  method SplitLines(sv: string) returns (lines: seq<string>)
    ensures lines == Lines(sv)
  {
    hide SplitUpTo, Lines;
    lines := [];
    var start := 0;
    var i := 0;
    SplitEnds(sv, start, lines);
    while i < |sv|
      invariant 0 <= start <= i <= |sv| && SplitUpTo(sv, start, i, lines)
    {
      if sv[i] == '\n' {
        LineSplits(sv, start, i, lines);
        lines := lines + [sv[start..i]];
        start := i + 1;
      } else {
        LineGrows(sv, start, i, lines);
      }
      i := i + 1;
    }
    SplitEnds(sv, start, lines);
    if start < |sv| {
      lines := lines + [sv[start..]];
    }
  }

  lemma {:induction false} JoinLinesSnoc(ls: seq<string>, l: string)
    ensures JoinLines(ls + [l]) == if ls == [] then l else JoinLines(ls) + "\n" + l
  {
    if |ls| >= 1 {
      assert (ls + [l])[1..] == ls[1..] + [l];
      JoinLinesSnoc(ls[1..], l);
    }
  }

  function Joined(lines: seq<string>, lo: int, hi: int): string {
    if 0 <= lo < hi <= |lines| then JoinLines(lines[lo..hi]) else ""
  }

  method AppendLines(text: string, lines: seq<string>, lo: int, hi: int) returns (r: string)
    requires 0 <= lo <= hi <= |lines| || hi <= lo
    ensures r == text + Joined(lines, lo, hi)
  {
    var joined := "";
    var i := lo;
    while i < hi
      invariant lo < hi ==> lo <= i <= hi
      invariant joined == Joined(lines, lo, if i < hi then i else hi)
    {
      assert lines[lo..i + 1] == lines[lo..i] + [lines[i]];
      JoinLinesSnoc(lines[lo..i], lines[i]);
      if i > lo {
        joined := joined + "\n";
      }
      joined := joined + lines[i];
      i := i + 1;
    }
    r := text + joined;
  }

  lemma JoinedEnds(lines: seq<string>, keep: int)
    requires |lines| > keep * 2
    ensures var k := Max(keep, 0);
            && Joined(lines, 0, Min(keep, |lines|)) == JoinLines(lines[..k])
            && Joined(lines, |lines| - keep, |lines|) == JoinLines(lines[|lines| - k..])
  {
    if keep > 0 {
      assert lines[0..keep] == lines[..keep];
      assert lines[|lines| - keep..|lines|] == lines[|lines| - keep..];
    } else {
      assert lines[..0] == [] && lines[|lines|..] == [];
    }
  }

  method KeepEndLines(lines: seq<string>, keepLines: int) returns (r: string)
    requires |lines| > keepLines * 2
    ensures r == EndLines(lines, keepLines)
  {
    hide JoinLines, Joined, LinesNote;
    JoinedEnds(lines, keepLines);
    r := AppendLines("", lines, 0, Min(keepLines, |lines|));
    Ends(Joined(lines, 0, Min(keepLines, |lines|)));
    r := r + LinesNote(|lines| - keepLines * 2);
    r := AppendLines(r, lines, |lines| - keepLines, |lines|);
  }

  method KeepEndChars(content: string, keepChars: nat) returns (r: string)
    ensures r == EndChars(content, keepChars)
  {
    r := Utf8Truncate(content, keepChars);
    r := r + CharsNote(|content| - keepChars * 2);
    r := r + Utf8TruncateTail(content, keepChars);
  }

  method SoftPrune(content: string, keepLines: int) returns (r: string)
    ensures r == Shortened(content, keepLines)
  {
    var lines := SplitLines(content);
    if |lines| > keepLines * 2 {
      r := KeepEndLines(lines, keepLines);
    } else if |content| > keepLines * 160 {
      r := KeepEndChars(content, keepLines * 80);
    } else {
      r := content;
    }
  }

  predicate TooLong(b: Block, o: Options) {
    // the limit is cast to an unsigned size, so a negative one never triggers
    b.ToolResult? && 0 <= o.maxToolResultChars < |b.result.output|
  }

  function SoftBlock(b: Block, o: Options): Block {
    if TooLong(b, o) then
      ToolResult(CallResult(b.result.callId, "", Shortened(b.result.output, o.softPruneLines), b.result.success))
    else b
  }

  function SoftBlocks(content: seq<Block>, o: Options): seq<Block> {
    if content == [] then [] else [SoftBlock(content[0], o)] + SoftBlocks(content[1..], o)
  }

  function TooLongBlocks(content: seq<Block>, o: Options): nat {
    if content == [] then 0 else (if TooLong(content[0], o) then 1 else 0) + TooLongBlocks(content[1..], o)
  }

  lemma SoftBlocksStep(content: seq<Block>, i: nat, o: Options, pruned: seq<Block>)
    requires i < |content|
    ensures pruned + SoftBlocks(content[i..], o)
         == pruned + [SoftBlock(content[i], o)] + SoftBlocks(content[i + 1..], o)
    ensures TooLongBlocks(content[i..], o)
         == (if TooLong(content[i], o) then 1 else 0) + TooLongBlocks(content[i + 1..], o)
  {
    SuffixStep(content, i);
    Assoc(pruned, [SoftBlock(content[i], o)], SoftBlocks(content[i + 1..], o));
  }

  method SoftPruneContent(content: seq<Block>, o: Options) returns (pruned: seq<Block>, softPruned: nat)
    ensures pruned == SoftBlocks(content, o) && softPruned == TooLongBlocks(content, o)
  {
    pruned, softPruned := [], 0;
    var i := 0;
    Ends(content);
    Ends(SoftBlocks(content, o));
    while i < |content|
      invariant 0 <= i <= |content|
      invariant SoftBlocks(content, o) == pruned + SoftBlocks(content[i..], o)
      invariant TooLongBlocks(content, o) == softPruned + TooLongBlocks(content[i..], o)
    {
      var block := content[i];
      SoftBlocksStep(content, i, o, pruned);
      if block.ToolResult? && 0 <= o.maxToolResultChars < |block.result.output| {
        softPruned := softPruned + 1;
        var output := SoftPrune(block.result.output, o.softPruneLines);
        pruned := pruned + [ToolResult(CallResult(block.result.callId, "", output, block.result.success))];
      } else {
        pruned := pruned + [block];
      }
      i := i + 1;
    }
    Ends(pruned);
  }

  // ---------------------------------------------------------------- stripping an assistant message

  const MAX_ARGS_SUMMARY := 160
  const ELLIPSIS := [0xE2 as char, 0x80 as char, 0xA6 as char]
  const MAX_TOOL_SUMMARIES := 12

  function ShownArguments(args: string): string {
    if args == "" || args == "{}" then ""
    else "(" + (if |args| > MAX_ARGS_SUMMARY then args[..MAX_ARGS_SUMMARY] + ELLIPSIS else args) + ")"
  }

  function CallSummary(c: Call): string {
    CString(c.name + ShownArguments(c.arguments))
  }

  function CallSummaries(calls: seq<Call>): (r: seq<string>)
    ensures |r| == |calls|
  {
    if calls == [] then [] else [CallSummary(calls[0])] + CallSummaries(calls[1..])
  }

  function JoinCommas(ss: seq<string>): string {
    if ss == [] then "" else if |ss| == 1 then ss[0] else ss[0] + ", " + JoinCommas(ss[1..])
  }

  function MoreNote(more: nat): string {
    if more > 0 then ", ... +" + IntText(more) + " more" else ""
  }

  function UsedTools(summaries: seq<string>): string {
    var shown := Min(|summaries|, MAX_TOOL_SUMMARIES);
    "[used tools: " + JoinCommas(summaries[..shown]) + MoreNote(|summaries| - shown) + "]"
  }

  function SpokenText(content: seq<Block>): seq<Block> {
    if content == [] then []
    else (if content[0].Text? && !content[0].thinking then [content[0]] else []) + SpokenText(content[1..])
  }

  /** What is left of a stripped assistant message; nothing when it neither spoke nor called a tool. */
  function StrippedContent(content: seq<Block>): seq<Block> {
    if SpokenText(content) == [] && Uses(content) != []
    then [Text(CString(UsedTools(CallSummaries(Uses(content)))), false)]
    else SpokenText(content)
  }

  /** An assistant message that stripping does not delete. */
  predicate Survives(m: Message) {
    SpokenText(m.content) != [] || Uses(m.content) != []
  }

  lemma {:induction false} JoinCommasSnoc(ss: seq<string>, s: string)
    ensures JoinCommas(ss + [s]) == if ss == [] then s else JoinCommas(ss) + ", " + s
  {
    if |ss| >= 1 {
      assert (ss + [s])[1..] == ss[1..] + [s];
      JoinCommasSnoc(ss[1..], s);
    }
  }

  method SummarizeTools(summaries: seq<string>) returns (summary: string)
    ensures summary == UsedTools(summaries)
  {
    summary := "[used tools: ";
    var shown := Min(|summaries|, MAX_TOOL_SUMMARIES);
    var i := 0;
    while i < shown
      invariant 0 <= i <= shown
      invariant summary == "[used tools: " + JoinCommas(summaries[..i])
    {
      assert summaries[..i + 1] == summaries[..i] + [summaries[i]];
      JoinCommasSnoc(summaries[..i], summaries[i]);
      if i > 0 {
        summary := summary + ", ";
      }
      summary := summary + summaries[i];
      i := i + 1;
    }
    summary := summary + MoreNote(|summaries| - shown);
    summary := summary + "]";
  }

  lemma {:induction false} SpokenTextAppend(a: seq<Block>, b: seq<Block>)
    ensures SpokenText(a + b) == SpokenText(a) + SpokenText(b)
  {
    if a == [] {
      assert a + b == b;
    } else {
      assert (a + b)[1..] == a[1..] + b;
      SpokenTextAppend(a[1..], b);
    }
  }

  lemma {:induction false} CallSummariesAppend(a: seq<Call>, c: Call)
    ensures CallSummaries(a + [c]) == CallSummaries(a) + [CallSummary(c)]
  {
    if a != [] {
      assert (a + [c])[1..] == a[1..] + [c];
      CallSummariesAppend(a[1..], c);
    }
  }

  lemma StripStep(content: seq<Block>, i: nat)
    requires i < |content|
    ensures SpokenText(content[..i + 1])
         == if content[i].Text? && !content[i].thinking then SpokenText(content[..i]) + [content[i]]
            else SpokenText(content[..i])
    ensures Uses(content[..i + 1])
         == if content[i].ToolUse? then Uses(content[..i]) + [content[i].call] else Uses(content[..i])
  {
    var b := content[i];
    PrefixStep(content, i);
    SpokenTextAppend(content[..i], [b]);
    UsesAppend(content[..i], [b]);
    assert [b][1..] == [];
  }

  lemma NothingStripped(content: seq<Block>)
    ensures SpokenText(content[..0]) == [] && Uses(content[..0]) == [] && CallSummaries([]) == []
    ensures content[..|content|] == content
  {
  }

  method SummarizeCall(call: Call) returns (summary: string)
    ensures summary == CallSummary(call)
  {
    summary := call.name;
    var args := call.arguments;
    if args != "" && args != "{}" {
      summary := summary + "(";
      var shown := if |args| > MAX_ARGS_SUMMARY then args[..MAX_ARGS_SUMMARY] + ELLIPSIS else args;
      Assoc(call.name, "(", shown);
      summary := summary + shown;
      Assoc(call.name, "(" + shown, ")");
      summary := summary + ")";
    } else {
      Ends(summary);
    }
    summary := CString(summary);
  }

  method StripAssistant(content: seq<Block>) returns (kept: seq<Block>, strippedUses: nat)
    ensures kept == StrippedContent(content) && strippedUses == |Uses(content)|
  {
    hide SpokenText, Uses, CallSummaries, CallSummary, UsedTools, CString;
    NothingStripped(content);
    kept, strippedUses := [], 0;
    var toolSummaries: seq<string> := [];
    var i := 0;
    while i < |content|
      invariant 0 <= i <= |content|
      invariant kept == SpokenText(content[..i])
      invariant strippedUses == |Uses(content[..i])|
      invariant toolSummaries == CallSummaries(Uses(content[..i]))
    {
      var block := content[i];
      StripStep(content, i);
      if block.Text? && !block.thinking {
        kept := kept + [block];
      } else if block.ToolUse? {
        CallSummariesAppend(Uses(content[..i]), block.call);
        var summary := SummarizeCall(block.call);
        toolSummaries := toolSummaries + [summary];
        strippedUses := strippedUses + 1;
      }
      i := i + 1;
    }
    if kept == [] && toolSummaries != [] {
      var text := SummarizeTools(toolSummaries);
      kept := [Text(CString(text), false)];
    }
  }

  // ---------------------------------------------------------------- pruning

  function PruneTool(m: Message, gov: int, o: Options): PruneResult {
    if Protected(gov, o) then PruneResult([m], 0, 0, 0)
    else if Stripped(gov, o) then PruneResult([], 0, 1, 0)
    else PruneResult([Message(m.role, SoftBlocks(m.content, o))], TooLongBlocks(m.content, o), 0, 0)
  }

  function PruneAssistant(m: Message, depth: int, o: Options): PruneResult {
    if Protected(depth, o) then PruneResult([m], 0, 0, 0)
    else if depth > o.hardPruneAfter then
      PruneResult(if Survives(m) then [Message(m.role, StrippedContent(m.content))] else [], 0, 0, |Uses(m.content)|)
    else PruneResult([Message(m.role, SoftBlocks(m.content, o))], TooLongBlocks(m.content, o), 0, 0)
  }

  function PruneMessage(m: Message, depth: int, o: Options): PruneResult {
    match m.role
    case Tool => PruneTool(m, depth, o)
    case Assistant => PruneAssistant(m, depth, o)
    case _ => PruneResult([m], 0, 0, 0)
  }

  /**
   Reference pruner: `h` is preceded by an assistant of depth `gov` (-1: by none) and followed by
   `after` further assistants.
   */
  function PruneFrom(h: History, gov: int, after: nat, o: Options): PruneResult {
    if h == [] then NOTHING
    else
      var d := if h[0].role == Assistant then Assistants(h) + after else gov;
      Both(PruneMessage(h[0], d, o), PruneFrom(h[1..], d, after, o))
  }

  function DepthAt(h: History, i: nat): int
    requires i < |h|
  {
    if h[i].role == Assistant then Assistants(h[i..]) else Governing(h, i)
  }

  method PruneOne(history: History, depths: seq<int>, idx: nat, o: Options) returns (r: PruneResult)
    requires idx < |history| && depths == Depths(history)
    ensures r == PruneMessage(history[idx], DepthAt(history, idx), o)
  {
    var msg := history[idx];
    if msg.role == Tool {
      var nearestDepth := NearestDepth(history, depths, idx);
      if nearestDepth > 0 && nearestDepth <= o.protectRecent {
        return PruneResult([msg], 0, 0, 0);
      }
      if nearestDepth > 0 && nearestDepth > o.hardPruneAfter {
        return PruneResult([], 0, 1, 0);
      }
      var content, n := SoftPruneContent(msg.content, o);
      return PruneResult([Message(msg.role, content)], n, 0, 0);
    } else if msg.role == Assistant {
      var depth := depths[idx];
      if depth > 0 && depth <= o.protectRecent {
        return PruneResult([msg], 0, 0, 0);
      }
      if depth > o.hardPruneAfter {
        var content, n := StripAssistant(msg.content);
        return PruneResult(if content != [] then [Message(msg.role, content)] else [], 0, 0, n);
      }
      var content, n := SoftPruneContent(msg.content, o);
      return PruneResult([Message(msg.role, content)], n, 0, 0);
    } else {
      return PruneResult([msg], 0, 0, 0);
    }
  }

  lemma PruneFromStep(h: History, i: nat, o: Options)
    requires i < |h|
    ensures PruneFrom(h[i..], Governing(h, i), 0, o)
         == Both(PruneMessage(h[i], DepthAt(h, i), o), PruneFrom(h[i + 1..], Governing(h, i + 1), 0, o))
  {
    assert h[i..][0] == h[i] && h[i..][1..] == h[i + 1..];
  }

  /** What the loop has done so far and what it has still to do make up the whole. */
  predicate RangeDone(h: History, o: Options, whole: PruneResult, i: nat, r: PruneResult)
    requires i <= |h|
  {
    whole == Both(r, PruneFrom(h[i..], Governing(h, i), 0, o))
  }

  lemma RangeStep(h: History, o: Options, whole: PruneResult, i: nat, r: PruneResult, piece: PruneResult)
    requires i < |h| && RangeDone(h, o, whole, i, r) && piece == PruneMessage(h[i], DepthAt(h, i), o)
    ensures RangeDone(h, o, whole, i + 1, Both(r, piece))
  {
    PruneFromStep(h, i, o);
    BothAssoc(r, piece, PruneFrom(h[i + 1..], Governing(h, i + 1), 0, o));
  }

  lemma RangeEnds(h: History, o: Options, whole: PruneResult, i: nat, r: PruneResult)
    requires i <= |h|
    ensures RangeDone(h, o, PruneFrom(h[i..], Governing(h, i), 0, o), i, NOTHING)
    ensures i == |h| && RangeDone(h, o, whole, i, r) ==> r == whole
  {
    BothAssoc(PruneFrom(h[i..], Governing(h, i), 0, o), NOTHING, NOTHING);
    BothAssoc(r, NOTHING, NOTHING);
  }

  method PruneRangeWithDepths(history: History, start: nat, depths: seq<int>, o: Options) returns (r: PruneResult)
    requires start <= |history| && depths == Depths(history)
    ensures r == PruneFrom(history[start..], Governing(history, start), 0, o)
  {
    r := NOTHING;
    var idx := start;
    ghost var whole := PruneFrom(history[start..], Governing(history, start), 0, o);
    RangeEnds(history, o, whole, start, r);
    hide PruneFrom, Governing, PruneMessage, RangeDone, DepthAt;
    while idx < |history|
      invariant start <= idx <= |history| && RangeDone(history, o, whole, idx, r)
    {
      var piece := PruneOne(history, depths, idx, o);
      RangeStep(history, o, whole, idx, r, piece);
      r := Both(r, piece);
      idx := idx + 1;
    }
    RangeEnds(history, o, whole, idx, r);
  }

  function Pruned(h: History, o: Options): PruneResult {
    PruneFrom(h, -1, 0, o)
  }

  method Prune(history: History, o: Options) returns (r: PruneResult)
    ensures r == Pruned(history, o)
  {
    if history == [] {
      return PruneResult(history, 0, 0, 0);
    }
    var depths := ComputeDepths(history);
    r := PruneRangeWithDepths(history, 0, depths, o);
    assert history[0..] == history;
  }
}
