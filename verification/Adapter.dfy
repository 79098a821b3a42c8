/** Wire forms of a history for the OpenAI-style and Anthropic-style chat APIs. */
module Adapter {
  import opened Wrappers
  import opened Messages
  import opened Sequences

  // ---------------------------------------------------------------- OpenAI form

  /** One element of the OpenAI `messages` array; an absent `tool_calls` key is an empty list. */
  datatype Wire = Wire(role: Role, content: string, toolCallId: Option<string>, toolCalls: seq<Call>)

  /** OpenAIAdapter::to_openai_format: a tool message contributes its first result only. */
  function OpenAiFormat(m: Message): Wire {
    if m.role == Tool then
      if Results(m.content) == [] then Wire(Tool, "", None, [])
      else Wire(Tool, Results(m.content)[0].output, Some(Results(m.content)[0].callId), [])
    else if m.content == [] then Wire(m.role, "", None, [])
    else if |m.content| == 1 && m.content[0].Text? then Wire(m.role, m.content[0].text, None, [])
    else Wire(m.role, AllText(m.content), None, Uses(m.content))
  }

  function ResultWires(results: seq<CallResult>): seq<Wire> {
    if results == [] then []
    else [Wire(Tool, results[0].output, Some(results[0].callId), [])] + ResultWires(results[1..])
  }

  /** What one message becomes: a tool message is split into one element per result. */
  function WiresOf(m: Message): seq<Wire> {
    if m.role != Tool then [OpenAiFormat(m)]
    else if Results(m.content) == [] then [Wire(Tool, "", None, [])]
    else ResultWires(Results(m.content))
  }

  function OpenAiMessages(h: History): seq<Wire> {
    if h == [] then [] else WiresOf(h[0]) + OpenAiMessages(h[1..])
  }

  /** ConversationHistory::to_openai_messages: message by message, without splitting. */
  function HistoryWires(h: History): seq<Wire> {
    if h == [] then [] else [OpenAiFormat(h[0])] + HistoryWires(h[1..])
  }

  lemma {:induction false} ResultWiresSnoc(a: seq<CallResult>, r: CallResult)
    ensures ResultWires(a + [r]) == ResultWires(a) + [Wire(Tool, r.output, Some(r.callId), [])]
  {
    if a == [] {
      assert a + [r] == [r] && [r][1..] == [];
    } else {
      assert (a + [r])[1..] == a[1..] + [r];
      ResultWiresSnoc(a[1..], r);
    }
  }

  method SplitToolMessage(m: Message) returns (wires: seq<Wire>)
    requires m.role == Tool
    ensures wires == WiresOf(m)
  {
    wires := [];
    var hasResult := false;
    var i := 0;
    while i < |m.content|
      invariant 0 <= i <= |m.content|
      invariant wires == ResultWires(Results(m.content[..i]))
      invariant hasResult <==> Results(m.content[..i]) != []
    {
      var b := m.content[i];
      assert m.content[..i + 1] == m.content[..i] + [b];
      ResultsAppend(m.content[..i], [b]);
      SingleBlock(b);
      if b.ToolResult? {
        ResultWiresSnoc(Results(m.content[..i]), b.result);
        wires := wires + [Wire(Tool, b.result.output, Some(b.result.callId), [])];
        hasResult := true;
      } else {
        assert Results(m.content[..i]) + [] == Results(m.content[..i]);
      }
      i := i + 1;
    }
    assert m.content[..i] == m.content;
    if !hasResult {
      wires := [Wire(Tool, "", None, [])];
    }
  }

  lemma ConvertStep(messages: History, i: nat)
    requires i < |messages|
    ensures OpenAiMessages(messages[i..]) == WiresOf(messages[i]) + OpenAiMessages(messages[i + 1..])
  {
    hide WiresOf;
    SuffixStep(messages, i);
  }

  lemma WiresAtEnds(messages: History)
    ensures OpenAiMessages(messages) == [] + OpenAiMessages(messages[0..])
    ensures forall w: seq<Wire> :: w + OpenAiMessages(messages[|messages|..]) == w
  {
    Ends(messages);
  }

  method ToOpenAiMessages(messages: History) returns (result: seq<Wire>)
    ensures result == OpenAiMessages(messages)
  {
    hide OpenAiMessages;
    WiresAtEnds(messages);
    result := [];
    var i := 0;
    while i < |messages|
      invariant 0 <= i <= |messages|
      invariant OpenAiMessages(messages) == result + OpenAiMessages(messages[i..])
    {
      var msg := messages[i];
      ConvertStep(messages, i);
      var wires;
      if msg.role == Tool {
        wires := SplitToolMessage(msg);
      } else {
        wires := [OpenAiFormat(msg)];
      }
      Assoc(result, wires, OpenAiMessages(messages[i + 1..]));
      result := result + wires;
      i := i + 1;
    }
  }

  lemma {:induction false} HistoryWiresAppend(a: History, b: History)
    ensures HistoryWires(a + b) == HistoryWires(a) + HistoryWires(b)
  {
    hide OpenAiFormat;
    if a == [] {
      Ends(b);
      Ends(HistoryWires(b));
    } else {
      ConsAppend(a, b);
      HistoryWiresAppend(a[1..], b);
      Assoc([OpenAiFormat(a[0])], HistoryWires(a[1..]), HistoryWires(b));
    }
  }

  /** One message more. */
  lemma HistoryWiresNext(h: History, i: nat)
    requires i < |h|
    ensures HistoryWires(h[..i + 1]) == HistoryWires(h[..i]) + [OpenAiFormat(h[i])]
  {
    hide OpenAiFormat;
    PrefixStep(h, i);
    HistoryWiresAppend(h[..i], [h[i]]);
    Ends(HistoryWires([h[i]][1..]));
    assert HistoryWires([h[i]]) == [OpenAiFormat(h[i])] + HistoryWires([h[i]][1..]);
  }

  // ---------------------------------------------------------------- the protocol on the wire

  function WireStep(w: Wire, owed: seq<string>): Option<seq<string>> {
    match w.role
    case Tool =>
      if w.toolCallId.Some? && owed != [] && owed[0] == w.toolCallId.value then Some(owed[1..]) else None
    case Assistant => if owed == [] then Some(CallIds(w.toolCalls)) else None
    case _ => if owed == [] && w.toolCalls == [] then Some([]) else None
  }

  function WireScan(ws: seq<Wire>, owed: seq<string>): Option<seq<string>> {
    if ws == [] then Some(owed)
    else match WireStep(ws[0], owed)
      case None => None
      case Some(o) => WireScan(ws[1..], o)
  }

  /** What an OpenAI-style API accepts: each tool call answered, in order, by one tool element. */
  predicate WirePaired(ws: seq<Wire>) {
    WireScan(ws, []) == Some([])
  }

  /** Tool calls sit in assistant messages, results in tool messages, and no tool message is empty. */
  predicate InPlace(m: Message) {
    match m.role
    case Tool => Results(m.content) != [] && Uses(m.content) == []
    case Assistant => Results(m.content) == []
    case _ => Uses(m.content) == [] && Results(m.content) == []
  }

  predicate AllInPlace(h: History) {
    forall i | 0 <= i < |h| :: InPlace(h[i])
  }

  lemma {:induction false} WireScanAppend(a: seq<Wire>, b: seq<Wire>, owed: seq<string>)
    ensures WireScan(a + b, owed) == match WireScan(a, owed) { case None => None case Some(o) => WireScan(b, o) }
  {
    if a == [] {
      assert a + b == b;
    } else {
      assert (a + b)[1..] == a[1..] + b;
      match WireStep(a[0], owed) {
        case None =>
        case Some(o) => WireScanAppend(a[1..], b, o);
      }
    }
  }

  lemma FormatKeepsCalls(m: Message)
    requires m.role != Tool
    ensures OpenAiFormat(m).toolCalls == Uses(m.content) && OpenAiFormat(m).role == m.role
  {
    if |m.content| == 1 {
      assert m.content == [m.content[0]];
      SingleBlock(m.content[0]);
    }
  }

  lemma {:induction false} SplitPays(results: seq<CallResult>, owed: seq<string>)
    ensures WireScan(ResultWires(results), owed)
         == if AnsweredIds(results) <= owed then Some(owed[|results|..]) else None
  {
    var ids := AnsweredIds(results);
    if results != [] {
      var rest := AnsweredIds(results[1..]);
      assert ids == [results[0].callId] + rest;
      if owed != [] && owed[0] == results[0].callId {
        SplitPays(results[1..], owed[1..]);
        assert owed == [owed[0]] + owed[1..];
        assert ids <= owed <==> rest <= owed[1..];
        assert rest <= owed[1..] ==> owed[1..][|rest|..] == owed[|results|..];
      } else {
        assert ids[0] == results[0].callId;
      }
    }
  }

  lemma WiresStep(m: Message, owed: seq<string>)
    requires InPlace(m)
    ensures WireScan(WiresOf(m), owed) == Step(m, owed)
  {
    if m.role == Tool {
      SplitPays(Results(m.content), owed);
    } else {
      FormatKeepsCalls(m);
      var w := OpenAiFormat(m);
      assert WiresOf(m) == [w] && [w][1..] == [];
      assert CallIds([]) == [];
    }
  }

  lemma {:induction false} WireScanIsScan(h: History, owed: seq<string>)
    requires AllInPlace(h)
    ensures WireScan(OpenAiMessages(h), owed) == Scan(h, owed)
  {
    if h != [] {
      WiresStep(h[0], owed);
      WireScanAppend(WiresOf(h[0]), OpenAiMessages(h[1..]), owed);
      if Step(h[0], owed).Some? {
        assert forall i | 0 <= i < |h[1..]| :: h[1..][i] == h[i + 1];
        WireScanIsScan(h[1..], Step(h[0], owed).value);
      }
    }
  }

  lemma {:induction false} ScannedInPlace(h: History, owed: seq<string>)
    requires Scan(h, owed).Some?
    ensures AllInPlace(h)
  {
    if h != [] {
      ScannedInPlace(h[1..], Step(h[0], owed).value);
      assert forall i | 1 <= i < |h| :: h[i] == h[1..][i - 1];
    }
  }

  /** Flattening preserves and reflects pairing: the API accepts the array exactly when the history is paired. */
  lemma FlatteningPaired(h: History)
    ensures Paired(h) <==> AllInPlace(h) && WirePaired(OpenAiMessages(h))
  {
    if Paired(h) {
      ScannedInPlace(h, []);
    }
    if AllInPlace(h) {
      WireScanIsScan(h, []);
    }
  }

  // ---------------------------------------------------------------- the unsplit form

  /** Every tool message holds a single result. */
  predicate OneResultEach(h: History) {
    forall i | 0 <= i < |h| && h[i].role == Tool :: |Results(h[i].content)| == 1
  }

  function ToolCount(h: History): nat {
    if h == [] then 0 else (if h[0].role == Tool then 1 else 0) + ToolCount(h[1..])
  }

  function WireCalls(ws: seq<Wire>): nat {
    if ws == [] then 0 else |ws[0].toolCalls| + WireCalls(ws[1..])
  }

  function WireTools(ws: seq<Wire>): nat {
    if ws == [] then 0 else (if ws[0].role == Tool then 1 else 0) + WireTools(ws[1..])
  }

  lemma {:induction false} WireBalance(ws: seq<Wire>, owed: seq<string>)
    requires WireScan(ws, owed).Some?
    requires forall i | 0 <= i < |ws| && ws[i].role == Tool :: ws[i].toolCalls == []
    ensures |owed| + WireCalls(ws) == |WireScan(ws, owed).value| + WireTools(ws)
  {
    if ws != [] {
      assert forall i | 0 <= i < |ws[1..]| :: ws[1..][i] == ws[i + 1];
      WireBalance(ws[1..], WireStep(ws[0], owed).value);
    }
  }

  lemma WireHead(h: History)
    requires h != []
    ensures var w, rest := OpenAiFormat(h[0]), HistoryWires(h[1..]);
            && HistoryWires(h) == [w] + rest && HistoryWires(h)[1..] == rest
            && WireCalls(HistoryWires(h)) == |w.toolCalls| + WireCalls(rest)
            && WireTools(HistoryWires(h)) == (if w.role == Tool then 1 else 0) + WireTools(rest)
  {
    hide OpenAiFormat;
    var w, rest := OpenAiFormat(h[0]), HistoryWires(h[1..]);
    assert ([w] + rest)[1..] == rest;
  }

  lemma {:induction false} HistoryWiresCounts(h: History)
    requires AllInPlace(h)
    ensures |HistoryWires(h)| == |h|
    ensures forall i | 0 <= i < |h| :: HistoryWires(h)[i] == OpenAiFormat(h[i])
    ensures WireCalls(HistoryWires(h)) == |AllUses(h)| && WireTools(HistoryWires(h)) == ToolCount(h)
    ensures ToolCount(h) <= |AllResultIds(h)|
    ensures ToolCount(h) == |AllResultIds(h)| <==> OneResultEach(h)
  {
    if h != [] {
      var m, t := h[0], h[1..];
      assert forall i | 0 <= i < |t| :: t[i] == h[i + 1];
      assert InPlace(m);
      HistoryWiresCounts(t);
      hide Uses, Results, OpenAiFormat;
      WireHead(h);
      if m.role != Tool {
        FormatKeepsCalls(m);
      }
      assert OneResultEach(h) <==> (m.role == Tool ==> |Results(m.content)| == 1) && OneResultEach(t);
    }
  }

  lemma {:induction false} SingleResultsAgree(h: History)
    requires OneResultEach(h)
    ensures HistoryWires(h) == OpenAiMessages(h)
  {
    if h != [] {
      assert forall i | 0 <= i < |h[1..]| :: h[1..][i] == h[i + 1];
      SingleResultsAgree(h[1..]);
      if h[0].role == Tool {
        var r := Results(h[0].content);
        assert |r| == 1 && r[1..] == [];
        assert ResultWires(r) == [OpenAiFormat(h[0])];
      }
    }
  }

  /**
   The history's own conversion takes one result per tool message, so what it sends for a paired
   history is accepted if and only if every tool message holds exactly one result.
   */
  lemma UnsplitPairedIff(h: History)
    requires Paired(h)
    ensures WirePaired(HistoryWires(h)) <==> OneResultEach(h)
  {
    hide Scan, HistoryWires, AllUses, AllResultIds, ToolCount, WireCalls, WireTools, AllText;
    ScannedInPlace(h, []);
    HistoryWiresCounts(h);
    CallsBalanceResults(h, []);
    if WirePaired(HistoryWires(h)) {
      WireBalance(HistoryWires(h), []);
    }
    if OneResultEach(h) {
      SingleResultsAgree(h);
      FlatteningPaired(h);
    }
  }

  // ---------------------------------------------------------------- OpenAI form, backwards

  /** from_openai_format: text first, then the calls; a tool element becomes a single result. */
  function FromOpenAi(w: Wire): Message {
    if w.role == Tool then
      if w.toolCallId.Some? then ToolMessage(CallResult(w.toolCallId.value, "", w.content, false))
      else Message(Tool, [])
    else Message(w.role, [Text(w.content, false)] + UseBlocks(w.toolCalls))
  }

  function UseBlocks(calls: seq<Call>): seq<Block> {
    if calls == [] then [] else [ToolUse(calls[0])] + UseBlocks(calls[1..])
  }

  lemma {:induction false} UseBlocksFacts(calls: seq<Call>, acc: string)
    ensures Uses(UseBlocks(calls)) == calls && TextFrom(UseBlocks(calls), acc) == acc
    ensures |UseBlocks(calls)| == |calls|
  {
    if calls != [] {
      var rest := UseBlocks(calls[1..]);
      UseBlocksFacts(calls[1..], acc);
      assert ([ToolUse(calls[0])] + rest)[1..] == rest;
    }
  }

  /** The shapes the wire form can tell: text then calls, or one plain result; the agent builds no others. */
  ghost predicate WireShaped(m: Message) {
    if m.role == Tool then
      m.content == [] || exists id, output :: m == ToolMessage(CallResult(id, "", output, false))
    else
      exists text, calls: seq<Call> :: m.content == [Text(text, false)] + UseBlocks(calls)
  }

  lemma TextThenCalls(role: Role, text: string, calls: seq<Call>)
    requires role != Tool
    ensures FromOpenAi(OpenAiFormat(Message(role, [Text(text, false)] + UseBlocks(calls))))
         == Message(role, [Text(text, false)] + UseBlocks(calls))
  {
    var content := [Text(text, false)] + UseBlocks(calls);
    UseBlocksFacts(calls, text);
    assert content[1..] == UseBlocks(calls);
    assert TextFrom(content, "") == TextFrom(content[1..], text);
    assert Uses(content) == Uses(content[1..]) == calls;
    if |content| == 1 {
      assert calls == [];
    } else {
      assert OpenAiFormat(Message(role, content)) == Wire(role, text, None, calls);
    }
  }

  lemma OneResult(id: string, output: string)
    ensures var m := ToolMessage(CallResult(id, "", output, false)); FromOpenAi(OpenAiFormat(m)) == m
  {
    SingleBlock(ToolResult(CallResult(id, "", output, false)));
  }

  /** A message survives conversion to the wire form and back if and only if it has one of those shapes. */
  lemma OpenAiRoundTripIff(m: Message)
    ensures FromOpenAi(OpenAiFormat(m)) == m <==> WireShaped(m)
  {
    if WireShaped(m) {
      if m.role != Tool {
        var text, calls: seq<Call> :| m.content == [Text(text, false)] + UseBlocks(calls);
        TextThenCalls(m.role, text, calls);
      } else if m.content != [] {
        var id, output :| m == ToolMessage(CallResult(id, "", output, false));
        OneResult(id, output);
      }
    }
  }

  // ---------------------------------------------------------------- Anthropic form

  datatype Part = TextPart(text: string) | UsePart(call: Call) | ResultPart(callId: string, output: string)

  /** One element of the Anthropic `messages` array; tool results travel under the user role. */
  datatype ApiTurn = ApiTurn(role: Role, parts: seq<Part>)

  function AnthropicRole(r: Role): Role {
    if r == Tool then User else r
  }

  function PartOf(b: Block): seq<Part> {
    match b
    case Text(t, _) => [TextPart(t)]
    case ToolUse(c) => [UsePart(c)]
    case ToolResult(r) => [ResultPart(r.callId, r.output)]
    case Media(_) => []
  }

  function Parts(content: seq<Block>): seq<Part> {
    if content == [] then [] else PartOf(content[0]) + Parts(content[1..])
  }

  function AnthropicMessages(h: History): seq<ApiTurn> {
    if h == [] then []
    else (if h[0].role == System then [] else [ApiTurn(AnthropicRole(h[0].role), Parts(h[0].content))])
         + AnthropicMessages(h[1..])
  }

  /** AnthropicAdapter::to_anthropic_format. */
  function AnthropicFormat(m: Message): ApiTurn {
    ApiTurn(AnthropicRole(m.role), Parts(m.content))
  }

  /** AnthropicAdapter::from_anthropic_format; a role the API does not have reads as the user's. */
  function FromAnthropic(t: ApiTurn): Message {
    Message(if t.role == Tool then User else t.role, Blocks(t.parts))
  }

  function BlockOf(p: Part): Block {
    match p
    case TextPart(t) => Text(t, false)
    case UsePart(c) => ToolUse(c)
    case ResultPart(id, output) => ToolResult(CallResult(id, "", output, false))
  }

  function Blocks(parts: seq<Part>): seq<Block> {
    if parts == [] then [] else [BlockOf(parts[0])] + Blocks(parts[1..])
  }

  /** What the Anthropic form can tell of a block: no thinking, no media, and of a result its id and output. */
  predicate Tellable(b: Block) {
    match b
    case Text(_, thinking) => !thinking
    case ToolUse(_) => true
    case ToolResult(r) => r.name == "" && !r.success
    case Media(_) => false
  }

  lemma BlocksStep(content: seq<Block>)
    requires content != []
    ensures var b, rest := content[0], Blocks(Parts(content[1..]));
            Blocks(Parts(content)) == (if b.Media? then [] else [BlockOf(PartOf(b)[0])]) + rest
  {
    var b, ps := content[0], Parts(content[1..]);
    if b.Media? {
      Ends(ps);
      Ends(Blocks(ps));
    } else {
      assert PartOf(b) == [PartOf(b)[0]];
      assert (PartOf(b) + ps)[1..] == ps;
    }
  }

  lemma FirstAndRest(content: seq<Block>, x: Block, rest: seq<Block>)
    requires content != []
    ensures [x] + rest == content <==> x == content[0] && rest == content[1..]
  {
    var both := [x] + rest;
    assert both[0] == x && both[1..] == rest;
    assert content == [content[0]] + content[1..];
  }

  predicate AllTellable(content: seq<Block>) {
    forall k | 0 <= k < |content| :: Tellable(content[k])
  }

  lemma AllTellableStep(content: seq<Block>)
    requires content != []
    ensures AllTellable(content) <==> Tellable(content[0]) && AllTellable(content[1..])
  {
    assert forall k | 0 < k < |content| :: content[k] == content[1..][k - 1];
  }

  lemma {:induction false} BlocksBack(content: seq<Block>)
    ensures |Blocks(Parts(content))| <= |content|
    ensures Blocks(Parts(content)) == content <==> AllTellable(content)
  {
    if content != [] {
      var b, t := content[0], content[1..];
      BlocksBack(t);
      BlocksStep(content);
      AllTellableStep(content);
      hide Blocks, Parts, AllTellable;
      if !b.Media? {
        FirstAndRest(content, BlockOf(PartOf(b)[0]), Blocks(Parts(t)));
      }
    }
  }

  /**
   A message survives the Anthropic form and back if and only if it is no tool message and the form can tell each of
   its blocks: ids, arguments and the outputs of results come back unchanged.
   */
  lemma AnthropicRoundTripIff(m: Message)
    ensures FromAnthropic(AnthropicFormat(m)) == m
       <==> m.role != Tool && AllTellable(m.content)
  {
    BlocksBack(m.content);
  }

  lemma {:induction false} PartsBack(parts: seq<Part>)
    ensures Parts(Blocks(parts)) == parts
  {
    if parts != [] {
      var p, rest := parts[0], Blocks(parts[1..]);
      PartsBack(parts[1..]);
      assert ([BlockOf(p)] + rest)[1..] == rest;
      assert Parts([BlockOf(p)] + rest) == [p] + Parts(rest);
    }
  }

  /** Whatever the API can send is written again as it was read. */
  lemma AnthropicRereadIff(t: ApiTurn)
    ensures AnthropicFormat(FromAnthropic(t)) == t <==> t.role != Tool
  {
    PartsBack(t.parts);
  }

  lemma PartsStep(content: seq<Block>, k: nat)
    requires k < |content|
    ensures Parts(content[k..]) == PartOf(content[k]) + Parts(content[k + 1..])
  {
    SuffixStep(content, k);
  }

  lemma TurnsStep(h: History, i: nat)
    requires i < |h|
    ensures AnthropicMessages(h[i..])
         == (if h[i].role == System then [] else [ApiTurn(AnthropicRole(h[i].role), Parts(h[i].content))])
            + AnthropicMessages(h[i + 1..])
  {
    hide Parts;
    SuffixStep(h, i);
  }

  method ContentParts(content: seq<Block>) returns (parts: seq<Part>)
    ensures parts == Parts(content)
  {
    hide Parts;
    Ends(content);
    assert Parts([]) == [] by { NothingConverted(); }
    parts := [];
    var k := 0;
    while k < |content|
      invariant 0 <= k <= |content|
      invariant Parts(content) == parts + Parts(content[k..])
    {
      var block := content[k];
      PartsStep(content, k);
      Assoc(parts, PartOf(block), Parts(content[k + 1..]));
      if block.Text? {
        parts := parts + [TextPart(block.text)];
      } else if block.ToolUse? {
        parts := parts + [UsePart(block.call)];
      } else if block.ToolResult? {
        parts := parts + [ResultPart(block.result.callId, block.result.output)];
      }
      k := k + 1;
    }
  }

  lemma NothingConverted()
    ensures Parts([]) == [] && AnthropicMessages([]) == []
  {
  }

  method ToAnthropicMessages(messages: History) returns (result: seq<ApiTurn>)
    ensures result == AnthropicMessages(messages)
  {
    hide AnthropicMessages, Parts;
    Ends(messages);
    NothingConverted();
    result := [];
    var i := 0;
    while i < |messages|
      invariant 0 <= i <= |messages|
      invariant AnthropicMessages(messages) == result + AnthropicMessages(messages[i..])
    {
      var msg := messages[i];
      TurnsStep(messages, i);
      if msg.role != System {
        var parts := ContentParts(msg.content);
        Assoc(result, [ApiTurn(AnthropicRole(msg.role), parts)], AnthropicMessages(messages[i + 1..]));
        result := result + [ApiTurn(AnthropicRole(msg.role), parts)];
      }
      i := i + 1;
    }
  }

  lemma {:induction false} AnthropicAppend(a: History, b: History)
    ensures AnthropicMessages(a + b) == AnthropicMessages(a) + AnthropicMessages(b)
  {
    hide Parts;
    if a == [] {
      Ends(b);
      Ends(AnthropicMessages(b));
    } else {
      ConsAppend(a, b);
      AnthropicAppend(a[1..], b);
      Assoc(if a[0].role == System then [] else [ApiTurn(AnthropicRole(a[0].role), Parts(a[0].content))],
            AnthropicMessages(a[1..]), AnthropicMessages(b));
    }
  }

  lemma AnthropicNext(h: History, i: nat)
    requires i < |h|
    ensures AnthropicMessages(h[..i + 1])
         == AnthropicMessages(h[..i])
            + (if h[i].role == System then [] else [ApiTurn(AnthropicRole(h[i].role), Parts(h[i].content))])
  {
    hide Parts;
    PrefixStep(h, i);
    AnthropicAppend(h[..i], [h[i]]);
    var piece := if h[i].role == System then [] else [ApiTurn(AnthropicRole(h[i].role), Parts(h[i].content))];
    Ends(piece);
    assert AnthropicMessages([h[i]]) == piece + AnthropicMessages([h[i]][1..]);
  }

  function PartUses(parts: seq<Part>): seq<string> {
    if parts == [] then [] else (if parts[0].UsePart? then [parts[0].call.id] else []) + PartUses(parts[1..])
  }

  function PartResults(parts: seq<Part>): seq<string> {
    if parts == [] then [] else (if parts[0].ResultPart? then [parts[0].callId] else []) + PartResults(parts[1..])
  }

  function TurnStep(t: ApiTurn, owed: seq<string>): Option<seq<string>> {
    if t.role == Assistant then
      if owed == [] && PartResults(t.parts) == [] then Some(PartUses(t.parts)) else None
    else if PartUses(t.parts) != [] then None
    else if PartResults(t.parts) == [] then (if owed == [] then Some([]) else None)
    else if PartResults(t.parts) <= owed then Some(owed[|PartResults(t.parts)|..])
    else None
  }

  function TurnScan(ts: seq<ApiTurn>, owed: seq<string>): Option<seq<string>> {
    if ts == [] then Some(owed)
    else match TurnStep(ts[0], owed)
      case None => None
      case Some(o) => TurnScan(ts[1..], o)
  }

  lemma PartIds(b: Block, rest: seq<Part>)
    ensures PartUses(PartOf(b) + rest) == (if b.ToolUse? then [b.call.id] else []) + PartUses(rest)
    ensures PartResults(PartOf(b) + rest) == (if b.ToolResult? then [b.result.callId] else []) + PartResults(rest)
  {
    if b.Media? {
      Ends(rest);
    } else {
      assert (PartOf(b) + rest)[1..] == rest;
    }
  }

  lemma IdsOfMore(content: seq<Block>)
    requires content != []
    ensures var b, rest := content[0], content[1..];
            && Uses(content) == (if b.ToolUse? then [b.call] else []) + Uses(rest)
            && Results(content) == (if b.ToolResult? then [b.result] else []) + Results(rest)
  {
  }

  lemma IdsOfCons(calls: seq<Call>, results: seq<CallResult>)
    ensures calls != [] ==> CallIds(calls) == [calls[0].id] + CallIds(calls[1..])
    ensures results != [] ==> AnsweredIds(results) == [results[0].callId] + AnsweredIds(results[1..])
  {
  }

  lemma BlockIds(content: seq<Block>)
    requires content != []
    ensures var b := content[0];
            && UseIds(content) == (if b.ToolUse? then [b.call.id] else []) + UseIds(content[1..])
            && ResultIds(content) == (if b.ToolResult? then [b.result.callId] else []) + ResultIds(content[1..])
  {
    IdsOfMore(content);
    IdsOfCons(Uses(content), Results(content));
    hide Uses, Results, CallIds, AnsweredIds;
    Ends(Uses(content[1..]));
    Ends(Results(content[1..]));
    Ends(UseIds(content[1..]));
    Ends(ResultIds(content[1..]));
    FirstDropped(content[0], Uses(content[1..]), Results(content[1..]));
  }

  lemma FirstDropped(b: Block, calls: seq<Call>, results: seq<CallResult>)
    ensures b.ToolUse? ==> ([b.call] + calls)[1..] == calls
    ensures b.ToolResult? ==> ([b.result] + results)[1..] == results
  {
  }

  lemma {:induction false} PartsKeepIds(content: seq<Block>)
    ensures PartUses(Parts(content)) == UseIds(content) && PartResults(Parts(content)) == ResultIds(content)
  {
    if content != [] {
      PartsKeepIds(content[1..]);
      hide UseIds, ResultIds, PartUses, PartResults;
      PartIds(content[0], Parts(content[1..]));
      BlockIds(content);
    }
  }

  /** The Anthropic form of a message moves its automaton as the message moves the history's. */
  lemma TurnMoves(m: Message, owed: seq<string>)
    requires m.role != System && Step(m, owed).Some?
    ensures TurnStep(ApiTurn(AnthropicRole(m.role), Parts(m.content)), owed) == Step(m, owed)
  {
    hide UseIds, ResultIds, PartUses, PartResults, Parts;
    PartsKeepIds(m.content);
  }

  /** Every paired history is accepted in Anthropic form as well, although results carry the user role. */
  lemma {:induction false} AnthropicPaired(h: History, owed: seq<string>)
    requires Scan(h, owed).Some?
    ensures TurnScan(AnthropicMessages(h), owed) == Scan(h, owed)
  {
    if h != [] {
      var m, rest := h[0], AnthropicMessages(h[1..]);
      var next := Step(m, owed).value;
      AnthropicPaired(h[1..], next);
      TurnsStep(h, 0);
      Ends(h);
      hide AnthropicMessages, Parts, TurnStep;
      if m.role == System {
        Ends(rest);
      } else {
        var t := ApiTurn(AnthropicRole(m.role), Parts(m.content));
        TurnMoves(m, owed);
        assert ([t] + rest)[1..] == rest;
      }
    }
  }

  // ---------------------------------------------------------------- either form

  datatype Api = OpenAi | Anthropic

  /** The `messages` array of a request. */
  datatype Payload = OpenAiArray(wires: seq<Wire>) | AnthropicArray(turns: seq<ApiTurn>)

  function PayloadOf(api: Api, view: History): Payload {
    match api
    case OpenAi => OpenAiArray(HistoryWires(view))
    case Anthropic => AnthropicArray(AnthropicMessages(view))
  }

  /** What the API takes: every call answered, in order, by what comes right after it. */
  predicate Acceptable(p: Payload) {
    match p
    case OpenAiArray(wires) => WirePaired(wires)
    case AnthropicArray(turns) => TurnScan(turns, []) == Some([])
  }
}
