/**
 Chat messages and the tool-call protocol every provider API enforces: an assistant's tool calls
 are answered, in order, by the tool messages right after it, and nothing else is.
 */
module Messages {
  import opened Sequences
  import opened Wrappers

  datatype Role = System | User | Assistant | Tool

  /** A tool call; `arguments` is the dumped JSON text. */
  datatype Call = Call(id: string, name: string, arguments: string)

  datatype CallResult = CallResult(callId: string, name: string, output: string, success: bool)

  datatype Block =
    | Text(text: string, thinking: bool)
    | Media(source: string)
    | ToolUse(call: Call)
    | ToolResult(result: CallResult)

  datatype Message = Message(role: Role, content: seq<Block>)

  type History = seq<Message>

  function TextMessage(role: Role, text: string): Message {
    Message(role, [Text(text, false)])
  }

  function ToolMessage(r: CallResult): Message {
    Message(Tool, [ToolResult(r)])
  }

  // ---------------------------------------------------------------- reading a message

  function Uses(content: seq<Block>): seq<Call> {
    if content == [] then []
    else (if content[0].ToolUse? then [content[0].call] else []) + Uses(content[1..])
  }

  function Results(content: seq<Block>): seq<CallResult> {
    if content == [] then []
    else (if content[0].ToolResult? then [content[0].result] else []) + Results(content[1..])
  }

  function CallIds(calls: seq<Call>): (ids: seq<string>)
    ensures |ids| == |calls|
    ensures forall i | 0 <= i < |ids| :: ids[i] == calls[i].id
  {
    seq(|calls|, i requires 0 <= i < |calls| => calls[i].id)
  }

  function AnsweredIds(results: seq<CallResult>): (ids: seq<string>)
    ensures |ids| == |results|
    ensures forall i | 0 <= i < |ids| :: ids[i] == results[i].callId
  {
    seq(|results|, i requires 0 <= i < |results| => results[i].callId)
  }

  function UseIds(content: seq<Block>): seq<string> {
    CallIds(Uses(content))
  }

  function ResultIds(content: seq<Block>): seq<string> {
    AnsweredIds(Results(content))
  }

  /** ACPMessage::get_all_text: text blocks joined by newlines, no newline while nothing is accumulated. */
  function AllText(content: seq<Block>): string {
    TextFrom(content, "")
  }

  function TextFrom(content: seq<Block>, acc: string): string
    decreases |content|
  {
    if content == [] then acc
    else TextFrom(content[1..],
                  if content[0].Text? then (if acc == [] then content[0].text else acc + "\n" + content[0].text)
                  else acc)
  }

  lemma {:induction false} UsesAppend(a: seq<Block>, b: seq<Block>)
    ensures Uses(a + b) == Uses(a) + Uses(b)
  {
    if a == [] {
      Ends(b);
      Ends(Uses(b));
    } else {
      ConsAppend(a, b);
      UsesAppend(a[1..], b);
      Assoc(if a[0].ToolUse? then [a[0].call] else [], Uses(a[1..]), Uses(b));
    }
  }

  lemma {:induction false} ResultsAppend(a: seq<Block>, b: seq<Block>)
    ensures Results(a + b) == Results(a) + Results(b)
  {
    if a == [] {
      Ends(b);
      Ends(Results(b));
    } else {
      ConsAppend(a, b);
      ResultsAppend(a[1..], b);
      Assoc(if a[0].ToolResult? then [a[0].result] else [], Results(a[1..]), Results(b));
    }
  }

  lemma SingleBlock(b: Block)
    ensures Uses([b]) == if b.ToolUse? then [b.call] else []
    ensures Results([b]) == if b.ToolResult? then [b.result] else []
    ensures UseIds([b]) == if b.ToolUse? then [b.call.id] else []
    ensures ResultIds([b]) == if b.ToolResult? then [b.result.callId] else []
  {
    assert [b][1..] == [];
  }

  // ---------------------------------------------------------------- the pairing protocol

  /** Reads one message while `owed` are the calls still unanswered; None is a protocol violation. */
  function Step(m: Message, owed: seq<string>): Option<seq<string>> {
    match m.role
    case Tool =>
      var ids := ResultIds(m.content);
      if ids != [] && ids <= owed && UseIds(m.content) == [] then Some(owed[|ids|..]) else None
    case Assistant =>
      if owed == [] && ResultIds(m.content) == [] then Some(UseIds(m.content)) else None
    case _ =>
      if owed == [] && UseIds(m.content) == [] && ResultIds(m.content) == [] then Some([]) else None
  }

  function Scan(h: History, owed: seq<string>): Option<seq<string>> {
    if h == [] then Some(owed)
    else match Step(h[0], owed)
      case None => None
      case Some(o) => Scan(h[1..], o)
  }

  /** A history an LLM API accepts: every call answered in order, every result called for. */
  predicate Paired(h: History) {
    Scan(h, []) == Some([])
  }

  lemma {:induction false} ScanAppend(a: History, b: History, owed: seq<string>)
    ensures Scan(a + b, owed) == match Scan(a, owed) { case None => None case Some(o) => Scan(b, o) }
  {
    if a == [] {
      assert a + b == b;
    } else {
      assert (a + b)[1..] == a[1..] + b;
      match Step(a[0], owed) {
        case None =>
        case Some(o) => ScanAppend(a[1..], b, o);
      }
    }
  }

  lemma PairedAppend(a: History, b: History)
    requires Paired(a)
    ensures Paired(a + b) <==> Paired(b)
  {
    ScanAppend(a, b, []);
  }

  /**
   A paired history cannot be cut in front of a message that is not a tool result without both parts staying paired.
   */
  lemma PairedCut(a: History, b: History)
    requires Paired(a + b) && b != [] && b[0].role != Tool
    ensures Paired(a) && Paired(b)
  {
    ScanAppend(a, b, []);
  }

  lemma PlainStep(m: Message)
    requires m.role != Tool && UseIds(m.content) == [] && ResultIds(m.content) == []
    ensures Paired([m])
  {
    assert Scan([m], []) == Scan([m][1..], []);
  }

  // ---------------------------------------------------------------- what pairing means, without an automaton

  function AllResultIds(h: History): seq<string> {
    if h == [] then [] else ResultIds(h[0].content) + AllResultIds(h[1..])
  }

  /** One exchange: a non-tool message followed by exactly the results of its calls, in order. */
  predicate Exchange(g: History) {
    && g != []
    && g[0].role != Tool
    && ResultIds(g[0].content) == []
    && (g[0].role != Assistant ==> UseIds(g[0].content) == [])
    && (forall k | 1 <= k < |g| :: g[k].role == Tool && ResultIds(g[k].content) != [] && UseIds(g[k].content) == [])
    && AllResultIds(g[1..]) == UseIds(g[0].content)
  }

  ghost predicate Grouped(h: History) {
    h == [] || exists n :: 1 <= n <= |h| && Exchange(h[..n]) && Grouped(h[n..])
  }

  predicate ToolOnly(t: History) {
    forall k | 0 <= k < |t| :: t[k].role == Tool && ResultIds(t[k].content) != [] && UseIds(t[k].content) == []
  }

  /** A run of tool messages pays exactly the ids it carries. */
  lemma {:induction false} ToolRunPays(t: History, owed: seq<string>)
    requires ToolOnly(t) && AllResultIds(t) == owed
    ensures Scan(t, owed) == Some([])
  {
    if t != [] {
      var ids := ResultIds(t[0].content);
      assert owed[..|ids|] == ids && owed[|ids|..] == AllResultIds(t[1..]);
      ToolRunPays(t[1..], owed[|ids|..]);
    }
  }

  /** While calls are owed, an accepted history starts with the tool run that pays them. */
  lemma {:induction false} OwedRun(h: History, owed: seq<string>) returns (n: nat)
    requires Scan(h, owed) == Some([])
    ensures n <= |h| && ToolOnly(h[..n]) && AllResultIds(h[..n]) == owed
    ensures Scan(h[n..], []) == Some([])
  {
    if owed == [] {
      n := 0;
    } else {
      var ids := ResultIds(h[0].content);
      var k := OwedRun(h[1..], owed[|ids|..]);
      n := k + 1;
      assert h[..n][1..] == h[1..][..k];
      assert h[n..] == h[1..][k..];
      assert owed == ids + owed[|ids|..];
    }
  }

  lemma FirstExchange(h: History) returns (n: nat)
    requires h != [] && Paired(h)
    ensures 1 <= n <= |h| && Exchange(h[..n]) && Paired(h[n..])
  {
    var t := h[1..];
    var k := OwedRun(t, UseIds(h[0].content));
    n := k + 1;
    var g := h[..n];
    assert g[1..] == t[..k];
    assert h[n..] == t[k..];
    forall j | 1 <= j < |g|
      ensures g[j].role == Tool && ResultIds(g[j].content) != [] && UseIds(g[j].content) == []
    {
      assert g[j] == t[..k][j - 1];
    }
  }

  lemma ExchangePaired(g: History)
    requires Exchange(g)
    ensures Paired(g)
  {
    assert Step(g[0], []) == Some(UseIds(g[0].content));
    assert ToolOnly(g[1..]);
    ToolRunPays(g[1..], UseIds(g[0].content));
  }

  lemma ExchangeThenPaired(h: History, n: nat)
    requires n <= |h| && Exchange(h[..n]) && Paired(h[n..])
    ensures Paired(h)
  {
    ExchangePaired(h[..n]);
    PairedAppend(h[..n], h[n..]);
    assert h[..n] + h[n..] == h;
  }

  /** The automaton accepts exactly the histories that are sequences of complete exchanges. */
  lemma {:induction false} PairedIffGrouped(h: History)
    ensures Paired(h) <==> Grouped(h)
    decreases |h|
  {
    if h != [] {
      if Paired(h) {
        var n := FirstExchange(h);
        PairedIffGrouped(h[n..]);
      }
      if Grouped(h) {
        var n :| 1 <= n <= |h| && Exchange(h[..n]) && Grouped(h[n..]);
        PairedIffGrouped(h[n..]);
        ExchangeThenPaired(h, n);
      }
    }
  }

  /** Results conserved: calls opened minus calls answered is what stays owed. */
  lemma {:induction false} CallsBalanceResults(h: History, owed: seq<string>)
    requires Scan(h, owed).Some?
    ensures |owed| + |AllUses(h)| == |Scan(h, owed).value| + |AllResultIds(h)|
  {
    if h != [] {
      CallsBalanceResults(h[1..], Step(h[0], owed).value);
    }
  }

  function AllUses(h: History): seq<Call> {
    if h == [] then [] else Uses(h[0].content) + AllUses(h[1..])
  }
}
