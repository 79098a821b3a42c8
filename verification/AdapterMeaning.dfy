/** What the wire forms carry of a history: every text, every call with its arguments, every result with its output. */
module AdapterMeaning {
  import opened Wrappers
  import opened Messages
  import opened Adapter
  import opened Conversation
  import opened Sequences

  /** How many elements a message becomes. */
  function Elements(m: Message): nat {
    if m.role == Tool && Results(m.content) != [] then |Results(m.content)| else 1
  }

  /** Element `k` of a message: its text and calls, or its result number `k`. */
  predicate Tells(w: Wire, m: Message, k: nat) {
    if m.role != Tool then w == Wire(m.role, AllText(m.content), None, Uses(m.content))
    else if k < |Results(m.content)| then
      w == Wire(Tool, Results(m.content)[k].output, Some(Results(m.content)[k].callId), [])
    else w == Wire(Tool, "", None, [])
  }

  lemma FormatTells(m: Message)
    ensures Tells(OpenAiFormat(m), m, 0)
  {
    if m.role != Tool && |m.content| == 1 {
      assert m.content == [m.content[0]];
      SingleBlock(m.content[0]);
      assert m.content[1..] == [];
      assert TextFrom(m.content[1..], "") == "";
      if m.content[0].Text? {
        assert TextFrom(m.content, "") == TextFrom(m.content[1..], m.content[0].text);
      }
    }
  }

  lemma {:induction false} ResultsTold(results: seq<CallResult>)
    ensures |ResultWires(results)| == |results|
    ensures forall k | 0 <= k < |results| ::
              ResultWires(results)[k] == Wire(Tool, results[k].output, Some(results[k].callId), [])
  {
    if results != [] {
      ResultsTold(results[1..]);
      assert forall k | 0 < k < |results| :: results[k] == results[1..][k - 1];
    }
  }

  /** Where the elements of message `i` start. */
  function Start(h: History, i: nat): nat
    requires i <= |h|
  {
    if i == 0 then 0 else Start(h, i - 1) + Elements(h[i - 1])
  }

  lemma MessageTold(m: Message)
    ensures |WiresOf(m)| == Elements(m) && forall k | 0 <= k < Elements(m) :: Tells(WiresOf(m)[k], m, k)
  {
    ResultsTold(Results(m.content));
    FormatTells(m);
    hide AllText, Uses, Results, OpenAiFormat, ResultWires;
  }

  lemma {:induction false} OpenAiAppend(a: History, b: History)
    ensures OpenAiMessages(a + b) == OpenAiMessages(a) + OpenAiMessages(b)
  {
    hide WiresOf;
    if a == [] {
      Ends(b);
      Ends(OpenAiMessages(b));
    } else {
      ConsAppend(a, b);
      OpenAiAppend(a[1..], b);
      Assoc(WiresOf(a[0]), OpenAiMessages(a[1..]), OpenAiMessages(b));
    }
  }

  lemma OpenAiNext(h: History, i: nat)
    requires i < |h|
    ensures OpenAiMessages(h[..i + 1]) == OpenAiMessages(h[..i]) + WiresOf(h[i])
  {
    hide WiresOf;
    PrefixStep(h, i);
    OpenAiAppend(h[..i], [h[i]]);
    Ends(WiresOf(h[i]));
    assert OpenAiMessages([h[i]]) == WiresOf(h[i]) + OpenAiMessages([h[i]][1..]);
  }

  lemma {:induction false} StartIs(h: History, i: nat)
    requires i <= |h|
    ensures |OpenAiMessages(h[..i])| == Start(h, i)
  {
    if i > 0 {
      StartIs(h, i - 1);
      OpenAiNext(h, i - 1);
      MessageTold(h[i - 1]);
      hide Elements, WiresOf, OpenAiMessages;
    }
  }

  /** The split array tells every message of the history, in order, and holds nothing else. */
  lemma ArrayTells(h: History, i: nat, k: nat)
    requires i < |h| && k < Elements(h[i])
    ensures |OpenAiMessages(h)| == Start(h, |h|)
    ensures Start(h, i) + k < |OpenAiMessages(h)| && Tells(OpenAiMessages(h)[Start(h, i) + k], h[i], k)
  {
    hide Elements, Tells, WiresOf, Start, OpenAiMessages;
    var before, after := OpenAiMessages(h[..i]), OpenAiMessages(h[i + 1..]);
    StartIs(h, i);
    StartIs(h, |h|);
    MessageTold(h[i]);
    assert OpenAiMessages(h) == before + WiresOf(h[i]) + after by {
      OpenAiNext(h, i);
      OpenAiAppend(h[..i + 1], h[i + 1..]);
      assert h == h[..i + 1] + h[i + 1..];
    }
    assert h[..|h|] == h;
    Told(before, WiresOf(h[i]), after, k);
  }

  lemma Told(before: seq<Wire>, ws: seq<Wire>, after: seq<Wire>, k: nat)
    requires k < |ws|
    ensures |before| + k < |before + ws + after| && (before + ws + after)[|before| + k] == ws[k]
  {
  }

  /** The history's own array has one element per message, and of a tool message's results only the first. */
  lemma {:induction false} HistoryArrayTells(h: History)
    ensures |HistoryWires(h)| == |h|
    ensures forall i | 0 <= i < |h| :: Tells(HistoryWires(h)[i], h[i], 0)
  {
    if h != [] {
      HistoryArrayTells(h[1..]);
      FormatTells(h[0]);
      hide Tells, OpenAiFormat;
      assert forall i | 0 < i < |h| :: h[i] == h[1..][i - 1];
    }
  }

  // ---------------------------------------------------------------- Anthropic form

  predicate PartTells(p: Part, b: Block) {
    match b
    case Text(t, _) => p == TextPart(t)
    case ToolUse(c) => p == UsePart(c)
    case ToolResult(r) => p == ResultPart(r.callId, r.output)
    case Media(_) => false
  }

  function NoMedia(content: seq<Block>): seq<Block> {
    if content == [] then [] else NoMedia(Front(content)) + if Last(content).Media? then [] else [Last(content)]
  }

  lemma {:induction false} PartsAppend(a: seq<Block>, b: seq<Block>)
    ensures Parts(a + b) == Parts(a) + Parts(b)
  {
    if a == [] {
      Ends(b);
      Ends(Parts(b));
    } else {
      ConsAppend(a, b);
      PartsAppend(a[1..], b);
      Assoc(PartOf(a[0]), Parts(a[1..]), Parts(b));
    }
  }

  lemma {:induction false} PartsTell(content: seq<Block>)
    ensures |Parts(content)| == |NoMedia(content)|
    ensures forall k | 0 <= k < |Parts(content)| :: PartTells(Parts(content)[k], NoMedia(content)[k])
  {
    if content != [] {
      var f, b := Front(content), Last(content);
      assert content == f + [b] && [b][1..] == [];
      PartsTell(f);
      PartsAppend(f, [b]);
      Ends(PartOf(b));
      assert Parts([b]) == PartOf(b) + Parts([b][1..]);
    }
  }

  /** A turn tells a message: results travel under the user role, and every block but media is told. */
  predicate TurnTells(t: ApiTurn, m: Message) {
    && t.role == (match m.role case Tool => User case r => r)
    && |t.parts| == |NoMedia(m.content)|
    && forall k | 0 <= k < |t.parts| :: PartTells(t.parts[k], NoMedia(m.content)[k])
  }

  lemma FirstTurnTells(h: History)
    requires h != [] && h[0].role != System
    ensures var turn := ApiTurn(AnthropicRole(h[0].role), Parts(h[0].content));
            && AnthropicMessages(h) == [turn] + AnthropicMessages(h[1..]) && NoSystem(h) == [h[0]] + NoSystem(h[1..])
            && TurnTells(turn, h[0])
  {
    PartsTell(h[0].content);
    hide Parts, NoMedia;
  }

  predicate AllTell(ts: seq<ApiTurn>, ms: History) {
    |ts| == |ms| && forall i | 0 <= i < |ms| :: TurnTells(ts[i], ms[i])
  }

  lemma AllTellCons(t: ApiTurn, ts: seq<ApiTurn>, m: Message, ms: History)
    requires TurnTells(t, m) && AllTell(ts, ms)
    ensures AllTell([t] + ts, [m] + ms)
  {
    hide TurnTells;
  }

  /** The Anthropic array tells every message but the system's, in order, and holds nothing else. */
  lemma {:induction false} TurnsTell(h: History)
    ensures AllTell(AnthropicMessages(h), NoSystem(h))
  {
    if h != [] {
      var t := h[1..];
      TurnsTell(t);
      if h[0].role == System {
        hide AllTell;
        Ends(AnthropicMessages(t));
        Ends(NoSystem(t));
      } else {
        hide AllTell, TurnTells, Parts, AnthropicMessages, NoSystem;
        FirstTurnTells(h);
        AllTellCons(ApiTurn(AnthropicRole(h[0].role), Parts(h[0].content)), AnthropicMessages(t), h[0], NoSystem(t));
      }
    }
  }

  /** Each API gets the array of its own form. */
  lemma PayloadTells(api: Api, view: History)
    ensures match (api, PayloadOf(api, view))
            case (OpenAi, OpenAiArray(wires)) =>
              |wires| == |view| && forall i | 0 <= i < |view| :: Tells(wires[i], view[i], 0)
            case (Anthropic, AnthropicArray(turns)) =>
              AllTell(turns, NoSystem(view))
            case _ => false
  {
    HistoryArrayTells(view);
    TurnsTell(view);
    hide Tells, AllTell, NoSystem, HistoryWires, AnthropicMessages;
  }
}
