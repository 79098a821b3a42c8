/** The two byte-scanning token estimators: the context builder's and the pruner's. */
module TokenEstimate {
  import opened Texts
  import opened Messages
  import opened Utf8

  /** Bytes the scan skips for a byte: a lead byte skips its whole character, even past the end. */
  function Width(c: char): nat {
    var b := c as int;
    if b >= 0xF0 then 4 else if b >= 0xE0 then 3 else if b >= 0xC0 then 2 else 1
  }

  function After(s: string): string
    requires s != []
  {
    s[Min(Width(s[0]), |s|)..]
  }

  /** Multi-byte characters met by a scan from the start. */
  function Leads(s: string): nat
    decreases |s|
  {
    if s == [] then 0 else (if Width(s[0]) > 1 then 1 else 0) + Leads(After(s))
  }

  /** Single bytes met by a scan from the start. */
  function Singles(s: string): nat
    decreases |s|
  {
    if s == [] then 0 else (if Width(s[0]) > 1 then 0 else 1) + Singles(After(s))
  }

  function CeilQuarter(n: nat): nat {
    (n + 3) / 4
  }

  function TextTokens(s: string): nat {
    Leads(s) + CeilQuarter(Singles(s))
  }

  function PrunerTokens(s: string): nat {
    Leads(s) + Max(1, Singles(s) / 4)
  }

  lemma ScanStep(s: string, i: nat)
    requires i < |s|
    ensures After(s[i..]) == if i + Width(s[i]) <= |s| then s[i + Width(s[i])..] else []
  {
  }

  /** ContextBuilder::estimate_text_tokens. */
  method EstimateTextTokens(text: string) returns (tokens: nat)
    ensures tokens == TextTokens(text)
  {
    tokens := 0;
    var asciiCount := 0;
    var i := 0;
    ghost var singles := 0;
    while i < |text|
      invariant 0 <= i && 0 <= asciiCount < 4
      invariant asciiCount == singles % 4
      invariant tokens + Leads(text[Min(i, |text|)..]) == Leads(text) + singles / 4
      invariant singles + Singles(text[Min(i, |text|)..]) == Singles(text)
    {
      var c := text[i] as int;
      ScanStep(text, i);
      if c >= 0xF0 {
        tokens := tokens + 1;
        i := i + 4;
      } else if c >= 0xE0 {
        tokens := tokens + 1;
        i := i + 3;
      } else if c >= 0xC0 {
        tokens := tokens + 1;
        i := i + 2;
      } else {
        singles := singles + 1;
        asciiCount := asciiCount + 1;
        i := i + 1;
        if asciiCount == 4 {
          tokens := tokens + 1;
          asciiCount := 0;
        }
      }
    }
    if asciiCount > 0 {
      tokens := tokens + 1;
    }
  }

  /** The pruner's own estimator. */
  method EstimatePrunerTokens(text: string) returns (tokens: nat)
    ensures tokens == PrunerTokens(text)
  {
    var cjk, ascii := 0, 0;
    var i := 0;
    while i < |text|
      invariant 0 <= i
      invariant cjk + Leads(text[Min(i, |text|)..]) == Leads(text)
      invariant ascii + Singles(text[Min(i, |text|)..]) == Singles(text)
    {
      var c := text[i] as int;
      ScanStep(text, i);
      if c >= 0xF0 {
        cjk, i := cjk + 1, i + 4;
      } else if c >= 0xE0 {
        cjk, i := cjk + 1, i + 3;
      } else if c >= 0xC0 {
        cjk, i := cjk + 1, i + 2;
      } else {
        ascii, i := ascii + 1, i + 1;
      }
    }
    tokens := cjk + Max(1, ascii / 4);
  }

  // ---------------------------------------------------------------- laws

  /** A scan of `s` ends exactly at its end. */
  predicate AtBoundary(s: string)
    decreases |s|
  {
    s == [] || (Width(s[0]) <= |s| && AtBoundary(s[Width(s[0])..]))
  }

  lemma {:induction false} ScanConcat(a: string, b: string)
    requires AtBoundary(a)
    ensures Leads(a + b) == Leads(a) + Leads(b)
    ensures Singles(a + b) == Singles(a) + Singles(b)
    decreases |a|
  {
    if a == [] {
      assert a + b == b;
    } else {
      var w := Width(a[0]);
      assert (a + b)[w..] == a[w..] + b;
      ScanConcat(a[w..], b);
    }
  }

  /** Splitting a text between characters never lowers the estimate, and adds at most one token. */
  lemma SplitEstimate(a: string, b: string)
    requires AtBoundary(a)
    ensures TextTokens(a + b) <= TextTokens(a) + TextTokens(b) <= TextTokens(a + b) + 1
  {
    ScanConcat(a, b);
  }

  /** The two estimators never differ by more than one token; they differ below exactly on single-free texts. */
  lemma EstimatorsAgree(s: string)
    ensures -1 <= PrunerTokens(s) - TextTokens(s) <= 1
    ensures PrunerTokens(s) > TextTokens(s) <==> Singles(s) == 0
    ensures PrunerTokens(s) < TextTokens(s) <==> Singles(s) > 4 && Singles(s) % 4 != 0
  {
  }

  /** Every byte is scanned at most once and each token covers at most four of them. */
  lemma {:induction false} EstimateBounds(s: string)
    ensures Leads(s) + Singles(s) <= |s| <= 4 * Leads(s) + Singles(s)
    ensures |s| <= 4 * TextTokens(s)
    decreases |s|
  {
    if s != [] {
      EstimateBounds(After(s));
    }
  }

  // ---------------------------------------------------------------- characters

  lemma {:induction false} CharactersAreScanned(cs: seq<string>)
    requires Characters(cs)
    ensures Leads(TextOf(cs)) == Wide(cs) && Singles(TextOf(cs)) == |cs| - Wide(cs) && AtBoundary(TextOf(cs))
  {
    if cs != [] {
      var s, rest := TextOf(cs), TextOf(cs[1..]);
      assert Character(cs[0]);
      assert s == cs[0] + rest && s[0] == cs[0][0] && Width(s[0]) == |cs[0]|;
      assert s[|cs[0]|..] == rest;
      assert forall k | 0 <= k < |cs[1..]| :: cs[1..][k] == cs[k + 1];
      CharactersAreScanned(cs[1..]);
    }
  }

  lemma Costs(t: string, leads: nat, singles: nat)
    requires Leads(t) == leads && Singles(t) == singles
    ensures TextTokens(t) == leads + (singles + 3) / 4 && PrunerTokens(t) == leads + Max(1, singles / 4)
  {
    hide Leads, Singles;
  }

  /** A text costs a token for each wide character and one for every four of the others, a rest counting as four. */
  lemma TokensOfText(cs: seq<string>)
    requires Characters(cs)
    ensures TextTokens(TextOf(cs)) == Wide(cs) + (|cs| - Wide(cs) + 3) / 4
    ensures PrunerTokens(TextOf(cs)) == Wide(cs) + Max(1, (|cs| - Wide(cs)) / 4)
  {
    hide *;
    WideBound(cs);
    CharactersAreScanned(cs);
    Costs(TextOf(cs), Wide(cs), |cs| - Wide(cs));
  }

  // ---------------------------------------------------------------- messages

  function BlockTokens(b: Block): nat {
    match b
    case Text(t, _) => PrunerTokens(t)
    case ToolResult(r) => PrunerTokens(r.output)
    case ToolUse(c) => PrunerTokens(c.name) + PrunerTokens(c.arguments)
    case Media(_) => 0
  }

  function ContentTokens(content: seq<Block>): nat {
    if content == [] then 0 else BlockTokens(content[0]) + ContentTokens(content[1..])
  }

  function HistoryTokens(h: History): nat {
    if h == [] then 0 else ContentTokens(h[0].content) + HistoryTokens(h[1..])
  }

  /** What a history of one block costs: its text, or what a call or a result says; media cost nothing. */
  lemma OneBlockCosts(role: Role, b: Block)
    ensures HistoryTokens([Message(role, [b])])
         == match b
            case Text(t, _) => PrunerTokens(t)
            case ToolResult(r) => PrunerTokens(r.output)
            case ToolUse(c) => PrunerTokens(c.name) + PrunerTokens(c.arguments)
            case Media(_) => 0
  {
    var m := Message(role, [b]);
    assert [b][1..] == [] && [m][1..] == [];
    assert HistoryTokens([m]) == ContentTokens([b]) + HistoryTokens([m][1..]) == ContentTokens([b]);
    assert ContentTokens([b]) == BlockTokens(b) + ContentTokens([b][1..]) == BlockTokens(b);
  }

  lemma {:induction false} ContentTokensAppend(a: seq<Block>, b: seq<Block>)
    ensures ContentTokens(a + b) == ContentTokens(a) + ContentTokens(b)
  {
    if a == [] {
      assert a + b == b;
    } else {
      assert (a + b)[1..] == a[1..] + b;
      ContentTokensAppend(a[1..], b);
    }
  }

  lemma {:induction false} HistoryTokensAppend(a: History, b: History)
    ensures HistoryTokens(a + b) == HistoryTokens(a) + HistoryTokens(b)
  {
    if a == [] {
      assert a + b == b;
    } else {
      assert (a + b)[1..] == a[1..] + b;
      HistoryTokensAppend(a[1..], b);
    }
  }

  /** ContextPruner::estimate_tokens of one message. */
  method EstimateMessageTokens(msg: Message) returns (count: nat)
    ensures count == ContentTokens(msg.content)
  {
    count := 0;
    var i := 0;
    while i < |msg.content|
      invariant 0 <= i <= |msg.content|
      invariant count + ContentTokens(msg.content[i..]) == ContentTokens(msg.content)
    {
      var block := msg.content[i];
      assert msg.content[i..][1..] == msg.content[i + 1..];
      if block.Text? {
        var n := EstimatePrunerTokens(block.text);
        count := count + n;
      } else if block.ToolResult? {
        var n := EstimatePrunerTokens(block.result.output);
        count := count + n;
      } else if block.ToolUse? {
        var n := EstimatePrunerTokens(block.call.name);
        var k := EstimatePrunerTokens(block.call.arguments);
        count := count + n + k;
      }
      i := i + 1;
    }
  }

  method EstimateHistoryTokens(msgs: History) returns (total: nat)
    ensures total == HistoryTokens(msgs)
  {
    total := 0;
    var i := 0;
    while i < |msgs|
      invariant 0 <= i <= |msgs|
      invariant total + HistoryTokens(msgs[i..]) == HistoryTokens(msgs)
    {
      assert msgs[i..][1..] == msgs[i + 1..];
      var n := EstimateMessageTokens(msgs[i]);
      total := total + n;
      i := i + 1;
    }
  }
}
