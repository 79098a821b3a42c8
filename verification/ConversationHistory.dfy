/**
 The shared history with its cached pruned view. After messages are appended the view is recomputed
 incrementally: the frozen front is copied from the cache, the rest is pruned again.
 */
module Conversation {
  import opened Wrappers
  import opened Texts
  import opened Messages
  import opened ContextPruner
  import opened PrunerLaws
  import opened Sequences
  import opened TokenEstimate
  import opened Adapter

  // ---------------------------------------------------------------- the incremental view as a function

  /** First index below `n` whose assistant may still change zone. */
  function FreezeEnd(depths: seq<int>, n: nat, threshold: int, i: nat): (r: nat)
    requires i <= n <= |depths|
    ensures i <= r <= n
    ensures forall j | i <= j < r :: depths[j] <= 0 || depths[j] > threshold
    ensures r < n ==> 0 < depths[r] <= threshold
    decreases n - i
  {
    if i < n && !(0 < depths[i] <= threshold) then FreezeEnd(depths, n, threshold, i + 1) else i
  }

  /** Tool messages below `n` that the incremental path believes were stripped. */
  function AssumedStripped(h: History, n: nat, o: Options): (r: nat)
    requires n <= |h|
    ensures r <= n
  {
    if n == 0 then 0
    else AssumedStripped(h, n - 1, o)
         + if h[n - 1].role == Tool && Governing(h, n - 1) > 0 && Governing(h, n - 1) > o.hardPruneAfter then 1 else 0
  }

  function Boundary(h: History, prev: nat, o: Options): (f: nat)
    requires prev <= |h|
    ensures f <= prev
  {
    FreezeEnd(Depths(h), prev, o.hardPruneAfter + Assistants(h[prev..]), 0)
  }

  /**
   The view after an append: `cached` is the view of the first `prev` messages. None when the copy
   runs past the end of the cache, which in C++ is undefined behaviour.
   */
  function IncrementalView(h: History, cached: History, prev: nat, o: Options): Option<History>
    requires prev <= |h|
  {
    var f := Boundary(h, prev, o);
    if prev == 0 || cached == [] || f == 0 then Some(Pruned(h, o).messages)
    else
      var copied := f - AssumedStripped(h, f, o);
      if copied > |cached| then None
      else Some(cached[..copied] + PruneFrom(h[f..], Governing(h, f), 0, o).messages)
  }

  // ---------------------------------------------------------------- when it equals full pruning

  /** The zones do not overlap: nothing is both protected and beyond the stripping depth. */
  predicate SeparateZones(o: Options) {
    o.protectRecent <= o.hardPruneAfter || o.protectRecent <= 0
  }

  predicate AllSurvive(h: History) {
    forall m | m in h && m.role == Assistant :: Survives(m)
  }

  /** Every assistant of `h`, with `after` more following, is beyond the stripping depth. */
  predicate Deep(h: History, after: nat, o: Options) {
    forall i | 0 <= i < |h| && h[i].role == Assistant :: Assistants(h[i..]) + after > o.hardPruneAfter
  }

  lemma DeepTail(h: History, after: nat, o: Options)
    requires h != [] && Deep(h, after, o)
    ensures Deep(h[1..], after, o)
  {
    forall i | 0 <= i < |h[1..]| && h[1..][i].role == Assistant
      ensures Assistants(h[1..][i..]) + after > o.hardPruneAfter
    {
      assert h[1..][i..] == h[i + 1..];
      assert h[i + 1].role == Assistant;
    }
  }

  predicate SettledDepth(d: int, o: Options) {
    d == -1 || (d > o.hardPruneAfter && d > 0)
  }

  lemma SettledMessage(m: Message, d1: int, d2: int, o: Options)
    requires SeparateZones(o) && SettledDepth(d1, o) && SettledDepth(d2, o)
    requires (d1 == -1 <==> d2 == -1) && (m.role == Assistant ==> d1 != -1)
    ensures PruneMessage(m, d1, o) == PruneMessage(m, d2, o)
    ensures d1 != -1 ==> Stripped(d1, o)
  {
  }

  lemma DeepHead(h: History, after: nat, o: Options)
    requires h != [] && Deep(h, after, o) && h[0].role == Assistant
    ensures SettledDepth(Assistants(h) + after, o) && Assistants(h) + after > 0
  {
    assert h[0..] == h;
  }

  /** A deep prefix prunes the same however many assistants follow. */
  lemma {:induction false} DeepPrefixIsStable(h: History, g1: int, g2: int, a1: nat, a2: nat, o: Options)
    requires SeparateZones(o) && Deep(h, a1, o) && Deep(h, a2, o)
    requires SettledDepth(g1, o) && SettledDepth(g2, o) && (g1 == -1 <==> g2 == -1)
    ensures PruneFrom(h, g1, a1, o) == PruneFrom(h, g2, a2, o)
  {
    if h != [] {
      if h[0].role == Assistant {
        DeepHead(h, a1, o);
        DeepHead(h, a2, o);
      }
      var d1 := if h[0].role == Assistant then Assistants(h) + a1 else g1;
      var d2 := if h[0].role == Assistant then Assistants(h) + a2 else g2;
      DeepTail(h, a1, o);
      DeepTail(h, a2, o);
      SettledMessage(h[0], d1, d2, o);
      DeepPrefixIsStable(h[1..], d1, d2, a1, a2, o);
    }
  }

  lemma {:induction false} DeepPrefixEmptied(h: History, gov: int, after: nat, o: Options)
    requires SeparateZones(o) && Deep(h, after, o)
    ensures Emptied(h, gov, after, o) == 0 <==> AllSurvive(h)
  {
    if h != [] {
      var d := gov;
      if h[0].role == Assistant {
        DeepHead(h, after, o);
        d := Assistants(h) + after;
        SettledMessage(h[0], d, d, o);
      }
      DeepTail(h, after, o);
      DeepPrefixEmptied(h[1..], d, after, o);
      assert h == [h[0]] + h[1..];
    }
  }

  lemma OneStripped(m: Message, gov: int, after: nat, o: Options)
    requires SeparateZones(o)
    ensures PruneFrom([m], gov, after, o).strippedMsgs
         == if m.role == Tool && gov > 0 && gov > o.hardPruneAfter then 1 else 0
  {
    PruneFromUnfolds([m], gov, after, o, if m.role == Assistant then Assistants([m]) + after else gov);
    assert [m][1..] == [];
  }

  lemma SplitBefore(h: History, n: nat)
    requires 0 < n <= |h|
    ensures h[..n] == h[..n - 1] + [h[n - 1]] && h[n - 1..] == [h[n - 1]] + h[n..]
  {
  }

  /** With separate zones the tool messages believed stripped are the ones pruning stripped. */
  lemma {:induction false} AssumptionIsRight(h: History, n: nat, o: Options)
    requires n <= |h| && SeparateZones(o)
    ensures AssumedStripped(h, n, o) == PruneFrom(h[..n], -1, Assistants(h[n..]), o).strippedMsgs
  {
    hide PruneFrom, GovAfter, PruneMessage, Assistants, Governing;
    if n > 0 {
      var m, front, rest := h[n - 1], h[..n - 1], h[n..];
      AssumptionIsRight(h, n - 1, o);
      SplitBefore(h, n);
      AssistantsAppend([m], rest);
      PruneSplit(front, [m], -1, Assistants(rest), o);
      GoverningIsGovAfter(h, n - 1);
      OneStripped(m, Governing(h, n - 1), Assistants(rest), o);
    } else {
      Ends(h);
      PruneNothing(-1, Assistants(h), o);
    }
  }

  lemma BoundaryIsDeep(h: History, prev: nat, o: Options)
    requires prev <= |h|
    ensures Deep(h[..Boundary(h, prev, o)], Assistants(h[Boundary(h, prev, o)..prev]), o)
    ensures Deep(h[..Boundary(h, prev, o)], Assistants(h[Boundary(h, prev, o)..]), o)
  {
    var f := Boundary(h, prev, o);
    var pre, mid, t := h[..f], h[f..prev], h[prev..];
    assert h[f..] == mid + t;
    AssistantsAppend(mid, t);
    forall i | 0 <= i < |pre| && pre[i].role == Assistant
      ensures Assistants(pre[i..]) + Assistants(mid) > o.hardPruneAfter
    {
      assert h[i..] == pre[i..] + h[f..];
      AssistantsAppend(pre[i..], h[f..]);
      assert Depths(h)[i] == Assistants(h[i..]);
    }
  }

  /** How much of the cache is copied: what the front pruned to, plus one per message stripping deleted. */
  lemma CopiedCount(h: History, prev: nat, o: Options) returns (front: History, rest: History)
    requires prev <= |h| && SeparateZones(o)
    ensures var f := Boundary(h, prev, o);
            && Pruned(h[..prev], o).messages == front + rest
            && Pruned(h, o).messages == front + PruneFrom(h[f..], Governing(h, f), 0, o).messages
            && f - AssumedStripped(h, f, o) >= |front|
            && (f - AssumedStripped(h, f, o) == |front| <==> AllSurvive(h[..f]))
  {
    var seen, f := h[..prev], Boundary(h, prev, o);
    var pre, mid, tail := h[..f], Assistants(h[f..prev]), Assistants(h[f..]);
    assert seen[..f] == pre && seen[f..] == h[f..prev];
    FullPruneSplits(seen, f, o);
    FullPruneSplits(h, f, o);
    BoundaryIsDeep(h, prev, o);
    DeepPrefixIsStable(pre, -1, -1, mid, tail, o);
    AssumptionIsRight(h, f, o);
    PruneConserves(pre, -1, tail, o);
    DeepPrefixEmptied(pre, -1, tail, o);
    front := PruneFrom(pre, -1, tail, o).messages;
    rest := PruneFrom(seen[f..], Governing(seen, f), 0, o).messages;
  }

  /**
   With separate zones, the incremental view of a history equals its full pruning if and only if there
   was nothing in the cache or no assistant message in front of the boundary is one that stripping deletes.
   */
  lemma IncrementalIsExactIff(h: History, prev: nat, o: Options)
    requires prev <= |h| && SeparateZones(o)
    ensures IncrementalView(h, Pruned(h[..prev], o).messages, prev, o) == Some(Pruned(h, o).messages)
       <==> Pruned(h[..prev], o).messages == [] || AllSurvive(h[..Boundary(h, prev, o)])
  {
    var f := Boundary(h, prev, o);
    if prev > 0 && f > 0 {
      var front, rest := CopiedCount(h, prev, o);
      var copied := f - AssumedStripped(h, f, o);
      var cached := Pruned(h[..prev], o).messages;
      assert cached[..|front|] == front;
      if |front| < copied <= |cached| {
        assert |cached[..copied]| > |front|;
      }
    }
  }

  // ---------------------------------------------------------------- options for which it never fails

  ghost predicate AlwaysExact(o: Options) {
    forall h: History, prev: nat | prev <= |h| && AllSurvive(h) && Paired(h[..prev]) ::
      IncrementalView(h, Pruned(h[..prev], o).messages, prev, o) == Some(Pruned(h, o).messages)
  }

  ghost predicate AlwaysPaired(o: Options) {
    forall h: History, prev: nat | prev <= |h| && AllSurvive(h) && Paired(h) && Paired(h[..prev]) ::
      var v := IncrementalView(h, Pruned(h[..prev], o).messages, prev, o);
      v.Some? && Paired(v.value)
  }

  const CALLER := Message(Assistant, [ToolUse(Call("c", "t", "{}"))])
  const ANSWER := Message(Tool, [ToolResult(CallResult("c", "t", "", true))])
  const REPLY := TextMessage(Assistant, "ok")

  function Replies(n: nat): (h: History)
    ensures |h| == n
    ensures forall i | 0 <= i < n :: h[i] == REPLY
  {
    if n == 0 then [] else [REPLY] + Replies(n - 1)
  }

  /** A call and its answer, then `n` plain replies. */
  function Exposing(n: nat): History {
    [CALLER, ANSWER] + Replies(n)
  }

  lemma {:induction false} RepliesPaired(n: nat)
    ensures Paired(Replies(n)) && Assistants(Replies(n)) == n
  {
    if n > 0 {
      RepliesPaired(n - 1);
      assert Replies(n)[1..] == Replies(n - 1);
      assert Uses(REPLY.content) == Uses(REPLY.content[1..]) && Results(REPLY.content) == Results(REPLY.content[1..]);
    }
  }

  lemma CallIsOwed()
    ensures Step(CALLER, []) == Some(["c"]) && Step(ANSWER, ["c"]) == Some([]) && Step(REPLY, ["c"]) == None
    ensures Survives(CALLER) && Survives(REPLY)
  {
    SingleBlock(CALLER.content[0]);
    SingleBlock(ANSWER.content[0]);
    assert ["c"] <= ["c"] && ["c"][1..] == [];
    assert SpokenText(REPLY.content) == [REPLY.content[0]] + SpokenText(REPLY.content[1..]);
  }

  lemma CallThenAnswer()
    ensures Paired([CALLER, ANSWER])
  {
    CallIsOwed();
    hide Step;
    assert [CALLER, ANSWER][1..] == [ANSWER] && [ANSWER][1..] == [];
    assert Scan([ANSWER], ["c"]) == Scan([], []);
  }

  lemma ExposingIsPaired(n: nat)
    ensures Paired(Exposing(n)) && AllSurvive(Exposing(n))
  {
    hide Scan, Step, Survives, Assistants;
    CallIsOwed();
    RepliesPaired(n);
    CallThenAnswer();
    PairedAppend([CALLER, ANSWER], Replies(n));
    assert forall m | m in Exposing(n) :: m == CALLER || m == ANSWER || m == REPLY;
  }

  lemma ExposingDepths(n: nat)
    ensures Exposing(n)[2..] == Replies(n) && |Exposing(n)| == n + 2
    ensures Governing(Exposing(n), 1) == n + 1 == Governing(Exposing(n), 2)
    ensures Depths(Exposing(n))[0] == n + 1 && Depths(Exposing(n))[1] == -1
    ensures n > 0 ==> Depths(Exposing(n))[2] == n
  {
    var h := Exposing(n);
    RepliesPaired(n);
    assert h[2..] == Replies(n) && h[1..] == [ANSWER] + Replies(n) && h[0..] == h;
    assert h[1..][1..] == Replies(n);
    assert Assistants(h) == 1 + Assistants(h[1..]) && Assistants(h[1..]) == Assistants(h[1..][1..]);
  }

  lemma ReplyPrunesToItself(d: int, o: Options)
    ensures PruneMessage(REPLY, d, o).messages == [REPLY]
  {
    var c := REPLY.content;
    assert c == [c[0]] && c[1..] == [];
    assert SpokenText(c) == [c[0]] + SpokenText(c[1..]);
    assert SoftBlocks(c, o) == [c[0]] + SoftBlocks(c[1..], o);
    assert SoftBlocks(c, o) == c && StrippedContent(c) == c;
  }

  lemma {:induction false} RepliesSnoc(n: nat)
    ensures Replies(n + 1) == Replies(n) + [REPLY]
  {
    if n > 0 {
      RepliesSnoc(n - 1);
    }
  }

  lemma ExposingPrefix(n: nat)
    ensures Exposing(n + 1)[..n + 2] == Exposing(n) && Exposing(n + 1)[n + 2..] == [REPLY]
  {
    RepliesSnoc(n);
    assert Exposing(n + 1) == Exposing(n) + [REPLY];
  }

  lemma ExposingCut(n: nat, o: Options)
    requires n == Max(0, o.hardPruneAfter)
    ensures Boundary(Exposing(n + 1), n + 2, o) == 2 && AssumedStripped(Exposing(n + 1), 2, o) == 1
  {
    var h := Exposing(n + 1);
    ExposingDepths(n + 1);
    ExposingPrefix(n);
    assert [REPLY][1..] == [];
    assert Assistants(h[n + 2..]) == 1;
    var d, t := Depths(h), o.hardPruneAfter + 1;
    assert FreezeEnd(d, n + 2, t, 0) == FreezeEnd(d, n + 2, t, 1) == FreezeEnd(d, n + 2, t, 2) == 2;
    assert AssumedStripped(h, 1, o) == AssumedStripped(h, 0, o) == 0;
  }

  lemma ExposingCache(n: nat, o: Options)
    requires n == Max(0, o.hardPruneAfter) && !SeparateZones(o)
    ensures Pruned(Exposing(n), o).messages != [] && Pruned(Exposing(n), o).messages[0] == CALLER
  {
    var h := Exposing(n);
    ExposingDepths(n);
    assert h[0..] == h;
    assert PruneMessage(CALLER, n + 1, o).messages == [CALLER];
  }

  lemma CallThenReply(back: History)
    requires back != [] && back[0] == REPLY
    ensures !Paired([CALLER] + back)
  {
    CallIsOwed();
    hide Step;
    assert ([CALLER] + back)[1..] == back;
    assert Scan([CALLER] + back, []) == Scan(back, ["c"]) == None;
  }

  lemma ExposingRest(n: nat, o: Options)
    ensures var h := Exposing(n + 1); var back := PruneFrom(h[2..], Governing(h, 2), 0, o).messages;
            |h| == n + 3 && back != [] && back[0] == REPLY
  {
    var h := Exposing(n + 1);
    ExposingDepths(n + 1);
    hide Exposing, Governing;
    ReplyPrunesToItself(Assistants(h[2..]), o);
    hide PruneMessage;
    assert h[2..][0] == REPLY;
  }

  lemma ExposingView(n: nat, o: Options)
    requires n == Max(0, o.hardPruneAfter) && !SeparateZones(o)
    ensures var h := Exposing(n + 1);
            |h| == n + 3
            && IncrementalView(h, Pruned(Exposing(n), o).messages, n + 2, o)
            == Some([CALLER] + PruneFrom(h[2..], Governing(h, 2), 0, o).messages)
  {
    ExposingCut(n, o);
    ExposingCache(n, o);
    ExposingDepths(n + 1);
    var cached := Pruned(Exposing(n), o).messages;
    hide PruneFrom, Pruned, Boundary, AssumedStripped, Exposing, Governing;
    assert cached[..1] == [CALLER];
  }

  /**
   When the zones overlap, a call that is still protected but already beyond the stripping depth is
   copied from the cache without its result.
   */
  lemma OverlapLosesAResult(o: Options) returns (h: History, prev: nat)
    requires !SeparateZones(o)
    ensures prev <= |h| && AllSurvive(h) && Paired(h) && Paired(h[..prev])
    ensures var v := IncrementalView(h, Pruned(h[..prev], o).messages, prev, o);
            v.Some? && !Paired(v.value) && v.value != Pruned(h, o).messages
  {
    var n := Max(0, o.hardPruneAfter);
    h := Exposing(n + 1);
    prev := n + 2;
    ExposingIsPaired(n);
    ExposingIsPaired(n + 1);
    ExposingPrefix(n);
    ExposingRest(n, o);
    ExposingView(n, o);
    PruneKeepsPairing(h, o);
    hide PruneFrom, Pruned, IncrementalView, Exposing, Governing, Scan;
    CallThenReply(PruneFrom(h[2..], Governing(h, 2), 0, o).messages);
  }

  /** Incremental pruning is exact, and keeps pairing, on every history precisely when the zones are separate. */
  lemma IncrementalIsSoundIff(o: Options)
    ensures AlwaysExact(o) <==> SeparateZones(o)
    ensures AlwaysPaired(o) <==> SeparateZones(o)
  {
    if SeparateZones(o) {
      forall h: History, prev: nat | prev <= |h| && AllSurvive(h) && Paired(h[..prev])
        ensures IncrementalView(h, Pruned(h[..prev], o).messages, prev, o) == Some(Pruned(h, o).messages)
      {
        if Pruned(h[..prev], o).messages != [] {
          IncrementalIsExactIff(h, prev, o);
        }
      }
      forall h: History | Paired(h)
        ensures Paired(Pruned(h, o).messages)
      {
        PruneKeepsPairing(h, o);
      }
    } else {
      var h, prev := OverlapLosesAResult(o);
    }
  }

  // ---------------------------------------------------------------- the system prompt

  function NoSystem(h: History): History {
    if h == [] then [] else (if h[0].role == System then [] else [h[0]]) + NoSystem(h[1..])
  }

  function Renewed(m: Message, text: string): Message {
    if AllText(m.content) == text then m else TextMessage(System, text)
  }

  /** The first system message renewed in place, the others deleted. */
  function FirstSystemRenewed(h: History, text: string): History {
    if h == [] then []
    else if h[0].role == System then [Renewed(h[0], text)] + NoSystem(h[1..])
    else [h[0]] + FirstSystemRenewed(h[1..], text)
  }

  predicate HasSystem(h: History) {
    h != [] && (h[0].role == System || HasSystem(h[1..]))
  }

  function WithSystemPrompt(h: History, text: string): History {
    if HasSystem(h) then FirstSystemRenewed(h, text) else [TextMessage(System, text)] + h
  }

  lemma {:induction false} NoSystemPaired(h: History, owed: seq<string>)
    requires Scan(h, owed).Some?
    ensures Scan(NoSystem(h), owed) == Scan(h, owed)
  {
    if h != [] {
      NoSystemPaired(h[1..], Step(h[0], owed).value);
      if h[0].role == System {
        assert NoSystem(h) == NoSystem(h[1..]);
      } else {
        assert NoSystem(h)[1..] == NoSystem(h[1..]);
      }
    }
  }

  lemma {:induction false} RenewedPaired(h: History, text: string, owed: seq<string>)
    requires Scan(h, owed).Some?
    ensures Scan(FirstSystemRenewed(h, text), owed) == Scan(h, owed)
  {
    if h != [] {
      var n := Step(h[0], owed).value;
      if h[0].role == System {
        SingleBlock(Text(text, false));
        NoSystemPaired(h[1..], n);
        assert FirstSystemRenewed(h, text)[1..] == NoSystem(h[1..]);
      } else {
        RenewedPaired(h[1..], text, n);
        assert FirstSystemRenewed(h, text)[1..] == FirstSystemRenewed(h[1..], text);
      }
    }
  }

  /** Refreshing the system prompt keeps pairing and leaves exactly one system message. */
  lemma SystemPromptKeepsPairing(h: History, text: string)
    requires Paired(h)
    ensures Paired(WithSystemPrompt(h, text))
    ensures |NoSystem(WithSystemPrompt(h, text))| + 1 == |WithSystemPrompt(h, text)|
    ensures NoSystem(WithSystemPrompt(h, text)) == NoSystem(h)
  {
    if HasSystem(h) {
      RenewedPaired(h, text, []);
      OneSystemLeft(h, text);
    } else {
      var m := TextMessage(System, text);
      SingleBlock(m.content[0]);
      PlainStep(m);
      PairedAppend([m], h);
      NothingToRemove(h);
      assert ([m] + h)[1..] == h;
    }
  }

  predicate NoneIsSystem(h: History) {
    forall k | 0 <= k < |h| :: h[k].role != System
  }

  /** Message `i` is the first system message. */
  predicate FirstOfSystem(h: History, i: nat) {
    i < |h| && h[i].role == System && NoneIsSystem(h[..i])
  }

  /** `m` is the one system message. */
  predicate OnlySystem(h: History, m: Message) {
    exists i :: 0 <= i < |h| && FirstOfSystem(h, i) && h[i] == m && NoneIsSystem(h[i + 1..])
  }

  lemma {:induction false} NoSystemHasNone(h: History)
    ensures NoneIsSystem(NoSystem(h))
  {
    if h != [] {
      NoSystemHasNone(h[1..]);
    }
  }

  lemma {:induction false} RenewedIsOnly(h: History, text: string) returns (i: nat)
    requires HasSystem(h)
    ensures var r := FirstSystemRenewed(h, text);
            FirstOfSystem(r, i) && NoneIsSystem(r[i + 1..]) && AllText(r[i].content) == text
  {
    var r := FirstSystemRenewed(h, text);
    if h[0].role == System {
      i := 0;
      NoSystemHasNone(h[1..]);
      assert r[1..] == NoSystem(h[1..]) && r[..0] == [];
      assert TextMessage(System, text).content[1..] == [];
      assert TextFrom(TextMessage(System, text).content, "") == TextFrom([], text);
    } else {
      var j := RenewedIsOnly(h[1..], text);
      var rest := FirstSystemRenewed(h[1..], text);
      i := j + 1;
      assert r == [h[0]] + rest && r[i + 1..] == rest[j + 1..];
      assert forall k | 0 <= k < i :: r[..i][k] == if k == 0 then h[0] else rest[..j][k - 1];
    }
  }

  /** After a refresh the one system message says what the prompt says. */
  lemma PromptIsCurrent(h: History, text: string) returns (m: Message)
    ensures OnlySystem(WithSystemPrompt(h, text), m) && AllText(m.content) == text
  {
    var r := WithSystemPrompt(h, text);
    if HasSystem(h) {
      var i := RenewedIsOnly(h, text);
      m := r[i];
    } else {
      m := TextMessage(System, text);
      NothingToRemove(h);
      NoSystemHasNone(h);
      assert r[1..] == h && r[..0] == [] && FirstOfSystem(r, 0);
      assert m.content[1..] == [];
      assert TextFrom(m.content, "") == TextFrom([], text);
    }
  }

  lemma {:induction false} NothingToRemove(h: History)
    ensures !HasSystem(h) ==> NoSystem(h) == h
    ensures NoSystem(NoSystem(h)) == NoSystem(h) && !HasSystem(NoSystem(h))
  {
    if h != [] {
      NothingToRemove(h[1..]);
      if h[0].role == System {
        assert NoSystem(h) == NoSystem(h[1..]);
      } else {
        assert NoSystem(h)[1..] == NoSystem(h[1..]);
      }
    }
  }

  lemma {:induction false} OneSystemLeft(h: History, text: string)
    requires HasSystem(h)
    ensures |NoSystem(FirstSystemRenewed(h, text))| + 1 == |FirstSystemRenewed(h, text)|
    ensures NoSystem(FirstSystemRenewed(h, text)) == NoSystem(h)
  {
    var r := FirstSystemRenewed(h, text);
    if h[0].role == System {
      NothingToRemove(h[1..]);
      assert r[1..] == NoSystem(h[1..]);
    } else {
      OneSystemLeft(h[1..], text);
      assert r[1..] == FirstSystemRenewed(h[1..], text);
    }
  }

  /** What becomes of the messages still to be visited. */
  function Renewing(h: History, found: bool, next: string): History {
    if found then NoSystem(h) else FirstSystemRenewed(h, next)
  }

  function RenewedPiece(m: Message, found: bool, next: string): (p: History)
    ensures |p| <= 1
  {
    if m.role != System then [m] else if found then [] else [Renewed(m, next)]
  }

  lemma RenewingStep(h: History, found: bool, next: string)
    requires h != []
    ensures Renewing(h, found, next)
         == RenewedPiece(h[0], found, next) + Renewing(h[1..], found || h[0].role == System, next)
    ensures HasSystem(h) <==> h[0].role == System || HasSystem(h[1..])
  {
  }

  lemma RenewingStart(h: History, next: string)
    ensures Renewing(h, false, next) == FirstSystemRenewed(h, next)
    ensures !HasSystem([]) && forall found :: Renewing([], found, next) == []
    ensures h[0..] == h && [] + Renewing(h, false, next) == Renewing(h, false, next)
  {
  }

  method RenewOne(m: Message, found: bool, next: string) returns (piece: History)
    ensures piece == RenewedPiece(m, found, next)
  {
    if m.role != System {
      return [m];
    }
    if !found {
      if AllText(m.content) != next {
        return [TextMessage(System, next)];
      }
      return [m];
    }
    return [];
  }

  lemma AppendDiffers(kept: History, seen: History, piece: History, m: Message)
    requires |kept| <= |seen| && |piece| <= 1
    ensures kept + piece != seen + [m] <==> (kept != seen || piece != [m])
  {
    if kept + piece == seen + [m] {
      assert |kept + piece| == |seen + [m]|;
      assert (kept + piece)[..|seen|] == kept && (seen + [m])[..|seen|] == seen;
      assert (kept + piece)[|seen|..] == piece && (seen + [m])[|seen|..] == [m];
    }
  }

  method RenewSystem(h: History, next: string) returns (kept: History, changed: bool)
    ensures kept == WithSystemPrompt(h, next)
    ensures changed <==> kept != h
  {
    hide Renewing, HasSystem, FirstSystemRenewed, NoSystem;
    RenewingStart(h, next);
    kept, changed := [], false;
    var found := false;
    var i := 0;
    while i < |h|
      invariant |kept| <= i <= |h|
      invariant HasSystem(h) <==> found || HasSystem(h[i..])
      invariant Renewing(h, false, next) == kept + Renewing(h[i..], found, next)
      invariant !found ==> kept == h[..i]
      invariant changed <==> kept != h[..i]
    {
      var piece := RenewOne(h[i], found, next);
      ghost var seen, rest := h[..i], h[i..];
      SuffixStep(h, i);
      PrefixStep(h, i);
      RenewingStep(rest, found, next);
      Assoc(kept, piece, Renewing(rest[1..], found || h[i].role == System, next));
      AppendDiffers(kept, seen, piece, h[i]);
      changed := changed || piece != [h[i]];
      kept := kept + piece;
      found := found || h[i].role == System;
      i := i + 1;
    }
    Ends(h);
    Ends(kept);
    if !found {
      kept := [TextMessage(System, next)] + kept;
      changed := true;
      assert |kept| > |h|;
    }
  }

  // ---------------------------------------------------------------- recomputing the view

  method CountAssistants(h: History, start: nat) returns (n: nat)
    requires start <= |h|
    ensures n == Assistants(h[start..])
  {
    n := 0;
    var i := start;
    while i < |h|
      invariant start <= i <= |h|
      invariant n + Assistants(h[i..]) == Assistants(h[start..])
    {
      assert h[i..][1..] == h[i + 1..];
      if h[i].role == Assistant {
        n := n + 1;
      }
      i := i + 1;
    }
  }

  method FindFreezeEnd(depths: seq<int>, n: nat, threshold: int) returns (freezeEnd: nat)
    requires n <= |depths|
    ensures freezeEnd == FreezeEnd(depths, n, threshold, 0)
  {
    freezeEnd := 0;
    var i := 0;
    while i < n
      invariant freezeEnd == i <= n
      invariant FreezeEnd(depths, n, threshold, 0) == FreezeEnd(depths, n, threshold, i)
    {
      if depths[i] > 0 && depths[i] <= threshold {
        break;
      }
      freezeEnd := i + 1;
      i := i + 1;
    }
  }

  method CountStripped(h: History, depths: seq<int>, freezeEnd: nat, o: Options) returns (stripped: nat)
    requires depths == Depths(h) && freezeEnd <= |h|
    ensures stripped == AssumedStripped(h, freezeEnd, o)
  {
    stripped := 0;
    var i := 0;
    while i < freezeEnd
      invariant 0 <= i <= freezeEnd
      invariant stripped == AssumedStripped(h, i, o)
    {
      if h[i].role == Tool {
        var nearestDepth := NearestDepth(h, depths, i);
        if nearestDepth > 0 && nearestDepth > o.hardPruneAfter {
          stripped := stripped + 1;
        }
      }
      i := i + 1;
    }
  }

  method RecomputeView(h: History, cached: History, prev: nat, o: Options) returns (r: Option<History>)
    requires prev <= |h|
    ensures r == IncrementalView(h, cached, prev, o)
  {
    hide Assistants, FreezeEnd, Depths, AssumedStripped, PruneFrom, Governing;
    if prev > 0 && prev <= |h| && cached != [] {
      var newAssistants := CountAssistants(h, prev);
      var depths := ComputeDepths(h);
      var freezeEnd := FindFreezeEnd(depths, prev, o.hardPruneAfter + newAssistants);
      if freezeEnd > 0 {
        var stripped := CountStripped(h, depths, freezeEnd, o);
        var copied := freezeEnd - stripped;
        if copied > |cached| {
          return None;
        }
        var active := PruneRangeWithDepths(h, freezeEnd, depths, o);
        return Some(cached[..copied] + active.messages);
      }
    }
    var full := Prune(h, o);
    return Some(full.messages);
  }

  // ---------------------------------------------------------------- converting what is new

  method ConvertRest(view: History, count: nat, cached: seq<Wire>) returns (wires: seq<Wire>)
    requires count <= |view| && cached == HistoryWires(view[..count])
    ensures wires == HistoryWires(view)
  {
    hide HistoryWires, OpenAiFormat;
    wires := cached;
    var i := count;
    while i < |view|
      invariant count <= i <= |view| && wires == HistoryWires(view[..i])
    {
      HistoryWiresNext(view, i);
      wires := wires + [OpenAiFormat(view[i])];
      i := i + 1;
    }
    Ends(view);
  }

  method ConvertRestForAnthropic(view: History, count: nat, cached: seq<ApiTurn>) returns (turns: seq<ApiTurn>)
    requires count <= |view| && cached == AnthropicMessages(view[..count])
    ensures turns == AnthropicMessages(view)
  {
    hide AnthropicMessages, Parts;
    turns := cached;
    var i := count;
    while i < |view|
      invariant count <= i <= |view| && turns == AnthropicMessages(view[..i])
    {
      AnthropicNext(view, i);
      Ends(turns);
      if view[i].role != System {
        var parts := ContentParts(view[i].content);
        turns := turns + [ApiTurn(AnthropicRole(view[i].role), parts)];
      }
      i := i + 1;
    }
    Ends(view);
  }

  // ---------------------------------------------------------------- the object

  class ConversationHistory {
    var messages: History
    var pruneEnabled: bool
    var pruneOptions: Options
    var prunedMessages: History
    var pruneDirty: bool
    var lastPrunedCount: nat
    var cachedOriginalTokens: int
    var cachedPrunedTokens: int
    var cachedOpenAi: seq<Wire>
    var openAiCount: nat
    var cachedAnthropic: seq<ApiTurn>
    var anthropicCount: nat

    /** The arrays convert a front of the view; a stale view has none. */
    predicate ArraysMatch()
      reads this
    {
      && (pruneDirty ==> openAiCount == 0 && anthropicCount == 0)
      && openAiCount <= |prunedMessages| && cachedOpenAi == HistoryWires(prunedMessages[..openAiCount])
      && anthropicCount <= |prunedMessages| && cachedAnthropic == AnthropicMessages(prunedMessages[..anthropicCount])
    }

    predicate Valid()
      reads this
    {
      && lastPrunedCount <= |messages|
      && (cachedOriginalTokens == -1 || cachedOriginalTokens == HistoryTokens(messages))
      && (if pruneDirty then cachedPrunedTokens == -1
          else lastPrunedCount == |messages|
               && (cachedPrunedTokens == -1 || cachedPrunedTokens == HistoryTokens(prunedMessages))
               && (messages == [] ==> prunedMessages == []) && (!pruneEnabled ==> prunedMessages == messages))
      && ArraysMatch()
    }

    /** The cache holds the full pruning of the messages it covers, under the options now in force. */
    predicate Current()
      reads this
      requires Valid()
    {
      && pruneEnabled
      && (lastPrunedCount > 0 ==> prunedMessages == Pruned(messages[..lastPrunedCount], pruneOptions).messages)
    }

    /** What `PrunedMessages` answers in this state. */
    function View(): (r: Option<History>)
      reads this
      requires Valid()
      ensures !pruneEnabled ==> r == Some(messages)
    {
      if !pruneDirty then Some(prunedMessages)
      else if !pruneEnabled then Some(messages)
      else if messages == [] then Some([])
      else IncrementalView(messages, prunedMessages, lastPrunedCount, pruneOptions)
    }

    /** What it will answer once `m` is added. */
    function NextView(m: Message): Option<History>
      reads this
      requires Valid()
    {
      if pruneEnabled then IncrementalView(messages + [m], prunedMessages, lastPrunedCount, pruneOptions)
      else Some(messages + [m])
    }

    constructor (enabled: bool, options: Options)
      ensures Valid() && messages == [] && pruneEnabled == enabled && pruneOptions == options
      ensures enabled ==> Current()
    {
      messages := [];
      pruneEnabled, pruneOptions := enabled, options;
      prunedMessages := [];
      pruneDirty := true;
      lastPrunedCount := 0;
      cachedOriginalTokens, cachedPrunedTokens := -1, -1;
      cachedOpenAi, openAiCount, cachedAnthropic, anthropicCount := [], 0, [], 0;
    }

    method InvalidateCache()
      modifies this`pruneDirty, this`cachedPrunedTokens
      modifies this`cachedOpenAi, this`openAiCount, this`cachedAnthropic, this`anthropicCount
      ensures pruneDirty && cachedPrunedTokens == -1 && ArraysMatch()
    {
      cachedOpenAi, openAiCount, cachedAnthropic, anthropicCount := [], 0, [], 0;
      pruneDirty := true;
      cachedPrunedTokens := -1;
    }

    method InvalidateAllCache()
      modifies this`pruneDirty, this`cachedPrunedTokens, this`cachedOriginalTokens, this`lastPrunedCount
      modifies this`cachedOpenAi, this`openAiCount, this`cachedAnthropic, this`anthropicCount
      ensures pruneEnabled == old(pruneEnabled)
      ensures Valid() && (pruneEnabled ==> Current())
      ensures pruneDirty && lastPrunedCount == 0
    {
      InvalidateCache();
      cachedOriginalTokens := -1;
      lastPrunedCount := 0;
    }

    method AddMessage(message: Message)
      requires Valid()
      modifies this`messages, this`cachedOriginalTokens, this`pruneDirty, this`cachedPrunedTokens
      modifies this`cachedOpenAi, this`openAiCount, this`cachedAnthropic, this`anthropicCount
      ensures Valid() && (Current() <==> old(Current()))
      ensures messages == old(messages) + [message] && View() == old(NextView(message))
    {
      HistoryTokensAppend(messages, [message]);
      assert [message][1..] == [];
      assert (messages + [message])[..lastPrunedCount] == messages[..lastPrunedCount];
      messages := messages + [message];
      if cachedOriginalTokens >= 0 {
        var n := EstimateMessageTokens(message);
        cachedOriginalTokens := cachedOriginalTokens + n;
      }
      InvalidateCache();
    }

    method AddUser(content: string)
      requires Valid()
      modifies this`messages, this`cachedOriginalTokens, this`pruneDirty, this`cachedPrunedTokens
      modifies this`cachedOpenAi, this`openAiCount, this`cachedAnthropic, this`anthropicCount
      ensures Valid() && (Current() <==> old(Current()))
      ensures messages == old(messages) + [TextMessage(User, content)]
      ensures View() == old(NextView(TextMessage(User, content)))
    {
      AddMessage(TextMessage(User, content));
    }

    method AddAssistant(content: string)
      requires Valid()
      modifies this`messages, this`cachedOriginalTokens, this`pruneDirty, this`cachedPrunedTokens
      modifies this`cachedOpenAi, this`openAiCount, this`cachedAnthropic, this`anthropicCount
      ensures Valid() && (Current() <==> old(Current()))
      ensures messages == old(messages) + [TextMessage(Assistant, content)]
    {
      AddMessage(TextMessage(Assistant, content));
    }

    /** The stored result carries only the call id and the output. */
    method AddToolResult(callId: string, output: string)
      requires Valid()
      modifies this`messages, this`cachedOriginalTokens, this`pruneDirty, this`cachedPrunedTokens
      modifies this`cachedOpenAi, this`openAiCount, this`cachedAnthropic, this`anthropicCount
      ensures Valid() && (Current() <==> old(Current()))
      ensures messages == old(messages) + [ToolMessage(CallResult(callId, "", output, false))]
    {
      AddMessage(ToolMessage(CallResult(callId, "", output, false)));
    }

    method SetSystemPrompt(next: string) returns (changed: bool)
      requires Valid()
      modifies this
      ensures Valid() && messages == WithSystemPrompt(old(messages), next)
      ensures pruneEnabled == old(pruneEnabled) && pruneOptions == old(pruneOptions)
      ensures changed <==> messages != old(messages)
      ensures !changed ==> unchanged(this)
      ensures old(Current()) ==> Current()
    {
      var kept, renewed := RenewSystem(messages, next);
      changed := renewed;
      if changed {
        messages := kept;
        InvalidateAllCache();
      }
    }

    method SetPruneConfig(enabled: bool, options: Options)
      requires Valid()
      modifies this`pruneEnabled, this`pruneOptions, this`pruneDirty, this`cachedPrunedTokens
      modifies this`cachedOpenAi, this`openAiCount, this`cachedAnthropic, this`anthropicCount
      ensures Valid() && pruneEnabled == enabled && pruneOptions == options && pruneDirty
    {
      pruneEnabled, pruneOptions := enabled, options;
      pruneDirty := true;
      InvalidateCache();
    }

    /**
     Exchanges the messages of two histories; prune settings stay where they are. The other one is left with
     this one's counts but its own arrays: only this one may be used afterwards.
     */
    method Swap(other: ConversationHistory)
      requires other != this
      modifies this, other`messages, other`openAiCount, other`anthropicCount
      ensures Valid() && (pruneEnabled ==> Current())
      ensures messages == old(other.messages) && other.messages == old(messages)
      ensures other.openAiCount == old(openAiCount) && other.anthropicCount == old(anthropicCount)
      ensures pruneEnabled == old(pruneEnabled) && pruneOptions == old(pruneOptions)
    {
      messages, other.messages := other.messages, messages;
      cachedOpenAi, cachedAnthropic := other.cachedOpenAi, other.cachedAnthropic;
      openAiCount, other.openAiCount := other.openAiCount, openAiCount;
      anthropicCount, other.anthropicCount := other.anthropicCount, anthropicCount;
      InvalidateAllCache();
    }

    /** The pruned view, recomputed if stale; None when the incremental path reads past its cache. */
    method PrunedMessages() returns (r: Option<History>)
      requires Valid()
      modifies this`prunedMessages, this`pruneDirty, this`lastPrunedCount, this`cachedPrunedTokens
      ensures Valid() && r == old(View())
      ensures r.Some? ==> prunedMessages == r.value && !pruneDirty && lastPrunedCount == |messages|
      ensures r.None? ==> unchanged(this)
    {
      if !pruneDirty {
        return Some(prunedMessages);
      }
      if !pruneEnabled {
        prunedMessages := messages;
        pruneDirty := false;
        lastPrunedCount := |messages|;
        cachedPrunedTokens := cachedOriginalTokens;
        return Some(prunedMessages);
      }
      if messages == [] {
        prunedMessages := [];
        pruneDirty := false;
        lastPrunedCount := 0;
        cachedPrunedTokens := 0;
        return Some(prunedMessages);
      }
      r := RecomputeView(messages, prunedMessages, lastPrunedCount, pruneOptions);
      if r.Some? {
        prunedMessages := r.value;
        pruneDirty := false;
        lastPrunedCount := |messages|;
        cachedPrunedTokens := -1;
      }
    }

    /** The view in OpenAI form; only messages beyond the cached front are converted. */
    method ToOpenAiMessages() returns (wires: Option<seq<Wire>>)
      requires Valid()
      modifies this`prunedMessages, this`pruneDirty, this`lastPrunedCount, this`cachedPrunedTokens
      modifies this`cachedOpenAi, this`openAiCount
      ensures Valid() && wires == match old(View()) { case None => None case Some(v) => Some(HistoryWires(v)) }
      ensures wires.Some? ==> Some(prunedMessages) == old(View()) && !pruneDirty && lastPrunedCount == |messages|
    {
      hide HistoryWires, AnthropicMessages, IncrementalView, HistoryTokens;
      var view := PrunedMessages();
      if view.None? {
        return None;
      }
      Ends(prunedMessages);
      if openAiCount == |prunedMessages| {
        return Some(cachedOpenAi);
      }
      cachedOpenAi := ConvertRest(prunedMessages, openAiCount, cachedOpenAi);
      openAiCount := |prunedMessages|;
      wires := Some(cachedOpenAi);
    }

    /** The view in Anthropic form, without system messages; cached like the other. */
    method ToAnthropicMessages() returns (turns: Option<seq<ApiTurn>>)
      requires Valid()
      modifies this`prunedMessages, this`pruneDirty, this`lastPrunedCount, this`cachedPrunedTokens
      modifies this`cachedAnthropic, this`anthropicCount
      ensures Valid() && turns == match old(View()) { case None => None case Some(v) => Some(AnthropicMessages(v)) }
      ensures turns.Some? ==> Some(prunedMessages) == old(View()) && !pruneDirty && lastPrunedCount == |messages|
    {
      hide HistoryWires, AnthropicMessages, IncrementalView, HistoryTokens;
      var view := PrunedMessages();
      if view.None? {
        return None;
      }
      Ends(prunedMessages);
      if anthropicCount == |prunedMessages| {
        return Some(cachedAnthropic);
      }
      cachedAnthropic := ConvertRestForAnthropic(prunedMessages, anthropicCount, cachedAnthropic);
      anthropicCount := |prunedMessages|;
      turns := Some(cachedAnthropic);
    }

    method OriginalTokens() returns (n: int)
      requires Valid()
      modifies this`cachedOriginalTokens
      ensures Valid() && n == HistoryTokens(messages)
      ensures unchanged(this`messages) && unchanged(this`prunedMessages) && unchanged(this`pruneDirty)
      ensures unchanged(this`lastPrunedCount) && unchanged(this`cachedPrunedTokens)
    {
      if cachedOriginalTokens < 0 {
        cachedOriginalTokens := EstimateHistoryTokens(messages);
      }
      n := cachedOriginalTokens;
    }

    /** Token estimate of the pruned view; None under the same fault as the view. */
    method PrunedTokens() returns (n: Option<int>)
      requires Valid()
      modifies this`prunedMessages, this`pruneDirty, this`lastPrunedCount, this`cachedPrunedTokens
      ensures Valid()
      ensures n == match old(View()) { case None => None case Some(v) => Some(HistoryTokens(v)) }
      ensures n.Some? ==> old(View()) == Some(prunedMessages) && !pruneDirty
    {
      if cachedPrunedTokens < 0 {
        var view := PrunedMessages();
        if view.None? {
          return None;
        }
        cachedPrunedTokens := EstimateHistoryTokens(view.value);
      }
      n := Some(cachedPrunedTokens);
    }
  }

  /** A current cache answers with the full pruning when the zones are separate and no assistant is emptied. */
  lemma CurrentViewIsExact(h: ConversationHistory)
    requires h.Valid() && h.Current() && SeparateZones(h.pruneOptions) && AllSurvive(h.messages)
    ensures h.View() == Some(Pruned(h.messages, h.pruneOptions).messages)
  {
    Ends(h.messages);
    if h.pruneDirty && h.lastPrunedCount > 0 && h.prunedMessages != [] {
      IncrementalIsExactIff(h.messages, h.lastPrunedCount, h.pruneOptions);
    }
  }

  lemma FreshViewIsCurrent(h: ConversationHistory)
    requires h.Valid() && h.pruneEnabled && !h.pruneDirty
    requires h.prunedMessages == Pruned(h.messages, h.pruneOptions).messages
    ensures h.Current()
  {
    Ends(h.messages);
  }
}
