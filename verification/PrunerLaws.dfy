/** What pruning keeps: it splits anywhere, freezes old messages, never breaks pairing and never drops what was said. */
module PrunerLaws {
  import opened Wrappers
  import opened Texts
  import opened Messages
  import opened ContextPruner
  import opened Sequences

  // ---------------------------------------------------------------- splitting

  /** Depth of the last assistant of `h`, or `gov` when it has none. */
  function GovAfter(h: History, gov: int, after: nat): int {
    if h == [] then gov
    else GovAfter(h[1..], if h[0].role == Assistant then Assistants(h) + after else gov, after)
  }

  /** One step of the reference pruner, with the depth the message is pruned at. */
  lemma PruneFromUnfolds(h: History, gov: int, after: nat, o: Options, d: int)
    requires h != [] && d == if h[0].role == Assistant then Assistants(h) + after else gov
    ensures PruneFrom(h, gov, after, o) == Both(PruneMessage(h[0], d, o), PruneFrom(h[1..], d, after, o))
    ensures GovAfter(h, gov, after) == GovAfter(h[1..], d, after)
  {
  }

  lemma PruneNothing(gov: int, after: nat, o: Options)
    ensures PruneFrom([], gov, after, o) == NOTHING && GovAfter([], gov, after) == gov
  {
  }

  lemma SumUnfolds(a: History, b: History, gov: int, after: nat, o: Options, d: int)
    requires a != [] && d == if a[0].role == Assistant then Assistants(a) + Assistants(b) + after else gov
    ensures PruneFrom(a + b, gov, after, o) == Both(PruneMessage(a[0], d, o), PruneFrom(a[1..] + b, d, after, o))
  {
    ConsAppend(a, b);
    AssistantsAppend(a, b);
    PruneFromUnfolds(a + b, gov, after, o, d);
  }

  /** When the rest of `ab` splits, putting the first message back leaves it split. */
  lemma Regroup(a: History, a1: History, ab: History, ab1: History, gov: int, after: nat, o: Options, d: int, k: nat,
                head: PruneResult, y: PruneResult)
    requires PruneFrom(ab, gov, after, o) == Both(head, PruneFrom(ab1, d, after, o))
    requires PruneFrom(a, gov, k, o) == Both(head, PruneFrom(a1, d, k, o))
    requires PruneFrom(ab1, d, after, o) == Both(PruneFrom(a1, d, k, o), y)
    ensures PruneFrom(ab, gov, after, o) == Both(PruneFrom(a, gov, k, o), y)
  {
    BothAssoc(head, PruneFrom(a1, d, k, o), y);
  }

  /** Pruning `a + b` is pruning `a` and then `b`. */
  predicate Splits(a: History, b: History, gov: int, after: nat, o: Options) {
    PruneFrom(a + b, gov, after, o)
    == Both(PruneFrom(a, gov, Assistants(b) + after, o),
            PruneFrom(b, GovAfter(a, gov, Assistants(b) + after), after, o))
  }

  lemma EmptySplits(b: History, gov: int, after: nat, o: Options)
    ensures Splits([], b, gov, after, o)
  {
    Ends(b);
    BothAssoc(PruneFrom(b, gov, after, o), NOTHING, NOTHING);
  }

  lemma OneMoreSplits(a: History, b: History, gov: int, after: nat, o: Options, d: int, k: nat, y: PruneResult)
    requires a != [] && k == Assistants(b) + after && d == if a[0].role == Assistant then Assistants(a) + k else gov
    requires PruneFrom(a[1..] + b, d, after, o) == Both(PruneFrom(a[1..], d, k, o), y)
    ensures PruneFrom(a + b, gov, after, o) == Both(PruneFrom(a, gov, k, o), y)
  {
    SumUnfolds(a, b, gov, after, o, d);
    PruneFromUnfolds(a, gov, k, o, d);
    Regroup(a, a[1..], a + b, a[1..] + b, gov, after, o, d, k, PruneMessage(a[0], d, o), y);
  }

  lemma {:induction false} PruneSplit(a: History, b: History, gov: int, after: nat, o: Options)
    ensures Splits(a, b, gov, after, o)
  {
    hide PruneFrom, GovAfter;
    if a == [] {
      EmptySplits(b, gov, after, o);
    } else {
      var k := Assistants(b) + after;
      var d := if a[0].role == Assistant then Assistants(a) + k else gov;
      PruneSplit(a[1..], b, d, after, o);
      PruneFromUnfolds(a, gov, k, o, d);
      OneMoreSplits(a, b, gov, after, o, d, k, PruneFrom(b, GovAfter(a[1..], d, k), after, o));
    }
  }

  lemma {:induction false} GovAfterSnoc(h: History, m: Message, gov: int, after: nat)
    ensures GovAfter(h + [m], gov, after) == if m.role == Assistant then 1 + after
                                             else GovAfter(h, gov, after)
    ensures m.role == Assistant ==> GovAfter(h + [m], gov, after) == Assistants([m]) + after
  {
    if h == [] {
      assert h + [m] == [m];
      assert GovAfter([m], gov, after)
          == GovAfter([m][1..], if m.role == Assistant then Assistants([m]) + after else gov, after);
      assert Assistants([m][1..]) == 0;
    } else {
      assert (h + [m])[1..] == h[1..] + [m];
      AssistantsAppend(h, [m]);
      var d := if h[0].role == Assistant then Assistants(h + [m]) + after else gov;
      GovAfterSnoc(h[1..], m, d, after);
      if m.role != Assistant {
        assert Assistants([m]) == Assistants([m][1..]) == 0;
      }
    }
  }

  /** The index form of the governing depth and the recursive form agree. */
  lemma {:induction false} GoverningIsGovAfter(h: History, i: nat)
    requires i <= |h|
    ensures Governing(h, i) == GovAfter(h[..i], -1, Assistants(h[i..]))
  {
    if i > 0 {
      var m := h[i - 1];
      assert h[..i] == h[..i - 1] + [m];
      assert h[i - 1..][1..] == h[i..];
      GovAfterSnoc(h[..i - 1], m, -1, Assistants(h[i..]));
      GoverningIsGovAfter(h, i - 1);
    }
  }

  /** Full pruning = pruning of any prefix, followed by range pruning from there. */
  lemma FullPruneSplits(h: History, i: nat, o: Options)
    requires i <= |h|
    ensures Pruned(h, o) == Both(PruneFrom(h[..i], -1, Assistants(h[i..]), o),
                                 PruneFrom(h[i..], Governing(h, i), 0, o))
  {
    assert h == h[..i] + h[i..];
    PruneSplit(h[..i], h[i..], -1, 0, o);
    GoverningIsGovAfter(h, i);
  }

  // ---------------------------------------------------------------- frozen messages

  /** Too deep to be protected or softened again, whatever is appended. */
  predicate Frozen(depth: int, o: Options) {
    depth > 0 && depth > o.hardPruneAfter && depth > o.protectRecent
  }

  lemma {:induction false} DepthGrows(h: History, t: History, i: nat)
    requires i <= |h|
    ensures Governing(h + t, i) == if Governing(h, i) > 0 then Governing(h, i) + Assistants(t) else -1
    ensures Governing(h, i) == -1 || Governing(h, i) > 0
    ensures i < |h| && h[i].role == Assistant ==> DepthAt(h + t, i) == DepthAt(h, i) + Assistants(t)
  {
    if i < |h| {
      assert (h + t)[i..] == h[i..] + t;
      AssistantsAppend(h[i..], t);
    }
    if i > 0 {
      DepthGrows(h, t, i - 1);
      assert (h + t)[i - 1..] == h[i - 1..] + t;
      AssistantsAppend(h[i - 1..], t);
    }
  }

  /** A frozen message prunes to the same output after any messages are appended. */
  lemma FrozenStaysFrozen(h: History, t: History, i: nat, o: Options)
    requires i < |h| && (h[i].role == Tool || h[i].role == Assistant ==> Frozen(DepthAt(h, i), o))
    ensures PruneMessage((h + t)[i], DepthAt(h + t, i), o) == PruneMessage(h[i], DepthAt(h, i), o)
  {
    DepthGrows(h, t, i);
  }

  // ---------------------------------------------------------------- pairing

  predicate SameCallIds(q: seq<CallResult>, r: seq<CallResult>) {
    |q| == |r| && forall i | 0 <= i < |r| :: q[i].callId == r[i].callId
  }

  lemma {:induction false} SoftBlocksKeepCalls(content: seq<Block>, o: Options)
    ensures Uses(SoftBlocks(content, o)) == Uses(content)
    ensures SameCallIds(Results(SoftBlocks(content, o)), Results(content))
  {
    if content != [] {
      var t, st := content[1..], SoftBlocks(content[1..], o);
      SoftBlocksKeepCalls(t, o);
      assert SoftBlocks(content, o)[0] == SoftBlock(content[0], o) && SoftBlocks(content, o)[1..] == st;
    }
  }

  lemma SoftBlocksKeepIds(content: seq<Block>, o: Options)
    ensures UseIds(SoftBlocks(content, o)) == UseIds(content)
    ensures ResultIds(SoftBlocks(content, o)) == ResultIds(content)
    ensures Uses(SoftBlocks(content, o)) == Uses(content)
    ensures |Results(SoftBlocks(content, o))| == |Results(content)|
  {
    SoftBlocksKeepCalls(content, o);
  }

  lemma {:induction false} SpokenTextCallsNothing(content: seq<Block>)
    ensures Uses(SpokenText(content)) == [] && Results(SpokenText(content)) == []
  {
    if content != [] {
      SpokenTextCallsNothing(content[1..]);
      if content[0].Text? && !content[0].thinking {
        assert SpokenText(content)[1..] == SpokenText(content[1..]);
      } else {
        assert SpokenText(content) == SpokenText(content[1..]);
      }
    }
  }

  lemma StrippedCallsNothing(content: seq<Block>)
    ensures Uses(StrippedContent(content)) == [] && Results(StrippedContent(content)) == []
  {
    SpokenTextCallsNothing(content);
    if SpokenText(content) == [] && Uses(content) != [] {
      var b := Text(CString(UsedTools(CallSummaries(Uses(content)))), false);
      assert StrippedContent(content) == [b];
      assert Uses([b]) == Uses([b][1..]) && Results([b]) == Results([b][1..]);
    }
  }

  /** Calls still owed after pruning: none once the calling assistant has been stripped. */
  function OwedAfterPruning(owed: seq<string>, gov: int, o: Options): seq<string> {
    if Stripped(gov, o) then [] else owed
  }

  /** Pruning one message moves the protocol automaton as the message itself did. */
  lemma PruneMessagePaired(m: Message, d: int, owed: seq<string>, o: Options)
    requires Step(m, owed).Some?
    requires m.role == Assistant || owed != [] ==> d > 0
    ensures Scan(PruneMessage(m, d, o).messages, if m.role == Assistant then [] else OwedAfterPruning(owed, d, o))
         == Some(OwedAfterPruning(Step(m, owed).value, d, o))
  {
    hide Uses, Results, SoftBlocks, StrippedContent, SpokenText;
    var out := PruneMessage(m, d, o).messages;
    SoftBlocksKeepIds(m.content, o);
    StrippedCallsNothing(m.content);
    if out != [] {
      assert out == [out[0]] && Scan(out[1..], []) == Some([]);
    }
  }

  lemma {:induction false} PruneFromPaired(h: History, owed: seq<string>, gov: int, after: nat, o: Options)
    requires Scan(h, owed) == Some([])
    requires owed != [] ==> gov > 0
    ensures Scan(PruneFrom(h, gov, after, o).messages, OwedAfterPruning(owed, gov, o)) == Some([])
  {
    if h != [] {
      var m := h[0];
      var d := if m.role == Assistant then Assistants(h) + after else gov;
      var next := Step(m, owed).value;
      PruneMessagePaired(m, d, owed, o);
      PruneFromPaired(h[1..], next, d, after, o);
      PruneFromUnfolds(h, gov, after, o, d);
      var p, q := PruneMessage(m, d, o).messages, PruneFrom(h[1..], d, after, o).messages;
      ScanAppend(p, q, OwedAfterPruning(owed, gov, o));
      assert m.role == Assistant ==> owed == [];
    }
  }

  /** Whatever the options, pruning a paired history leaves a paired history. */
  lemma PruneKeepsPairing(h: History, o: Options)
    requires Paired(h)
    ensures Paired(Pruned(h, o).messages)
  {
    PruneFromPaired(h, [], -1, 0, o);
  }

  // ---------------------------------------------------------------- nothing said is lost

  /** The user and system messages of a history, in order. */
  function Prompts(h: History): History {
    if h == [] then []
    else (if h[0].role == User || h[0].role == System then [h[0]] else []) + Prompts(h[1..])
  }

  /** The assistant messages stripping would delete. */
  function Emptied(h: History, gov: int, after: nat, o: Options): nat {
    if h == [] then 0
    else
      var d := if h[0].role == Assistant then Assistants(h) + after else gov;
      (if h[0].role == Assistant && Stripped(d, o) && !Survives(h[0]) then 1 else 0) + Emptied(h[1..], d, after, o)
  }

  lemma {:induction false} PromptsAppend(a: History, b: History)
    ensures Prompts(a + b) == Prompts(a) + Prompts(b)
  {
    if a == [] {
      Ends(b);
      Ends(Prompts(b));
    } else {
      ConsAppend(a, b);
      PromptsAppend(a[1..], b);
      Assoc(if a[0].role == User || a[0].role == System then [a[0]] else [], Prompts(a[1..]), Prompts(b));
    }
  }

  /**
   User and system messages come through verbatim and in order, and the message count balances:
   every message is kept, stripped as a tool result, or an assistant message emptied by stripping.
   */
  lemma OneConserved(m: Message, d: int, o: Options)
    ensures var p := PruneMessage(m, d, o);
            && Prompts(p.messages) == (if m.role == User || m.role == System then [m] else [])
            && 1 == |p.messages| + p.strippedMsgs
                    + if m.role == Assistant && Stripped(d, o) && !Survives(m) then 1 else 0
    requires m.role == Assistant ==> d > 0
  {
    var p := PruneMessage(m, d, o).messages;
    if p != [] {
      assert p == [p[0]] && Prompts(p[1..]) == [];
    }
  }

  lemma {:induction false} PruneConserves(h: History, gov: int, after: nat, o: Options)
    ensures Prompts(PruneFrom(h, gov, after, o).messages) == Prompts(h)
    ensures |h| == |PruneFrom(h, gov, after, o).messages| + PruneFrom(h, gov, after, o).strippedMsgs
                   + Emptied(h, gov, after, o)
  {
    if h != [] {
      var m := h[0];
      var d := if m.role == Assistant then Assistants(h) + after else gov;
      PruneConserves(h[1..], d, after, o);
      PruneFromUnfolds(h, gov, after, o, d);
      OneConserved(m, d, o);
      PromptsAppend(PruneMessage(m, d, o).messages, PruneFrom(h[1..], d, after, o).messages);
    }
  }
}
