/** Executing, budgeting and filtering the tool calls of one model turn. */
module ToolCalls {
  import opened Wrappers
  import opened Texts
  import opened Messages
  import opened Sequences

  const TODO_TOOL := "update_todo"
  const MAX_TOOL_OUTPUT := 200000

  /** How one execution attempt ended; the text is what the tool, hook or permission check produced. */
  datatype Attempt =
    | Denied(decision: string)
    | HookRefused(error: string)
    | NotSubmitted(error: string)
    | TimedOut
    | Finished(success: bool, output: string)
    | Raised(error: string)
    | TodoUpdated(count: nat)

  /** The world answering tool calls, and which tools it declares read-only. */
  datatype Tools = Tools(run: Call -> Attempt, readOnly: string -> bool)

  function Truncated(output: string): string {
    if |output| <= MAX_TOOL_OUTPUT then output
    else output[..MAX_TOOL_OUTPUT] + "\n...[truncated, original_size=" + IntText(|output|) + "]"
  }

  function ToolError(call: Call, message: string): CallResult {
    CallResult(call.id, call.name, "Error: " + message, false)
  }

  /** ToolCallManager::execute_tool, and the built-in todo tool: every way out echoes the call id. */
  function Execute(call: Call, a: Attempt): (r: CallResult)
    ensures r.callId == call.id && r.name == call.name
  {
    match a
    case Denied(d) => CallResult(call.id, call.name, d, false)
    case HookRefused(e) => CallResult(call.id, call.name, e, false)
    case NotSubmitted(e) => ToolError(call, e)
    case TimedOut => ToolError(call, "Tool execution timeout")
    case Finished(ok, out) => CallResult(call.id, call.name, Truncated(out), ok)
    case Raised(e) => ToolError(call, e)
    case TodoUpdated(n) => CallResult(call.id, call.name, "{\"ok\":true,\"updated\":" + IntText(n) + "}", true)
  }

  function ExecuteAll(calls: seq<Call>, t: Tools): (r: seq<CallResult>)
    ensures |r| == |calls|
    ensures forall i | 0 <= i < |r| :: r[i] == Execute(calls[i], t.run(calls[i]))
  {
    seq(|calls|, i requires 0 <= i < |calls| => Execute(calls[i], t.run(calls[i])))
  }

  method ExecuteToolCalls(calls: seq<Call>, t: Tools) returns (results: seq<CallResult>)
    ensures results == ExecuteAll(calls, t)
    ensures AnsweredIds(results) == CallIds(calls)
  {
    results := [];
    var i := 0;
    while i < |calls|
      invariant 0 <= i <= |calls|
      invariant results == ExecuteAll(calls, t)[..i]
    {
      results := results + [Execute(calls[i], t.run(calls[i]))];
      i := i + 1;
    }
  }

  /** The text the world produced reaches the result, whole or up to the limit, and only a success is called one. */
  lemma ExecuteReports(call: Call, a: Attempt)
    ensures Execute(call, a).success <==> a.TodoUpdated? || (a.Finished? && a.success)
    ensures a.Finished? && |a.output| <= MAX_TOOL_OUTPUT ==> Execute(call, a).output == a.output
    ensures a.Finished? && |a.output| > MAX_TOOL_OUTPUT ==>
              var r := Execute(call, a).output;
              && |r| > MAX_TOOL_OUTPUT && r[..MAX_TOOL_OUTPUT] == a.output[..MAX_TOOL_OUTPUT]
              && r[MAX_TOOL_OUTPUT..] == "\n...[truncated, original_size=" + NatText(|a.output|) + "]"
    ensures a.NotSubmitted? || a.Raised? ==> Execute(call, a).output == "Error: " + a.error
    ensures a.TimedOut? ==> Execute(call, a).output == "Error: Tool execution timeout"
    ensures a.Denied? ==> Execute(call, a).output == a.decision
    ensures a.HookRefused? ==> Execute(call, a).output == a.error
    ensures a.TodoUpdated? ==> Execute(call, a).output == "{\"ok\":true,\"updated\":" + NatText(a.count) + "}"
  {
    if a.Finished? && |a.output| > MAX_TOOL_OUTPUT {
      var kept, note := a.output[..MAX_TOOL_OUTPUT], "\n...[truncated, original_size=" + NatText(|a.output|) + "]";
      assert Execute(call, a).output == kept + note;
      assert |kept| == MAX_TOOL_OUTPUT;
    }
  }

  // ---------------------------------------------------------------- the call budget

  /** Calls that count against the budget: everything but todo updates. */
  function Budgeted(calls: seq<Call>): (n: nat)
    ensures n <= |calls|
  {
    if calls == [] then 0 else (if calls[0].name == TODO_TOOL then 0 else 1) + Budgeted(calls[1..])
  }

  lemma {:induction false} BudgetedAppend(a: seq<Call>, b: seq<Call>)
    ensures Budgeted(a + b) == Budgeted(a) + Budgeted(b)
  {
    if a == [] {
      assert a + b == b;
    } else {
      assert (a + b)[1..] == a[1..] + b;
      BudgetedAppend(a[1..], b);
    }
  }

  /** The positions of the calls that count. */
  function Counting(calls: seq<Call>): set<nat> {
    set i: nat | i < |calls| && calls[i].name != TODO_TOOL
  }

  lemma {:induction false} BudgetedCounts(calls: seq<Call>)
    ensures Budgeted(calls) == |Counting(calls)|
  {
    if calls != [] {
      var front, last := Front(calls), Last(calls);
      assert calls == front + [last];
      BudgetedAppend(front, [last]);
      assert [last][1..] == [];
      BudgetedCounts(front);
      assert forall i: nat | i < |front| :: front[i] == calls[i];
      assert Counting(calls) == Counting(front) + if last.name == TODO_TOOL then {} else {|front|};
    }
  }

  method BudgetedToolCallCount(calls: seq<Call>) returns (n: nat)
    ensures n == Budgeted(calls)
  {
    n := 0;
    var i := 0;
    while i < |calls|
      invariant 0 <= i <= |calls|
      invariant n + Budgeted(calls[i..]) == Budgeted(calls)
    {
      assert calls[i..][1..] == calls[i + 1..];
      if calls[i].name != TODO_TOOL {
        n := n + 1;
      }
      i := i + 1;
    }
  }

  // ---------------------------------------------------------------- plan mode

  const BLOCKED := "plan mode: read-only, tool blocked. Use /plan off to enable write operations."

  function Allowed(calls: seq<Call>, t: Tools): seq<Call> {
    if calls == [] then [] else (if t.readOnly(calls[0].name) then [calls[0]] else []) + Allowed(calls[1..], t)
  }

  function Blocked(calls: seq<Call>, t: Tools): seq<Call> {
    if calls == [] then [] else (if t.readOnly(calls[0].name) then [] else [calls[0]]) + Blocked(calls[1..], t)
  }

  function BlockedResults(calls: seq<Call>): (r: seq<CallResult>)
    ensures |r| == |calls|
    ensures forall i | 0 <= i < |r| :: r[i] == CallResult(calls[i].id, calls[i].name, BLOCKED, false)
  {
    seq(|calls|, i requires 0 <= i < |calls| => CallResult(calls[i].id, calls[i].name, BLOCKED, false))
  }

  method FilterPlanModeTools(calls: seq<Call>, t: Tools)
    returns (allowed: seq<Call>, blocked: seq<Call>, blockedResults: seq<CallResult>)
    ensures allowed == Allowed(calls, t) && blocked == Blocked(calls, t)
    ensures blockedResults == BlockedResults(blocked)
  {
    hide Allowed, Blocked;
    NothingFiltered(calls, t);
    allowed, blocked, blockedResults := [], [], [];
    var i := 0;
    while i < |calls|
      invariant 0 <= i <= |calls|
      invariant Allowed(calls, t) == allowed + Allowed(calls[i..], t)
      invariant Blocked(calls, t) == blocked + Blocked(calls[i..], t)
      invariant blockedResults == BlockedResults(blocked)
    {
      var call := calls[i];
      FilterStep(calls, t, i);
      if t.readOnly(call.name) {
        Assoc(allowed, [call], Allowed(calls[i + 1..], t));
        allowed := allowed + [call];
      } else {
        Assoc(blocked, [call], Blocked(calls[i + 1..], t));
        blocked := blocked + [call];
        blockedResults := blockedResults + [CallResult(call.id, call.name, BLOCKED, false)];
      }
      i := i + 1;
    }
    Ends(allowed);
    Ends(blocked);
  }

  lemma FilterStep(calls: seq<Call>, t: Tools, i: nat)
    requires i < |calls|
    ensures var c, rest := calls[i], calls[i + 1..];
            if t.readOnly(c.name) then
              Allowed(calls[i..], t) == [c] + Allowed(rest, t) && Blocked(calls[i..], t) == Blocked(rest, t)
            else
              Allowed(calls[i..], t) == Allowed(rest, t) && Blocked(calls[i..], t) == [c] + Blocked(rest, t)
  {
    SuffixStep(calls, i);
    Ends(Allowed(calls[i + 1..], t));
    Ends(Blocked(calls[i + 1..], t));
  }

  lemma NothingFiltered(calls: seq<Call>, t: Tools)
    ensures Allowed(calls, t) == [] + Allowed(calls[0..], t) && Blocked(calls, t) == [] + Blocked(calls[0..], t)
    ensures Allowed(calls[|calls|..], t) == [] && Blocked(calls[|calls|..], t) == []
  {
    Ends(calls);
    Ends(Allowed(calls, t));
    Ends(Blocked(calls, t));
  }

  /** Filtering keeps the order of the calls on either side. */
  lemma {:induction false} FilterAppend(a: seq<Call>, b: seq<Call>, t: Tools)
    ensures Allowed(a + b, t) == Allowed(a, t) + Allowed(b, t) && Blocked(a + b, t) == Blocked(a, t) + Blocked(b, t)
  {
    if a == [] {
      Ends(b);
    } else {
      ConsAppend(a, b);
      FilterAppend(a[1..], b, t);
      var c := a[0];
      Assoc(if t.readOnly(c.name) then [c] else [], Allowed(a[1..], t), Allowed(b, t));
      Assoc(if t.readOnly(c.name) then [] else [c], Blocked(a[1..], t), Blocked(b, t));
    }
  }

  /** Filtering loses no call and invents none. */
  lemma {:induction false} FilterPartitions(calls: seq<Call>, t: Tools)
    ensures multiset(Allowed(calls, t)) + multiset(Blocked(calls, t)) == multiset(calls)
    ensures |Allowed(calls, t)| + |Blocked(calls, t)| == |calls|
  {
    if calls != [] {
      var rest := calls[1..];
      FilterPartitions(rest, t);
      assert calls == [calls[0]] + rest;
      assert multiset(calls) == multiset{calls[0]} + multiset(rest);
      if t.readOnly(calls[0].name) {
        assert multiset(Allowed(calls, t)) == multiset{calls[0]} + multiset(Allowed(rest, t));
      } else {
        assert multiset(Blocked(calls, t)) == multiset{calls[0]} + multiset(Blocked(rest, t));
      }
    }
  }

  /** What gets through is read-only, what is held back is not. */
  lemma {:induction false} FilterSeparates(calls: seq<Call>, t: Tools)
    ensures forall c | c in Allowed(calls, t) :: t.readOnly(c.name)
    ensures forall c | c in Blocked(calls, t) :: !t.readOnly(c.name)
    ensures Budgeted(Allowed(calls, t)) <= Budgeted(calls)
  {
    if calls != [] {
      FilterSeparates(calls[1..], t);
      BudgetedAppend([calls[0]], Allowed(calls[1..], t));
      assert Budgeted([calls[0]]) == if calls[0].name == TODO_TOOL then 0 else 1 by {
        assert [calls[0]][1..] == [];
      }
      if !t.readOnly(calls[0].name) {
        assert Allowed(calls, t) == Allowed(calls[1..], t);
      }
    }
  }

  // ---------------------------------------------------------------- reassembling streamed calls

  /** A fragment of a streamed tool call. */
  datatype Delta = Delta(index: int, id: string, name: string, arguments: string)

  datatype Pending = Pending(id: string, name: string, arguments: string)

  const NO_PENDING := Pending("", "", "")

  function Grown(p: Pending, d: Delta): Pending {
    Pending(if d.id != "" then d.id else p.id, if d.name != "" then d.name else p.name, p.arguments + d.arguments)
  }

  /** The fragments of one index folded in arrival order. */
  function Fold(deltas: seq<Delta>, index: int): Pending {
    if deltas == [] then NO_PENDING
    else
      var d := deltas[|deltas| - 1];
      var before := Fold(deltas[..|deltas| - 1], index);
      if d.index == index then Grown(before, d) else before
  }

  function Indices(deltas: seq<Delta>): set<int> {
    set i | 0 <= i < |deltas| :: deltas[i].index
  }

  /** Keys of a finite set in ascending order, the order in which std::map is walked. */
  function Ascending(s: set<int>): (r: seq<int>)
    ensures forall k :: k in r <==> k in s
    ensures forall i, j | 0 <= i < j < |r| :: r[i] < r[j]
  {
    if s == {} then []
    else
      var m := Least(s);
      var rest := Ascending(s - {m});
      [m] + rest
  }

  function Least(s: set<int>): (m: int)
    requires s != {}
    ensures m in s && forall k | k in s :: m <= k
  {
    HasLeast(s);
    var m :| m in s && forall k | k in s :: m <= k;
    m
  }

  lemma Witness<T>(s: set<T>) returns (x: T)
    requires s != {}
    ensures x in s
  {
    x :| x in s;
  }

  lemma HasLeast(s: set<int>)
    requires s != {}
    ensures exists m :: m in s && forall k | k in s :: m <= k
  {
    var x := Witness(s);
    var rest := s - {x};
    if rest == {} {
      assert forall k | k in s :: k == x || k in rest;
    } else {
      HasLeast(rest);
      var m: int :| m in rest && forall k | k in rest :: m <= k;
      var least := if x < m then x else m;
      assert forall k | k in s :: k == x || k in rest;
      assert least in s && forall k | k in s :: least <= k;
    }
  }

  function AsCall(p: Pending): Call {
    Call(p.id, p.name, p.arguments)
  }

  /** The calls of a streamed turn: one per index, by ascending index, each folded from its own fragments. */
  function StreamedCalls(deltas: seq<Delta>): (calls: seq<Call>)
    ensures |calls| == |Ascending(Indices(deltas))|
    ensures forall i | 0 <= i < |calls| :: calls[i] == AsCall(Fold(deltas, Ascending(Indices(deltas))[i]))
  {
    var keys := Ascending(Indices(deltas));
    seq(|keys|, i requires 0 <= i < |keys| => AsCall(Fold(deltas, keys[i])))
  }

  lemma IndicesStep(deltas: seq<Delta>, d: Delta)
    ensures Indices(deltas + [d]) == Indices(deltas) + {d.index}
  {
    var all := deltas + [d];
    assert all[|deltas|] == d && forall j | 0 <= j < |deltas| :: all[j] == deltas[j];
  }

  lemma NothingCollected()
    ensures Indices([]) == {} && forall k :: Fold([], k) == NO_PENDING
  {
  }

  method CollectStream(deltas: seq<Delta>) returns (calls: seq<Call>)
    ensures calls == StreamedCalls(deltas)
  {
    hide Fold, Indices, Grown;
    NothingCollected();
    var pending: map<int, Pending> := map[];
    var i := 0;
    while i < |deltas|
      invariant 0 <= i <= |deltas|
      invariant pending.Keys == Indices(deltas[..i])
      invariant forall k | k in pending :: pending[k] == Fold(deltas[..i], k)
      invariant forall k | k !in pending :: Fold(deltas[..i], k) == NO_PENDING
    {
      var d := deltas[i];
      PrefixStep(deltas, i);
      IndicesStep(deltas[..i], d);
      forall k
        ensures Fold(deltas[..i + 1], k)
             == if d.index == k then Grown(Fold(deltas[..i], k), d) else Fold(deltas[..i], k)
      {
        FoldStep(deltas[..i], d, k);
      }
      var tc := if d.index in pending then pending[d.index] else NO_PENDING;
      pending := pending[d.index := Grown(tc, d)];
      i := i + 1;
    }
    assert deltas[..i] == deltas;
    var keys := Ascending(pending.Keys);
    calls := [];
    var k := 0;
    while k < |keys|
      invariant 0 <= k <= |keys|
      invariant calls == StreamedCalls(deltas)[..k]
    {
      assert keys[k] in pending.Keys;
      calls := calls + [AsCall(pending[keys[k]])];
      k := k + 1;
    }
  }

  lemma {:induction false} FoldStep(deltas: seq<Delta>, d: Delta, index: int)
    ensures Fold(deltas + [d], index) == if d.index == index then Grown(Fold(deltas, index), d) else Fold(deltas, index)
  {
    assert (deltas + [d])[..|deltas|] == deltas;
  }

  /** How fragments of different calls interleave on the stream makes no difference. */
  lemma {:induction false} InterleavingIrrelevant(before: seq<Delta>, a: Delta, b: Delta, after: seq<Delta>)
    requires a.index != b.index
    ensures StreamedCalls(before + [a, b] + after) == StreamedCalls(before + [b, a] + after)
  {
    var x, y := before + [a, b] + after, before + [b, a] + after;
    SwapKeepsIndices(before, a, b, after);
    forall k
      ensures Fold(x, k) == Fold(y, k)
    {
      SwapKeepsFold(before, a, b, after, k);
    }
  }

  lemma SwapKeepsIndices(before: seq<Delta>, a: Delta, b: Delta, after: seq<Delta>)
    ensures Indices(before + [a, b] + after) == Indices(before + [b, a] + after)
  {
    var x, y, n := before + [a, b] + after, before + [b, a] + after, |before|;
    forall k
      ensures k in Indices(x) <==> k in Indices(y)
    {
      if i :| 0 <= i < |x| && x[i].index == k {
        var j := if i == n then n + 1 else if i == n + 1 then n else i;
        assert y[j] == x[i];
      }
      if i :| 0 <= i < |y| && y[i].index == k {
        var j := if i == n then n + 1 else if i == n + 1 then n else i;
        assert x[j] == y[i];
      }
    }
  }

  lemma {:induction false} SwapKeepsFold(before: seq<Delta>, a: Delta, b: Delta, after: seq<Delta>, k: int)
    requires a.index != b.index
    ensures Fold(before + [a, b] + after, k) == Fold(before + [b, a] + after, k)
    decreases |after|
  {
    if after == [] {
      assert before + [a, b] + after == (before + [a]) + [b] && before + [b, a] + after == (before + [b]) + [a];
      FoldStep(before + [a], b, k);
      FoldStep(before, a, k);
      FoldStep(before + [b], a, k);
      FoldStep(before, b, k);
    } else {
      var f, d := after[..|after| - 1], after[|after| - 1];
      assert before + [a, b] + after == (before + [a, b] + f) + [d];
      assert before + [b, a] + after == (before + [b, a] + f) + [d];
      SwapKeepsFold(before, a, b, f, k);
      FoldStep(before + [a, b] + f, d, k);
      FoldStep(before + [b, a] + f, d, k);
    }
  }

  // ---------------------------------------------------------------- a turn cut into fragments

  /** The fragments of one index, in the order in which they arrive. */
  function OfIndex(deltas: seq<Delta>, index: int): seq<Delta> {
    if deltas == [] then []
    else (if deltas[0].index == index then [deltas[0]] else []) + OfIndex(deltas[1..], index)
  }

  function ArgumentsOf(fs: seq<Delta>): string {
    if fs == [] then "" else fs[0].arguments + ArgumentsOf(fs[1..])
  }

  predicate Fragment(d: Delta, c: Call) {
    (d.id == "" || d.id == c.id) && (d.name == "" || d.name == c.name)
  }

  predicate Fragments(fs: seq<Delta>, c: Call) {
    forall k | 0 <= k < |fs| :: Fragment(fs[k], c)
  }

  predicate HasId(fs: seq<Delta>, id: string) {
    exists k :: 0 <= k < |fs| && fs[k].id == id
  }

  predicate HasName(fs: seq<Delta>, name: string) {
    exists k :: 0 <= k < |fs| && fs[k].name == name
  }

  /** Fragments that spell a call: its arguments in pieces, its id and its name each once or oftener. */
  predicate Spells(fs: seq<Delta>, c: Call) {
    && Fragments(fs, c)
    && HasId(fs, c.id) && HasName(fs, c.name) && ArgumentsOf(fs) == c.arguments
  }

  /** A stream that holds the fragments of each call under an index of its own, interleaved in any way. */
  predicate Cuts(deltas: seq<Delta>, indices: seq<int>, calls: seq<Call>) {
    && |indices| == |calls| && (forall i, j | 0 <= i < j < |indices| :: indices[i] < indices[j])
    && (forall d | d in deltas :: d.index in indices)
    && forall j | 0 <= j < |calls| :: Spells(OfIndex(deltas, indices[j]), calls[j])
  }

  lemma {:induction false} FoldFront(d: Delta, rest: seq<Delta>, index: int)
    ensures var f := Fold([d] + rest, index);
            if d.index != index then f == Fold(rest, index)
            else
              && f.arguments == d.arguments + Fold(rest, index).arguments
              && f.id == (if Fold(rest, index).id != "" then Fold(rest, index).id else d.id)
              && f.name == (if Fold(rest, index).name != "" then Fold(rest, index).name else d.name)
    decreases |rest|
  {
    if rest == [] {
      Ends([d]);
      FoldStep([], d, index);
      assert [] + [d] == [d] + [];
    } else {
      var front, last := Front(rest), Last(rest);
      assert rest == front + [last];
      FoldFront(d, front, index);
      FoldStep(front, last, index);
      FoldStep([d] + front, last, index);
      Assoc([d], front, [last]);
      if last.index == index && d.index == index {
        Assoc(d.arguments, Fold(front, index).arguments, last.arguments);
      }
    }
  }

  /** Folding an index takes the last id and the last name that are not empty and all the arguments. */
  lemma {:induction false} FoldSpells(deltas: seq<Delta>, index: int, c: Call)
    requires Fragments(OfIndex(deltas, index), c)
    ensures var f, fs := Fold(deltas, index), OfIndex(deltas, index);
            && f.arguments == ArgumentsOf(fs)
            && (f.id == "" || f.id == c.id) && (f.name == "" || f.name == c.name)
            && (HasId(fs, c.id) ==> f.id == c.id) && (HasName(fs, c.name) ==> f.name == c.name)
  {
    if deltas != [] {
      var d, rest := deltas[0], deltas[1..];
      assert deltas == [d] + rest;
      var fs, gs := OfIndex(deltas, index), OfIndex(rest, index);
      FoldFront(d, rest, index);
      if d.index == index {
        forall k | 0 <= k < |gs|
          ensures gs[k] == fs[k + 1] && Fragment(gs[k], c)
        {
          assert Fragment(fs[k + 1], c);
        }
        FoldSpells(rest, index, c);
        assert Fragment(fs[0], c);
        if HasId(fs, c.id) {
          var k :| 0 <= k < |fs| && fs[k].id == c.id;
          assert k > 0 ==> gs[k - 1].id == c.id;
        }
        if HasName(fs, c.name) {
          var k :| 0 <= k < |fs| && fs[k].name == c.name;
          assert k > 0 ==> gs[k - 1].name == c.name;
        }
      } else {
        assert fs == gs;
        FoldSpells(rest, index, c);
      }
    }
  }

  /** Two ascending lists of the same numbers are the same list. */
  lemma {:induction false} AscendingIsUnique(a: seq<int>, b: seq<int>)
    requires forall i, j | 0 <= i < j < |a| :: a[i] < a[j]
    requires forall i, j | 0 <= i < j < |b| :: b[i] < b[j]
    requires forall k :: k in a <==> k in b
    ensures a == b
  {
    assert a != [] ==> a[0] in a;
    assert b != [] ==> b[0] in b;
    if a != [] {
      assert a[0] in b && b[0] in a;
      assert a[0] == b[0];
      forall k
        ensures k in a[1..] <==> k in b[1..]
      {
        assert k in a[1..] ==> k in a && k > a[0];
        assert k in b[1..] ==> k in b && k > b[0];
        assert k in a && k != a[0] ==> k in a[1..];
        assert k in b && k != b[0] ==> k in b[1..];
      }
      AscendingIsUnique(a[1..], b[1..]);
    }
  }

  lemma {:induction false} HasFragment(deltas: seq<Delta>, index: int)
    ensures OfIndex(deltas, index) != [] <==> index in Indices(deltas)
  {
    if deltas != [] {
      var rest := deltas[1..];
      HasFragment(rest, index);
      if index in Indices(deltas) {
        var i :| 0 <= i < |deltas| && deltas[i].index == index;
        assert i > 0 ==> rest[i - 1].index == index;
      }
      if index in Indices(rest) {
        var i :| 0 <= i < |rest| && rest[i].index == index;
        assert deltas[i + 1].index == index;
      }
      assert deltas[0].index in Indices(deltas);
    }
  }

  lemma CutIndices(deltas: seq<Delta>, indices: seq<int>, calls: seq<Call>)
    requires Cuts(deltas, indices, calls)
    ensures Ascending(Indices(deltas)) == indices
  {
    forall k
      ensures k in Indices(deltas) <==> k in indices
    {
      if k in indices {
        var j :| 0 <= j < |indices| && indices[j] == k;
        assert Spells(OfIndex(deltas, indices[j]), calls[j]);
        HasFragment(deltas, k);
      }
      if k in Indices(deltas) {
        var i :| 0 <= i < |deltas| && deltas[i].index == k;
        assert deltas[i] in deltas;
      }
    }
    AscendingIsUnique(Ascending(Indices(deltas)), indices);
  }

  /**
   However the fragments of a turn's calls arrive, the calls are put together again, in the order of their indices.
   */
  lemma CutsAreReassembled(deltas: seq<Delta>, indices: seq<int>, calls: seq<Call>)
    requires Cuts(deltas, indices, calls)
    ensures StreamedCalls(deltas) == calls && (deltas == [] <==> calls == [])
  {
    CutIndices(deltas, indices, calls);
    forall j | 0 <= j < |calls|
      ensures AsCall(Fold(deltas, indices[j])) == calls[j]
    {
      assert Spells(OfIndex(deltas, indices[j]), calls[j]);
      FoldSpells(deltas, indices[j], calls[j]);
    }
    if deltas != [] {
      assert deltas[0] in deltas;
    }
    if calls != [] {
      assert Spells(OfIndex(deltas, indices[0]), calls[0]);
    }
  }
}
