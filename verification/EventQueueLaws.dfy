/** Every interleaving keeps the queue well formed: no operation is lost, duplicated or reordered. */
module EventQueueLaws {
  import opened Wrappers
  import opened EventQueue
  import opened Sequences

  // ---------------------------------------------------------------- the invariant: nodes

  predicate NodeIs(s: State, n: nat, p: Place, t: nat) {
    n < |s.heap| && n < |s.owner| && s.owner[n] == p && s.heap[n].ticket == Some(t)
  }

  /** What an activity holds is marked as its own, position by position. */
  predicate HoldsOwn(s: State, i: nat)
    requires i < |s.threads|
  {
    match s.threads[i]
    case Filled(t, n) => NodeIs(s, n, Held(i), t)
    case Trying(t, n) => NodeIs(s, n, Held(i), t)
    case Walking(_, _, batch, _) =>
      forall k | 0 <= k < |batch| :: NodeIs(s, batch[k].node, Batched(i, k), batch[k].ticket)
    case Handling(_, at, batch, _) =>
      forall k | at <= k < |batch| :: NodeIs(s, batch[k].node, Batched(i, k), batch[k].ticket)
    case _ => true
  }

  /** What is marked is really there. */
  predicate NodePlaced(s: State, n: nat)
    requires n < |s.owner|
  {
    match s.owner[n]
    case Free(k) => k < |s.free| && s.free[k] == n
    case InQueue(k) => k < |s.stack| && s.stack[k].node == n
    case Held(i) => i < |s.threads| && (s.threads[i].Filled? || s.threads[i].Trying?) && s.threads[i].node == n
    case Batched(i, k) =>
      && i < |s.threads| && (s.threads[i].Walking? || s.threads[i].Handling?)
      && k < |s.threads[i].batch| && s.threads[i].batch[k].node == n
      && (s.threads[i].Handling? ==> s.threads[i].at <= k)
  }

  predicate FreeOwn(s: State, k: nat)
    requires k < |s.free|
  {
    var n := s.free[k];
    n < |s.heap| && n < |s.owner| && s.owner[n] == Free(k) && s.heap[n].ticket == None
  }

  predicate StackOwn(s: State, k: nat)
    requires k < |s.stack|
  {
    NodeIs(s, s.stack[k].node, InQueue(k), s.stack[k].ticket)
  }

  /** No node is in two places: every place marks its nodes with itself and the position. */
  predicate NodesOwned(s: State) {
    && |s.owner| == |s.heap|
    && (forall k | 0 <= k < |s.free| :: FreeOwn(s, k))
    && (forall k | 0 <= k < |s.stack| :: StackOwn(s, k))
    && (forall i | 0 <= i < |s.threads| :: HoldsOwn(s, i))
  }

  /** No node is in no place. */
  predicate NodesPlaced(s: State) {
    && |s.owner| == |s.heap|
    && forall n | 0 <= n < |s.owner| :: NodePlaced(s, n)
  }

  // ---------------------------------------------------------------- the invariant: links

  function Top(slots: seq<Slot>, n: nat): Option<nat>
    requires n <= |slots|
  {
    if n == 0 then None else Some(slots[n - 1].node)
  }

  predicate Link(heap: seq<Cell>, slots: seq<Slot>, k: nat)
    requires k < |slots|
  {
    CellAt(heap, slots[k].node).next == Top(slots, k)
  }

  /** Each element links to the one below it. */
  predicate Linked(heap: seq<Cell>, slots: seq<Slot>) {
    forall k | 0 <= k < |slots| :: Link(heap, slots, k)
  }

  /** A walk has collected the top of its batch and stands at the next element; the reversed result is the batch. */
  predicate WalkSound(s: State, i: nat)
    requires i < |s.threads|
  {
    match s.threads[i]
    case Walking(cur, got, batch, _) =>
      && |got| <= |batch| && cur == Top(batch, |batch| - |got|) && Linked(s.heap, batch)
      && forall j | 0 <= j < |got| :: got[j] == batch[|batch| - 1 - j].node
    case Handling(nodes, at, batch, _) =>
      |nodes| == |batch| && at <= |batch| && forall k | 0 <= k < |batch| :: nodes[k] == batch[k].node
    case _ => true
  }

  /** The list from the head is exactly the queue, and every walk is on its batch. */
  predicate Chained(s: State) {
    && s.head == Top(s.stack, |s.stack|) && Linked(s.heap, s.stack)
    && forall i | 0 <= i < |s.threads| :: WalkSound(s, i)
  }

  // ---------------------------------------------------------------- the invariant: submissions

  predicate TaskAt(ops: seq<Op>, t: nat, i: nat, k: nat) {
    t < |ops| && ops[t].stage == Ready(i, k) && ops[t].kind == Task(false)
  }

  predicate TasksOwn(ops: seq<Op>, threads: seq<Pc>, i: nat)
    requires i < |threads|
  {
    match threads[i]
    case Submitting(t) => t < |ops| && ops[t].stage == Counted(i)
    case Handling(_, _, _, ready) => forall k | 0 <= k < |ready| :: TaskAt(ops, ready[k], i, k)
    case Between(ready, at) => at <= |ready| && forall k | at <= k < |ready| :: TaskAt(ops, ready[k], i, k)
    case Inside(ready, at) => at < |ready| && forall k | at <= k < |ready| :: TaskAt(ops, ready[k], i, k)
    case Returned(ready, at) => at < |ready| && forall k | at <= k < |ready| :: TaskAt(ops, ready[k], i, k)
    case _ => true
  }

  /** The task list of an activity and how far it has got. */
  predicate Listed(pc: Pc, t: nat, k: nat) {
    match pc
    case Handling(_, _, _, ready) => k < |ready| && ready[k] == t
    case Between(ready, at) => at <= k < |ready| && ready[k] == t
    case Inside(ready, at) => at <= k < |ready| && ready[k] == t
    case Returned(ready, at) => at <= k < |ready| && ready[k] == t
    case _ => false
  }

  /** A submission is where its stage says. */
  predicate OpPlaced(s: State, t: nat)
    requires t < |s.ops|
  {
    match s.ops[t].stage
    case Counted(i) => i < |s.threads| && s.threads[i] == Submitting(t)
    case Carried(n) => n < |s.heap| && s.heap[n].ticket == Some(t)
    case Ready(i, k) => i < |s.threads| && Listed(s.threads[i], t, k)
    case _ => true
  }

  predicate CellOwn(s: State, n: nat)
    requires n < |s.heap|
  {
    s.heap[n].ticket.Some? ==>
      s.heap[n].ticket.value < |s.ops| && s.ops[s.heap[n].ticket.value].stage == Carried(n)
  }

  /** No submission is in two places. */
  predicate OpsOwned(s: State) {
    && (forall n | 0 <= n < |s.heap| :: CellOwn(s, n))
    && (forall i | 0 <= i < |s.threads| :: TasksOwn(s.ops, s.threads, i))
  }

  /** No submission is in no place. */
  predicate OpsPlaced(s: State) {
    forall t | 0 <= t < |s.ops| :: OpPlaced(s, t)
  }

  predicate Current(pc: Pc, k: nat) {
    (pc.Inside? || pc.Returned?) && pc.at == k
  }

  /** Whether a submission has been started as a task. */
  predicate Started(threads: seq<Pc>, op: Op) {
    match op.stage
    case Finished => true
    case Threw => true
    case Ready(i, k) => i < |threads| && Current(threads[i], k)
    case _ => false
  }

  /** A task has run once if it has been started and not at all before. */
  predicate OpRunsOnce(s: State, t: nat)
    requires t < |s.ops|
  {
    s.ops[t].runs == if Started(s.threads, s.ops[t]) then 1 else 0
  }

  predicate RunsOnce(s: State) {
    forall t | 0 <= t < |s.ops| :: OpRunsOnce(s, t)
  }

  /** Only tasks get into task lists and come to a task's end. */
  predicate Fits(op: Op) {
    match op.stage
    case Counted(_) => true
    case Carried(_) => true
    case Accepted => !op.kind.Task?
    case Dropped => op.kind == Task(true)
    case _ => op.kind == Task(false)
  }

  predicate KindsFit(s: State) {
    forall t | 0 <= t < |s.ops| :: Fits(s.ops[t])
  }

  // ---------------------------------------------------------------- the invariant: counter and logs

  function Unfinished(op: Op): nat {
    if op.kind.Task? && op.stage != Finished then 1 else 0
  }

  function Outstanding(ops: seq<Op>): nat {
    if ops == [] then 0 else Outstanding(ops[..|ops| - 1]) + Unfinished(ops[|ops| - 1])
  }

  predicate Counting(s: State) {
    s.pending == Outstanding(s.ops)
  }

  predicate BatchLogged(taken: seq<nat>, pc: Pc) {
    pc.Walking? ==> pc.from + |pc.batch| <= |taken| && taken[pc.from..pc.from + |pc.batch|] == Tickets(pc.batch)
  }

  /** Push order = drain order, then what is still queued. */
  predicate Logged(s: State) {
    && s.pushed == s.taken + Tickets(s.stack)
    && forall i | 0 <= i < |s.threads| :: BatchLogged(s.taken, s.threads[i])
  }

  predicate ByNow(pushed: seq<nat>, ops: seq<Op>, k: nat, producer: nat, t: nat)
    requires k < |pushed|
  {
    pushed[k] < |ops| && (ops[pushed[k]].producer == producer ==> pushed[k] < t)
  }

  predicate Sending(pc: Pc) {
    pc.Submitting? || pc.Filled? || pc.Trying?
  }

  predicate SendsAfter(s: State, i: nat)
    requires i < |s.threads|
  {
    var pc := s.threads[i];
    Sending(pc) ==>
      && pc.t < |s.ops| && s.ops[pc.t].producer == i
      && forall k | 0 <= k < |s.pushed| :: ByNow(s.pushed, s.ops, k, i, pc.t)
  }

  predicate PushOk(pushed: seq<nat>, ops: seq<Op>, b: nat)
    requires b < |pushed|
  {
    && pushed[b] < |ops|
    && forall k | 0 <= k < b :: ByNow(pushed, ops, k, ops[pushed[b]].producer, pushed[b])
  }

  /** Each activity's pushes happen in the order in which it began them. */
  predicate ProducersInOrder(s: State) {
    && (forall b | 0 <= b < |s.pushed| :: PushOk(s.pushed, s.ops, b))
    && forall i | 0 <= i < |s.threads| :: SendsAfter(s, i)
  }

  predicate Inv(s: State) {
    && NodesOwned(s) && NodesPlaced(s) && Chained(s)
    && OpsOwned(s) && OpsPlaced(s) && RunsOnce(s) && KindsFit(s)
    && Counting(s) && Logged(s) && ProducersInOrder(s)
  }

  // ---------------------------------------------------------------- counting

  lemma {:induction false} OutstandingSnoc(ops: seq<Op>, op: Op)
    ensures Outstanding(ops + [op]) == Outstanding(ops) + Unfinished(op)
  {
    assert (ops + [op])[..|ops|] == ops;
  }

  /** Changing operations without finishing any leaves the count. */
  lemma {:induction false} OutstandingSame(a: seq<Op>, b: seq<Op>)
    requires |a| == |b| && forall k | 0 <= k < |a| :: Unfinished(a[k]) == Unfinished(b[k])
    ensures Outstanding(a) == Outstanding(b)
  {
    if a != [] {
      OutstandingSame(a[..|a| - 1], b[..|a| - 1]);
    }
  }

  lemma {:induction false} OutstandingFinish(ops: seq<Op>, t: nat)
    requires t < |ops| && ops[t].kind.Task? && ops[t].stage != Finished
    ensures Outstanding(Staged(ops, t, Finished)) == Outstanding(ops) - 1
  {
    var n := |ops| - 1;
    var after := Staged(ops, t, Finished);
    if t == n {
      OutstandingSame(ops[..n], after[..n]);
    } else {
      OutstandingFinish(ops[..n], t);
      assert after[..n] == Staged(ops[..n], t, Finished);
    }
  }

  // ---------------------------------------------------------------- each step keeps it

  /** What the acting activity holds, spelled out for the step at hand. */
  lemma ActorFacts(s: State, i: nat)
    requires NodesOwned(s) && Chained(s) && OpsOwned(s) && i < |s.threads|
    ensures HoldsOwn(s, i) && WalkSound(s, i) && TasksOwn(s.ops, s.threads, i)
    ensures s.free != [] ==> FreeOwn(s, |s.free| - 1)
    ensures var pc := s.threads[i];
            pc.Handling? && pc.at < |pc.nodes| ==>
              var b := pc.batch[pc.at];
              pc.nodes[pc.at] == b.node && NodeIs(s, b.node, Batched(i, pc.at), b.ticket) && CellOwn(s, b.node)
  {
    var pc := s.threads[i];
    assert HoldsOwn(s, i) && WalkSound(s, i) && TasksOwn(s.ops, s.threads, i);
    assert s.free != [] ==> FreeOwn(s, |s.free| - 1);
    if pc.Handling? && pc.at < |pc.nodes| {
      assert NodeIs(s, pc.batch[pc.at].node, Batched(i, pc.at), pc.batch[pc.at].ticket);
      assert CellOwn(s, pc.batch[pc.at].node);
    }
  }

  /** A step of `a.i` moves no other activity. */
  lemma OthersStand(s: State, a: Action, j: nat)
    requires j < |s.threads| && j != a.i
    ensures |Do(s, a).threads| == |s.threads| && Do(s, a).threads[j] == s.threads[j]
  {
  }

  lemma FreeOwnKept(s: State, a: Action, k: nat)
    requires NodesOwned(s) && Chained(s) && OpsOwned(s) && a.i < |s.threads|
    requires k < |Do(s, a).free| && (k < |s.free| ==> FreeOwn(s, k))
    ensures FreeOwn(Do(s, a), k)
  {
    ActorFacts(s, a.i);
    hide NodesOwned, Chained, OpsOwned;
  }

  lemma StackOwnKept(s: State, a: Action, k: nat)
    requires NodesOwned(s) && Chained(s) && OpsOwned(s) && a.i < |s.threads|
    requires k < |Do(s, a).stack| && (k < |s.stack| ==> StackOwn(s, k))
    ensures StackOwn(Do(s, a), k)
  {
    ActorFacts(s, a.i);
    hide NodesOwned, Chained, OpsOwned;
  }

  /** No step touches a node another activity holds. */
  lemma OthersNodeKept(s: State, a: Action, n: nat)
    requires NodesOwned(s) && Chained(s) && OpsOwned(s) && a.i < |s.threads|
    requires n < |s.heap| && (s.owner[n].Held? || s.owner[n].Batched?) && s.owner[n].i != a.i
    ensures n < |Do(s, a).heap| == |Do(s, a).owner|
    ensures Do(s, a).heap[n] == s.heap[n] && Do(s, a).owner[n] == s.owner[n]
  {
    ActorFacts(s, a.i);
    hide NodesOwned, Chained, OpsOwned;
  }

  lemma OthersHold(s: State, a: Action, j: nat)
    requires NodesOwned(s) && Chained(s) && OpsOwned(s) && a.i < |s.threads|
    requires j < |s.threads| && j != a.i
    ensures Do(s, a).threads[j] == s.threads[j] && HoldsOwn(Do(s, a), j)
  {
    OthersStand(s, a, j);
    assert HoldsOwn(s, j);
    forall n | 0 <= n < |s.heap| && (s.owner[n].Held? || s.owner[n].Batched?) && s.owner[n].i == j
      ensures n < |Do(s, a).heap| == |Do(s, a).owner|
      ensures Do(s, a).heap[n] == s.heap[n] && Do(s, a).owner[n] == s.owner[n]
    {
      OthersNodeKept(s, a, n);
    }
  }

  lemma HandlerHolds(s: State, a: Action)
    requires NodesOwned(s) && Chained(s) && OpsOwned(s) && a.i < |s.threads|
    requires s.threads[a.i].Handling?
    ensures HoldsOwn(Do(s, a), a.i)
  {
    ActorFacts(s, a.i);
    hide NodesOwned, Chained, OpsOwned, FreeOwn, CellOwn, TasksOwn;
  }

  lemma ActorHolds(s: State, a: Action)
    requires NodesOwned(s) && Chained(s) && OpsOwned(s) && a.i < |s.threads|
    ensures HoldsOwn(Do(s, a), a.i)
  {
    ActorFacts(s, a.i);
    hide NodesOwned, Chained, OpsOwned, DoHandle;
    if s.threads[a.i].Handling? {
      HandlerHolds(s, a);
    } else if a.Exchange? {
      forall k | 0 <= k < |s.stack|
        ensures NodeIs(s, s.stack[k].node, InQueue(k), s.stack[k].ticket)
      {
        assert StackOwn(s, k);
      }
    }
  }

  lemma IdleNodePlaced(s: State, a: Action, n: nat)
    requires NodesOwned(s) && Chained(s) && OpsOwned(s) && a.i < |s.threads|
    requires n < |s.owner| && NodePlaced(s, n) && (s.owner[n].Free? || s.owner[n].InQueue?)
    ensures n < |Do(s, a).owner| && NodePlaced(Do(s, a), n)
  {
    ActorFacts(s, a.i);
    hide NodesOwned, Chained, OpsOwned;
  }

  lemma OwnNodeWhileHandling(s: State, a: Action, n: nat)
    requires NodesOwned(s) && Chained(s) && OpsOwned(s) && a.i < |s.threads|
    requires s.threads[a.i].Handling?
    requires n < |s.owner| && NodePlaced(s, n)
             && (s.owner[n] == Held(a.i) || (s.owner[n].Batched? && s.owner[n].i == a.i))
    ensures n < |Do(s, a).owner| && NodePlaced(Do(s, a), n)
  {
    assert HoldsOwn(s, a.i) && WalkSound(s, a.i);
    hide NodesOwned, Chained, OpsOwned, HoldsOwn;
    var pc := s.threads[a.i];
    assert Do(s, a) == s || Do(s, a) == DoHandle(s, a.i, pc.nodes, pc.at, pc.batch, pc.ready);
    hide Do;
    assert pc.at < |pc.nodes| ==> pc.nodes[pc.at] == pc.batch[pc.at].node;
  }

  lemma OwnNodePlaced(s: State, a: Action, n: nat)
    requires NodesOwned(s) && Chained(s) && OpsOwned(s) && a.i < |s.threads|
    requires n < |s.owner| && NodePlaced(s, n)
             && (s.owner[n] == Held(a.i) || (s.owner[n].Batched? && s.owner[n].i == a.i))
    ensures n < |Do(s, a).owner| && NodePlaced(Do(s, a), n)
  {
    assert HoldsOwn(s, a.i) && WalkSound(s, a.i);
    hide NodesOwned, Chained, OpsOwned, DoHandle;
    match s.threads[a.i] {
      case Filled(t, x) =>
        assert Do(s, a) == s || (a.Load? && Do(s, a) == DoLoad(s, a.i, t, x, a.seen));
      case Trying(t, x) =>
        assert Do(s, a) == s || (a.Cas? && Do(s, a) == DoCas(s, a.i, t, x, a.spurious, a.seen));
      case Walking(cur, got, batch, from) =>
        assert Do(s, a) == s || Do(s, a) == DoWalk(s, a.i, cur, got, batch, from);
      case Handling(_, _, _, _) => OwnNodeWhileHandling(s, a, n);
    }
  }

  lemma OthersNodePlaced(s: State, a: Action, n: nat)
    requires NodesOwned(s) && Chained(s) && OpsOwned(s) && a.i < |s.threads|
    requires n < |s.owner| && NodePlaced(s, n) && (s.owner[n].Held? || s.owner[n].Batched?) && s.owner[n].i != a.i
    ensures n < |Do(s, a).owner| && NodePlaced(Do(s, a), n)
  {
    OthersNodeKept(s, a, n);
    assert Do(s, a).threads == Put(s.threads, a.i, Do(s, a).threads[a.i]);
  }

  lemma NewNodePlaced(s: State, a: Action)
    requires NodesOwned(s) && Chained(s) && OpsOwned(s) && a.i < |s.threads|
    ensures |s.owner| <= |Do(s, a).owner| <= |s.owner| + 1 && |Do(s, a).owner| == |Do(s, a).heap|
    ensures |Do(s, a).owner| == |s.owner| + 1 ==> NodePlaced(Do(s, a), |s.owner|)
  {
    ActorFacts(s, a.i);
    hide NodesOwned, Chained, OpsOwned;
  }

  lemma CellOwnKept(s: State, a: Action, n: nat)
    requires NodesOwned(s) && Chained(s) && OpsOwned(s) && a.i < |s.threads|
    requires n < |Do(s, a).heap| && (n < |s.heap| ==> CellOwn(s, n))
    ensures CellOwn(Do(s, a), n)
  {
    ActorFacts(s, a.i);
    hide NodesOwned, Chained, OpsOwned;
  }

  lemma OthersOpKept(s: State, a: Action, t: nat)
    requires NodesOwned(s) && Chained(s) && OpsOwned(s) && a.i < |s.threads|
    requires t < |s.ops| && (s.ops[t].stage.Counted? || s.ops[t].stage.Ready?) && s.ops[t].stage.i != a.i
    ensures t < |Do(s, a).ops| && Do(s, a).ops[t] == s.ops[t]
  {
    ActorFacts(s, a.i);
    hide NodesOwned, Chained, OpsOwned;
  }

  lemma OthersTasks(s: State, a: Action, j: nat)
    requires NodesOwned(s) && Chained(s) && OpsOwned(s) && a.i < |s.threads|
    requires j < |s.threads| && j != a.i
    ensures Do(s, a).threads[j] == s.threads[j] && TasksOwn(Do(s, a).ops, Do(s, a).threads, j)
  {
    OthersStand(s, a, j);
    assert TasksOwn(s.ops, s.threads, j);
    forall t | 0 <= t < |s.ops| && (s.ops[t].stage.Counted? || s.ops[t].stage.Ready?) && s.ops[t].stage.i == j
      ensures t < |Do(s, a).ops| && Do(s, a).ops[t] == s.ops[t]
    {
      OthersOpKept(s, a, t);
    }
  }

  lemma HandlerTasks(s: State, a: Action)
    requires NodesOwned(s) && Chained(s) && OpsOwned(s) && a.i < |s.threads|
    requires s.threads[a.i].Handling?
    ensures TasksOwn(Do(s, a).ops, Do(s, a).threads, a.i)
  {
    ActorFacts(s, a.i);
    hide NodesOwned, Chained, OpsOwned, HoldsOwn, FreeOwn;
  }

  lemma ActorTasks(s: State, a: Action)
    requires NodesOwned(s) && Chained(s) && OpsOwned(s) && a.i < |s.threads|
    ensures TasksOwn(Do(s, a).ops, Do(s, a).threads, a.i)
  {
    hide NodesOwned, Chained, OpsOwned, DoHandle, HoldsOwn, WalkSound, FreeOwn, CellOwn;
    if s.threads[a.i].Handling? {
      HandlerTasks(s, a);
    } else {
      ActorFacts(s, a.i);
    }
  }

  lemma CarriedWhileHandling(s: State, a: Action, t: nat)
    requires NodesOwned(s) && Chained(s) && OpsOwned(s) && a.i < |s.threads|
    requires t < |s.ops| && OpPlaced(s, t) && s.ops[t].stage.Carried? && s.threads[a.i].Handling?
    ensures t < |Do(s, a).ops| && OpPlaced(Do(s, a), t)
  {
    ActorFacts(s, a.i);
    hide NodesOwned, Chained, OpsOwned;
  }

  lemma CarriedOpPlaced(s: State, a: Action, t: nat)
    requires NodesOwned(s) && Chained(s) && OpsOwned(s) && a.i < |s.threads|
    requires t < |s.ops| && OpPlaced(s, t) && s.ops[t].stage.Carried?
    ensures t < |Do(s, a).ops| && OpPlaced(Do(s, a), t)
  {
    hide NodesOwned, Chained, OpsOwned, DoHandle;
    if s.threads[a.i].Handling? {
      CarriedWhileHandling(s, a, t);
    } else {
      ActorFacts(s, a.i);
    }
  }

  lemma OwnWhileHandling(s: State, a: Action, t: nat)
    requires NodesOwned(s) && Chained(s) && OpsOwned(s) && a.i < |s.threads|
    requires t < |s.ops| && OpPlaced(s, t) && s.threads[a.i].Handling?
    requires (s.ops[t].stage.Counted? || s.ops[t].stage.Ready?) ==> s.ops[t].stage.i == a.i
    requires !s.ops[t].stage.Carried?
    ensures t < |Do(s, a).ops| && OpPlaced(Do(s, a), t)
  {
    ActorFacts(s, a.i);
    hide NodesOwned, Chained, OpsOwned, HoldsOwn, WalkSound, FreeOwn;
  }

  lemma OwnOpPlaced(s: State, a: Action, t: nat)
    requires NodesOwned(s) && Chained(s) && OpsOwned(s) && a.i < |s.threads|
    requires t < |s.ops| && OpPlaced(s, t)
    requires (s.ops[t].stage.Counted? || s.ops[t].stage.Ready?) ==> s.ops[t].stage.i == a.i
    requires !s.ops[t].stage.Carried?
    ensures t < |Do(s, a).ops| && OpPlaced(Do(s, a), t)
  {
    hide NodesOwned, Chained, OpsOwned, DoHandle;
    if s.threads[a.i].Handling? {
      OwnWhileHandling(s, a, t);
    } else {
      ActorFacts(s, a.i);
      hide FreeOwn, CellOwn, HoldsOwn, WalkSound, Claim, Top, Linked;
    }
  }

  lemma OthersOpPlaced(s: State, a: Action, t: nat)
    requires NodesOwned(s) && Chained(s) && OpsOwned(s) && a.i < |s.threads|
    requires t < |s.ops| && OpPlaced(s, t) && (s.ops[t].stage.Counted? || s.ops[t].stage.Ready?)
             && s.ops[t].stage.i != a.i
    ensures t < |Do(s, a).ops| && OpPlaced(Do(s, a), t)
  {
    OthersOpKept(s, a, t);
    assert Do(s, a).threads == Put(s.threads, a.i, Do(s, a).threads[a.i]);
  }

  lemma NewOpPlaced(s: State, a: Action)
    requires NodesOwned(s) && Chained(s) && OpsOwned(s) && a.i < |s.threads|
    ensures |s.ops| <= |Do(s, a).ops| <= |s.ops| + 1
    ensures |Do(s, a).ops| == |s.ops| + 1 ==> OpPlaced(Do(s, a), |s.ops|)
  {
    ActorFacts(s, a.i);
    hide NodesOwned, Chained, OpsOwned;
  }

  lemma OthersRunsKept(s: State, a: Action, t: nat)
    requires NodesOwned(s) && Chained(s) && OpsOwned(s) && a.i < |s.threads|
    requires t < |s.ops| && OpRunsOnce(s, t)
    requires (s.ops[t].stage.Counted? || s.ops[t].stage.Ready?) && s.ops[t].stage.i != a.i
    ensures t < |Do(s, a).ops| && OpRunsOnce(Do(s, a), t)
  {
    OthersOpKept(s, a, t);
    assert Do(s, a).threads == Put(s.threads, a.i, Do(s, a).threads[a.i]);
  }

  lemma RunsKeptHandling(s: State, a: Action, t: nat)
    requires NodesOwned(s) && Chained(s) && OpsOwned(s) && a.i < |s.threads|
    requires t < |Do(s, a).ops| && t < |s.ops| && OpPlaced(s, t) && OpRunsOnce(s, t) && s.threads[a.i].Handling?
    requires (s.ops[t].stage.Counted? || s.ops[t].stage.Ready?) ==> s.ops[t].stage.i == a.i
    ensures OpRunsOnce(Do(s, a), t)
  {
    ActorFacts(s, a.i);
    hide NodesOwned, Chained, OpsOwned, HoldsOwn, WalkSound, FreeOwn;
  }

  lemma RunsKeptRunning(s: State, a: Action, t: nat)
    requires NodesOwned(s) && Chained(s) && OpsOwned(s) && a.i < |s.threads|
    requires t < |Do(s, a).ops| && t < |s.ops| && OpPlaced(s, t) && OpRunsOnce(s, t)
    requires s.threads[a.i].Between? || s.threads[a.i].Inside? || s.threads[a.i].Returned?
    requires (s.ops[t].stage.Counted? || s.ops[t].stage.Ready?) ==> s.ops[t].stage.i == a.i
    ensures OpRunsOnce(Do(s, a), t)
  {
    ActorFacts(s, a.i);
    hide NodesOwned, Chained, OpsOwned, HoldsOwn, WalkSound, FreeOwn, CellOwn, DoBegin, DoAcquire, DoHandle;
  }

  lemma RunsKeptElsewhere(s: State, a: Action, t: nat)
    requires NodesOwned(s) && Chained(s) && OpsOwned(s) && a.i < |s.threads|
    requires t < |Do(s, a).ops| && (t < |s.ops| ==> OpPlaced(s, t) && OpRunsOnce(s, t))
    requires var pc := s.threads[a.i]; !pc.Handling? && !pc.Between? && !pc.Inside? && !pc.Returned?
    requires t < |s.ops| && (s.ops[t].stage.Counted? || s.ops[t].stage.Ready?) ==> s.ops[t].stage.i == a.i
    ensures OpRunsOnce(Do(s, a), t)
  {
    ActorFacts(s, a.i);
    hide NodesOwned, Chained, OpsOwned, HoldsOwn, WalkSound, FreeOwn, CellOwn;
    hide DoHandle, DoNextTask, DoThrow, DoSubtract;
  }

  lemma OnlyBeginAdds(s: State, a: Action)
    requires a.i < |s.threads| && |Do(s, a).ops| != |s.ops|
    ensures s.threads[a.i].Idle?
  {
  }

  lemma OwnRunsKept(s: State, a: Action, t: nat)
    requires NodesOwned(s) && Chained(s) && OpsOwned(s) && a.i < |s.threads|
    requires t < |Do(s, a).ops| && (t < |s.ops| ==> OpPlaced(s, t) && OpRunsOnce(s, t))
    requires t < |s.ops| && (s.ops[t].stage.Counted? || s.ops[t].stage.Ready?) ==> s.ops[t].stage.i == a.i
    ensures OpRunsOnce(Do(s, a), t)
  {
    hide *;
    var pc := s.threads[a.i];
    if |Do(s, a).ops| != |s.ops| {
      OnlyBeginAdds(s, a);
    }
    if pc.Handling? {
      RunsKeptHandling(s, a, t);
    } else if pc.Between? || pc.Inside? || pc.Returned? {
      RunsKeptRunning(s, a, t);
    } else {
      RunsKeptElsewhere(s, a, t);
    }
  }

  lemma RunsOnceKept(s: State, a: Action)
    requires NodesOwned(s) && Chained(s) && OpsOwned(s) && a.i < |s.threads|
    requires OpsPlaced(s) && RunsOnce(s)
    ensures RunsOnce(Do(s, a))
  {
    forall t | 0 <= t < |Do(s, a).ops|
      ensures OpRunsOnce(Do(s, a), t)
    {
      assert t < |s.ops| ==> OpPlaced(s, t) && OpRunsOnce(s, t);
      if t < |s.ops| && (s.ops[t].stage.Counted? || s.ops[t].stage.Ready?) && s.ops[t].stage.i != a.i {
        OthersRunsKept(s, a, t);
      } else {
        OwnRunsKept(s, a, t);
      }
    }
  }

  lemma OnlySubtractFinishes(s: State, a: Action, k: nat)
    requires NodesOwned(s) && Chained(s) && OpsOwned(s) && a.i < |s.threads|
    requires !(a.Subtract? && s.threads[a.i].Returned?) && k < |s.ops|
    ensures k < |Do(s, a).ops| && Unfinished(Do(s, a).ops[k]) == Unfinished(s.ops[k])
    ensures !(a.Begin? && s.threads[a.i].Idle?) ==> |Do(s, a).ops| == |s.ops| && Do(s, a).pending == s.pending
  {
    ActorFacts(s, a.i);
    hide NodesOwned, Chained, OpsOwned;
  }

  lemma LoggedKept(s: State, a: Action)
    requires Chained(s) && Logged(s) && a.i < |s.threads|
    ensures Logged(Do(s, a))
  {
  }

  lemma ProducersStay(s: State, a: Action, k: nat)
    requires k < |s.ops|
    ensures k < |Do(s, a).ops| && Do(s, a).ops[k].producer == s.ops[k].producer
  {
  }

  /** Links of queued and batched nodes are written by nobody. */
  lemma LinkStays(s: State, a: Action, n: nat)
    requires NodesOwned(s) && Chained(s) && OpsOwned(s) && a.i < |s.threads|
    requires n < |s.heap| && (s.owner[n].InQueue? || (s.owner[n].Batched? && s.owner[n].i != a.i))
    ensures CellAt(Do(s, a).heap, n) == s.heap[n]
  {
    ActorFacts(s, a.i);
    hide NodesOwned, Chained, OpsOwned;
  }

  lemma StackStaysLinked(s: State, a: Action)
    requires NodesOwned(s) && Chained(s) && OpsOwned(s) && a.i < |s.threads|
    ensures Do(s, a).head == Top(Do(s, a).stack, |Do(s, a).stack|) && Linked(Do(s, a).heap, Do(s, a).stack)
  {
    var r := Do(s, a);
    ActorFacts(s, a.i);
    hide NodesOwned, Chained, OpsOwned;
    forall k | 0 <= k < |r.stack|
      ensures Link(r.heap, r.stack, k)
    {
      if k < |s.stack| {
        assert Link(s.heap, s.stack, k) && StackOwn(s, k);
        LinkStays(s, a, s.stack[k].node);
      }
    }
  }

  lemma OthersWalk(s: State, a: Action, j: nat)
    requires NodesOwned(s) && Chained(s) && OpsOwned(s) && a.i < |s.threads|
    requires j < |s.threads| && j != a.i
    ensures WalkSound(Do(s, a), j)
  {
    var r := Do(s, a);
    OthersStand(s, a, j);
    assert WalkSound(s, j);
    if s.threads[j].Walking? {
      var batch := s.threads[j].batch;
      forall k | 0 <= k < |batch|
        ensures Link(r.heap, batch, k)
      {
        assert Link(s.heap, batch, k) && HoldsOwn(s, j);
        LinkStays(s, a, batch[k].node);
      }
    }
  }

  lemma WalkerWalks(s: State, a: Action)
    requires NodesOwned(s) && Chained(s) && OpsOwned(s) && a.i < |s.threads| && s.threads[a.i].Walking?
    ensures WalkSound(Do(s, a), a.i)
  {
    var pc := s.threads[a.i];
    assert WalkSound(s, a.i);
    if a.Walk? && pc.cur.Some? {
      assert Link(s.heap, pc.batch, |pc.batch| - 1 - |pc.got|);
    }
  }

  lemma ActorWalks(s: State, a: Action)
    requires NodesOwned(s) && Chained(s) && OpsOwned(s) && a.i < |s.threads|
    ensures WalkSound(Do(s, a), a.i)
  {
    assert WalkSound(s, a.i);
    match s.threads[a.i] {
      case Walking(_, _, _, _) => WalkerWalks(s, a);
      case Handling(nodes, at, batch, ready) =>
        assert Do(s, a) == s || Do(s, a) == DoHandle(s, a.i, nodes, at, batch, ready);
      case Idle =>
        assert Do(s, a) == s || Do(s, a).threads[a.i].Submitting? || Do(s, a) == DoExchange(s, a.i);
      case _ =>
        assert !Do(s, a).threads[a.i].Walking? && !Do(s, a).threads[a.i].Handling?;
    }
  }

  /** What a step can do to the push log. */
  lemma PushLogGrows(s: State, a: Action)
    requires OpsOwned(s) && ProducersInOrder(s) && a.i < |s.threads|
    ensures var r := Do(s, a); var pc := s.threads[a.i];
            && |s.ops| <= |r.ops| && |r.threads| == |s.threads|
            && (forall k | 0 <= k < |s.ops| :: r.ops[k].producer == s.ops[k].producer)
            && (r.pushed == s.pushed || (pc.Trying? && r.pushed == s.pushed + [pc.t] && r.threads[a.i] == Idle))
  {
    forall k | 0 <= k < |s.ops|
      ensures k < |Do(s, a).ops| && Do(s, a).ops[k].producer == s.ops[k].producer
    {
      ProducersStay(s, a, k);
    }
  }

  lemma PushesStayOrdered(s: State, a: Action, b: nat)
    requires OpsOwned(s) && ProducersInOrder(s) && a.i < |s.threads|
    requires b < |Do(s, a).pushed|
    ensures PushOk(Do(s, a).pushed, Do(s, a).ops, b)
  {
    var r := Do(s, a);
    PushLogGrows(s, a);
    assert SendsAfter(s, a.i);
    if b < |s.pushed| {
      assert PushOk(s.pushed, s.ops, b);
    }
    forall k | 0 <= k < b
      ensures ByNow(r.pushed, r.ops, k, r.ops[r.pushed[b]].producer, r.pushed[b])
    {
      assert PushOk(s.pushed, s.ops, k);
      if b < |s.pushed| {
        assert ByNow(s.pushed, s.ops, k, s.ops[s.pushed[b]].producer, s.pushed[b]);
      } else {
        assert ByNow(s.pushed, s.ops, k, a.i, s.threads[a.i].t);
      }
    }
  }

  /** An activity is sending what it was sending before, or has just begun a new submission. */
  lemma SenderSends(s: State, a: Action, j: nat)
    requires a.i < |s.threads| && j < |s.threads|
    ensures var r := Do(s, a);
            |r.threads| == |s.threads| && (Sending(r.threads[j]) ==>
              if Sending(s.threads[j]) && s.threads[j].t == r.threads[j].t then |s.ops| <= |r.ops|
              else
                && |r.ops| == |s.ops| + 1 && r.threads[j].t == |s.ops| && r.ops[|s.ops|].producer == j
                && r.pushed == s.pushed)
    ensures j != a.i ==> Do(s, a).threads[j] == s.threads[j]
  {
  }

  lemma SendersStayAhead(s: State, a: Action, j: nat)
    requires OpsOwned(s) && ProducersInOrder(s) && a.i < |s.threads|
    requires j < |s.threads|
    ensures j < |Do(s, a).threads| && SendsAfter(Do(s, a), j)
  {
    var r := Do(s, a);
    PushLogGrows(s, a);
    SenderSends(s, a, j);
    hide Do;
    assert SendsAfter(s, a.i) && SendsAfter(s, j);
    var pc := r.threads[j];
    if Sending(pc) {
      forall k | 0 <= k < |r.pushed|
        ensures ByNow(r.pushed, r.ops, k, j, pc.t)
      {
        if k < |s.pushed| {
          assert PushOk(s.pushed, s.ops, k);
          assert Sending(s.threads[j]) ==> ByNow(s.pushed, s.ops, k, j, s.threads[j].t);
        }
      }
    }
  }

  lemma NodesKept(s: State, a: Action)
    requires NodesOwned(s) && Chained(s) && OpsOwned(s) && a.i < |s.threads| && NodesPlaced(s)
    ensures NodesOwned(Do(s, a)) && NodesPlaced(Do(s, a))
  {
    var r := Do(s, a);
    NewNodePlaced(s, a);
    forall k | 0 <= k < |r.free|
      ensures FreeOwn(r, k)
    {
      FreeOwnKept(s, a, k);
    }
    forall k | 0 <= k < |r.stack|
      ensures StackOwn(r, k)
    {
      StackOwnKept(s, a, k);
    }
    forall j | 0 <= j < |r.threads|
      ensures HoldsOwn(r, j)
    {
      if j == a.i {
        ActorHolds(s, a);
      } else {
        OthersHold(s, a, j);
      }
    }
    forall n | 0 <= n < |r.owner|
      ensures NodePlaced(r, n)
    {
      if n < |s.owner| {
        if s.owner[n].Free? || s.owner[n].InQueue? {
          IdleNodePlaced(s, a, n);
        } else if s.owner[n].i == a.i {
          OwnNodePlaced(s, a, n);
        } else {
          OthersNodePlaced(s, a, n);
        }
      }
    }
  }

  lemma OpsKept(s: State, a: Action)
    requires NodesOwned(s) && Chained(s) && OpsOwned(s) && a.i < |s.threads| && OpsPlaced(s)
    ensures OpsOwned(Do(s, a)) && OpsPlaced(Do(s, a))
  {
    var r := Do(s, a);
    NewOpPlaced(s, a);
    forall n | 0 <= n < |r.heap|
      ensures CellOwn(r, n)
    {
      CellOwnKept(s, a, n);
    }
    forall j | 0 <= j < |r.threads|
      ensures TasksOwn(r.ops, r.threads, j)
    {
      if j == a.i {
        ActorTasks(s, a);
      } else {
        OthersTasks(s, a, j);
      }
    }
    forall t | 0 <= t < |r.ops|
      ensures OpPlaced(r, t)
    {
      if t < |s.ops| {
        if s.ops[t].stage.Carried? {
          CarriedOpPlaced(s, a, t);
        } else if (s.ops[t].stage.Counted? || s.ops[t].stage.Ready?) && s.ops[t].stage.i != a.i {
          OthersOpPlaced(s, a, t);
        } else {
          OwnOpPlaced(s, a, t);
        }
      }
    }
  }

  lemma ListsKept(s: State, a: Action)
    requires NodesOwned(s) && Chained(s) && OpsOwned(s) && a.i < |s.threads|
    ensures Chained(Do(s, a))
  {
    var r := Do(s, a);
    StackStaysLinked(s, a);
    forall j | 0 <= j < |r.threads|
      ensures WalkSound(r, j)
    {
      if j == a.i {
        ActorWalks(s, a);
      } else {
        OthersWalk(s, a, j);
      }
    }
  }

  lemma OrderKept(s: State, a: Action)
    requires OpsOwned(s) && ProducersInOrder(s) && a.i < |s.threads|
    ensures ProducersInOrder(Do(s, a))
  {
    var r := Do(s, a);
    PushLogGrows(s, a);
    forall b | 0 <= b < |r.pushed|
      ensures PushOk(r.pushed, r.ops, b)
    {
      PushesStayOrdered(s, a, b);
    }
    forall j | 0 <= j < |r.threads|
      ensures SendsAfter(r, j)
    {
      SendersStayAhead(s, a, j);
    }
  }

  lemma SameCount(s: State, a: Action)
    requires a.i < |s.threads| && !(a.Begin? && s.threads[a.i].Idle?) && !(a.Subtract? && s.threads[a.i].Returned?)
    ensures |Do(s, a).ops| == |s.ops| && Do(s, a).pending == s.pending
  {
  }

  lemma OtherStepsCount(s: State, a: Action, r: State)
    requires NodesOwned(s) && Chained(s) && OpsOwned(s) && a.i < |s.threads| && Counting(s) && r == Do(s, a)
    requires !(a.Begin? && s.threads[a.i].Idle?) && !(a.Subtract? && s.threads[a.i].Returned?)
    ensures Counting(r)
  {
    SameCount(s, a);
    var before, after := s.ops, r.ops;
    forall k | 0 <= k < |before|
      ensures Unfinished(after[k]) == Unfinished(before[k])
    {
      OnlySubtractFinishes(s, a, k);
    }
    OutstandingSame(before, after);
  }

  lemma SubtractCounts(s: State, i: nat, ready: seq<nat>, at: nat)
    requires OpsOwned(s) && Counting(s) && i < |s.threads| && s.threads[i] == Returned(ready, at)
    ensures Counting(DoSubtract(s, i, ready, at))
  {
    assert TasksOwn(s.ops, s.threads, i);
    OutstandingFinish(s.ops, ready[at]);
  }

  lemma CountingKept(s: State, a: Action)
    requires NodesOwned(s) && Chained(s) && OpsOwned(s) && a.i < |s.threads| && Counting(s)
    ensures Counting(Do(s, a))
  {
    var r, pc := Do(s, a), s.threads[a.i];
    if a.Begin? && pc.Idle? {
      assert r == DoBegin(s, a.i, a.kind);
      OutstandingSnoc(s.ops, Op(a.i, a.kind, Counted(a.i), 0));
    } else if a.Subtract? && pc.Returned? {
      assert r == DoSubtract(s, a.i, pc.ready, pc.at);
      SubtractCounts(s, a.i, pc.ready, pc.at);
    } else {
      OtherStepsCount(s, a, r);
    }
  }

  lemma KindsKept(s: State, a: Action)
    requires OpsOwned(s) && KindsFit(s) && a.i < |s.threads|
    ensures KindsFit(Do(s, a))
  {
    assert TasksOwn(s.ops, s.threads, a.i);
  }

  /** Every step of every activity keeps the invariant. */
  lemma StepKeeps(s: State, a: Action)
    requires Inv(s)
    ensures Inv(Do(s, a))
  {
    if a.i < |s.threads| {
      NodesKept(s, a);
      OpsKept(s, a);
      ListsKept(s, a);
      OrderKept(s, a);
      RunsOnceKept(s, a);
      KindsKept(s, a);
      CountingKept(s, a);
      LoggedKept(s, a);
    }
  }

  // ---------------------------------------------------------------- every run

  lemma StartIsSound(n: nat)
    ensures Inv(Start(n))
  {
  }

  lemma {:induction false} ExecKeeps(s: State, actions: seq<Action>)
    requires Inv(s)
    ensures Inv(Exec(s, actions))
    decreases |actions|
  {
    if actions != [] {
      StepKeeps(s, actions[0]);
      ExecKeeps(Do(s, actions[0]), actions[1..]);
    }
  }

  /** The nodes met by following `next` from `p`, at most `n` of them. */
  function Follow(heap: seq<Cell>, p: Option<nat>, n: nat): seq<nat>
    decreases n
  {
    if n == 0 || p.None? then [] else [p.value] + Follow(heap, CellAt(heap, p.value).next, n - 1)
  }

  /** The nodes of the lowest `k` slots, topmost first. */
  function NodesDown(slots: seq<Slot>, k: nat): seq<nat>
    requires k <= |slots|
  {
    if k == 0 then [] else [slots[k - 1].node] + NodesDown(slots, k - 1)
  }

  lemma {:induction false} FollowLinked(heap: seq<Cell>, slots: seq<Slot>, k: nat, extra: nat)
    requires Linked(heap, slots) && k <= |slots|
    ensures Follow(heap, Top(slots, k), k + extra) == NodesDown(slots, k)
  {
    if k > 0 {
      assert Link(heap, slots, k - 1);
      FollowLinked(heap, slots, k - 1, extra);
    }
  }

  /**
   In every reachable state, with any number of activities pushing and draining and nodes recycled in
   between: the list from the head ends, and holds the queued elements newest first; the drained
   elements followed by the queued ones are the pushes in compare-and-swap order, each once; and each
   activity's pushes appear in the order in which it began them.
   */
  lemma QueueLinearizes(n: nat, actions: seq<Action>, extra: nat)
    ensures var s := Exec(Start(n), actions);
            && s.pushed == s.taken + Tickets(s.stack)
            && Follow(s.heap, s.head, |s.stack| + extra) == NodesDown(s.stack, |s.stack|)
            && (forall k | 0 <= k < |s.stack| :: StackOwn(s, k))
            && (forall b | 0 <= b < |s.pushed| :: PushOk(s.pushed, s.ops, b))
            && (forall a, b | 0 <= a < b < |s.pushed| :: s.pushed[a] != s.pushed[b])
  {
    StartIsSound(n);
    ExecKeeps(Start(n), actions);
    var s := Exec(Start(n), actions);
    hide Exec, NodesPlaced, OpsOwned, OpsPlaced, RunsOnce, KindsFit, Counting, StackOwn, PushOk, HoldsOwn;
    FollowLinked(s.heap, s.stack, |s.stack|, extra);
    PushedOnce(s);
  }

  lemma PushedOnce(s: State)
    requires ProducersInOrder(s)
    ensures forall a, b | 0 <= a < b < |s.pushed| :: s.pushed[a] != s.pushed[b]
  {
    forall a, b | 0 <= a < b < |s.pushed|
      ensures s.pushed[a] != s.pushed[b]
    {
      assert PushOk(s.pushed, s.ops, b);
      assert ByNow(s.pushed, s.ops, a, s.ops[s.pushed[b]].producer, s.pushed[b]);
    }
  }

  /** The nodes hold, in order, the drained submissions from position `from` on. */
  predicate ReturnsStretch(s: State, nodes: seq<nat>, from: nat) {
    && from + |nodes| <= |s.taken|
    && forall k | 0 <= k < |nodes| :: nodes[k] < |s.heap| && s.heap[nodes[k]].ticket == Some(s.taken[from + k])
  }

  lemma FinishedWalk(s: State, i: nat)
    requires NodesOwned(s) && Chained(s) && Logged(s)
    requires i < |s.threads| && s.threads[i].Walking? && s.threads[i].cur.None?
    ensures ReturnsStretch(s, Rev(s.threads[i].got), s.threads[i].from)
  {
    var pc := s.threads[i];
    assert WalkSound(s, i) && HoldsOwn(s, i) && BatchLogged(s.taken, pc);
    forall k | 0 <= k < |pc.batch|
      ensures s.taken[pc.from + k] == pc.batch[k].ticket
    {
      assert s.taken[pc.from..pc.from + |pc.batch|][k] == Tickets(pc.batch)[k];
    }
  }

  /** The vector a drain returns holds, oldest first, exactly the stretch of pushes its exchange took. */
  lemma DrainReturnsPushOrder(n: nat, actions: seq<Action>, i: nat)
    requires var s := Exec(Start(n), actions); i < |s.threads| && s.threads[i].Walking? && s.threads[i].cur.None?
    ensures var s := Exec(Start(n), actions);
            ReturnsStretch(s, Rev(s.threads[i].got), s.threads[i].from)
  {
    StartIsSound(n);
    ExecKeeps(Start(n), actions);
    FinishedWalk(Exec(Start(n), actions), i);
  }

  // ---------------------------------------------------------------- the task counter

  lemma {:induction false} NoneOutstanding(ops: seq<Op>)
    ensures Outstanding(ops) >= 0
    ensures Outstanding(ops) == 0 <==> forall t | 0 <= t < |ops| :: Unfinished(ops[t]) == 0
  {
    if ops != [] {
      var n := |ops| - 1;
      NoneOutstanding(ops[..n]);
      if Outstanding(ops) == 0 {
        forall t | 0 <= t < |ops|
          ensures Unfinished(ops[t]) == 0
        {
          assert t < n ==> ops[..n][t] == ops[t];
        }
      }
    }
  }

  /**
   The counter is the number of tasks counted and not finished. So it reads zero exactly when every
   task counted so far is finished, and then each of them has been started exactly once.
   */
  lemma GracefulDrain(n: nat, actions: seq<Action>)
    ensures var s := Exec(Start(n), actions);
            && s.pending == Outstanding(s.ops)
            && (s.pending <= 0 <==> forall t | 0 <= t < |s.ops| && s.ops[t].kind.Task? :: s.ops[t].stage == Finished)
            && (s.pending <= 0 ==> forall t | 0 <= t < |s.ops| && s.ops[t].kind.Task? :: s.ops[t].runs == 1)
            && (forall t | 0 <= t < |s.ops| :: s.ops[t].runs <= 1)
  {
    StartIsSound(n);
    ExecKeeps(Start(n), actions);
    var s := Exec(Start(n), actions);
    NoneOutstanding(s.ops);
    forall t | 0 <= t < |s.ops|
      ensures s.ops[t].runs <= 1 && (s.ops[t].stage == Finished ==> s.ops[t].runs == 1)
      ensures s.ops[t].kind.Task? ==> (Unfinished(s.ops[t]) == 0 <==> s.ops[t].stage == Finished)
    {
      assert OpRunsOnce(s, t);
    }
  }

  /** Nothing in progress anywhere. */
  predicate Quiescent(s: State) {
    s.stack == [] && forall i | 0 <= i < |s.threads| :: s.threads[i].Idle?
  }

  predicate Leaked(op: Op) {
    op.kind.Task? && (op.stage == Dropped || op.stage == Threw || op.stage == Lost)
  }

  lemma NothingCarried(s: State, n: nat)
    requires Inv(s) && Quiescent(s) && n < |s.heap|
    ensures s.heap[n].ticket == None
  {
    assert NodePlaced(s, n);
    assert s.owner[n].Free? ==> FreeOwn(s, s.owner[n].k);
  }

  /** With nothing in progress, every submission has come to an end, and the counter counts what leaked. */
  lemma QuietMeansDoneOrLeaked(n: nat, actions: seq<Action>)
    requires Quiescent(Exec(Start(n), actions))
    ensures var s := Exec(Start(n), actions);
            && (forall t | 0 <= t < |s.ops| ::
                  s.ops[t].stage == Accepted || s.ops[t].stage == Finished || Leaked(s.ops[t]))
            && (s.pending <= 0 <==> forall t | 0 <= t < |s.ops| :: !Leaked(s.ops[t]))
  {
    StartIsSound(n);
    ExecKeeps(Start(n), actions);
    var s := Exec(Start(n), actions);
    NoneOutstanding(s.ops);
    forall n | 0 <= n < |s.heap|
      ensures s.heap[n].ticket == None
    {
      NothingCarried(s, n);
    }
    forall t | 0 <= t < |s.ops|
      ensures s.ops[t].stage == Accepted || s.ops[t].stage == Finished || Leaked(s.ops[t])
      ensures Unfinished(s.ops[t]) == 0 <==> !Leaked(s.ops[t])
    {
      assert OpPlaced(s, t) && Fits(s.ops[t]);
    }
  }

  /** A task from an empty std::function is counted and never subtracted, so from then on the counter is never zero. */
  lemma EmptyTaskLeaks(n: nat, actions: seq<Action>, t: nat)
    requires t < |Exec(Start(n), actions).ops| && Exec(Start(n), actions).ops[t].kind == Task(true)
    ensures Exec(Start(n), actions).pending >= 1
  {
    StartIsSound(n);
    ExecKeeps(Start(n), actions);
    var s := Exec(Start(n), actions);
    NoneOutstanding(s.ops);
    assert Fits(s.ops[t]);
    assert Unfinished(s.ops[t]) == 1;
  }

  lemma LeakedStays(s: State, a: Action, t: nat)
    requires OpsOwned(s) && NodesOwned(s) && Chained(s) && t < |s.ops| && Leaked(s.ops[t])
    ensures t < |Do(s, a).ops| && Leaked(Do(s, a).ops[t])
  {
    if a.i < |s.threads| {
      ActorFacts(s, a.i);
    hide NodesOwned, Chained, OpsOwned;
    }
  }

  /** Once a task has thrown or been abandoned by a throw, no continuation of the run brings the counter to zero. */
  lemma {:induction false} LeakIsForever(s: State, actions: seq<Action>, t: nat)
    requires Inv(s) && t < |s.ops| && Leaked(s.ops[t])
    ensures Exec(s, actions).pending >= 1
    decreases |actions|
  {
    if actions == [] {
      NoneOutstanding(s.ops);
      assert Unfinished(s.ops[t]) == 1;
    } else {
      LeakedStays(s, actions[0], t);
      StepKeeps(s, actions[0]);
      LeakIsForever(Do(s, actions[0]), actions[1..], t);
    }
  }
}
