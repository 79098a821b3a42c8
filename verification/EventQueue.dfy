/**
 The event loop's inbound queue as interleaved atomic steps: lock-free pushes by any number of
 activities, batch drains, node recycling, and the counter of unfinished tasks.

 An activity is a thread, or one level of a nested call: a task that itself submits work is a second
 activity that moves while the first is inside the task. Submissions are numbered (tickets) in the order
 in which they begin. The fields after `pending` record what happened. Steps read them only to go on
 with the record; the one exception is the kind in `ops`, which the source stores in the operation itself.
 */
module EventQueue {
  import opened Wrappers
  import opened Sequences

  /** A task built from an empty std::function is accepted like any other. */
  datatype Kind = Io | Timer | Task(empty: bool)

  /** Where a submission is: not yet in a node, in one, in a batch's task list, or at one of its ends. */
  datatype Stage =
    | Counted(i: nat) | Carried(node: nat) | Ready(i: nat, k: nat)
    | Accepted | Finished | Dropped | Threw | Lost

  datatype Op = Op(producer: nat, kind: Kind, stage: Stage, runs: nat)

  datatype Cell = Cell(next: Option<nat>, ticket: Option<nat>)

  datatype Slot = Slot(node: nat, ticket: nat)

  /** Where a node is, with its position there. */
  datatype Place = Free(k: nat) | Held(i: nat) | InQueue(k: nat) | Batched(i: nat, k: nat)

  /**
   What an activity is doing. A batch is listed oldest first; a walk follows it from its newest end.
   `Handling` and the three task phases have dealt with everything before position `at`.
   */
  datatype Pc =
    | Idle
    | Submitting(t: nat)
    | Filled(t: nat, node: nat)
    | Trying(t: nat, node: nat)
    | Walking(cur: Option<nat>, got: seq<nat>, batch: seq<Slot>, from: nat)
    | Handling(nodes: seq<nat>, at: nat, batch: seq<Slot>, ready: seq<nat>)
    | Between(ready: seq<nat>, at: nat)
    | Inside(ready: seq<nat>, at: nat)
    | Returned(ready: seq<nat>, at: nat)

  /** `stack` lists the queue from its bottom, the oldest element, to its top, the head. */
  datatype State = State(
    threads: seq<Pc>, heap: seq<Cell>, head: Option<nat>, free: seq<nat>, pending: int,
    ops: seq<Op>, stack: seq<Slot>, owner: seq<Place>, pushed: seq<nat>, taken: seq<nat>)

  function Start(n: nat): State {
    State(seq(n, i => Idle), [], None, [], 0, [], [], [], [], [])
  }

  /** `seen` is what a relaxed load happened to return; `spurious` is a weak compare-and-swap failing for no reason. */
  datatype Action =
    | Begin(i: nat, kind: Kind)
    | Acquire(i: nat)
    | Load(i: nat, seen: Option<nat>)
    | Cas(i: nat, spurious: bool, seen: Option<nat>)
    | Exchange(i: nat)
    | Walk(i: nat)
    | Handle(i: nat)
    | NextTask(i: nat)
    | Return(i: nat)
    | Throw(i: nat)
    | Subtract(i: nat)

  // ---------------------------------------------------------------- small helpers

  function Rev<T>(s: seq<T>): (r: seq<T>)
    ensures |r| == |s|
    ensures forall i | 0 <= i < |s| :: r[i] == s[|s| - 1 - i]
  {
    seq(|s|, i requires 0 <= i < |s| => s[|s| - 1 - i])
  }

  function Tickets(slots: seq<Slot>): (r: seq<nat>)
    ensures |r| == |slots|
    ensures forall i | 0 <= i < |slots| :: r[i] == slots[i].ticket
  {
    seq(|slots|, i requires 0 <= i < |slots| => slots[i].ticket)
  }

  function CellAt(heap: seq<Cell>, n: nat): Cell {
    if n < |heap| then heap[n] else Cell(None, None)
  }

  function Staged(ops: seq<Op>, t: nat, stage: Stage): (r: seq<Op>)
    ensures |r| == |ops|
    ensures forall k | 0 <= k < |ops| :: r[k] == if k == t then ops[k].(stage := stage) else ops[k]
  {
    if t < |ops| then ops[t := ops[t].(stage := stage)] else ops
  }

  // ---------------------------------------------------------------- the steps

  function At(s: State, i: nat, pc: Pc): State {
    s.(threads := Put(s.threads, i, pc))
  }

  /** submit / submit_task up to the counter: tasks are counted before they can be seen by anyone. */
  function DoBegin(s: State, i: nat, kind: Kind): State {
    At(s, i, Submitting(|s.ops|)).(ops := s.ops + [Op(i, kind, Counted(i), 0)],
                                   pending := s.pending + if kind.Task? then 1 else 0)
  }

  /** acquire_inbound: the last free node, else a new one; either way it is reset and filled. */
  function DoAcquire(s: State, i: nat, t: nat): State {
    var cell := Cell(None, Some(t));
    if s.free != [] then
      var n := s.free[|s.free| - 1];
      At(s, i, Filled(t, n)).(free := s.free[..|s.free| - 1], heap := Put(s.heap, n, cell),
                              owner := Put(s.owner, n, Held(i)), ops := Staged(s.ops, t, Carried(n)))
    else
      var n := |s.heap|;
      At(s, i, Filled(t, n)).(heap := s.heap + [cell], owner := s.owner + [Held(i)],
                              ops := Staged(s.ops, t, Carried(n)))
  }

  function DoLoad(s: State, i: nat, t: nat, n: nat, seen: Option<nat>): State {
    At(s, i, Trying(t, n)).(heap := Put(s.heap, n, CellAt(s.heap, n).(next := seen)))
  }

  function DoPush(s: State, i: nat, t: nat, n: nat): State {
    At(s, i, Idle).(head := Some(n), stack := s.stack + [Slot(n, t)], owner := Put(s.owner, n, InQueue(|s.stack|)),
                    pushed := s.pushed + [t])
  }

  /** compare_exchange_weak(op->next, op): push when the head is what the node links to, else reload the link. */
  function DoCas(s: State, i: nat, t: nat, n: nat, spurious: bool, seen: Option<nat>): State {
    if !spurious && s.head == CellAt(s.heap, n).next then DoPush(s, i, t, n) else DoLoad(s, i, t, n, seen)
  }

  function Claim(owner: seq<Place>, i: nat): (r: seq<Place>)
    ensures |r| == |owner|
    ensures forall n | 0 <= n < |owner| :: r[n] == if owner[n].InQueue? then Batched(i, owner[n].k) else owner[n]
  {
    seq(|owner|, n requires 0 <= n < |owner| => if owner[n].InQueue? then Batched(i, owner[n].k) else owner[n])
  }

  /** drain_inbound, first half: the whole list changes hands in one exchange. */
  function DoExchange(s: State, i: nat): State {
    if s.head == None then s
    else
      At(s, i, Walking(s.head, [], s.stack, |s.taken|))
        .(head := None, stack := [], owner := Claim(s.owner, i), taken := s.taken + Tickets(s.stack))
  }

  /** drain_inbound, second half: follow the links, then reverse. */
  function DoWalk(s: State, i: nat, cur: Option<nat>, got: seq<nat>, batch: seq<Slot>, from: nat): State {
    match cur
    case Some(n) => At(s, i, Walking(CellAt(s.heap, n).next, got + [n], batch, from))
    case None => At(s, i, Handling(Rev(got), 0, batch, []))
  }

  function Recycled(s: State, n: nat): State {
    s.(heap := Put(s.heap, n, Cell(None, None)), free := s.free + [n], owner := Put(s.owner, n, Free(|s.free|)))
  }

  /** Where an operation taken from its node goes: into the task list, unless it is no task or an empty one. */
  function Dispatched(kind: Kind, i: nat, k: nat): Stage {
    match kind case Task(false) => Ready(i, k) case Task(true) => Dropped case _ => Accepted
  }

  /** One operation of the batch: dispatch on its kind, then give the node back. */
  function DoHandle(s: State, i: nat, nodes: seq<nat>, at: nat, batch: seq<Slot>, ready: seq<nat>): State {
    if at >= |nodes| then At(s, i, Between(ready, 0))
    else
      match CellAt(s.heap, nodes[at]).ticket
      case None => s
      case Some(t) =>
        if t >= |s.ops| then s
        else
          var kind := s.ops[t].kind;
          At(Recycled(s, nodes[at]), i,
             Handling(nodes, at + 1, batch, if kind == Task(false) then ready + [t] else ready))
            .(ops := Staged(s.ops, t, Dispatched(kind, i, |ready|)))
  }

  function DoNextTask(s: State, i: nat, ready: seq<nat>, at: nat): State {
    if at >= |ready| then At(s, i, Idle)
    else if ready[at] >= |s.ops| then s
    else
      var op := s.ops[ready[at]];
      At(s, i, Inside(ready, at)).(ops := s.ops[ready[at] := op.(runs := op.runs + 1)])
  }

  function Abandoned(ops: seq<Op>, i: nat, at: nat): (r: seq<Op>)
    ensures |r| == |ops|
    ensures forall t | 0 <= t < |ops| ::
              r[t] == if ops[t].stage == Ready(i, at) then ops[t].(stage := Threw)
                      else if ops[t].stage.Ready? && ops[t].stage.i == i then ops[t].(stage := Lost)
                      else ops[t]
  {
    seq(|ops|, t requires 0 <= t < |ops| =>
      if ops[t].stage == Ready(i, at) then ops[t].(stage := Threw)
      else if ops[t].stage.Ready? && ops[t].stage.i == i then ops[t].(stage := Lost)
      else ops[t])
  }

  /** An exception out of a task unwinds run_once: neither it nor the rest of the batch is ever subtracted. */
  function DoThrow(s: State, i: nat, at: nat): State {
    At(s, i, Idle).(ops := Abandoned(s.ops, i, at))
  }

  function DoSubtract(s: State, i: nat, ready: seq<nat>, at: nat): State {
    if at >= |ready| then s
    else At(s, i, Between(ready, at + 1)).(pending := s.pending - 1, ops := Staged(s.ops, ready[at], Finished))
  }

  /** One step; a step that is not possible changes nothing. */
  function Do(s: State, a: Action): State {
    if a.i >= |s.threads| then s
    else match (a, s.threads[a.i])
      case (Begin(i, kind), Idle) => DoBegin(s, i, kind)
      case (Acquire(i), Submitting(t)) => DoAcquire(s, i, t)
      case (Load(i, seen), Filled(t, n)) => DoLoad(s, i, t, n, seen)
      case (Cas(i, spurious, seen), Trying(t, n)) => DoCas(s, i, t, n, spurious, seen)
      case (Exchange(i), Idle) => DoExchange(s, i)
      case (Walk(i), Walking(cur, got, batch, from)) => DoWalk(s, i, cur, got, batch, from)
      case (Handle(i), Handling(nodes, at, batch, ready)) => DoHandle(s, i, nodes, at, batch, ready)
      case (NextTask(i), Between(ready, at)) => DoNextTask(s, i, ready, at)
      case (Return(i), Inside(ready, at)) => At(s, i, Returned(ready, at))
      case (Throw(i), Inside(_, at)) => DoThrow(s, i, at)
      case (Subtract(i), Returned(ready, at)) => DoSubtract(s, i, ready, at)
      case _ => s
  }

  function Exec(s: State, actions: seq<Action>): State
    decreases |actions|
  {
    if actions == [] then s else Exec(Do(s, actions[0]), actions[1..])
  }
}
