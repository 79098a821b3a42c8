/**
 Progress of the inbound queue, from any reachable state: a submission gets in, and one activity draining
 alone, whatever the others are stopped in the middle of, empties the queue and runs every task in it.
 */
module EventQueueProgress {
  import opened Wrappers
  import opened EventQueue
  import opened EventQueueLaws
  import opened Sequences

  // ---------------------------------------------------------------- scripts

  function Times(a: Action, n: nat): (r: seq<Action>)
    ensures |r| == n && forall k | 0 <= k < n :: r[k] == a
  {
    seq(n, _ => a)
  }

  /** `m` tasks, each started, returned from and subtracted. */
  function RunEach(i: nat, m: nat): seq<Action> {
    if m == 0 then [] else [NextTask(i), Return(i), Subtract(i)] + RunEach(i, m - 1)
  }

  /** One activity drains `n` elements of which `m` are tasks to run: one exchange, then element by element. */
  function DrainAlone(i: nat, n: nat, m: nat): seq<Action> {
    [Exchange(i)] + (Times(Walk(i), n + 1) + (Times(Handle(i), n + 1) + (RunEach(i, m) + [NextTask(i)])))
  }

  /** One activity submits: it links its node to the head it finds and swaps the head. */
  function SubmitAlone(i: nat, kind: Kind, head: Option<nat>, seen: Option<nat>): seq<Action> {
    [Begin(i, kind), Acquire(i), Load(i, head), Cas(i, false, seen)]
  }

  lemma {:induction false} ExecAppend(s: State, a: seq<Action>, b: seq<Action>)
    ensures Exec(s, a + b) == Exec(Exec(s, a), b)
    decreases |a|
  {
    if a == [] {
      Ends(b);
    } else {
      ConsAppend(a, b);
      ExecAppend(Do(s, a[0]), a[1..], b);
    }
  }

  lemma ExecOne(s: State, a: Action)
    ensures Exec(s, [a]) == Do(s, a)
  {
    assert [a][1..] == [];
    assert Exec(Do(s, a), []) == Do(s, a);
  }

  lemma ExecTimes(s: State, a: Action, n: nat)
    ensures Exec(s, Times(a, n + 1)) == Exec(Do(s, a), Times(a, n))
  {
    assert Times(a, n + 1)[1..] == Times(a, n);
  }

  // ---------------------------------------------------------------- what a step of a drain leaves alone

  /** The same queue and the same others: only activity `i` has moved on. */
  predicate Beside(s: State, e: State, i: nat) {
    && |e.threads| == |s.threads| && (forall j | 0 <= j < |s.threads| && j != i :: e.threads[j] == s.threads[j])
    && e.stack == s.stack && e.head == s.head && e.pushed == s.pushed && e.taken == s.taken
    && |e.ops| == |s.ops| && forall t | 0 <= t < |s.ops| :: e.ops[t].kind == s.ops[t].kind
  }

  lemma BesideBoth(a: State, b: State, c: State, i: nat)
    requires Beside(a, b, i) && Beside(b, c, i)
    ensures Beside(a, c, i)
  {
  }

  /** Submissions of the batch, from `at` on, that are tasks to run. */
  function TasksFrom(ops: seq<Op>, batch: seq<Slot>, at: nat): nat
    requires at <= |batch|
    decreases |batch| - at
  {
    if at == |batch| then 0
    else (if batch[at].ticket < |ops| && ops[batch[at].ticket].kind == Task(false) then 1 else 0)
         + TasksFrom(ops, batch, at + 1)
  }

  lemma {:induction false} SameTasks(a: seq<Op>, b: seq<Op>, batch: seq<Slot>, at: nat)
    requires at <= |batch| && |a| == |b| && forall t | 0 <= t < |a| :: a[t].kind == b[t].kind
    ensures TasksFrom(a, batch, at) == TasksFrom(b, batch, at)
    decreases |batch| - at
  {
    if at < |batch| {
      SameTasks(a, b, batch, at + 1);
    }
  }

  // ---------------------------------------------------------------- walking, handling, running

  lemma WalkStep(s: State, i: nat)
    requires Inv(s) && i < |s.threads| && s.threads[i].Walking?
    ensures var pc, e := s.threads[i], Do(s, Walk(i));
            && Beside(s, e, i) && (pc.cur.Some? <==> |pc.got| < |pc.batch|)
            && (pc.cur.Some? ==>
                  && e.threads[i].Walking? && e.threads[i].batch == pc.batch && |e.threads[i].got| == |pc.got| + 1)
            && (pc.cur.None? ==> e.threads[i] == Handling(Rev(pc.got), 0, pc.batch, []))
  {
    assert WalkSound(s, i);
    hide NodesOwned, NodesPlaced, OpsOwned, OpsPlaced, RunsOnce, KindsFit, Counting, Logged, ProducersInOrder;
  }

  lemma {:induction false} WalksThrough(s: State, i: nat, k: nat)
    requires Inv(s) && i < |s.threads| && s.threads[i].Walking? && |s.threads[i].got| + k == |s.threads[i].batch|
    ensures var e := Exec(s, Times(Walk(i), k + 1));
            && Beside(s, e, i) && e.threads[i].Handling? && e.threads[i].at == 0 && e.threads[i].ready == []
            && e.threads[i].batch == s.threads[i].batch && |e.threads[i].nodes| == |e.threads[i].batch|
    decreases k
  {
    hide Inv, Do;
    WalkStep(s, i);
    ExecTimes(s, Walk(i), k);
    var s1 := Do(s, Walk(i));
    StepKeeps(s, Walk(i));
    if k > 0 {
      WalksThrough(s1, i, k - 1);
      BesideBoth(s, s1, Exec(s, Times(Walk(i), k + 1)), i);
    } else {
      assert Exec(s1, Times(Walk(i), 0)) == s1;
    }
  }

  lemma HandleStep(s: State, i: nat)
    requires Inv(s) && i < |s.threads| && s.threads[i].Handling?
    ensures var pc, e := s.threads[i], Do(s, Handle(i));
            && Beside(s, e, i) && |pc.nodes| == |pc.batch| && pc.at <= |pc.batch|
            && (pc.at < |pc.batch| ==>
                  var t := pc.batch[pc.at].ticket;
                  && t < |s.ops| && e.threads[i].Handling? && e.threads[i].at == pc.at + 1
                  && e.threads[i].batch == pc.batch && |e.threads[i].nodes| == |pc.nodes|
                  && |e.threads[i].ready| == |pc.ready| + if s.ops[t].kind == Task(false) then 1 else 0)
            && (pc.at == |pc.batch| ==> e.threads[i] == Between(pc.ready, 0))
  {
    ActorFacts(s, i);
    hide NodesOwned, NodesPlaced, OpsOwned, OpsPlaced, RunsOnce, KindsFit, Counting, Logged, ProducersInOrder;
  }

  lemma {:induction false} HandlesThrough(s: State, i: nat, k: nat)
    requires Inv(s) && i < |s.threads| && s.threads[i].Handling? && s.threads[i].at + k == |s.threads[i].batch|
    ensures var pc, e := s.threads[i], Exec(s, Times(Handle(i), k + 1));
            && Beside(s, e, i) && e.threads[i].Between? && e.threads[i].at == 0
            && |e.threads[i].ready| == |pc.ready| + TasksFrom(s.ops, pc.batch, pc.at)
    decreases k
  {
    hide Inv, Do;
    HandleStep(s, i);
    ExecTimes(s, Handle(i), k);
    var s1 := Do(s, Handle(i));
    StepKeeps(s, Handle(i));
    if k > 0 {
      HandlesThrough(s1, i, k - 1);
      SameTasks(s.ops, s1.ops, s.threads[i].batch, s.threads[i].at + 1);
      BesideBoth(s, s1, Exec(s, Times(Handle(i), k + 1)), i);
    } else {
      assert Exec(s1, Times(Handle(i), 0)) == s1;
    }
  }

  lemma TaskStarts(s: State, i: nat)
    requires Inv(s) && i < |s.threads| && s.threads[i].Between? && s.threads[i].at < |s.threads[i].ready|
    ensures var pc, e := s.threads[i], Do(s, NextTask(i));
            Beside(s, e, i) && e.threads[i] == Inside(pc.ready, pc.at)
  {
    var pc := s.threads[i];
    assert TasksOwn(s.ops, s.threads, i) && TaskAt(s.ops, pc.ready[pc.at], i, pc.at);
    hide Inv, NodesOwned, Chained, OpsOwned;
  }

  lemma TaskEnds(s: State, i: nat)
    requires i < |s.threads| && s.threads[i].Inside? && s.threads[i].at < |s.threads[i].ready|
    ensures var pc, e := s.threads[i], Do(Do(s, Return(i)), Subtract(i));
            Beside(s, e, i) && e.threads[i] == Between(pc.ready, pc.at + 1)
  {
  }

  lemma RunOne(s: State, i: nat)
    requires Inv(s) && i < |s.threads| && s.threads[i].Between? && s.threads[i].at < |s.threads[i].ready|
    ensures var pc, e := s.threads[i], Do(Do(Do(s, NextTask(i)), Return(i)), Subtract(i));
            Beside(s, e, i) && e.threads[i] == Between(pc.ready, pc.at + 1) && Inv(e)
  {
    hide Inv, Do;
    StepKeeps(s, NextTask(i));
    var s1 := Do(s, NextTask(i));
    StepKeeps(s1, Return(i));
    StepKeeps(Do(s1, Return(i)), Subtract(i));
    TaskStarts(s, i);
    TaskEnds(s1, i);
    BesideBoth(s, s1, Do(Do(s1, Return(i)), Subtract(i)), i);
  }

  lemma {:induction false} RunsThrough(s: State, i: nat, m: nat)
    requires Inv(s) && i < |s.threads| && s.threads[i].Between? && s.threads[i].at + m == |s.threads[i].ready|
    ensures var e := Exec(s, RunEach(i, m) + [NextTask(i)]);
            Beside(s, e, i) && e.threads[i].Idle?
    decreases m
  {
    if m == 0 {
      Ends([NextTask(i)]);
      ExecOne(s, NextTask(i));
      hide Inv, Exec;
    } else {
      hide Inv, Do, Exec, Beside;
      RunOne(s, i);
      var three, rest := [NextTask(i), Return(i), Subtract(i)], RunEach(i, m - 1) + [NextTask(i)];
      Assoc(three, RunEach(i, m - 1), [NextTask(i)]);
      ExecAppend(s, three, rest);
      ExecThree(s, NextTask(i), Return(i), Subtract(i));
      var s3 := Exec(s, three);
      RunsThrough(s3, i, m - 1);
      BesideBoth(s, s3, Exec(s3, rest), i);
    }
  }

  lemma ExecThree(s: State, a: Action, b: Action, c: Action)
    ensures Exec(s, [a, b, c]) == Do(Do(Do(s, a), b), c)
  {
    hide Do;
    assert [a, b, c][1..] == [b, c] && [b, c][1..] == [c];
    ExecOne(Do(Do(s, a), b), c);
  }

  // ---------------------------------------------------------------- the whole drain

  /** The exchange takes everything, or there is nothing to take. */
  lemma ExchangeStep(s: State, i: nat)
    requires Inv(s) && i < |s.threads| && s.threads[i].Idle?
    ensures var e := Do(s, Exchange(i));
            && |e.threads| == |s.threads| && (forall j | 0 <= j < |s.threads| && j != i :: e.threads[j] == s.threads[j])
            && e.stack == [] && e.head == None && e.pushed == s.pushed && e.ops == s.ops
            && if s.stack == [] then e == s
               else e.threads[i].Walking? && e.threads[i].got == [] && e.threads[i].batch == s.stack
  {
    hide NodesOwned, NodesPlaced, OpsOwned, OpsPlaced, RunsOnce, KindsFit, Counting, Logged, ProducersInOrder;
  }

  /** Actions that do nothing for an activity that is idle. */
  predicate OfADrain(a: Action, i: nat) {
    a.i == i && !a.Begin? && !a.Throw?
  }

  predicate AllOfADrain(actions: seq<Action>, i: nat) {
    forall k | 0 <= k < |actions| :: OfADrain(actions[k], i)
  }

  lemma {:induction false} IdleStays(s: State, i: nat, actions: seq<Action>)
    requires i < |s.threads| && s.threads[i].Idle? && AllOfADrain(actions, i)
    requires forall k | 0 <= k < |actions| :: !actions[k].Exchange?
    ensures Exec(s, actions) == s
    decreases |actions|
  {
    if actions != [] {
      assert OfADrain(actions[0], i) && Do(s, actions[0]) == s;
      IdleStays(s, i, actions[1..]);
    }
  }

  lemma {:induction false} EachIsOfADrain(i: nat, m: nat)
    ensures AllOfADrain(RunEach(i, m), i) && forall k | 0 <= k < |RunEach(i, m)| :: !RunEach(i, m)[k].Exchange?
  {
    if m > 0 {
      EachIsOfADrain(i, m - 1);
    }
  }

  /** Everything after the exchange. */
  function AfterExchange(i: nat, n: nat, m: nat): seq<Action> {
    Times(Walk(i), n + 1) + (Times(Handle(i), n + 1) + (RunEach(i, m) + [NextTask(i)]))
  }

  lemma ScriptIsOfADrain(i: nat, n: nat, m: nat)
    ensures AllOfADrain(DrainAlone(i, n, m), i) && AllOfADrain(AfterExchange(i, n, m), i)
    ensures forall k | 0 <= k < |AfterExchange(i, n, m)| :: !AfterExchange(i, n, m)[k].Exchange?
  {
    EachIsOfADrain(i, m);
  }

  lemma BatchIsWorkedOff(s: State, i: nat)
    requires Inv(s) && i < |s.threads| && s.threads[i].Walking? && s.threads[i].got == []
    ensures var batch := s.threads[i].batch;
            var e := Exec(s, AfterExchange(i, |batch|, TasksFrom(s.ops, batch, 0)));
            Beside(s, e, i) && e.threads[i].Idle?
  {
    var n, m := |s.threads[i].batch|, TasksFrom(s.ops, s.threads[i].batch, 0);
    var runs := RunEach(i, m) + [NextTask(i)];
    hide Inv, Do;
    WalksThrough(s, i, n);
    ExecKeeps(s, Times(Walk(i), n + 1));
    var s1 := Exec(s, Times(Walk(i), n + 1));
    HandlesThrough(s1, i, n);
    ExecKeeps(s1, Times(Handle(i), n + 1));
    var s2 := Exec(s1, Times(Handle(i), n + 1));
    SameTasks(s.ops, s1.ops, s.threads[i].batch, 0);
    RunsThrough(s2, i, m);
    ExecAppend(s, Times(Walk(i), n + 1), Times(Handle(i), n + 1) + runs);
    ExecAppend(s1, Times(Handle(i), n + 1), runs);
    BesideBoth(s, s1, s2, i);
    BesideBoth(s, s2, Exec(s2, runs), i);
  }

  lemma DrainControl(s: State, i: nat)
    requires Inv(s) && i < |s.threads| && s.threads[i].Idle?
    ensures var e := Exec(s, DrainAlone(i, |s.stack|, TasksFrom(s.ops, s.stack, 0)));
            && e.threads == s.threads && e.stack == [] && e.head == None && e.pushed == s.pushed && |e.ops| == |s.ops|
            && forall t | 0 <= t < |s.ops| :: e.ops[t].kind == s.ops[t].kind
  {
    var n, m := |s.stack|, TasksFrom(s.ops, s.stack, 0);
    var rest := AfterExchange(i, n, m);
    ExecAppend(s, [Exchange(i)], rest);
    ExecOne(s, Exchange(i));
    ExchangeStep(s, i);
    var s1 := Do(s, Exchange(i));
    StepKeeps(s, Exchange(i));
    hide Inv, Do, AfterExchange;
    if s.stack == [] {
      ScriptIsOfADrain(i, n, m);
      IdleStays(s1, i, rest);
    } else {
      BatchIsWorkedOff(s1, i);
    }
    assert Exec(s, DrainAlone(i, n, m)) == Exec(s1, rest) by {
      assert DrainAlone(i, n, m) == [Exchange(i)] + AfterExchange(i, n, m) by {
        AfterExchangeIs(i, n, m);
      }
    }
  }

  lemma AfterExchangeIs(i: nat, n: nat, m: nat)
    ensures DrainAlone(i, n, m) == [Exchange(i)] + AfterExchange(i, n, m)
  {
  }

  // ---------------------------------------------------------------- what becomes of the submissions

  predicate Abandonment(op: Op) {
    op.stage == Threw || op.stage == Lost
  }

  lemma OnlyThrowsAbandon(s: State, a: Action, t: nat)
    requires Inv(s) && a.i < |s.threads| && !a.Throw? && t < |s.ops| && !Abandonment(s.ops[t])
    ensures t < |Do(s, a).ops| && !Abandonment(Do(s, a).ops[t])
  {
    ActorFacts(s, a.i);
    hide Inv, NodesOwned, Chained, OpsOwned;
  }

  lemma {:induction false} DrainAbandonsNone(s: State, actions: seq<Action>, i: nat, t: nat)
    requires Inv(s) && i < |s.threads| && AllOfADrain(actions, i) && t < |s.ops| && !Abandonment(s.ops[t])
    ensures t < |Exec(s, actions).ops| && !Abandonment(Exec(s, actions).ops[t])
    decreases |actions|
  {
    if actions != [] {
      var a := actions[0];
      assert OfADrain(a, i);
      OnlyThrowsAbandon(s, a, t);
      StepKeeps(s, a);
      ThreadsStay(s, a);
      hide Inv, Do;
      assert AllOfADrain(actions[1..], i);
      DrainAbandonsNone(Do(s, a), actions[1..], i, t);
    }
  }

  lemma ThreadsStay(s: State, a: Action)
    ensures |Do(s, a).threads| == |s.threads|
  {
  }

  lemma NotFree(e: State, n: nat)
    requires NodesOwned(e) && n < |e.owner| && NodePlaced(e, n) && e.heap[n].ticket.Some? && e.stack == []
    ensures e.owner[n].Held? || e.owner[n].Batched?
  {
    assert e.owner[n].Free? ==> FreeOwn(e, e.owner[n].k);
  }

  /** A submission in a node is in no activity's hands outside it. */
  lemma NotInHand(s: State, t: nat, j: nat, k: nat)
    requires OpsOwned(s) && t < |s.ops| && s.ops[t].stage.Carried? && j < |s.threads|
    ensures s.threads[j] != Submitting(t) && !Listed(s.threads[j], t, k)
  {
    assert TasksOwn(s.ops, s.threads, j);
    assert Listed(s.threads[j], t, k) ==> TaskAt(s.ops, s.threads[j].ready[k], j, k);
  }

  /** A node an activity holds after a time in which it has not moved it held before, with the same submission. */
  lemma HeldBefore(s: State, e: State, n: nat, t: nat)
    requires NodesOwned(s) && OpsOwned(s) && NodesOwned(e) && NodesPlaced(e) && e.threads == s.threads
    requires n < |e.heap| && e.heap[n].ticket == Some(t) && (e.owner[n].Held? || e.owner[n].Batched?)
    ensures NodeIs(s, n, e.owner[n], t) && t < |s.ops| && s.ops[t].stage == Carried(n)
  {
    assert NodePlaced(e, n);
    var j := e.owner[n].i;
    assert HoldsOwn(e, j) && HoldsOwn(s, j);
    if e.owner[n].Batched? {
      var pc, b := s.threads[j], e.owner[n].k;
      assert NodeIs(e, pc.batch[b].node, Batched(j, b), pc.batch[b].ticket);
      assert NodeIs(s, pc.batch[b].node, Batched(j, b), pc.batch[b].ticket);
    }
    assert CellOwn(s, n);
  }

  /** A submission that was queued is, once the queue is empty and no activity has moved, nowhere in progress. */
  lemma QueuedHasEnded(s: State, e: State, k: nat)
    requires Inv(s) && Inv(e) && k < |s.stack| && e.threads == s.threads && e.stack == []
    requires |e.ops| == |s.ops|
    ensures var t := s.stack[k].ticket;
            && t < |s.ops| && s.ops[t].stage.Carried?
            && !e.ops[t].stage.Counted? && !e.ops[t].stage.Carried? && !e.ops[t].stage.Ready?
  {
    var slot := s.stack[k];
    var t := slot.ticket;
    assert StackOwn(s, k) && CellOwn(s, slot.node);
    assert OpPlaced(e, t);
    match e.ops[t].stage {
      case Counted(j) => NotInHand(s, t, j, 0);
      case Ready(j, k) => NotInHand(s, t, j, k);
      case _ =>
    }
    if e.ops[t].stage.Carried? {
      var n := e.ops[t].stage.node;
      assert NodePlaced(e, n);
      NotFree(e, n);
      HeldBefore(s, e, n, t);
    }
  }

  /** What becomes of an operation that is drained and, if it is a task, run. */
  function EndOf(kind: Kind): Stage {
    match kind case Task(false) => Finished case Task(true) => Dropped case _ => Accepted
  }

  /**
   From every reachable state an idle activity that drains alone empties the queue, while every other activity
   stays where it is, in the middle of a push if need be: all pushes are taken, every task that was queued has
   finished after one run, an empty one is dropped and every other operation is accepted.
   */
  lemma DrainCompletes(n: nat, actions: seq<Action>, i: nat)
    requires var s := Exec(Start(n), actions); i < |s.threads| && s.threads[i].Idle?
    ensures var s := Exec(Start(n), actions);
            var e := Exec(s, DrainAlone(i, |s.stack|, TasksFrom(s.ops, s.stack, 0)));
            && e.threads == s.threads && e.stack == [] && e.head == None && e.taken == e.pushed == s.pushed
            && |e.ops| == |s.ops|
            && forall k | 0 <= k < |s.stack| ::
                 var t := s.stack[k].ticket;
                 && t < |s.ops| && e.ops[t].stage == EndOf(s.ops[t].kind)
                 && e.ops[t].runs == if s.ops[t].kind == Task(false) then 1 else 0
  {
    StartIsSound(n);
    ExecKeeps(Start(n), actions);
    var s := Exec(Start(n), actions);
    var script := DrainAlone(i, |s.stack|, TasksFrom(s.ops, s.stack, 0));
    var e := Exec(s, script);
    DrainControl(s, i);
    ExecKeeps(s, script);
    ScriptIsOfADrain(i, |s.stack|, TasksFrom(s.ops, s.stack, 0));
    assert e.taken == e.pushed by {
      assert Logged(e);
      Ends(e.taken);
      assert Tickets([]) == [];
    }
    forall k | 0 <= k < |s.stack|
      ensures var t := s.stack[k].ticket;
              && t < |s.ops| && e.ops[t].stage == EndOf(s.ops[t].kind)
              && e.ops[t].runs == if s.ops[t].kind == Task(false) then 1 else 0
    {
      QueuedHasEnded(s, e, k);
      var t := s.stack[k].ticket;
      DrainAbandonsNone(s, script, i, t);
      EndedAsItShould(e, t);
    }
  }

  lemma EndedAsItShould(e: State, t: nat)
    requires Inv(e) && t < |e.ops| && !Abandonment(e.ops[t])
    requires !e.ops[t].stage.Counted? && !e.ops[t].stage.Carried? && !e.ops[t].stage.Ready?
    ensures e.ops[t].stage == EndOf(e.ops[t].kind)
    ensures e.ops[t].runs == if e.ops[t].kind == Task(false) then 1 else 0
  {
    assert Fits(e.ops[t]) && OpRunsOnce(e, t);
  }

  lemma KindFits(e: State, t: nat)
    requires Inv(e) && t < |e.ops|
    ensures Fits(e.ops[t])
  {
  }

  /** So a loop at rest whose tasks are all sound counts down to zero. */
  lemma DrainReachesZero(n: nat, actions: seq<Action>, i: nat)
    requires var s := Exec(Start(n), actions);
             && i < |s.threads| && (forall j | 0 <= j < |s.threads| :: s.threads[j].Idle?)
             && forall t | 0 <= t < |s.ops| :: s.ops[t].kind != Task(true) && !Abandonment(s.ops[t])
    ensures var s := Exec(Start(n), actions);
            Exec(s, DrainAlone(i, |s.stack|, TasksFrom(s.ops, s.stack, 0))).pending == 0
  {
    StartIsSound(n);
    ExecKeeps(Start(n), actions);
    var s := Exec(Start(n), actions);
    var script := DrainAlone(i, |s.stack|, TasksFrom(s.ops, s.stack, 0));
    var e := Exec(s, script);
    DrainControl(s, i);
    ExecKeeps(s, script);
    ScriptIsOfADrain(i, |s.stack|, TasksFrom(s.ops, s.stack, 0));
    ExecAppend(Start(n), actions, script);
    hide Exec, Start, Do, DrainAlone, TasksFrom;
    forall t | 0 <= t < |e.ops|
      ensures !Leaked(e.ops[t])
    {
      DrainAbandonsNone(s, script, i, t);
      KindFits(e, t);
    }
    assert e.pending == Outstanding(e.ops);
    hide Inv, Abandonment, Leaked;
    QuietMeansDoneOrLeaked(n, actions + script);
    NoneOutstanding(e.ops);
  }

  // ---------------------------------------------------------------- submitting

  /** What `Begin` and `Acquire` do: the submission is counted and put into a node of the activity's own. */
  lemma NodeIsFilled(s: State, i: nat, kind: Kind)
    requires Inv(s) && i < |s.threads| && s.threads[i].Idle?
    ensures var t, e := |s.ops|, Do(Do(s, Begin(i, kind)), Acquire(i));
            && e.threads == s.threads[i := e.threads[i]] && e.threads[i].Filled? && e.threads[i].t == t
            && e.threads[i].node < |e.heap| && e.stack == s.stack && e.head == s.head
            && e.taken == s.taken && e.pushed == s.pushed
            && |e.ops| == t + 1 && e.ops[..t] == s.ops && e.ops[t].kind == kind && e.ops[t].producer == i
            && e.pending == s.pending + (if kind.Task? then 1 else 0)
            && |e.heap| == |s.heap| + (if s.free == [] then 1 else 0)
  {
    assert s.free != [] ==> FreeOwn(s, |s.free| - 1);
    hide Inv;
    var s1 := Do(s, Begin(i, kind));
    assert s1.threads[i] == Submitting(|s.ops|);
  }

  /** What `Load` of the head and the swap do: the node becomes the new head. */
  lemma NodeIsPushed(s: State, i: nat, seen: Option<nat>)
    requires i < |s.threads| && s.threads[i].Filled? && s.threads[i].node < |s.heap|
    ensures var pc, e := s.threads[i], Do(Do(s, Load(i, s.head)), Cas(i, false, seen));
            && e.threads == s.threads[i := Idle] && e.taken == s.taken && e.pushed == s.pushed + [pc.t]
            && e.stack == s.stack + [Slot(pc.node, pc.t)] && e.head == Some(pc.node)
            && e.ops == s.ops && e.pending == s.pending && |e.heap| == |s.heap|
  {
    var pc := s.threads[i];
    var s1 := Do(s, Load(i, s.head));
    assert s1.threads[i] == Trying(pc.t, pc.node) && CellAt(s1.heap, pc.node).next == s1.head;
  }

  /** A submission made without interference gets in, behind everything that is queued, and leaves all else alone. */
  lemma SubmissionArrives(s: State, i: nat, kind: Kind, seen: Option<nat>)
    requires Inv(s) && i < |s.threads| && s.threads[i].Idle?
    ensures var t, e := |s.ops|, Exec(s, SubmitAlone(i, kind, s.head, seen));
            && e.threads == s.threads && e.taken == s.taken && e.pushed == s.pushed + [t]
            && |e.stack| == |s.stack| + 1 && e.stack[..|s.stack|] == s.stack && e.stack[|s.stack|].ticket == t
            && e.head == Some(e.stack[|s.stack|].node)
            && |e.ops| == t + 1 && e.ops[..t] == s.ops && e.ops[t].kind == kind && e.ops[t].producer == i
            && e.pending == s.pending + (if kind.Task? then 1 else 0)
            && |e.heap| == |s.heap| + (if s.free == [] then 1 else 0)
  {
    hide Inv, Do;
    NodeIsFilled(s, i, kind);
    NodeIsPushed(Do(Do(s, Begin(i, kind)), Acquire(i)), i, seen);
    ExecFour(s, Begin(i, kind), Acquire(i), Load(i, s.head), Cas(i, false, seen));
  }

  lemma ExecFour(s: State, a: Action, b: Action, c: Action, d: Action)
    ensures Exec(s, [a, b, c, d]) == Do(Do(Do(Do(s, a), b), c), d)
  {
    assert [a, b, c, d] == [a, b, c] + [d];
    ExecAppend(s, [a, b, c], [d]);
    ExecThree(s, a, b, c);
    ExecOne(Do(Do(Do(s, a), b), c), d);
  }

  /**
   A swap succeeds if and only if it does not fail spuriously and the node links to the head; a failed one has
   loaded a new link, so that with the current head the next one succeeds.
   */
  lemma SwapSucceedsIff(s: State, i: nat, spurious: bool, seen: Option<nat>, again: Option<nat>)
    requires Inv(s) && i < |s.threads| && s.threads[i].Trying?
    ensures var pc, e := s.threads[i], Do(s, Cas(i, spurious, seen));
            var swapped := !spurious && s.head == CellAt(s.heap, pc.node).next;
            && e.pushed == (if swapped then s.pushed + [pc.t] else s.pushed)
            && e.threads[i] == (if swapped then Idle else pc)
            && (!swapped && seen == s.head ==> Do(e, Cas(i, false, again)).pushed == s.pushed + [pc.t])
  {
    assert HoldsOwn(s, i);
    hide Inv;
  }

  /** A task submitted from one idle activity and drained by another, or by the same one, has run. */
  lemma SubmittedTaskRuns(n: nat, actions: seq<Action>, i: nat, j: nat, seen: Option<nat>)
    requires var s := Exec(Start(n), actions);
             i < |s.threads| && j < |s.threads| && s.threads[i].Idle? && s.threads[j].Idle?
    ensures var s := Exec(Start(n), actions);
            var q := Exec(s, SubmitAlone(i, Task(false), s.head, seen));
            var e := Exec(q, DrainAlone(j, |q.stack|, TasksFrom(q.ops, q.stack, 0)));
            |s.ops| < |e.ops| && e.ops[|s.ops|].stage == Finished && e.ops[|s.ops|].runs == 1
  {
    StartIsSound(n);
    ExecKeeps(Start(n), actions);
    var s := Exec(Start(n), actions);
    SubmissionArrives(s, i, Task(false), seen);
    var submit := SubmitAlone(i, Task(false), s.head, seen);
    ExecAppend(Start(n), actions, submit);
    DrainCompletes(n, actions + submit, j);
    var q := Exec(s, submit);
    assert q.stack[|s.stack|].ticket == |s.ops|;
  }

  // ---------------------------------------------------------------- throwing

  /** A throw ends the drain: the task that threw and all behind it are given up, and none of them is subtracted. */
  lemma ThrowGivesUp(s: State, i: nat)
    requires Inv(s) && i < |s.threads| && s.threads[i].Inside?
    ensures var pc, e := s.threads[i], Do(s, Throw(i));
            && e.threads[i].Idle? && e.pending == s.pending
            && forall k | pc.at <= k < |pc.ready| ::
                 pc.ready[k] < |e.ops| && e.ops[pc.ready[k]].stage == if k == pc.at then Threw else Lost
  {
    assert TasksOwn(s.ops, s.threads, i);
    var pc := s.threads[i];
    forall k | pc.at <= k < |pc.ready|
      ensures pc.ready[k] < |s.ops| && s.ops[pc.ready[k]].stage == Ready(i, k)
    {
      assert TaskAt(s.ops, pc.ready[k], i, k);
    }
    hide Inv;
  }
}
