/** What the plan protocol guarantees on every run: no execution without a confirmed final plan, no stale answers. */
module PlanSafety {
  import opened Wrappers
  import opened Texts
  import opened PlanModel
  import opened PlanManager

  /** A call and the clock it reads; a call that throws leaves the draft as it was. */
  datatype Call = Call(op: Op, now: uint64)

  function After(d: PlanDraft, c: Call): PlanDraft {
    match Apply(d, c.op, c.now) case Success(a) => a.draft case Failure(_) => d
  }

  function AfterAll(d: PlanDraft, calls: seq<Call>): PlanDraft
    decreases |calls|
  {
    if calls == [] then d else AfterAll(After(d, calls[0]), calls[1..])
  }

  ghost predicate KeptByEveryCall(inv: PlanDraft -> bool, calls: seq<Call>) {
    forall i, d | 0 <= i < |calls| && inv(d) :: inv(After(d, calls[i]))
  }

  /** What every call of a run keeps holds after the run. */
  lemma {:induction false} RunInvariant(d: PlanDraft, calls: seq<Call>, inv: PlanDraft -> bool)
    requires inv(d) && KeptByEveryCall(inv, calls)
    ensures inv(AfterAll(d, calls))
    decreases |calls|
  {
    if calls != [] {
      forall i, x | 0 <= i < |calls[1..]| && inv(x)
        ensures inv(After(x, calls[1..][i]))
      {
        assert calls[1..][i] == calls[i + 1];
      }
      RunInvariant(After(d, calls[0]), calls[1..], inv);
    }
  }

  /** At every draft a run passes through, from the first to the last. */
  ghost predicate Throughout(d: PlanDraft, calls: seq<Call>, inv: PlanDraft -> bool)
    decreases |calls|
  {
    inv(d) && (calls == [] || Throughout(After(d, calls[0]), calls[1..], inv))
  }

  /** Of every call of a run, at the draft it is made on. */
  ghost predicate AtEachCall(d: PlanDraft, calls: seq<Call>, ok: (PlanDraft, Call) -> bool)
    decreases |calls|
  {
    calls == [] || (ok(d, calls[0]) && AtEachCall(After(d, calls[0]), calls[1..], ok))
  }

  /** Where one call keeps `inv` exactly when it is `ok`, a run keeps it exactly when all its calls are. */
  lemma {:induction false} ThroughoutIff(d: PlanDraft, calls: seq<Call>, inv: PlanDraft -> bool,
                                         ok: (PlanDraft, Call) -> bool)
    requires inv(d) && forall x, c | inv(x) :: inv(After(x, c)) <==> ok(x, c)
    ensures Throughout(d, calls, inv) <==> AtEachCall(d, calls, ok)
    decreases |calls|
  {
    if calls != [] && ok(d, calls[0]) {
      ThroughoutIff(After(d, calls[0]), calls[1..], inv, ok);
    }
  }

  lemma {:induction false} ThroughoutIsEveryPrefix(d: PlanDraft, calls: seq<Call>, inv: PlanDraft -> bool, k: nat)
    requires k <= |calls| && Throughout(d, calls, inv)
    ensures inv(AfterAll(d, calls[..k]))
    decreases |calls|
  {
    if k > 0 {
      assert calls[..k][1..] == calls[1..][..k - 1];
      ThroughoutIsEveryPrefix(After(d, calls[0]), calls[1..], inv, k - 1);
    }
  }

  // ---------------------------------------------------------------- the final plan

  /**
   The final-review stage and the final plan go together, the final plan belongs to the revision before
   the current one, and nothing is confirmed or executed outside that stage.
   */
  predicate FinalInStep(d: PlanDraft) {
    && (d.stage == FinalReview <==> d.finalItems != [])
    && (d.stage == FinalReview ==> d.finalizedInputRevision + 1 == d.revision)
    && (d.status == Confirmed || d.status == Executing ==> d.stage == FinalReview)
  }

  /** A draft is restored only if it is in step itself; no other call can break the step. */
  predicate RestoresInStep(d: PlanDraft, c: Call) {
    c.op.Restore? ==> FinalInStep(c.op.draft)
  }

  /** What a call can do to the fields the final plan depends on. */
  datatype Effect = Same | Left | Finalized | Fresh

  /** `Same`: stage, final plan and revision stay; `Left`: the stage moves on and the final plan is cleared. */
  function EffectOf(d: PlanDraft, c: Call): Effect {
    if Apply(d, c.op, c.now).Failure? then Same
    else match c.op
      case Start(_) => Fresh
      case Reset => Fresh
      case Restore(_) => Fresh
      case ApplyRevisedFinal(_, _) => Finalized
      case ApplyModelFinal(_, _) => Finalized
      case MarkDrafting => Same
      case BeginChatRevision(_) => Same
      case BeginFinalizing(_) => Same
      case MarkFailed(_) => Same
      case MarkReviewError(_) => Same
      case Confirm(_) => Same
      case MarkExecuting => Same
      case Cancel => Same
      case _ => Left
  }

  lemma SameCalls(d: PlanDraft, c: Call)
    requires EffectOf(d, c) == Same
    ensures var e := After(d, c);
            && e.finalItems == d.finalItems && e.finalizedInputRevision == d.finalizedInputRevision
            && e.items == d.items
            && e.revision == d.revision && (e.stage == d.stage || (d.stage == DecisionReview && e.stage == Finalizing))
            && (e.stage == Finalizing ==> d.stage == Finalizing || AllDecisionsResolved(d.items))
            && (e.status == Confirmed || e.status == Executing ==>
                  d.status == Confirmed || d.status == Executing || d.stage == FinalReview)
            && (e.stage != d.stage ==> e.status == Drafting)
  {
    hide NormalItems, NormalOptions, NamedOptions, OptionsApplied, PatchItems, FindOption, AllDecisionsResolved,
         Restored;
    hide Detailed, MakeId, OrElse, Cleared;
  }

  lemma LeavingCalls(d: PlanDraft, c: Call)
    requires EffectOf(d, c) == Left
    ensures var e := After(d, c);
            e.stage != FinalReview && e.stage != Finalizing
            && (e.finalItems == [] || (d.stage == DecisionReview && e.finalItems == d.finalItems))
    ensures After(d, c).status == Reviewing || After(d, c).status == Drafting
  {
  }

  lemma FinalizingCalls(d: PlanDraft, c: Call)
    requires EffectOf(d, c) == Finalized
    ensures var e := After(d, c);
            && e.finalItems != [] && e.stage == FinalReview && e.items == d.items && e.status == Reviewing
            && e.finalizedInputRevision == d.revision && e.revision == d.revision + 1
            && (c.op.ApplyModelFinal? ==> d.stage == Finalizing)
  {
  }

  lemma RestoreKeepsFinal(d: PlanDraft, c: Call)
    requires c.op.Restore?
    ensures FinalInStep(After(d, c)) <==> FinalInStep(c.op.draft)
  {
    var saved := c.op.draft;
    assert After(d, c) == Restored(saved, c.now);
    assert |NormalItems(saved.finalItems, false)| == |saved.finalItems|;
  }

  lemma CallKeepsFinal(d: PlanDraft, c: Call)
    requires FinalInStep(d)
    ensures FinalInStep(After(d, c)) <==> RestoresInStep(d, c)
  {
    if c.op.Restore? {
      RestoreKeepsFinal(d, c);
    } else {
      match EffectOf(d, c) {
        case Same => SameCalls(d, c);
        case Left => LeavingCalls(d, c);
        case Finalized => FinalizingCalls(d, c);
        case Fresh =>
      }
    }
  }

  /** A run stays in step if and only if every draft it restores is in step. */
  lemma FinalStaysInStepIff(d: PlanDraft, calls: seq<Call>)
    requires FinalInStep(d)
    ensures Throughout(d, calls, FinalInStep) <==> AtEachCall(d, calls, RestoresInStep)
  {
    forall x, c | FinalInStep(x)
      ensures FinalInStep(After(x, c)) <==> RestoresInStep(x, c)
    {
      CallKeepsFinal(x, c);
    }
    ThroughoutIff(d, calls, FinalInStep, RestoresInStep);
  }

  // ---------------------------------------------------------------- resolved decisions

  /** From finalizing on, every required decision is resolved. */
  predicate FinalIsResolved(d: PlanDraft) {
    FinalInStep(d) && (d.stage == Finalizing || d.stage == FinalReview ==> AllDecisionsResolved(d.items))
  }

  /** A revised final plan that will be accepted: the two guards of the call. */
  predicate RevisesFinal(d: PlanDraft, c: Call) {
    c.op.ApplyRevisedFinal? && c.op.requestId == d.planningRequestId && c.op.final.items != []
  }

  /**
   What a caller has to see to before a call: a restored draft is resolved itself, and an accepted revised
   final plan finds every required decision resolved. Every other call sees to it on its own.
   */
  predicate SeesToDecisions(d: PlanDraft, c: Call) {
    && (c.op.Restore? ==> FinalIsResolved(c.op.draft))
    && (RevisesFinal(d, c) ==> AllDecisionsResolved(d.items))
  }

  lemma NormalizingKeepsDecisions(xs: seq<PlanItem>)
    ensures AllDecisionsResolved(NormalItems(xs, false)) <==> AllDecisionsResolved(xs)
  {
    var ys := NormalItems(xs, false);
    forall i | 0 <= i < |xs|
      ensures |ys[i].decisions| == |xs[i].decisions|
      ensures forall k | 0 <= k < |xs[i].decisions| :: Resolved(ys[i].decisions[k]) <==> Resolved(xs[i].decisions[k])
    {
      assert ys[i] == NormalItem(xs[i], i, false);
    }
  }

  lemma RestoreKeepsResolved(d: PlanDraft, c: Call)
    requires c.op.Restore?
    ensures FinalIsResolved(After(d, c)) <==> FinalIsResolved(c.op.draft)
  {
    RestoreKeepsFinal(d, c);
    NormalizingKeepsDecisions(c.op.draft.items);
    assert After(d, c) == Restored(c.op.draft, c.now);
  }

  lemma CallKeepsResolved(d: PlanDraft, c: Call)
    requires FinalIsResolved(d)
    ensures FinalIsResolved(After(d, c)) <==> SeesToDecisions(d, c)
  {
    if c.op.Restore? {
      RestoreKeepsResolved(d, c);
    } else {
      CallKeepsFinal(d, c);
      match EffectOf(d, c) {
        case Same => SameCalls(d, c);
        case Left => LeavingCalls(d, c);
        case Finalized => FinalizingCalls(d, c);
        case Fresh =>
      }
    }
  }

  /**
   A run keeps every final plan resolved if and only if each revised final plan it accepts finds the required
   decisions resolved, in whatever stage, and each draft it restores is resolved.
   */
  lemma FinalStaysResolvedIff(d: PlanDraft, calls: seq<Call>)
    requires FinalIsResolved(d)
    ensures Throughout(d, calls, FinalIsResolved) <==> AtEachCall(d, calls, SeesToDecisions)
  {
    forall x, c | FinalIsResolved(x)
      ensures FinalIsResolved(After(x, c)) <==> SeesToDecisions(x, c)
    {
      CallKeepsResolved(x, c);
    }
    ThroughoutIff(d, calls, FinalIsResolved, SeesToDecisions);
  }

  /** Then, at every point of the run, what is confirmed or executing has a final plan and no open decision. */
  lemma ExecutingIsResolved(d: PlanDraft, calls: seq<Call>, k: nat)
    requires FinalIsResolved(d) && AtEachCall(d, calls, SeesToDecisions) && k <= |calls|
    ensures var e := AfterAll(d, calls[..k]);
            e.status == Confirmed || e.status == Executing ==> e.finalItems != [] && AllDecisionsResolved(e.items)
  {
    FinalStaysResolvedIff(d, calls);
    ThroughoutIsEveryPrefix(d, calls, FinalIsResolved, k);
  }

  lemma {:induction false} AfterTwo(d: PlanDraft, a: Call, b: Call)
    ensures AfterAll(d, [a, b]) == After(After(d, a), b)
  {
    assert [a, b][1..] == [b] && [b][1..] == [];
    assert AfterAll(After(d, a), [b]) == AfterAll(After(After(d, a), b), []);
  }

  lemma ReviewedExecutes(d: PlanDraft, now: uint64)
    requires d.status == Reviewing && d.stage == FinalReview && d.finalItems != []
    ensures var e := AfterAll(d, [Call(Confirm(d.revision), now), Call(MarkExecuting, now)]);
            e.status == Executing && e.items == d.items
  {
    var b, c := Call(Confirm(d.revision), now), Call(MarkExecuting, now);
    AfterTwo(d, b, c);
    assert After(d, b) == Touched(d.(status := Confirmed), now);
  }

  /**
   Otherwise the gate is passed, from any draft with open decisions: the transition looks neither at them
   nor at the stage, and two more calls execute the plan.
   */
  lemma RevisedFinalSkipsTheGate(d: PlanDraft, final: PlanFinalDraft, now: uint64)
    requires final.items != []
    ensures var a := Call(ApplyRevisedFinal(d.planningRequestId, final), now);
            var e := AfterAll(After(d, a), [Call(Confirm(d.revision + 1), now), Call(MarkExecuting, now)]);
            e.status == Executing && e.items == d.items
  {
    var a := Call(ApplyRevisedFinal(d.planningRequestId, final), now);
    FinalizingCalls(d, a);
    ReviewedExecutes(After(d, a), now);
  }

  // ---------------------------------------------------------------- stale patches

  /** Within one plan: no new start, no reset, no restored draft. */
  predicate SamePlan(calls: seq<Call>) {
    forall i | 0 <= i < |calls| :: !calls[i].op.Start? && !calls[i].op.Reset? && !calls[i].op.Restore?
  }

  /** The revision a patch names; only these two calls are tied to one. */
  function PatchRevision(op: Op): Option<int> {
    match op
    case BeginDetailing(_, revision) => Some(revision)
    case ApplyDecision(p) => Some(p.revision)
    case _ => None
  }

  lemma RevisionNeverFalls(d: PlanDraft, calls: seq<Call>)
    requires SamePlan(calls)
    ensures AfterAll(d, calls).revision >= d.revision
  {
    var inv := (x: PlanDraft) => x.revision >= d.revision;
    forall i, x | 0 <= i < |calls| && inv(x)
      ensures inv(After(x, calls[i]))
    {
      assert !calls[i].op.Start?;
    }
    RunInvariant(d, calls, inv);
  }

  /**
   At most one patch succeeds per revision: after a success, whatever happens next, another one for the same revision
   throws.
   */
  lemma OnePatchPerRevision(d: PlanDraft, first: Call, between: seq<Call>, second: Call)
    requires SamePlan(between) && PatchRevision(first.op).Some? && PatchRevision(second.op) == PatchRevision(first.op)
    requires Apply(d, first.op, first.now).Success?
    ensures Apply(AfterAll(After(d, first), between), second.op, second.now).Failure?
  {
    RevisionNeverFalls(After(d, first), between);
  }

  // ---------------------------------------------------------------- stale answers

  predicate BeginsRequest(op: Op) {
    op.BeginDetailing? || op.SelectOption? || op.BeginChatRevision? || op.BeginFinalizing?
  }

  /** Calls that may issue a request id. */
  function Begins(calls: seq<Call>): nat {
    if calls == [] then 0 else (if BeginsRequest(calls[0].op) then 1 else 0) + Begins(calls[1..])
  }

  /** The request id a model result carries. */
  function ResultId(op: Op): Option<uint64> {
    match op
    case ApplyModelDetail(_, id, _, _, _, _, _) => Some(id)
    case ApplyRevisedOptions(id, _, _, _, _) => Some(id)
    case ApplyRevisedDetail(id, _, _, _, _, _) => Some(id)
    case ApplyRevisedFinal(id, _) => Some(id)
    case ApplyModelFinal(id, _) => Some(id)
    case _ => None
  }

  /** How many ids are issued from `a` on until `b` is current, going round past the maximum and skipping zero. */
  function IdDistance(a: uint64, b: uint64): int {
    if a <= b then b as int - a as int else b as int - a as int + UINT64_MAX
  }

  lemma IssuedOrSame(d: PlanDraft, c: Call)
    requires !c.op.Start? && !c.op.Reset? && !c.op.Restore?
    ensures After(d, c).planningRequestId == d.planningRequestId
        || (BeginsRequest(c.op) && After(d, c).planningRequestId == NextId(d.planningRequestId))
  {
  }

  lemma CallMovesId(d: PlanDraft, c: Call, start: uint64, bound: nat)
    requires !c.op.Start? && !c.op.Reset? && !c.op.Restore?
    requires start != 0 && d.planningRequestId != 0
    requires IdDistance(start, d.planningRequestId) <= bound
             && bound + (if BeginsRequest(c.op) then 1 else 0) < UINT64_MAX
    ensures After(d, c).planningRequestId != 0
    ensures IdDistance(start, d.planningRequestId) <= IdDistance(start, After(d, c).planningRequestId)
    ensures IdDistance(start, After(d, c).planningRequestId) <= bound + if BeginsRequest(c.op) then 1 else 0
  {
    IssuedOrSame(d, c);
  }

  lemma {:induction false} IdsMoveOn(d: PlanDraft, calls: seq<Call>, start: uint64, bound: nat)
    requires SamePlan(calls) && start != 0 && d.planningRequestId != 0
    requires IdDistance(start, d.planningRequestId) <= bound && bound + Begins(calls) < UINT64_MAX
    ensures AfterAll(d, calls).planningRequestId != 0
    ensures IdDistance(start, d.planningRequestId) <= IdDistance(start, AfterAll(d, calls).planningRequestId)
    ensures IdDistance(start, AfterAll(d, calls).planningRequestId) <= bound + Begins(calls)
    decreases |calls|
  {
    if calls != [] {
      var c := calls[0];
      assert forall i | 0 <= i < |calls[1..]| :: calls[1..][i] == calls[i + 1];
      CallMovesId(d, c, start, bound);
      IdsMoveOn(After(d, c), calls[1..], start, bound + if BeginsRequest(c.op) then 1 else 0);
    }
  }

  /**
   Within one plan and fewer than 2^64 - 1 requests: once a newer request has begun, a model result
   tagged with an older id is rejected, whichever call delivers it and whatever happened in between.
   */
  lemma OldResultsAreRejected(d: PlanDraft, calls: seq<Call>, begin: Call, later: seq<Call>, result: Call)
    requires d.planningRequestId != 0 && SamePlan(calls) && SamePlan([begin]) && SamePlan(later)
    requires Begins(calls) + 1 + Begins(later) < UINT64_MAX
    requires After(AfterAll(d, calls), begin).planningRequestId != AfterAll(d, calls).planningRequestId
    requires ResultId(result.op) == Some(d.planningRequestId)
    ensures Apply(AfterAll(After(AfterAll(d, calls), begin), later), result.op, result.now) == Failure(StaleResult)
  {
    var start := d.planningRequestId;
    IdsMoveOn(d, calls, start, 0);
    var x := AfterAll(d, calls);
    assert [begin][0] == begin;
    CallMovesId(x, begin, start, Begins(calls));
    var y := After(x, begin);
    IssuedOrSame(x, begin);
    assert IdDistance(start, y.planningRequestId) >= 1;
    IdsMoveOn(y, later, start, Begins(calls) + 1);
    WrongIdIsStale(AfterAll(y, later), result);
  }

  lemma WrongIdIsStale(d: PlanDraft, c: Call)
    requires ResultId(c.op).Some? && ResultId(c.op).value != d.planningRequestId
    ensures Apply(d, c.op, c.now) == Failure(StaleResult)
  {
  }

  // ---------------------------------------------------------------- normal form

  predicate NormalizedOptions(os: seq<PlanOption>) {
    forall i | 0 <= i < |os| :: Normalized(os[i].items)
  }

  predicate NormalDraft(d: PlanDraft) {
    Normalized(d.items) && Normalized(d.finalItems) && NormalizedOptions(d.options)
  }

  lemma {:induction false} PatchKeepsDecisions(ds: seq<PlanDecision>, p: PlanDecisionPatch)
    requires NamedDecisions(ds) && PatchDecisions(ds, p).Some?
    ensures NamedDecisions(PatchDecisions(ds, p).value) && |PatchDecisions(ds, p).value| == |ds|
  {
    if ds[0].id != p.decisionId {
      assert NamedDecisions(ds[1..]);
      PatchKeepsDecisions(ds[1..], p);
    }
  }

  /** A patch touches one item's decisions and nothing else of any item. */
  lemma {:induction false} PatchKeepsItems(xs: seq<PlanItem>, p: PlanDecisionPatch)
    requires forall i | 0 <= i < |xs| :: NamedDecisions(xs[i].decisions)
    requires PatchItems(xs, p).Success?
    ensures var r := PatchItems(xs, p).value;
            && |r| == |xs|
            && forall i | 0 <= i < |xs| ::
                 r[i] == xs[i].(decisions := r[i].decisions) && NamedDecisions(r[i].decisions)
  {
    if xs[0].id == p.itemId {
      PatchKeepsDecisions(xs[0].decisions, p);
    } else {
      PatchKeepsItems(xs[1..], p);
    }
  }

  lemma OptionsAreNormal(os: seq<PlanOption>)
    ensures NormalizedOptions(NormalOptions(os)) && NormalizedOptions(NamedOptions(os))
    ensures NormalOptions(os) == os <==> NormalizedOptions(os)
  {
    forall i | 0 <= i < |os|
      ensures Normalized(NormalItems(os[i].items, false))
      ensures NormalOption(os[i]) == os[i] <==> Normalized(os[i].items)
    {
      NormalizingIsExact(os[i].items, false);
    }
    if NormalOptions(os) == os {
      assert forall i | 0 <= i < |os| :: NormalOption(os[i]) == os[i];
    }
  }

  lemma NormalResult(xs: seq<PlanItem>, pick: bool)
    ensures Normalized(NormalItems(xs, pick))
  {
    NormalizingIsExact(xs, pick);
  }

  lemma ListCallKeepsNormal(d: PlanDraft, c: Call)
    requires NormalDraft(d)
    requires c.op.ApplyModelDraft? || c.op.ApplyModelDetail? || c.op.ApplyRevisedDetail? || c.op.ApplyUserItems?
    ensures NormalDraft(After(d, c))
  {
    NormalResult(c.op.items, c.op.ApplyModelDraft?);
  }

  lemma FinalCallKeepsNormal(d: PlanDraft, c: Call)
    requires NormalDraft(d) && (c.op.ApplyRevisedFinal? || c.op.ApplyModelFinal?)
    ensures NormalDraft(After(d, c))
  {
    NormalResult(c.op.final.items, false);
  }

  lemma OptionsCallKeepsNormal(d: PlanDraft, c: Call)
    requires NormalDraft(d) && (c.op.ApplyModelOptions? || c.op.ApplyRevisedOptions?)
    ensures NormalDraft(After(d, c))
  {
    hide NormalItems, NormalOptions, NamedOptions, NormalizedOptions;
    OptionsAreNormal(c.op.options);
  }

  lemma SelectKeepsNormal(d: PlanDraft, c: Call)
    requires NormalDraft(d) && c.op.SelectOption?
    ensures NormalDraft(After(d, c))
  {
    if FindOption(d.options, c.op.optionId).Some? {
      NormalResult(FindOption(d.options, c.op.optionId).value.items, false);
    }
  }

  lemma PatchKeepsNormal(d: PlanDraft, c: Call)
    requires NormalDraft(d) && c.op.ApplyDecision?
    ensures NormalDraft(After(d, c))
  {
    if PatchItems(d.items, c.op.patch).Success? {
      PatchKeepsItems(d.items, c.op.patch);
    }
  }

  lemma RestoreIsNormal(d: PlanDraft, c: Call)
    requires c.op.Restore?
    ensures NormalDraft(After(d, c))
  {
    hide NormalItems, NormalOptions, Normalized, NormalizedOptions;
    var saved := c.op.draft;
    NormalResult(saved.items, false);
    NormalResult(saved.finalItems, false);
    OptionsAreNormal(saved.options);
    assert After(d, c) == Restored(saved, c.now);
  }

  lemma OtherCallKeepsNormal(d: PlanDraft, c: Call)
    requires NormalDraft(d)
    requires c.op.Start? || c.op.MarkDrafting? || c.op.BeginDetailing? || c.op.BeginChatRevision?
             || c.op.BeginFinalizing?
          || c.op.MarkFailed? || c.op.MarkReviewError? || c.op.Confirm? || c.op.MarkExecuting? || c.op.Cancel?
             || c.op.Reset?
    ensures NormalDraft(After(d, c))
  {
  }

  /** Every transition, restoring included, leaves every item list in normal form. */
  lemma CallKeepsNormal(d: PlanDraft, c: Call)
    requires NormalDraft(d)
    ensures NormalDraft(After(d, c))
  {
    match c.op {
      case ApplyModelDraft(_, _, _) => ListCallKeepsNormal(d, c);
      case ApplyModelDetail(_, _, _, _, _, _, _) => ListCallKeepsNormal(d, c);
      case ApplyRevisedDetail(_, _, _, _, _, _) => ListCallKeepsNormal(d, c);
      case ApplyUserItems(_) => ListCallKeepsNormal(d, c);
      case ApplyRevisedFinal(_, _) => FinalCallKeepsNormal(d, c);
      case ApplyModelFinal(_, _) => FinalCallKeepsNormal(d, c);
      case ApplyModelOptions(_, _, _, _) => OptionsCallKeepsNormal(d, c);
      case ApplyRevisedOptions(_, _, _, _, _) => OptionsCallKeepsNormal(d, c);
      case SelectOption(_) => SelectKeepsNormal(d, c);
      case ApplyDecision(_) => PatchKeepsNormal(d, c);
      case Restore(_) => RestoreIsNormal(d, c);
      case _ => OtherCallKeepsNormal(d, c);
    }
  }

  lemma RunStaysNormal(d: PlanDraft, calls: seq<Call>)
    requires NormalDraft(d)
    ensures NormalDraft(AfterAll(d, calls))
  {
    var inv := (x: PlanDraft) => NormalDraft(x);
    forall i, x | 0 <= i < |calls| && inv(x)
      ensures inv(After(x, calls[i]))
    {
      CallKeepsNormal(x, calls[i]);
    }
    RunInvariant(d, calls, inv);
  }

  /**
   Restoring a normal draft gives it back unchanged if and only if it is not a reviewing draft without
   a stage, and has a time stamp (or the clock reads zero).
   */
  lemma RestoreIsIdentityIff(d: PlanDraft, now: uint64)
    requires NormalDraft(d)
    ensures After(EMPTY_DRAFT, Call(Restore(d), now)) == d
       <==> !(d.stage == NoStage && d.status == Reviewing) && (d.updatedMs != 0 || now == 0)
  {
    NormalizingIsExact(d.items, false);
    NormalizingIsExact(d.finalItems, false);
    OptionsAreNormal(d.options);
  }
}
