/**
 The plan protocol: every transition of the plan manager, as a function of the draft and as the method that performs
 it.
 */
module PlanManager {
  import opened Wrappers
  import opened Texts
  import opened PlanModel

  datatype PlanCommand = PlanCommand(planId: string, sessionId: string, workspace: string, prompt: string)

  datatype PlanDecisionPatch = PlanDecisionPatch(revision: int, itemId: string, decisionId: string, choiceId: string,
                                                 customNote: string)

  datatype PlanFinalDraft = PlanFinalDraft(
    summary: string, items: seq<PlanItem>, globalRisks: seq<string>, validation: seq<string>,
    consistencyNotes: seq<string>)

  /** The std::logic_error a transition throws. */
  datatype PlanError =
    | WrongState | StaleRevision | StaleResult | OptionNotFound | ItemNotFound | DecisionNotFound | NoItems | Unresolved

  datatype Answer = Nothing | RequestId(id: uint64) | AllResolved(resolved: bool)

  datatype Applied = Applied(draft: PlanDraft, answer: Answer)

  // ---------------------------------------------------------------- queries

  predicate Reviewable(d: PlanDraft) {
    d.status == Drafting || d.status == Reviewing
  }

  predicate Resolved(x: PlanDecision) {
    x.required ==> x.selectedChoiceId != "" || x.customNote != ""
  }

  predicate AllDecisionsResolved(items: seq<PlanItem>) {
    && items != []
    && forall i | 0 <= i < |items| :: forall k | 0 <= k < |items[i].decisions| :: Resolved(items[i].decisions[k])
  }

  // ---------------------------------------------------------------- pieces the transitions share

  function Touched(d: PlanDraft, now: uint64): PlanDraft {
    d.(updatedMs := now)
  }

  function Bumped(d: PlanDraft, now: uint64): PlanDraft {
    d.(revision := d.revision + 1, updatedMs := now)
  }

  function Cleared(d: PlanDraft): PlanDraft {
    d.(finalSummary := "", finalItems := [], consistencyNotes := [], finalizedInputRevision := 0)
  }

  /** Wraps in 64 bits and never yields zero. */
  function NextId(id: uint64): (r: uint64)
    ensures r != 0
  {
    if id as int == UINT64_MAX then 1 else id + 1
  }

  function Finalized(d: PlanDraft, f: PlanFinalDraft, now: uint64): PlanDraft {
    Bumped(d.(finalSummary := f.summary, finalItems := NormalItems(f.items, false), globalRisks := f.globalRisks,
              validation := f.validation, consistencyNotes := f.consistencyNotes, finalizedInputRevision := d.revision,
              stage := FinalReview, status := Reviewing, error := ""), now)
  }

  function FindOption(options: seq<PlanOption>, id: string): (r: Option<PlanOption>)
    ensures r.Some? ==> r.value in options && r.value.id == id
    ensures r.None? ==> forall o | o in options :: o.id != id
  {
    if options == [] then None
    else if options[0].id == id then Some(options[0])
    else FindOption(options[1..], id)
  }

  /** The first decision with this id gets the patch; None when there is none. */
  function PatchDecisions(ds: seq<PlanDecision>, p: PlanDecisionPatch): Option<seq<PlanDecision>> {
    if ds == [] then None
    else if ds[0].id == p.decisionId then
      Some([ds[0].(selectedChoiceId := p.choiceId, customNote := p.customNote)] + ds[1..])
    else match PatchDecisions(ds[1..], p) case None => None case Some(r) => Some([ds[0]] + r)
  }

  /** The first item with this id is the only one looked at. */
  function PatchItems(xs: seq<PlanItem>, p: PlanDecisionPatch): Result<seq<PlanItem>, PlanError> {
    if xs == [] then Failure(ItemNotFound)
    else if xs[0].id == p.itemId then
      match PatchDecisions(xs[0].decisions, p)
      case None => Failure(DecisionNotFound)
      case Some(ds) => Success([xs[0].(decisions := ds)] + xs[1..])
    else match PatchItems(xs[1..], p) case Failure(e) => Failure(e) case Success(r) => Success([xs[0]] + r)
  }

  function AfterDecisions(front: seq<PlanDecision>, r: Option<seq<PlanDecision>>): Option<seq<PlanDecision>> {
    match r case None => None case Some(t) => Some(front + t)
  }

  function AfterItems(front: seq<PlanItem>, r: Result<seq<PlanItem>, PlanError>): Result<seq<PlanItem>, PlanError> {
    match r case Failure(e) => Failure(e) case Success(t) => Success(front + t)
  }

  lemma SkipNoDecision(ds: seq<PlanDecision>, p: PlanDecisionPatch)
    ensures PatchDecisions(ds, p) == AfterDecisions(ds[..0], PatchDecisions(ds[0..], p))
  {
    assert ds[0..] == ds;
    if PatchDecisions(ds, p).Some? {
      assert ds[..0] + PatchDecisions(ds, p).value == PatchDecisions(ds, p).value;
    }
  }

  lemma SkipDecision(ds: seq<PlanDecision>, k: nat, p: PlanDecisionPatch)
    requires k < |ds| && ds[k].id != p.decisionId
    ensures AfterDecisions(ds[..k], PatchDecisions(ds[k..], p))
         == AfterDecisions(ds[..k + 1], PatchDecisions(ds[k + 1..], p))
  {
    assert ds[k..][1..] == ds[k + 1..];
    if PatchDecisions(ds[k + 1..], p).Some? {
      var t := PatchDecisions(ds[k + 1..], p).value;
      assert ds[..k] + ([ds[k]] + t) == ds[..k + 1] + t;
    }
  }

  lemma SkipNone(xs: seq<PlanItem>, p: PlanDecisionPatch)
    ensures PatchItems(xs, p) == AfterItems(xs[..0], PatchItems(xs[0..], p))
  {
    assert xs[0..] == xs;
    if PatchItems(xs, p).Success? {
      assert xs[..0] + PatchItems(xs, p).value == PatchItems(xs, p).value;
    }
  }

  lemma SkipItem(xs: seq<PlanItem>, i: nat, p: PlanDecisionPatch)
    requires i < |xs| && xs[i].id != p.itemId
    ensures AfterItems(xs[..i], PatchItems(xs[i..], p)) == AfterItems(xs[..i + 1], PatchItems(xs[i + 1..], p))
  {
    assert xs[i..][1..] == xs[i + 1..];
    if PatchItems(xs[i + 1..], p).Success? {
      var t := PatchItems(xs[i + 1..], p).value;
      assert xs[..i] + ([xs[i]] + t) == xs[..i + 1] + t;
    }
  }

  // ---------------------------------------------------------------- the transitions

  datatype Op =
    | Start(command: PlanCommand)
    | MarkDrafting
    | ApplyModelDraft(title: string, objective: string, items: seq<PlanItem>)
    | ApplyModelOptions(title: string, objective: string, options: seq<PlanOption>, selectedOptionId: string)
    | BeginDetailing(optionId: string, revision: int)
    | ApplyModelDetail(optionId: string, requestId: uint64, title: string, objective: string, items: seq<PlanItem>,
                       globalRisks: seq<string>, validation: seq<string>)
    | SelectOption(optionId: string)
    | ApplyUserItems(items: seq<PlanItem>)
    | ApplyDecision(patch: PlanDecisionPatch)
    | BeginChatRevision(revision: int)
    | ApplyRevisedOptions(requestId: uint64, title: string, objective: string, options: seq<PlanOption>,
                          selectedOptionId: string)
    | ApplyRevisedDetail(requestId: uint64, title: string, objective: string, items: seq<PlanItem>,
                         globalRisks: seq<string>, validation: seq<string>)
    | ApplyRevisedFinal(requestId: uint64, final: PlanFinalDraft)
    | BeginFinalizing(revision: int)
    | ApplyModelFinal(requestId: uint64, final: PlanFinalDraft)
    | MarkFailed(error: string)
    | MarkReviewError(error: string)
    | Confirm(revision: int)
    | MarkExecuting
    | Cancel
    | Restore(draft: PlanDraft)
    | Reset

  function Kept(d: PlanDraft): Result<Applied, PlanError> {
    Success(Applied(d, Nothing))
  }

  function OptionsApplied(d: PlanDraft, title: string, objective: string, options: seq<PlanOption>, selected: string,
                          now: uint64)
    : PlanDraft
  {
    Bumped(Cleared(d.(title := title, objective := OrElse(objective, d.objective), options := NamedOptions(options),
                      selectedOptionId := selected, detailedOptionId := "", items := [], globalRisks := [],
                      validation := [],
                      stage := OptionReview, status := Reviewing, error := "")), now)
  }

  function Detailed(d: PlanDraft, title: string, objective: string, items: seq<PlanItem>, globalRisks: seq<string>,
                    validation: seq<string>, now: uint64): PlanDraft
  {
    Bumped(Cleared(d.(title := OrElse(title, d.title), objective := OrElse(objective, d.objective),
                      items := NormalItems(items, false), globalRisks := globalRisks, validation := validation,
                      stage := DecisionReview, status := Reviewing, error := "")), now)
  }

  function DetailingBegun(d: PlanDraft, optionId: string, revision: int, now: uint64): Result<Applied, PlanError> {
    if d.stage != OptionReview || d.status != Reviewing then Failure(WrongState)
    else if revision != d.revision then Failure(StaleRevision)
    else if FindOption(d.options, optionId).None? then Failure(OptionNotFound)
    else
      var id := NextId(d.planningRequestId);
      Success(Applied(Bumped(Cleared(d.(selectedOptionId := optionId, detailedOptionId := "", items := [],
                                        stage := Detailing,
                                        status := Drafting, planningRequestId := id)), now), RequestId(id)))
  }

  /** The stage a restored draft gets: drafts saved before there were stages are sorted into a review stage. */
  function RestoredStage(d: PlanDraft): PlanStage {
    if d.stage == NoStage && d.status == Reviewing then (if d.options == [] then DecisionReview else OptionReview)
    else d.stage
  }

  function Restored(d: PlanDraft, now: uint64): PlanDraft {
    d.(items := NormalItems(d.items, false), finalItems := NormalItems(d.finalItems, false),
       options := NormalOptions(d.options),
       stage := RestoredStage(d), updatedMs := if d.updatedMs == 0 then now else d.updatedMs)
  }

  function Apply(d: PlanDraft, op: Op, now: uint64): Result<Applied, PlanError> {
    match op
    case Start(c) =>
      Kept(EMPTY_DRAFT.(planId := OrElse(c.planId, MakeId("plan", now as nat)), sessionId := c.sessionId,
                        workspace := c.workspace, objective := c.prompt, status := Drafting, revision := 1,
                        updatedMs := now))
    case MarkDrafting => Kept(Touched(d.(status := Drafting), now))
    case ApplyModelDraft(title, objective, items) =>
      Kept(Bumped(Cleared(d.(title := title, objective := OrElse(objective, d.objective),
                             items := NormalItems(items, true),
                             stage := DecisionReview, status := Reviewing, error := "")), now))
    case ApplyModelOptions(title, objective, options, selected) =>
      Kept(OptionsApplied(d, title, objective, options, selected, now))
    case BeginDetailing(optionId, revision) => DetailingBegun(d, optionId, revision, now)
    case ApplyModelDetail(optionId, id, title, objective, items, risks, validation) =>
      if id != d.planningRequestId || optionId != d.selectedOptionId then Failure(StaleResult)
      else if items == [] then Failure(NoItems)
      else Kept(Detailed(d, title, objective, items, risks, validation, now).(detailedOptionId := optionId))
    case SelectOption(optionId) =>
      if d.stage == OptionReview then
        (match DetailingBegun(d, optionId, d.revision, now)
         case Failure(e) => Failure(e)
         case Success(a) => Kept(a.draft))
      else if !Reviewable(d) then Failure(WrongState)
      else (match FindOption(d.options, optionId)
            case None => Failure(OptionNotFound)
            case Some(o) =>
              Kept(Bumped(Cleared(d.(selectedOptionId := optionId, items := NormalItems(o.items, false),
                                     stage := DecisionReview, status := Reviewing)), now)))
    case ApplyUserItems(items) =>
      if !Reviewable(d) then Failure(WrongState)
      else Kept(Bumped(Cleared(d.(items := NormalItems(items, false), selectedOptionId := "", stage := DecisionReview,
                                  status := Reviewing)), now))
    case ApplyDecision(p) =>
      if d.status != Reviewing || (d.stage != DecisionReview && d.stage != FinalReview) then Failure(WrongState)
      else if p.revision != d.revision then Failure(StaleRevision)
      else (match PatchItems(d.items, p)
            case Failure(e) => Failure(e)
            case Success(items) =>
              var d1 := d.(items := items);
              var d2 := if d.stage == FinalReview then Cleared(d1.(stage := DecisionReview)) else d1;
              Success(Applied(Bumped(d2, now), AllResolved(AllDecisionsResolved(items)))))
    case BeginChatRevision(revision) =>
      if d.status != Reviewing || (d.stage != OptionReview && d.stage != DecisionReview && d.stage != FinalReview) then
        Failure(WrongState)
      else if revision != 0 && revision != d.revision then Failure(StaleRevision)
      else
        var id := NextId(d.planningRequestId);
        Success(Applied(Touched(d.(status := Drafting, planningRequestId := id), now), RequestId(id)))
    case ApplyRevisedOptions(id, title, objective, options, selected) =>
      if id != d.planningRequestId then Failure(StaleResult)
      else Kept(OptionsApplied(d, title, objective, options, selected, now))
    case ApplyRevisedDetail(id, title, objective, items, risks, validation) =>
      if id != d.planningRequestId then Failure(StaleResult)
      else if items == [] then Failure(NoItems)
      else Kept(Detailed(d, title, objective, items, risks, validation, now))
    case ApplyRevisedFinal(id, f) =>
      if id != d.planningRequestId then Failure(StaleResult)
      else if f.items == [] then Failure(NoItems)
      else Kept(Finalized(d, f, now))
    case BeginFinalizing(revision) =>
      if d.status == Reviewing && d.stage == FinalReview && d.finalizedInputRevision == revision then
        Success(Applied(d, RequestId(d.planningRequestId)))
      else if d.status != Reviewing || d.stage != DecisionReview then Failure(WrongState)
      else if revision != d.revision then Failure(StaleRevision)
      else if !AllDecisionsResolved(d.items) then Failure(Unresolved)
      else
        var id := NextId(d.planningRequestId);
        Success(Applied(Touched(d.(stage := Finalizing, status := Drafting, planningRequestId := id), now),
                        RequestId(id)))
    case ApplyModelFinal(id, f) =>
      if id != d.planningRequestId || d.stage != Finalizing then Failure(StaleResult)
      else if f.items == [] then Failure(NoItems)
      else Kept(Finalized(d, f, now))
    case MarkFailed(error) => Kept(Touched(d.(status := Failed, error := error), now))
    case MarkReviewError(error) =>
      Kept(Touched(d.(status := if d.status == Drafting then Reviewing else d.status, error := error), now))
    case Confirm(revision) =>
      if d.status != Reviewing || d.stage != FinalReview then Failure(WrongState)
      else if revision != d.revision then Failure(StaleRevision)
      else if d.finalItems == [] then Failure(NoItems)
      else Kept(Touched(d.(status := Confirmed), now))
    case MarkExecuting =>
      if d.status != Confirmed && d.status != Executing then Failure(WrongState)
      else Kept(Touched(d.(status := Executing), now))
    case Cancel => Kept(Touched(d.(status := Cancelled), now))
    case Restore(saved) => Kept(Restored(saved, now))
    case Reset => Kept(EMPTY_DRAFT)
  }

  /** What a call did to the draft and answered, against the transition function. */
  predicate Did(before: PlanDraft, after: PlanDraft, op: Op, now: uint64, r: Result<Answer, PlanError>) {
    match Apply(before, op, now)
    case Success(a) => r == Success(a.answer) && after == a.draft
    case Failure(e) => r == Failure(e) && after == before
  }

  // ---------------------------------------------------------------- what a patch does

  /** The next id in 64 bits, zero left out. */
  predicate Follows(next: uint64, id: uint64) {
    next as int == if id as int == UINT64_MAX then 1 else id as int + 1
  }

  predicate FirstOption(options: seq<PlanOption>, id: string, k: nat) {
    k < |options| && options[k].id == id && forall j | 0 <= j < k :: options[j].id != id
  }

  predicate FirstItem(items: seq<PlanItem>, id: string, i: nat) {
    i < |items| && items[i].id == id && forall j | 0 <= j < i :: items[j].id != id
  }

  predicate FirstDecision(ds: seq<PlanDecision>, id: string, k: nat) {
    k < |ds| && ds[k].id == id && forall j | 0 <= j < k :: ds[j].id != id
  }

  predicate NoItem(items: seq<PlanItem>, id: string) {
    forall j | 0 <= j < |items| :: items[j].id != id
  }

  predicate NoDecision(ds: seq<PlanDecision>, id: string) {
    forall j | 0 <= j < |ds| :: ds[j].id != id
  }

  /** Only the first item with the id is looked into. */
  predicate NoDecisionInItem(items: seq<PlanItem>, p: PlanDecisionPatch) {
    exists i :: 0 <= i < |items| && FirstItem(items, p.itemId, i) && NoDecision(items[i].decisions, p.decisionId)
  }

  /** Decision `k` has the choice and the note of the patch; it and all others keep the rest. */
  predicate PatchedAt(before: seq<PlanDecision>, after: seq<PlanDecision>, p: PlanDecisionPatch, k: nat) {
    && FirstDecision(before, p.decisionId, k) && |after| == |before|
    && after[k].selectedChoiceId == p.choiceId && after[k].customNote == p.customNote
    && after[k].(selectedChoiceId := "", customNote := "") == before[k].(selectedChoiceId := "", customNote := "")
    && forall j | 0 <= j < |before| && j != k :: after[j] == before[j]
  }

  predicate PatchedDecisions(before: seq<PlanDecision>, after: seq<PlanDecision>, p: PlanDecisionPatch) {
    exists k :: 0 <= k < |before| && PatchedAt(before, after, p, k)
  }

  predicate PatchedIn(before: seq<PlanItem>, after: seq<PlanItem>, p: PlanDecisionPatch, i: nat) {
    && FirstItem(before, p.itemId, i) && |after| == |before|
    && PatchedDecisions(before[i].decisions, after[i].decisions, p)
    && after[i].(decisions := []) == before[i].(decisions := [])
    && forall j | 0 <= j < |before| && j != i :: after[j] == before[j]
  }

  predicate Patched(before: seq<PlanItem>, after: seq<PlanItem>, p: PlanDecisionPatch) {
    exists i :: 0 <= i < |before| && PatchedIn(before, after, p, i)
  }

  lemma PatchedFurtherOn(d: PlanDecision, t: seq<PlanDecision>, r: seq<PlanDecision>, p: PlanDecisionPatch, k: nat)
    requires d.id != p.decisionId && PatchedAt(t, r, p, k)
    ensures PatchedAt([d] + t, [d] + r, p, k + 1)
  {
    assert forall j | 0 < j < |[d] + t| :: ([d] + t)[j] == t[j - 1] && ([d] + r)[j] == r[j - 1];
  }

  lemma {:induction false} DecisionsArePatched(ds: seq<PlanDecision>, p: PlanDecisionPatch)
    ensures match PatchDecisions(ds, p)
            case None => NoDecision(ds, p.decisionId)
            case Some(r) => PatchedDecisions(ds, r, p)
  {
    if ds != [] && ds[0].id != p.decisionId {
      var t := ds[1..];
      DecisionsArePatched(t, p);
      assert ds == [ds[0]] + t;
      match PatchDecisions(t, p) {
        case None =>
          assert forall j | 0 < j < |ds| :: ds[j] == t[j - 1];
        case Some(r) =>
          var k :| 0 <= k < |t| && PatchedAt(t, r, p, k);
          PatchedFurtherOn(ds[0], t, r, p, k);
          hide PatchedAt;
          assert PatchedAt(ds, [ds[0]] + r, p, k + 1);
      }
    } else if ds != [] {
      assert PatchedAt(ds, PatchDecisions(ds, p).value, p, 0);
    }
  }

  lemma PatchedInFurtherOn(x: PlanItem, t: seq<PlanItem>, r: seq<PlanItem>, p: PlanDecisionPatch, i: nat)
    requires x.id != p.itemId && PatchedIn(t, r, p, i)
    ensures PatchedIn([x] + t, [x] + r, p, i + 1)
  {
    hide PatchedDecisions;
    assert forall j | 0 < j < |[x] + t| :: ([x] + t)[j] == t[j - 1] && ([x] + r)[j] == r[j - 1];
  }

  lemma FirstIsPatched(xs: seq<PlanItem>, p: PlanDecisionPatch)
    requires xs != [] && xs[0].id == p.itemId
    ensures match PatchDecisions(xs[0].decisions, p)
            case Some(ds) => PatchedIn(xs, [xs[0].(decisions := ds)] + xs[1..], p, 0) && !NoDecisionInItem(xs, p)
            case None => NoDecisionInItem(xs, p)
  {
    DecisionsArePatched(xs[0].decisions, p);
    assert FirstItem(xs, p.itemId, 0);
    if NoDecisionInItem(xs, p) {
      var i :| 0 <= i < |xs| && FirstItem(xs, p.itemId, i) && NoDecision(xs[i].decisions, p.decisionId);
      assert i == 0;
    }
  }

  /**
   A patch sets the choice and the note of the first decision with its id in the first item with its id and
   changes nothing else; it is refused exactly when there is no such item, or no such decision in that item.
   */
  lemma {:induction false} ItemsArePatched(xs: seq<PlanItem>, p: PlanDecisionPatch)
    ensures match PatchItems(xs, p)
            case Success(r) => Patched(xs, r, p) && !NoItem(xs, p.itemId) && !NoDecisionInItem(xs, p)
            case Failure(e) =>
              && (e == ItemNotFound || e == DecisionNotFound)
              && (e == ItemNotFound <==> NoItem(xs, p.itemId)) && (e == DecisionNotFound <==> NoDecisionInItem(xs, p))
  {
    if xs != [] && xs[0].id == p.itemId {
      hide PatchedIn, NoDecisionInItem;
      FirstIsPatched(xs, p);
    } else if xs != [] {
      var t := xs[1..];
      ItemsArePatched(t, p);
      FirstItemShifts(xs, p);
      assert xs == [xs[0]] + t;
      if PatchItems(t, p).Success? {
        var r := PatchItems(t, p).value;
        var i :| 0 <= i < |t| && PatchedIn(t, r, p, i);
        PatchedInFurtherOn(xs[0], t, r, p, i);
        hide PatchedIn, NoDecisionInItem, NoItem;
        assert PatchedIn(xs, [xs[0]] + r, p, i + 1);
      }
    }
  }

  lemma FirstItemShifts(xs: seq<PlanItem>, p: PlanDecisionPatch)
    requires xs != [] && xs[0].id != p.itemId
    ensures NoItem(xs, p.itemId) <==> NoItem(xs[1..], p.itemId)
    ensures NoDecisionInItem(xs, p) <==> NoDecisionInItem(xs[1..], p)
  {
    var t := xs[1..];
    assert forall j | 0 <= j < |t| :: t[j] == xs[j + 1];
    assert forall j | 0 < j < |xs| :: xs[j] == t[j - 1];
    if NoDecisionInItem(xs, p) {
      var i :| 0 <= i < |xs| && FirstItem(xs, p.itemId, i) && NoDecision(xs[i].decisions, p.decisionId);
      assert FirstItem(t, p.itemId, i - 1) && t[i - 1] == xs[i];
    }
    if NoDecisionInItem(t, p) {
      var i :| 0 <= i < |t| && FirstItem(t, p.itemId, i) && NoDecision(t[i].decisions, p.decisionId);
      assert FirstItem(xs, p.itemId, i + 1) && t[i] == xs[i + 1];
    }
  }

  lemma {:induction false} OptionIsFirst(options: seq<PlanOption>, id: string) returns (k: nat)
    requires FindOption(options, id).Some?
    ensures FirstOption(options, id, k) && FindOption(options, id) == Some(options[k])
  {
    if options[0].id == id {
      k := 0;
    } else {
      var j := OptionIsFirst(options[1..], id);
      k := j + 1;
      assert forall m | 0 < m < k :: options[m] == options[1..][m - 1];
    }
  }

  // ---------------------------------------------------------------- the object

  /** Each method performs one transition; when it throws, the draft is untouched. */
  class PlanManager {
    var draft: PlanDraft

    constructor ()
      ensures draft == EMPTY_DRAFT
    {
      draft := EMPTY_DRAFT;
    }

    method Touch(now: uint64)
      modifies this
      ensures draft == Touched(old(draft), now)
    {
      draft := draft.(updatedMs := now);
    }

    method BumpRevision(now: uint64)
      modifies this
      ensures draft == Bumped(old(draft), now)
    {
      draft := draft.(revision := draft.revision + 1);
      Touch(now);
    }

    method ClearFinalFields()
      modifies this
      ensures draft == Cleared(old(draft))
    {
      draft := draft.(finalSummary := "", finalItems := [], consistencyNotes := [], finalizedInputRevision := 0);
    }

    method NextRequestId() returns (id: uint64)
      modifies this
      ensures id == NextId(old(draft).planningRequestId) && draft == old(draft).(planningRequestId := id)
      ensures Follows(id, old(draft).planningRequestId)
    {
      id := if draft.planningRequestId as int == UINT64_MAX then 0 else draft.planningRequestId + 1;
      if id == 0 {
        id := 1;
      }
      draft := draft.(planningRequestId := id);
    }

    method CheckResolved() returns (resolved: bool)
      ensures resolved == AllDecisionsResolved(draft.items)
      ensures resolved <==> draft.items != []
                            && forall i | 0 <= i < |draft.items| :: forall k | 0 <= k < |draft.items[i].decisions| ::
                                 var x := draft.items[i].decisions[k];
                                 !x.required || x.selectedChoiceId != "" || x.customNote != ""
    {
      if draft.items == [] {
        return false;
      }
      var i := 0;
      while i < |draft.items|
        invariant 0 <= i <= |draft.items|
        invariant forall a | 0 <= a < i :: forall k | 0 <= k < |draft.items[a].decisions| ::
                  Resolved(draft.items[a].decisions[k])
      {
        var decisions := draft.items[i].decisions;
        var k := 0;
        while k < |decisions|
          invariant 0 <= k <= |decisions|
          invariant forall b | 0 <= b < k :: Resolved(decisions[b])
        {
          var x := decisions[k];
          if x.required && !(x.selectedChoiceId != "" || x.customNote != "") {
            assert !Resolved(draft.items[i].decisions[k]);
            return false;
          }
          k := k + 1;
        }
        i := i + 1;
      }
      resolved := true;
    }

    method StartPlan(command: PlanCommand, now: uint64)
      modifies this
      ensures Did(old(draft), draft, Op.Start(command), now, Success(Nothing))
      ensures draft == PlanDraft(if command.planId == "" then "plan:" + NatText(now as nat) else command.planId,
                                 command.sessionId, command.workspace, "", command.prompt, Drafting, NoStage, 1,
                                 [], "", "", [], [], [], "", [], [], 0, 0, "", now)
    {
      draft := EMPTY_DRAFT;
      draft := draft.(planId := if command.planId == "" then MakeId("plan", now as nat) else command.planId);
      draft := draft.(sessionId := command.sessionId, workspace := command.workspace, objective := command.prompt);
      draft := draft.(status := Drafting, stage := NoStage, revision := 1);
      Touch(now);
    }

    method MarkDrafting(now: uint64)
      modifies this
      ensures Did(old(draft), draft, Op.MarkDrafting, now, Success(Nothing))
      ensures draft == old(draft).(status := Drafting, updatedMs := now)
    {
      draft := draft.(status := Drafting);
      Touch(now);
    }

    method ApplyModelDraft(title: string, objective: string, items: seq<PlanItem>, now: uint64)
      modifies this
      ensures Did(old(draft), draft, Op.ApplyModelDraft(title, objective, items), now, Success(Nothing))
      ensures draft == old(draft).(
                title := title, objective := if objective == "" then old(draft).objective else objective,
                items := NormalItems(items, true), stage := DecisionReview, status := Reviewing, error := "",
                finalSummary := "", finalItems := [], consistencyNotes := [], finalizedInputRevision := 0,
                revision := old(draft).revision + 1, updatedMs := now)
    {
      draft := draft.(title := title);
      if objective != "" {
        draft := draft.(objective := objective);
      }
      var normal := NormalizeItems(items, true);
      draft := draft.(items := normal, stage := DecisionReview, status := Reviewing, error := "");
      ClearFinalFields();
      BumpRevision(now);
    }

    method ApplyModelOptions(title: string, objective: string, options: seq<PlanOption>, selected: string, now: uint64)
      modifies this
      ensures draft == OptionsApplied(old(draft), title, objective, options, selected, now)
      ensures draft == old(draft).(
                title := title, objective := if objective == "" then old(draft).objective else objective,
                options := NamedOptions(options), selectedOptionId := selected, detailedOptionId := "", items := [],
                globalRisks := [], validation := [], stage := OptionReview, status := Reviewing, error := "",
                finalSummary := "", finalItems := [], consistencyNotes := [], finalizedInputRevision := 0,
                revision := old(draft).revision + 1, updatedMs := now)
    {
      draft := draft.(title := title);
      if objective != "" {
        draft := draft.(objective := objective);
      }
      var named := NameOptions(options);
      draft := draft.(options := named, selectedOptionId := selected, detailedOptionId := "", items := []);
      draft := draft.(globalRisks := [], validation := []);
      ClearFinalFields();
      draft := draft.(stage := OptionReview, status := Reviewing, error := "");
      BumpRevision(now);
    }

    method NameOptions(options: seq<PlanOption>) returns (named: seq<PlanOption>)
      ensures named == NamedOptions(options)
    {
      named := options;
      var i := 0;
      while i < |options|
        invariant 0 <= i <= |options| && |named| == |options|
        invariant forall k | 0 <= k < |options| :: named[k] == if k < i then NamedOptions(options)[k] else options[k]
      {
        var option := named[i];
        if option.id == "" {
          option := option.(id := MakeId("option", i + 1));
        }
        var items := NormalizeItems(option.items, false);
        named := named[i := option.(items := items)];
        i := i + 1;
      }
    }

    method BeginDetailing(optionId: string, revision: int, now: uint64) returns (r: Result<Answer, PlanError>)
      modifies this
      ensures Did(old(draft), draft, Op.BeginDetailing(optionId, revision), now, r)
      ensures var d := old(draft);
              && (r == Failure(WrongState) <==> d.stage != OptionReview || d.status != Reviewing)
              && (r == Failure(StaleRevision) <==>
                    d.stage == OptionReview && d.status == Reviewing && revision != d.revision)
              && (r == Failure(OptionNotFound) <==>
                    d.stage == OptionReview && d.status == Reviewing && revision == d.revision
                    && forall o | o in d.options :: o.id != optionId)
      ensures r.Success? ==>
                && r == Success(RequestId(draft.planningRequestId))
                   && Follows(draft.planningRequestId, old(draft).planningRequestId)
                && draft == old(draft).(
                  selectedOptionId := optionId, detailedOptionId := "", items := [], stage := Detailing,
                      status := Drafting,
                  finalSummary := "", finalItems := [], consistencyNotes := [], finalizedInputRevision := 0,
                  planningRequestId := draft.planningRequestId, revision := old(draft).revision + 1, updatedMs := now)
    {
      if draft.stage != OptionReview || draft.status != Reviewing {
        return Failure(WrongState);
      }
      if revision != draft.revision {
        return Failure(StaleRevision);
      }
      if FindOption(draft.options, optionId).None? {
        return Failure(OptionNotFound);
      }
      draft := draft.(selectedOptionId := optionId, detailedOptionId := "", items := [], stage := Detailing,
                      status := Drafting);
      ClearFinalFields();
      var id := NextRequestId();
      BumpRevision(now);
      r := Success(RequestId(id));
    }

    method SetDetail(title: string, objective: string, items: seq<PlanItem>, risks: seq<string>,
                     validation: seq<string>, now: uint64)
      modifies this
      ensures draft == Detailed(old(draft), title, objective, items, risks, validation, now)
    {
      if title != "" {
        draft := draft.(title := title);
      }
      if objective != "" {
        draft := draft.(objective := objective);
      }
      var normal := NormalizeItems(items, false);
      draft := draft.(items := normal, globalRisks := risks, validation := validation);
      draft := draft.(stage := DecisionReview, status := Reviewing, error := "");
      ClearFinalFields();
      BumpRevision(now);
    }

    method ApplyModelDetail(optionId: string, id: uint64, title: string, objective: string, items: seq<PlanItem>,
                            risks: seq<string>, validation: seq<string>, now: uint64)
      returns (r: Result<Answer, PlanError>)
      modifies this
      ensures Did(old(draft), draft, Op.ApplyModelDetail(optionId, id, title, objective, items, risks, validation),
                  now, r)
      ensures r == Failure(StaleResult)
         <==> (id != old(draft).planningRequestId || optionId != old(draft).selectedOptionId)
      ensures r == Failure(NoItems) <==> r != Failure(StaleResult) && items == []
      ensures r.Success? ==>
                draft == old(draft).(
                  title := if title == "" then old(draft).title else title,
                  objective := if objective == "" then old(draft).objective else objective,
                  items := NormalItems(items, false), globalRisks := risks, validation := validation,
                  stage := DecisionReview, status := Reviewing, error := "",
                  finalSummary := "", finalItems := [], consistencyNotes := [], finalizedInputRevision := 0,
                  revision := old(draft).revision + 1, updatedMs := now, detailedOptionId := optionId)
    {
      if id != draft.planningRequestId || optionId != draft.selectedOptionId {
        return Failure(StaleResult);
      }
      if items == [] {
        return Failure(NoItems);
      }
      SetDetail(title, objective, items, risks, validation, now);
      draft := draft.(detailedOptionId := optionId);
      r := Success(Nothing);
    }

    method SelectOption(optionId: string, now: uint64) returns (r: Result<Answer, PlanError>)
      modifies this
      ensures Did(old(draft), draft, Op.SelectOption(optionId), now, r)
      ensures old(draft).stage == OptionReview && r.Success? ==>
                draft == old(draft).(
                  selectedOptionId := optionId, detailedOptionId := "", items := [], stage := Detailing,
                      status := Drafting,
                  finalSummary := "", finalItems := [], consistencyNotes := [], finalizedInputRevision := 0,
                  planningRequestId := draft.planningRequestId, revision := old(draft).revision + 1, updatedMs := now)
      ensures old(draft).stage != OptionReview ==>
                && (r == Failure(WrongState) <==> old(draft).status != Drafting && old(draft).status != Reviewing)
                && (r == Failure(OptionNotFound) <==>
                      r != Failure(WrongState) && forall o | o in old(draft).options :: o.id != optionId)
      ensures old(draft).stage != OptionReview && r.Success? ==>
                exists k: nat :: FirstOption(old(draft).options, optionId, k)
                  && draft == old(draft).(
                       selectedOptionId := optionId, items := NormalItems(old(draft).options[k].items, false),
                       stage := DecisionReview, status := Reviewing,
                       finalSummary := "", finalItems := [], consistencyNotes := [], finalizedInputRevision := 0,
                       revision := old(draft).revision + 1, updatedMs := now)
    {
      if draft.stage == OptionReview {
        r := BeginDetailing(optionId, draft.revision, now);
        if r.Success? {
          r := Success(Nothing);
        }
        return;
      }
      if !Reviewable(draft) {
        return Failure(WrongState);
      }
      var option := FindOption(draft.options, optionId);
      if option.None? {
        return Failure(OptionNotFound);
      }
      ghost var k := OptionIsFirst(draft.options, optionId);
      var items := NormalizeItems(option.value.items, false);
      draft := draft.(selectedOptionId := optionId, items := items, stage := DecisionReview, status := Reviewing);
      ClearFinalFields();
      BumpRevision(now);
      r := Success(Nothing);
    }

    method ApplyUserItems(items: seq<PlanItem>, now: uint64) returns (r: Result<Answer, PlanError>)
      modifies this
      ensures Did(old(draft), draft, Op.ApplyUserItems(items), now, r)
      ensures r == Failure(WrongState) <==> old(draft).status != Drafting && old(draft).status != Reviewing
      ensures r == Failure(WrongState) || r == Success(Nothing)
      ensures r.Success? ==>
                draft == old(draft).(
                  items := NormalItems(items, false), selectedOptionId := "", stage := DecisionReview,
                      status := Reviewing,
                  finalSummary := "", finalItems := [], consistencyNotes := [], finalizedInputRevision := 0,
                  revision := old(draft).revision + 1, updatedMs := now)
    {
      if !Reviewable(draft) {
        return Failure(WrongState);
      }
      var normal := NormalizeItems(items, false);
      draft := draft.(items := normal, selectedOptionId := "", stage := DecisionReview, status := Reviewing);
      ClearFinalFields();
      BumpRevision(now);
      r := Success(Nothing);
    }

    method ApplyDecision(patch: PlanDecisionPatch, now: uint64) returns (r: Result<Answer, PlanError>)
      modifies this
      ensures Did(old(draft), draft, Op.ApplyDecision(patch), now, r)
      ensures var d := old(draft);
              var reviewing := d.status == Reviewing && (d.stage == DecisionReview || d.stage == FinalReview);
              && (r == Failure(WrongState) <==> !reviewing)
              && (r == Failure(StaleRevision) <==> reviewing && patch.revision != d.revision)
              && (r == Failure(ItemNotFound) <==>
                    reviewing && patch.revision == d.revision && NoItem(d.items, patch.itemId))
              && (r == Failure(DecisionNotFound) <==>
                    reviewing && patch.revision == d.revision && NoDecisionInItem(d.items, patch))
      ensures r.Success? ==>
                && Patched(old(draft).items, draft.items, patch)
                && r == Success(AllResolved(AllDecisionsResolved(draft.items)))
                && draft.revision == old(draft).revision + 1 && draft.updatedMs == now && draft.stage == DecisionReview
                && if old(draft).stage == DecisionReview then
                     draft == old(draft).(items := draft.items, revision := draft.revision, updatedMs := now)
                   else
                     draft == old(draft).(
                       items := draft.items, revision := draft.revision, updatedMs := now, stage := DecisionReview,
                       finalSummary := "", finalItems := [], consistencyNotes := [], finalizedInputRevision := 0)
    {
      if draft.status != Reviewing || (draft.stage != DecisionReview && draft.stage != FinalReview) {
        return Failure(WrongState);
      }
      if patch.revision != draft.revision {
        return Failure(StaleRevision);
      }
      var patched := PatchInPlace(draft.items, patch);
      ItemsArePatched(draft.items, patch);
      if patched.Failure? {
        return Failure(patched.error);
      }
      draft := draft.(items := patched.value);
      if draft.stage == FinalReview {
        draft := draft.(stage := DecisionReview);
        ClearFinalFields();
      }
      BumpRevision(now);
      var resolved := CheckResolved();
      r := Success(AllResolved(resolved));
    }

    /** The inner search: the first decision with the id. */
    method PatchDecision(ds: seq<PlanDecision>, p: PlanDecisionPatch) returns (r: Option<seq<PlanDecision>>)
      ensures r == PatchDecisions(ds, p)
    {
      var k := 0;
      SkipNoDecision(ds, p);
      while k < |ds| && ds[k].id != p.decisionId
        invariant 0 <= k <= |ds|
        invariant PatchDecisions(ds, p) == AfterDecisions(ds[..k], PatchDecisions(ds[k..], p))
      {
        SkipDecision(ds, k, p);
        k := k + 1;
      }
      if k == |ds| {
        return None;
      }
      var patched := ds[k := ds[k].(selectedChoiceId := p.choiceId, customNote := p.customNote)];
      assert ds[..k] + ([patched[k]] + ds[k..][1..]) == patched;
      r := Some(patched);
    }

    /** The outer search: the first item with the id. */
    method PatchInPlace(items: seq<PlanItem>, p: PlanDecisionPatch) returns (r: Result<seq<PlanItem>, PlanError>)
      ensures r == PatchItems(items, p)
    {
      var i := 0;
      SkipNone(items, p);
      while i < |items| && items[i].id != p.itemId
        invariant 0 <= i <= |items|
        invariant PatchItems(items, p) == AfterItems(items[..i], PatchItems(items[i..], p))
      {
        SkipItem(items, i, p);
        i := i + 1;
      }
      if i == |items| {
        return Failure(ItemNotFound);
      }
      var patched := PatchDecision(items[i].decisions, p);
      if patched.None? {
        return Failure(DecisionNotFound);
      }
      var result := items[i := items[i].(decisions := patched.value)];
      assert items[..i] + ([result[i]] + items[i..][1..]) == result;
      r := Success(result);
    }

    method BeginChatRevision(revision: int, now: uint64) returns (r: Result<Answer, PlanError>)
      modifies this
      ensures Did(old(draft), draft, Op.BeginChatRevision(revision), now, r)
      ensures var d := old(draft);
              var reviewing := d.status == Reviewing
                               && (d.stage == OptionReview || d.stage == DecisionReview || d.stage == FinalReview);
              && (r == Failure(WrongState) <==> !reviewing)
              && (r == Failure(StaleRevision) <==> reviewing && revision != 0 && revision != d.revision)
      ensures r.Success? ==>
                && r == Success(RequestId(draft.planningRequestId))
                   && Follows(draft.planningRequestId, old(draft).planningRequestId)
                && draft
                   == old(draft).(status := Drafting, planningRequestId := draft.planningRequestId, updatedMs := now)
    {
      if draft.status != Reviewing
         || (draft.stage != OptionReview && draft.stage != DecisionReview && draft.stage != FinalReview) {
        return Failure(WrongState);
      }
      if revision != 0 && revision != draft.revision {
        return Failure(StaleRevision);
      }
      draft := draft.(status := Drafting);
      var id := NextRequestId();
      Touch(now);
      r := Success(RequestId(id));
    }

    method ApplyRevisedOptions(id: uint64, title: string, objective: string, options: seq<PlanOption>,
                               selected: string, now: uint64)
      returns (r: Result<Answer, PlanError>)
      modifies this
      ensures Did(old(draft), draft, Op.ApplyRevisedOptions(id, title, objective, options, selected), now, r)
      ensures r == Failure(StaleResult) <==> id != old(draft).planningRequestId
      ensures id == old(draft).planningRequestId ==>
                draft == old(draft).(
                  title := title, objective := if objective == "" then old(draft).objective else objective,
                  options := NamedOptions(options), selectedOptionId := selected, detailedOptionId := "", items := [],
                  globalRisks := [], validation := [], stage := OptionReview, status := Reviewing, error := "",
                  finalSummary := "", finalItems := [], consistencyNotes := [], finalizedInputRevision := 0,
                  revision := old(draft).revision + 1, updatedMs := now)
    {
      if id != draft.planningRequestId {
        return Failure(StaleResult);
      }
      ApplyModelOptions(title, objective, options, selected, now);
      r := Success(Nothing);
    }

    method ApplyRevisedDetail(id: uint64, title: string, objective: string, items: seq<PlanItem>,
                              risks: seq<string>, validation: seq<string>, now: uint64)
      returns (r: Result<Answer, PlanError>)
      modifies this
      ensures Did(old(draft), draft, Op.ApplyRevisedDetail(id, title, objective, items, risks, validation), now, r)
      ensures r == Failure(StaleResult) <==> id != old(draft).planningRequestId
      ensures r == Failure(NoItems) <==> id == old(draft).planningRequestId && items == []
      ensures r.Success? ==>
                draft == old(draft).(
                  title := if title == "" then old(draft).title else title,
                  objective := if objective == "" then old(draft).objective else objective,
                  items := NormalItems(items, false), globalRisks := risks, validation := validation,
                  stage := DecisionReview, status := Reviewing, error := "",
                  finalSummary := "", finalItems := [], consistencyNotes := [], finalizedInputRevision := 0,
                  revision := old(draft).revision + 1, updatedMs := now)
    {
      if id != draft.planningRequestId {
        return Failure(StaleResult);
      }
      if items == [] {
        return Failure(NoItems);
      }
      SetDetail(title, objective, items, risks, validation, now);
      r := Success(Nothing);
    }

    method SetFinal(f: PlanFinalDraft, now: uint64)
      modifies this
      ensures draft == Finalized(old(draft), f, now)
    {
      var normal := NormalizeItems(f.items, false);
      draft := draft.(finalSummary := f.summary, finalItems := normal, globalRisks := f.globalRisks,
                      validation := f.validation);
      draft := draft.(consistencyNotes := f.consistencyNotes, finalizedInputRevision := draft.revision);
      draft := draft.(stage := FinalReview, status := Reviewing, error := "");
      BumpRevision(now);
    }

    method ApplyRevisedFinal(id: uint64, f: PlanFinalDraft, now: uint64) returns (r: Result<Answer, PlanError>)
      modifies this
      ensures Did(old(draft), draft, Op.ApplyRevisedFinal(id, f), now, r)
      ensures r == Failure(StaleResult) <==> id != old(draft).planningRequestId
      ensures r == Failure(NoItems) <==> id == old(draft).planningRequestId && f.items == []
      ensures r.Success? ==>
                draft == old(draft).(
                  finalSummary := f.summary, finalItems := NormalItems(f.items, false), globalRisks := f.globalRisks,
                  validation := f.validation, consistencyNotes := f.consistencyNotes,
                  finalizedInputRevision := old(draft).revision, stage := FinalReview, status := Reviewing, error := "",
                  revision := old(draft).revision + 1, updatedMs := now)
    {
      if id != draft.planningRequestId {
        return Failure(StaleResult);
      }
      if f.items == [] {
        return Failure(NoItems);
      }
      SetFinal(f, now);
      r := Success(Nothing);
    }

    method BeginFinalizing(revision: int, now: uint64) returns (r: Result<Answer, PlanError>)
      modifies this
      ensures Did(old(draft), draft, Op.BeginFinalizing(revision), now, r)
      ensures var d := old(draft);
              var again := d.status == Reviewing && d.stage == FinalReview && d.finalizedInputRevision == revision;
              var deciding := d.status == Reviewing && d.stage == DecisionReview;
              && (again ==> draft == d && r == Success(RequestId(d.planningRequestId)))
              && (r == Failure(WrongState) <==> !again && !deciding)
              && (r == Failure(StaleRevision) <==> deciding && revision != d.revision)
              && (r == Failure(Unresolved) <==> deciding && revision == d.revision && !AllDecisionsResolved(d.items))
              && (!again && r.Success? ==>
                    && r == Success(RequestId(draft.planningRequestId))
                       && Follows(draft.planningRequestId, d.planningRequestId)
                    && draft == d.(stage := Finalizing, status := Drafting,
                                   planningRequestId := draft.planningRequestId, updatedMs := now))
    {
      if draft.status == Reviewing && draft.stage == FinalReview && draft.finalizedInputRevision == revision {
        return Success(RequestId(draft.planningRequestId));
      }
      if draft.status != Reviewing || draft.stage != DecisionReview {
        return Failure(WrongState);
      }
      if revision != draft.revision {
        return Failure(StaleRevision);
      }
      var resolved := CheckResolved();
      if !resolved {
        return Failure(Unresolved);
      }
      draft := draft.(stage := Finalizing, status := Drafting);
      var id := NextRequestId();
      Touch(now);
      r := Success(RequestId(id));
    }

    method ApplyModelFinal(id: uint64, f: PlanFinalDraft, now: uint64) returns (r: Result<Answer, PlanError>)
      modifies this
      ensures Did(old(draft), draft, Op.ApplyModelFinal(id, f), now, r)
      ensures r == Failure(StaleResult) <==> id != old(draft).planningRequestId || old(draft).stage != Finalizing
      ensures r == Failure(NoItems) <==> r != Failure(StaleResult) && f.items == []
      ensures r.Success? ==>
                draft == old(draft).(
                  finalSummary := f.summary, finalItems := NormalItems(f.items, false), globalRisks := f.globalRisks,
                  validation := f.validation, consistencyNotes := f.consistencyNotes,
                  finalizedInputRevision := old(draft).revision, stage := FinalReview, status := Reviewing, error := "",
                  revision := old(draft).revision + 1, updatedMs := now)
    {
      if id != draft.planningRequestId || draft.stage != Finalizing {
        return Failure(StaleResult);
      }
      if f.items == [] {
        return Failure(NoItems);
      }
      SetFinal(f, now);
      r := Success(Nothing);
    }

    method MarkFailed(error: string, now: uint64)
      modifies this
      ensures Did(old(draft), draft, Op.MarkFailed(error), now, Success(Nothing))
      ensures draft == old(draft).(status := Failed, error := error, updatedMs := now)
    {
      draft := draft.(status := Failed, error := error);
      Touch(now);
    }

    method MarkReviewError(error: string, now: uint64)
      modifies this
      ensures Did(old(draft), draft, Op.MarkReviewError(error), now, Success(Nothing))
      ensures draft == old(draft).(
                status := if old(draft).status == Drafting then Reviewing else old(draft).status,
                error := error, updatedMs := now)
    {
      if draft.status == Drafting {
        draft := draft.(status := Reviewing);
      }
      draft := draft.(error := error);
      Touch(now);
    }

    method Confirm(revision: int, now: uint64) returns (r: Result<Answer, PlanError>)
      modifies this
      ensures Did(old(draft), draft, Op.Confirm(revision), now, r)
      ensures var d := old(draft);
              var final := d.status == Reviewing && d.stage == FinalReview;
              && (r == Failure(WrongState) <==> !final)
              && (r == Failure(StaleRevision) <==> final && revision != d.revision)
              && (r == Failure(NoItems) <==> final && revision == d.revision && d.finalItems == [])
              && (r.Success? ==> r == Success(Nothing) && draft == d.(status := Confirmed, updatedMs := now))
    {
      if draft.status != Reviewing || draft.stage != FinalReview {
        return Failure(WrongState);
      }
      if revision != draft.revision {
        return Failure(StaleRevision);
      }
      if draft.finalItems == [] {
        return Failure(NoItems);
      }
      draft := draft.(status := Confirmed);
      Touch(now);
      r := Success(Nothing);
    }

    method MarkExecuting(now: uint64) returns (r: Result<Answer, PlanError>)
      modifies this
      ensures Did(old(draft), draft, Op.MarkExecuting, now, r)
      ensures r == Failure(WrongState) <==> old(draft).status != Confirmed && old(draft).status != Executing
      ensures r.Success? ==> r == Success(Nothing) && draft == old(draft).(status := Executing, updatedMs := now)
    {
      if draft.status != Confirmed && draft.status != Executing {
        return Failure(WrongState);
      }
      draft := draft.(status := Executing);
      Touch(now);
      r := Success(Nothing);
    }

    method CancelPlan(now: uint64)
      modifies this
      ensures Did(old(draft), draft, Op.Cancel, now, Success(Nothing))
      ensures draft == old(draft).(status := Cancelled, updatedMs := now)
    {
      draft := draft.(status := Cancelled);
      Touch(now);
    }

    method RestorePlan(saved: PlanDraft, now: uint64)
      modifies this
      ensures Did(old(draft), draft, Op.Restore(saved), now, Success(Nothing))
      ensures draft == saved.(
                items := NormalItems(saved.items, false), finalItems := NormalItems(saved.finalItems, false),
                options := draft.options, stage := draft.stage, updatedMs := draft.updatedMs)
      ensures |draft.options| == |saved.options|
              && forall k | 0 <= k < |saved.options| ::
                   draft.options[k] == saved.options[k].(items := NormalItems(saved.options[k].items, false))
      ensures draft.stage == if saved.stage != NoStage || saved.status != Reviewing then saved.stage
                             else if saved.options == [] then DecisionReview
                             else OptionReview
      ensures draft.updatedMs == if saved.updatedMs == 0 then now else saved.updatedMs
    {
      var next := saved;
      var items := NormalizeItems(next.items, false);
      var finalItems := NormalizeItems(next.finalItems, false);
      next := next.(items := items, finalItems := finalItems);
      var options := saved.options;
      var i := 0;
      while i < |options|
        invariant 0 <= i <= |options| == |saved.options|
        invariant forall k | 0 <= k < |options| ::
                    options[k] == if k < i then NormalOption(saved.options[k]) else saved.options[k]
      {
        var normal := NormalizeItems(options[i].items, false);
        options := options[i := options[i].(items := normal)];
        i := i + 1;
      }
      assert options == NormalOptions(saved.options);
      next := next.(options := options);
      if next.stage == NoStage && next.status == Reviewing {
        next := next.(stage := if next.options == [] then DecisionReview else OptionReview);
      }
      draft := next;
      if draft.updatedMs == 0 {
        Touch(now);
      }
    }

    method ResetPlan()
      modifies this
      ensures draft == EMPTY_DRAFT
    {
      draft := EMPTY_DRAFT;
    }
  }
}
