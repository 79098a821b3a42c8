/** Plan drafts and their normal form: no empty ids or titles, items numbered from one. */
module PlanModel {
  import opened Wrappers
  import opened Texts

  datatype PlanStatus = Idle | Drafting | Reviewing | Confirmed | Executing | Cancelled | Failed

  datatype PlanStage = NoStage | OptionReview | Detailing | DecisionReview | Finalizing | FinalReview

  datatype PlanItemChoice = PlanItemChoice(id: string, title: string, description: string, recommended: bool)

  datatype PlanDecision = PlanDecision(
    id: string, title: string, description: string, required: bool,
    choices: seq<PlanItemChoice>, selectedChoiceId: string, customNote: string)

  datatype PlanItem = PlanItem(
    id: string, title: string, description: string, order: int, required: bool,
    choices: seq<PlanItemChoice>, selectedChoiceId: string, customNote: string,
    decisions: seq<PlanDecision>, risks: seq<string>, validation: seq<string>)

  datatype PlanOption = PlanOption(id: string, title: string, summary: string, items: seq<PlanItem>, recommended: bool)

  const UINT64_MAX := 0xFFFF_FFFF_FFFF_FFFF

  newtype uint64 = n: int | 0 <= n <= UINT64_MAX

  datatype PlanDraft = PlanDraft(
    planId: string, sessionId: string, workspace: string, title: string, objective: string,
    status: PlanStatus, stage: PlanStage, revision: int,
    options: seq<PlanOption>, selectedOptionId: string, detailedOptionId: string,
    items: seq<PlanItem>, globalRisks: seq<string>, validation: seq<string>,
    finalSummary: string, finalItems: seq<PlanItem>, consistencyNotes: seq<string>,
    finalizedInputRevision: int, planningRequestId: uint64, error: string, updatedMs: uint64)

  const EMPTY_DRAFT := PlanDraft("", "", "", "", "", Idle, NoStage, 0, [], "", "", [], [], [], "", [], [], 0, 0, "", 0)

  function MakeId(prefix: string, seed: nat): (r: string)
    ensures r != ""
  {
    prefix + ":" + NatText(seed)
  }

  function OrElse(s: string, other: string): string {
    if s == "" then other else s
  }

  // ---------------------------------------------------------------- the normal form

  function NormalChoice(c: PlanItemChoice, i: nat, untitled: string): PlanItemChoice {
    c.(id := OrElse(c.id, MakeId("choice", i + 1)), title := OrElse(c.title, OrElse(c.description, untitled)))
  }

  function NormalChoices(cs: seq<PlanItemChoice>, untitled: string): (r: seq<PlanItemChoice>)
    ensures |r| == |cs| && forall i | 0 <= i < |cs| :: r[i] == NormalChoice(cs[i], i, untitled)
  {
    seq(|cs|, i requires 0 <= i < |cs| => NormalChoice(cs[i], i, untitled))
  }

  const UNTITLED_OPTION := "Option"
  const UNTITLED_CHOICE := "Default option"

  function NormalDecision(d: PlanDecision, i: nat): PlanDecision {
    d.(id := OrElse(d.id, MakeId("decision", i + 1)), title := OrElse(d.title, OrElse(d.description, "Decision")),
       choices := NormalChoices(d.choices, UNTITLED_OPTION))
  }

  function NormalDecisions(ds: seq<PlanDecision>): (r: seq<PlanDecision>)
    ensures |r| == |ds| && forall i | 0 <= i < |ds| :: r[i] == NormalDecision(ds[i], i)
  {
    seq(|ds|, i requires 0 <= i < |ds| => NormalDecision(ds[i], i))
  }

  function FirstRecommended(cs: seq<PlanItemChoice>): string {
    if cs == [] then "" else if cs[0].recommended then cs[0].id else FirstRecommended(cs[1..])
  }

  /** The preselected choice: the user's, else the first recommended one, else the first one. */
  function Picked(selected: string, cs: seq<PlanItemChoice>): string {
    if selected != "" then selected
    else if FirstRecommended(cs) != "" then FirstRecommended(cs)
    else if cs != [] then cs[0].id
    else ""
  }

  function NormalItem(x: PlanItem, i: nat, pick: bool): PlanItem {
    var choices := NormalChoices(x.choices, UNTITLED_CHOICE);
    x.(id := OrElse(x.id, MakeId("plan_item", i + 1)), order := i + 1,
       title := OrElse(x.title, OrElse(x.description, "Untitled task")),
       choices := choices,
       selectedChoiceId := if pick then Picked(x.selectedChoiceId, choices) else x.selectedChoiceId,
       decisions := NormalDecisions(x.decisions))
  }

  function NormalItems(xs: seq<PlanItem>, pick: bool): (r: seq<PlanItem>)
    ensures |r| == |xs| && forall i | 0 <= i < |xs| :: r[i] == NormalItem(xs[i], i, pick)
  {
    seq(|xs|, i requires 0 <= i < |xs| => NormalItem(xs[i], i, pick))
  }

  function NormalOption(o: PlanOption): PlanOption {
    o.(items := NormalItems(o.items, false))
  }

  function NormalOptions(os: seq<PlanOption>): (r: seq<PlanOption>)
    ensures |r| == |os| && forall i | 0 <= i < |os| :: r[i] == NormalOption(os[i])
  {
    seq(|os|, i requires 0 <= i < |os| => NormalOption(os[i]))
  }

  /** Options as the model proposes them also get ids. */
  function NamedOptions(os: seq<PlanOption>): (r: seq<PlanOption>)
    ensures |r| == |os|
    ensures forall i | 0 <= i < |os| :: r[i] == NormalOption(os[i]).(id := OrElse(os[i].id, MakeId("option", i + 1)))
  {
    seq(|os|, i requires 0 <= i < |os| => NormalOption(os[i]).(id := OrElse(os[i].id, MakeId("option", i + 1))))
  }

  // ---------------------------------------------------------------- the loops

  method NormalizeChoices(choices: seq<PlanItemChoice>, untitled: string) returns (r: seq<PlanItemChoice>)
    ensures r == NormalChoices(choices, untitled)
  {
    r := choices;
    var i := 0;
    while i < |choices|
      invariant 0 <= i <= |choices| && |r| == |choices|
      invariant forall k | 0 <= k < |choices| ::
                  r[k] == if k < i then NormalChoice(choices[k], k, untitled) else choices[k]
    {
      var choice := r[i];
      if choice.id == "" {
        choice := choice.(id := MakeId("choice", i + 1));
      }
      if choice.title == "" {
        choice := choice.(title := if choice.description == "" then untitled else choice.description);
      }
      r := r[i := choice];
      i := i + 1;
    }
  }

  method NormalizeDecisions(decisions: seq<PlanDecision>) returns (r: seq<PlanDecision>)
    ensures r == NormalDecisions(decisions)
  {
    r := decisions;
    var i := 0;
    while i < |decisions|
      invariant 0 <= i <= |decisions| && |r| == |decisions|
      invariant forall k | 0 <= k < |decisions| ::
                  r[k] == if k < i then NormalDecision(decisions[k], k) else decisions[k]
    {
      var decision := r[i];
      if decision.id == "" {
        decision := decision.(id := MakeId("decision", i + 1));
      }
      if decision.title == "" {
        decision := decision.(title := if decision.description == "" then "Decision" else decision.description);
      }
      var choices := NormalizeChoices(decision.choices, UNTITLED_OPTION);
      r := r[i := decision.(choices := choices)];
      i := i + 1;
    }
  }

  /** The preselection inside the choice loop: first recommended choice if nothing is selected yet. */
  method PickChoice(selected: string, choices: seq<PlanItemChoice>) returns (r: string)
    requires forall c | c in choices :: c.id != ""
    ensures r == Picked(selected, choices)
  {
    r := selected;
    var i := 0;
    while i < |choices|
      invariant 0 <= i <= |choices|
      invariant r == "" ==> selected == "" && FirstRecommended(choices) == FirstRecommended(choices[i..])
      invariant r != "" ==> r == if selected != "" then selected else FirstRecommended(choices)
    {
      assert choices[i] in choices && choices[i..][1..] == choices[i + 1..];
      if r == "" && choices[i].recommended {
        r := choices[i].id;
      }
      i := i + 1;
    }
    if r == "" && choices != [] {
      r := choices[0].id;
    }
  }

  method NormalizeItem(x: PlanItem, i: nat, pick: bool) returns (item: PlanItem)
    ensures item == NormalItem(x, i, pick)
  {
    item := x;
    if item.id == "" {
      item := item.(id := MakeId("plan_item", i + 1));
    }
    item := item.(order := i + 1);
    if item.title == "" {
      item := item.(title := if item.description == "" then "Untitled task" else item.description);
    }
    var choices := NormalizeChoices(item.choices, UNTITLED_CHOICE);
    item := item.(choices := choices);
    if pick {
      var selected := PickChoice(item.selectedChoiceId, choices);
      item := item.(selectedChoiceId := selected);
    }
    var decisions := NormalizeDecisions(item.decisions);
    item := item.(decisions := decisions);
  }

  method NormalizeItems(items: seq<PlanItem>, pick: bool) returns (r: seq<PlanItem>)
    ensures r == NormalItems(items, pick)
  {
    r := items;
    var i := 0;
    while i < |items|
      invariant 0 <= i <= |items| && |r| == |items|
      invariant forall k | 0 <= k < |items| :: r[k] == if k < i then NormalItem(items[k], k, pick) else items[k]
    {
      var item := NormalizeItem(items[i], i, pick);
      r := r[i := item];
      i := i + 1;
    }
  }

  // ---------------------------------------------------------------- what being normal means

  predicate NamedChoices(cs: seq<PlanItemChoice>) {
    forall i | 0 <= i < |cs| :: cs[i].id != "" && cs[i].title != ""
  }

  predicate NamedDecisions(ds: seq<PlanDecision>) {
    forall i | 0 <= i < |ds| :: ds[i].id != "" && ds[i].title != "" && NamedChoices(ds[i].choices)
  }

  /** Every id and title filled in, and the orders count from one. */
  predicate Normalized(xs: seq<PlanItem>) {
    forall i | 0 <= i < |xs| ::
      xs[i].id != "" && xs[i].title != "" && xs[i].order == i + 1
      && NamedChoices(xs[i].choices) && NamedDecisions(xs[i].decisions)
  }

  lemma ChoicesFixed(cs: seq<PlanItemChoice>, untitled: string)
    requires untitled != ""
    ensures NamedChoices(NormalChoices(cs, untitled))
    ensures NormalChoices(cs, untitled) == cs <==> NamedChoices(cs)
  {
    var r := NormalChoices(cs, untitled);
    if r == cs {
      assert forall i | 0 <= i < |cs| :: cs[i] == NormalChoice(cs[i], i, untitled);
    }
  }

  lemma DecisionsFixed(ds: seq<PlanDecision>)
    ensures NamedDecisions(NormalDecisions(ds))
    ensures NormalDecisions(ds) == ds <==> NamedDecisions(ds)
  {
    var r := NormalDecisions(ds);
    forall i | 0 <= i < |ds|
      ensures r[i].id != "" && r[i].title != "" && NamedChoices(r[i].choices)
      ensures r[i] == ds[i] <==> ds[i].id != "" && ds[i].title != "" && NamedChoices(ds[i].choices)
    {
      ChoicesFixed(ds[i].choices, UNTITLED_OPTION);
    }
  }

  /** Normalizing yields a normalized list, changes nothing of one, and every list it does not change is one. */
  lemma NormalizingIsExact(xs: seq<PlanItem>, pick: bool)
    ensures Normalized(NormalItems(xs, pick))
    ensures NormalItems(xs, false) == xs <==> Normalized(xs)
    ensures NormalItems(NormalItems(xs, pick), false) == NormalItems(xs, pick)
  {
    var r := NormalItems(xs, pick);
    forall i | 0 <= i < |xs|
      ensures r[i].id != "" && r[i].title != "" && r[i].order == i + 1
      ensures NamedChoices(r[i].choices) && NamedDecisions(r[i].decisions)
      ensures NormalItem(r[i], i, false) == r[i]
      ensures NormalItem(xs[i], i, false) == xs[i] <==>
                xs[i].id != "" && xs[i].title != "" && xs[i].order == i + 1
                && NamedChoices(xs[i].choices) && NamedDecisions(xs[i].decisions)
    {
      ChoicesFixed(xs[i].choices, UNTITLED_CHOICE);
      DecisionsFixed(xs[i].decisions);
      ChoicesFixed(r[i].choices, UNTITLED_CHOICE);
      DecisionsFixed(r[i].decisions);
    }
    if NormalItems(xs, false) == xs {
      assert forall i | 0 <= i < |xs| :: NormalItem(xs[i], i, false) == xs[i];
    }
  }

  // ---------------------------------------------------------------- what normalizing fills in

  /** Only a gap is filled. */
  predicate Fills(after: string, before: string, gap: string) {
    after == if before == "" then gap else before
  }

  /** The title of something without one: its description, or the fixed text. */
  predicate Titled(after: string, before: string, description: string, untitled: string) {
    Fills(after, before, if description == "" then untitled else description)
  }

  predicate ChoicesFilled(after: seq<PlanItemChoice>, before: seq<PlanItemChoice>, untitled: string) {
    |after| == |before| && forall i | 0 <= i < |before| ::
      && Fills(after[i].id, before[i].id, "choice:" + NatText(i + 1))
      && Titled(after[i].title, before[i].title, before[i].description, untitled)
      && after[i].description == before[i].description && after[i].recommended == before[i].recommended
  }

  predicate DecisionsFilled(after: seq<PlanDecision>, before: seq<PlanDecision>) {
    |after| == |before| && forall i | 0 <= i < |before| ::
      && Fills(after[i].id, before[i].id, "decision:" + NatText(i + 1))
      && Titled(after[i].title, before[i].title, before[i].description, "Decision")
      && ChoicesFilled(after[i].choices, before[i].choices, "Option")
      && after[i].description == before[i].description && after[i].required == before[i].required
      && after[i].selectedChoiceId == before[i].selectedChoiceId && after[i].customNote == before[i].customNote
  }

  /** The choice preselected: the first that is recommended, else the first; none if there is no choice. */
  predicate Preselected(id: string, choices: seq<PlanItemChoice>) {
    if choices == [] then id == ""
    else
      exists k :: 0 <= k < |choices| && id == choices[k].id
        && (forall j | 0 <= j < k :: !choices[j].recommended)
        && (choices[k].recommended || (k == 0 && forall j | 0 <= j < |choices| :: !choices[j].recommended))
  }

  predicate ItemFilled(after: PlanItem, before: PlanItem, i: nat, pick: bool) {
    && Fills(after.id, before.id, "plan_item:" + NatText(i + 1))
    && Titled(after.title, before.title, before.description, "Untitled task")
    && after.order == i + 1
    && ChoicesFilled(after.choices, before.choices, "Default option")
       && DecisionsFilled(after.decisions, before.decisions)
    && after.description == before.description && after.required == before.required
    && after.customNote == before.customNote && after.risks == before.risks && after.validation == before.validation
    && if pick && before.selectedChoiceId == "" then Preselected(after.selectedChoiceId, after.choices)
       else after.selectedChoiceId == before.selectedChoiceId
  }

  lemma {:induction false} RecommendedIsFirst(cs: seq<PlanItemChoice>)
    requires NamedChoices(cs)
    ensures if FirstRecommended(cs) == "" then forall j | 0 <= j < |cs| :: !cs[j].recommended
            else exists k :: 0 <= k < |cs| && cs[k].recommended && FirstRecommended(cs) == cs[k].id
                   && forall j | 0 <= j < k :: !cs[j].recommended
  {
    if cs != [] && !cs[0].recommended {
      var t := cs[1..];
      RecommendedIsFirst(t);
      assert forall j | 0 < j < |cs| :: cs[j] == t[j - 1];
      if FirstRecommended(t) != "" {
        var k :| 0 <= k < |t| && t[k].recommended && FirstRecommended(t) == t[k].id
          && forall j | 0 <= j < k :: !t[j].recommended;
        assert cs[k + 1].recommended;
      }
    }
  }

  lemma PickedIsPreselected(cs: seq<PlanItemChoice>)
    requires NamedChoices(cs)
    ensures Preselected(Picked("", cs), cs)
  {
    RecommendedIsFirst(cs);
  }

  lemma IdsAre(n: nat)
    ensures MakeId("choice", n) == "choice:" + NatText(n) && MakeId("decision", n) == "decision:" + NatText(n)
    ensures MakeId("plan_item", n) == "plan_item:" + NatText(n) && MakeId("option", n) == "option:" + NatText(n)
  {
    assert "choice" + ":" == "choice:" && "decision" + ":" == "decision:";
    assert "plan_item" + ":" == "plan_item:" && "option" + ":" == "option:";
  }

  lemma ChoicesAreFilled(cs: seq<PlanItemChoice>, untitled: string)
    ensures ChoicesFilled(NormalChoices(cs, untitled), cs, untitled)
  {
    hide MakeId, NatText;
    var r := NormalChoices(cs, untitled);
    forall i | 0 <= i < |cs|
      ensures Fills(r[i].id, cs[i].id, "choice:" + NatText(i + 1))
    {
      IdsAre(i + 1);
    }
  }

  lemma DecisionsAreFilled(ds: seq<PlanDecision>)
    ensures DecisionsFilled(NormalDecisions(ds), ds)
  {
    forall i | 0 <= i < |ds|
      ensures MakeId("decision", i + 1) == "decision:" + NatText(i + 1)
      ensures ChoicesFilled(NormalChoices(ds[i].choices, "Option"), ds[i].choices, "Option")
    {
      IdsAre(i + 1);
      ChoicesAreFilled(ds[i].choices, "Option");
    }
    hide MakeId, NatText, ChoicesFilled;
  }

  lemma ItemIsFilled(x: PlanItem, i: nat, pick: bool)
    ensures ItemFilled(NormalItem(x, i, pick), x, i, pick)
  {
    IdsAre(i + 1);
    ChoicesAreFilled(x.choices, UNTITLED_CHOICE);
    DecisionsAreFilled(x.decisions);
    SelectionIsFilled(x, pick);
    hide MakeId, NatText, ChoicesFilled, DecisionsFilled, Preselected, NamedChoices;
    hide Picked, NormalChoices, NormalDecisions;
  }

  lemma SelectionIsFilled(x: PlanItem, pick: bool)
    ensures var choices := NormalChoices(x.choices, UNTITLED_CHOICE);
            var after := if pick then Picked(x.selectedChoiceId, choices) else x.selectedChoiceId;
            if pick && x.selectedChoiceId == "" then Preselected(after, choices) else after == x.selectedChoiceId
  {
    ChoicesFixed(x.choices, UNTITLED_CHOICE);
    PickedIsPreselected(NormalChoices(x.choices, UNTITLED_CHOICE));
    hide NormalChoices, Preselected, NamedChoices, FirstRecommended;
  }

  /** Normalizing fills in missing ids, titles, orders and, if asked to, the selection, and changes nothing else. */
  lemma NormalizingFillsGaps(xs: seq<PlanItem>, pick: bool)
    ensures |NormalItems(xs, pick)| == |xs|
    ensures forall i | 0 <= i < |xs| :: ItemFilled(NormalItems(xs, pick)[i], xs[i], i, pick)
  {
    hide ItemFilled, NormalItem;
    forall i | 0 <= i < |xs|
      ensures ItemFilled(NormalItem(xs[i], i, pick), xs[i], i, pick)
    {
      ItemIsFilled(xs[i], i, pick);
    }
  }

  /** Options a model proposes also get ids where they have none. */
  lemma NamingFillsGaps(os: seq<PlanOption>)
    ensures |NamedOptions(os)| == |os|
    ensures forall i | 0 <= i < |os| ::
              var r := NamedOptions(os)[i];
              && Fills(r.id, os[i].id, "option:" + NatText(i + 1)) && r.items == NormalItems(os[i].items, false)
              && r.title == os[i].title && r.summary == os[i].summary && r.recommended == os[i].recommended
  {
    hide MakeId, NatText;
    var r := NamedOptions(os);
    forall i | 0 <= i < |os|
      ensures Fills(r[i].id, os[i].id, "option:" + NatText(i + 1))
    {
      IdsAre(i + 1);
    }
  }

  lemma {:induction false} FirstRecommendedFacts(cs: seq<PlanItemChoice>)
    requires NamedChoices(cs)
    ensures FirstRecommended(cs) != "" <==> exists i :: 0 <= i < |cs| && cs[i].recommended
  {
    if cs != [] && !cs[0].recommended {
      FirstRecommendedFacts(cs[1..]);
      if i :| 0 <= i < |cs| && cs[i].recommended {
        assert cs[1..][i - 1] == cs[i];
      }
      if i :| 0 <= i < |cs[1..]| && cs[1..][i].recommended {
        assert cs[i + 1].recommended;
      }
    }
  }

  /** Preselecting is idempotent too: an item with choices comes out with one of them, or the user's pick, selected. */
  lemma PickingIsIdempotent(xs: seq<PlanItem>)
    ensures NormalItems(NormalItems(xs, true), true) == NormalItems(xs, true)
    ensures forall i | 0 <= i < |xs| && xs[i].choices != [] :: NormalItems(xs, true)[i].selectedChoiceId != ""
  {
    var r := NormalItems(xs, true);
    NormalizingIsExact(xs, true);
    forall i | 0 <= i < |xs|
      ensures NormalItem(r[i], i, true) == r[i]
      ensures xs[i].choices != [] ==> r[i].selectedChoiceId != ""
    {
      ChoicesFixed(xs[i].choices, UNTITLED_CHOICE);
      ChoicesFixed(r[i].choices, UNTITLED_CHOICE);
      DecisionsFixed(r[i].decisions);
      FirstRecommendedFacts(r[i].choices);
    }
  }
}
