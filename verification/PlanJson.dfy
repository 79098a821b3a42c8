/** Saving plan drafts as JSON and reading them back. */
module PlanJson {
  import opened Wrappers
  import opened Texts
  import opened PlanModel
  import opened PlanManager
  import opened PlanSafety
  import opened Sequences

  datatype Json =
    | JNull | JBool(b: bool) | JInt(n: int) | JString(s: string)
    | JArray(elements: seq<Json>) | JObject(fields: map<string, Json>)

  // ---------------------------------------------------------------- reading fields

  /** json[key]: null when there is no such field. */
  function Field(j: Json, key: string): Json {
    if j.JObject? && key in j.fields then j.fields[key] else JNull
  }

  /** json.value(key, fallback), for each type the serializer reads. */
  function StringField(j: Json, key: string, fallback: string): string {
    if Field(j, key).JString? then Field(j, key).s else fallback
  }

  function BoolField(j: Json, key: string, fallback: bool): bool {
    if Field(j, key).JBool? then Field(j, key).b else fallback
  }

  const INT32_MAX: int := 0x7FFF_FFFF
  const INT64_MAX: int := 0x7FFF_FFFF_FFFF_FFFF

  /** A number as a signed integer type up to `max` reads it: the fallback zero when it does not fit. */
  function Read(n: int, max: int): int {
    if -max - 1 <= n <= max then n else 0
  }

  function IntField(j: Json, key: string): int {
    if Field(j, key).JInt? then Read(Field(j, key).n, INT32_MAX) else 0
  }

  function LongField(j: Json, key: string): int {
    if Field(j, key).JInt? then Read(Field(j, key).n, INT64_MAX) else 0
  }

  function Elements(j: Json): seq<Json> {
    if j.JArray? then j.elements else []
  }

  // ---------------------------------------------------------------- numbers and names

  const TWO_64 := UINT64_MAX + 1

  /** static_cast<int64_t> of a uint64_t, and back. */
  function AsSigned(u: uint64): int {
    if u as int <= UINT64_MAX / 2 then u as int else u as int - TWO_64
  }

  function AsUnsigned(n: int): uint64 {
    (n % TWO_64) as uint64
  }

  lemma CastsRoundTrip(u: uint64)
    ensures AsUnsigned(AsSigned(u)) == u
  {
  }

  function StatusText(s: PlanStatus): string {
    match s
    case Idle => "idle"
    case Drafting => "drafting"
    case Reviewing => "reviewing"
    case Confirmed => "confirmed"
    case Executing => "executing"
    case Cancelled => "cancelled"
    case Failed => "failed"
  }

  function StatusOf(text: string): PlanStatus {
    if text == "idle" then Idle
    else if text == "drafting" then Drafting
    else if text == "reviewing" then Reviewing
    else if text == "confirmed" then Confirmed
    else if text == "executing" then Executing
    else if text == "cancelled" then Cancelled
    else Failed
  }

  function StageText(s: PlanStage): string {
    match s
    case NoStage => "idle"
    case OptionReview => "option_review"
    case Detailing => "detailing"
    case DecisionReview => "decision_review"
    case Finalizing => "finalizing"
    case FinalReview => "final_review"
  }

  function StageOf(text: string): PlanStage {
    if text == "option_review" then OptionReview
    else if text == "detailing" then Detailing
    else if text == "decision_review" then DecisionReview
    else if text == "finalizing" then Finalizing
    else if text == "final_review" then FinalReview
    else NoStage
  }

  lemma NamesRoundTrip(status: PlanStatus, stage: PlanStage)
    ensures StatusOf(StatusText(status)) == status && StageOf(StageText(stage)) == stage
  {
  }

  const STATUS_NAMES := ["idle", "drafting", "reviewing", "confirmed", "executing", "cancelled", "failed"]
  const STAGE_NAMES := ["idle", "option_review", "detailing", "decision_review", "finalizing", "final_review"]

  /** The text forms in the file. */
  lemma NamesAre()
    ensures [StatusText(Idle), StatusText(Drafting), StatusText(Reviewing), StatusText(Confirmed),
             StatusText(Executing), StatusText(Cancelled), StatusText(Failed)] == STATUS_NAMES
    ensures [StageText(NoStage), StageText(OptionReview), StageText(Detailing), StageText(DecisionReview),
             StageText(Finalizing), StageText(FinalReview)] == STAGE_NAMES
  {
  }

  /** A status that is none of them is taken for a failure. */
  lemma UnknownStatus(text: string)
    requires text !in STATUS_NAMES
    ensures StatusOf(text) == Failed
  {
    forall k | 0 <= k < |STATUS_NAMES|
      ensures text != STATUS_NAMES[k]
    {
      assert STATUS_NAMES[k] in STATUS_NAMES;
    }
    assert text != STATUS_NAMES[0] && text != STATUS_NAMES[1] && text != STATUS_NAMES[2] && text != STATUS_NAMES[3];
    assert text != STATUS_NAMES[4] && text != STATUS_NAMES[5];
  }

  lemma UnknownStage(text: string)
    requires text !in STAGE_NAMES
    ensures StageOf(text) == NoStage
  {
    forall k | 0 <= k < |STAGE_NAMES|
      ensures text != STAGE_NAMES[k]
    {
      assert STAGE_NAMES[k] in STAGE_NAMES;
    }
    assert text != STAGE_NAMES[1] && text != STAGE_NAMES[2] && text != STAGE_NAMES[3] && text != STAGE_NAMES[4];
    assert text != STAGE_NAMES[5];
  }

  // ---------------------------------------------------------------- strings

  function StringsJson(ss: seq<string>): Json {
    JArray(seq(|ss|, i requires 0 <= i < |ss| => JString(ss[i])))
  }

  /** Elements that are not strings are skipped. */
  function OnlyStrings(js: seq<Json>): seq<string> {
    if js == [] then [] else (if js[0].JString? then [js[0].s] else []) + OnlyStrings(js[1..])
  }

  method StringsFromJson(json: Json) returns (values: seq<string>)
    ensures values == OnlyStrings(Elements(json))
  {
    values := [];
    if !json.JArray? {
      return;
    }
    var i := 0;
    while i < |json.elements|
      invariant 0 <= i <= |json.elements|
      invariant OnlyStrings(json.elements) == values + OnlyStrings(json.elements[i..])
    {
      assert json.elements[i..][0] == json.elements[i] && json.elements[i..][1..] == json.elements[i + 1..];
      if json.elements[i].JString? {
        values := values + [json.elements[i].s];
      }
      i := i + 1;
    }
  }

  lemma {:induction false} OnlyStringsAppend(a: seq<Json>, b: seq<Json>)
    ensures OnlyStrings(a + b) == OnlyStrings(a) + OnlyStrings(b)
  {
    if a == [] {
      Ends(b);
      Ends(OnlyStrings(b));
    } else {
      ConsAppend(a, b);
      OnlyStringsAppend(a[1..], b);
      Assoc(if a[0].JString? then [a[0].s] else [], OnlyStrings(a[1..]), OnlyStrings(b));
    }
  }

  /** A list keeps its strings, in order, and nothing else. */
  lemma StringsAreKept(a: seq<Json>, j: Json, b: seq<Json>)
    ensures OnlyStrings([]) == []
    ensures OnlyStrings(a + [j] + b) == OnlyStrings(a) + (if j.JString? then [j.s] else []) + OnlyStrings(b)
  {
    OnlyStringsAppend(a + [j], b);
    OnlyStringsAppend(a, [j]);
    assert [j][1..] == [];
    Ends(if j.JString? then [j.s] else []);
    assert OnlyStrings([j]) == (if j.JString? then [j.s] else []) + OnlyStrings([j][1..]);
  }

  lemma {:induction false} StringsRoundTrip(ss: seq<string>)
    ensures OnlyStrings(Elements(StringsJson(ss))) == ss
  {
    if ss != [] {
      assert StringsJson(ss).elements[1..] == StringsJson(ss[1..]).elements;
      StringsRoundTrip(ss[1..]);
    }
  }

  // ---------------------------------------------------------------- choices

  function ChoiceJson(c: PlanItemChoice): Json {
    JObject(map["id" := JString(c.id), "title" := JString(c.title), "description" := JString(c.description),
                "recommended" := JBool(c.recommended)])
  }

  function ChoicesJson(cs: seq<PlanItemChoice>): Json {
    JArray(seq(|cs|, i requires 0 <= i < |cs| => ChoiceJson(cs[i])))
  }

  function ChoiceFrom(j: Json): PlanItemChoice {
    PlanItemChoice(StringField(j, "id", ""), StringField(j, "title", ""), StringField(j, "description", ""),
                   BoolField(j, "recommended", false))
  }

  function ChoicesFrom(js: seq<Json>): seq<PlanItemChoice> {
    seq(|js|, i requires 0 <= i < |js| => ChoiceFrom(js[i]))
  }

  method ChoicesFromJson(choices: Json) returns (r: seq<PlanItemChoice>)
    ensures r == ChoicesFrom(Elements(choices))
  {
    r := [];
    if choices.JArray? {
      var i := 0;
      while i < |choices.elements|
        invariant 0 <= i <= |choices.elements| && r == ChoicesFrom(choices.elements)[..i]
      {
        r := r + [ChoiceFrom(choices.elements[i])];
        i := i + 1;
      }
    }
  }

  lemma ChoicesRoundTrip(cs: seq<PlanItemChoice>)
    ensures ChoicesFrom(Elements(ChoicesJson(cs))) == cs
  {
    forall i | 0 <= i < |cs|
      ensures ChoiceFrom(ChoiceJson(cs[i])) == cs[i]
    {
    }
  }

  // ---------------------------------------------------------------- decisions

  function DecisionJson(d: PlanDecision): Json {
    JObject(map["id" := JString(d.id), "title" := JString(d.title), "description" := JString(d.description),
                "required" := JBool(d.required), "choices" := ChoicesJson(d.choices),
                "selected_choice_id" := JString(d.selectedChoiceId), "custom_note" := JString(d.customNote)])
  }

  function DecisionsJson(ds: seq<PlanDecision>): Json {
    JArray(seq(|ds|, i requires 0 <= i < |ds| => DecisionJson(ds[i])))
  }

  function DecisionFrom(j: Json): PlanDecision {
    PlanDecision(StringField(j, "id", ""), StringField(j, "title", ""), StringField(j, "description", ""),
                 BoolField(j, "required", true), ChoicesFrom(Elements(Field(j, "choices"))),
                 StringField(j, "selected_choice_id", ""), StringField(j, "custom_note", ""))
  }

  function DecisionsFrom(js: seq<Json>): seq<PlanDecision> {
    seq(|js|, i requires 0 <= i < |js| => DecisionFrom(js[i]))
  }

  method DecisionsFromJson(decisions: Json) returns (r: seq<PlanDecision>)
    ensures r == DecisionsFrom(Elements(decisions))
  {
    r := [];
    if decisions.JArray? {
      var i := 0;
      while i < |decisions.elements|
        invariant 0 <= i <= |decisions.elements| && r == DecisionsFrom(decisions.elements)[..i]
      {
        var j := decisions.elements[i];
        var d := PlanDecision(StringField(j, "id", ""), StringField(j, "title", ""), StringField(j, "description", ""),
                              BoolField(j, "required", true), [], StringField(j, "selected_choice_id", ""),
                              StringField(j, "custom_note", ""));
        var choices := ChoicesFromJson(Field(j, "choices"));
        r := r + [d.(choices := choices)];
        i := i + 1;
      }
    }
  }

  lemma DecisionRoundTrip(d: PlanDecision)
    ensures DecisionFrom(DecisionJson(d)) == d
  {
    ChoicesRoundTrip(d.choices);
  }

  lemma DecisionsRoundTrip(ds: seq<PlanDecision>)
    ensures DecisionsFrom(Elements(DecisionsJson(ds))) == ds
  {
    forall i | 0 <= i < |ds|
      ensures DecisionFrom(DecisionJson(ds[i])) == ds[i]
    {
      DecisionRoundTrip(ds[i]);
    }
  }

  // ---------------------------------------------------------------- items

  function ItemJson(x: PlanItem): Json {
    JObject(map["id" := JString(x.id), "title" := JString(x.title), "description" := JString(x.description),
                "order" := JInt(x.order), "required" := JBool(x.required), "choices" := ChoicesJson(x.choices),
                "selected_choice_id" := JString(x.selectedChoiceId), "custom_note" := JString(x.customNote),
                "decisions" := DecisionsJson(x.decisions), "risks" := StringsJson(x.risks),
                "validation" := StringsJson(x.validation)])
  }

  function ItemsJson(xs: seq<PlanItem>): Json {
    JArray(seq(|xs|, i requires 0 <= i < |xs| => ItemJson(xs[i])))
  }

  function ItemFrom(j: Json): PlanItem {
    PlanItem(StringField(j, "id", ""), StringField(j, "title", ""), StringField(j, "description", ""),
             IntField(j, "order"), BoolField(j, "required", true), ChoicesFrom(Elements(Field(j, "choices"))),
             StringField(j, "selected_choice_id", ""), StringField(j, "custom_note", ""),
             DecisionsFrom(Elements(Field(j, "decisions"))), OnlyStrings(Elements(Field(j, "risks"))),
             OnlyStrings(Elements(Field(j, "validation"))))
  }

  function ItemsFrom(js: seq<Json>): seq<PlanItem> {
    seq(|js|, i requires 0 <= i < |js| => ItemFrom(js[i]))
  }

  method ItemFromJson(j: Json) returns (x: PlanItem)
    ensures x == ItemFrom(j)
  {
    x := PlanItem(StringField(j, "id", ""), StringField(j, "title", ""), StringField(j, "description", ""),
                  IntField(j, "order"), BoolField(j, "required", true), [],
                  StringField(j, "selected_choice_id", ""), StringField(j, "custom_note", ""), [], [], []);
    var choices := ChoicesFromJson(Field(j, "choices"));
    var decisions := DecisionsFromJson(Field(j, "decisions"));
    var risks := StringsFromJson(Field(j, "risks"));
    var validation := StringsFromJson(Field(j, "validation"));
    x := x.(choices := choices, decisions := decisions, risks := risks, validation := validation);
  }

  method ItemsFromJson(items: Json) returns (r: seq<PlanItem>)
    ensures r == ItemsFrom(Elements(items))
  {
    r := [];
    if items.JArray? {
      var i := 0;
      while i < |items.elements|
        invariant 0 <= i <= |items.elements| && r == ItemsFrom(items.elements)[..i]
      {
        var item := ItemFromJson(items.elements[i]);
        r := r + [item];
        i := i + 1;
      }
    }
  }

  /** What an item comes back as: a 32-bit order is the only field that can be lost. */
  function StoredItem(x: PlanItem): PlanItem {
    x.(order := Read(x.order, INT32_MAX))
  }

  function StoredItems(xs: seq<PlanItem>): (r: seq<PlanItem>)
    ensures |r| == |xs| && forall i | 0 <= i < |xs| :: r[i] == StoredItem(xs[i])
  {
    seq(|xs|, i requires 0 <= i < |xs| => StoredItem(xs[i]))
  }

  lemma ItemRoundTrip(x: PlanItem)
    ensures ItemFrom(ItemJson(x)) == StoredItem(x)
  {
    hide ChoicesJson, ChoicesFrom, DecisionsJson, DecisionsFrom, StringsJson, OnlyStrings, Elements;
    ChoicesRoundTrip(x.choices);
    DecisionsRoundTrip(x.decisions);
    StringsRoundTrip(x.risks);
    StringsRoundTrip(x.validation);
  }

  lemma ItemsRoundTrip(xs: seq<PlanItem>)
    ensures ItemsFrom(Elements(ItemsJson(xs))) == StoredItems(xs)
  {
    forall i | 0 <= i < |xs|
      ensures ItemFrom(ItemJson(xs[i])) == StoredItem(xs[i])
    {
      ItemRoundTrip(xs[i]);
    }
  }

  // ---------------------------------------------------------------- options

  function OptionJson(o: PlanOption): Json {
    JObject(map["id" := JString(o.id), "title" := JString(o.title), "summary" := JString(o.summary),
                "items" := ItemsJson(o.items), "recommended" := JBool(o.recommended)])
  }

  function OptionsJson(os: seq<PlanOption>): Json {
    JArray(seq(|os|, i requires 0 <= i < |os| => OptionJson(os[i])))
  }

  function OptionFrom(j: Json): PlanOption {
    PlanOption(StringField(j, "id", ""), StringField(j, "title", ""), StringField(j, "summary", ""),
               ItemsFrom(Elements(Field(j, "items"))), BoolField(j, "recommended", false))
  }

  function OptionsFrom(js: seq<Json>): seq<PlanOption> {
    seq(|js|, i requires 0 <= i < |js| => OptionFrom(js[i]))
  }

  method OptionsFromJson(options: Json) returns (r: seq<PlanOption>)
    ensures r == OptionsFrom(Elements(options))
  {
    r := [];
    if options.JArray? {
      var i := 0;
      while i < |options.elements|
        invariant 0 <= i <= |options.elements| && r == OptionsFrom(options.elements)[..i]
      {
        var j := options.elements[i];
        var o := PlanOption(StringField(j, "id", ""), StringField(j, "title", ""), StringField(j, "summary", ""), [],
                            BoolField(j, "recommended", false));
        var items := ItemsFromJson(Field(j, "items"));
        r := r + [o.(items := items)];
        i := i + 1;
      }
    }
  }

  function StoredOption(o: PlanOption): PlanOption {
    o.(items := StoredItems(o.items))
  }

  function StoredOptions(os: seq<PlanOption>): (r: seq<PlanOption>)
    ensures |r| == |os| && forall i | 0 <= i < |os| :: r[i] == StoredOption(os[i])
  {
    seq(|os|, i requires 0 <= i < |os| => StoredOption(os[i]))
  }

  lemma OptionsRoundTrip(os: seq<PlanOption>)
    ensures OptionsFrom(Elements(OptionsJson(os))) == StoredOptions(os)
  {
    forall i | 0 <= i < |os|
      ensures OptionFrom(OptionJson(os[i])) == StoredOption(os[i])
    {
      ItemsRoundTrip(os[i].items);
    }
  }

  /** What the parts of a draft are saved under. */
  lemma ChoiceIsSaved(c: PlanItemChoice)
    ensures var j := ChoiceJson(c);
            && Field(j, "id") == JString(c.id) && Field(j, "title") == JString(c.title)
            && Field(j, "description") == JString(c.description) && Field(j, "recommended") == JBool(c.recommended)
  {
  }

  lemma DecisionIsSaved(d: PlanDecision)
    ensures var j := DecisionJson(d);
            && Field(j, "id") == JString(d.id) && Field(j, "title") == JString(d.title)
            && Field(j, "description") == JString(d.description) && Field(j, "required") == JBool(d.required)
            && Field(j, "choices") == ChoicesJson(d.choices)
            && Field(j, "selected_choice_id") == JString(d.selectedChoiceId)
            && Field(j, "custom_note") == JString(d.customNote)
  {
    hide ChoicesJson;
  }

  lemma ItemTextIsSaved(x: PlanItem)
    ensures var j := ItemJson(x);
            && Field(j, "id") == JString(x.id) && Field(j, "title") == JString(x.title)
            && Field(j, "description") == JString(x.description) && Field(j, "order") == JInt(x.order)
            && Field(j, "required") == JBool(x.required)
  {
    hide ChoicesJson, DecisionsJson, StringsJson;
  }

  lemma ItemPartsAreSaved(x: PlanItem)
    ensures var j := ItemJson(x);
            && Field(j, "choices") == ChoicesJson(x.choices)
            && Field(j, "selected_choice_id") == JString(x.selectedChoiceId)
            && Field(j, "custom_note") == JString(x.customNote) && Field(j, "decisions") == DecisionsJson(x.decisions)
            && Field(j, "risks") == StringsJson(x.risks) && Field(j, "validation") == StringsJson(x.validation)
  {
    hide ChoicesJson, DecisionsJson, StringsJson;
  }

  lemma OptionIsSaved(o: PlanOption)
    ensures var j := OptionJson(o);
            && Field(j, "id") == JString(o.id) && Field(j, "title") == JString(o.title)
            && Field(j, "summary") == JString(o.summary) && Field(j, "items") == ItemsJson(o.items)
            && Field(j, "recommended") == JBool(o.recommended)
  {
    hide ItemsJson;
  }

  /** A field that is missing or of another kind is read as its default. */
  lemma OtherKindsAreIgnored(j: Json, key: string, text: string, flag: bool)
    ensures !Field(j, key).JString? ==> StringField(j, key, text) == text
    ensures !Field(j, key).JBool? ==> BoolField(j, key, flag) == flag
    ensures !Field(j, key).JInt? ==> IntField(j, key) == 0 && LongField(j, key) == 0
    ensures !Field(j, key).JArray? ==> Elements(Field(j, key)) == []
  {
  }

  // ---------------------------------------------------------------- drafts

  function DraftFields(d: PlanDraft): map<string, Json> {
    map["plan_id" := JString(d.planId), "session_id" := JString(d.sessionId), "workspace" := JString(d.workspace),
        "title" := JString(d.title), "objective" := JString(d.objective), "status" := JString(StatusText(d.status)),
        "stage" := JString(StageText(d.stage)), "revision" := JInt(d.revision), "options" := OptionsJson(d.options),
        "selected_option_id" := JString(d.selectedOptionId), "detailed_option_id" := JString(d.detailedOptionId),
        "items" := ItemsJson(d.items), "global_risks" := StringsJson(d.globalRisks),
        "validation" := StringsJson(d.validation), "final_summary" := JString(d.finalSummary),
        "final_items" := ItemsJson(d.finalItems), "consistency_notes" := StringsJson(d.consistencyNotes),
        "finalized_input_revision" := JInt(d.finalizedInputRevision),
        "planning_request_id" := JInt(AsSigned(d.planningRequestId)), "error" := JString(d.error),
        "updated_ms" := JInt(AsSigned(d.updatedMs))]
  }

  function ToJson(d: PlanDraft): Json {
    JObject(DraftFields(d))
  }

  function DraftFrom(j: Json): PlanDraft {
    PlanDraft(
      StringField(j, "plan_id", ""), StringField(j, "session_id", ""), StringField(j, "workspace", ""),
      StringField(j, "title", ""), StringField(j, "objective", ""),
      StatusOf(StringField(j, "status", "idle")), StageOf(StringField(j, "stage", "idle")), IntField(j, "revision"),
      OptionsFrom(Elements(Field(j, "options"))), StringField(j, "selected_option_id", ""),
      StringField(j, "detailed_option_id", ""), ItemsFrom(Elements(Field(j, "items"))),
      OnlyStrings(Elements(Field(j, "global_risks"))), OnlyStrings(Elements(Field(j, "validation"))),
      StringField(j, "final_summary", ""), ItemsFrom(Elements(Field(j, "final_items"))),
      OnlyStrings(Elements(Field(j, "consistency_notes"))), IntField(j, "finalized_input_revision"),
      AsUnsigned(LongField(j, "planning_request_id")), StringField(j, "error", ""),
      AsUnsigned(LongField(j, "updated_ms")))
  }

  method DraftFromJson(json: Json) returns (d: PlanDraft)
    ensures d == DraftFrom(json)
  {
    d := EMPTY_DRAFT;
    d := d.(planId := StringField(json, "plan_id", ""), sessionId := StringField(json, "session_id", ""),
            workspace := StringField(json, "workspace", ""), title := StringField(json, "title", ""),
            objective := StringField(json, "objective", ""), status := StatusOf(StringField(json, "status", "idle")),
            stage := StageOf(StringField(json, "stage", "idle")), revision := IntField(json, "revision"));
    d := d.(selectedOptionId := StringField(json, "selected_option_id", ""),
            detailedOptionId := StringField(json, "detailed_option_id", ""), error := StringField(json, "error", ""),
            finalSummary := StringField(json, "final_summary", ""),
            finalizedInputRevision := IntField(json, "finalized_input_revision"),
            planningRequestId := AsUnsigned(LongField(json, "planning_request_id")),
            updatedMs := AsUnsigned(LongField(json, "updated_ms")));
    var options := OptionsFromJson(Field(json, "options"));
    var items := ItemsFromJson(Field(json, "items"));
    var finalItems := ItemsFromJson(Field(json, "final_items"));
    var globalRisks := StringsFromJson(Field(json, "global_risks"));
    var validation := StringsFromJson(Field(json, "validation"));
    var consistencyNotes := StringsFromJson(Field(json, "consistency_notes"));
    d := d.(options := options, items := items, finalItems := finalItems, globalRisks := globalRisks,
            validation := validation, consistencyNotes := consistencyNotes);
  }

  lemma TextFieldsRead(d: PlanDraft)
    ensures var j := ToJson(d);
            && StringField(j, "plan_id", "") == d.planId && StringField(j, "session_id", "") == d.sessionId
            && StringField(j, "workspace", "") == d.workspace && StringField(j, "title", "") == d.title
            && StringField(j, "objective", "") == d.objective && StringField(j, "error", "") == d.error
  {
  }

  lemma StateFieldsRead(d: PlanDraft)
    ensures var j := ToJson(d);
            && StatusOf(StringField(j, "status", "idle")) == d.status
            && StageOf(StringField(j, "stage", "idle")) == d.stage
            && StringField(j, "selected_option_id", "") == d.selectedOptionId
            && StringField(j, "detailed_option_id", "") == d.detailedOptionId
            && StringField(j, "final_summary", "") == d.finalSummary
  {
    var fields := DraftFields(d);
    assert fields["status"] == JString(StatusText(d.status)) && fields["stage"] == JString(StageText(d.stage));
    NamesRoundTrip(d.status, d.stage);
  }

  lemma NumberFieldsRead(d: PlanDraft)
    ensures var j := ToJson(d);
            && IntField(j, "revision") == Read(d.revision, INT32_MAX)
            && IntField(j, "finalized_input_revision") == Read(d.finalizedInputRevision, INT32_MAX)
            && LongField(j, "planning_request_id") == AsSigned(d.planningRequestId)
            && LongField(j, "updated_ms") == AsSigned(d.updatedMs)
  {
  }

  lemma ListFieldsRead(d: PlanDraft)
    ensures var j := ToJson(d);
            && Field(j, "options") == OptionsJson(d.options) && Field(j, "items") == ItemsJson(d.items)
            && Field(j, "final_items") == ItemsJson(d.finalItems)
            && Field(j, "global_risks") == StringsJson(d.globalRisks)
            && Field(j, "validation") == StringsJson(d.validation)
            && Field(j, "consistency_notes") == StringsJson(d.consistencyNotes)
  {
  }

  function Stored(d: PlanDraft): PlanDraft {
    d.(revision := Read(d.revision, INT32_MAX), finalizedInputRevision := Read(d.finalizedInputRevision, INT32_MAX),
       items := StoredItems(d.items), finalItems := StoredItems(d.finalItems), options := StoredOptions(d.options))
  }

  lemma ReadsStored(d: PlanDraft)
    ensures DraftFrom(ToJson(d)) == Stored(d)
  {
    TextFieldsRead(d);
    StateFieldsRead(d);
    NumberFieldsRead(d);
    ListFieldsRead(d);
    OptionsRoundTrip(d.options);
    ItemsRoundTrip(d.items);
    ItemsRoundTrip(d.finalItems);
    StringsRoundTrip(d.globalRisks);
    StringsRoundTrip(d.validation);
    StringsRoundTrip(d.consistencyNotes);
    CastsRoundTrip(d.planningRequestId);
    CastsRoundTrip(d.updatedMs);
  }

  predicate Fits(n: int) {
    -INT32_MAX - 1 <= n <= INT32_MAX
  }

  predicate OrdersFit(xs: seq<PlanItem>) {
    forall i | 0 <= i < |xs| :: Fits(xs[i].order)
  }

  lemma OrdersKept(xs: seq<PlanItem>)
    ensures StoredItems(xs) == xs <==> OrdersFit(xs)
  {
    if StoredItems(xs) == xs {
      forall i | 0 <= i < |xs|
        ensures Fits(xs[i].order)
      {
        assert StoredItems(xs)[i] == StoredItem(xs[i]);
      }
    }
  }

  predicate OptionOrdersFit(os: seq<PlanOption>) {
    forall i | 0 <= i < |os| :: OrdersFit(os[i].items)
  }

  lemma OptionOrdersKept(os: seq<PlanOption>)
    ensures StoredOptions(os) == os <==> OptionOrdersFit(os)
  {
    forall i | 0 <= i < |os|
      ensures StoredOption(os[i]) == os[i] <==> OrdersFit(os[i].items)
    {
      OrdersKept(os[i].items);
    }
    if StoredOptions(os) == os {
      forall i | 0 <= i < |os|
        ensures OrdersFit(os[i].items)
      {
        assert StoredOptions(os)[i] == StoredOption(os[i]);
      }
    }
  }

  predicate Bare(j: Json) {
    !j.JObject? || j.fields == map[]
  }

  /**
   What a value without any of the fields is read as: empty texts and lists, zeros, and required unless it says so.
   */
  lemma MissingParts(j: Json)
    requires Bare(j)
    ensures ChoiceFrom(j) == PlanItemChoice("", "", "", false) && DecisionFrom(j)
         == PlanDecision("", "", "", true, [], "", "")
    ensures ItemFrom(j) == PlanItem("", "", "", 0, true, [], "", "", [], [], [])
    ensures OptionFrom(j) == PlanOption("", "", "", [], false)
  {
    assert forall key :: Field(j, key) == JNull;
    hide Field, Read;
  }

  lemma NothingIsRead(j: Json)
    requires Bare(j)
    ensures forall key, text :: StringField(j, key, text) == text
    ensures forall key :: IntField(j, key) == 0 && LongField(j, key) == 0 && Elements(Field(j, key)) == []
    ensures OptionsFrom([]) == [] && ItemsFrom([]) == [] && OnlyStrings([]) == []
    ensures StatusOf("idle") == Idle && StageOf("idle") == NoStage && AsUnsigned(0) == 0
  {
    assert forall key :: Field(j, key) == JNull;
  }

  lemma MissingDraft(j: Json)
    requires Bare(j)
    ensures DraftFrom(j) == EMPTY_DRAFT
  {
    NothingIsRead(j);
    hide StringField, IntField, LongField, Elements, Field, OptionsFrom, ItemsFrom, OnlyStrings;
    hide StatusOf, StageOf, AsUnsigned;
  }

  /**
   A draft is read back as it was saved if and only if its revisions and orders fit the 32 bits they are
   declared with; its 64-bit numbers always survive.
   */
  lemma DraftRoundTripIff(d: PlanDraft)
    ensures DraftFrom(ToJson(d)) == d
       <==> && Fits(d.revision) && Fits(d.finalizedInputRevision)
            && OrdersFit(d.items) && OrdersFit(d.finalItems) && OptionOrdersFit(d.options)
  {
    ReadsStored(d);
    OrdersKept(d.items);
    OrdersKept(d.finalItems);
    OptionOrdersKept(d.options);
  }

  lemma OrdersAreRenewed(xs: seq<PlanItem>)
    ensures NormalItems(StoredItems(xs), false) == NormalItems(xs, false)
  {
    forall i | 0 <= i < |xs|
      ensures NormalItem(StoredItem(xs[i]), i, false) == NormalItem(xs[i], i, false)
    {
    }
  }

  lemma OptionOrdersAreRenewed(os: seq<PlanOption>)
    ensures NormalOptions(StoredOptions(os)) == NormalOptions(os)
  {
    forall i | 0 <= i < |os|
      ensures NormalOption(StoredOption(os[i])) == NormalOption(os[i])
    {
      OrdersAreRenewed(os[i].items);
    }
  }

  function WithRevisions(d: PlanDraft, revision: int, input: int): PlanDraft {
    d.(revision := revision, finalizedInputRevision := input)
  }

  lemma RestoredStored(d: PlanDraft, now: uint64)
    ensures Restored(Stored(d), now)
         == WithRevisions(Restored(d, now), Read(d.revision, INT32_MAX), Read(d.finalizedInputRevision, INT32_MAX))
  {
    OrdersAreRenewed(d.items);
    OrdersAreRenewed(d.finalItems);
    OptionOrdersAreRenewed(d.options);
    hide NormalItems, NormalOptions, StoredItems, StoredOptions;
  }

  /** Restoring numbers the items anew, so that only the revisions can be lost on the way through storage. */
  lemma RestoresStored(d: PlanDraft, e: PlanDraft, now: uint64)
    ensures After(e, Call(Restore(DraftFrom(ToJson(d))), now))
         == WithRevisions(After(e, Call(Restore(d), now)), Read(d.revision, INT32_MAX),
                          Read(d.finalizedInputRevision, INT32_MAX))
    ensures After(e, Call(Restore(d), now)) == Restored(d, now)
  {
    ReadsStored(d);
    RestoredStored(d, now);
    hide DraftFrom, ToJson, Stored, Restored;
  }

  /**
   Saving and restoring a draft any run can reach gives it back exactly if and only if its revisions fit 32
   bits, it is not a reviewing draft without a stage and it carries a time stamp (or the clock reads zero).
   */
  lemma PersistRestoreIff(calls: seq<Call>, now: uint64)
    ensures var d := AfterAll(EMPTY_DRAFT, calls);
            (After(EMPTY_DRAFT, Call(Restore(DraftFrom(ToJson(d))), now)) == d
             <==> && Fits(d.revision) && Fits(d.finalizedInputRevision)
                  && !(d.stage == NoStage && d.status == Reviewing) && (d.updatedMs != 0 || now == 0))
  {
    var d := AfterAll(EMPTY_DRAFT, calls);
    RunStaysNormal(EMPTY_DRAFT, calls);
    RestoresStored(d, EMPTY_DRAFT, now);
    RestoreIsIdentityIff(d, now);
    hide DraftFrom, ToJson, AfterAll, NormalDraft, NormalItems, NormalOptions;
    assert Restored(d, now).revision == d.revision;
    assert Restored(d, now).finalizedInputRevision == d.finalizedInputRevision;
    hide Restored, After;
  }

  /**
   Loading a saved draft, over whatever draft there is, gives one in step, or resolved, exactly when the saved one
   was.
   */
  lemma ReloadKeepsSafety(d: PlanDraft, saved: PlanDraft, now: uint64)
    requires Fits(saved.revision) && Fits(saved.finalizedInputRevision)
    ensures var e := After(d, Call(Restore(DraftFrom(ToJson(saved))), now));
            (FinalInStep(e) <==> FinalInStep(saved)) && (FinalIsResolved(e) <==> FinalIsResolved(saved))
  {
    RestoresStored(saved, d, now);
    hide DraftFrom, ToJson, NormalItems, NormalOptions, AllDecisionsResolved;
    assert Restored(saved, now).revision == saved.revision;
    assert Restored(saved, now).finalizedInputRevision == saved.finalizedInputRevision;
    hide Restored, After;
    RestoreKeepsFinal(d, Call(Restore(saved), now));
    RestoreKeepsResolved(d, Call(Restore(saved), now));
  }
}
