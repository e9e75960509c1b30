/** Work-item contracts: what a raw ticket must look like, and the work item it stands for. */
module Contracts {
  import opened Prelude
  import opened Identity
  import opened Sorting

  datatype Json =
    | Null
    | Boolean(truth: bool)
    | Number(number: int)
    | Fraction(value: real)
    | Text(text: string)
    | List(items: seq<Json>)
    | Object(fields: map<string, Json>)

  type Fields = map<string, Json>

  datatype WorkItemState = Blocked | Ready | InProgress | InReview | NeedsAttention | Done | Cancelled

  datatype WorkItem = WorkItem(
    id: ItemId,
    blockedBy: seq<ItemId>,
    title: string,
    description: string,
    behavior: string,
    summary: string,
    modules: seq<string>,
    constraints: seq<string>,
    scopeIn: seq<string>,
    scopeOut: seq<string>,
    acceptanceCriteria: seq<Fields>,
    testScenarios: seq<Fields>,
    affectedPaths: seq<string>,
    estimate: int,
    riskLevel: string,
    riskReason: string,
    rollout: Option<string>,
    killSwitch: Option<string>,
    events: seq<string>,
    metrics: seq<string>,
    i18n: seq<string>,
    privacy: seq<string>,
    factories: seq<string>,
    migration: seq<string>,
    schema: seq<string>,
    state: WorkItemState)

  /** A validation issue, without its texts for people. */
  datatype Issue = Issue(code: string, field: string)

  /** A raw ticket is accepted, rejected with every issue found, or stops the validator with a type error. */
  datatype Outcome = Accepted(item: WorkItem) | Rejected(issues: seq<Issue>) | Crashed

  /** The rules for titles; their texts and patterns are a parameter of the model. */
  type TitleRules = Json -> seq<Issue>

  datatype Shape = Shape(name: string, keys: seq<string>)

  const REQUIRED := ["id", "title", "problem", "scope", "behavior", "technical_context", "affected_paths",
                     "acceptance_criteria", "test_scenarios", "blocked_by", "estimate_points", "risk", "rollout",
                     "observability", "state"]

  const NESTED := [Shape("scope", ["in", "out"]), Shape("technical_context", ["summary", "modules", "constraints"]),
                   Shape("risk", ["level", "reason"]), Shape("rollout", ["strategy", "kill_switch"]),
                   Shape("observability", ["events", "metrics"])]

  const CRITERION := ["id", "criterion"]
  const SCENARIO := ["id", "given", "when", "then"]
  const REQUIREMENT_KINDS := ["i18n", "privacy", "factories", "migration", "schema"]

  // Reading JSON.

  /** Python's `get`: an absent field reads as null. */
  function Get(v: Json, name: string): Json {
    if v.Object? && name in v.fields then v.fields[name] else Null
  }

  function GetOr(v: Json, name: string, default: Json): Json {
    if v.Object? && name in v.fields then v.fields[name] else default
  }

  function TextOf(v: Json): string {
    if v.Text? then v.text else ""
  }

  function FieldsOf(v: Json): Fields {
    if v.Object? then v.fields else map[]
  }

  function TextsOf(v: Json): seq<string> {
    if v.List? then MapAll(v.items, TextOf) else []
  }

  function RecordsOf(v: Json): seq<Fields> {
    if v.List? then MapAll(v.items, FieldsOf) else []
  }

  predicate IsTrue(v: Json) {
    match v
    case Null => false
    case Boolean(truth) => truth
    case Number(number) => number != 0
    case Fraction(value) => value != 0.0
    case Text(text) => text != ""
    case List(items) => items != []
    case Object(fields) => fields != map[]
  }

  function StateName(state: WorkItemState): string {
    match state
    case Blocked => "Blocked"
    case Ready => "Ready"
    case InProgress => "InProgress"
    case InReview => "InReview"
    case NeedsAttention => "NeedsAttention"
    case Done => "Done"
    case Cancelled => "Cancelled"
  }

  function StateNamed(name: string): (state: Option<WorkItemState>)
    ensures forall s :: state == Some(s) <==> StateName(s) == name
  {
    if name == "Blocked" then Some(Blocked)
    else if name == "Ready" then Some(Ready)
    else if name == "InProgress" then Some(InProgress)
    else if name == "InReview" then Some(InReview)
    else if name == "NeedsAttention" then Some(NeedsAttention)
    else if name == "Done" then Some(Done)
    else if name == "Cancelled" then Some(Cancelled)
    else None
  }

  // What a well-formed ticket is.

  predicate IsFilledText(v: Json) {
    v.Text? && !IsBlank(v.text)
  }

  predicate IsTextList(v: Json, least: nat) {
    v.List? && |v.items| >= least && forall i :: 0 <= i < |v.items| ==> IsFilledText(v.items[i])
  }

  predicate IsLongText(v: Json, least: nat) {
    v.Text? && |Strip(v.text)| >= least
  }

  predicate HasExactly(v: Json, keys: seq<string>) {
    v.Object? && v.fields.Keys == Elems(keys)
  }

  predicate IsRecord(v: Json, keys: seq<string>) {
    HasExactly(v, keys) && forall k :: k in v.fields ==> IsFilledText(v.fields[k])
  }

  predicate IsRecordList(v: Json, keys: seq<string>) {
    v.List? && v.items != [] && forall i :: 0 <= i < |v.items| ==> IsRecord(v.items[i], keys)
  }

  predicate IsBlockerList(v: Json) {
    v.List? && (forall i :: 0 <= i < |v.items| ==> v.items[i].Text? && IsItemId(v.items[i].text)) && Distinct(v.items)
  }

  predicate IsRiskLevel(v: Json) {
    v == Text("low") || v == Text("medium") || v == Text("high")
  }

  /** Optional requirements: lists of known kinds, a migration exactly when a schema. */
  predicate AreRequirements(v: Json) {
    && v.Object? && v.fields.Keys <= Elems(REQUIREMENT_KINDS)
    && (forall kind :: kind in REQUIREMENT_KINDS ==> IsTextList(GetOr(v, kind, List([])), 0))
    && (IsTrue(Get(v, "migration")) <==> IsTrue(Get(v, "schema")))
  }

  predicate IdentityFits(raw: Json, rules: TitleRules) {
    && Get(raw, "id").Text? && IsItemId(Get(raw, "id").text)
    && IsBlockerList(Get(raw, "blocked_by"))
    && Get(raw, "estimate_points").Number? && 1 <= Get(raw, "estimate_points").number <= 5
    && IsLongText(Get(raw, "title"), 12) && IsLongText(Get(raw, "problem"), 30) && IsLongText(Get(raw, "behavior"), 30)
    && rules(Get(raw, "title")) == []
    && Get(raw, "state").Text? && StateNamed(Get(raw, "state").text).Some?
  }

  predicate ShapesFit(raw: Json) {
    forall i :: 0 <= i < |NESTED| ==> HasExactly(Get(raw, NESTED[i].name), NESTED[i].keys)
  }

  predicate SectionsFit(raw: Json) {
    && IsTextList(Get(Get(raw, "scope"), "in"), 1) && IsTextList(Get(Get(raw, "scope"), "out"), 0)
    && IsFilledText(Get(Get(raw, "technical_context"), "summary"))
    && IsTextList(Get(Get(raw, "technical_context"), "modules"), 1)
    && IsTextList(Get(Get(raw, "technical_context"), "constraints"), 0)
    && IsRiskLevel(Get(Get(raw, "risk"), "level")) && Get(Get(raw, "risk"), "reason").Text?
    && Get(Get(raw, "rollout"), "strategy").Text? && Get(Get(raw, "rollout"), "kill_switch").Text?
    && IsTextList(Get(Get(raw, "observability"), "events"), 0)
    && IsTextList(Get(Get(raw, "observability"), "metrics"), 0)
  }

  predicate ListsFit(raw: Json) {
    && IsTextList(Get(raw, "affected_paths"), 1)
    && IsRecordList(Get(raw, "acceptance_criteria"), CRITERION)
    && IsRecordList(Get(raw, "test_scenarios"), SCENARIO)
    && AreRequirements(GetOr(raw, "requirements", Object(map[])))
  }

  predicate WellFormed(raw: Fields, rules: TitleRules) {
    var v := Object(raw);
    && Elems(REQUIRED) <= raw.Keys <= Elems(REQUIRED) + {"requirements"}
    && IdentityFits(v, rules) && ShapesFit(v) && SectionsFit(v) && ListsFit(v)
  }

  // The validator.

  function MissingIn(prefix: string, v: Json): string -> seq<Issue> {
    key => if key in FieldsOf(v) then [] else [Issue("missing_field", prefix + key)]
  }

  function Unknown(prefix: string): string -> seq<Issue> {
    key => [Issue("unknown_field", prefix + key)]
  }

  function ExtraKeys(v: Json, known: set<string>): (keys: seq<string>)
    ensures keys == [] <==> FieldsOf(v).Keys <= known
  {
    var extra := FieldsOf(v).Keys - known;
    assert extra == {} <==> forall k :: k in FieldsOf(v).Keys ==> k in known by {
      assert forall k :: k in FieldsOf(v).Keys && k !in known ==> k in extra;
    }
    Sorted(extra)
  }

  function IssueUnless(fits: bool, code: string, field: string): seq<Issue> {
    if fits then [] else [Issue(code, field)]
  }

  function ListIssues(v: Json, field: string, least: nat): (issues: seq<Issue>)
    ensures issues == [] <==> IsTextList(v, least)
  {
    if !v.List? then [Issue("invalid_list", field)]
    else
      IssueUnless(|v.items| >= least, "empty_executable_section", field)
      + IssueUnless(forall i :: 0 <= i < |v.items| ==> IsFilledText(v.items[i]), "invalid_list_item", field)
  }

  function BlockerIssues(v: Json): (issues: seq<Issue>)
    ensures issues == [] <==> IsBlockerList(v)
  {
    if !v.List? || exists i :: 0 <= i < |v.items| && !v.items[i].Text? then [Issue("invalid_blockers", "blocked_by")]
    else if exists i :: 0 <= i < |v.items| && !IsItemId(v.items[i].text) then [Issue("invalid_blocker_id", "blocked_by")]
    else IssueUnless(Distinct(v.items), "duplicate_blocker", "blocked_by")
  }

  function IdentityIssues(raw: Json, rules: TitleRules): (issues: seq<Issue>)
    ensures issues == [] <==> IdentityFits(raw, rules)
  {
    var id, points, state := Get(raw, "id"), Get(raw, "estimate_points"), Get(raw, "state");
    IssueUnless(id.Text? && IsItemId(id.text), "invalid_id", "id")
    + BlockerIssues(Get(raw, "blocked_by"))
    + IssueUnless(points.Number? && 1 <= points.number <= 5, "estimate_out_of_range", "estimate_points")
    + IssueUnless(IsLongText(Get(raw, "title"), 12), "text_too_short", "title")
    + IssueUnless(IsLongText(Get(raw, "problem"), 30), "text_too_short", "problem")
    + IssueUnless(IsLongText(Get(raw, "behavior"), 30), "text_too_short", "behavior")
    + rules(Get(raw, "title"))
    + IssueUnless(state.Text? && StateNamed(state.text).Some?, "invalid_state", "state")
  }

  function ShapeIssues(raw: Json): Shape -> seq<Issue> {
    (shape: Shape) =>
      var v := Get(raw, shape.name);
      if !v.Object? then [Issue("invalid_object", shape.name)]
      else
        Concat(shape.keys, MissingIn(shape.name + ".", v))
        + Concat(ExtraKeys(v, Elems(shape.keys)), Unknown(shape.name + "."))
  }

  predicate AllObjects(raw: Json) {
    forall i :: 0 <= i < |NESTED| ==> Get(raw, NESTED[i].name).Object?
  }

  /** Testing an unhashable risk level for membership in a set raises a type error. */
  predicate RiskIsUnhashable(raw: Json) {
    var level := Get(Get(raw, "risk"), "level");
    AllObjects(raw) && (level.List? || level.Object?)
  }

  function SectionIssues(raw: Json): (issues: seq<Issue>)
    ensures issues == [] <==> SectionsFit(raw)
  {
    var scope, context := Get(raw, "scope"), Get(raw, "technical_context");
    var risk, rollout, observability := Get(raw, "risk"), Get(raw, "rollout"), Get(raw, "observability");
    ListIssues(Get(scope, "in"), "scope.in", 1)
    + ListIssues(Get(scope, "out"), "scope.out", 0)
    + IssueUnless(IsFilledText(Get(context, "summary")), "invalid_text", "technical_context.summary")
    + ListIssues(Get(context, "modules"), "technical_context.modules", 1)
    + ListIssues(Get(context, "constraints"), "technical_context.constraints", 0)
    + IssueUnless(IsRiskLevel(Get(risk, "level")), "invalid_risk_level", "risk.level")
    + IssueUnless(Get(risk, "reason").Text?, "invalid_text", "risk.reason")
    + IssueUnless(Get(rollout, "strategy").Text?, "invalid_text", "rollout.strategy")
    + IssueUnless(Get(rollout, "kill_switch").Text?, "invalid_text", "rollout.kill_switch")
    + ListIssues(Get(observability, "events"), "observability.events", 0)
    + ListIssues(Get(observability, "metrics"), "observability.metrics", 0)
  }

  function TextIn(path: string, v: Json): string -> seq<Issue> {
    key => IssueUnless(IsFilledText(Get(v, key)), "invalid_text", path + "." + key)
  }

  function EntryIssues(v: Json, path: string, keys: seq<string>): (issues: seq<Issue>)
    ensures issues == [] <==> IsRecord(v, keys)
  {
    if !v.Object? then [Issue("invalid_object", path)]
    else Concat(keys, TextIn(path, v)) + Concat(ExtraKeys(v, Elems(keys)), Unknown(path + "."))
  }

  function EntryAt(items: seq<Json>, field: string, keys: seq<string>): nat -> seq<Issue> {
    (i: nat) => if i < |items| then EntryIssues(items[i], field + "[" + Decimal(i) + "]", keys) else []
  }

  function Positions(n: nat): (ks: seq<nat>)
    ensures |ks| == n && forall k :: k in ks <==> 0 <= k < n
  {
    if n == 0 then [] else Positions(n - 1) + [n - 1]
  }

  lemma EntriesAreClean(items: seq<Json>, field: string, keys: seq<string>)
    ensures Concat(Positions(|items|), EntryAt(items, field, keys)) == []
            <==> forall i :: 0 <= i < |items| ==> IsRecord(items[i], keys)
  {
    hide Concat, Positions, IsRecord, Decimal;
    var check := EntryAt(items, field, keys);
    assert forall i: nat | i < |items| :: check(i) == [] <==> IsRecord(items[i], keys);
    if Concat(Positions(|items|), check) == [] {
      forall i | 0 <= i < |items| ensures IsRecord(items[i], keys) {
        assert i in Positions(|items|);
      }
    }
  }

  function RecordIssues(v: Json, field: string, keys: seq<string>): (issues: seq<Issue>)
    ensures issues == [] <==> IsRecordList(v, keys)
  {
    if !v.List? || v.items == [] then [Issue("empty_executable_section", field)]
    else
      EntriesAreClean(v.items, field, keys);
      Concat(Positions(|v.items|), EntryAt(v.items, field, keys))
  }

  function KindIssues(v: Json): string -> seq<Issue> {
    kind => ListIssues(GetOr(v, kind, List([])), "requirements." + kind, 0)
  }

  function RequirementIssues(v: Json): (issues: seq<Issue>)
    ensures issues == [] <==> AreRequirements(v)
  {
    if !v.Object? then [Issue("invalid_object", "requirements")]
    else
      Concat(ExtraKeys(v, Elems(REQUIREMENT_KINDS)), Unknown("requirements."))
      + Concat(REQUIREMENT_KINDS, KindIssues(v))
      + IssueUnless(IsTrue(Get(v, "migration")) == IsTrue(Get(v, "schema")), "migration_schema_split", "requirements")
  }

  function TailIssues(raw: Json): (issues: seq<Issue>)
    ensures issues == [] <==> ListsFit(raw)
  {
    ListIssues(Get(raw, "affected_paths"), "affected_paths", 1)
    + RecordIssues(Get(raw, "acceptance_criteria"), "acceptance_criteria", CRITERION)
    + RecordIssues(Get(raw, "test_scenarios"), "test_scenarios", SCENARIO)
    + RequirementIssues(GetOr(raw, "requirements", Object(map[])))
  }

  /** Everything a complete ticket is reported for, in the order the checks run. */
  function Findings(raw: Json, rules: TitleRules): (issues: seq<Issue>)
    ensures issues == [] <==>
      && FieldsOf(raw).Keys <= Elems(REQUIRED) + {"requirements"}
      && IdentityFits(raw, rules) && ShapesFit(raw) && SectionsFit(raw) && ListsFit(raw)
  {
    ShapesAreClean(raw);
    Concat(ExtraKeys(raw, Elems(REQUIRED) + {"requirements"}), Unknown(""))
    + IdentityIssues(raw, rules)
    + Concat(NESTED, ShapeIssues(raw))
    + (if AllObjects(raw) then SectionIssues(raw) else [])
    + TailIssues(raw)
  }

  lemma ShapeIsClean(raw: Json, shape: Shape)
    ensures ShapeIssues(raw)(shape) == [] <==> HasExactly(Get(raw, shape.name), shape.keys)
  {
  }

  lemma ShapesAreClean(raw: Json)
    ensures Concat(NESTED, ShapeIssues(raw)) == [] <==> ShapesFit(raw)
    ensures ShapesFit(raw) ==> AllObjects(raw)
  {
    hide Concat, ShapeIssues, HasExactly;
    forall i | 0 <= i < |NESTED|
      ensures ShapeIssues(raw)(NESTED[i]) == [] <==> HasExactly(Get(raw, NESTED[i].name), NESTED[i].keys)
    {
      ShapeIsClean(raw, NESTED[i]);
    }
    assert forall i :: 0 <= i < |NESTED| ==> NESTED[i] in NESTED;
    ExactlyIsObject(raw);
  }

  lemma ExactlyIsObject(raw: Json)
    ensures ShapesFit(raw) ==> AllObjects(raw)
  {
  }

  /** The work item a validated ticket stands for. */
  function Read(raw: Json): WorkItem {
    var scope, context, risk := Get(raw, "scope"), Get(raw, "technical_context"), Get(raw, "risk");
    var rollout, observability := Get(raw, "rollout"), Get(raw, "observability");
    var requirements := Get(raw, "requirements");
    var state := StateNamed(TextOf(Get(raw, "state")));
    WorkItem(
      TextOf(Get(raw, "id")), TextsOf(Get(raw, "blocked_by")), TextOf(Get(raw, "title")), TextOf(Get(raw, "problem")),
      TextOf(Get(raw, "behavior")), TextOf(Get(context, "summary")), TextsOf(Get(context, "modules")),
      TextsOf(Get(context, "constraints")), TextsOf(Get(scope, "in")), TextsOf(Get(scope, "out")),
      RecordsOf(Get(raw, "acceptance_criteria")), RecordsOf(Get(raw, "test_scenarios")),
      TextsOf(Get(raw, "affected_paths")),
      if Get(raw, "estimate_points").Number? then Get(raw, "estimate_points").number else 1,
      TextOf(Get(risk, "level")), TextOf(Get(risk, "reason")),
      Some(TextOf(Get(rollout, "strategy"))), Some(TextOf(Get(rollout, "kill_switch"))),
      TextsOf(Get(observability, "events")), TextsOf(Get(observability, "metrics")),
      TextsOf(Get(requirements, "i18n")), TextsOf(Get(requirements, "privacy")),
      TextsOf(Get(requirements, "factories")), TextsOf(Get(requirements, "migration")),
      TextsOf(Get(requirements, "schema")),
      if state.Some? then state.value else Ready)
  }

  function Validation(raw: Fields, rules: TitleRules): Outcome {
    var v := Object(raw);
    var missing := Concat(REQUIRED, MissingIn("", v));
    if missing != [] then Rejected(missing)
    else if RiskIsUnhashable(v) then Crashed
    else
      var issues := Findings(v, rules);
      if issues == [] then Accepted(Read(v)) else Rejected(issues)
  }

  method Collect<T>(xs: seq<T>, check: T -> seq<Issue>) returns (issues: seq<Issue>)
    ensures issues == Concat(xs, check)
  {
    issues := [];
    for i := 0 to |xs|
      invariant issues == Concat(xs[..i], check)
    {
      ConcatOneMore(xs[..i], xs[i], check);
      assert xs[..i + 1] == xs[..i] + [xs[i]];
      issues := issues + check(xs[i]);
    }
    assert xs[..|xs|] == xs;
  }

  method CheckShapes(raw: Json) returns (issues: seq<Issue>)
    ensures issues == Concat(NESTED, ShapeIssues(raw))
  {
    issues := [];
    for i := 0 to |NESTED|
      invariant issues == Concat(NESTED[..i], ShapeIssues(raw))
    {
      ConcatOneMore(NESTED[..i], NESTED[i], ShapeIssues(raw));
      assert NESTED[..i + 1] == NESTED[..i] + [NESTED[i]];
      var Shape(name, keys) := NESTED[i];
      var v := Get(raw, name);
      if !v.Object? {
        issues := issues + [Issue("invalid_object", name)];
        continue;
      }
      var missing := Collect(keys, MissingIn(name + ".", v));
      var unknown := Collect(ExtraKeys(v, Elems(keys)), Unknown(name + "."));
      issues := issues + (missing + unknown);
    }
    assert NESTED[..|NESTED|] == NESTED;
  }

  method CheckEntry(v: Json, path: string, keys: seq<string>) returns (issues: seq<Issue>)
    ensures issues == EntryIssues(v, path, keys)
  {
    if !v.Object? {
      return [Issue("invalid_object", path)];
    }
    issues := Collect(keys, TextIn(path, v));
    var unknown := Collect(ExtraKeys(v, Elems(keys)), Unknown(path + "."));
    issues := issues + unknown;
  }

  method CheckEntries(v: Json, field: string, keys: seq<string>) returns (issues: seq<Issue>)
    ensures issues == RecordIssues(v, field, keys)
  {
    hide Concat, IsRecord, IsRecordList, Decimal, EntryIssues;
    if !v.List? || v.items == [] {
      return [Issue("empty_executable_section", field)];
    }
    issues := [];
    for i := 0 to |v.items|
      invariant issues == Concat<nat, Issue>(Positions(i), EntryAt(v.items, field, keys))
    {
      ConcatOneMore<nat, Issue>(Positions(i), i, EntryAt(v.items, field, keys));
      var entry := CheckEntry(v.items[i], field + "[" + Decimal(i) + "]", keys);
      issues := issues + entry;
    }
  }

  method CheckRequirements(v: Json) returns (issues: seq<Issue>)
    ensures issues == RequirementIssues(v)
  {
    if !v.Object? {
      return [Issue("invalid_object", "requirements")];
    }
    issues := Collect(ExtraKeys(v, Elems(REQUIREMENT_KINDS)), Unknown("requirements."));
    var kinds := Collect(REQUIREMENT_KINDS, KindIssues(v));
    issues := issues + kinds;
    if IsTrue(Get(v, "migration")) != IsTrue(Get(v, "schema")) {
      issues := issues + [Issue("migration_schema_split", "requirements")];
    }
  }

  method CheckLists(raw: Json) returns (issues: seq<Issue>)
    ensures issues == TailIssues(raw)
  {
    hide ListIssues, RecordIssues, RequirementIssues, IsTextList, IsRecordList, AreRequirements, ListsFit;
    issues := ListIssues(Get(raw, "affected_paths"), "affected_paths", 1);
    var criteria := CheckEntries(Get(raw, "acceptance_criteria"), "acceptance_criteria", CRITERION);
    var scenarios := CheckEntries(Get(raw, "test_scenarios"), "test_scenarios", SCENARIO);
    var requirements := CheckRequirements(GetOr(raw, "requirements", Object(map[])));
    issues := issues + criteria + scenarios + requirements;
  }

  /** Everything wrong with a complete ticket, unless its risk level stops the checks. */
  method FindIssues(raw: Json, rules: TitleRules) returns (issues: Option<seq<Issue>>)
    ensures issues == if RiskIsUnhashable(raw) then None else Some(Findings(raw, rules))
  {
    hide Concat, IdentityFits, SectionsFit, ShapesFit, ListsFit, ExtraKeys;
    hide IdentityIssues, SectionIssues, TailIssues, GetOr;
    var unknown := Collect(ExtraKeys(raw, Elems(REQUIRED) + {"requirements"}), Unknown(""));
    var shapes := CheckShapes(raw);
    var sections := [];
    if AllObjects(raw) {
      if RiskIsUnhashable(raw) {
        return None;
      }
      sections := SectionIssues(raw);
    }
    var lists := CheckLists(raw);
    issues := Some(unknown + IdentityIssues(raw, rules) + shapes + sections + lists);
  }

  method ValidateWorkItem(raw: Fields, rules: TitleRules) returns (outcome: Outcome)
    ensures outcome == Validation(raw, rules)
  {
    hide Concat, RiskIsUnhashable, Findings, Read, WellFormed;
    var v := Object(raw);
    var missing := Collect(REQUIRED, MissingIn("", v));
    if missing != [] {
      return Rejected(missing);
    }
    var issues := FindIssues(v, rules);
    if issues.None? {
      return Crashed;
    }
    return if issues.value == [] then Accepted(Read(v)) else Rejected(issues.value);
  }

  /** Exactly the well-formed tickets are accepted; the type error has exactly one cause. */
  lemma ValidationIsExact(raw: Fields, rules: TitleRules)
    ensures Validation(raw, rules).Accepted? <==> WellFormed(raw, rules)
    ensures Validation(raw, rules).Accepted? ==> Validation(raw, rules).item == Read(Object(raw))
    ensures Validation(raw, rules).Crashed? <==> Elems(REQUIRED) <= raw.Keys && RiskIsUnhashable(Object(raw))
  {
    hide Concat, IdentityFits, ListsFit, Read;
    assert Concat(REQUIRED, MissingIn("", Object(raw))) == [] <==> Elems(REQUIRED) <= raw.Keys;
  }
}
