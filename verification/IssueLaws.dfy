/** Which issue a ticket is reported for: every issue has its own defect, and every defect is reported. */
module IssueLaws {
  import opened Prelude
  import opened Identity
  import opened Sorting
  import opened Contracts
  import opened ContractLaws

  lemma {:induction false} InConcat<T>(xs: seq<T>, f: T -> seq<Issue>, issue: Issue)
    ensures issue in Concat(xs, f) <==> exists x :: x in xs && issue in f(x)
  {
    if xs != [] {
      var init, last := xs[..|xs| - 1], xs[|xs| - 1];
      InConcat(init, f, issue);
      assert xs == init + [last];
    }
  }

  // The defects.

  predicate Is(issue: Issue, code: string, field: string) {
    issue == Issue(code, field)
  }

  predicate ListDefect(v: Json, field: string, least: nat, issue: Issue) {
    || (Is(issue, "invalid_list", field) && !v.List?)
    || (Is(issue, "empty_executable_section", field) && v.List? && |v.items| < least)
    || (Is(issue, "invalid_list_item", field) && v.List? && exists i :: 0 <= i < |v.items| && !IsFilledText(v.items[i]))
  }

  predicate BlockerDefect(v: Json, issue: Issue) {
    var texts := v.List? && forall i :: 0 <= i < |v.items| ==> v.items[i].Text?;
    var ids := texts && forall i :: 0 <= i < |v.items| ==> IsItemId(v.items[i].text);
    || (Is(issue, "invalid_blockers", "blocked_by") && !texts)
    || (Is(issue, "invalid_blocker_id", "blocked_by") && texts && !ids)
    || (Is(issue, "duplicate_blocker", "blocked_by") && ids && !Distinct(v.items))
  }

  predicate ShortText(raw: Json, field: string, least: nat, issue: Issue) {
    Is(issue, "text_too_short", field) && (!Get(raw, field).Text? || |Strip(Get(raw, field).text)| < least)
  }

  predicate IdentityDefect(raw: Json, rules: TitleRules, issue: Issue) {
    var id, points, state := Get(raw, "id"), Get(raw, "estimate_points"), Get(raw, "state");
    || (Is(issue, "invalid_id", "id") && (!id.Text? || !IsItemId(id.text)))
    || BlockerDefect(Get(raw, "blocked_by"), issue)
    || (Is(issue, "estimate_out_of_range", "estimate_points") && (!points.Number? || points.number < 1 || points.number > 5))
    || ShortText(raw, "title", 12, issue) || ShortText(raw, "problem", 30, issue) || ShortText(raw, "behavior", 30, issue)
    || issue in rules(Get(raw, "title"))
    || (Is(issue, "invalid_state", "state") && !(exists s :: state == Text(StateName(s))))
  }

  predicate ExtraDefect(v: Json, known: set<string>, prefix: string, issue: Issue) {
    exists key :: key in FieldsOf(v) && key !in known && Is(issue, "unknown_field", prefix + key)
  }

  predicate MissingDefect(v: Json, keys: seq<string>, prefix: string, issue: Issue) {
    exists key :: key in keys && key !in FieldsOf(v) && Is(issue, "missing_field", prefix + key)
  }

  predicate ShapeDefect(raw: Json, shape: Shape, issue: Issue) {
    var v := Get(raw, shape.name);
    || (Is(issue, "invalid_object", shape.name) && !v.Object?)
    || (v.Object? && MissingDefect(v, shape.keys, shape.name + ".", issue))
    || (v.Object? && ExtraDefect(v, Elems(shape.keys), shape.name + ".", issue))
  }

  predicate PlainText(v: Json, field: string, issue: Issue) {
    Is(issue, "invalid_text", field) && !v.Text?
  }

  predicate SectionDefect(raw: Json, issue: Issue) {
    var scope, context := Get(raw, "scope"), Get(raw, "technical_context");
    var risk, rollout, observability := Get(raw, "risk"), Get(raw, "rollout"), Get(raw, "observability");
    || ListDefect(Get(scope, "in"), "scope.in", 1, issue) || ListDefect(Get(scope, "out"), "scope.out", 0, issue)
    || (Is(issue, "invalid_text", "technical_context.summary") && !IsFilledText(Get(context, "summary")))
    || ListDefect(Get(context, "modules"), "technical_context.modules", 1, issue)
    || ListDefect(Get(context, "constraints"), "technical_context.constraints", 0, issue)
    || (Is(issue, "invalid_risk_level", "risk.level") && Get(risk, "level") !in {Text("low"), Text("medium"), Text("high")})
    || PlainText(Get(risk, "reason"), "risk.reason", issue)
    || PlainText(Get(rollout, "strategy"), "rollout.strategy", issue)
    || PlainText(Get(rollout, "kill_switch"), "rollout.kill_switch", issue)
    || ListDefect(Get(observability, "events"), "observability.events", 0, issue)
    || ListDefect(Get(observability, "metrics"), "observability.metrics", 0, issue)
  }

  predicate EntryDefect(v: Json, path: string, keys: seq<string>, issue: Issue) {
    || (Is(issue, "invalid_object", path) && !v.Object?)
    || (v.Object? && exists key :: key in keys && !IsFilledText(Get(v, key)) && Is(issue, "invalid_text", path + "." + key))
    || (v.Object? && ExtraDefect(v, Elems(keys), path + ".", issue))
  }

  function PathAt(field: string, i: nat): string {
    field + "[" + Decimal(i) + "]"
  }

  predicate RecordDefect(v: Json, field: string, keys: seq<string>, issue: Issue) {
    || (Is(issue, "empty_executable_section", field) && (!v.List? || v.items == []))
    || (v.List? && exists i: nat :: i < |v.items| && EntryDefect(v.items[i], PathAt(field, i), keys, issue))
  }

  /** Nothing else is taken for false. */
  lemma FalseIsEmpty(v: Json)
    ensures !IsTrue(v) <==> v in [Null, Boolean(false), Number(0), Fraction(0.0), Text(""), List([]), Object(map[])]
  {
  }

  predicate RequirementDefect(v: Json, issue: Issue) {
    || (Is(issue, "invalid_object", "requirements") && !v.Object?)
    || (v.Object? && ExtraDefect(v, Elems(REQUIREMENT_KINDS), "requirements.", issue))
    || (v.Object? && exists kind ::
          kind in REQUIREMENT_KINDS && ListDefect(GetOr(v, kind, List([])), "requirements." + kind, 0, issue))
    || (v.Object? && Is(issue, "migration_schema_split", "requirements") && IsTrue(Get(v, "migration")) != IsTrue(Get(v, "schema")))
  }

  predicate TailDefect(raw: Json, issue: Issue) {
    || ListDefect(Get(raw, "affected_paths"), "affected_paths", 1, issue)
    || RecordDefect(Get(raw, "acceptance_criteria"), "acceptance_criteria", CRITERION, issue)
    || RecordDefect(Get(raw, "test_scenarios"), "test_scenarios", SCENARIO, issue)
    || RequirementDefect(GetOr(raw, "requirements", Object(map[])), issue)
  }

  // Each part of the validator reports its defects.

  lemma ListIssuesAreExact(v: Json, field: string, least: nat, issue: Issue)
    ensures issue in ListIssues(v, field, least) <==> ListDefect(v, field, least, issue)
  {
  }

  lemma BlockerIssuesAreExact(v: Json, issue: Issue)
    ensures issue in BlockerIssues(v) <==> BlockerDefect(v, issue)
  {
    hide IsItemId;
  }

  lemma IdentityIssuesAreExact(raw: Json, rules: TitleRules, issue: Issue)
    ensures issue in IdentityIssues(raw, rules) <==> IdentityDefect(raw, rules, issue)
  {
    hide IsItemId, BlockerIssues, BlockerDefect, Strip, IdentityFits;
    BlockerIssuesAreExact(Get(raw, "blocked_by"), issue);
  }

  lemma ExtraIssuesAreExact(v: Json, known: set<string>, prefix: string, issue: Issue)
    ensures issue in Concat(ExtraKeys(v, known), Unknown(prefix)) <==> ExtraDefect(v, known, prefix, issue)
  {
    hide Concat;
    InConcat(ExtraKeys(v, known), Unknown(prefix), issue);
    ExtraKeysAreExtra(v, known);
  }

  lemma ExtraKeysAreExtra(v: Json, known: set<string>)
    ensures forall key :: key in ExtraKeys(v, known) <==> key in FieldsOf(v) && key !in known
  {
    hide Sorted;
    var extra := FieldsOf(v).Keys - known;
    assert ExtraKeys(v, known) == Sorted(extra);
    assert forall key :: key in Sorted(extra) <==> key in Elems(Sorted(extra));
  }

  lemma MissingIssuesAreExact(v: Json, keys: seq<string>, prefix: string, issue: Issue)
    ensures issue in Concat(keys, MissingIn(prefix, v)) <==> MissingDefect(v, keys, prefix, issue)
  {
    hide Concat;
    InConcat(keys, MissingIn(prefix, v), issue);
  }

  lemma ShapeIssuesAreExact(raw: Json, shape: Shape, issue: Issue)
    ensures issue in ShapeIssues(raw)(shape) <==> ShapeDefect(raw, shape, issue)
  {
    hide Concat, MissingDefect, ExtraDefect, ExtraKeys;
    var v := Get(raw, shape.name);
    MissingIssuesAreExact(v, shape.keys, shape.name + ".", issue);
    ExtraIssuesAreExact(v, Elems(shape.keys), shape.name + ".", issue);
  }

  lemma SectionIssuesAreExact(raw: Json, issue: Issue)
    ensures issue in SectionIssues(raw) <==> SectionDefect(raw, issue)
  {
    hide ListIssues, ListDefect, SectionsFit, IsFilledText, Get;
    ListIssuesAreExact(Get(Get(raw, "scope"), "in"), "scope.in", 1, issue);
    ListIssuesAreExact(Get(Get(raw, "scope"), "out"), "scope.out", 0, issue);
    ListIssuesAreExact(Get(Get(raw, "technical_context"), "modules"), "technical_context.modules", 1, issue);
    ListIssuesAreExact(Get(Get(raw, "technical_context"), "constraints"), "technical_context.constraints", 0, issue);
    ListIssuesAreExact(Get(Get(raw, "observability"), "events"), "observability.events", 0, issue);
    ListIssuesAreExact(Get(Get(raw, "observability"), "metrics"), "observability.metrics", 0, issue);
  }

  lemma EntryIssuesAreExact(v: Json, path: string, keys: seq<string>, issue: Issue)
    ensures issue in EntryIssues(v, path, keys) <==> EntryDefect(v, path, keys, issue)
  {
    hide Concat, ExtraDefect, ExtraKeys, IsRecord, IsFilledText, Get;
    InConcat(keys, TextIn(path, v), issue);
    ExtraIssuesAreExact(v, Elems(keys), path + ".", issue);
  }

  lemma RecordIssuesAreExact(v: Json, field: string, keys: seq<string>, issue: Issue)
    ensures issue in RecordIssues(v, field, keys) <==> RecordDefect(v, field, keys, issue)
  {
    hide Concat, EntryIssues, EntryDefect, IsRecordList, Decimal;
    if v.List? {
      var check := EntryAt(v.items, field, keys);
      InConcat(Positions(|v.items|), check, issue);
      forall i: nat | i < |v.items|
        ensures issue in check(i) <==> EntryDefect(v.items[i], PathAt(field, i), keys, issue)
      {
        EntryIssuesAreExact(v.items[i], PathAt(field, i), keys, issue);
        assert PathAt(field, i) == field + "[" + Decimal(i) + "]";
      }
    }
  }

  lemma RequirementIssuesAreExact(v: Json, issue: Issue)
    ensures issue in RequirementIssues(v) <==> RequirementDefect(v, issue)
  {
    hide Concat, ExtraDefect, ExtraKeys, ListIssues, ListDefect, AreRequirements, Get, GetOr, IsTrue;
    ExtraIssuesAreExact(v, Elems(REQUIREMENT_KINDS), "requirements.", issue);
    InConcat(REQUIREMENT_KINDS, KindIssues(v), issue);
    forall kind ensures issue in KindIssues(v)(kind) <==> ListDefect(GetOr(v, kind, List([])), "requirements." + kind, 0, issue) {
      ListIssuesAreExact(GetOr(v, kind, List([])), "requirements." + kind, 0, issue);
    }
  }

  lemma TailIssuesAreExact(raw: Json, issue: Issue)
    ensures issue in TailIssues(raw) <==> TailDefect(raw, issue)
  {
    hide ListIssues, RecordIssues, RequirementIssues, ListDefect, RecordDefect, RequirementDefect, ListsFit, Get, GetOr;
    ListIssuesAreExact(Get(raw, "affected_paths"), "affected_paths", 1, issue);
    RecordIssuesAreExact(Get(raw, "acceptance_criteria"), "acceptance_criteria", CRITERION, issue);
    RecordIssuesAreExact(Get(raw, "test_scenarios"), "test_scenarios", SCENARIO, issue);
    RequirementIssuesAreExact(GetOr(raw, "requirements", Object(map[])), issue);
  }

  /** A defect of a ticket that has all its required fields; sections are looked into once all of them are objects. */
  predicate Defect(raw: Json, rules: TitleRules, issue: Issue) {
    || ExtraDefect(raw, Elems(REQUIRED) + {"requirements"}, "", issue)
    || IdentityDefect(raw, rules, issue)
    || (exists shape :: shape in NESTED && ShapeDefect(raw, shape, issue))
    || (AllObjects(raw) && SectionDefect(raw, issue))
    || TailDefect(raw, issue)
  }

  lemma FindingsAreExact(raw: Json, rules: TitleRules, issue: Issue)
    ensures issue in Findings(raw, rules) <==> Defect(raw, rules, issue)
  {
    hide Concat, ExtraKeys, IdentityIssues, SectionIssues, TailIssues, ShapeIssues, AllObjects;
    hide ExtraDefect, IdentityDefect, ShapeDefect, SectionDefect, TailDefect, IdentityFits, ShapesFit, SectionsFit, ListsFit;
    ExtraIssuesAreExact(raw, Elems(REQUIRED) + {"requirements"}, "", issue);
    IdentityIssuesAreExact(raw, rules, issue);
    InConcat(NESTED, ShapeIssues(raw), issue);
    forall shape ensures issue in ShapeIssues(raw)(shape) <==> ShapeDefect(raw, shape, issue) {
      ShapeIssuesAreExact(raw, shape, issue);
    }
    SectionIssuesAreExact(raw, issue);
    TailIssuesAreExact(raw, issue);
  }

  /** A rejected ticket is reported for its missing fields if it has any, and otherwise for exactly its defects. */
  lemma RejectionsAreExact(raw: Fields, rules: TitleRules, issue: Issue)
    requires Validation(raw, rules).Rejected?
    ensures issue in Validation(raw, rules).issues <==>
      if Elems(REQUIRED) <= raw.Keys then Defect(Object(raw), rules, issue)
      else exists field :: field in REQUIRED && field !in raw && Is(issue, "missing_field", field)
  {
    hide Concat, Findings, Defect, RiskIsUnhashable, Read;
    var v := Object(raw);
    MissingIssuesAreExact(v, REQUIRED, "", issue);
    FindingsAreExact(v, rules, issue);
    assert forall key: string :: "" + key == key;
    assert Concat(REQUIRED, MissingIn("", v)) == [] <==> Elems(REQUIRED) <= raw.Keys;
  }
}
