/** Payloads give validated work items back, and project snapshots identify sets of them. */
module ContractLaws {
  import opened Prelude
  import opened Identity
  import opened Sorting
  import opened Contracts

  function AsText(text: string): Json {
    Text(text)
  }

  function AsObject(fields: Fields): Json {
    Object(fields)
  }

  function TextList(texts: seq<string>): Json {
    List(MapAll(texts, AsText))
  }

  function RecordList(records: seq<Fields>): Json {
    List(MapAll(records, AsObject))
  }

  function OptionalText(text: Option<string>): Json {
    if text.Some? then Text(text.value) else Null
  }

  function Requirements(item: WorkItem): Json {
    Object(map["i18n" := TextList(item.i18n), "privacy" := TextList(item.privacy),
               "factories" := TextList(item.factories), "migration" := TextList(item.migration),
               "schema" := TextList(item.schema)])
  }

  /** The complete ticket contract of a work item. */
  function Payload(item: WorkItem): Fields {
    map["id" := Text(item.id),
        "title" := Text(item.title),
        "problem" := Text(item.description),
        "scope" := Object(map["in" := TextList(item.scopeIn), "out" := TextList(item.scopeOut)]),
        "behavior" := Text(item.behavior),
        "technical_context" := Object(map["summary" := Text(item.summary), "modules" := TextList(item.modules),
                                          "constraints" := TextList(item.constraints)]),
        "affected_paths" := TextList(item.affectedPaths),
        "acceptance_criteria" := RecordList(item.acceptanceCriteria),
        "test_scenarios" := RecordList(item.testScenarios),
        "blocked_by" := TextList(item.blockedBy),
        "estimate_points" := Number(item.estimate),
        "risk" := Object(map["level" := Text(item.riskLevel), "reason" := Text(item.riskReason)]),
        "rollout" := Object(map["strategy" := OptionalText(item.rollout), "kill_switch" := OptionalText(item.killSwitch)]),
        "observability" := Object(map["events" := TextList(item.events), "metrics" := TextList(item.metrics)]),
        "requirements" := Requirements(item),
        "state" := Text(StateName(item.state))]
  }

  // What validated work items look like.

  predicate AllFilled(texts: seq<string>, least: nat) {
    |texts| >= least && forall i :: 0 <= i < |texts| ==> !IsBlank(texts[i])
  }

  predicate AreRecords(records: seq<Fields>, keys: seq<string>) {
    records != [] && forall i :: 0 <= i < |records| ==> IsRecord(Object(records[i]), keys)
  }

  predicate ValidIdentity(item: WorkItem, rules: TitleRules) {
    && IsItemId(item.id) && (forall i :: 0 <= i < |item.blockedBy| ==> IsItemId(item.blockedBy[i])) && Distinct(item.blockedBy)
    && 1 <= item.estimate <= 5
    && |Strip(item.title)| >= 12 && |Strip(item.description)| >= 30 && |Strip(item.behavior)| >= 30
    && rules(Text(item.title)) == []
  }

  predicate ValidSections(item: WorkItem) {
    && AllFilled(item.scopeIn, 1) && AllFilled(item.scopeOut, 0)
    && !IsBlank(item.summary) && AllFilled(item.modules, 1) && AllFilled(item.constraints, 0)
    && item.riskLevel in ["low", "medium", "high"]
    && item.rollout.Some? && item.killSwitch.Some?
    && AllFilled(item.events, 0) && AllFilled(item.metrics, 0)
  }

  predicate ValidLists(item: WorkItem) {
    && AllFilled(item.affectedPaths, 1)
    && AreRecords(item.acceptanceCriteria, CRITERION) && AreRecords(item.testScenarios, SCENARIO)
    && AllFilled(item.i18n, 0) && AllFilled(item.privacy, 0) && AllFilled(item.factories, 0)
    && AllFilled(item.migration, 0) && AllFilled(item.schema, 0)
    && (item.migration != [] <==> item.schema != [])
  }

  predicate IsValid(item: WorkItem, rules: TitleRules) {
    ValidIdentity(item, rules) && ValidSections(item) && ValidLists(item)
  }

  // Lists survive both ways.

  lemma TextListReads(texts: seq<string>, least: nat)
    ensures TextsOf(TextList(texts)) == texts
    ensures IsTextList(TextList(texts), least) <==> AllFilled(texts, least)
    ensures IsTrue(TextList(texts)) <==> texts != []
  {
  }

  lemma BlockersRead(ids: seq<ItemId>)
    ensures IsBlockerList(TextList(ids)) <==> (forall i :: 0 <= i < |ids| ==> IsItemId(ids[i])) && Distinct(ids)
  {
  }

  lemma RecordsRead(records: seq<Fields>, keys: seq<string>)
    ensures RecordsOf(RecordList(records)) == records
    ensures IsRecordList(RecordList(records), keys) <==> AreRecords(records, keys)
  {
  }

  lemma TextListWrites(v: Json, least: nat)
    requires IsTextList(v, least)
    ensures TextList(TextsOf(v)) == v && AllFilled(TextsOf(v), least)
  {
  }

  lemma RecordsWrite(v: Json, keys: seq<string>)
    requires IsRecordList(v, keys)
    ensures RecordList(RecordsOf(v)) == v && AreRecords(RecordsOf(v), keys)
  {
  }

  lemma BlockersWrite(v: Json)
    requires IsBlockerList(v)
    ensures TextList(TextsOf(v)) == v
  {
  }

  // The payload, field by field.

  lemma PayloadTop(item: WorkItem)
    ensures var v := Object(Payload(item));
      && Get(v, "id") == Text(item.id) && Get(v, "title") == Text(item.title)
      && Get(v, "problem") == Text(item.description) && Get(v, "behavior") == Text(item.behavior)
      && Get(v, "blocked_by") == TextList(item.blockedBy) && Get(v, "estimate_points") == Number(item.estimate)
      && Get(v, "state") == Text(StateName(item.state))
      && Get(v, "affected_paths") == TextList(item.affectedPaths)
      && Get(v, "acceptance_criteria") == RecordList(item.acceptanceCriteria)
      && Get(v, "test_scenarios") == RecordList(item.testScenarios)
      && GetOr(v, "requirements", Object(map[])) == Get(v, "requirements") == Requirements(item)
  {
    hide TextList, RecordList, Requirements, StateName;
  }

  lemma PayloadSections(item: WorkItem)
    ensures var v := Object(Payload(item));
      && Get(v, "scope") == Object(map["in" := TextList(item.scopeIn), "out" := TextList(item.scopeOut)])
      && Get(v, "technical_context")
         == Object(map["summary" := Text(item.summary), "modules" := TextList(item.modules),
                       "constraints" := TextList(item.constraints)])
      && Get(v, "risk") == Object(map["level" := Text(item.riskLevel), "reason" := Text(item.riskReason)])
      && Get(v, "rollout")
         == Object(map["strategy" := OptionalText(item.rollout), "kill_switch" := OptionalText(item.killSwitch)])
      && Get(v, "observability") == Object(map["events" := TextList(item.events), "metrics" := TextList(item.metrics)])
  {
    hide TextList, RecordList, Requirements, StateName, OptionalText;
  }

  lemma PayloadKeys(item: WorkItem)
    ensures Payload(item).Keys == Elems(REQUIRED) + {"requirements"}
  {
  }

  lemma IdentityAgrees(item: WorkItem, rules: TitleRules)
    ensures IdentityFits(Object(Payload(item)), rules) <==> ValidIdentity(item, rules)
  {
    hide Payload, TextList, IsBlockerList, IsItemId, Strip, StateName, Get;
    PayloadTop(item);
    BlockersRead(item.blockedBy);
    assert StateNamed(StateName(item.state)) == Some(item.state);
  }

  lemma ShapesAgree(item: WorkItem)
    ensures ShapesFit(Object(Payload(item)))
  {
    hide Payload, TextList, OptionalText, Get;
    PayloadSections(item);
    var v := Object(Payload(item));
    assert HasExactly(Get(v, "scope"), ["in", "out"]);
    assert HasExactly(Get(v, "technical_context"), ["summary", "modules", "constraints"]);
    assert HasExactly(Get(v, "risk"), ["level", "reason"]);
    assert HasExactly(Get(v, "rollout"), ["strategy", "kill_switch"]);
    assert HasExactly(Get(v, "observability"), ["events", "metrics"]);
  }

  lemma SectionsAgree(item: WorkItem)
    ensures SectionsFit(Object(Payload(item))) <==> ValidSections(item)
  {
    hide Payload, TextList, IsTextList, AllFilled, IsBlank;
    PayloadSections(item);
    TextListReads(item.scopeIn, 1);
    TextListReads(item.scopeOut, 0);
    TextListReads(item.modules, 1);
    TextListReads(item.constraints, 0);
    TextListReads(item.events, 0);
    TextListReads(item.metrics, 0);
  }

  lemma RequirementFields(item: WorkItem)
    ensures var r := Requirements(item);
      && HasExactly(r, REQUIREMENT_KINDS)
      && GetOr(r, "i18n", List([])) == TextList(item.i18n) && GetOr(r, "privacy", List([])) == TextList(item.privacy)
      && GetOr(r, "factories", List([])) == TextList(item.factories)
      && GetOr(r, "migration", List([])) == Get(r, "migration") == TextList(item.migration)
      && GetOr(r, "schema", List([])) == Get(r, "schema") == TextList(item.schema)
  {
  }

  lemma RequirementsAgree(item: WorkItem)
    ensures AreRequirements(Requirements(item)) <==>
      && AllFilled(item.i18n, 0) && AllFilled(item.privacy, 0) && AllFilled(item.factories, 0)
      && AllFilled(item.migration, 0) && AllFilled(item.schema, 0)
      && (item.migration != [] <==> item.schema != [])
  {
    hide Requirements, Get, GetOr, TextList, IsTextList, AllFilled, IsTrue;
    RequirementFields(item);
    TextListReads(item.i18n, 0);
    TextListReads(item.privacy, 0);
    TextListReads(item.factories, 0);
    TextListReads(item.migration, 0);
    TextListReads(item.schema, 0);
    var kinds := REQUIREMENT_KINDS;
    assert kinds[0] in kinds && kinds[1] in kinds && kinds[2] in kinds && kinds[3] in kinds && kinds[4] in kinds;
  }

  lemma ListsAgree(item: WorkItem)
    ensures ListsFit(Object(Payload(item))) <==> ValidLists(item)
  {
    hide Payload, TextList, RecordList, IsTextList, IsRecordList, AreRequirements, AllFilled, AreRecords, Requirements;
    hide Get, GetOr;
    PayloadTop(item);
    TextListReads(item.affectedPaths, 1);
    RecordsRead(item.acceptanceCriteria, CRITERION);
    RecordsRead(item.testScenarios, SCENARIO);
    RequirementsAgree(item);
  }

  /** A work item's payload is a well-formed ticket exactly when the item is one the validator can produce. */
  lemma PayloadIsWellFormed(item: WorkItem, rules: TitleRules)
    ensures WellFormed(Payload(item), rules) <==> IsValid(item, rules)
  {
    hide Payload, IdentityFits, ShapesFit, SectionsFit, ListsFit, ValidIdentity, ValidSections, ValidLists;
    PayloadKeys(item);
    IdentityAgrees(item, rules);
    ShapesAgree(item);
    SectionsAgree(item);
    ListsAgree(item);
  }

  lemma RequirementsRead(item: WorkItem)
    ensures var r := Requirements(item);
      && TextsOf(Get(r, "i18n")) == item.i18n && TextsOf(Get(r, "privacy")) == item.privacy
      && TextsOf(Get(r, "factories")) == item.factories && TextsOf(Get(r, "migration")) == item.migration
      && TextsOf(Get(r, "schema")) == item.schema
  {
  }

  lemma SectionsRead(item: WorkItem)
    requires item.rollout.Some? && item.killSwitch.Some?
    ensures var v := Object(Payload(item));
      && TextsOf(Get(Get(v, "scope"), "in")) == item.scopeIn && TextsOf(Get(Get(v, "scope"), "out")) == item.scopeOut
      && TextOf(Get(Get(v, "technical_context"), "summary")) == item.summary
      && TextsOf(Get(Get(v, "technical_context"), "modules")) == item.modules
      && TextsOf(Get(Get(v, "technical_context"), "constraints")) == item.constraints
      && TextOf(Get(Get(v, "risk"), "level")) == item.riskLevel && TextOf(Get(Get(v, "risk"), "reason")) == item.riskReason
      && Some(TextOf(Get(Get(v, "rollout"), "strategy"))) == item.rollout
      && Some(TextOf(Get(Get(v, "rollout"), "kill_switch"))) == item.killSwitch
      && TextsOf(Get(Get(v, "observability"), "events")) == item.events
      && TextsOf(Get(Get(v, "observability"), "metrics")) == item.metrics
  {
    hide Payload, TextList, TextsOf;
    PayloadSections(item);
    TextListReads(item.scopeIn, 1);
    TextListReads(item.scopeOut, 0);
    TextListReads(item.modules, 1);
    TextListReads(item.constraints, 0);
    TextListReads(item.events, 0);
    TextListReads(item.metrics, 0);
  }

  /** Reading a payload gives the work item back. */
  lemma PayloadReadsBack(item: WorkItem)
    requires item.rollout.Some? && item.killSwitch.Some?
    ensures Read(Object(Payload(item))) == item
  {
    hide Payload, TextList, RecordList, Requirements, TextsOf, RecordsOf, Get, StateName;
    PayloadTop(item);
    SectionsRead(item);
    RequirementsRead(item);
    TextListReads(item.blockedBy, 0);
    TextListReads(item.affectedPaths, 1);
    RecordsRead(item.acceptanceCriteria, CRITERION);
    RecordsRead(item.testScenarios, SCENARIO);
    assert StateNamed(StateName(item.state)) == Some(item.state);
  }

  lemma ReadIdentity(raw: Json, rules: TitleRules)
    requires IdentityFits(raw, rules)
    ensures ValidIdentity(Read(raw), rules)
  {
    hide IsItemId, Strip, RecordsOf;
    BlockersWrite(Get(raw, "blocked_by"));
    BlockersRead(TextsOf(Get(raw, "blocked_by")));
  }

  lemma ReadSections(raw: Json)
    requires SectionsFit(raw)
    ensures ValidSections(Read(raw))
  {
    hide IsTextList, AllFilled, RecordsOf, TextsOf, StateNamed;
    TextListWrites(Get(Get(raw, "scope"), "in"), 1);
    TextListWrites(Get(Get(raw, "scope"), "out"), 0);
    TextListWrites(Get(Get(raw, "technical_context"), "modules"), 1);
    TextListWrites(Get(Get(raw, "technical_context"), "constraints"), 0);
    TextListWrites(Get(Get(raw, "observability"), "events"), 0);
    TextListWrites(Get(Get(raw, "observability"), "metrics"), 0);
  }

  lemma KindReads(v: Json, kind: string)
    requires AreRequirements(v) && kind in REQUIREMENT_KINDS
    ensures AllFilled(TextsOf(Get(v, kind)), 0)
    ensures TextsOf(Get(v, kind)) != [] <==> IsTrue(Get(v, kind))
  {
  }

  lemma AbsentKindsAreEmpty(raw: Json, kind: string)
    ensures var v := GetOr(raw, "requirements", Object(map[]));
      v.Object? ==> TextsOf(Get(Get(raw, "requirements"), kind)) == TextsOf(Get(v, kind))
  {
  }

  lemma ReadRequirements(raw: Json)
    requires AreRequirements(GetOr(raw, "requirements", Object(map[])))
    ensures var item := Read(raw);
      && AllFilled(item.i18n, 0) && AllFilled(item.privacy, 0) && AllFilled(item.factories, 0)
      && AllFilled(item.migration, 0) && AllFilled(item.schema, 0)
      && (item.migration != [] <==> item.schema != [])
  {
    hide AllFilled, TextsOf, RecordsOf, StateNamed, IsTextList, IsTrue;
    var v := GetOr(raw, "requirements", Object(map[]));
    var kinds := REQUIREMENT_KINDS;
    assert kinds[0] in kinds && kinds[1] in kinds && kinds[2] in kinds && kinds[3] in kinds && kinds[4] in kinds;
    forall kind | kind in kinds
      ensures AllFilled(TextsOf(Get(Get(raw, "requirements"), kind)), 0)
      ensures TextsOf(Get(Get(raw, "requirements"), kind)) != [] <==> IsTrue(Get(v, kind))
    {
      KindReads(v, kind);
      AbsentKindsAreEmpty(raw, kind);
    }
  }

  lemma ReadLists(raw: Json)
    requires ListsFit(raw)
    ensures ValidLists(Read(raw))
  {
    hide AllFilled, AreRecords, IsTextList, IsRecordList, AreRequirements, TextsOf, RecordsOf, StateNamed, GetOr;
    TextListWrites(Get(raw, "affected_paths"), 1);
    RecordsWrite(Get(raw, "acceptance_criteria"), CRITERION);
    RecordsWrite(Get(raw, "test_scenarios"), SCENARIO);
    ReadRequirements(raw);
  }

  /** Every accepted ticket reads as a valid work item. */
  lemma ReadIsValid(raw: Fields, rules: TitleRules)
    requires WellFormed(raw, rules)
    ensures IsValid(Read(Object(raw)), rules)
  {
    hide IdentityFits, SectionsFit, ListsFit, ValidIdentity, ValidSections, ValidLists, Read, ShapesFit;
    ReadIdentity(Object(raw), rules);
    ReadSections(Object(raw));
    ReadLists(Object(raw));
  }

  lemma ValidHasRollout(item: WorkItem, rules: TitleRules)
    requires IsValid(item, rules)
    ensures item.rollout.Some? && item.killSwitch.Some?
  {
  }

  /** Validating the payload of any accepted work item accepts the same work item again. */
  lemma WorkItemsAreCanonical(raw: Fields, rules: TitleRules)
    requires Validation(raw, rules).Accepted?
    ensures Validation(Payload(Validation(raw, rules).item), rules) == Validation(raw, rules)
  {
    hide Validation, WellFormed, Read, Payload, IsValid;
    var item := Validation(raw, rules).item;
    ValidationIsExact(raw, rules);
    ReadIsValid(raw, rules);
    PayloadIsWellFormed(item, rules);
    ValidationIsExact(Payload(item), rules);
    ValidHasRollout(item, rules);
    PayloadReadsBack(item);
  }

  /** The valid work items are exactly those the validator produces. */
  lemma ValidItemsAreTheAccepted(item: WorkItem, rules: TitleRules)
    ensures IsValid(item, rules) <==> exists raw :: Validation(raw, rules) == Accepted(item)
  {
    hide Validation, WellFormed, Read, Payload, IsValid;
    if IsValid(item, rules) {
      PayloadIsWellFormed(item, rules);
      ValidationIsExact(Payload(item), rules);
      ValidHasRollout(item, rules);
      PayloadReadsBack(item);
    }
    forall raw | Validation(raw, rules) == Accepted(item) ensures IsValid(item, rules) {
      ValidationIsExact(raw, rules);
      ReadIsValid(raw, rules);
    }
  }

  // Project snapshots.

  function IdOf(item: WorkItem): string {
    item.id
  }

  function PayloadObject(item: WorkItem): Json {
    Object(Payload(item))
  }

  /** The canonical input identity: payloads in the order of their ids. */
  function SnapshotPayload(items: seq<WorkItem>): Json {
    Object(map["work_items" := List(MapAll(SortBy(items, IdOf), PayloadObject))])
  }

  predicate AllValid(items: seq<WorkItem>, rules: TitleRules) {
    forall i :: 0 <= i < |items| ==> IsValid(items[i], rules)
  }

  lemma PayloadsIdentify(a: seq<WorkItem>, b: seq<WorkItem>, rules: TitleRules)
    requires AllValid(a, rules) && AllValid(b, rules)
    ensures MapAll(a, PayloadObject) == MapAll(b, PayloadObject) <==> a == b
  {
    hide Payload, IsValid, Read;
    var u, v := MapAll(a, PayloadObject), MapAll(b, PayloadObject);
    if u == v {
      forall i | 0 <= i < |a| ensures a[i] == b[i] {
        assert u[i] == v[i];
        ValidHasRollout(a[i], rules);
        ValidHasRollout(b[i], rules);
        PayloadReadsBack(a[i]);
        PayloadReadsBack(b[i]);
      }
    }
  }

  lemma SortedStayValid(items: seq<WorkItem>, rules: TitleRules)
    requires AllValid(items, rules)
    ensures AllValid(SortBy(items, IdOf), rules)
  {
    hide IsValid, SortBy;
    SortSorts(items, IdOf);
    var sorted := SortBy(items, IdOf);
    forall i | 0 <= i < |sorted| ensures IsValid(sorted[i], rules) {
      assert sorted[i] in multiset(items);
    }
  }

  /** Two projects have the same snapshot exactly when they are the same work items, in whatever order. */
  lemma SnapshotsIdentifyProjects(a: seq<WorkItem>, b: seq<WorkItem>, rules: TitleRules)
    requires AllValid(a, rules) && AllValid(b, rules) && DistinctKeys(a, IdOf)
    ensures SnapshotPayload(a) == SnapshotPayload(b) <==> multiset(a) == multiset(b)
  {
    hide IsValid, SortBy, MapAll, Payload;
    SortForgetsOrder(a, b, IdOf);
    SortedStayValid(a, rules);
    SortedStayValid(b, rules);
    PayloadsIdentify(SortBy(a, IdOf), SortBy(b, IdOf), rules);
    var u, v := MapAll(SortBy(a, IdOf), PayloadObject), MapAll(SortBy(b, IdOf), PayloadObject);
    assert map["work_items" := List(u)]["work_items"] == List(u);
    assert map["work_items" := List(v)]["work_items"] == List(v);
  }

  /** For any work items with distinct ids the snapshot does not depend on the order they are listed in. */
  lemma SnapshotForgetsOrder(a: seq<WorkItem>, b: seq<WorkItem>)
    requires DistinctKeys(a, IdOf) && multiset(a) == multiset(b)
    ensures SnapshotPayload(a) == SnapshotPayload(b)
  {
    hide Payload;
    SortForgetsOrder(a, b, IdOf);
  }
}
