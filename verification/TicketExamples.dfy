/** A raw ticket, the work item it is accepted as, and a defect that is all it takes to reject it. */
module TicketExamples {
  import opened Prelude
  import opened Identity
  import opened Contracts
  import opened ContractLaws

  const NO_RULES: TitleRules := _ => []

  const CRITERIA: Fields := map["id" := Text("AC-1"), "criterion" := Text("the payment is retried")]
  const RETRYING: Fields := map["id" := Text("T-1"), "given" := Text("a failed payment"), "when" := Text("retry is pressed"),
                                "then" := Text("it is retried")]

  const TICKET: Fields := map[
    "id" := Text("PAY-101"),
    "title" := Text(" Add a retry button\n"),
    "problem" := Text("Failed payments are never retried"),
    "scope" := Object(map["in" := List([Text("the button")]), "out" := List([Text("refunds")])]),
    "behavior" := Text("A button retries a failed payment"),
    "technical_context" := Object(map["summary" := Text("checkout is one page"), "modules" := List([Text("checkout")]),
                                      "constraints" := List([Text("no new service")])]),
    "affected_paths" := List([Text("src/checkout")]),
    "acceptance_criteria" := List([Object(CRITERIA)]),
    "test_scenarios" := List([Object(RETRYING)]),
    "blocked_by" := List([Text("PAY-7")]),
    "estimate_points" := Number(2),
    "risk" := Object(map["level" := Text("low"), "reason" := Text("additive")]),
    "rollout" := Object(map["strategy" := Text("flag"), "kill_switch" := Text("flag off")]),
    "observability" := Object(map["events" := List([Text("retried")]), "metrics" := List([Text("retries")])]),
    "requirements" := Object(map["i18n" := List([Text("label")]), "privacy" := List([Text("none logged")]),
                                 "factories" := List([Text("payment")]), "migration" := List([Text("retry count")]),
                                 "schema" := List([Text("payments")])]),
    "state" := Text("Ready")]

  const ITEM := WorkItem(
    "PAY-101", ["PAY-7"], " Add a retry button\n", "Failed payments are never retried",
    "A button retries a failed payment", "checkout is one page", ["checkout"], ["no new service"],
    ["the button"], ["refunds"], [CRITERIA], [RETRYING], ["src/checkout"], 2, "low", "additive", Some("flag"), Some("flag off"),
    ["retried"], ["retries"], ["label"], ["none logged"], ["payment"], ["retry count"], ["payments"], Ready)

  lemma ExampleIds()
    ensures IsItemId("PAY-101") && IsItemId("PAY-7")
  {
    assert "PAY-101"[3] == '-' && IsProjectKey("PAY-101"[1..3]) && AllDigits("PAY-101"[4..]);
    assert "PAY-7"[3] == '-' && IsProjectKey("PAY-7"[1..3]) && AllDigits("PAY-7"[4..]);
  }

  lemma KeepsEnds(text: string)
    requires text != "" && !IsSpace(text[0]) && !IsSpace(text[|text| - 1])
    ensures Strip(text) == text
  {
  }

  lemma IsFilled(text: string)
    requires text != "" && !IsSpace(text[0])
    ensures AllFilled([text], 1) && AllFilled([text], 0) && IsFilledText(Text(text))
  {
  }

  /** White space around a title does not count. */
  lemma ExampleTitle()
    ensures Strip(ITEM.title) == "Add a retry button"
  {
    hide Strip;
    var text := "Add a retry button";
    assert ITEM.title == [' '] + (text + ['\n']);
    KeepsEnds(text);
    DropsEnds(text);
  }

  lemma DropsEnds(text: string)
    requires text != "" && !IsSpace(text[0])
    ensures Strip([' '] + (text + ['\n'])) == Strip(text)
  {
    var more := text + ['\n'];
    assert ([' '] + more)[1..] == more && more[..|more| - 1] == text;
  }

  lemma OneText(text: string)
    ensures TextList([text]) == List([Text(text)])
  {
  }

  lemma OneRecord(record: Fields)
    ensures RecordList([record]) == List([Object(record)])
  {
  }

  lemma ExampleSpells()
    ensures Payload(ITEM) == TICKET
  {
    hide TextList, RecordList;
    OneText("the button");
    OneText("refunds");
    OneText("checkout");
    OneText("no new service");
    OneText("src/checkout");
    OneRecord(CRITERIA);
    OneRecord(RETRYING);
    OneText("PAY-7");
    OneText("retried");
    OneText("retries");
    ExampleRequirements();
  }

  lemma ExampleRequirements()
    ensures Requirements(ITEM)
            == Object(map["i18n" := List([Text("label")]), "privacy" := List([Text("none logged")]),
                          "factories" := List([Text("payment")]), "migration" := List([Text("retry count")]),
                          "schema" := List([Text("payments")])])
  {
    hide TextList;
    OneText("label");
    OneText("none logged");
    OneText("payment");
    OneText("retry count");
    OneText("payments");
  }

  lemma ExampleIdentity()
    ensures ValidIdentity(ITEM, NO_RULES)
  {
    hide Strip, IsItemId;
    ExampleIds();
    ExampleTitle();
    ProblemStays();
    BehaviorStays();
  }

  lemma ProblemStays()
    ensures Strip("Failed payments are never retried") == "Failed payments are never retried"
  {
    hide Strip;
    KeepsEnds("Failed payments are never retried");
  }

  lemma BehaviorStays()
    ensures Strip("A button retries a failed payment") == "A button retries a failed payment"
  {
    hide Strip;
    KeepsEnds("A button retries a failed payment");
  }

  lemma ExampleRecords()
    ensures AreRecords([CRITERIA], CRITERION) && AreRecords([RETRYING], SCENARIO)
  {
    hide IsFilledText;
    IsFilled("AC-1");
    IsFilled("the payment is retried");
    IsFilled("T-1");
    IsFilled("a failed payment");
    IsFilled("retry is pressed");
    IsFilled("it is retried");
    assert CRITERIA.Keys == {"id", "criterion"} == Elems(CRITERION);
    assert RETRYING.Keys == {"id", "given", "when", "then"} == Elems(SCENARIO);
  }

  lemma ExampleLists()
    ensures ValidSections(ITEM) && ValidLists(ITEM)
  {
    hide AllFilled, IsFilledText, AreRecords, IsBlank;
    ExampleRecords();
    ExampleSections();
    IsFilled("src/checkout");
    IsFilled("label");
    IsFilled("none logged");
    IsFilled("payment");
    IsFilled("retry count");
    IsFilled("payments");
  }

  lemma ExampleSections()
    ensures ValidSections(ITEM)
  {
    hide AllFilled, IsBlank;
    IsFilled("the button");
    IsFilled("refunds");
    IsFilled("checkout is one page");
    IsFilled("checkout");
    IsFilled("no new service");
    IsFilled("retried");
    IsFilled("retries");
  }

  /** This raw ticket is accepted, as the work item it spells. */
  lemma ExampleIsAccepted()
    ensures Validation(TICKET, NO_RULES) == Accepted(ITEM)
  {
    hide Validation, WellFormed, Payload, Read, ValidIdentity, ValidSections, ValidLists;
    ExampleSpells();
    ExampleIdentity();
    ExampleLists();
    PayloadIsWellFormed(ITEM, NO_RULES);
    ValidationIsExact(Payload(ITEM), NO_RULES);
    PayloadReadsBack(ITEM);
  }

  const SHORT := ITEM.(title := " Add retries\n")

  lemma ShortTitle()
    ensures |Strip(SHORT.title)| == 11
  {
    hide Strip;
    var text := "Add retries";
    assert SHORT.title == [' '] + (text + ['\n']);
    KeepsEnds(text);
    DropsEnds(text);
  }

  lemma ShortIdentity()
    ensures IdentityIssues(Object(Payload(SHORT)), NO_RULES) == [Issue("text_too_short", "title")]
  {
    hide Payload, TextList, IsBlockerList, IsItemId, Strip, StateName, Get, BlockerIssues, IdentityFits;
    PayloadTop(SHORT);
    ExampleIds();
    BlockersRead(SHORT.blockedBy);
    ShortTitle();
    ProblemStays();
    BehaviorStays();
    assert StateNamed(StateName(SHORT.state)) == Some(SHORT.state);
  }

  lemma ShortFits()
    ensures var v := Object(Payload(SHORT)); ShapesFit(v) && SectionsFit(v) && ListsFit(v)
  {
    hide Payload, ShapesFit, SectionsFit, ListsFit, AllFilled, IsBlank, AreRecords;
    ExampleLists();
    ShapesAgree(SHORT);
    SectionsAgree(SHORT);
    ListsAgree(SHORT);
  }

  lemma ShortFindings()
    ensures Findings(Object(Payload(SHORT)), NO_RULES) == [Issue("text_too_short", "title")]
  {
    hide Concat, Payload, ExtraKeys, IdentityIssues, ShapeIssues, SectionIssues, TailIssues, ShapesFit, SectionsFit, ListsFit, Get;
    var v := Object(Payload(SHORT));
    PayloadKeys(SHORT);
    ShortIdentity();
    ShortFits();
    ShapesAreClean(v);
    assert Concat(ExtraKeys(v, Elems(REQUIRED) + {"requirements"}), Unknown("")) == [];
  }

  lemma ShortIsComplete()
    ensures var v := Object(Payload(SHORT)); Concat(REQUIRED, MissingIn("", v)) == [] && !RiskIsUnhashable(v)
  {
    hide Concat, Payload;
    var v := Object(Payload(SHORT));
    PayloadKeys(SHORT);
    PayloadSections(SHORT);
    assert Elems(REQUIRED) <= v.fields.Keys;
    assert forall key :: key in REQUIRED ==> key in Elems(REQUIRED);
  }

  /** A title that is long enough only with the white space around it is rejected, and for nothing else. */
  lemma ShortTitleIsRejected()
    ensures Validation(Payload(SHORT), NO_RULES) == Rejected([Issue("text_too_short", "title")])
  {
    hide Concat, Payload, Findings, RiskIsUnhashable;
    ShortFindings();
    ShortIsComplete();
  }
}
