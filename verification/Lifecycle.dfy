/** The lifecycle router and the sequential stage runner built on it. */
module Lifecycles {
  import opened Prelude

  datatype RunCondition =
    | Always
    | AfterPrevious
    | OnFailure
    | AfterImplementation
    | AfterVerify
    | AfterReview
    | AfterRelease

  datatype Stage = Stage(id: string, skills: seq<string>, mode: string, runIf: RunCondition)

  datatype Status = Completed | Blocked | Failed | NeedsInput | Skipped

  datatype StageResult = StageResult(stage: string, status: Status)

  datatype Act = Run | Skip | Block

  /** A decision about the stage at an index, with the skill selected for it. */
  datatype Decision = Decision(act: Act, index: nat, skill: string)

  datatype RouterData = RouterData(stages: seq<Stage>, selected: map<string, string>)

  /** Skills are selected for known stages, among the skills of the stage. */
  predicate SelectionFits(stages: seq<Stage>, selected: map<string, string>) {
    forall id :: id in selected ==> exists i :: 0 <= i < |stages| && stages[i].id == id && selected[id] in stages[i].skills
  }

  predicate IsRouter(r: RouterData) {
    && r.stages != []
    && (forall i :: 0 <= i < |r.stages| ==> r.stages[i].skills != [])
    && SelectionFits(r.stages, r.selected)
    && forall i, j :: 0 <= i < j < |r.stages| ==> r.stages[i].id != r.stages[j].id
  }

  type Router = r: RouterData | IsRouter(r)
    witness RouterData([Stage("intake", ["intake"], "read-only", Always)], map[])

  predicate IsFailure(status: Status) {
    status.Blocked? || status.Failed? || status.NeedsInput?
  }

  /** The stages that need no further run: completed, reported as skipped, or skipped by the router. */
  function Known(results: seq<StageResult>, skipped: set<string>): set<string> {
    (set r | r in results && (r.status.Completed? || r.status.Skipped?) :: r.stage) + skipped
  }

  function LastResult(results: seq<StageResult>, stage: string): Option<Status> {
    if results == [] then None
    else
      var last := results[|results| - 1];
      if last.stage == stage then Some(last.status) else LastResult(results[..|results| - 1], stage)
  }

  function RequiredStage(condition: RunCondition): Option<string> {
    match condition
    case AfterImplementation => Some("implement-test")
    case AfterVerify => Some("verify")
    case AfterReview => Some("review")
    case AfterRelease => Some("release")
    case _ => None
  }

  function SelectedSkill(r: Router, i: nat): string
    requires i < |r.stages|
  {
    var stage := r.stages[i];
    if stage.id in r.selected then r.selected[stage.id] else stage.skills[0]
  }

  /** What the router says about one stage; none when it moves on to the next. */
  function Judgement(r: Router, results: seq<StageResult>, skipped: set<string>, failure: bool, i: nat): Option<Act>
    requires i < |r.stages|
  {
    var stage, known := r.stages[i], Known(results, skipped);
    var existing := LastResult(results, stage.id);
    if stage.id in known then None
    else if existing.Some? && existing.value != Completed then
      if failure && stage.runIf != OnFailure then None else Some(Block)
    else if stage.runIf == OnFailure then Some(if failure then Run else Skip)
    else if stage.runIf == AfterPrevious && i > 0 && r.stages[i - 1].id !in known then Some(Block)
    else if RequiredStage(stage.runIf).Some? && RequiredStage(stage.runIf).value !in known then Some(Block)
    else Some(Run)
  }

  function NextFrom(r: Router, results: seq<StageResult>, skipped: set<string>, failure: bool, i: nat): (d: Option<Decision>)
    requires i <= |r.stages|
    ensures d.Some? ==> i <= d.value.index < |r.stages|
    decreases |r.stages| - i
  {
    if i == |r.stages| then None
    else
      match Judgement(r, results, skipped, failure, i)
      case Some(act) => Some(Decision(act, i, SelectedSkill(r, i)))
      case None => NextFrom(r, results, skipped, failure, i + 1)
  }

  function Next(r: Router, results: seq<StageResult>, skipped: set<string>, failure: bool): Option<Decision> {
    NextFrom(r, results, skipped, failure, 0)
  }

  // The session.

  datatype Visit = Started(index: nat) | PassedOver(index: nat)

  datatype Session = Session(
    results: seq<StageResult>,
    skipped: set<string>,
    current: nat,
    exit: Option<int>,
    visits: seq<Visit>)

  /** Starting needs a first decision to run; then its stage is started. */
  function StartSession(r: Router): Option<Session> {
    match Next(r, [], {}, false)
    case Some(Decision(Run, i, _)) => Some(Session([], {}, i, None, [Started(i)]))
    case _ => None
  }

  function Unskipped(r: Router, skipped: set<string>): set<nat> {
    set i: nat | i < |r.stages| && r.stages[i].id !in skipped
  }

  lemma SkipShrinks(r: Router, results: seq<StageResult>, skipped: set<string>, failure: bool)
    requires Next(r, results, skipped, failure).Some?
    requires Next(r, results, skipped, failure).value.act == Skip
    ensures var i := Next(r, results, skipped, failure).value.index;
      Unskipped(r, skipped + {r.stages[i].id}) < Unskipped(r, skipped)
  {
    NextJudges(r, results, skipped, failure, 0);
    var i := Next(r, results, skipped, failure).value.index;
    assert i in Unskipped(r, skipped);
  }

  lemma {:induction false} NextJudges(r: Router, results: seq<StageResult>, skipped: set<string>, failure: bool, i: nat)
    requires i <= |r.stages|
    ensures match NextFrom(r, results, skipped, failure, i)
      case Some(d) =>
        && Judgement(r, results, skipped, failure, d.index) == Some(d.act) && d.skill == SelectedSkill(r, d.index)
        && forall j :: i <= j < d.index ==> Judgement(r, results, skipped, failure, j).None?
      case None => forall j :: i <= j < |r.stages| ==> Judgement(r, results, skipped, failure, j).None?
    decreases |r.stages| - i
  {
    if i < |r.stages| {
      NextJudges(r, results, skipped, failure, i + 1);
    }
  }

  /** Skips are taken one after another, each with a fresh decision, before the session starts or ends. */
  function Settle(r: Router, s: Session, d: Option<Decision>, startsOk: bool): Session
    requires d.Some? ==> d.value.index < |r.stages|
    requires d.Some? && d.value.act == Skip ==> r.stages[d.value.index].id !in s.skipped
    decreases Unskipped(r, s.skipped)
  {
    match d
    case None => s.(exit := Some(0))
    case Some(Decision(Block, i, _)) => s.(exit := Some(1))
    case Some(Decision(Run, i, _)) =>
      if startsOk then s.(current := i, visits := s.visits + [Started(i)]) else s.(exit := Some(1))
    case Some(Decision(Skip, i, _)) =>
      var t := s.(skipped := s.skipped + {r.stages[i].id}, visits := s.visits + [PassedOver(i)]);
      assert i in Unskipped(r, s.skipped) && i !in Unskipped(r, t.skipped);
      NextJudges(r, t.results, t.skipped, false, 0);
      Settle(r, t, Next(r, t.results, t.skipped, false), startsOk)
  }

  /** A stage ended cleanly with a result; `startsOk` is whether the next stage could be started. */
  function AfterStage(r: Router, s: Session, status: Status, startsOk: bool): Session
    requires s.current < |r.stages|
  {
    var t := s.(results := s.results + [StageResult(r.stages[s.current].id, status)]);
    NextJudges(r, t.results, t.skipped, IsFailure(status), 0);
    Settle(r, t, Next(r, t.results, t.skipped, IsFailure(status)), startsOk)
  }

  /** How one stage of the delegate ended, as far as the session is concerned. */
  datatype Outcome =
    | Reported(status: Status, startsOk: bool)
    | Broken(code: int)

  function AfterOutcome(r: Router, s: Session, o: Outcome): Session
    requires s.current < |r.stages|
  {
    match o
    case Reported(status, startsOk) => AfterStage(r, s, status, startsOk)
    case Broken(code) => s.(exit := Some(code))
  }

  // The runner.

  datatype InnerEvent =
    | GoodResult(status: Status)
    | BadResult
    | Exited(code: Option<int>)
    | Other

  /** What the delegate streams for one stage, and whether it raises at the end. */
  datatype InnerStream = InnerStream(events: seq<InnerEvent>, raises: bool)

  predicate IsClean(code: Option<int>) {
    code == None || code == Some(0)
  }

  /** The exit event of a stage, given the last good result before it. */
  function ExitOutcome(result: Option<Status>, code: Option<int>, startsOk: bool): Outcome {
    if !IsClean(code) then Broken(code.value)
    else if result.None? then Broken(1)
    else Reported(result.value, startsOk)
  }

  /** How a stage ends: its first bad result or exit decides; running dry counts as a clean exit. */
  function StreamOutcome(stream: InnerStream, result: Option<Status>, startsOk: bool, i: nat): Outcome
    requires i <= |stream.events|
    decreases |stream.events| - i
  {
    if i == |stream.events| then
      if stream.raises then Broken(1) else ExitOutcome(result, Some(0), startsOk)
    else
      match stream.events[i]
      case BadResult => Broken(1)
      case GoodResult(status) => StreamOutcome(stream, Some(status), startsOk, i + 1)
      case Exited(code) => ExitOutcome(result, code, startsOk)
      case Other => StreamOutcome(stream, result, startsOk, i + 1)
  }

  /** The delegate: what the n-th inner run streams, and whether the run after it can be started. */
  datatype Delegate = Delegate(streams: nat -> InnerStream, starts: nat -> bool)

  class LifecycleSession {
    const router: Router
    var results: seq<StageResult>
    var skipped: set<string>
    var current: nat
    var exit: Option<int>
    ghost var visits: seq<Visit>

    ghost predicate Valid()
      reads this
    {
      current < |router.stages|
    }

    ghost function State(): Session
      reads this
    {
      Session(results, skipped, current, exit, visits)
    }

    constructor (router: Router, first: nat)
      requires StartSession(router) == Some(Session([], {}, first, None, [Started(first)]))
      ensures Valid() && this.router == router && StartSession(router) == Some(State())
    {
      this.router := router;
      results, skipped, current, exit, visits := [], {}, first, None, [Started(first)];
      assert Next(router, [], {}, false).value.index == first;
    }

    /** Records the result and moves on; the skip loop ends because every skip shrinks what is left. */
    method AdvanceAfterStage(status: Status, startsOk: bool)
      requires Valid()
      modifies this
      ensures Valid() && State() == AfterStage(router, old(State()), status, startsOk)
    {
      results := results + [StageResult(router.stages[current].id, status)];
      NextJudges(router, results, skipped, IsFailure(status), 0);
      var decision := Next(router, results, skipped, IsFailure(status));
      while decision.Some? && decision.value.act == Skip
        invariant Valid()
        invariant decision.Some? ==> decision.value.index < |router.stages|
        invariant decision.Some? && decision.value.act == Skip ==> router.stages[decision.value.index].id !in skipped
        invariant Settle(router, State(), decision, startsOk) == AfterStage(router, old(State()), status, startsOk)
        decreases Unskipped(router, skipped)
      {
        var index := decision.value.index;
        assert index in Unskipped(router, skipped);
        skipped := skipped + {router.stages[index].id};
        visits := visits + [PassedOver(index)];
        NextJudges(router, results, skipped, false, 0);
        decision := Next(router, results, skipped, false);
      }
      if decision.None? {
        exit := Some(0);
      } else if decision.value.act != Run || !startsOk {
        exit := Some(1);
      } else {
        current := decision.value.index;
        visits := visits + [Started(current)];
      }
    }

    /** One pass of the stream loop: reads the current stage to its end and advances. */
    method RunStage(stream: InnerStream, startsOk: bool)
      requires Valid() && exit.None?
      modifies this
      ensures Valid()
      ensures State() == AfterOutcome(router, old(State()), StreamOutcome(stream, None, startsOk, 0))
    {
      var result: Option<Status> := None;
      for i := 0 to |stream.events|
        invariant Valid() && State() == old(State())
        invariant StreamOutcome(stream, result, startsOk, i) == StreamOutcome(stream, None, startsOk, 0)
      {
        match stream.events[i]
        case BadResult =>
          exit := Some(1);
          return;
        case GoodResult(status) => result := Some(status);
        case Exited(code) =>
          if !IsClean(code) {
            exit := code;
          } else if result.None? {
            exit := Some(1);
          } else {
            AdvanceAfterStage(result.value, startsOk);
          }
          return;
        case Other =>
      }
      if stream.raises || result.None? {
        exit := Some(1);
      } else {
        AdvanceAfterStage(result.value, startsOk);
      }
    }
  }
}
