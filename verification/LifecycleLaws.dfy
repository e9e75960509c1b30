/** Lifecycle runs are monotone and bounded, and the default pipeline runs its stages in order. */
module LifecycleLaws {
  import opened Prelude
  import opened Lifecycles

  /** A stage the router will never run again: known, or carrying a result of its own. */
  ghost predicate Settled(r: Router, s: Session, i: nat)
    requires i < |r.stages|
  {
    r.stages[i].id in Known(s.results, s.skipped) || LastResult(s.results, r.stages[i].id).Some?
  }

  ghost predicate SettledBelow(r: Router, s: Session, k: nat) {
    forall j :: 0 <= j < k && j < |r.stages| ==> Settled(r, s, j)
  }

  predicate Rising(visits: seq<Visit>) {
    forall i, j :: 0 <= i < j < |visits| ==> visits[i].index < visits[j].index
  }

  ghost predicate Progress(r: Router, s: Session) {
    && s.current < |r.stages|
    && s.visits != [] && Rising(s.visits)
    && (forall i :: 0 <= i < |s.visits| ==> s.visits[i].index < |r.stages|)
    && (s.exit.None? ==> s.visits[|s.visits| - 1] == Started(s.current) && SettledBelow(r, s, s.current))
  }

  lemma {:induction false} CompletedIsKnown(results: seq<StageResult>, skipped: set<string>, stage: string)
    ensures LastResult(results, stage) == Some(Completed) ==> stage in Known(results, skipped)
  {
    if results != [] {
      var init, last := results[..|results| - 1], results[|results| - 1];
      CompletedIsKnown(init, skipped, stage);
      assert Known(init, skipped) <= Known(results, skipped);
      assert last in results;
    }
  }

  /** A stage the router runs or skips has no history, and every stage before it is settled. */
  lemma DecisionIsFresh(r: Router, s: Session, failure: bool)
    ensures var d := Next(r, s.results, s.skipped, failure);
      d.Some? && d.value.act != Block ==> !Settled(r, s, d.value.index) && SettledBelow(r, s, d.value.index)
  {
    NextJudges(r, s.results, s.skipped, failure, 0);
    var d := Next(r, s.results, s.skipped, failure);
    if d.Some? {
      CompletedIsKnown(s.results, s.skipped, r.stages[d.value.index].id);
      forall j | 0 <= j < d.value.index ensures Settled(r, s, j) {
        assert Judgement(r, s.results, s.skipped, failure, j).None?;
      }
    }
  }

  lemma SkippingSettles(r: Router, s: Session, i: nat)
    requires i < |r.stages|
    ensures var t := s.(skipped := s.skipped + {r.stages[i].id}, visits := s.visits + [PassedOver(i)]);
      Settled(r, t, i) && forall j :: 0 <= j < |r.stages| && Settled(r, s, j) ==> Settled(r, t, j)
  {
  }

  /** Taking skips and then a start visits only later stages. */
  lemma {:induction false} SettleRises(r: Router, s: Session, failure: bool, startsOk: bool)
    requires s.current < |r.stages| && s.exit.None? && Rising(s.visits) && s.visits != []
    requires forall i :: 0 <= i < |s.visits| ==> s.visits[i].index < |r.stages| && Settled(r, s, s.visits[i].index)
    requires forall i :: 0 <= i < |s.visits| ==> s.visits[i].index <= s.visits[|s.visits| - 1].index
    requires SettledBelow(r, s, s.visits[|s.visits| - 1].index)
    requires var d := Next(r, s.results, s.skipped, failure);
      d.Some? && d.value.act == Skip ==> r.stages[d.value.index].id !in s.skipped
    ensures var t := Settle(r, s, Next(r, s.results, s.skipped, failure), startsOk);
      && Progress(r, t) && s.visits <= t.visits
      && (t.exit.None? ==> s.visits[|s.visits| - 1].index < t.current && t.results == s.results)
    decreases Unskipped(r, s.skipped)
  {
    var d, last := Next(r, s.results, s.skipped, failure), s.visits[|s.visits| - 1].index;
    DecisionIsFresh(r, s, failure);
    if d.Some? && d.value.act != Block {
      var i := d.value.index;
      assert forall j :: 0 <= j <= last ==> Settled(r, s, j);
      assert last < i;
      if d.value.act == Skip {
        SkippingSettles(r, s, i);
        SkipShrinks(r, s.results, s.skipped, failure);
        var t := s.(skipped := s.skipped + {r.stages[i].id}, visits := s.visits + [PassedOver(i)]);
        NextJudges(r, t.results, t.skipped, false, 0);
        SettleRises(r, t, false, startsOk);
      } else {
        var t := Settle(r, s, d, startsOk);
        forall j | 0 <= j < i ensures Settled(r, t, j) {
          assert Settled(r, s, j);
        }
      }
    }
  }

  lemma ResultSettles(r: Router, s: Session, status: Status)
    requires s.current < |r.stages|
    ensures var t := s.(results := s.results + [StageResult(r.stages[s.current].id, status)]);
      Settled(r, t, s.current) && forall j :: 0 <= j < |r.stages| && Settled(r, s, j) ==> Settled(r, t, j)
  {
  }

  /** Each outcome either ends the run or moves to a strictly later stage. */
  lemma OutcomeProgresses(r: Router, s: Session, o: Outcome)
    requires Progress(r, s) && s.exit.None?
    ensures var t := AfterOutcome(r, s, o);
      Progress(r, t) && s.visits <= t.visits && (t.exit.None? ==> s.current < t.current)
  {
    if o.Reported? {
      var t := s.(results := s.results + [StageResult(r.stages[s.current].id, o.status)]);
      ResultSettles(r, s, o.status);
      NextJudges(r, t.results, t.skipped, IsFailure(o.status), 0);
      forall i | 0 <= i < |t.visits| ensures Settled(r, t, t.visits[i].index) && t.visits[i].index <= s.current {
        if i < |t.visits| - 1 {
          assert Settled(r, s, t.visits[i].index);
        }
      }
      SettleRises(r, t, IsFailure(o.status), o.startsOk);
    }
  }

  lemma StartProgresses(r: Router)
    ensures StartSession(r).Some? ==> Progress(r, StartSession(r).value) && StartSession(r).value.current == 0
  {
  }

  /** A whole run: one outcome per stage, until the session exits. */
  function PlayOut(r: Router, s: Session, outcomes: seq<Outcome>): Session
    requires Progress(r, s)
    decreases outcomes
  {
    if outcomes == [] || s.exit.Some? then s
    else
      OutcomeProgresses(r, s, outcomes[0]);
      PlayOut(r, AfterOutcome(r, s, outcomes[0]), outcomes[1..])
  }

  lemma {:induction false} RunProgresses(r: Router, s: Session, outcomes: seq<Outcome>)
    requires Progress(r, s)
    ensures Progress(r, PlayOut(r, s, outcomes)) && s.visits <= PlayOut(r, s, outcomes).visits
    decreases outcomes
  {
    if outcomes != [] && s.exit.None? {
      OutcomeProgresses(r, s, outcomes[0]);
      RunProgresses(r, AfterOutcome(r, s, outcomes[0]), outcomes[1..]);
    }
  }

  lemma {:induction false} RisingIsBounded(visits: seq<Visit>, bound: nat)
    requires Rising(visits) && forall i :: 0 <= i < |visits| ==> visits[i].index < bound
    ensures |visits| <= bound
  {
    if visits != [] {
      var init := visits[..|visits| - 1];
      RisingIsBounded(init, visits[|visits| - 1].index);
    }
  }

  /** For any stages and any delegate: visits strictly rise, so no stage starts twice and runs are bounded. */
  lemma RunsAreMonotone(r: Router, outcomes: seq<Outcome>)
    requires StartSession(r).Some?
    ensures Progress(r, StartSession(r).value)
    ensures var s := PlayOut(r, StartSession(r).value, outcomes);
      && Rising(s.visits)
      && |s.visits| <= |r.stages|
      && (|outcomes| >= |r.stages| ==> s.exit.Some?)
  {
    StartProgresses(r);
    var s := StartSession(r).value;
    RunProgresses(r, s, outcomes);
    RisingIsBounded(PlayOut(r, s, outcomes).visits, |r.stages|);
    RunsEnd(r, s, outcomes);
  }

  lemma {:induction false} RunsEnd(r: Router, s: Session, outcomes: seq<Outcome>)
    requires Progress(r, s)
    ensures |outcomes| >= |r.stages| - s.current ==> PlayOut(r, s, outcomes).exit.Some?
    decreases outcomes
  {
    if outcomes != [] && s.exit.None? {
      OutcomeProgresses(r, s, outcomes[0]);
      RunsEnd(r, AfterOutcome(r, s, outcomes[0]), outcomes[1..]);
    }
  }

  /** A lifecycle can be started exactly when its first stage waits for nothing, and then starts with it. */
  lemma StartsWithTheFirstStage(r: Router)
    ensures StartSession(r).Some? <==> r.stages[0].runIf.Always? || r.stages[0].runIf.AfterPrevious?
    ensures StartSession(r).Some? ==> StartSession(r).value == Session([], {}, 0, None, [Started(0)])
  {
    NextJudges(r, [], {}, false, 0);
    assert Judgement(r, [], {}, false, 0).Some?;
  }

  // How a stage ends.

  /** Nothing before a position ends the stage. */
  predicate GoesOnTo(events: seq<InnerEvent>, e: nat) {
    e <= |events| && forall j :: 0 <= j < e ==> !events[j].BadResult? && !events[j].Exited?
  }

  /** The stage goes on to a clean exit, or to the end of a stream that does not raise. */
  predicate EndsCleanly(stream: InnerStream, e: nat) {
    && GoesOnTo(stream.events, e)
    && if e == |stream.events| then !stream.raises
       else stream.events[e].Exited? && (stream.events[e].code.None? || stream.events[e].code.value == 0)
  }

  predicate LastGood(events: seq<InnerEvent>, k: nat, e: nat) {
    k < e <= |events| && events[k].GoodResult? && forall j :: k < j < e ==> !events[j].GoodResult?
  }

  predicate NoGood(events: seq<InnerEvent>, e: nat) {
    e <= |events| && forall j :: 0 <= j < e ==> !events[j].GoodResult?
  }

  lemma {:induction false} StreamGoesOn(stream: InnerStream, result: Option<Status>, startsOk: bool, i: nat, e: nat)
    requires i <= e && GoesOnTo(stream.events, e)
    requires forall j :: i <= j < e ==> !stream.events[j].GoodResult?
    ensures StreamOutcome(stream, result, startsOk, i) == StreamOutcome(stream, result, startsOk, e)
    decreases e - i
  {
    if i < e {
      StreamGoesOn(stream, result, startsOk, i + 1, e);
    }
  }

  lemma {:induction false} StreamReaches(stream: InnerStream, result: Option<Status>, startsOk: bool, i: nat, k: nat)
    requires i <= k < |stream.events| && GoesOnTo(stream.events, k) && stream.events[k].GoodResult?
    ensures StreamOutcome(stream, result, startsOk, i)
            == StreamOutcome(stream, Some(stream.events[k].status), startsOk, k + 1)
    decreases k - i
  {
    if i < k {
      var next := if stream.events[i].GoodResult? then Some(stream.events[i].status) else result;
      StreamReaches(stream, next, startsOk, i + 1, k);
    }
  }

  /** A stage that ends cleanly reports its last good result. */
  lemma CleanExitReports(stream: InnerStream, startsOk: bool, k: nat, e: nat)
    requires EndsCleanly(stream, e) && LastGood(stream.events, k, e)
    ensures StreamOutcome(stream, None, startsOk, 0) == Reported(stream.events[k].status, startsOk)
  {
    StreamReaches(stream, None, startsOk, 0, k);
    StreamGoesOn(stream, Some(stream.events[k].status), startsOk, k + 1, e);
  }

  lemma StreamEndsAt(stream: InnerStream, startsOk: bool, e: nat) returns (result: Option<Status>)
    requires GoesOnTo(stream.events, e)
    ensures StreamOutcome(stream, None, startsOk, 0) == StreamOutcome(stream, result, startsOk, e)
    ensures NoGood(stream.events, e) ==> result.None?
  {
    if NoGood(stream.events, e) {
      result := None;
      StreamGoesOn(stream, None, startsOk, 0, e);
    } else {
      var k := LastGoodBefore(stream.events, e);
      result := Some(stream.events[k].status);
      StreamReaches(stream, None, startsOk, 0, k);
      StreamGoesOn(stream, result, startsOk, k + 1, e);
    }
  }

  lemma {:induction false} LastGoodBefore(events: seq<InnerEvent>, e: nat) returns (k: nat)
    requires e <= |events| && !NoGood(events, e)
    ensures LastGood(events, k, e)
  {
    if events[e - 1].GoodResult? {
      k := e - 1;
    } else {
      k := LastGoodBefore(events, e - 1);
    }
  }

  /** Otherwise it breaks the run off: with the code of an unclean exit, and with 1 where something is wrong or missing. */
  lemma OtherEndsBreak(stream: InnerStream, startsOk: bool, e: nat)
    requires GoesOnTo(stream.events, e)
    ensures var o, events := StreamOutcome(stream, None, startsOk, 0), stream.events;
      && (e < |events| && events[e].BadResult? ==> o == Broken(1))
      && (e < |events| && events[e].Exited? && events[e].code.Some? && events[e].code.value != 0 ==>
            o == Broken(events[e].code.value))
      && (e == |events| && stream.raises ==> o == Broken(1))
      && (EndsCleanly(stream, e) && NoGood(events, e) ==> o == Broken(1))
  {
    var result := StreamEndsAt(stream, startsOk, e);
  }

  /** Every stream comes to one of these ends. */
  lemma {:induction false} StageEnds(events: seq<InnerEvent>, i: nat) returns (e: nat)
    requires GoesOnTo(events, i)
    ensures GoesOnTo(events, e) && (e < |events| ==> events[e].BadResult? || events[e].Exited?)
    decreases |events| - i
  {
    if i == |events| || events[i].BadResult? || events[i].Exited? {
      e := i;
    } else {
      e := StageEnds(events, i + 1);
    }
  }

  /** So a stage reports a status exactly when it is the last good one before a clean end; a break ends the session with its code. */
  lemma StagesReportTheirLastResult(r: Router, s: Session, stream: InnerStream, startsOk: bool, status: Status)
    requires s.current < |r.stages|
    ensures var o := StreamOutcome(stream, None, startsOk, 0);
      && (o == Reported(status, startsOk) <==>
            exists k: nat, e: nat :: EndsCleanly(stream, e) && LastGood(stream.events, k, e) && stream.events[k].status == status)
      && (o.Broken? ==> AfterOutcome(r, s, o) == s.(exit := Some(o.code)))
  {
    hide StreamOutcome;
    var o := StreamOutcome(stream, None, startsOk, 0);
    forall k: nat, e: nat | EndsCleanly(stream, e) && LastGood(stream.events, k, e)
      ensures o == Reported(stream.events[k].status, startsOk)
    {
      CleanExitReports(stream, startsOk, k, e);
    }
    if o == Reported(status, startsOk) {
      var e := StageEnds(stream.events, 0);
      OtherEndsBreak(stream, startsOk, e);
      var k := LastGoodBefore(stream.events, e);
      CleanExitReports(stream, startsOk, k, e);
    }
  }

  // What the router decides.

  /** The skill of a decision is one of its stage's: the selected one, and else the first. */
  lemma DecisionsNameTheirSkill(r: Router, results: seq<StageResult>, skipped: set<string>, failure: bool)
    ensures var d := Next(r, results, skipped, failure);
      d.Some? ==>
        var stage := r.stages[d.value.index];
        && d.value.skill in stage.skills
        && (stage.id in r.selected ==> d.value.skill == r.selected[stage.id])
        && (stage.id !in r.selected ==> d.value.skill == stage.skills[0])
  {
    NextJudges(r, results, skipped, failure, 0);
    var d := Next(r, results, skipped, failure);
    if d.Some? && r.stages[d.value.index].id in r.selected {
      var id := r.stages[d.value.index].id;
      var i :| 0 <= i < |r.stages| && r.stages[i].id == id && r.selected[id] in r.stages[i].skills;
      assert i == d.value.index;
    }
  }

  /** What a stage waits for: the stage before it, or a named one. */
  predicate WaitsFor(r: Router, i: nat, id: string)
    requires i < |r.stages|
  {
    match r.stages[i].runIf
    case Always => false
    case OnFailure => false
    case AfterPrevious => i > 0 && id == r.stages[i - 1].id
    case AfterImplementation => id == "implement-test"
    case AfterVerify => id == "verify"
    case AfterReview => id == "review"
    case AfterRelease => id == "release"
  }

  predicate HasResult(results: seq<StageResult>, id: string) {
    exists i :: 0 <= i < |results| && results[i].stage == id
  }

  predicate IsSettled(results: seq<StageResult>, skipped: set<string>, id: string) {
    || id in skipped
    || exists i :: 0 <= i < |results| && results[i].stage == id && (results[i].status.Completed? || results[i].status.Skipped?)
  }

  lemma {:induction false} LastResultExists(results: seq<StageResult>, stage: string)
    ensures LastResult(results, stage).Some? <==> HasResult(results, stage)
  {
    if results != [] {
      var init := results[..|results| - 1];
      LastResultExists(init, stage);
      assert forall i :: 0 <= i < |init| ==> results[i] == init[i];
    }
  }

  lemma KnownIsSettled(results: seq<StageResult>, skipped: set<string>, id: string)
    ensures id in Known(results, skipped) <==> IsSettled(results, skipped, id)
  {
  }

  /**
   * A settled stage is passed over. One with another result is passed over while the failure is fresh, unless it diagnoses, and
   * blocks otherwise. A stage without results runs when everything it waits for is settled; diagnosis runs on failure only.
   */
  lemma JudgementIsExact(r: Router, results: seq<StageResult>, skipped: set<string>, failure: bool, i: nat)
    requires i < |r.stages|
    ensures var stage, judged := r.stages[i], Judgement(r, results, skipped, failure, i);
      var settled, untried := IsSettled(results, skipped, stage.id), !HasResult(results, stage.id);
      var ready := forall id :: WaitsFor(r, i, id) ==> IsSettled(results, skipped, id);
      && (judged == Some(Run) <==> !settled && untried && ready && (stage.runIf.OnFailure? ==> failure))
      && (judged == Some(Skip) <==> !settled && untried && stage.runIf.OnFailure? && !failure)
      && (judged.None? <==> settled || (!untried && failure && !stage.runIf.OnFailure?))
  {
    hide Known, LastResult, IsSettled, HasResult;
    var stage := r.stages[i];
    LastResultExists(results, stage.id);
    CompletedIsKnown(results, skipped, stage.id);
    forall id ensures id in Known(results, skipped) <==> IsSettled(results, skipped, id) {
      KnownIsSettled(results, skipped, id);
    }
    if stage.runIf.AfterPrevious? && i > 0 {
      assert WaitsFor(r, i, r.stages[i - 1].id);
    }
    if RequiredStage(stage.runIf).Some? {
      assert WaitsFor(r, i, RequiredStage(stage.runIf).value);
    }
  }

  /** A delegate's stream never breaks a stage with code 0. */
  lemma {:induction false} BreaksAreNonZero(stream: InnerStream, result: Option<Status>, startsOk: bool, i: nat)
    requires i <= |stream.events|
    ensures StreamOutcome(stream, result, startsOk, i).Broken? ==> StreamOutcome(stream, result, startsOk, i).code != 0
    decreases |stream.events| - i
  {
    if i < |stream.events| {
      match stream.events[i]
      case GoodResult(status) => BreaksAreNonZero(stream, Some(status), startsOk, i + 1);
      case Other => BreaksAreNonZero(stream, result, startsOk, i + 1);
      case _ =>
    }
  }

  /** A stage that breaks off is not taken for a clean exit. */
  predicate BreaksBadly(outcomes: seq<Outcome>) {
    forall i :: 0 <= i < |outcomes| && outcomes[i].Broken? ==> outcomes[i].code != 0
  }

  /** The stream loop of the runtime: it ends, having done what a run of as many outcomes does. */
  method Stream(session: LifecycleSession, delegate: Delegate) returns (ghost outcomes: seq<Outcome>)
    requires session.Valid() && Progress(session.router, session.State())
    modifies session
    ensures session.Valid() && session.exit.Some?
    ensures session.State() == PlayOut(session.router, old(session.State()), outcomes)
    ensures |outcomes| <= |session.router.stages| - old(session.current) && BreaksBadly(outcomes)
  {
    outcomes := [];
    var n := 0;
    while session.exit.None?
      invariant session.Valid() && Progress(session.router, session.State())
      invariant session.State() == PlayOut(session.router, old(session.State()), outcomes)
      invariant session.exit.None? ==> |outcomes| <= session.current - old(session.current)
      invariant |outcomes| <= |session.router.stages| - old(session.current) && BreaksBadly(outcomes)
      decreases if session.exit.None? then |session.router.stages| - session.current else 0
    {
      ghost var before := session.State();
      var stream, startsOk := delegate.streams(n), delegate.starts(n);
      session.RunStage(stream, startsOk);
      ghost var o := StreamOutcome(stream, None, startsOk, 0);
      BreaksAreNonZero(stream, None, startsOk, 0);
      OutcomeProgresses(session.router, before, o);
      RunOneMore(session.router, old(session.State()), outcomes, o);
      outcomes := outcomes + [o];
      n := n + 1;
    }
  }

  lemma {:induction false} RunOneMore(r: Router, s: Session, outcomes: seq<Outcome>, o: Outcome)
    requires Progress(r, s) && PlayOut(r, s, outcomes).exit.None?
    requires PlayOut(r, s, outcomes).current < |r.stages|
    ensures PlayOut(r, s, outcomes + [o]) == AfterOutcome(r, PlayOut(r, s, outcomes), o)
    decreases outcomes
  {
    if outcomes == [] {
      OutcomeProgresses(r, s, o);
      assert (outcomes + [o])[1..] == [];
    } else {
      OutcomeProgresses(r, s, outcomes[0]);
      assert (outcomes + [o])[1..] == outcomes[1..] + [o];
      RunExits(r, s, outcomes);
      RunOneMore(r, AfterOutcome(r, s, outcomes[0]), outcomes[1..], o);
    }
  }

  lemma RunExits(r: Router, s: Session, outcomes: seq<Outcome>)
    requires Progress(r, s)
    ensures s.exit.Some? ==> PlayOut(r, s, outcomes) == s
  {
  }
}
