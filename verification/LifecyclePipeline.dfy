/** The nine default stages: which outcome leads where, and what a clean exit means. */
module LifecyclePipeline {
  import opened Prelude
  import opened Lifecycles
  import opened LifecycleLaws

  const DEFAULT_STAGES: seq<Stage> := [
    Stage("intake", ["intake", "work-prep"], "read-only", Always),
    Stage("explore", ["codebase-explore"], "read-only", AfterPrevious),
    Stage("plan", ["atdd-plan", "testing-philosophy"], "read-only", AfterPrevious),
    Stage("implement-test", ["tdd-writer"], "mutating-with-authority", AfterPrevious),
    Stage("debug", ["debug-hunt"], "read-only", OnFailure),
    Stage("verify", ["bug-bash", "smoke-test"], "read-only-with-disposable-data", AfterImplementation),
    Stage("review", ["implementation-review", "security-audit", "ux-audit", "design-review", "interaction-polish"],
          "read-only", AfterVerify),
    Stage("release", ["release-check", "staleness-audit"], "read-only", AfterReview),
    Stage("wrap-up", ["wrap-up"], "read-only", AfterRelease)]

  const IMPLEMENT := 3
  const DEBUG := 4
  const VERIFY := 5
  const WRAP_UP := 8

  lemma IdsDiffer(i: nat, j: nat)
    requires i < j < |DEFAULT_STAGES|
    ensures DEFAULT_STAGES[i].id != DEFAULT_STAGES[j].id
  {
  }

  lemma DefaultIsRouter(selected: map<string, string>)
    requires SelectionFits(DEFAULT_STAGES, selected)
    ensures IsRouter(RouterData(DEFAULT_STAGES, selected))
  {
  }

  ghost predicate IsDefault(r: Router) {
    r.stages == DEFAULT_STAGES
  }

  predicate Done(s: Session, i: nat)
    requires i < |DEFAULT_STAGES|
  {
    DEFAULT_STAGES[i].id in Known(s.results, s.skipped)
  }

  predicate Untouched(s: Session, i: nat)
    requires i < |DEFAULT_STAGES|
  {
    !Done(s, i) && LastResult(s.results, DEFAULT_STAGES[i].id).None?
  }

  predicate Failing(s: Session, i: nat)
    requires i < |DEFAULT_STAGES|
  {
    !Done(s, i) && LastResult(s.results, DEFAULT_STAGES[i].id).Some?
    && IsFailure(LastResult(s.results, DEFAULT_STAGES[i].id).value)
  }

  /** Every stage before the current one is done, and none from it on was touched. */
  ghost predicate OnTrack(s: Session, c: nat) {
    && c < |DEFAULT_STAGES| && c != DEBUG && s.exit.None? && s.current == c
    && (forall j :: 0 <= j < c ==> Done(s, j))
    && forall j :: c <= j < |DEFAULT_STAGES| ==> Untouched(s, j)
  }

  /** Implementation failed after everything before it was done, and diagnosis is running. */
  ghost predicate Diagnosing(s: Session) {
    && s.exit.None? && s.current == DEBUG
    && (forall j :: 0 <= j < IMPLEMENT ==> Done(s, j))
    && Failing(s, IMPLEMENT)
    && forall j :: DEBUG <= j < |DEFAULT_STAGES| ==> Untouched(s, j)
  }

  predicate IsOk(status: Status) {
    status.Completed? || status.Skipped?
  }

  function WithResult(s: Session, c: nat, status: Status): Session
    requires c < |DEFAULT_STAGES|
  {
    s.(results := s.results + [StageResult(DEFAULT_STAGES[c].id, status)])
  }

  lemma SameHistory(s: Session, t: Session)
    requires s.results == t.results && s.skipped == t.skipped
    ensures forall j :: 0 <= j < |DEFAULT_STAGES| ==>
      && (Done(t, j) <==> Done(s, j)) && (Untouched(t, j) <==> Untouched(s, j)) && (Failing(t, j) <==> Failing(s, j))
  {
  }

  lemma ResultTouchesOne(s: Session, c: nat, status: Status, j: nat)
    requires c < |DEFAULT_STAGES| && j < |DEFAULT_STAGES| && Untouched(s, c)
    ensures var t := WithResult(s, c, status);
      if j != c then
        && (Done(t, j) <==> Done(s, j)) && (Untouched(t, j) <==> Untouched(s, j)) && (Failing(t, j) <==> Failing(s, j))
      else if IsOk(status) then Done(t, c)
      else Failing(t, c)
  {
    var t := WithResult(s, c, status);
    assert t.results[..|s.results|] == s.results;
    if j < c {
      IdsDiffer(j, c);
    } else if c < j {
      IdsDiffer(c, j);
    }
    var added := StageResult(DEFAULT_STAGES[c].id, status);
    assert added in t.results;
    assert forall x :: x in t.results <==> x in s.results || x == added;
  }

  lemma SkipTouchesOne(s: Session, i: nat, j: nat)
    requires i < |DEFAULT_STAGES| && j < |DEFAULT_STAGES|
    ensures var t := s.(skipped := s.skipped + {DEFAULT_STAGES[i].id}, visits := s.visits + [PassedOver(i)]);
      if j == i then Done(t, i) else (Done(t, j) <==> Done(s, j)) && (Untouched(t, j) <==> Untouched(s, j))
  {
  }

  /** The router's answer is the first stage it has something to say about. */
  lemma NextIs(r: Router, s: Session, failure: bool, k: nat, act: Act)
    requires k < |r.stages| && Judgement(r, s.results, s.skipped, failure, k) == Some(act)
    requires forall j :: 0 <= j < k ==> Judgement(r, s.results, s.skipped, failure, j).None?
    ensures Next(r, s.results, s.skipped, failure) == Some(Decision(act, k, SelectedSkill(r, k)))
  {
    NextJudges(r, s.results, s.skipped, failure, 0);
    FirstJudgement(r, s, failure, k, 0);
  }

  lemma {:induction false} FirstJudgement(r: Router, s: Session, failure: bool, k: nat, i: nat)
    requires i <= k < |r.stages| && Judgement(r, s.results, s.skipped, failure, k).Some?
    requires forall j :: 0 <= j < k ==> Judgement(r, s.results, s.skipped, failure, j).None?
    ensures NextFrom(r, s.results, s.skipped, failure, i)
            == Some(Decision(Judgement(r, s.results, s.skipped, failure, k).value, k, SelectedSkill(r, k)))
    decreases k - i
  {
    if i < k {
      FirstJudgement(r, s, failure, k, i + 1);
    }
  }

  lemma DoneIsPassed(r: Router, s: Session, failure: bool, j: nat)
    requires IsDefault(r) && j < |DEFAULT_STAGES| && (Done(s, j) || (Failing(s, j) && failure && j != DEBUG))
    ensures Judgement(r, s.results, s.skipped, failure, j).None?
  {
  }

  lemma FailingBlocks(r: Router, s: Session, failure: bool, j: nat)
    requires IsDefault(r) && j < |DEFAULT_STAGES| && Failing(s, j) && (!failure || j == DEBUG)
    ensures Judgement(r, s.results, s.skipped, failure, j) == Some(Block)
  {
  }

  /** What the default router says about an untouched stage, by its position. */
  lemma UntouchedJudgement(r: Router, s: Session, failure: bool, k: nat)
    requires IsDefault(r) && k < |DEFAULT_STAGES| && Untouched(s, k)
    ensures Judgement(r, s.results, s.skipped, failure, k) == Some(
      if k == 0 then Run
      else if k == DEBUG then (if failure then Run else Skip)
      else if k == VERIFY then (if Done(s, IMPLEMENT) then Run else Block)
      else if Done(s, k - 1) then Run
      else Block)
  {
  }

  lemma AfterResult(r: Router, s: Session, c: nat, status: Status)
    requires IsDefault(r) && OnTrack(s, c)
    ensures var t := WithResult(s, c, status);
      && (forall j :: 0 <= j < c ==> Done(t, j))
      && (forall j :: c < j < |DEFAULT_STAGES| ==> Untouched(t, j))
      && (if IsOk(status) then Done(t, c) else Failing(t, c) && !Done(t, c))
      && forall j :: 0 <= j <= c ==> Judgement(r, t.results, t.skipped, IsFailure(status), j).None?
  {
    hide Judgement, LastResult, Known;
    var t := WithResult(s, c, status);
    assert Untouched(s, c);
    forall j | 0 <= j < |DEFAULT_STAGES|
      ensures j < c ==> Done(t, j)
      ensures j > c ==> Untouched(t, j)
      ensures j == c ==> if IsOk(status) then Done(t, c) else Failing(t, c)
    {
      ResultTouchesOne(s, c, status, j);
    }
    forall j | 0 <= j <= c ensures Judgement(r, t.results, t.skipped, IsFailure(status), j).None? {
      DoneIsPassed(r, t, IsFailure(status), j);
    }
  }

  /** A stage that ends well leads to the next one, past diagnosis; the last one ends the run. */
  lemma GoodStep(r: Router, s: Session, status: Status, startsOk: bool, c: nat)
    requires IsDefault(r) && OnTrack(s, c) && IsOk(status)
    ensures var t := AfterStage(r, s, status, startsOk);
      if c == WRAP_UP then t.exit == Some(0) && forall j :: 0 <= j <= WRAP_UP ==> Done(t, j)
      else if !startsOk then t.exit == Some(1)
      else if c == IMPLEMENT then OnTrack(t, VERIFY) && t.visits == s.visits + [PassedOver(DEBUG), Started(VERIFY)]
      else OnTrack(t, c + 1) && t.visits == s.visits + [Started(c + 1)]
  {
    hide Done, Untouched, Failing, Judgement;
    var t, u := WithResult(s, c, status), AfterStage(r, s, status, startsOk);
    AfterResult(r, s, c, status);
    NextJudges(r, t.results, t.skipped, false, 0);
    if c == WRAP_UP {
      SameHistory(t, u);
    } else {
      UntouchedJudgement(r, t, false, c + 1);
      NextIs(r, t, false, c + 1, Judgement(r, t.results, t.skipped, false, c + 1).value);
      if c == IMPLEMENT {
        PastDebug(r, t, startsOk);
      } else {
        SameHistory(t, u);
      }
    }
  }

  /** A stage that fails stops the run, except that implementation leads to diagnosis and the last stage exits with 0. */
  lemma BadStep(r: Router, s: Session, status: Status, startsOk: bool, c: nat)
    requires IsDefault(r) && OnTrack(s, c) && IsFailure(status)
    ensures var t := AfterStage(r, s, status, startsOk);
      if c == WRAP_UP then
        t.exit == Some(0) && (forall j :: 0 <= j < WRAP_UP ==> Done(t, j)) && Failing(t, WRAP_UP)
      else if c == IMPLEMENT && startsOk then Diagnosing(t) && t.visits == s.visits + [Started(DEBUG)]
      else t.exit == Some(1)
  {
    hide Done, Untouched, Failing, Judgement;
    var t, u := WithResult(s, c, status), AfterStage(r, s, status, startsOk);
    AfterResult(r, s, c, status);
    NextJudges(r, t.results, t.skipped, true, 0);
    if c == WRAP_UP {
      SameHistory(t, u);
    } else {
      UntouchedJudgement(r, t, true, c + 1);
      NextIs(r, t, true, c + 1, Judgement(r, t.results, t.skipped, true, c + 1).value);
      SameHistory(t, u);
    }
  }

  /** Without failure evidence diagnosis is passed over and verification starts. */
  lemma PastDebug(r: Router, s: Session, startsOk: bool)
    requires IsDefault(r) && s.exit.None?
    requires Next(r, s.results, s.skipped, false) == Some(Decision(Skip, DEBUG, SelectedSkill(r, DEBUG)))
    requires forall j :: 0 <= j < DEBUG ==> Done(s, j)
    requires forall j :: DEBUG <= j < |DEFAULT_STAGES| ==> Untouched(s, j)
    ensures DEFAULT_STAGES[DEBUG].id !in s.skipped
    ensures var t := Settle(r, s, Next(r, s.results, s.skipped, false), startsOk);
      if startsOk then OnTrack(t, VERIFY) && t.visits == s.visits + [PassedOver(DEBUG), Started(VERIFY)]
      else t.exit == Some(1)
  {
    assert Untouched(s, DEBUG);
    SkipsUntouched(s, DEBUG);
    hide Done, Untouched, Judgement;
    var t := s.(skipped := s.skipped + {DEFAULT_STAGES[DEBUG].id}, visits := s.visits + [PassedOver(DEBUG)]);
    forall j | 0 <= j < |DEFAULT_STAGES|
      ensures j <= DEBUG ==> Done(t, j)
      ensures j > DEBUG ==> Untouched(t, j)
    {
      SkipTouchesOne(s, DEBUG, j);
    }
    forall j | 0 <= j <= DEBUG ensures Judgement(r, t.results, t.skipped, false, j).None? {
      DoneIsPassed(r, t, false, j);
    }
    UntouchedJudgement(r, t, false, VERIFY);
    NextIs(r, t, false, VERIFY, Run);
    NextJudges(r, t.results, t.skipped, false, 0);
    var u := t.(current := VERIFY, visits := t.visits + [Started(VERIFY)]);
    SameHistory(t, u);
  }

  lemma SkipsUntouched(s: Session, i: nat)
    requires i < |DEFAULT_STAGES| && Untouched(s, i)
    ensures DEFAULT_STAGES[i].id !in s.skipped
  {
  }

  /** Diagnosis ends the run, whatever it reports. */
  lemma DiagnosisEnds(r: Router, s: Session, status: Status, startsOk: bool)
    requires IsDefault(r) && Diagnosing(s)
    ensures AfterStage(r, s, status, startsOk).exit == Some(1) && AfterStage(r, s, status, startsOk).visits == s.visits
  {
    hide Done, Untouched, Failing, Judgement;
    assert Untouched(s, DEBUG);
    var t := WithResult(s, DEBUG, status);
    var failure := IsFailure(status);
    forall j | 0 <= j < |DEFAULT_STAGES|
      ensures j < IMPLEMENT ==> Done(t, j)
      ensures j == IMPLEMENT ==> Failing(t, j)
      ensures j == DEBUG ==> if IsOk(status) then Done(t, j) else Failing(t, j)
    {
      ResultTouchesOne(s, DEBUG, status, j);
    }
    forall j | 0 <= j < IMPLEMENT ensures Judgement(r, t.results, t.skipped, failure, j).None? {
      DoneIsPassed(r, t, failure, j);
    }
    NextJudges(r, t.results, t.skipped, failure, 0);
    if failure {
      DoneIsPassed(r, t, failure, IMPLEMENT);
      FailingBlocks(r, t, failure, DEBUG);
      NextIs(r, t, failure, DEBUG, Block);
    } else {
      FailingBlocks(r, t, failure, IMPLEMENT);
      NextIs(r, t, failure, IMPLEMENT, Block);
    }
  }

  /** An outcome that ends the session starts nothing more. */
  lemma {:induction false} EndingStartsNothing(r: Router, s: Session, d: Option<Decision>, startsOk: bool)
    requires d.Some? ==> d.value.index < |r.stages|
    requires d.Some? && d.value.act == Skip ==> r.stages[d.value.index].id !in s.skipped
    ensures var t := Settle(r, s, d, startsOk);
      t.exit.Some? && s.exit.None? ==>
        s.visits <= t.visits && forall i :: |s.visits| <= i < |t.visits| ==> t.visits[i].PassedOver?
    ensures Settle(r, s, d, startsOk).results == s.results
    decreases Unskipped(r, s.skipped)
  {
    if d.Some? && d.value.act == Skip {
      var i := d.value.index;
      var t := s.(skipped := s.skipped + {r.stages[i].id}, visits := s.visits + [PassedOver(i)]);
      assert i in Unskipped(r, s.skipped) && i !in Unskipped(r, t.skipped);
      NextJudges(r, t.results, t.skipped, false, 0);
      EndingStartsNothing(r, t, Next(r, t.results, t.skipped, false), startsOk);
    }
  }

  predicate DebugStartsAt(s: Session, i: nat) {
    i < |s.visits| && s.visits[i] == Started(DEBUG)
  }

  ghost predicate ImplementationFailed(s: Session) {
    var status := LastResult(s.results, DEFAULT_STAGES[IMPLEMENT].id);
    status.Some? && IsFailure(status.value)
  }

  /** The states a default run passes through. */
  ghost predicate Pipeline(s: Session) {
    && (s.exit.None? ==> OnTrack(s, s.current) || Diagnosing(s))
    && (s.exit.None? && s.current != DEBUG ==> forall i: nat :: !DebugStartsAt(s, i))
    && (s.exit == Some(0) ==> forall j :: 0 <= j < WRAP_UP ==> Done(s, j))
    && forall i: nat :: DebugStartsAt(s, i) ==> i == |s.visits| - 1 && ImplementationFailed(s)
  }

  lemma ReportKeepsPipeline(r: Router, s: Session, status: Status, startsOk: bool)
    requires IsDefault(r) && s.exit.None? && Pipeline(s) && s.current != DEBUG
    ensures Pipeline(AfterStage(r, s, status, startsOk))
  {
    hide Done, Untouched, LastResult, Judgement;
    var t, u := WithResult(s, s.current, status), AfterStage(r, s, status, startsOk);
    NextJudges(r, t.results, t.skipped, IsFailure(status), 0);
    SkipIsNew(r, t, IsFailure(status));
    EndingStartsNothing(r, t, Next(r, t.results, t.skipped, IsFailure(status)), startsOk);
    if IsOk(status) {
      GoodStep(r, s, status, startsOk, s.current);
    } else {
      BadStep(r, s, status, startsOk, s.current);
    }
    forall i: nat | DebugStartsAt(u, i) ensures i == |u.visits| - 1 && ImplementationFailed(u) {
      assert i < |s.visits| ==> DebugStartsAt(s, i);
    }
  }

  lemma SkipIsNew(r: Router, s: Session, failure: bool)
    ensures var d := Next(r, s.results, s.skipped, failure);
      d.Some? && d.value.act == Skip ==> r.stages[d.value.index].id !in s.skipped
  {
    NextJudges(r, s.results, s.skipped, failure, 0);
  }

  lemma DiagnosisKeepsPipeline(r: Router, s: Session, status: Status, startsOk: bool)
    requires IsDefault(r) && s.exit.None? && Pipeline(s) && s.current == DEBUG
    ensures Pipeline(AfterStage(r, s, status, startsOk))
  {
    hide Done, Untouched, Judgement;
    DiagnosisEnds(r, s, status, startsOk);
    var t, u := WithResult(s, DEBUG, status), AfterStage(r, s, status, startsOk);
    assert Untouched(s, DEBUG);
    ResultTouchesOne(s, DEBUG, status, IMPLEMENT);
    SkipIsNew(r, t, IsFailure(status));
    NextJudges(r, t.results, t.skipped, IsFailure(status), 0);
    EndingStartsNothing(r, t, Next(r, t.results, t.skipped, IsFailure(status)), startsOk);
    forall i: nat | DebugStartsAt(u, i) ensures i == |u.visits| - 1 && ImplementationFailed(u) {
      assert DebugStartsAt(s, i);
    }
  }

  lemma PipelineStep(r: Router, s: Session, o: Outcome)
    requires IsDefault(r) && s.exit.None? && Pipeline(s) && s.current < |r.stages|
    requires o.Broken? ==> o.code != 0
    ensures Pipeline(AfterOutcome(r, s, o))
  {
    hide Done, Untouched, LastResult, Judgement, AfterStage;
    if o.Broken? {
      var t := AfterOutcome(r, s, o);
      forall i: nat | DebugStartsAt(t, i) ensures i == |t.visits| - 1 && ImplementationFailed(t) {
        assert DebugStartsAt(s, i);
      }
    } else if s.current == DEBUG {
      DiagnosisKeepsPipeline(r, s, o.status, o.startsOk);
    } else {
      ReportKeepsPipeline(r, s, o.status, o.startsOk);
    }
  }

  lemma {:induction false} PipelineRun(r: Router, s: Session, outcomes: seq<Outcome>)
    requires IsDefault(r) && Pipeline(s) && Progress(r, s)
    requires BreaksBadly(outcomes)
    ensures Pipeline(PlayOut(r, s, outcomes))
    decreases outcomes
  {
    hide Pipeline, AfterOutcome;
    if outcomes != [] && s.exit.None? {
      PipelineStep(r, s, outcomes[0]);
      OutcomeProgresses(r, s, outcomes[0]);
      assert forall i :: 0 <= i < |outcomes[1..]| ==> outcomes[1..][i] == outcomes[i + 1];
      PipelineRun(r, AfterOutcome(r, s, outcomes[0]), outcomes[1..]);
    }
  }

  lemma DefaultStart(r: Router)
    requires IsDefault(r)
    ensures StartSession(r).Some? && Pipeline(StartSession(r).value) && StartSession(r).value.current == 0
  {
  }

  /** Over the default stages: diagnosis needs a failed implementation and comes last; later stages need the whole chain. */
  lemma DefaultPipelineOrder(r: Router, outcomes: seq<Outcome>)
    requires IsDefault(r)
    requires BreaksBadly(outcomes)
    ensures StartSession(r).Some? && Progress(r, StartSession(r).value)
    ensures var s := PlayOut(r, StartSession(r).value, outcomes);
      && (forall i: nat :: DebugStartsAt(s, i) ==> i == |s.visits| - 1 && ImplementationFailed(s))
      && (s.exit.None? && s.current != DEBUG ==> forall j :: 0 <= j < s.current && j < |DEFAULT_STAGES| ==> Done(s, j))
      && (s.exit == Some(0) ==> forall j :: 0 <= j < WRAP_UP ==> Done(s, j))
  {
    hide Done, Untouched, Failing;
    DefaultStart(r);
    StartProgresses(r);
    PipelineRun(r, StartSession(r).value, outcomes);
  }

  /** The last stage may fail and the run still exits with 0. */
  lemma LastFailureExitsCleanly(r: Router, s: Session, status: Status, startsOk: bool)
    requires IsDefault(r) && OnTrack(s, WRAP_UP) && IsFailure(status)
    ensures AfterStage(r, s, status, startsOk).exit == Some(0) && Failing(AfterStage(r, s, status, startsOk), WRAP_UP)
  {
    BadStep(r, s, status, startsOk, WRAP_UP);
  }

  /** When the tests an implementation streams fail, diagnosis starts; when they pass, it is passed over. */
  lemma FailedTestsAreDiagnosed(r: Router, s: Session, stream: InnerStream, k: nat, e: nat)
    requires IsDefault(r) && OnTrack(s, IMPLEMENT)
    requires EndsCleanly(stream, e) && LastGood(stream.events, k, e)
    ensures var t := AfterOutcome(r, s, StreamOutcome(stream, None, true, 0));
      if IsFailure(stream.events[k].status) then Diagnosing(t) && t.visits == s.visits + [Started(DEBUG)]
      else OnTrack(t, VERIFY) && t.visits == s.visits + [PassedOver(DEBUG), Started(VERIFY)]
  {
    hide OnTrack, Diagnosing, AfterStage;
    CleanExitReports(stream, true, k, e);
    var status := stream.events[k].status;
    if IsFailure(status) {
      BadStep(r, s, status, true, IMPLEMENT);
    } else {
      GoodStep(r, s, status, true, IMPLEMENT);
    }
  }

  /** The runtime over the default stages, from start to exit, whatever the delegate streams. */
  method RunPipeline(r: Router, delegate: Delegate) returns (session: LifecycleSession)
    requires IsDefault(r)
    ensures fresh(session) && session.exit.Some?
    ensures session.exit == Some(0) ==> forall j :: 0 <= j < WRAP_UP ==> Done(session.State(), j)
    ensures forall i: nat :: DebugStartsAt(session.State(), i) ==>
      i == |session.State().visits| - 1 && ImplementationFailed(session.State())
  {
    hide Done, ImplementationFailed;
    DefaultStart(r);
    StartProgresses(r);
    session := new LifecycleSession(r, StartSession(r).value.current);
    ghost var outcomes := Stream(session, delegate);
    DefaultPipelineOrder(r, outcomes);
  }

  // A run whose last stage fails.

  const GOOD := Reported(Completed, true)

  function StageAfter(n: nat): nat {
    if n <= IMPLEMENT then n else n + 1
  }

  lemma {:induction false} GoodRun(r: Router, n: nat)
    requires IsDefault(r) && n <= 7
    ensures StartSession(r).Some?
    ensures OnTrack(PlayOut(r, StartSession(r).value, seq(n, i => GOOD)), StageAfter(n))
  {
    hide Done, Untouched, AfterStage;
    DefaultStart(r);
    StartProgresses(r);
    if n > 0 {
      GoodRun(r, n - 1);
      var before := PlayOut(r, StartSession(r).value, seq(n - 1, i => GOOD));
      GoodStep(r, before, Completed, true, StageAfter(n - 1));
      RunOneMore(r, StartSession(r).value, seq(n - 1, i => GOOD), GOOD);
      assert seq(n, i => GOOD) == seq(n - 1, i => GOOD) + [GOOD];
    }
  }

  /** Every stage but the last reports completion, the last reports failure, and the run exits with 0. */
  lemma FailedWrapUpExitsCleanly(r: Router)
    requires IsDefault(r)
    ensures StartSession(r).Some?
    ensures var end := PlayOut(r, StartSession(r).value, seq(7, i => GOOD) + [Reported(Failed, true)]);
      end.exit == Some(0) && Failing(end, WRAP_UP)
  {
    hide Done, Untouched, Failing, AfterStage;
    GoodRun(r, 7);
    StartProgresses(r);
    var s := PlayOut(r, StartSession(r).value, seq(7, i => GOOD));
    RunOneMore(r, StartSession(r).value, seq(7, i => GOOD), Reported(Failed, true));
    LastFailureExitsCleanly(r, s, Failed, true);
  }
}
