/** Small runs that reach the situations the laws describe. */
module ExampleRuns {
  import opened Prelude
  import opened EventLogs
  import opened Gate
  import opened Identity
  import opened Projections
  import opened Controllers
  import opened ControllerLaws
  import opened AssignmentLaws
  import opened Restarts
  import opened RestartReuse
  import RR = RebuiltRuns
  import RP = RestartPlaces
  import WR = WaveRecords
  import BR = BarrierRestarts
  import opened Journals
  import G = DependencyGraphs
  import Sim = Simulation
  import S = Scheduling
  import L = SchedulingLaws
  import SL = SimulationLaws

  // One item, alone in its graph.

  const ALONE: G.DependencyGraph := G.GraphData(["A-1"], map["A-1" := []])

  const GO := Prompt("A-1", "go")

  /** What the platform answers in the morning and, after a restart, in the evening. */
  function Morning(item: ItemId, n: nat): Workspace {
    Workspace(WorkspaceKey(item, n), "shop", WorktreePath("/work", item, n), BranchRef(item, n), "started at 09:00")
  }

  function Evening(item: ItemId, n: nat): Workspace {
    Morning(item, n).(details := "started at 18:00")
  }

  const MORNING := Launcher(item => true, Morning)

  const EVENING := Launcher(item => true, Evening)

  /** By the evening the authority of the skill template has run out. */
  const EXPIRED := Launcher(item => false, Evening)

  function Begun(policy: S.Policy): Sim.Sim {
    Sim.NewSim(ALONE, policy, "main-0", "shop", "/work", ReviewPolicyData(1, []), {})
  }

  function Opened(policy: S.Policy): Controller {
    NewController(Begun(policy))
  }

  function RunOne(n: nat): RunId {
    RunId("A-1", "main-0", n)
  }

  lemma OnlyElement(xs: seq<ItemId>, x: ItemId)
    requires Distinct(xs) && forall y :: y in xs ==> y == x
    ensures xs == if x in xs then [x] else []
  {
    DistinctCardinality(xs);
    SubsetCardinality(Elems(xs), {x});
    if xs != [] {
      assert xs[0] in xs;
    }
  }

  lemma AloneFrontier(s: S.Schedule)
    requires s.graph == ALONE
    ensures S.Frontier(s)
            == if "A-1" in s.released + s.dispatched || (s.policy.WaveBarrier? && !s.barrierOpen) then [] else ["A-1"]
  {
    assert Elems(ALONE.blockers["A-1"]) == {};
    assert G.IsReady(ALONE, s.released, "A-1") <==> "A-1" !in s.released;
    OnlyElement(S.Frontier(s), "A-1");
  }

  /** The log once an item has started alone on its wave. */
  function RowsAfterStart(rows: seq<Row<Key, Event>>, start: Event, wave: S.ExecutionWave): seq<Row<Key, Event>>
    requires start.WorkAttemptStarted?
  {
    var ticketed := Inserted(rows, RowOf(TicketStateChanged(start.run.item, InProgress)));
    Inserted(Inserted(ticketed, RowOf(start)), RowOf(ExecutionWaveStarted(wave.number, wave.base, wave.items)))
  }

  lemma LoneFrontier(c: Controller, item: ItemId, launcher: Launcher)
    requires S.Frontier(c.sim.sched) == [item]
    ensures
      var t, d := DispatchFrontier(c, launcher), Sim.Assigned(c.sim, item);
      var wave := S.ExecutionWave(c.sim.sched.waveSequence + 1, c.sim.sched.base, [item], S.Active);
      && t == c.(sim := Sim.AfterDispatch(c.sim), log := RowsAfterStart(c.log, StartOf(d, launcher), wave),
                 active := c.active[item := Assignment(d, launcher.create(item, d.attempt), RunOf(d))],
                 attempts := c.attempts[item := WorkAttempt(RunOf(d), Running)])
  {
    hide S.Frontier, Inserted, StartAttempt;
    var d, e := Sim.Assigned(c.sim, item), c.(sim := Sim.AfterDispatch(c.sim));
    FrontierRuns(c.sim);
    assert Sim.Preview(c.sim) == [d] && [d][..0] == [];
    StartOne(e, d, launcher.create(item, d.attempt));
    assert StartAll(e, [], launcher) == e;
    assert StartAll(e, [d], launcher) == StartAttempt(e, d, launcher.create(item, d.attempt));
    assert DispatchFrontier(c, launcher) == AnnounceWave(StartAll(e, [d], launcher));
  }

  /** Dispatching when one item is ready. */
  lemma LoneDispatch(c: Controller, completed: set<ItemId>, revisions: seq<Revision>, p: Prompt, launcher: Launcher)
    requires Live(c, completed, revisions) && S.Frontier(c.sim.sched) == [p.item]
    requires PromptFor(c.prompts, p.item).None? || PromptFor(c.prompts, p.item).value == p.text
    requires launcher.admits(p.item)
    ensures
      var t := if PromptFor(c.prompts, p.item).None? then c.(prompts := c.prompts + [p]) else c;
      DispatchReady(c, [p], launcher) == Reply(DispatchFrontier(Emit(t, PromptSnapshotRecorded(p)), launcher), None)
  {
    hide Live, S.Frontier, StartFrontier, DispatchFrontier, Emit;
    PersistKeeps(c, completed, revisions, [p]);
    OnePrompt(c.prompts, p, [p.item]);
    FrontierStarts(PersistPrompts(c, [p]).ctrl, completed, revisions, launcher);
    assert [p][1..] == [];
  }

  function Started(policy: S.Policy): Controller {
    DispatchReady(Opened(policy), [GO], MORNING).ctrl
  }

  const WAVE := S.ExecutionWave(1, "main-0", ["A-1"], S.Active)

  lemma FirstStart(policy: S.Policy)
    ensures Live(Started(policy), {}, [])
    ensures var c, d := Started(policy), Sim.Assigned(Begun(policy), "A-1");
      && c.sim == Sim.AfterDispatch(Begun(policy)) && c.prompts == [GO] && c.attentionPublished == {}
      && c.active == map["A-1" := Assignment(d, Morning("A-1", 1), RunOne(1))]
      && c.log == RowsAfterStart([RowOf(PromptSnapshotRecorded(GO))], WorkAttemptStarted(RunOne(1), Morning("A-1", 1)), WAVE)
  {
    hide Live, DispatchReady, S.Frontier, DispatchFrontier, RowsAfterStart, Morning, Sim.AfterDispatch;
    NewIsLive(ALONE, policy, "main-0", "shop", "/work", ReviewPolicyData(1, []), {});
    AloneFrontier(Begun(policy).sched);
    var c := Opened(policy);
    assert c.prompts + [GO] == [GO];
    LoneDispatch(c, {}, [], GO, MORNING);
    var t := Emit(c.(prompts := [GO]), PromptSnapshotRecorded(GO));
    assert Started(policy) == DispatchFrontier(t, MORNING);
    assert t.log == [RowOf(PromptSnapshotRecorded(GO))];
    assert t == c.(prompts := [GO], log := t.log);
    LoneFrontier(t, "A-1", MORNING);
    assert RunOf(Sim.Assigned(t.sim, "A-1")) == RunOne(1);
    DispatchKeeps(Opened(policy), {}, [], [GO], MORNING);
  }

  // Runs.

  function Ran(policy: S.Policy, actions: seq<Action>): Trace {
    Play(Trace(Opened(policy), []), actions)
  }

  lemma PlayTwo(t: Trace, a: Action, b: Action)
    ensures Play(t, [a, b]) == Advance(Advance(t, a), b)
  {
    hide Advance;
    assert [a, b][1..] == [b] && [b][1..] == [];
    assert Play(Advance(t, a), [b]) == Play(Advance(Advance(t, a), b), []);
  }

  lemma StartIsRecorded(rows: seq<Row<Key, Event>>, start: Event, wave: S.ExecutionWave)
    requires start.WorkAttemptStarted? && !HasKey(rows, AttemptKey(start.run))
    ensures Project(RowsAfterStart(rows, start, wave)).attemptRecords
            == Project(rows).attemptRecords[start.run := start.workspace]
    ensures forall key :: HasKey(RowsAfterStart(rows, start, wave), key) <==>
      || HasKey(rows, key)
      || key == FactKey(TicketStateChanged(start.run.item, InProgress))
      || key == AttemptKey(start.run) || key == WaveKey(wave.number)
  {
    hide Inserted, HasKey, Project, Reduce;
    var ticket := TicketStateChanged(start.run.item, InProgress);
    var announcement := ExecutionWaveStarted(wave.number, wave.base, wave.items);
    var ticketed := Inserted(rows, RowOf(ticket));
    var started := Inserted(ticketed, RowOf(start));
    KeysAfterInsert(rows, RowOf(ticket));
    KeysAfterInsert(ticketed, RowOf(start));
    KeysAfterInsert(started, RowOf(announcement));
    RecordsAfter(rows, ticket);
    RecordsAfter(ticketed, start);
    RecordsAfter(started, announcement);
  }

  lemma RecordsAfter(rows: seq<Row<Key, Event>>, e: Event)
    ensures Project(Inserted(rows, RowOf(e))).attemptRecords
            == if e.WorkAttemptStarted? && !HasKey(rows, AttemptKey(e.run))
               then Project(rows).attemptRecords[e.run := e.workspace] else Project(rows).attemptRecords
  {
    hide Inserted;
    ProjectOneMore(rows, e);
  }

  // A base that returns.

  function Refreshes(revisions: seq<Revision>): seq<Action> {
    seq(|revisions|, i requires 0 <= i < |revisions| => Refreshing(revisions[i]))
  }

  lemma {:induction false} RefreshesRun(t: Trace, revisions: seq<Revision>)
    requires t.ctrl.sim.sched.policy.ContinuousFrontier?
    ensures var end := Play(t, Refreshes(revisions));
      && RunsCurrently(t, Refreshes(revisions))
      && end.revisions == t.revisions + revisions && end.ctrl.active == t.ctrl.active
      && end.ctrl.sim.sched
         == t.ctrl.sim.sched.(base := if revisions == [] then t.ctrl.sim.sched.base else revisions[|revisions| - 1])
    decreases revisions
  {
    if revisions != [] {
      assert Refreshes(revisions)[1..] == Refreshes(revisions[1..]);
      RefreshesRun(Advance(t, Refreshing(revisions[0])), revisions[1..]);
    }
  }

  const FORTH_AND_BACK := ["main-1", "main-0", "main-1"]

  lemma LastNewForthAndBack()
    ensures LastNew(FORTH_AND_BACK) == Some("main-0")
  {
    assert FORTH_AND_BACK[..2] == ["main-1", "main-0"];
    assert ["main-1", "main-0"][..1] == ["main-1"];
    assert "main-1"[5] != "main-0"[5];
  }

  /** The base moves on, back and on again; the log has nothing to record the third time, and a restart goes back. */
  lemma ReturningBaseIsLost()
    ensures
      var end := Ran(S.ContinuousFrontier, Refreshes(FORTH_AND_BACK)).ctrl;
      && Project(end.log).active.Keys == Elems([])
      && end.sim.sched.base == "main-1"
      && var r := Rehydrate(Reopened(Begun(S.ContinuousFrontier), end.log), Project(end.log), []);
         r.Ok? && r.value.sim.sched.base == "main-0"
  {
    hide Live, Rehydrate, Project, Play, LastNew, Refreshes;
    var t := Trace(Opened(S.ContinuousFrontier), []);
    var actions := Refreshes(FORTH_AND_BACK);
    NewIsLive(ALONE, S.ContinuousFrontier, "main-0", "shop", "/work", ReviewPolicyData(1, []), {});
    RefreshesRun(t, FORTH_AND_BACK);
    PlayKeeps(t, {}, actions);
    NothingIsOpen(Play(t, actions).ctrl, {}, Play(t, actions).revisions);
    assert [] + FORTH_AND_BACK == FORTH_AND_BACK;
    LastNewForthAndBack();
    EveryRunSurvivesRestart(ALONE, "main-0", "shop", "/work", ReviewPolicyData(1, []), {}, actions, []);
  }

  lemma NothingIsOpen(c: Controller, completed: set<ItemId>, revisions: seq<Revision>)
    requires Live(c, completed, revisions) && c.active.Keys + c.sim.sched.cancelled == {}
    ensures Project(c.log).active.Keys == {}
  {
    hide Linked, Journal;
    ProjectionReproduces(c, completed, revisions);
    OpenItems(c, completed);
  }

  // A run id that is used again.

  lemma PromptIsTheFirstRow()
    ensures var rows := [RowOf(PromptSnapshotRecorded(GO))];
      && Project(rows).attemptRecords == map[]
      && forall key :: HasKey(rows, key) <==> key == FactKey(PromptSnapshotRecorded(GO))
  {
    RecordsAfter([], PromptSnapshotRecorded(GO));
    assert Inserted([], RowOf(PromptSnapshotRecorded(GO))) == [RowOf(PromptSnapshotRecorded(GO))];
  }

  /** The first start is in the log, under its run. */
  lemma MorningIsRecorded(policy: S.Policy)
    ensures Project(Started(policy).log).attemptRecords == map[RunOne(1) := Morning("A-1", 1)]
    ensures forall key :: HasKey(Started(policy).log, key) <==>
      || key == FactKey(PromptSnapshotRecorded(GO)) || key == FactKey(TicketStateChanged("A-1", InProgress))
      || key == AttemptKey(RunOne(1)) || key == WaveKey(1)
  {
    hide RowsAfterStart, Started, Morning, Project, HasKey, Opened, Begun, Sim.AfterDispatch, Live;
    FirstStart(policy);
    PromptIsTheFirstRow();
    StartIsRecorded([RowOf(PromptSnapshotRecorded(GO))], WorkAttemptStarted(RunOne(1), Morning("A-1", 1)), WAVE);
  }

  /** A retry with another prompt raises once the attempt is superseded: the item is left waiting without one. */
  lemma ChangedPromptRaises()
    ensures
      var c := Started(S.ContinuousFrontier);
      var r := Retry(c, "A-1", Some("stop"), None, MORNING);
      && "A-1" in c.active && !CanRetry(c, "A-1", Some("stop"), MORNING)
      && Sim.AfterRetry(c.sim, "A-1").Ok? && r == Reply(Superseded(c, "A-1"), Some(PromptChanged))
      && r.ctrl.active == map[] && S.Frontier(r.ctrl.sim.sched) == ["A-1"]
  {
    hide Live, Started, S.Frontier, Sim.AfterRetry, Supersede, HasPrompts, Sim.AfterDispatch;
    var c := Started(S.ContinuousFrontier);
    FirstStart(S.ContinuousFrontier);
    StartedAlone();
    RetryIsTaken(c, {}, [], "A-1");
    var t := Superseded(c, "A-1");
    RetryWaits(c, "A-1");
    OnePrompt(t.prompts, Prompt("A-1", "stop"), ["A-1"]);
    assert |GO.text| == 2 && |"stop"| == 4;
    assert PersistPrompts(t, [Prompt("A-1", "stop")]) == Reply(t, Some(PromptChanged));
  }

  /** So does one whose template no longer passes, even under the prompt it had. */
  lemma ExpiredAuthorityRaises()
    ensures
      var c := Started(S.ContinuousFrontier);
      && "A-1" in c.active && CanRetry(c, "A-1", None, EVENING) && !CanRetry(c, "A-1", None, EXPIRED)
      && Retry(c, "A-1", None, None, EXPIRED) == Reply(Superseded(c, "A-1"), Some(TemplateRefused))
      && Superseded(c, "A-1").active == map[] && S.Frontier(Superseded(c, "A-1").sim.sched) == ["A-1"]
  {
    hide Live, Started, S.Frontier, Sim.AfterRetry, Supersede, HasPrompts, Sim.AfterDispatch;
    var c := Started(S.ContinuousFrontier);
    FirstStart(S.ContinuousFrontier);
    StartedAlone();
    RetryIsTaken(c, {}, [], "A-1");
    RetryWaits(c, "A-1");
    OnePrompt(c.prompts, GO, ["A-1"]);
  }

  lemma RetryWaits(c: Controller, item: ItemId)
    requires Live(c, {}, []) && c.sim.sched.graph == ALONE && c.sim.sched.policy.ContinuousFrontier? && item in c.active
    ensures item == "A-1" && Sim.AfterRetry(c.sim, item).Ok?
    ensures S.Frontier(Sim.AfterRetry(c.sim, item).value.sched) == [item]
    ensures RunNow(Sim.AfterRetry(c.sim, item).value, item) == RunId(item, c.sim.sched.base, c.active[item].run.attempt + 1)
    ensures item in c.attempts && !c.attempts[item].state.ReleasedAttempt?
  {
    hide Journal, Linked, View, Sim.AfterRetry, S.Frontier;
    RetryIsTaken(c, {}, [], item);
    RetriedSchedule(c, {}, item);
    ActiveIsLive(c, {}, item);
    SimRetryNumbers(c.sim, item);
    AloneFrontier(Sim.AfterRetry(c.sim, item).value.sched);
  }

  lemma RetryKeepsArguments(s: Sim.Sim, item: ItemId)
    ensures Sim.AfterRetry(s, item).Ok? ==>
      var t := Sim.AfterRetry(s, item).value;
      && t.repository == s.repository && t.root == s.root
      && t.sched.graph == s.sched.graph && t.sched.policy == s.sched.policy
      && t.sched.base == s.sched.base && t.sched.cancelled == s.sched.cancelled - {item}
  {
  }

  lemma DifferentTimes(n: nat)
    ensures Morning("A-1", n) != Evening("A-1", n)
  {
    assert "started at 09:00"[11] != "started at 18:00"[11];
  }

  lemma AloneIsValid()
    ensures forall id :: id in ALONE.blockers ==> IsItemId(id)
  {
    assert "A-1"[1..1] == "" && "A-1"[2..] == "1" && "A-1"[1] == '-';
  }

  ghost predicate WorksAlone(sim: Sim.Sim) {
    && sim.repository == "shop" && sim.root == "/work" && sim.sched.cancelled == {}
    && sim.sched.graph == ALONE && sim.sched.policy.ContinuousFrontier? && sim.sched.base == "main-0"
  }

  lemma StartedAlone()
    ensures WorksAlone(Started(S.ContinuousFrontier).sim)
  {
    hide Started, S.Frontier;
    FirstStart(S.ContinuousFrontier);
  }

  lemma SupersededAlone(c: Controller)
    requires Live(c, {}, []) && WorksAlone(c.sim) && "A-1" in c.active
    ensures Sim.AfterRetry(c.sim, "A-1").Ok? && WorksAlone(Superseded(c, "A-1").sim)
  {
    hide Live, Sim.AfterRetry, Supersede;
    RetryIsTaken(c, {}, [], "A-1");
    RetryKeepsArguments(c.sim, "A-1");
  }

  /** Superseding leaves the record of the start alone. */
  lemma SupersededIsRecorded()
    ensures var c := Started(S.ContinuousFrontier);
      && "A-1" in c.active && Sim.AfterRetry(c.sim, "A-1").Ok?
      && var log := Superseded(c, "A-1").log;
         && Project(log).attemptRecords == map[RunOne(1) := Morning("A-1", 1)]
         && !HasKey(log, AttemptKey(RunOne(2)))
  {
    hide Live, Started, Project, HasKey, Inserted, Sim.AfterRetry, Superseded, Morning, RowsAfterStart, Sim.AfterDispatch;
    var c := Started(S.ContinuousFrontier);
    FirstStart(S.ContinuousFrontier);
    MorningIsRecorded(S.ContinuousFrontier);
    RetryIsTaken(c, {}, [], "A-1");
    SupersededRecords(c, "A-1");
    SupersededLog(c, "A-1");
    KeysAfterInsert(c.log, RowOf(WorkAttemptStateChanged(RunOne(1), SupersededAttempt)));
  }

  /** The item that waits starts its first attempt over after a restart, under the run id of the superseded one. */
  lemma ReopenedFrontierConflicts()
    ensures
      var c, sim := Retry(Started(S.ContinuousFrontier), "A-1", Some("stop"), None, MORNING).ctrl, Begun(S.ContinuousFrontier);
      && Project(c.log).active.Keys == Elems([])
      && var r := Rehydrate(Reopened(sim, c.log), Project(c.log), []);
         && r.Ok? && S.Frontier(r.value.sim.sched) == ["A-1"]
         && DispatchReady(r.value, [GO], EVENING).fault == Some(LogConflict)
  {
    hide Live, Started, S.Frontier, Rehydrate, DispatchReady, Retry, Project, Superseded, HasPrompts, Agree, Morning, Evening;
    hide Sim.AfterDispatch, Sim.AfterRetry, RowsAfterStart;
    var c, sim := Started(S.ContinuousFrontier), Begun(S.ContinuousFrontier);
    ChangedPromptRaises();
    FirstStart(S.ContinuousFrontier);
    RetryIsTaken(c, {}, [], "A-1");
    var t := Superseded(c, "A-1");
    SupersededIsRecorded();
    StartedAlone();
    SupersededAlone(c);
    NothingIsOpen(t, {}, []);
    AloneIsValid();
    DifferentTimes(1);
    OnePrompt(t.prompts, GO, ["A-1"]);
    RestartedDispatch(sim, t, {}, [], [], [GO], EVENING);
    RestartRebuilds(sim, t, {}, [], []);
  }

  /** With the same workspace as before nothing is raised; but the start adds nothing to the log, which has the item closed. */
  lemma ReopenedFrontierIsLost()
    ensures
      var c, sim := Retry(Started(S.ContinuousFrontier), "A-1", Some("stop"), None, MORNING).ctrl, Begun(S.ContinuousFrontier);
      && Project(c.log).active.Keys == Elems([])
      && var r := Rehydrate(Reopened(sim, c.log), Project(c.log), []);
         && r.Ok? && RR.InStep(r.value)
         && var t := DispatchReady(r.value, [GO], MORNING); t.fault.None? && !RR.InStep(t.ctrl)
  {
    hide Live, Started, S.Frontier, Rehydrate, DispatchReady, Retry, Project, Superseded, HasPrompts, Agree, Morning, Evening;
    hide Sim.AfterDispatch, Sim.AfterRetry, RowsAfterStart, HasKey, RR.InStep;
    var c, sim := Started(S.ContinuousFrontier), Begun(S.ContinuousFrontier);
    ChangedPromptRaises();
    FirstStart(S.ContinuousFrontier);
    RetryIsTaken(c, {}, [], "A-1");
    var t := Superseded(c, "A-1");
    SupersededIsRecorded();
    StartedAlone();
    SupersededAlone(c);
    NothingIsOpen(t, {}, []);
    AloneIsValid();
    OnePrompt(t.prompts, GO, ["A-1"]);
    RestartedDispatch(sim, t, {}, [], [], [GO], MORNING);
    RestartRebuilds(sim, t, {}, [], []);
    RR.LiveLogFits(t, {}, []);
    RR.RebuiltIsInStep(sim, t.log, []);
    var r := Rehydrate(Reopened(sim, t.log), Project(t.log), []).value;
    RR.DispatchInStep(r, [GO], MORNING);
    StartClashes(t.log, View(t, {}, []), RunOne(1), Morning("A-1", 1)) by {
      LiveJournal(t, {}, []);
    }
    assert RunNow(r.sim, "A-1") == RunOne(1) && HasKey(r.log, AttemptKey(RunOne(1)));
    assert !RR.FreshFrontier(r);
  }

  function Retried(): Controller {
    Retry(Started(S.ContinuousFrontier), "A-1", None, None, MORNING).ctrl
  }

  /** A retry under the recorded prompt starts the second attempt, and the log records it. */
  lemma RetryIsRecorded()
    ensures var c := Retried();
      && Live(c, {}, []) && WorksAlone(c.sim) && c.prompts == [GO]
      && "A-1" in c.active && c.active["A-1"].run == RunOne(2) && c.active.Keys == {"A-1"}
      && RunOne(2) in Project(c.log).attemptRecords && Project(c.log).attemptRecords[RunOne(2)] == Morning("A-1", 2)
  {
    hide Live, Started, S.Frontier, Sim.AfterRetry, Supersede, Sim.AfterDispatch, DispatchFrontier, RowsAfterStart, Morning;
    hide Project, HasKey, Inserted, DispatchReady, HasPrompts, Agree;
    var c := Started(S.ContinuousFrontier);
    FirstStart(S.ContinuousFrontier);
    StartedAlone();
    RetryKeeps(c, {}, [], "A-1", None, None, MORNING);
    RetryReplaces(c, {}, [], "A-1", None, MORNING);
    RetryIsTaken(c, {}, [], "A-1");
    RetryWaits(c, "A-1");
    SupersededAlone(c);
    SupersededIsRecorded();
    SecondStart(Superseded(c, "A-1"));
  }

  lemma SecondStart(t: Controller)
    requires Live(t, {}, []) && WorksAlone(t.sim) && t.prompts == [GO] && t.active == map[]
    requires S.Frontier(t.sim.sched) == ["A-1"] && RunNow(t.sim, "A-1") == RunOne(2)
    requires !HasKey(t.log, AttemptKey(RunOne(2)))
    ensures var r := DispatchReady(t, [GO], MORNING);
      && r.fault.None? && WorksAlone(r.ctrl.sim) && r.ctrl.prompts == [GO] && r.ctrl.active.Keys == {"A-1"}
      && RunOne(2) in Project(r.ctrl.log).attemptRecords
      && Project(r.ctrl.log).attemptRecords[RunOne(2)] == Morning("A-1", 2)
  {
    hide Live, S.Frontier, Sim.AfterDispatch, DispatchFrontier, RowsAfterStart, Morning, Project, HasKey, Inserted, DispatchReady;
    LoneDispatch(t, {}, [], GO, MORNING);
    var u := Emit(t, PromptSnapshotRecorded(GO));
    LoneFrontier(u, "A-1", MORNING);
    KeysAfterInsert(t.log, RowOf(PromptSnapshotRecorded(GO)));
    AssignedItem(u.sim, "A-1");
    var wave := S.ExecutionWave(u.sim.sched.waveSequence + 1, u.sim.sched.base, ["A-1"], S.Active);
    StartIsRecorded(u.log, WorkAttemptStarted(RunOne(2), Morning("A-1", 2)), wave);
    DispatchWorksAlone(u.sim);
  }

  lemma DispatchWorksAlone(s: Sim.Sim)
    requires WorksAlone(s)
    ensures WorksAlone(Sim.AfterDispatch(s))
  {
  }

  /** After a restart the retried item starts its second attempt over, under the run id of the one that is running. */
  lemma ReopenedRetryConflicts()
    ensures
      var c, sim := Retried(), Begun(S.ContinuousFrontier);
      && Project(c.log).active.Keys == Elems(["A-1"])
      && var r := Rehydrate(Reopened(sim, c.log), Project(c.log), ["A-1"]);
         && r.Ok? && "A-1" in r.value.active && r.value.active["A-1"].run == RunOne(2)
         && Retry(r.value, "A-1", None, None, EVENING).fault == Some(LogConflict)
  {
    hide Live, Started, S.Frontier, Rehydrate, Retry, Project, Morning, Evening, Sim.AfterRetry, Retried;
    var c, sim := Retried(), Begun(S.ContinuousFrontier);
    RetryIsRecorded();
    OneIsOpen(c);
    AloneIsValid();
    DifferentTimes(2);
    RestartRebuilds(sim, c, {}, [], ["A-1"]);
    var r := Rehydrate(Reopened(sim, c.log), Project(c.log), ["A-1"]).value;
    RestartedRetry(sim, c, {}, [], ["A-1"], "A-1", None, EVENING);
    RetriedAlone(r.sim);
  }

  lemma OneIsOpen(c: Controller)
    requires Live(c, {}, []) && c.active.Keys == {"A-1"} && c.sim.sched.cancelled == {}
    ensures Project(c.log).active.Keys == Elems(["A-1"])
  {
    hide Linked, Journal;
    ProjectionReproduces(c, {}, []);
    OpenItems(c, {});
  }

  lemma RetriedAlone(s: Sim.Sim)
    requires s.sched.graph == ALONE && Sim.AfterRetry(s, "A-1").Ok?
    ensures Elems(S.Frontier(Sim.AfterRetry(s, "A-1").value.sched)) <= {"A-1"}
  {
    hide Sim.AfterRetry, S.Frontier;
    RetryKeepsArguments(s, "A-1");
    AloneFrontier(Sim.AfterRetry(s, "A-1").value.sched);
  }

  // A cancelled item, a barrier run and a late failure.

  /** A cancelled item is active again after a restart. */
  lemma CancelledItemReturns()
    ensures
      var c, sim := CancelFromWave(Started(S.ContinuousFrontier), "A-1", "dropped").ctrl, Begun(S.ContinuousFrontier);
      && c.active == map[] && c.sim.sched.cancelled == {"A-1"} && Project(c.log).active.Keys == Elems(["A-1"])
      && var r := Rehydrate(Reopened(sim, c.log), Project(c.log), ["A-1"]);
         r.Ok? && r.value.active.Keys == {"A-1"}
  {
    hide Live, Started, S.Frontier, Rehydrate, CancelFromWave, Project, Morning;
    var c, sim := Started(S.ContinuousFrontier), Begun(S.ContinuousFrontier);
    FirstStart(S.ContinuousFrontier);
    StartedAlone();
    CancelKeeps(c, {}, [], "A-1", "dropped");
    var t := CancelFromWave(c, "A-1", "dropped").ctrl;
    CancelledAlone(c);
    CancelledIsOpen(t);
    RestartRefines(sim, t, {}, [], ["A-1"]);
    OnlyCancelledItemsReturn(sim, t, {}, [], ["A-1"]);
  }

  lemma CancelledAlone(c: Controller)
    requires Live(c, {}, []) && WorksAlone(c.sim) && c.active.Keys == {"A-1"}
    ensures var t := CancelFromWave(c, "A-1", "dropped").ctrl;
      && t.active == map[] && t.sim.sched.cancelled == {"A-1"}
      && t.sim.sched.graph == ALONE && t.sim.sched.policy.ContinuousFrontier?
  {
    hide Journal, View;
    ActiveIsLive(c, {}, "A-1");
    assert "A-1" in L.InFlight(c.sim.sched);
    assert !IsSpace("dropped"[0]);
    CancelChanges(c.sim, {}, "A-1", "dropped");
  }

  lemma CancelledIsOpen(c: Controller)
    requires Live(c, {}, []) && c.active == map[] && c.sim.sched.cancelled == {"A-1"}
    ensures Project(c.log).active.Keys == Elems(["A-1"])
  {
    hide Linked, Journal;
    ProjectionReproduces(c, {}, []);
    OpenItems(c, {});
  }

  const DELIVERED := DeliveryObservation(
    "shop", WorktreePath("/work", "A-1", 1), BranchRef("A-1", 1), "main-0", "main-0", "head-1", "head-1", true, 1, true, true,
    Some("merge-1"), true, Some(true), Some(true), false, None, false, Some(true))

  /** The simulator that waits for the only item's delivery. */
  ghost predicate AwaitsDelivery(s: Sim.Sim, policy: S.Policy) {
    && s.dispatched == map["A-1" := Sim.Assigned(Begun(policy), "A-1")] && s.decisions == map[]
    && s.review == ReviewPolicyData(1, []) && s.activeWave == (if policy.WaveBarrier? then {"A-1"} else {})
    && s.sched.dispatched == {"A-1"} && s.sched.released == s.sched.cancelled == {}
    && s.sched.graph == ALONE && s.sched.policy == policy
  }

  lemma StartedAwaits(policy: S.Policy)
    ensures AwaitsDelivery(Started(policy).sim, policy)
  {
    hide Live, Started, S.Frontier, RowsAfterStart, Sim.Assigned;
    FirstStart(policy);
    AloneFrontier(Begun(policy).sched);
  }

  lemma DeliveredIsApproved(policy: S.Policy)
    ensures Decide(ReviewPolicyData(1, []), Sim.Assigned(Begun(policy), "A-1"), DELIVERED).status.Approved?
  {
  }

  /** Observing and judging the delivery releases the item and lets the base be refreshed. */
  lemma DeliveryReleases(s: Sim.Sim, policy: S.Policy)
    requires AwaitsDelivery(s, policy)
    ensures Sim.AfterObserve(s, "A-1", DELIVERED).Ok?
    ensures var r := Sim.AfterEvaluate(Sim.AfterObserve(s, "A-1", DELIVERED).value, "A-1");
      && r.Ok? && r.value.1.status.Approved?
      && var t := r.value.0;
         && t.sched.released == {"A-1"} && t.sched.cancelled == {}
         && t.sched.graph == ALONE && t.sched.policy == policy && Sim.CanRefresh(t)
  {
    hide Decide, Sim.Assigned;
    DeliveredIsApproved(policy);
  }

  /** What approving the only item leaves: it is released, done, and off the active set. */
  lemma DeliveredIsReleased(policy: S.Policy)
    ensures var c := Started(policy);
      && "A-1" in c.active && Judge(c, "A-1", DELIVERED).Ok?
      && var (t, decision) := Judge(c, "A-1", DELIVERED).value;
         && decision.status.Approved? && Live(t, {}, []) && t.active == map[]
         && t.sim.sched.released == {"A-1"} && t.sim.sched.cancelled == {}
         && t.sim.sched.graph == ALONE && t.sim.sched.policy == policy && Sim.CanRefresh(t.sim)
  {
    hide Live, Started, S.Frontier, RowsAfterStart, Sim.AfterObserve, Sim.AfterEvaluate, Sim.CanRefresh, Sim.AfterDispatch, Morning;
    hide Settle, RaiseAttention, RecordWaveState;
    var c := Started(policy);
    FirstStart(policy);
    StartedAwaits(policy);
    DeliveryReleases(c.sim, policy);
    JudgeKeeps(c, {}, [], "A-1", DELIVERED);
    var observed := Sim.AfterObserve(c.sim, "A-1", DELIVERED).value;
    var t := PublishReview(c.(sim := observed), "A-1", DELIVERED);
    var (sim, decision) := Sim.AfterEvaluate(observed, "A-1").value;
    SettleLeaves(Emit(RecordWaveState(t.(sim := sim)), GateEvent(c.active["A-1"].run, decision, DELIVERED)), "A-1");
  }

  /** Under the barrier the approval moves the base, and the next restart is refused. */
  lemma BarrierRunIsRefused()
    ensures
      var end := Ran(S.WaveBarrier, [Action.Dispatch([GO], MORNING),
                                     Reconciling("A-1", Observed(DELIVERED), Some("main-1"), MORNING)]);
      && end.revisions == ["main-1"]
      && Project(end.ctrl.log).active.Keys == Elems([])
      && Rehydrate(Reopened(Begun(S.WaveBarrier), end.ctrl.log), Project(end.ctrl.log), []).Err?
  {
    hide Live, Started, S.Frontier, Judge, Refill, Rehydrate, Project, Act, RefreshedTo, Opened;
    var c := Started(S.WaveBarrier);
    var a, b := Action.Dispatch([GO], MORNING), Reconciling("A-1", Observed(DELIVERED), Some("main-1"), MORNING);
    var t := Trace(Opened(S.WaveBarrier), []);
    PlayTwo(t, a, b);
    assert Act(t.ctrl, a) == c && RefreshedTo(t.ctrl, a) == [] by {
      StartedByPlay(S.WaveBarrier);
    }
    BarrierDelivery();
    FirstStart(S.WaveBarrier);
    assert [] + ["main-1"] == ["main-1"];
    ActKeeps(c, {}, [], b);
    NothingIsOpen(Act(c, b), {}, ["main-1"]);
    BarrierRestartRefused(Begun(S.WaveBarrier), Act(c, b), {}, ["main-1"], []);
  }

  lemma StartedByPlay(policy: S.Policy)
    ensures var a := Action.Dispatch([GO], MORNING);
      Act(Opened(policy), a) == Started(policy) && RefreshedTo(Opened(policy), a) == []
  {
    hide DispatchReady;
  }

  /** Everything is released, so a refresh has nothing to start. */
  lemma NothingLeftToStart(c: Controller, revision: Revision)
    requires Live(c, {}, []) && c.sim.sched.graph == ALONE && c.sim.sched.released == {"A-1"} && Sim.CanRefresh(c.sim)
    ensures var r := Refill(c, Some(revision), MORNING);
      r.fault.None? && r.ctrl.active == c.active && r.ctrl.sim.sched.cancelled == c.sim.sched.cancelled
      && r.ctrl.sim.sched.policy == c.sim.sched.policy
  {
    hide Live, S.Frontier, Sim.CanRefresh, DispatchReady;
    LiveIsAligned(c, {}, []);
    SL.LayersNeverDisagree(c.sim, {}, "", revision);
    AloneFrontier(Sim.AfterRefresh(c.sim, revision).value.sched);
  }

  lemma BarrierDelivery()
    ensures var c, b := Started(S.WaveBarrier), Reconciling("A-1", Observed(DELIVERED), Some("main-1"), MORNING);
      && RefreshedTo(c, b) == ["main-1"]
      && Act(c, b).active.Keys + Act(c, b).sim.sched.cancelled == {} && Act(c, b).sim.sched.policy.WaveBarrier?
  {
    hide Live, Started, S.Frontier, Judge, Sim.CanRefresh, Refill;
    DeliveredIsReleased(S.WaveBarrier);
    NothingLeftToStart(Judge(Started(S.WaveBarrier), "A-1", DELIVERED).value.0, "main-1");
  }

  /** Whether the item's move to attention is in the log. */
  predicate SaysAttention(c: Controller, item: ItemId) {
    item in c.attentionPublished || HasKey(c.log, FactKey(TicketStateChanged(item, NeedsAttention)))
  }

  lemma EmitSaysElse(c: Controller, e: Event, item: ItemId)
    requires e != TicketStateChanged(item, NeedsAttention)
    ensures SaysAttention(Emit(c, e), item) <==> SaysAttention(c, item)
  {
    KeysAfterInsert(c.log, RowOf(e));
  }

  /** Approving an item says nothing about attention. */
  lemma ApprovalSaysElse(c: Controller, item: ItemId, o: DeliveryObservation)
    requires item in c.active && Judge(c, item, o).Ok? && Judge(c, item, o).value.1.status.Approved?
    ensures SaysAttention(Judge(c, item, o).value.0, item) <==> SaysAttention(c, item)
  {
    hide HasKey, Inserted, Sim.AfterObserve, Sim.AfterEvaluate;
    var observed := Sim.AfterObserve(c.sim, item, o).value;
    var c1 := c.(sim := observed);
    EmitSaysElse(c1, TicketStateChanged(item, InReview), item);
    var c2 := PublishReview(c1, item, o);
    var (sim, decision) := Sim.AfterEvaluate(c2.sim, item).value;
    var c3 := c2.(sim := sim);
    if c3.sim.sched.currentWave.Some? {
      EmitSaysElse(c3, ExecutionWaveStateChanged(c3.sim.sched.currentWave.value.number, S.Released), item);
    }
    var c4 := RecordWaveState(c3);
    EmitSaysElse(c4, GateEvent(c.active[item].run, decision, o), item);
    SettleSaysElse(Emit(c4, GateEvent(c.active[item].run, decision, o)), item);
  }

  lemma SettleSaysElse(c: Controller, item: ItemId)
    requires item in c.active
    ensures SaysAttention(Settle(c, item), item) <==> SaysAttention(c, item)
  {
    hide HasKey, Inserted;
    EmitSaysElse(c, TicketStateChanged(item, Done), item);
    var u := SetAttempt(SetTicket(c, item, Done).(donePublished := c.donePublished + {item}), item, ReleasedAttempt);
    EmitSaysElse(u, WorkAttemptStateChanged(c.active[item].run, ReleasedAttempt), item);
  }

  /** A failure reported for the delivered item makes the next restart forget that it is done. */
  lemma LateFailureIsReported()
    ensures
      var c := Reconcile(Started(S.ContinuousFrontier), "A-1", Observed(DELIVERED), None, MORNING).ctrl;
      && c.sim.sched.released == {"A-1"}
      && "A-1" in FinishedItems(Project(c.log))
      && "A-1" !in FinishedItems(Project(MarkRuntimeFailure(c, "A-1", Operational("runtime_failed")).log))
  {
    hide Live, Started, S.Frontier, Judge, Project, HasKey, MarkRuntimeFailure, FinishedItems;
    DeliveredIsReleased(S.ContinuousFrontier);
    var c := Judge(Started(S.ContinuousFrontier), "A-1", DELIVERED).value.0;
    ApprovalSaysElse(Started(S.ContinuousFrontier), "A-1", DELIVERED);
    StartSaysElse();
    DeliveredIsFinished(c);
    LateFailureForgetsRelease(c, {}, [], "A-1", Operational("runtime_failed"));
  }

  lemma StartSaysElse()
    ensures !SaysAttention(Started(S.ContinuousFrontier), "A-1")
  {
    hide Started, HasKey, RowsAfterStart, Morning, Live, Sim.AfterDispatch, Project;
    FirstStart(S.ContinuousFrontier);
    MorningIsRecorded(S.ContinuousFrontier);
  }

  lemma DeliveredIsFinished(c: Controller)
    requires Live(c, {}, []) && c.sim.sched.released == {"A-1"}
    ensures FinishedItems(Project(c.log)) == {"A-1"}
  {
    hide Linked, Journal;
    ProjectionReproduces(c, {}, []);
  }

  // Two items and one that waits for both, under the barrier.

  const TRIO: G.DependencyGraph :=
    G.GraphData(["A-1", "A-2", "B-1"], map["A-1" := [], "A-2" := [], "B-1" := ["A-1", "A-2"]])

  const GO_TOO := Prompt("A-2", "go")

  const TRIO_SIM := Sim.NewSim(TRIO, S.WaveBarrier, "main-0", "shop", "/work", ReviewPolicyData(1, []), {})

  lemma TrioFrontier()
    ensures Elems(S.Frontier(TRIO_SIM.sched)) == {"A-1", "A-2"}
  {
    L.FrontierItems(TRIO_SIM.sched);
    assert "A-1" in Elems(TRIO.blockers["B-1"]);
    assert Elems(TRIO.blockers["A-1"]) == {} == Elems(TRIO.blockers["A-2"]);
    assert TRIO.blockers.Keys == {"A-1", "A-2", "B-1"};
    forall id ensures id in S.Frontier(TRIO_SIM.sched) <==> id == "A-1" || id == "A-2" {
      assert G.IsReady(TRIO, {}, id) <==> id == "A-1" || id == "A-2";
    }
  }

  lemma TrioCanDispatch()
    ensures CanDispatch(NewController(TRIO_SIM), [GO, GO_TOO], MORNING)
  {
    hide S.Frontier;
    TrioFrontier();
    var items := S.Frontier(TRIO_SIM.sched);
    assert PromptFor([GO, GO_TOO], "A-1").Some?;
    assert [GO, GO_TOO][1..] == [GO_TOO] && PromptFor([GO_TOO], "A-2").Some?;
    forall i | 0 <= i < |items| ensures PromptFor([GO, GO_TOO], items[i]).Some? {
      assert items[i] in Elems(items);
    }
  }

  function TrioStarted(): Controller {
    DispatchReady(NewController(TRIO_SIM), [GO, GO_TOO], MORNING).ctrl
  }

  lemma TrioStarts()
    ensures Live(TrioStarted(), {}, []) && TrioStarted().active.Keys == {"A-1", "A-2"}
    ensures TrioStarted().sim == Sim.AfterDispatch(TRIO_SIM)
  {
    hide Live, S.Frontier, DispatchReady, CanDispatch, Sim.AfterDispatch;
    var c := NewController(TRIO_SIM);
    NewIsLive(TRIO, S.WaveBarrier, "main-0", "shop", "/work", ReviewPolicyData(1, []), {});
    TrioFrontier();
    TrioCanDispatch();
    DispatchKeeps(c, {}, [], [GO, GO_TOO], MORNING);
    forall item ensures item in TrioStarted().active <==> item in Elems(S.Frontier(TRIO_SIM.sched)) {
      DispatchStarts(c, {}, [], [GO, GO_TOO], MORNING, item);
    }
    DispatchStarts(c, {}, [], [GO, GO_TOO], MORNING, "A-1");
    DispatchSim(c, [GO, GO_TOO], MORNING);
  }

  lemma DispatchSim(c: Controller, prompts: seq<Prompt>, launcher: Launcher)
    ensures var r := DispatchReady(c, prompts, launcher); r.fault.None? ==> r.ctrl.sim == Sim.AfterDispatch(c.sim)
  {
    hide StartFrontier, S.Frontier, PersistPrompts, Sim.AfterDispatch, HasPrompts, Admitted;
    PersistKeepsSim(c, prompts);
    StartFrontierKeepsSim(PersistPrompts(c, prompts).ctrl, launcher);
  }

  lemma TrioSchedule()
    ensures var s := Sim.AfterDispatch(TRIO_SIM);
      && s.sched.policy.WaveBarrier? && s.sched.graph == TRIO && s.sched.cancelled == {} && s.review == ReviewPolicyData(1, [])
      && s.sched.dispatched == {"A-1", "A-2"} && s.decisions == map[]
  {
    hide S.Frontier;
    TrioFrontier();
  }

  lemma ReconcileJudges(c: Controller, item: ItemId, o: DeliveryObservation)
    requires item in c.active && Judge(c, item, o).Ok?
    ensures Reconcile(c, item, Observed(o), None, MORNING).ctrl == Judge(c, item, o).value.0
  {
    hide Judge;
  }

  function TrioHalfDone(): Controller
    requires "A-1" in TrioStarted().active
  {
    Reconcile(TrioStarted(), "A-1", Observed(RP.Delivered(TrioStarted().active["A-1"].dispatch)), None, MORNING).ctrl
  }

  lemma TrioIsHalfDone()
    ensures "A-1" in TrioStarted().active
    ensures var t := TrioHalfDone();
      && Live(t, {}, []) && t.active.Keys == {"A-2"} && t.sim.sched.cancelled == {} && t.sim.sched.graph == TRIO
      && BR.WouldStall(t) && WR.WavesAreRecorded(t)
  {
    hide Live, TrioStarted, Judge, Reconcile, BR.WouldStall, WR.WavesAreRecorded, Sim.AfterDispatch, RP.Delivered;
    var c := TrioStarted();
    TrioStarts();
    TrioSchedule();
    var o := RP.Delivered(c.active["A-1"].dispatch);
    FirstIsApproved(c, "A-1");
    ReconcileJudges(c, "A-1", o);
    BR.JudgedParts(c, {}, [], "A-1", o);
    BR.FirstApprovalWouldStall(c, {}, [], "A-1", "A-2", o);
    TrioIsRecorded(o);
    assert c.active.Keys - {"A-1"} == {"A-2"};
  }

  /**
   * Both items are started, the first is approved, and the controller is restarted. It is stalled: whatever is observed,
   * approved or refreshed from then on, the third item is not started unless an item is retried or cancelled.
   */
  lemma HalfDoneWaveStalls(order: seq<ItemId>, later: seq<Action>)
    requires BR.NeverEscapes(later)
    ensures "A-1" in TrioStarted().active
    ensures var t := TrioHalfDone();
      && t.active.Keys == {"A-2"}
      && (Elems(order) == Project(t.log).active.Keys ==>
            var r := Rehydrate(Reopened(TRIO_SIM, t.log), Project(t.log), order);
            && r.Ok? && BR.IsStalled(r.value)
            && var end := Play(Trace(r.value, []), later).ctrl;
               S.Frontier(end.sim.sched) == [] && "B-1" !in end.sim.sched.dispatched)
  {
    hide Live, TrioStarted, TrioHalfDone, Rehydrate, Project, Play, S.Frontier, BR.WouldStall, WR.WavesAreRecorded, BR.NeverEscapes;
    TrioIsHalfDone();
    var t := TrioHalfDone();
    if Elems(order) == Project(t.log).active.Keys {
      BR.LiveRestartStalls(TRIO_SIM, t, {}, order);
      var r := Rehydrate(Reopened(TRIO_SIM, t.log), Project(t.log), order).value;
      var lost :| BR.WaitsForLost(r, lost);
      BR.StallsForGood(Trace(r, []), lost, later);
      RestoredIsOpen(t, order);
    }
  }

  lemma FirstIsApproved(c: Controller, item: ItemId)
    requires Live(c, {}, []) && item in c.active && c.sim.review == ReviewPolicyData(1, []) && item !in c.sim.decisions
    ensures var o := RP.Delivered(c.active[item].dispatch);
      Judge(c, item, o).Ok? && Judge(c, item, o).value.1.status.Approved?
  {
    hide Linked, Journal, Settle, RaiseAttention, Decide, RecordWaveState;
    JudgeKeeps(c, {}, [], item, RP.Delivered(c.active[item].dispatch));
    RP.LiveDispatch(c, {}, [], item);
    GateIsExact(c.sim.review, c.active[item].dispatch, RP.Delivered(c.active[item].dispatch));
  }

  lemma TrioIsRecorded(o: DeliveryObservation)
    requires "A-1" in TrioStarted().active && Judge(TrioStarted(), "A-1", o).Ok?
    ensures WR.WavesAreRecorded(Judge(TrioStarted(), "A-1", o).value.0)
  {
    hide Live, S.Frontier, DispatchReady, WR.WavesAreRecorded, Judge;
    var c := NewController(TRIO_SIM);
    NewIsLive(TRIO, S.WaveBarrier, "main-0", "shop", "/work", ReviewPolicyData(1, []), {});
    assert WR.WavesAreRecorded(c) by {
      WR.NewRecordsWaves(TRIO_SIM);
    }
    WR.DispatchRecords(c, {}, [], [GO, GO_TOO], MORNING);
    TrioStarts();
    WR.JudgeRecords(TrioStarted(), {}, [], "A-1", o);
  }

  lemma RestoredIsOpen(t: Controller, order: seq<ItemId>)
    requires Live(t, {}, []) && t.active.Keys == {"A-2"} && t.sim.sched.cancelled == {}
    requires Elems(order) == Project(t.log).active.Keys
    requires Rehydrate(Reopened(TRIO_SIM, t.log), Project(t.log), order).Ok?
    ensures "B-1" !in Rehydrate(Reopened(TRIO_SIM, t.log), Project(t.log), order).value.sim.sched.dispatched
  {
    hide Linked, Journal, Rehydrate, Project;
    ProjectionReproduces(t, {}, []);
    OpenItems(t, {});
    BR.BarrierRestart(TRIO_SIM, t.log, Project(t.log), order);
  }
}
