/** What the log says about execution waves: after every run each is recorded, and as released exactly when it is. */
module WaveRecords {
  import opened Prelude
  import G = DependencyGraphs
  import opened EventLogs
  import opened Gate
  import opened Projections
  import opened Controllers
  import opened Journals
  import opened ControllerLaws
  import opened AssignmentLaws
  import opened Restarts
  import Sim = Simulation
  import SL = SimulationLaws
  import S = Scheduling
  import L = SchedulingLaws

  /** The log keeps of a wave's state whether it is released. */
  function Recorded(wave: S.ExecutionWave): S.ExecutionWave {
    wave.(state := if wave.state.Released? then S.Released else S.Active)
  }

  function StateKey(number: nat, state: S.WaveState): Key {
    KeyOf(ExecutionWaveStateChanged(number, state))
  }

  /** The wave's state was recorded as the wave was released. */
  ghost predicate IsTrue(waves: seq<S.ExecutionWave>, number: nat, state: S.WaveState) {
    state.Released? && 1 <= number <= |waves| && waves[number - 1].state.Released?
  }

  ghost predicate WavesAreRecorded(c: Controller) {
    var recorded, waves := Project(c.log).waves, c.sim.sched.waves;
    && |recorded| == |waves| && (forall i :: 0 <= i < |waves| ==> recorded[i] == Recorded(waves[i]))
    && (forall number, state :: HasKey(c.log, StateKey(number, state)) ==> IsTrue(waves, number, state))
    && forall i :: 0 <= i < |waves| && waves[i].state.Released? ==> Elems(waves[i].items) <= c.sim.sched.released
  }

  // Rows that say nothing about waves.

  ghost predicate SameWaveRows(a: seq<Row<Key, Event>>, b: seq<Row<Key, Event>>) {
    && Project(a).waves == Project(b).waves
    && forall number, state :: HasKey(a, StateKey(number, state)) <==> HasKey(b, StateKey(number, state))
  }

  lemma OtherRow(rows: seq<Row<Key, Event>>, e: Event)
    requires !e.ExecutionWaveStarted? && !e.ExecutionWaveStateChanged?
    ensures SameWaveRows(rows, Inserted(rows, RowOf(e)))
  {
    hide HasKey, Inserted;
    ProjectOneMore(rows, e);
    KeysAfterInsert(rows, RowOf(e));
  }

  lemma {:induction false} PersistRows(c: Controller, prompts: seq<Prompt>)
    ensures SameWaveRows(c.log, PersistPrompts(c, prompts).ctrl.log)
    decreases prompts
  {
    hide Project, HasKey, Inserted;
    if prompts != [] {
      var p := prompts[0];
      var t := if PromptFor(c.prompts, p.item).Some? then c else c.(prompts := c.prompts + [p]);
      OtherRow(c.log, PromptSnapshotRecorded(p));
      PersistRows(Emit(t, PromptSnapshotRecorded(p)), prompts[1..]);
    }
  }

  lemma {:induction false} StartRows(c: Controller, ds: seq<Dispatch>, launcher: Launcher)
    ensures SameWaveRows(c.log, StartAll(c, ds, launcher).log)
  {
    hide Project, HasKey, Inserted, StartAttempt;
    if ds != [] {
      var t, d := StartAll(c, ds[..|ds| - 1], launcher), ds[|ds| - 1];
      StartRows(c, ds[..|ds| - 1], launcher);
      StartOne(t, d, launcher.create(d.item, d.attempt));
      var ticket := TicketStateChanged(d.item, InProgress);
      OtherRow(t.log, ticket);
      OtherRow(Inserted(t.log, RowOf(ticket)), WorkAttemptStarted(RunOf(d), launcher.create(d.item, d.attempt)));
    }
  }

  lemma MarkRows(c: Controller, item: ItemId, code: FailureCode)
    ensures SameWaveRows(c.log, MarkRuntimeFailure(c, item, code).log)
  {
    hide Project, HasKey, Inserted;
    var t := NoteAttention(c, item);
    OtherRow(c.log, TicketStateChanged(item, NeedsAttention));
    var u := SetAttempt(t, item, AttentionNeeded);
    var v := if item in u.attempts && item in u.active
             then Emit(u, WorkAttemptStateChanged(u.active[item].run, AttentionNeeded)) else u;
    if item in u.active {
      OtherRow(u.log, WorkAttemptStateChanged(u.active[item].run, AttentionNeeded));
    }
    OtherRow(v.log, RuntimeFailed(item, code));
  }

  lemma SettleRows(c: Controller, item: ItemId)
    requires item in c.active
    ensures SameWaveRows(c.log, Settle(c, item).log) && SameWaveRows(c.log, RaiseAttention(c, item).log)
  {
    hide Project, HasKey, Inserted;
    var run := c.active[item].run;
    OtherRow(c.log, TicketStateChanged(item, Done));
    OtherRow(SetTicket(c, item, Done).log, WorkAttemptStateChanged(run, ReleasedAttempt));
    OtherRow(c.log, TicketStateChanged(item, NeedsAttention));
    OtherRow(SetTicket(c, item, NeedsAttention).log, WorkAttemptStateChanged(run, AttentionNeeded));
  }

  lemma ReviewRows(c: Controller, item: ItemId, o: DeliveryObservation)
    ensures SameWaveRows(c.log, PublishReview(c, item, o).log)
  {
    hide Project, HasKey, Inserted;
    OtherRow(c.log, TicketStateChanged(item, InReview));
  }

  /** The schedule's waves as far as the log can tell: every wave is the old one, or a released one is news. */
  ghost predicate SameRecords(s: S.Schedule, t: S.Schedule) {
    && |t.waves| == |s.waves| && s.released <= t.released
    && forall i :: 0 <= i < |s.waves| ==>
         && Recorded(t.waves[i]) == Recorded(s.waves[i])
         && (t.waves[i].state.Released? ==> Elems(t.waves[i].items) <= t.released)
  }

  lemma StayRecorded(c: Controller, t: Controller)
    requires WavesAreRecorded(c) && SameWaveRows(c.log, t.log) && SameRecords(c.sim.sched, t.sim.sched)
    ensures WavesAreRecorded(t)
  {
    hide Project, HasKey;
    assert forall i :: 0 <= i < |c.sim.sched.waves| ==>
      (t.sim.sched.waves[i].state.Released? <==> Recorded(t.sim.sched.waves[i]).state.Released?);
  }

  lemma RecordedStay(c: Controller, s: S.Schedule)
    requires WavesAreRecorded(c) && s.waves == c.sim.sched.waves && c.sim.sched.released <= s.released
    ensures SameRecords(c.sim.sched, s)
  {
  }

  // Dispatching announces a wave.

  lemma AnnouncedWave(rows: seq<Row<Key, Event>>, a: Account, wave: S.ExecutionWave)
    requires Journal(rows, a) && wave.number == |a.waves| + 1 && wave.state.Active?
    ensures var more := Inserted(rows, RowOf(ExecutionWaveStarted(wave.number, wave.base, wave.items)));
      && Project(more).waves == Project(rows).waves + [wave]
      && forall number, state :: HasKey(more, StateKey(number, state)) <==> HasKey(rows, StateKey(number, state))
  {
    hide RowFits, Inserted, HasKey;
    var e := ExecutionWaveStarted(wave.number, wave.base, wave.items);
    ProjectOneMore(rows, e);
    KeysAfterInsert(rows, RowOf(e));
    WaveIsNew(rows, a, wave.number);
    PutNewWave(Project(rows).waves, wave);
  }

  /** The current wave is the last one, numbered by its place. */
  ghost predicate CurrentIsLast(s: S.Schedule) {
    && (s.currentWave.Some? <==> s.waves != [])
    && (s.currentWave.Some? ==> s.currentWave.value == s.waves[|s.waves| - 1])
    && forall i :: 0 <= i < |s.waves| ==> s.waves[i].number == i + 1
  }

  lemma LiveHistory(c: Controller, completed: set<ItemId>)
    requires Linked(c, completed)
    ensures CurrentIsLast(c.sim.sched)
  {
  }

  /** The wave a dispatch opens, if it starts anything. */
  function Opened(s: S.Schedule): seq<S.ExecutionWave> {
    var items := S.Frontier(s);
    if items == [] then [] else [S.ExecutionWave(s.waveSequence + 1, s.base, items, S.Active)]
  }

  lemma DispatchOpens(s: Sim.Sim, completed: set<ItemId>)
    requires SL.Aligned(s, completed)
    ensures var t := Sim.AfterDispatch(s).sched;
      && t.waves == s.sched.waves + Opened(s.sched) && t.released == s.sched.released && s.sched.waveSequence == |s.sched.waves|
      && t.currentWave == if t.waves == [] then None else Some(t.waves[|t.waves| - 1])
  {
    hide SL.Mirrors, S.Frontier;
  }

  lemma AnnouncedRows(c: Controller, a: Account, known: seq<S.ExecutionWave>)
    requires Journal(c.log, a) && a.waves == known
    requires c.sim.sched.waves == known || (|c.sim.sched.waves| == |known| + 1 && c.sim.sched.waves[..|known|] == known)
    requires CurrentIsLast(c.sim.sched)
    requires |c.sim.sched.waves| > |known| ==> c.sim.sched.waves[|known|].state.Active?
    ensures var t := AnnounceWave(c);
      && Project(t.log).waves == Project(c.log).waves + c.sim.sched.waves[|known|..]
      && forall number, state :: HasKey(t.log, StateKey(number, state)) <==> HasKey(c.log, StateKey(number, state))
  {
    hide Journal, Inserted, HasKey, Project;
    var waves := c.sim.sched.waves;
    if |waves| > |known| {
      AnnouncedWave(c.log, a, waves[|known|]);
    } else if waves != [] {
      WaveAnnouncedAgain(c.log, a, |waves| - 1);
    }
  }

  lemma FrontierRows(c: Controller, completed: set<ItemId>, revisions: seq<Revision>, launcher: Launcher)
    requires Live(c, completed, revisions)
    ensures var t := DispatchFrontier(c, launcher);
      && Project(t.log).waves == Project(c.log).waves + Opened(c.sim.sched)
      && t.sim.sched.waves == c.sim.sched.waves + Opened(c.sim.sched) && t.sim.sched.released == c.sim.sched.released
      && forall number, state :: HasKey(t.log, StateKey(number, state)) <==> HasKey(c.log, StateKey(number, state))
  {
    hide Journal, StartAll, OpenRuns, Project, HasKey, Inserted, Sim.AfterDispatch, S.Frontier, L.Consistent;
    var d, items, a := c.(sim := Sim.AfterDispatch(c.sim)), S.Frontier(c.sim.sched), View(c, completed, revisions);
    LiveFacts(c, completed, revisions);
    LiveHistory(c, completed);
    LiveIsAligned(c, completed, revisions);
    DispatchOpens(c.sim, completed);
    StartAllKeeps(d, c.sim, a, items, launcher);
    StartAllStarts(d, c.sim, items, launcher);
    StartRows(d, Sim.Preview(c.sim), launcher);
    AnnouncedRows(StartAll(d, Sim.Preview(c.sim), launcher), StartedAccount(a, c.sim, items), c.sim.sched.waves);
  }

  lemma FrontierRecords(c: Controller, completed: set<ItemId>, revisions: seq<Revision>, launcher: Launcher)
    requires Live(c, completed, revisions) && WavesAreRecorded(c)
    ensures WavesAreRecorded(DispatchFrontier(c, launcher))
  {
    hide Live, DispatchFrontier, Project, HasKey, S.Frontier;
    FrontierRows(c, completed, revisions, launcher);
    var t := DispatchFrontier(c, launcher);
    forall i | 0 <= i < |t.sim.sched.waves| ensures Project(t.log).waves[i] == Recorded(t.sim.sched.waves[i]) {
      if i < |c.sim.sched.waves| {
        assert t.sim.sched.waves[i] == c.sim.sched.waves[i];
      }
    }
  }

  lemma DispatchRecords(c: Controller, completed: set<ItemId>, revisions: seq<Revision>, prompts: seq<Prompt>, launcher: Launcher)
    requires Live(c, completed, revisions) && WavesAreRecorded(c)
    ensures WavesAreRecorded(DispatchReady(c, prompts, launcher).ctrl)
  {
    hide Live, StartFrontier, DispatchFrontier, WavesAreRecorded, SameWaveRows;
    PersistKeeps(c, completed, revisions, prompts);
    PersistRows(c, prompts);
    var t := PersistPrompts(c, prompts).ctrl;
    RecordedStay(c, t.sim.sched);
    StayRecorded(c, t);
    FrontierStarts(t, completed, revisions, launcher);
    FrontierRecords(t, completed, revisions, launcher);
  }

  lemma EmitRecords(c: Controller, e: Event)
    requires WavesAreRecorded(c) && !e.ExecutionWaveStarted? && !e.ExecutionWaveStateChanged?
    ensures WavesAreRecorded(Emit(c, e))
  {
    hide WavesAreRecorded, SameWaveRows, Inserted;
    OtherRow(c.log, e);
    RecordedStay(c, c.sim.sched);
    StayRecorded(c, Emit(c, e));
  }

  lemma NextFrontierRecords(c: Controller, completed: set<ItemId>, revisions: seq<Revision>, launcher: Launcher)
    requires Live(c, completed, revisions) && WavesAreRecorded(c)
    ensures WavesAreRecorded(DispatchNextFrontier(c, launcher).ctrl)
  {
    hide Live, DispatchReady, WavesAreRecorded;
    DispatchRecords(c, completed, revisions, c.prompts, launcher);
    EmitRecords(c, FrontierWaitingForPrompts(S.Frontier(c.sim.sched)));
  }

  lemma RefreshRecords(c: Controller, revision: Revision)
    requires WavesAreRecorded(c)
    ensures WavesAreRecorded(RefreshTargetBase(c, revision).ctrl)
  {
    hide WavesAreRecorded, SameWaveRows, Inserted;
    var t := RefreshTargetBase(c, revision).ctrl;
    OtherRow(c.log, BaseRevisionRefreshed(revision));
    if Sim.AfterRefresh(c.sim, revision).Ok? {
      RecordedStay(c, t.sim.sched);
      StayRecorded(c, t);
    }
  }

  lemma RefillRecords(c: Controller, completed: set<ItemId>, revisions: seq<Revision>, nextBase: Option<Revision>, launcher: Launcher)
    requires Live(c, completed, revisions) && WavesAreRecorded(c)
    ensures WavesAreRecorded(Refill(c, nextBase, launcher).ctrl)
  {
    hide Live, RefreshTargetBase, DispatchNextFrontier, WavesAreRecorded;
    if nextBase.Some? && Sim.CanRefresh(c.sim) {
      RefreshKeeps(c, completed, revisions, nextBase.value);
      RefreshRecords(c, nextBase.value);
      NextFrontierRecords(RefreshTargetBase(c, nextBase.value).ctrl, completed, revisions + [nextBase.value], launcher);
    }
  }

  // Judging records a released wave.

  /** Nothing but the last wave's state may have changed, to released when all its items are. */
  ghost predicate LastMayBeReleased(s: S.Schedule, t: S.Schedule) {
    && CurrentIsLast(t) && |t.waves| == |s.waves| && s.released <= t.released
    && (forall i :: 0 <= i < |s.waves| - 1 ==> t.waves[i] == s.waves[i])
    && (s.waves != [] ==>
          var before, after := s.waves[|s.waves| - 1], t.waves[|s.waves| - 1];
          && (after == before || after == before.(state := S.Released))
          && (after.state.Released? && !before.state.Released? ==> Elems(after.items) <= t.released))
  }

  lemma EvaluationReleasesLast(s: Sim.Sim, id: ItemId)
    requires CurrentIsLast(s.sched) && Sim.AfterEvaluate(s, id).Ok?
    ensures LastMayBeReleased(s.sched, Sim.AfterEvaluate(s, id).value.0.sched)
  {
  }

  lemma StateRow(rows: seq<Row<Key, Event>>, number: nat)
    ensures var more := Inserted(rows, RowOf(ExecutionWaveStateChanged(number, S.Released)));
      && Project(more).waves
         == (if HasKey(rows, StateKey(number, S.Released)) then Project(rows).waves
             else SetWaveState(Project(rows).waves, number, S.Released))
      && forall n, state :: HasKey(more, StateKey(n, state)) <==>
           HasKey(rows, StateKey(n, state)) || (n == number && state.Released?)
  {
    hide Inserted, HasKey;
    ProjectOneMore(rows, ExecutionWaveStateChanged(number, S.Released));
    KeysAfterInsert(rows, RowOf(ExecutionWaveStateChanged(number, S.Released)));
  }

  /** A row that the last wave is released, over records of the waves before. */
  lemma LastIsRecorded(rows: seq<Row<Key, Event>>, s: S.Schedule, t: S.Schedule)
    requires LastMayBeReleased(s, t) && t.waves != [] && t.waves[|t.waves| - 1].state.Released?
    requires |Project(rows).waves| == |s.waves| && forall i :: 0 <= i < |s.waves| ==> Project(rows).waves[i] == Recorded(s.waves[i])
    requires forall number, state :: HasKey(rows, StateKey(number, state)) ==> IsTrue(s.waves, number, state)
    ensures var more := Inserted(rows, RowOf(ExecutionWaveStateChanged(|t.waves|, S.Released)));
      && |Project(more).waves| == |t.waves|
      && (forall i :: 0 <= i < |t.waves| ==> Project(more).waves[i] == Recorded(t.waves[i]))
      && forall number, state :: HasKey(more, StateKey(number, state)) ==> IsTrue(t.waves, number, state)
  {
    hide Project, HasKey, Inserted, RowOf, StateKey;
    var n := |t.waves|;
    StateRow(rows, n);
    var more := Inserted(rows, RowOf(ExecutionWaveStateChanged(n, S.Released)));
    assert t.waves[n - 1] == s.waves[n - 1].(state := S.Released);
    forall i | 0 <= i < n ensures Project(more).waves[i] == Recorded(t.waves[i]) {
      assert s.waves[i].number == t.waves[i].number == i + 1;
    }
    forall number: nat, state | HasKey(more, StateKey(number, state)) ensures IsTrue(t.waves, number, state) {
      if HasKey(rows, StateKey(number, state)) && number < n {
        assert t.waves[number - 1] == s.waves[number - 1];
      }
    }
  }

  /** After an evaluation the released wave is recorded, unless it was. */
  lemma ReleasedWaveRecords(c: Controller, sim: Sim.Sim)
    requires WavesAreRecorded(c) && LastMayBeReleased(c.sim.sched, sim.sched)
    ensures WavesAreRecorded(RecordWaveState(c.(sim := sim)))
  {
    hide Project, HasKey, Inserted, RowOf, StateKey, IsTrue;
    var s, t := c.sim.sched, sim.sched;
    if t.currentWave.Some? && t.currentWave.value.state.Released? {
      LastIsRecorded(c.log, s, t);
    } else {
      StillUnreleased(c, sim);
    }
  }

  lemma StillUnreleased(c: Controller, sim: Sim.Sim)
    requires WavesAreRecorded(c) && LastMayBeReleased(c.sim.sched, sim.sched)
    requires sim.sched.waves != [] ==> !sim.sched.waves[|sim.sched.waves| - 1].state.Released?
    ensures WavesAreRecorded(c.(sim := sim))
  {
    hide Project, HasKey;
    assert sim.sched.waves == c.sim.sched.waves;
  }

  lemma JudgeRecords(c: Controller, completed: set<ItemId>, revisions: seq<Revision>, item: ItemId, o: DeliveryObservation)
    requires Live(c, completed, revisions) && WavesAreRecorded(c) && item in c.active
    ensures Judge(c, item, o).Ok? && WavesAreRecorded(Judge(c, item, o).value.0)
  {
    hide Journal, Linked, Settle, RaiseAttention, Sim.AfterObserve, Sim.AfterEvaluate, PublishReview, View;
    hide WavesAreRecorded, SameWaveRows, LastMayBeReleased, RecordWaveState, Inserted;
    ObserveKeeps(c, completed, revisions, item, o);
    var observed := c.(sim := Sim.AfterObserve(c.sim, item, o).value);
    ObserveStays(c.sim, item, o);
    SameRowsThere(c.log);
    RecordedStay(c, observed.sim.sched);
    StayRecorded(c, observed);
    PublishReviewKeeps(observed, completed, revisions, item, o);
    var t := PublishReview(observed, item, o);
    ReviewRows(observed, item, o);
    RecordedStay(observed, t.sim.sched);
    StayRecorded(observed, t);
    EvaluationReleases(t, completed, item);
    LiveHistory(t, completed);
    var (sim, decision) := Sim.AfterEvaluate(t.sim, item).value;
    EvaluationReleasesLast(t.sim, item);
    ReleasedWaveRecords(t, sim);
    var u := RecordWaveState(t.(sim := sim));
    EmitRecords(u, GateEvent(c.active[item].run, decision, o));
    EndRecords(Emit(u, GateEvent(c.active[item].run, decision, o)), item);
  }

  lemma SameRowsThere(rows: seq<Row<Key, Event>>)
    ensures SameWaveRows(rows, rows)
  {
  }

  lemma EndRecords(c: Controller, item: ItemId)
    requires WavesAreRecorded(c) && item in c.active
    ensures WavesAreRecorded(Settle(c, item)) && WavesAreRecorded(RaiseAttention(c, item))
  {
    hide WavesAreRecorded, SameWaveRows, Settle, RaiseAttention;
    SettleRows(c, item);
    SettleLeaves(c, item);
    RecordedStay(c, c.sim.sched);
    StayRecorded(c, Settle(c, item));
    StayRecorded(c, RaiseAttention(c, item));
  }

  lemma MarkRecords(c: Controller, item: ItemId, code: FailureCode)
    requires WavesAreRecorded(c)
    ensures WavesAreRecorded(MarkRuntimeFailure(c, item, code))
  {
    hide WavesAreRecorded, SameWaveRows, MarkRuntimeFailure;
    MarkRows(c, item, code);
    MarkLeaves(c, item, code);
    RecordedStay(c, c.sim.sched);
    StayRecorded(c, MarkRuntimeFailure(c, item, code));
  }

  lemma ReconcileRecords(c: Controller, completed: set<ItemId>, revisions: seq<Revision>, a: Action)
    requires Live(c, completed, revisions) && WavesAreRecorded(c) && a.Reconciling?
    ensures WavesAreRecorded(Act(c, a))
  {
    hide Live, WavesAreRecorded, Judge, Refill, MarkRuntimeFailure;
    var Reconciling(item, outcome, nextBase, launcher) := a;
    if item in c.active {
      match outcome
      case AuthorityBroken(error) =>
        MarkRecords(c, item, Operational("authority_violation"));
        EmitRecords(MarkRuntimeFailure(c, item, Operational("authority_violation")), AuthorityViolated(item, error));
      case WorkspaceLost(code) =>
        var t := SetTicket(c, item, NeedsAttention).(attentionPublished := c.attentionPublished + {item});
        EmitRecords(c, TicketStateChanged(item, NeedsAttention));
        SameRowsThere(t.log);
        RecordedStay(SetTicket(c, item, NeedsAttention), t.sim.sched);
        StayRecorded(SetTicket(c, item, NeedsAttention), t);
        EmitRecords(t, ReconciliationFailed(item, code));
      case ObservationFailed(code) => EmitRecords(c, ReconciliationFailed(item, code));
      case Observed(o) =>
        JudgeRecords(c, completed, revisions, item, o);
        JudgeKeeps(c, completed, revisions, item, o);
        RefillRecords(Judge(c, item, o).value.0, completed, revisions, nextBase, launcher);
    }
  }

  // A retry or a cancellation never takes back a released wave.

  lemma LeavingKeepsRecords(c: Controller, completed: set<ItemId>, item: ItemId, t: S.Schedule, state: S.WaveState)
    requires Linked(c, completed) && WavesAreRecorded(c) && item !in c.sim.sched.released && !state.Released?
    requires t.released == c.sim.sched.released || t.released == c.sim.sched.released + {item}
    requires t.waves == c.sim.sched.waves ||
      (&& c.sim.sched.waves != [] && item in c.sim.sched.waves[|c.sim.sched.waves| - 1].items
       && t.waves == c.sim.sched.waves[..|c.sim.sched.waves| - 1] + [c.sim.sched.waves[|c.sim.sched.waves| - 1].(state := state)])
    ensures SameRecords(c.sim.sched, t)
  {
    hide Linked, Project, HasKey;
    var waves := c.sim.sched.waves;
    if t.waves != waves {
      assert item in Elems(waves[|waves| - 1].items);
      assert !waves[|waves| - 1].state.Released?;
    }
  }

  lemma ScheduleLeaves(s: S.Schedule, item: ItemId)
    requires CurrentIsLast(s)
    ensures S.AfterRetry(s, item).Ok? ==>
      var t := S.AfterRetry(s, item).value;
      t.released == s.released
      && (t.waves == s.waves ||
          (&& s.waves != [] && item in s.waves[|s.waves| - 1].items
           && t.waves == s.waves[..|s.waves| - 1] + [s.waves[|s.waves| - 1].(state := S.Superseded)]))
    ensures S.AfterCancel(s, item).Ok? ==>
      var t := S.AfterCancel(s, item).value;
      t.released == s.released + {item}
      && (t.waves == s.waves ||
          (&& s.waves != [] && item in s.waves[|s.waves| - 1].items
           && t.waves == s.waves[..|s.waves| - 1] + [s.waves[|s.waves| - 1].(state := S.Cancelled)]))
  {
  }

  lemma RetryRecords(c: Controller, completed: set<ItemId>, revisions: seq<Revision>, item: ItemId, prompt: Option<string>,
                     destroyed: Option<FailureCode>, launcher: Launcher)
    requires Live(c, completed, revisions) && WavesAreRecorded(c)
    ensures WavesAreRecorded(Retry(c, item, prompt, destroyed, launcher).ctrl)
  {
    hide Linked, Journal, View, WavesAreRecorded, DispatchReady, S.AfterRetry, SameWaveRows, Supersede, Superseded, Inserted;
    if item in c.active {
      if destroyed.Some? {
        EmitRecords(c, RetryFailed(c.active[item].run, destroyed.value));
      } else {
        RetryIsTaken(c, completed, revisions, item);
        SupersededRecords(c, completed, revisions, item);
        var t := Superseded(c, item);
        var next := if prompt.Some? then prompt else PromptFor(t.prompts, item);
        if next.Some? {
          DispatchRecords(t, completed, revisions, [Prompt(item, next.value)], launcher);
        }
        RetryCases(c, item, prompt, launcher);
      }
    }
  }

  lemma SupersededRecords(c: Controller, completed: set<ItemId>, revisions: seq<Revision>, item: ItemId)
    requires Live(c, completed, revisions) && WavesAreRecorded(c) && item in c.active && Sim.AfterRetry(c.sim, item).Ok?
    ensures WavesAreRecorded(Superseded(c, item))
  {
    hide Journal, WavesAreRecorded, S.AfterRetry, SL.Aligned, SameWaveRows;
    OtherRow(c.log, WorkAttemptStateChanged(c.active[item].run, SupersededAttempt));
    ActiveIsUnfinished(c, completed, revisions, item);
    LiveHistory(c, completed);
    ScheduleLeaves(c.sim.sched, item);
    LeavingKeepsRecords(c, completed, item, Superseded(c, item).sim.sched, S.Superseded);
    StayRecorded(c, Superseded(c, item));
  }

  lemma CancelRecords(c: Controller, completed: set<ItemId>, revisions: seq<Revision>, item: ItemId, reason: string)
    requires Live(c, completed, revisions) && WavesAreRecorded(c)
    ensures WavesAreRecorded(CancelFromWave(c, item, reason).ctrl)
  {
    hide Journal, WavesAreRecorded, S.AfterCancel, SL.Aligned, SameWaveRows, Inserted;
    var r := Sim.AfterCancel(c.sim, item, reason);
    if item in c.active && r.Ok? {
      ActiveIsUnfinished(c, completed, revisions, item);
      LiveHistory(c, completed);
      ScheduleLeaves(c.sim.sched, item);
      LeavingKeepsRecords(c, completed, item, r.value.sched, S.Cancelled);
      var t := SetAttempt(c.(sim := r.value, active := c.active - {item}), item, CancelledAttempt);
      SameRowsThere(c.log);
      StayRecorded(c, t);
      EmitRecords(t, TicketStateChanged(item, CancelledTicket));
      EmitRecords(SetTicket(t, item, CancelledTicket), WaveItemCancelled(item, reason));
    }
  }

  lemma ActRecords(c: Controller, completed: set<ItemId>, revisions: seq<Revision>, a: Action)
    requires Live(c, completed, revisions) && WavesAreRecorded(c)
    ensures WavesAreRecorded(Act(c, a))
  {
    hide Live, WavesAreRecorded, DispatchReady, Reconcile, Retry, CancelFromWave, MarkRuntimeFailure, RefreshTargetBase;
    match a
    case Dispatch(prompts, launcher) => DispatchRecords(c, completed, revisions, prompts, launcher);
    case Reconciling(_, _, _, _) => ReconcileRecords(c, completed, revisions, a);
    case Refreshing(revision) => RefreshRecords(c, revision);
    case Retrying(item, prompt, destroyed, launcher) => RetryRecords(c, completed, revisions, item, prompt, destroyed, launcher);
    case Cancelling(item, reason) => CancelRecords(c, completed, revisions, item, reason);
    case RuntimeFailure(item, code) => MarkRecords(c, item, code);
  }

  lemma NewRecordsWaves(sim: Sim.Sim)
    requires sim.sched.waves == []
    ensures WavesAreRecorded(NewController(sim))
  {
  }

  lemma {:induction false} RunsRecord(t: Trace, completed: set<ItemId>, actions: seq<Action>)
    requires Live(t.ctrl, completed, t.revisions) && WavesAreRecorded(t.ctrl) && RunsCurrently(t, actions)
    ensures WavesAreRecorded(Play(t, actions).ctrl)
    decreases actions
  {
    hide Live, WavesAreRecorded, Act, RefreshedTo;
    if actions != [] {
      ActRecords(t.ctrl, completed, t.revisions, actions[0]);
      ActKeeps(t.ctrl, completed, t.revisions, actions[0]);
      RunsRecord(Advance(t, actions[0]), completed, actions[1..]);
    }
  }

  /** Over every run of calls of a new controller the log lists each wave, as released exactly when it is. */
  lemma EveryRunRecordsWaves(graph: G.DependencyGraph, policy: S.Policy, base: Revision, repository: string, root: string,
                             review: ReviewPolicy, completed: set<ItemId>, actions: seq<Action>)
    requires RunsCurrently(Trace(NewController(Sim.NewSim(graph, policy, base, repository, root, review, completed)), []), actions)
    ensures
      var t := Trace(NewController(Sim.NewSim(graph, policy, base, repository, root, review, completed)), []);
      WavesAreRecorded(Play(t, actions).ctrl)
  {
    hide Live, Play, RunsCurrently;
    NewIsLive(graph, policy, base, repository, root, review, completed);
    NewRecordsWaves(Sim.NewSim(graph, policy, base, repository, root, review, completed));
    RunsRecord(Trace(NewController(Sim.NewSim(graph, policy, base, repository, root, review, completed)), []), completed, actions);
  }
}
