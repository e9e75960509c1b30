/** Under the barrier a restart in the middle of a wave can leave a barrier that no approval opens; exactly when. */
module BarrierRestarts {
  import opened Prelude
  import opened EventLogs
  import opened Gate
  import opened Projections
  import opened Controllers
  import opened Journals
  import opened ControllerLaws
  import opened AssignmentLaws
  import opened Restarts
  import opened RestartPlaces
  import opened WaveRecords
  import Sim = Simulation
  import SL = SimulationLaws
  import S = Scheduling
  import L = SchedulingLaws

  // What a restart makes of the waves.

  /** The items of the last recorded wave, if it is still active. */
  function LastActiveItems(waves: seq<S.ExecutionWave>): set<ItemId> {
    if waves != [] && waves[|waves| - 1].state.Active? then Elems(waves[|waves| - 1].items) else {}
  }

  lemma {:induction false} WavesOnBarrier(sim: Sim.Sim, waves: seq<S.ExecutionWave>)
    ensures var t := RestoreWaves(sim, waves);
      && t.activeWave == (if waves == [] then sim.activeWave else LastActiveItems(waves))
      && t.sched.activeWave == sim.sched.activeWave && t.sched.barrierOpen == sim.sched.barrierOpen
      && t.sched.policy == sim.sched.policy && t.sched.dispatched == sim.sched.dispatched && t.sched.released == sim.sched.released
  {
    if waves != [] {
      WavesOnBarrier(sim, waves[..|waves| - 1]);
    }
  }

  /** The last of the listed items that is on an active wave. */
  function LastWaiting(p: Projection, order: seq<ItemId>): Option<ItemId> {
    if order == [] then None
    else if order[|order| - 1] in ActiveWaveItems(p.waves) then Some(order[|order| - 1])
    else LastWaiting(p, order[..|order| - 1])
  }

  lemma {:induction false} WaitingIsListed(p: Projection, order: seq<ItemId>)
    ensures var last := LastWaiting(p, order);
      && (last.None? <==> Elems(order) !! ActiveWaveItems(p.waves))
      && (last.Some? ==> last.value in Elems(order) && last.value in ActiveWaveItems(p.waves))
  {
    hide ActiveWaveItems;
    if order != [] {
      var init, item := order[..|order| - 1], order[|order| - 1];
      assert order == init + [item];
      assert Elems(order) == Elems(init) + {item};
      WaitingIsListed(p, init);
    }
  }

  /** The two layers disagree: the scheduler waits for the last restored item of an active wave, the simulator for all. */
  lemma {:induction false} ActiveOnBarrier(sim: Sim.Sim, p: Projection, order: seq<ItemId>)
    requires Elems(order) <= p.active.Keys && sim.sched.policy.WaveBarrier?
    ensures var t, last := RestoreActive(sim, p, order), LastWaiting(p, order);
      && t.activeWave == sim.activeWave + Elems(order) * ActiveWaveItems(p.waves)
      && t.sched.activeWave == (if last.Some? then {last.value} else sim.sched.activeWave)
      && t.sched.barrierOpen == (sim.sched.barrierOpen && last.None?)
      && t.sched.policy == sim.sched.policy && t.sched.released == sim.sched.released
      && t.sched.dispatched == sim.sched.dispatched + Elems(order)
  {
    hide ActiveWaveItems;
    if order != [] {
      var init, item := order[..|order| - 1], order[|order| - 1];
      assert order == init + [item];
      ActiveOnBarrier(sim, p, init);
      assert Elems(order) == Elems(init) + {item};
    }
  }

  lemma BarrierRestart(sim: Sim.Sim, log: seq<Row<Key, Event>>, p: Projection, order: seq<ItemId>)
    requires sim.sched.policy.WaveBarrier? && sim.sched.barrierOpen && sim.sched.activeWave == {} && sim.activeWave == {}
    requires sim.sched.dispatched == {}
    requires p.base.None? && Elems(order) == p.active.Keys
    ensures Rehydrate(Reopened(sim, log), p, order).Ok?
    ensures var r, last := Rehydrate(Reopened(sim, log), p, order).value, LastWaiting(p, order);
      && r.sim.activeWave == LastActiveItems(p.waves) + p.active.Keys * ActiveWaveItems(p.waves)
      && r.sim.sched.activeWave == (if last.Some? then {last.value} else {})
      && (r.sim.sched.barrierOpen <==> p.active.Keys !! ActiveWaveItems(p.waves))
      && r.sim.sched.policy.WaveBarrier? && r.sim.sched.dispatched == p.active.Keys
      && r.sim.sched.released == sim.sched.released + FinishedItems(p)
  {
    hide RestoreWaves, RestoreActive, FinishedItems, RestorePrompts, ActiveWaveItems;
    var released := Sim.AfterRestoreReleased(sim, FinishedItems(p));
    WavesOnBarrier(released, p.waves);
    ActiveOnBarrier(RestoreWaves(released, p.waves), p, order);
    WaitingIsListed(p, order);
  }

  /** Before a restart the last item to leave its wave opens the barrier; after it, the last listed one, others in flight or not. */
  lemma LastRestoredOpensBarrier(sim: Sim.Sim, log: seq<Row<Key, Event>>, p: Projection, order: seq<ItemId>, item: ItemId)
    requires sim.sched.policy.WaveBarrier? && sim.sched.barrierOpen && sim.sched.activeWave == {} && sim.activeWave == {}
    requires sim.sched.dispatched == {}
    requires p.base.None? && Elems(order) == p.active.Keys && item in p.active
    ensures Rehydrate(Reopened(sim, log), p, order).Ok?
    ensures var s, last := Rehydrate(Reopened(sim, log), p, order).value.sim.sched, LastWaiting(p, order);
      && S.AfterCancel(s, item).Ok?
      && (S.AfterCancel(s, item).value.barrierOpen <==> last.None? || last == Some(item))
      && (S.AfterRetry(s, item).Ok? <==> item !in s.released)
      && (S.AfterRetry(s, item).Ok? ==> (S.AfterRetry(s, item).value.barrierOpen <==> last.None? || last == Some(item)))
      && L.InFlight(S.AfterCancel(s, item).value) == p.active.Keys - s.released - {item}
  {
    hide Rehydrate, ActiveWaveItems, FinishedItems;
    BarrierRestart(sim, log, p, order);
    WaitingIsListed(p, order);
    var s, last := Rehydrate(Reopened(sim, log), p, order).value.sim.sched, LastWaiting(p, order);
    if last.Some? {
      if last.value == item {
        assert {last.value} - {item} == {};
      } else {
        assert last.value in {last.value} - {item};
      }
    }
  }

  // The stall.

  /** The barrier is closed on an item that is not dispatched, so nothing can approve it. */
  predicate WaitsForLost(c: Controller, lost: ItemId) {
    && c.sim.sched.policy.WaveBarrier? && !c.sim.sched.barrierOpen
    && lost in c.sim.activeWave && lost !in c.sim.dispatched && lost !in c.sim.decisions && lost !in c.active
  }

  ghost predicate IsStalled(c: Controller) {
    exists lost :: WaitsForLost(c, lost)
  }

  /** Nothing may start, and the base may not move. */
  lemma StalledIsStuck(c: Controller, lost: ItemId)
    requires WaitsForLost(c, lost)
    ensures S.Frontier(c.sim.sched) == [] && !Sim.CanRefresh(c.sim)
  {
  }

  lemma StalledDispatch(c: Controller, lost: ItemId, prompts: seq<Prompt>, launcher: Launcher)
    requires WaitsForLost(c, lost)
    ensures var t := DispatchReady(c, prompts, launcher).ctrl;
      WaitsForLost(t, lost) && t.active == c.active && t.sim.sched.dispatched == c.sim.sched.dispatched
  {
    hide S.Frontier, PersistPrompts, Clashes;
    StalledIsStuck(c, lost);
    PersistKeepsMore(c, prompts);
    NothingStarts(PersistPrompts(c, prompts).ctrl, launcher);
  }

  lemma {:induction false} PersistKeepsMore(c: Controller, prompts: seq<Prompt>)
    ensures var t := PersistPrompts(c, prompts).ctrl; t.sim == c.sim && t.active == c.active
    decreases prompts
  {
    if prompts != [] {
      var p := prompts[0];
      PersistKeepsMore(Emit(c, PromptSnapshotRecorded(p)), prompts[1..]);
      PersistKeepsMore(Emit(c.(prompts := c.prompts + [p]), PromptSnapshotRecorded(p)), prompts[1..]);
    }
  }

  lemma NothingStarts(c: Controller, launcher: Launcher)
    requires S.Frontier(c.sim.sched) == []
    ensures var t := StartFrontier(c, launcher).ctrl;
      && t.active == c.active && t.sim.sched == c.sim.sched && t.sim.activeWave == c.sim.activeWave
      && t.sim.dispatched == c.sim.dispatched && t.sim.decisions == c.sim.decisions
  {
    hide S.Frontier, Clashes;
    assert Sim.Preview(c.sim) == [];
  }

  lemma StalledRefill(c: Controller, lost: ItemId, nextBase: Option<Revision>, launcher: Launcher)
    requires WaitsForLost(c, lost)
    ensures Refill(c, nextBase, launcher) == Reply(c, None)
  {
    StalledIsStuck(c, lost);
  }

  lemma StalledEvaluates(s: Sim.Sim, item: ItemId, o: DeliveryObservation, lost: ItemId)
    requires s.sched.policy.WaveBarrier? && !s.sched.barrierOpen
    requires lost in s.activeWave && lost !in s.dispatched && lost !in s.decisions && lost != item
    ensures Sim.AfterObserve(s, item, o).Ok? ==>
      var t := Sim.AfterObserve(s, item, o).value;
      && t.sched == s.sched && lost in t.activeWave && lost !in t.dispatched && lost !in t.decisions
      && (Sim.AfterEvaluate(t, item).Ok? ==>
            var u := Sim.AfterEvaluate(t, item).value.0;
            && u.sched.policy.WaveBarrier? && !u.sched.barrierOpen && u.sched.dispatched == s.sched.dispatched
            && lost in u.activeWave && lost !in u.dispatched && lost !in u.decisions)
  {
  }

  lemma StalledJudge(c: Controller, lost: ItemId, item: ItemId, o: DeliveryObservation)
    requires WaitsForLost(c, lost) && item in c.active && Judge(c, item, o).Ok?
    ensures var t := Judge(c, item, o).value.0;
      WaitsForLost(t, lost) && t.active.Keys <= c.active.Keys && t.sim.sched.dispatched == c.sim.sched.dispatched
  {
    hide Sim.AfterObserve, Sim.AfterEvaluate, Settle, RaiseAttention, Inserted;
    StalledEvaluates(c.sim, item, o, lost);
    var t := PublishReview(c.(sim := Sim.AfterObserve(c.sim, item, o).value), item, o);
    var (sim, decision) := Sim.AfterEvaluate(t.sim, item).value;
    SettleLeaves(Emit(RecordWaveState(t.(sim := sim)), GateEvent(c.active[item].run, decision, o)), item);
  }

  /** A call that neither retries nor cancels leaves the stall as it is, and starts nothing. */
  lemma StallStays(c: Controller, lost: ItemId, a: Action)
    requires WaitsForLost(c, lost) && !a.Retrying? && !a.Cancelling?
    ensures var t := Act(c, a);
      && WaitsForLost(t, lost) && t.active.Keys <= c.active.Keys && t.sim.sched.dispatched == c.sim.sched.dispatched
  {
    hide DispatchReady, Judge, Refill, MarkRuntimeFailure, Inserted;
    match a
    case Dispatch(prompts, launcher) => StalledDispatch(c, lost, prompts, launcher);
    case Refreshing(revision) => StalledIsStuck(c, lost);
    case RuntimeFailure(item, code) => MarkLeaves(c, item, code);
    case Reconciling(item, outcome, nextBase, launcher) =>
      if item in c.active {
        MarkLeaves(c, item, Operational("authority_violation"));
        if outcome.Observed? && Judge(c, item, outcome.observation).Ok? {
          StalledJudge(c, lost, item, outcome.observation);
          StalledRefill(Judge(c, item, outcome.observation).value.0, lost, nextBase, launcher);
        }
      }
  }

  predicate NeverEscapes(actions: seq<Action>) {
    forall i :: 0 <= i < |actions| ==> !actions[i].Retrying? && !actions[i].Cancelling?
  }

  /** So no run of such calls starts anything or moves the base, whatever is approved. */
  lemma {:induction false} StallsForGood(t: Trace, lost: ItemId, actions: seq<Action>)
    requires WaitsForLost(t.ctrl, lost) && NeverEscapes(actions)
    ensures var end := Play(t, actions).ctrl;
      && WaitsForLost(end, lost) && S.Frontier(end.sim.sched) == [] && !Sim.CanRefresh(end.sim)
      && end.active.Keys <= t.ctrl.active.Keys && end.sim.sched.dispatched == t.ctrl.sim.sched.dispatched
    decreases actions
  {
    hide WaitsForLost, Act, RefreshedTo, S.Frontier, Sim.CanRefresh;
    StalledIsStuck(t.ctrl, lost);
    if actions != [] {
      StallStays(t.ctrl, lost, actions[0]);
      assert forall i :: 0 <= i < |actions[1..]| ==> actions[1..][i] == actions[i + 1];
      StallsForGood(Advance(t, actions[0]), lost, actions[1..]);
    }
  }

  // Exactly when a restart stalls.

  /** Some open item is on a wave the log has as active, and some item of the last such wave is not open any more. */
  ghost predicate LosesAnItem(p: Projection) {
    && (exists item :: item in p.active && item in ActiveWaveItems(p.waves))
    && exists item :: item in LastActiveItems(p.waves) && item !in p.active
  }

  /** A restart from a log without a refresh stalls exactly then. */
  lemma RestartStalls(sim: Sim.Sim, log: seq<Row<Key, Event>>, p: Projection, order: seq<ItemId>)
    requires sim.sched.policy.WaveBarrier? && sim.sched.barrierOpen && sim.sched.activeWave == {} && sim.activeWave == {}
    requires sim.sched.dispatched == {} && sim.dispatched == map[] && sim.decisions == map[]
    requires p.base.None? && Elems(order) == p.active.Keys
    ensures Rehydrate(Reopened(sim, log), p, order).Ok?
    ensures IsStalled(Rehydrate(Reopened(sim, log), p, order).value) <==> LosesAnItem(p)
  {
    hide Rehydrate, ActiveWaveItems, LastActiveItems, FinishedItems;
    BarrierRestart(sim, log, p, order);
    RebuiltSim(sim, log, p, order);
    var r := Rehydrate(Reopened(sim, log), p, order).value;
    if LosesAnItem(p) {
      var lost :| lost in LastActiveItems(p.waves) && lost !in p.active;
      assert WaitsForLost(r, lost);
    }
    if IsStalled(r) {
      var lost :| WaitsForLost(r, lost);
      assert lost in LastActiveItems(p.waves) && lost !in p.active;
    }
  }

  // In terms of the controller before the restart.

  /** The items a restart makes active: those active before, and the cancelled ones. */
  function Reopens(c: Controller): set<ItemId> {
    c.active.Keys + c.sim.sched.cancelled
  }

  predicate IsUnreleased(waves: seq<S.ExecutionWave>, item: ItemId, i: nat) {
    i < |waves| && !waves[i].state.Released? && item in waves[i].items
  }

  /** The current wave is not released, an item of it is not made active, and some item of an unreleased wave is. */
  ghost predicate WouldStall(c: Controller) {
    var waves := c.sim.sched.waves;
    && waves != [] && !waves[|waves| - 1].state.Released? && !(Elems(waves[|waves| - 1].items) <= Reopens(c))
    && exists item, i: nat :: item in Reopens(c) && IsUnreleased(waves, item, i)
  }

  lemma RecordedAreActive(c: Controller, item: ItemId)
    requires WavesAreRecorded(c)
    ensures var p, waves := Project(c.log), c.sim.sched.waves;
      && (item in ActiveWaveItems(p.waves) <==> exists i: nat :: IsUnreleased(waves, item, i))
      && (item in LastActiveItems(p.waves) <==>
            waves != [] && !waves[|waves| - 1].state.Released? && item in Elems(waves[|waves| - 1].items))
  {
    hide HasKey, Project;
    var p, waves := Project(c.log).waves, c.sim.sched.waves;
    forall i | 0 <= i < |waves| ensures p[i] == Recorded(waves[i]) {
    }
    if item in ActiveWaveItems(p) {
      var i, k :| 0 <= i < |p| && p[i].state.Active? && 0 <= k < |p[i].items| && p[i].items[k] == item;
      assert IsUnreleased(waves, item, i);
    }
    if i: nat :| IsUnreleased(waves, item, i) {
      var k :| 0 <= k < |waves[i].items| && waves[i].items[k] == item;
      assert p[i].items[k] == item && p[i].state.Active?;
    }
  }

  lemma LosesWhenItWould(c: Controller, completed: set<ItemId>)
    requires Live(c, completed, []) && WavesAreRecorded(c)
    ensures LosesAnItem(Project(c.log)) <==> WouldStall(c)
  {
    hide Linked, Journal, WavesAreRecorded, ActiveWaveItems, LastActiveItems, IsUnreleased, Project;
    var p, waves := Project(c.log), c.sim.sched.waves;
    ProjectionReproduces(c, completed, []);
    OpenItems(c, completed);
    assert p.active.Keys == Reopens(c);
    forall item
      ensures item in ActiveWaveItems(p.waves) <==> exists i: nat :: IsUnreleased(waves, item, i)
      ensures item in LastActiveItems(p.waves) <==>
        waves != [] && !waves[|waves| - 1].state.Released? && item in Elems(waves[|waves| - 1].items)
    {
      RecordedAreActive(c, item);
    }
  }

  /** Restarting a live controller whose base never moved. */
  lemma LiveRestartStalls(sim: Sim.Sim, c: Controller, completed: set<ItemId>, order: seq<ItemId>)
    requires Live(c, completed, []) && WavesAreRecorded(c)
    requires sim.sched == S.NewSchedule(c.sim.sched.graph, S.WaveBarrier, sim.sched.base, completed)
    requires sim.activeWave == {} && sim.dispatched == map[] && sim.decisions == map[]
    requires Elems(order) == Project(c.log).active.Keys
    ensures Rehydrate(Reopened(sim, c.log), Project(c.log), order).Ok?
    ensures IsStalled(Rehydrate(Reopened(sim, c.log), Project(c.log), order).value) <==> WouldStall(c)
  {
    hide Linked, Journal, WavesAreRecorded, LosesAnItem, WouldStall, IsStalled, Rehydrate, Project;
    ProjectionReproduces(c, completed, []);
    RestartStalls(sim, c.log, Project(c.log), order);
    LosesWhenItWould(c, completed);
  }

  lemma ActiveIsOnWave(c: Controller, completed: set<ItemId>, item: ItemId)
    requires Linked(c, completed) && c.sim.sched.policy.WaveBarrier? && item in c.active
    ensures var waves := c.sim.sched.waves;
      waves != [] && item in Elems(waves[|waves| - 1].items) && !waves[|waves| - 1].state.Released?
  {
    hide SL.Mirrors, IsLive;
    assert item in L.InFlight(c.sim.sched);
  }

  /** While an item is in flight, a restart stalls exactly when some item of its wave is neither active nor cancelled. */
  lemma HalfDoneWavesStall(c: Controller, completed: set<ItemId>, item: ItemId)
    requires Linked(c, completed) && c.sim.sched.policy.WaveBarrier? && item in c.active
    ensures c.sim.sched.currentWave.Some?
    ensures WouldStall(c) <==> !(Elems(c.sim.sched.currentWave.value.items) <= Reopens(c))
  {
    ActiveIsOnWave(c, completed, item);
    LiveHistory(c, completed);
    hide Linked;
    assert IsUnreleased(c.sim.sched.waves, item, |c.sim.sched.waves| - 1);
  }

  /** Approving one of two items in flight is enough. */
  lemma FirstApprovalWouldStall(c: Controller, completed: set<ItemId>, revisions: seq<Revision>, item: ItemId, other: ItemId,
                                o: DeliveryObservation)
    requires Live(c, completed, revisions) && c.sim.sched.policy.WaveBarrier?
    requires item in c.active && other in c.active && item != other
    ensures Judge(c, item, o).Ok?
    ensures var (t, decision) := Judge(c, item, o).value;
      Live(t, completed, revisions) && other in t.active && (decision.status.Approved? ==> WouldStall(t) && item !in t.active)
  {
    hide Live, Judge, WouldStall, Linked;
    JudgeKeeps(c, completed, revisions, item, o);
    LiveLinks(c, completed, revisions);
    var (t, decision) := Judge(c, item, o).value;
    LiveLinks(t, completed, revisions);
    JudgedParts(c, completed, revisions, item, o);
    ActiveIsOnWave(c, completed, item);
    HalfDoneWavesStall(t, completed, other);
    LiveHistory(c, completed);
    LiveHistory(t, completed);
    if decision.status.Approved? {
      ApprovedIsGone(c, completed, item);
    }
  }

  lemma LiveLinks(c: Controller, completed: set<ItemId>, revisions: seq<Revision>)
    requires Live(c, completed, revisions)
    ensures Linked(c, completed)
  {
  }

  lemma ApprovedIsGone(c: Controller, completed: set<ItemId>, item: ItemId)
    requires Linked(c, completed) && item in c.active
    ensures item !in c.sim.sched.cancelled
  {
    hide SL.Mirrors;
    assert item in L.InFlight(c.sim.sched);
  }

  lemma JudgedParts(c: Controller, completed: set<ItemId>, revisions: seq<Revision>, item: ItemId, o: DeliveryObservation)
    requires Live(c, completed, revisions) && item in c.active && Judge(c, item, o).Ok?
    ensures var (t, decision) := Judge(c, item, o).value;
      && t.active == (if decision.status.Approved? then c.active - {item} else c.active)
      && t.sim.sched.policy == c.sim.sched.policy && t.sim.sched.cancelled == c.sim.sched.cancelled
      && t.sim.sched.graph == c.sim.sched.graph && SameWaves(c.sim.sched.waves, t.sim.sched.waves)
  {
    hide Journal, Linked, Settle, RaiseAttention, Sim.AfterObserve, Sim.AfterEvaluate, PublishReview, View, Inserted;
    ObserveKeeps(c, completed, revisions, item, o);
    ObserveStays(c.sim, item, o);
    var observed := c.(sim := Sim.AfterObserve(c.sim, item, o).value);
    PublishReviewKeeps(observed, completed, revisions, item, o);
    var t := PublishReview(observed, item, o);
    EvaluationReleases(t, completed, item);
    EvaluateStays(t.sim, item);
    var (sim, decision) := Sim.AfterEvaluate(t.sim, item).value;
    SettleLeaves(Emit(RecordWaveState(t.(sim := sim)), GateEvent(c.active[item].run, decision, o)), item);
  }
}
