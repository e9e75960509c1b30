/** Rebuilding a controller from its log: what a restart restores, and exactly when it does not. */
module Restarts {
  import opened Prelude
  import G = DependencyGraphs
  import opened EventLogs
  import opened Gate
  import opened Projections
  import opened Controllers
  import opened Journals
  import opened ControllerLaws
  import Sim = Simulation
  import SL = SimulationLaws
  import S = Scheduling
  import L = SchedulingLaws

  /** A controller built anew with the original arguments over the old log. */
  function Reopened(sim: Sim.Sim, log: seq<Row<Key, Event>>): Controller {
    NewController(sim).(log := log)
  }

  lemma NewIsLive(graph: G.DependencyGraph, policy: S.Policy, base: Revision, repository: string,
                  root: string, review: ReviewPolicy, completed: set<ItemId>)
    ensures Live(NewController(Sim.NewSim(graph, policy, base, repository, root, review, completed)), completed, [])
  {
    assert FinishedItems(EMPTY) == {};
  }

  // The restored schedule.

  lemma {:induction false} RestoredWaves(sim: Sim.Sim, waves: seq<S.ExecutionWave>)
    requires sim.sched.waves == [] && sim.sched.waveSequence == 0
    requires forall i :: 0 <= i < |waves| ==> waves[i].number == i + 1
    ensures var t := RestoreWaves(sim, waves);
      && t == sim.(sched := t.sched, activeWave := t.activeWave)
      && t.sched.waves == waves && t.sched.waveSequence == |waves|
      && t.sched == sim.sched.(waves := t.sched.waves, waveSequence := t.sched.waveSequence, currentWave := t.sched.currentWave)
      && t.sched.currentWave == if waves == [] then sim.sched.currentWave else Some(waves[|waves| - 1])
  {
    if waves != [] {
      var init, last := waves[..|waves| - 1], waves[|waves| - 1];
      assert waves == init + [last];
      RestoredWaves(sim, init);
      assert RestoreWaves(sim, waves) == Sim.AfterRestoreWave(RestoreWaves(sim, init), last);
    }
  }

  lemma {:induction false} RestoredActive(sim: Sim.Sim, p: Projection, order: seq<ItemId>)
    requires Elems(order) <= p.active.Keys && sim.sched.policy.ContinuousFrontier?
    ensures var t := RestoreActive(sim, p, order);
      && t.sched == sim.sched.(dispatched := sim.sched.dispatched + Elems(order)) && t.attempts == sim.attempts
      && t.repository == sim.repository && t.root == sim.root
  {
    if order != [] {
      var init, item := order[..|order| - 1], order[|order| - 1];
      assert order == init + [item];
      RestoredActive(sim, p, init);
      assert Elems(order) == Elems(init) + {item};
    }
  }

  lemma {:induction false} WithoutSame(xs: seq<ItemId>, a: set<ItemId>, b: set<ItemId>)
    requires forall x :: x in xs ==> (x in a <==> x in b)
    ensures S.Without(xs, a) == S.Without(xs, b)
  {
    if xs != [] {
      WithoutSame(xs[1..], a, b);
    }
  }

  ghost predicate OnePerItem(prompts: seq<Prompt>) {
    forall i, j :: 0 <= i < j < |prompts| ==> prompts[i].item != prompts[j].item
  }

  lemma {:induction false} RestoredPrompts(done: seq<Prompt>, rest: seq<Prompt>)
    requires OnePerItem(done + rest)
    ensures RestorePrompts(done, rest) == done + rest
    decreases rest
  {
    if rest == [] {
      assert done + rest == done;
    } else {
      var all := done + rest;
      assert all[|done|] == rest[0] && forall i :: 0 <= i < |done| ==> all[i] == done[i];
      PutPromptLast(done, rest[0]);
      assert done + [rest[0]] + rest[1..] == all;
      RestoredPrompts(done + [rest[0]], rest[1..]);
    }
  }

  lemma {:induction false} PutPromptLast(prompts: seq<Prompt>, prompt: Prompt)
    requires forall i :: 0 <= i < |prompts| ==> prompts[i].item != prompt.item
    ensures PutPrompt(prompts, prompt) == prompts + [prompt]
  {
    if prompts != [] {
      PutPromptLast(prompts[1..], prompt);
    }
  }

  /** What the restored controller must share with the live one. */
  ghost predicate Restored(r: Controller, c: Controller, base: Revision) {
    && r.sim.sched.released == c.sim.sched.released
    && r.active.Keys == c.active.Keys + c.sim.sched.cancelled
    && (forall item :: item in c.active ==> r.active[item].run == c.active[item].run && r.active[item].dispatch.item == item)
    && r.sim.sched.waveSequence == c.sim.sched.waveSequence
    && r.sim.sched.base == base
    && r.prompts == c.prompts
    && S.Frontier(r.sim.sched) == S.Frontier(c.sim.sched)
  }

  lemma RestoredFrontier(r: S.Schedule, c: Controller, completed: set<ItemId>)
    requires Linked(c, completed) && c.sim.sched.policy.ContinuousFrontier?
    requires r.policy == c.sim.sched.policy && r.graph == c.sim.sched.graph && r.released == c.sim.sched.released
    requires r.dispatched == c.active.Keys + c.sim.sched.cancelled
    ensures S.Frontier(r) == S.Frontier(c.sim.sched)
  {
    hide SL.Mirrors, IsLive;
    var ready := G.Ready(r.graph, r.released);
    forall x | x in ready ensures x in r.dispatched <==> x in c.sim.sched.dispatched {
      assert x !in r.released;
      assert x in c.sim.sched.dispatched <==> x in L.InFlight(c.sim.sched);
    }
    WithoutSame(ready, r.dispatched, c.sim.sched.dispatched);
  }

  /** The base a restart settles on: the last revision the log saw for the first time. */
  function RestoredBase(base: Revision, revisions: seq<Revision>): Revision {
    if LastNew(revisions).Some? then LastNew(revisions).value else base
  }

  lemma ProjectionReproduces(c: Controller, completed: set<ItemId>, revisions: seq<Revision>)
    requires Live(c, completed, revisions)
    ensures var p, a := Project(c.log), View(c, completed, revisions);
      && Reproduces(p, a)
      && (forall i :: 0 <= i < |p.waves| ==> p.waves[i].number == i + 1) && |p.waves| == c.sim.sched.waveSequence
      && OnePerItem(c.prompts)
      && completed <= c.sim.sched.released
  {
  }

  lemma OpenItems(c: Controller, completed: set<ItemId>)
    requires Linked(c, completed)
    ensures OpenRuns(c).Keys == c.active.Keys + c.sim.sched.cancelled
    ensures forall item :: item in c.active ==> OpenRuns(c)[item] == c.active[item].run
  {
    hide SL.Aligned;
    forall item | item in c.active ensures item in c.attempts && c.attempts[item].run == c.active[item].run {
      assert IsLive(c, item);
    }
  }

  lemma RestartedSchedule(sim: Sim.Sim, log: seq<Row<Key, Event>>, p: Projection, order: seq<ItemId>)
    requires sim.sched.policy.ContinuousFrontier? && sim.sched.waves == [] && sim.sched.waveSequence == 0
    requires Elems(order) == p.active.Keys
    requires forall i :: 0 <= i < |p.waves| ==> p.waves[i].number == i + 1
    ensures var r := Rehydrate(Reopened(sim, log), p, order);
      && r.Ok?
      && r.value.sim.sched == sim.sched.(
           base := if p.base.Some? then p.base.value else sim.sched.base,
           released := sim.sched.released + FinishedItems(p),
           dispatched := sim.sched.dispatched + Elems(order),
           waves := p.waves, waveSequence := |p.waves|, currentWave := r.value.sim.sched.currentWave)
      && r.value.sim.attempts == sim.attempts && r.value.log == log
      && r.value.sim.repository == sim.repository && r.value.sim.root == sim.root
      && (p.waves != [] ==> r.value.sim.sched.currentWave == Some(p.waves[|p.waves| - 1]))
      && (p.waves == [] ==> r.value.sim.sched.currentWave == sim.sched.currentWave)
  {
    hide RestoreWaves, RestoreActive, FinishedItems;
    var based := if p.base.None? then sim else Sim.AfterRefresh(sim, p.base.value).value;
    var released := Sim.AfterRestoreReleased(based, FinishedItems(p));
    RestoredWaves(released, p.waves);
    RestoredActive(RestoreWaves(released, p.waves), p, order);
  }

  /** The parts a restart reads straight off the projection. */
  lemma RestartedActive(sim: Sim.Sim, log: seq<Row<Key, Event>>, p: Projection, order: seq<ItemId>)
    requires Elems(order) == p.active.Keys && OnePerItem(p.prompts)
    requires Rehydrate(Reopened(sim, log), p, order).Ok?
    ensures var r := Rehydrate(Reopened(sim, log), p, order).value;
      && r.active.Keys == p.active.Keys
      && (forall item :: item in p.active ==>
            r.active[item].run == p.active[item].run && r.active[item].dispatch.item == item)
      && r.prompts == p.prompts
  {
    hide RestoreWaves, RestoreActive, FinishedItems;
    assert [] + p.prompts == p.prompts;
    RestoredPrompts([], p.prompts);
  }

  /** Under the continuous policy a restart restores ownership, waves, prompts and the next frontier. */
  lemma RestartRefines(sim: Sim.Sim, c: Controller, completed: set<ItemId>, revisions: seq<Revision>, order: seq<ItemId>)
    requires Live(c, completed, revisions) && c.sim.sched.policy.ContinuousFrontier?
    requires sim.sched == S.NewSchedule(c.sim.sched.graph, c.sim.sched.policy, sim.sched.base, completed)
    requires Elems(order) == Project(c.log).active.Keys
    ensures var r := Rehydrate(Reopened(sim, c.log), Project(c.log), order);
      r.Ok? && Restored(r.value, c, RestoredBase(sim.sched.base, revisions))
  {
    hide Linked, Journal, S.Frontier, Rehydrate;
    var p := Project(c.log);
    ProjectionReproduces(c, completed, revisions);
    OpenItems(c, completed);
    RestartedSchedule(sim, c.log, p, order);
    RestartedActive(sim, c.log, p, order);
    var r := Rehydrate(Reopened(sim, c.log), p, order).value;
    assert r.sim.sched.released == c.sim.sched.released;
    RestoredFrontier(r.sim.sched, c, completed);
  }

  /** The same for every run, from construction to restart. */
  lemma EveryRunSurvivesRestart(graph: G.DependencyGraph, base: Revision, repository: string, root: string,
                                review: ReviewPolicy, completed: set<ItemId>, actions: seq<Action>, order: seq<ItemId>)
    requires var t := Trace(NewController(Sim.NewSim(graph, S.ContinuousFrontier, base, repository, root, review, completed)), []);
      RunsCurrently(t, actions) && Elems(order) == Project(Play(t, actions).ctrl.log).active.Keys
    ensures
      var sim := Sim.NewSim(graph, S.ContinuousFrontier, base, repository, root, review, completed);
      var end := Play(Trace(NewController(sim), []), actions);
      var r := Rehydrate(Reopened(sim, end.ctrl.log), Project(end.ctrl.log), order);
      && r.Ok? && Restored(r.value, end.ctrl, RestoredBase(base, end.revisions))
      && (r.value.sim.sched.base == end.ctrl.sim.sched.base <==> NothingNewSinceBase(end.revisions))
  {
    hide Live, Act, RefreshedTo, Rehydrate, Project, Play, S.Frontier;
    var sim := Sim.NewSim(graph, S.ContinuousFrontier, base, repository, root, review, completed);
    var t := Trace(NewController(sim), []);
    NewIsLive(graph, S.ContinuousFrontier, base, repository, root, review, completed);
    PlayKeeps(t, completed, actions);
    PlayMoves(t, completed, actions, base);
    var end := Play(t, actions);
    RestartRefines(sim, end.ctrl, completed, end.revisions, order);
    if end.revisions != [] {
      BaseSurvives(end.revisions);
      LastNewIsLatest(end.revisions);
    }
  }

  /** After a restart the cancelled items are active again, beside the live ones; so the two agree exactly without any. */
  lemma OnlyCancelledItemsReturn(sim: Sim.Sim, c: Controller, completed: set<ItemId>, revisions: seq<Revision>, order: seq<ItemId>)
    requires Live(c, completed, revisions) && Elems(order) == Project(c.log).active.Keys
    ensures var r := Rehydrate(Reopened(sim, c.log), Project(c.log), order);
      r.Ok? ==>
        && c.active.Keys <= r.value.active.Keys && r.value.active.Keys - c.active.Keys == c.sim.sched.cancelled
        && (r.value.active.Keys == c.active.Keys <==> c.sim.sched.cancelled == {})
        && forall item :: item in c.active ==> r.value.active[item].run == c.active[item].run
  {
    hide Linked, Journal, Rehydrate, Project;
    ProjectionReproduces(c, completed, revisions);
    OpenItems(c, completed);
    CancelledIsNotActive(c, completed);
    if Rehydrate(Reopened(sim, c.log), Project(c.log), order).Ok? {
      RestartedActive(sim, c.log, Project(c.log), order);
    }
  }

  lemma CancelledIsNotActive(c: Controller, completed: set<ItemId>)
    requires Linked(c, completed)
    ensures c.active.Keys !! c.sim.sched.cancelled
  {
    hide SL.Mirrors;
    CancelledIsReleased(c, completed);
  }

  /** Under the barrier a restart is refused exactly when the base was ever refreshed. */
  lemma BarrierRestartRefused(sim: Sim.Sim, c: Controller, completed: set<ItemId>, revisions: seq<Revision>, order: seq<ItemId>)
    requires Live(c, completed, revisions) && c.sim.sched.policy.WaveBarrier?
    requires sim.activeWave == {} && sim.sched.policy.WaveBarrier?
    requires Elems(order) == Project(c.log).active.Keys
    ensures Rehydrate(Reopened(sim, c.log), Project(c.log), order).Err? <==> revisions != []
  {
    hide Linked, RowsFit, RestoreActive, RestoreWaves;
    ProjectionReproduces(c, completed, revisions);
    if revisions != [] {
      LastNewIsLatest(revisions);
    }
  }

  /** A runtime failure reported after an item finished costs its release at the next restart, unless already reported. */
  lemma LateFailureForgetsRelease(c: Controller, completed: set<ItemId>, revisions: seq<Revision>, item: ItemId, code: FailureCode)
    requires Live(c, completed, revisions) && item in c.sim.sched.released - completed
    ensures var t := MarkRuntimeFailure(c, item, code);
      && t.sim == c.sim
      && (item in FinishedItems(Project(t.log)) <==>
            item in c.attentionPublished || HasKey(c.log, FactKey(TicketStateChanged(item, NeedsAttention))))
  {
    hide Linked, Journal, MarkRuntimeFailure;
    ProjectionReproduces(c, completed, revisions);
    FinishedIsInactive(c, completed, item);
    LateFailureLog(c, item, code);
    var attention := TicketStateChanged(item, NeedsAttention);
    TicketAfter(c.log, attention, item);
    TicketAfter(if item in c.attentionPublished then c.log else Inserted(c.log, RowOf(attention)),
                RuntimeFailed(item, code), item);
    assert FinishedItems(Project(c.log)) == c.sim.sched.released - completed;
  }

  lemma LateFailureLog(c: Controller, item: ItemId, code: FailureCode)
    requires item !in c.active
    ensures var t := MarkRuntimeFailure(c, item, code);
      var rows := if item in c.attentionPublished then c.log
                  else Inserted(c.log, RowOf(TicketStateChanged(item, NeedsAttention)));
      t.sim == c.sim && t.log == Inserted(rows, RowOf(RuntimeFailed(item, code)))
  {
  }

  lemma TicketAfter(rows: seq<Row<Key, Event>>, e: Event, item: ItemId)
    requires e == TicketStateChanged(item, NeedsAttention) || e.RuntimeFailed?
    ensures item in FinishedItems(Project(Inserted(rows, RowOf(e)))) <==>
      item in FinishedItems(Project(rows)) && (e.RuntimeFailed? || HasKey(rows, KeyOf(e)))
  {
  }

  lemma FinishedIsInactive(c: Controller, completed: set<ItemId>, item: ItemId)
    requires Linked(c, completed) && item in c.sim.sched.released
    ensures item !in c.active
  {
  }

  // Bases: which calls move them, and which a restart recovers.

  /** The schedule after a call, as far as graph, policy and base go. */
  ghost predicate MovesTo(s: S.Schedule, t: S.Schedule, moves: seq<Revision>) {
    && t.graph == s.graph && t.policy == s.policy
    && t.base == if moves == [] then s.base else moves[|moves| - 1]
  }

  lemma {:induction false} PersistKeepsSim(c: Controller, prompts: seq<Prompt>)
    ensures PersistPrompts(c, prompts).ctrl.sim == c.sim
    decreases prompts
  {
    if prompts != [] {
      var p := prompts[0];
      PersistKeepsSim(Emit(c, PromptSnapshotRecorded(p)), prompts[1..]);
      PersistKeepsSim(Emit(c.(prompts := c.prompts + [p]), PromptSnapshotRecorded(p)), prompts[1..]);
    }
  }

  lemma DispatchStays(c: Controller, prompts: seq<Prompt>, launcher: Launcher)
    ensures MovesTo(c.sim.sched, DispatchReady(c, prompts, launcher).ctrl.sim.sched, [])
  {
    hide StartFrontier, PersistPrompts;
    PersistKeepsSim(c, prompts);
    StartFrontierKeepsSim(PersistPrompts(c, prompts).ctrl, launcher);
  }

  lemma NextFrontierStays(c: Controller, launcher: Launcher)
    ensures MovesTo(c.sim.sched, DispatchNextFrontier(c, launcher).ctrl.sim.sched, [])
  {
    hide DispatchReady;
    DispatchStays(c, c.prompts, launcher);
  }

  lemma RefreshMoves(c: Controller, revision: Revision)
    requires Sim.CanRefresh(c.sim) <==> Sim.AfterRefresh(c.sim, revision).Ok?
    ensures MovesTo(c.sim.sched, RefreshTargetBase(c, revision).ctrl.sim.sched,
                    if Sim.CanRefresh(c.sim) then [revision] else [])
  {
  }

  lemma RefillMoves(c: Controller, completed: set<ItemId>, nextBase: Option<Revision>, launcher: Launcher)
    requires SL.Aligned(c.sim, completed)
    ensures MovesTo(c.sim.sched, Refill(c, nextBase, launcher).ctrl.sim.sched, RefilledTo(c, nextBase))
  {
    hide SL.Aligned, RefreshTargetBase, DispatchNextFrontier;
    if nextBase.Some? && Sim.CanRefresh(c.sim) {
      SL.LayersNeverDisagree(c.sim, completed, "", nextBase.value);
      RefreshMoves(c, nextBase.value);
      NextFrontierStays(RefreshTargetBase(c, nextBase.value).ctrl, launcher);
    }
  }

  lemma ObserveStays(s: Sim.Sim, item: ItemId, o: DeliveryObservation)
    requires Sim.AfterObserve(s, item, o).Ok?
    ensures Sim.AfterObserve(s, item, o).value.sched == s.sched
  {
  }

  lemma EvaluateStays(s: Sim.Sim, item: ItemId)
    requires Sim.AfterEvaluate(s, item).Ok?
    ensures MovesTo(s.sched, Sim.AfterEvaluate(s, item).value.0.sched, [])
  {
  }

  lemma JudgeStays(c: Controller, item: ItemId, o: DeliveryObservation)
    requires item in c.active && Judge(c, item, o).Ok?
    ensures MovesTo(c.sim.sched, Judge(c, item, o).value.0.sim.sched, [])
  {
    hide Sim.AfterObserve, Sim.AfterEvaluate;
    ObserveStays(c.sim, item, o);
    EvaluateStays(Sim.AfterObserve(c.sim, item, o).value, item);
  }

  lemma MarkStays(c: Controller, item: ItemId, code: FailureCode)
    ensures MarkRuntimeFailure(c, item, code).sim == c.sim
  {
  }

  lemma ReconcileMoves(c: Controller, completed: set<ItemId>, revisions: seq<Revision>, a: Action)
    requires Live(c, completed, revisions) && a.Reconciling?
    ensures MovesTo(c.sim.sched, Act(c, a).sim.sched, RefreshedTo(c, a))
  {
    hide Journal, Linked, Judge, Refill, MarkRuntimeFailure, RefilledTo;
    var Reconciling(item, outcome, nextBase, launcher) := a;
    if item in c.active {
      MarkStays(c, item, Operational("authority_violation"));
      if outcome.Observed? {
        JudgeKeeps(c, completed, revisions, item, outcome.observation);
        JudgeStays(c, item, outcome.observation);
        var t := Judge(c, item, outcome.observation).value.0;
        LiveIsAligned(t, completed, revisions);
        RefillMoves(t, completed, nextBase, launcher);
      }
    }
  }

  lemma LiveIsAligned(c: Controller, completed: set<ItemId>, revisions: seq<Revision>)
    requires Live(c, completed, revisions)
    ensures SL.Aligned(c.sim, completed)
  {
  }

  lemma RetryStays(c: Controller, item: ItemId, prompt: Option<string>, destroyed: Option<FailureCode>, launcher: Launcher)
    ensures MovesTo(c.sim.sched, Retry(c, item, prompt, destroyed, launcher).ctrl.sim.sched, [])
  {
    hide DispatchReady;
    if item in c.active && Sim.AfterRetry(c.sim, item).Ok? {
      var t := Superseded(c, item);
      var next := if prompt.Some? then prompt else PromptFor(t.prompts, item);
      if next.Some? {
        DispatchStays(t, [Prompt(item, next.value)], launcher);
      }
    }
  }

  lemma ActMoves(c: Controller, completed: set<ItemId>, revisions: seq<Revision>, a: Action)
    requires Live(c, completed, revisions)
    ensures MovesTo(c.sim.sched, Act(c, a).sim.sched, RefreshedTo(c, a))
  {
    hide Live, Reconcile, Retry, DispatchReady, MarkRuntimeFailure, RefilledTo, Judge, RefreshTargetBase;
    match a
    case Dispatch(prompts, launcher) => DispatchStays(c, prompts, launcher);
    case Reconciling(_, _, _, _) => ReconcileMoves(c, completed, revisions, a);
    case Refreshing(revision) =>
      LiveIsAligned(c, completed, revisions);
      SL.LayersNeverDisagree(c.sim, completed, "", revision);
      RefreshMoves(c, revision);
    case Retrying(item, prompt, destroyed, launcher) => RetryStays(c, item, prompt, destroyed, launcher);
    case Cancelling(item, reason) =>
    case RuntimeFailure(item, code) => MarkStays(c, item, code);
  }

  lemma {:induction false} PlayMoves(t: Trace, completed: set<ItemId>, actions: seq<Action>, base: Revision)
    requires Live(t.ctrl, completed, t.revisions) && RunsCurrently(t, actions)
    requires t.ctrl.sim.sched.base == if t.revisions == [] then base else t.revisions[|t.revisions| - 1]
    ensures var end := Play(t, actions);
      && end.ctrl.sim.sched.graph == t.ctrl.sim.sched.graph && end.ctrl.sim.sched.policy == t.ctrl.sim.sched.policy
      && end.ctrl.sim.sched.base == if end.revisions == [] then base else end.revisions[|end.revisions| - 1]
    decreases actions
  {
    hide Live, Act, RefreshedTo;
    if actions != [] {
      ActKeeps(t.ctrl, completed, t.revisions, actions[0]);
      ActMoves(t.ctrl, completed, t.revisions, actions[0]);
      PlayMoves(Advance(t, actions[0]), completed, actions[1..], base);
    }
  }

  /** No revision appeared for the first time after the current base first did. */
  ghost predicate NothingNewSinceBase(revisions: seq<Revision>) {
    revisions != [] ==>
      forall j :: IndexOf(revisions, revisions[|revisions| - 1]) < j < |revisions| ==> revisions[j] in revisions[..j]
  }

  /** The restored base is the live one exactly when nothing new was seen since the live one first appeared. */
  lemma {:induction false} BaseSurvives(revisions: seq<Revision>)
    requires revisions != []
    ensures LastNew(revisions) == Some(revisions[|revisions| - 1]) <==> NothingNewSinceBase(revisions)
  {
    var last := revisions[|revisions| - 1];
    var k := IndexOf(revisions, last);
    LastNewIsLatest(revisions);
    var m := LastNewAt(revisions);
    if k < m {
      assert revisions[m] !in revisions[..m];
    } else {
      assert k == m;
    }
  }

  /** Where the last new revision first appears. */
  ghost function LastNewAt(revisions: seq<Revision>): (m: nat)
    requires revisions != []
    ensures m < |revisions|
  {
    var init, last := revisions[..|revisions| - 1], revisions[|revisions| - 1];
    if init == [] || last !in init then |revisions| - 1 else LastNewAt(init)
  }

  lemma {:induction false} LastNewIsLatest(revisions: seq<Revision>)
    requires revisions != []
    ensures var m := LastNewAt(revisions);
      && LastNew(revisions) == Some(revisions[m])
      && revisions[m] !in revisions[..m]
      && forall j :: m < j < |revisions| ==> revisions[j] in revisions[..j]
  {
    var init := revisions[..|revisions| - 1];
    if init != [] && revisions[|revisions| - 1] in init {
      LastNewIsLatest(init);
      var m := LastNewAt(init);
      assert init[..m] == revisions[..m];
      forall j | m < j < |revisions| ensures revisions[j] in revisions[..j] {
        if j < |init| {
          assert init[..j] == revisions[..j];
        }
      }
    }
  }

  /** A base that never returns to an earlier value always survives. */
  lemma ForwardBaseSurvives(revisions: seq<Revision>)
    requires revisions != []
    requires forall i, j, k :: 0 <= i < j < k < |revisions| && revisions[i] == revisions[k] ==> revisions[j] == revisions[i]
    ensures LastNew(revisions) == Some(revisions[|revisions| - 1])
  {
  }
}
