/** A restart puts every active item back where its attempt was started, and decides about it as before. */
module RestartPlaces {
  import opened Prelude
  import G = DependencyGraphs
  import opened EventLogs
  import opened Gate
  import opened Projections
  import opened Controllers
  import opened Journals
  import opened ControllerLaws
  import opened AssignmentLaws
  import opened Restarts
  import opened RebuiltRuns
  import Sim = Simulation
  import S = Scheduling

  // Live controllers start no run again, so their assignments stay recorded.

  lemma LiveIsFresh(c: Controller, completed: set<ItemId>, revisions: seq<Revision>)
    requires Live(c, completed, revisions)
    ensures FreshFrontier(c)
  {
    hide Linked, Journal, S.Frontier, OpenRuns, HasKey;
    FrontierIsFree(c, completed, revisions);
    forall item | item in S.Frontier(c.sim.sched) ensures !HasKey(c.log, AttemptKey(RunNow(c.sim, item))) {
      AssignedItem(c.sim, item);
      assert item in Elems(S.Frontier(c.sim.sched));
      NextRunIsFresh(c.log, View(c, completed, revisions), RunNow(c.sim, item));
    }
  }

  lemma RefillIsFresh(c: Controller, completed: set<ItemId>, revisions: seq<Revision>, nextBase: Option<Revision>)
    requires Live(c, completed, revisions)
    ensures var d := RefillFrom(c, nextBase); d.From? ==> FreshFrontier(d.ctrl)
  {
    hide Live, FreshFrontier, RefreshTargetBase, S.Frontier, HasPrompts;
    if nextBase.Some? && Sim.CanRefresh(c.sim) {
      RefreshKeeps(c, completed, revisions, nextBase.value);
      LiveIsFresh(RefreshTargetBase(c, nextBase.value).ctrl, completed, revisions + [nextBase.value]);
    }
  }

  lemma LiveStartsFresh(c: Controller, completed: set<ItemId>, revisions: seq<Revision>, a: Action)
    requires Live(c, completed, revisions)
    ensures StartsFresh(c, a)
  {
    hide Live, FreshFrontier, CanDispatch, Judge, RefillFrom;
    match a
    case Dispatch(_, _) => LiveIsFresh(c, completed, revisions);
    case Retrying(item, _, _, _) =>
      if item in c.active {
        RetryIsTaken(c, completed, revisions, item);
        LiveIsFresh(Superseded(c, item), completed, revisions);
      }
    case Reconciling(item, outcome, nextBase, _) =>
      if item in c.active && outcome.Observed? {
        JudgeKeeps(c, completed, revisions, item, outcome.observation);
        RefillIsFresh(Judge(c, item, outcome.observation).value.0, completed, revisions, nextBase);
      }
    case _ =>
  }

  lemma NewIsInStep(sim: Sim.Sim)
    ensures InStep(NewController(sim))
  {
  }

  lemma {:induction false} LiveRunsStayInStep(t: Trace, completed: set<ItemId>, actions: seq<Action>)
    requires Live(t.ctrl, completed, t.revisions) && InStep(t.ctrl) && RunsCurrently(t, actions)
    ensures InStep(Play(t, actions).ctrl)
    decreases actions
  {
    hide Live, InStep, Act, RefreshedTo, StartsFresh;
    if actions != [] {
      LiveStartsFresh(t.ctrl, completed, t.revisions, actions[0]);
      ActInStep(t.ctrl, actions[0]);
      ActKeeps(t.ctrl, completed, t.revisions, actions[0]);
      LiveRunsStayInStep(Advance(t, actions[0]), completed, actions[1..]);
    }
  }

  // What a restart puts back.

  /** The dispatch of a restored item: its run's base, in the workspace its start recorded. */
  predicate IsPutBack(d: Dispatch, item: ItemId, a: Assignment) {
    && d.item == item && d.base == a.run.base && d.attempt == 1
    && d.repository == a.workspace.repository && d.worktreePath == a.workspace.worktreePath && d.branchRef == a.workspace.branchRef
  }

  lemma {:induction false} RestoredDispatches(sim: Sim.Sim, p: Projection, order: seq<ItemId>)
    requires Elems(order) <= p.active.Keys
    ensures var t := RestoreActive(sim, p, order);
      && t.dispatched.Keys == sim.dispatched.Keys + Elems(order)
      && (forall item :: item in order ==>
            IsPutBack(t.dispatched[item], item, Assignment(t.dispatched[item], p.active[item].workspace, p.active[item].run)))
      && (forall item :: item in sim.dispatched && item !in order ==> t.dispatched[item] == sim.dispatched[item])
      && t == sim.(sched := t.sched, dispatched := t.dispatched, activeWave := t.activeWave)
  {
    if order != [] {
      var init, item := order[..|order| - 1], order[|order| - 1];
      assert order == init + [item];
      RestoredDispatches(sim, p, init);
      assert Elems(order) == Elems(init) + {item};
    }
  }

  lemma {:induction false} WavesKeepTheRest(sim: Sim.Sim, waves: seq<S.ExecutionWave>)
    ensures var t := RestoreWaves(sim, waves); t == sim.(sched := t.sched, activeWave := t.activeWave)
  {
    if waves != [] {
      WavesKeepTheRest(sim, waves[..|waves| - 1]);
    }
  }

  /** A rebuilt simulator: dispatches put back, nothing observed or decided, the configuration it was given. */
  lemma RebuiltSim(sim: Sim.Sim, log: seq<Row<Key, Event>>, p: Projection, order: seq<ItemId>)
    requires Elems(order) == p.active.Keys && Rehydrate(Reopened(sim, log), p, order).Ok?
    ensures var r := Rehydrate(Reopened(sim, log), p, order).value;
      && r.sim.dispatched.Keys == sim.dispatched.Keys + p.active.Keys
      && r.sim.observations == sim.observations && r.sim.decisions == sim.decisions
      && r.sim.review == sim.review && r.sim.repository == sim.repository && r.sim.root == sim.root
      && r.sim.attempts == sim.attempts
      && r.active.Keys == p.active.Keys
      && forall item :: item in p.active ==>
           && r.active[item].run == p.active[item].run && r.active[item].workspace == p.active[item].workspace
           && r.active[item].dispatch == r.sim.dispatched[item] && IsPutBack(r.sim.dispatched[item], item, r.active[item])
  {
    hide RestoreWaves, RestoreActive, FinishedItems, RestorePrompts;
    var based := if p.base.None? then sim else Sim.AfterRefresh(sim, p.base.value).value;
    var released := Sim.AfterRestoreReleased(based, FinishedItems(p));
    WavesKeepTheRest(released, p.waves);
    RestoredDispatches(RestoreWaves(released, p.waves), p, order);
    assert forall item :: item in p.active ==> item in Elems(order);
  }

  /** The workspace is where the dispatch says. */
  predicate IsInPlace(a: Assignment) {
    (a.workspace.repository, a.workspace.worktreePath, a.workspace.branchRef)
    == (a.dispatch.repository, a.dispatch.worktreePath, a.dispatch.branchRef)
  }

  /** Both dispatches are decided alike, whatever is observed and under whatever review policy. */
  ghost predicate DecidedAlike(d: Dispatch, e: Dispatch) {
    forall policy, o :: Decide(policy, d, o) == Decide(policy, e, o)
  }

  /** An observation of the dispatch's own place that the gate approves. */
  function Delivered(d: Dispatch): DeliveryObservation {
    DeliveryObservation(d.repository, d.worktreePath, d.branchRef, d.base, d.base, "head", "head", true, 1, true, true, None, true,
                        None, Some(true), false, None, false, None)
  }

  lemma PlacesDecide(d: Dispatch, e: Dispatch)
    requires d.base == e.base
    ensures DecidedAlike(d, e) <==>
      (d.repository, d.worktreePath, d.branchRef) == (e.repository, e.worktreePath, e.branchRef)
  {
    if (d.repository, d.worktreePath, d.branchRef) != (e.repository, e.worktreePath, e.branchRef) {
      var policy: ReviewPolicy := ReviewPolicyData(1, []);
      GateIsExact(policy, d, Delivered(d));
      assert Decide(policy, e, Delivered(d)).status.Blocked?;
      assert Decide(policy, d, Delivered(d)) != Decide(policy, e, Delivered(d));
    }
  }

  lemma LiveDispatch(c: Controller, completed: set<ItemId>, revisions: seq<Revision>, item: ItemId)
    requires Live(c, completed, revisions) && item in c.active
    ensures item in c.sim.dispatched && c.active[item].dispatch == c.sim.dispatched[item]
    ensures c.active[item].run.base == c.active[item].dispatch.base
  {
    hide Journal;
    ActiveIsLive(c, completed, item);
  }

  /**
   * Restarting a live controller whose assignments are recorded puts every active item back in its recorded workspace. It is
   * decided as it was before the restart exactly when that workspace is where the item was sent.
   */
  lemma RestartPutsBack(sim: Sim.Sim, c: Controller, completed: set<ItemId>, revisions: seq<Revision>, order: seq<ItemId>,
                        item: ItemId)
    requires Live(c, completed, revisions) && InStep(c) && item in c.active
    requires Elems(order) == Project(c.log).active.Keys && Rehydrate(Reopened(sim, c.log), Project(c.log), order).Ok?
    ensures var r := Rehydrate(Reopened(sim, c.log), Project(c.log), order).value;
      && item in r.active && item in r.sim.dispatched && item in c.sim.dispatched
      && r.active[item] == c.active[item].(dispatch := r.sim.dispatched[item])
      && IsPutBack(r.sim.dispatched[item], item, c.active[item])
      && (DecidedAlike(r.sim.dispatched[item], c.sim.dispatched[item]) <==> IsInPlace(c.active[item]))
  {
    hide Live, Rehydrate, Project, EndsFit, Held, DecidedAlike;
    RebuiltSim(sim, c.log, Project(c.log), order);
    LiveDispatch(c, completed, revisions, item);
    assert IsRecorded(c.log, item, c.active[item]);
    PlacesDecide(Rehydrate(Reopened(sim, c.log), Project(c.log), order).value.sim.dispatched[item], c.sim.dispatched[item]);
  }

  /** So for every run of calls of a new controller, under either policy, wherever the restart is not refused. */
  lemma EveryRunIsPutBack(graph: G.DependencyGraph, policy: S.Policy, base: Revision, repository: string, root: string,
                          review: ReviewPolicy, completed: set<ItemId>, actions: seq<Action>, order: seq<ItemId>, item: ItemId)
    requires var t := Trace(NewController(Sim.NewSim(graph, policy, base, repository, root, review, completed)), []);
      && RunsCurrently(t, actions) && item in Play(t, actions).ctrl.active
      && Elems(order) == Project(Play(t, actions).ctrl.log).active.Keys
    ensures
      var sim := Sim.NewSim(graph, policy, base, repository, root, review, completed);
      var c := Play(Trace(NewController(sim), []), actions).ctrl;
      var r := Rehydrate(Reopened(sim, c.log), Project(c.log), order);
      r.Ok? ==>
        && item in r.value.active && item in r.value.sim.dispatched && item in c.sim.dispatched
        && r.value.active[item].run == c.active[item].run && r.value.active[item].workspace == c.active[item].workspace
        && IsPutBack(r.value.sim.dispatched[item], item, c.active[item])
        && (DecidedAlike(r.value.sim.dispatched[item], c.sim.dispatched[item]) <==> IsInPlace(c.active[item]))
  {
    hide Live, Rehydrate, Project, Play, InStep, DecidedAlike, RunsCurrently;
    var sim := Sim.NewSim(graph, policy, base, repository, root, review, completed);
    var t := Trace(NewController(sim), []);
    NewIsLive(graph, policy, base, repository, root, review, completed);
    NewIsInStep(sim);
    PlayKeeps(t, completed, actions);
    LiveRunsStayInStep(t, completed, actions);
    var end := Play(t, actions);
    if Rehydrate(Reopened(sim, end.ctrl.log), Project(end.ctrl.log), order).Ok? {
      RestartPutsBack(sim, end.ctrl, completed, end.revisions, order, item);
    }
  }
}
