/** What the log says about attempts: after every run it has the state each attempt is in, cancellations apart. */
module AttemptRecords {
  import opened Prelude
  import G = DependencyGraphs
  import opened EventLogs
  import opened Gate
  import opened Projections
  import opened Controllers
  import opened ControllerLaws
  import opened AssignmentLaws
  import opened Restarts
  import opened RebuiltRuns
  import opened RestartPlaces
  import J = Journals
  import Sim = Simulation
  import S = Scheduling

  function StateKey(run: RunId, state: AttemptState): Key {
    KeyOf(WorkAttemptStateChanged(run, state))
  }

  /** The log has the attempt's state, unless it was cancelled, and the rows that led to it. */
  ghost predicate Told(rows: seq<Row<Key, Event>>, w: WorkAttempt) {
    var states := Project(rows).attemptStates;
    && (w.state.CancelledAttempt? || (w.run in states && states[w.run] == w.state))
    && (w.state.Running? ==> !HasKey(rows, StateKey(w.run, AttentionNeeded)))
    && (forall state :: EndsAttempt(state) && HasKey(rows, StateKey(w.run, state)) ==> w.state == state)
    && HasKey(rows, AttemptKey(w.run))
  }

  predicate IsWorking(state: AttemptState) {
    state.Running? || state.AttentionNeeded?
  }

  ghost predicate OnlyStartedRuns(rows: seq<Row<Key, Event>>) {
    forall run, state :: HasKey(rows, StateKey(run, state)) ==> HasKey(rows, AttemptKey(run))
  }

  ghost predicate AttemptsAreTold(c: Controller) {
    && OnlyStartedRuns(c.log)
    && (forall item :: item in c.attempts ==> c.attempts[item].run.item == item && Told(c.log, c.attempts[item]))
    && forall item :: item in c.active ==>
         item in c.attempts && c.attempts[item].run == c.active[item].run && IsWorking(c.attempts[item].state)
  }

  // One row.

  predicate IsAbout(e: Event, run: RunId) {
    (e.WorkAttemptStarted? || e.WorkAttemptStateChanged?) && e.run == run
  }

  lemma OtherRow(rows: seq<Row<Key, Event>>, e: Event, w: WorkAttempt)
    requires Told(rows, w) && !IsAbout(e, w.run)
    ensures Told(Inserted(rows, RowOf(e)), w)
  {
    hide HasKey, Inserted;
    ProjectOneMore(rows, e);
    KeysAfterInsert(rows, RowOf(e));
  }

  lemma StartedRunsRow(rows: seq<Row<Key, Event>>, e: Event)
    requires OnlyStartedRuns(rows) && (e.WorkAttemptStateChanged? ==> HasKey(rows, AttemptKey(e.run)))
    ensures OnlyStartedRuns(Inserted(rows, RowOf(e)))
  {
    hide HasKey, Inserted;
    KeysAfterInsert(rows, RowOf(e));
  }

  /** A working attempt that ends or needs attention is told so. */
  lemma StateRow(rows: seq<Row<Key, Event>>, w: WorkAttempt, state: AttemptState)
    requires Told(rows, w) && IsWorking(w.state) && !state.Running? && !state.CancelledAttempt?
    ensures Told(Inserted(rows, RowOf(WorkAttemptStateChanged(w.run, state))), w.(state := state))
  {
    hide HasKey, Inserted;
    assert !HasKey(rows, StateKey(w.run, state)) || state == w.state;
    ProjectOneMore(rows, WorkAttemptStateChanged(w.run, state));
    KeysAfterInsert(rows, RowOf(WorkAttemptStateChanged(w.run, state)));
  }

  /** A new state of an open run closes it exactly when the attempt is not working any more. */
  lemma EndsClose(rows: seq<Row<Key, Event>>, run: RunId, state: AttemptState)
    requires IsOpen(rows, run) && run in Project(rows).attemptRecords && !HasKey(rows, StateKey(run, state))
    ensures IsOpen(Inserted(rows, RowOf(WorkAttemptStateChanged(run, state))), run) <==> IsWorking(state)
  {
    hide HasKey, Inserted;
    ProjectOneMore(rows, WorkAttemptStateChanged(run, state));
  }

  lemma StartRowTells(rows: seq<Row<Key, Event>>, run: RunId, workspace: Workspace)
    requires OnlyStartedRuns(rows) && !HasKey(rows, AttemptKey(run))
    ensures Told(Inserted(rows, RowOf(WorkAttemptStarted(run, workspace))), WorkAttempt(run, Running))
  {
    hide HasKey, Inserted;
    ProjectOneMore(rows, WorkAttemptStarted(run, workspace));
    KeysAfterInsert(rows, RowOf(WorkAttemptStarted(run, workspace)));
  }

  lemma EmitTells(c: Controller, e: Event)
    requires AttemptsAreTold(c) && !e.WorkAttemptStarted? && !e.WorkAttemptStateChanged?
    ensures AttemptsAreTold(Emit(c, e))
  {
    hide Told, OnlyStartedRuns, Inserted;
    StartedRunsRow(c.log, e);
    forall item | item in c.attempts ensures Told(Inserted(c.log, RowOf(e)), c.attempts[item]) {
      OtherRow(c.log, e, c.attempts[item]);
    }
  }

  /** Nothing else matters. */
  lemma RestTells(c: Controller, t: Controller)
    requires AttemptsAreTold(c) && t.log == c.log && t.attempts == c.attempts
    requires forall item :: item in t.active ==> item in c.active && t.active[item] == c.active[item]
    ensures AttemptsAreTold(t)
  {
    hide Told;
  }

  lemma AttemptIsStarted(c: Controller, item: ItemId)
    requires AttemptsAreTold(c) && item in c.attempts
    ensures HasKey(c.log, AttemptKey(c.attempts[item].run))
  {
    assert Told(c.log, c.attempts[item]);
  }

  /** The state of an active item's attempt is set and told. */
  lemma SetTells(c: Controller, item: ItemId, state: AttemptState)
    requires AttemptsAreTold(c) && item in c.active && !state.Running? && !state.CancelledAttempt?
    ensures var t := Emit(SetAttempt(c, item, state), WorkAttemptStateChanged(c.active[item].run, state));
      && AttemptsAreTold(t.(active := c.active - {item}))
      && (state.AttentionNeeded? ==> AttemptsAreTold(t))
  {
    hide Told, OnlyStartedRuns, Inserted;
    var w, e := c.attempts[item], WorkAttemptStateChanged(c.active[item].run, state);
    AttemptIsStarted(c, item);
    StartedRunsRow(c.log, e);
    StateRow(c.log, w, state);
    forall other | other in c.attempts && other != item ensures Told(Inserted(c.log, RowOf(e)), c.attempts[other]) {
      OtherRow(c.log, e, c.attempts[other]);
    }
  }

  // Starting.

  lemma StartTells(c: Controller, d: Dispatch, workspace: Workspace)
    requires AttemptsAreTold(c) && !HasKey(c.log, AttemptKey(RunOf(d)))
    ensures AttemptsAreTold(StartAttempt(c, d, workspace))
    ensures forall run :: HasKey(StartAttempt(c, d, workspace).log, AttemptKey(run)) <==>
      HasKey(c.log, AttemptKey(run)) || run == RunOf(d)
  {
    hide Told, OnlyStartedRuns, Inserted, HasKey;
    var ticket, e := TicketStateChanged(d.item, InProgress), WorkAttemptStarted(RunOf(d), workspace);
    EmitTells(c, ticket);
    var rows := Inserted(c.log, RowOf(ticket));
    KeysAfterInsert(c.log, RowOf(ticket));
    KeysAfterInsert(rows, RowOf(e));
    StartOne(c, d, workspace);
    StartedRunsRow(rows, e);
    StartRowTells(rows, RunOf(d), workspace);
    forall other | other in c.attempts && other != d.item ensures Told(Inserted(rows, RowOf(e)), c.attempts[other]) {
      OtherRow(rows, e, c.attempts[other]);
    }
  }

  lemma {:induction false} StartAllTells(c: Controller, ds: seq<Dispatch>, launcher: Launcher)
    requires AttemptsAreTold(c) && AllFresh(c.log, ds) && OneEach(ds)
    ensures AttemptsAreTold(StartAll(c, ds, launcher))
    ensures forall run :: HasKey(StartAll(c, ds, launcher).log, AttemptKey(run)) <==>
      HasKey(c.log, AttemptKey(run)) || run in RunSet(ds)
  {
    hide AttemptsAreTold, HasKey, StartAttempt, RunOf;
    if ds != [] {
      var init, d := ds[..|ds| - 1], ds[|ds| - 1];
      AllFreshOneMore(c.log, ds);
      LastIsNew(ds);
      StartAllTells(c, init, launcher);
      StartTells(StartAll(c, init, launcher), d, launcher.create(d.item, d.attempt));
    }
  }

  lemma FrontierTells(c: Controller, completed: set<ItemId>, revisions: seq<Revision>, launcher: Launcher)
    requires Live(c, completed, revisions) && AttemptsAreTold(c)
    ensures AttemptsAreTold(DispatchFrontier(c, launcher))
  {
    hide Live, AttemptsAreTold, StartAll, Sim.AfterDispatch, S.Frontier, FreshFrontier, AllFresh, Inserted;
    var d := c.(sim := Sim.AfterDispatch(c.sim));
    LiveIsFresh(c, completed, revisions);
    FreshIsAllFresh(c);
    FrontierIsNotHeld(c.sim);
    RestTells(c, d);
    StartAllTells(d, Sim.Preview(c.sim), launcher);
    var t := StartAll(d, Sim.Preview(c.sim), launcher);
    if CurrentWaveEvent(t).Some? {
      EmitTells(t, CurrentWaveEvent(t).value);
    }
  }

  lemma {:induction false} PersistTells(c: Controller, prompts: seq<Prompt>)
    requires AttemptsAreTold(c)
    ensures AttemptsAreTold(PersistPrompts(c, prompts).ctrl)
    decreases prompts
  {
    hide AttemptsAreTold, Inserted;
    if prompts != [] {
      var p := prompts[0];
      var t := if PromptFor(c.prompts, p.item).Some? then c else c.(prompts := c.prompts + [p]);
      RestTells(c, t);
      EmitTells(t, PromptSnapshotRecorded(p));
      PersistTells(Emit(t, PromptSnapshotRecorded(p)), prompts[1..]);
    }
  }

  lemma DispatchTells(c: Controller, completed: set<ItemId>, revisions: seq<Revision>, prompts: seq<Prompt>, launcher: Launcher)
    requires Live(c, completed, revisions) && AttemptsAreTold(c)
    ensures AttemptsAreTold(DispatchReady(c, prompts, launcher).ctrl)
  {
    hide Live, StartFrontier, DispatchFrontier, AttemptsAreTold;
    PersistKeeps(c, completed, revisions, prompts);
    PersistTells(c, prompts);
    var t := PersistPrompts(c, prompts).ctrl;
    FrontierStarts(t, completed, revisions, launcher);
    FrontierTells(t, completed, revisions, launcher);
  }

  lemma NextFrontierTells(c: Controller, completed: set<ItemId>, revisions: seq<Revision>, launcher: Launcher)
    requires Live(c, completed, revisions) && AttemptsAreTold(c)
    ensures AttemptsAreTold(DispatchNextFrontier(c, launcher).ctrl)
  {
    hide Live, DispatchReady, AttemptsAreTold;
    DispatchTells(c, completed, revisions, c.prompts, launcher);
    EmitTells(c, FrontierWaitingForPrompts(S.Frontier(c.sim.sched)));
  }

  lemma RefreshTells(c: Controller, revision: Revision)
    requires AttemptsAreTold(c)
    ensures AttemptsAreTold(RefreshTargetBase(c, revision).ctrl)
  {
    hide AttemptsAreTold, Inserted;
    var r := Sim.AfterRefresh(c.sim, revision);
    if r.Ok? {
      RestTells(c, c.(sim := r.value));
      EmitTells(c.(sim := r.value), BaseRevisionRefreshed(revision));
    }
  }

  lemma RefillTells(c: Controller, completed: set<ItemId>, revisions: seq<Revision>, nextBase: Option<Revision>, launcher: Launcher)
    requires Live(c, completed, revisions) && AttemptsAreTold(c)
    ensures AttemptsAreTold(Refill(c, nextBase, launcher).ctrl)
  {
    hide Live, RefreshTargetBase, DispatchNextFrontier, AttemptsAreTold;
    if nextBase.Some? && Sim.CanRefresh(c.sim) {
      RefreshKeeps(c, completed, revisions, nextBase.value);
      RefreshTells(c, nextBase.value);
      NextFrontierTells(RefreshTargetBase(c, nextBase.value).ctrl, completed, revisions + [nextBase.value], launcher);
    }
  }

  // Reconciling, retrying and cancelling.

  lemma NoteTells(c: Controller, item: ItemId)
    requires AttemptsAreTold(c)
    ensures AttemptsAreTold(NoteAttention(c, item))
  {
    hide AttemptsAreTold, Inserted;
    EmitTells(c, TicketStateChanged(item, NeedsAttention));
    if item !in c.attentionPublished {
      RestTells(SetTicket(c, item, NeedsAttention), NoteAttention(c, item));
    }
  }

  lemma MarkTells(c: Controller, item: ItemId, code: FailureCode)
    requires AttemptsAreTold(c) && item in c.active
    ensures AttemptsAreTold(MarkRuntimeFailure(c, item, code))
  {
    hide AttemptsAreTold, Inserted, SetAttempt;
    NoteTells(c, item);
    var t := NoteAttention(c, item);
    HasAttempt(t, item);
    SetTells(t, item, AttentionNeeded);
    SetKeeps(t, item, AttentionNeeded);
    EmitTells(Emit(SetAttempt(t, item, AttentionNeeded), WorkAttemptStateChanged(t.active[item].run, AttentionNeeded)),
              RuntimeFailed(item, code));
  }

  lemma HasAttempt(c: Controller, item: ItemId)
    requires AttemptsAreTold(c) && item in c.active
    ensures item in c.attempts
  {
  }

  lemma SetKeeps(c: Controller, item: ItemId, state: AttemptState)
    ensures var t := SetAttempt(c, item, state); t.active == c.active && t.log == c.log && t.attempts.Keys == c.attempts.Keys
  {
  }

  lemma RaiseTells(c: Controller, item: ItemId)
    requires AttemptsAreTold(c) && item in c.active
    ensures AttemptsAreTold(RaiseAttention(c, item))
  {
    hide AttemptsAreTold, Inserted, SetAttempt;
    NoteTells(c, item);
    SetTells(NoteAttention(c, item), item, AttentionNeeded);
  }

  lemma SettleTells(c: Controller, item: ItemId)
    requires AttemptsAreTold(c) && item in c.active && item !in c.donePublished
    ensures AttemptsAreTold(Settle(c, item))
  {
    hide AttemptsAreTold, Inserted, SetAttempt;
    EmitTells(c, TicketStateChanged(item, Done));
    var u := SetTicket(c, item, Done).(donePublished := c.donePublished + {item});
    RestTells(SetTicket(c, item, Done), u);
    SetTells(u, item, ReleasedAttempt);
    SetKeeps(u, item, ReleasedAttempt);
  }

  lemma JudgeTells(c: Controller, completed: set<ItemId>, revisions: seq<Revision>, item: ItemId, o: DeliveryObservation)
    requires Live(c, completed, revisions) && AttemptsAreTold(c) && item in c.active
    ensures Judge(c, item, o).Ok? && AttemptsAreTold(Judge(c, item, o).value.0)
  {
    hide Live, AttemptsAreTold, Settle, RaiseAttention, Sim.AfterObserve, Sim.AfterEvaluate, Inserted;
    JudgeKeeps(c, completed, revisions, item, o);
    NotYetDone(c, completed, revisions, item);
    var observed := c.(sim := Sim.AfterObserve(c.sim, item, o).value);
    RestTells(c, observed);
    EmitTells(observed, TicketStateChanged(item, InReview));
    var t := PublishReview(observed, item, o);
    if t != observed {
      RestTells(SetTicket(observed, item, InReview), t);
    }
    var (sim, decision) := Sim.AfterEvaluate(t.sim, item).value;
    var u := t.(sim := sim);
    RestTells(t, u);
    if u.sim.sched.currentWave.Some? {
      EmitTells(u, ExecutionWaveStateChanged(u.sim.sched.currentWave.value.number, S.Released));
    }
    var v := RecordWaveState(u);
    EmitTells(v, GateEvent(c.active[item].run, decision, o));
    SettleTells(Emit(v, GateEvent(c.active[item].run, decision, o)), item);
    RaiseTells(Emit(v, GateEvent(c.active[item].run, decision, o)), item);
  }

  lemma NotYetDone(c: Controller, completed: set<ItemId>, revisions: seq<Revision>, item: ItemId)
    requires Live(c, completed, revisions) && item in c.active
    ensures item !in c.donePublished
  {
    hide J.Journal;
    SettleIsDue(c, completed, revisions, item);
  }

  lemma ReconcileTells(c: Controller, completed: set<ItemId>, revisions: seq<Revision>, a: Action)
    requires Live(c, completed, revisions) && AttemptsAreTold(c) && a.Reconciling?
    ensures AttemptsAreTold(Act(c, a))
  {
    hide Live, AttemptsAreTold, Judge, Refill, MarkRuntimeFailure, Inserted;
    var Reconciling(item, outcome, nextBase, launcher) := a;
    if item in c.active {
      match outcome
      case AuthorityBroken(error) =>
        MarkTells(c, item, Operational("authority_violation"));
        EmitTells(MarkRuntimeFailure(c, item, Operational("authority_violation")), AuthorityViolated(item, error));
      case WorkspaceLost(code) =>
        var t := SetTicket(c, item, NeedsAttention).(attentionPublished := c.attentionPublished + {item});
        EmitTells(c, TicketStateChanged(item, NeedsAttention));
        RestTells(SetTicket(c, item, NeedsAttention), t);
        EmitTells(t, ReconciliationFailed(item, code));
      case ObservationFailed(code) => EmitTells(c, ReconciliationFailed(item, code));
      case Observed(o) =>
        JudgeTells(c, completed, revisions, item, o);
        JudgeKeeps(c, completed, revisions, item, o);
        RefillTells(Judge(c, item, o).value.0, completed, revisions, nextBase, launcher);
    }
  }

  lemma SupersedeTells(c: Controller, item: ItemId)
    requires AttemptsAreTold(c) && item in c.active
    ensures AttemptsAreTold(Supersede(c, item))
    ensures Sim.AfterRetry(c.sim, item).Ok? ==> AttemptsAreTold(Superseded(c, item))
  {
    hide AttemptsAreTold, Inserted, SetAttempt, Sim.AfterRetry;
    SetTells(c, item, SupersededAttempt);
    SetKeeps(c, item, SupersededAttempt);
    var t := Emit(SetAttempt(c, item, SupersededAttempt), WorkAttemptStateChanged(c.active[item].run, SupersededAttempt));
    RestTells(t.(active := c.active - {item}), Supersede(c, item));
    if Sim.AfterRetry(c.sim, item).Ok? {
      RestTells(Supersede(c, item), Superseded(c, item));
    }
  }

  lemma RetryTells(c: Controller, completed: set<ItemId>, revisions: seq<Revision>, item: ItemId, prompt: Option<string>,
                   destroyed: Option<FailureCode>, launcher: Launcher)
    requires Live(c, completed, revisions) && AttemptsAreTold(c)
    ensures AttemptsAreTold(Retry(c, item, prompt, destroyed, launcher).ctrl)
  {
    hide Live, AttemptsAreTold, DispatchReady, Sim.AfterRetry, Supersede, Superseded, Inserted;
    if item in c.active {
      if destroyed.Some? {
        EmitTells(c, RetryFailed(c.active[item].run, destroyed.value));
      } else {
        RetryIsTaken(c, completed, revisions, item);
        SupersedeTells(c, item);
        var t := Superseded(c, item);
        var next := if prompt.Some? then prompt else PromptFor(t.prompts, item);
        if next.Some? {
          DispatchTells(t, completed, revisions, [Prompt(item, next.value)], launcher);
        }
        RetryCases(c, item, prompt, launcher);
      }
    }
  }

  /** A cancelled attempt leaves no row of its own. */
  lemma CancelTells(c: Controller, item: ItemId, reason: string)
    requires AttemptsAreTold(c)
    ensures AttemptsAreTold(CancelFromWave(c, item, reason).ctrl)
  {
    hide AttemptsAreTold, Inserted, Sim.AfterCancel;
    var r := Sim.AfterCancel(c.sim, item, reason);
    if item in c.active && r.Ok? {
      var t := SetAttempt(c.(sim := r.value, active := c.active - {item}), item, CancelledAttempt);
      CancelledTells(c, item, t);
      EmitTells(t, TicketStateChanged(item, CancelledTicket));
      EmitTells(SetTicket(t, item, CancelledTicket), WaveItemCancelled(item, reason));
    }
  }

  lemma CancelledTells(c: Controller, item: ItemId, t: Controller)
    requires AttemptsAreTold(c) && item in c.active
    requires t.log == c.log && t.active == c.active - {item}
    requires t.attempts == if item in c.attempts then c.attempts[item := c.attempts[item].(state := CancelledAttempt)] else c.attempts
    ensures AttemptsAreTold(t)
  {
    hide HasKey, Project;
    assert Told(c.log, c.attempts[item]);
    assert Told(c.log, t.attempts[item]);
  }

  lemma ActTellsAttempts(c: Controller, completed: set<ItemId>, revisions: seq<Revision>, a: Action)
    requires Live(c, completed, revisions) && AttemptsAreTold(c) && FailuresAreCurrent(c, a)
    ensures AttemptsAreTold(Act(c, a))
  {
    hide Live, AttemptsAreTold, DispatchReady, Reconcile, Retry, CancelFromWave, MarkRuntimeFailure, RefreshTargetBase;
    match a
    case Dispatch(prompts, launcher) => DispatchTells(c, completed, revisions, prompts, launcher);
    case Reconciling(_, _, _, _) => ReconcileTells(c, completed, revisions, a);
    case Refreshing(revision) => RefreshTells(c, revision);
    case Retrying(item, prompt, destroyed, launcher) => RetryTells(c, completed, revisions, item, prompt, destroyed, launcher);
    case Cancelling(item, reason) => CancelTells(c, item, reason);
    case RuntimeFailure(item, code) => MarkTells(c, item, code);
  }

  lemma NewTells(sim: Sim.Sim)
    ensures AttemptsAreTold(NewController(sim))
  {
  }

  lemma {:induction false} RunsTellAttempts(t: Trace, completed: set<ItemId>, actions: seq<Action>)
    requires Live(t.ctrl, completed, t.revisions) && AttemptsAreTold(t.ctrl) && RunsCurrently(t, actions)
    ensures AttemptsAreTold(Play(t, actions).ctrl)
    decreases actions
  {
    hide Live, AttemptsAreTold, Act, RefreshedTo;
    if actions != [] {
      ActTellsAttempts(t.ctrl, completed, t.revisions, actions[0]);
      ActKeeps(t.ctrl, completed, t.revisions, actions[0]);
      RunsTellAttempts(Advance(t, actions[0]), completed, actions[1..]);
    }
  }

  /** Over every run of calls of a new controller the log has the state of each attempt, except that cancelling leaves none. */
  lemma EveryRunTellsAttempts(graph: G.DependencyGraph, policy: S.Policy, base: Revision, repository: string, root: string,
                              review: ReviewPolicy, completed: set<ItemId>, actions: seq<Action>)
    requires RunsCurrently(Trace(NewController(Sim.NewSim(graph, policy, base, repository, root, review, completed)), []), actions)
    ensures
      var t := Trace(NewController(Sim.NewSim(graph, policy, base, repository, root, review, completed)), []);
      AttemptsAreTold(Play(t, actions).ctrl)
  {
    hide Live, Play, RunsCurrently, AttemptsAreTold;
    NewIsLive(graph, policy, base, repository, root, review, completed);
    var sim := Sim.NewSim(graph, policy, base, repository, root, review, completed);
    NewTells(sim);
    RunsTellAttempts(Trace(NewController(sim), []), completed, actions);
  }

  // What a restart makes of attempts and tickets.

  predicate WasIn(p: Projection, item: ItemId, ticket: TicketState) {
    item in p.tickets && p.tickets[item] == ticket
  }

  /** Bookkeeping of a rebuilt controller, over the projection it is built from. */
  lemma RebuiltBooks(sim: Sim.Sim, log: seq<Row<Key, Event>>, p: Projection, order: seq<ItemId>, item: ItemId)
    requires Elems(order) == p.active.Keys && Rehydrate(Reopened(sim, log), p, order).Ok?
    ensures var r := Rehydrate(Reopened(sim, log), p, order).value;
      && (item in r.reviewPublished <==> WasIn(p, item, InReview) || WasIn(p, item, NeedsAttention) || WasIn(p, item, Done))
      && (item in r.attentionPublished <==> WasIn(p, item, NeedsAttention))
      && (item in r.donePublished <==> WasIn(p, item, Done))
      && (item in r.attempts <==> item in p.active)
      && (item in p.active && p.active[item].run in p.attemptStates ==>
            r.attempts[item] == WorkAttempt(p.active[item].run, p.attemptStates[p.active[item].run]))
  {
    hide RestoreWaves, RestoreActive, FinishedItems, RestorePrompts;
  }

  /** A restart gives every active item the attempt, with the state, it had. */
  lemma RestartKeepsAttempts(sim: Sim.Sim, c: Controller, order: seq<ItemId>, item: ItemId)
    requires AttemptsAreTold(c) && InStep(c) && item in c.active
    requires Elems(order) == Project(c.log).active.Keys && Rehydrate(Reopened(sim, c.log), Project(c.log), order).Ok?
    ensures var r := Rehydrate(Reopened(sim, c.log), Project(c.log), order).value;
      item in c.attempts && item in r.attempts && r.attempts[item] == c.attempts[item]
  {
    hide Rehydrate, Project, EndsFit, Held;
    RebuiltBooks(sim, c.log, Project(c.log), order, item);
    assert IsRecorded(c.log, item, c.active[item]);
    assert Told(c.log, c.attempts[item]);
  }
}
