/** What a rebuilt controller keeps in step with its log: every call does, exactly as long as no run is started again. */
module RebuiltRuns {
  import opened Prelude
  import opened EventLogs
  import opened Gate
  import opened Projections
  import opened Controllers
  import opened Journals
  import opened ControllerLaws
  import opened AssignmentLaws
  import opened Restarts
  import opened RestartReuse
  import Sim = Simulation
  import S = Scheduling
  import L = SchedulingLaws

  /** The log has the run's start and nothing since that closed it. */
  ghost predicate IsOpen(rows: seq<Row<Key, Event>>, run: RunId) {
    var active := Project(rows).active;
    run.item in active && active[run.item].run == run
  }

  function EndKey(run: RunId, state: AttemptState): Key {
    KeyOf(WorkAttemptStateChanged(run, state))
  }

  /** Ended runs were started and are not open; open ones stand under their item. */
  ghost predicate EndsFit(rows: seq<Row<Key, Event>>) {
    && (forall run, state :: EndsAttempt(state) && HasKey(rows, EndKey(run, state)) ==>
          HasKey(rows, AttemptKey(run)) && !IsOpen(rows, run))
    && (forall run :: HasKey(rows, AttemptKey(run)) ==> run in Project(rows).attemptRecords)
    && forall item :: item in Project(rows).active ==>
         Project(rows).active[item].run.item == item && HasKey(rows, AttemptKey(Project(rows).active[item].run))
  }

  /** The log has the assignment's run open, in the workspace the assignment works in. */
  ghost predicate IsRecorded(rows: seq<Row<Key, Event>>, item: ItemId, a: Assignment) {
    var active := Project(rows).active;
    a.run.item == item && item in active && active[item] == ActiveRecord(a.run, a.workspace)
  }

  /** Every active run is open in the log. */
  ghost predicate ActiveAreOpen(c: Controller) {
    forall item :: item in c.active ==> IsRecorded(c.log, item, c.active[item])
  }

  /** And what is open in the log is not dispatched again. */
  ghost predicate InStep(c: Controller) {
    EndsFit(c.log) && ActiveAreOpen(c) && Project(c.log).active.Keys <= Held(c.sim.sched)
  }

  function Held(s: S.Schedule): set<ItemId> {
    s.dispatched + s.released
  }

  // Rows.

  predicate IsNeutral(e: Event) {
    !e.WorkAttemptStarted? && (e.WorkAttemptStateChanged? ==> !EndsAttempt(e.state))
  }

  lemma NeutralRow(rows: seq<Row<Key, Event>>, e: Event)
    requires IsNeutral(e)
    ensures var more := Inserted(rows, RowOf(e));
      && Project(more).active == Project(rows).active && Project(more).attemptRecords == Project(rows).attemptRecords
      && (forall run :: HasKey(more, AttemptKey(run)) <==> HasKey(rows, AttemptKey(run)))
      && (forall run, state :: EndsAttempt(state) ==> (HasKey(more, EndKey(run, state)) <==> HasKey(rows, EndKey(run, state))))
      && (EndsFit(rows) ==> EndsFit(more))
  {
    hide HasKey, Inserted;
    ProjectOneMore(rows, e);
    KeysAfterInsert(rows, RowOf(e));
  }

  lemma EmitStaysInStep(c: Controller, e: Event)
    requires InStep(c) && IsNeutral(e)
    ensures InStep(Emit(c, e))
  {
    hide HasKey, Inserted, EndsFit, Project;
    NeutralRow(c.log, e);
  }

  /** Only the log, the active set and what the simulator holds matter. */
  lemma RestStaysInStep(c: Controller, t: Controller)
    requires InStep(c) && t.log == c.log && Held(c.sim.sched) <= Held(t.sim.sched)
    requires forall item :: item in t.active ==> item in c.active && t.active[item] == c.active[item]
    ensures InStep(t)
  {
    hide EndsFit, Project;
  }

  /** The end of an active attempt is news to the log, and closes its run. */
  lemma EndStaysInStep(c: Controller, item: ItemId, state: AttemptState)
    requires InStep(c) && item in c.active && EndsAttempt(state)
    ensures var t := Emit(c, WorkAttemptStateChanged(c.active[item].run, state)).(active := c.active - {item});
      InStep(t) && item !in Project(t.log).active
  {
    hide HasKey, Inserted;
    var run := c.active[item].run;
    ProjectOneMore(c.log, WorkAttemptStateChanged(run, state));
    KeysAfterInsert(c.log, RowOf(WorkAttemptStateChanged(run, state)));
    assert !HasKey(c.log, EndKey(run, state));
  }

  /** A start opens its run exactly when the log has no start of it. */
  lemma StartRow(rows: seq<Row<Key, Event>>, run: RunId, workspace: Workspace)
    requires EndsFit(rows)
    ensures var more := Inserted(rows, RowOf(WorkAttemptStarted(run, workspace)));
      && EndsFit(more)
      && Project(more).active == (if HasKey(rows, AttemptKey(run)) then Project(rows).active
                                  else Project(rows).active[run.item := ActiveRecord(run, workspace)])
      && (forall other :: HasKey(more, AttemptKey(other)) <==> HasKey(rows, AttemptKey(other)) || other == run)
  {
    hide HasKey, Inserted;
    ProjectOneMore(rows, WorkAttemptStarted(run, workspace));
    KeysAfterInsert(rows, RowOf(WorkAttemptStarted(run, workspace)));
  }

  // Starting a frontier.

  lemma StartFollows(c: Controller, d: Dispatch, workspace: Workspace)
    requires EndsFit(c.log) && d.item !in Project(c.log).active && d.item !in c.active
    ensures var t := StartAttempt(c, d, workspace);
      && EndsFit(t.log) && t.active.Keys == c.active.Keys + {d.item}
      && Project(t.log).active.Keys <= Project(c.log).active.Keys + {d.item}
      && (forall run :: HasKey(t.log, AttemptKey(run)) <==> HasKey(c.log, AttemptKey(run)) || run == RunOf(d))
      && (ActiveAreOpen(t) <==> ActiveAreOpen(c) && !HasKey(c.log, AttemptKey(RunOf(d))))
  {
    hide HasKey, Inserted, EndsFit, Project;
    var ticket := TicketStateChanged(d.item, InProgress);
    NeutralRow(c.log, ticket);
    StartOne(c, d, workspace);
    StartRow(Inserted(c.log, RowOf(ticket)), RunOf(d), workspace);
    var t := StartAttempt(c, d, workspace);
    if ActiveAreOpen(t) {
      forall item | item in c.active ensures IsRecorded(c.log, item, c.active[item]) {
        assert item in t.active && t.active[item] == c.active[item];
      }
      assert d.item in t.active;
    }
  }

  predicate AllFresh(rows: seq<Row<Key, Event>>, ds: seq<Dispatch>) {
    forall i :: 0 <= i < |ds| ==> !HasKey(rows, AttemptKey(RunOf(ds[i])))
  }

  predicate OneEach(ds: seq<Dispatch>) {
    forall i, j :: 0 <= i < j < |ds| ==> ds[i].item != ds[j].item
  }

  function RunSet(ds: seq<Dispatch>): set<RunId> {
    set d | d in ds :: RunOf(d)
  }

  /** The log has no new starts but of the listed dispatches, which open and activate only their own items. */
  ghost predicate AddsOnly(c: Controller, t: Controller, ds: seq<Dispatch>) {
    && EndsFit(t.log) && t.active.Keys <= c.active.Keys + Sim.ItemsOf(ds)
    && Project(t.log).active.Keys <= Project(c.log).active.Keys + Sim.ItemsOf(ds)
    && forall run :: run !in RunSet(ds) ==> (HasKey(t.log, AttemptKey(run)) <==> HasKey(c.log, AttemptKey(run)))
  }

  lemma LastIsNew(ds: seq<Dispatch>)
    requires ds != [] && OneEach(ds)
    ensures var init, d := ds[..|ds| - 1], ds[|ds| - 1];
      && d.item !in Sim.ItemsOf(init) && RunOf(d) !in RunSet(init) && OneEach(init)
      && Sim.ItemsOf(ds) == Sim.ItemsOf(init) + {d.item} && RunSet(ds) == RunSet(init) + {RunOf(d)}
  {
    var init, d := ds[..|ds| - 1], ds[|ds| - 1];
    assert ds == init + [d];
    forall e | e in init ensures e.item != d.item {
      var i :| 0 <= i < |init| && init[i] == e;
      assert ds[i] == e;
    }
  }

  lemma AddsOneMore(c: Controller, t: Controller, ds: seq<Dispatch>, workspace: Workspace)
    requires ds != [] && OneEach(ds) && AddsOnly(c, t, ds[..|ds| - 1])
    requires ds[|ds| - 1].item !in Project(c.log).active && ds[|ds| - 1].item !in c.active
    ensures var u, d := StartAttempt(t, ds[|ds| - 1], workspace), ds[|ds| - 1];
      && AddsOnly(c, u, ds)
      && (ActiveAreOpen(u) <==> ActiveAreOpen(t) && !HasKey(c.log, AttemptKey(RunOf(d))))
      && (HasKey(t.log, AttemptKey(RunOf(d))) <==> HasKey(c.log, AttemptKey(RunOf(d))))
  {
    hide HasKey, EndsFit, ActiveAreOpen, Project, StartAttempt, RunOf;
    LastIsNew(ds);
    StartFollows(t, ds[|ds| - 1], workspace);
  }

  /** Starting different items leaves every active run open exactly when no started run was in the log. */
  lemma {:induction false} StartEachFollows(c: Controller, ds: seq<Dispatch>, launcher: Launcher)
    requires EndsFit(c.log) && ActiveAreOpen(c) && OneEach(ds)
    requires forall i :: 0 <= i < |ds| ==> ds[i].item !in Project(c.log).active
    ensures var r := StartEach(c, ds, launcher);
      && AddsOnly(c, r.ctrl, ds)
      && (ActiveAreOpen(r.ctrl) <==> AllFresh(c.log, ds))
      && (r.fault.Some? ==> !AllFresh(c.log, ds))
    decreases ds
  {
    hide HasKey, EndsFit, ActiveAreOpen, Project, StartAttempt, Answer, RunOf;
    if ds != [] {
      var init, d := ds[..|ds| - 1], ds[|ds| - 1];
      assert forall i :: 0 <= i < |init| ==> init[i] == ds[i];
      LastIsNew(ds);
      StartEachFollows(c, init, launcher);
      var r := StartEach(c, init, launcher);
      AllFreshOneMore(c.log, ds);
      if r.fault.None? {
        NotYetActive(c, d.item);
        AddsOneMore(c, r.ctrl, ds, launcher.create(d.item, d.attempt));
        ClashMeansKnown(r.ctrl.log, d, launcher);
      } else {
        AddsAtMost(c, r.ctrl, ds);
      }
    }
  }

  lemma AllFreshOneMore(rows: seq<Row<Key, Event>>, ds: seq<Dispatch>)
    requires ds != []
    ensures AllFresh(rows, ds) <==>
      AllFresh(rows, ds[..|ds| - 1]) && !HasKey(rows, AttemptKey(RunOf(ds[|ds| - 1])))
  {
    hide HasKey, RunOf;
    assert forall i :: 0 <= i < |ds| - 1 ==> ds[..|ds| - 1][i] == ds[i];
  }

  lemma AddsAtMost(c: Controller, t: Controller, ds: seq<Dispatch>)
    requires ds != [] && OneEach(ds) && AddsOnly(c, t, ds[..|ds| - 1])
    ensures AddsOnly(c, t, ds)
  {
    hide HasKey, EndsFit, Project, RunOf;
    LastIsNew(ds);
  }

  lemma NotYetActive(c: Controller, item: ItemId)
    requires ActiveAreOpen(c) && item !in Project(c.log).active
    ensures item !in c.active
  {
    hide Project;
  }

  lemma ClashMeansKnown(rows: seq<Row<Key, Event>>, d: Dispatch, launcher: Launcher)
    ensures Clashes(rows, StartOf(d, launcher)) ==> HasKey(rows, AttemptKey(RunOf(d)))
  {
  }

  /** No ready item would start under a run id the log has. */
  ghost predicate FreshFrontier(c: Controller) {
    forall item :: item in S.Frontier(c.sim.sched) ==> !HasKey(c.log, AttemptKey(RunNow(c.sim, item)))
  }

  lemma FrontierIsNotHeld(sim: Sim.Sim)
    ensures var items := S.Frontier(sim.sched);
      && (forall item :: item in items ==> item !in Held(sim.sched))
      && Held(Sim.AfterDispatch(sim).sched) == Held(sim.sched) + Elems(items)
      && Sim.ItemsOf(Sim.Preview(sim)) == Elems(items) && OneEach(Sim.Preview(sim))
      && forall i :: 0 <= i < |Sim.Preview(sim)| ==> Sim.Preview(sim)[i].item == items[i]
  {
    L.FrontierItems(sim.sched);
    Sim.AssignedItems(sim, S.Frontier(sim.sched));
  }

  lemma FreshIsAllFresh(c: Controller)
    ensures FreshFrontier(c) <==> AllFresh(c.log, Sim.Preview(c.sim))
  {
    hide S.Frontier, HasKey;
    var items, ds := S.Frontier(c.sim.sched), Sim.Preview(c.sim);
    FrontierRuns(c.sim);
    if AllFresh(c.log, ds) {
      forall item | item in items ensures !HasKey(c.log, AttemptKey(RunNow(c.sim, item))) {
        assert ds[IndexOf(items, item)] == Sim.Assigned(c.sim, item);
      }
    }
    if FreshFrontier(c) {
      forall i | 0 <= i < |ds| ensures !HasKey(c.log, AttemptKey(RunOf(ds[i]))) {
        assert items[i] in items;
      }
    }
  }

  /** Starting the frontier stays in step exactly when the log has none of its run ids. */
  lemma FrontierInStep(c: Controller, launcher: Launcher)
    requires InStep(c)
    ensures InStep(StartFrontier(c, launcher).ctrl) <==> FreshFrontier(c)
  {
    hide S.Frontier, StartEach, Sim.AfterDispatch, HasKey, EndsFit, ActiveAreOpen, Project, Answer, Inserted, FreshFrontier, AllFresh;
    var d, ds := c.(sim := Sim.AfterDispatch(c.sim)), Sim.Preview(c.sim);
    FrontierIsNotHeld(c.sim);
    FreshIsAllFresh(c);
    SameActiveAreOpen(c, d);
    forall i | 0 <= i < |ds| ensures ds[i].item !in Project(c.log).active {
      assert S.Frontier(c.sim.sched)[i] in S.Frontier(c.sim.sched);
    }
    StartEachFollows(d, ds, launcher);
    StartEachKeepsSim(d, ds, launcher);
    var r := StartEach(d, ds, launcher).ctrl;
    var e := CurrentWaveEvent(r);
    if e.Some? {
      NeutralRow(r.log, e.value);
      SameActiveOpen(r, Emit(r, e.value));
    }
  }

  lemma SameActiveAreOpen(c: Controller, t: Controller)
    requires t.active == c.active && t.log == c.log
    ensures ActiveAreOpen(t) <==> ActiveAreOpen(c)
  {
  }

  lemma SameActiveOpen(c: Controller, t: Controller)
    requires t.active == c.active && Project(t.log).active == Project(c.log).active
    ensures ActiveAreOpen(t) <==> ActiveAreOpen(c)
  {
    hide Project;
  }

  lemma {:induction false} PersistStaysInStep(c: Controller, prompts: seq<Prompt>)
    requires InStep(c)
    ensures var t := PersistPrompts(c, prompts).ctrl; InStep(t) && (FreshFrontier(t) <==> FreshFrontier(c))
    decreases prompts
  {
    hide InStep, Inserted, HasKey, S.Frontier;
    if prompts != [] {
      var p := prompts[0];
      var t := if PromptFor(c.prompts, p.item).Some? then c else c.(prompts := c.prompts + [p]);
      PromptStaysInStep(c, t, p);
      PersistStaysInStep(Emit(t, PromptSnapshotRecorded(p)), prompts[1..]);
    }
  }

  lemma PromptStaysInStep(c: Controller, t: Controller, p: Prompt)
    requires InStep(c) && t == c.(prompts := t.prompts)
    ensures var u := Emit(t, PromptSnapshotRecorded(p)); InStep(u) && (FreshFrontier(u) <==> FreshFrontier(c))
  {
    hide EndsFit, Project, HasKey, S.Frontier, Inserted;
    RestStaysInStep(c, t);
    EmitStaysInStep(t, PromptSnapshotRecorded(p));
    NeutralRow(c.log, PromptSnapshotRecorded(p));
  }

  /** A dispatch stays in step exactly when the log has none of the run ids it starts under. */
  lemma DispatchInStep(c: Controller, prompts: seq<Prompt>, launcher: Launcher)
    requires InStep(c)
    ensures InStep(DispatchReady(c, prompts, launcher).ctrl) <==> FreshFrontier(c) || !CanDispatch(c, prompts, launcher)
  {
    hide InStep, FreshFrontier, StartFrontier, PersistPrompts, S.Frontier, HasPrompts, Admitted, Agree;
    PersistStaysInStep(c, prompts);
    PersistRaises(c, prompts);
    FrontierInStep(PersistPrompts(c, prompts).ctrl, launcher);
  }

  // Every call.

  /** Where a call dispatches, if it comes to that: the controller then, and the prompts passed on. */
  datatype Dispatching = Nowhere | From(ctrl: Controller, prompts: seq<Prompt>)

  function RefillFrom(c: Controller, nextBase: Option<Revision>): Dispatching {
    if nextBase.None? || !Sim.CanRefresh(c.sim) || RefreshTargetBase(c, nextBase.value).fault.Some? then Nowhere
    else
      var t := RefreshTargetBase(c, nextBase.value).ctrl;
      if HasPrompts(t.prompts, S.Frontier(t.sim.sched)) then From(t, t.prompts) else Nowhere
  }

  function DispatchesFrom(c: Controller, a: Action): (d: Dispatching)
    ensures d.From? ==> a.Dispatch? || a.Retrying? || a.Reconciling?
  {
    match a
    case Dispatch(prompts, launcher) => From(c, prompts)
    case Retrying(item, prompt, destroyed, launcher) =>
      if item !in c.active || (item in c.attempts && c.attempts[item].state.ReleasedAttempt?) || destroyed.Some?
         || Sim.AfterRetry(c.sim, item).Err? then Nowhere
      else
        var next := if prompt.Some? then prompt else PromptFor(c.prompts, item);
        if next.None? then Nowhere else From(Superseded(c, item), [Prompt(item, next.value)])
    case Reconciling(item, outcome, nextBase, launcher) =>
      if item !in c.active || !outcome.Observed? || Judge(c, item, outcome.observation).Err? then Nowhere
      else
        var (t, decision) := Judge(c, item, outcome.observation).value;
        if decision.status.Approved? then RefillFrom(t, nextBase) else Nowhere
    case _ => Nowhere
  }

  /** No run id the log has is started again. */
  ghost predicate StartsFresh(c: Controller, a: Action) {
    var d := DispatchesFrom(c, a);
    d.From? && CanDispatch(d.ctrl, d.prompts, a.launcher) ==> FreshFrontier(d.ctrl)
  }

  lemma RefreshInStep(c: Controller, revision: Revision)
    requires InStep(c)
    ensures InStep(RefreshTargetBase(c, revision).ctrl)
  {
    hide EndsFit, Project, Inserted, ActiveAreOpen;
    var r := Sim.AfterRefresh(c.sim, revision);
    if r.Ok? {
      RefreshHolds(c.sim, revision);
      RestStaysInStep(c, c.(sim := r.value));
      EmitStaysInStep(c.(sim := r.value), BaseRevisionRefreshed(revision));
    }
  }

  lemma RefreshHolds(s: Sim.Sim, revision: Revision)
    ensures Sim.AfterRefresh(s, revision).Ok? ==> Held(Sim.AfterRefresh(s, revision).value.sched) == Held(s.sched)
  {
  }

  lemma NextFrontierInStep(c: Controller, launcher: Launcher)
    requires InStep(c)
    ensures InStep(DispatchNextFrontier(c, launcher).ctrl) <==>
      (HasPrompts(c.prompts, S.Frontier(c.sim.sched)) && CanDispatch(c, c.prompts, launcher) ==> FreshFrontier(c))
  {
    hide InStep, CanDispatch, DispatchReady, HasPrompts, S.Frontier;
    DispatchInStep(c, c.prompts, launcher);
    EmitStaysInStep(c, FrontierWaitingForPrompts(S.Frontier(c.sim.sched)));
    if S.Frontier(c.sim.sched) == [] {
      assert FreshFrontier(c);
    }
  }

  lemma RefillInStep(c: Controller, nextBase: Option<Revision>, launcher: Launcher)
    requires InStep(c)
    ensures var d := RefillFrom(c, nextBase);
      InStep(Refill(c, nextBase, launcher).ctrl) <==> (d.From? && CanDispatch(d.ctrl, d.prompts, launcher) ==> FreshFrontier(d.ctrl))
  {
    hide InStep, CanDispatch, DispatchNextFrontier, RefreshTargetBase, HasPrompts, S.Frontier, FreshFrontier;
    if nextBase.Some? && Sim.CanRefresh(c.sim) {
      RefreshInStep(c, nextBase.value);
      NextFrontierInStep(RefreshTargetBase(c, nextBase.value).ctrl, launcher);
    }
  }

  lemma MarkInStep(c: Controller, item: ItemId, code: FailureCode)
    requires InStep(c)
    ensures InStep(MarkRuntimeFailure(c, item, code))
  {
    hide EndsFit, Project, Inserted, ActiveAreOpen, Held;
    AttentionInStep(c, item);
    var t := NoteAttention(c, item);
    var u := SetAttempt(t, item, AttentionNeeded);
    RestStaysInStep(t, u);
    var v := if item in u.attempts && item in u.active
             then Emit(u, WorkAttemptStateChanged(u.active[item].run, AttentionNeeded)) else u;
    if item in u.attempts && item in u.active {
      EmitStaysInStep(u, WorkAttemptStateChanged(u.active[item].run, AttentionNeeded));
    }
    EmitStaysInStep(v, RuntimeFailed(item, code));
  }

  lemma AttentionInStep(c: Controller, item: ItemId)
    requires InStep(c)
    ensures InStep(NoteAttention(c, item)) && NoteAttention(c, item).active == c.active
  {
    hide EndsFit, Project, Inserted, ActiveAreOpen, Held;
    EmitStaysInStep(c, TicketStateChanged(item, NeedsAttention));
    if item !in c.attentionPublished {
      RestStaysInStep(SetTicket(c, item, NeedsAttention), NoteAttention(c, item));
    }
  }

  lemma SettleInStep(c: Controller, item: ItemId)
    requires InStep(c) && item in c.active
    ensures InStep(Settle(c, item))
  {
    hide EndsFit, Project, Inserted, ActiveAreOpen, Held;
    if item in c.donePublished {
      RestStaysInStep(c, Settle(c, item));
    } else {
      EmitStaysInStep(c, TicketStateChanged(item, Done));
      var u := SetTicket(c, item, Done);
      var v := SetAttempt(u.(donePublished := c.donePublished + {item}), item, ReleasedAttempt);
      RestStaysInStep(u, v);
      EndStaysInStep(v, item, ReleasedAttempt);
    }
  }

  lemma RaiseInStep(c: Controller, item: ItemId)
    requires InStep(c) && item in c.active
    ensures InStep(RaiseAttention(c, item))
  {
    hide EndsFit, Project, Inserted, ActiveAreOpen, Held;
    AttentionInStep(c, item);
    var t := SetAttempt(NoteAttention(c, item), item, AttentionNeeded);
    RestStaysInStep(NoteAttention(c, item), t);
    EmitStaysInStep(t, WorkAttemptStateChanged(c.active[item].run, AttentionNeeded));
  }

  lemma ObserveHolds(s: Sim.Sim, item: ItemId, o: DeliveryObservation)
    ensures Sim.AfterObserve(s, item, o).Ok? ==> Held(Sim.AfterObserve(s, item, o).value.sched) == Held(s.sched)
    ensures Sim.AfterEvaluate(s, item).Ok? ==> Held(s.sched) <= Held(Sim.AfterEvaluate(s, item).value.0.sched)
  {
  }

  lemma JudgeInStep(c: Controller, item: ItemId, o: DeliveryObservation)
    requires InStep(c) && item in c.active && Judge(c, item, o).Ok?
    ensures InStep(Judge(c, item, o).value.0)
  {
    hide EndsFit, Project, Inserted, ActiveAreOpen, Held, Sim.AfterObserve, Sim.AfterEvaluate, Settle, RaiseAttention;
    var observed := Sim.AfterObserve(c.sim, item, o).value;
    ObserveHolds(c.sim, item, o);
    ObserveHolds(observed, item, o);
    var c1 := c.(sim := observed);
    RestStaysInStep(c, c1);
    EmitStaysInStep(c1, TicketStateChanged(item, InReview));
    var t := PublishReview(c1, item, o);
    if t != c1 {
      RestStaysInStep(SetTicket(c1, item, InReview), t);
    }
    var (sim, decision) := Sim.AfterEvaluate(t.sim, item).value;
    var c2 := t.(sim := sim);
    RestStaysInStep(t, c2);
    if c2.sim.sched.currentWave.Some? {
      EmitStaysInStep(c2, ExecutionWaveStateChanged(c2.sim.sched.currentWave.value.number, S.Released));
    }
    var c3 := RecordWaveState(c2);
    EmitStaysInStep(c3, GateEvent(c.active[item].run, decision, o));
    var u := Emit(c3, GateEvent(c.active[item].run, decision, o));
    SettleInStep(u, item);
    RaiseInStep(u, item);
  }

  lemma ReconcileInStep(c: Controller, a: Action)
    requires InStep(c) && a.Reconciling?
    ensures InStep(Act(c, a)) <==> StartsFresh(c, a)
  {
    hide InStep, Judge, Refill, RefillFrom, MarkRuntimeFailure, CanDispatch, FreshFrontier;
    var Reconciling(item, outcome, nextBase, launcher) := a;
    if item in c.active {
      match outcome
      case AuthorityBroken(error) =>
        var code := Operational("authority_violation");
        MarkInStep(c, item, code);
        EmitStaysInStep(MarkRuntimeFailure(c, item, code), AuthorityViolated(item, error));
      case WorkspaceLost(code) => LostInStep(c, item, code);
      case ObservationFailed(code) => EmitStaysInStep(c, ReconciliationFailed(item, code));
      case Observed(o) =>
        if Judge(c, item, o).Ok? {
          JudgeInStep(c, item, o);
          RefillInStep(Judge(c, item, o).value.0, nextBase, launcher);
        }
    }
  }

  lemma LostInStep(c: Controller, item: ItemId, code: FailureCode)
    requires InStep(c)
    ensures var t := SetTicket(c, item, NeedsAttention).(attentionPublished := c.attentionPublished + {item});
      InStep(Emit(t, ReconciliationFailed(item, code)))
  {
    hide EndsFit, Project, Inserted, ActiveAreOpen, Held;
    var u := SetTicket(c, item, NeedsAttention);
    var t := u.(attentionPublished := c.attentionPublished + {item});
    EmitStaysInStep(c, TicketStateChanged(item, NeedsAttention));
    RestStaysInStep(u, t);
    EmitStaysInStep(t, ReconciliationFailed(item, code));
  }

  lemma SupersedeInStep(c: Controller, item: ItemId)
    requires InStep(c) && item in c.active
    ensures InStep(Supersede(c, item))
    ensures Sim.AfterRetry(c.sim, item).Ok? ==> InStep(Superseded(c, item))
  {
    hide EndsFit, Project, Inserted, ActiveAreOpen, Sim.AfterRetry, Held;
    var u := SetAttempt(c, item, SupersededAttempt);
    RestStaysInStep(c, u);
    EndStaysInStep(u, item, SupersededAttempt);
    var v := Emit(u, WorkAttemptStateChanged(c.active[item].run, SupersededAttempt)).(active := c.active - {item});
    var t := Supersede(c, item);
    RestStaysInStep(v, t);
    if Sim.AfterRetry(c.sim, item).Ok? {
      RetryLetsGo(c.sim, item);
      FewerHeld(t, Superseded(c, item), item);
    }
  }

  lemma RetryLetsGo(s: Sim.Sim, item: ItemId)
    ensures Sim.AfterRetry(s, item).Ok? ==> Held(s.sched) - {item} <= Held(Sim.AfterRetry(s, item).value.sched)
  {
  }

  lemma FewerHeld(c: Controller, t: Controller, item: ItemId)
    requires InStep(c) && item !in Project(c.log).active && t == c.(sim := t.sim) && Held(c.sim.sched) - {item} <= Held(t.sim.sched)
    ensures InStep(t)
  {
    hide EndsFit, Project;
  }

  lemma RetryInStep(c: Controller, a: Action)
    requires InStep(c) && a.Retrying?
    ensures InStep(Act(c, a)) <==> StartsFresh(c, a)
  {
    hide InStep, DispatchReady, CanDispatch, FreshFrontier, Sim.AfterRetry, Supersede;
    var Retrying(item, prompt, destroyed, launcher) := a;
    if item in c.active {
      SupersedeInStep(c, item);
      SupersedeKeepsSim(c, item);
      if destroyed.Some? {
        EmitStaysInStep(c, RetryFailed(c.active[item].run, destroyed.value));
      }
      var next := if prompt.Some? then prompt else PromptFor(c.prompts, item);
      if Sim.AfterRetry(c.sim, item).Ok? && next.Some? {
        DispatchInStep(Superseded(c, item), [Prompt(item, next.value)], launcher);
      }
    }
  }

  lemma CancelHolds(s: Sim.Sim, item: ItemId, reason: string)
    ensures Sim.AfterCancel(s, item, reason).Ok? ==> Held(s.sched) <= Held(Sim.AfterCancel(s, item, reason).value.sched)
  {
  }

  lemma CancelInStep(c: Controller, item: ItemId, reason: string)
    requires InStep(c)
    ensures InStep(CancelFromWave(c, item, reason).ctrl)
  {
    hide EndsFit, Project, Inserted, ActiveAreOpen, Sim.AfterCancel, Held;
    var r := Sim.AfterCancel(c.sim, item, reason);
    if item in c.active && r.Ok? {
      CancelHolds(c.sim, item, reason);
      var t := SetAttempt(c.(sim := r.value, active := c.active - {item}), item, CancelledAttempt);
      RestStaysInStep(c, t);
      EmitStaysInStep(t, TicketStateChanged(item, CancelledTicket));
      EmitStaysInStep(SetTicket(t, item, CancelledTicket), WaveItemCancelled(item, reason));
    }
  }

  /** A call of a controller in step, live or rebuilt, stays in step exactly when it starts no run the log has. */
  lemma ActInStep(c: Controller, a: Action)
    requires InStep(c)
    ensures InStep(Act(c, a)) <==> StartsFresh(c, a)
  {
    hide InStep, DispatchReady, Reconcile, Retry, CancelFromWave, MarkRuntimeFailure, RefreshTargetBase, CanDispatch, FreshFrontier,
      RefillFrom, Judge;
    match a
    case Dispatch(prompts, launcher) => DispatchInStep(c, prompts, launcher);
    case Reconciling(_, _, _, _) => ReconcileInStep(c, a);
    case Refreshing(revision) => RefreshInStep(c, revision);
    case Retrying(_, _, _, _) => RetryInStep(c, a);
    case Cancelling(item, reason) => CancelInStep(c, item, reason);
    case RuntimeFailure(item, code) => MarkInStep(c, item, code);
  }

  ghost predicate AllFreshStarts(t: Trace, actions: seq<Action>)
    decreases actions
  {
    actions == [] || (StartsFresh(t.ctrl, actions[0]) && AllFreshStarts(Advance(t, actions[0]), actions[1..]))
  }

  /** The controller is in step with its log after each call of the run. */
  ghost predicate AlwaysInStep(t: Trace, actions: seq<Action>)
    decreases actions
  {
    InStep(t.ctrl) && (actions == [] || AlwaysInStep(Advance(t, actions[0]), actions[1..]))
  }

  lemma {:induction false} PlayInStep(t: Trace, actions: seq<Action>)
    requires InStep(t.ctrl)
    ensures AlwaysInStep(t, actions) <==> AllFreshStarts(t, actions)
    decreases actions
  {
    hide InStep, Act, StartsFresh, RefreshedTo;
    if actions != [] {
      ActInStep(t.ctrl, actions[0]);
      if StartsFresh(t.ctrl, actions[0]) {
        PlayInStep(Advance(t, actions[0]), actions[1..]);
      } else {
        assert !InStep(Advance(t, actions[0]).ctrl);
      }
    }
  }

  // Where runs begin: the controller a restart builds.

  lemma JournalEnds(rows: seq<Row<Key, Event>>, a: Account, run: RunId, state: AttemptState)
    requires Journal(rows, a) && EndsAttempt(state) && HasKey(rows, EndKey(run, state))
    ensures run in Project(rows).attemptRecords && !IsOpen(rows, run)
  {
    hide PromptsMatch, AllStarted, StartsDiffer, Project;
    var i :| 0 <= i < |rows| && rows[i].key == EndKey(run, state);
    assert RowFits(a, Project(rows).attemptRecords.Keys, rows[i]);
  }

  lemma JournalOpens(rows: seq<Row<Key, Event>>, a: Account, item: ItemId)
    requires Journal(rows, a) && item in Project(rows).active
    ensures item in a.open && Project(rows).active[item].run == a.open[item] && a.open[item].item == item
    ensures a.open[item] in Project(rows).attemptRecords
  {
    hide PromptsMatch, AllStarted, StartsDiffer, RowsFit, Project;
  }

  lemma JournalFits(rows: seq<Row<Key, Event>>, a: Account)
    requires Journal(rows, a)
    ensures EndsFit(rows)
  {
    hide Journal, Project, HasKey, IsOpen;
    forall run ensures HasKey(rows, AttemptKey(run)) <==> run in Project(rows).attemptRecords {
      StartClashes(rows, a, run, Workspace("", "", "", "", ""));
    }
    forall run, state | EndsAttempt(state) && HasKey(rows, EndKey(run, state))
      ensures run in Project(rows).attemptRecords && !IsOpen(rows, run)
    {
      JournalEnds(rows, a, run, state);
    }
    forall item | item in Project(rows).active
      ensures Project(rows).active[item].run.item == item && Project(rows).active[item].run in Project(rows).attemptRecords
    {
      JournalOpens(rows, a, item);
    }
  }

  lemma LiveLogFits(c: Controller, completed: set<ItemId>, revisions: seq<Revision>)
    requires Live(c, completed, revisions)
    ensures EndsFit(c.log)
  {
    hide EndsFit;
    JournalFits(c.log, View(c, completed, revisions));
  }

  lemma {:induction false} RestoredIsHeld(sim: Sim.Sim, p: Projection, order: seq<ItemId>)
    requires Elems(order) <= p.active.Keys
    ensures Elems(order) <= Held(RestoreActive(sim, p, order).sched)
  {
    if order != [] {
      var init, item := order[..|order| - 1], order[|order| - 1];
      assert order == init + [item];
      RestoredIsHeld(sim, p, init);
      assert Elems(order) == Elems(init) + {item};
    }
  }

  lemma RebuiltParts(sim: Sim.Sim, log: seq<Row<Key, Event>>, order: seq<ItemId>)
    requires Elems(order) == Project(log).active.Keys && Rehydrate(Reopened(sim, log), Project(log), order).Ok?
    ensures var r, p := Rehydrate(Reopened(sim, log), Project(log), order).value, Project(log);
      && r.log == log && r.active.Keys == p.active.Keys && p.active.Keys <= Held(r.sim.sched)
      && forall item :: item in p.active ==>
           r.active[item].run == p.active[item].run && r.active[item].workspace == p.active[item].workspace
  {
    hide Project, RestoreWaves, RestoreActive, RestorePrompts, FinishedItems, Held;
    var p := Project(log);
    var based := if p.base.None? then sim else Sim.AfterRefresh(sim, p.base.value).value;
    RestoredIsHeld(RestoreWaves(Sim.AfterRestoreReleased(based, FinishedItems(p)), p.waves), p, order);
  }

  /** A restart makes active exactly what the log has open, under either policy, unless it is refused. */
  lemma RebuiltIsInStep(sim: Sim.Sim, log: seq<Row<Key, Event>>, order: seq<ItemId>)
    requires EndsFit(log) && Elems(order) == Project(log).active.Keys
    ensures var r := Rehydrate(Reopened(sim, log), Project(log), order); r.Ok? ==> InStep(r.value)
  {
    hide Rehydrate, Project, EndsFit, Held;
    if Rehydrate(Reopened(sim, log), Project(log), order).Ok? {
      RebuiltParts(sim, log, order);
      var r := Rehydrate(Reopened(sim, log), Project(log), order).value;
      forall item | item in r.active ensures IsRecorded(r.log, item, r.active[item]) {
        OpenUnderItem(log, item);
      }
    }
  }

  lemma OpenUnderItem(rows: seq<Row<Key, Event>>, item: ItemId)
    requires EndsFit(rows) && item in Project(rows).active
    ensures Project(rows).active[item].run.item == item && IsOpen(rows, Project(rows).active[item].run)
  {
    hide Project, HasKey;
  }

  /**
   * So every run that goes on from a restart stays in step with its log exactly as long as no run is started again:
   * the restart of a live controller, or of one that went on from a restart and was in step.
   */
  lemma RebuiltRunsStayInStep(sim: Sim.Sim, c: Controller, completed: set<ItemId>, revisions: seq<Revision>,
                              order: seq<ItemId>, actions: seq<Action>)
    requires Live(c, completed, revisions) || InStep(c)
    requires Elems(order) == Project(c.log).active.Keys && Rehydrate(Reopened(sim, c.log), Project(c.log), order).Ok?
    ensures var t := Trace(Rehydrate(Reopened(sim, c.log), Project(c.log), order).value, []);
      InStep(t.ctrl) && (AlwaysInStep(t, actions) <==> AllFreshStarts(t, actions))
  {
    hide Live, Rehydrate, Project, AlwaysInStep, AllFreshStarts, EndsFit;
    if Live(c, completed, revisions) {
      LiveLogFits(c, completed, revisions);
    }
    RebuiltIsInStep(sim, c.log, order);
    PlayInStep(Trace(Rehydrate(Reopened(sim, c.log), Project(c.log), order).value, []), actions);
  }
}
