/** What a restart forgets: which names and run ids the next attempts reuse, and exactly when starting them raises. */
module RestartReuse {
  import opened Prelude
  import opened EventLogs
  import opened Gate
  import opened Identity
  import opened Projections
  import opened Controllers
  import opened Journals
  import opened ControllerLaws
  import opened AssignmentLaws
  import opened Restarts
  import G = DependencyGraphs
  import Sim = Simulation
  import SL = SimulationLaws
  import S = Scheduling
  import L = SchedulingLaws

  // What the log says about starts.

  /** The log already has an attempt in this worktree or on this branch. */
  ghost predicate PlaceWasIssued(rows: seq<Row<Key, Event>>, root: string, d: Dispatch) {
    exists i :: 0 <= i < |rows| && rows[i].event.WorkAttemptStarted? && SharesPlace(root, rows[i].event.run, d)
  }

  predicate SharesPlace(root: string, run: RunId, d: Dispatch) {
    WorktreePath(root, run.item, run.attempt) == d.worktreePath || BranchRef(run.item, run.attempt) == d.branchRef
  }

  /** The recorded start of a run and another one under its id. */
  predicate IsRecordedOtherwise(p: Projection, run: RunId, workspace: Workspace) {
    run in p.attemptRecords && p.attemptRecords[run] != workspace
  }

  lemma {:induction false} StartRowIsRecorded(rows: seq<Row<Key, Event>>, i: nat)
    requires i < |rows| && rows[i].event.WorkAttemptStarted? && StartsDiffer(rows)
    ensures var run := rows[i].event.run;
      run in Project(rows).attemptRecords && Project(rows).attemptRecords[run] == rows[i].event.workspace
  {
    var init, last := rows[..|rows| - 1], rows[|rows| - 1];
    assert forall k :: 0 <= k < |init| ==> init[k] == rows[k];
    if i < |init| {
      StartRowIsRecorded(init, i);
      if last.event.WorkAttemptStarted? {
        assert !StartsAlike(rows[i], rows[|init|].event.run);
      }
    }
  }

  /** A start clashes exactly with a different recorded start of the same run. */
  lemma StartClashes(rows: seq<Row<Key, Event>>, a: Account, run: RunId, workspace: Workspace)
    requires Journal(rows, a)
    ensures HasKey(rows, AttemptKey(run)) <==> run in Project(rows).attemptRecords
    ensures Clashes(rows, WorkAttemptStarted(run, workspace)) <==> IsRecordedOtherwise(Project(rows), run, workspace)
  {
    hide Reproduces, PromptsMatch, AllStarted, Project;
    StartedRunsAreLogged(rows, run);
    if HasKey(rows, AttemptKey(run)) {
      var event := Lookup(rows, AttemptKey(run));
      var i :| 0 <= i < |rows| && rows[i] == Row(AttemptKey(run), event);
      StartRowKeys(rows, a, i);
      StartRowIsRecorded(rows, i);
    }
    forall i | 0 <= i < |rows| && rows[i].event.WorkAttemptStarted? && rows[i].event.run == run
      ensures HasKey(rows, AttemptKey(run))
    {
      StartRowKeys(rows, a, i);
    }
  }

  lemma StartRowKeys(rows: seq<Row<Key, Event>>, a: Account, i: nat)
    requires Journal(rows, a) && i < |rows|
    ensures rows[i].key == KeyOf(rows[i].event)
  {
    assert RowFits(a, Project(rows).attemptRecords.Keys, rows[i]);
  }

  /** An attempt was started exactly when it was issued. */
  lemma StartedIsIssued(rows: seq<Row<Key, Event>>, a: Account, item: ItemId, n: nat)
    requires Journal(rows, a) && n >= 1
    ensures WasStarted(rows, item, n) <==> n <= Issued(a, item)
  {
    if WasStarted(rows, item, n) {
      var i :| 0 <= i < |rows| && IsStart(rows[i], item, n);
      assert RowFits(a, Project(rows).attemptRecords.Keys, rows[i]);
    }
  }

  lemma StartedItemsAreInGraph(c: Controller, completed: set<ItemId>, revisions: seq<Revision>, i: nat)
    requires Live(c, completed, revisions) && i < |c.log| && c.log[i].event.WorkAttemptStarted?
    ensures c.log[i].event.run.item in c.sim.sched.graph.blockers && c.log[i].event.run.attempt >= 1
  {
    assert RowFits(View(c, completed, revisions), Project(c.log).attemptRecords.Keys, c.log[i]);
  }

  /** Among validated items a place was issued exactly when an attempt of the same item and number was started. */
  lemma PlacesFollowNumbers(c: Controller, completed: set<ItemId>, revisions: seq<Revision>, item: ItemId, n: nat,
                            root: string, d: Dispatch)
    requires Live(c, completed, revisions) && n >= 1 && IsItemId(item)
    requires forall id :: id in c.sim.sched.graph.blockers ==> IsItemId(id)
    requires d.worktreePath == WorktreePath(root, item, n) && d.branchRef == BranchRef(item, n)
    ensures PlaceWasIssued(c.log, root, d) <==> n <= Issued(View(c, completed, revisions), item)
  {
    hide Live, IsItemId, WorktreePath, BranchRef, View, Issued;
    assert Journal(c.log, View(c, completed, revisions)) by {
      LiveJournal(c, completed, revisions);
    }
    StartedIsIssued(c.log, View(c, completed, revisions), item, n);
    ItemIdAlphabet(item);
    if PlaceWasIssued(c.log, root, d) {
      var i :| 0 <= i < |c.log| && c.log[i].event.WorkAttemptStarted? && SharesPlace(root, c.log[i].event.run, d);
      var run := c.log[i].event.run;
      StartedItemsAreInGraph(c, completed, revisions, i);
      ItemIdAlphabet(run.item);
      PlacesAreDistinct(root, run.item, run.attempt, item, n);
      assert IsStart(c.log[i], item, n);
    }
    if WasStarted(c.log, item, n) {
      var i :| 0 <= i < |c.log| && IsStart(c.log[i], item, n);
      assert SharesPlace(root, c.log[i].event.run, d);
    }
  }

  lemma LiveJournal(c: Controller, completed: set<ItemId>, revisions: seq<Revision>)
    requires Live(c, completed, revisions)
    ensures Journal(c.log, View(c, completed, revisions))
  {
  }

  // The controller a restart builds, and its next attempts.

  /** A simulator built anew with the arguments the live one was built with. */
  ghost predicate IsRestartOf(sim: Sim.Sim, c: Controller, completed: set<ItemId>) {
    && sim.sched == S.NewSchedule(c.sim.sched.graph, c.sim.sched.policy, sim.sched.base, completed)
    && sim.attempts == map[] && sim.repository == c.sim.repository && sim.root == c.sim.root
  }

  /** Everything that decides what the rebuilt controller starts next. */
  ghost predicate IsRebuilt(r: Controller, c: Controller, base: Revision) {
    && r.log == c.log && r.prompts == c.prompts
    && r.sim.attempts == map[] && r.sim.root == c.sim.root
    && r.sim.sched.base == base && r.sim.sched.policy.ContinuousFrontier?
    && r.sim.sched.graph == c.sim.sched.graph && r.sim.sched.released == c.sim.sched.released
    && S.Frontier(r.sim.sched) == S.Frontier(c.sim.sched)
    && c.active.Keys <= r.active.Keys == r.sim.sched.dispatched
    && (forall item :: item in c.active ==>
          && r.active[item].run == c.active[item].run
          && item in r.attempts && !r.attempts[item].state.ReleasedAttempt?)
    && FollowsWaves(r.sim.sched, c.sim.sched)
  }

  /** The last wave announced is the last of the log, and numbering goes on after it. */
  ghost predicate FollowsWaves(r: S.Schedule, s: S.Schedule) {
    && r.waveSequence == |s.waves|
    && (r.currentWave.Some? <==> s.waves != [])
    && (s.waves != [] ==>
          var last := s.waves[|s.waves| - 1]; SameWave(r.currentWave.value, last.number, last.base, last.items))
  }

  predicate Ends(row: Row<Key, Event>, run: RunId) {
    row.event.WorkAttemptStateChanged? && row.event.run == run && EndsAttempt(row.event.state)
  }

  predicate IsEnded(p: Projection, run: RunId) {
    run in p.attemptStates && EndsAttempt(p.attemptStates[run])
  }

  lemma EndsByOne(p: Projection, row: Row<Key, Event>, run: RunId)
    ensures IsEnded(Reduce(p, row), run) ==> IsEnded(p, run) || Ends(row, run)
  {
  }

  lemma {:induction false} EndedAttemptsAreLogged(rows: seq<Row<Key, Event>>, run: RunId)
    ensures IsEnded(Project(rows), run) ==> exists i :: 0 <= i < |rows| && Ends(rows[i], run)
  {
    hide Ends, Reduce;
    if rows != [] {
      EndedAttemptsAreLogged(rows[..|rows| - 1], run);
      EndsByOne(Project(rows[..|rows| - 1]), rows[|rows| - 1], run);
    }
  }

  lemma OpenAttemptIsNotEnded(c: Controller, completed: set<ItemId>, revisions: seq<Revision>, item: ItemId)
    requires Live(c, completed, revisions) && item in c.active
    ensures !RecoveredAttempt(Project(c.log), c.active[item].run).state.ReleasedAttempt?
  {
    hide Reproduces, SL.Aligned, Project;
    var run, a := c.active[item].run, View(c, completed, revisions);
    OpenItems(c, completed);
    ActiveIsLive(c, completed, item);
    EndedAttemptsAreLogged(c.log, run);
    forall i | 0 <= i < |c.log| ensures !Ends(c.log[i], run) {
      assert RowFits(a, Project(c.log).attemptRecords.Keys, c.log[i]);
    }
  }

  lemma RestartedAttempts(sim: Sim.Sim, log: seq<Row<Key, Event>>, p: Projection, order: seq<ItemId>)
    requires Elems(order) == p.active.Keys && Rehydrate(Reopened(sim, log), p, order).Ok?
    ensures Rehydrate(Reopened(sim, log), p, order).value.attempts
            == map item | item in p.active :: RecoveredAttempt(p, p.active[item].run)
  {
    hide RestoreWaves, RestoreActive, RestorePrompts, FinishedItems;
  }

  lemma WavesFollow(c: Controller, completed: set<ItemId>, revisions: seq<Revision>)
    requires Live(c, completed, revisions)
    ensures var waves, live := Project(c.log).waves, c.sim.sched.waves;
      && |waves| == |live| == c.sim.sched.waveSequence
      && (live != [] ==>
            var last := live[|live| - 1]; SameWave(waves[|waves| - 1], last.number, last.base, last.items))
  {
    hide SL.Mirrors, RowsFit;
  }

  lemma RestartFollows(sim: Sim.Sim, c: Controller, completed: set<ItemId>, revisions: seq<Revision>, order: seq<ItemId>)
    requires Live(c, completed, revisions) && c.sim.sched.policy.ContinuousFrontier? && IsRestartOf(sim, c, completed)
    requires Elems(order) == Project(c.log).active.Keys
    ensures Rehydrate(Reopened(sim, c.log), Project(c.log), order).Ok?
    ensures FollowsWaves(Rehydrate(Reopened(sim, c.log), Project(c.log), order).value.sim.sched, c.sim.sched)
  {
    hide Live, S.Frontier, Rehydrate, Project;
    ProjectionReproduces(c, completed, revisions);
    RestartedSchedule(sim, c.log, Project(c.log), order);
    WavesFollow(c, completed, revisions);
  }

  lemma RestartRebuilds(sim: Sim.Sim, c: Controller, completed: set<ItemId>, revisions: seq<Revision>, order: seq<ItemId>)
    requires Live(c, completed, revisions) && c.sim.sched.policy.ContinuousFrontier? && IsRestartOf(sim, c, completed)
    requires Elems(order) == Project(c.log).active.Keys
    ensures var r := Rehydrate(Reopened(sim, c.log), Project(c.log), order);
      r.Ok? && IsRebuilt(r.value, c, RestoredBase(sim.sched.base, revisions))
  {
    hide Linked, Journal, S.Frontier, Rehydrate, Project, FollowsWaves;
    var p := Project(c.log);
    ProjectionReproduces(c, completed, revisions);
    OpenItems(c, completed);
    RestartedSchedule(sim, c.log, p, order);
    RestartedActive(sim, c.log, p, order);
    RestartRefines(sim, c, completed, revisions, order);
    RestartedAttempts(sim, c.log, p, order);
    var r := Rehydrate(Reopened(sim, c.log), p, order).value;
    forall item | item in c.active ensures item in r.attempts && !r.attempts[item].state.ReleasedAttempt? {
      OpenAttemptIsNotEnded(c, completed, revisions, item);
    }
    RestartFollows(sim, c, completed, revisions, order);
  }

  // Names and run ids.

  /** The next dispatch of an item waiting on the frontier, and of one that is retried first. */
  function NextDispatch(r: Controller, item: ItemId): Dispatch {
    Sim.Assigned(r.sim, item)
  }

  function NextRetry(r: Controller, item: ItemId): Dispatch
    requires Sim.AfterRetry(r.sim, item).Ok?
  {
    Sim.Assigned(Sim.AfterRetry(r.sim, item).value, item)
  }

  lemma LiveNumbers(c: Controller, completed: set<ItemId>, revisions: seq<Revision>, item: ItemId)
    requires Live(c, completed, revisions)
    ensures var a, n := View(c, completed, revisions), Sim.AttemptNumber(c.sim.attempts, item);
      && (item in c.active ==> Issued(a, item) == n == c.active[item].run.attempt)
      && (item in S.Frontier(c.sim.sched) ==> Issued(a, item) == n - 1)
  {
    hide Journal, SL.Aligned, S.Frontier;
    FrontierIsFree(c, completed, revisions);
    if item in c.active {
      ActiveIsLive(c, completed, item);
      ActiveNumber(c, completed, item);
    }
    assert item in S.Frontier(c.sim.sched) ==> item in Elems(S.Frontier(c.sim.sched));
  }

  lemma ActiveNumber(c: Controller, completed: set<ItemId>, item: ItemId)
    requires Linked(c, completed) && item in c.active
    ensures c.active[item].run.attempt == Sim.AttemptNumber(c.sim.attempts, item) && item in c.sim.sched.dispatched
    ensures item !in c.sim.sched.released && item in c.sim.sched.graph.blockers
  {
    ActiveIsLive(c, completed, item);
    assert item in L.InFlight(c.sim.sched);
  }

  /**
   * A ready item that was attempted before starts over: it gets the worktree, the branch and the number of its first
   * attempt, exactly when the live controller would have given it a higher number.
   */
  lemma FrontierPlacesReturn(r: Controller, c: Controller, completed: set<ItemId>, revisions: seq<Revision>, base: Revision,
                             item: ItemId)
    requires Live(c, completed, revisions) && IsRebuilt(r, c, base) && item in S.Frontier(r.sim.sched)
    requires forall id :: id in c.sim.sched.graph.blockers ==> IsItemId(id)
    ensures var d := NextDispatch(r, item);
      && RunOf(d) == RunId(item, base, 1)
      && (PlaceWasIssued(r.log, r.sim.root, d) <==> Sim.AttemptNumber(c.sim.attempts, item) > 1)
  {
    hide Live, View, Issued, IsItemId, S.Frontier;
    FrontierInGraph(c.sim.sched, item);
    LiveNumbers(c, completed, revisions, item);
    PlacesFollowNumbers(c, completed, revisions, item, 1, r.sim.root, NextDispatch(r, item));
  }

  lemma FrontierInGraph(s: S.Schedule, item: ItemId)
    requires item in S.Frontier(s)
    ensures item in s.graph.blockers
  {
    L.FrontierItems(s);
  }

  /** A retried item gets the worktree, branch and number of its second attempt, used exactly when it is past its first. */
  lemma RetryPlacesReturn(r: Controller, c: Controller, completed: set<ItemId>, revisions: seq<Revision>, base: Revision,
                          item: ItemId)
    requires Live(c, completed, revisions) && IsRebuilt(r, c, base) && item in c.active
    requires forall id :: id in c.sim.sched.graph.blockers ==> IsItemId(id)
    ensures Sim.AfterRetry(r.sim, item).Ok?
    ensures var d := NextRetry(r, item);
      && RunOf(d) == RunId(item, base, 2)
      && (PlaceWasIssued(r.log, r.sim.root, d) <==> c.active[item].run.attempt > 1)
  {
    hide Live, View, Issued, IsItemId, S.Frontier;
    assert Linked(c, completed) by {
      LiveIsLinked(c, completed, revisions);
    }
    ActiveNumber(c, completed, item);
    RetryAgain(r.sim, item);
    LiveNumbers(c, completed, revisions, item);
    PlacesFollowNumbers(c, completed, revisions, item, 2, r.sim.root, NextRetry(r, item));
  }

  lemma LiveIsLinked(c: Controller, completed: set<ItemId>, revisions: seq<Revision>)
    requires Live(c, completed, revisions)
    ensures Linked(c, completed)
  {
  }

  lemma RetryAgain(s: Sim.Sim, item: ItemId)
    requires item in s.sched.dispatched && item !in s.sched.released && s.attempts == map[]
    ensures Sim.AfterRetry(s, item).Ok?
    ensures var t := Sim.AfterRetry(s, item).value;
      && RunOf(Sim.Assigned(t, item)) == RunId(item, s.sched.base, 2)
      && Sim.Assigned(t, item).worktreePath == WorktreePath(s.root, item, 2)
      && Sim.Assigned(t, item).branchRef == BranchRef(item, 2)
      && (forall x :: x != item ==> Sim.AttemptNumber(t.attempts, x) == 1)
      && t.sched.base == s.sched.base
  {
  }

  // Calls of the rebuilt controller.

  lemma {:induction false} PersistKeepsAnswers(c: Controller, prompts: seq<Prompt>, e: Event)
    requires !KeyOf(e).FactKey?
    ensures Clashes(PersistPrompts(c, prompts).ctrl.log, e) <==> Clashes(c.log, e)
    decreases prompts
  {
    hide Answer, Inserted;
    if prompts != [] {
      var p := prompts[0];
      var t := if PromptFor(c.prompts, p.item).Some? then c else c.(prompts := c.prompts + [p]);
      AnswerIgnoresOthers(t.log, RowOf(PromptSnapshotRecorded(p)), RowOf(e));
      PersistKeepsAnswers(Emit(t, PromptSnapshotRecorded(p)), prompts[1..], e);
    }
  }

  lemma {:induction false} PersistKeepsRest(c: Controller, prompts: seq<Prompt>)
    ensures var t := PersistPrompts(c, prompts).ctrl; t == c.(log := t.log, prompts := t.prompts)
    decreases prompts
  {
    hide Inserted;
    if prompts != [] {
      var p := prompts[0];
      var t := if PromptFor(c.prompts, p.item).Some? then c else c.(prompts := c.prompts + [p]);
      PersistKeepsRest(Emit(t, PromptSnapshotRecorded(p)), prompts[1..]);
    }
  }

  lemma {:induction false} StartsKeepWaveAnswers(c: Controller, ds: seq<Dispatch>, launcher: Launcher, e: Event)
    requires e.ExecutionWaveStarted?
    ensures Clashes(StartAll(c, ds, launcher).log, e) <==> Clashes(c.log, e)
  {
    hide StartAttempt, RunOf, Answer, Inserted;
    if ds != [] {
      var init, d := ds[..|ds| - 1], ds[|ds| - 1];
      StartsKeepWaveAnswers(c, init, launcher, e);
      var t, workspace := StartAll(c, init, launcher), launcher.create(d.item, d.attempt);
      StartOne(t, d, workspace);
      var ticketed := Inserted(t.log, RowOf(TicketStateChanged(d.item, InProgress)));
      AnswerIgnoresOthers(t.log, RowOf(TicketStateChanged(d.item, InProgress)), RowOf(e));
      AnswerIgnoresOthers(ticketed, RowOf(WorkAttemptStarted(RunOf(d), workspace)), RowOf(e));
    }
  }

  lemma StartAllKeepsSim(c: Controller, sim: Sim.Sim, items: seq<ItemId>, launcher: Launcher)
    ensures StartAll(c, MapAll(items, Sim.Assigner(sim)), launcher).sim == c.sim
  {
    StartAllStarts(c, sim, items, launcher);
  }

  /** Some item of the frontier would start under a run the log holds with another start. */
  ghost predicate ReusesRun(c: Controller, sim: Sim.Sim, launcher: Launcher) {
    exists item :: item in S.Frontier(sim.sched)
      && IsRecordedOtherwise(Project(c.log), RunNow(sim, item), launcher.create(item, Sim.AttemptNumber(sim.attempts, item)))
  }

  lemma NewWaveNeverClashes(rows: seq<Row<Key, Event>>, a: Account, s: S.Schedule, live: S.Schedule)
    requires Journal(rows, a) && a.waves == live.waves && L.WaveHistory(live) && FollowsWaves(s, live)
    ensures var t := S.AfterDispatch(s);
      t.currentWave.Some? ==>
        var wave := t.currentWave.value; !Clashes(rows, ExecutionWaveStarted(wave.number, wave.base, wave.items))
  {
    hide Journal, S.Frontier, Clashes;
    var t := S.AfterDispatch(s);
    if t.currentWave.Some? {
      WaveAppends(rows, a, t.currentWave.value);
    }
  }

  /** A dispatch over the log of a live controller raises a conflict exactly when it reuses a run. */
  lemma SharedLogDispatch(r: Controller, c: Controller, completed: set<ItemId>, revisions: seq<Revision>,
                          prompts: seq<Prompt>, launcher: Launcher)
    requires Live(c, completed, revisions) && r.log == c.log && r.prompts == c.prompts
    requires FollowsWaves(r.sim.sched, c.sim.sched)
    requires CanDispatch(r, prompts, launcher)
    ensures DispatchReady(r, prompts, launcher).fault == ConflictIf(ReusesRun(c, r.sim, launcher))
  {
    hide Journal, Linked, View, S.Frontier, StartEach, StartAll, Sim.AfterDispatch, PersistPrompts, HasPrompts, Admitted, Agree;
    hide Clashes, Project, FollowsWaves;
    PersistRaises(r, prompts);
    PersistKeepsRest(r, prompts);
    var p := PersistPrompts(r, prompts).ctrl;
    var d, ds := p.(sim := Sim.AfterDispatch(r.sim)), Sim.Preview(r.sim);
    FrontierRuns(r.sim);
    StartEachRaises(d, ds, launcher);
    FrontierClashes(r, c, completed, revisions, p, launcher, ds);
    StartAllKeepsSim(d, r.sim, S.Frontier(r.sim.sched), launcher);
    AnnouncementNeverClashes(r, c, completed, revisions, p, launcher);
  }

  lemma FrontierClashes(r: Controller, c: Controller, completed: set<ItemId>, revisions: seq<Revision>, p: Controller,
                        launcher: Launcher, ds: seq<Dispatch>)
    requires Live(c, completed, revisions) && r.log == c.log && ds == Sim.Preview(r.sim)
    requires exists prompts :: p == PersistPrompts(r, prompts).ctrl
    ensures SomeStartClashes(p.log, ds, launcher) <==> ReusesRun(c, r.sim, launcher)
  {
    hide Live, S.Frontier, PersistPrompts, Clashes, Project, View;
    var prompts :| p == PersistPrompts(r, prompts).ctrl;
    var items := S.Frontier(r.sim.sched);
    FrontierRuns(r.sim);
    LiveJournal(c, completed, revisions);
    forall i | 0 <= i < |ds|
      ensures Clashes(p.log, StartOf(ds[i], launcher)) <==>
        IsRecordedOtherwise(Project(c.log), RunNow(r.sim, items[i]),
                            launcher.create(items[i], Sim.AttemptNumber(r.sim.attempts, items[i])))
    {
      AssignedItem(r.sim, items[i]);
      PersistKeepsAnswers(r, prompts, StartOf(ds[i], launcher));
      StartClashes(c.log, View(c, completed, revisions), RunOf(ds[i]), launcher.create(ds[i].item, ds[i].attempt));
    }
    if ReusesRun(c, r.sim, launcher) {
      var item :| item in items
        && IsRecordedOtherwise(Project(c.log), RunNow(r.sim, item), launcher.create(item, Sim.AttemptNumber(r.sim.attempts, item)));
      var i := IndexOf(items, item);
      assert Clashes(p.log, StartOf(ds[i], launcher));
    }
  }

  lemma AnnouncementNeverClashes(r: Controller, c: Controller, completed: set<ItemId>, revisions: seq<Revision>,
                                 p: Controller, launcher: Launcher)
    requires Live(c, completed, revisions) && r.log == c.log && FollowsWaves(r.sim.sched, c.sim.sched)
    requires exists prompts :: p == PersistPrompts(r, prompts).ctrl
    ensures var t := StartAll(p.(sim := Sim.AfterDispatch(r.sim)), Sim.Preview(r.sim), launcher);
      CurrentWaveEvent(t).Some? ==> !Clashes(t.log, CurrentWaveEvent(t).value)
  {
    hide Journal, S.Frontier, PersistPrompts, Clashes, StartAll, SL.Mirrors, FollowsWaves;
    var prompts :| p == PersistPrompts(r, prompts).ctrl;
    var d, ds := p.(sim := Sim.AfterDispatch(r.sim)), Sim.Preview(r.sim);
    StartAllKeepsSim(d, r.sim, S.Frontier(r.sim.sched), launcher);
    NewWaveNeverClashes(c.log, View(c, completed, revisions), r.sim.sched, c.sim.sched);
    var e := CurrentWaveEvent(d);
    if e.Some? {
      StartsKeepWaveAnswers(d, ds, launcher, e.value);
      PersistKeepsAnswers(r, prompts, e.value);
    }
  }

  /** Dispatching after a restart starts each ready item's first attempt over, from the restored base. */
  lemma RebuiltDispatch(r: Controller, c: Controller, completed: set<ItemId>, revisions: seq<Revision>, base: Revision,
                        prompts: seq<Prompt>, launcher: Launcher)
    requires Live(c, completed, revisions) && IsRebuilt(r, c, base)
    requires CanDispatch(r, prompts, launcher)
    ensures DispatchReady(r, prompts, launcher).fault == ConflictIf(FirstAttemptClashes(c, base, launcher))
  {
    hide Live, S.Frontier, DispatchReady, CanDispatch, Project;
    SharedLogDispatch(r, c, completed, revisions, prompts, launcher);
    forall item ensures RunNow(r.sim, item) == RunId(item, base, 1) && Sim.AttemptNumber(r.sim.attempts, item) == 1 {
      AssignedItem(r.sim, item);
    }
  }

  /** An item waits whose first attempt was started from this base, with another start than it would have now. */
  ghost predicate FirstAttemptClashes(c: Controller, base: Revision, launcher: Launcher) {
    exists item :: item in S.Frontier(c.sim.sched)
      && IsRecordedOtherwise(Project(c.log), RunId(item, base, 1), launcher.create(item, 1))
  }

  lemma RetriedFrontier(s: S.Schedule, item: ItemId)
    requires s.policy.ContinuousFrontier? && item in s.dispatched && item !in s.released && item in s.graph.blockers
    requires Elems(s.graph.blockers[item]) <= s.released
    ensures S.AfterRetry(s, item).Ok? && item in S.Frontier(S.AfterRetry(s, item).value)
  {
    assert G.IsReady(s.graph, s.released, item);
  }

  lemma BlockersAreReleased(c: Controller, completed: set<ItemId>, item: ItemId)
    requires Linked(c, completed) && item in c.active
    ensures item in c.sim.sched.graph.blockers && Elems(c.sim.sched.graph.blockers[item]) <= c.sim.sched.released
    ensures item !in c.sim.sched.released
  {
    assert item in L.InFlight(c.sim.sched);
  }

  lemma SupersededRecords(c: Controller, item: ItemId)
    requires item in c.active && Sim.AfterRetry(c.sim, item).Ok?
    ensures Project(Superseded(c, item).log).attemptRecords == Project(c.log).attemptRecords
  {
    hide Sim.AfterRetry;
    SupersededLog(c, item);
    ProjectOneMore(c.log, WorkAttemptStateChanged(c.active[item].run, SupersededAttempt));
  }

  /** Discarding an item from its wave only changes the state that wave is in. */
  lemma RetryFollows(r: S.Schedule, s: S.Schedule, item: ItemId)
    requires L.WaveHistory(s) && FollowsWaves(r, s) && S.AfterRetry(r, item).Ok? && S.AfterRetry(s, item).Ok?
    ensures FollowsWaves(S.AfterRetry(r, item).value, S.AfterRetry(s, item).value)
  {
  }

  lemma SupersededFollows(r: Controller, c: Controller, completed: set<ItemId>, item: ItemId)
    requires Linked(c, completed) && item in c.active && Sim.AfterRetry(c.sim, item).Ok?
    requires FollowsWaves(r.sim.sched, c.sim.sched) && item in r.active && Sim.AfterRetry(r.sim, item).Ok?
    requires r.log == c.log && r.prompts == c.prompts && r.active[item].run == c.active[item].run
    ensures FollowsWaves(Superseded(r, item).sim.sched, Superseded(c, item).sim.sched)
    ensures Superseded(r, item).log == Superseded(c, item).log && Superseded(r, item).prompts == c.prompts
  {
    hide SL.Mirrors, FollowsWaves, Sim.AfterRetry, Supersede;
    ConsistentHistory(c.sim.sched, completed);
    SupersededLog(c, item);
    SupersededLog(r, item);
    SupersedeKeepsSim(c, item);
    SupersedeKeepsSim(r, item);
    RetryKeepsLayers(c.sim, item);
    RetryKeepsLayers(r.sim, item);
    RetryFollows(r.sim.sched, c.sim.sched, item);
  }

  lemma RetryKeepsLayers(s: Sim.Sim, item: ItemId)
    ensures Sim.AfterRetry(s, item).Ok? ==>
      S.AfterRetry(s.sched, item).Ok? && Sim.AfterRetry(s, item).value.sched == S.AfterRetry(s.sched, item).value
  {
  }

  /** Retrying after a restart starts the item's second attempt, over if it already had one, from the restored base. */
  lemma RebuiltRetry(r: Controller, c: Controller, completed: set<ItemId>, revisions: seq<Revision>, base: Revision,
                     item: ItemId, prompt: Option<string>, launcher: Launcher)
    requires Live(c, completed, revisions) && IsRebuilt(r, c, base) && item in c.active && CanRetry(r, item, prompt, launcher)
    ensures Retry(r, item, prompt, None, launcher).fault
            == ConflictIf(IsRecordedOtherwise(Project(c.log), RunId(item, base, 2), launcher.create(item, 2)))
  {
    hide Live, DispatchReady, Sim.AfterRetry, Supersede, Project, HasPrompts, Admitted, Agree, FollowsWaves, S.Frontier;
    LiveIsLinked(c, completed, revisions);
    BlockersAreReleased(c, completed, item);
    RetriedFrontier(r.sim.sched, item);
    RetryAgain(r.sim, item);
    RetryKeepsLayers(r.sim, item);
    RetryIsTaken(c, completed, revisions, item);
    SupersededFollows(r, c, completed, item);
    SupersededRecords(c, item);
    SupersedeKeepsSim(r, item);
    var t, next := Superseded(r, item), if prompt.Some? then prompt else PromptFor(r.prompts, item);
    OnePrompt(r.prompts, Prompt(item, next.value), S.Frontier(t.sim.sched));
    SharedLogDispatch(t, Superseded(c, item), completed, revisions, [Prompt(item, next.value)], launcher);
    OnlyItemReuses(Superseded(c, item), t.sim, launcher, item, base);
  }

  lemma OnlyItemReuses(c: Controller, sim: Sim.Sim, launcher: Launcher, item: ItemId, base: Revision)
    requires item in S.Frontier(sim.sched) && Elems(S.Frontier(sim.sched)) <= {item}
    requires RunNow(sim, item) == RunId(item, base, 2)
    ensures ReusesRun(c, sim, launcher) <==> IsRecordedOtherwise(Project(c.log), RunId(item, base, 2), launcher.create(item, 2))
  {
    hide S.Frontier, Project;
    assert forall x :: x in S.Frontier(sim.sched) ==> x in Elems(S.Frontier(sim.sched));
    AssignedItem(sim, item);
  }

  // The theorems, over the controller a restart builds.

  /**
   * The frontier after a restart: a ready item gets the place and number of its first attempt, used before exactly
   * when it was attempted before; dispatching raises exactly when such a start differs from the recorded one.
   */
  lemma RestartedDispatch(sim: Sim.Sim, c: Controller, completed: set<ItemId>, revisions: seq<Revision>, order: seq<ItemId>,
                          prompts: seq<Prompt>, launcher: Launcher)
    requires Live(c, completed, revisions) && c.sim.sched.policy.ContinuousFrontier? && IsRestartOf(sim, c, completed)
    requires Elems(order) == Project(c.log).active.Keys
    requires forall id :: id in c.sim.sched.graph.blockers ==> IsItemId(id)
    ensures Rehydrate(Reopened(sim, c.log), Project(c.log), order).Ok?
    ensures
      var r, base := Rehydrate(Reopened(sim, c.log), Project(c.log), order).value, RestoredBase(sim.sched.base, revisions);
      && (forall item :: item in S.Frontier(r.sim.sched) ==>
            && RunOf(NextDispatch(r, item)) == RunId(item, base, 1)
            && (PlaceWasIssued(r.log, r.sim.root, NextDispatch(r, item)) <==> Sim.AttemptNumber(c.sim.attempts, item) > 1))
      && (CanDispatch(r, prompts, launcher) ==>
            DispatchReady(r, prompts, launcher).fault == ConflictIf(FirstAttemptClashes(c, base, launcher)))
  {
    hide Live, S.Frontier, Rehydrate, DispatchReady, CanDispatch, Project, RestoredBase, PlaceWasIssued;
    RestartRebuilds(sim, c, completed, revisions, order);
    var r, base := Rehydrate(Reopened(sim, c.log), Project(c.log), order).value, RestoredBase(sim.sched.base, revisions);
    forall item | item in S.Frontier(r.sim.sched)
      ensures RunOf(NextDispatch(r, item)) == RunId(item, base, 1)
      ensures PlaceWasIssued(r.log, r.sim.root, NextDispatch(r, item)) <==> Sim.AttemptNumber(c.sim.attempts, item) > 1
    {
      FrontierPlacesReturn(r, c, completed, revisions, base, item);
    }
    if CanDispatch(r, prompts, launcher) {
      RebuiltDispatch(r, c, completed, revisions, base, prompts, launcher);
    }
  }

  /**
   * A retry after a restart: the item gets the place and number of its second attempt, used before exactly when it is
   * past its first; the retry raises exactly when that attempt was started from the restored base, and otherwise.
   */
  lemma RestartedRetry(sim: Sim.Sim, c: Controller, completed: set<ItemId>, revisions: seq<Revision>, order: seq<ItemId>,
                       item: ItemId, prompt: Option<string>, launcher: Launcher)
    requires Live(c, completed, revisions) && c.sim.sched.policy.ContinuousFrontier? && IsRestartOf(sim, c, completed)
    requires Elems(order) == Project(c.log).active.Keys && item in c.active
    requires forall id :: id in c.sim.sched.graph.blockers ==> IsItemId(id)
    ensures Rehydrate(Reopened(sim, c.log), Project(c.log), order).Ok?
    ensures
      var r, base := Rehydrate(Reopened(sim, c.log), Project(c.log), order).value, RestoredBase(sim.sched.base, revisions);
      && Sim.AfterRetry(r.sim, item).Ok?
      && RunOf(NextRetry(r, item)) == RunId(item, base, 2)
      && (PlaceWasIssued(r.log, r.sim.root, NextRetry(r, item)) <==> c.active[item].run.attempt > 1)
      && (CanRetry(r, item, prompt, launcher) ==>
            Retry(r, item, prompt, None, launcher).fault
            == ConflictIf(IsRecordedOtherwise(Project(c.log), RunId(item, base, 2), launcher.create(item, 2))))
  {
    hide Live, S.Frontier, Rehydrate, Retry, CanRetry, Project, RestoredBase, PlaceWasIssued, IsRebuilt;
    RestartRebuilds(sim, c, completed, revisions, order);
    var r, base := Rehydrate(Reopened(sim, c.log), Project(c.log), order).value, RestoredBase(sim.sched.base, revisions);
    RetryPlacesReturn(r, c, completed, revisions, base, item);
    if CanRetry(r, item, prompt, launcher) {
      RebuiltRetry(r, c, completed, revisions, base, item, prompt, launcher);
    }
  }
}
