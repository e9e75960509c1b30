/** Every call of the controller keeps the live state and the durable log in step. */
module ControllerLaws {
  import opened Prelude
  import opened EventLogs
  import opened Gate
  import opened Projections
  import opened Controllers
  import opened Journals
  import Sim = Simulation
  import SL = SimulationLaws
  import S = Scheduling
  import L = SchedulingLaws

  /** The runs the log must still list as active: the live ones, and those of cancelled items. */
  function OpenRuns(c: Controller): map<ItemId, RunId> {
    RunsListed(c.active.Keys + c.sim.sched.cancelled, c.attempts)
  }

  function RunsListed(items: set<ItemId>, attempts: map<ItemId, WorkAttempt>): map<ItemId, RunId> {
    map item | item in items && item in attempts :: attempts[item].run
  }

  /** The account the live controller expects its log to hold. */
  function View(c: Controller, completed: set<ItemId>, revisions: seq<Revision>): Account {
    Account(c.sim.sched.released - completed, c.sim.attempts, c.sim.sched.dispatched + c.sim.sched.cancelled,
            OpenRuns(c), c.sim.sched.waves, c.prompts, revisions)
  }

  /** An active assignment is the simulator's dispatch, under the run id of its attempt. */
  ghost predicate IsLive(c: Controller, item: ItemId) {
    && item in c.active && item in c.sim.dispatched && item in c.attempts
    && c.active[item].dispatch == c.sim.dispatched[item]
    && c.active[item].run == RunOf(c.sim.dispatched[item]) == c.attempts[item].run
    && !c.attempts[item].state.ReleasedAttempt?
  }

  ghost predicate Linked(c: Controller, completed: set<ItemId>) {
    && SL.Aligned(c.sim, completed)
    && c.active.Keys == L.InFlight(c.sim.sched)
    && (forall item :: item in c.active ==> IsLive(c, item))
    && c.sim.sched.cancelled <= c.attempts.Keys
    && (forall item :: item in c.attempts ==> c.attempts[item].run.item == item)
    && c.donePublished <= c.sim.sched.released
  }

  ghost predicate Live(c: Controller, completed: set<ItemId>, revisions: seq<Revision>) {
    Linked(c, completed) && Journal(c.log, View(c, completed, revisions))
  }

  lemma QuietKeeps(c: Controller, completed: set<ItemId>, revisions: seq<Revision>, e: Event)
    requires Live(c, completed, revisions) && IsQuiet(View(c, completed, revisions), e)
    ensures Live(Emit(c, e), completed, revisions)
  {
    QuietEvent(c.log, View(c, completed, revisions), e);
  }

  /** The bookkeeping sets for tickets constrain nothing else. */
  lemma PublishingKeeps(c: Controller, completed: set<ItemId>, revisions: seq<Revision>,
                        review: set<ItemId>, attention: set<ItemId>)
    requires Live(c, completed, revisions)
    ensures Live(c.(reviewPublished := review, attentionPublished := attention), completed, revisions)
  {
  }

  lemma SetAttemptKeeps(c: Controller, completed: set<ItemId>, revisions: seq<Revision>, item: ItemId, state: AttemptState)
    requires Live(c, completed, revisions) && (item in c.active ==> !state.ReleasedAttempt?)
    ensures Live(SetAttempt(c, item, state), completed, revisions)
  {
    hide SL.Aligned, Journal;
    assert OpenRuns(SetAttempt(c, item, state)) == OpenRuns(c);
  }

  lemma MarkFailureKeeps(c: Controller, completed: set<ItemId>, revisions: seq<Revision>, item: ItemId, code: FailureCode)
    requires Live(c, completed, revisions) && item !in c.sim.sched.released - completed
    ensures Live(MarkRuntimeFailure(c, item, code), completed, revisions)
  {
    hide Linked, Journal;
    var t := SetTicket(c, item, NeedsAttention);
    QuietKeeps(c, completed, revisions, TicketStateChanged(item, NeedsAttention));
    PublishingKeeps(t, completed, revisions, t.reviewPublished, t.attentionPublished + {item});
    var u := if item in c.attentionPublished then c else t.(attentionPublished := c.attentionPublished + {item});
    SetAttemptKeeps(u, completed, revisions, item, AttentionNeeded);
    var v := SetAttempt(u, item, AttentionNeeded);
    if item in v.attempts && item in v.active {
      var e := WorkAttemptStateChanged(v.active[item].run, AttentionNeeded);
      QuietKeeps(v, completed, revisions, e);
      QuietKeeps(Emit(v, e), completed, revisions, RuntimeFailed(item, code));
    } else {
      QuietKeeps(v, completed, revisions, RuntimeFailed(item, code));
    }
  }

  lemma RaiseAttentionKeeps(c: Controller, completed: set<ItemId>, revisions: seq<Revision>, item: ItemId)
    requires Live(c, completed, revisions) && item in c.active
    ensures Live(RaiseAttention(c, item), completed, revisions)
  {
    hide SL.Aligned, Journal;
    if item !in c.attentionPublished {
      var t := SetTicket(c, item, NeedsAttention);
      assert item !in c.sim.sched.released;
      QuietKeeps(c, completed, revisions, TicketStateChanged(item, NeedsAttention));
      PublishingKeeps(t, completed, revisions, t.reviewPublished, t.attentionPublished + {item});
      var u := t.(attentionPublished := c.attentionPublished + {item});
      SetAttemptKeeps(u, completed, revisions, item, AttentionNeeded);
      QuietKeeps(SetAttempt(u, item, AttentionNeeded), completed, revisions,
                 WorkAttemptStateChanged(c.active[item].run, AttentionNeeded));
    }
  }

  lemma {:induction false} PersistKeeps(c: Controller, completed: set<ItemId>, revisions: seq<Revision>, prompts: seq<Prompt>)
    requires Live(c, completed, revisions)
    ensures var t := PersistPrompts(c, prompts).ctrl;
      Live(t, completed, revisions) && t == c.(log := t.log, prompts := t.prompts)
    decreases prompts
  {
    hide SL.Aligned, Journal;
    if prompts != [] {
      var p, a := prompts[0], View(c, completed, revisions);
      var existing := PromptFor(c.prompts, p.item);
      if existing.None? {
        PromptRecorded(c.log, a, p);
        PersistKeeps(Emit(c.(prompts := c.prompts + [p]), PromptSnapshotRecorded(p)), completed, revisions, prompts[1..]);
      } else if existing.value == p.text {
        PromptRecordedAgain(c.log, a, p);
        PersistKeeps(Emit(c, PromptSnapshotRecorded(p)), completed, revisions, prompts[1..]);
      }
    }
  }

  /** The simulator state changed where neither ownership nor what is in flight is affected. */
  lemma SimChangeKeeps(c: Controller, completed: set<ItemId>, revisions: seq<Revision>, sim: Sim.Sim)
    requires Live(c, completed, revisions) && SL.Aligned(sim, completed)
    requires sim.dispatched == c.sim.dispatched && sim.attempts == c.sim.attempts
    requires sim.sched.dispatched == c.sim.sched.dispatched && sim.sched.released == c.sim.sched.released
    requires sim.sched.cancelled == c.sim.sched.cancelled && SameWaves(c.sim.sched.waves, sim.sched.waves)
    ensures Live(c.(sim := sim), completed, revisions)
  {
    hide SL.Aligned, Journal;
    WavesRestated(c.log, View(c, completed, revisions), sim.sched.waves);
    assert OpenRuns(c.(sim := sim)) == OpenRuns(c);
  }

  lemma RefreshKeeps(c: Controller, completed: set<ItemId>, revisions: seq<Revision>, revision: Revision)
    requires Live(c, completed, revisions) && Sim.CanRefresh(c.sim)
    ensures RefreshTargetBase(c, revision).fault.None?
    ensures Live(RefreshTargetBase(c, revision).ctrl, completed, revisions + [revision])
    ensures RefreshTargetBase(c, revision).ctrl.sim.sched.base == revision
  {
    hide SL.Aligned, Journal;
    SL.LayersNeverDisagree(c.sim, completed, "", revision);
    SL.StepAligned(c.sim, completed, SL.Refresh(revision));
    var t := c.(sim := Sim.AfterRefresh(c.sim, revision).value);
    SimChangeKeeps(c, completed, revisions, t.sim);
    BaseRefreshed(t.log, View(t, completed, revisions), revision);
  }

  // Dispatching a frontier.

  function RunNow(sim: Sim.Sim, item: ItemId): RunId {
    RunOf(Sim.Assigned(sim, item))
  }

  function RunsOf(sim: Sim.Sim): ItemId -> RunId {
    item => RunNow(sim, item)
  }

  function Starter(sim: Sim.Sim, launcher: Launcher): ItemId -> Assignment {
    item => var d := Sim.Assigned(sim, item); Assignment(d, launcher.create(item, d.attempt), RunOf(d))
  }

  function FirstAttempts(sim: Sim.Sim): ItemId -> WorkAttempt {
    item => WorkAttempt(RunNow(sim, item), Running)
  }

  /** The account once the listed items of the frontier have been started. */
  function StartedAccount(a: Account, sim: Sim.Sim, items: seq<ItemId>): Account {
    a.(owned := a.owned + Elems(items), open := WithAll(a.open, items, RunsOf(sim)))
  }

  lemma StartKeepsJournal(rows: seq<Row<Key, Event>>, a: Account, item: ItemId, run: RunId, workspace: Workspace)
    requires Journal(rows, a) && run.item == item && run.attempt == Sim.AttemptNumber(a.attempts, item)
    requires item !in a.owned && item !in a.finished
    ensures var ticketed := Inserted(rows, RowOf(TicketStateChanged(item, InProgress)));
      Journal(Inserted(ticketed, RowOf(WorkAttemptStarted(run, workspace))),
              a.(owned := a.owned + {item}, open := a.open[item := run]))
  {
    hide Journal;
    var ticketed := Inserted(rows, RowOf(TicketStateChanged(item, InProgress)));
    QuietEvent(rows, a, TicketStateChanged(item, InProgress));
    AttemptStarts(ticketed, a, run, workspace);
  }

  lemma {:induction false} StartAllStarts(c: Controller, sim: Sim.Sim, items: seq<ItemId>, launcher: Launcher)
    ensures var t := StartAll(c, MapAll(items, Sim.Assigner(sim)), launcher);
      t == c.(log := t.log,
              active := WithAll(c.active, items, Starter(sim, launcher)),
              attempts := WithAll(c.attempts, items, FirstAttempts(sim)))
    decreases items
  {
    hide Sim.Assigned, Emit;
    if items == [] {
      assert WithAll(c.active, items, Starter(sim, launcher)) == c.active;
      assert WithAll(c.attempts, items, FirstAttempts(sim)) == c.attempts;
    } else {
      var init, item := items[..|items| - 1], items[|items| - 1];
      assert items == init + [item];
      var ds := MapAll(items, Sim.Assigner(sim));
      assert ds[..|ds| - 1] == MapAll(init, Sim.Assigner(sim));
      StartAllStarts(c, sim, init, launcher);
      var t := StartAll(c, ds[..|ds| - 1], launcher);
      var d := Sim.Assigned(sim, item);
      WithOneMore(c.active, init, item, Starter(sim, launcher));
      WithOneMore(c.attempts, init, item, FirstAttempts(sim));
      StartOne(t, d, launcher.create(item, d.attempt));
      AssignedItem(sim, item);
    }
  }

  lemma AssignedItem(sim: Sim.Sim, item: ItemId)
    ensures Sim.Assigned(sim, item).item == item
    ensures Sim.Assigned(sim, item).attempt == Sim.AttemptNumber(sim.attempts, item)
    ensures Sim.Assigned(sim, item).base == sim.sched.base
  {
  }

  lemma StartOne(c: Controller, d: Dispatch, workspace: Workspace)
    ensures var t := StartAttempt(c, d, workspace);
      t == c.(log := Inserted(Inserted(c.log, RowOf(TicketStateChanged(d.item, InProgress))),
                              RowOf(WorkAttemptStarted(RunOf(d), workspace))),
              active := c.active[d.item := Assignment(d, workspace, RunOf(d))],
              attempts := c.attempts[d.item := WorkAttempt(RunOf(d), Running)])
  {
  }

  lemma {:induction false} StartAllKeeps(c: Controller, sim: Sim.Sim, a: Account, items: seq<ItemId>, launcher: Launcher)
    requires Journal(c.log, a) && Distinct(items)
    requires Elems(items) !! a.owned && Elems(items) !! a.finished && a.attempts == sim.attempts
    ensures Journal(StartAll(c, MapAll(items, Sim.Assigner(sim)), launcher).log, StartedAccount(a, sim, items))
    decreases items
  {
    hide Journal, Sim.Assigned, StartAttempt;
    if items == [] {
      assert StartedAccount(a, sim, items) == a;
    } else {
      var init, item := items[..|items| - 1], items[|items| - 1];
      assert items == init + [item];
      assert item in Elems(items) && forall x :: x in init ==> x in Elems(items) && x != item;
      var ds := MapAll(items, Sim.Assigner(sim));
      assert ds[..|ds| - 1] == MapAll(init, Sim.Assigner(sim));
      StartAllKeeps(c, sim, a, init, launcher);
      var t := StartAll(c, ds[..|ds| - 1], launcher);
      var b, d := StartedAccount(a, sim, init), Sim.Assigned(sim, item);
      AssignedItem(sim, item);
      StartOne(t, d, launcher.create(item, d.attempt));
      StartKeepsJournal(t.log, b, item, RunNow(sim, item), launcher.create(item, d.attempt));
      StartedOneMore(a, sim, init, item);
    }
  }

  lemma StartedOneMore(a: Account, sim: Sim.Sim, init: seq<ItemId>, item: ItemId)
    ensures var b := StartedAccount(a, sim, init);
      StartedAccount(a, sim, init + [item]) == b.(owned := b.owned + {item}, open := b.open[item := RunNow(sim, item)])
  {
    WithOneMore(a.open, init, item, RunsOf(sim));
    assert Elems(init + [item]) == Elems(init) + {item};
  }

  lemma FrontierIsFree(c: Controller, completed: set<ItemId>, revisions: seq<Revision>)
    requires Linked(c, completed)
    ensures var items, a := S.Frontier(c.sim.sched), View(c, completed, revisions);
      Elems(items) !! a.owned && Elems(items) !! a.finished && Elems(items) !! c.active.Keys
  {
  }

  /** What dispatching leaves of the controller, before its wave is announced. */
  lemma DispatchShape(c: Controller, launcher: Launcher)
    ensures var t, items := DispatchFrontier(c, launcher), S.Frontier(c.sim.sched);
      t == c.(log := t.log, sim := Sim.AfterDispatch(c.sim),
              active := WithAll(c.active, items, Starter(c.sim, launcher)),
              attempts := WithAll(c.attempts, items, FirstAttempts(c.sim)))
  {
    hide Sim.AfterDispatch, StartAll;
    StartAllStarts(c.(sim := Sim.AfterDispatch(c.sim)), c.sim, S.Frontier(c.sim.sched), launcher);
  }

  lemma ListMoreRuns(listed: set<ItemId>, attempts: map<ItemId, WorkAttempt>, items: seq<ItemId>,
                     first: ItemId -> WorkAttempt, runs: ItemId -> RunId)
    requires forall item :: first(item).run == runs(item)
    ensures RunsListed(listed + Elems(items), WithAll(attempts, items, first))
            == WithAll(RunsListed(listed, attempts), items, runs)
  {
  }

  lemma OpenAfterDispatch(c: Controller, launcher: Launcher)
    ensures OpenRuns(DispatchFrontier(c, launcher)) == WithAll(OpenRuns(c), S.Frontier(c.sim.sched), RunsOf(c.sim))
  {
    hide DispatchFrontier, RunsListed, RunNow, S.Frontier;
    DispatchShape(c, launcher);
    var t, items := DispatchFrontier(c, launcher), S.Frontier(c.sim.sched);
    ListMoreRuns(c.active.Keys + c.sim.sched.cancelled, c.attempts, items, FirstAttempts(c.sim), RunsOf(c.sim));
    assert t.active.Keys == c.active.Keys + Elems(items);
    assert t.active.Keys + t.sim.sched.cancelled == c.active.Keys + c.sim.sched.cancelled + Elems(items);
  }

  lemma ViewAfterDispatch(c: Controller, completed: set<ItemId>, revisions: seq<Revision>, launcher: Launcher)
    requires Linked(c, completed)
    ensures var t, items := DispatchFrontier(c, launcher), S.Frontier(c.sim.sched);
      View(t, completed, revisions)
      == StartedAccount(View(c, completed, revisions), c.sim, items).(waves := Sim.AfterDispatch(c.sim).sched.waves)
  {
    hide DispatchFrontier, OpenRuns, SL.Aligned, Sim.AfterDispatch, S.Frontier;
    DispatchShape(c, launcher);
    OpenAfterDispatch(c, launcher);
    DispatchOwns(c.sim);
  }

  lemma DispatchOwns(s: Sim.Sim)
    ensures var t := Sim.AfterDispatch(s);
      && t.attempts == s.attempts && t.sched.released == s.sched.released && t.sched.cancelled == s.sched.cancelled
      && t.sched.dispatched == s.sched.dispatched + Elems(S.Frontier(s.sched))
  {
  }

  lemma FrontierKeepsJournal(c: Controller, completed: set<ItemId>, revisions: seq<Revision>, launcher: Launcher)
    requires Live(c, completed, revisions)
    ensures Journal(DispatchFrontier(c, launcher).log, View(DispatchFrontier(c, launcher), completed, revisions))
  {
    hide Journal, OpenRuns, StartAll, SL.Mirrors;
    var items, a := S.Frontier(c.sim.sched), View(c, completed, revisions);
    var d := c.(sim := Sim.AfterDispatch(c.sim));
    FrontierIsFree(c, completed, revisions);
    StartAllKeeps(d, c.sim, a, items, launcher);
    var u := StartAll(d, Sim.Preview(c.sim), launcher);
    StartAllStarts(d, c.sim, items, launcher);
    ViewAfterDispatch(c, completed, revisions, launcher);
    var b, waves := StartedAccount(a, c.sim, items), c.sim.sched.waves;
    if items != [] {
      WaveAnnounced(u.log, b, d.sim.sched.currentWave.value);
    } else if waves != [] {
      WaveAnnouncedAgain(u.log, b, |waves| - 1);
    }
  }

  lemma ActiveIsLive(c: Controller, completed: set<ItemId>, item: ItemId)
    requires Linked(c, completed) && item in c.active
    ensures IsLive(c, item)
  {
  }

  lemma DispatchAssigns(sim: Sim.Sim)
    ensures Sim.AfterDispatch(sim).dispatched == WithAll(sim.dispatched, S.Frontier(sim.sched), Sim.Assigner(sim))
  {
  }

  lemma FrontierIsLive(c: Controller, completed: set<ItemId>, launcher: Launcher, item: ItemId)
    requires Linked(c, completed)
    requires item in c.active || item in S.Frontier(c.sim.sched)
    ensures IsLive(DispatchFrontier(c, launcher), item)
  {
    hide DispatchFrontier, Linked, View, S.Frontier, Sim.Assigned, Sim.AfterDispatch;
    DispatchShape(c, launcher);
    DispatchAssigns(c.sim);
    FrontierIsFree(c, completed, []);
    AssignedItem(c.sim, item);
    if item !in S.Frontier(c.sim.sched) {
      ActiveIsLive(c, completed, item);
    }
  }

  lemma InFlightAfterDispatch(s: S.Schedule)
    ensures L.InFlight(S.AfterDispatch(s)) == L.InFlight(s) + Elems(S.Frontier(s))
    ensures S.AfterDispatch(s).released == s.released && S.AfterDispatch(s).cancelled == s.cancelled
  {
  }

  lemma FrontierLinks(c: Controller, completed: set<ItemId>, launcher: Launcher)
    requires Linked(c, completed)
    ensures Linked(DispatchFrontier(c, launcher), completed)
  {
    hide DispatchFrontier, SL.Aligned, IsLive, S.AfterDispatch, S.Frontier;
    var t, items := DispatchFrontier(c, launcher), S.Frontier(c.sim.sched);
    DispatchShape(c, launcher);
    SL.StepAligned(c.sim, completed, SL.Dispatching);
    InFlightAfterDispatch(c.sim.sched);
    assert t.active.Keys == c.active.Keys + Elems(items);
    forall item | item in t.active ensures IsLive(t, item) {
      FrontierIsLive(c, completed, launcher, item);
    }
    AttemptsKeepNames(c, items);
  }

  lemma AttemptsKeepNames(c: Controller, items: seq<ItemId>)
    requires forall item :: item in c.attempts ==> c.attempts[item].run.item == item
    ensures var m := WithAll(c.attempts, items, FirstAttempts(c.sim));
      m.Keys == c.attempts.Keys + Elems(items) && forall item :: item in m ==> m[item].run.item == item
  {
  }

  lemma FrontierKeeps(c: Controller, completed: set<ItemId>, revisions: seq<Revision>, launcher: Launcher)
    requires Live(c, completed, revisions)
    ensures Live(DispatchFrontier(c, launcher), completed, revisions)
  {
    hide DispatchFrontier, Journal, Linked, View;
    FrontierKeepsJournal(c, completed, revisions, launcher);
    FrontierLinks(c, completed, launcher);
  }

  // In step with its log, a controller never raises a conflict.

  /** The next wave has an unused number; the last one may be announced again. */
  lemma WaveAppends(rows: seq<Row<Key, Event>>, a: Account, wave: S.ExecutionWave)
    requires Journal(rows, a)
    requires wave.number > |a.waves| || (wave.number >= 1 && SameWave(a.waves[wave.number - 1], wave.number, wave.base, wave.items))
    ensures !Clashes(rows, ExecutionWaveStarted(wave.number, wave.base, wave.items))
  {
    hide Reproduces, PromptsMatch, StartsDiffer, Project;
    var e := ExecutionWaveStarted(wave.number, wave.base, wave.items);
    if HasKey(rows, KeyOf(e)) {
      var event := Lookup(rows, KeyOf(e));
      var i :| 0 <= i < |rows| && rows[i] == Row(KeyOf(e), event);
      assert RowFits(a, Project(rows).attemptRecords.Keys, rows[i]);
    }
  }

  lemma LiveFacts(c: Controller, completed: set<ItemId>, revisions: seq<Revision>)
    requires Live(c, completed, revisions)
    ensures var a, items := View(c, completed, revisions), S.Frontier(c.sim.sched);
      && Journal(c.log, a) && Elems(items) !! a.owned && Elems(items) !! a.finished && a.attempts == c.sim.attempts
  {
    FrontierIsFree(c, completed, revisions);
  }

  /** What dispatching announces is a wave the log does not contradict. */
  lemma WaveIsAppendable(c: Controller, completed: set<ItemId>, revisions: seq<Revision>, launcher: Launcher)
    requires Live(c, completed, revisions)
    ensures var t := StartAll(c.(sim := Sim.AfterDispatch(c.sim)), Sim.Preview(c.sim), launcher);
      t.sim.sched.currentWave.Some? ==>
        var wave := t.sim.sched.currentWave.value;
        !Clashes(t.log, ExecutionWaveStarted(wave.number, wave.base, wave.items))
  {
    hide Journal, StartAll, OpenRuns;
    var d, items, a := c.(sim := Sim.AfterDispatch(c.sim)), S.Frontier(c.sim.sched), View(c, completed, revisions);
    LiveFacts(c, completed, revisions);
    StartAllKeeps(d, c.sim, a, items, launcher);
    StartAllStarts(d, c.sim, items, launcher);
    var t, b := StartAll(d, Sim.Preview(c.sim), launcher), StartedAccount(a, c.sim, items);
    if t.sim.sched.currentWave.Some? {
      WaveAppends(t.log, b, t.sim.sched.currentWave.value);
    }
  }

  lemma {:induction false} StartsKeepOtherAnswers(c: Controller, ds: seq<Dispatch>, launcher: Launcher, e: Event)
    requires e.WorkAttemptStarted? && forall i :: 0 <= i < |ds| ==> RunOf(ds[i]) != e.run
    ensures Clashes(StartAll(c, ds, launcher).log, e) <==> Clashes(c.log, e)
  {
    hide StartAttempt, RunOf, Answer, Inserted;
    if ds != [] {
      var init, d := ds[..|ds| - 1], ds[|ds| - 1];
      assert forall i :: 0 <= i < |init| ==> init[i] == ds[i];
      StartsKeepOtherAnswers(c, init, launcher, e);
      var t, workspace := StartAll(c, init, launcher), launcher.create(d.item, d.attempt);
      StartOne(t, d, workspace);
      var ticketed := Inserted(t.log, RowOf(TicketStateChanged(d.item, InProgress)));
      AnswerIgnoresOthers(t.log, RowOf(TicketStateChanged(d.item, InProgress)), RowOf(e));
      AnswerIgnoresOthers(ticketed, RowOf(WorkAttemptStarted(RunOf(d), workspace)), RowOf(e));
    }
  }

  ghost predicate SomeStartClashes(rows: seq<Row<Key, Event>>, ds: seq<Dispatch>, launcher: Launcher) {
    exists i :: 0 <= i < |ds| && Clashes(rows, StartOf(ds[i], launcher))
  }

  /** Starting dispatches of different runs raises exactly when the log as it was contradicts one of the starts. */
  lemma {:induction false} StartEachRaises(c: Controller, ds: seq<Dispatch>, launcher: Launcher)
    requires forall i, j :: 0 <= i < j < |ds| ==> RunOf(ds[i]) != RunOf(ds[j])
    ensures var r := StartEach(c, ds, launcher);
      && r.fault == ConflictIf(SomeStartClashes(c.log, ds, launcher))
      && (r.fault.None? ==> r.ctrl == StartAll(c, ds, launcher))
  {
    hide StartAttempt, RunOf, Clashes;
    if ds != [] {
      var init, d := ds[..|ds| - 1], ds[|ds| - 1];
      assert forall i :: 0 <= i < |init| ==> init[i] == ds[i];
      StartEachRaises(c, init, launcher);
      if !SomeStartClashes(c.log, init, launcher) {
        StartsKeepOtherAnswers(c, init, launcher, StartOf(d, launcher));
      }
    }
  }

  /** Starting a frontier leaves the simulator as the dispatch left it, and raises nothing but a conflict. */
  lemma {:induction false} StartEachKeepsSim(c: Controller, ds: seq<Dispatch>, launcher: Launcher)
    ensures var r := StartEach(c, ds, launcher); r.ctrl.sim == c.sim && (r.fault.None? || r.fault == Some(LogConflict))
  {
    hide Clashes, Emit;
    if ds != [] {
      StartEachKeepsSim(c, ds[..|ds| - 1], launcher);
      var d := ds[|ds| - 1];
      StartOne(StartEach(c, ds[..|ds| - 1], launcher).ctrl, d, launcher.create(d.item, d.attempt));
    }
  }

  lemma StartFrontierKeepsSim(c: Controller, launcher: Launcher)
    ensures var r := StartFrontier(c, launcher);
      r.ctrl.sim == Sim.AfterDispatch(c.sim) && (r.fault.None? || r.fault == Some(LogConflict))
  {
    hide StartEach, Clashes, Sim.AfterDispatch;
    StartEachKeepsSim(c.(sim := Sim.AfterDispatch(c.sim)), Sim.Preview(c.sim), launcher);
  }

  lemma FrontierRuns(sim: Sim.Sim)
    ensures var ds, items := Sim.Preview(sim), S.Frontier(sim.sched);
      && |ds| == |items| && (forall i :: 0 <= i < |ds| ==> ds[i] == Sim.Assigned(sim, items[i]))
      && forall i, j :: 0 <= i < j < |ds| ==> RunOf(ds[i]) != RunOf(ds[j])
  {
    hide S.Frontier;
  }

  /** In step with its log, the frontier starts without a conflict. */
  lemma FrontierStarts(c: Controller, completed: set<ItemId>, revisions: seq<Revision>, launcher: Launcher)
    requires Live(c, completed, revisions)
    ensures StartFrontier(c, launcher) == Reply(DispatchFrontier(c, launcher), None)
  {
    hide Journal, S.Frontier, StartEach, StartAll, Sim.AfterDispatch, OpenRuns, Linked;
    var d, ds, items := c.(sim := Sim.AfterDispatch(c.sim)), Sim.Preview(c.sim), S.Frontier(c.sim.sched);
    LiveFacts(c, completed, revisions);
    FrontierRuns(c.sim);
    StartEachRaises(d, ds, launcher);
    forall i | 0 <= i < |ds| ensures !Clashes(d.log, StartOf(ds[i], launcher)) {
      AssignedItem(c.sim, items[i]);
      assert items[i] in Elems(items);
      NextRunIsFresh(c.log, View(c, completed, revisions), RunOf(ds[i]));
    }
    WaveIsAppendable(c, completed, revisions, launcher);
  }

  lemma DispatchKeeps(c: Controller, completed: set<ItemId>, revisions: seq<Revision>, prompts: seq<Prompt>, launcher: Launcher)
    requires Live(c, completed, revisions)
    ensures Live(DispatchReady(c, prompts, launcher).ctrl, completed, revisions)
  {
    hide Live, StartFrontier, DispatchFrontier;
    PersistKeeps(c, completed, revisions, prompts);
    var t := PersistPrompts(c, prompts).ctrl;
    FrontierStarts(t, completed, revisions, launcher);
    FrontierKeeps(t, completed, revisions, launcher);
  }

  lemma NextFrontierKeeps(c: Controller, completed: set<ItemId>, revisions: seq<Revision>, launcher: Launcher)
    requires Live(c, completed, revisions)
    ensures Live(DispatchNextFrontier(c, launcher).ctrl, completed, revisions)
  {
    hide Live, DispatchReady, View;
    DispatchKeeps(c, completed, revisions, c.prompts, launcher);
    QuietKeeps(c, completed, revisions, FrontierWaitingForPrompts(S.Frontier(c.sim.sched)));
  }

  // Reconciling one item.

  lemma ObserveKeeps(c: Controller, completed: set<ItemId>, revisions: seq<Revision>, item: ItemId, o: DeliveryObservation)
    requires Live(c, completed, revisions) && item in c.active
    ensures Sim.AfterObserve(c.sim, item, o).Ok?
    ensures Live(c.(sim := Sim.AfterObserve(c.sim, item, o).value), completed, revisions)
  {
    hide Journal, SL.Aligned;
    assert IsLive(c, item);
    SL.StepAligned(c.sim, completed, SL.Observe(item, o));
    SimChangeKeeps(c, completed, revisions, Sim.AfterObserve(c.sim, item, o).value);
  }

  lemma PublishReviewKeeps(c: Controller, completed: set<ItemId>, revisions: seq<Revision>, item: ItemId, o: DeliveryObservation)
    requires Live(c, completed, revisions) && item in c.active
    ensures var t := PublishReview(c, item, o);
      Live(t, completed, revisions) && t.active == c.active && t.sim == c.sim
  {
    hide Journal, SL.Aligned;
    assert item in L.InFlight(c.sim.sched);
    QuietKeeps(c, completed, revisions, TicketStateChanged(item, InReview));
    var t := SetTicket(c, item, InReview);
    PublishingKeeps(t, completed, revisions, t.reviewPublished + {item}, t.attentionPublished);
  }

  /** Releasing changes the released set and at most the state of the current wave. */
  lemma ReleaseChanges(s: S.Schedule, id: ItemId)
    requires L.WaveHistory(s) && id in s.dispatched
    ensures var t := S.AfterRelease(s, id).value;
      && t.dispatched == s.dispatched && t.cancelled == s.cancelled && t.released == s.released + {id}
      && SameWaves(s.waves, t.waves)
  {
  }

  lemma SimEvaluation(s: Sim.Sim, id: ItemId)
    requires SL.Mirrors(s) && L.WaveHistory(s.sched) && id in s.dispatched && id !in s.sched.released
    requires Sim.AfterEvaluate(s, id).Ok?
    ensures var (t, decision) := Sim.AfterEvaluate(s, id).value;
      && t.dispatched == s.dispatched && t.attempts == s.attempts
      && t.sched.dispatched == s.sched.dispatched && t.sched.cancelled == s.sched.cancelled
      && t.sched.released == s.sched.released + (if decision.status.Approved? then {id} else {})
      && SameWaves(s.sched.waves, t.sched.waves)
  {
    hide L.WaveHistory, S.AfterRelease, SL.DispatchesAreCurrent;
    ReleaseChanges(s.sched, id);
    assert !Sim.IsApproved(s, id);
  }

  /** An evaluation that does not approve leaves the schedule alone; one that does releases the item. */
  lemma EvaluationReleases(c: Controller, completed: set<ItemId>, item: ItemId)
    requires Linked(c, completed) && item in c.active
    ensures Sim.AfterEvaluate(c.sim, item).Ok?
    ensures var (sim, decision) := Sim.AfterEvaluate(c.sim, item).value;
      && SL.Aligned(sim, completed)
      && sim.dispatched == c.sim.dispatched && sim.attempts == c.sim.attempts
      && sim.sched.dispatched == c.sim.sched.dispatched && sim.sched.cancelled == c.sim.sched.cancelled
      && sim.sched.released == c.sim.sched.released + (if decision.status.Approved? then {item} else {})
      && SameWaves(c.sim.sched.waves, sim.sched.waves)
  {
    hide SL.Mirrors, L.Consistent, Sim.AfterEvaluate;
    assert IsLive(c, item) && item in L.InFlight(c.sim.sched);
    SL.EvaluateMirrors(c.sim, item);
    SL.StepAligned(c.sim, completed, SL.Evaluate(item));
    ConsistentHistory(c.sim.sched, completed);
    SimEvaluation(c.sim, item);
  }

  lemma ConsistentHistory(s: S.Schedule, completed: set<ItemId>)
    requires L.Consistent(s, completed)
    ensures L.WaveHistory(s)
  {
  }

  lemma UndecidedKeeps(c: Controller, completed: set<ItemId>, revisions: seq<Revision>, item: ItemId,
                       decision: GateDecision, o: DeliveryObservation)
    requires Live(c, completed, revisions) && item in c.active
    ensures var t := Emit(RecordWaveState(c), GateEvent(c.active[item].run, decision, o));
      Live(t, completed, revisions) && t.active == c.active && t.sim == c.sim
  {
    hide Live, View;
    if c.sim.sched.currentWave.Some? {
      QuietKeeps(c, completed, revisions, ExecutionWaveStateChanged(c.sim.sched.currentWave.value.number, S.Released));
    }
    QuietKeeps(RecordWaveState(c), completed, revisions, GateEvent(c.active[item].run, decision, o));
  }

  /** The log side of an approval: the wave, the gate, the ticket, and the end of the attempt. */
  lemma SettleKeepsJournal(c: Controller, a: Account, item: ItemId, decision: GateDecision, o: DeliveryObservation)
    requires Journal(c.log, a) && item in c.active && item !in c.donePublished && item !in a.finished
    requires item in a.open && a.open[item] == c.active[item].run
    ensures var t := Settle(Emit(RecordWaveState(c), GateEvent(c.active[item].run, decision, o)), item);
      Journal(t.log, a.(finished := a.finished + {item}, open := a.open - {item}))
  {
    hide Journal;
    if c.sim.sched.currentWave.Some? {
      QuietEvent(c.log, a, ExecutionWaveStateChanged(c.sim.sched.currentWave.value.number, S.Released));
    }
    var t := RecordWaveState(c);
    QuietEvent(t.log, a, GateEvent(c.active[item].run, decision, o));
    var u := Emit(t, GateEvent(c.active[item].run, decision, o));
    TicketFinishes(u.log, a, item, Done);
    AttemptEnds(SetTicket(u, item, Done).log, a.(finished := a.finished + {item}), item, ReleasedAttempt);
  }

  lemma SettleShape(c: Controller, item: ItemId, decision: GateDecision, o: DeliveryObservation)
    requires item in c.active && item !in c.donePublished && item in c.attempts
    ensures var t := Settle(Emit(RecordWaveState(c), GateEvent(c.active[item].run, decision, o)), item);
      t == c.(log := t.log, active := c.active - {item}, donePublished := c.donePublished + {item},
              attempts := c.attempts[item := c.attempts[item].(state := ReleasedAttempt)])
  {
  }

  lemma SettleIsDue(c: Controller, completed: set<ItemId>, revisions: seq<Revision>, item: ItemId)
    requires Linked(c, completed) && item in c.active
    ensures var a := View(c, completed, revisions);
      && item !in c.donePublished && item !in a.finished && item !in completed && item in c.attempts
      && item in a.open && a.open[item] == c.active[item].run
  {
  }

  lemma SettledView(c: Controller, completed: set<ItemId>, revisions: seq<Revision>, item: ItemId, t: Controller)
    requires Linked(c, completed) && item in c.active && item !in completed
    requires t.active == c.active - {item} && t.prompts == c.prompts && t.sim.attempts == c.sim.attempts
    requires t.attempts.Keys == c.attempts.Keys && forall x :: x in c.attempts ==> t.attempts[x].run == c.attempts[x].run
    requires t.sim.sched.dispatched == c.sim.sched.dispatched && t.sim.sched.cancelled == c.sim.sched.cancelled
    requires t.sim.sched.released == c.sim.sched.released + {item}
    ensures var a := View(c, completed, revisions);
      View(t, completed, revisions)
      == a.(finished := a.finished + {item}, open := a.open - {item}, waves := t.sim.sched.waves)
  {
    hide SL.Aligned, IsLive;
    CancelledIsReleased(c, completed);
    assert item in L.InFlight(c.sim.sched);
    assert OpenRuns(t) == OpenRuns(c) - {item};
    assert t.sim.sched.released - completed == c.sim.sched.released - completed + {item};
  }

  lemma SettleKeeps(c: Controller, completed: set<ItemId>, revisions: seq<Revision>, item: ItemId,
                    sim: Sim.Sim, decision: GateDecision, o: DeliveryObservation)
    requires Live(c, completed, revisions) && item in c.active
    requires Sim.AfterEvaluate(c.sim, item) == Ok((sim, decision)) && decision.status.Approved?
    ensures Live(Settle(Emit(RecordWaveState(c.(sim := sim)), GateEvent(c.active[item].run, decision, o)), item),
                 completed, revisions)
  {
    hide Journal, Linked, View, Settle, RecordWaveState, Sim.AfterEvaluate;
    EvaluationReleases(c, completed, item);
    SettleIsDue(c, completed, revisions, item);
    var a, s := View(c, completed, revisions), c.(sim := sim);
    var t := Settle(Emit(RecordWaveState(s), GateEvent(c.active[item].run, decision, o)), item);
    SettleKeepsJournal(s, a, item, decision, o);
    SettleShape(s, item, decision, o);
    SettledView(c, completed, revisions, item, t);
    ViewShowsWaves(c, completed, revisions);
    WavesRestated(t.log, a.(finished := a.finished + {item}, open := a.open - {item}), sim.sched.waves);
    SettledLinks(c, completed, item, t);
  }

  lemma ViewShowsWaves(c: Controller, completed: set<ItemId>, revisions: seq<Revision>)
    ensures View(c, completed, revisions).waves == c.sim.sched.waves
  {
  }

  lemma ActiveIsNotCompleted(c: Controller, completed: set<ItemId>, item: ItemId)
    requires Linked(c, completed) && item in c.active
    ensures item !in completed
  {
  }

  lemma CancelledIsReleased(c: Controller, completed: set<ItemId>)
    requires Linked(c, completed)
    ensures c.sim.sched.cancelled <= c.sim.sched.released && c.sim.sched.cancelled !! c.sim.sched.dispatched
  {
  }

  /** An item that leaves the active set together with the in-flight set keeps the rest linked. */
  lemma SettledLinks(c: Controller, completed: set<ItemId>, item: ItemId, t: Controller)
    requires Linked(c, completed) && SL.Aligned(t.sim, completed) && item in c.active
    requires t.active == c.active - {item} && t.donePublished <= c.donePublished + {item}
    requires t.attempts.Keys == c.attempts.Keys
    requires forall x :: x in c.attempts ==>
      t.attempts[x] == if x == item then c.attempts[x].(state := t.attempts[x].state) else c.attempts[x]
    requires t.sim.dispatched == c.sim.dispatched && t.sim.sched.dispatched == c.sim.sched.dispatched
    requires t.sim.sched.released == c.sim.sched.released + {item} && t.sim.sched.cancelled == c.sim.sched.cancelled
    ensures Linked(t, completed)
  {
    hide SL.Aligned;
    forall x | x in t.active ensures IsLive(t, x) {
      assert IsLive(c, x);
    }
  }

  /** Judging an observation keeps the controller live, whatever the gate decides. */
  lemma JudgeKeeps(c: Controller, completed: set<ItemId>, revisions: seq<Revision>, item: ItemId, o: DeliveryObservation)
    requires Live(c, completed, revisions) && item in c.active
    ensures Judge(c, item, o).Ok? && Live(Judge(c, item, o).value.0, completed, revisions)
  {
    hide Journal, Linked, Settle, RaiseAttention, Sim.AfterObserve, Sim.AfterEvaluate, PublishReview, View;
    ObserveKeeps(c, completed, revisions, item, o);
    var observed := c.(sim := Sim.AfterObserve(c.sim, item, o).value);
    PublishReviewKeeps(observed, completed, revisions, item, o);
    var t := PublishReview(observed, item, o);
    EvaluationReleases(t, completed, item);
    var (sim, decision) := Sim.AfterEvaluate(t.sim, item).value;
    if decision.status.Approved? {
      SettleKeeps(t, completed, revisions, item, sim, decision, o);
    } else {
      SimChangeKeeps(t, completed, revisions, sim);
      UndecidedKeeps(t.(sim := sim), completed, revisions, item, decision, o);
      var u := Emit(RecordWaveState(t.(sim := sim)), GateEvent(c.active[item].run, decision, o));
      RaiseAttentionKeeps(u, completed, revisions, item);
    }
  }

  /** The revision a refill moves the base to, if it does. */
  function RefilledTo(c: Controller, nextBase: Option<Revision>): seq<Revision> {
    if nextBase.Some? && Sim.CanRefresh(c.sim) then [nextBase.value] else []
  }

  lemma RefillKeeps(c: Controller, completed: set<ItemId>, revisions: seq<Revision>, nextBase: Option<Revision>,
                    launcher: Launcher)
    requires Live(c, completed, revisions)
    ensures Live(Refill(c, nextBase, launcher).ctrl, completed, revisions + RefilledTo(c, nextBase))
  {
    hide Live, RefreshTargetBase, DispatchNextFrontier;
    if nextBase.Some? && Sim.CanRefresh(c.sim) {
      RefreshKeeps(c, completed, revisions, nextBase.value);
      NextFrontierKeeps(RefreshTargetBase(c, nextBase.value).ctrl, completed, revisions + [nextBase.value], launcher);
    } else {
      assert revisions + [] == revisions;
    }
  }

  // Retry and cancellation.

  lemma RetryChanges(s: Sim.Sim, completed: set<ItemId>, item: ItemId)
    requires SL.Aligned(s, completed) && item in s.sched.dispatched && item !in s.sched.released
    ensures Sim.AfterRetry(s, item).Ok?
    ensures var t := Sim.AfterRetry(s, item).value;
      && SL.Aligned(t, completed)
      && t.dispatched == s.dispatched - {item}
      && t.attempts == s.attempts[item := Sim.AttemptNumber(s.attempts, item) + 1]
      && t.sched.dispatched == s.sched.dispatched - {item}
      && t.sched.released == s.sched.released && t.sched.cancelled == s.sched.cancelled && item !in t.sched.cancelled
      && SameWaves(s.sched.waves, t.sched.waves)
  {
    hide SL.Mirrors, S.AfterRetry, L.Consistent;
    SL.StepAligned(s, completed, SL.Retry(item));
    RetryReturns(s.sched, completed, item);
  }

  lemma RetryReturns(s: S.Schedule, completed: set<ItemId>, item: ItemId)
    requires L.Consistent(s, completed) && item in s.dispatched && item !in s.released
    ensures S.AfterRetry(s, item).Ok?
    ensures var t := S.AfterRetry(s, item).value;
      && t.dispatched == s.dispatched - {item} && t.released == s.released && t.cancelled == s.cancelled
      && item !in t.cancelled && SameWaves(s.waves, t.waves)
  {
  }

  lemma CancelRemoves(s: S.Schedule, completed: set<ItemId>, item: ItemId)
    requires L.Consistent(s, completed) && item in s.dispatched
    ensures S.AfterCancel(s, item).Ok?
    ensures var t := S.AfterCancel(s, item).value;
      && t.dispatched == s.dispatched - {item} && t.released == s.released + {item}
      && t.cancelled == s.cancelled + {item} && SameWaves(s.waves, t.waves)
  {
  }

  lemma CancelChanges(s: Sim.Sim, completed: set<ItemId>, item: ItemId, reason: string)
    requires SL.Aligned(s, completed) && Sim.AfterCancel(s, item, reason).Ok?
    ensures var t := Sim.AfterCancel(s, item, reason).value;
      && SL.Aligned(t, completed)
      && t.dispatched == s.dispatched - {item} && t.attempts == s.attempts
      && t.sched.dispatched == s.sched.dispatched - {item}
      && t.sched.released == s.sched.released + {item} && t.sched.cancelled == s.sched.cancelled + {item}
      && SameWaves(s.sched.waves, t.sched.waves)
  {
    hide SL.Mirrors, S.AfterCancel, L.Consistent;
    SL.StepAligned(s, completed, SL.Cancel(item, reason));
    if item in s.sched.dispatched {
      CancelRemoves(s.sched, completed, item);
    } else {
      CancelNeedsDispatch(s.sched, item);
    }
  }

  lemma CancelNeedsDispatch(s: S.Schedule, item: ItemId)
    requires item !in s.dispatched
    ensures S.AfterCancel(s, item).Err?
  {
  }

  function Superseded(c: Controller, item: ItemId): Controller
    requires item in c.active && Sim.AfterRetry(c.sim, item).Ok?
  {
    Supersede(c, item).(sim := Sim.AfterRetry(c.sim, item).value)
  }

  /** The account after a retry: the run is closed, and the item may be issued one more attempt. */
  lemma SupersededView(c: Controller, completed: set<ItemId>, revisions: seq<Revision>, item: ItemId)
    requires Linked(c, completed) && item in c.active && Sim.AfterRetry(c.sim, item).Ok?
    ensures var a, t := View(c, completed, revisions), Superseded(c, item);
      && View(t, completed, revisions)
         == a.(open := a.open - {item}, attempts := t.sim.attempts,
               owned := t.sim.sched.dispatched + t.sim.sched.cancelled, waves := t.sim.sched.waves)
      && SameWaves(a.waves, t.sim.sched.waves)
      && forall x :: Issued(a, x) == Issued(View(t, completed, revisions), x)
  {
    hide SL.Aligned, Sim.AfterRetry;
    assert IsLive(c, item) && item in L.InFlight(c.sim.sched);
    RetryChanges(c.sim, completed, item);
    CancelledIsReleased(c, completed);
    assert OpenRuns(Superseded(c, item)) == OpenRuns(c) - {item};
  }

  lemma SupersedeKeepsJournal(c: Controller, completed: set<ItemId>, revisions: seq<Revision>, item: ItemId)
    requires Live(c, completed, revisions) && item in c.active && Sim.AfterRetry(c.sim, item).Ok?
    ensures Journal(Superseded(c, item).log, View(Superseded(c, item), completed, revisions))
  {
    hide Journal, SL.Aligned, Sim.AfterRetry, Superseded;
    assert IsLive(c, item);
    var a, t := View(c, completed, revisions), Superseded(c, item);
    var b := a.(open := a.open - {item});
    SupersededView(c, completed, revisions, item);
    SupersededLog(c, item);
    AttemptEnds(c.log, a, item, SupersededAttempt);
    WavesRestated(t.log, b, t.sim.sched.waves);
    IssuesRestated(t.log, b.(waves := t.sim.sched.waves), t.sim.attempts, t.sim.sched.dispatched + t.sim.sched.cancelled);
  }

  lemma SupersededLog(c: Controller, item: ItemId)
    requires item in c.active && Sim.AfterRetry(c.sim, item).Ok?
    ensures Superseded(c, item).log
            == Inserted(c.log, RowOf(WorkAttemptStateChanged(c.active[item].run, SupersededAttempt)))
  {
  }

  lemma SupersedeLinks(c: Controller, completed: set<ItemId>, item: ItemId)
    requires Linked(c, completed) && item in c.active && Sim.AfterRetry(c.sim, item).Ok?
    ensures Linked(Superseded(c, item), completed)
  {
    hide SL.Aligned, Sim.AfterRetry;
    assert IsLive(c, item) && item in L.InFlight(c.sim.sched);
    RetryChanges(c.sim, completed, item);
    var t := Superseded(c, item);
    forall x | x in t.active ensures IsLive(t, x) {
      assert IsLive(c, x);
    }
  }

  lemma RetryKeeps(c: Controller, completed: set<ItemId>, revisions: seq<Revision>, item: ItemId,
                   prompt: Option<string>, destroyed: Option<FailureCode>, launcher: Launcher)
    requires Live(c, completed, revisions)
    ensures Live(Retry(c, item, prompt, destroyed, launcher).ctrl, completed, revisions)
  {
    hide Journal, SL.Aligned, View, Sim.AfterRetry, DispatchReady, Supersede;
    if item in c.active {
      assert IsLive(c, item) && item in L.InFlight(c.sim.sched);
      if destroyed.Some? {
        QuietKeeps(c, completed, revisions, RetryFailed(c.active[item].run, destroyed.value)) by {
          assert IsQuiet(View(c, completed, revisions), RetryFailed(c.active[item].run, destroyed.value));
        }
      } else {
        RetryChanges(c.sim, completed, item);
        SupersedeKeepsJournal(c, completed, revisions, item);
        SupersedeLinks(c, completed, item);
        SupersedeKeepsSim(c, item);
        var t := Superseded(c, item);
        var next := if prompt.Some? then prompt else PromptFor(t.prompts, item);
        if next.Some? {
          DispatchKeeps(t, completed, revisions, [Prompt(item, next.value)], launcher);
        }
      }
    }
  }

  lemma SupersedeKeepsSim(c: Controller, item: ItemId)
    requires item in c.active
    ensures Supersede(c, item).sim == c.sim && Supersede(c, item).prompts == c.prompts
  {
  }

  lemma CancelKeeps(c: Controller, completed: set<ItemId>, revisions: seq<Revision>, item: ItemId, reason: string)
    requires Live(c, completed, revisions)
    ensures Live(CancelFromWave(c, item, reason).ctrl, completed, revisions)
  {
    hide Journal, SL.Aligned, Sim.AfterCancel;
    if item in c.active && Sim.AfterCancel(c.sim, item, reason).Ok? {
      assert IsLive(c, item) && item in L.InFlight(c.sim.sched);
      ActiveIsNotCompleted(c, completed, item);
      CancelChanges(c.sim, completed, item, reason);
      CancelKeepsJournal(c, completed, revisions, item, reason);
      var t := CancelFromWave(c, item, reason).ctrl;
      forall x | x in t.active ensures IsLive(t, x) {
        assert IsLive(c, x);
      }
    }
  }

  lemma CancelledView(c: Controller, completed: set<ItemId>, revisions: seq<Revision>, item: ItemId, reason: string)
    requires Linked(c, completed) && item in c.active && Sim.AfterCancel(c.sim, item, reason).Ok?
    ensures var a, t := View(c, completed, revisions), CancelFromWave(c, item, reason).ctrl;
      && View(t, completed, revisions) == a.(finished := a.finished + {item}, waves := t.sim.sched.waves)
      && SameWaves(a.waves, t.sim.sched.waves) && item !in a.finished
  {
    hide SL.Aligned, Sim.AfterCancel;
    assert IsLive(c, item) && item in L.InFlight(c.sim.sched);
    ActiveIsNotCompleted(c, completed, item);
    CancelChanges(c.sim, completed, item, reason);
    var t := CancelFromWave(c, item, reason).ctrl;
    assert t.active.Keys + t.sim.sched.cancelled == c.active.Keys + c.sim.sched.cancelled;
    assert OpenRuns(t) == OpenRuns(c);
  }

  lemma CancelKeepsJournal(c: Controller, completed: set<ItemId>, revisions: seq<Revision>, item: ItemId, reason: string)
    requires Live(c, completed, revisions) && item in c.active && Sim.AfterCancel(c.sim, item, reason).Ok?
    ensures var t := CancelFromWave(c, item, reason).ctrl; Journal(t.log, View(t, completed, revisions))
  {
    hide Journal, Linked, View, Sim.AfterCancel;
    var a, t := View(c, completed, revisions), CancelFromWave(c, item, reason).ctrl;
    CancelledView(c, completed, revisions, item, reason);
    TicketFinishes(c.log, a, item, CancelledTicket);
    var b, u := a.(finished := a.finished + {item}), SetTicket(c, item, CancelledTicket);
    QuietEvent(u.log, b, WaveItemCancelled(item, reason));
    WavesRestated(t.log, b, t.sim.sched.waves);
  }

  // Runs of the controller.

  datatype Action =
    | Dispatch(prompts: seq<Prompt>, launcher: Launcher)
    | Reconciling(item: ItemId, outcome: Outcome, nextBase: Option<Revision>, launcher: Launcher)
    | Refreshing(revision: Revision)
    | Retrying(item: ItemId, prompt: Option<string>, destroyed: Option<FailureCode>, launcher: Launcher)
    | Cancelling(item: ItemId, reason: string)
    | RuntimeFailure(item: ItemId, code: FailureCode)

  function Act(c: Controller, a: Action): Controller {
    match a
    case Dispatch(prompts, launcher) => DispatchReady(c, prompts, launcher).ctrl
    case Reconciling(item, outcome, nextBase, launcher) => Reconcile(c, item, outcome, nextBase, launcher).ctrl
    case Refreshing(revision) => RefreshTargetBase(c, revision).ctrl
    case Retrying(item, prompt, destroyed, launcher) => Retry(c, item, prompt, destroyed, launcher).ctrl
    case Cancelling(item, reason) => CancelFromWave(c, item, reason).ctrl
    case RuntimeFailure(item, code) => MarkRuntimeFailure(c, item, code)
  }

  /** The revision an action moves the base to, if it does. */
  function RefreshedTo(c: Controller, a: Action): seq<Revision> {
    match a
    case Refreshing(revision) => if Sim.CanRefresh(c.sim) then [revision] else []
    case Reconciling(item, outcome, nextBase, launcher) =>
      if item in c.active && outcome.Observed? then
        match Judge(c, item, outcome.observation)
        case Err(_) => []
        case Ok((t, decision)) => if decision.status.Approved? then RefilledTo(t, nextBase) else []
      else []
    case _ => []
  }

  /** Runtime failures are reported for items that are still being worked on. */
  predicate FailuresAreCurrent(c: Controller, a: Action) {
    a.RuntimeFailure? ==> a.item in c.active
  }

  lemma ReconcileKeeps(c: Controller, completed: set<ItemId>, revisions: seq<Revision>, a: Action)
    requires Live(c, completed, revisions) && a.Reconciling?
    ensures Live(Act(c, a), completed, revisions + RefreshedTo(c, a))
  {
    hide Journal, Linked, View, Judge, Refill, MarkRuntimeFailure;
    var Reconciling(item, outcome, nextBase, launcher) := a;
    assert revisions + [] == revisions;
    if item in c.active {
      ActiveIsUnfinished(c, completed, revisions, item);
      match outcome
      case AuthorityBroken(error) =>
        MarkFailureKeeps(c, completed, revisions, item, Operational("authority_violation"));
        QuietKeeps(MarkRuntimeFailure(c, item, Operational("authority_violation")), completed, revisions,
                   AuthorityViolated(item, error));
      case WorkspaceLost(code) =>
        QuietKeeps(c, completed, revisions, TicketStateChanged(item, NeedsAttention));
        var t := SetTicket(c, item, NeedsAttention);
        PublishingKeeps(t, completed, revisions, t.reviewPublished, t.attentionPublished + {item});
        QuietKeeps(t.(attentionPublished := c.attentionPublished + {item}), completed, revisions,
                   ReconciliationFailed(item, code));
      case ObservationFailed(code) => QuietKeeps(c, completed, revisions, ReconciliationFailed(item, code));
      case Observed(o) =>
        JudgeKeeps(c, completed, revisions, item, o);
        RefillKeeps(Judge(c, item, o).value.0, completed, revisions, nextBase, launcher);
    }
  }

  lemma ActiveIsUnfinished(c: Controller, completed: set<ItemId>, revisions: seq<Revision>, item: ItemId)
    requires Linked(c, completed) && item in c.active
    ensures item !in View(c, completed, revisions).finished && item !in c.sim.sched.released
  {
  }

  /** Every call keeps the controller and its log in step. */
  lemma ActKeeps(c: Controller, completed: set<ItemId>, revisions: seq<Revision>, a: Action)
    requires Live(c, completed, revisions) && FailuresAreCurrent(c, a)
    ensures Live(Act(c, a), completed, revisions + RefreshedTo(c, a))
  {
    hide Live, Judge, DispatchReady, Reconcile, Retry, CancelFromWave, MarkRuntimeFailure;
    assert revisions + [] == revisions;
    match a
    case Dispatch(prompts, launcher) => DispatchKeeps(c, completed, revisions, prompts, launcher);
    case Reconciling(_, _, _, _) => ReconcileKeeps(c, completed, revisions, a);
    case Refreshing(revision) =>
      if Sim.CanRefresh(c.sim) {
        RefreshKeeps(c, completed, revisions, revision);
      }
    case Retrying(item, prompt, destroyed, launcher) => RetryKeeps(c, completed, revisions, item, prompt, destroyed, launcher);
    case Cancelling(item, reason) => CancelKeeps(c, completed, revisions, item, reason);
    case RuntimeFailure(item, code) => RuntimeFailureKeeps(c, completed, revisions, item, code);
  }

  lemma RuntimeFailureKeeps(c: Controller, completed: set<ItemId>, revisions: seq<Revision>, item: ItemId, code: FailureCode)
    requires Live(c, completed, revisions) && item in c.active
    ensures Live(MarkRuntimeFailure(c, item, code), completed, revisions)
  {
    hide Journal, Linked, MarkRuntimeFailure;
    ActiveIsUnfinished(c, completed, revisions, item);
    MarkFailureKeeps(c, completed, revisions, item, code);
  }

  // A run, with the revisions its base has moved to.

  datatype Trace = Trace(ctrl: Controller, revisions: seq<Revision>)

  function Advance(t: Trace, a: Action): Trace {
    Trace(Act(t.ctrl, a), t.revisions + RefreshedTo(t.ctrl, a))
  }

  function Play(t: Trace, actions: seq<Action>): Trace
    decreases actions
  {
    if actions == [] then t else Play(Advance(t, actions[0]), actions[1..])
  }

  predicate RunsCurrently(t: Trace, actions: seq<Action>)
    decreases actions
  {
    actions == [] || (FailuresAreCurrent(t.ctrl, actions[0]) && RunsCurrently(Advance(t, actions[0]), actions[1..]))
  }

  lemma {:induction false} PlayKeeps(t: Trace, completed: set<ItemId>, actions: seq<Action>)
    requires Live(t.ctrl, completed, t.revisions) && RunsCurrently(t, actions)
    ensures Live(Play(t, actions).ctrl, completed, Play(t, actions).revisions)
    decreases actions
  {
    hide Live, Act, RefreshedTo;
    if actions != [] {
      ActKeeps(t.ctrl, completed, t.revisions, actions[0]);
      PlayKeeps(Advance(t, actions[0]), completed, actions[1..]);
    }
  }
}
