/** One call about one item leaves every other assignment alone, and only a retry moves attempt numbers. */
module AssignmentLaws {
  import opened Prelude
  import opened EventLogs
  import opened Gate
  import opened Projections
  import opened Controllers
  import opened ControllerLaws
  import J = Journals
  import Sim = Simulation
  import S = Scheduling
  import SL = SimulationLaws
  import L = SchedulingLaws

  /** The graph and the assignments other than the named items' are in place, unchanged. */
  ghost predicate LeavesOthers(c: Controller, t: Controller, items: set<ItemId>) {
    && t.sim.sched.graph == c.sim.sched.graph
    && forall other :: other in c.active && other !in items ==> other in t.active && t.active[other] == c.active[other]
  }

  ghost predicate SameNumbers(s: Sim.Sim, t: Sim.Sim) {
    t.attempts == s.attempts && t.sched.graph == s.sched.graph
  }

  lemma FrontierLeaves(c: Controller, completed: set<ItemId>, revisions: seq<Revision>, launcher: Launcher)
    requires Live(c, completed, revisions)
    ensures LeavesOthers(c, DispatchFrontier(c, launcher), {}) && SameNumbers(c.sim, DispatchFrontier(c, launcher).sim)
  {
    hide J.Journal, Linked, DispatchFrontier, S.Frontier;
    DispatchShape(c, launcher);
    FrontierIsFree(c, completed, revisions);
    NumbersAfterDispatch(c.sim);
  }

  lemma NumbersAfterDispatch(s: Sim.Sim)
    ensures SameNumbers(s, Sim.AfterDispatch(s))
  {
  }

  lemma DispatchLeaves(c: Controller, completed: set<ItemId>, revisions: seq<Revision>, prompts: seq<Prompt>,
                       launcher: Launcher)
    requires Live(c, completed, revisions)
    ensures var t := DispatchReady(c, prompts, launcher).ctrl; LeavesOthers(c, t, {}) && SameNumbers(c.sim, t.sim)
  {
    hide Live, StartFrontier, DispatchFrontier, PersistPrompts;
    PersistKeeps(c, completed, revisions, prompts);
    FrontierStarts(PersistPrompts(c, prompts).ctrl, completed, revisions, launcher);
    FrontierLeaves(PersistPrompts(c, prompts).ctrl, completed, revisions, launcher);
  }

  lemma NextFrontierLeaves(c: Controller, completed: set<ItemId>, revisions: seq<Revision>, launcher: Launcher)
    requires Live(c, completed, revisions)
    ensures var t := DispatchNextFrontier(c, launcher).ctrl; LeavesOthers(c, t, {}) && SameNumbers(c.sim, t.sim)
  {
    hide Live, DispatchReady;
    DispatchLeaves(c, completed, revisions, c.prompts, launcher);
  }

  lemma RefreshLeaves(c: Controller, revision: Revision)
    ensures var t := RefreshTargetBase(c, revision).ctrl; t.active == c.active && SameNumbers(c.sim, t.sim)
  {
  }

  lemma RefillLeaves(c: Controller, completed: set<ItemId>, revisions: seq<Revision>, nextBase: Option<Revision>,
                     launcher: Launcher)
    requires Live(c, completed, revisions)
    ensures var t := Refill(c, nextBase, launcher).ctrl; LeavesOthers(c, t, {}) && SameNumbers(c.sim, t.sim)
  {
    hide Live, RefreshTargetBase, DispatchNextFrontier;
    if nextBase.Some? && Sim.CanRefresh(c.sim) {
      RefreshKeeps(c, completed, revisions, nextBase.value);
      RefreshLeaves(c, nextBase.value);
      NextFrontierLeaves(RefreshTargetBase(c, nextBase.value).ctrl, completed, revisions + [nextBase.value], launcher);
    }
  }

  lemma JudgeLeaves(c: Controller, item: ItemId, o: DeliveryObservation)
    requires item in c.active && Judge(c, item, o).Ok?
    ensures var t := Judge(c, item, o).value.0; LeavesOthers(c, t, {item}) && SameNumbers(c.sim, t.sim)
  {
    hide Sim.AfterObserve, Sim.AfterEvaluate, Settle, RaiseAttention;
    ObserveKeepsNumbers(c.sim, item, o);
    var observed := Sim.AfterObserve(c.sim, item, o).value;
    EvaluateKeepsNumbers(observed, item);
    var t := PublishReview(c.(sim := observed), item, o);
    var (sim, decision) := Sim.AfterEvaluate(t.sim, item).value;
    SettleLeaves(Emit(RecordWaveState(t.(sim := sim)), GateEvent(c.active[item].run, decision, o)), item);
  }

  lemma SettleLeaves(c: Controller, item: ItemId)
    requires item in c.active
    ensures Settle(c, item).active == c.active - {item} && Settle(c, item).sim == c.sim
    ensures RaiseAttention(c, item).active == c.active && RaiseAttention(c, item).sim == c.sim
  {
  }

  lemma ObserveKeepsNumbers(s: Sim.Sim, item: ItemId, o: DeliveryObservation)
    ensures Sim.AfterObserve(s, item, o).Ok? ==> SameNumbers(s, Sim.AfterObserve(s, item, o).value)
  {
  }

  lemma EvaluateKeepsNumbers(s: Sim.Sim, item: ItemId)
    ensures Sim.AfterEvaluate(s, item).Ok? ==> SameNumbers(s, Sim.AfterEvaluate(s, item).value.0)
  {
  }

  lemma MarkLeaves(c: Controller, item: ItemId, code: FailureCode)
    ensures var t := MarkRuntimeFailure(c, item, code); t.active == c.active && t.sim == c.sim
  {
  }

  lemma ObservingLeaves(c: Controller, item: ItemId, events: seq<AgentEvent>, findings: Findings)
    ensures var t := ObserveRuntimeEvents(c, item, events, findings); t.active == c.active && t.sim == c.sim
  {
    hide MarkRuntimeFailure;
    var failure := FirstFailure(events, findings, 0);
    if failure.Some? {
      MarkLeaves(c, item, failure.value.code);
    }
  }

  lemma ReconcileLeaves(c: Controller, completed: set<ItemId>, revisions: seq<Revision>, item: ItemId, outcome: Outcome,
                        nextBase: Option<Revision>, launcher: Launcher)
    requires Live(c, completed, revisions)
    ensures var t := Reconcile(c, item, outcome, nextBase, launcher).ctrl;
      LeavesOthers(c, t, {item}) && SameNumbers(c.sim, t.sim)
  {
    hide Live, Judge, Refill, MarkRuntimeFailure;
    if item in c.active {
      MarkLeaves(c, item, Operational("authority_violation"));
      if outcome.Observed? {
        JudgeKeeps(c, completed, revisions, item, outcome.observation);
        JudgeLeaves(c, item, outcome.observation);
        RefillLeaves(Judge(c, item, outcome.observation).value.0, completed, revisions, nextBase, launcher);
      }
    }
  }

  /** A retry renumbers its own item, by one. */
  ghost predicate Renumbers(s: Sim.Sim, t: Sim.Sim, item: ItemId) {
    && t.sched.graph == s.sched.graph
    && t.attempts == s.attempts[item := Sim.AttemptNumber(s.attempts, item) + 1]
  }

  lemma SimRetryNumbers(s: Sim.Sim, item: ItemId)
    ensures Sim.AfterRetry(s, item).Ok? ==> Renumbers(s, Sim.AfterRetry(s, item).value, item)
  {
  }

  lemma RetryLeaves(c: Controller, completed: set<ItemId>, revisions: seq<Revision>, item: ItemId, prompt: Option<string>,
                    destroyed: Option<FailureCode>, launcher: Launcher)
    requires Live(c, completed, revisions)
    ensures var t := Retry(c, item, prompt, destroyed, launcher).ctrl;
      && LeavesOthers(c, t, {item})
      && (SameNumbers(c.sim, t.sim) || (item in c.active && Renumbers(c.sim, t.sim, item)))
  {
    hide Linked, J.Journal, View, DispatchReady, Sim.AfterRetry, Supersede;
    if item in c.active && destroyed.None? {
      RetryIsTaken(c, completed, revisions, item);
      SimRetryNumbers(c.sim, item);
      var t := Superseded(c, item);
      var next := if prompt.Some? then prompt else PromptFor(t.prompts, item);
      if next.Some? {
        DispatchLeaves(t, completed, revisions, [Prompt(item, next.value)], launcher);
      }
    }
  }

  /** The simulator accepts the retry of an active item, and the controller is live before it dispatches again. */
  lemma RetryIsTaken(c: Controller, completed: set<ItemId>, revisions: seq<Revision>, item: ItemId)
    requires Live(c, completed, revisions) && item in c.active
    ensures Sim.AfterRetry(c.sim, item).Ok? && Live(Superseded(c, item), completed, revisions)
    ensures Supersede(c, item).sim == c.sim && Superseded(c, item).active == c.active - {item}
    ensures Supersede(c, item).prompts == Superseded(c, item).prompts == c.prompts
  {
    hide J.Journal, SL.Aligned, View, Sim.AfterRetry;
    ActiveIsLive(c, completed, item);
    assert item in L.InFlight(c.sim.sched);
    RetryChanges(c.sim, completed, item);
    SupersedeKeepsJournal(c, completed, revisions, item);
    SupersedeLinks(c, completed, item);
  }

  lemma {:induction false} PromptForLater(known: seq<Prompt>, p: Prompt, item: ItemId)
    requires PromptFor(known, p.item).None?
    ensures PromptFor(known + [p], item) == if item == p.item then Some(p.text) else PromptFor(known, item)
  {
    if known != [] {
      assert (known + [p])[1..] == known[1..] + [p];
      PromptForLater(known[1..], p, item);
    }
  }

  /** Recording prompts raises exactly when one contradicts another or the record. */
  lemma {:induction false} PersistRaises(c: Controller, prompts: seq<Prompt>)
    ensures PersistPrompts(c, prompts).fault == if Agree(c.prompts, prompts) then None else Some(PromptChanged)
    decreases prompts
  {
    hide Emit;
    if prompts != [] {
      var p, rest := prompts[0], prompts[1..];
      var existing := PromptFor(c.prompts, p.item);
      assert forall i :: 0 <= i < |rest| ==> rest[i] == prompts[i + 1];
      if existing.None? || existing.value == p.text {
        var t := if existing.Some? then c else c.(prompts := c.prompts + [p]);
        PersistRaises(Emit(t, PromptSnapshotRecorded(p)), rest);
        EmitKeepsPrompts(t, PromptSnapshotRecorded(p));
        if existing.None? {
          forall item ensures PromptFor(t.prompts, item) == if item == p.item then Some(p.text) else PromptFor(c.prompts, item) {
            PromptForLater(c.prompts, p, item);
          }
        }
        AgreeStep(c.prompts, t.prompts, prompts);
      }
    }
  }

  lemma EmitKeepsPrompts(c: Controller, e: Event)
    ensures Emit(c, e).prompts == c.prompts
  {
  }

  lemma AgreeStep(known: seq<Prompt>, more: seq<Prompt>, prompts: seq<Prompt>)
    requires prompts != []
    requires var p := prompts[0];
      && (PromptFor(known, p.item).None? || PromptFor(known, p.item).value == p.text)
      && forall item :: PromptFor(more, item) == if item == p.item then Some(p.text) else PromptFor(known, item)
    ensures Agree(known, prompts) <==> Agree(more, prompts[1..])
  {
    var p, rest := prompts[0], prompts[1..];
    assert forall i :: 0 <= i < |rest| ==> rest[i] == prompts[i + 1];
    if Agree(more, rest) {
      forall i | 0 <= i < |prompts|
        ensures PromptFor(known, prompts[i].item).None? || PromptFor(known, prompts[i].item).value == prompts[i].text
        ensures prompts[i].item == p.item ==> prompts[i].text == p.text
      {
        if i > 0 {
          assert prompts[i] == rest[i - 1];
        }
      }
      forall i, j | 0 <= i < j < |prompts| && prompts[i].item == prompts[j].item ensures prompts[i].text == prompts[j].text {
        if i > 0 {
          assert prompts[i] == rest[i - 1] && prompts[j] == rest[j - 1];
        }
      }
    }
    if Agree(known, prompts) {
      forall i | 0 <= i < |rest|
        ensures PromptFor(more, rest[i].item).None? || PromptFor(more, rest[i].item).value == rest[i].text
      {
        assert rest[i] == prompts[i + 1];
      }
    }
  }

  /** What the caller of a dispatch can check first: every ready item has a prompt and passes, and no prompt changed. */
  predicate CanDispatch(c: Controller, prompts: seq<Prompt>, launcher: Launcher) {
    var items := S.Frontier(c.sim.sched);
    HasPrompts(prompts, items) && Admitted(launcher, items) && Agree(c.prompts, prompts)
  }

  /** A dispatch raises exactly when one of the caller's checks fails, and otherwise starts the frontier. */
  lemma DispatchStarts(c: Controller, completed: set<ItemId>, revisions: seq<Revision>, prompts: seq<Prompt>,
                       launcher: Launcher, item: ItemId)
    requires Live(c, completed, revisions) && item !in c.active
    ensures var r := DispatchReady(c, prompts, launcher);
      && (r.fault.None? <==> CanDispatch(c, prompts, launcher))
      && (item in r.ctrl.active <==> r.fault.None? && item in S.Frontier(c.sim.sched))
      && (item in r.ctrl.active ==> r.ctrl.active[item].run == RunNow(c.sim, item))
  {
    hide Live, StartFrontier, DispatchFrontier, PersistPrompts, S.Frontier, HasPrompts, Admitted, Agree;
    PersistKeeps(c, completed, revisions, prompts);
    PersistRaises(c, prompts);
    FrontierStarts(PersistPrompts(c, prompts).ctrl, completed, revisions, launcher);
    DispatchShape(PersistPrompts(c, prompts).ctrl, launcher);
  }

  /**
   * What the caller of a retry can check first: a prompt that was not changed, no other item waiting to start, and a
   * template that passes if the item can start.
   */
  predicate CanRetry(c: Controller, item: ItemId, prompt: Option<string>, launcher: Launcher) {
    var known := PromptFor(c.prompts, item);
    && (prompt.Some? || known.Some?)
    && (prompt.Some? && known.Some? ==> prompt == known)
    && Sim.AfterRetry(c.sim, item).Ok?
    && Elems(S.Frontier(Sim.AfterRetry(c.sim, item).value.sched)) <= {item}
    && Admitted(launcher, S.Frontier(Sim.AfterRetry(c.sim, item).value.sched))
  }

  /**
   * What a retry achieves: it raises exactly when the caller's checks fail, and then leaves the item without an
   * attempt. Otherwise the next attempt from the current base replaces the old one, unless others are on the
   * item's barrier wave; the item then waits.
   */
  lemma RetryReplaces(c: Controller, completed: set<ItemId>, revisions: seq<Revision>, item: ItemId, prompt: Option<string>,
                      launcher: Launcher)
    requires Live(c, completed, revisions) && item in c.active
    ensures var r, s := Retry(c, item, prompt, None, launcher), c.sim.sched;
      && (r.fault.None? <==> CanRetry(c, item, prompt, launcher))
      && (item in r.ctrl.active <==>
            CanRetry(c, item, prompt, launcher) && (s.policy.ContinuousFrontier? || s.activeWave == {item}))
      && (item in r.ctrl.active ==> r.ctrl.active[item].run == RunId(item, s.base, c.active[item].run.attempt + 1))
  {
    hide J.Journal, Linked, View, DispatchReady, Sim.AfterRetry, Supersede, S.Frontier, HasPrompts, Admitted, Agree;
    RetryIsTaken(c, completed, revisions, item);
    RetriedSchedule(c, completed, item);
    var t := Superseded(c, item);
    var next := if prompt.Some? then prompt else PromptFor(t.prompts, item);
    if next.Some? {
      DispatchStarts(t, completed, revisions, [Prompt(item, next.value)], launcher, item);
      OnePrompt(t.prompts, Prompt(item, next.value), S.Frontier(t.sim.sched));
    }
  }

  /** Once the workspace is gone a retry ends unchanged, superseded, or dispatched again. */
  lemma RetryCases(c: Controller, item: ItemId, prompt: Option<string>, launcher: Launcher)
    requires item in c.active && Sim.AfterRetry(c.sim, item).Ok?
    ensures var t, r := Superseded(c, item), Retry(c, item, prompt, None, launcher).ctrl;
      var next := if prompt.Some? then prompt else PromptFor(t.prompts, item);
      r == c || r == t || (next.Some? && r == DispatchReady(t, [Prompt(item, next.value)], launcher).ctrl)
  {
    hide DispatchReady, Sim.AfterRetry;
  }

  lemma OnePrompt(known: seq<Prompt>, p: Prompt, items: seq<ItemId>)
    ensures HasPrompts([p], items) <==> Elems(items) <= {p.item}
    ensures Agree(known, [p]) <==> PromptFor(known, p.item).None? || PromptFor(known, p.item).value == p.text
  {
    if Elems(items) <= {p.item} {
      assert forall i :: 0 <= i < |items| ==> items[i] in Elems(items);
    }
    assert forall item :: PromptFor([p], item) == if item == p.item then Some(p.text) else None;
    if Agree(known, [p]) {
      assert [p][0] == p;
    }
  }

  lemma RetriedSchedule(c: Controller, completed: set<ItemId>, item: ItemId)
    requires Linked(c, completed) && item in c.active && Sim.AfterRetry(c.sim, item).Ok?
    ensures var t, s := Sim.AfterRetry(c.sim, item).value, c.sim.sched;
      && (item in S.Frontier(t.sched) <==> s.policy.ContinuousFrontier? || s.activeWave == {item})
      && RunNow(t, item) == RunId(item, s.base, c.active[item].run.attempt + 1)
      && c.attempts[item].run == c.active[item].run && !c.attempts[item].state.ReleasedAttempt?
  {
    hide L.Consistent, S.Frontier, SL.SameOwnership, SL.ReleasedMeansApproved;
    ActiveIsLive(c, completed, item);
    assert item in L.InFlight(c.sim.sched);
    L.RetriedIsReady(c.sim.sched, completed, item);
    SimRetryNumbers(c.sim, item);
  }

  lemma CancelLeaves(c: Controller, item: ItemId, reason: string)
    ensures SameNumbers(c.sim, CancelFromWave(c, item, reason).ctrl.sim)
  {
    hide S.AfterCancel;
    CancelKeepsGraph(c.sim.sched, item);
  }

  lemma CancelKeepsGraph(s: S.Schedule, item: ItemId)
    ensures S.AfterCancel(s, item).Ok? ==> S.AfterCancel(s, item).value.graph == s.graph
  {
  }

  // Runs never come back.

  /** The log only grew, and an assignment is the old one or a run the old log did not know. */
  ghost predicate Succeeds(c: Controller, t: Controller) {
    && c.log <= t.log
    && forall item :: item in t.active ==>
         || (item in c.active && t.active[item].run == c.active[item].run)
         || !HasKey(c.log, AttemptKey(t.active[item].run))
  }

  lemma PrefixKeys(a: seq<Row<Key, Event>>, b: seq<Row<Key, Event>>, key: Key)
    requires a <= b && HasKey(a, key)
    ensures HasKey(b, key)
  {
  }

  lemma SucceedsTwice(c: Controller, t: Controller, u: Controller)
    requires Succeeds(c, t) && Succeeds(t, u)
    ensures Succeeds(c, u)
  {
  }

  lemma EmitSucceeds(c: Controller, e: Event)
    ensures Succeeds(c, Emit(c, e))
  {
  }

  lemma {:induction false} PersistSucceeds(c: Controller, prompts: seq<Prompt>)
    ensures Succeeds(c, PersistPrompts(c, prompts).ctrl)
    decreases prompts
  {
    hide HasKey;
    if prompts != [] {
      var p := prompts[0];
      var t := if PromptFor(c.prompts, p.item).Some? then c else c.(prompts := c.prompts + [p]);
      var u := Emit(t, PromptSnapshotRecorded(p));
      EmitSucceeds(t, PromptSnapshotRecorded(p));
      PersistSucceeds(u, prompts[1..]);
      SucceedsTwice(c, u, PersistPrompts(u, prompts[1..]).ctrl);
    }
  }

  lemma {:induction false} StartAllGrows(c: Controller, ds: seq<Dispatch>, launcher: Launcher)
    ensures c.log <= StartAll(c, ds, launcher).log
  {
    if ds != [] {
      StartAllGrows(c, ds[..|ds| - 1], launcher);
    }
  }

  lemma FrontierSucceeds(c: Controller, completed: set<ItemId>, revisions: seq<Revision>, launcher: Launcher)
    requires Live(c, completed, revisions)
    ensures Succeeds(c, DispatchFrontier(c, launcher))
  {
    hide Linked, J.Journal, S.Frontier, Sim.AfterDispatch, DispatchFrontier, OpenRuns, HasKey;
    var t, items, a := DispatchFrontier(c, launcher), S.Frontier(c.sim.sched), View(c, completed, revisions);
    DispatchShape(c, launcher);
    FrontierIsFree(c, completed, revisions);
    FrontierGrows(c, launcher);
    forall item | item in items ensures !HasKey(c.log, AttemptKey(RunNow(c.sim, item))) {
      AssignedItem(c.sim, item);
      assert item in Elems(items);
      J.NextRunIsFresh(c.log, a, RunNow(c.sim, item));
    }
  }

  lemma FrontierGrows(c: Controller, launcher: Launcher)
    ensures c.log <= DispatchFrontier(c, launcher).log
  {
    StartAllGrows(c.(sim := Sim.AfterDispatch(c.sim)), Sim.Preview(c.sim), launcher);
  }

  lemma DispatchSucceeds(c: Controller, completed: set<ItemId>, revisions: seq<Revision>, prompts: seq<Prompt>,
                         launcher: Launcher)
    requires Live(c, completed, revisions)
    ensures Succeeds(c, DispatchReady(c, prompts, launcher).ctrl)
  {
    hide Live, StartFrontier, DispatchFrontier, PersistPrompts, Succeeds;
    assert Succeeds(c, c) by {
      SucceedsItself(c);
    }
    PersistKeeps(c, completed, revisions, prompts);
    PersistSucceeds(c, prompts);
    var t := PersistPrompts(c, prompts).ctrl;
    FrontierStarts(t, completed, revisions, launcher);
    FrontierSucceeds(t, completed, revisions, launcher);
    SucceedsTwice(c, t, DispatchFrontier(t, launcher));
  }

  lemma SucceedsItself(c: Controller)
    ensures Succeeds(c, c)
  {
  }

  lemma NextFrontierSucceeds(c: Controller, completed: set<ItemId>, revisions: seq<Revision>, launcher: Launcher)
    requires Live(c, completed, revisions)
    ensures Succeeds(c, DispatchNextFrontier(c, launcher).ctrl)
  {
    hide Live, DispatchReady, Succeeds;
    SucceedsItself(c);
    EmitSucceeds(c, FrontierWaitingForPrompts(S.Frontier(c.sim.sched)));
    DispatchSucceeds(c, completed, revisions, c.prompts, launcher);
  }

  lemma RefreshSucceeds(c: Controller, revision: Revision)
    ensures Succeeds(c, RefreshTargetBase(c, revision).ctrl)
  {
  }

  lemma RefillSucceeds(c: Controller, completed: set<ItemId>, revisions: seq<Revision>, nextBase: Option<Revision>,
                       launcher: Launcher)
    requires Live(c, completed, revisions)
    ensures Succeeds(c, Refill(c, nextBase, launcher).ctrl)
  {
    hide Live, RefreshTargetBase, DispatchNextFrontier, Succeeds;
    SucceedsItself(c);
    if nextBase.Some? && Sim.CanRefresh(c.sim) {
      RefreshKeeps(c, completed, revisions, nextBase.value);
      RefreshSucceeds(c, nextBase.value);
      var t := RefreshTargetBase(c, nextBase.value).ctrl;
      NextFrontierSucceeds(t, completed, revisions + [nextBase.value], launcher);
      SucceedsTwice(c, t, DispatchNextFrontier(t, launcher).ctrl);
    }
  }

  /** Emitting and dropping assignments, in any number of steps. */
  ghost predicate Shrinks(c: Controller, t: Controller) {
    && c.log <= t.log
    && forall item :: item in t.active ==> item in c.active && t.active[item] == c.active[item]
  }

  lemma MarkShrinks(c: Controller, item: ItemId, code: FailureCode)
    ensures Shrinks(c, MarkRuntimeFailure(c, item, code))
  {
  }

  lemma SettleShrinks(c: Controller, item: ItemId)
    requires item in c.active
    ensures Shrinks(c, Settle(c, item)) && Shrinks(c, RaiseAttention(c, item))
  {
    hide HasKey;
  }

  lemma JudgeShrinks(c: Controller, item: ItemId, o: DeliveryObservation)
    requires item in c.active && Judge(c, item, o).Ok?
    ensures Shrinks(c, Judge(c, item, o).value.0)
  {
    hide HasKey, Settle, RaiseAttention, Sim.AfterObserve, Sim.AfterEvaluate;
    var t := PublishReview(c.(sim := Sim.AfterObserve(c.sim, item, o).value), item, o);
    var (sim, decision) := Sim.AfterEvaluate(t.sim, item).value;
    SettleShrinks(Emit(RecordWaveState(t.(sim := sim)), GateEvent(c.active[item].run, decision, o)), item);
  }

  lemma SupersedeShrinks(c: Controller, item: ItemId)
    requires item in c.active
    ensures Shrinks(c, Supersede(c, item))
  {
  }

  lemma CancelShrinks(c: Controller, item: ItemId, reason: string)
    ensures Shrinks(c, CancelFromWave(c, item, reason).ctrl)
  {
  }

  lemma ReconcileSucceeds(c: Controller, completed: set<ItemId>, revisions: seq<Revision>, item: ItemId, outcome: Outcome,
                          nextBase: Option<Revision>, launcher: Launcher)
    requires Live(c, completed, revisions)
    ensures Succeeds(c, Reconcile(c, item, outcome, nextBase, launcher).ctrl)
  {
    hide Live, Judge, Refill, MarkRuntimeFailure, HasKey;
    if item in c.active {
      MarkShrinks(c, item, Operational("authority_violation"));
      if outcome.Observed? {
        JudgeKeeps(c, completed, revisions, item, outcome.observation);
        JudgeShrinks(c, item, outcome.observation);
        var t := Judge(c, item, outcome.observation).value.0;
        RefillSucceeds(t, completed, revisions, nextBase, launcher);
        SucceedsTwice(c, t, Refill(t, nextBase, launcher).ctrl);
      }
    }
  }

  lemma RetrySucceeds(c: Controller, completed: set<ItemId>, revisions: seq<Revision>, item: ItemId, prompt: Option<string>,
                      destroyed: Option<FailureCode>, launcher: Launcher)
    requires Live(c, completed, revisions)
    ensures Succeeds(c, Retry(c, item, prompt, destroyed, launcher).ctrl)
  {
    hide Linked, J.Journal, View, DispatchReady, Sim.AfterRetry, Supersede, HasKey;
    if item in c.active && destroyed.None? {
      RetryIsTaken(c, completed, revisions, item);
      SupersedeShrinks(c, item);
      var t := Superseded(c, item);
      var next := if prompt.Some? then prompt else PromptFor(t.prompts, item);
      if next.Some? {
        DispatchSucceeds(t, completed, revisions, [Prompt(item, next.value)], launcher);
        SucceedsTwice(c, t, DispatchReady(t, [Prompt(item, next.value)], launcher).ctrl);
      }
    }
  }

  lemma ObservingSucceeds(c: Controller, item: ItemId, events: seq<AgentEvent>, findings: Findings)
    ensures Succeeds(c, ObserveRuntimeEvents(c, item, events, findings))
  {
    hide MarkRuntimeFailure, HasKey;
    var failure := FirstFailure(events, findings, 0);
    if failure.Some? {
      MarkShrinks(c, item, failure.value.code);
    }
  }

  /** A run that ended never comes back: every call's assignments are old ones or runs never seen before. */
  lemma RunsNeverReturn(c: Controller, completed: set<ItemId>, revisions: seq<Revision>, a: Action)
    requires Live(c, completed, revisions)
    ensures Succeeds(c, Act(c, a))
  {
    hide Live, Succeeds, DispatchReady, Reconcile, Retry, CancelFromWave, MarkRuntimeFailure, RefreshTargetBase;
    match a
    case Dispatch(prompts, launcher) => DispatchSucceeds(c, completed, revisions, prompts, launcher);
    case Reconciling(item, outcome, nextBase, launcher) =>
      ReconcileSucceeds(c, completed, revisions, item, outcome, nextBase, launcher);
    case Refreshing(revision) => RefreshSucceeds(c, revision);
    case Retrying(item, prompt, destroyed, launcher) =>
      RetrySucceeds(c, completed, revisions, item, prompt, destroyed, launcher);
    case Cancelling(item, reason) =>
      CancelShrinks(c, item, reason);
      ShrinkingSucceeds(c, CancelFromWave(c, item, reason).ctrl);
    case RuntimeFailure(item, code) =>
      MarkShrinks(c, item, code);
      ShrinkingSucceeds(c, MarkRuntimeFailure(c, item, code));
  }

  lemma ShrinkingSucceeds(c: Controller, t: Controller)
    requires Shrinks(c, t)
    ensures Succeeds(c, t)
  {
  }
}
