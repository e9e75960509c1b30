/** What the tracker is told: every state an item has reached is on record, and what the log makes of it. */
module TicketLaws {
  import opened Prelude
  import opened EventLogs
  import opened Gate
  import opened Projections
  import opened Controllers
  import opened ControllerLaws
  import opened AssignmentLaws
  import Sim = Simulation
  import S = Scheduling
  import L = SchedulingLaws
  import J = Journals
  import R = Restarts
  import G = DependencyGraphs

  function TicketKey(item: ItemId, ticket: TicketState): Key {
    FactKey(TicketStateChanged(item, ticket))
  }

  ghost predicate Recorded(rows: seq<Row<Key, Event>>, items: set<ItemId>, ticket: TicketState) {
    forall item :: item in items ==> HasKey(rows, TicketKey(item, ticket))
  }

  /** Whatever is in progress, in review, in need of attention, done or cancelled was reported as such. */
  ghost predicate IsReported(c: Controller) {
    && Recorded(c.log, c.active.Keys, InProgress)
    && Recorded(c.log, c.reviewPublished, InReview)
    && Recorded(c.log, c.attentionPublished, NeedsAttention)
    && Recorded(c.log, c.donePublished, Done)
    && Recorded(c.log, c.sim.sched.cancelled, CancelledTicket)
  }

  /** A seen pull request is in review, a blocked decision needs attention, an approval is done. */
  ghost predicate FollowsEvidence(c: Controller) {
    && (forall item :: item in c.active && item in c.sim.observations && c.sim.observations[item].prHeadSha != ""
          ==> item in c.reviewPublished)
    && (forall item :: item in c.active && item in c.sim.decisions && c.sim.decisions[item].status.Blocked?
          ==> item in c.attentionPublished)
    && (forall item :: item in c.sim.dispatched && Sim.IsApproved(c.sim, item) ==> item in c.donePublished)
  }

  ghost predicate Told(c: Controller) {
    IsReported(c) && FollowsEvidence(c)
  }

  lemma RecordedPersists(rows: seq<Row<Key, Event>>, more: seq<Row<Key, Event>>, items: set<ItemId>, ticket: TicketState)
    requires Recorded(rows, items, ticket) && rows <= more
    ensures Recorded(more, items, ticket)
  {
    forall item | item in items ensures HasKey(more, TicketKey(item, ticket)) {
      PrefixKeys(rows, more, TicketKey(item, ticket));
    }
  }

  lemma ReportsPersist(c: Controller, more: seq<Row<Key, Event>>)
    requires IsReported(c) && c.log <= more
    ensures IsReported(c.(log := more))
  {
    hide Recorded;
    RecordedPersists(c.log, more, c.active.Keys, InProgress);
    RecordedPersists(c.log, more, c.reviewPublished, InReview);
    RecordedPersists(c.log, more, c.attentionPublished, NeedsAttention);
    RecordedPersists(c.log, more, c.donePublished, Done);
    RecordedPersists(c.log, more, c.sim.sched.cancelled, CancelledTicket);
  }

  lemma LogGrowthTells(c: Controller, more: seq<Row<Key, Event>>)
    requires Told(c) && c.log <= more
    ensures Told(c.(log := more))
  {
    hide IsReported;
    ReportsPersist(c, more);
  }

  lemma EmitTells(c: Controller, e: Event)
    requires Told(c)
    ensures Told(Emit(c, e))
  {
    hide Told, HasKey;
    LogGrowthTells(c, Inserted(c.log, RowOf(e)));
  }

  /** Setting a ticket records it. */
  lemma TicketIsRecorded(c: Controller, item: ItemId, ticket: TicketState)
    ensures c.log <= SetTicket(c, item, ticket).log && HasKey(SetTicket(c, item, ticket).log, TicketKey(item, ticket))
  {
    KeysAfterInsert(c.log, RowOf(TicketStateChanged(item, ticket)));
  }

  lemma NoteAttentionTells(c: Controller, item: ItemId)
    requires Told(c)
    ensures Told(NoteAttention(c, item)) && item in NoteAttention(c, item).attentionPublished
  {
    hide HasKey, Emit;
    TicketIsRecorded(c, item, NeedsAttention);
    LogGrowthTells(c, SetTicket(c, item, NeedsAttention).log);
    SetTicketKeepsRest(c, item, NeedsAttention);
  }

  lemma SetTicketKeepsRest(c: Controller, item: ItemId, ticket: TicketState)
    ensures SetTicket(c, item, ticket) == c.(log := SetTicket(c, item, ticket).log)
  {
  }

  lemma SetAttemptTells(c: Controller, item: ItemId, state: AttemptState)
    requires Told(c)
    ensures Told(SetAttempt(c, item, state))
  {
  }

  lemma MarkTells(c: Controller, item: ItemId, code: FailureCode)
    requires Told(c)
    ensures Told(MarkRuntimeFailure(c, item, code)) && item in MarkRuntimeFailure(c, item, code).attentionPublished
  {
    hide Told, NoteAttention, HasKey;
    NoteAttentionTells(c, item);
    var t := NoteAttention(c, item);
    SetAttemptTells(t, item, AttentionNeeded);
    var u := SetAttempt(t, item, AttentionNeeded);
    if item in u.attempts && item in u.active {
      EmitTells(u, WorkAttemptStateChanged(u.active[item].run, AttentionNeeded));
      EmitTells(Emit(u, WorkAttemptStateChanged(u.active[item].run, AttentionNeeded)), RuntimeFailed(item, code));
    } else {
      EmitTells(u, RuntimeFailed(item, code));
    }
  }

  // Dispatching.

  lemma {:induction false} StartAllRecords(c: Controller, ds: seq<Dispatch>, launcher: Launcher)
    ensures forall i :: 0 <= i < |ds| ==> HasKey(StartAll(c, ds, launcher).log, TicketKey(ds[i].item, InProgress))
  {
    hide HasKey, StartAttempt;
    if ds != [] {
      var init, d := ds[..|ds| - 1], ds[|ds| - 1];
      StartAllRecords(c, init, launcher);
      var t := StartAll(c, init, launcher);
      StartRecords(t, d, launcher.create(d.item, d.attempt));
      forall i | 0 <= i < |ds| ensures HasKey(StartAll(c, ds, launcher).log, TicketKey(ds[i].item, InProgress)) {
        if i < |init| {
          assert init[i] == ds[i];
          PrefixKeys(t.log, StartAll(c, ds, launcher).log, TicketKey(ds[i].item, InProgress));
        }
      }
    }
  }

  lemma StartRecords(c: Controller, d: Dispatch, workspace: Workspace)
    ensures c.log <= StartAttempt(c, d, workspace).log
    ensures HasKey(StartAttempt(c, d, workspace).log, TicketKey(d.item, InProgress))
  {
    hide HasKey;
    TicketIsRecorded(c, d.item, InProgress);
    StartOne(c, d, workspace);
    PrefixKeys(SetTicket(c, d.item, InProgress).log, StartAttempt(c, d, workspace).log, TicketKey(d.item, InProgress));
  }

  lemma FrontierRecords(c: Controller, launcher: Launcher, item: ItemId)
    requires item in S.Frontier(c.sim.sched)
    ensures HasKey(DispatchFrontier(c, launcher).log, TicketKey(item, InProgress))
  {
    hide HasKey, S.Frontier, Sim.Assigned;
    var ds, d := Sim.Preview(c.sim), c.(sim := Sim.AfterDispatch(c.sim));
    var i := IndexOf(S.Frontier(c.sim.sched), item);
    AssignedItem(c.sim, item);
    StartAllRecords(d, ds, launcher);
    assert ds[i].item == item;
    PrefixKeys(StartAll(d, ds, launcher).log, DispatchFrontier(c, launcher).log, TicketKey(item, InProgress));
  }

  lemma FrontierIsReported(c: Controller, launcher: Launcher)
    requires IsReported(c)
    ensures IsReported(DispatchFrontier(c, launcher))
  {
    hide DispatchFrontier, S.Frontier, Sim.AfterDispatch, HasKey;
    var t, items := DispatchFrontier(c, launcher), S.Frontier(c.sim.sched);
    DispatchShape(c, launcher);
    FrontierGrows(c, launcher);
    ReportsPersist(c, t.log);
    DispatchKeepsEvidence(c.sim);
    forall item | item in t.active ensures HasKey(t.log, TicketKey(item, InProgress)) {
      if item in items {
        FrontierRecords(c, launcher, item);
      }
    }
  }

  lemma FrontierTells(c: Controller, completed: set<ItemId>, revisions: seq<Revision>, launcher: Launcher)
    requires Live(c, completed, revisions) && Told(c)
    ensures Told(DispatchFrontier(c, launcher))
  {
    hide Live, IsReported, DispatchFrontier, S.Frontier, Sim.AfterDispatch;
    FrontierIsReported(c, launcher);
    DispatchShape(c, launcher);
    FrontierIsUnseen(c, completed, revisions);
    DispatchKeepsEvidence(c.sim);
  }

  lemma FrontierIsUnseen(c: Controller, completed: set<ItemId>, revisions: seq<Revision>)
    requires Live(c, completed, revisions)
    ensures forall item :: item in S.Frontier(c.sim.sched) ==> item !in c.sim.observations && item !in c.sim.decisions
  {
    hide J.Journal, L.Consistent;
    L.FrontierItems(c.sim.sched);
  }

  lemma DispatchKeepsEvidence(s: Sim.Sim)
    ensures var t := Sim.AfterDispatch(s);
      && t.observations == s.observations && t.decisions == s.decisions && t.sched.cancelled == s.sched.cancelled
      && t.dispatched == WithAll(s.dispatched, S.Frontier(s.sched), Sim.Assigner(s))
  {
  }

  lemma {:induction false} PersistTells(c: Controller, prompts: seq<Prompt>)
    requires Told(c)
    ensures Told(PersistPrompts(c, prompts).ctrl)
    decreases prompts
  {
    hide Told, HasKey;
    if prompts != [] {
      var p := prompts[0];
      var t := if PromptFor(c.prompts, p.item).Some? then c else c.(prompts := c.prompts + [p]);
      assert Told(t) by {
        PromptsTellNothing(c, t.prompts);
      }
      EmitTells(t, PromptSnapshotRecorded(p));
      PersistTells(Emit(t, PromptSnapshotRecorded(p)), prompts[1..]);
    }
  }

  lemma PromptsTellNothing(c: Controller, prompts: seq<Prompt>)
    requires Told(c)
    ensures Told(c.(prompts := prompts))
  {
  }

  lemma DispatchTells(c: Controller, completed: set<ItemId>, revisions: seq<Revision>, prompts: seq<Prompt>, launcher: Launcher)
    requires Live(c, completed, revisions) && Told(c)
    ensures Told(DispatchReady(c, prompts, launcher).ctrl)
  {
    hide Live, StartFrontier, DispatchFrontier, PersistPrompts, Told;
    PersistKeeps(c, completed, revisions, prompts);
    FrontierStarts(PersistPrompts(c, prompts).ctrl, completed, revisions, launcher);
    PersistTells(c, prompts);
    FrontierTells(PersistPrompts(c, prompts).ctrl, completed, revisions, launcher);
  }

  lemma NextFrontierTells(c: Controller, completed: set<ItemId>, revisions: seq<Revision>, launcher: Launcher)
    requires Live(c, completed, revisions) && Told(c)
    ensures Told(DispatchNextFrontier(c, launcher).ctrl)
  {
    hide Live, DispatchReady, Told;
    EmitTells(c, FrontierWaitingForPrompts(S.Frontier(c.sim.sched)));
    DispatchTells(c, completed, revisions, c.prompts, launcher);
  }

  lemma RefreshTells(c: Controller, revision: Revision)
    requires Told(c)
    ensures Told(RefreshTargetBase(c, revision).ctrl)
  {
    hide IsReported, HasKey;
    if Sim.AfterRefresh(c.sim, revision).Ok? {
      var t := c.(sim := Sim.AfterRefresh(c.sim, revision).value);
      RefreshKeepsEvidence(c.sim, revision);
      assert IsReported(t) by {
        SimTellsCancelled(c, t.sim);
      }
      EmitTells(t, BaseRevisionRefreshed(revision));
    }
  }

  lemma RefreshKeepsEvidence(s: Sim.Sim, revision: Revision)
    requires Sim.AfterRefresh(s, revision).Ok?
    ensures var t := Sim.AfterRefresh(s, revision).value;
      && t.observations == s.observations && t.decisions == s.decisions && t.dispatched == s.dispatched
      && t.sched.cancelled == s.sched.cancelled
  {
  }

  lemma SimTellsCancelled(c: Controller, sim: Sim.Sim)
    requires IsReported(c) && sim.sched.cancelled == c.sim.sched.cancelled
    ensures IsReported(c.(sim := sim))
  {
  }

  lemma RefillTells(c: Controller, completed: set<ItemId>, revisions: seq<Revision>, nextBase: Option<Revision>,
                    launcher: Launcher)
    requires Live(c, completed, revisions) && Told(c)
    ensures Told(Refill(c, nextBase, launcher).ctrl)
  {
    hide Live, RefreshTargetBase, DispatchNextFrontier, Told;
    if nextBase.Some? && Sim.CanRefresh(c.sim) {
      RefreshKeeps(c, completed, revisions, nextBase.value);
      RefreshTells(c, nextBase.value);
      NextFrontierTells(RefreshTargetBase(c, nextBase.value).ctrl, completed, revisions + [nextBase.value], launcher);
    }
  }

  // Reconciling one item.

  lemma ObserveShape(s: Sim.Sim, item: ItemId, o: DeliveryObservation)
    requires item in s.dispatched && !Sim.IsApproved(s, item)
    ensures Sim.AfterObserve(s, item, o).Ok?
    ensures var t := Sim.AfterObserve(s, item, o).value;
      && t.observations == s.observations[item := o] && t.decisions == s.decisions - {item}
      && t.dispatched == s.dispatched && t.sched == s.sched && t.review == s.review
  {
  }

  /** A first evaluation decides on the observation; the rest stays. */
  lemma EvaluateShape(s: Sim.Sim, item: ItemId)
    requires item in s.observations && item !in s.decisions && item in s.dispatched
    requires Sim.AfterEvaluate(s, item).Ok?
    ensures var (t, decision) := Sim.AfterEvaluate(s, item).value;
      && decision == Decide(s.review, s.dispatched[item], s.observations[item])
      && t.decisions == s.decisions[item := decision] && t.observations == s.observations
      && t.dispatched == s.dispatched && t.sched.cancelled == s.sched.cancelled
  {
    hide S.AfterRelease, Classify;
    ReleaseKeepsCancelled(s.sched, item);
  }

  lemma SettleFlags(c: Controller, item: ItemId)
    requires item in c.active
    ensures var t := Settle(c, item);
      && t.reviewPublished == c.reviewPublished && t.attentionPublished == c.attentionPublished
      && t.donePublished == c.donePublished + {item}
  {
    hide HasKey;
  }

  lemma RaiseFlags(c: Controller, item: ItemId)
    requires item in c.active
    ensures var t := RaiseAttention(c, item);
      && t.reviewPublished == c.reviewPublished && t.attentionPublished == c.attentionPublished + {item}
      && t.donePublished == c.donePublished
  {
    hide HasKey;
  }

  lemma ReviewFlags(c: Controller, item: ItemId, o: DeliveryObservation)
    ensures var t := PublishReview(c, item, o);
      && t.reviewPublished == c.reviewPublished + (if o.prHeadSha != "" then {item} else {})
      && t == c.(log := t.log, reviewPublished := t.reviewPublished)
  {
    hide HasKey;
  }

  /** What judging leaves behind, in the simulator and in what was published. */
  lemma JudgeShape(c: Controller, item: ItemId, o: DeliveryObservation)
    requires item in c.active && item in c.sim.dispatched && !Sim.IsApproved(c.sim, item)
    requires Sim.AfterObserve(c.sim, item, o).Ok? ==> Sim.AfterEvaluate(Sim.AfterObserve(c.sim, item, o).value, item).Ok?
    ensures Judge(c, item, o).Ok?
    ensures var (t, decision) := Judge(c, item, o).value;
      && t.sim.observations == c.sim.observations[item := o] && t.sim.decisions == c.sim.decisions[item := decision]
      && t.sim.dispatched == c.sim.dispatched && t.sim.sched.cancelled == c.sim.sched.cancelled
      && t.reviewPublished == c.reviewPublished + (if o.prHeadSha != "" then {item} else {})
      && t.attentionPublished == c.attentionPublished + (if decision.status.Blocked? then {item} else {})
      && t.donePublished == c.donePublished + (if decision.status.Approved? then {item} else {})
      && t.active == (if decision.status.Approved? then c.active - {item} else c.active)
      && decision == Decide(c.sim.review, c.sim.dispatched[item], o)
  {
    hide Sim.AfterObserve, Sim.AfterEvaluate, Settle, RaiseAttention, PublishReview, Decide, HasKey;
    ObserveShape(c.sim, item, o);
    var observed := c.(sim := Sim.AfterObserve(c.sim, item, o).value);
    ReviewFlags(observed, item, o);
    var p := PublishReview(observed, item, o);
    EvaluateShape(p.sim, item);
    var (sim, decision) := Sim.AfterEvaluate(p.sim, item).value;
    var u := Emit(RecordWaveState(p.(sim := sim)), GateEvent(c.active[item].run, decision, o));
    SettleLeaves(u, item);
    SettleFlags(u, item);
    RaiseFlags(u, item);
  }

  lemma ReleaseKeepsCancelled(s: S.Schedule, id: ItemId)
    ensures S.AfterRelease(s, id).Ok? ==> S.AfterRelease(s, id).value.cancelled == s.cancelled
  {
  }

  lemma PublishReviewReports(c: Controller, item: ItemId, o: DeliveryObservation)
    requires IsReported(c)
    ensures IsReported(PublishReview(c, item, o))
  {
    hide HasKey;
    TicketIsRecorded(c, item, InReview);
    ReportsPersist(c, SetTicket(c, item, InReview).log);
  }

  lemma EmitReports(c: Controller, e: Event)
    requires IsReported(c)
    ensures IsReported(Emit(c, e))
  {
    hide IsReported, HasKey;
    ReportsPersist(c, Inserted(c.log, RowOf(e)));
  }

  lemma DecisionReports(c: Controller, e: Event)
    requires IsReported(c)
    ensures IsReported(Emit(RecordWaveState(c), e))
  {
    hide IsReported, Emit;
    if c.sim.sched.currentWave.Some? {
      EmitReports(c, ExecutionWaveStateChanged(c.sim.sched.currentWave.value.number, S.Released));
    }
    EmitReports(RecordWaveState(c), e);
  }

  lemma SettleReports(c: Controller, item: ItemId)
    requires IsReported(c) && item in c.active
    ensures IsReported(Settle(c, item))
  {
    hide HasKey;
    if item !in c.donePublished {
      var t := SetTicket(c, item, Done);
      TicketIsRecorded(c, item, Done);
      ReportsPersist(c, t.log);
      var u := t.(donePublished := c.donePublished + {item});
      assert IsReported(u);
      AttemptsReportNothing(u, item, ReleasedAttempt);
      EmitReports(SetAttempt(u, item, ReleasedAttempt), WorkAttemptStateChanged(c.active[item].run, ReleasedAttempt));
    }
  }

  lemma AttemptsReportNothing(c: Controller, item: ItemId, state: AttemptState)
    requires IsReported(c)
    ensures IsReported(SetAttempt(c, item, state))
  {
  }

  lemma RaiseReports(c: Controller, item: ItemId)
    requires IsReported(c) && item in c.active
    ensures IsReported(RaiseAttention(c, item))
  {
    hide HasKey;
    if item !in c.attentionPublished {
      var t := SetTicket(c, item, NeedsAttention);
      TicketIsRecorded(c, item, NeedsAttention);
      ReportsPersist(c, t.log);
      var u := t.(attentionPublished := c.attentionPublished + {item});
      assert IsReported(u);
      AttemptsReportNothing(u, item, AttentionNeeded);
      EmitReports(SetAttempt(u, item, AttentionNeeded), WorkAttemptStateChanged(c.active[item].run, AttentionNeeded));
    }
  }

  lemma JudgeIsReported(c: Controller, item: ItemId, o: DeliveryObservation)
    requires IsReported(c) && item in c.active && Judge(c, item, o).Ok?
    requires Judge(c, item, o).value.0.sim.sched.cancelled == c.sim.sched.cancelled
    ensures IsReported(Judge(c, item, o).value.0)
  {
    hide IsReported, Sim.AfterObserve, Sim.AfterEvaluate, PublishReview, RecordWaveState, Settle, RaiseAttention, HasKey;
    var observed := c.(sim := Sim.AfterObserve(c.sim, item, o).value);
    var (sim, decision) := Sim.AfterEvaluate(PublishReview(observed, item, o).sim, item).value;
    PublishReviewCommutes(c, observed.sim, item, o);
    PublishReviewReports(c, item, o);
    var p := PublishReview(c, item, o).(sim := sim);
    var e := GateEvent(c.active[item].run, decision, o);
    SettleLeaves(Emit(RecordWaveState(p), e), item);
    SimTellsCancelled(PublishReview(c, item, o), sim);
    DecisionReports(p, e);
    SettleReports(Emit(RecordWaveState(p), e), item);
    RaiseReports(Emit(RecordWaveState(p), e), item);
  }

  lemma PublishReviewCommutes(c: Controller, sim: Sim.Sim, item: ItemId, o: DeliveryObservation)
    ensures PublishReview(c.(sim := sim), item, o) == PublishReview(c, item, o).(sim := sim)
    ensures PublishReview(c, item, o).active == c.active && PublishReview(c, item, o).sim == c.sim
  {
  }

  lemma JudgeTells(c: Controller, completed: set<ItemId>, revisions: seq<Revision>, item: ItemId, o: DeliveryObservation)
    requires Live(c, completed, revisions) && Told(c) && item in c.active
    ensures Judge(c, item, o).Ok? && Told(Judge(c, item, o).value.0)
  {
    hide Live, IsReported, Judge, Decide, Sim.AfterObserve, Sim.AfterEvaluate;
    ActiveIsUndecided(c, completed, revisions, item, o);
    JudgeShape(c, item, o);
    JudgeIsReported(c, item, o);
  }

  lemma ActiveIsUndecided(c: Controller, completed: set<ItemId>, revisions: seq<Revision>, item: ItemId, o: DeliveryObservation)
    requires Live(c, completed, revisions) && item in c.active
    ensures item in c.sim.dispatched && !Sim.IsApproved(c.sim, item)
    ensures Sim.AfterObserve(c.sim, item, o).Ok? && Sim.AfterEvaluate(Sim.AfterObserve(c.sim, item, o).value, item).Ok?
  {
    hide J.Journal, L.Consistent, Sim.AfterObserve, Sim.AfterEvaluate;
    ActiveIsLive(c, completed, item);
    assert item in L.InFlight(c.sim.sched);
    ObserveKeeps(c, completed, revisions, item, o);
    EvaluationReleases(c.(sim := Sim.AfterObserve(c.sim, item, o).value), completed, item);
  }

  lemma ReconcileTells(c: Controller, completed: set<ItemId>, revisions: seq<Revision>, item: ItemId, outcome: Outcome,
                       nextBase: Option<Revision>, launcher: Launcher)
    requires Live(c, completed, revisions) && Told(c)
    ensures Told(Reconcile(c, item, outcome, nextBase, launcher).ctrl)
  {
    hide Live, Judge, Refill, MarkRuntimeFailure, Told, Emit;
    if item in c.active {
      match outcome
      case AuthorityBroken(error) =>
        MarkTells(c, item, Operational("authority_violation"));
        EmitTells(MarkRuntimeFailure(c, item, Operational("authority_violation")), AuthorityViolated(item, error));
      case WorkspaceLost(code) =>
        var t := SetTicket(c, item, NeedsAttention).(attentionPublished := c.attentionPublished + {item});
        LostTells(c, item);
        EmitTells(t, ReconciliationFailed(item, code));
      case ObservationFailed(code) => EmitTells(c, ReconciliationFailed(item, code));
      case Observed(o) =>
        JudgeTells(c, completed, revisions, item, o);
        JudgeKeeps(c, completed, revisions, item, o);
        RefillTells(Judge(c, item, o).value.0, completed, revisions, nextBase, launcher);
    }
  }

  lemma LostTells(c: Controller, item: ItemId)
    requires Told(c)
    ensures Told(SetTicket(c, item, NeedsAttention).(attentionPublished := c.attentionPublished + {item}))
  {
    hide HasKey, Emit;
    TicketIsRecorded(c, item, NeedsAttention);
    LogGrowthTells(c, SetTicket(c, item, NeedsAttention).log);
    SetTicketKeepsRest(c, item, NeedsAttention);
  }

  // Retry and cancellation.

  lemma RetryForgets(s: Sim.Sim, item: ItemId)
    requires Sim.AfterRetry(s, item).Ok?
    ensures var t := Sim.AfterRetry(s, item).value;
      && t.observations == s.observations - {item} && t.decisions == s.decisions - {item}
      && t.dispatched == s.dispatched - {item} && t.sched.cancelled == s.sched.cancelled - {item}
  {
  }

  lemma SupersedeTells(c: Controller, item: ItemId)
    requires Told(c) && item in c.active && Sim.AfterRetry(c.sim, item).Ok?
    ensures Told(Superseded(c, item))
  {
    hide HasKey, Sim.AfterRetry;
    RetryForgets(c.sim, item);
    var t := Emit(SetAttempt(c, item, SupersededAttempt), WorkAttemptStateChanged(c.active[item].run, SupersededAttempt));
    SetAttemptTells(c, item, SupersededAttempt);
    EmitTells(SetAttempt(c, item, SupersededAttempt), WorkAttemptStateChanged(c.active[item].run, SupersededAttempt));
    assert Superseded(c, item).log == t.log;
  }

  lemma RetryTells(c: Controller, completed: set<ItemId>, revisions: seq<Revision>, item: ItemId, prompt: Option<string>,
                   destroyed: Option<FailureCode>, launcher: Launcher)
    requires Live(c, completed, revisions) && Told(c)
    ensures Told(Retry(c, item, prompt, destroyed, launcher).ctrl)
  {
    hide Live, Told, DispatchReady, Sim.AfterRetry, Supersede, Emit;
    if item in c.active {
      if destroyed.Some? {
        EmitTells(c, RetryFailed(c.active[item].run, destroyed.value));
      } else {
        RetryIsTaken(c, completed, revisions, item);
        SupersedeTells(c, item);
        var t := Superseded(c, item);
        var next := if prompt.Some? then prompt else PromptFor(t.prompts, item);
        if next.Some? {
          DispatchTells(t, completed, revisions, [Prompt(item, next.value)], launcher);
        }
      }
    }
  }

  lemma CancelForgets(s: Sim.Sim, item: ItemId, reason: string)
    requires Sim.AfterCancel(s, item, reason).Ok?
    ensures var t := Sim.AfterCancel(s, item, reason).value;
      && t.observations == s.observations - {item} && t.decisions == s.decisions - {item}
      && t.dispatched == s.dispatched - {item} && t.sched.cancelled == s.sched.cancelled + {item}
  {
  }

  lemma CancelTells(c: Controller, item: ItemId, reason: string)
    requires Told(c)
    ensures Told(CancelFromWave(c, item, reason).ctrl)
  {
    hide HasKey, Sim.AfterCancel;
    if item in c.active && Sim.AfterCancel(c.sim, item, reason).Ok? {
      CancelForgets(c.sim, item, reason);
      var s := SetTicket(c, item, CancelledTicket);
      TicketIsRecorded(c, item, CancelledTicket);
      LogGrowthTells(c, s.log);
      SetTicketKeepsRest(c, item, CancelledTicket);
      var t := SetAttempt(s.(sim := Sim.AfterCancel(c.sim, item, reason).value, active := c.active - {item}), item, CancelledAttempt);
      assert Told(t);
      EmitTells(t, WaveItemCancelled(item, reason));
      assert CancelFromWave(c, item, reason).ctrl == Emit(t, WaveItemCancelled(item, reason));
    }
  }

  /** After every call the tracker has been told what the live state is. */
  lemma ActTells(c: Controller, completed: set<ItemId>, revisions: seq<Revision>, a: Action)
    requires Live(c, completed, revisions) && Told(c)
    ensures Told(Act(c, a))
  {
    hide Live, Told, DispatchReady, Reconcile, Retry, CancelFromWave, MarkRuntimeFailure, RefreshTargetBase;
    match a
    case Dispatch(prompts, launcher) => DispatchTells(c, completed, revisions, prompts, launcher);
    case Reconciling(item, outcome, nextBase, launcher) =>
      ReconcileTells(c, completed, revisions, item, outcome, nextBase, launcher);
    case Refreshing(revision) => RefreshTells(c, revision);
    case Retrying(item, prompt, destroyed, launcher) => RetryTells(c, completed, revisions, item, prompt, destroyed, launcher);
    case Cancelling(item, reason) => CancelTells(c, item, reason);
    case RuntimeFailure(item, code) => MarkTells(c, item, code);
  }

  lemma NewIsTold(sim: Sim.Sim)
    requires sim.observations == map[] && sim.decisions == map[] && sim.sched.cancelled == {}
    ensures Told(NewController(sim))
  {
  }

  lemma {:induction false} PlayTells(t: Trace, completed: set<ItemId>, actions: seq<Action>)
    requires Live(t.ctrl, completed, t.revisions) && RunsCurrently(t, actions) && Told(t.ctrl)
    ensures Told(Play(t, actions).ctrl)
    decreases actions
  {
    hide Live, Act, RefreshedTo, Told;
    if actions != [] {
      ActKeeps(t.ctrl, completed, t.revisions, actions[0]);
      ActTells(t.ctrl, completed, t.revisions, actions[0]);
      PlayTells(Advance(t, actions[0]), completed, actions[1..]);
    }
  }

  /** In every run: what is in progress, in review, in need of attention, done or cancelled was reported. */
  lemma EveryRunTells(graph: G.DependencyGraph, policy: S.Policy, base: Revision, repository: string, root: string,
                      review: ReviewPolicy, completed: set<ItemId>, actions: seq<Action>)
    requires RunsCurrently(Trace(NewController(Sim.NewSim(graph, policy, base, repository, root, review, completed)), []), actions)
    ensures
      Told(Play(Trace(NewController(Sim.NewSim(graph, policy, base, repository, root, review, completed)), []), actions).ctrl)
  {
    hide Live, Told, Play, RunsCurrently;
    var sim := Sim.NewSim(graph, policy, base, repository, root, review, completed);
    R.NewIsLive(graph, policy, base, repository, root, review, completed);
    NewIsTold(sim);
    PlayTells(Trace(NewController(sim), []), completed, actions);
  }

  /** A reported state shows in the projection exactly when the item is new to it or already in it. */
  lemma TicketIsProjected(c: Controller, item: ItemId, ticket: TicketState)
    ensures var before, after := Project(c.log).tickets, Project(SetTicket(c, item, ticket).log).tickets;
      (item in after && after[item] == ticket) <==>
        !HasKey(c.log, TicketKey(item, ticket)) || (item in before && before[item] == ticket)
  {
    hide HasKey;
    ProjectOneMore(c.log, TicketStateChanged(item, ticket));
  }

  /** A gate status shows exactly when the evidence it was recorded with is new, or the item is at that status already. */
  lemma GateIsProjected(c: Controller, run: RunId, decision: GateDecision, o: DeliveryObservation)
    ensures var e := GateEvent(run, decision, o);
      var before, after := Project(c.log).gates, Project(Emit(c, e).log).gates;
      (run.item in after && after[run.item] == decision.status) <==>
        !HasKey(c.log, KeyOf(e)) || (run.item in before && before[run.item] == decision.status)
  {
    hide HasKey;
    ProjectOneMore(c.log, GateEvent(run, decision, o));
  }
}
