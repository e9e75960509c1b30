/** What each call of the controller raises, and what it leaves on record. */
module CallLaws {
  import opened Prelude
  import opened EventLogs
  import opened Gate
  import opened Projections
  import opened Controllers
  import opened ControllerLaws
  import opened AssignmentLaws
  import opened Restarts
  import J = Journals
  import Sim = Simulation
  import S = Scheduling
  import L = SchedulingLaws
  import G = DependencyGraphs

  /** The log has this row. */
  ghost predicate OnRecord(c: Controller, e: Event) {
    HasKey(c.log, KeyOf(e))
  }

  lemma EmitRecords(c: Controller, e: Event)
    ensures OnRecord(Emit(c, e), e)
    ensures forall f :: OnRecord(c, f) ==> OnRecord(Emit(c, e), f)
  {
    hide HasKey, Inserted;
    KeysAfterInsert(c.log, RowOf(e));
  }

  lemma LogKeeps(c: Controller, t: Controller, e: Event)
    requires c.log <= t.log && OnRecord(c, e)
    ensures OnRecord(t, e)
  {
    PrefixKeys(c.log, t.log, KeyOf(e));
  }

  // Dispatching.

  /** The first check that fails names the fault; when none does, only the log can contradict a start. */
  lemma DispatchFaults(c: Controller, prompts: seq<Prompt>, launcher: Launcher)
    ensures var fault, items := DispatchReady(c, prompts, launcher).fault, S.Frontier(c.sim.sched);
      && (fault == Some(MissingPrompts) <==> !HasPrompts(prompts, items))
      && (fault == Some(TemplateRefused) <==> HasPrompts(prompts, items) && !Admitted(launcher, items))
      && (fault == Some(PromptChanged) <==>
            HasPrompts(prompts, items) && Admitted(launcher, items) && !Agree(c.prompts, prompts))
      && (CanDispatch(c, prompts, launcher) ==> fault.None? || fault == Some(LogConflict))
  {
    hide S.Frontier, StartFrontier, PersistPrompts, HasPrompts, Admitted, Agree;
    PersistRaises(c, prompts);
    StartFrontierKeepsSim(PersistPrompts(c, prompts).ctrl, launcher);
  }

  /** Checks come before anything is recorded. */
  lemma RefusedDispatchChangesNothing(c: Controller, prompts: seq<Prompt>, launcher: Launcher)
    requires var items := S.Frontier(c.sim.sched); !HasPrompts(prompts, items) || !Admitted(launcher, items)
    ensures DispatchReady(c, prompts, launcher).ctrl == c
  {
    hide S.Frontier;
  }

  lemma NextFrontierWaits(c: Controller, launcher: Launcher)
    ensures var r, items := DispatchNextFrontier(c, launcher), S.Frontier(c.sim.sched);
      && (items == [] ==> r == Reply(c, None))
      && (items != [] && !HasPrompts(c.prompts, items) ==>
            r.fault.None? && r.ctrl == c.(log := r.ctrl.log) && OnRecord(r.ctrl, FrontierWaitingForPrompts(items)))
      && (items != [] && HasPrompts(c.prompts, items) ==> r == DispatchReady(c, c.prompts, launcher))
  {
    hide S.Frontier, DispatchReady, HasPrompts, Inserted;
    EmitRecords(c, FrontierWaitingForPrompts(S.Frontier(c.sim.sched)));
  }

  /** The base moves, and says so, exactly where both layers allow it. */
  lemma RefreshFaults(c: Controller, revision: Revision)
    ensures var r := RefreshTargetBase(c, revision);
      && (r.fault == Some(Refused(Sim.WaveNotApproved)) <==> !Sim.CanRefresh(c.sim))
      && (r.fault.None? ==> r.ctrl.sim.sched.base == revision && OnRecord(r.ctrl, BaseRevisionRefreshed(revision)))
      && (r.fault.Some? ==> r.ctrl == c)
      && r.ctrl == c.(sim := r.ctrl.sim, log := r.ctrl.log)
  {
    hide Inserted;
    if Sim.AfterRefresh(c.sim, revision).Ok? {
      EmitRecords(c.(sim := Sim.AfterRefresh(c.sim, revision).value), BaseRevisionRefreshed(revision));
    }
  }

  // Failures.

  /** A failure is on record, the item needs attention, and so does the attempt it is working on. */
  lemma FailureIsMarked(c: Controller, item: ItemId, code: FailureCode)
    ensures var t := MarkRuntimeFailure(c, item, code);
      && OnRecord(t, RuntimeFailed(item, code))
      && item in t.attentionPublished && t.attentionPublished == c.attentionPublished + {item}
      && (item !in c.attentionPublished ==> OnRecord(t, TicketStateChanged(item, NeedsAttention)))
      && (item in c.attempts ==>
            && t.attempts == c.attempts[item := c.attempts[item].(state := AttentionNeeded)]
            && (item in c.active ==> OnRecord(t, WorkAttemptStateChanged(c.active[item].run, AttentionNeeded))))
      && (item !in c.attempts ==> t.attempts == c.attempts)
      && t == c.(log := t.log, attempts := t.attempts, attentionPublished := t.attentionPublished)
  {
    hide HasKey, Inserted;
    EmitRecords(c, TicketStateChanged(item, NeedsAttention));
    var u := SetAttempt(NoteAttention(c, item), item, AttentionNeeded);
    assert item !in c.attentionPublished ==> u.log == SetTicket(c, item, NeedsAttention).log;
    var v := if item in u.attempts && item in u.active
             then Emit(u, WorkAttemptStateChanged(u.active[item].run, AttentionNeeded)) else u;
    if item in u.active {
      EmitRecords(u, WorkAttemptStateChanged(u.active[item].run, AttentionNeeded));
    }
    EmitRecords(v, RuntimeFailed(item, code));
  }

  /** What a reconciliation that gets no observation comes to: its reason is on record, and no decision is made. */
  lemma FailedReconciliations(c: Controller, item: ItemId, outcome: Outcome, nextBase: Option<Revision>, launcher: Launcher)
    requires item in c.active && !outcome.Observed?
    ensures var r := Reconcile(c, item, outcome, nextBase, launcher);
      && r.fault.None? && r.ctrl.sim == c.sim && r.ctrl.active == c.active
      && (outcome.AuthorityBroken? ==>
            && OnRecord(r.ctrl, AuthorityViolated(item, outcome.error))
            && OnRecord(r.ctrl, RuntimeFailed(item, Operational("authority_violation"))) && item in r.ctrl.attentionPublished)
      && (outcome.WorkspaceLost? ==>
            && OnRecord(r.ctrl, ReconciliationFailed(item, outcome.code)) && OnRecord(r.ctrl, TicketStateChanged(item, NeedsAttention))
            && item in r.ctrl.attentionPublished && r.ctrl.attempts == c.attempts)
      && (outcome.ObservationFailed? ==>
            OnRecord(r.ctrl, ReconciliationFailed(item, outcome.code)) && r.ctrl == c.(log := r.ctrl.log))
  {
    hide HasKey, Inserted, MarkRuntimeFailure;
    match outcome
    case AuthorityBroken(error) =>
      var code := Operational("authority_violation");
      FailureIsMarked(c, item, code);
      MarkLeaves(c, item, code);
      EmitRecords(MarkRuntimeFailure(c, item, code), AuthorityViolated(item, error));
    case WorkspaceLost(code) =>
      EmitRecords(c, TicketStateChanged(item, NeedsAttention));
      var t := SetTicket(c, item, NeedsAttention).(attentionPublished := c.attentionPublished + {item});
      EmitRecords(t, ReconciliationFailed(item, code));
    case ObservationFailed(code) => EmitRecords(c, ReconciliationFailed(item, code));
  }

  /** Only an active item is reconciled. */
  lemma InactiveIsNotReconciled(c: Controller, item: ItemId, outcome: Outcome, nextBase: Option<Revision>, launcher: Launcher)
    requires item !in c.active
    ensures Reconcile(c, item, outcome, nextBase, launcher) == Reply(c, Some(NotActive))
  {
  }

  // Decisions.

  /** The decision is recorded under the active run, with the evidence it was made on. */
  lemma DecisionIsOnRecord(c: Controller, item: ItemId, o: DeliveryObservation)
    requires item in c.active && Judge(c, item, o).Ok?
    ensures var (t, decision) := Judge(c, item, o).value;
      var code := if decision.failure.Some? then Some(decision.failure.value.code) else None;
      OnRecord(t, GateRecorded(c.active[item].run, decision.status, code, o.prHeadSha, o.ciHeadSha, o.mergeRevision))
  {
    hide Sim.AfterObserve, Sim.AfterEvaluate, Settle, RaiseAttention, HasKey, Inserted;
    var t := PublishReview(c.(sim := Sim.AfterObserve(c.sim, item, o).value), item, o);
    var (sim, decision) := Sim.AfterEvaluate(t.sim, item).value;
    var u, e := RecordWaveState(t.(sim := sim)), GateEvent(c.active[item].run, decision, o);
    EmitRecords(u, e);
    SettleShrinks(Emit(u, e), item);
    LogKeeps(Emit(u, e), Judge(c, item, o).value.0, e);
  }

  /** An approval ends the attempt: it leaves the active set as released, its ticket done, unless that was published before. */
  lemma ApprovalSettles(c: Controller, item: ItemId)
    requires item in c.active
    ensures var t := Settle(c, item);
      && t.active == c.active - {item} && t.donePublished == c.donePublished + {item} && t.sim == c.sim
      && (item in c.donePublished ==> t == c.(active := t.active))
      && (item !in c.donePublished ==>
            && OnRecord(t, TicketStateChanged(item, Done))
            && OnRecord(t, WorkAttemptStateChanged(c.active[item].run, ReleasedAttempt))
            && (item in c.attempts ==> t.attempts == c.attempts[item := c.attempts[item].(state := ReleasedAttempt)]))
  {
    hide HasKey, Inserted;
    if item in c.donePublished {
      assert c.donePublished + {item} == c.donePublished;
    }
    EmitRecords(c, TicketStateChanged(item, Done));
    EmitRecords(SetTicket(c, item, Done), WorkAttemptStateChanged(c.active[item].run, ReleasedAttempt));
  }

  /** A blocked decision asks for attention once. */
  lemma BlockedAsksForAttention(c: Controller, item: ItemId)
    requires item in c.active
    ensures var t := RaiseAttention(c, item);
      && (item in c.attentionPublished ==> t == c)
      && (item !in c.attentionPublished ==>
            && OnRecord(t, TicketStateChanged(item, NeedsAttention))
            && OnRecord(t, WorkAttemptStateChanged(c.active[item].run, AttentionNeeded))
            && t.attentionPublished == c.attentionPublished + {item}
            && (item in c.attempts ==> t.attempts == c.attempts[item := c.attempts[item].(state := AttentionNeeded)]))
      && t.active == c.active && t.sim == c.sim
  {
    hide HasKey, Inserted;
    EmitRecords(c, TicketStateChanged(item, NeedsAttention));
    EmitRecords(SetTicket(c, item, NeedsAttention), WorkAttemptStateChanged(c.active[item].run, AttentionNeeded));
  }

  // What an approval starts.

  lemma {:induction false} PromptIsItsOwn(prompts: seq<Prompt>, i: nat)
    requires OnePerItem(prompts) && i < |prompts|
    ensures PromptFor(prompts, prompts[i].item) == Some(prompts[i].text)
    decreases prompts
  {
    if i > 0 {
      assert forall j :: 0 <= j < |prompts[1..]| ==> prompts[1..][j] == prompts[j + 1];
      PromptIsItsOwn(prompts[1..], i - 1);
    }
  }

  lemma KnownPromptsAgree(prompts: seq<Prompt>)
    requires OnePerItem(prompts)
    ensures Agree(prompts, prompts)
  {
    forall i | 0 <= i < |prompts| ensures PromptFor(prompts, prompts[i].item) == Some(prompts[i].text) {
      PromptIsItsOwn(prompts, i);
    }
  }

  lemma LivePromptsAgree(c: Controller, completed: set<ItemId>, revisions: seq<Revision>)
    requires Live(c, completed, revisions)
    ensures Agree(c.prompts, c.prompts)
  {
    hide Linked, J.Journal, Agree;
    ProjectionReproduces(c, completed, revisions);
    KnownPromptsAgree(c.prompts);
  }

  /** The next frontier starts where prompts and templates allow it. */
  lemma NextFrontierStarts(c: Controller, completed: set<ItemId>, revisions: seq<Revision>, launcher: Launcher, item: ItemId)
    requires Live(c, completed, revisions) && item !in c.active
    requires HasPrompts(c.prompts, S.Frontier(c.sim.sched)) && Admitted(launcher, S.Frontier(c.sim.sched))
    ensures var r := DispatchNextFrontier(c, launcher);
      && r.fault.None? && (item in r.ctrl.active <==> item in S.Frontier(c.sim.sched))
      && (item in r.ctrl.active ==> r.ctrl.active[item].run == RunNow(c.sim, item))
  {
    hide Live, S.Frontier, DispatchReady, HasPrompts, Admitted, Agree;
    LivePromptsAgree(c, completed, revisions);
    DispatchStarts(c, completed, revisions, c.prompts, launcher, item);
  }

  lemma RefreshOpensFrontier(s: Sim.Sim, revision: Revision, item: ItemId)
    requires Sim.AfterRefresh(s, revision).Ok?
    ensures var t := Sim.AfterRefresh(s, revision).value;
      && t.sched.base == revision && RunNow(t, item) == RunId(item, revision, Sim.AttemptNumber(s.attempts, item))
      && (item in S.Frontier(t.sched) <==>
            G.IsReady(s.sched.graph, s.sched.released, item) && item !in s.sched.dispatched)
  {
    L.FrontierItems(Sim.AfterRefresh(s, revision).value.sched);
  }

  /**
   * When a provider answers and the base may move, a refill moves it and starts exactly what is ready then, under runs from the
   * new base; without prompts for all of it, it records that it waits. Otherwise it does nothing.
   */
  lemma RefillStarts(c: Controller, completed: set<ItemId>, revisions: seq<Revision>, nextBase: Option<Revision>,
                     launcher: Launcher, item: ItemId)
    requires Live(c, completed, revisions) && item !in c.active
    ensures var r := Refill(c, nextBase, launcher);
      if nextBase.None? || !Sim.CanRefresh(c.sim) then r == Reply(c, None)
      else
        && Sim.AfterRefresh(c.sim, nextBase.value).Ok?
        && var items := S.Frontier(Sim.AfterRefresh(c.sim, nextBase.value).value.sched);
        && r.ctrl.sim.sched.base == nextBase.value
        && (HasPrompts(c.prompts, items) && Admitted(launcher, items) ==>
              && r.fault.None?
              && (item in r.ctrl.active <==>
                    G.IsReady(c.sim.sched.graph, c.sim.sched.released, item) && item !in c.sim.sched.dispatched)
              && (item in r.ctrl.active ==>
                    r.ctrl.active[item].run == RunId(item, nextBase.value, Sim.AttemptNumber(c.sim.attempts, item))))
        && (items != [] && !HasPrompts(c.prompts, items) ==> r.fault.None? && OnRecord(r.ctrl, FrontierWaitingForPrompts(items)))
  {
    hide Live, S.Frontier, DispatchNextFrontier, HasPrompts, Admitted, HasKey, RunNow, Inserted;
    if nextBase.Some? && Sim.CanRefresh(c.sim) {
      var b := nextBase.value;
      RefreshKeeps(c, completed, revisions, b);
      var t := RefreshTargetBase(c, b).ctrl;
      RefreshOpensFrontier(c.sim, b, item);
      NextFrontierStays(t, launcher);
      NextFrontierWaits(t, launcher);
      if HasPrompts(t.prompts, S.Frontier(t.sim.sched)) && Admitted(launcher, S.Frontier(t.sim.sched)) {
        NextFrontierStarts(t, completed, revisions + [b], launcher, item);
      }
    }
  }

  /** So an approval starts what it unblocks. */
  lemma ApprovalStartsTheNext(c: Controller, completed: set<ItemId>, revisions: seq<Revision>, item: ItemId, o: DeliveryObservation,
                              nextBase: Revision, launcher: Launcher, next: ItemId)
    requires Live(c, completed, revisions) && item in c.active && next !in c.active
    ensures Judge(c, item, o).Ok?
    ensures var (t, decision) := Judge(c, item, o).value;
      var r := Reconcile(c, item, Observed(o), Some(nextBase), launcher);
      && (!decision.status.Approved? ==> r == Reply(t, None))
      && (decision.status.Approved? && Sim.CanRefresh(t.sim) ==>
            && Sim.AfterRefresh(t.sim, nextBase).Ok?
            && var items := S.Frontier(Sim.AfterRefresh(t.sim, nextBase).value.sched);
               HasPrompts(t.prompts, items) && Admitted(launcher, items) ==>
                 && r.fault.None? && r.ctrl.sim.sched.base == nextBase
                 && (next in r.ctrl.active <==>
                       G.IsReady(t.sim.sched.graph, t.sim.sched.released, next) && next !in t.sim.sched.dispatched))
  {
    hide Live, Judge, Refill, S.Frontier, HasPrompts, Admitted, Sim.CanRefresh, Sim.AfterRefresh;
    JudgeKeeps(c, completed, revisions, item, o);
    JudgeShrinks(c, item, o);
    RefillStarts(Judge(c, item, o).value.0, completed, revisions, Some(nextBase), launcher, next);
  }

  // Retries and cancellations.

  /** What stops a retry before anything is superseded. */
  lemma RetryRefusals(c: Controller, item: ItemId, prompt: Option<string>, destroyed: Option<FailureCode>, launcher: Launcher)
    ensures var r := Retry(c, item, prompt, destroyed, launcher);
      var released := item in c.attempts && c.attempts[item].state.ReleasedAttempt?;
      && (item !in c.active ==> r == Reply(c, Some(NotActive)))
      && (item in c.active && released ==> r == Reply(c, Some(AlreadyReleased)))
      && (item in c.active && !released && destroyed.Some? ==>
            && r.fault == Some(RetryRefused) && r.ctrl == c.(log := r.ctrl.log)
            && OnRecord(r.ctrl, RetryFailed(c.active[item].run, destroyed.value)))
  {
    hide Inserted, DispatchReady, Sim.AfterRetry;
    if item in c.active && destroyed.Some? {
      EmitRecords(c, RetryFailed(c.active[item].run, destroyed.value));
    }
  }

  /** The replaced attempt is on record as superseded, and its item starts over for tickets. */
  lemma SupersedingForgets(c: Controller, item: ItemId)
    requires item in c.active
    ensures var t := Supersede(c, item);
      && OnRecord(t, WorkAttemptStateChanged(c.active[item].run, SupersededAttempt))
      && (item in c.attempts ==> t.attempts == c.attempts[item := c.attempts[item].(state := SupersededAttempt)])
      && item !in t.active && item !in t.reviewPublished && item !in t.attentionPublished
      && t.donePublished == c.donePublished && t.prompts == c.prompts && t.sim == c.sim
      && forall other :: other != item ==>
           && (other in t.reviewPublished <==> other in c.reviewPublished)
           && (other in t.attentionPublished <==> other in c.attentionPublished)
  {
    hide Inserted, HasKey;
    EmitRecords(SetAttempt(c, item, SupersededAttempt), WorkAttemptStateChanged(c.active[item].run, SupersededAttempt));
  }

  /** Once the workspace is gone, a live retry fails for want of a prompt, or for what its dispatch fails for. */
  lemma RetryFaults(c: Controller, completed: set<ItemId>, revisions: seq<Revision>, item: ItemId, prompt: Option<string>,
                    launcher: Launcher)
    requires Live(c, completed, revisions) && item in c.active
    ensures Sim.AfterRetry(c.sim, item).Ok?
    ensures var r := Retry(c, item, prompt, None, launcher);
      var known, items := PromptFor(c.prompts, item), S.Frontier(Sim.AfterRetry(c.sim, item).value.sched);
      var chosen := prompt.Some? || known.Some?;
      && (r.fault == Some(MissingPrompts) <==> !chosen || !(Elems(items) <= {item}))
      && (r.fault == Some(TemplateRefused) <==> chosen && Elems(items) <= {item} && !Admitted(launcher, items))
      && (r.fault == Some(PromptChanged) <==>
            && Elems(items) <= {item} && Admitted(launcher, items)
            && prompt.Some? && known.Some? && prompt != known)
  {
    hide J.Journal, Linked, View, DispatchReady, Sim.AfterRetry, Supersede, S.Frontier, HasPrompts, Admitted, Agree, RunNow;
    RetryIsTaken(c, completed, revisions, item);
    RetriedSchedule(c, completed, item);
    var t := Superseded(c, item);
    var next := if prompt.Some? then prompt else PromptFor(t.prompts, item);
    if next.Some? {
      DispatchFaults(t, [Prompt(item, next.value)], launcher);
      OnePrompt(t.prompts, Prompt(item, next.value), S.Frontier(t.sim.sched));
    }
  }

  /** A cancellation needs an active item, a reason and the scheduler; then it and its reason are on record. */
  lemma CancelFaults(c: Controller, item: ItemId, reason: string)
    ensures var r := CancelFromWave(c, item, reason);
      && (r.fault == Some(NotActive) <==> item !in c.active)
      && (r.fault == Some(Refused(Sim.ReasonRequired)) <==> item in c.active && IsBlank(reason))
      && (r.fault.Some? ==> r.ctrl == c)
      && (r.fault.None? ==>
            && OnRecord(r.ctrl, WaveItemCancelled(item, reason)) && OnRecord(r.ctrl, TicketStateChanged(item, CancelledTicket))
            && r.ctrl.active == c.active - {item}
            && (item in c.attempts ==> r.ctrl.attempts == c.attempts[item := c.attempts[item].(state := CancelledAttempt)]))
  {
    hide Inserted, HasKey, IsBlank;
    if item in c.active && Sim.AfterCancel(c.sim, item, reason).Ok? {
      var t := SetAttempt(c.(sim := Sim.AfterCancel(c.sim, item, reason).value, active := c.active - {item}), item, CancelledAttempt);
      EmitRecords(t, TicketStateChanged(item, CancelledTicket));
      EmitRecords(SetTicket(t, item, CancelledTicket), WaveItemCancelled(item, reason));
    }
  }
}
