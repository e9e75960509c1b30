/** The delivery controller as an object over the simulator and the durable log. */
module DeliveryControllers {
  import opened Prelude
  import opened EventLogs
  import opened Gate
  import opened Projections
  import C = Controllers
  import Laws = ControllerLaws
  import Sim = Simulation
  import S = Scheduling

  ghost predicate WellKeyed(rows: seq<Row<Key, Event>>) {
    forall i :: 0 <= i < |rows| ==> rows[i].key == KeyOf(rows[i].event)
  }

  /** The key of a fact spells the fact out, so that it never stands for anything else. */
  lemma FactsNeverClash(rows: seq<Row<Key, Event>>, e: Event)
    requires WellKeyed(rows) && KeyOf(e).FactKey?
    ensures !C.Clashes(rows, e)
  {
  }

  class DeliveryController {
    const simulator: Sim.MergeWaveSimulator
    const log: SqliteEventLog<Key, Event>
    var active: map<ItemId, C.Assignment>
    var attempts: map<ItemId, C.WorkAttempt>
    var prompts: seq<Prompt>
    var reviewPublished: set<ItemId>
    var attentionPublished: set<ItemId>
    var donePublished: set<ItemId>
    ghost var completed: set<ItemId>
    ghost var revisions: seq<Revision>

    ghost predicate Sane()
      reads this, simulator, simulator.scheduler, log
    {
      simulator.Valid() && log.Valid() && WellKeyed(log.rows) && active.Keys <= attempts.Keys
    }

    /** The live state and the log are in step, given what was completed and where the base has moved. */
    ghost predicate Valid()
      reads this, simulator, simulator.scheduler, log
    {
      Sane() && Laws.Live(State(), completed, revisions)
    }

    ghost function State(): C.Controller
      reads this, simulator, simulator.scheduler, log
    {
      C.Controller(simulator.State(), log.rows, active, attempts, prompts,
                   reviewPublished, attentionPublished, donePublished)
    }

    constructor (simulator: Sim.MergeWaveSimulator, log: SqliteEventLog<Key, Event>, ghost completed: set<ItemId>)
      requires simulator.Valid() && log.Valid() && WellKeyed(log.rows)
      ensures this.simulator == simulator && this.log == log && this.completed == completed && revisions == []
      ensures Sane() && State() == C.NewController(simulator.State()).(log := log.rows)
    {
      this.simulator, this.log := simulator, log;
      active, attempts, prompts := map[], map[], [];
      reviewPublished, attentionPublished, donePublished := {}, {}, {};
      this.completed, revisions := completed, [];
    }

    // The log.

    method AppendEvent(e: Event) returns (fault: Option<C.Fault>)
      requires Sane()
      modifies log
      ensures Sane() && State() == C.Emit(old(State()), e)
      ensures fault == C.ConflictIf(C.Clashes(old(log.rows), e))
    {
      var answer := log.Append(KeyOf(e), e);
      fault := if answer.Err? then Some(C.LogConflict) else None;
    }

    method SetTicketState(item: ItemId, ticket: TicketState)
      requires Sane()
      modifies log
      ensures Sane() && State() == C.SetTicket(old(State()), item, ticket)
    {
      RecordFact(TicketStateChanged(item, ticket));
    }

    method RecordFact(e: Event)
      requires Sane() && KeyOf(e).FactKey?
      modifies log
      ensures Sane() && State() == C.Emit(old(State()), e)
    {
      FactsNeverClash(log.rows, e);
      var fault := AppendEvent(e);
      assert fault.None?;
    }

    method SetAttemptState(item: ItemId, state: AttemptState)
      modifies this`attempts
      ensures State() == C.SetAttempt(old(State()), item, state) && attempts.Keys == old(attempts.Keys)
    {
      if item in attempts {
        attempts := attempts[item := attempts[item].(state := state)];
      }
    }

    // Dispatching.

    method PersistPrompts(snapshots: seq<Prompt>) returns (fault: Option<C.Fault>)
      requires Sane()
      modifies this`prompts, log
      ensures Sane() && C.PersistPrompts(old(State()), snapshots) == C.Reply(State(), fault)
    {
      for i := 0 to |snapshots|
        invariant Sane() && simulator.State() == old(simulator.State())
        invariant C.PersistPrompts(old(State()), snapshots) == C.PersistPrompts(State(), snapshots[i..])
      {
        var p, rest := snapshots[i], snapshots[i..];
        assert rest[0] == p && rest[1..] == snapshots[i + 1..];
        var existing := PromptFor(prompts, p.item);
        if existing.Some? && existing.value != p.text {
          return Some(C.PromptChanged);
        }
        if existing.None? {
          prompts := prompts + [p];
        }
        RecordFact(PromptSnapshotRecorded(p));
      }
      fault := None;
    }

    /** The attempt is in place before its start is appended, also when that raises. */
    method StartAttempt(d: Dispatch, workspace: Workspace) returns (fault: Option<C.Fault>)
      requires Sane()
      modifies this`active, this`attempts, log
      ensures Sane() && State() == C.StartAttempt(old(State()), d, workspace)
      ensures fault == C.ConflictIf(C.Clashes(old(log.rows), WorkAttemptStarted(C.RunOf(d), workspace)))
    {
      hide WellKeyed, C.Clashes;
      var run := C.RunOf(d);
      TicketsKeepStarts(log.rows, d.item, WorkAttemptStarted(run, workspace));
      SetTicketState(d.item, InProgress);
      attempts := attempts[d.item := C.WorkAttempt(run, Running)];
      active := active[d.item := C.Assignment(d, workspace, run)];
      fault := AppendEvent(WorkAttemptStarted(run, workspace));
    }

    method StartEach(ds: seq<Dispatch>, launcher: C.Launcher) returns (fault: Option<C.Fault>)
      requires Sane()
      modifies this`active, this`attempts, log
      ensures Sane() && C.StartEach(old(State()), ds, launcher) == C.Reply(State(), fault)
    {
      hide C.StartAttempt, C.Clashes, WellKeyed;
      fault := None;
      for i := 0 to |ds|
        invariant Sane() && C.StartEach(old(State()), ds[..i], launcher) == C.Reply(State(), None) && fault.None?
      {
        assert ds[..i + 1][..i] == ds[..i];
        fault := StartAttempt(ds[i], launcher.create(ds[i].item, ds[i].attempt));
        if fault.Some? {
          StartingStops(old(State()), ds, launcher, i + 1);
          return;
        }
      }
      assert ds[..|ds|] == ds;
    }

    method StartFrontier(launcher: C.Launcher) returns (fault: Option<C.Fault>)
      requires Sane()
      modifies this`active, this`attempts, log, simulator, simulator.scheduler
      ensures Sane() && C.StartFrontier(old(State()), launcher) == C.Reply(State(), fault)
    {
      hide C.StartEach, C.Clashes, WellKeyed;
      var ds := simulator.DispatchReady();
      fault := StartEach(ds, launcher);
      var wave := simulator.scheduler.currentWave;
      if fault.None? && wave.Some? {
        fault := AppendEvent(ExecutionWaveStarted(wave.value.number, wave.value.base, wave.value.items));
      }
    }

    method DispatchReady(snapshots: seq<Prompt>, launcher: C.Launcher) returns (fault: Option<C.Fault>)
      requires Sane()
      modifies this`active, this`attempts, this`prompts, log, simulator, simulator.scheduler
      ensures Sane() && C.DispatchReady(old(State()), snapshots, launcher) == C.Reply(State(), fault)
      ensures old(Valid()) ==> Valid()
    {
      hide Laws.Live, C.StartFrontier, C.PersistPrompts, WellKeyed;
      ghost var before, live := State(), Valid();
      var preview := simulator.PreviewReady();
      if exists i :: 0 <= i < |preview| && PromptFor(snapshots, preview[i].item).None? {
        return Some(C.MissingPrompts);
      }
      assert C.HasPrompts(snapshots, S.Frontier(before.sim.sched)) by {
        forall i | 0 <= i < |preview| ensures PromptFor(snapshots, S.Frontier(before.sim.sched)[i]).Some? {
          assert preview[i].item == S.Frontier(before.sim.sched)[i];
        }
      }
      if exists i :: 0 <= i < |preview| && !launcher.admits(preview[i].item) {
        return Some(C.TemplateRefused);
      }
      assert C.Admitted(launcher, S.Frontier(before.sim.sched)) by {
        forall i | 0 <= i < |preview| ensures launcher.admits(S.Frontier(before.sim.sched)[i]) {
          assert preview[i].item == S.Frontier(before.sim.sched)[i];
        }
      }
      fault := PersistPrompts(snapshots);
      if fault.None? {
        fault := StartFrontier(launcher);
      }
      if live {
        Laws.DispatchKeeps(before, completed, revisions, snapshots, launcher);
      }
    }

    method DispatchNextFrontier(launcher: C.Launcher) returns (fault: Option<C.Fault>)
      requires Sane()
      modifies this`active, this`attempts, this`prompts, log, simulator, simulator.scheduler
      ensures Sane() && C.DispatchNextFrontier(old(State()), launcher) == C.Reply(State(), fault)
      ensures old(Valid()) ==> Valid()
    {
      hide Laws.Live, C.DispatchReady, WellKeyed;
      ghost var before, items, live := State(), S.Frontier(simulator.scheduler.State()), Valid();
      var preview := simulator.PreviewReady();
      if preview == [] {
        return None;
      }
      if exists i :: 0 <= i < |preview| && PromptFor(prompts, preview[i].item).None? {
        if live {
          Laws.QuietKeeps(before, completed, revisions, FrontierWaitingForPrompts(ItemsOf(preview)));
        }
        RecordFact(FrontierWaitingForPrompts(ItemsOf(preview)));
        assert ItemsOf(preview) == items;
        return None;
      }
      assert forall i :: 0 <= i < |items| ==> preview[i].item == items[i];
      fault := DispatchReady(prompts, launcher);
    }

    method RefreshTargetBase(revision: Revision) returns (fault: Option<C.Fault>)
      requires Sane()
      modifies this`revisions, log, simulator, simulator.scheduler
      ensures Sane() && C.RefreshTargetBase(old(State()), revision) == C.Reply(State(), fault)
      ensures old(Valid()) ==> Valid()
    {
      hide Laws.Live, Sim.AfterRefresh, Sim.CanRefresh, WellKeyed;
      ghost var before, live := State(), Valid();
      var refused := simulator.RefreshTargetBase(revision);
      if refused.Some? {
        return Some(C.Refused(refused.value));
      }
      RecordFact(BaseRevisionRefreshed(revision));
      if live {
        RefreshFacts(before, completed, revisions, revision);
      }
      revisions := revisions + [revision];
      fault := None;
    }

    // Runtime failures and reconciliation.

    method NoteAttention(item: ItemId)
      requires Sane()
      modifies this`attentionPublished, log
      ensures Sane() && State() == C.NoteAttention(old(State()), item)
    {
      if item !in attentionPublished {
        SetTicketState(item, NeedsAttention);
        attentionPublished := attentionPublished + {item};
      }
    }

    method MarkRuntimeFailure(item: ItemId, code: FailureCode)
      requires Sane()
      modifies this`attempts, this`attentionPublished, log
      ensures Sane() && State() == C.MarkRuntimeFailure(old(State()), item, code)
      ensures old(Valid()) && item in active ==> Valid()
    {
      hide Laws.Live, WellKeyed, C.NoteAttention, C.SetAttempt, C.Emit;
      NoteAttention(item);
      SetAttemptState(item, AttentionNeeded);
      if item in attempts && item in active {
        RecordFact(WorkAttemptStateChanged(active[item].run, AttentionNeeded));
      }
      RecordFact(RuntimeFailed(item, code));
      FailureKeeps(old(State()), completed, revisions, item, code);
    }

    /** The first event with a failure stops the reading. */
    method ObserveRuntimeEvents(item: ItemId, events: seq<C.AgentEvent>, findings: C.Findings)
      returns (failure: Option<FailureRecord>)
      requires Sane()
      modifies this`attempts, this`attentionPublished, log
      ensures Sane() && State() == C.ObserveRuntimeEvents(old(State()), item, events, findings)
      ensures failure == C.FirstFailure(events, findings, 0)
      ensures old(Valid()) && item in active ==> Valid()
    {
      hide Laws.Live, WellKeyed, C.MarkRuntimeFailure;
      for i := 0 to |events|
        invariant Sane() && State() == old(State()) && (old(Valid()) ==> Valid())
        invariant C.FirstFailure(events, findings, 0) == C.FirstFailure(events, findings, i)
      {
        failure := C.Verdict(events, findings, i);
        if failure.Some? {
          MarkRuntimeFailure(item, failure.value.code);
          return;
        }
      }
      failure := None;
    }

    method PublishReview(item: ItemId, o: DeliveryObservation)
      requires Sane()
      modifies this`reviewPublished, log
      ensures Sane() && State() == C.PublishReview(old(State()), item, o)
    {
      if o.prHeadSha != "" && item !in reviewPublished {
        SetTicketState(item, InReview);
        reviewPublished := reviewPublished + {item};
      }
    }

    method RecordWaveState()
      requires Sane()
      modifies log
      ensures Sane() && State() == C.RecordWaveState(old(State()))
    {
      var wave := simulator.scheduler.currentWave;
      if wave.Some? && wave.value.state == S.Released {
        RecordFact(ExecutionWaveStateChanged(wave.value.number, S.Released));
      }
    }

    method Settle(item: ItemId)
      requires Sane() && item in active
      modifies this`active, this`attempts, this`donePublished, log
      ensures Sane() && State() == C.Settle(old(State()), item)
    {
      var run := active[item].run;
      if item !in donePublished {
        SetTicketState(item, Done);
        donePublished := donePublished + {item};
        SetAttemptState(item, ReleasedAttempt);
        RecordFact(WorkAttemptStateChanged(run, ReleasedAttempt));
      }
      active := active - {item};
    }

    method RaiseAttention(item: ItemId)
      requires Sane() && item in active
      modifies this`attempts, this`attentionPublished, log
      ensures Sane() && State() == C.RaiseAttention(old(State()), item)
    {
      if item in attentionPublished {
        return;
      }
      NoteAttention(item);
      SetAttemptState(item, AttentionNeeded);
      RecordFact(WorkAttemptStateChanged(active[item].run, AttentionNeeded));
    }

    method Judge(item: ItemId, o: DeliveryObservation) returns (decision: GateDecision, fault: Option<C.Fault>)
      requires Sane() && item in active
      modifies this`active, this`attempts, this`reviewPublished, this`attentionPublished, this`donePublished
      modifies log, simulator, simulator.scheduler
      ensures Sane()
      ensures match C.Judge(old(State()), item, o)
              case Ok(answer) => fault.None? && (State(), decision) == answer
              case Err(e) => fault == Some(e) && State() == old(State())
    {
      hide C.Settle, C.RaiseAttention, C.RecordWaveState, C.PublishReview, Sim.AfterObserve, Sim.AfterEvaluate, WellKeyed;
      var run := active[item].run;
      var refused := simulator.ObserveDelivery(item, o);
      if refused.Some? {
        return UNDECIDED, Some(C.Refused(refused.value));
      }
      PublishReview(item, o);
      decision := simulator.EvaluateGate(item);
      RecordWaveState();
      RecordFact(C.GateEvent(run, decision, o));
      if decision.status == Approved {
        Settle(item);
      } else if decision.status == Blocked {
        RaiseAttention(item);
      }
      fault := None;
    }

    method Refill(nextBase: Option<Revision>, launcher: C.Launcher) returns (fault: Option<C.Fault>)
      requires Sane()
      modifies this`active, this`attempts, this`prompts, this`revisions, log, simulator, simulator.scheduler
      ensures Sane() && C.Refill(old(State()), nextBase, launcher) == C.Reply(State(), fault)
    {
      hide C.RefreshTargetBase, C.DispatchNextFrontier, Sim.CanRefresh, WellKeyed, Laws.Live;
      if nextBase.None? {
        return None;
      }
      var can := simulator.CanRefreshTargetBase();
      if !can {
        return None;
      }
      fault := RefreshTargetBase(nextBase.value);
      if fault.None? {
        fault := DispatchNextFrontier(launcher);
      }
    }

    method Reconcile(item: ItemId, outcome: C.Outcome, nextBase: Option<Revision>, launcher: C.Launcher)
      returns (fault: Option<C.Fault>)
      requires Sane()
      modifies this, log, simulator, simulator.scheduler
      ensures completed == old(completed)
      ensures Sane() && C.Reconcile(old(State()), item, outcome, nextBase, launcher) == C.Reply(State(), fault)
      ensures old(Valid()) ==> Valid()
    {
      hide Laws.Live, C.Reconcile, WellKeyed;
      ghost var before, live, moved := State(), Valid(), revisions;
      fault := ReconcileOne(item, outcome, nextBase, launcher);
      if live {
        var a := Laws.Reconciling(item, outcome, nextBase, launcher);
        Laws.ReconcileKeeps(before, completed, moved, a);
        revisions := moved + Laws.RefreshedTo(before, a);
      }
    }

    method ReconcileOne(item: ItemId, outcome: C.Outcome, nextBase: Option<Revision>, launcher: C.Launcher)
      returns (fault: Option<C.Fault>)
      requires Sane()
      modifies this, log, simulator, simulator.scheduler
      ensures completed == old(completed)
      ensures Sane() && C.Reconcile(old(State()), item, outcome, nextBase, launcher) == C.Reply(State(), fault)
    {
      hide Laws.Live, C.Judge, C.Refill, C.MarkRuntimeFailure, WellKeyed;
      if item !in active {
        return Some(C.NotActive);
      }
      match outcome
      case AuthorityBroken(error) =>
        MarkRuntimeFailure(item, Operational("authority_violation"));
        RecordFact(AuthorityViolated(item, error));
        return None;
      case WorkspaceLost(code) =>
        SetTicketState(item, NeedsAttention);
        attentionPublished := attentionPublished + {item};
        RecordFact(ReconciliationFailed(item, code));
        return None;
      case ObservationFailed(code) =>
        RecordFact(ReconciliationFailed(item, code));
        return None;
      case Observed(o) =>
        var decision, raised := Judge(item, o);
        if raised.Some? {
          return raised;
        }
        if decision.status != Approved {
          return None;
        }
        fault := Refill(nextBase, launcher);
    }

    // Retry and cancellation.

    method Supersede(item: ItemId)
      requires Sane() && item in active
      modifies this`active, this`attempts, this`reviewPublished, this`attentionPublished, log
      ensures Sane() && State() == C.Supersede(old(State()), item)
    {
      SetAttemptState(item, SupersededAttempt);
      RecordFact(WorkAttemptStateChanged(active[item].run, SupersededAttempt));
      active := active - {item};
      reviewPublished, attentionPublished := reviewPublished - {item}, attentionPublished - {item};
    }

    method Retry(item: ItemId, prompt: Option<string>, destroyed: Option<FailureCode>, launcher: C.Launcher)
      returns (fault: Option<C.Fault>)
      requires Sane()
      modifies this`active, this`attempts, this`prompts, this`reviewPublished, this`attentionPublished
      modifies log, simulator, simulator.scheduler
      ensures Sane() && C.Retry(old(State()), item, prompt, destroyed, launcher) == C.Reply(State(), fault)
      ensures old(Valid()) ==> Valid()
    {
      hide Laws.Live, C.Retry, WellKeyed;
      ghost var before, live := State(), Valid();
      fault := RetryOne(item, prompt, destroyed, launcher);
      if live {
        Laws.RetryKeeps(before, completed, revisions, item, prompt, destroyed, launcher);
      }
    }

    method RetryOne(item: ItemId, prompt: Option<string>, destroyed: Option<FailureCode>, launcher: C.Launcher)
      returns (fault: Option<C.Fault>)
      requires Sane()
      modifies this`active, this`attempts, this`prompts, this`reviewPublished, this`attentionPublished
      modifies log, simulator, simulator.scheduler
      ensures Sane() && C.Retry(old(State()), item, prompt, destroyed, launcher) == C.Reply(State(), fault)
    {
      hide Laws.Live, C.Supersede, C.DispatchReady, Sim.AfterRetry, WellKeyed;
      if item !in active {
        return Some(C.NotActive);
      }
      if item in attempts && attempts[item].state == ReleasedAttempt {
        return Some(C.AlreadyReleased);
      }
      if destroyed.Some? {
        RecordFact(RetryFailed(active[item].run, destroyed.value));
        return Some(C.RetryRefused);
      }
      SupersedeKeepsSimulator(State(), item);
      Supersede(item);
      var refused := simulator.RetryItem(item);
      if refused.Some? {
        return Some(C.Refused(refused.value));
      }
      var next := if prompt.Some? then prompt else PromptFor(prompts, item);
      if next.None? {
        return Some(C.MissingPrompts);
      }
      fault := DispatchReady([Prompt(item, next.value)], launcher);
    }

    method CancelFromWave(item: ItemId, reason: string) returns (fault: Option<C.Fault>)
      requires Sane()
      modifies this`active, this`attempts, log, simulator, simulator.scheduler
      ensures Sane() && C.CancelFromWave(old(State()), item, reason) == C.Reply(State(), fault)
      ensures old(Valid()) ==> Valid()
    {
      hide Laws.Live, Sim.AfterCancel, WellKeyed;
      ghost var before, live := State(), Valid();
      if live {
        Laws.CancelKeeps(before, completed, revisions, item, reason);
      }
      if item !in active {
        return Some(C.NotActive);
      }
      var refused := simulator.CancelFromWave(item, reason);
      if refused.Some? {
        return Some(C.Refused(refused.value));
      }
      active := active - {item};
      SetAttemptState(item, CancelledAttempt);
      SetTicketState(item, CancelledTicket);
      RecordFact(WaveItemCancelled(item, reason));
      fault := None;
    }

    // Restart.

    method RestorePrompts(recorded: seq<Prompt>)
      modifies this`prompts
      ensures prompts == C.RestorePrompts(old(prompts), recorded)
    {
      for i := 0 to |recorded|
        invariant C.RestorePrompts(old(prompts), recorded) == C.RestorePrompts(prompts, recorded[i..])
      {
        assert recorded[i..][0] == recorded[i] && recorded[i..][1..] == recorded[i + 1..];
        prompts := PutPrompt(prompts, recorded[i]);
      }
    }

    method RestoreWaves(waves: seq<S.ExecutionWave>)
      requires Sane()
      modifies simulator, simulator.scheduler
      ensures Sane() && simulator.State() == C.RestoreWaves(old(simulator.State()), waves)
    {
      for i := 0 to |waves|
        invariant Sane() && simulator.State() == C.RestoreWaves(old(simulator.State()), waves[..i])
      {
        assert waves[..i + 1][..i] == waves[..i];
        simulator.RestoreExecutionWave(waves[i]);
      }
      assert waves[..|waves|] == waves;
    }

    method RestoreActive(p: Projection, order: seq<ItemId>)
      requires Sane() && active == map[] && attempts == map[] && Elems(order) <= p.active.Keys
      modifies this`active, this`attempts, simulator, simulator.scheduler
      ensures Sane() && simulator.State() == C.RestoreActive(old(simulator.State()), p, order)
      ensures Recovering(active, attempts, p, order)
    {
      hide Recovering, WellKeyed;
      ghost var before := simulator.State();
      assert Recovering(active, attempts, p, []) by {
        NothingRecovered(p);
      }
      for i := 0 to |order|
        invariant Sane() && Elems(order[..i]) <= p.active.Keys
        invariant simulator.State() == C.RestoreActive(before, p, order[..i])
        invariant Recovering(active, attempts, p, order[..i])
      {
        var item := order[i];
        assert item in Elems(order);
        var r := p.active[item];
        assert order[..i + 1] == order[..i] + [item];
        RecoveredOneMore(active, attempts, p, order[..i], item);
        var assignment := C.Recovered(item, r);
        attempts := attempts[item := C.RecoveredAttempt(p, r.run)];
        active := active[item := assignment];
        RestoredOneMore(before, p, order[..i], item);
        simulator.RestoreDispatch(assignment.dispatch, item in C.ActiveWaveItems(p.waves));
      }
      assert order[..|order|] == order;
    }

    /** Only refreshing the base can refuse; everything else is put back as the projection lists it. */
    method Rehydrate(p: Projection, order: seq<ItemId>) returns (fault: Option<C.Fault>)
      requires Sane() && active == map[] && attempts == map[] && Elems(order) == p.active.Keys
      modifies this, simulator, simulator.scheduler
      ensures Sane()
      ensures match C.Rehydrate(old(State()), p, order)
              case Ok(c) => fault.None? && State() == c
              case Err(e) => fault == Some(e)
    {
      hide C.RestoreActive, C.RestoreWaves, C.RestorePrompts, Sim.AfterRefresh, WellKeyed;
      RestorePrompts(p.prompts);
      var done := C.ItemsInState(p, Done);
      reviewPublished := reviewPublished + (C.ItemsInState(p, InReview) + C.ItemsInState(p, NeedsAttention) + done);
      attentionPublished := attentionPublished + C.ItemsInState(p, NeedsAttention);
      donePublished := donePublished + done;
      if p.base.Some? {
        var refused := simulator.RefreshTargetBase(p.base.value);
        if refused.Some? {
          return Some(C.Refused(refused.value));
        }
      }
      simulator.RestoreReleased(C.FinishedItems(p));
      RestoreWaves(p.waves);
      RestoreActive(p, order);
      fault := None;
    }
  }

  /** A controller rebuilt from its log; the simulator is a new one over the original arguments. */
  method FromEventLog(simulator: Sim.MergeWaveSimulator, log: SqliteEventLog<Key, Event>, order: seq<ItemId>,
                      ghost completed: set<ItemId>)
    returns (controller: DeliveryController, fault: Option<C.Fault>)
    requires simulator.Valid() && log.Valid() && WellKeyed(log.rows)
    requires Elems(order) == Project(log.rows).active.Keys
    modifies simulator, simulator.scheduler
    ensures fresh(controller) && controller.simulator == simulator && controller.log == log && controller.Sane()
    ensures match C.Rehydrate(C.NewController(old(simulator.State())).(log := log.rows), Project(log.rows), order)
            case Ok(c) => fault.None? && controller.State() == c
            case Err(e) => fault == Some(e)
  {
    hide C.Rehydrate, WellKeyed;
    controller := new DeliveryController(simulator, log, completed);
    var p := Projections.FromEventLog(log);
    fault := controller.Rehydrate(p, order);
  }

  lemma NothingRecovered(p: Projection)
    ensures Recovering(map[], map[], p, [])
  {
  }

  lemma RestoredOneMore(sim: Sim.Sim, p: Projection, items: seq<ItemId>, item: ItemId)
    requires Elems(items) <= p.active.Keys && item in p.active
    ensures Elems(items + [item]) <= p.active.Keys
    ensures C.RestoreActive(sim, p, items + [item])
            == Sim.AfterRestoreDispatch(C.RestoreActive(sim, p, items), C.Recovered(item, p.active[item]).dispatch,
                                        item in C.ActiveWaveItems(p.waves))
  {
  }

  /** What has been put back once the listed items are restored. */
  ghost predicate Recovering(active: map<ItemId, C.Assignment>, attempts: map<ItemId, C.WorkAttempt>,
                             p: Projection, items: seq<ItemId>)
    requires Elems(items) <= p.active.Keys
  {
    && active == (map item | item in Elems(items) :: C.Recovered(item, p.active[item]))
    && attempts == (map item | item in Elems(items) :: C.RecoveredAttempt(p, p.active[item].run))
  }

  lemma RecoveredOneMore(active: map<ItemId, C.Assignment>, attempts: map<ItemId, C.WorkAttempt>,
                         p: Projection, items: seq<ItemId>, item: ItemId)
    requires Elems(items) <= p.active.Keys && item in p.active && Recovering(active, attempts, p, items)
    ensures Elems(items + [item]) <= p.active.Keys
    ensures Recovering(active[item := C.Recovered(item, p.active[item])],
                       attempts[item := C.RecoveredAttempt(p, p.active[item].run)], p, items + [item])
  {
  }

  lemma TicketsKeepStarts(rows: seq<Row<Key, Event>>, item: ItemId, e: Event)
    requires e.WorkAttemptStarted?
    ensures C.Clashes(Inserted(rows, RowOf(TicketStateChanged(item, InProgress))), e) <==> C.Clashes(rows, e)
  {
    AnswerIgnoresOthers(rows, RowOf(TicketStateChanged(item, InProgress)), RowOf(e));
  }

  lemma {:induction false} StartingStops(c: C.Controller, ds: seq<Dispatch>, launcher: C.Launcher, n: nat)
    requires n <= |ds| && C.StartEach(c, ds[..n], launcher).fault.Some?
    ensures C.StartEach(c, ds, launcher) == C.StartEach(c, ds[..n], launcher)
    decreases |ds| - n
  {
    if n == |ds| {
      assert ds[..n] == ds;
    } else {
      assert ds[..n + 1][..n] == ds[..n];
      StartingStops(c, ds, launcher, n + 1);
    }
  }

  lemma SupersedeKeepsSimulator(c: C.Controller, item: ItemId)
    requires item in c.active
    ensures C.Supersede(c, item).sim == c.sim && C.Supersede(c, item).prompts == c.prompts
  {
  }

  function ItemsOf(ds: seq<Dispatch>): seq<ItemId> {
    seq(|ds|, i requires 0 <= i < |ds| => ds[i].item)
  }

  lemma RefreshFacts(c: C.Controller, completed: set<ItemId>, revisions: seq<Revision>, revision: Revision)
    requires Laws.Live(c, completed, revisions)
    ensures Sim.CanRefresh(c.sim) <==> Sim.AfterRefresh(c.sim, revision).Ok?
    ensures Sim.CanRefresh(c.sim) ==> Laws.Live(C.RefreshTargetBase(c, revision).ctrl, completed, revisions + [revision])
  {
    hide Laws.Live, Sim.CanRefresh;
    if Sim.CanRefresh(c.sim) {
      Laws.RefreshKeeps(c, completed, revisions, revision);
    }
  }

  lemma FailureKeeps(c: C.Controller, completed: set<ItemId>, revisions: seq<Revision>, item: ItemId, code: FailureCode)
    ensures Laws.Live(c, completed, revisions) && item in c.active
      ==> Laws.Live(C.MarkRuntimeFailure(c, item, code), completed, revisions)
  {
    if Laws.Live(c, completed, revisions) && item in c.active {
      Laws.RuntimeFailureKeeps(c, completed, revisions, item, code);
    }
  }
}
