/** The delivery controller over the simulator and the event log, one function per call. */
module Controllers {
  import opened Prelude
  import opened EventLogs
  import opened Gate
  import opened Projections
  import Sim = Simulation
  import S = Scheduling

  datatype Assignment = Assignment(dispatch: Dispatch, workspace: Workspace, run: RunId)

  datatype WorkAttempt = WorkAttempt(run: RunId, state: AttemptState)

  datatype Controller = Controller(
    sim: Sim.Sim,
    log: seq<Row<Key, Event>>,
    active: map<ItemId, Assignment>,
    attempts: map<ItemId, WorkAttempt>,
    prompts: seq<Prompt>,
    reviewPublished: set<ItemId>,
    attentionPublished: set<ItemId>,
    donePublished: set<ItemId>)

  datatype Fault =
    | NotActive
    | MissingPrompts
    | TemplateRefused
    | PromptChanged
    | AlreadyReleased
    | RetryRefused
    | LogConflict
    | Refused(fault: Sim.Fault)

  datatype Reply = Reply(ctrl: Controller, fault: Option<Fault>)

  /**
   * What the platform answers when attempts are launched: whether an item's skill template still passes its checks,
   * and the workspace of an item and an attempt number. Items without a template always pass.
   */
  datatype Launcher = Launcher(admits: ItemId -> bool, create: (ItemId, nat) -> Workspace)

  /** What the outside world answers while one item is reconciled. */
  datatype Outcome =
    | AuthorityBroken(error: string)
    | WorkspaceLost(code: FailureCode)
    | ObservationFailed(code: FailureCode)
    | Observed(observation: DeliveryObservation)

  function NewController(sim: Sim.Sim): Controller {
    Controller(sim, [], map[], map[], [], {}, {}, {})
  }

  function RunOf(d: Dispatch): RunId {
    RunId(d.item, d.base, d.attempt)
  }

  function Emit(c: Controller, e: Event): Controller {
    c.(log := Inserted(c.log, RowOf(e)))
  }

  /** Appending would be answered with a conflict: the key stands for something else. */
  predicate Clashes(rows: seq<Row<Key, Event>>, e: Event) {
    Answer(rows, RowOf(e)).Err?
  }

  function ConflictIf(clash: bool): Option<Fault> {
    if clash then Some(LogConflict) else None
  }

  function SetTicket(c: Controller, item: ItemId, ticket: TicketState): Controller {
    Emit(c, TicketStateChanged(item, ticket))
  }

  function SetAttempt(c: Controller, item: ItemId, state: AttemptState): Controller {
    if item in c.attempts then c.(attempts := c.attempts[item := c.attempts[item].(state := state)]) else c
  }

  /** Prompt snapshots are recorded in turn; a changed prompt stops the call, what came before stays recorded. */
  function PersistPrompts(c: Controller, prompts: seq<Prompt>): Reply
    decreases prompts
  {
    if prompts == [] then Reply(c, None)
    else
      var p := prompts[0];
      var existing := PromptFor(c.prompts, p.item);
      if existing.Some? && existing.value != p.text then Reply(c, Some(PromptChanged))
      else
        var t := if existing.Some? then c else c.(prompts := c.prompts + [p]);
        PersistPrompts(Emit(t, PromptSnapshotRecorded(p)), prompts[1..])
  }

  function StartAttempt(c: Controller, d: Dispatch, workspace: Workspace): Controller {
    var run := RunOf(d);
    var t := SetTicket(c, d.item, InProgress);
    var u := t.(attempts := t.attempts[d.item := WorkAttempt(run, Running)],
                active := t.active[d.item := Assignment(d, workspace, run)]);
    Emit(u, WorkAttemptStarted(run, workspace))
  }

  function StartAll(c: Controller, ds: seq<Dispatch>, launcher: Launcher): Controller {
    if ds == [] then c
    else
      var t := StartAll(c, ds[..|ds| - 1], launcher);
      var d := ds[|ds| - 1];
      StartAttempt(t, d, launcher.create(d.item, d.attempt))
  }

  function AnnounceWave(c: Controller): Controller {
    match c.sim.sched.currentWave
    case None => c
    case Some(wave) => Emit(c, ExecutionWaveStarted(wave.number, wave.base, wave.items))
  }

  function StartOf(d: Dispatch, launcher: Launcher): Event {
    WorkAttemptStarted(RunOf(d), launcher.create(d.item, d.attempt))
  }

  /** Starts the dispatches in turn; the first whose start the log contradicts raises, with its attempt in place. */
  function StartEach(c: Controller, ds: seq<Dispatch>, launcher: Launcher): Reply {
    if ds == [] then Reply(c, None)
    else
      var r := StartEach(c, ds[..|ds| - 1], launcher);
      var d := ds[|ds| - 1];
      if r.fault.Some? then r
      else Reply(StartAttempt(r.ctrl, d, launcher.create(d.item, d.attempt)), ConflictIf(Clashes(r.ctrl.log, StartOf(d, launcher))))
  }

  function CurrentWaveEvent(c: Controller): Option<Event> {
    match c.sim.sched.currentWave
    case None => None
    case Some(wave) => Some(ExecutionWaveStarted(wave.number, wave.base, wave.items))
  }

  function StartFrontier(c: Controller, launcher: Launcher): Reply {
    var r := StartEach(c.(sim := Sim.AfterDispatch(c.sim)), Sim.Preview(c.sim), launcher);
    if r.fault.Some? then r
    else
      var e := CurrentWaveEvent(r.ctrl);
      Reply(AnnounceWave(r.ctrl), ConflictIf(e.Some? && Clashes(r.ctrl.log, e.value)))
  }

  /** Where starting the frontier leads when the log contradicts nothing. */
  function DispatchFrontier(c: Controller, launcher: Launcher): Controller {
    AnnounceWave(StartAll(c.(sim := Sim.AfterDispatch(c.sim)), Sim.Preview(c.sim), launcher))
  }

  predicate HasPrompts(prompts: seq<Prompt>, items: seq<ItemId>) {
    forall i :: 0 <= i < |items| ==> PromptFor(prompts, items[i]).Some?
  }

  /** The prompts contradict neither each other nor what is recorded. */
  predicate Agree(known: seq<Prompt>, prompts: seq<Prompt>) {
    && (forall i :: 0 <= i < |prompts| ==>
          PromptFor(known, prompts[i].item).None? || PromptFor(known, prompts[i].item).value == prompts[i].text)
    && forall i, j :: 0 <= i < j < |prompts| && prompts[i].item == prompts[j].item ==> prompts[i].text == prompts[j].text
  }

  /** Every item's template passes: the pack version, the manifest, the authority and its expiry, the runtime. */
  predicate Admitted(launcher: Launcher, items: seq<ItemId>) {
    forall i :: 0 <= i < |items| ==> launcher.admits(items[i])
  }

  function DispatchReady(c: Controller, prompts: seq<Prompt>, launcher: Launcher): Reply {
    if !HasPrompts(prompts, S.Frontier(c.sim.sched)) then Reply(c, Some(MissingPrompts))
    else if !Admitted(launcher, S.Frontier(c.sim.sched)) then Reply(c, Some(TemplateRefused))
    else
      var persisted := PersistPrompts(c, prompts);
      if persisted.fault.Some? then persisted
      else StartFrontier(persisted.ctrl, launcher)
  }

  function DispatchNextFrontier(c: Controller, launcher: Launcher): Reply {
    var items := S.Frontier(c.sim.sched);
    if items == [] then Reply(c, None)
    else if !HasPrompts(c.prompts, items) then Reply(Emit(c, FrontierWaitingForPrompts(items)), None)
    else DispatchReady(c, c.prompts, launcher)
  }

  function RefreshTargetBase(c: Controller, revision: Revision): Reply {
    match Sim.AfterRefresh(c.sim, revision)
    case Err(fault) => Reply(c, Some(Refused(fault)))
    case Ok(sim) => Reply(Emit(c.(sim := sim), BaseRevisionRefreshed(revision)), None)
  }

  /** The ticket moves to attention once. */
  function NoteAttention(c: Controller, item: ItemId): Controller {
    if item in c.attentionPublished then c
    else SetTicket(c, item, NeedsAttention).(attentionPublished := c.attentionPublished + {item})
  }

  function MarkRuntimeFailure(c: Controller, item: ItemId, code: FailureCode): Controller {
    var u := SetAttempt(NoteAttention(c, item), item, AttentionNeeded);
    var v := if item in u.attempts && item in u.active
             then Emit(u, WorkAttemptStateChanged(u.active[item].run, AttentionNeeded)) else u;
    Emit(v, RuntimeFailed(item, code))
  }

  // Runtime events.

  /** What a runtime reports; skill events and other claims are told apart by their kind. */
  datatype AgentEvent =
    | RuntimeTimeout
    | AuthorityViolation
    | RuntimeExited(returncode: Option<int>)
    | OtherEvent(kind: string)

  function ClassifyRuntimeEvent(e: AgentEvent): Option<FailureRecord> {
    match e
    case RuntimeTimeout => Some(FailureRecord(Operational("agent_timeout"), true))
    case AuthorityViolation => Some(FailureRecord(Operational("authority_violation"), true))
    case RuntimeExited(returncode) =>
      if returncode.None? || returncode == Some(0) then None
      else Some(FailureRecord(Operational("runtime_failed"), true))
    case OtherEvent(_) => None
  }

  /** What the skill checks find wrong with the event at a position, if anything. */
  type Findings = nat -> Option<FailureRecord>

  function Verdict(events: seq<AgentEvent>, findings: Findings, i: nat): Option<FailureRecord>
    requires i < |events|
  {
    if findings(i).Some? then findings(i) else ClassifyRuntimeEvent(events[i])
  }

  predicate IsFirst(events: seq<AgentEvent>, findings: Findings, i: nat, k: int) {
    i <= k < |events| && forall j :: i <= j < k ==> Verdict(events, findings, j).None?
  }

  /** The verdict on the first event at or after a position that has one. */
  function FirstFailure(events: seq<AgentEvent>, findings: Findings, i: nat): (failure: Option<FailureRecord>)
    requires i <= |events|
    ensures failure.None? <==> forall k :: i <= k < |events| ==> Verdict(events, findings, k).None?
    ensures failure.Some? ==> exists k :: IsFirst(events, findings, i, k) && Verdict(events, findings, k) == failure
    decreases |events| - i
  {
    if i == |events| then None
    else if Verdict(events, findings, i).Some? then Verdict(events, findings, i)
    else FirstFailure(events, findings, i + 1)
  }

  function ObserveRuntimeEvents(c: Controller, item: ItemId, events: seq<AgentEvent>, findings: Findings): Controller {
    var failure := FirstFailure(events, findings, 0);
    if failure.None? then c else MarkRuntimeFailure(c, item, failure.value.code)
  }

  /** The ticket moves to review once a pull request is seen. */
  function PublishReview(c: Controller, item: ItemId, o: DeliveryObservation): Controller {
    if o.prHeadSha != "" && item !in c.reviewPublished
    then SetTicket(c, item, InReview).(reviewPublished := c.reviewPublished + {item})
    else c
  }

  function RecordWaveState(c: Controller): (t: Controller)
    ensures t == c.(log := t.log)
  {
    if c.sim.sched.currentWave.Some? && c.sim.sched.currentWave.value.state.Released?
    then Emit(c, ExecutionWaveStateChanged(c.sim.sched.currentWave.value.number, S.Released))
    else c
  }

  function GateEvent(run: RunId, decision: GateDecision, o: DeliveryObservation): Event {
    GateRecorded(run, decision.status, if decision.failure.Some? then Some(decision.failure.value.code) else None,
                 o.prHeadSha, o.ciHeadSha, o.mergeRevision)
  }

  /** An approved item leaves the active set; its ticket is done. */
  function Settle(c: Controller, item: ItemId): Controller
    requires item in c.active
  {
    var run := c.active[item].run;
    var t :=
      if item in c.donePublished then c
      else
        var u := SetTicket(c, item, Done).(donePublished := c.donePublished + {item});
        Emit(SetAttempt(u, item, ReleasedAttempt), WorkAttemptStateChanged(run, ReleasedAttempt));
    t.(active := t.active - {item})
  }

  function RaiseAttention(c: Controller, item: ItemId): Controller
    requires item in c.active
  {
    if item in c.attentionPublished then c
    else
      Emit(SetAttempt(NoteAttention(c, item), item, AttentionNeeded), WorkAttemptStateChanged(c.active[item].run, AttentionNeeded))
  }

  /** Observing, deciding and recording; everything a reconciliation does before it refills the frontier. */
  function Judge(c: Controller, item: ItemId, o: DeliveryObservation): Result<(Controller, GateDecision), Fault>
    requires item in c.active
  {
    match Sim.AfterObserve(c.sim, item, o)
    case Err(fault) => Err(Refused(fault))
    case Ok(observed) =>
      var t := PublishReview(c.(sim := observed), item, o);
      match Sim.AfterEvaluate(t.sim, item)
      case Err(fault) => Err(Refused(fault))
      case Ok((sim, decision)) =>
        var u := Emit(RecordWaveState(t.(sim := sim)), GateEvent(c.active[item].run, decision, o));
        Ok((if decision.status.Approved? then Settle(u, item)
            else if decision.status.Blocked? then RaiseAttention(u, item)
            else u,
            decision))
  }

  /** After an approval the target base is refreshed, when a provider answers, and the next frontier starts. */
  function Refill(c: Controller, nextBase: Option<Revision>, launcher: Launcher): Reply {
    if nextBase.None? || !Sim.CanRefresh(c.sim) then Reply(c, None)
    else
      var refreshed := RefreshTargetBase(c, nextBase.value);
      if refreshed.fault.Some? then refreshed else DispatchNextFrontier(refreshed.ctrl, launcher)
  }

  function Reconcile(c: Controller, item: ItemId, outcome: Outcome, nextBase: Option<Revision>,
                     launcher: Launcher): Reply
  {
    if item !in c.active then Reply(c, Some(NotActive))
    else
      match outcome
      case AuthorityBroken(error) =>
        Reply(Emit(MarkRuntimeFailure(c, item, Operational("authority_violation")), AuthorityViolated(item, error)), None)
      case WorkspaceLost(code) =>
        var t := SetTicket(c, item, NeedsAttention).(attentionPublished := c.attentionPublished + {item});
        Reply(Emit(t, ReconciliationFailed(item, code)), None)
      case ObservationFailed(code) => Reply(Emit(c, ReconciliationFailed(item, code)), None)
      case Observed(o) =>
        match Judge(c, item, o)
        case Err(fault) => Reply(c, Some(fault))
        case Ok((t, decision)) => if decision.status.Approved? then Refill(t, nextBase, launcher) else Reply(t, None)
  }

  /** The replaced attempt is recorded and dropped before the simulator makes the item dispatchable again. */
  function Supersede(c: Controller, item: ItemId): Controller
    requires item in c.active
  {
    var t := Emit(SetAttempt(c, item, SupersededAttempt), WorkAttemptStateChanged(c.active[item].run, SupersededAttempt));
    t.(active := t.active - {item},
       reviewPublished := t.reviewPublished - {item},
       attentionPublished := t.attentionPublished - {item})
  }

  function Retry(c: Controller, item: ItemId, prompt: Option<string>, destroyed: Option<FailureCode>,
                 launcher: Launcher): Reply
  {
    if item !in c.active then Reply(c, Some(NotActive))
    else if item in c.attempts && c.attempts[item].state.ReleasedAttempt? then Reply(c, Some(AlreadyReleased))
    else if destroyed.Some? then
      Reply(Emit(c, RetryFailed(c.active[item].run, destroyed.value)), Some(RetryRefused))
    else
      var t := Supersede(c, item);
      match Sim.AfterRetry(t.sim, item)
      case Err(fault) => Reply(t, Some(Refused(fault)))
      case Ok(sim) =>
        var next := if prompt.Some? then prompt else PromptFor(t.prompts, item);
        if next.None? then Reply(t.(sim := sim), Some(MissingPrompts))
        else DispatchReady(t.(sim := sim), [Prompt(item, next.value)], launcher)
  }

  function CancelFromWave(c: Controller, item: ItemId, reason: string): Reply {
    if item !in c.active then Reply(c, Some(NotActive))
    else
      match Sim.AfterCancel(c.sim, item, reason)
      case Err(fault) => Reply(c, Some(Refused(fault)))
      case Ok(sim) =>
        var t := SetAttempt(c.(sim := sim, active := c.active - {item}), item, CancelledAttempt);
        Reply(Emit(SetTicket(t, item, CancelledTicket), WaveItemCancelled(item, reason)), None)
  }

  // Restart.

  function RestoreWaves(sim: Sim.Sim, waves: seq<S.ExecutionWave>): Sim.Sim {
    if waves == [] then sim
    else Sim.AfterRestoreWave(RestoreWaves(sim, waves[..|waves| - 1]), waves[|waves| - 1])
  }

  function Recovered(item: ItemId, r: ActiveRecord): Assignment {
    var d := Dispatch(item, r.run.base, r.workspace.repository, r.workspace.worktreePath, r.workspace.branchRef, 1);
    Assignment(d, r.workspace, r.run)
  }

  function RecoveredAttempt(p: Projection, run: RunId): WorkAttempt {
    WorkAttempt(run, if run in p.attemptStates then p.attemptStates[run] else Running)
  }

  function RestorePrompts(prompts: seq<Prompt>, recorded: seq<Prompt>): seq<Prompt>
    decreases recorded
  {
    if recorded == [] then prompts else RestorePrompts(PutPrompt(prompts, recorded[0]), recorded[1..])
  }

  function ActiveWaveItems(waves: seq<S.ExecutionWave>): set<ItemId> {
    set i, k | 0 <= i < |waves| && waves[i].state.Active? && 0 <= k < |waves[i].items| :: waves[i].items[k]
  }

  function RestoreActive(sim: Sim.Sim, p: Projection, order: seq<ItemId>): Sim.Sim
    requires Elems(order) <= p.active.Keys
  {
    if order == [] then sim
    else
      var init, item := order[..|order| - 1], order[|order| - 1];
      assert order == init + [item];
      Sim.AfterRestoreDispatch(RestoreActive(sim, p, init), Recovered(item, p.active[item]).dispatch,
                               item in ActiveWaveItems(p.waves))
  }

  function FinishedItems(p: Projection): set<ItemId> {
    set item | item in p.tickets && (p.tickets[item].Done? || p.tickets[item].CancelledTicket?)
  }

  function ItemsInState(p: Projection, ticket: TicketState): set<ItemId> {
    set item | item in p.tickets && p.tickets[item] == ticket
  }

  /** Rebuilds a fresh controller from the projection; `order` is the order the projection lists active items in. */
  function Rehydrate(c: Controller, p: Projection, order: seq<ItemId>): Result<Controller, Fault>
    requires Elems(order) == p.active.Keys
  {
    var based := if p.base.None? then Ok(c.sim) else Sim.AfterRefresh(c.sim, p.base.value);
    match based
    case Err(fault) => Err(Refused(fault))
    case Ok(sim) =>
      var waved := RestoreWaves(Sim.AfterRestoreReleased(sim, FinishedItems(p)), p.waves);
      var review := ItemsInState(p, InReview) + ItemsInState(p, NeedsAttention) + ItemsInState(p, Done);
      Ok(c.(sim := RestoreActive(waved, p, order),
            active := map item | item in p.active :: Recovered(item, p.active[item]),
            attempts := map item | item in p.active :: RecoveredAttempt(p, p.active[item].run),
            prompts := RestorePrompts(c.prompts, p.prompts),
            reviewPublished := c.reviewPublished + review,
            attentionPublished := c.attentionPublished + ItemsInState(p, NeedsAttention),
            donePublished := c.donePublished + ItemsInState(p, Done)))
  }
}
