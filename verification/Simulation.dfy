/** The gate simulator: it owns the scheduler and adds dispatch identity, observations and decisions. */
module Simulation {
  import opened Prelude
  import opened DependencyGraphs
  import opened Gate
  import opened Identity
  import S = Scheduling

  datatype Event =
    | DispatchCreated(id: ItemId)
    | DeliveryObserved(id: ItemId)
    | GatePending(id: ItemId)
    | GateDecided(id: ItemId)
    | AttemptSuperseded(id: ItemId)
    | ItemCancelled(id: ItemId)
    | TargetBaseRefreshed

  datatype Fault =
    | NotDispatched
    | MissingDispatch
    | WaveNotApproved
    | ReasonRequired
    | SchedulerFault(fault: S.Fault)

  datatype Sim = Sim(
    sched: S.Schedule,
    repository: string,
    root: string,
    review: ReviewPolicy,
    dispatched: map<ItemId, Dispatch>,
    observations: map<ItemId, DeliveryObservation>,
    decisions: map<ItemId, GateDecision>,
    claims: map<ItemId, string>,
    events: seq<Event>,
    activeWave: set<ItemId>,
    attempts: map<ItemId, Attempt>)

  function NewSim(graph: DependencyGraph, policy: S.Policy, base: Revision, repository: string,
                  workspaceRoot: string, review: ReviewPolicy, completed: set<ItemId>): Sim
  {
    Sim(S.NewSchedule(graph, policy, base, completed), repository, StripSlashes(workspaceRoot), review,
        map[], map[], map[], map[], [], {}, map[])
  }

  function AttemptNumber(attempts: map<ItemId, Attempt>, id: ItemId): Attempt {
    if id in attempts then attempts[id] else 1
  }

  /** The dispatch an item gets: its workspace and branch name the current attempt. */
  function DispatchFor(repository: string, root: string, id: ItemId, base: Revision, attempt: nat): Dispatch {
    Dispatch(id, base, repository, WorktreePath(root, id, attempt), BranchRef(id, attempt), attempt)
  }

  function Assigned(s: Sim, id: ItemId): Dispatch {
    DispatchFor(s.repository, s.root, id, s.sched.base, AttemptNumber(s.attempts, id))
  }

  function Assigner(s: Sim): ItemId -> Dispatch {
    id => Assigned(s, id)
  }

  function Created(id: ItemId): Event {
    DispatchCreated(id)
  }

  function ItemsOf(ds: seq<Dispatch>): set<ItemId> {
    set d | d in ds :: d.item
  }

  lemma AssignedItems(s: Sim, items: seq<ItemId>)
    ensures ItemsOf(MapAll(items, Assigner(s))) == Elems(items)
  {
  }

  function Preview(s: Sim): seq<Dispatch> {
    MapAll(S.Frontier(s.sched), Assigner(s))
  }

  function AfterDispatch(s: Sim): Sim {
    var items := S.Frontier(s.sched);
    s.(sched := S.AfterDispatch(s.sched),
       dispatched := WithAll(s.dispatched, items, Assigner(s)),
       events := s.events + MapAll(items, Created),
       activeWave := if s.sched.policy.WaveBarrier? && items != [] then Elems(items) else s.activeWave)
  }

  function AfterClaim(s: Sim, id: ItemId, claim: string): Sim {
    s.(claims := s.claims[id := claim])
  }

  predicate IsApproved(s: Sim, id: ItemId) {
    id in s.decisions && s.decisions[id].status.Approved?
  }

  function AfterObserve(s: Sim, id: ItemId, observation: DeliveryObservation): Result<Sim, Fault> {
    if id !in s.dispatched then Err(NotDispatched)
    else
      var stale := id in s.decisions && !s.decisions[id].status.Approved?;
      Ok(s.(observations := s.observations[id := observation],
            decisions := if stale then s.decisions - {id} else s.decisions,
            events := s.events + [DeliveryObserved(id)]))
  }

  /** The decision is cached; an approval releases the item in the scheduler. */
  function AfterEvaluate(s: Sim, id: ItemId): Result<(Sim, GateDecision), Fault> {
    if id in s.decisions then Ok((s, s.decisions[id]))
    else if id !in s.observations then Ok((s, UNDECIDED))
    else if id !in s.dispatched then Err(MissingDispatch)
    else
      var decision := Decide(s.review, s.dispatched[id], s.observations[id]);
      var event := if decision.status.Pending? then GatePending(id) else GateDecided(id);
      var t := s.(decisions := s.decisions[id := decision], events := s.events + [event]);
      if decision.status.Approved? then
        match S.AfterRelease(s.sched, id)
        case Ok(sched) => Ok((t.(sched := sched), decision))
        case Err(fault) => Err(SchedulerFault(fault))
      else Ok((t, decision))
  }

  predicate CanRefresh(s: Sim) {
    s.sched.policy.WaveBarrier? ==> s.activeWave != {} && forall id :: id in s.activeWave ==> IsApproved(s, id)
  }

  function AfterRefresh(s: Sim, revision: Revision): Result<Sim, Fault> {
    if !CanRefresh(s) then Err(WaveNotApproved)
    else
      match S.AfterRefresh(s.sched, revision)
      case Err(fault) => Err(SchedulerFault(fault))
      case Ok(sched) => Ok(s.(sched := sched, activeWave := {}, events := s.events + [TargetBaseRefreshed]))
  }

  /** Everything the simulator remembers about an item's current attempt is dropped. */
  function Forget(s: Sim, id: ItemId): Sim {
    s.(dispatched := s.dispatched - {id}, observations := s.observations - {id},
       decisions := s.decisions - {id}, claims := s.claims - {id}, activeWave := s.activeWave - {id})
  }

  function AfterRetry(s: Sim, id: ItemId): Result<Sim, Fault> {
    match S.AfterRetry(s.sched, id)
    case Err(fault) => Err(SchedulerFault(fault))
    case Ok(sched) =>
      Ok(Forget(s, id).(sched := sched, attempts := s.attempts[id := AttemptNumber(s.attempts, id) + 1],
                        events := s.events + [AttemptSuperseded(id)]))
  }

  function AfterCancel(s: Sim, id: ItemId, reason: string): Result<Sim, Fault> {
    if IsBlank(reason) then Err(ReasonRequired)
    else
      match S.AfterCancel(s.sched, id)
      case Err(fault) => Err(SchedulerFault(fault))
      case Ok(sched) => Ok(Forget(s, id).(sched := sched, events := s.events + [ItemCancelled(id)]))
  }

  function AfterRestoreDispatch(s: Sim, d: Dispatch, active: bool): Sim {
    s.(sched := S.AfterRestoreDispatched(s.sched, {d.item}, if active then {d.item} else {}),
       dispatched := s.dispatched[d.item := d],
       activeWave := if active then s.activeWave + {d.item} else s.activeWave)
  }

  function AfterRestoreWave(s: Sim, wave: S.ExecutionWave): Sim {
    s.(sched := S.AfterRestoreWave(s.sched, wave),
       activeWave := if wave.state.Active? then Elems(wave.items) else {})
  }

  function AfterRestoreReleased(s: Sim, items: set<ItemId>): Sim {
    s.(sched := S.AfterRestoreReleased(s.sched, items))
  }

  ghost predicate Ends(spec: Result<Sim, Fault>, before: Sim, after: Sim, fault: Option<Fault>) {
    match spec
    case Ok(s) => fault.None? && after == s
    case Err(e) => fault == Some(e) && after == before
  }

  class MergeWaveSimulator {
    const scheduler: S.Scheduler
    const repository: string
    const root: string
    const review: ReviewPolicy
    var dispatched: map<ItemId, Dispatch>
    var observations: map<ItemId, DeliveryObservation>
    var decisions: map<ItemId, GateDecision>
    var claims: map<ItemId, string>
    var events: seq<Event>
    var activeWave: set<ItemId>
    var attempts: map<ItemId, Attempt>

    ghost predicate Valid()
      reads this, scheduler
    {
      && scheduler.Valid()
      && observations.Keys <= dispatched.Keys <= scheduler.dispatched
    }

    ghost function State(): Sim
      reads this, scheduler
    {
      Sim(scheduler.State(), repository, root, review, dispatched, observations, decisions, claims,
          events, activeWave, attempts)
    }

    constructor (graph: DependencyGraph, policy: S.Policy, base: Revision, repository: string,
                 workspaceRoot: string, review: ReviewPolicy, completed: set<ItemId>)
      ensures Valid() && fresh(scheduler)
      ensures State() == NewSim(graph, policy, base, repository, workspaceRoot, review, completed)
    {
      scheduler := new S.Scheduler(graph, policy, base, completed);
      this.repository, this.root, this.review := repository, StripSlashes(workspaceRoot), review;
      dispatched, observations, decisions, claims := map[], map[], map[], map[];
      events, activeWave, attempts := [], {}, map[];
    }

    method DispatchReady() returns (ready: seq<Dispatch>)
      requires Valid()
      modifies this, scheduler
      ensures Valid() && State() == AfterDispatch(old(State()))
      ensures ready == Preview(old(State()))
    {
      ghost var before := State();
      ghost var items := S.Frontier(before.sched);
      ghost var assign := Assigner(before);
      var scheduled := scheduler.DispatchReady();
      ready := AssignAll(scheduled, items, assign);
      AssignedItems(before, items);
      if scheduler.policy == S.WaveBarrier && ready != [] {
        activeWave := ItemsOf(ready);
      }
    }

    /** The loop of `DispatchReady` over what the scheduler dispatched. */
    method AssignAll(scheduled: seq<S.Scheduled>, ghost items: seq<ItemId>, ghost assign: ItemId -> Dispatch)
      returns (ready: seq<Dispatch>)
      requires |scheduled| == |items|
      requires forall i :: 0 <= i < |items| ==>
        && scheduled[i].item == items[i]
        && assign(items[i])
           == DispatchFor(repository, root, items[i], scheduled[i].base, AttemptNumber(attempts, items[i]))
      modifies this`dispatched, this`events
      ensures ready == MapAll(items, assign)
      ensures dispatched == WithAll(old(dispatched), items, assign)
      ensures events == old(events) + MapAll(items, Created)
    {
      ready := [];
      for i := 0 to |scheduled|
        invariant ready == MapAll(items[..i], assign)
        invariant dispatched == WithAll(old(dispatched), items[..i], assign)
        invariant events == old(events) + MapAll(items[..i], Created)
      {
        var id := scheduled[i].item;
        var dispatch := DispatchFor(repository, root, id, scheduled[i].base, AttemptNumber(attempts, id));
        WithOneMore(old(dispatched), items[..i], id, assign);
        MapOneMore(items[..i], id, assign);
        MapOneMore(items[..i], id, Created);
        assert items[..i + 1] == items[..i] + [id];
        dispatched := dispatched[id := dispatch];
        events := events + [DispatchCreated(id)];
        ready := ready + [dispatch];
      }
      assert items[..|items|] == items;
    }

    method PreviewReady() returns (ready: seq<Dispatch>)
      ensures ready == Preview(State())
    {
      var scheduled := scheduler.PreviewReady();
      ghost var items, assign := S.Frontier(scheduler.State()), Assigner(State());
      ready := [];
      for i := 0 to |scheduled|
        invariant ready == MapAll(items[..i], assign)
      {
        MapOneMore(items[..i], items[i], assign);
        assert items[..i + 1] == items[..i] + [items[i]];
        var id := scheduled[i].item;
        ready := ready + [DispatchFor(repository, root, id, scheduled[i].base, AttemptNumber(attempts, id))];
      }
      assert items[..|items|] == items;
    }

    method RecordAgentClaim(id: ItemId, claim: string)
      requires Valid()
      modifies this
      ensures Valid() && State() == AfterClaim(old(State()), id, claim)
    {
      claims := claims[id := claim];
    }

    method ObserveDelivery(id: ItemId, observation: DeliveryObservation) returns (fault: Option<Fault>)
      requires Valid()
      modifies this
      ensures Valid() && Ends(AfterObserve(old(State()), id, observation), old(State()), State(), fault)
    {
      if id !in dispatched {
        return Some(NotDispatched);
      }
      observations := observations[id := observation];
      if id in decisions && decisions[id].status != Approved {
        decisions := decisions - {id};
      }
      events := events + [DeliveryObserved(id)];
      fault := None;
    }

    /** Never raises: the dispatch of an observed item is known, and the scheduler accepts its release. */
    method EvaluateGate(id: ItemId) returns (decision: GateDecision)
      requires Valid()
      modifies this, scheduler
      ensures Valid() && AfterEvaluate(old(State()), id) == Ok((State(), decision))
    {
      if id in decisions {
        return decisions[id];
      }
      if id !in observations {
        return UNDECIDED;
      }
      decision := Decide(review, dispatched[id], observations[id]);
      decisions := decisions[id := decision];
      if decision.status == Approved {
        var fault := scheduler.Release(id);
        assert fault.None?;
      }
      events := events + [if decision.status == Pending then GatePending(id) else GateDecided(id)];
    }

    method CanRefreshTargetBase() returns (can: bool)
      ensures can == CanRefresh(State())
    {
      if scheduler.policy != S.WaveBarrier {
        return true;
      }
      can := activeWave != {} && forall id :: id in activeWave ==> id in decisions && decisions[id].status == Approved;
    }

    method RefreshTargetBase(revision: Revision) returns (fault: Option<Fault>)
      requires Valid()
      modifies this, scheduler
      ensures Valid() && Ends(AfterRefresh(old(State()), revision), old(State()), State(), fault)
    {
      var can := CanRefreshTargetBase();
      if !can {
        return Some(WaveNotApproved);
      }
      var refused := scheduler.RefreshTargetBase(revision);
      if refused.Some? {
        return Some(SchedulerFault(refused.value));
      }
      activeWave := {};
      events := events + [TargetBaseRefreshed];
      fault := None;
    }

    method RetryItem(id: ItemId) returns (fault: Option<Fault>)
      requires Valid()
      modifies this, scheduler
      ensures Valid() && Ends(AfterRetry(old(State()), id), old(State()), State(), fault)
    {
      var refused := scheduler.Retry(id);
      if refused.Some? {
        return Some(SchedulerFault(refused.value));
      }
      ForgetAttempt(id);
      attempts := attempts[id := AttemptNumber(attempts, id) + 1];
      events := events + [AttemptSuperseded(id)];
      fault := None;
    }

    method CancelFromWave(id: ItemId, reason: string) returns (fault: Option<Fault>)
      requires Valid()
      modifies this, scheduler
      ensures Valid() && Ends(AfterCancel(old(State()), id, reason), old(State()), State(), fault)
    {
      if IsBlank(reason) {
        return Some(ReasonRequired);
      }
      var refused := scheduler.Cancel(id);
      if refused.Some? {
        return Some(SchedulerFault(refused.value));
      }
      ForgetAttempt(id);
      events := events + [ItemCancelled(id)];
      fault := None;
    }

    method ForgetAttempt(id: ItemId)
      modifies this`dispatched, this`observations, this`decisions, this`claims, this`activeWave
      ensures State() == Forget(old(State()), id)
    {
      dispatched, observations := dispatched - {id}, observations - {id};
      decisions, claims := decisions - {id}, claims - {id};
      activeWave := activeWave - {id};
    }

    method RestoreDispatch(dispatch: Dispatch, active: bool)
      requires Valid()
      modifies this, scheduler
      ensures Valid() && State() == AfterRestoreDispatch(old(State()), dispatch, active)
    {
      dispatched := dispatched[dispatch.item := dispatch];
      scheduler.RestoreDispatched({dispatch.item}, if active then {dispatch.item} else {});
      if active {
        activeWave := activeWave + {dispatch.item};
      }
    }

    method RestoreExecutionWave(wave: S.ExecutionWave)
      requires Valid()
      modifies this, scheduler
      ensures Valid() && State() == AfterRestoreWave(old(State()), wave)
    {
      scheduler.RestoreWave(wave);
      activeWave := if wave.state == S.Active then Elems(wave.items) else {};
    }

    method RestoreReleased(items: set<ItemId>)
      requires Valid()
      modifies scheduler
      ensures Valid() && State() == AfterRestoreReleased(old(State()), items)
    {
      scheduler.RestoreReleased(items);
    }
  }
}
