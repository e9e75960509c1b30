/** The dependency-aware scheduler: its state, what each call does to it, and the class that does it. */
module Scheduling {
  import opened Prelude
  import opened DependencyGraphs

  datatype Policy = ContinuousFrontier | WaveBarrier

  /** A scheduler dispatch: one item, from one base revision. */
  datatype Scheduled = Scheduled(item: ItemId, base: Revision)

  datatype WaveState = Active | Released | Superseded | Cancelled

  datatype ExecutionWave = ExecutionWave(number: nat, base: Revision, items: seq<ItemId>, state: WaveState)

  datatype Fault = NotDispatched | AlreadyReleased | WaveNotReleased

  datatype Schedule = Schedule(
    graph: DependencyGraph,
    policy: Policy,
    base: Revision,
    dispatched: set<ItemId>,
    released: set<ItemId>,
    cancelled: set<ItemId>,
    activeWave: set<ItemId>,
    barrierOpen: bool,
    waveSequence: nat,
    currentWave: Option<ExecutionWave>,
    waves: seq<ExecutionWave>)

  function NewSchedule(graph: DependencyGraph, policy: Policy, base: Revision, completed: set<ItemId>): Schedule {
    Schedule(graph, policy, base, {}, completed, {}, {}, true, 0, None, [])
  }

  function Without(xs: seq<ItemId>, out: set<ItemId>): (kept: seq<ItemId>)
    ensures forall x :: x in kept <==> x in xs && x !in out
    ensures Distinct(xs) ==> Distinct(kept)
  {
    if xs == [] then []
    else
      var rest := Without(xs[1..], out);
      assert xs == [xs[0]] + xs[1..];
      if xs[0] in out then rest else [xs[0]] + rest
  }

  lemma {:induction false} WithoutAppends(xs: seq<ItemId>, x: ItemId, out: set<ItemId>)
    ensures Without(xs + [x], out) == Without(xs, out) + if x in out then [] else [x]
  {
    if xs != [] {
      assert (xs + [x])[1..] == xs[1..] + [x];
      WithoutAppends(xs[1..], x, out);
    }
  }

  /** The items a dispatch would start now, in graph order. */
  function Frontier(s: Schedule): (items: seq<ItemId>)
    ensures Distinct(items)
  {
    if s.policy.WaveBarrier? && !s.barrierOpen then []
    else Without(Ready(s.graph, s.released), s.dispatched)
  }

  function Stamped(items: seq<ItemId>, base: Revision): (stamped: seq<Scheduled>)
    ensures |stamped| == |items|
    ensures forall i :: 0 <= i < |items| ==> stamped[i] == Scheduled(items[i], base)
  {
    seq(|items|, i requires 0 <= i < |items| => Scheduled(items[i], base))
  }

  function Preview(s: Schedule): seq<Scheduled> {
    Stamped(Frontier(s), s.base)
  }

  function ReplaceLast(waves: seq<ExecutionWave>, wave: ExecutionWave): seq<ExecutionWave> {
    if waves == [] then [] else waves[..|waves| - 1] + [wave]
  }

  function WithCurrentWave(s: Schedule, wave: ExecutionWave): Schedule {
    s.(currentWave := Some(wave), waves := ReplaceLast(s.waves, wave))
  }

  function AfterDispatch(s: Schedule): Schedule {
    var items := Frontier(s);
    if items == [] then s
    else
      var wave := ExecutionWave(s.waveSequence + 1, s.base, items, Active);
      var barrier := s.policy.WaveBarrier?;
      s.(dispatched := s.dispatched + Elems(items),
         activeWave := if barrier then Elems(items) else s.activeWave,
         barrierOpen := !barrier && s.barrierOpen,
         waveSequence := s.waveSequence + 1,
         currentWave := Some(wave),
         waves := s.waves + [wave])
  }

  function AfterRelease(s: Schedule, id: ItemId): Result<Schedule, Fault> {
    if id !in s.dispatched then Err(NotDispatched)
    else
      var t := s.(released := s.released + {id});
      if t.currentWave.Some? && Elems(t.currentWave.value.items) <= t.released
      then Ok(WithCurrentWave(t, t.currentWave.value.(state := Released)))
      else Ok(t)
  }

  /** Takes an item off the active wave; the barrier opens when nothing is left on it. */
  function LeaveWave(s: Schedule, id: ItemId, state: WaveState): Schedule {
    var wave := s.activeWave - {id};
    var t := s.(activeWave := wave, barrierOpen := s.barrierOpen || (s.policy.WaveBarrier? && wave == {}));
    if t.currentWave.Some? && id in t.currentWave.value.items
    then WithCurrentWave(t, t.currentWave.value.(state := state))
    else t
  }

  function AfterRetry(s: Schedule, id: ItemId): Result<Schedule, Fault> {
    if id !in s.dispatched then Err(NotDispatched)
    else if id in s.released then Err(AlreadyReleased)
    else Ok(LeaveWave(s.(dispatched := s.dispatched - {id}, cancelled := s.cancelled - {id}), id, Superseded))
  }

  function AfterCancel(s: Schedule, id: ItemId): Result<Schedule, Fault> {
    if id !in s.dispatched then Err(NotDispatched)
    else
      var t := s.(dispatched := s.dispatched - {id}, released := s.released + {id}, cancelled := s.cancelled + {id});
      Ok(LeaveWave(t, id, Cancelled))
  }

  function AfterRefresh(s: Schedule, revision: Revision): Result<Schedule, Fault> {
    if s.policy.WaveBarrier? then
      if s.activeWave == {} || !(s.activeWave <= s.released) then Err(WaveNotReleased)
      else Ok(s.(activeWave := {}, barrierOpen := true, base := revision))
    else Ok(s.(base := revision))
  }

  function AfterRestoreDispatched(s: Schedule, items: set<ItemId>, active: set<ItemId>): Schedule {
    var t := s.(dispatched := s.dispatched + items);
    if s.policy.WaveBarrier? && active != {} then t.(activeWave := active, barrierOpen := false) else t
  }

  function AfterRestoreWave(s: Schedule, wave: ExecutionWave): Schedule {
    s.(currentWave := Some(wave),
       waves := if s.waves == [] || s.waves[|s.waves| - 1].number != wave.number then s.waves + [wave] else s.waves,
       waveSequence := if wave.number > s.waveSequence then wave.number else s.waveSequence)
  }

  function AfterRestoreReleased(s: Schedule, items: set<ItemId>): Schedule {
    s.(released := s.released + items)
  }

  /** How a call that may raise ends: the computed state, or the fault and the state as it was. */
  ghost predicate Ends(spec: Result<Schedule, Fault>, before: Schedule, after: Schedule, fault: Option<Fault>) {
    match spec
    case Ok(s) => fault.None? && after == s
    case Err(e) => fault == Some(e) && after == before
  }

  class Scheduler {
    const graph: DependencyGraph
    const policy: Policy
    var base: Revision
    var dispatched: set<ItemId>
    var released: set<ItemId>
    var cancelled: set<ItemId>
    var activeWave: set<ItemId>
    var barrierOpen: bool
    var waveSequence: nat
    var currentWave: Option<ExecutionWave>
    var waves: seq<ExecutionWave>

    ghost predicate Valid()
      reads this
    {
      currentWave.Some? ==> waves != []
    }

    ghost function State(): Schedule
      reads this
    {
      Schedule(graph, policy, base, dispatched, released, cancelled, activeWave,
               barrierOpen, waveSequence, currentWave, waves)
    }

    constructor (graph: DependencyGraph, policy: Policy, base: Revision, completed: set<ItemId>)
      ensures Valid() && State() == NewSchedule(graph, policy, base, completed)
    {
      this.graph, this.policy, this.base := graph, policy, base;
      dispatched, released, cancelled, activeWave := {}, completed, {}, {};
      barrierOpen, waveSequence, currentWave, waves := true, 0, None, [];
    }

    method PreviewReady() returns (ready: seq<Scheduled>)
      ensures ready == Preview(State())
    {
      if policy == WaveBarrier && !barrierOpen {
        return [];
      }
      var candidates := Ready(graph, released);
      ready := [];
      for i := 0 to |candidates|
        invariant ready == Stamped(Without(candidates[..i], dispatched), base)
      {
        WithoutAppends(candidates[..i], candidates[i], dispatched);
        assert candidates[..i + 1] == candidates[..i] + [candidates[i]];
        if candidates[i] in dispatched {
          continue;
        }
        ready := ready + [Scheduled(candidates[i], base)];
      }
      assert candidates[..|candidates|] == candidates;
    }

    method MarkDispatched(items: seq<ItemId>)
      modifies this`dispatched
      ensures dispatched == old(dispatched) + Elems(items)
    {
      for i := 0 to |items|
        invariant dispatched == old(dispatched) + set k | 0 <= k < i :: items[k]
      {
        dispatched := dispatched + {items[i]};
      }
    }

    method DispatchReady() returns (ready: seq<Scheduled>)
      requires Valid()
      modifies this
      ensures Valid() && State() == AfterDispatch(old(State()))
      ensures ready == Preview(old(State()))
    {
      hide Frontier;
      ready := PreviewReady();
      var items := seq(|ready|, i requires 0 <= i < |ready| => ready[i].item);
      assert items == Frontier(State());
      MarkDispatched(items);
      if policy == WaveBarrier && ready != [] {
        activeWave := Elems(items);
        barrierOpen := false;
      }
      if ready != [] {
        waveSequence := waveSequence + 1;
        currentWave := Some(ExecutionWave(waveSequence, base, items, Active));
        waves := waves + [currentWave.value];
      }
    }

    method Release(id: ItemId) returns (fault: Option<Fault>)
      requires Valid()
      modifies this
      ensures Valid() && Ends(AfterRelease(old(State()), id), old(State()), State(), fault)
    {
      if id !in dispatched {
        return Some(NotDispatched);
      }
      released := released + {id};
      if currentWave.Some? && Elems(currentWave.value.items) <= released {
        SetCurrentWave(currentWave.value.(state := Released));
      }
      fault := None;
    }

    method SetCurrentWave(wave: ExecutionWave)
      requires Valid() && currentWave.Some?
      modifies this`currentWave, this`waves
      ensures Valid() && State() == WithCurrentWave(old(State()), wave)
    {
      currentWave := Some(wave);
      waves := waves[..|waves| - 1] + [wave];
    }

    method Retry(id: ItemId) returns (fault: Option<Fault>)
      requires Valid()
      modifies this
      ensures Valid() && Ends(AfterRetry(old(State()), id), old(State()), State(), fault)
    {
      if id !in dispatched {
        return Some(NotDispatched);
      }
      if id in released {
        return Some(AlreadyReleased);
      }
      dispatched := dispatched - {id};
      cancelled := cancelled - {id};
      activeWave := activeWave - {id};
      if policy == WaveBarrier && activeWave == {} {
        barrierOpen := true;
      }
      if currentWave.Some? && id in currentWave.value.items {
        SetCurrentWave(currentWave.value.(state := Superseded));
      }
      fault := None;
    }

    method Cancel(id: ItemId) returns (fault: Option<Fault>)
      requires Valid()
      modifies this
      ensures Valid() && Ends(AfterCancel(old(State()), id), old(State()), State(), fault)
    {
      if id !in dispatched {
        return Some(NotDispatched);
      }
      dispatched := dispatched - {id};
      released := released + {id};
      cancelled := cancelled + {id};
      activeWave := activeWave - {id};
      if policy == WaveBarrier && activeWave == {} {
        barrierOpen := true;
      }
      if currentWave.Some? && id in currentWave.value.items {
        SetCurrentWave(currentWave.value.(state := Cancelled));
      }
      fault := None;
    }

    method RefreshTargetBase(revision: Revision) returns (fault: Option<Fault>)
      requires Valid()
      modifies this
      ensures Valid() && Ends(AfterRefresh(old(State()), revision), old(State()), State(), fault)
    {
      if policy == WaveBarrier {
        if activeWave == {} || !(activeWave <= released) {
          return Some(WaveNotReleased);
        }
        activeWave := {};
        barrierOpen := true;
      }
      base := revision;
      fault := None;
    }

    method RestoreDispatched(items: set<ItemId>, active: set<ItemId>)
      requires Valid()
      modifies this
      ensures Valid() && State() == AfterRestoreDispatched(old(State()), items, active)
    {
      dispatched := dispatched + items;
      if policy == WaveBarrier && active != {} {
        activeWave := active;
        barrierOpen := false;
      }
    }

    method RestoreWave(wave: ExecutionWave)
      requires Valid()
      modifies this
      ensures Valid() && State() == AfterRestoreWave(old(State()), wave)
    {
      currentWave := Some(wave);
      if waves == [] || waves[|waves| - 1].number != wave.number {
        waves := waves + [wave];
      }
      if wave.number > waveSequence {
        waveSequence := wave.number;
      }
    }

    method RestoreReleased(items: set<ItemId>)
      requires Valid()
      modifies this
      ensures Valid() && State() == AfterRestoreReleased(old(State()), items)
    {
      released := released + items;
    }
  }
}
