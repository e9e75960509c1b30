/** What every run of the scheduler keeps: ownership, the barrier, waves, downward closure and progress. */
module SchedulingLaws {
  import opened Prelude
  import opened DependencyGraphs
  import opened Scheduling

  datatype Call =
    | Dispatch
    | Release(id: ItemId)
    | Retry(id: ItemId)
    | Cancel(id: ItemId)
    | Refresh(revision: Revision)

  function Kept(r: Result<Schedule, Fault>, s: Schedule): Schedule {
    if r.Ok? then r.value else s
  }

  /** One call; a call that raises leaves the scheduler as it was. */
  function Step(s: Schedule, call: Call): Schedule {
    match call
    case Dispatch => AfterDispatch(s)
    case Release(id) => Kept(AfterRelease(s, id), s)
    case Retry(id) => Kept(AfterRetry(s, id), s)
    case Cancel(id) => Kept(AfterCancel(s, id), s)
    case Refresh(revision) => Kept(AfterRefresh(s, revision), s)
  }

  function Run(s: Schedule, calls: seq<Call>): Schedule
    decreases calls
  {
    if calls == [] then s else Run(Step(s, calls[0]), calls[1..])
  }

  function InFlight(s: Schedule): set<ItemId> {
    s.dispatched - s.released
  }

  /** Who owns an item, and what its blockers have reached. */
  ghost predicate Ownership(s: Schedule, completed: set<ItemId>) {
    && s.dispatched <= s.graph.blockers.Keys
    && completed <= s.released <= completed + s.graph.blockers.Keys
    && s.dispatched !! completed
    && s.cancelled <= s.released * s.graph.blockers.Keys && s.cancelled !! s.dispatched
    && (forall id :: id in s.dispatched ==> Elems(s.graph.blockers[id]) <= s.released)
    && (forall id :: id in s.released - completed ==> Elems(s.graph.blockers[id]) <= s.released)
  }

  /** The barrier is open exactly when no wave is active, and a wave in flight has one base. */
  ghost predicate Barrier(s: Schedule) {
    if s.policy.WaveBarrier? then
      && (s.barrierOpen <==> s.activeWave == {})
      && InFlight(s) <= s.activeWave <= s.dispatched
      && (s.activeWave != {} ==>
            && s.currentWave.Some?
            && s.activeWave <= Elems(s.currentWave.value.items)
            && s.currentWave.value.base == s.base)
    else
      s.barrierOpen && s.activeWave == {}
  }

  /** Waves are numbered from one, and a released wave has released every member. */
  ghost predicate WaveHistory(s: Schedule) {
    && s.waveSequence == |s.waves|
    && s.currentWave == (if s.waves == [] then None else Some(s.waves[|s.waves| - 1]))
    && forall i :: 0 <= i < |s.waves| ==>
         && s.waves[i].number == i + 1
         && s.waves[i].items != [] && Distinct(s.waves[i].items)
         && Elems(s.waves[i].items) <= s.graph.blockers.Keys
         && (s.waves[i].state == Released ==> Elems(s.waves[i].items) <= s.released)
  }

  ghost predicate Consistent(s: Schedule, completed: set<ItemId>) {
    Ownership(s, completed) && Barrier(s) && WaveHistory(s)
  }

  lemma FrontierItems(s: Schedule)
    ensures forall id :: id in Frontier(s) <==>
      (s.policy.ContinuousFrontier? || s.barrierOpen) && IsReady(s.graph, s.released, id) && id !in s.dispatched
  {
  }

  lemma DispatchKeeps(s: Schedule, completed: set<ItemId>)
    requires Consistent(s, completed)
    ensures Consistent(AfterDispatch(s), completed)
  {
    FrontierItems(s);
    if Frontier(s) != [] {
      assert Frontier(s)[0] in Elems(Frontier(s));
      if s.policy.WaveBarrier? {
        assert forall id :: id in s.dispatched && id !in s.released ==> id in InFlight(s);
      }
    }
  }

  lemma LeaveWaveKeeps(s: Schedule, before: Schedule, id: ItemId, state: WaveState)
    requires state != Released && Barrier(before) && WaveHistory(before)
    requires s == before.(dispatched := before.dispatched - {id}, released := s.released, cancelled := s.cancelled)
    requires before.released <= s.released
    ensures Barrier(LeaveWave(s, id, state)) && WaveHistory(LeaveWave(s, id, state))
  {
  }

  lemma ReleaseKeeps(s: Schedule, completed: set<ItemId>, id: ItemId)
    requires Consistent(s, completed) && id in s.dispatched
    ensures Consistent(AfterRelease(s, id).value, completed)
  {
  }

  lemma RetryKeeps(s: Schedule, completed: set<ItemId>, id: ItemId)
    requires Consistent(s, completed) && AfterRetry(s, id).Ok?
    ensures Consistent(AfterRetry(s, id).value, completed)
  {
    LeaveWaveKeeps(s.(dispatched := s.dispatched - {id}, cancelled := s.cancelled - {id}), s, id, Superseded);
  }

  lemma CancelKeeps(s: Schedule, completed: set<ItemId>, id: ItemId)
    requires Consistent(s, completed) && AfterCancel(s, id).Ok?
    ensures Consistent(AfterCancel(s, id).value, completed)
  {
    var t := s.(dispatched := s.dispatched - {id}, released := s.released + {id}, cancelled := s.cancelled + {id});
    LeaveWaveKeeps(t, s, id, Cancelled);
  }

  lemma RefreshKeeps(s: Schedule, completed: set<ItemId>, revision: Revision)
    requires Consistent(s, completed) && AfterRefresh(s, revision).Ok?
    ensures Consistent(AfterRefresh(s, revision).value, completed)
  {
  }

  lemma StepKeeps(s: Schedule, completed: set<ItemId>, call: Call)
    requires Consistent(s, completed)
    ensures Consistent(Step(s, call), completed)
  {
    match call
    case Dispatch => DispatchKeeps(s, completed);
    case Release(id) => if id in s.dispatched { ReleaseKeeps(s, completed, id); }
    case Retry(id) => if AfterRetry(s, id).Ok? { RetryKeeps(s, completed, id); }
    case Cancel(id) => if AfterCancel(s, id).Ok? { CancelKeeps(s, completed, id); }
    case Refresh(revision) => if AfterRefresh(s, revision).Ok? { RefreshKeeps(s, completed, revision); }
  }

  lemma StepOnlyReleases(s: Schedule, call: Call)
    ensures s.released <= Step(s, call).released
    ensures Step(s, call).graph == s.graph && Step(s, call).policy == s.policy
  {
  }

  lemma {:induction false} RunKeeps(s: Schedule, completed: set<ItemId>, calls: seq<Call>)
    requires Consistent(s, completed)
    ensures Consistent(Run(s, calls), completed)
    ensures s.released <= Run(s, calls).released
    ensures Run(s, calls).graph == s.graph && Run(s, calls).policy == s.policy
    decreases calls
  {
    if calls != [] {
      StepKeeps(s, completed, calls[0]);
      StepOnlyReleases(s, calls[0]);
      RunKeeps(Step(s, calls[0]), completed, calls[1..]);
    }
  }

  /** Every state the scheduler reaches, by any sequence of calls, is consistent. */
  lemma EveryRunIsConsistent(graph: DependencyGraph, policy: Policy, base: Revision, completed: set<ItemId>, calls: seq<Call>)
    ensures Consistent(Run(NewSchedule(graph, policy, base, completed), calls), completed)
  {
    RunKeeps(NewSchedule(graph, policy, base, completed), completed, calls);
  }

  /** A set of items that contains, with an item, everything that blocks it. */
  ghost predicate DownwardClosed(g: DependencyGraph, s: set<ItemId>) {
    forall id :: id in s && id in g.blockers ==> Elems(g.blockers[id]) <= s
  }

  /** From a downward closed start, everything behind a dispatched or released item is released. */
  lemma {:induction false} BlockersReleasedFirst(s: Schedule, completed: set<ItemId>, c: seq<ItemId>)
    requires Consistent(s, completed) && DownwardClosed(s.graph, completed)
    requires |c| >= 2 && IsChain(s.graph, c) && c[0] in s.dispatched + s.released
    ensures Elems(c[1..]) <= s.released
  {
    assert Linked(s.graph, c, 0);
    var tail := c[1..];
    if |tail| >= 2 {
      forall i | 0 <= i < |tail| - 1 ensures Linked(s.graph, tail, i) {
        assert Linked(s.graph, c, i + 1);
      }
      BlockersReleasedFirst(s, completed, tail);
      assert Elems(tail) == {tail[0]} + Elems(tail[1..]);
    }
  }

  /**
   * The human escape: under the barrier, cancelling or retrying an item lets the next frontier through exactly when
   * nothing else is on the active wave, and then without a refresh, from the base the old wave had.
   */
  lemma EscapeKeepsBase(s: Schedule, completed: set<ItemId>, id: ItemId)
    requires Consistent(s, completed) && s.policy.WaveBarrier? && id in s.activeWave
    ensures AfterCancel(s, id).Ok?
    ensures var t := AfterCancel(s, id).value;
      t.base == s.base && (t.barrierOpen <==> s.activeWave == {id})
    ensures id !in s.released ==> AfterRetry(s, id).Ok?
    ensures AfterRetry(s, id).Ok? ==>
      var t := AfterRetry(s, id).value;
      t.base == s.base && (t.barrierOpen <==> s.activeWave == {id})
  {
  }

  /** A retried item is dispatchable at once, except under the barrier while others are on its wave. */
  lemma RetriedIsReady(s: Schedule, completed: set<ItemId>, id: ItemId)
    requires Consistent(s, completed) && id in s.dispatched && id !in s.released
    ensures AfterRetry(s, id).Ok?
    ensures id in Frontier(AfterRetry(s, id).value) <==> s.policy.ContinuousFrontier? || s.activeWave == {id}
  {
    assert id in InFlight(s);
    var t := AfterRetry(s, id).value;
    assert IsReady(t.graph, t.released, id);
    assert s.activeWave - {id} == {} && id in s.activeWave <==> s.activeWave == {id};
  }

  /** The scheduler never deadlocks: on an acyclic, closed graph there is always a next move. */
  lemma NoDeadlock(s: Schedule, completed: set<ItemId>, revision: Revision)
    requires Closed(s.graph) && Acyclic(s.graph) && Consistent(s, completed)
    ensures
      || s.graph.blockers.Keys <= s.released
      || InFlight(s) != {}
      || Preview(s) != []
      || (AfterRefresh(s, revision).Ok? && Preview(AfterRefresh(s, revision).value) != [])
  {
    var waiting := s.graph.blockers.Keys - s.released;
    assert forall id :: id in s.graph.blockers && id !in s.released ==> id in waiting;
    if waiting != {} && InFlight(s) == {} {
      var m := MinimalItem(s.graph, waiting);
      assert m in s.dispatched ==> m in InFlight(s);
      assert forall id :: id in s.dispatched && id !in s.released ==> id in InFlight(s);
      assert IsReady(s.graph, s.released, m);
      if s.policy.WaveBarrier? && !s.barrierOpen {
        var t := AfterRefresh(s, revision).value;
        assert m in Frontier(t) && |Preview(t)| == |Frontier(t)|;
      } else {
        assert m in Frontier(s) && |Preview(s)| == |Frontier(s)|;
      }
    }
  }
}
