/** Runs of a new simulator: where releases come from, and what barrier and approval mean along the way. */
module SimulationRuns {
  import opened Prelude
  import opened DependencyGraphs
  import opened Gate
  import opened Simulation
  import opened SimulationLaws
  import S = Scheduling
  import L = SchedulingLaws

  /** The arguments a simulator is built with. */
  datatype Setup = Setup(graph: DependencyGraph, policy: S.Policy, base: Revision, repository: string,
                         workspaceRoot: string, review: ReviewPolicy, completed: set<ItemId>)

  function Built(setup: Setup): Sim {
    NewSim(setup.graph, setup.policy, setup.base, setup.repository, setup.workspaceRoot, setup.review, setup.completed)
  }

  /** The simulator after a list of calls. */
  function After(setup: Setup, actions: seq<Action>): Sim {
    if actions == [] then Built(setup) else Step(After(setup, actions[..|actions| - 1]), actions[|actions| - 1])
  }

  lemma {:induction false} AfterIsAligned(setup: Setup, actions: seq<Action>)
    ensures Aligned(After(setup, actions), setup.completed)
  {
    if actions != [] {
      AfterIsAligned(setup, actions[..|actions| - 1]);
      StepAligned(After(setup, actions[..|actions| - 1]), setup.completed, actions[|actions| - 1]);
    }
  }

  /** The same states a history passes through. */
  lemma {:induction false} HistoriesAgree(setup: Setup, h: History, done: seq<Action>, rest: seq<Action>)
    requires h.sim == After(setup, done)
    ensures Play(h, rest).sim == After(setup, done + rest)
    decreases rest
  {
    if rest == [] {
      assert done + rest == done;
    } else {
      assert (done + [rest[0]])[..|done|] == done;
      assert done + rest == done + [rest[0]] + rest[1..];
      HistoriesAgree(setup, Advance(h, rest[0]), done + [rest[0]], rest[1..]);
    }
  }

  lemma RunsAgree(setup: Setup, actions: seq<Action>)
    ensures var start := Start(setup.graph, setup.policy, setup.base, setup.repository, setup.workspaceRoot, setup.review,
                               setup.completed);
      Play(start, actions).sim == After(setup, actions)
  {
    assert [] + actions == actions;
    HistoriesAgree(setup, Begin(Built(setup)), [], actions);
  }

  // Where releases come from.

  /** This call releases the item: it is cancelled, or the gate approves what was observed of its dispatch. */
  ghost predicate Releases(s: Sim, a: Action, id: ItemId) {
    match a
    case Cancel(item, reason) => item == id && !IsBlank(reason) && id in s.dispatched
    case Evaluate(item) =>
      && item == id && id !in s.decisions && id in s.observations && id in s.dispatched
      && Deliverable(s.review, s.dispatched[id], s.observations[id]) && HumanApprovedAndMerged(s.review, s.observations[id])
    case _ => false
  }

  lemma EvaluationReleases(s: Sim, item: ItemId, id: ItemId)
    requires SameOwnership(s)
    ensures id in Step(s, Evaluate(item)).sched.released <==> id in s.sched.released || Releases(s, Evaluate(item), id)
  {
    hide Decide, S.WithCurrentWave;
    if item in s.dispatched && item in s.observations {
      GateIsExact(s.review, s.dispatched[item], s.observations[item]);
      ReleaseAddsOne(s.sched, item);
    }
  }

  lemma ReleaseAddsOne(s: S.Schedule, item: ItemId)
    requires item in s.dispatched
    ensures S.AfterRelease(s, item).Ok? && S.AfterRelease(s, item).value.released == s.released + {item}
  {
  }

  lemma CancellationReleases(s: Sim, item: ItemId, reason: string, id: ItemId)
    requires SameOwnership(s)
    ensures id in Step(s, Cancel(item, reason)).sched.released <==>
      id in s.sched.released || Releases(s, Cancel(item, reason), id)
  {
  }

  lemma RetryReleasesNothing(s: Sim, item: ItemId)
    ensures Step(s, Retry(item)).sched.released == s.sched.released
  {
  }

  lemma StepReleases(s: Sim, completed: set<ItemId>, a: Action, id: ItemId)
    requires Aligned(s, completed)
    ensures id in Step(s, a).sched.released <==> id in s.sched.released || Releases(s, a, id)
  {
    hide S.AfterRelease, S.AfterRetry, S.AfterCancel, Classify, Preview, S.Frontier, L.Consistent,
      ReleasedMeansApproved, DispatchesAreCurrent;
    match a
    case Evaluate(item) => EvaluationReleases(s, item, id);
    case Cancel(item, reason) => CancellationReleases(s, item, reason, id);
    case Retry(item) => RetryReleasesNothing(s, item);
    case _ =>
  }

  /** Some call of the run released the item. */
  ghost predicate WasReleased(setup: Setup, actions: seq<Action>, id: ItemId) {
    exists k :: 0 <= k < |actions| && Releases(After(setup, actions[..k]), actions[k], id)
  }

  /** In every run, released is exactly: completed at the start, cancelled, or approved on its own evidence. */
  lemma {:induction false} ReleasedSetIsExact(setup: Setup, actions: seq<Action>, id: ItemId)
    ensures id in After(setup, actions).sched.released <==> id in setup.completed || WasReleased(setup, actions, id)
  {
    if actions != [] {
      var init, last := actions[..|actions| - 1], actions[|actions| - 1];
      ReleasedSetIsExact(setup, init, id);
      AfterIsAligned(setup, init);
      StepReleases(After(setup, init), setup.completed, last, id);
      WasReleasedBy(setup, init, last, id);
      assert init + [last] == actions;
    }
  }

  lemma WasReleasedBy(setup: Setup, init: seq<Action>, last: Action, id: ItemId)
    ensures WasReleased(setup, init + [last], id) <==> WasReleased(setup, init, id) || Releases(After(setup, init), last, id)
  {
    hide After, Releases;
    var actions := init + [last];
    assert actions[..|init|] == init;
    if WasReleased(setup, actions, id) {
      var k :| 0 <= k < |actions| && Releases(After(setup, actions[..k]), actions[k], id);
      assert k < |init| ==> actions[..k] == init[..k];
    }
    if WasReleased(setup, init, id) {
      var k :| 0 <= k < |init| && Releases(After(setup, init[..k]), init[k], id);
      assert actions[..k] == init[..k];
    }
  }

  // What was observed, and of which dispatch.

  ghost predicate ObservesCurrent(s: Sim, a: Action, id: ItemId, d: Dispatch, o: DeliveryObservation) {
    a == Observe(id, o) && id in s.dispatched && s.dispatched[id] == d
  }

  ghost predicate WasObserved(setup: Setup, actions: seq<Action>, id: ItemId, d: Dispatch, o: DeliveryObservation) {
    exists k :: 0 <= k < |actions| && ObservesCurrent(After(setup, actions[..k]), actions[k], id, d, o)
  }

  /** An observation is held on to as long as its dispatch is. */
  ghost predicate HoldsOn(s: Sim, t: Sim, id: ItemId) {
    && id in s.observations && id in s.dispatched && id in t.observations && id in t.dispatched
    && t.observations[id] == s.observations[id] && t.dispatched[id] == s.dispatched[id]
  }

  lemma DispatchHoldsOn(s: Sim, id: ItemId)
    requires Mirrors(s) && id in Step(s, Dispatching).observations
    ensures HoldsOn(s, Step(s, Dispatching), id)
  {
    hide S.AfterDispatch, Assigned, L.Consistent;
    L.FrontierItems(s.sched);
  }

  lemma ForgettingHoldsOn(s: Sim, a: Action, id: ItemId)
    requires SameOwnership(s) && (a.Retry? || a.Cancel?) && id in Step(s, a).observations
    ensures HoldsOn(s, Step(s, a), id)
  {
    hide S.AfterRetry, S.AfterCancel;
  }

  lemma OthersHoldOn(s: Sim, a: Action, id: ItemId)
    requires SameOwnership(s) && (a.Claim? || a.Evaluate? || a.Refresh?) && id in Step(s, a).observations
    ensures HoldsOn(s, Step(s, a), id)
  {
    hide S.AfterRelease, S.AfterRefresh, Decide;
  }

  lemma StepObserves(s: Sim, completed: set<ItemId>, a: Action, id: ItemId)
    requires Aligned(s, completed) && id in Step(s, a).observations
    ensures var t := Step(s, a);
      id in t.dispatched && (HoldsOn(s, t, id) || ObservesCurrent(s, a, id, t.dispatched[id], t.observations[id]))
  {
    hide L.Consistent, ReleasedMeansApproved, DispatchesAreCurrent;
    match a
    case Dispatching => DispatchHoldsOn(s, id);
    case Observe(_, _) => ObservingHolds(s, a, id);
    case Retry(_) => ForgettingHoldsOn(s, a, id);
    case Cancel(_, _) => ForgettingHoldsOn(s, a, id);
    case _ => OthersHoldOn(s, a, id);
  }

  lemma ObservingHolds(s: Sim, a: Action, id: ItemId)
    requires SameOwnership(s) && a.Observe? && id in Step(s, a).observations
    ensures var t := Step(s, a);
      id in t.dispatched && (HoldsOn(s, t, id) || ObservesCurrent(s, a, id, t.dispatched[id], t.observations[id]))
  {
  }

  lemma WasObservedBy(setup: Setup, init: seq<Action>, last: Action, id: ItemId, d: Dispatch, o: DeliveryObservation)
    requires WasObserved(setup, init, id, d, o) || ObservesCurrent(After(setup, init), last, id, d, o)
    ensures WasObserved(setup, init + [last], id, d, o)
  {
    hide After, ObservesCurrent;
    var actions := init + [last];
    if WasObserved(setup, init, id, d, o) {
      var k :| 0 <= k < |init| && ObservesCurrent(After(setup, init[..k]), init[k], id, d, o);
      assert actions[..k] == init[..k];
    } else {
      assert actions[..|init|] == init;
    }
  }

  /** What the simulator holds about an item was observed while its present dispatch was in place. */
  lemma {:induction false} ObservationsAreCurrent(setup: Setup, actions: seq<Action>, id: ItemId)
    requires id in After(setup, actions).observations
    ensures id in After(setup, actions).dispatched
    ensures WasObserved(setup, actions, id, After(setup, actions).dispatched[id], After(setup, actions).observations[id])
  {
    hide Step, WasObserved, Aligned, ObservesCurrent;
    if actions != [] {
      var init, last := actions[..|actions| - 1], actions[|actions| - 1];
      assert init + [last] == actions;
      AfterIsAligned(setup, init);
      var s, t := After(setup, init), After(setup, actions);
      StepObserves(s, setup.completed, last, id);
      if HoldsOn(s, t, id) {
        ObservationsAreCurrent(setup, init, id);
      }
      WasObservedBy(setup, init, last, id, t.dispatched[id], t.observations[id]);
    }
  }

  ghost predicate WasCancelled(setup: Setup, actions: seq<Action>, id: ItemId) {
    exists k :: 0 <= k < |actions| && actions[k].Cancel? && Releases(After(setup, actions[..k]), actions[k], id)
  }

  /** The gate was evaluated on an observation of the item's own dispatch that meets the whole contract. */
  ghost predicate WasApproved(setup: Setup, actions: seq<Action>, id: ItemId) {
    exists k, d, o :: 0 <= k < |actions| && ApprovedOn(setup, actions, k, id, d, o)
  }

  ghost predicate ApprovedOn(setup: Setup, actions: seq<Action>, k: nat, id: ItemId, d: Dispatch, o: DeliveryObservation)
    requires k < |actions|
  {
    && actions[k] == Evaluate(id) && d.item == id && WasObserved(setup, actions[..k], id, d, o)
    && Deliverable(setup.review, d, o) && HumanApprovedAndMerged(setup.review, o)
  }

  lemma {:induction false} ReviewStays(setup: Setup, actions: seq<Action>)
    ensures After(setup, actions).review == setup.review
  {
    hide Step;
    if actions != [] {
      ReviewStays(setup, actions[..|actions| - 1]);
      NamesStay(After(setup, actions[..|actions| - 1]), actions[|actions| - 1]);
    }
  }

  /** An item is released only as completed at the start, by a cancellation, or on accepted evidence for its own dispatch. */
  lemma ReleaseIsBacked(setup: Setup, actions: seq<Action>, id: ItemId)
    requires id in After(setup, actions).sched.released
    ensures id in setup.completed || WasCancelled(setup, actions, id) || WasApproved(setup, actions, id)
  {
    hide After, WasObserved, Deliverable, HumanApprovedAndMerged;
    ReleasedSetIsExact(setup, actions, id);
    if id !in setup.completed {
      var k :| 0 <= k < |actions| && Releases(After(setup, actions[..k]), actions[k], id);
      if actions[k].Evaluate? {
        var s := After(setup, actions[..k]);
        ObservationsAreCurrent(setup, actions[..k], id);
        ReviewStays(setup, actions[..k]);
        DispatchesNameTheirItem(setup, actions[..k], id);
        assert ApprovedOn(setup, actions, k, id, s.dispatched[id], s.observations[id]);
      }
    }
  }

  lemma DispatchesNameTheirItem(setup: Setup, actions: seq<Action>, id: ItemId)
    requires id in After(setup, actions).dispatched
    ensures After(setup, actions).dispatched[id].item == id
  {
    hide After, L.Consistent;
    AfterIsAligned(setup, actions);
  }

  // What every state of a run satisfies.

  /** Approval and release are the same thing for what is dispatched, and both layers own the same items. */
  lemma ReleasedExactlyApproved(setup: Setup, actions: seq<Action>)
    ensures var s := After(setup, actions);
      && s.dispatched.Keys * s.sched.released == (set id | id in s.decisions && IsApproved(s, id))
      && s.decisions.Keys <= s.observations.Keys <= s.dispatched.Keys == s.sched.dispatched
      && s.activeWave == s.sched.activeWave
  {
    hide After, L.Consistent, DispatchesAreCurrent;
    AfterIsAligned(setup, actions);
  }

  /** Under the barrier everything in flight sits in the active wave and shares its base revision. */
  lemma WaveExclusivity(setup: Setup, actions: seq<Action>)
    ensures var s := After(setup, actions);
      s.sched.policy.WaveBarrier? ==>
        && (s.sched.barrierOpen <==> s.sched.activeWave == {})
        && L.InFlight(s.sched) <= s.sched.activeWave
        && forall id :: id in L.InFlight(s.sched) ==>
             && id in s.dispatched && s.sched.currentWave.Some?
             && id in s.sched.currentWave.value.items
             && s.dispatched[id].base == s.sched.base == s.sched.currentWave.value.base
  {
    hide After;
    AfterIsAligned(setup, actions);
  }
}
