/** What supervision guarantees, cycle after cycle and whatever the threads put on the queue. */
module SupervisionLaws {
  import opened Prelude
  import opened EventLogs
  import opened Gate
  import opened Projections
  import opened Controllers
  import opened Supervisors
  import opened AssignmentLaws
  import Laws = ControllerLaws
  import Sim = Simulation

  // What a drain collects.

  function ItemsIn(batches: seq<Batch>): set<ItemId> {
    set i | 0 <= i < |batches| :: batches[i].item
  }

  ghost predicate OneBatchEach(batches: seq<Batch>) {
    forall i, j :: 0 <= i < j < |batches| ==> batches[i].item != batches[j].item
  }

  function EventsOf(batches: seq<Batch>, item: ItemId): seq<AgentEvent> {
    if batches == [] then []
    else if batches[0].item == item then batches[0].events
    else EventsOf(batches[1..], item)
  }

  /** The events a queue carries for one run of an item, in the order they were put on it. */
  function Tagged(queue: seq<Message>, item: ItemId, run: RunId): seq<AgentEvent> {
    if queue == [] then []
    else
      var m := queue[|queue| - 1];
      Tagged(queue[..|queue| - 1], item, run)
      + if m.event.Some? && m.item == item && m.run == run then [m.event.value] else []
  }

  lemma {:induction false} PutEventAdds(batches: seq<Batch>, item: ItemId, e: AgentEvent)
    requires OneBatchEach(batches)
    ensures var more := PutEvent(batches, item, e);
      && OneBatchEach(more) && ItemsIn(more) == ItemsIn(batches) + {item}
      && forall other :: EventsOf(more, other) == EventsOf(batches, other) + if other == item then [e] else []
  {
    hide EventsOf, ItemsIn;
    HeadAndRest(Batch(item, [e]), []);
    if batches == [] {
      assert PutEvent(batches, item, e) == [Batch(item, [e])] + [];
    } else {
      var head, rest := batches[0], batches[1..];
      assert batches == [head] + rest;
      HeadAndRest(head, rest);
      if head.item == item {
        HeadAndRest(Batch(item, head.events + [e]), rest);
      } else {
        PutEventAdds(rest, item, e);
        PutElsewhere(head, rest, item, e);
        HeadAndRest(head, PutEvent(rest, item, e));
      }
    }
  }

  lemma PutElsewhere(head: Batch, rest: seq<Batch>, item: ItemId, e: AgentEvent)
    requires OneBatchEach([head] + rest) && head.item != item && OneBatchEach(PutEvent(rest, item, e))
    requires ItemsIn(PutEvent(rest, item, e)) == ItemsIn(rest) + {item}
    ensures OneBatchEach([head] + PutEvent(rest, item, e))
  {
    hide PutEvent, EventsOf;
    var more, all := PutEvent(rest, item, e), [head] + rest;
    forall i | 0 <= i < |more| ensures more[i].item != head.item {
      assert more[i].item in ItemsIn(more);
      if more[i].item != item {
        var k :| 0 <= k < |rest| && rest[k].item == more[i].item;
        assert all[k + 1] == rest[k] && all[0] == head;
      }
    }
  }

  lemma HeadAndRest(head: Batch, rest: seq<Batch>)
    ensures ItemsIn([head] + rest) == {head.item} + ItemsIn(rest) && ItemsIn([]) == {}
    ensures forall other :: EventsOf([], other) == []
    ensures forall other ::
      EventsOf([head] + rest, other) == if other == head.item then head.events else EventsOf(rest, other)
  {
    var all := [head] + rest;
    assert all[1..] == rest;
    forall i | 0 <= i < |rest| ensures rest[i].item in ItemsIn(all) {
      assert all[i + 1] == rest[i];
    }
    assert all[0].item in ItemsIn(all);
  }

  /** A drain hands each active item exactly the events of its active run, in emission order, and nothing else. */
  lemma {:induction false} DrainIsExact(active: map<ItemId, Assignment>, queue: seq<Message>, item: ItemId)
    ensures var batches := Collected(active, queue);
      && OneBatchEach(batches) && ItemsIn(batches) <= active.Keys
      && EventsOf(batches, item) == if item in active then Tagged(queue, item, active[item].run) else []
  {
    if queue != [] {
      var init, m := queue[..|queue| - 1], queue[|queue| - 1];
      DrainIsExact(active, init, item);
      if IsCurrent(active, m) {
        PutEventAdds(Collected(active, init), m.item, m.event.value);
      }
    }
  }

  lemma {:induction false} TimeoutsAdd(batches: seq<Batch>, s: Streams, active: map<ItemId, Assignment>, items: seq<ItemId>,
                                       now: int, timeout: int, item: ItemId)
    requires OneBatchEach(batches) && ItemsIn(batches) <= active.Keys && Elems(items) <= active.Keys && Distinct(items)
    ensures var more := TimedOut(batches, s, active, items, now, timeout);
      && OneBatchEach(more) && ItemsIn(more) <= active.Keys
      && EventsOf(more, item) == EventsOf(batches, item)
         + if item in items && IsOverdue(s, active[item].run, now, timeout) then [RuntimeTimeout] else []
    decreases items
  {
    if items != [] {
      var init, last := items[..|items| - 1], items[|items| - 1];
      assert items == init + [last];
      TimeoutsAdd(batches, s, active, init, now, timeout, item);
      var before := TimedOut(batches, s, active, init, now, timeout);
      if IsOverdue(s, active[last].run, now, timeout) {
        PutEventAdds(before, last, RuntimeTimeout);
      }
      assert last !in init;
    }
  }

  /** What a cycle hands over: each active item's events, then at most one timeout. */
  lemma CycleHandsOver(s: Streams, c: Controller, policy: Policy, w: World, item: ItemId)
    requires Lists(w.listing)
    ensures var items := w.listing(c.active);
      var started := StartStreams(s, c.active, items, w);
      var queue := started.queue + w.arrivals;
      var batches := BatchesOf(s, c, policy, w);
      && OneBatchEach(batches) && ItemsIn(batches) <= c.active.Keys
      && EventsOf(batches, item) ==
         if item !in c.active then []
         else
           Tagged(queue, item, c.active[item].run)
           + if policy.timeout.Some? && IsOverdue(Drained(started, queue), c.active[item].run, w.now, policy.timeout.value)
             then [RuntimeTimeout] else []
  {
    hide Collected, TimedOut, StartStreams, Drained, Tagged;
    var items := w.listing(c.active);
    var started := StartStreams(s, c.active, items, w);
    var queue := started.queue + w.arrivals;
    DrainIsExact(c.active, queue, item);
    if policy.timeout.Some? {
      TimeoutsAdd(Collected(c.active, queue), Drained(started, queue).(queue := []), c.active, items, w.now,
                  policy.timeout.value, item);
    }
    assert item in items <==> item in Elems(items);
  }

  // Streams.

  /** Every launched stream is accounted for, and none was launched twice. */
  ghost predicate LaunchedOnce(s: Streams) {
    Distinct(s.launched) && Elems(s.launched) <= s.consumed + s.running
  }

  lemma {:induction false} StartsOnce(s: Streams, active: map<ItemId, Assignment>, items: seq<ItemId>, w: World)
    requires LaunchedOnce(s) && Elems(items) <= active.Keys
    ensures LaunchedOnce(StartStreams(s, active, items, w))
    ensures s.launched <= StartStreams(s, active, items, w).launched
  {
    if items != [] {
      var init := items[..|items| - 1];
      assert items == init + [items[|items| - 1]];
      StartsOnce(s, active, init, w);
      var t, run := StartStreams(s, active, init, w), active[items[|items| - 1]].run;
      assert run !in t.consumed && run !in t.running ==> run !in Elems(t.launched);
      assert Elems(t.launched + [run]) == Elems(t.launched) + {run};
    }
  }

  lemma {:induction false} DrainKeepsLaunched(s: Streams, queue: seq<Message>)
    requires LaunchedOnce(s)
    ensures LaunchedOnce(Drained(s, queue)) && Drained(s, queue).launched == s.launched
  {
    if queue != [] {
      DrainKeepsLaunched(s, queue[..|queue| - 1]);
    }
  }

  lemma StreamsStartOnce(s: Streams, c: Controller, policy: Policy, w: World)
    requires LaunchedOnce(s) && Lists(w.listing)
    ensures LaunchedOnce(StreamsAfter(s, c, policy, w)) && s.launched <= StreamsAfter(s, c, policy, w).launched
  {
    hide StartStreams, Drained, Overdue;
    var items := w.listing(c.active);
    StartsOnce(s, c.active, items, w);
    var started := StartStreams(s, c.active, items, w);
    DrainKeepsLaunched(started, started.queue + w.arrivals);
  }

  // Attempts.

  /** No item outside the graph is numbered, and no attempt number exceeds the bound. */
  ghost predicate Bounded(c: Controller, max: nat) {
    forall item :: item in c.sim.attempts ==> item in c.sim.sched.graph.blockers && c.sim.attempts[item] <= max
  }

  ghost predicate Supervised(c: Controller, completed: set<ItemId>, max: nat) {
    (exists revisions :: Laws.Live(c, completed, revisions)) && Bounded(c, max)
  }

  lemma AssignmentIsCurrent(c: Controller, completed: set<ItemId>, item: ItemId)
    requires Laws.Linked(c, completed) && item in c.active
    ensures c.active[item].dispatch.attempt == Sim.AttemptNumber(c.sim.attempts, item)
    ensures item in c.sim.sched.graph.blockers
  {
  }

  lemma SameNumbersBounded(c: Controller, t: Controller, max: nat)
    requires Bounded(c, max) && SameNumbers(c.sim, t.sim)
    ensures Bounded(t, max)
  {
  }

  lemma RenumberedBounded(c: Controller, t: Controller, item: ItemId, max: nat)
    requires Bounded(c, max) && Renumbers(c.sim, t.sim, item)
    requires item in c.sim.sched.graph.blockers && Sim.AttemptNumber(c.sim.attempts, item) < max
    ensures Bounded(t, max)
  {
  }

  lemma ObservingKeeps(c: Controller, completed: set<ItemId>, item: ItemId, events: seq<AgentEvent>, findings: Findings, max: nat)
    requires Supervised(c, completed, max) && item in c.active
    ensures Supervised(ObserveRuntimeEvents(c, item, events, findings), completed, max)
  {
    hide Laws.Live, MarkRuntimeFailure;
    var revisions :| Laws.Live(c, completed, revisions);
    var failure := FirstFailure(events, findings, 0);
    ObservingLeaves(c, item, events, findings);
    if failure.Some? {
      Laws.RuntimeFailureKeeps(c, completed, revisions, item, failure.value.code);
    }
    assert Laws.Live(ObserveRuntimeEvents(c, item, events, findings), completed, revisions);
  }

  lemma BoundedRetryKeeps(c: Controller, completed: set<ItemId>, item: ItemId, destroyed: Option<FailureCode>,
                          launcher: Launcher, max: nat)
    requires Supervised(c, completed, max) && item in c.active && c.active[item].dispatch.attempt < max
    ensures var r := Retry(c, item, None, destroyed, launcher);
      Supervised(r.ctrl, completed, max) && LeavesOthers(c, r.ctrl, {item}) && r.fault != Some(NotActive)
  {
    hide Laws.Live, Laws.Linked, Bounded, Retry;
    var revisions :| Laws.Live(c, completed, revisions);
    var t := Retry(c, item, None, destroyed, launcher).ctrl;
    assert Laws.Linked(c, completed) by {
      LiveIsLinked(c, completed, revisions);
    }
    AssignmentIsCurrent(c, completed, item);
    Laws.RetryKeeps(c, completed, revisions, item, None, destroyed, launcher);
    RetryLeaves(c, completed, revisions, item, None, destroyed, launcher);
    if SameNumbers(c.sim, t.sim) {
      SameNumbersBounded(c, t, max);
    } else {
      RenumberedBounded(c, t, item, max);
    }
    RetryFaults(c, item, None, destroyed, launcher);
  }

  lemma LiveIsLinked(c: Controller, completed: set<ItemId>, revisions: seq<Revision>)
    requires Laws.Live(c, completed, revisions)
    ensures Laws.Linked(c, completed)
  {
  }

  lemma {:induction false} PersistFaults(c: Controller, prompts: seq<Prompt>)
    ensures PersistPrompts(c, prompts).fault != Some(NotActive)
    decreases prompts
  {
    if prompts != [] {
      var p := prompts[0];
      var existing := PromptFor(c.prompts, p.item);
      var t := if existing.Some? then c else c.(prompts := c.prompts + [p]);
      PersistFaults(Emit(t, PromptSnapshotRecorded(p)), prompts[1..]);
    }
  }

  lemma DispatchFaults(c: Controller, prompts: seq<Prompt>, launcher: Launcher)
    ensures DispatchReady(c, prompts, launcher).fault != Some(NotActive)
  {
    hide StartFrontier, PersistPrompts;
    PersistFaults(c, prompts);
    Laws.StartFrontierKeepsSim(PersistPrompts(c, prompts).ctrl, launcher);
  }

  lemma RetryFaults(c: Controller, item: ItemId, prompt: Option<string>, destroyed: Option<FailureCode>, launcher: Launcher)
    requires item in c.active
    ensures Retry(c, item, prompt, destroyed, launcher).fault != Some(NotActive)
  {
    hide DispatchReady, Supersede;
    forall d: Controller, prompts ensures DispatchReady(d, prompts, launcher).fault != Some(NotActive) {
      DispatchFaults(d, prompts, launcher);
    }
  }

  // Handing over.

  lemma HandOneKeeps(p: Progress, completed: set<ItemId>, batch: Batch, policy: Policy, w: World)
    requires Supervised(p.ctrl, completed, policy.maxAttempts) && batch.item in p.ctrl.active && p.fault.None?
    ensures var q := HandOne(p, batch, policy, w);
      && Supervised(q.ctrl, completed, policy.maxAttempts)
      && LeavesOthers(p.ctrl, q.ctrl, {batch.item})
      && q.fault != Some(NotActive)
  {
    hide ObserveRuntimeEvents, Supervised, Retry, FirstFailure;
    var item := batch.item;
    var c := ObserveRuntimeEvents(p.ctrl, item, batch.events, w.findings(item));
    ObservingLeaves(p.ctrl, item, batch.events, w.findings(item));
    ObservingKeeps(p.ctrl, completed, item, batch.events, w.findings(item), policy.maxAttempts);
    if c.active[item].dispatch.attempt < policy.maxAttempts {
      BoundedRetryKeeps(c, completed, item, w.destroyed(item), w.launcher, policy.maxAttempts);
    }
  }

  /** Each batch is handed over while its item still has the assignment it had when the queue was drained. */
  lemma {:induction false} HandOverKeeps(c: Controller, completed: set<ItemId>, batches: seq<Batch>, policy: Policy, w: World)
    requires Supervised(c, completed, policy.maxAttempts) && OneBatchEach(batches) && ItemsIn(batches) <= c.active.Keys
    ensures var p := HandOver(c, batches, policy, w);
      && Supervised(p.ctrl, completed, policy.maxAttempts)
      && LeavesOthers(c, p.ctrl, ItemsIn(batches))
      && p.fault != Some(NotActive)
  {
    hide HandOne, Supervised;
    if batches != [] {
      var init, last := batches[..|batches| - 1], batches[|batches| - 1];
      assert batches == init + [last];
      assert ItemsIn(batches) == ItemsIn(init) + {last.item} by {
        assert batches[|init|].item in ItemsIn(batches);
        assert forall i :: 0 <= i < |init| ==> batches[i].item in ItemsIn(batches);
      }
      HandOverKeeps(c, completed, init, policy, w);
      var p := HandOver(c, init, policy, w);
      assert last.item in c.active && last.item !in ItemsIn(init);
      if p.fault.None? {
        HandOneKeeps(p, completed, last, policy, w);
      }
    }
  }

  // Reconciling.

  lemma ReconcileOneKeeps(r: Reply, completed: set<ItemId>, item: ItemId, w: World, max: nat)
    requires Supervised(r.ctrl, completed, max) && item in r.ctrl.active
    ensures var t := ReconcileOne(r, item, w);
      Supervised(t.ctrl, completed, max) && LeavesOthers(r.ctrl, t.ctrl, {item}) && t.fault != Some(NotActive)
  {
    hide Laws.Live, Reconcile, Bounded;
    var revisions :| Laws.Live(r.ctrl, completed, revisions);
    var a := Laws.Reconciling(item, w.outcome(item), w.nextBase(item), w.launcher);
    Laws.ReconcileKeeps(r.ctrl, completed, revisions, a);
    ReconcileLeaves(r.ctrl, completed, revisions, item, w.outcome(item), w.nextBase(item), w.launcher);
    SameNumbersBounded(r.ctrl, ReconcileOne(r, item, w).ctrl, max);
    ReconcileFaults(r.ctrl, item, w.outcome(item), w.nextBase(item), w.launcher);
    assert Laws.Live(ReconcileOne(r, item, w).ctrl, completed, revisions + Laws.RefreshedTo(r.ctrl, a));
  }

  lemma ReconcileFaults(c: Controller, item: ItemId, outcome: Outcome, nextBase: Option<Revision>, launcher: Launcher)
    requires item in c.active
    ensures Reconcile(c, item, outcome, nextBase, launcher).fault != Some(NotActive)
  {
    hide DispatchReady, MarkRuntimeFailure, RecordWaveState, Settle, RaiseAttention;
    forall d: Controller, prompts ensures DispatchReady(d, prompts, launcher).fault != Some(NotActive) {
      DispatchFaults(d, prompts, launcher);
    }
  }

  /** Reconciling a snapshot of the active items never meets one that is no longer active. */
  lemma {:induction false} ReconcileAllKeeps(c: Controller, completed: set<ItemId>, items: seq<ItemId>, w: World, max: nat)
    requires Supervised(c, completed, max) && Distinct(items) && Elems(items) <= c.active.Keys
    ensures var r := ReconcileAll(c, items, w);
      Supervised(r.ctrl, completed, max) && LeavesOthers(c, r.ctrl, Elems(items)) && r.fault != Some(NotActive)
  {
    hide ReconcileOne, Supervised;
    if items != [] {
      var init, last := items[..|items| - 1], items[|items| - 1];
      assert items == init + [last];
      assert Elems(items) == Elems(init) + {last};
      ReconcileAllKeeps(c, completed, init, w, max);
      var r := ReconcileAll(c, init, w);
      if r.fault.None? {
        ReconcileOneKeeps(r, completed, last, w, max);
      }
    }
  }

  /** A cycle keeps the controller in step with its log and its attempts within the bound. */
  lemma CycleKeeps(s: Streams, c: Controller, completed: set<ItemId>, policy: Policy, w: World)
    requires Supervised(c, completed, policy.maxAttempts) && Lists(w.listing)
    ensures Supervised(RunOnce(s, c, policy, w).ctrl, completed, policy.maxAttempts)
    ensures RunOnce(s, c, policy, w).fault != Some(NotActive)
    ensures RunOnce(s, c, policy, w).ctrl.sim.sched.graph == c.sim.sched.graph
  {
    hide Supervised, HandOver, ReconcileAll, BatchesOf;
    var batches := BatchesOf(s, c, policy, w);
    CycleHandsOver(s, c, policy, w, "");
    HandOverKeeps(c, completed, batches, policy, w);
    var p := HandOver(c, batches, policy, w);
    if p.fault.None? {
      ReconcileAllKeeps(p.ctrl, completed, w.listing(p.ctrl.active), w, policy.maxAttempts);
    }
  }

  /** A batch that is reached is handed to the assignment it was collected for. */
  lemma BatchesReachTheirRun(s: Streams, c: Controller, completed: set<ItemId>, policy: Policy, w: World, i: nat)
    requires Supervised(c, completed, policy.maxAttempts) && Lists(w.listing)
    requires i < |BatchesOf(s, c, policy, w)|
    ensures var batches := BatchesOf(s, c, policy, w);
      var item := batches[i].item;
      var before := HandOver(c, batches[..i], policy, w).ctrl;
      item in c.active && item in before.active && before.active[item] == c.active[item]
  {
    hide Supervised, HandOver, BatchesOf;
    CycleHandsOver(s, c, policy, w, "");
    NextBatchIsActive(c, completed, BatchesOf(s, c, policy, w), policy, w, i);
  }

  lemma NextBatchIsActive(c: Controller, completed: set<ItemId>, batches: seq<Batch>, policy: Policy, w: World, i: nat)
    requires Supervised(c, completed, policy.maxAttempts) && OneBatchEach(batches) && ItemsIn(batches) <= c.active.Keys
    requires i < |batches|
    ensures var item, before := batches[i].item, HandOver(c, batches[..i], policy, w).ctrl;
      item in c.active && item in before.active && before.active[item] == c.active[item]
  {
    hide Supervised, HandOver;
    assert batches[i].item in ItemsIn(batches);
    assert ItemsIn(batches[..i]) <= ItemsIn(batches) by {
      assert forall k :: 0 <= k < i ==> batches[..i][k].item == batches[k].item && batches[k].item in ItemsIn(batches);
    }
    HandOverKeeps(c, completed, batches[..i], policy, w);
  }

  /** Nothing is handed over after a call has raised. */
  lemma {:induction false} HandOverStops(c: Controller, batches: seq<Batch>, policy: Policy, w: World, n: nat)
    requires n <= |batches| && HandOver(c, batches[..n], policy, w).fault.Some?
    ensures HandOver(c, batches, policy, w) == HandOver(c, batches[..n], policy, w)
    decreases |batches| - n
  {
    if n == |batches| {
      assert batches[..n] == batches;
    } else {
      assert batches[..n + 1][..n] == batches[..n];
      HandOverStops(c, batches, policy, w, n + 1);
    }
  }

  lemma {:induction false} ReconcilingStops(c: Controller, items: seq<ItemId>, w: World, n: nat)
    requires n <= |items| && ReconcileAll(c, items[..n], w).fault.Some?
    ensures ReconcileAll(c, items, w) == ReconcileAll(c, items[..n], w)
    decreases |items| - n
  {
    if n == |items| {
      assert items[..n] == items;
    } else {
      assert items[..n + 1][..n] == items[..n];
      ReconcilingStops(c, items, w, n + 1);
    }
  }

  /** Draining does not depend on what is still queued. */
  lemma {:induction false} DrainIgnoresQueue(s: Streams, queue: seq<Message>, rest: seq<Message>)
    ensures Drained(s.(queue := rest), queue) == Drained(s, queue).(queue := rest)
  {
    if queue != [] {
      DrainIgnoresQueue(s, queue[..|queue| - 1], rest);
    }
  }

  lemma StartedQueueDrains(s: Streams, active: map<ItemId, Assignment>, items: seq<ItemId>, w: World)
    requires Elems(items) <= active.Keys
    ensures var started := StartStreams(s, active, items, w);
      var queue := started.queue + w.arrivals;
      Drained(started.(queue := queue), queue).(queue := []) == Drained(started, queue).(queue := [])
  {
    var started := StartStreams(s, active, items, w);
    DrainIgnoresQueue(started, started.queue + w.arrivals, started.queue + w.arrivals);
  }
}
