/** The supervisor as an object over a delivery controller. */
module DeliverySupervisors {
  import opened Prelude
  import opened Gate
  import opened Projections
  import opened Controllers
  import opened Supervisors
  import V = Supervisors
  import D = DeliveryControllers
  import Laws = ControllerLaws
  import AL = AssignmentLaws
  import SL = SupervisionLaws

  class DeliverySupervisor {
    const controller: D.DeliveryController
    const policy: Policy
    var consumed: set<RunId>
    var running: set<RunId>
    var startedAt: map<RunId, int>
    var queue: seq<Message>
    ghost var launched: seq<RunId>

    ghost function State(): Streams
      reads this
    {
      Streams(consumed, running, startedAt, queue, launched)
    }

    constructor (controller: D.DeliveryController, policy: Policy)
      ensures this.controller == controller && this.policy == policy && State() == NO_STREAMS
    {
      this.controller, this.policy := controller, policy;
      consumed, running, startedAt, queue, launched := {}, {}, map[], [], [];
    }

    method BeginStreams(items: seq<ItemId>, w: World)
      requires Elems(items) <= controller.active.Keys
      modifies this`running, this`startedAt, this`launched
      ensures State() == StartStreams(old(State()), controller.active, items, w)
    {
      for i := 0 to |items|
        invariant Elems(items[..i]) <= controller.active.Keys
        invariant State() == StartStreams(old(State()), controller.active, items[..i], w)
      {
        assert items[i] in Elems(items) && items[..i + 1][..i] == items[..i];
        assert items[..i + 1] == items[..i] + [items[i]];
        var run := controller.active[items[i]].run;
        if run !in w.detached && run !in consumed && run !in running {
          running := running + {run};
          startedAt := startedAt[run := w.startTime(run)];
          launched := launched + [run];
        }
      }
      assert items[..|items|] == items;
    }

    /** Empties the queue; what is not tagged with an active run is dropped. */
    method Drain() returns (batches: seq<Batch>)
      modifies this`consumed, this`running, this`startedAt, this`queue
      ensures State() == Drained(old(State()), old(queue)).(queue := [])
      ensures batches == Collected(controller.active, old(queue))
    {
      batches := [];
      ghost var taken: seq<Message> := [];
      assert [] + queue == queue;
      while queue != []
        invariant taken + queue == old(queue)
        invariant State() == Drained(old(State()), taken).(queue := queue)
        invariant batches == Collected(controller.active, taken)
        decreases |queue|
      {
        var m := queue[0];
        DrainOneMore(old(State()), controller.active, taken, m);
        assert (taken + [m]) + queue[1..] == taken + queue;
        taken := taken + [m];
        queue := queue[1..];
        if m.event.None? {
          consumed, running, startedAt := consumed + {m.run}, running - {m.run}, startedAt - {m.run};
          continue;
        }
        if m.item in controller.active && controller.active[m.item].run == m.run {
          batches := PutEvent(batches, m.item, m.event.value);
        }
      }
      assert taken == old(queue);
    }

    method ApplyTimeouts(collected: seq<Batch>, items: seq<ItemId>, now: int, timeout: int) returns (batches: seq<Batch>)
      requires Elems(items) <= controller.active.Keys
      modifies this`consumed
      ensures State() == old(State()).(consumed := old(consumed) + Overdue(old(State()), controller.active, items, now, timeout))
      ensures batches == TimedOut(collected, old(State()), controller.active, items, now, timeout)
    {
      batches := collected;
      ghost var active, before := controller.active, State();
      for i := 0 to |items|
        invariant Elems(items[..i]) <= active.Keys
        invariant State() == before.(consumed := before.consumed + Overdue(before, active, items[..i], now, timeout))
        invariant batches == TimedOut(collected, before, active, items[..i], now, timeout)
      {
        assert items[i] in Elems(items) && items[..i + 1][..i] == items[..i];
        assert items[..i + 1] == items[..i] + [items[i]];
        OneMoreOverdue(before, active, items[..i], items[i], now, timeout);
        var run := controller.active[items[i]].run;
        if run in startedAt && now - startedAt[run] >= timeout {
          batches := PutEvent(batches, items[i], RuntimeTimeout);
          consumed := consumed + {run};
        }
      }
      assert items[..|items|] == items;
    }

    /** The supervised controller is in step with its log and its attempts are within the bound. */
    ghost predicate IsSupervised()
      reads this, controller, controller.simulator, controller.simulator.scheduler, controller.log
    {
      controller.Valid() && SL.Supervised(controller.State(), controller.completed, policy.maxAttempts)
    }

    /** Hands over one batch and retries the attempt if its failure allows it. */
    method HandOne(batch: Batch, noted: map<ItemId, FailureRecord>, again: seq<ItemId>, w: World)
      returns (failures: map<ItemId, FailureRecord>, retried: seq<ItemId>, fault: Option<Fault>)
      requires controller.Sane()
      modifies controller, controller.log, controller.simulator, controller.simulator.scheduler
      ensures controller.Sane() && controller.completed == old(controller.completed)
      ensures V.HandOne(Progress(old(controller.State()), noted, again, None), batch, policy, w)
              == Progress(controller.State(), failures, retried, fault)
      ensures old(controller.Valid()) && batch.item in old(controller.active) ==> controller.Valid()
    {
      hide Controllers.ObserveRuntimeEvents, Controllers.Retry, Laws.Live, D.WellKeyed;
      ghost var before := controller.State();
      var item := batch.item;
      failures, retried, fault := noted, again, None;
      AL.ObservingLeaves(before, item, batch.events, w.findings(item));
      var failure := controller.ObserveRuntimeEvents(item, batch.events, w.findings(item));
      assert controller.State().active == before.active;
      if failure.None? {
        return;
      }
      if item !in controller.active {
        fault := Some(NotActive);
        return;
      }
      failures := failures[item := failure.value];
      var assignment := controller.active[item];
      if policy.retryFailures && failure.value.retryable && assignment.dispatch.attempt < policy.maxAttempts {
        fault := controller.Retry(item, None, w.destroyed(item), w.launcher);
        if fault.None? {
          retried := retried + [item];
        }
      }
    }

    /** Hands the batches over in turn; a call that raises ends the loop. */
    method HandOver(batches: seq<Batch>, w: World)
      returns (failures: map<ItemId, FailureRecord>, retried: seq<ItemId>, fault: Option<Fault>)
      requires controller.Sane()
      modifies controller, controller.log, controller.simulator, controller.simulator.scheduler
      ensures controller.Sane() && controller.completed == old(controller.completed)
      ensures V.HandOver(old(controller.State()), batches, policy, w) == Progress(controller.State(), failures, retried, fault)
      ensures old(IsSupervised()) && SL.OneBatchEach(batches) && SL.ItemsIn(batches) <= old(controller.active.Keys)
        ==> controller.Valid()
    {
      hide V.HandOne, SL.Supervised, Laws.Live, D.WellKeyed;
      failures, retried, fault := map[], [], None;
      ghost var before, completed := controller.State(), controller.completed;
      ghost var live := IsSupervised() && SL.OneBatchEach(batches) && SL.ItemsIn(batches) <= controller.active.Keys;
      for i := 0 to |batches|
        invariant controller.Sane() && controller.completed == completed && fault.None?
        invariant V.HandOver(before, batches[..i], policy, w) == Progress(controller.State(), failures, retried, None)
        invariant live ==> controller.Valid()
      {
        assert batches[..i + 1][..i] == batches[..i];
        if live {
          SL.NextBatchIsActive(before, completed, batches, policy, w, i);
        }
        failures, retried, fault := HandOne(batches[i], failures, retried, w);
        if fault.Some? {
          SL.HandOverStops(before, batches, policy, w, i + 1);
          return;
        }
      }
      assert batches[..|batches|] == batches;
    }

    method ReconcileAll(items: seq<ItemId>, w: World) returns (fault: Option<Fault>)
      requires controller.Sane()
      modifies controller, controller.log, controller.simulator, controller.simulator.scheduler
      ensures controller.Sane() && controller.completed == old(controller.completed)
      ensures V.ReconcileAll(old(controller.State()), items, w) == Reply(controller.State(), fault)
      ensures old(controller.Valid()) ==> controller.Valid()
    {
      hide Controllers.Reconcile, Laws.Live, D.WellKeyed;
      ghost var before, completed, live := controller.State(), controller.completed, controller.Valid();
      fault := None;
      for i := 0 to |items|
        invariant controller.Sane() && controller.completed == completed && fault.None?
        invariant V.ReconcileAll(before, items[..i], w) == Reply(controller.State(), None)
        invariant live ==> controller.Valid()
      {
        assert items[..i + 1][..i] == items[..i];
        fault := controller.Reconcile(items[i], w.outcome(items[i]), w.nextBase(items[i]), w.launcher);
        if fault.Some? {
          SL.ReconcilingStops(before, items, w, i + 1);
          return;
        }
      }
      assert items[..|items|] == items;
    }

    /** Starts streams, takes what the stream threads put on the queue in between, drains it and times out what is overdue. */
    method Gather(w: World) returns (batches: seq<Batch>)
      requires Lists(w.listing)
      modifies this
      ensures State() == StreamsAfter(old(State()), controller.State(), policy, w)
      ensures batches == BatchesOf(old(State()), controller.State(), policy, w)
    {
      hide V.StartStreams, Drained, Collected, TimedOut, Overdue;
      ghost var before, streams := controller.State(), State();
      var items := w.listing(controller.active);
      BeginStreams(items, w);
      queue := queue + w.arrivals;
      SL.StartedQueueDrains(streams, before.active, items, w);
      batches := Drain();
      if policy.timeout.Some? {
        batches := ApplyTimeouts(batches, items, w.now, policy.timeout.value);
      }
    }

    /** One supervision cycle. */
    method RunOnce(w: World)
      returns (failures: map<ItemId, FailureRecord>, retried: seq<ItemId>, fault: Option<Fault>)
      requires controller.Sane() && Lists(w.listing)
      modifies this, controller, controller.log, controller.simulator, controller.simulator.scheduler
      ensures controller.Sane() && controller.completed == old(controller.completed)
      ensures State() == StreamsAfter(old(State()), old(controller.State()), policy, w)
      ensures V.RunOnce(old(State()), old(controller.State()), policy, w)
              == Progress(controller.State(), failures, retried, fault)
      ensures old(IsSupervised()) ==> IsSupervised()
    {
      hide V.HandOver, V.ReconcileAll, StreamsAfter, BatchesOf;
      hide SL.Supervised, Laws.Live, D.WellKeyed;
      ghost var before, streams := controller.State(), State();
      if IsSupervised() {
        SL.CycleKeeps(streams, before, controller.completed, policy, w);
      }
      SL.CycleHandsOver(streams, before, policy, w, "");
      var batches := Gather(w);
      failures, retried, fault := HandOver(batches, w);
      if fault.None? {
        fault := ReconcileAll(w.listing(controller.active), w);
      }
    }
  }
}
