/** The supervisor: runtime streams are consumed once, their events handed over, failures retried within a bound. */
module Supervisors {
  import opened Prelude
  import opened Gate
  import opened Projections
  import opened Controllers

  datatype Policy = SupervisorPolicy(maxAttempts: Attempt, retryFailures: bool, timeout: Option<int>)

  /** What a stream thread puts on the queue; no event marks the end of the stream. */
  datatype Message = Message(item: ItemId, run: RunId, event: Option<AgentEvent>)

  /** The events collected for one item; the batches keep the order items were first seen in. */
  datatype Batch = Batch(item: ItemId, events: seq<AgentEvent>)

  /** Everything one cycle learns from outside: clocks, threads, runtimes, workspaces and observations. */
  datatype World = World(
    listing: map<ItemId, Assignment> -> seq<ItemId>,
    detached: set<RunId>,
    startTime: RunId -> int,
    arrivals: seq<Message>,
    now: int,
    findings: ItemId -> Findings,
    destroyed: ItemId -> Option<FailureCode>,
    outcome: ItemId -> Outcome,
    nextBase: ItemId -> Option<Revision>,
    launcher: Launcher)

  /** The listing names the keys of a dictionary, each once. */
  ghost predicate Lists(listing: map<ItemId, Assignment> -> seq<ItemId>) {
    forall m :: Elems(listing(m)) == m.Keys && Distinct(listing(m))
  }

  datatype Streams = Streams(
    consumed: set<RunId>,
    running: set<RunId>,
    startedAt: map<RunId, int>,
    queue: seq<Message>,
    launched: seq<RunId>)

  const NO_STREAMS := Streams({}, {}, map[], [], [])

  datatype Progress = Progress(ctrl: Controller, failures: map<ItemId, FailureRecord>, retried: seq<ItemId>, fault: Option<Fault>)

  // Starting streams.

  function StartStream(s: Streams, run: RunId, w: World): Streams {
    if run in w.detached || run in s.consumed || run in s.running then s
    else s.(running := s.running + {run}, startedAt := s.startedAt[run := w.startTime(run)], launched := s.launched + [run])
  }

  function StartStreams(s: Streams, active: map<ItemId, Assignment>, items: seq<ItemId>, w: World): Streams
    requires Elems(items) <= active.Keys
  {
    if items == [] then s
    else
      var init, item := items[..|items| - 1], items[|items| - 1];
      assert items == init + [item];
      StartStream(StartStreams(s, active, init, w), active[item].run, w)
  }

  // Draining the queue.

  predicate IsCurrent(active: map<ItemId, Assignment>, m: Message) {
    m.event.Some? && m.item in active && active[m.item].run == m.run
  }

  function PutEvent(batches: seq<Batch>, item: ItemId, e: AgentEvent): seq<Batch> {
    if batches == [] then [Batch(item, [e])]
    else if batches[0].item == item then [Batch(item, batches[0].events + [e])] + batches[1..]
    else [batches[0]] + PutEvent(batches[1..], item, e)
  }

  function Ended(s: Streams, run: RunId): Streams {
    s.(consumed := s.consumed + {run}, running := s.running - {run}, startedAt := s.startedAt - {run})
  }

  function TakeStream(s: Streams, m: Message): Streams {
    if m.event.None? then Ended(s, m.run) else s
  }

  function TakeEvent(batches: seq<Batch>, active: map<ItemId, Assignment>, m: Message): seq<Batch> {
    if IsCurrent(active, m) then PutEvent(batches, m.item, m.event.value) else batches
  }

  function Drained(s: Streams, queue: seq<Message>): Streams {
    if queue == [] then s else TakeStream(Drained(s, queue[..|queue| - 1]), queue[|queue| - 1])
  }

  function Collected(active: map<ItemId, Assignment>, queue: seq<Message>): seq<Batch> {
    if queue == [] then []
    else TakeEvent(Collected(active, queue[..|queue| - 1]), active, queue[|queue| - 1])
  }

  // Timeouts.

  predicate IsOverdue(s: Streams, run: RunId, now: int, timeout: int) {
    run in s.startedAt && now - s.startedAt[run] >= timeout
  }

  function Overdue(s: Streams, active: map<ItemId, Assignment>, items: seq<ItemId>, now: int, timeout: int): set<RunId>
    requires Elems(items) <= active.Keys
  {
    set item | item in Elems(items) && IsOverdue(s, active[item].run, now, timeout) :: active[item].run
  }

  function TimedOut(batches: seq<Batch>, s: Streams, active: map<ItemId, Assignment>, items: seq<ItemId>,
                    now: int, timeout: int): seq<Batch>
    requires Elems(items) <= active.Keys
  {
    if items == [] then batches
    else
      var init, item := items[..|items| - 1], items[|items| - 1];
      assert items == init + [item];
      var before := TimedOut(batches, s, active, init, now, timeout);
      if IsOverdue(s, active[item].run, now, timeout) then PutEvent(before, item, RuntimeTimeout) else before
  }

  // Handing events over, and reconciling.

  predicate MayRetry(policy: Policy, failure: FailureRecord, d: Dispatch) {
    policy.retryFailures && failure.retryable && d.attempt < policy.maxAttempts
  }

  function HandOne(p: Progress, batch: Batch, policy: Policy, w: World): Progress {
    var item := batch.item;
    var c := ObserveRuntimeEvents(p.ctrl, item, batch.events, w.findings(item));
    var failure := FirstFailure(batch.events, w.findings(item), 0);
    if failure.None? then p.(ctrl := c)
    else if item !in c.active then p.(ctrl := c, fault := Some(NotActive))
    else
      var q := p.(ctrl := c, failures := p.failures[item := failure.value]);
      if !MayRetry(policy, failure.value, c.active[item].dispatch) then q
      else
        var r := Retry(c, item, None, w.destroyed(item), w.launcher);
        q.(ctrl := r.ctrl, fault := r.fault, retried := q.retried + if r.fault.None? then [item] else [])
  }

  /** A call that raises ends the cycle; the batches after it are lost. */
  function HandOver(c: Controller, batches: seq<Batch>, policy: Policy, w: World): Progress {
    if batches == [] then Progress(c, map[], [], None)
    else
      var p := HandOver(c, batches[..|batches| - 1], policy, w);
      if p.fault.Some? then p else HandOne(p, batches[|batches| - 1], policy, w)
  }

  function ReconcileOne(r: Reply, item: ItemId, w: World): Reply {
    Reconcile(r.ctrl, item, w.outcome(item), w.nextBase(item), w.launcher)
  }

  function ReconcileAll(c: Controller, items: seq<ItemId>, w: World): Reply {
    if items == [] then Reply(c, None)
    else
      var r := ReconcileAll(c, items[..|items| - 1], w);
      if r.fault.Some? then r else ReconcileOne(r, items[|items| - 1], w)
  }

  // One cycle.

  /** The streams after a cycle's start-up, drain and timeouts. */
  function StreamsAfter(s: Streams, c: Controller, policy: Policy, w: World): Streams
    requires Lists(w.listing)
  {
    var items := w.listing(c.active);
    var started := StartStreams(s, c.active, items, w);
    var drained := Drained(started, started.queue + w.arrivals).(queue := []);
    if policy.timeout.None? then drained
    else drained.(consumed := drained.consumed + Overdue(drained, c.active, items, w.now, policy.timeout.value))
  }

  /** The events a cycle hands over. */
  function BatchesOf(s: Streams, c: Controller, policy: Policy, w: World): seq<Batch>
    requires Lists(w.listing)
  {
    var items := w.listing(c.active);
    var started := StartStreams(s, c.active, items, w);
    var queue := started.queue + w.arrivals;
    var batches := Collected(c.active, queue);
    if policy.timeout.None? then batches
    else TimedOut(batches, Drained(started, queue).(queue := []), c.active, items, w.now, policy.timeout.value)
  }

  function RunOnce(s: Streams, c: Controller, policy: Policy, w: World): Progress
    requires Lists(w.listing)
  {
    var p := HandOver(c, BatchesOf(s, c, policy, w), policy, w);
    if p.fault.Some? then p
    else
      var r := ReconcileAll(p.ctrl, w.listing(p.ctrl.active), w);
      p.(ctrl := r.ctrl, fault := r.fault)
  }

  lemma DrainOneMore(s: Streams, active: map<ItemId, Assignment>, taken: seq<Message>, m: Message)
    ensures Drained(s, taken + [m]) == TakeStream(Drained(s, taken), m)
    ensures Collected(active, taken + [m]) == TakeEvent(Collected(active, taken), active, m)
  {
  }

  lemma OneMoreOverdue(s: Streams, active: map<ItemId, Assignment>, items: seq<ItemId>, item: ItemId, now: int, timeout: int)
    requires Elems(items) <= active.Keys && item in active
    ensures Elems(items + [item]) <= active.Keys
    ensures Overdue(s, active, items + [item], now, timeout)
            == Overdue(s, active, items, now, timeout)
               + if IsOverdue(s, active[item].run, now, timeout) then {active[item].run} else {}
  {
  }
}
