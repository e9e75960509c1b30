/** Whole supervised runs: bounded attempts, bounded starts, and streams delivered exactly once. */
module SupervisedRuns {
  import opened Prelude
  import opened EventLogs
  import opened Gate
  import opened Projections
  import opened Controllers
  import opened Supervisors
  import opened SupervisionLaws
  import opened AssignmentLaws
  import Laws = ControllerLaws
  import J = Journals
  import R = Restarts
  import G = DependencyGraphs
  import Sim = Simulation
  import S = Scheduling

  datatype Desk = Desk(streams: Streams, ctrl: Controller)

  /** A supervision cycle, or a call of the controller from elsewhere; retries are the supervisor's alone. */
  datatype Step = Cycle(world: World) | Call(action: Laws.Action)

  ghost predicate IsProper(d: Desk, step: Step) {
    match step
    case Cycle(w) => Lists(w.listing)
    case Call(a) => !a.Retrying? && Laws.FailuresAreCurrent(d.ctrl, a)
  }

  ghost function Advance(d: Desk, policy: Policy, step: Step): Desk {
    match step
    case Cycle(w) =>
      if Lists(w.listing) then Desk(StreamsAfter(d.streams, d.ctrl, policy, w), RunOnce(d.streams, d.ctrl, policy, w).ctrl)
      else d
    case Call(a) => d.(ctrl := Laws.Act(d.ctrl, a))
  }

  ghost function Play(d: Desk, policy: Policy, steps: seq<Step>): Desk
    decreases steps
  {
    if steps == [] then d else Play(Advance(d, policy, steps[0]), policy, steps[1..])
  }

  ghost predicate ArePlayable(d: Desk, policy: Policy, steps: seq<Step>)
    decreases steps
  {
    steps == [] || (IsProper(d, steps[0]) && ArePlayable(Advance(d, policy, steps[0]), policy, steps[1..]))
  }

  /** Launched runs are in the log. */
  ghost predicate LaunchesAreLogged(d: Desk) {
    forall run :: run in d.streams.launched ==> HasKey(d.ctrl.log, AttemptKey(run))
  }

  ghost predicate InOrder(d: Desk, completed: set<ItemId>, policy: Policy) {
    && Supervised(d.ctrl, completed, policy.maxAttempts)
    && LaunchedOnce(d.streams) && d.streams.queue == [] && LaunchesAreLogged(d)
  }

  lemma ActiveIsLogged(c: Controller, completed: set<ItemId>, max: nat, item: ItemId)
    requires Supervised(c, completed, max) && item in c.active
    ensures HasKey(c.log, AttemptKey(c.active[item].run)) && c.active[item].run.item == item
  {
    hide Bounded, J.RowFits;
    var revisions :| Laws.Live(c, completed, revisions);
    R.OpenItems(c, completed);
    Laws.ActiveIsLive(c, completed, item);
    var run := c.active[item].run;
    J.StartedRunsAreLogged(c.log, run);
    var i :| 0 <= i < |c.log| && c.log[i].event.WorkAttemptStarted? && c.log[i].event.run == run;
    assert J.RowFits(Laws.View(c, completed, revisions), Project(c.log).attemptRecords.Keys, c.log[i]);
    StartRowKey(Laws.View(c, completed, revisions), Project(c.log).attemptRecords.Keys, c.log[i]);
  }

  lemma StartRowKey(a: J.Account, started: set<RunId>, row: Row<Key, Event>)
    requires J.RowFits(a, started, row) && row.event.WorkAttemptStarted?
    ensures row.key == AttemptKey(row.event.run)
  {
  }

  lemma CallKeeps(c: Controller, completed: set<ItemId>, max: nat, a: Laws.Action)
    requires Supervised(c, completed, max) && !a.Retrying? && Laws.FailuresAreCurrent(c, a)
    ensures Supervised(Laws.Act(c, a), completed, max) && Succeeds(c, Laws.Act(c, a))
    ensures Laws.Act(c, a).sim.sched.graph == c.sim.sched.graph
  {
    hide Laws.Live, Bounded, Reconcile, DispatchReady, CancelFromWave, MarkRuntimeFailure, RefreshTargetBase, Succeeds;
    var revisions :| Laws.Live(c, completed, revisions);
    Laws.ActKeeps(c, completed, revisions, a);
    RunsNeverReturn(c, completed, revisions, a);
    match a {
      case Dispatch(prompts, launcher) => DispatchLeaves(c, completed, revisions, prompts, launcher);
      case Reconciling(item, outcome, nextBase, launcher) =>
        ReconcileLeaves(c, completed, revisions, item, outcome, nextBase, launcher);
      case Refreshing(revision) => RefreshLeaves(c, revision);
      case Cancelling(item, reason) => CancelLeaves(c, item, reason);
      case RuntimeFailure(item, code) => MarkLeaves(c, item, code);
    }
    SameNumbersBounded(c, Laws.Act(c, a), max);
    assert Laws.Live(Laws.Act(c, a), completed, revisions + Laws.RefreshedTo(c, a));
  }

  // A cycle's controller succeeds the one it started with.

  lemma HandOneSucceeds(p: Progress, completed: set<ItemId>, batch: Batch, policy: Policy, w: World)
    requires Supervised(p.ctrl, completed, policy.maxAttempts) && batch.item in p.ctrl.active
    ensures Succeeds(p.ctrl, HandOne(p, batch, policy, w).ctrl)
  {
    hide ObserveRuntimeEvents, Bounded, Retry, FirstFailure, Laws.Live, Succeeds;
    var item := batch.item;
    var c := ObserveRuntimeEvents(p.ctrl, item, batch.events, w.findings(item));
    ObservingSucceeds(p.ctrl, item, batch.events, w.findings(item));
    ObservingLeaves(p.ctrl, item, batch.events, w.findings(item));
    ObservingKeeps(p.ctrl, completed, item, batch.events, w.findings(item), policy.maxAttempts);
    var revisions :| Laws.Live(c, completed, revisions);
    RetrySucceeds(c, completed, revisions, item, None, w.destroyed(item), w.launcher);
    SucceedsTwice(p.ctrl, c, Retry(c, item, None, w.destroyed(item), w.launcher).ctrl);
  }

  lemma {:induction false} HandOverSucceeds(c: Controller, completed: set<ItemId>, batches: seq<Batch>, policy: Policy, w: World)
    requires Supervised(c, completed, policy.maxAttempts) && OneBatchEach(batches) && ItemsIn(batches) <= c.active.Keys
    ensures Succeeds(c, HandOver(c, batches, policy, w).ctrl)
  {
    hide HandOne, Supervised, Succeeds;
    SucceedsItself(c);
    if batches != [] {
      var init, last := batches[..|batches| - 1], batches[|batches| - 1];
      assert ItemsIn(init) <= c.active.Keys by {
        assert forall i :: 0 <= i < |init| ==> init[i] == batches[i] && batches[i].item in ItemsIn(batches);
      }
      HandOverSucceeds(c, completed, init, policy, w);
      HandOverKeeps(c, completed, init, policy, w);
      var p := HandOver(c, init, policy, w);
      NextBatchIsActive(c, completed, batches, policy, w, |init|);
      HandOneSucceeds(p, completed, last, policy, w);
      SucceedsTwice(c, p.ctrl, HandOne(p, last, policy, w).ctrl);
    }
  }

  lemma {:induction false} ReconcileAllSucceeds(c: Controller, completed: set<ItemId>, items: seq<ItemId>, w: World, max: nat)
    requires Supervised(c, completed, max) && Distinct(items) && Elems(items) <= c.active.Keys
    ensures Succeeds(c, ReconcileAll(c, items, w).ctrl)
  {
    hide Laws.Live, Reconcile, Succeeds, Bounded;
    SucceedsItself(c);
    if items != [] {
      var init, last := items[..|items| - 1], items[|items| - 1];
      assert items == init + [last];
      ReconcileAllSucceeds(c, completed, init, w, max);
      ReconcileAllKeeps(c, completed, init, w, max);
      var r := ReconcileAll(c, init, w);
      var revisions :| Laws.Live(r.ctrl, completed, revisions);
      ReconcileSucceeds(r.ctrl, completed, revisions, last, w.outcome(last), w.nextBase(last), w.launcher);
      SucceedsTwice(c, r.ctrl, ReconcileOne(r, last, w).ctrl);
    }
  }

  lemma CycleSucceeds(s: Streams, c: Controller, completed: set<ItemId>, policy: Policy, w: World)
    requires Supervised(c, completed, policy.maxAttempts) && Lists(w.listing)
    ensures Succeeds(c, RunOnce(s, c, policy, w).ctrl)
  {
    hide Supervised, HandOver, ReconcileAll, BatchesOf, Succeeds;
    var batches := BatchesOf(s, c, policy, w);
    CycleHandsOver(s, c, policy, w, "");
    HandOverKeeps(c, completed, batches, policy, w);
    HandOverSucceeds(c, completed, batches, policy, w);
    var p := HandOver(c, batches, policy, w);
    var items := w.listing(p.ctrl.active);
    ReconcileAllSucceeds(p.ctrl, completed, items, w, policy.maxAttempts);
    SucceedsTwice(c, p.ctrl, ReconcileAll(p.ctrl, items, w).ctrl);
  }

  // The invariant of whole runs.

  lemma {:induction false} LaunchesComeFromActive(s: Streams, active: map<ItemId, Assignment>, items: seq<ItemId>,
                                                  w: World, run: RunId)
    requires Elems(items) <= active.Keys && run in StartStreams(s, active, items, w).launched
    ensures run in s.launched || exists item :: item in active && active[item].run == run
  {
    if items != [] {
      var init, item := items[..|items| - 1], items[|items| - 1];
      assert items == init + [item];
      assert item in active;
      if run in StartStreams(s, active, init, w).launched {
        LaunchesComeFromActive(s, active, init, w, run);
      }
    }
  }

  lemma {:induction false} StartingKeepsQueue(s: Streams, active: map<ItemId, Assignment>, items: seq<ItemId>, w: World)
    requires Elems(items) <= active.Keys
    ensures StartStreams(s, active, items, w).queue == s.queue
  {
    if items != [] {
      assert items == items[..|items| - 1] + [items[|items| - 1]];
      StartingKeepsQueue(s, active, items[..|items| - 1], w);
    }
  }

  lemma StreamsLaunch(s: Streams, c: Controller, policy: Policy, w: World)
    requires LaunchedOnce(s) && Lists(w.listing)
    ensures var t := StreamsAfter(s, c, policy, w);
      && t.queue == [] && t.launched == StartStreams(s, c.active, w.listing(c.active), w).launched
  {
    hide StartStreams, Drained, Overdue;
    var items := w.listing(c.active);
    StartsOnce(s, c.active, items, w);
    var started := StartStreams(s, c.active, items, w);
    DrainKeepsLaunched(started, started.queue + w.arrivals);
  }

  lemma StepKeeps(d: Desk, completed: set<ItemId>, policy: Policy, step: Step)
    requires InOrder(d, completed, policy) && IsProper(d, step)
    ensures InOrder(Advance(d, policy, step), completed, policy)
    ensures Succeeds(d.ctrl, Advance(d, policy, step).ctrl)
    ensures Advance(d, policy, step).ctrl.sim.sched.graph == d.ctrl.sim.sched.graph
  {
    hide Supervised, LaunchedOnce, RunOnce, StreamsAfter, StartStreams, HasKey;
    var t := Advance(d, policy, step);
    match step {
      case Call(a) => CallKeeps(d.ctrl, completed, policy.maxAttempts, a);
      case Cycle(w) =>
        CycleKeeps(d.streams, d.ctrl, completed, policy, w);
        CycleSucceeds(d.streams, d.ctrl, completed, policy, w);
        StreamsStartOnce(d.streams, d.ctrl, policy, w);
        StreamsLaunch(d.streams, d.ctrl, policy, w);
    }
    forall run | run in t.streams.launched ensures HasKey(t.ctrl.log, AttemptKey(run)) {
      if step.Cycle? && run !in d.streams.launched {
        LaunchesComeFromActive(d.streams, d.ctrl.active, step.world.listing(d.ctrl.active), step.world, run);
        var item :| item in d.ctrl.active && d.ctrl.active[item].run == run;
        ActiveIsLogged(d.ctrl, completed, policy.maxAttempts, item);
      }
      PrefixKeys(d.ctrl.log, t.ctrl.log, AttemptKey(run));
    }
  }

  lemma {:induction false} PlayKeeps(d: Desk, completed: set<ItemId>, policy: Policy, steps: seq<Step>)
    requires InOrder(d, completed, policy) && ArePlayable(d, policy, steps)
    ensures InOrder(Play(d, policy, steps), completed, policy)
    ensures Play(d, policy, steps).ctrl.sim.sched.graph == d.ctrl.sim.sched.graph
    decreases steps
  {
    hide InOrder, Advance, IsProper;
    if steps != [] {
      StepKeeps(d, completed, policy, steps[0]);
      PlayKeeps(Advance(d, policy, steps[0]), completed, policy, steps[1..]);
    }
  }

  // Counting starts.

  function CountStarts(rows: seq<Row<Key, Event>>): nat {
    if rows == [] then 0
    else CountStarts(rows[..|rows| - 1]) + if rows[|rows| - 1].event.WorkAttemptStarted? then 1 else 0
  }

  /** The attempts started, as pairs of item and number. */
  function StartPairs(rows: seq<Row<Key, Event>>): set<(ItemId, nat)> {
    set i | 0 <= i < |rows| && rows[i].event.WorkAttemptStarted? :: (rows[i].event.run.item, rows[i].event.run.attempt)
  }

  lemma {:induction false} StartsAreDistinctPairs(rows: seq<Row<Key, Event>>)
    requires J.StartsDiffer(rows)
    ensures |StartPairs(rows)| == CountStarts(rows)
  {
    if rows != [] {
      var init, last := rows[..|rows| - 1], rows[|rows| - 1];
      StartsAreDistinctPairs(init);
      assert forall i :: 0 <= i < |init| ==> init[i] == rows[i];
      if last.event.WorkAttemptStarted? {
        var pair := (last.event.run.item, last.event.run.attempt);
        assert pair !in StartPairs(init) by {
          forall i | 0 <= i < |init| && init[i].event.WorkAttemptStarted?
            ensures (init[i].event.run.item, init[i].event.run.attempt) != pair
          {
            assert !J.StartsAlike(rows[i], rows[|init|].event.run);
          }
        }
        assert StartPairs(rows) == StartPairs(init) + {pair};
      } else {
        assert StartPairs(rows) == StartPairs(init);
      }
    }
  }

  function Box(items: set<ItemId>, max: nat): set<(ItemId, nat)> {
    set item, n: nat | item in items && 1 <= n <= max :: (item, n)
  }

  lemma {:induction false} LayerSize(items: set<ItemId>, n: nat)
    ensures |set item | item in items :: (item, n)| == |items|
  {
    if items != {} {
      var x :| x in items;
      LayerSize(items - {x}, n);
      assert (set item | item in items :: (item, n)) == (set item | item in items - {x} :: (item, n)) + {(x, n)};
    }
  }

  lemma {:induction false} BoxSize(items: set<ItemId>, max: nat)
    ensures |Box(items, max)| == |items| * max
  {
    if max == 0 {
      assert Box(items, 0) == {};
    } else {
      BoxSize(items, max - 1);
      LayerSize(items, max);
      var layer := set item | item in items :: (item, max);
      assert Box(items, max) == Box(items, max - 1) + layer;
      assert Box(items, max - 1) !! layer;
    }
  }

  lemma StartsFitTheBox(c: Controller, completed: set<ItemId>, max: nat)
    requires Supervised(c, completed, max) && max >= 1
    ensures StartPairs(c.log) <= Box(c.sim.sched.graph.blockers.Keys, max) && J.StartsDiffer(c.log)
  {
    var revisions :| Laws.Live(c, completed, revisions);
    var a := Laws.View(c, completed, revisions);
    OwnedIsInGraph(c, completed);
    forall i | 0 <= i < |c.log| && c.log[i].event.WorkAttemptStarted?
      ensures c.log[i].event.run.item in c.sim.sched.graph.blockers && 1 <= c.log[i].event.run.attempt <= max
    {
      assert J.RowFits(a, Project(c.log).attemptRecords.Keys, c.log[i]);
    }
  }

  lemma OwnedIsInGraph(c: Controller, completed: set<ItemId>)
    requires Laws.Linked(c, completed)
    ensures c.sim.sched.dispatched + c.sim.sched.cancelled <= c.sim.sched.graph.blockers.Keys
  {
  }

  /** No more attempts are started than items times the bound. */
  lemma StartsAreBounded(c: Controller, completed: set<ItemId>, max: nat)
    requires Supervised(c, completed, max) && max >= 1
    ensures CountStarts(c.log) <= |c.sim.sched.graph.blockers.Keys| * max
  {
    hide Supervised, StartPairs;
    StartsFitTheBox(c, completed, max);
    StartsAreDistinctPairs(c.log);
    BoxSize(c.sim.sched.graph.blockers.Keys, max);
    SubsetCardinality(StartPairs(c.log), Box(c.sim.sched.graph.blockers.Keys, max));
  }

  function NewDesk(graph: G.DependencyGraph, scheduling: S.Policy, base: Revision, repository: string, root: string,
                   review: ReviewPolicy, completed: set<ItemId>): Desk
  {
    Desk(NO_STREAMS, NewController(Sim.NewSim(graph, scheduling, base, repository, root, review, completed)))
  }

  lemma NewIsInOrder(graph: G.DependencyGraph, scheduling: S.Policy, base: Revision, repository: string, root: string,
                     review: ReviewPolicy, completed: set<ItemId>, policy: Policy)
    ensures InOrder(NewDesk(graph, scheduling, base, repository, root, review, completed), completed, policy)
  {
    hide Laws.Live;
    R.NewIsLive(graph, scheduling, base, repository, root, review, completed);
  }

  predicate StartsWithin(rows: seq<Row<Key, Event>>, max: nat) {
    forall i :: 0 <= i < |rows| && rows[i].event.WorkAttemptStarted? ==> 1 <= rows[i].event.run.attempt <= max
  }

  /** Supervised delivery is bounded: by attempt, in total, and in streams, whatever happens outside. */
  lemma SupervisionIsBounded(graph: G.DependencyGraph, scheduling: S.Policy, base: Revision, repository: string, root: string,
                             review: ReviewPolicy, completed: set<ItemId>, policy: Policy, steps: seq<Step>)
    requires ArePlayable(NewDesk(graph, scheduling, base, repository, root, review, completed), policy, steps)
    ensures var end := Play(NewDesk(graph, scheduling, base, repository, root, review, completed), policy, steps);
      && StartsWithin(end.ctrl.log, policy.maxAttempts)
      && CountStarts(end.ctrl.log) <= |graph.blockers.Keys| * policy.maxAttempts
      && Distinct(end.streams.launched)
  {
    hide Supervised, ArePlayable, Play, LaunchesAreLogged, J.StartsDiffer;
    var start := NewDesk(graph, scheduling, base, repository, root, review, completed);
    NewIsInOrder(graph, scheduling, base, repository, root, review, completed, policy);
    PlayKeeps(start, completed, policy, steps);
    var end := Play(start, policy, steps);
    StartsAreBounded(end.ctrl, completed, policy.maxAttempts);
    StartsFitTheBox(end.ctrl, completed, policy.maxAttempts);
    forall i | 0 <= i < |end.ctrl.log| && end.ctrl.log[i].event.WorkAttemptStarted?
      ensures 1 <= end.ctrl.log[i].event.run.attempt <= policy.maxAttempts
    {
      var run := end.ctrl.log[i].event.run;
      assert (run.item, run.attempt) in StartPairs(end.ctrl.log);
    }
  }

  // What is collected of one stream, over whole runs.

  /** The messages a cycle drains. */
  ghost function QueueOf(d: Desk, w: World): seq<Message> {
    if Lists(w.listing) then StartStreams(d.streams, d.ctrl.active, w.listing(d.ctrl.active), w).queue + w.arrivals else []
  }

  predicate IsRunning(c: Controller, run: RunId) {
    run.item in c.active && c.active[run.item].run == run
  }

  /** What a step collects of a run's stream, to hand it over. */
  ghost function CollectedIn(d: Desk, step: Step, run: RunId): seq<AgentEvent> {
    if step.Cycle? && IsRunning(d.ctrl, run) then EventsOf(Collected(d.ctrl.active, QueueOf(d, step.world)), run.item) else []
  }

  ghost function EmittedIn(d: Desk, step: Step, run: RunId): seq<AgentEvent> {
    if step.Cycle? then Tagged(QueueOf(d, step.world), run.item, run) else []
  }

  ghost function CollectedFor(d: Desk, policy: Policy, steps: seq<Step>, run: RunId): seq<AgentEvent>
    decreases steps
  {
    if steps == [] then [] else CollectedIn(d, steps[0], run) + CollectedFor(Advance(d, policy, steps[0]), policy, steps[1..], run)
  }

  ghost function Emitted(d: Desk, policy: Policy, steps: seq<Step>, run: RunId): seq<AgentEvent>
    decreases steps
  {
    if steps == [] then [] else EmittedIn(d, steps[0], run) + Emitted(Advance(d, policy, steps[0]), policy, steps[1..], run)
  }

  /** Only launched streams put messages on the queue. */
  ghost predicate OnlyLaunchedEmit(d: Desk, step: Step) {
    step.Cycle? && Lists(step.world.listing) ==>
      var launched := StartStreams(d.streams, d.ctrl.active, step.world.listing(d.ctrl.active), step.world).launched;
      forall m :: m in step.world.arrivals ==> m.run in launched
  }

  ghost predicate IsDisciplined(d: Desk, policy: Policy, steps: seq<Step>)
    decreases steps
  {
    steps == [] || (OnlyLaunchedEmit(d, steps[0]) && IsDisciplined(Advance(d, policy, steps[0]), policy, steps[1..]))
  }

  lemma {:induction false} UntaggedIsEmpty(queue: seq<Message>, item: ItemId, run: RunId)
    requires forall m :: m in queue ==> m.run != run
    ensures Tagged(queue, item, run) == []
  {
    if queue != [] {
      UntaggedIsEmpty(queue[..|queue| - 1], item, run);
    }
  }

  /** Nothing more is collected for a run that ended, and it stays ended. */
  lemma {:induction false} EndedRunsStaySilent(d: Desk, completed: set<ItemId>, policy: Policy, steps: seq<Step>, run: RunId)
    requires InOrder(d, completed, policy) && ArePlayable(d, policy, steps)
    requires HasKey(d.ctrl.log, AttemptKey(run)) && !IsRunning(d.ctrl, run)
    ensures CollectedFor(d, policy, steps, run) == [] && !IsRunning(Play(d, policy, steps).ctrl, run)
    decreases steps
  {
    hide InOrder, Advance, IsProper;
    if steps != [] {
      var t := Advance(d, policy, steps[0]);
      StepKeeps(d, completed, policy, steps[0]);
      PrefixKeys(d.ctrl.log, t.ctrl.log, AttemptKey(run));
      EndedRunsStaySilent(t, completed, policy, steps[1..], run);
    }
  }

  lemma StepCollects(d: Desk, completed: set<ItemId>, policy: Policy, step: Step, run: RunId)
    requires InOrder(d, completed, policy) && IsProper(d, step) && OnlyLaunchedEmit(d, step)
    ensures IsRunning(d.ctrl, run) ==> CollectedIn(d, step, run) == EmittedIn(d, step, run)
    ensures !IsRunning(d.ctrl, run) ==> CollectedIn(d, step, run) == []
    ensures !HasKey(d.ctrl.log, AttemptKey(run)) ==> EmittedIn(d, step, run) == [] && !IsRunning(d.ctrl, run)
  {
    hide Supervised, LaunchedOnce, Collected, EventsOf;
    if step.Cycle? {
      DrainIsExact(d.ctrl.active, QueueOf(d, step.world), run.item);
    }
    if IsRunning(d.ctrl, run) {
      ActiveIsLogged(d.ctrl, completed, policy.maxAttempts, run.item);
    }
    if !HasKey(d.ctrl.log, AttemptKey(run)) && step.Cycle? {
      var items := step.world.listing(d.ctrl.active);
      StartingKeepsQueue(d.streams, d.ctrl.active, items, step.world);
      if run in StartStreams(d.streams, d.ctrl.active, items, step.world).launched {
        LaunchesComeFromActive(d.streams, d.ctrl.active, items, step.world, run);
        var item :| item in d.ctrl.active && d.ctrl.active[item].run == run;
        ActiveIsLogged(d.ctrl, completed, policy.maxAttempts, item);
      }
      UntaggedIsEmpty(QueueOf(d, step.world), run.item, run);
    }
  }

  /** What is collected of a stream is a prefix of what it emitted, in order, and all of it while the run is active. */
  lemma {:induction false} StreamsArriveInOrder(d: Desk, completed: set<ItemId>, policy: Policy, steps: seq<Step>, run: RunId)
    requires InOrder(d, completed, policy) && ArePlayable(d, policy, steps) && IsDisciplined(d, policy, steps)
    requires HasKey(d.ctrl.log, AttemptKey(run)) ==> IsRunning(d.ctrl, run)
    ensures CollectedFor(d, policy, steps, run) <= Emitted(d, policy, steps, run)
    ensures IsRunning(Play(d, policy, steps).ctrl, run) ==> CollectedFor(d, policy, steps, run) == Emitted(d, policy, steps, run)
    decreases steps
  {
    hide InOrder, Advance, IsProper, CollectedIn, EmittedIn, OnlyLaunchedEmit, IsRunning;
    if steps != [] {
      var t := Advance(d, policy, steps[0]);
      StepKeeps(d, completed, policy, steps[0]);
      StepCollects(d, completed, policy, steps[0], run);
      if HasKey(t.ctrl.log, AttemptKey(run)) && !IsRunning(t.ctrl, run) {
        EndedRunsStaySilent(t, completed, policy, steps[1..], run);
      } else {
        StreamsArriveInOrder(t, completed, policy, steps[1..], run);
      }
    }
  }
}
