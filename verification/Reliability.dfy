/** The ARP recorder's lifecycle numbering, with the controller guards that decide what is emitted. */
module Reliability {
  import opened Prelude
  import opened EventLogs
  import opened Projections
  import opened Gate

  datatype Checkpoint = EpisodeStarted | ExecutionStarted | GateRequested | GateDecided | EpisodeCompleted

  /** One lifecycle document written to the sink. */
  datatype Emission = Emission(run: RunId, number: nat, checkpoint: Checkpoint)

  datatype Recorder = Recorder(sequences: map<RunId, nat>, episodes: set<RunId>, sink: seq<Emission>)

  datatype Fault = RunNotRecorded | NotActive | LogConflict | TrackerRefused

  function EmitLifecycle(r: Recorder, run: RunId, checkpoint: Checkpoint): Result<Recorder, Fault> {
    if run !in r.episodes then Err(RunNotRecorded)
    else
      var n := if run in r.sequences then r.sequences[run] else 0;
      Ok(r.(sequences := r.sequences[run := n + 1], sink := r.sink + [Emission(run, n, checkpoint)]))
  }

  function EmitBoth(r: Recorder, run: RunId, first: Checkpoint, second: Checkpoint): Result<Recorder, Fault> {
    match EmitLifecycle(r, run, first)
    case Err(fault) => Err(fault)
    case Ok(t) => EmitLifecycle(t, run, second)
  }

  /** Opening an episode never raises: it makes the run known first. */
  function AfterRecordRun(r: Recorder, run: RunId): Recorder {
    EmitBoth(r.(episodes := r.episodes + {run}), run, EpisodeStarted, ExecutionStarted).value
  }

  function AfterRestoreRun(r: Recorder, run: RunId, sequence: nat): Recorder {
    r.(episodes := r.episodes + {run}, sequences := r.sequences[run := sequence])
  }

  class Arp3Recorder {
    var sequences: map<RunId, nat>
    var episodes: set<RunId>
    var sink: seq<Emission>

    ghost function State(): Recorder
      reads this
    {
      Recorder(sequences, episodes, sink)
    }

    constructor (sink: seq<Emission>)
      ensures State() == Recorder(map[], {}, sink)
    {
      this.sink, sequences, episodes := sink, map[], {};
    }

    method Emit(run: RunId, checkpoint: Checkpoint) returns (fault: Option<Fault>)
      modifies this
      ensures match EmitLifecycle(old(State()), run, checkpoint)
        case Ok(r) => fault.None? && State() == r
        case Err(e) => fault == Some(e) && State() == old(State())
    {
      if run !in episodes {
        return Some(RunNotRecorded);
      }
      var number := if run in sequences then sequences[run] else 0;
      sink := sink + [Emission(run, number, checkpoint)];
      sequences := sequences[run := number + 1];
      fault := None;
    }

    method RecordRun(run: RunId)
      modifies this
      ensures State() == AfterRecordRun(old(State()), run)
    {
      episodes := episodes + {run};
      var first := Emit(run, EpisodeStarted);
      var second := Emit(run, ExecutionStarted);
    }

    method RestoreRun(run: RunId, sequence: nat)
      modifies this
      ensures State() == AfterRestoreRun(old(State()), run, sequence)
    {
      episodes := episodes + {run};
      sequences := sequences[run := sequence];
    }

    method RecordGateRequest(run: RunId) returns (fault: Option<Fault>)
      modifies this
      ensures match EmitLifecycle(old(State()), run, GateRequested)
        case Ok(r) => fault.None? && State() == r
        case Err(e) => fault == Some(e) && State() == old(State())
    {
      fault := Emit(run, GateRequested);
    }

    /** A pending decision emits nothing; any other closes the episode. */
    method RecordGateDecision(run: RunId, status: GateStatus) returns (fault: Option<Fault>)
      modifies this
      ensures status.Pending? ==> fault.None? && State() == old(State())
      ensures !status.Pending? ==>
        match EmitBoth(old(State()), run, GateDecided, EpisodeCompleted)
        case Ok(r) => fault.None? && State() == r
        case Err(e) => fault == Some(e) && State() == old(State())
    {
      if status == Pending {
        return None;
      }
      fault := Emit(run, GateDecided);
      if fault.None? {
        fault := Emit(run, EpisodeCompleted);
      }
    }
  }

  // The controller's side: what is durable, and which guards protect the emissions.

  datatype EmissionId = RunEmission(run: RunId) | RequestEmission(run: RunId) | DecisionEmission(run: RunId)

  /** `durable` and `rows`, the attempt events of the log, outlive a restart; the rest is in memory. */
  datatype Desk = Desk(
    recorder: Recorder,
    durable: set<EmissionId>,
    rows: seq<Row<Key, Event>>,
    active: map<ItemId, RunId>,
    requested: set<ItemId>,
    decided: set<ItemId>,
    done: set<ItemId>)

  function NewDesk(): Desk {
    Desk(Recorder(map[], {}, []), {}, [], map[], {}, {}, {})
  }

  datatype Reply = Reply(desk: Desk, fault: Option<Fault>)

  /** A start is recorded once per run; then it is logged, which raises when the log has another start of the run. */
  function StartRun(d: Desk, run: RunId, workspace: Workspace): Reply {
    var e := WorkAttemptStarted(run, workspace);
    var t := d.(active := d.active[run.item := run], rows := Inserted(d.rows, RowOf(e)));
    Reply(if RunEmission(run) in d.durable then t
          else t.(recorder := AfterRecordRun(d.recorder, run), durable := d.durable + {RunEmission(run)}),
          if Answer(d.rows, RowOf(e)).Err? then Some(LogConflict) else None)
  }

  predicate WantsRequest(d: Desk, item: ItemId, ready: bool)
    requires item in d.active
  {
    ready && item !in d.requested && RequestEmission(d.active[item]) !in d.durable
  }

  predicate WantsDecision(d: Desk, item: ItemId, approved: bool)
    requires item in d.active
  {
    approved && item !in d.decided && DecisionEmission(d.active[item]) !in d.durable
  }

  /** A request is recorded when the gate waits for the human or has approved, once per item and once per run. */
  function RequestOnce(d: Desk, item: ItemId, ready: bool): Reply
    requires item in d.active
  {
    if !WantsRequest(d, item, ready) then Reply(d, None)
    else
      var t, run := d.(requested := d.requested + {item}), d.active[item];
      match EmitLifecycle(d.recorder, run, GateRequested)
      case Err(fault) => Reply(t, Some(fault))
      case Ok(recorder) => Reply(t.(recorder := recorder, durable := d.durable + {RequestEmission(run)}), None)
  }

  function DecideOnce(d: Desk, item: ItemId, approved: bool): Reply
    requires item in d.active
  {
    if !WantsDecision(d, item, approved) then Reply(d, None)
    else
      var t, run := d.(decided := d.decided + {item}), d.active[item];
      match EmitBoth(d.recorder, run, GateDecided, EpisodeCompleted)
      case Err(fault) => Reply(t, Some(fault))
      case Ok(recorder) => Reply(t.(recorder := recorder, durable := d.durable + {DecisionEmission(run)}), None)
  }

  /** The ticket is moved to done once, which the tracker may refuse; then the release is logged. */
  function Settle(d: Desk, item: ItemId, accepted: bool): Reply
    requires item in d.active
  {
    var t := d.(active := d.active - {item});
    if item in d.done then Reply(t, None)
    else if !accepted then Reply(d, Some(TrackerRefused))
    else
      Reply(t.(done := d.done + {item},
               rows := Inserted(d.rows, RowOf(WorkAttemptStateChanged(d.active[item], ReleasedAttempt)))), None)
  }

  /** One reconciliation; `accepted` is whether the tracker would take the item as done. */
  function Reconcile(d: Desk, item: ItemId, waiting: bool, approved: bool, accepted: bool): Reply {
    if item !in d.active then Reply(d, Some(NotActive))
    else
      var r := RequestOnce(d, item, waiting || approved);
      if r.fault.Some? then r
      else
        var u := DecideOnce(r.desk, item, approved);
        if u.fault.Some? || !approved then u else Settle(u.desk, item, accepted)
  }

  /** A retry drops the attempt and the item's recorded decision. */
  function Supersede(d: Desk, item: ItemId): Reply {
    if item !in d.active then Reply(d, Some(NotActive))
    else
      Reply(d.(active := d.active - {item}, decided := d.decided - {item},
               rows := Inserted(d.rows, RowOf(WorkAttemptStateChanged(d.active[item], SupersededAttempt)))), None)
  }

  /** A cancellation drops the attempt and logs no end of it. */
  function Cancel(d: Desk, item: ItemId): Reply {
    if item !in d.active then Reply(d, Some(NotActive)) else Reply(d.(active := d.active - {item}), None)
  }

  /** The runs a restart makes active: those the log has a start and no end of. */
  function Restored(d: Desk): map<ItemId, RunId> {
    var active := Project(d.rows).active;
    map item | item in active :: active[item].run
  }

  /** A fresh recorder over the same sink: it knows the restored runs, and counts on from what it takes to be emitted. */
  function Reopened(d: Desk): Recorder {
    var runs := Restored(d).Values;
    Recorder(map run | run in runs && RunEmission(run) in d.durable :: if RequestEmission(run) in d.durable then 3 else 2,
             (set run | run in runs && RunEmission(run) in d.durable),
             d.recorder.sink)
  }

  /** The calls that restore the runs one after another. */
  function RestoreEach(r: Recorder, runs: seq<RunId>, durable: set<EmissionId>): Recorder {
    if runs == [] then r
    else
      var t, run := RestoreEach(r, runs[..|runs| - 1], durable), runs[|runs| - 1];
      if RunEmission(run) !in durable then t
      else AfterRestoreRun(t, run, if RequestEmission(run) in durable then 3 else 2)
  }

  lemma {:induction false} RestoringReopens(d: Desk, runs: seq<RunId>)
    requires Elems(runs) == Restored(d).Values
    ensures RestoreEach(Recorder(map[], {}, d.recorder.sink), runs, d.durable) == Reopened(d)
  {
    hide Restored;
    RestoredSoFar(d, runs);
  }

  lemma {:induction false} RestoredSoFar(d: Desk, runs: seq<RunId>)
    ensures var r := RestoreEach(Recorder(map[], {}, d.recorder.sink), runs, d.durable);
      && r.sequences == (map run | run in Elems(runs) && RunEmission(run) in d.durable
                           :: if RequestEmission(run) in d.durable then 3 else 2)
      && r.episodes == (set run | run in Elems(runs) && RunEmission(run) in d.durable)
      && r.sink == d.recorder.sink
  {
    if runs != [] {
      var init, last := runs[..|runs| - 1], runs[|runs| - 1];
      RestoredSoFar(d, init);
      assert runs == init + [last];
      assert Elems(runs) == Elems(init) + {last};
    }
  }

  /** A restart; `decided` and `done` are the items the log shows as approved and as done. */
  function Restart(d: Desk, decided: set<ItemId>, done: set<ItemId>): Desk {
    Desk(Reopened(d), d.durable, d.rows, Restored(d), {}, decided, done)
  }

  datatype Action =
    | Starting(run: RunId, workspace: Workspace)
    | Reconciling(item: ItemId, waiting: bool, approved: bool, accepted: bool)
    | Superseding(item: ItemId)
    | Cancelling(item: ItemId)
    | Restarting(decided: set<ItemId>, done: set<ItemId>)

  function Act(d: Desk, a: Action): Reply {
    match a
    case Starting(run, workspace) => StartRun(d, run, workspace)
    case Reconciling(item, waiting, approved, accepted) => Reconcile(d, item, waiting, approved, accepted)
    case Superseding(item) => Supersede(d, item)
    case Cancelling(item) => Cancel(d, item)
    case Restarting(decided, done) => Reply(Restart(d, decided, done), None)
  }

  /** A run of calls; one that raises leaves what it had done by then, and the next one follows. */
  function Play(d: Desk, actions: seq<Action>): Desk
    decreases actions
  {
    if actions == [] then d else Play(Act(d, actions[0]).desk, actions[1..])
  }

  // What was emitted for one run.

  function OfRun(sink: seq<Emission>, run: RunId): (es: seq<Emission>)
    ensures forall i :: 0 <= i < |es| ==> es[i].run == run
  {
    if sink == [] then []
    else OfRun(sink[..|sink| - 1], run) + if sink[|sink| - 1].run == run then [sink[|sink| - 1]] else []
  }

  /** The lifecycle of a run as its durable emissions imply it. */
  function Expected(run: RunId, durable: set<EmissionId>): seq<Checkpoint> {
    (if RunEmission(run) in durable then [EpisodeStarted, ExecutionStarted] else [])
    + (if RequestEmission(run) in durable then [GateRequested] else [])
    + (if DecisionEmission(run) in durable then [GateDecided, EpisodeCompleted] else [])
  }

  /** The emissions are numbered 0, 1, 2, ... and carry the checkpoints in order. */
  predicate InOrder(es: seq<Emission>, checkpoints: seq<Checkpoint>) {
    |es| == |checkpoints| && forall i :: 0 <= i < |es| ==> es[i].number == i && es[i].checkpoint == checkpoints[i]
  }

  predicate NumberedInOrder(d: Desk, run: RunId) {
    InOrder(OfRun(d.recorder.sink, run), Expected(run, d.durable))
  }
}
