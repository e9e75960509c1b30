/** When the recorded episodes are in order, and when recording raises, over every run of starts, retries and restarts. */
module ReliabilityLaws {
  import opened Prelude
  import opened EventLogs
  import opened Projections
  import opened Reliability

  /** Only runs on record are in use: known to the recorder, asked for or decided, active, or open in the log. */
  ghost predicate OnRecord(d: Desk) {
    && d.recorder.sequences.Keys == d.recorder.episodes
    && (forall run :: run in d.recorder.episodes ==> RunEmission(run) in d.durable)
    && (forall run :: RequestEmission(run) in d.durable ==> RunEmission(run) in d.durable)
    && (forall run :: DecisionEmission(run) in d.durable ==> RunEmission(run) in d.durable)
    && Owned(d.active, d.durable) && Owned(Restored(d), d.durable)
  }

  ghost predicate Owned(runs: map<ItemId, RunId>, durable: set<EmissionId>) {
    forall item :: item in runs ==> runs[item].item == item && RunEmission(runs[item]) in durable
  }

  /** The counter of a run the recorder knows is right, unless its decision is on record. */
  ghost predicate Counted(d: Desk, run: RunId) {
    run in d.recorder.sequences &&
    (d.recorder.sequences[run] == |Expected(run, d.durable)| || DecisionEmission(run) in d.durable)
  }

  ghost predicate AllInOrder(d: Desk) {
    forall run :: NumberedInOrder(d, run)
  }

  ghost predicate Orderly(d: Desk) {
    OnRecord(d) && (forall run :: run in d.recorder.episodes ==> Counted(d, run)) && AllInOrder(d)
  }

  lemma NewDeskIsOrderly()
    ensures Orderly(NewDesk())
  {
  }

  // The log's part.

  lemma StartRow(rows: seq<Row<Key, Event>>, run: RunId, workspace: Workspace)
    ensures var before, after := Project(rows), Project(Inserted(rows, RowOf(WorkAttemptStarted(run, workspace))));
      && after.active == (if HasKey(rows, AttemptKey(run)) then before.active
                          else before.active[run.item := ActiveRecord(run, workspace)])
      && after.attemptRecords.Keys == before.attemptRecords.Keys + if HasKey(rows, AttemptKey(run)) then {} else {run}
  {
    hide HasKey;
    ProjectOneMore(rows, WorkAttemptStarted(run, workspace));
  }

  lemma EndRow(rows: seq<Row<Key, Event>>, run: RunId, state: AttemptState)
    requires EndsAttempt(state)
    ensures var before, after := Project(rows), Project(Inserted(rows, RowOf(WorkAttemptStateChanged(run, state))));
      && (after.active == before.active || after.active == before.active - {run.item})
      && (!HasKey(rows, KeyOf(WorkAttemptStateChanged(run, state))) && run in before.attemptRecords ==>
            after.active == before.active - {run.item})
      && after.attemptRecords == before.attemptRecords
  {
    hide HasKey;
    ProjectOneMore(rows, WorkAttemptStateChanged(run, state));
  }

  lemma RowKeys(rows: seq<Row<Key, Event>>, e: Event)
    ensures forall key :: HasKey(Inserted(rows, RowOf(e)), key) <==> HasKey(rows, key) || key == KeyOf(e)
  {
    KeysAfterInsert(rows, RowOf(e));
  }

  // One step.

  lemma OfRunAppends(sink: seq<Emission>, e: Emission, run: RunId)
    ensures OfRun(sink + [e], run) == OfRun(sink, run) + if e.run == run then [e] else []
  {
  }

  lemma OfRunAppendsTwo(sink: seq<Emission>, first: Emission, second: Emission, run: RunId)
    requires first.run == second.run
    ensures OfRun(sink + [first] + [second], run)
            == if first.run == run then OfRun(sink, run) + [first, second] else OfRun(sink, run)
  {
  }

  lemma SameSink(d: Desk, t: Desk, run: RunId)
    requires t.recorder.sink == d.recorder.sink && t.durable == d.durable
    ensures NumberedInOrder(t, run) == NumberedInOrder(d, run)
  {
  }

  lemma StartInOrder(d: Desk, run: RunId, workspace: Workspace, other: RunId)
    requires Orderly(d)
    ensures NumberedInOrder(StartRun(d, run, workspace).desk, other)
  {
    hide OfRun, Restored, Inserted;
    var t := StartRun(d, run, workspace).desk;
    assert NumberedInOrder(d, other);
    if RunEmission(run) !in d.durable {
      var first, second := Emission(run, 0, EpisodeStarted), Emission(run, 1, ExecutionStarted);
      assert t.recorder.sink == d.recorder.sink + [first] + [second];
      OfRunAppendsTwo(d.recorder.sink, first, second, other);
      if other == run {
        assert Expected(run, d.durable) == [];
      }
    }
  }

  /** A start opens its run in the log exactly when the log has no start of it. */
  lemma StartOpens(d: Desk, run: RunId, workspace: Workspace)
    ensures Restored(StartRun(d, run, workspace).desk)
            == if HasKey(d.rows, AttemptKey(run)) then Restored(d) else Restored(d)[run.item := run]
  {
    hide Project, Inserted, HasKey;
    StartRow(d.rows, run, workspace);
  }

  lemma StartOrderly(d: Desk, run: RunId, workspace: Workspace)
    requires Orderly(d)
    ensures Orderly(StartRun(d, run, workspace).desk)
  {
    hide NumberedInOrder, Restored, Inserted, Answer, HasKey;
    var t := StartRun(d, run, workspace).desk;
    StartOpens(d, run, workspace);
    forall other ensures NumberedInOrder(t, other) {
      StartInOrder(d, run, workspace, other);
    }
  }

  /** The call would record a request for a run whose decision is on record. */
  predicate IsLate(d: Desk, a: Action) {
    a.Reconciling? && a.item in d.active && WantsRequest(d, a.item, a.waiting || a.approved)
    && d.active[a.item] in d.recorder.episodes && DecisionEmission(d.active[a.item]) in d.durable
  }

  predicate NeverLate(d: Desk, actions: seq<Action>)
    decreases actions
  {
    actions == [] || (!IsLate(d, actions[0]) && NeverLate(Act(d, actions[0]).desk, actions[1..]))
  }

  lemma RequestInOrder(d: Desk, item: ItemId, ready: bool, other: RunId)
    requires Orderly(d) && item in d.active
    requires WantsRequest(d, item, ready) && d.active[item] in d.recorder.episodes ==>
      DecisionEmission(d.active[item]) !in d.durable
    ensures NumberedInOrder(RequestOnce(d, item, ready).desk, other)
  {
    hide OfRun, Restored;
    var t, run := RequestOnce(d, item, ready).desk, d.active[item];
    assert NumberedInOrder(d, other);
    if WantsRequest(d, item, ready) && run in d.recorder.episodes {
      var e := Emission(run, 2, GateRequested);
      assert Counted(d, run);
      assert t.recorder.sink == d.recorder.sink + [e];
      OfRunAppends(d.recorder.sink, e, other);
    }
  }

  lemma RequestOrderly(d: Desk, item: ItemId, ready: bool)
    requires Orderly(d) && item in d.active
    requires WantsRequest(d, item, ready) && d.active[item] in d.recorder.episodes ==>
      DecisionEmission(d.active[item]) !in d.durable
    ensures var t := RequestOnce(d, item, ready).desk; Orderly(t) && t.active == d.active
  {
    hide NumberedInOrder, Restored;
    var t := RequestOnce(d, item, ready).desk;
    RestoredFollowsRows(d, t);
    forall other ensures NumberedInOrder(t, other) {
      RequestInOrder(d, item, ready, other);
    }
  }

  lemma RestoredFollowsRows(d: Desk, t: Desk)
    requires t.rows == d.rows
    ensures Restored(t) == Restored(d)
  {
  }

  lemma DecideInOrder(d: Desk, item: ItemId, approved: bool, other: RunId)
    requires Orderly(d) && item in d.active
    ensures NumberedInOrder(DecideOnce(d, item, approved).desk, other)
  {
    hide OfRun, Restored;
    var t, run := DecideOnce(d, item, approved).desk, d.active[item];
    assert NumberedInOrder(d, other);
    if WantsDecision(d, item, approved) && run in d.recorder.episodes {
      var n := d.recorder.sequences[run];
      var first, second := Emission(run, n, GateDecided), Emission(run, n + 1, EpisodeCompleted);
      assert Counted(d, run);
      assert t.recorder.sink == d.recorder.sink + [first] + [second];
      OfRunAppendsTwo(d.recorder.sink, first, second, other);
    }
  }

  lemma DecideOrderly(d: Desk, item: ItemId, approved: bool)
    requires Orderly(d) && item in d.active
    ensures var t := DecideOnce(d, item, approved).desk; Orderly(t) && t.active == d.active
  {
    hide NumberedInOrder, Restored;
    var t := DecideOnce(d, item, approved).desk;
    RestoredFollowsRows(d, t);
    forall other ensures NumberedInOrder(t, other) {
      DecideInOrder(d, item, approved, other);
    }
  }

  /** What neither emits nor starts: attempts end, and the marks of their items change. */
  ghost predicate OnlyEnds(d: Desk, t: Desk) {
    && t.recorder == d.recorder && t.durable == d.durable
    && (forall item :: item in t.active ==> item in d.active && t.active[item] == d.active[item])
    && (forall item :: item in Restored(t) ==> item in Restored(d) && Restored(t)[item] == Restored(d)[item])
  }

  lemma EndingOrderly(d: Desk, t: Desk)
    requires Orderly(d) && OnlyEnds(d, t)
    ensures Orderly(t)
  {
    hide NumberedInOrder, Restored;
    forall run ensures NumberedInOrder(t, run) {
      assert NumberedInOrder(d, run);
      SameSink(d, t, run);
    }
  }

  lemma SettlingOnlyEnds(d: Desk, item: ItemId, accepted: bool)
    requires item in d.active
    ensures OnlyEnds(d, Settle(d, item, accepted).desk)
  {
    hide Project, Inserted;
    EndRow(d.rows, d.active[item], ReleasedAttempt);
  }

  lemma DroppingOnlyEnds(d: Desk, item: ItemId)
    ensures OnlyEnds(d, Supersede(d, item).desk) && OnlyEnds(d, Cancel(d, item).desk)
  {
    hide Project, Inserted;
    if item in d.active {
      EndRow(d.rows, d.active[item], SupersededAttempt);
    }
  }

  lemma ReconcileOrderly(d: Desk, a: Action)
    requires Orderly(d) && a.Reconciling? && !IsLate(d, a)
    ensures Orderly(Act(d, a).desk)
  {
    hide Orderly, RequestOnce, DecideOnce, Settle, OnlyEnds;
    var Reconciling(item, waiting, approved, accepted) := a;
    if item in d.active {
      RequestOrderly(d, item, waiting || approved);
      var r := RequestOnce(d, item, waiting || approved);
      if r.fault.None? {
        DecideOrderly(r.desk, item, approved);
        var u := DecideOnce(r.desk, item, approved).desk;
        SettlingOnlyEnds(u, item, accepted);
        EndingOrderly(u, Settle(u, item, accepted).desk);
      }
    }
  }

  /** A restart restores the counters of the runs that are open in the log; every run keeps its numbering. */
  lemma RestartOrderly(d: Desk, decided: set<ItemId>, done: set<ItemId>)
    requires Orderly(d)
    ensures Orderly(Restart(d, decided, done)) && Restart(d, decided, done).recorder.sink == d.recorder.sink
  {
    hide NumberedInOrder, Restored;
    var t := Restart(d, decided, done);
    RestoredFollowsRows(d, t);
    forall run ensures NumberedInOrder(t, run) {
      assert NumberedInOrder(d, run);
      SameSink(d, t, run);
    }
  }

  lemma ActOrderly(d: Desk, a: Action)
    requires Orderly(d) && !IsLate(d, a)
    ensures Orderly(Act(d, a).desk)
  {
    hide Orderly, Reconcile, StartRun, Restart, OnlyEnds, IsLate, Supersede, Cancel;
    match a
    case Starting(run, workspace) => StartOrderly(d, run, workspace);
    case Reconciling(_, _, _, _) => ReconcileOrderly(d, a);
    case Superseding(item) =>
      DroppingOnlyEnds(d, item);
      EndingOrderly(d, Supersede(d, item).desk);
    case Cancelling(item) =>
      DroppingOnlyEnds(d, item);
      EndingOrderly(d, Cancel(d, item).desk);
    case Restarting(decided, done) => RestartOrderly(d, decided, done);
  }

  lemma StartOnRecord(d: Desk, run: RunId, workspace: Workspace)
    requires OnRecord(d)
    ensures OnRecord(StartRun(d, run, workspace).desk)
  {
    hide Restored, Inserted, Answer, HasKey;
    StartOpens(d, run, workspace);
  }

  lemma EndingOnRecord(d: Desk, t: Desk)
    requires OnRecord(d) && OnlyEnds(d, t)
    ensures OnRecord(t)
  {
    hide Restored;
  }

  lemma ActiveIsOnRecord(d: Desk, item: ItemId)
    requires OnRecord(d) && item in d.active
    ensures RunEmission(d.active[item]) in d.durable && d.active[item].item == item
  {
  }

  // Runs.

  lemma {:induction false} OfRunGrows(sink: seq<Emission>, more: seq<Emission>, run: RunId)
    ensures OfRun(sink, run) <= OfRun(sink + more, run)
  {
    if more == [] {
      assert sink + more == sink;
    } else {
      assert (sink + more)[..|sink + more| - 1] == sink + more[..|more| - 1];
      OfRunGrows(sink, more[..|more| - 1], run);
    }
  }

  ghost predicate Grows(d: Desk, t: Desk) {
    d.recorder.sink <= t.recorder.sink && d.durable <= t.durable
  }

  lemma RecordingGrows(d: Desk, item: ItemId, wanted: bool)
    requires item in d.active
    ensures Grows(d, RequestOnce(d, item, wanted).desk) && RequestOnce(d, item, wanted).desk.active == d.active
    ensures Grows(d, DecideOnce(d, item, wanted).desk) && DecideOnce(d, item, wanted).desk.active == d.active
  {
  }

  lemma ReconcileGrows(d: Desk, item: ItemId, waiting: bool, approved: bool, accepted: bool)
    ensures Grows(d, Reconcile(d, item, waiting, approved, accepted).desk)
  {
    hide RequestOnce, DecideOnce, Inserted;
    if item in d.active {
      RecordingGrows(d, item, waiting || approved);
      RecordingGrows(RequestOnce(d, item, waiting || approved).desk, item, approved);
    }
  }

  lemma ActGrows(d: Desk, a: Action)
    ensures Grows(d, Act(d, a).desk)
  {
    hide Reconcile, Restored, Inserted, Answer;
    match a
    case Reconciling(item, waiting, approved, accepted) => ReconcileGrows(d, item, waiting, approved, accepted);
    case _ =>
  }

  /** A request on record that was emitted after the decision, for good. */
  ghost predicate Misplaced(d: Desk, run: RunId) {
    && RunEmission(run) in d.durable && RequestEmission(run) in d.durable
    && |OfRun(d.recorder.sink, run)| > 2 && OfRun(d.recorder.sink, run)[2].checkpoint == GateDecided
  }

  lemma MisplacedStays(d: Desk, a: Action, run: RunId)
    requires Misplaced(d, run)
    ensures Misplaced(Act(d, a).desk, run)
  {
    hide Act, OfRun;
    ActGrows(d, a);
    var t := Act(d, a).desk;
    var more := t.recorder.sink[|d.recorder.sink|..];
    assert t.recorder.sink == d.recorder.sink + more;
    OfRunGrows(d.recorder.sink, more, run);
  }

  lemma {:induction false} PlayStaysMisplaced(d: Desk, actions: seq<Action>, run: RunId)
    requires Misplaced(d, run)
    ensures Misplaced(Play(d, actions), run) && !NumberedInOrder(Play(d, actions), run)
    decreases actions
  {
    if actions != [] {
      MisplacedStays(d, actions[0], run);
      PlayStaysMisplaced(Act(d, actions[0]).desk, actions[1..], run);
    }
  }

  lemma LateRequestMisplaces(d: Desk, a: Action)
    requires Orderly(d) && IsLate(d, a)
    ensures Misplaced(Act(d, a).desk, d.active[a.item])
  {
    var run, u := d.active[a.item], RequestOnce(d, a.item, a.waiting || a.approved).desk;
    assert NumberedInOrder(d, run);
    var e := Emission(run, d.recorder.sequences[run], GateRequested);
    assert u.recorder.sink == d.recorder.sink + [e];
    OfRunAppends(d.recorder.sink, e, run);
    var t := Act(d, a).desk;
    assert t.recorder == u.recorder && t.durable == u.durable by {
      hide OfRun, Inserted;
    }
  }

  lemma {:induction false} PlayNumbering(d: Desk, actions: seq<Action>)
    requires Orderly(d)
    ensures NeverLate(d, actions) ==> Orderly(Play(d, actions))
    ensures !NeverLate(d, actions) ==> !AllInOrder(Play(d, actions))
    decreases actions
  {
    hide Orderly, Act, IsLate, NumberedInOrder, Misplaced, AllInOrder;
    if actions != [] {
      var t := Act(d, actions[0]).desk;
      if IsLate(d, actions[0]) {
        var run := LateRun(d, actions[0]);
        PlayStaysMisplaced(t, actions[1..], run);
        OneOutOfOrder(Play(d, actions), run);
      } else {
        ActOrderly(d, actions[0]);
        PlayNumbering(t, actions[1..]);
      }
    }
  }

  lemma OneOutOfOrder(d: Desk, run: RunId)
    requires !NumberedInOrder(d, run)
    ensures !AllInOrder(d)
  {
  }

  lemma LateRun(d: Desk, a: Action) returns (run: RunId)
    requires Orderly(d) && IsLate(d, a)
    ensures Misplaced(Act(d, a).desk, run)
  {
    LateRequestMisplaces(d, a);
    run := d.active[a.item];
  }

  /**
   * Over every run of starts, reconciliations, retries, cancellations and restarts, run ids used again and calls that
   * raise included: the episodes are numbered without gap or repeat, their checkpoints in order, exactly when no request
   * is recorded for a run whose decision is on record.
   */
  lemma EpisodesAreOrderly(actions: seq<Action>)
    ensures AllInOrder(Play(NewDesk(), actions)) <==> NeverLate(NewDesk(), actions)
  {
    hide Act, IsLate, NumberedInOrder, Play;
    NewDeskIsOrderly();
    PlayNumbering(NewDesk(), actions);
  }
}
