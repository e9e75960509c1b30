/** Which recordings raise, and the runs that go wrong. */
module ReliabilityFaults {
  import opened Prelude
  import opened EventLogs
  import opened Projections
  import opened Reliability
  import opened ReliabilityLaws

  // Which calls raise.

  predicate NeverRestarts(actions: seq<Action>) {
    forall i :: 0 <= i < |actions| ==> !actions[i].Restarting?
  }

  predicate IsRefused(d: Desk, item: ItemId, approved: bool, accepted: bool) {
    approved && item !in d.done && !accepted
  }

  /** Recording raises exactly for a run the recorder does not know, when there is something to record. */
  lemma ReconcileRaises(d: Desk, item: ItemId, waiting: bool, approved: bool, accepted: bool)
    requires item in d.active
    ensures var r := Reconcile(d, item, waiting, approved, accepted);
      var unknown := d.active[item] !in d.recorder.episodes
        && (WantsRequest(d, item, waiting || approved) || WantsDecision(d, item, approved));
      && (r.fault == Some(RunNotRecorded) <==> unknown)
      && (r.fault == Some(TrackerRefused) <==> !unknown && IsRefused(d, item, approved, accepted))
      && (r.fault.Some? ==> r.fault.value in {RunNotRecorded, TrackerRefused} && r.desk.active == d.active && r.desk.rows == d.rows)
  {
    hide Inserted;
  }

  /** The other calls raise for an item that is not active, and for a start the log contradicts. */
  lemma CallsRaiseExactly(d: Desk, a: Action)
    ensures var r := Act(d, a);
      && (r.fault == Some(NotActive) <==> (a.Reconciling? || a.Superseding? || a.Cancelling?) && a.item !in d.active)
      && (r.fault == Some(LogConflict) <==> a.Starting? && Answer(d.rows, RowOf(WorkAttemptStarted(a.run, a.workspace))).Err?)
      && (r.fault == Some(NotActive) ==> r.desk == d)
  {
    hide Inserted, Answer, Restored;
  }

  /** The reconciliation ends the attempt: it approves, and nothing raises. */
  predicate Finishes(d: Desk, a: Action, item: ItemId) {
    a.Reconciling? && a.item == item && item in d.active && a.approved && Act(d, a).fault.None?
  }

  /** Which items are worked on, and which are done, after each call. */
  lemma CallsMoveItems(d: Desk, a: Action, item: ItemId)
    ensures var t := Act(d, a).desk;
      && (a.Restarting? ==> t.active == Restored(d) && t.done == a.done && t.decided == a.decided && t.requested == {})
      && (!a.Restarting? ==>
            && (item in t.active <==>
                  || (a.Starting? && a.run.item == item)
                  || (item in d.active && !Finishes(d, a, item) && !((a.Superseding? || a.Cancelling?) && a.item == item)))
            && (item in t.active ==> t.active[item] == if a.Starting? && a.run.item == item then a.run else d.active[item])
            && (item in t.done <==> item in d.done || Finishes(d, a, item)))
      && (a.Cancelling? ==> t.rows == d.rows)
  {
    hide Inserted, Answer, Restored, EmitLifecycle, EmitBoth;
  }

  /** The reconciliation comes to record a request of the item, or its decision, once the request did not raise. */
  predicate Requests(d: Desk, a: Action, item: ItemId) {
    a.Reconciling? && a.item == item && item in d.active && WantsRequest(d, item, a.waiting || a.approved)
  }

  predicate Decides(d: Desk, a: Action, item: ItemId) {
    && a.Reconciling? && a.item == item && item in d.active && WantsDecision(d, item, a.approved)
    && (Requests(d, a, item) ==> d.active[item] in d.recorder.episodes)
  }

  /** Each item asks once, and is decided once per attempt that is not superseded; a restart remembers what the log shows. */
  lemma CallsRemember(d: Desk, a: Action, item: ItemId)
    requires !a.Restarting?
    ensures var t := Act(d, a).desk;
      && (item in t.requested <==> item in d.requested || Requests(d, a, item))
      && (item in t.decided <==>
            (item in d.decided || Decides(d, a, item)) && !(a.Superseding? && a.item == item && item in d.active))
  {
    hide Inserted, Answer, Restored;
  }

  /** Between restarts the recorder learns exactly the runs started for the first time. */
  ghost predicate Learns(d: Desk, t: Desk, run: RunId) {
    && (RunEmission(run) in d.durable ==> RunEmission(run) in t.durable)
    && (run in t.recorder.episodes <==>
          run in d.recorder.episodes || (RunEmission(run) !in d.durable && RunEmission(run) in t.durable))
  }

  lemma StartLearns(d: Desk, started: RunId, workspace: Workspace, run: RunId)
    requires OnRecord(d)
    ensures Learns(d, StartRun(d, started, workspace).desk, run)
  {
    hide Restored, Inserted, Answer;
  }

  lemma RecordingLearns(d: Desk, item: ItemId, wanted: bool, run: RunId)
    requires item in d.active
    ensures var t, u := RequestOnce(d, item, wanted).desk, DecideOnce(d, item, wanted).desk;
      && t.active == u.active == d.active && t.recorder.episodes == u.recorder.episodes == d.recorder.episodes
      && (RunEmission(run) in t.durable <==> RunEmission(run) in d.durable)
      && (RunEmission(run) in u.durable <==> RunEmission(run) in d.durable)
  {
  }

  lemma ActLearns(d: Desk, a: Action, run: RunId)
    requires OnRecord(d) && !a.Restarting?
    ensures Learns(d, Act(d, a).desk, run)
  {
    hide OnRecord, StartRun, RequestOnce, DecideOnce, Inserted, Answer;
    match a
    case Starting(started, workspace) => StartLearns(d, started, workspace, run);
    case Reconciling(item, waiting, approved, accepted) =>
      if item in d.active {
        RecordingLearns(d, item, waiting || approved, run);
        RecordingLearns(RequestOnce(d, item, waiting || approved).desk, item, approved, run);
      }
    case _ =>
  }

  /** Every call, in order or not, leaves only runs on record in use. */
  lemma ActOnRecord(d: Desk, a: Action)
    requires OnRecord(d)
    ensures OnRecord(Act(d, a).desk)
  {
    hide OnRecord, StartRun, Reconcile, Supersede, Cancel, Restart, OnlyEnds;
    match a
    case Starting(run, workspace) => StartOnRecord(d, run, workspace);
    case Reconciling(item, waiting, approved, accepted) => ReconcileOnRecord(d, item, waiting, approved, accepted);
    case Superseding(item) =>
      DroppingOnlyEnds(d, item);
      EndingOnRecord(d, Supersede(d, item).desk);
    case Cancelling(item) =>
      DroppingOnlyEnds(d, item);
      EndingOnRecord(d, Cancel(d, item).desk);
    case Restarting(decided, done) => RestartOnRecord(d, decided, done);
  }

  lemma RecordingOnRecord(d: Desk, item: ItemId, wanted: bool)
    requires OnRecord(d) && item in d.active
    ensures var t, u := RequestOnce(d, item, wanted).desk, DecideOnce(d, item, wanted).desk;
      OnRecord(t) && OnRecord(u) && t.active == u.active == d.active
  {
    hide Restored;
    RestoredFollowsRows(d, RequestOnce(d, item, wanted).desk);
    RestoredFollowsRows(d, DecideOnce(d, item, wanted).desk);
  }

  lemma ReconcileOnRecord(d: Desk, item: ItemId, waiting: bool, approved: bool, accepted: bool)
    requires OnRecord(d)
    ensures OnRecord(Reconcile(d, item, waiting, approved, accepted).desk)
  {
    hide OnRecord, RequestOnce, DecideOnce, Settle, OnlyEnds;
    if item in d.active {
      RecordingOnRecord(d, item, waiting || approved);
      var r := RequestOnce(d, item, waiting || approved).desk;
      RecordingOnRecord(r, item, approved);
      var u := DecideOnce(r, item, approved).desk;
      SettlingOnlyEnds(u, item, accepted);
      EndingOnRecord(u, Settle(u, item, accepted).desk);
    }
  }

  lemma RestartOnRecord(d: Desk, decided: set<ItemId>, done: set<ItemId>)
    requires OnRecord(d)
    ensures OnRecord(Restart(d, decided, done))
    ensures Restart(d, decided, done).recorder.episodes == Restored(d).Values
    ensures Restart(d, decided, done).active == Restored(d) && Restart(d, decided, done).durable == d.durable
  {
    hide Restored;
    RestoredFollowsRows(d, Restart(d, decided, done));
    forall run | run in Restored(d).Values ensures RunEmission(run) in d.durable {
      var item :| item in Restored(d) && Restored(d)[item] == run;
    }
  }

  lemma {:induction false} PlayLearns(d: Desk, actions: seq<Action>, run: RunId)
    requires OnRecord(d) && NeverRestarts(actions)
    ensures OnRecord(Play(d, actions)) && Learns(d, Play(d, actions), run)
    decreases actions
  {
    hide OnRecord, Act;
    if actions != [] {
      ActOnRecord(d, actions[0]);
      ActLearns(d, actions[0], run);
      assert forall i :: 0 <= i < |actions[1..]| ==> actions[1..][i] == actions[i + 1];
      PlayLearns(Act(d, actions[0]).desk, actions[1..], run);
    }
  }

  lemma {:induction false} PlayOnRecord(d: Desk, actions: seq<Action>)
    requires OnRecord(d)
    ensures OnRecord(Play(d, actions))
    decreases actions
  {
    hide OnRecord, Act;
    if actions != [] {
      ActOnRecord(d, actions[0]);
      PlayOnRecord(Act(d, actions[0]).desk, actions[1..]);
    }
  }

  /**
   * After a restart a run goes on being recorded exactly when the restart restored it or it was first started since.
   * One that is started again under an id on record raises as soon as there is something to record.
   */
  lemma EmissionSurvives(before: seq<Action>, decided: set<ItemId>, done: set<ItemId>, actions: seq<Action>,
                         item: ItemId, waiting: bool, approved: bool, accepted: bool)
    requires NeverRestarts(actions)
    requires item in Play(Restart(Play(NewDesk(), before), decided, done), actions).active
    ensures var d := Play(NewDesk(), before);
      var t := Play(Restart(d, decided, done), actions);
      var run := t.active[item];
      Reconcile(t, item, waiting, approved, accepted).fault == Some(RunNotRecorded) <==>
        && RunEmission(run) in d.durable && run !in Restored(d).Values
        && (WantsRequest(t, item, waiting || approved) || WantsDecision(t, item, approved))
  {
    NewDeskIsOrderly();
    hide OnRecord, Reconcile, Restart, Act, Play, Restored;
    PlayOnRecord(NewDesk(), before);
    var d := Play(NewDesk(), before);
    var u := Restart(d, decided, done);
    var t := Play(u, actions);
    RestartOnRecord(d, decided, done);
    PlayLearns(u, actions, t.active[item]);
    ActiveIsOnRecord(t, item);
    ReconcileRaises(t, item, waiting, approved, accepted);
  }

  /** Without a restart recording never raises. */
  lemma RecordingNeverRaises(actions: seq<Action>, item: ItemId, waiting: bool, approved: bool, accepted: bool)
    requires NeverRestarts(actions) && item in Play(NewDesk(), actions).active
    ensures Reconcile(Play(NewDesk(), actions), item, waiting, approved, accepted).fault != Some(RunNotRecorded)
  {
    NewDeskIsOrderly();
    hide OnRecord, Reconcile, Act, Play;
    var t := Play(NewDesk(), actions);
    PlayLearns(NewDesk(), actions, t.active[item]);
    ActiveIsOnRecord(t, item);
    ReconcileRaises(t, item, waiting, approved, accepted);
  }

  /** The next request of a restored run keeps its numbering exactly unless it was decided without one. */
  lemma NumberingAfterRestart(d: Desk, item: ItemId, decided: set<ItemId>, done: set<ItemId>)
    requires Orderly(d) && item in Restored(d)
    ensures var run, t := Restored(d)[item], Reconcile(Restart(d, decided, done), item, true, false, false).desk;
      NumberedInOrder(t, run) <==> (DecisionEmission(run) in d.durable ==> RequestEmission(run) in d.durable)
  {
    var u, a := Restart(d, decided, done), Reconciling(item, true, false, false);
    RestartOrderly(d, decided, done);
    RestartOnRecord(d, decided, done);
    var run := Restored(d)[item];
    assert run in Restored(d).Values;
    hide Restored, OfRun, Inserted, NumberedInOrder, Restart;
    if IsLate(u, a) {
      LateRequestMisplaces(u, a);
      PlayStaysMisplaced(Act(u, a).desk, [], run);
    } else {
      ActOrderly(u, a);
    }
  }

  // Runs that go wrong.

  function RunOne(n: nat): RunId {
    RunId("A-1", "main-0", n)
  }

  const PLACE := Workspace("ws-1", "shop", "/work/A-1", "mergewave/A-1", "started at 09:00")

  lemma PlayFrom(d: Desk, actions: seq<Action>, i: nat)
    requires i < |actions|
    ensures Play(d, actions[i..]) == Play(Act(d, actions[i]).desk, actions[i + 1..])
    ensures NeverLate(d, actions[i..]) <==> !IsLate(d, actions[i]) && NeverLate(Act(d, actions[i]).desk, actions[i + 1..])
  {
    hide Act, IsLate;
    assert actions[i..][1..] == actions[i + 1..];
  }

  function Reused(): seq<Action> {
    [Starting(RunOne(1), PLACE), Superseding("A-1"), Restarting({}, {}), Starting(RunOne(1), PLACE)]
  }

  lemma FirstStart()
    ensures var d := Act(NewDesk(), Starting(RunOne(1), PLACE)).desk;
      && d.rows == [RowOf(WorkAttemptStarted(RunOne(1), PLACE))] && d.durable == {RunEmission(RunOne(1))}
      && d.active == Restored(d) == map["A-1" := RunOne(1)] && d.recorder.episodes == {RunOne(1)}
      && d.requested == d.decided == d.done == {}
      && Project(d.rows).attemptRecords.Keys == {RunOne(1)} && Orderly(d)
      && Act(NewDesk(), Starting(RunOne(1), PLACE)).fault.None?
  {
    NewDeskIsOrderly();
    StartOrderly(NewDesk(), RunOne(1), PLACE);
    StartOpens(NewDesk(), RunOne(1), PLACE);
    StartRow([], RunOne(1), PLACE);
  }

  /** Superseding the first attempt closes it in the log. */
  lemma Superseding1(d: Desk)
    requires d.active == Restored(d) == map["A-1" := RunOne(1)] && RunOne(1) in Project(d.rows).attemptRecords
    requires forall key :: HasKey(d.rows, key) <==> key == AttemptKey(RunOne(1))
    ensures var t := Supersede(d, "A-1").desk;
      && t.active == Restored(t) == map[]
      && forall key :: HasKey(t.rows, key) <==>
           key == AttemptKey(RunOne(1)) || key == KeyOf(WorkAttemptStateChanged(RunOne(1), SupersededAttempt))
  {
    hide Project, Inserted, HasKey;
    EndRow(d.rows, RunOne(1), SupersededAttempt);
    RowKeys(d.rows, WorkAttemptStateChanged(RunOne(1), SupersededAttempt));
  }

  /**
   * Started, superseded, and started again after a restart: the start raises nothing and leaves no trace in the log,
   * the next gate request raises, and after the next restart the item is not active.
   */
  lemma ReusedRunRaises()
    ensures var d := Play(NewDesk(), Reused());
      && d.active == map["A-1" := RunOne(1)]
      && Reconcile(d, "A-1", true, false, false).fault == Some(RunNotRecorded)
      && Restart(d, {}, {}).active == map[]
  {
    hide Restored, Inserted, HasKey, Project;
    var actions, d0 := Reused(), NewDesk();
    assert actions[0..] == actions && actions[4..] == [];
    PlayFrom(d0, actions, 0);
    var d1 := Act(d0, actions[0]).desk;
    FirstStart();
    StartKey();
    PlayFrom(d1, actions, 1);
    var d2 := Act(d1, actions[1]).desk;
    Superseding1(d1);
    PlayFrom(d2, actions, 2);
    var d3 := Act(d2, actions[2]).desk;
    RestoredFollowsRows(d2, d3);
    PlayFrom(d3, actions, 3);
    StartOpens(d3, RunOne(1), PLACE);
  }

  lemma StartKey()
    ensures forall key :: HasKey([RowOf(WorkAttemptStarted(RunOne(1), PLACE))], key) <==> key == AttemptKey(RunOne(1))
  {
    RowKeys([], WorkAttemptStarted(RunOne(1), PLACE));
    assert Inserted([], RowOf(WorkAttemptStarted(RunOne(1), PLACE))) == [RowOf(WorkAttemptStarted(RunOne(1), PLACE))];
  }

  function Refused(): seq<Action> {
    [Starting(RunOne(1), PLACE), Reconciling("A-1", true, false, false), Superseding("A-1"), Starting(RunOne(2), PLACE),
     Reconciling("A-1", false, true, false)]
  }

  /** The first attempt asked for the gate, so the second one will not. */
  lemma RequestIsWithheld(d: Desk)
    requires d == Act(NewDesk(), Starting(RunOne(1), PLACE)).desk
    ensures var asked := Act(d, Reconciling("A-1", true, false, false)).desk;
      var next := Act(Act(asked, Superseding("A-1")).desk, Starting(RunOne(2), PLACE)).desk;
      && !IsLate(d, Reconciling("A-1", true, false, false)) && Orderly(next)
      && next.active == Restored(next) == map["A-1" := RunOne(2)] && RunOne(2) in next.recorder.episodes
      && next.durable == {RunEmission(RunOne(1)), RequestEmission(RunOne(1)), RunEmission(RunOne(2))}
      && next.requested == {"A-1"} && next.decided == next.done == {}
  {
    hide Restored, Inserted, HasKey, Project, Orderly;
    FirstStart();
    StartKey();
    var asking := Reconciling("A-1", true, false, false);
    var asked := Act(d, asking).desk;
    RestoredFollowsRows(d, asked);
    Superseding1(asked);
    var dropped := Act(asked, Superseding("A-1")).desk;
    StartOpens(dropped, RunOne(2), PLACE);
    ActOrderly(d, asking);
    ActOrderly(asked, Superseding("A-1"));
    ActOrderly(dropped, Starting(RunOne(2), PLACE));
  }

  /**
   * The second attempt is approved without a request of its own, and the tracker refuses the item as done. The run is
   * still open in the log; after a restart its request repeats the number of its decision.
   */
  lemma RefusedApprovalMisnumbers()
    ensures var d := Play(NewDesk(), Refused());
      && NeverLate(NewDesk(), Refused()) && d.active == Restored(d) == map["A-1" := RunOne(2)]
      && !NumberedInOrder(Reconcile(Restart(d, {"A-1"}, {}), "A-1", true, false, false).desk, RunOne(2))
  {
    hide Act, Restored, Orderly, OfRun, NumberedInOrder, Restart, Reconcile;
    var actions, d0 := Refused(), NewDesk();
    assert actions[0..] == actions && actions[5..] == [];
    PlayFrom(d0, actions, 0);
    var d1 := Act(d0, actions[0]).desk;
    RequestIsWithheld(d1);
    PlayFrom(d1, actions, 1);
    var d2 := Act(d1, actions[1]).desk;
    PlayFrom(d2, actions, 2);
    var d3 := Act(d2, actions[2]).desk;
    PlayFrom(d3, actions, 3);
    var d4 := Act(d3, actions[3]).desk;
    PlayFrom(d4, actions, 4);
    RefusedApproval(d4);
    ActOrderly(d4, actions[4]);
    NumberingAfterRestart(Act(d4, actions[4]).desk, "A-1", {"A-1"}, {});
  }

  lemma RefusedApproval(d: Desk)
    requires d.active == Restored(d) == map["A-1" := RunOne(2)] && RunOne(2) in d.recorder.episodes
    requires d.durable == {RunEmission(RunOne(1)), RequestEmission(RunOne(1)), RunEmission(RunOne(2))}
    requires d.requested == {"A-1"} && d.decided == d.done == {}
    ensures var r := Act(d, Reconciling("A-1", false, true, false));
      && !IsLate(d, Reconciling("A-1", false, true, false))
      && r.fault == Some(TrackerRefused) && r.desk.active == d.active && Restored(r.desk) == Restored(d)
      && r.desk.durable == d.durable + {DecisionEmission(RunOne(2))}
  {
    hide Restored, Inserted;
    RestoredFollowsRows(d, Act(d, Reconciling("A-1", false, true, false)).desk);
  }
}
