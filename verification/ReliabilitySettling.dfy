/** Approvals that settle at once leave every episode in order. */
module ReliabilitySettling {
  import opened Prelude
  import opened EventLogs
  import opened Projections
  import opened Reliability
  import opened ReliabilityLaws

  /** An approval about to be recorded finds the tracker willing and the item not yet marked done. */
  predicate SettlesAtOnce(d: Desk, a: Action) {
    a.Reconciling? && a.item in d.active && WantsDecision(d, a.item, a.approved) ==> a.accepted && a.item !in d.done
  }

  predicate AllSettle(d: Desk, actions: seq<Action>)
    decreases actions
  {
    actions == [] || (SettlesAtOnce(d, actions[0]) && AllSettle(Act(d, actions[0]).desk, actions[1..]))
  }

  function ReleaseKey(run: RunId): Key {
    KeyOf(WorkAttemptStateChanged(run, ReleasedAttempt))
  }

  ghost predicate IsOpen(d: Desk, run: RunId) {
    run.item in Restored(d) && Restored(d)[run.item] == run
  }

  /** The log has the starts of the runs on record, and no others. */
  ghost predicate StartsAreLogged(d: Desk) {
    forall run :: (RunEmission(run) in d.durable <==> HasKey(d.rows, AttemptKey(run)))
                  && (RunEmission(run) in d.durable ==> run in Project(d.rows).attemptRecords)
  }

  /** A run whose release is logged is not open any more. */
  ghost predicate ReleasesClose(d: Desk) {
    forall run :: HasKey(d.rows, ReleaseKey(run)) ==> RunEmission(run) in d.durable && !IsOpen(d, run)
  }

  ghost predicate LogFits(d: Desk) {
    OnRecord(d) && StartsAreLogged(d) && ReleasesClose(d)
  }

  /** A request on record comes first, or was withheld since the item had one. */
  ghost predicate RequestsComeFirst(d: Desk) {
    forall run :: run in d.recorder.episodes && DecisionEmission(run) in d.durable ==>
      RequestEmission(run) in d.durable || run.item in d.requested
  }

  /** Decided runs, except perhaps the one being settled, are closed in the log. */
  ghost predicate DecidedAreClosed(d: Desk, settling: set<RunId>) {
    forall run :: DecisionEmission(run) in d.durable && run !in settling ==> !IsOpen(d, run)
  }

  ghost predicate Settled(d: Desk) {
    LogFits(d) && RequestsComeFirst(d) && DecidedAreClosed(d, {})
  }

  lemma NewDeskIsSettled()
    ensures Settled(NewDesk())
  {
  }

  lemma SettledIsNotLate(d: Desk, a: Action)
    requires Settled(d)
    ensures !IsLate(d, a)
  {
    hide StartsAreLogged, IsOpen, Restored, HasKey;
  }

  lemma StartOpensOne(d: Desk, run: RunId, workspace: Workspace, other: RunId)
    requires LogFits(d)
    ensures IsOpen(StartRun(d, run, workspace).desk, other) ==> IsOpen(d, other) || (other == run && RunEmission(run) !in d.durable)
  {
    hide HasKey, Restored;
    StartOpens(d, run, workspace);
  }

  lemma StartFits(d: Desk, run: RunId, workspace: Workspace)
    requires LogFits(d) && OnRecord(StartRun(d, run, workspace).desk)
    ensures LogFits(StartRun(d, run, workspace).desk)
  {
    hide OnRecord, Restored, Project, Inserted, Answer, HasKey, IsOpen;
    StartRow(d.rows, run, workspace);
    RowKeys(d.rows, WorkAttemptStarted(run, workspace));
    forall other ensures IsOpen(StartRun(d, run, workspace).desk, other) ==>
      IsOpen(d, other) || (other == run && RunEmission(run) !in d.durable)
    {
      StartOpensOne(d, run, workspace, other);
    }
  }

  lemma StartSettled(d: Desk, run: RunId, workspace: Workspace)
    requires Settled(d)
    ensures Settled(StartRun(d, run, workspace).desk)
  {
    hide LogFits, Inserted, Answer, IsOpen, Restored, HasKey;
    LogFitsOnRecord(d);
    StartOnRecord(d, run, workspace);
    StartFits(d, run, workspace);
    var t := StartRun(d, run, workspace).desk;
    forall other | DecisionEmission(other) in t.durable ensures !IsOpen(t, other) {
      DecidedIsOnRecord(d, other);
      StartOpensOne(d, run, workspace, other);
    }
  }

  lemma LogFitsOnRecord(d: Desk)
    requires LogFits(d)
    ensures OnRecord(d)
  {
  }

  lemma DecidedIsOnRecord(d: Desk, run: RunId)
    requires LogFits(d) && DecisionEmission(run) in d.durable
    ensures RunEmission(run) in d.durable
  {
  }

  lemma RequestSettled(d: Desk, item: ItemId, ready: bool)
    requires Settled(d) && item in d.active
    ensures var r := RequestOnce(d, item, ready);
      && Settled(r.desk) && r.desk.active == d.active && r.desk.decided == d.decided && r.desk.done == d.done
      && r.desk.rows == d.rows && r.desk.recorder.episodes == d.recorder.episodes
      && (forall run :: DecisionEmission(run) in r.desk.durable <==> DecisionEmission(run) in d.durable)
      && (ready && r.fault.None? ==> item in r.desk.requested || RequestEmission(d.active[item]) in r.desk.durable)
  {
    hide Restored, Project, HasKey;
    RestoredFollowsRows(d, RequestOnce(d, item, ready).desk);
  }

  /** Logging a release closes the run, unless it was closed before. */
  lemma Releasing(d: Desk, item: ItemId)
    requires LogFits(d) && item in d.active
    ensures var run, e := d.active[item], WorkAttemptStateChanged(d.active[item], ReleasedAttempt);
      var t := d.(rows := Inserted(d.rows, RowOf(e)));
      && !IsOpen(t, run)
      && (forall other :: IsOpen(t, other) ==> IsOpen(d, other))
      && (forall x :: x in Restored(t) ==> x in Restored(d) && Restored(t)[x] == Restored(d)[x])
      && (forall key :: HasKey(t.rows, key) <==> HasKey(d.rows, key) || key == ReleaseKey(run))
      && Project(t.rows).attemptRecords == Project(d.rows).attemptRecords
  {
    hide Project, Inserted, HasKey;
    EndRow(d.rows, d.active[item], ReleasedAttempt);
    RowKeys(d.rows, WorkAttemptStateChanged(d.active[item], ReleasedAttempt));
  }

  /** The release of an attempt is logged. */
  lemma ReleaseSettles(d: Desk, item: ItemId)
    requires LogFits(d) && RequestsComeFirst(d) && item in d.active && DecidedAreClosed(d, {d.active[item]})
    requires item !in d.done
    ensures Settled(Settle(d, item, true).desk)
  {
    hide OnRecord, Restored, Project, Inserted, HasKey, IsOpen, OnlyEnds;
    ActiveIsOnRecord(d, item);
    Releasing(d, item);
    SettlingOnlyEnds(d, item, true);
    var e, t := WorkAttemptStateChanged(d.active[item], ReleasedAttempt), Settle(d, item, true).desk;
    var r := d.(rows := Inserted(d.rows, RowOf(e)));
    EndingOnRecord(d, t);
    SameRowsSameRuns(r, t);
    assert t.recorder == d.recorder && t.durable == d.durable && t.requested == d.requested && t.rows == r.rows;
  }

  lemma SameRowsSameRuns(d: Desk, t: Desk)
    requires t.rows == d.rows
    ensures Restored(t) == Restored(d) && forall run :: IsOpen(t, run) <==> IsOpen(d, run)
  {
  }

  lemma LeavingSettled(d: Desk, t: Desk)
    requires Settled(d) && t.rows == d.rows && OnlyEnds(d, t) && t.requested == d.requested
    ensures Settled(t)
  {
    SameRowsSameRuns(d, t);
    EndingOnRecord(d, t);
    hide OnRecord, Restored, Project, HasKey, IsOpen, OnlyEnds;
    assert t.recorder == d.recorder && t.durable == d.durable by {
      OnlyEndsKeeps(d, t);
    }
  }

  lemma OnlyEndsKeeps(d: Desk, t: Desk)
    requires OnlyEnds(d, t)
    ensures t.recorder == d.recorder && t.durable == d.durable
  {
  }

  /** A decision, before its release is logged. */
  lemma DecisionFits(d: Desk, item: ItemId)
    requires Settled(d) && item in d.active && WantsDecision(d, item, true)
    requires item in d.requested || RequestEmission(d.active[item]) in d.durable
    ensures var u := DecideOnce(d, item, true);
      && u.desk.active == d.active && u.desk.done == d.done && LogFits(u.desk) && RequestsComeFirst(u.desk)
      && (if u.fault.Some? then Settled(u.desk) else DecidedAreClosed(u.desk, {d.active[item]}))
  {
    var u := DecideOnce(d, item, true).desk;
    SameRowsSameRuns(d, u);
    hide Restored, Project, HasKey, IsOpen;
  }

  /** A decision and the release that follows it at once. */
  lemma DecisionSettled(d: Desk, item: ItemId)
    requires Settled(d) && item in d.active && WantsDecision(d, item, true) && item !in d.done
    requires item in d.requested || RequestEmission(d.active[item]) in d.durable
    ensures var u := DecideOnce(d, item, true);
      if u.fault.Some? then Settled(u.desk) else u.desk.active == d.active && Settled(Settle(u.desk, item, true).desk)
  {
    hide DecideOnce, Settle, LogFits, RequestsComeFirst, DecidedAreClosed;
    DecisionFits(d, item);
    if DecideOnce(d, item, true).fault.None? {
      ReleaseSettles(DecideOnce(d, item, true).desk, item);
    }
  }

  lemma SettlingStaysSettled(d: Desk, item: ItemId, accepted: bool)
    requires Settled(d) && item in d.active
    ensures Settled(Settle(d, item, accepted).desk)
  {
    hide LogFits, RequestsComeFirst, OnlyEnds, Restored, Inserted, IsOpen;
    if item !in d.done && accepted {
      ReleaseSettles(d, item);
    } else {
      SettlingOnlyEnds(d, item, accepted);
      LeavingSettled(d, Settle(d, item, accepted).desk);
    }
  }

  lemma DroppingSettled(d: Desk, item: ItemId)
    requires Settled(d) && item in d.active
    ensures Settled(Supersede(d, item).desk) && Settled(Cancel(d, item).desk)
  {
    DroppingOnlyEnds(d, item);
    LeavingSettled(d, Cancel(d, item).desk);
    var t := Supersede(d, item).desk;
    EndingOnRecord(d, t);
    EndRow(d.rows, d.active[item], SupersededAttempt);
    RowKeys(d.rows, WorkAttemptStateChanged(d.active[item], SupersededAttempt));
    forall run | IsOpen(t, run) ensures IsOpen(d, run) {
      OpenBefore(d, t, run);
    }
    hide OnRecord, Restored, Project, Inserted, HasKey, IsOpen, OnlyEnds;
  }

  lemma OpenBefore(d: Desk, t: Desk, run: RunId)
    requires OnlyEnds(d, t) && IsOpen(t, run)
    ensures IsOpen(d, run)
  {
    hide Restored;
  }

  lemma RestartSettled(d: Desk, decided: set<ItemId>, done: set<ItemId>)
    requires Settled(d)
    ensures Settled(Restart(d, decided, done))
  {
    hide Project, HasKey;
    RestoredFollowsRows(d, Restart(d, decided, done));
  }

  lemma ReconcileSettled(d: Desk, a: Action)
    requires Settled(d) && a.Reconciling? && SettlesAtOnce(d, a)
    ensures Settled(Act(d, a).desk)
  {
    hide Settled, RequestOnce, DecideOnce, Settle;
    var Reconciling(item, waiting, approved, accepted) := a;
    if item in d.active {
      RequestSettled(d, item, waiting || approved);
      var r := RequestOnce(d, item, waiting || approved);
      if r.fault.None? && approved {
        if WantsDecision(r.desk, item, true) {
          DecisionSettled(r.desk, item);
        } else {
          NothingDecided(r.desk, item);
          SettlingStaysSettled(r.desk, item, accepted);
        }
      } else if r.fault.None? {
        NothingDecided(r.desk, item);
      }
    }
  }

  lemma NothingDecided(d: Desk, item: ItemId)
    requires item in d.active
    ensures !WantsDecision(d, item, true) ==> DecideOnce(d, item, true) == Reply(d, None)
    ensures DecideOnce(d, item, false) == Reply(d, None)
  {
  }

  lemma ActSettled(d: Desk, a: Action)
    requires Settled(d) && SettlesAtOnce(d, a)
    ensures Settled(Act(d, a).desk)
  {
    hide Settled, Reconcile, StartRun, Restart, Supersede, Cancel;
    match a
    case Starting(run, workspace) => StartSettled(d, run, workspace);
    case Reconciling(_, _, _, _) => ReconcileSettled(d, a);
    case Superseding(item) => if item in d.active { DroppingSettled(d, item); } else { NobodyDropped(d, item); }
    case Cancelling(item) => if item in d.active { DroppingSettled(d, item); } else { NobodyDropped(d, item); }
    case Restarting(decided, done) => RestartSettled(d, decided, done);
  }

  lemma NobodyDropped(d: Desk, item: ItemId)
    requires item !in d.active
    ensures Supersede(d, item).desk == Cancel(d, item).desk == d
  {
  }

  lemma {:induction false} PlaySettled(d: Desk, actions: seq<Action>)
    requires Settled(d) && AllSettle(d, actions)
    ensures NeverLate(d, actions)
    decreases actions
  {
    hide Settled, Act, SettlesAtOnce, IsLate;
    if actions != [] {
      SettledIsNotLate(d, actions[0]);
      ActSettled(d, actions[0]);
      PlaySettled(Act(d, actions[0]).desk, actions[1..]);
    }
  }

  /** So the episodes are in order in every run whose recorded approvals settle at once. */
  lemma SettlingKeepsOrder(actions: seq<Action>)
    requires AllSettle(NewDesk(), actions)
    ensures AllInOrder(Play(NewDesk(), actions))
  {
    hide Act, Play, AllInOrder, NeverLate, Settled;
    NewDeskIsSettled();
    PlaySettled(NewDesk(), actions);
    EpisodesAreOrderly(actions);
  }
}
