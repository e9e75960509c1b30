/** Skill results stay with their attempt, are recorded once, and fold back to the live lists. */
module SkillLedgerLaws {
  import opened Prelude
  import opened EventLogs
  import opened Skills
  import opened Projections
  import opened SkillLedgers

  datatype Action =
    | Starting(item: ItemId, slot: Slot, invocation: Option<Invocation>, now: Baseline)
    | Staging(item: ItemId, stage: StageEvent, expired: bool, now: Baseline)
    | Delivering(item: ItemId, event: ResultEvent, world: World)
    | Retiring(item: ItemId)

  function Act(l: Ledger, a: Action): Ledger {
    match a
    case Starting(item, slot, invocation, now) => Begin(l, item, slot, invocation, now)
    case Staging(item, stage, expired, now) => StartStage(l, item, stage, expired, now)
    case Delivering(item, event, world) => Deliver(l, item, event, world).ledger
    case Retiring(item) => Retire(l, item)
  }

  function Play(l: Ledger, actions: seq<Action>): Ledger
    decreases actions
  {
    if actions == [] then l else Play(Act(l, actions[0]), actions[1..])
  }

  predicate Remembered(fingerprints: map<ResultKey, Record>, row: Row<ResultKey, Record>) {
    row.key == KeyFor(row.event.event) && row.key in fingerprints && fingerprints[row.key] == row.event
  }

  /** The live lists, the remembered fingerprints and the log are three views of the same records. */
  ghost predicate Kept(l: Ledger) {
    && UniqueKeys(l.log)
    && (forall i :: 0 <= i < |l.log| ==> Remembered(l.fingerprints, l.log[i]))
    && (forall key :: key in l.fingerprints ==> HasKey(l.log, key))
    && l.results == Fold(l.log, map[], AddRecord)
  }

  /** The record is the one the active run, attempt and invocation of its item vouch for. */
  ghost predicate Vouched(l: Ledger, record: Record) {
    && record.item in l.active && record.item in l.invocations
    && record.event.run == record.event.attempt == l.active[record.item].run
    && record.event.invocation == record.event.result.invocation == l.invocations[record.item].id
    && record.event.result.item == record.item
  }

  lemma AcceptedIsVouched(l: Ledger, item: ItemId, e: ResultEvent, w: World)
    requires Accept(l, item, e, w).Ok?
    ensures var record := Accept(l, item, e, w).value;
      record.item == item && record.event == e && Vouched(l, record)
  {
  }

  /** The event says of itself what its item's slot and invocation say. */
  predicate IsBound(l: Ledger, item: ItemId, e: ResultEvent) {
    && item in l.active && item in l.invocations
    && e.run == e.attempt == e.result.attempt == l.active[item].run && e.workspace == l.active[item].workspace
    && e.invocation == e.result.invocation == l.invocations[item].id
    && e.result.item == item && e.result.skill == l.invocations[item].skill
    && e.result.version == l.invocations[item].version && e.result.stage == l.invocations[item].stage
  }

  /** A result is accepted exactly when it is bound and the verifiers pass; its record keeps what they observed. */
  lemma ResultsAreAcceptedExactly(l: Ledger, item: ItemId, e: ResultEvent, w: World)
    ensures Accept(l, item, e, w).Ok? <==>
      && IsBound(l, item, e) && item in l.baselines && l.invocations[item].authority.Some?
      && Verify(l.invocations[item].authority.value, w.expired, l.baselines[item], w.now, w.committed).Ok? && w.artifacts.Some?
    ensures Accept(l, item, e, w).Ok? ==>
      var record := Accept(l, item, e, w).value;
      && (record.item, record.event, record.head, Some(record.bindings)) == (item, e, w.now.head, w.artifacts)
      && forall path :: path in record.changed <==> WasTouched(l.baselines[item], w.now, w.committed, path)
  {
    hide Verify;
    if Accept(l, item, e, w).Ok? {
      VerifyIsExact(l.invocations[item].authority.value, w.expired, l.baselines[item], w.now, w.committed);
    }
  }

  /** A stage is accepted exactly when it is bound to the active attempt and carries its skill pack and an envelope in force. */
  lemma StagesAreAcceptedExactly(l: Ledger, item: ItemId, e: StageEvent, expired: bool)
    ensures AcceptStage(l, item, e, expired).None? <==>
      && item in l.active && item in l.invocations
      && e.run == e.attempt == e.invocation.attempt == l.active[item].run && e.workspace == l.active[item].workspace
      && e.invocation.item == item && e.invocation.authority.Some? && !expired
      && e.invocation.version == l.invocations[item].version && e.invocation.manifest == l.invocations[item].manifest
      && e.invocation.id.attempt == l.active[item].run
      && e.invocation.id.stage == e.invocation.stage && e.invocation.id.skill == e.invocation.skill
  {
  }

  /** The event comes from the active run and its workspace. */
  predicate IsAddressed(l: Ledger, item: ItemId, e: ResultEvent) {
    && item in l.active && IsConsistent(e)
    && e.run == e.attempt == l.active[item].run && e.workspace == l.active[item].workspace
  }

  /** And from its invocation. */
  predicate IsInvoked(l: Ledger, item: ItemId, e: ResultEvent) {
    IsAddressed(l, item, e) && item in l.invocations && e.invocation == l.invocations[item].id
  }

  /** Why a result is refused, as far as the event itself is concerned. */
  lemma ResultFaultsAreExact(l: Ledger, item: ItemId, e: ResultEvent, w: World)
    ensures var r := Accept(l, item, e, w);
      && (r == Err(NotActive) <==> item !in l.active)
      && (r == Err(Malformed) <==> item in l.active && !IsConsistent(e))
      && (r == Err(WrongRun) <==> item in l.active && IsConsistent(e) && e.run != l.active[item].run)
      && (r == Err(WrongAttempt) <==>
            item in l.active && IsConsistent(e) && e.run == l.active[item].run && e.attempt != l.active[item].run)
      && (r == Err(WrongWorkspace) <==>
            && item in l.active && IsConsistent(e) && e.run == e.attempt == l.active[item].run
            && e.workspace != l.active[item].workspace)
      && (r == Err(NoInvocation) <==> IsAddressed(l, item, e) && item !in l.invocations)
      && (r == Err(WrongInvocation) <==>
            IsAddressed(l, item, e) && item in l.invocations && e.invocation != l.invocations[item].id)
      && (r == Err(WrongItem) <==> IsInvoked(l, item, e) && e.result.item != item)
      && (r == Err(WrongIdentity) <==> IsInvoked(l, item, e) && e.result.item == item && !IsBound(l, item, e))
  {
    hide Verify;
  }

  /** Why a bound result is refused. */
  lemma VerifiersRefuseExactly(l: Ledger, item: ItemId, e: ResultEvent, w: World)
    requires IsBound(l, item, e)
    ensures var r, i := Accept(l, item, e, w), l.invocations[item];
      && (r == Err(NoAuthority) <==> i.authority.None?)
      && (r == Err(NoBaseline) <==> i.authority.Some? && item !in l.baselines)
      && (i.authority.Some? && item in l.baselines ==>
            var v := Verify(i.authority.value, w.expired, l.baselines[item], w.now, w.committed);
            && (forall fault :: r == Err(OutsideAuthority(fault)) <==> v == Err(fault))
            && (r == Err(ArtifactRefused) <==> v.Ok? && w.artifacts.None?))
  {
    hide Verify;
  }

  predicate StageIsAddressed(l: Ledger, item: ItemId, e: StageEvent) {
    item in l.active && e.run == e.attempt == l.active[item].run && e.workspace == l.active[item].workspace
  }

  predicate StageIsOwn(l: Ledger, item: ItemId, e: StageEvent) {
    StageIsAddressed(l, item, e) && e.invocation.item == item && e.invocation.attempt == l.active[item].run
  }

  predicate HasItsPack(l: Ledger, item: ItemId, e: StageEvent) {
    && StageIsOwn(l, item, e) && e.invocation.authority.Some? && item in l.invocations
    && (e.invocation.version, e.invocation.manifest) == (l.invocations[item].version, l.invocations[item].manifest)
  }

  /** Why a stage is refused. */
  lemma StageFaultsAreExact(l: Ledger, item: ItemId, e: StageEvent, expired: bool)
    requires item in l.active
    ensures var f, i, run := AcceptStage(l, item, e, expired), e.invocation, l.active[item].run;
      && (f == Some(WrongRun) <==> e.run != run)
      && (f == Some(WrongAttempt) <==> e.run == run && e.attempt != run)
      && (f == Some(WrongWorkspace) <==> e.run == e.attempt == run && e.workspace != l.active[item].workspace)
      && (f == Some(WrongItem) <==> StageIsAddressed(l, item, e) && !StageIsOwn(l, item, e))
      && (f == Some(NoAuthority) <==> StageIsOwn(l, item, e) && i.authority.None?)
      && (f == Some(NoInvocation) <==> StageIsOwn(l, item, e) && i.authority.Some? && item !in l.invocations)
      && (f == Some(WrongIdentity) <==>
            StageIsOwn(l, item, e) && i.authority.Some? && item in l.invocations && !HasItsPack(l, item, e))
      && (f == Some(WrongInvocation) <==> HasItsPack(l, item, e) && i.id != InvocationId(run, i.stage, i.skill))
      && (f == Some(OutsideAuthority(Expired)) <==>
            HasItsPack(l, item, e) && i.id == InvocationId(run, i.stage, i.skill) && expired)
  {
  }

  lemma InactiveIsRefused(l: Ledger, item: ItemId, e: StageEvent, expired: bool)
    ensures AcceptStage(l, item, e, expired) == Some(NotActive) <==> item !in l.active
  {
  }

  /** From an accepted stage on, its invocation reports, and for changes made since; results of another one are refused. */
  lemma StagesStartOver(l: Ledger, item: ItemId, stage: StageEvent, now: Baseline, e: ResultEvent, w: World)
    requires AcceptStage(l, item, stage, false).None?
    ensures var t := StartStage(l, item, stage, false, now);
      && (Accept(t, item, e, w).Ok? ==>
            && e.invocation == stage.invocation.id && e.result.stage == stage.invocation.stage
            && forall path :: path in Accept(t, item, e, w).value.changed <==> WasTouched(now, w.now, w.committed, path))
      && (Accept(t, item, e, w.(now := now, committed := {}, expired := false)).Ok? <==> IsBound(t, item, e) && w.artifacts.Some?)
  {
    hide Verify, WasTouched;
    var t := StartStage(l, item, stage, false, now);
    var quiet := w.(now := now, committed := {}, expired := false);
    ResultsAreAcceptedExactly(t, item, e, w);
    ResultsAreAcceptedExactly(t, item, e, quiet);
    QuietIsVerified(stage.invocation.authority.value, now);
  }

  lemma QuietIsVerified(a: Authority, now: Baseline)
    ensures Verify(a, false, now, now, {}).Ok?
  {
    VerifyIsExact(a, false, now, now, {});
  }

  lemma StillRemembered(fingerprints: map<ResultKey, Record>, row: Row<ResultKey, Record>, key: ResultKey, record: Record)
    requires Remembered(fingerprints, row) && key !in fingerprints
    ensures Remembered(fingerprints[key := record], row) && row.key != key
  {
  }

  lemma FoldsOneMore(log: seq<Row<ResultKey, Record>>, row: Row<ResultKey, Record>)
    ensures Fold(log + [row], map[], AddRecord) == AddRecord(Fold(log, map[], AddRecord), row)
  {
    assert (log + [row])[..|log|] == log;
  }

  lemma RecordingKeeps(l: Ledger, record: Record, t: Ledger)
    requires Kept(l) && KeyFor(record.event) !in l.fingerprints
    requires t.results == AddRecord(l.results, Row(KeyFor(record.event), record))
    requires t.fingerprints == l.fingerprints[KeyFor(record.event) := record]
    requires t.log == l.log + [Row(KeyFor(record.event), record)]
    ensures Kept(t)
  {
    hide HasKey, AddRecord, Fold;
    var row := Row(KeyFor(record.event), record);
    assert Remembered(t.fingerprints, row);
    hide Remembered;
    FoldsOneMore(l.log, row);
    NewKey(l, row.key);
    KeysAfterInsert(l.log, row);
    forall i | 0 <= i < |l.log| ensures Remembered(t.fingerprints, t.log[i]) && t.log[i].key != row.key {
      StillRemembered(l.fingerprints, l.log[i], row.key, record);
    }
  }

  lemma NewKey(l: Ledger, key: ResultKey)
    requires Kept(l) && key !in l.fingerprints
    ensures !HasKey(l.log, key)
  {
  }

  lemma DeliverKeeps(l: Ledger, item: ItemId, e: ResultEvent, w: World)
    requires Kept(l)
    ensures var t := Deliver(l, item, e, w).ledger;
      && Kept(t)
      && (t == l ||
          (Accept(l, item, e, w).Ok? && t.log == l.log + [Row(KeyFor(e), Accept(l, item, e, w).value)]))
  {
    hide Accept, Vouched, Kept;
    var accepted := Accept(l, item, e, w);
    if accepted.Ok? && KeyFor(e) !in l.fingerprints {
      AcceptedIsVouched(l, item, e, w);
      NewKey(l, KeyFor(e));
      RecordingKeeps(l, accepted.value, Deliver(l, item, e, w).ledger);
    } else {
      assert Deliver(l, item, e, w).ledger == l;
    }
  }

  /** An action appends at most one row, and only for the attempt that is active when it is delivered. */
  lemma ActAppends(l: Ledger, a: Action)
    requires Kept(l)
    ensures Kept(Act(l, a))
    ensures Act(l, a).log == l.log ||
      (exists row :: Act(l, a).log == l.log + [row] && a.Delivering? && row.event.item == a.item && Vouched(l, row.event))
  {
    hide Accept, Deliver, AcceptStage;
    match a
    case Delivering(item, event, world) =>
      DeliverKeeps(l, item, event, world);
      if Act(l, a) != l {
        AcceptedIsVouched(l, item, event, world);
        var row := Row(KeyFor(event), Accept(l, item, event, world).value);
        assert Act(l, a).log == l.log + [row];
      }
    case _ =>
  }

  /** Folding the log yields exactly the live per-item lists, in every run. */
  lemma {:induction false} FoldIsLive(l: Ledger, actions: seq<Action>)
    requires Kept(l)
    ensures Kept(Play(l, actions)) && Play(l, actions).results == Fold(Play(l, actions).log, map[], AddRecord)
    ensures l.log <= Play(l, actions).log
    decreases actions
  {
    if actions != [] {
      ActAppends(l, actions[0]);
      FoldIsLive(Act(l, actions[0]), actions[1..]);
    }
  }

  lemma NewLedgerIsKept()
    ensures Kept(EMPTY_LEDGER)
  {
  }

  /** So in every run of a new ledger. */
  lemma EveryRunFolds(actions: seq<Action>)
    ensures Kept(Play(EMPTY_LEDGER, actions))
    ensures Play(EMPTY_LEDGER, actions).results == Fold(Play(EMPTY_LEDGER, actions).log, map[], AddRecord)
  {
    hide Kept;
    NewLedgerIsKept();
    FoldIsLive(EMPTY_LEDGER, actions);
  }

  // Whether the active invocation has a result.

  /** The call records a result of its item. */
  predicate Records(l: Ledger, a: Action, item: ItemId) {
    a.Delivering? && a.item == item && Accept(l, item, a.event, a.world).Ok? && KeyFor(a.event) !in l.fingerprints
  }

  /** The call gives its item a new invocation, or the old one anew. */
  predicate Rebinds(l: Ledger, a: Action, item: ItemId) {
    || (a.Starting? && a.item == item && a.invocation.Some?)
    || (a.Staging? && a.item == item && AcceptStage(l, item, a.stage, a.expired).None?)
  }

  /** Some call of the run recorded a result of the item, and none after it gave the item an invocation. */
  ghost predicate HasResult(actions: seq<Action>, item: ItemId) {
    exists n :: 0 <= n < |actions| && RecordedLast(actions, item, n)
  }

  ghost predicate RecordedLast(actions: seq<Action>, item: ItemId, n: nat)
    requires n < |actions|
  {
    && Records(Play(EMPTY_LEDGER, actions[..n]), actions[n], item)
    && forall m :: n < m < |actions| ==> !Rebinds(Play(EMPTY_LEDGER, actions[..m]), actions[m], item)
  }

  /** What a runtime's exit is checked against: the invocation the last recorded result belongs to. */
  predicate SeesResult(l: Ledger, item: ItemId) {
    item in l.seen && l.seen[item].Some?
  }

  lemma {:induction false} PlayOneMore(l: Ledger, actions: seq<Action>, a: Action)
    ensures Play(l, actions + [a]) == Act(Play(l, actions), a)
    decreases actions
  {
    if actions != [] {
      assert (actions + [a])[1..] == actions[1..] + [a];
      PlayOneMore(Act(l, actions[0]), actions[1..], a);
    }
  }

  lemma SeenAfter(l: Ledger, a: Action, item: ItemId)
    ensures SeesResult(Act(l, a), item) <==> Records(l, a, item) || (SeesResult(l, item) && !Rebinds(l, a, item))
    ensures (SeesResult(l, item) ==> item in l.invocations && l.seen[item] == Some(l.invocations[item].id)) ==>
      SeesResult(Act(l, a), item) ==> item in Act(l, a).invocations && Act(l, a).seen[item] == Some(Act(l, a).invocations[item].id)
  {
    hide Accept, AcceptStage;
    if a.Delivering? && Accept(l, a.item, a.event, a.world).Ok? {
      AcceptedIsVouched(l, a.item, a.event, a.world);
    }
  }

  lemma ResultAfter(actions: seq<Action>, a: Action, item: ItemId)
    ensures var l := Play(EMPTY_LEDGER, actions);
      HasResult(actions + [a], item) <==> Records(l, a, item) || (HasResult(actions, item) && !Rebinds(l, a, item))
  {
    hide Records, Rebinds, Play;
    var more := actions + [a];
    assert more[..|actions|] == actions;
    assert forall m :: 0 <= m < |actions| ==> more[..m] == actions[..m] && more[m] == actions[m];
    if Records(Play(EMPTY_LEDGER, actions), a, item) {
      assert RecordedLast(more, item, |actions|);
    }
    if HasResult(actions, item) && !Rebinds(Play(EMPTY_LEDGER, actions), a, item) {
      var n :| 0 <= n < |actions| && RecordedLast(actions, item, n);
      assert RecordedLast(more, item, n);
    }
    if HasResult(more, item) {
      var n :| 0 <= n < |more| && RecordedLast(more, item, n);
      if n < |actions| {
        assert RecordedLast(actions, item, n);
      }
    }
  }

  /** After every run an exit finds a result of the active invocation exactly when one was recorded since it was given. */
  lemma {:induction false} ResultsAreSeenExactly(actions: seq<Action>, item: ItemId)
    ensures var l := Play(EMPTY_LEDGER, actions);
      && (SeesResult(l, item) <==> HasResult(actions, item))
      && (SeesResult(l, item) ==> item in l.invocations && l.seen[item] == Some(l.invocations[item].id))
  {
    hide Act, Records, Rebinds, HasResult;
    if actions == [] {
      assert !HasResult([], item) by {
        NothingHasResult(item);
      }
    } else {
      var init, a := actions[..|actions| - 1], actions[|actions| - 1];
      assert actions == init + [a];
      ResultsAreSeenExactly(init, item);
      PlayOneMore(EMPTY_LEDGER, init, a);
      SeenAfter(Play(EMPTY_LEDGER, init), a, item);
      ResultAfter(init, a, item);
    }
  }

  lemma NothingHasResult(item: ItemId)
    ensures !HasResult([], item)
  {
  }

  predicate RunsNowhere(l: Ledger, run: RunId) {
    forall item :: item in l.active ==> l.active[item].run != run
  }

  predicate NeverStarts(actions: seq<Action>, run: RunId) {
    forall i :: 0 <= i < |actions| && actions[i].Starting? ==> actions[i].slot.run != run
  }

  lemma RunStaysAbsent(l: Ledger, a: Action, run: RunId)
    requires RunsNowhere(l, run) && (a.Starting? ==> a.slot.run != run)
    ensures RunsNowhere(Act(l, a), run)
  {
    hide Accept, AcceptStage;
  }

  lemma ActStaysSilent(l: Ledger, a: Action, run: RunId)
    requires Kept(l) && RunsNowhere(l, run)
    ensures l.log <= Act(l, a).log
    ensures forall i :: |l.log| <= i < |Act(l, a).log| ==> Act(l, a).log[i].event.event.run != run
  {
    hide Kept, Act;
    ActAppends(l, a);
  }

  lemma NeverStartsLater(actions: seq<Action>, run: RunId)
    requires NeverStarts(actions, run) && actions != []
    ensures NeverStarts(actions[1..], run)
  {
  }

  /** Once an attempt is superseded no result of it is ever added. */
  lemma {:induction false} SupersededStaysSilent(l: Ledger, actions: seq<Action>, run: RunId)
    requires Kept(l) && RunsNowhere(l, run) && NeverStarts(actions, run)
    ensures l.log <= Play(l, actions).log
    ensures forall i :: |l.log| <= i < |Play(l, actions).log| ==> Play(l, actions).log[i].event.event.run != run
    decreases actions
  {
    if actions != [] {
      var t, end := Act(l, actions[0]), Play(Act(l, actions[0]), actions[1..]);
      ActAppends(l, actions[0]);
      ActStaysSilent(l, actions[0], run);
      RunStaysAbsent(l, actions[0], run);
      NeverStartsLater(actions, run);
      hide Kept, Act, NeverStarts, RunsNowhere;
      SupersededStaysSilent(t, actions[1..], run);
      forall i | |l.log| <= i < |end.log| ensures end.log[i].event.event.run != run {
        if i < |t.log| {
          assert end.log[i] == t.log[i];
        }
      }
    }
  }

  /** In particular of one that was retired: where no other item runs under it, nothing of it is recorded from then on. */
  lemma RetiredStaysSilent(l: Ledger, item: ItemId, actions: seq<Action>)
    requires Kept(l) && item in l.active && NeverStarts(actions, l.active[item].run)
    requires forall other :: other in l.active && other != item ==> l.active[other].run != l.active[item].run
    ensures var t := Act(l, Retiring(item));
      && item !in t.active && t.results == l.results && t.log == l.log
      && forall i :: |l.log| <= i < |Play(t, actions).log| ==> Play(t, actions).log[i].event.event.run != l.active[item].run
  {
    hide Kept, NeverStarts;
    ActAppends(l, Retiring(item));
    SupersededStaysSilent(Act(l, Retiring(item)), actions, l.active[item].run);
  }

  /** A retry rebinds the same skill: only item, attempt and invocation id change, and another attempt gets another id. */
  lemma RebindingKeepsTheSkill(t: Template, item: ItemId, attempt: RunId, next: RunId, authority: Option<Authority>)
    requires Bind(t, item, attempt, authority).Ok?
    ensures var bound := Bind(t, item, attempt, authority).value;
      && Bind(Unbound(bound), item, attempt, None) == Ok(bound)
      && Bind(Unbound(bound), item, next, None) == Ok(bound.(attempt := next, id := bound.id.(attempt := next)))
      && (Bind(Unbound(bound), item, next, None).value.id == bound.id <==> next == attempt)
  {
  }

  /** Binding fails for want of an authority alone; one supplied for the stage comes before the skill's own. */
  lemma BindingNeedsAuthority(t: Template, item: ItemId, attempt: RunId, authority: Option<Authority>)
    ensures var r := Bind(t, item, attempt, authority);
      && (r.Err? <==> authority.None? && t.authority.None?) && (r.Err? ==> r.error == NoAuthority)
      && (r.Ok? ==>
            && r.value.authority == (if authority.Some? then authority else t.authority)
            && Unbound(r.value) == t.(authority := r.value.authority)
            && r.value.item == item && r.value.attempt == attempt && r.value.id == InvocationId(attempt, t.stage, t.skill))
  {
  }

  /** A stage bound to the active attempt is accepted exactly when the skill pack is the one the attempt started with. */
  lemma BoundStagesAreAccepted(l: Ledger, item: ItemId, t: Template, authority: Option<Authority>)
    requires item in l.active && item in l.invocations && Bind(t, item, l.active[item].run, authority).Ok?
    ensures var slot, bound := l.active[item], Bind(t, item, l.active[item].run, authority).value;
      AcceptStage(l, item, StageEvent(slot.run, slot.run, slot.workspace, bound), false).None? <==>
        (t.version, t.manifest) == (l.invocations[item].version, l.invocations[item].manifest)
  {
  }

  /** A stage or result bound to another attempt never passes. */
  lemma OtherAttemptsAreRefused(l: Ledger, item: ItemId, t: Template, attempt: RunId, authority: Option<Authority>,
                                stage: StageEvent, result: ResultEvent, expired: bool, w: World)
    requires Bind(t, item, attempt, authority).Ok? && (item in l.active ==> l.active[item].run != attempt)
    requires stage.invocation == Bind(t, item, attempt, authority).value && result.attempt == attempt
    ensures AcceptStage(l, item, stage, expired).Some?
    ensures Accept(l, item, result, w).Err? && Deliver(l, item, result, w).ledger == l
  {
  }

  /**
   * A recorded result delivered again changes nothing. It is accepted exactly when the envelope has not expired and
   * the workspace, its head, the artifacts and the paths found changed are what the first delivery saw.
   */
  lemma RedeliveryIsInert(l: Ledger, item: ItemId, e: ResultEvent, w: World, again: World)
    requires Deliver(l, item, e, w).fault.None? && Accept(l, item, e, w).Ok?
    ensures var t := Deliver(l, item, e, w).ledger;
      && KeyFor(e) in t.fingerprints && item in l.baselines && item in t.baselines
      && Deliver(t, item, e, again).ledger == t
      && (Deliver(t, item, e, again).fault.None? <==>
            && !again.expired
            && (again.now.root, again.now.head, again.artifacts) == (w.now.root, w.now.head, w.artifacts)
            && ChangedPaths(t.baselines[item], again.now, again.committed)
               == ChangedPaths(l.baselines[item], w.now, w.committed))
  {
    hide MayWrite, ChangedPaths;
    var authority, t := l.invocations[item].authority.value, Deliver(l, item, e, w).ledger;
    VerifyIsExact(authority, w.expired, l.baselines[item], w.now, w.committed);
    VerifyIsExact(authority, again.expired, t.baselines[item], again.now, again.committed);
  }

  /** In an untouched workspace redelivery is accepted exactly when the first delivery had seen no change. */
  lemma RedeliveryInQuietWorkspace(l: Ledger, item: ItemId, e: ResultEvent, w: World)
    requires Accept(l, item, e, w).Ok? && KeyFor(e) !in l.fingerprints
    ensures var t := Deliver(l, item, e, w).ledger;
      var again := Deliver(t, item, e, w.(committed := {}));
      && again.ledger == t
      && (again.fault.None? <==> Accept(l, item, e, w).value.changed == {})
      && (again.fault.Some? ==> again.fault == Some(KeyReused))
  {
    var t := Deliver(l, item, e, w).ledger;
    NothingChanged(w.now);
    assert Accept(t, item, e, w.(committed := {})) == Ok(Accept(l, item, e, w).value.(changed := {}));
  }

  lemma NothingChanged(now: Baseline)
    ensures ChangedPaths(now, now, {}) == {}
  {
  }

  // A first attempt that changed a file, and its result delivered twice.

  const RUN := RunId("A-1", "main-0", 1)

  const INVOCATION := Invocation("implement", "1", "implement-test", "sha", InvocationId(RUN, "implement-test", "implement"),
                                 "A-1", RUN, Some(Authority(MutatingWithAuthority, ["."], {Write})))

  const RESULT := ResultEvent("event-1", RUN, INVOCATION.id, RUN, "ws-1",
                              SkillResult("result-1", INVOCATION.id, RUN, "A-1", "implement", "1", "implement-test", "done"))

  const BEFORE := Baseline("/work/A-1", "head-0", map[])

  function Found(files: set<string>): World {
    World(Baseline("/work/A-1", "head-0", map path | path in files :: PathState([], Some(FileState(0, false, "text")))), {}, false,
          Some([]))
  }

  function Begun(): seq<Action> {
    [Starting("A-1", Slot(RUN, "ws-1"), Some(INVOCATION), BEFORE)]
  }

  lemma OneFileMayChange()
    ensures ChangedPaths(BEFORE, Found({"f"}).now, {}) == {"f"} && MayWrite(INVOCATION.authority.value, "f")
  {
    assert !IsSpace("f"[0]) && '/' !in "f" && Segments("f") == ["f"] && "f"[0] != '.';
    assert ScopePath("f") == Some("f");
    assert Covers(INVOCATION.authority.value.allowedPaths[0], "f");
    assert "f" in BEFORE.states.Keys + Found({"f"}).now.states.Keys;
  }

  /** Delivered twice over an unchanged workspace the result is refused the second time; without a change it is accepted. */
  lemma RedeliveryIsRefused()
    ensures var l := Play(EMPTY_LEDGER, Begun());
      && Deliver(l, "A-1", RESULT, Found({"f"})).fault.None?
      && Deliver(Deliver(l, "A-1", RESULT, Found({"f"})).ledger, "A-1", RESULT, Found({"f"})).fault == Some(KeyReused)
      && Deliver(l, "A-1", RESULT, Found({})).fault.None?
      && Deliver(Deliver(l, "A-1", RESULT, Found({})).ledger, "A-1", RESULT, Found({})).fault.None?
  {
    hide MayWrite;
    var l := Play(EMPTY_LEDGER, Begun());
    assert Begun()[1..] == [] && l == Act(EMPTY_LEDGER, Begun()[0]);
    OneFileMayChange();
    VerifyIsExact(INVOCATION.authority.value, false, BEFORE, Found({"f"}).now, {});
  }
}
