/** The controller's ledger of skill results: what binds a result to its attempt and invocation. */
module SkillLedgers {
  import opened Prelude
  import opened EventLogs
  import opened Skills
  import opened Projections

  datatype InvocationId = InvocationId(attempt: RunId, stage: string, skill: string)

  datatype Invocation = Invocation(skill: string, version: string, stage: string, manifest: string,
                                   id: InvocationId, item: ItemId, attempt: RunId, authority: Option<Authority>)

  datatype SkillResult = SkillResult(id: string, invocation: InvocationId, attempt: RunId, item: ItemId,
                                     skill: string, version: string, stage: string, body: string)

  /** The transport envelope of a result, as the runtime sent it. */
  datatype ResultEvent = ResultEvent(eventId: string, run: RunId, invocation: InvocationId, attempt: RunId,
                                     workspace: string, result: SkillResult)

  /** A lifecycle stage announced by the runtime. */
  datatype StageEvent = StageEvent(run: RunId, attempt: RunId, workspace: string, invocation: Invocation)

  /** What is logged: the envelope and what the verifiers observed on delivery. */
  datatype Record = Record(item: ItemId, event: ResultEvent, head: Revision, changed: set<string>, bindings: seq<string>)

  datatype ResultKey = ResultKey(run: RunId, attempt: RunId, resultId: string)

  datatype Slot = Slot(run: RunId, workspace: string)

  datatype Fault =
    | NotActive
    | Malformed
    | WrongRun
    | WrongAttempt
    | WrongWorkspace
    | NoInvocation
    | WrongInvocation
    | WrongItem
    | WrongIdentity
    | NoAuthority
    | NoBaseline
    | OutsideAuthority(fault: AuthorityFault)
    | ArtifactRefused
    | KeyReused

  /** The outside answers of one delivery: the workspace, the clock, and the artifact verifier. */
  datatype World = World(now: Baseline, committed: set<string>, expired: bool, artifacts: Option<seq<string>>)

  datatype Ledger = Ledger(
    active: map<ItemId, Slot>,
    invocations: map<ItemId, Invocation>,
    baselines: map<ItemId, Baseline>,
    results: map<ItemId, seq<Record>>,
    fingerprints: map<ResultKey, Record>,
    seen: map<ItemId, Option<InvocationId>>,
    log: seq<Row<ResultKey, Record>>)

  const EMPTY_LEDGER := Ledger(map[], map[], map[], map[], map[], map[], [])

  /** A skill identity that is not yet bound to an attempt. */
  datatype Template = Template(skill: string, version: string, stage: string, manifest: string, authority: Option<Authority>)

  /** Binding names the attempt; it needs an authority, its own or one supplied for the stage. */
  function Bind(t: Template, item: ItemId, attempt: RunId, authority: Option<Authority>): Result<Invocation, Fault> {
    var selected := if authority.Some? then authority else t.authority;
    if selected.None? then Err(NoAuthority)
    else Ok(Invocation(t.skill, t.version, t.stage, t.manifest, InvocationId(attempt, t.stage, t.skill), item, attempt, selected))
  }

  function Unbound(i: Invocation): Template {
    Template(i.skill, i.version, i.stage, i.manifest, i.authority)
  }

  function KeyFor(e: ResultEvent): ResultKey {
    ResultKey(e.run, e.attempt, e.result.id)
  }

  predicate IsConsistent(e: ResultEvent) {
    e.result.invocation == e.invocation && e.result.attempt == e.attempt
  }

  /** The checks of a delivery, in order; when all pass, the record it would leave. */
  function Accept(l: Ledger, item: ItemId, e: ResultEvent, w: World): Result<Record, Fault> {
    if item !in l.active then Err(NotActive)
    else if !IsConsistent(e) then Err(Malformed)
    else if e.run != l.active[item].run then Err(WrongRun)
    else if e.attempt != l.active[item].run then Err(WrongAttempt)
    else if e.workspace != l.active[item].workspace then Err(WrongWorkspace)
    else if item !in l.invocations then Err(NoInvocation)
    else
      var expected := l.invocations[item];
      if e.invocation != expected.id then Err(WrongInvocation)
      else if e.result.item != item then Err(WrongItem)
      else if (e.result.skill, e.result.version, e.result.stage) != (expected.skill, expected.version, expected.stage)
      then Err(WrongIdentity)
      else if expected.authority.None? then Err(NoAuthority)
      else if item !in l.baselines then Err(NoBaseline)
      else
        match Verify(expected.authority.value, w.expired, l.baselines[item], w.now, w.committed)
        case Err(fault) => Err(OutsideAuthority(fault))
        case Ok(changed) =>
          if w.artifacts.None? then Err(ArtifactRefused)
          else Ok(Record(item, e, w.now.head, changed, w.artifacts.value))
  }

  lemma AcceptIgnoresLog(l: Ledger, item: ItemId, e: ResultEvent, w: World)
    ensures Accept(l.(log := []), item, e, w) == Accept(l, item, e, w)
  {
  }

  function RecordsOf(results: map<ItemId, seq<Record>>, item: ItemId): seq<Record> {
    if item in results then results[item] else []
  }

  datatype Delivery = Delivery(ledger: Ledger, fault: Option<Fault>)

  function Deliver(l: Ledger, item: ItemId, e: ResultEvent, w: World): Delivery {
    match Accept(l, item, e, w)
    case Err(fault) => Delivery(l, Some(fault))
    case Ok(record) =>
      var key := KeyFor(e);
      if key in l.fingerprints then Delivery(l, if l.fingerprints[key] == record then None else Some(KeyReused))
      else
        Delivery(l.(results := l.results[item := RecordsOf(l.results, item) + [record]],
                    fingerprints := l.fingerprints[key := record],
                    seen := l.seen[item := Some(e.invocation)],
                    log := Inserted(l.log, Row(key, record)),
                    baselines := l.baselines[item := w.now]),
                 None)
  }

  /** A dispatched attempt binds its invocation and captures its first baseline. */
  function Begin(l: Ledger, item: ItemId, slot: Slot, invocation: Option<Invocation>, now: Baseline): Ledger {
    var t := l.(active := l.active[item := slot]);
    if invocation.None? then t
    else t.(invocations := t.invocations[item := invocation.value],
            baselines := t.baselines[item := now],
            seen := t.seen[item := None])
  }

  function AcceptStage(l: Ledger, item: ItemId, e: StageEvent, expired: bool): Option<Fault> {
    if item !in l.active then Some(NotActive)
    else
      var slot, i := l.active[item], e.invocation;
      if e.run != slot.run then Some(WrongRun)
      else if e.attempt != slot.run then Some(WrongAttempt)
      else if e.workspace != slot.workspace then Some(WrongWorkspace)
      else if i.item != item || i.attempt != slot.run then Some(WrongItem)
      else if i.authority.None? then Some(NoAuthority)
      else if item !in l.invocations then Some(NoInvocation)
      else if i.version != l.invocations[item].version || i.manifest != l.invocations[item].manifest then Some(WrongIdentity)
      else if i.id != InvocationId(slot.run, i.stage, i.skill) then Some(WrongInvocation)
      else if expired then Some(OutsideAuthority(Expired))
      else None
  }

  /** A stage that passes its checks replaces the invocation and recaptures the baseline. */
  function StartStage(l: Ledger, item: ItemId, e: StageEvent, expired: bool, now: Baseline): Ledger {
    if AcceptStage(l, item, e, expired).Some? then l
    else l.(invocations := l.invocations[item := e.invocation],
            baselines := l.baselines[item := now],
            seen := l.seen[item := None])
  }

  function Retire(l: Ledger, item: ItemId): Ledger {
    l.(active := l.active - {item})
  }

  /** How the projection folds one recorded result. */
  function AddRecord(results: map<ItemId, seq<Record>>, row: Row<ResultKey, Record>): map<ItemId, seq<Record>> {
    results[row.event.item := RecordsOf(results, row.event.item) + [row.event]]
  }

  class SkillLedger {
    const log: SqliteEventLog<ResultKey, Record>
    var active: map<ItemId, Slot>
    var invocations: map<ItemId, Invocation>
    var baselines: map<ItemId, Baseline>
    var results: map<ItemId, seq<Record>>
    var fingerprints: map<ResultKey, Record>
    var seen: map<ItemId, Option<InvocationId>>

    ghost function State(): Ledger
      reads this, log
    {
      Ledger(active, invocations, baselines, results, fingerprints, seen, log.rows)
    }

    ghost predicate Valid()
      reads this, log
    {
      log.Valid() && forall key :: HasKey(log.rows, key) <==> key in fingerprints
    }

    constructor ()
      ensures Valid() && fresh(log) && State() == EMPTY_LEDGER
    {
      log := new SqliteEventLog();
      active, invocations, baselines := map[], map[], map[];
      results, fingerprints, seen := map[], map[], map[];
    }

    method BeginAttempt(item: ItemId, slot: Slot, invocation: Option<Invocation>, now: Baseline)
      requires Valid()
      modifies this
      ensures Valid() && State() == Begin(old(State()), item, slot, invocation, now)
    {
      active := active[item := slot];
      if invocation.Some? {
        invocations := invocations[item := invocation.value];
        baselines := baselines[item := now];
        seen := seen[item := None];
      }
    }

    method RecordStageStarted(item: ItemId, e: StageEvent, expired: bool, now: Baseline) returns (fault: Option<Fault>)
      requires Valid()
      modifies this
      ensures Valid() && State() == StartStage(old(State()), item, e, expired, now)
      ensures fault == AcceptStage(old(State()), item, e, expired)
    {
      fault := AcceptStage(Ledger(active, invocations, baselines, results, fingerprints, seen, []), item, e, expired);
      if fault.None? {
        invocations := invocations[item := e.invocation];
        baselines := baselines[item := now];
        seen := seen[item := None];
      }
    }

    /** A result whose key is known is never appended again, so the log cannot conflict. */
    method RecordResult(item: ItemId, e: ResultEvent, w: World) returns (fault: Option<Fault>)
      requires Valid()
      modifies this, log
      ensures Valid() && Deliver(old(State()), item, e, w) == Delivery(State(), fault)
    {
      AcceptIgnoresLog(State(), item, e, w);
      hide Accept;
      var accepted := Accept(Ledger(active, invocations, baselines, results, fingerprints, seen, []), item, e, w);
      if accepted.Err? {
        return Some(accepted.error);
      }
      var record, key := accepted.value, KeyFor(e);
      if key in fingerprints {
        return if fingerprints[key] == record then None else Some(KeyReused);
      }
      results := results[item := RecordsOf(results, item) + [record]];
      fingerprints := fingerprints[key := record];
      seen := seen[item := Some(e.invocation)];
      KeysAfterInsert(log.rows, Row(key, record));
      var answer := log.Append(key, record);
      assert answer.Ok?;
      baselines := baselines[item := w.now];
      fault := None;
    }

    method RetireAttempt(item: ItemId)
      requires Valid()
      modifies this
      ensures Valid() && State() == Retire(old(State()), item)
    {
      active := active - {item};
    }
  }
}
