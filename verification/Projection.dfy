/** The controller's durable events, their idempotency keys, and the projection they reduce to. */
module Projections {
  import opened Prelude
  import opened EventLogs
  import opened Gate
  import S = Scheduling

  /** One run of one item; its text is built by `Identity.RunIdText`. */
  datatype RunId = RunId(item: ItemId, base: Revision, attempt: nat)

  /** A workspace; `details` is whatever else the start of an attempt records: its time, heads and runtime. */
  datatype Workspace = Workspace(id: string, repository: string, worktreePath: string, branchRef: string, details: string)

  datatype Prompt = Prompt(item: ItemId, text: string)

  datatype TicketState = InProgress | InReview | NeedsAttention | Done | CancelledTicket

  datatype AttemptState = Running | AttentionNeeded | ReleasedAttempt | SupersededAttempt | CancelledAttempt

  datatype Event =
    | TicketStateChanged(item: ItemId, ticket: TicketState)
    | BaseRevisionRefreshed(revision: Revision)
    | WorkAttemptStarted(run: RunId, workspace: Workspace)
    | WorkAttemptStateChanged(run: RunId, state: AttemptState)
    | ExecutionWaveStarted(number: nat, base: Revision, items: seq<ItemId>)
    | ExecutionWaveStateChanged(number: nat, wave: S.WaveState)
    | GateRecorded(run: RunId, status: GateStatus, failure: Option<FailureCode>,
                   prHead: string, ciHead: string, merge: Option<Revision>)
    | PromptSnapshotRecorded(prompt: Prompt)
    | WaveItemCancelled(item: ItemId, reason: string)
    | RuntimeFailed(item: ItemId, code: FailureCode)
    | ReconciliationFailed(item: ItemId, code: FailureCode)
    | AuthorityViolated(item: ItemId, error: string)
    | RetryFailed(run: RunId, code: FailureCode)
    | FrontierWaitingForPrompts(items: seq<ItemId>)

  /** A key spells out everything an event says, except what an attempt or a wave started with. */
  datatype Key = AttemptKey(run: RunId) | WaveKey(number: nat) | FactKey(fact: Event)

  function KeyOf(e: Event): Key {
    match e
    case WorkAttemptStarted(run, workspace) => AttemptKey(run)
    case ExecutionWaveStarted(number, base, items) => WaveKey(number)
    case _ => FactKey(e)
  }

  function RowOf(e: Event): Row<Key, Event> {
    Row(KeyOf(e), e)
  }

  datatype ActiveRecord = ActiveRecord(run: RunId, workspace: Workspace)

  datatype Projection = Projection(
    tickets: map<ItemId, TicketState>,
    base: Option<Revision>,
    attemptStates: map<RunId, AttemptState>,
    attemptRecords: map<RunId, Workspace>,
    active: map<ItemId, ActiveRecord>,
    waves: seq<S.ExecutionWave>,
    gates: map<ItemId, GateStatus>,
    prompts: seq<Prompt>)

  const EMPTY := Projection(map[], None, map[], map[], map[], [], map[], [])

  predicate EndsAttempt(state: AttemptState) {
    state.ReleasedAttempt? || state.CancelledAttempt? || state.SupersededAttempt?
  }

  /** The wave records are a dictionary by number; a later record of a number replaces the earlier in place. */
  function PutWave(waves: seq<S.ExecutionWave>, wave: S.ExecutionWave): seq<S.ExecutionWave> {
    if waves == [] then [wave]
    else if waves[0].number == wave.number then [wave] + waves[1..]
    else [waves[0]] + PutWave(waves[1..], wave)
  }

  function PutPrompt(prompts: seq<Prompt>, prompt: Prompt): seq<Prompt> {
    if prompts == [] then [prompt]
    else if prompts[0].item == prompt.item then [prompt] + prompts[1..]
    else [prompts[0]] + PutPrompt(prompts[1..], prompt)
  }

  function PromptFor(prompts: seq<Prompt>, item: ItemId): Option<string> {
    if prompts == [] then None
    else if prompts[0].item == item then Some(prompts[0].text)
    else PromptFor(prompts[1..], item)
  }

  function SetWaveState(waves: seq<S.ExecutionWave>, number: nat, state: S.WaveState): (changed: seq<S.ExecutionWave>)
    ensures |changed| == |waves|
    ensures forall i :: 0 <= i < |waves| ==>
      changed[i] == if waves[i].number == number then waves[i].(state := state) else waves[i]
  {
    seq(|waves|, i requires 0 <= i < |waves| =>
      if waves[i].number == number then waves[i].(state := state) else waves[i])
  }

  function Reduce(p: Projection, row: Row<Key, Event>): Projection {
    match row.event
    case TicketStateChanged(item, ticket) => p.(tickets := p.tickets[item := ticket])
    case BaseRevisionRefreshed(revision) => p.(base := Some(revision))
    case WorkAttemptStarted(run, workspace) =>
      p.(attemptStates := p.attemptStates[run := Running],
         attemptRecords := p.attemptRecords[run := workspace],
         active := p.active[run.item := ActiveRecord(run, workspace)])
    case WorkAttemptStateChanged(run, state) =>
      p.(attemptStates := p.attemptStates[run := state],
         active := if EndsAttempt(state) && run in p.attemptRecords then p.active - {run.item} else p.active)
    case ExecutionWaveStarted(number, base, items) =>
      p.(waves := PutWave(p.waves, S.ExecutionWave(number, base, items, S.Active)))
    case ExecutionWaveStateChanged(number, state) => p.(waves := SetWaveState(p.waves, number, state))
    case GateRecorded(run, status, _, _, _, _) => p.(gates := p.gates[run.item := status])
    case PromptSnapshotRecorded(prompt) => p.(prompts := PutPrompt(p.prompts, prompt))
    case _ => p
  }

  function Project(rows: seq<Row<Key, Event>>): Projection {
    Fold(rows, EMPTY, Reduce)
  }

  /** One more event: the projection takes its step unless the key was already recorded. */
  lemma ProjectOneMore(rows: seq<Row<Key, Event>>, e: Event)
    ensures Project(Inserted(rows, RowOf(e)))
            == if HasKey(rows, KeyOf(e)) then Project(rows) else Reduce(Project(rows), RowOf(e))
  {
  }

  /** Rebuilding a projection reads the event stream once, from the beginning. */
  method FromEventLog(log: SqliteEventLog<Key, Event>) returns (p: Projection)
    ensures p == Project(log.rows)
  {
    p := log.Reduce(EMPTY, Reduce);
  }
}
