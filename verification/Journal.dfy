/** What the durable log says, kept as an account that each kind of event updates. */
module Journals {
  import opened Prelude
  import opened EventLogs
  import opened Projections
  import opened Controllers
  import Sim = Simulation
  import S = Scheduling

  /** The facts a controller needs its log to reproduce. */
  datatype Account = Account(
    finished: set<ItemId>,
    attempts: map<ItemId, Attempt>,
    owned: set<ItemId>,
    open: map<ItemId, RunId>,
    waves: seq<S.ExecutionWave>,
    prompts: seq<Prompt>,
    revisions: seq<Revision>)

  /** How many attempts of an item have been issued. */
  function Issued(a: Account, item: ItemId): int {
    Sim.AttemptNumber(a.attempts, item) - if item in a.owned then 0 else 1
  }

  predicate Finishes(ticket: TicketState) {
    ticket.Done? || ticket.CancelledTicket?
  }

  predicate SameWave(w: S.ExecutionWave, number: nat, base: Revision, items: seq<ItemId>) {
    w.number == number && w.base == base && w.items == items
  }

  ghost predicate RowFits(a: Account, started: set<RunId>, row: Row<Key, Event>) {
    && row.key == KeyOf(row.event)
    && match row.event
       case TicketStateChanged(item, ticket) => Finishes(ticket) ==> item in a.finished
       case WorkAttemptStarted(run, workspace) => run in started && 1 <= run.attempt <= Issued(a, run.item)
       case WorkAttemptStateChanged(run, state) =>
         EndsAttempt(state) ==> run in started && (run.item in a.open ==> a.open[run.item] != run)
       case ExecutionWaveStarted(number, base, items) =>
         1 <= number <= |a.waves| && SameWave(a.waves[number - 1], number, base, items)
       case PromptSnapshotRecorded(prompt) => prompt in a.prompts
       case BaseRevisionRefreshed(revision) => revision in a.revisions
       case _ => true
  }

  ghost predicate RowsFit(rows: seq<Row<Key, Event>>, a: Account, started: set<RunId>) {
    forall i :: 0 <= i < |rows| ==> RowFits(a, started, rows[i])
  }

  ghost predicate WavesMatch(recorded: seq<S.ExecutionWave>, waves: seq<S.ExecutionWave>) {
    && |recorded| == |waves|
    && forall i :: 0 <= i < |waves| ==>
         recorded[i].number == i + 1 && SameWave(recorded[i], waves[i].number, waves[i].base, waves[i].items)
  }

  ghost predicate PromptsMatch(rows: seq<Row<Key, Event>>, prompts: seq<Prompt>) {
    && (forall i :: 0 <= i < |prompts| ==> HasKey(rows, FactKey(PromptSnapshotRecorded(prompts[i]))))
    && forall i, j :: 0 <= i < j < |prompts| ==> prompts[i].item != prompts[j].item
  }

  /** The last revision to appear for the first time. */
  function LastNew(revisions: seq<Revision>): Option<Revision> {
    if revisions == [] then None
    else
      var init, last := revisions[..|revisions| - 1], revisions[|revisions| - 1];
      if last in init then LastNew(init) else Some(last)
  }

  ghost predicate OpenMatches(p: Projection, a: Account) {
    p.active.Keys == a.open.Keys
    && forall item :: item in a.open ==>
         a.open[item].item == item && a.open[item] in p.attemptRecords && p.active[item].run == a.open[item]
  }

  /** Whether a row starts an attempt of a run's item under the run's number. */
  predicate StartsAlike(row: Row<Key, Event>, run: RunId) {
    row.event.WorkAttemptStarted? && row.event.run.item == run.item && row.event.run.attempt == run.attempt
  }

  /** Each attempt of an item is started once. */
  ghost predicate StartsDiffer(rows: seq<Row<Key, Event>>) {
    forall i, j :: 0 <= i < j < |rows| && rows[j].event.WorkAttemptStarted? ==> !StartsAlike(rows[i], rows[j].event.run)
  }

  predicate IsStart(row: Row<Key, Event>, item: ItemId, n: nat) {
    row.event.WorkAttemptStarted? && row.event.run.item == item && row.event.run.attempt == n
  }

  ghost predicate WasStarted(rows: seq<Row<Key, Event>>, item: ItemId, n: nat) {
    exists i :: 0 <= i < |rows| && IsStart(rows[i], item, n)
  }

  /** Every attempt issued so far is in the log. */
  ghost predicate AllStarted(rows: seq<Row<Key, Event>>, a: Account) {
    forall item, n: nat :: 1 <= n <= Issued(a, item) ==> WasStarted(rows, item, n)
  }

  ghost predicate Reproduces(p: Projection, a: Account) {
    && FinishedItems(p) == a.finished
    && OpenMatches(p, a)
    && WavesMatch(p.waves, a.waves)
    && p.prompts == a.prompts
    && p.base == LastNew(a.revisions)
  }

  /** The log holds the account: its rows fit, and reducing it gives the account back. */
  ghost predicate Journal(rows: seq<Row<Key, Event>>, a: Account) {
    && RowsFit(rows, a, Project(rows).attemptRecords.Keys)
    && StartsDiffer(rows) && AllStarted(rows, a)
    && Reproduces(Project(rows), a)
    && PromptsMatch(rows, a.prompts)
    && (forall revision :: revision in a.revisions ==> HasKey(rows, FactKey(BaseRevisionRefreshed(revision))))
    && forall i :: 0 <= i < |a.waves| ==> HasKey(rows, WaveKey(a.waves[i].number))
  }

  predicate IsQuiet(a: Account, e: Event) {
    match e
    case TicketStateChanged(item, ticket) => !Finishes(ticket) && item !in a.finished
    case WorkAttemptStarted(run, workspace) => false
    case WorkAttemptStateChanged(run, state) => !EndsAttempt(state)
    case ExecutionWaveStarted(number, base, items) => false
    case PromptSnapshotRecorded(prompt) => false
    case BaseRevisionRefreshed(revision) => false
    case _ => true
  }

  lemma KeysPersist(rows: seq<Row<Key, Event>>, e: Event)
    ensures forall key :: HasKey(rows, key) ==> HasKey(Inserted(rows, RowOf(e)), key)
    ensures HasKey(Inserted(rows, RowOf(e)), KeyOf(e))
    ensures forall item, n: nat :: WasStarted(rows, item, n) ==> WasStarted(Inserted(rows, RowOf(e)), item, n)
  {
    var more := Inserted(rows, RowOf(e));
    forall item, n: nat | WasStarted(rows, item, n) ensures WasStarted(more, item, n) {
      var i :| 0 <= i < |rows| && IsStart(rows[i], item, n);
      assert IsStart(more[i], item, n);
    }
    forall key | HasKey(rows, key) ensures HasKey(more, key) {
      var i :| 0 <= i < |rows| && rows[i].key == key;
      assert more[i].key == key;
    }
    if !HasKey(rows, KeyOf(e)) {
      assert more[|rows|].key == KeyOf(e);
    }
  }

  /** The rows fit a new account when each old row does and the new one does. */
  lemma RowsStillFit(rows: seq<Row<Key, Event>>, e: Event, a: Account, b: Account, started: set<RunId>, more: set<RunId>)
    requires RowsFit(rows, a, started) && StartsDiffer(rows)
    requires e.WorkAttemptStarted? ==> forall i :: 0 <= i < |rows| ==> !StartsAlike(rows[i], e.run)
    requires forall row :: RowFits(a, started, row) && row in rows ==> RowFits(b, more, row)
    requires !HasKey(rows, KeyOf(e)) ==> RowFits(b, more, RowOf(e))
    ensures RowsFit(Inserted(rows, RowOf(e)), b, more) && StartsDiffer(Inserted(rows, RowOf(e)))
  {
  }

  /** Nothing the account keeps depends on a quiet event. */
  lemma QuietEvent(rows: seq<Row<Key, Event>>, a: Account, e: Event)
    requires Journal(rows, a) && IsQuiet(a, e)
    ensures Journal(Inserted(rows, RowOf(e)), a)
  {
    ProjectOneMore(rows, e);
    KeysPersist(rows, e);
    var started := Project(rows).attemptRecords.Keys;
    RowsStillFit(rows, e, a, a, started, started);
  }

  lemma TicketFinishes(rows: seq<Row<Key, Event>>, a: Account, item: ItemId, ticket: TicketState)
    requires Journal(rows, a) && Finishes(ticket) && item !in a.finished
    ensures Journal(Inserted(rows, RowOf(TicketStateChanged(item, ticket))), a.(finished := a.finished + {item}))
  {
    var e, b := TicketStateChanged(item, ticket), a.(finished := a.finished + {item});
    ProjectOneMore(rows, e);
    KeysPersist(rows, e);
    forall i | 0 <= i < |rows| ensures rows[i].key != KeyOf(e) {
      assert RowFits(a, Project(rows).attemptRecords.Keys, rows[i]);
    }
    var started := Project(rows).attemptRecords.Keys;
    RowsStillFit(rows, e, a, b, started, started);
  }

  lemma StartFits(a: Account, run: RunId, started: set<RunId>, row: Row<Key, Event>)
    requires RowFits(a, started, row) && run !in started && run.item !in a.owned
    ensures RowFits(a.(owned := a.owned + {run.item}, open := a.open[run.item := run]), started + {run}, row)
  {
  }

  lemma StartReproduces(rows: seq<Row<Key, Event>>, a: Account, run: RunId, workspace: Workspace)
    requires Reproduces(Project(rows), a) && !HasKey(rows, AttemptKey(run))
    ensures Reproduces(Project(Inserted(rows, RowOf(WorkAttemptStarted(run, workspace)))),
                       a.(owned := a.owned + {run.item}, open := a.open[run.item := run]))
    ensures Project(Inserted(rows, RowOf(WorkAttemptStarted(run, workspace)))).attemptRecords.Keys
            == Project(rows).attemptRecords.Keys + {run}
  {
    hide HasKey, Inserted;
    ProjectOneMore(rows, WorkAttemptStarted(run, workspace));
  }

  lemma StartRowsFit(rows: seq<Row<Key, Event>>, a: Account, run: RunId, workspace: Workspace, started: set<RunId>)
    requires RowsFit(rows, a, started) && StartsDiffer(rows) && run !in started && run.item !in a.owned
    requires run.attempt == Sim.AttemptNumber(a.attempts, run.item)
    requires forall i :: 0 <= i < |rows| ==> !StartsAlike(rows[i], run)
    ensures var more := Inserted(rows, RowOf(WorkAttemptStarted(run, workspace)));
      && RowsFit(more, a.(owned := a.owned + {run.item}, open := a.open[run.item := run]), started + {run}) && StartsDiffer(more)
  {
    var e, b := WorkAttemptStarted(run, workspace), a.(owned := a.owned + {run.item}, open := a.open[run.item := run]);
    assert RowFits(b, started + {run}, RowOf(e));
    hide RowFits, Inserted, HasKey;
    forall row | RowFits(a, started, row) ensures RowFits(b, started + {run}, row) {
      StartFits(a, run, started, row);
    }
    RowsStillFit(rows, e, a, b, started, started + {run});
  }

  /** The next attempt of an item nobody owns starts under a run the log has never seen. */
  lemma AttemptStarts(rows: seq<Row<Key, Event>>, a: Account, run: RunId, workspace: Workspace)
    requires Journal(rows, a) && run.item !in a.owned && run.attempt == Sim.AttemptNumber(a.attempts, run.item)
    ensures Journal(Inserted(rows, RowOf(WorkAttemptStarted(run, workspace))),
                    a.(owned := a.owned + {run.item}, open := a.open[run.item := run]))
  {
    NextRunIsFresh(rows, a, run);
    StartedRunsAreLogged(rows, run);
    hide RowFits, Project, Inserted, HasKey, RowsFit, StartsDiffer, Reproduces, AllStarted;
    KeysPersist(rows, WorkAttemptStarted(run, workspace));
    StartReproduces(rows, a, run, workspace);
    StartRowsFit(rows, a, run, workspace, Project(rows).attemptRecords.Keys);
    StartIsIssued(rows, a, run, workspace);
    OpenDoesNotMatter(Inserted(rows, RowOf(WorkAttemptStarted(run, workspace))), a.(owned := a.owned + {run.item}),
                      a.open[run.item := run]);
  }

  lemma OpenDoesNotMatter(rows: seq<Row<Key, Event>>, a: Account, open: map<ItemId, RunId>)
    requires AllStarted(rows, a)
    ensures AllStarted(rows, a.(open := open))
  {
    assert forall item :: Issued(a.(open := open), item) == Issued(a, item);
  }

  lemma StartIsIssued(rows: seq<Row<Key, Event>>, a: Account, run: RunId, workspace: Workspace)
    requires AllStarted(rows, a) && run.item !in a.owned && run.attempt == Sim.AttemptNumber(a.attempts, run.item)
    requires !HasKey(rows, AttemptKey(run))
    ensures AllStarted(Inserted(rows, RowOf(WorkAttemptStarted(run, workspace))), a.(owned := a.owned + {run.item}))
  {
    var e := WorkAttemptStarted(run, workspace);
    var more := Inserted(rows, RowOf(e));
    KeysPersist(rows, e);
    assert IsStart(more[|rows|], run.item, run.attempt);
    assert WasStarted(more, run.item, run.attempt);
  }

  lemma {:induction false} StartedRunsAreLogged(rows: seq<Row<Key, Event>>, run: RunId)
    ensures run in Project(rows).attemptRecords ==>
      exists i :: 0 <= i < |rows| && rows[i].event.WorkAttemptStarted? && rows[i].event.run == run
  {
    if rows != [] {
      StartedRunsAreLogged(rows[..|rows| - 1], run);
    }
  }

  lemma AttemptEnds(rows: seq<Row<Key, Event>>, a: Account, item: ItemId, state: AttemptState)
    requires Journal(rows, a) && item in a.open && EndsAttempt(state)
    ensures Journal(Inserted(rows, RowOf(WorkAttemptStateChanged(a.open[item], state))), a.(open := a.open - {item}))
  {
    var e, b := WorkAttemptStateChanged(a.open[item], state), a.(open := a.open - {item});
    var started := Project(rows).attemptRecords.Keys;
    ProjectOneMore(rows, e);
    KeysPersist(rows, e);
    forall i | 0 <= i < |rows| ensures rows[i].key != KeyOf(e) {
      assert RowFits(a, started, rows[i]);
    }
    RowsStillFit(rows, e, a, b, started, started);
  }

  lemma {:induction false} PutNewWave(waves: seq<S.ExecutionWave>, wave: S.ExecutionWave)
    requires forall i :: 0 <= i < |waves| ==> waves[i].number != wave.number
    ensures PutWave(waves, wave) == waves + [wave]
  {
    if waves != [] {
      PutNewWave(waves[1..], wave);
    }
  }

  lemma MoreWavesFit(a: Account, wave: S.ExecutionWave, started: set<RunId>, row: Row<Key, Event>)
    requires RowFits(a, started, row)
    ensures RowFits(a.(waves := a.waves + [wave]), started, row)
  {
  }

  lemma WaveFits(a: Account, wave: S.ExecutionWave, started: set<RunId>)
    requires wave.number == |a.waves| + 1
    ensures RowFits(a.(waves := a.waves + [wave]), started, RowOf(ExecutionWaveStarted(wave.number, wave.base, wave.items)))
  {
  }

  lemma WaveIsNew(rows: seq<Row<Key, Event>>, a: Account, number: nat)
    requires Journal(rows, a) && number > |a.waves|
    ensures !HasKey(rows, WaveKey(number))
  {
  }

  lemma WaveAnnounced(rows: seq<Row<Key, Event>>, a: Account, wave: S.ExecutionWave)
    requires Journal(rows, a) && wave.number == |a.waves| + 1
    ensures Journal(Inserted(rows, RowOf(ExecutionWaveStarted(wave.number, wave.base, wave.items))),
                    a.(waves := a.waves + [wave]))
  {
    hide RowFits;
    var e, b := ExecutionWaveStarted(wave.number, wave.base, wave.items), a.(waves := a.waves + [wave]);
    var started := Project(rows).attemptRecords.Keys;
    ProjectOneMore(rows, e);
    KeysPersist(rows, e);
    WaveIsNew(rows, a, wave.number);
    PutNewWave(Project(rows).waves, S.ExecutionWave(wave.number, wave.base, wave.items, S.Active));
    forall row | RowFits(a, started, row) ensures RowFits(b, started, row) {
      MoreWavesFit(a, wave, started, row);
    }
    WaveFits(a, wave, started);
    RowsStillFit(rows, e, a, b, started, started);
  }

  /** Announcing a wave again is harmless: the row is there and says the same. */
  lemma WaveAnnouncedAgain(rows: seq<Row<Key, Event>>, a: Account, i: nat)
    requires Journal(rows, a) && i < |a.waves|
    ensures var e := ExecutionWaveStarted(a.waves[i].number, a.waves[i].base, a.waves[i].items);
      Inserted(rows, RowOf(e)) == rows
  {
  }

  ghost predicate SameWaves(a: seq<S.ExecutionWave>, b: seq<S.ExecutionWave>) {
    |a| == |b| && forall i :: 0 <= i < |a| ==> SameWave(a[i], b[i].number, b[i].base, b[i].items)
  }

  /** The account does not depend on the states waves are in. */
  lemma WavesRestated(rows: seq<Row<Key, Event>>, a: Account, waves: seq<S.ExecutionWave>)
    requires Journal(rows, a) && SameWaves(a.waves, waves)
    ensures Journal(rows, a.(waves := waves))
  {
  }

  /** The account may be restated where that changes no count of issued attempts. */
  lemma IssuesRestated(rows: seq<Row<Key, Event>>, a: Account, attempts: map<ItemId, Attempt>, owned: set<ItemId>)
    requires Journal(rows, a)
    requires forall item :: Issued(a, item) == Issued(a.(attempts := attempts, owned := owned), item)
    ensures Journal(rows, a.(attempts := attempts, owned := owned))
  {
    var b := a.(attempts := attempts, owned := owned);
    var started := Project(rows).attemptRecords.Keys;
    forall i | 0 <= i < |rows| ensures RowFits(b, started, rows[i]) {
      assert RowFits(a, started, rows[i]);
    }
  }

  /** A run beyond what was issued is not in the log yet. */
  lemma NextRunIsFresh(rows: seq<Row<Key, Event>>, a: Account, run: RunId)
    requires Journal(rows, a) && run.attempt > Issued(a, run.item)
    ensures !HasKey(rows, AttemptKey(run)) && forall i :: 0 <= i < |rows| ==> !StartsAlike(rows[i], run)
  {
  }

  lemma {:induction false} PutNewPrompt(prompts: seq<Prompt>, prompt: Prompt)
    requires PromptFor(prompts, prompt.item).None?
    ensures PutPrompt(prompts, prompt) == prompts + [prompt]
    ensures forall i :: 0 <= i < |prompts| ==> prompts[i].item != prompt.item
  {
    if prompts != [] {
      PutNewPrompt(prompts[1..], prompt);
    }
  }

  lemma {:induction false} PromptIsListed(prompts: seq<Prompt>, item: ItemId)
    ensures PromptFor(prompts, item).Some? ==> Prompt(item, PromptFor(prompts, item).value) in prompts
  {
    if prompts != [] {
      PromptIsListed(prompts[1..], item);
    }
  }

  lemma PromptFits(a: Account, prompt: Prompt, started: set<RunId>, row: Row<Key, Event>)
    requires RowFits(a, started, row)
    ensures RowFits(a.(prompts := a.prompts + [prompt]), started, row)
  {
  }

  lemma MorePromptsMatch(rows: seq<Row<Key, Event>>, more: seq<Row<Key, Event>>, prompts: seq<Prompt>, prompt: Prompt)
    requires PromptsMatch(rows, prompts) && forall i :: 0 <= i < |prompts| ==> prompts[i].item != prompt.item
    requires forall key :: HasKey(rows, key) ==> HasKey(more, key)
    requires HasKey(more, FactKey(PromptSnapshotRecorded(prompt)))
    ensures PromptsMatch(more, prompts + [prompt])
  {
    hide HasKey;
  }

  lemma PromptReproduces(rows: seq<Row<Key, Event>>, a: Account, prompt: Prompt)
    requires Reproduces(Project(rows), a) && !HasKey(rows, FactKey(PromptSnapshotRecorded(prompt)))
    requires PromptFor(a.prompts, prompt.item).None?
    ensures var more := Inserted(rows, RowOf(PromptSnapshotRecorded(prompt)));
      && Reproduces(Project(more), a.(prompts := a.prompts + [prompt]))
      && Project(more).attemptRecords == Project(rows).attemptRecords
  {
    hide HasKey, Inserted, PutPrompt;
    ProjectOneMore(rows, PromptSnapshotRecorded(prompt));
    PutNewPrompt(a.prompts, prompt);
  }

  lemma PromptRecorded(rows: seq<Row<Key, Event>>, a: Account, prompt: Prompt)
    requires Journal(rows, a) && PromptFor(a.prompts, prompt.item).None?
    ensures Journal(Inserted(rows, RowOf(PromptSnapshotRecorded(prompt))), a.(prompts := a.prompts + [prompt]))
  {
    var e, b := PromptSnapshotRecorded(prompt), a.(prompts := a.prompts + [prompt]);
    var started := Project(rows).attemptRecords.Keys;
    PutNewPrompt(a.prompts, prompt);
    forall i | 0 <= i < |rows| ensures rows[i].key != KeyOf(e) {
      assert RowFits(a, started, rows[i]);
    }
    assert RowFits(b, started, RowOf(e));
    hide RowFits, Project, Inserted, PutPrompt, PromptFor, PromptsMatch, Reproduces;
    KeysPersist(rows, e);
    MorePromptsMatch(rows, Inserted(rows, RowOf(e)), a.prompts, prompt);
    PromptReproduces(rows, a, prompt);
    forall row | RowFits(a, started, row) ensures RowFits(b, started, row) {
      PromptFits(a, prompt, started, row);
    }
    RowsStillFit(rows, e, a, b, started, started);
    IssuesStay(Inserted(rows, RowOf(e)), a, b);
  }

  lemma IssuesStay(rows: seq<Row<Key, Event>>, a: Account, b: Account)
    requires a.attempts == b.attempts && a.owned == b.owned && AllStarted(rows, a)
    ensures AllStarted(rows, b)
  {
    assert forall item :: Issued(b, item) == Issued(a, item);
  }

  lemma PromptRecordedAgain(rows: seq<Row<Key, Event>>, a: Account, prompt: Prompt)
    requires Journal(rows, a) && PromptFor(a.prompts, prompt.item) == Some(prompt.text)
    ensures Inserted(rows, RowOf(PromptSnapshotRecorded(prompt))) == rows
  {
    PromptIsListed(a.prompts, prompt.item);
    var i := IndexOf(a.prompts, prompt);
    assert HasKey(rows, FactKey(PromptSnapshotRecorded(a.prompts[i])));
  }

  lemma BaseFits(a: Account, revision: Revision, started: set<RunId>, row: Row<Key, Event>)
    requires RowFits(a, started, row)
    ensures RowFits(a.(revisions := a.revisions + [revision]), started, row)
  {
  }

  lemma BaseReproduces(rows: seq<Row<Key, Event>>, a: Account, revision: Revision)
    requires Reproduces(Project(rows), a) && (HasKey(rows, FactKey(BaseRevisionRefreshed(revision))) <==> revision in a.revisions)
    ensures var more := Inserted(rows, RowOf(BaseRevisionRefreshed(revision)));
      && Reproduces(Project(more), a.(revisions := a.revisions + [revision]))
      && Project(more).attemptRecords == Project(rows).attemptRecords
  {
    hide HasKey, Inserted;
    ProjectOneMore(rows, BaseRevisionRefreshed(revision));
    assert (a.revisions + [revision])[..|a.revisions|] == a.revisions;
  }

  lemma BaseRefreshed(rows: seq<Row<Key, Event>>, a: Account, revision: Revision)
    requires Journal(rows, a)
    ensures Journal(Inserted(rows, RowOf(BaseRevisionRefreshed(revision))), a.(revisions := a.revisions + [revision]))
  {
    var e, b := BaseRevisionRefreshed(revision), a.(revisions := a.revisions + [revision]);
    var started := Project(rows).attemptRecords.Keys;
    forall i | 0 <= i < |rows| ensures rows[i].key == KeyOf(e) ==> revision in a.revisions {
      assert RowFits(a, started, rows[i]);
    }
    assert RowFits(b, started, RowOf(e));
    hide RowFits, Project, Inserted, PromptsMatch, Reproduces;
    KeysPersist(rows, e);
    BaseReproduces(rows, a, revision);
    forall row | RowFits(a, started, row) ensures RowFits(b, started, row) {
      BaseFits(a, revision, started, row);
    }
    RowsStillFit(rows, e, a, b, started, started);
    IssuesStay(Inserted(rows, RowOf(e)), a, b);
    PromptsStay(rows, Inserted(rows, RowOf(e)), a.prompts);
  }

  lemma PromptsStay(rows: seq<Row<Key, Event>>, more: seq<Row<Key, Event>>, prompts: seq<Prompt>)
    requires PromptsMatch(rows, prompts) && forall key :: HasKey(rows, key) ==> HasKey(more, key)
    ensures PromptsMatch(more, prompts)
  {
    hide HasKey;
  }
}
