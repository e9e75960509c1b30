/** When a runtime failure is retried: the conditions a reader of the batch can check, and nothing else. */
module RetryLaws {
  import opened Prelude
  import opened EventLogs
  import opened Gate
  import opened Projections
  import opened Controllers
  import opened Supervisors
  import opened SupervisionLaws
  import opened AssignmentLaws
  import Laws = ControllerLaws
  import Sim = Simulation
  import S = Scheduling

  // What an event means.

  /** A runtime event is a failure for one of three reasons, and every such failure may be retried. */
  lemma RuntimeVerdictsAreExact(e: AgentEvent)
    ensures var verdict := ClassifyRuntimeEvent(e);
      && (verdict == Some(FailureRecord(Operational("agent_timeout"), true)) <==> e == RuntimeTimeout)
      && (verdict == Some(FailureRecord(Operational("authority_violation"), true)) <==> e == AuthorityViolation)
      && (verdict == Some(FailureRecord(Operational("runtime_failed"), true)) <==>
            e.RuntimeExited? && e.returncode.Some? && e.returncode.value != 0)
      && (verdict.None? <==> e.OtherEvent? || (e.RuntimeExited? && (e.returncode.None? || e.returncode.value == 0)))
  {
  }

  /** What the skill checks find comes first; an event they have nothing to say about speaks for itself. */
  lemma VerdictsAreExact(events: seq<AgentEvent>, findings: Findings, i: nat, f: FailureRecord)
    requires i < |events|
    ensures Verdict(events, findings, i) == Some(f) <==>
      findings(i) == Some(f) || (findings(i).None? && ClassifyRuntimeEvent(events[i]) == Some(f))
  {
  }

  /** The batch is judged by this failure: the verdict on its first event that has one. */
  ghost predicate JudgedBy(events: seq<AgentEvent>, findings: Findings, f: FailureRecord) {
    exists k :: IsFirst(events, findings, 0, k) && Verdict(events, findings, k) == Some(f)
  }

  lemma OnlyOneIsFirst(events: seq<AgentEvent>, findings: Findings, k: nat, m: nat)
    requires IsFirst(events, findings, 0, k) && Verdict(events, findings, k).Some?
    requires IsFirst(events, findings, 0, m) && Verdict(events, findings, m).Some?
    ensures k == m
  {
    hide Verdict;
  }

  lemma JudgedByTheFirst(events: seq<AgentEvent>, findings: Findings, f: FailureRecord)
    ensures FirstFailure(events, findings, 0) == Some(f) <==> JudgedBy(events, findings, f)
  {
    hide FirstFailure, Verdict;
    if JudgedBy(events, findings, f) {
      var k :| IsFirst(events, findings, 0, k) && Verdict(events, findings, k) == Some(f);
      assert FirstFailure(events, findings, 0).Some?;
      var m :| IsFirst(events, findings, 0, m) && Verdict(events, findings, m) == FirstFailure(events, findings, 0);
      OnlyOneIsFirst(events, findings, k, m);
    }
  }

  /** Retries are on, this failure allows one, and the attempt is not the last. */
  predicate AsksForRetry(policy: Policy, f: FailureRecord, attempt: nat) {
    policy.retryFailures && f.retryable && attempt < policy.maxAttempts
  }

  /** What the platform and the caller's checks say. */
  predicate RetryPasses(c: Controller, item: ItemId, w: World) {
    w.destroyed(item).None? && CanRetry(c, item, None, w.launcher)
  }

  lemma MarkKeepsPrompts(c: Controller, item: ItemId, code: FailureCode)
    ensures MarkRuntimeFailure(c, item, code).prompts == c.prompts
  {
  }

  lemma ObservingKeepsChecks(c: Controller, item: ItemId, events: seq<AgentEvent>, findings: Findings, w: World)
    ensures RetryPasses(ObserveRuntimeEvents(c, item, events, findings), item, w) <==> RetryPasses(c, item, w)
  {
    hide MarkRuntimeFailure, FirstFailure, Admitted, S.Frontier, Sim.AfterRetry;
    var failure := FirstFailure(events, findings, 0);
    ObservingLeaves(c, item, events, findings);
    if failure.Some? {
      MarkKeepsPrompts(c, item, failure.value.code);
    }
  }

  lemma RunIsDispatch(c: Controller, completed: set<ItemId>, max: nat, item: ItemId)
    requires Supervised(c, completed, max) && item in c.active
    ensures c.active[item].run.attempt == c.active[item].dispatch.attempt
  {
    hide Bounded;
    var revisions :| Laws.Live(c, completed, revisions);
    LiveIsLinked(c, completed, revisions);
    Laws.ActiveIsLive(c, completed, item);
  }

  /** What a retry of an active item comes to. */
  lemma RetryComesTo(c: Controller, completed: set<ItemId>, item: ItemId, w: World, max: nat)
    requires Supervised(c, completed, max) && item in c.active && c.active[item].dispatch.attempt < max
    ensures var r, s, a := Retry(c, item, None, w.destroyed(item), w.launcher), c.sim.sched, c.active[item].dispatch;
      && (r.fault.None? <==> RetryPasses(c, item, w))
      && (RetryPasses(c, item, w) ==>
            && (item in r.ctrl.active <==> s.policy.ContinuousFrontier? || s.activeWave == {item})
            && (item in r.ctrl.active ==>
                  && r.ctrl.active[item].run == RunId(item, s.base, a.attempt + 1)
                  && r.ctrl.active[item].dispatch.attempt == a.attempt + 1))
  {
    hide Laws.Live, Bounded, Retry, CanRetry;
    RunIsDispatch(c, completed, max, item);
    BoundedRetryKeeps(c, completed, item, w.destroyed(item), w.launcher, max);
    if w.destroyed(item).None? {
      var revisions :| Laws.Live(c, completed, revisions);
      RetryReplaces(c, completed, revisions, item, None, w.launcher);
      var t := Retry(c, item, None, None, w.launcher).ctrl;
      if item in t.active {
        RunIsDispatch(t, completed, max, item);
      }
    } else {
      KeptIsRefused(c, item, w.destroyed(item).value, w.launcher);
    }
  }

  lemma KeptIsRefused(c: Controller, item: ItemId, code: FailureCode, launcher: Launcher)
    ensures Retry(c, item, None, Some(code), launcher).fault.Some?
  {
  }

  /** One batch of an active item, judged by a failure. */
  lemma FailureIsHandled(p: Progress, completed: set<ItemId>, batch: Batch, policy: Policy, w: World, f: FailureRecord)
    requires Supervised(p.ctrl, completed, policy.maxAttempts) && batch.item in p.ctrl.active && p.fault.None?
    requires JudgedBy(batch.events, w.findings(batch.item), f)
    ensures var q, item, s := HandOne(p, batch, policy, w), batch.item, p.ctrl.sim.sched;
      var a := p.ctrl.active[item];
      && q.failures == p.failures[item := f]
      && if !AsksForRetry(policy, f, a.dispatch.attempt) then
           q.fault.None? && q.retried == p.retried && item in q.ctrl.active && q.ctrl.active[item] == a && q.ctrl.sim == p.ctrl.sim
         else if !RetryPasses(p.ctrl, item, w) then q.fault.Some? && q.retried == p.retried
         else
           && q.fault.None? && q.retried == p.retried + [item]
           && (item in q.ctrl.active <==> s.policy.ContinuousFrontier? || s.activeWave == {item})
           && (item in q.ctrl.active ==>
                 && q.ctrl.active[item].run == RunId(item, s.base, a.dispatch.attempt + 1)
                 && q.ctrl.active[item].dispatch.attempt == a.dispatch.attempt + 1)
  {
    hide Supervised, ObserveRuntimeEvents, FirstFailure, JudgedBy, Retry, RetryPasses;
    var item, findings := batch.item, w.findings(batch.item);
    var c := ObserveRuntimeEvents(p.ctrl, item, batch.events, findings);
    JudgedByTheFirst(batch.events, findings, f);
    ObservingLeaves(p.ctrl, item, batch.events, findings);
    ObservingKeeps(p.ctrl, completed, item, batch.events, findings, policy.maxAttempts);
    ObservingKeepsChecks(p.ctrl, item, batch.events, findings, w);
    if AsksForRetry(policy, f, c.active[item].dispatch.attempt) {
      RetryComesTo(c, completed, item, w, policy.maxAttempts);
    }
  }

  /** A batch in which nothing failed changes nothing. */
  lemma NothingIsHandled(p: Progress, batch: Batch, policy: Policy, w: World)
    requires forall k :: 0 <= k < |batch.events| ==> Verdict(batch.events, w.findings(batch.item), k).None?
    ensures HandOne(p, batch, policy, w) == p
  {
  }

  // Whole hand-overs.

  /** The batch is reached, and is judged by a failure that is to be retried and can be. */
  ghost predicate RetriedAt(c: Controller, batches: seq<Batch>, policy: Policy, w: World, i: nat)
    requires i < |batches|
  {
    var before, item := HandOver(c, batches[..i], policy, w), batches[i].item;
    && before.fault.None? && item in c.active && RetryPasses(before.ctrl, item, w)
    && exists f :: JudgedBy(batches[i].events, w.findings(item), f) && AsksForRetry(policy, f, c.active[item].dispatch.attempt)
  }

  lemma HandOverStep(c: Controller, batches: seq<Batch>, policy: Policy, w: World, i: nat)
    requires i < |batches|
    ensures var p := HandOver(c, batches[..i], policy, w);
      HandOver(c, batches[..i + 1], policy, w) == if p.fault.Some? then p else HandOne(p, batches[i], policy, w)
  {
    assert batches[..i + 1][..i] == batches[..i] && batches[..i + 1][i] == batches[i];
  }

  lemma StepRetries(c: Controller, completed: set<ItemId>, batches: seq<Batch>, policy: Policy, w: World, i: nat)
    requires Supervised(c, completed, policy.maxAttempts) && OneBatchEach(batches) && ItemsIn(batches) <= c.active.Keys
    requires i < |batches|
    ensures var p, q := HandOver(c, batches[..i], policy, w), HandOver(c, batches[..i + 1], policy, w);
      q.retried == p.retried + if RetriedAt(c, batches, policy, w, i) then [batches[i].item] else []
  {
    hide Supervised, HandOver, HandOne, RetryPasses, JudgedBy, Verdict;
    var p := HandOver(c, batches[..i], policy, w);
    HandOverStep(c, batches, policy, w, i);
    HandOverPrefix(c, completed, batches, policy, w, i);
    NextBatchIsActive(c, completed, batches, policy, w, i);
    var failure := FirstFailure(batches[i].events, w.findings(batches[i].item), 0);
    if p.fault.None? {
      if failure.None? {
        NothingIsHandled(p, batches[i], policy, w);
        forall f ensures !JudgedBy(batches[i].events, w.findings(batches[i].item), f) {
          JudgedByTheFirst(batches[i].events, w.findings(batches[i].item), f);
        }
      } else {
        forall f ensures JudgedBy(batches[i].events, w.findings(batches[i].item), f) <==> failure == Some(f) {
          JudgedByTheFirst(batches[i].events, w.findings(batches[i].item), f);
        }
        FailureIsHandled(p, completed, batches[i], policy, w, failure.value);
      }
    }
  }

  lemma HandOverPrefix(c: Controller, completed: set<ItemId>, batches: seq<Batch>, policy: Policy, w: World, i: nat)
    requires Supervised(c, completed, policy.maxAttempts) && OneBatchEach(batches) && ItemsIn(batches) <= c.active.Keys
    requires i <= |batches|
    ensures Supervised(HandOver(c, batches[..i], policy, w).ctrl, completed, policy.maxAttempts)
  {
    hide Supervised, HandOver;
    assert ItemsIn(batches[..i]) <= ItemsIn(batches) by {
      assert forall k :: 0 <= k < i ==> batches[..i][k].item == batches[k].item && batches[k].item in ItemsIn(batches);
    }
    HandOverKeeps(c, completed, batches[..i], policy, w);
  }

  /** An item is reported as retried exactly when its batch is reached and its failure is to be retried and can be. */
  lemma {:induction false} RetriesAreExact(c: Controller, completed: set<ItemId>, batches: seq<Batch>, policy: Policy, w: World,
                                           item: ItemId, n: nat)
    requires Supervised(c, completed, policy.maxAttempts) && OneBatchEach(batches) && ItemsIn(batches) <= c.active.Keys
    requires n <= |batches|
    ensures item in HandOver(c, batches[..n], policy, w).retried <==>
      exists i :: 0 <= i < n && batches[i].item == item && RetriedAt(c, batches, policy, w, i)
    decreases n
  {
    hide Supervised, HandOver, RetriedAt;
    if n == 0 {
      NothingHandedOver(c, batches[..0], policy, w);
    } else {
      RetriesAreExact(c, completed, batches, policy, w, item, n - 1);
      StepRetries(c, completed, batches, policy, w, n - 1);
    }
  }

  lemma NothingHandedOver(c: Controller, batches: seq<Batch>, policy: Policy, w: World)
    requires batches == []
    ensures HandOver(c, batches, policy, w) == Progress(c, map[], [], None)
  {
  }

  /** What the hand-over of one batch leaves of its item is still there when the last batch has been handed over. */
  lemma {:induction false} HandledStays(c: Controller, completed: set<ItemId>, batches: seq<Batch>, policy: Policy, w: World,
                                        i: nat, n: nat)
    requires Supervised(c, completed, policy.maxAttempts) && OneBatchEach(batches) && ItemsIn(batches) <= c.active.Keys
    requires i < n <= |batches|
    ensures var item, q := batches[i].item, HandOver(c, batches[..i + 1], policy, w).ctrl;
      var end := HandOver(c, batches[..n], policy, w).ctrl;
      item in q.active ==> item in end.active && end.active[item] == q.active[item]
    decreases n
  {
    hide Supervised, HandOver, HandOne;
    if i + 1 < n {
      HandledStays(c, completed, batches, policy, w, i, n - 1);
      var p := HandOver(c, batches[..n - 1], policy, w);
      HandOverStep(c, batches, policy, w, n - 1);
      if p.fault.None? {
        HandOverPrefix(c, completed, batches, policy, w, n - 1);
        NextBatchIsActive(c, completed, batches, policy, w, n - 1);
        HandOneKeeps(p, completed, batches[n - 1], policy, w);
      }
    }
  }

  /** The cycle's batch of an item that failed, at its position. */
  ghost predicate FailedAt(s: Streams, c: Controller, policy: Policy, w: World, i: nat, item: ItemId, f: FailureRecord)
    requires Lists(w.listing)
  {
    var batches := BatchesOf(s, c, policy, w);
    && i < |batches| && batches[i].item == item && JudgedBy(batches[i].events, w.findings(item), f)
    && HandOver(c, batches[..i], policy, w).fault.None?
  }

  /**
   * What a cycle does about a failure. With retries on, a failure that allows one and an attempt below the bound, the item is
   * reported as retried exactly when its workspace is gone and the caller's checks pass, and is then on its next attempt, or
   * waits for its barrier wave. Otherwise it keeps its assignment, and is not reported.
   */
  lemma CyclesRetry(s: Streams, c: Controller, completed: set<ItemId>, policy: Policy, w: World, i: nat, item: ItemId,
                    f: FailureRecord)
    requires Supervised(c, completed, policy.maxAttempts) && Lists(w.listing) && FailedAt(s, c, policy, w, i, item, f)
    ensures var batches := BatchesOf(s, c, policy, w);
      var before, end := HandOver(c, batches[..i], policy, w).ctrl, HandOver(c, batches, policy, w);
      var asked := item in c.active && AsksForRetry(policy, f, c.active[item].dispatch.attempt);
      && item in c.active && end.retried == RunOnce(s, c, policy, w).retried
      && (item in end.retried <==> asked && RetryPasses(before, item, w))
      && (!asked ==> item in end.ctrl.active && end.ctrl.active[item] == c.active[item])
      && (item in end.retried && (before.sim.sched.policy.ContinuousFrontier? || before.sim.sched.activeWave == {item}) ==>
            && item in end.ctrl.active
            && end.ctrl.active[item].dispatch.attempt == c.active[item].dispatch.attempt + 1
            && end.ctrl.active[item].run == RunId(item, before.sim.sched.base, c.active[item].dispatch.attempt + 1))
  {
    hide Supervised, BatchesOf, HandOver, HandOne, ReconcileAll, RetryPasses, JudgedBy;
    var batches := BatchesOf(s, c, policy, w);
    CycleHandsOver(s, c, policy, w, item);
    assert batches[..|batches|] == batches;
    HandOverPrefix(c, completed, batches, policy, w, i);
    NextBatchIsActive(c, completed, batches, policy, w, i);
    HandOverStep(c, batches, policy, w, i);
    FailureIsHandled(HandOver(c, batches[..i], policy, w), completed, batches[i], policy, w, f);
    HandledStays(c, completed, batches, policy, w, i, |batches|);
    RetriesAreExact(c, completed, batches, policy, w, item, |batches|);
    forall k | 0 <= k < |batches| && batches[k].item == item ensures k == i {
    }
    forall g | JudgedBy(batches[i].events, w.findings(item), g) ensures g == f {
      JudgedByTheFirst(batches[i].events, w.findings(item), f);
      JudgedByTheFirst(batches[i].events, w.findings(item), g);
    }
  }
}
