/** What a whole cycle leaves on record of the items it reconciles. */
module CycleLaws {
  import opened Prelude
  import opened EventLogs
  import opened Gate
  import opened Projections
  import opened Controllers
  import opened Supervisors
  import opened SupervisionLaws
  import opened SupervisedRuns
  import opened AssignmentLaws
  import opened CallLaws
  import Laws = ControllerLaws

  /** What the outcome of a reconciliation puts on record, for the run it is about. */
  function Reported(c: Controller, item: ItemId, outcome: Outcome): Event
    requires item in c.active && (outcome.Observed? ==> Judge(c, item, outcome.observation).Ok?)
  {
    match outcome
    case AuthorityBroken(error) => AuthorityViolated(item, error)
    case WorkspaceLost(code) => ReconciliationFailed(item, code)
    case ObservationFailed(code) => ReconciliationFailed(item, code)
    case Observed(o) =>
      var decision := Judge(c, item, o).value.1;
      GateRecorded(c.active[item].run, decision.status, if decision.failure.Some? then Some(decision.failure.value.code) else None,
                   o.prHeadSha, o.ciHeadSha, o.mergeRevision)
  }

  lemma ReconcilingReports(c: Controller, completed: set<ItemId>, revisions: seq<Revision>, item: ItemId, w: World)
    requires Laws.Live(c, completed, revisions) && item in c.active
    ensures w.outcome(item).Observed? ==> Judge(c, item, w.outcome(item).observation).Ok?
    ensures OnRecord(ReconcileOne(Reply(c, None), item, w).ctrl, Reported(c, item, w.outcome(item)))
  {
    hide Laws.Live, Judge, Refill, HasKey;
    if w.outcome(item).Observed? {
      var o := w.outcome(item).observation;
      Laws.JudgeKeeps(c, completed, revisions, item, o);
      DecisionIsOnRecord(c, item, o);
      var t := Judge(c, item, o).value.0;
      RefillSucceeds(t, completed, revisions, w.nextBase(item), w.launcher);
      LogKeeps(t, Refill(t, w.nextBase(item), w.launcher).ctrl, Reported(c, item, Observed(o)));
    } else {
      FailedReconciliations(c, item, w.outcome(item), w.nextBase(item), w.launcher);
    }
  }

  lemma OneGrows(r: Reply, completed: set<ItemId>, item: ItemId, w: World, max: nat)
    requires Supervised(r.ctrl, completed, max)
    ensures r.ctrl.log <= ReconcileOne(r, item, w).ctrl.log
  {
    hide Laws.Live, Bounded, Reconcile;
    var revisions :| Laws.Live(r.ctrl, completed, revisions);
    ReconcileSucceeds(r.ctrl, completed, revisions, item, w.outcome(item), w.nextBase(item), w.launcher);
  }

  lemma {:induction false} AllGrow(c: Controller, completed: set<ItemId>, items: seq<ItemId>, w: World, max: nat, m: nat, n: nat)
    requires Supervised(c, completed, max) && Distinct(items) && Elems(items) <= c.active.Keys && m <= n <= |items|
    ensures ReconcileAll(c, items[..m], w).ctrl.log <= ReconcileAll(c, items[..n], w).ctrl.log
    decreases n
  {
    hide Supervised, ReconcileOne;
    if m < n {
      AllGrow(c, completed, items, w, max, m, n - 1);
      assert items[..n][..n - 1] == items[..n - 1];
      assert Elems(items[..n - 1]) <= Elems(items);
      ReconcileAllKeeps(c, completed, items[..n - 1], w, max);
      OneGrows(ReconcileAll(c, items[..n - 1], w), completed, items[n - 1], w, max);
    }
  }

  lemma TurnComes(c: Controller, completed: set<ItemId>, items: seq<ItemId>, w: World, max: nat, k: nat)
    requires Supervised(c, completed, max) && Distinct(items) && Elems(items) <= c.active.Keys && k < |items|
    ensures var r, item := ReconcileAll(c, items[..k], w), items[k];
      && Supervised(r.ctrl, completed, max)
      && item in c.active && item in r.ctrl.active && r.ctrl.active[item] == c.active[item]
  {
    hide Supervised, ReconcileAll;
    assert items[k] in Elems(items) && items[k] !in items[..k];
    assert Elems(items[..k]) <= Elems(items);
    ReconcileAllKeeps(c, completed, items[..k], w, max);
  }

  lemma TurnReports(c: Controller, completed: set<ItemId>, items: seq<ItemId>, w: World, max: nat, k: nat)
    requires Supervised(c, completed, max) && Distinct(items) && Elems(items) <= c.active.Keys && k < |items|
    requires ReconcileAll(c, items[..k], w).fault.None?
    ensures var before, item := ReconcileAll(c, items[..k], w).ctrl, items[k];
      && item in c.active && item in before.active && before.active[item] == c.active[item]
      && (w.outcome(item).Observed? ==> Judge(before, item, w.outcome(item).observation).Ok?)
      && OnRecord(ReconcileAll(c, items, w).ctrl, Reported(before, item, w.outcome(item)))
  {
    hide Supervised, ReconcileOne, HasKey, Reported, Judge;
    TurnComes(c, completed, items, w, max, k);
    var r := ReconcileAll(c, items[..k], w);
    OneReports(r, completed, items[k], w, max);
    assert items[..k + 1][..k] == items[..k] && items[..|items|] == items;
    AllGrow(c, completed, items, w, max, k + 1, |items|);
    LogKeeps(ReconcileAll(c, items[..k + 1], w).ctrl, ReconcileAll(c, items, w).ctrl, Reported(r.ctrl, items[k], w.outcome(items[k])));
  }

  /** When an item's turn comes it still has its assignment, and what its reconciliation came to is on record after the cycle. */
  lemma CyclesReport(s: Streams, c: Controller, completed: set<ItemId>, policy: Policy, w: World, k: nat)
    requires Supervised(c, completed, policy.maxAttempts) && Lists(w.listing)
    requires var p := HandOver(c, BatchesOf(s, c, policy, w), policy, w);
      var items := w.listing(p.ctrl.active);
      p.fault.None? && k < |items| && ReconcileAll(p.ctrl, items[..k], w).fault.None?
    ensures var p := HandOver(c, BatchesOf(s, c, policy, w), policy, w).ctrl;
      var item := w.listing(p.active)[k];
      var before := ReconcileAll(p, w.listing(p.active)[..k], w).ctrl;
      && item in p.active && item in before.active && before.active[item] == p.active[item]
      && (w.outcome(item).Observed? ==> Judge(before, item, w.outcome(item).observation).Ok?)
      && OnRecord(RunOnce(s, c, policy, w).ctrl, Reported(before, item, w.outcome(item)))
  {
    hide Supervised, BatchesOf, HandOver, ReconcileAll, HasKey, Reported, Judge;
    var batches := BatchesOf(s, c, policy, w);
    CycleHandsOver(s, c, policy, w, "");
    HandOverKeeps(c, completed, batches, policy, w);
    var p := HandOver(c, batches, policy, w).ctrl;
    TurnReports(p, completed, w.listing(p.active), w, policy.maxAttempts, k);
  }

  lemma OneReports(r: Reply, completed: set<ItemId>, item: ItemId, w: World, max: nat)
    requires Supervised(r.ctrl, completed, max) && item in r.ctrl.active && r.fault.None?
    ensures w.outcome(item).Observed? ==> Judge(r.ctrl, item, w.outcome(item).observation).Ok?
    ensures OnRecord(ReconcileOne(r, item, w).ctrl, Reported(r.ctrl, item, w.outcome(item)))
  {
    hide Laws.Live, Bounded, Reported;
    var revisions :| Laws.Live(r.ctrl, completed, revisions);
    ReconcilingReports(r.ctrl, completed, revisions, item, w);
  }

  /** Every reconciliation before this one went through, and it raises. */
  ghost predicate RaisesAt(c: Controller, items: seq<ItemId>, w: World, k: nat)
    requires k < |items|
  {
    var r := ReconcileAll(c, items[..k], w);
    r.fault.None? && ReconcileOne(r, items[k], w).fault.Some?
  }

  lemma {:induction false} ReconcilingRaises(c: Controller, items: seq<ItemId>, w: World, n: nat)
    requires n <= |items|
    ensures ReconcileAll(c, items[..n], w).fault.Some? <==> exists k :: 0 <= k < n && RaisesAt(c, items, w, k)
    decreases n
  {
    hide ReconcileOne;
    if n > 0 {
      ReconcilingRaises(c, items, w, n - 1);
      assert items[..n][..n - 1] == items[..n - 1] && items[..n][n - 1] == items[n - 1];
      if ReconcileAll(c, items[..n - 1], w).fault.None? && ReconcileAll(c, items[..n], w).fault.Some? {
        assert RaisesAt(c, items, w, n - 1);
      }
    }
  }

  /** A cycle raises exactly when handing over does, or else some reconciliation of the items active then. */
  lemma CyclesRaise(s: Streams, c: Controller, policy: Policy, w: World)
    requires Lists(w.listing)
    ensures var p, r := HandOver(c, BatchesOf(s, c, policy, w), policy, w), RunOnce(s, c, policy, w);
      var items := w.listing(p.ctrl.active);
      && (p.fault.Some? ==> r == p)
      && (p.fault.None? ==>
            && r.failures == p.failures && r.retried == p.retried
            && (r.fault.Some? <==> exists k :: 0 <= k < |items| && RaisesAt(p.ctrl, items, w, k)))
  {
    hide HandOver, BatchesOf, RaisesAt, ReconcileAll;
    var p := HandOver(c, BatchesOf(s, c, policy, w), policy, w);
    var items := w.listing(p.ctrl.active);
    ReconcilingRaises(p.ctrl, items, w, |items|);
    assert items[..|items|] == items;
  }
}
