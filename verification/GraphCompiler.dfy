/** Compiling raw tickets into a dependency graph, and what a compiled graph is good for. */
module GraphCompiler {
  import opened Prelude
  import opened DependencyGraphs
  import opened Contracts
  import L = ContractLaws
  import I = Identity
  import S = Scheduling
  import SL = SimulationLaws
  import SchedLaws = SchedulingLaws
  import Sim = Simulation
  import G = Gate

  datatype CompileError =
    | Invalid(issues: seq<Issue>)
    | TypeError
    | DuplicateId
    | MissingDependencies(item: ItemId, missing: set<ItemId>)
    | Cyclic(cycle: seq<ItemId>)

  function Ids(items: seq<WorkItem>): seq<ItemId> {
    MapAll(items, L.IdOf)
  }

  function Accept(raw: Fields): WorkItem {
    Contracts.Read(Object(raw))
  }

  /** The work items a list of accepted tickets stands for. */
  function Items(raws: seq<Fields>): seq<WorkItem> {
    MapAll(raws, Accept)
  }

  function GraphOf(items: seq<WorkItem>): DependencyGraph
    requires Distinct(Ids(items))
  {
    var ids := Ids(items);
    GraphData(ids, map id | id in Elems(ids) :: items[IndexOf(ids, id)].blockedBy)
  }

  ghost predicate AllAccepted(raws: seq<Fields>, rules: TitleRules, n: nat) {
    forall i :: 0 <= i < n && i < |raws| ==> WellFormed(raws[i], rules)
  }

  function Missing(items: seq<WorkItem>, i: nat): set<ItemId>
    requires i < |items|
  {
    Elems(items[i].blockedBy) - Elems(Ids(items))
  }

  /** Every ticket is well formed, ids are unique, blockers exist and do not form a cycle. */
  ghost predicate Compiles(raws: seq<Fields>, rules: TitleRules) {
    && AllAccepted(raws, rules, |raws|)
    && Distinct(Ids(Items(raws)))
    && Closed(GraphOf(Items(raws)))
    && Acyclic(GraphOf(Items(raws)))
  }

  /** What each error reports, checks in their order. */
  ghost predicate Explains(raws: seq<Fields>, rules: TitleRules, error: CompileError) {
    var items := Items(raws);
    match error
    case Invalid(issues) =>
      exists i :: 0 <= i < |raws| && AllAccepted(raws, rules, i) && Validation(raws[i], rules) == Rejected(issues)
    case TypeError =>
      exists i :: 0 <= i < |raws| && AllAccepted(raws, rules, i) && Validation(raws[i], rules).Crashed?
    case DuplicateId => AllAccepted(raws, rules, |raws|) && !Distinct(Ids(items))
    case MissingDependencies(id, missing) =>
      && AllAccepted(raws, rules, |raws|) && Distinct(Ids(items))
      && exists i :: 0 <= i < |items| && items[i].id == id && missing == Missing(items, i) != {}
           && forall j :: 0 <= j < i ==> Missing(items, j) == {}
    case Cyclic(cycle) =>
      && AllAccepted(raws, rules, |raws|) && Distinct(Ids(items)) && Closed(GraphOf(items))
      && IsCycle(GraphOf(items), cycle)
  }

  lemma BlockersOf(items: seq<WorkItem>, i: nat)
    requires Distinct(Ids(items)) && i < |items|
    ensures items[i].id in GraphOf(items).blockers
    ensures GraphOf(items).blockers[items[i].id] == items[i].blockedBy
  {
  }

  lemma NothingLeft<T>(a: set<T>, b: set<T>)
    ensures a - b == {} <==> a <= b
  {
    assert a - b == {} ==> forall x :: x in a && x !in b ==> x in a - b;
  }

  lemma NothingMissingIsClosed(items: seq<WorkItem>)
    requires Distinct(Ids(items))
    ensures Closed(GraphOf(items)) <==> forall i :: 0 <= i < |items| ==> Missing(items, i) == {}
  {
    var g, ids := GraphOf(items), Ids(items);
    forall i | 0 <= i < |items|
      ensures Missing(items, i) == {} <==> Elems(g.blockers[items[i].id]) <= g.blockers.Keys
    {
      BlockersOf(items, i);
      NothingLeft(Elems(items[i].blockedBy), Elems(ids));
    }
    forall id | id in g.blockers ensures exists i :: 0 <= i < |items| && items[i].id == id {
      assert items[IndexOf(ids, id)].id == id;
    }
  }

  method ValidateAll(raws: seq<Fields>, rules: TitleRules) returns (r: Result<seq<WorkItem>, CompileError>)
    ensures r.Ok? <==> AllAccepted(raws, rules, |raws|)
    ensures r.Ok? ==> r.value == Items(raws)
    ensures r.Err? ==> Explains(raws, rules, r.error)
  {
    hide Validation, WellFormed, Contracts.Read;
    var items := [];
    for i := 0 to |raws|
      invariant AllAccepted(raws, rules, i) && items == Items(raws[..i])
    {
      var outcome := ValidateWorkItem(raws[i], rules);
      ValidationIsExact(raws[i], rules);
      match outcome
      case Rejected(issues) => return Err(Invalid(issues));
      case Crashed => return Err(TypeError);
      case Accepted(item) =>
        assert raws[..i + 1] == raws[..i] + [raws[i]];
        MapOneMore(raws[..i], raws[i], Accept);
        items := items + [item];
    }
    assert raws[..|raws|] == raws;
    r := Ok(items);
  }

  /** Compilation succeeds exactly on tickets that form a graph that can be delivered. */
  method CompileDependencyGraph(raws: seq<Fields>, rules: TitleRules) returns (r: Result<DependencyGraph, CompileError>)
    ensures r.Ok? <==> Compiles(raws, rules)
    ensures r.Ok? ==> r.value == GraphOf(Items(raws))
    ensures r.Err? ==> Explains(raws, rules, r.error)
  {
    hide WellFormed, Validation, Contracts.Read, Closed, IsCycle;
    var validated := ValidateAll(raws, rules);
    if validated.Err? {
      return Err(validated.error);
    }
    var items := validated.value;
    DistinctCardinality(Ids(items));
    if |Elems(Ids(items))| != |items| {
      return Err(DuplicateId);
    }
    NothingMissingIsClosed(items);
    for i := 0 to |items|
      invariant forall j :: 0 <= j < i ==> Missing(items, j) == {}
    {
      var missing := Missing(items, i);
      if missing != {} {
        return Err(MissingDependencies(items[i].id, missing));
      }
    }
    var cycle := FindCycle(GraphOf(items));
    return if cycle.Some? then Err(Cyclic(cycle.value)) else Ok(GraphOf(items));
  }

  lemma CompiledIdsAreValid(raws: seq<Fields>, rules: TitleRules)
    requires Compiles(raws, rules)
    ensures forall id :: id in GraphOf(Items(raws)).blockers ==> I.IsItemId(id)
  {
    hide WellFormed, Contracts.Read, L.IsValid;
    var items := Items(raws);
    forall id | id in GraphOf(items).blockers ensures I.IsItemId(id) {
      var i := IndexOf(Ids(items), id);
      L.ReadIsValid(raws[i], rules);
      ValidId(items[i], rules);
    }
  }

  lemma ValidId(item: WorkItem, rules: TitleRules)
    requires L.IsValid(item, rules)
    ensures I.IsItemId(item.id)
  {
  }

  /** Everything is released, or something is in flight or dispatchable, if need be after a refresh. */
  ghost predicate HasNextMove(h: SL.History, revision: Revision) {
    || h.sim.sched.graph.blockers.Keys <= h.sim.sched.released
    || SchedLaws.InFlight(h.sim.sched) != {}
    || Sim.Preview(h.sim) != []
    || (Sim.CanRefresh(h.sim) && Sim.AfterRefresh(h.sim, revision).Ok?
        && Sim.Preview(Sim.AfterRefresh(h.sim, revision).value) != [])
  }

  /** No two attempts issued so far share a worktree, a branch or a run id. */
  ghost predicate AttemptsAreApart(h: SL.History) {
    forall i, j :: 0 <= i < j < |h.issued| ==>
      && h.issued[i].worktreePath != h.issued[j].worktreePath
      && h.issued[i].branchRef != h.issued[j].branchRef
      && RunText(h.issued[i]) != RunText(h.issued[j])
  }

  function RunText(d: G.Dispatch): string {
    I.RunIdText(d.item, d.base, d.attempt)
  }

  lemma SoundHistoriesMove(h: SL.History, completed: set<ItemId>, revision: Revision)
    requires SL.Sound(h, completed) && Closed(h.sim.sched.graph) && Acyclic(h.sim.sched.graph)
    requires SL.CleanNames(h)
    ensures HasNextMove(h, revision) && AttemptsAreApart(h)
  {
    hide SL.Sound, SL.CleanNames;
    SL.DeliveryNeverDeadlocks(h, completed, revision);
    SL.LayersNeverDisagree(h.sim, completed, "", revision) by {
      SoundIsAligned(h, completed);
    }
    forall i, j | 0 <= i < j < |h.issued|
      ensures h.issued[i].worktreePath != h.issued[j].worktreePath && h.issued[i].branchRef != h.issued[j].branchRef
      ensures RunText(h.issued[i]) != RunText(h.issued[j])
    {
      SL.AttemptIdentity(h, completed, i, j);
    }
  }

  lemma SoundIsAligned(h: SL.History, completed: set<ItemId>)
    requires SL.Sound(h, completed)
    ensures SL.Aligned(h.sim, completed)
  {
  }

  /** Delivering compiled tickets, whatever is called in whatever order, never deadlocks and never mixes up attempts. */
  lemma CompiledTicketsAreDeliverable(raws: seq<Fields>, rules: TitleRules, policy: S.Policy, base: Revision,
                                      repository: string, workspaceRoot: string, review: G.ReviewPolicy,
                                      completed: set<ItemId>, actions: seq<SL.Action>, revision: Revision)
    requires Compiles(raws, rules) && I.NoColon(base) && SL.CleanRevisions(actions)
    ensures var start := SL.Start(GraphOf(Items(raws)), policy, base, repository, workspaceRoot, review, completed);
      HasNextMove(SL.Play(start, actions), revision) && AttemptsAreApart(SL.Play(start, actions))
  {
    hide SL.Sound, SL.Play, WellFormed, Contracts.Read, GraphOf, HasNextMove, AttemptsAreApart, Closed, Acyclic;
    var graph := GraphOf(Items(raws));
    var start := SL.Start(graph, policy, base, repository, workspaceRoot, review, completed);
    CompiledIdsAreValid(raws, rules);
    SL.EveryRunIsSound(graph, policy, base, repository, workspaceRoot, review, completed, actions);
    SL.PlayClean(start, actions);
    GraphStays(start, actions);
    SoundHistoriesMove(SL.Play(start, actions), completed, revision);
  }

  lemma GraphIsKept(h: SL.History, a: SL.Action)
    ensures SL.Advance(h, a).sim.sched.graph == h.sim.sched.graph
  {
    if !a.Dispatching? {
      SL.OthersKeepNames(h, a);
    }
  }

  lemma {:induction false} GraphStays(h: SL.History, actions: seq<SL.Action>)
    ensures SL.Play(h, actions).sim.sched.graph == h.sim.sched.graph
    decreases actions
  {
    if actions != [] {
      GraphIsKept(h, actions[0]);
      GraphStays(SL.Advance(h, actions[0]), actions[1..]);
    }
  }
}
