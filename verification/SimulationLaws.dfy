/** What every run of the simulator keeps: agreement with its scheduler, evidence and attempt identity. */
module SimulationLaws {
  import opened Prelude
  import opened DependencyGraphs
  import opened Gate
  import opened Identity
  import opened Simulation
  import S = Scheduling
  import L = SchedulingLaws

  datatype Action =
    | Dispatching
    | Claim(id: ItemId, text: string)
    | Observe(id: ItemId, observation: DeliveryObservation)
    | Evaluate(id: ItemId)
    | Refresh(revision: Revision)
    | Retry(id: ItemId)
    | Cancel(id: ItemId, reason: string)

  function Kept(r: Result<Sim, Fault>, s: Sim): Sim {
    if r.Ok? then r.value else s
  }

  /** One call; a call that raises leaves the simulator as it was. */
  function Step(s: Sim, a: Action): Sim {
    match a
    case Dispatching => AfterDispatch(s)
    case Claim(id, text) => AfterClaim(s, id, text)
    case Observe(id, observation) => Kept(AfterObserve(s, id, observation), s)
    case Evaluate(id) => var r := AfterEvaluate(s, id); if r.Ok? then r.value.0 else s
    case Refresh(revision) => Kept(AfterRefresh(s, revision), s)
    case Retry(id) => Kept(AfterRetry(s, id), s)
    case Cancel(id, reason) => Kept(AfterCancel(s, id, reason), s)
  }

  /** The two layers name the same dispatched items and the same active wave. */
  ghost predicate SameOwnership(s: Sim) {
    && s.dispatched.Keys == s.sched.dispatched
    && s.activeWave == s.sched.activeWave
    && s.decisions.Keys <= s.observations.Keys <= s.dispatched.Keys
  }

  /** Among dispatched items, released means approved by the gate. */
  ghost predicate ReleasedMeansApproved(s: Sim) {
    forall id :: id in s.dispatched ==> (id in s.sched.released <==> IsApproved(s, id))
  }

  /** A dispatch names its item's current attempt and, in flight under the barrier, the current base. */
  ghost predicate DispatchesAreCurrent(s: Sim) {
    forall id :: id in s.dispatched ==>
      && s.dispatched[id] == DispatchFor(s.repository, s.root, id, s.dispatched[id].base, AttemptNumber(s.attempts, id))
      && (s.sched.policy.WaveBarrier? && id !in s.sched.released ==> s.dispatched[id].base == s.sched.base)
  }

  ghost predicate Mirrors(s: Sim) {
    SameOwnership(s) && ReleasedMeansApproved(s) && DispatchesAreCurrent(s)
  }

  /** Only items of the graph are ever numbered. */
  ghost predicate NumbersItems(s: Sim) {
    s.attempts.Keys <= s.sched.graph.blockers.Keys
  }

  ghost predicate Aligned(s: Sim, completed: set<ItemId>) {
    L.Consistent(s.sched, completed) && Mirrors(s) && NumbersItems(s)
  }

  /** Nothing is in flight when the barrier lets a frontier through. */
  lemma OpenBarrierIsClear(sched: S.Schedule)
    requires L.Barrier(sched) && sched.policy.WaveBarrier? && S.Frontier(sched) != []
    ensures sched.dispatched <= sched.released
  {
    assert forall id :: id in sched.dispatched && id !in sched.released ==> id in L.InFlight(sched);
  }

  lemma DispatchOwns(s: Sim)
    requires Mirrors(s)
    ensures SameOwnership(AfterDispatch(s))
  {
  }

  lemma DispatchValues(s: Sim, id: ItemId)
    requires Mirrors(s) && id in AfterDispatch(s).dispatched
    ensures AfterDispatch(s).dispatched[id] == if id in S.Frontier(s.sched) then Assigned(s, id) else s.dispatched[id]
    ensures id in S.Frontier(s.sched) ==> id !in s.dispatched && id !in s.sched.released && !IsApproved(s, id)
    ensures id !in S.Frontier(s.sched) ==> id in s.dispatched
    ensures L.Barrier(s.sched) && s.sched.policy.WaveBarrier? && id !in s.sched.released
      ==> (id in S.Frontier(s.sched) || S.Frontier(s.sched) == [])
  {
    L.FrontierItems(s.sched);
    if L.Barrier(s.sched) && s.sched.policy.WaveBarrier? && S.Frontier(s.sched) != [] {
      OpenBarrierIsClear(s.sched);
    }
  }

  lemma DispatchMirrors(s: Sim)
    requires Mirrors(s) && L.Barrier(s.sched)
    ensures Mirrors(AfterDispatch(s))
  {
    var t := AfterDispatch(s);
    DispatchOwns(s);
    forall id | id in t.dispatched
      ensures id in t.sched.released <==> IsApproved(t, id)
      ensures t.dispatched[id]
              == DispatchFor(t.repository, t.root, id, t.dispatched[id].base, AttemptNumber(t.attempts, id))
      ensures t.sched.policy.WaveBarrier? && id !in t.sched.released ==> t.dispatched[id].base == t.sched.base
    {
      DispatchValues(s, id);
    }
  }

  lemma DecisionMirrors(s: Sim, id: ItemId, decision: GateDecision, sched: S.Schedule, events: seq<Event>)
    requires Mirrors(s) && id in s.observations && id !in s.decisions
    requires sched.dispatched == s.sched.dispatched && sched.activeWave == s.sched.activeWave
    requires sched.base == s.sched.base && sched.policy == s.sched.policy
    requires sched.released == s.sched.released + if decision.status.Approved? then {id} else {}
    ensures Mirrors(s.(decisions := s.decisions[id := decision], sched := sched, events := events))
  {
  }

  lemma EvaluateMirrors(s: Sim, id: ItemId)
    requires Mirrors(s)
    ensures AfterEvaluate(s, id).Ok? && Mirrors(AfterEvaluate(s, id).value.0)
  {
    if id !in s.decisions && id in s.observations {
      var (t, decision) := AfterEvaluate(s, id).value;
      DecisionMirrors(s, id, decision, t.sched, t.events);
    }
  }

  lemma RefreshMirrors(s: Sim, revision: Revision)
    requires Mirrors(s) && L.Barrier(s.sched)
    ensures CanRefresh(s) <==> S.AfterRefresh(s.sched, revision).Ok?
    ensures AfterRefresh(s, revision).Ok? ==> Mirrors(AfterRefresh(s, revision).value)
  {
    assert forall id :: id in s.sched.dispatched && id !in s.sched.released ==> id in L.InFlight(s.sched);
  }

  lemma RetryMirrors(s: Sim, id: ItemId)
    requires Mirrors(s) && AfterRetry(s, id).Ok?
    ensures Mirrors(AfterRetry(s, id).value)
  {
  }

  lemma CancelMirrors(s: Sim, id: ItemId, reason: string)
    requires Mirrors(s) && AfterCancel(s, id, reason).Ok?
    ensures Mirrors(AfterCancel(s, id, reason).value)
  {
  }

  lemma ObserveMirrors(s: Sim, id: ItemId, observation: DeliveryObservation)
    requires Mirrors(s) && id in s.dispatched
    ensures Mirrors(AfterObserve(s, id, observation).value)
  {
  }

  lemma StepMirrors(s: Sim, a: Action)
    requires Mirrors(s) && L.Barrier(s.sched)
    ensures Mirrors(Step(s, a))
  {
    match a
    case Dispatching => DispatchMirrors(s);
    case Claim(id, text) =>
    case Observe(id, observation) => if id in s.dispatched { ObserveMirrors(s, id, observation); }
    case Evaluate(id) => EvaluateMirrors(s, id);
    case Refresh(revision) => RefreshMirrors(s, revision);
    case Retry(id) => if AfterRetry(s, id).Ok? { RetryMirrors(s, id); }
    case Cancel(id, reason) => if AfterCancel(s, id, reason).Ok? { CancelMirrors(s, id, reason); }
  }

  /** What an action of the simulator asks of its scheduler. */
  function Request(s: Sim, a: Action): Option<L.Call> {
    match a
    case Dispatching => Some(L.Dispatch)
    case Evaluate(id) => if IsApproved(Step(s, a), id) && !IsApproved(s, id) then Some(L.Release(id)) else None
    case Refresh(revision) => if CanRefresh(s) then Some(L.Refresh(revision)) else None
    case Retry(id) => Some(L.Retry(id))
    case Cancel(id, reason) => if IsBlank(reason) then None else Some(L.Cancel(id))
    case _ => None
  }

  lemma SchedulerFollows(s: Sim, a: Action)
    requires Mirrors(s)
    ensures Step(s, a).sched == match Request(s, a) case None => s.sched case Some(call) => L.Step(s.sched, call)
  {
    hide S.AfterDispatch, S.AfterRetry, S.AfterCancel, S.AfterRefresh, L.WaveHistory, DispatchesAreCurrent;
    if a.Refresh? && CanRefresh(s) {
      RefreshFollows(s, a.revision);
    }
  }

  lemma RefreshFollows(s: Sim, revision: Revision)
    requires Mirrors(s) && CanRefresh(s)
    ensures S.AfterRefresh(s.sched, revision).Ok?
  {
  }

  lemma ConsistentParts(sched: S.Schedule, completed: set<ItemId>)
    requires L.Consistent(sched, completed)
    ensures L.Barrier(sched) && sched.dispatched <= sched.graph.blockers.Keys
  {
  }

  lemma StepNumbersItems(s: Sim, completed: set<ItemId>, a: Action)
    requires L.Consistent(s.sched, completed) && NumbersItems(s)
    ensures NumbersItems(Step(s, a))
  {
    hide L.Consistent, Classify, S.AfterDispatch, S.AfterRelease, S.AfterCancel, S.AfterRefresh;
    ConsistentParts(s.sched, completed);
    StepKeepsGraph(s, a);
    if a.Retry? && AfterRetry(s, a.id).Ok? {
      assert a.id in s.sched.dispatched;
    }
  }

  lemma StepKeepsGraph(s: Sim, a: Action)
    ensures Step(s, a).sched.graph == s.sched.graph
    ensures a.Retry? || Step(s, a).attempts == s.attempts
  {
  }

  lemma StepAligned(s: Sim, completed: set<ItemId>, a: Action)
    requires Aligned(s, completed)
    ensures Aligned(Step(s, a), completed)
    ensures s.sched.released <= Step(s, a).sched.released
  {
    hide Step, Request, Mirrors, L.Step, NumbersItems;
    ConsistentParts(s.sched, completed);
    StepMirrors(s, a);
    SchedulerFollows(s, a);
    StepNumbersItems(s, completed, a);
    if Request(s, a).Some? {
      L.StepKeeps(s.sched, completed, Request(s, a).value);
      L.StepOnlyReleases(s.sched, Request(s, a).value);
    }
  }

  /** The guards of the two layers coincide: nothing the simulator lets through is refused below. */
  lemma LayersNeverDisagree(s: Sim, completed: set<ItemId>, id: ItemId, revision: Revision)
    requires Aligned(s, completed)
    ensures AfterEvaluate(s, id).Ok?
    ensures CanRefresh(s) <==> AfterRefresh(s, revision).Ok?
    ensures CanRefresh(s) <==> S.AfterRefresh(s.sched, revision).Ok?
  {
    EvaluateMirrors(s, id);
    RefreshMirrors(s, revision);
  }

  // Histories: the state a run reached, and the dispatches it issued on the way.

  datatype History = History(sim: Sim, issued: seq<Dispatch>)

  function Begin(s: Sim): History {
    History(s, [])
  }

  function Advance(h: History, a: Action): History {
    History(Step(h.sim, a), if a.Dispatching? then h.issued + Preview(h.sim) else h.issued)
  }

  function Play(h: History, actions: seq<Action>): History
    decreases actions
  {
    if actions == [] then h else Play(Advance(h, actions[0]), actions[1..])
  }

  /** How many dispatches an item was issued. */
  function CountOf(ds: seq<Dispatch>, id: ItemId): nat {
    if ds == [] then 0
    else CountOf(ds[..|ds| - 1], id) + if ds[|ds| - 1].item == id then 1 else 0
  }

  /** The n-th dispatch of an item carries attempt number n, and its names say so. */
  ghost predicate Numbered(repository: string, root: string, ds: seq<Dispatch>) {
    forall i :: 0 <= i < |ds| ==> IsIssue(repository, root, ds, i)
  }

  predicate IsIssue(repository: string, root: string, ds: seq<Dispatch>, i: nat)
    requires i < |ds|
  {
    ds[i] == DispatchFor(repository, root, ds[i].item, ds[i].base, CountOf(ds[..i], ds[i].item) + 1)
  }

  /** The attempt number an item has now, against the dispatches issued for it. */
  ghost predicate Counted(issued: seq<Dispatch>, owned: set<ItemId>, attempts: map<ItemId, Attempt>) {
    forall id :: CountOf(issued, id) + (if id in owned then 0 else 1) == AttemptNumber(attempts, id)
  }

  /** The items that hold their current attempt: dispatched and not retried since. */
  function Owned(s: Sim): set<ItemId> {
    s.sched.dispatched + s.sched.cancelled
  }

  ghost predicate Sound(h: History, completed: set<ItemId>) {
    && Aligned(h.sim, completed)
    && Numbered(h.sim.repository, h.sim.root, h.issued)
    && Counted(h.issued, Owned(h.sim), h.sim.attempts)
  }

  lemma {:induction false} CountAppends(ds: seq<Dispatch>, es: seq<Dispatch>, id: ItemId)
    ensures CountOf(ds + es, id) == CountOf(ds, id) + CountOf(es, id)
  {
    if es == [] {
      assert ds + es == ds;
    } else {
      assert (ds + es)[..|ds + es| - 1] == ds + es[..|es| - 1];
      CountAppends(ds, es[..|es| - 1], id);
    }
  }

  lemma {:induction false} CountDistinct(s: Sim, items: seq<ItemId>, id: ItemId)
    requires Distinct(items)
    ensures CountOf(MapAll(items, Assigner(s)), id) == if id in items then 1 else 0
  {
    if items != [] {
      var init := items[..|items| - 1];
      assert MapAll(items, Assigner(s))[..|items| - 1] == MapAll(init, Assigner(s));
      assert items == init + [items[|items| - 1]];
      CountDistinct(s, init, id);
    }
  }

  lemma IssueAt(s: Sim, issued: seq<Dispatch>, owned: set<ItemId>, items: seq<ItemId>, k: nat)
    requires Counted(issued, owned, s.attempts)
    requires Distinct(items) && k < |items| && items[k] !in owned
    ensures IsIssue(s.repository, s.root, issued + MapAll(items, Assigner(s)), |issued| + k)
  {
    var ds, id := issued + MapAll(items, Assigner(s)), items[k];
    assert ds[..|issued| + k] == issued + MapAll(items[..k], Assigner(s));
    CountAppends(issued, MapAll(items[..k], Assigner(s)), id);
    CountDistinct(s, items[..k], id);
    assert CountOf(ds[..|issued| + k], id) + 1 == AttemptNumber(s.attempts, id);
    assert ds[|issued| + k] == Assigned(s, id);
  }

  lemma IssuedNumbers(s: Sim, issued: seq<Dispatch>, owned: set<ItemId>, items: seq<ItemId>)
    requires Numbered(s.repository, s.root, issued) && Counted(issued, owned, s.attempts)
    requires Distinct(items) && Elems(items) !! owned
    ensures Numbered(s.repository, s.root, issued + MapAll(items, Assigner(s)))
  {
    var ds := issued + MapAll(items, Assigner(s));
    forall i | 0 <= i < |ds| ensures IsIssue(s.repository, s.root, ds, i) {
      if i < |issued| {
        assert ds[..i] == issued[..i];
        assert IsIssue(s.repository, s.root, issued, i);
      } else {
        assert items[i - |issued|] in Elems(items);
        IssueAt(s, issued, owned, items, i - |issued|);
      }
    }
  }

  lemma IssuedCounts(s: Sim, issued: seq<Dispatch>, owned: set<ItemId>, items: seq<ItemId>)
    requires Counted(issued, owned, s.attempts) && Distinct(items) && Elems(items) !! owned
    ensures Counted(issued + MapAll(items, Assigner(s)), owned + Elems(items), s.attempts)
  {
    forall id
      ensures CountOf(issued + MapAll(items, Assigner(s)), id) + (if id in owned + Elems(items) then 0 else 1)
              == AttemptNumber(s.attempts, id)
    {
      CountAppends(issued, MapAll(items, Assigner(s)), id);
      CountDistinct(s, items, id);
    }
  }

  lemma DispatchCounts(s: Sim, issued: seq<Dispatch>)
    requires Counted(issued, Owned(s), s.attempts) && Numbered(s.repository, s.root, issued)
    requires s.sched.cancelled <= s.sched.released
    ensures var t, more := AfterDispatch(s), issued + Preview(s);
      Numbered(t.repository, t.root, more) && Counted(more, Owned(t), t.attempts)
  {
    var items := S.Frontier(s.sched);
    L.FrontierItems(s.sched);
    assert Elems(items) !! Owned(s);
    IssuedNumbers(s, issued, Owned(s), items);
    IssuedCounts(s, issued, Owned(s), items);
    assert Owned(AfterDispatch(s)) == Owned(s) + Elems(items);
  }

  /** An item is given up exactly when it is retried, and then its number rises. */
  lemma OthersCount(s: Sim, issued: seq<Dispatch>, a: Action)
    requires s.sched.cancelled !! s.sched.dispatched && Counted(issued, Owned(s), s.attempts) && !a.Dispatching?
    ensures Counted(issued, Owned(Step(s, a)), Step(s, a).attempts)
  {
    hide S.AfterDispatch, Classify, Preview;
    match a
    case Retry(id) => assert AfterRetry(s, id).Ok? ==> Owned(Step(s, a)) == Owned(s) - {id};
    case Cancel(id, reason) => assert Owned(Step(s, a)) == Owned(s);
    case _ =>
  }

  lemma NamesStay(s: Sim, a: Action)
    ensures Step(s, a).repository == s.repository && Step(s, a).root == s.root && Step(s, a).review == s.review
  {
    hide S.AfterDispatch, S.AfterRelease, S.AfterRetry, S.AfterCancel, S.AfterRefresh, Classify, Preview;
  }

  lemma AdvanceSound(h: History, completed: set<ItemId>, a: Action)
    requires Sound(h, completed)
    ensures Sound(Advance(h, a), completed)
  {
    hide Step, Numbered, Counted;
    StepAligned(h.sim, completed, a);
    NamesStay(h.sim, a);
    if a.Dispatching? {
      DispatchStep(h.sim);
      DispatchCounts(h.sim, h.issued);
    } else {
      OthersCount(h.sim, h.issued, a);
    }
  }

  lemma DispatchStep(s: Sim)
    ensures Step(s, Dispatching) == AfterDispatch(s)
  {
  }

  lemma {:induction false} PlaySound(h: History, completed: set<ItemId>, actions: seq<Action>)
    requires Sound(h, completed)
    ensures Sound(Play(h, actions), completed)
    decreases actions
  {
    if actions != [] {
      AdvanceSound(h, completed, actions[0]);
      PlaySound(Advance(h, actions[0]), completed, actions[1..]);
    }
  }

  /** The scope of the theorems below: any run of any simulator the constructor builds. */
  function Start(graph: DependencyGraph, policy: S.Policy, base: Revision, repository: string,
                 workspaceRoot: string, review: ReviewPolicy, completed: set<ItemId>): History
  {
    Begin(NewSim(graph, policy, base, repository, workspaceRoot, review, completed))
  }

  lemma EveryRunIsSound(graph: DependencyGraph, policy: S.Policy, base: Revision, repository: string,
                        workspaceRoot: string, review: ReviewPolicy, completed: set<ItemId>, actions: seq<Action>)
    ensures Sound(Play(Start(graph, policy, base, repository, workspaceRoot, review, completed), actions), completed)
  {
    PlaySound(Start(graph, policy, base, repository, workspaceRoot, review, completed), completed, actions);
  }

  /** The delivery loop always has a next move, and the simulator's own guard offers it. */
  lemma DeliveryNeverDeadlocks(h: History, completed: set<ItemId>, revision: Revision)
    requires Sound(h, completed) && Closed(h.sim.sched.graph) && Acyclic(h.sim.sched.graph)
    ensures
      || h.sim.sched.graph.blockers.Keys <= h.sim.sched.released
      || L.InFlight(h.sim.sched) != {}
      || Preview(h.sim) != []
      || (CanRefresh(h.sim) && Preview(AfterRefresh(h.sim, revision).value) != [])
  {
    L.NoDeadlock(h.sim.sched, completed, revision);
    LayersNeverDisagree(h.sim, completed, "", revision);
    assert |Preview(h.sim)| == |S.Preview(h.sim.sched)|;
    if CanRefresh(h.sim) {
      var t := AfterRefresh(h.sim, revision).value;
      assert |Preview(t)| == |S.Preview(t.sched)|;
    }
  }

  /** What an agent claims about itself changes neither the gate nor the schedule. */
  lemma ClaimsDecideNothing(s: Sim, id: ItemId, text: string, other: ItemId)
    ensures AfterClaim(s, id, text).sched == s.sched
    ensures AfterEvaluate(s, other).Ok? ==>
      && AfterEvaluate(AfterClaim(s, id, text), other).Ok?
      && AfterEvaluate(AfterClaim(s, id, text), other).value.1 == AfterEvaluate(s, other).value.1
  {
  }

  lemma {:induction false} CountGrows(ds: seq<Dispatch>, i: nat, j: nat, id: ItemId)
    requires i <= j <= |ds|
    ensures CountOf(ds[..i], id) <= CountOf(ds[..j], id)
  {
    assert ds[..j] == ds[..i] + ds[i..j];
    CountAppends(ds[..i], ds[i..j], id);
  }

  lemma AttemptsRise(repository: string, root: string, ds: seq<Dispatch>, i: nat, j: nat)
    requires Numbered(repository, root, ds) && i < j < |ds| && ds[i].item == ds[j].item
    ensures ds[i].attempt < ds[j].attempt
  {
    assert IsIssue(repository, root, ds, i) && IsIssue(repository, root, ds, j);
    assert ds[..i + 1][..i] == ds[..i];
    CountGrows(ds, i + 1, j, ds[i].item);
  }

  ghost predicate CleanNames(h: History) {
    && (forall id :: id in h.sim.sched.graph.blockers ==> IsItemId(id))
    && NoColon(h.sim.sched.base)
    && forall d :: d in h.issued ==> IsItemId(d.item) && NoColon(d.base)
  }

  predicate CleanRevisions(actions: seq<Action>) {
    forall i :: 0 <= i < |actions| && actions[i].Refresh? ==> NoColon(actions[i].revision)
  }

  lemma AdvanceClean(h: History, a: Action)
    requires CleanNames(h) && (a.Refresh? ==> NoColon(a.revision))
    ensures CleanNames(Advance(h, a))
  {
    if a.Dispatching? {
      L.FrontierItems(h.sim.sched);
      var more := Preview(h.sim);
      forall d | d in h.issued + more ensures IsItemId(d.item) && NoColon(d.base) {
        if d in more {
          var k := IndexOf(more, d);
          assert more[k].item == S.Frontier(h.sim.sched)[k];
        }
      }
    } else {
      OthersKeepNames(h, a);
    }
  }

  lemma OthersKeepNames(h: History, a: Action)
    requires !a.Dispatching?
    ensures Advance(h, a).issued == h.issued && Advance(h, a).sim.sched.graph == h.sim.sched.graph
    ensures var base := Advance(h, a).sim.sched.base; base == h.sim.sched.base || (a.Refresh? && base == a.revision)
  {
  }

  lemma {:induction false} PlayClean(h: History, actions: seq<Action>)
    requires CleanNames(h) && CleanRevisions(actions)
    ensures CleanNames(Play(h, actions))
    decreases actions
  {
    if actions != [] {
      assert actions[0].Refresh? ==> NoColon(actions[0].revision);
      AdvanceClean(h, actions[0]);
      forall i | 0 <= i < |actions[1..]| && actions[1..][i].Refresh? ensures NoColon(actions[1..][i].revision) {
        assert actions[1..][i] == actions[i + 1];
      }
      PlayClean(Advance(h, actions[0]), actions[1..]);
    }
  }

  /** No two attempts ever issued share a worktree, a branch or a run id. */
  lemma AttemptIdentity(h: History, completed: set<ItemId>, i: nat, j: nat)
    requires Sound(h, completed) && CleanNames(h) && i < j < |h.issued|
    ensures var (d, e) := (h.issued[i], h.issued[j]);
      && d.worktreePath != e.worktreePath
      && d.branchRef != e.branchRef
      && RunIdText(d.item, d.base, d.attempt) != RunIdText(e.item, e.base, e.attempt)
  {
    var d, e := h.issued[i], h.issued[j];
    assert d in h.issued && e in h.issued;
    assert IsIssue(h.sim.repository, h.sim.root, h.issued, i) && IsIssue(h.sim.repository, h.sim.root, h.issued, j);
    if d.item == e.item {
      AttemptsRise(h.sim.repository, h.sim.root, h.issued, i, j);
    }
    ItemIdAlphabet(d.item);
    ItemIdAlphabet(e.item);
    PlacesAreDistinct(h.sim.root, d.item, d.attempt, e.item, e.attempt);
    if RunIdText(d.item, d.base, d.attempt) == RunIdText(e.item, e.base, e.attempt) {
      RunIdIsInjective(d.item, d.base, d.attempt, e.item, e.base, e.attempt);
    }
  }

  /** So evidence for one attempt never satisfies the gate of another. */
  lemma EvidenceServesOneAttempt(h: History, completed: set<ItemId>, i: nat, j: nat, o: DeliveryObservation)
    requires Sound(h, completed) && CleanNames(h) && i < |h.issued| && j < |h.issued| && i != j
    ensures Decide(h.sim.review, h.issued[i], o).status.Approved? ==> Decide(h.sim.review, h.issued[j], o).status.Blocked?
  {
    hide Sound, CleanNames;
    if i < j {
      AttemptIdentity(h, completed, i, j);
    } else {
      AttemptIdentity(h, completed, j, i);
    }
    GateIsExact(h.sim.review, h.issued[i], o);
  }

  /** The same for every run over validated item ids and colon-free revisions, with attempts numbered 1, 2, 3, ... */
  lemma AttemptsNeverCollide(graph: DependencyGraph, policy: S.Policy, base: Revision, repository: string,
                             workspaceRoot: string, review: ReviewPolicy, completed: set<ItemId>,
                             actions: seq<Action>, i: nat, j: nat)
    requires forall id :: id in graph.blockers ==> IsItemId(id)
    requires NoColon(base) && CleanRevisions(actions)
    requires i < j < |Play(Start(graph, policy, base, repository, workspaceRoot, review, completed), actions).issued|
    ensures var ds := Play(Start(graph, policy, base, repository, workspaceRoot, review, completed), actions).issued;
      && ds[i].attempt == CountOf(ds[..i], ds[i].item) + 1
      && ds[i].worktreePath != ds[j].worktreePath
      && ds[i].branchRef != ds[j].branchRef
      && RunIdText(ds[i].item, ds[i].base, ds[i].attempt) != RunIdText(ds[j].item, ds[j].base, ds[j].attempt)
  {
    var h := Start(graph, policy, base, repository, workspaceRoot, review, completed);
    var t := Play(h, actions);
    EveryRunIsSound(graph, policy, base, repository, workspaceRoot, review, completed, actions);
    PlayClean(h, actions);
    assert IsIssue(t.sim.repository, t.sim.root, t.issued, i);
    AttemptIdentity(t, completed, i, j);
  }
}
