/** Under the barrier policy the waves of a project are the levels of its dependency graph. */
module WaveLevels {
  import opened Prelude
  import opened DependencyGraphs
  import opened Scheduling
  import opened SchedulingLaws

  /** There is a chain of `k` blocked-by edges starting at the item. */
  ghost predicate HasChain(g: DependencyGraph, id: ItemId, k: nat) {
    exists c :: ChainFrom(g, id, k, c)
  }

  ghost predicate ChainFrom(g: DependencyGraph, id: ItemId, k: nat, c: seq<ItemId>) {
    |c| == k + 1 && c[0] == id && IsChain(g, c)
  }

  /** The longest chain behind the item has exactly `k` edges. */
  ghost predicate AtLevel(g: DependencyGraph, id: ItemId, k: nat) {
    HasChain(g, id, k) && !HasChain(g, id, k + 1)
  }

  ghost function Level(g: DependencyGraph, k: nat): set<ItemId> {
    set id | id in g.blockers && AtLevel(g, id, k)
  }

  /** The items every chain of which is shorter than `k` edges. */
  ghost function Shallow(g: DependencyGraph, k: nat): set<ItemId> {
    set id | id in g.blockers && !HasChain(g, id, k)
  }

  lemma ChainOneLonger(g: DependencyGraph, id: ItemId, k: nat)
    requires id in g.blockers
    ensures HasChain(g, id, k + 1) <==> exists b :: b in g.blockers[id] && HasChain(g, b, k)
  {
    if HasChain(g, id, k + 1) {
      var c :| ChainFrom(g, id, k + 1, c);
      assert Linked(g, c, 0);
      forall i | 0 <= i < |c[1..]| - 1 ensures Linked(g, c[1..], i) {
        assert Linked(g, c, i + 1);
      }
      assert ChainFrom(g, c[1], k, c[1..]);
    }
    if b :| b in g.blockers[id] && HasChain(g, b, k) {
      var c :| ChainFrom(g, b, k, c);
      var longer := [id] + c;
      forall i | 0 <= i < |longer| - 1 ensures Linked(g, longer, i) {
        if i > 0 {
          assert Linked(g, c, i - 1);
        }
      }
      assert ChainFrom(g, id, k + 1, longer);
    }
  }

  lemma ChainOfNoEdges(g: DependencyGraph, id: ItemId)
    ensures HasChain(g, id, 0)
  {
    assert ChainFrom(g, id, 0, [id]);
  }

  lemma ChainOneShorter(g: DependencyGraph, id: ItemId, k: nat)
    requires HasChain(g, id, k + 1)
    ensures HasChain(g, id, k)
  {
    var c :| ChainFrom(g, id, k + 1, c);
    var shorter := c[..k + 1];
    forall i | 0 <= i < |shorter| - 1 ensures Linked(g, shorter, i) {
      assert Linked(g, c, i);
    }
    assert ChainFrom(g, id, k, shorter);
  }

  /** Approving the items of a wave one after another, in any order. */
  function ReleaseAll(s: Schedule, order: seq<ItemId>): Schedule
    decreases order
  {
    if order == [] then s else ReleaseAll(Step(s, Release(order[0])), order[1..])
  }

  function OneWave(s: Schedule, order: seq<ItemId>, revision: Revision): Schedule {
    Step(ReleaseAll(Step(s, Dispatch), order), Refresh(revision))
  }

  /** A whole wave: dispatched, approved in some order, and followed by a refresh of the base. */
  ghost predicate FullWave(s: Schedule, t: Schedule) {
    && Frontier(s) != []
    && exists order, revision :: Elems(order) == Elems(Frontier(s)) && t == OneWave(s, order, revision)
  }

  ghost predicate FullWaves(states: seq<Schedule>) {
    states != [] && forall i | 0 <= i < |states| - 1 :: FullWaveAt(states, i)
  }

  ghost predicate FullWaveAt(states: seq<Schedule>, i: nat)
    requires i < |states| - 1
  {
    FullWave(states[i], states[i + 1])
  }

  ghost predicate SameWaveItems(a: seq<ExecutionWave>, b: seq<ExecutionWave>) {
    |a| == |b| && forall i :: 0 <= i < |a| ==> a[i].items == b[i].items
  }

  lemma {:induction false} ReleaseAllReleases(s: Schedule, order: seq<ItemId>)
    requires Elems(order) <= s.dispatched && WaveHistory(s)
    ensures ReleaseAll(s, order).released == s.released + Elems(order)
    ensures var t := ReleaseAll(s, order);
      t == s.(released := t.released, currentWave := t.currentWave, waves := t.waves)
    ensures SameWaveItems(s.waves, ReleaseAll(s, order).waves)
    decreases order
  {
    hide WaveHistory, Step;
    if order != [] {
      assert order == [order[0]] + order[1..];
      assert Elems(order) == {order[0]} + Elems(order[1..]);
      var t := Step(s, Release(order[0]));
      ReleaseStep(s, order[0]);
      ReleaseAllReleases(t, order[1..]);
    }
  }

  lemma ReleaseStep(s: Schedule, id: ItemId)
    requires id in s.dispatched && WaveHistory(s)
    ensures var t := Step(s, Release(id));
      && t == s.(released := s.released + {id}, currentWave := t.currentWave, waves := t.waves)
      && SameWaveItems(s.waves, t.waves) && WaveHistory(t)
  {
  }

  ghost predicate AtWave(s: Schedule, g: DependencyGraph, n: nat) {
    && s.graph == g && s.policy.WaveBarrier? && Consistent(s, {})
    && s.barrierOpen && s.released == Shallow(g, n)
    && |s.waves| == n
    && forall k :: 0 <= k < n ==> Elems(s.waves[k].items) == Level(g, k)
  }

  lemma FrontierIsLevel(s: Schedule, g: DependencyGraph, n: nat)
    requires Closed(g) && AtWave(s, g, n)
    ensures Elems(Frontier(s)) == Level(g, n)
    ensures Shallow(g, n + 1) == Shallow(g, n) + Level(g, n)
  {
    forall id | id in g.blockers
      ensures IsReady(g, s.released, id) <==> AtLevel(g, id, n)
      ensures !HasChain(g, id, n) ==> !HasChain(g, id, n + 1)
    {
      ChainOneLonger(g, id, n);
      if HasChain(g, id, n + 1) {
        ChainOneShorter(g, id, n);
      }
      if b :| b in g.blockers[id] && HasChain(g, b, n) {
        assert b in Elems(g.blockers[id]) && b !in s.released;
      }
      if AtLevel(g, id, n) {
        forall b | b in Elems(g.blockers[id]) ensures b in s.released {
          assert b in g.blockers && !HasChain(g, b, n);
        }
      }
    }
    assert forall id :: id in s.dispatched && id !in s.released ==> id in InFlight(s);
  }

  /** One full wave releases its frontier, records it as the next wave and leaves the barrier open. */
  lemma OneWaveReleases(s: Schedule, order: seq<ItemId>, revision: Revision)
    requires s.policy.WaveBarrier? && Consistent(s, {}) && s.barrierOpen
    requires Frontier(s) != [] && Elems(order) == Elems(Frontier(s))
    ensures var t := OneWave(s, order, revision);
      && Consistent(t, {}) && t.graph == s.graph && t.policy == s.policy && t.barrierOpen
      && t.released == s.released + Elems(Frontier(s))
      && |t.waves| == |s.waves| + 1
      && (forall k :: 0 <= k < |s.waves| ==> t.waves[k].items == s.waves[k].items)
      && t.waves[|s.waves|].items == Frontier(s)
  {
    var d := AfterDispatch(s);
    StepKeeps(s, {}, Dispatch);
    ReleaseAllReleases(d, order);
    ReleaseAllKeeps(d, order);
    var r := ReleaseAll(d, order);
    assert Frontier(s)[0] in Elems(Frontier(s));
    assert r.activeWave == Elems(order) <= r.released;
    StepKeeps(r, {}, Refresh(revision));
    StepOnlyReleases(r, Refresh(revision));
  }

  lemma WaveAdvances(s: Schedule, t: Schedule, g: DependencyGraph, n: nat)
    requires Closed(g) && AtWave(s, g, n) && FullWave(s, t)
    ensures AtWave(t, g, n + 1)
  {
    var order, revision :| Elems(order) == Elems(Frontier(s)) && t == OneWave(s, order, revision);
    OneWaveReleases(s, order, revision);
    FrontierIsLevel(s, g, n);
  }

  lemma {:induction false} ReleaseAllKeeps(s: Schedule, order: seq<ItemId>)
    requires Consistent(s, {})
    ensures Consistent(ReleaseAll(s, order), {})
    decreases order
  {
    if order != [] {
      StepKeeps(s, {}, Release(order[0]));
      ReleaseAllKeeps(Step(s, Release(order[0])), order[1..]);
    }
  }

  lemma {:induction false} WavesReach(states: seq<Schedule>, g: DependencyGraph, base: Revision)
    requires Closed(g) && FullWaves(states) && states[0] == NewSchedule(g, WaveBarrier, base, {})
    ensures AtWave(states[|states| - 1], g, |states| - 1)
  {
    if |states| == 1 {
      forall id ensures HasChain(g, id, 0) {
        ChainOfNoEdges(g, id);
      }
    } else {
      var init := states[..|states| - 1];
      forall i | 0 <= i < |init| - 1 ensures FullWaveAt(init, i) {
        assert FullWaveAt(states, i);
      }
      WavesReach(init, g, base);
      assert FullWaveAt(states, |states| - 2);
      WaveAdvances(states[|states| - 2], states[|states| - 1], g, |states| - 2);
    }
  }

  /** Wave `k` is exactly the items whose longest blocker chain has `k` edges. */
  lemma WavesAreLevels(states: seq<Schedule>, g: DependencyGraph, base: Revision)
    requires Closed(g) && FullWaves(states) && states[0] == NewSchedule(g, WaveBarrier, base, {})
    ensures var last := states[|states| - 1];
      && |last.waves| == |states| - 1
      && (forall k :: 0 <= k < |last.waves| ==> Elems(last.waves[k].items) == Level(g, k))
      && last.released == Shallow(g, |last.waves|)
  {
    WavesReach(states, g, base);
  }

  /** The loop stops only with every item released, after as many waves as the longest chain has items. */
  lemma WavesFinish(states: seq<Schedule>, g: DependencyGraph, base: Revision)
    requires Closed(g) && Acyclic(g)
    requires FullWaves(states) && states[0] == NewSchedule(g, WaveBarrier, base, {})
    requires Frontier(states[|states| - 1]) == []
    ensures states[|states| - 1].released == g.blockers.Keys
    ensures forall id :: id in g.blockers ==> !HasChain(g, id, |states| - 1)
    ensures |states| > 1 ==> exists id :: id in g.blockers && HasChain(g, id, |states| - 2)
  {
    WavesReach(states, g, base);
    var last := states[|states| - 1];
    assert forall id :: id in last.dispatched && id !in last.released ==> id in InFlight(last);
    NoDeadlock(last, {}, base);
    if |states| > 1 {
      var wave := last.waves[|states| - 2];
      assert wave.items[0] in Level(g, |states| - 2);
    }
  }

  /** And it does stop: there are never more full waves than items. */
  lemma WavesAreBounded(states: seq<Schedule>, g: DependencyGraph, base: Revision)
    requires Closed(g) && FullWaves(states) && states[0] == NewSchedule(g, WaveBarrier, base, {})
    ensures |states| - 1 <= |g.blockers|
  {
    WavesReach(states, g, base);
    ShallowGrows(states[|states| - 1], g, |states| - 1);
    SubsetCardinality(Shallow(g, |states| - 1), g.blockers.Keys);
  }

  lemma {:induction false} ShallowGrows(s: Schedule, g: DependencyGraph, n: nat)
    requires |s.waves| >= n && WaveHistory(s)
    requires forall k :: 0 <= k < n ==> Elems(s.waves[k].items) == Level(g, k)
    ensures |Shallow(g, n)| >= n
  {
    if n > 0 {
      ShallowGrows(s, g, n - 1);
      var id := s.waves[n - 1].items[0];
      assert id in Level(g, n - 1);
      forall x | x in Shallow(g, n - 1) ensures x in Shallow(g, n) {
        if HasChain(g, x, n) {
          ChainOneShorter(g, x, n - 1);
        }
      }
      SubsetCardinality(Shallow(g, n - 1) + {id}, Shallow(g, n));
    }
  }
}
