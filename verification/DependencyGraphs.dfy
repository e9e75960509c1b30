/** The dependency graph of work items and its depth-first compiler. */
module DependencyGraphs {
  import opened Prelude

  /** An insertion-ordered dictionary from item to the items that block it. */
  datatype GraphData = GraphData(order: seq<ItemId>, blockers: map<ItemId, seq<ItemId>>)

  predicate IsDictionary(g: GraphData) {
    Distinct(g.order) && Elems(g.order) == g.blockers.Keys
  }

  type DependencyGraph = g: GraphData | IsDictionary(g) witness GraphData([], map[])

  /** Every blocker is itself an item of the graph. */
  predicate Closed(g: DependencyGraph) {
    forall id :: id in g.blockers ==> Elems(g.blockers[id]) <= g.blockers.Keys
  }

  predicate Edge(g: DependencyGraph, item: ItemId, blocker: ItemId) {
    item in g.blockers && blocker in g.blockers[item]
  }

  predicate Linked(g: DependencyGraph, c: seq<ItemId>, i: nat)
    requires i < |c| - 1
  {
    Edge(g, c[i], c[i + 1])
  }

  /** A walk along `blocked_by` edges, from an item towards what it waits for. */
  ghost predicate IsChain(g: DependencyGraph, c: seq<ItemId>) {
    forall i | 0 <= i < |c| - 1 :: Linked(g, c, i)
  }

  ghost predicate IsCycle(g: DependencyGraph, c: seq<ItemId>) {
    |c| >= 2 && c[0] == c[|c| - 1] && IsChain(g, c)
  }

  ghost predicate Acyclic(g: DependencyGraph) {
    forall c :: !IsCycle(g, c)
  }

  /** Every item comes after all of its blockers. */
  ghost predicate Topological(g: DependencyGraph, order: seq<ItemId>) {
    && Distinct(order)
    && Elems(order) <= g.blockers.Keys
    && forall i :: 0 <= i < |order| ==> Elems(g.blockers[order[i]]) <= Elems(order[..i])
  }

  /** The items that are not completed and whose blockers all are, in graph order. */
  function Ready(g: DependencyGraph, completed: set<ItemId>): (ready: seq<ItemId>)
    ensures forall id :: id in ready <==> IsReady(g, completed, id)
    ensures Distinct(ready)
  {
    ReadyAmong(g, completed, g.order)
  }

  predicate IsReady(g: DependencyGraph, completed: set<ItemId>, id: ItemId) {
    id in g.blockers && id !in completed && Elems(g.blockers[id]) <= completed
  }

  function ReadyAmong(g: DependencyGraph, completed: set<ItemId>, order: seq<ItemId>): (ready: seq<ItemId>)
    requires Elems(order) <= g.blockers.Keys
    requires Distinct(order)
    ensures forall id :: id in ready <==> id in order && IsReady(g, completed, id)
    ensures Distinct(ready)
  {
    if order == [] then []
    else
      var rest := ReadyAmong(g, completed, order[1..]);
      assert order == [order[0]] + order[1..];
      if IsReady(g, completed, order[0]) then [order[0]] + rest else rest
  }

  /** Along a chain, positions in a topological order strictly fall. */
  lemma {:induction false} ChainDescends(g: DependencyGraph, order: seq<ItemId>, c: seq<ItemId>)
    requires Topological(g, order)
    requires c != [] && IsChain(g, c) && c[0] in order
    ensures c[|c| - 1] in order
    ensures IndexOf(order, c[|c| - 1]) + |c| - 1 <= IndexOf(order, c[0])
  {
    if |c| > 1 {
      var k := IndexOf(order, c[0]);
      assert Linked(g, c, 0);
      assert c[1] in Elems(order[..k]);
      var j :| 0 <= j < k && order[j] == c[1];
      assert IndexOf(order, c[1]) == j;
      var tail := c[1..];
      assert forall i :: 0 <= i < |tail| - 1 ==> Linked(g, c, i + 1) ==> Linked(g, tail, i);
      ChainDescends(g, order, tail);
    }
  }

  lemma TopologicalIsAcyclic(g: DependencyGraph, order: seq<ItemId>)
    requires Topological(g, order) && Elems(order) == g.blockers.Keys
    ensures Acyclic(g)
  {
    forall c ensures !IsCycle(g, c) {
      if IsCycle(g, c) {
        assert Linked(g, c, 0);
        assert c[0] in Elems(order);
        ChainDescends(g, order, c);
      }
    }
  }

  lemma ChainExtends(g: DependencyGraph, c: seq<ItemId>, id: ItemId)
    requires IsChain(g, c)
    requires c != [] ==> Edge(g, c[|c| - 1], id)
    ensures IsChain(g, c + [id])
  {
    var longer := c + [id];
    forall i | 0 <= i < |longer| - 1 ensures Linked(g, longer, i) {
      if i < |c| - 1 {
        assert Linked(g, c, i);
      }
    }
  }

  /** What the depth-first search knows: its stack is a chain, and what it finished is ordered. */
  ghost predicate SearchState(g: DependencyGraph, visiting: seq<ItemId>, visited: set<ItemId>, finished: seq<ItemId>) {
    && Closed(g)
    && IsChain(g, visiting) && Distinct(visiting) && Elems(visiting) <= g.blockers.Keys
    && Topological(g, finished) && Elems(finished) == visited
    && visited !! Elems(visiting)
  }

  lemma Enter(g: DependencyGraph, visiting: seq<ItemId>, visited: set<ItemId>, finished: seq<ItemId>, id: ItemId)
    requires SearchState(g, visiting, visited, finished)
    requires id in g.blockers && id !in visiting && id !in visited
    requires visiting != [] ==> Edge(g, visiting[|visiting| - 1], id)
    ensures SearchState(g, visiting + [id], visited, finished)
    ensures Elems(visiting + [id]) == Elems(visiting) + {id}
  {
    ChainExtends(g, visiting, id);
  }

  lemma Leave(g: DependencyGraph, visiting: seq<ItemId>, visited: set<ItemId>, finished: seq<ItemId>, id: ItemId)
    requires SearchState(g, visiting + [id], visited, finished)
    requires Elems(g.blockers[id]) <= visited
    ensures SearchState(g, visiting, visited + {id}, finished + [id])
  {
    forall i | 0 <= i < |visiting| - 1 ensures Linked(g, visiting, i) {
      assert Linked(g, visiting + [id], i);
    }
    var stack, longer := visiting + [id], finished + [id];
    assert id in Elems(stack);
    assert stack[|visiting|] == id;
    assert forall k :: 0 <= k < |visiting| ==> stack[k] == visiting[k];
    forall i | 0 <= i < |longer| ensures Elems(g.blockers[longer[i]]) <= Elems(longer[..i]) {
      assert longer[..i] == finished[..i];
      assert finished[..|finished|] == finished;
    }
  }

  lemma ChainCloses(g: DependencyGraph, c: seq<ItemId>, id: ItemId)
    requires IsChain(g, c) && id in c && Edge(g, c[|c| - 1], id)
    ensures IsCycle(g, c[IndexOf(c, id)..] + [id])
  {
    var k := IndexOf(c, id);
    var loop := c[k..] + [id];
    forall i | 0 <= i < |loop| - 1 ensures Linked(g, loop, i) {
      if i < |loop| - 2 {
        assert Linked(g, c, k + i);
      }
    }
  }

  /** In an acyclic graph every non-empty set of items has one that none of the others blocks. */
  lemma MinimalItem(g: DependencyGraph, s: set<ItemId>) returns (m: ItemId)
    requires Acyclic(g) && s != {} && s <= g.blockers.Keys
    ensures m in s && Elems(g.blockers[m]) * s == {}
  {
    m :| m in s;
    var walk := [m];
    while Elems(g.blockers[m]) * s != {}
      invariant m in s && walk != [] && walk[|walk| - 1] == m
      invariant Elems(walk) <= s && IsChain(g, walk) && Distinct(walk)
      decreases |s| - |walk|
    {
      var b :| b in Elems(g.blockers[m]) * s;
      if b in walk {
        ChainCloses(g, walk, b);
        assert false;
      }
      ChainExtends(g, walk, b);
      walk, m := walk + [b], b;
      DistinctCardinality(walk);
      SubsetCardinality(Elems(walk), s);
    }
  }

  /** The nested `visit` closure of the compiler with the two collections it mutates. */
  class CycleFinder {
    const graph: DependencyGraph
    var visiting: seq<ItemId>
    var visited: set<ItemId>
    ghost var finished: seq<ItemId>

    ghost predicate Valid()
      reads this
    {
      SearchState(graph, visiting, visited, finished)
    }

    constructor (graph: DependencyGraph)
      requires Closed(graph)
      ensures this.graph == graph && Valid() && visiting == [] && visited == {}
    {
      this.graph := graph;
      visiting, visited, finished := [], {}, [];
    }

    /** Searches from one item; a cycle is reported as the source's exception carries it. */
    method Visit(id: ItemId) returns (cycle: Option<seq<ItemId>>)
      requires Valid() && id in graph.blockers
      requires visiting != [] ==> Edge(graph, visiting[|visiting| - 1], id)
      modifies this
      ensures cycle.Some? ==> IsCycle(graph, cycle.value)
      ensures cycle.None? ==> Valid() && visiting == old(visiting) && old(visited) + {id} <= visited
      decreases graph.blockers.Keys - Elems(visiting)
    {
      if id in visiting {
        ChainCloses(graph, visiting, id);
        return Some(visiting[IndexOf(visiting, id)..] + [id]);
      }
      if id in visited {
        return None;
      }
      ghost var stack := visiting;
      Enter(graph, visiting, visited, finished, id);
      visiting := visiting + [id];
      var blockers := graph.blockers[id];
      for i := 0 to |blockers|
        invariant Valid() && visiting == stack + [id]
        invariant old(visited) <= visited && forall k :: 0 <= k < i ==> blockers[k] in visited
      {
        cycle := Visit(blockers[i]);
        if cycle.Some? {
          return;
        }
      }
      assert forall b :: b in blockers ==> b in visited;
      Leave(graph, stack, visited, finished, id);
      visiting := visiting[..|visiting| - 1];
      assert visiting == stack;
      visited := visited + {id};
      finished := finished + [id];
      assert Valid();
      cycle := None;
    }
  }

  /** The search of the compiler: a cycle is reported exactly when the graph has one. */
  method FindCycle(graph: DependencyGraph) returns (cycle: Option<seq<ItemId>>)
    requires Closed(graph)
    ensures cycle.None? <==> Acyclic(graph)
    ensures cycle.Some? ==> IsCycle(graph, cycle.value)
  {
    var finder := new CycleFinder(graph);
    for i := 0 to |graph.order|
      invariant finder.Valid() && finder.graph == graph && finder.visiting == []
      invariant Elems(graph.order[..i]) <= finder.visited
    {
      assert graph.order[i] in Elems(graph.order);
      cycle := finder.Visit(graph.order[i]);
      if cycle.Some? {
        return;
      }
      assert graph.order[..i + 1] == graph.order[..i] + [graph.order[i]];
    }
    assert graph.order[..|graph.order|] == graph.order;
    TopologicalIsAcyclic(graph, finder.finished);
    cycle := None;
  }
}
