/** Directed graphs of jobs: Kahn's sort and the enumeration of maximal paths.
  */
module Graphs {

  predicate Edge<V(==)>(g: map<V, set<V>>, v: V, w: V) {
    v in g && w in g[v]
  }

  /** Every edge ends in a vertex. */
  ghost predicate Closed<V(!new)>(g: map<V, set<V>>) {
    forall v, w :: Edge(g, v, w) ==> w in g
  }

  predicate StepAt<V(==)>(g: map<V, set<V>>, p: seq<V>, i: nat)
    requires i + 1 < |p|
  {
    Edge(g, p[i], p[i+1])
  }

  /** A non-empty walk along edges. */
  ghost predicate IsWalk<V>(g: map<V, set<V>>, p: seq<V>) {
    |p| > 0 && forall i: nat :: i + 1 < |p| ==> StepAt(g, p, i)
  }

  ghost predicate OnCycle<V(!new)>(g: map<V, set<V>>, v: V) {
    exists p :: IsWalk(g, p) && |p| >= 2 && p[0] == v && p[|p|-1] == v
  }

  /** `v` has itself or one of its ancestors on a cycle. */
  ghost predicate BelowCycle<V(!new)>(g: map<V, set<V>>, v: V) {
    exists p :: IsWalk(g, p) && OnCycle(g, p[0]) && p[|p|-1] == v
  }

  ghost predicate Acyclic<V(!new)>(g: map<V, set<V>>) {
    forall v :: !OnCycle(g, v)
  }

  ghost predicate Distinct<V>(s: seq<V>) {
    forall i, k :: 0 <= i < k < |s| ==> s[i] != s[k]
  }

  /** All parents of each element of `out` come before it. */
  ghost predicate ParentsFirst<V(!new)>(g: map<V, set<V>>, out: seq<V>) {
    forall v, k :: 0 <= k < |out| && Edge(g, v, out[k]) ==> v in out[..k]
  }

  lemma WalkSlice<V(!new)>(g: map<V, set<V>>, p: seq<V>, i: nat, k: nat)
    requires IsWalk(g, p) && i < k <= |p|
    ensures IsWalk(g, p[i..k])
  {
    forall m: nat | m + 1 < k - i ensures StepAt(g, p[i..k], m) {
      assert StepAt(g, p, i + m);
    }
  }

  lemma WalkExtends<V(!new)>(g: map<V, set<V>>, p: seq<V>, v: V)
    requires IsWalk(g, p) && Edge(g, p[|p|-1], v)
    ensures IsWalk(g, p + [v])
  {
    forall m: nat | m + 1 < |p| + 1 ensures StepAt(g, p + [v], m) {
      if m + 1 < |p| {
        assert StepAt(g, p, m);
      }
    }
  }

  // ------------------------------------------------ an order that is safe

  /** Along a walk that ends in an ordered vertex, positions strictly increase. */
  lemma {:induction false} WalkInOrder<V(!new)>(g: map<V, set<V>>, out: seq<V>, p: seq<V>, k: nat)
    requires ParentsFirst(g, out) && IsWalk(g, p) && k < |out| && p[|p|-1] == out[k]
    ensures exists i :: 0 <= i <= k && out[i] == p[0] && (|p| >= 2 ==> i < k)
    decreases |p|
  {
    var n := |p|;
    if n > 1 {
      assert StepAt(g, p, n - 2);
      assert p[n-2] in out[..k];
      var m :| 0 <= m < k && out[m] == p[n-2];
      WalkSlice(g, p, 0, n - 1);
      WalkInOrder(g, out, p[..n-1], m);
      var i :| 0 <= i <= m && out[i] == p[..n-1][0];
      assert out[i] == p[0];
    }
  }

  lemma OrderedNotBelowCycle<V(!new)>(g: map<V, set<V>>, out: seq<V>, k: nat)
    requires ParentsFirst(g, out) && Distinct(out) && k < |out|
    ensures !BelowCycle(g, out[k])
  {
    if BelowCycle(g, out[k]) {
      var p :| IsWalk(g, p) && OnCycle(g, p[0]) && p[|p|-1] == out[k];
      var c :| IsWalk(g, c) && |c| >= 2 && c[0] == p[0] && c[|c|-1] == p[0];
      WalkInOrder(g, out, p, k);
      var i :| 0 <= i <= k && out[i] == p[0];
      WalkInOrder(g, out, c, i);
    }
  }

  // ------------------------------------------- vertices that are never reached

  ghost predicate HasParentIn<V>(g: map<V, set<V>>, R: set<V>, v: V) {
    exists u :: u in R && Edge(g, u, v)
  }

  /** Each vertex of `R` has a parent in `R`. */
  ghost predicate Trapped<V>(g: map<V, set<V>>, R: set<V>) {
    forall v {:trigger HasParentIn(g, R, v)} :: v in R ==> HasParentIn(g, R, v)
  }

  lemma {:induction false} BackwardWalk<V(!new)>(g: map<V, set<V>>, R: set<V>, v: V, n: nat) returns (p: seq<V>)
    requires Trapped(g, R) && v in R
    ensures IsWalk(g, p) && |p| == n + 1 && p[n] == v && forall i :: 0 <= i < |p| ==> p[i] in R
  {
    if n == 0 {
      p := [v];
    } else {
      assert HasParentIn(g, R, v);
      var u :| u in R && Edge(g, u, v);
      var q := BackwardWalk(g, R, u, n - 1);
      WalkExtends(g, q, v);
      p := q + [v];
    }
  }

  /** More positions than values: two positions hold the same value. */
  lemma {:induction false} Pigeonhole<V(!new)>(p: seq<V>, R: set<V>) returns (i: nat, k: nat)
    requires |p| > |R| && forall i :: 0 <= i < |p| ==> p[i] in R
    ensures i < k < |p| && p[i] == p[k]
  {
    var last := p[|p|-1];
    if j :| 0 <= j < |p| - 1 && p[j] == last {
      i, k := j, |p| - 1;
    } else {
      i, k := Pigeonhole(p[..|p|-1], R - {last});
    }
  }

  lemma TrappedBelowCycle<V(!new)>(g: map<V, set<V>>, R: set<V>, v: V)
    requires Trapped(g, R) && v in R
    ensures BelowCycle(g, v)
  {
    var p := BackwardWalk(g, R, v, |R|);
    var i, k := Pigeonhole(p, R);
    WalkSlice(g, p, i, k + 1);
    WalkSlice(g, p, i, |p|);
    var c := p[i..k+1];
    assert IsWalk(g, c) && |c| >= 2 && c[0] == p[i] && c[|c|-1] == p[k];
    assert OnCycle(g, p[i]);
    var w := p[i..|p|];
    assert IsWalk(g, w) && w[0] == p[i] && w[|w|-1] == v;
  }

  // ---------------------------------------------------------------- the class

  function Parents<V(==)>(g: map<V, set<V>>, v: V): set<V> {
    set u | u in g && v in g[u]
  }

  /** The parents of `v` that are not in `gone`. */
  function Missing<V(==)>(g: map<V, set<V>>, gone: set<V>, v: V): set<V> {
    set u | u in g && v in g[u] && u !in gone
  }

  /** One vertex more that is gone: one parent less for each of its children. */
  lemma MissingShrinks<V>(g: map<V, set<V>>, gone: set<V>, u: V, v: V)
    requires u in g && u !in gone
    ensures |Missing(g, gone, v)| == |Missing(g, gone + {u}, v)| + (if v in g[u] then 1 else 0)
  {
    if v in g[u] {
      assert Missing(g, gone, v) == Missing(g, gone + {u}, v) + {u};
    } else {
      assert Missing(g, gone, v) == Missing(g, gone + {u}, v);
    }
  }

  lemma MissingShrinksForAll<V(!new)>(g: map<V, set<V>>, todo: set<V>, u: V)
    requires u in g && u in todo
    ensures forall v :: v in g ==> |Missing(g, todo - {u}, v)| == |Missing(g, todo, v)| + (if v in g[u] then 1 else 0)
  {
    assert (todo - {u}) + {u} == todo;
    forall v | v in g {
      MissingShrinks(g, todo - {u}, u, v);
    }
  }

  function Elements<V(==)>(s: seq<V>): set<V> {
    set v | v in s
  }

  // ------------------------------------------------------------- Kahn's sort

  method SetToSeq<V(==)>(S: set<V>) returns (s: seq<V>)
    ensures Distinct(s) && forall v :: v in s <==> v in S
  {
    s := [];
    var rest := S;
    while rest != {}
      invariant rest <= S && Distinct(s)
      invariant forall v :: v in s <==> v in S && v !in rest
      decreases |rest|
    {
      var v :| v in rest;
      s := s + [v];
      rest := rest - {v};
    }
  }

  lemma {:induction false} DistinctSize<V>(s: seq<V>)
    requires Distinct(s)
    ensures |Elements(s)| == |s|
  {
    if s != [] {
      var t := s[..|s|-1];
      DistinctSize(t);
      ElementsSnoc(t, s[|s|-1]);
      assert t + [s[|s|-1]] == s;
    }
  }

  lemma ElementsSnoc<V>(s: seq<V>, v: V)
    ensures Elements(s + [v]) == Elements(s) + {v}
  {
  }

  lemma DistinctBound<V(!new)>(out: seq<V>, queue: seq<V>, all: set<V>)
    requires Distinct(out + queue) && forall v :: v in out || v in queue ==> v in all
    ensures |out| + |queue| <= |all| && Distinct(out)
  {
    DistinctSize(out + queue);
    assert Elements(out + queue) <= all;
    assert all == Elements(out + queue) + (all - Elements(out + queue));
    forall i, k | 0 <= i < k < |out| ensures out[i] != out[k] {
      assert (out + queue)[i] == out[i] && (out + queue)[k] == out[k];
    }
  }

  /** The state of the sort: `out` are the yielded vertices, `queue` those whose
    * parents are all yielded, `todo` the children of the last yielded vertex that
    * still have to be visited, `count` the unresolved parents per vertex. */
  ghost predicate SortInv<V(!new)>(g: map<V, set<V>>, out: seq<V>, queue: seq<V>, todo: set<V>, count: map<V, int>) {
    && count.Keys == g.Keys
    && Distinct(out + queue)
    && (forall v :: v in out || v in queue ==> v in g)
    && ParentsFirst(g, out)
    && (forall v :: v in g ==> count[v] == |Missing(g, Elements(out), v)| + if v in todo then 1 else 0)
    && (forall v :: v in g ==> (v in out || v in queue <==> Missing(g, Elements(out), v) == {} && v !in todo))
  }

  lemma MissingOf<V>(g: map<V, set<V>>, gone: set<V>, v: V, u: V)
    ensures u in Missing(g, gone, v) <==> Edge(g, u, v) && u !in gone
  {
  }

  /** A vertex without missing parents may come next. */
  lemma OneMoreInOrder<V(!new)>(g: map<V, set<V>>, out: seq<V>, x: V)
    requires ParentsFirst(g, out) && Missing(g, Elements(out), x) == {}
    ensures ParentsFirst(g, out + [x])
  {
    var out' := out + [x];
    forall v, k | 0 <= k < |out'| && Edge(g, v, out'[k]) ensures v in out'[..k] {
      if k < |out| {
        assert out'[k] == out[k] && out'[..k] == out[..k];
      } else {
        MissingOf(g, Elements(out), x, v);
        assert out'[..k] == out;
      }
    }
  }

  /** Yield the first of the queue: its children become the vertices to visit. */
  lemma YieldStep<V(!new)>(g: map<V, set<V>>, out: seq<V>, queue: seq<V>, count: map<V, int>)
    requires Closed(g) && SortInv(g, out, queue, {}, count) && queue != []
    ensures SortInv(g, out + [queue[0]], queue[1..], g[queue[0]], count)
  {
    var x := queue[0];
    var out', queue' := out + [x], queue[1..];
    assert out' + queue' == out + queue;
    assert x in queue && x in g && Missing(g, Elements(out), x) == {};
    OneMoreInOrder(g, out, x);
    assert x !in out by {
      forall i | 0 <= i < |out| ensures out[i] != x {
        assert (out + queue)[i] == out[i] && (out + queue)[|out|] == x;
      }
    }
    ElementsSnoc(out, x);
    forall v | v in g
      ensures |Missing(g, Elements(out), v)| == |Missing(g, Elements(out'), v)| + (if v in g[x] then 1 else 0)
      ensures Missing(g, Elements(out), v) == {} <==> Missing(g, Elements(out'), v) == {} && v !in g[x]
      ensures v in out || v in queue <==> v in out' || v in queue'
    {
      MissingShrinks(g, Elements(out), x, v);
      MissingOf(g, Elements(out), v, x);
    }
  }

  /** Visit one child: it joins the queue exactly when its count drops to zero. */
  lemma VisitStep<V(!new)>(g: map<V, set<V>>, out: seq<V>, queue: seq<V>, todo: set<V>, count: map<V, int>, node: V)
    requires SortInv(g, out, queue, todo, count) && node in todo && node in g
    ensures var count' := count[node := count[node] - 1];
            SortInv(g, out, if count'[node] == 0 then queue + [node] else queue, todo - {node}, count')
  {
    var count' := count[node := count[node] - 1];
    assert count'[node] == |Missing(g, Elements(out), node)|;
    assert node !in out && node !in queue;
    var queue' := if count'[node] == 0 then queue + [node] else queue;
    forall i, k | 0 <= i < k < |out + queue'| ensures (out + queue')[i] != (out + queue')[k] {
      if k < |out + queue| {
        assert (out + queue')[i] == (out + queue)[i] && (out + queue')[k] == (out + queue)[k];
      } else {
        assert (out + queue')[i] in out || (out + queue')[i] in queue;
      }
    }
  }

  /** Once the queue is empty, what was not yielded is below a cycle. */
  lemma SortEnd<V(!new)>(g: map<V, set<V>>, out: seq<V>, count: map<V, int>, v: V)
    requires Closed(g) && SortInv(g, out, [], {}, count) && v in g && v !in out
    ensures BelowCycle(g, v)
  {
    var R := g.Keys - Elements(out);
    forall w | w in R ensures HasParentIn(g, R, w) {
      assert Missing(g, Elements(out), w) != {};
      var u :| u in Missing(g, Elements(out), w);
      assert u in R && Edge(g, u, w);
    }
    TrappedBelowCycle(g, R, v);
  }

  lemma SortResult<V(!new)>(g: map<V, set<V>>, out: seq<V>, count: map<V, int>)
    requires Closed(g) && SortInv(g, out, [], {}, count)
    ensures Distinct(out) && ParentsFirst(g, out)
    ensures forall v :: v in out <==> v in g && !BelowCycle(g, v)
  {
    assert out + [] == out;
    forall v
      ensures v in out <==> v in g && !BelowCycle(g, v)
    {
      if v in out {
        var k :| 0 <= k < |out| && out[k] == v;
        OrderedNotBelowCycle(g, out, k);
      } else if v in g {
        SortEnd(g, out, count, v);
      }
    }
  }

  class Graph<V(==, !new)> {
    var graph: map<V, set<V>>

    constructor ()
      ensures graph == map[]
    {
      graph := map[];
    }

    method AddVertex(v: V)
      modifies this
      ensures old(Closed(graph)) ==> Closed(graph)
      ensures graph.Keys == old(graph.Keys) + {v}
      ensures forall a, b :: Edge(graph, a, b) <==> old(Edge(graph, a, b))
    {
      ghost var g0 := graph;
      if v !in graph {
        graph := graph[v := {}];
      }
      assert forall a, b :: Edge(graph, a, b) <==> Edge(g0, a, b);
    }

    /** Both ends become vertices; exactly one edge is added. */
    method AddEdge(parent: V, child: V)
      modifies this
      ensures old(Closed(graph)) ==> Closed(graph)
      ensures graph.Keys == old(graph.Keys) + {parent, child}
      ensures forall a, b :: Edge(graph, a, b) <==> old(Edge(graph, a, b)) || (a == parent && b == child)
    {
      AddVertex(child);
      ghost var g0 := graph;
      if parent in graph {
        graph := graph[parent := graph[parent] + {child}];
      } else {
        graph := graph[parent := {child}];
      }
      assert forall a, b :: Edge(graph, a, b) <==> Edge(g0, a, b) || (a == parent && b == child);
    }

    /** The vertices that are no child of any vertex. */
    method RootVertices() returns (roots: set<V>)
      ensures forall v :: v in roots <==> v in graph && Parents(graph, v) == {}
    {
      var todo, children := graph.Keys, {};
      while todo != {}
        invariant todo <= graph.Keys
        invariant forall w :: w in children <==> exists v :: v in graph && v !in todo && w in graph[v]
        decreases |todo|
      {
        var v :| v in todo;
        todo := todo - {v};
        children := children + graph[v];
      }
      roots := graph.Keys - children;
      forall v | v in graph ensures v in roots <==> Parents(graph, v) == {} {
        if v in children {
          var u :| u in graph && v in graph[u];
          assert u in Parents(graph, v);
        }
        if u :| u in Parents(graph, v) {
          assert v in graph[u];
        }
      }
    }

    /** How many edges end in each vertex. */
    method CountParents() returns (count: map<V, int>)
      requires Closed(graph)
      ensures count.Keys == graph.Keys
      ensures forall v :: v in graph ==> count[v] == |Parents(graph, v)|
    {
      count := map v | v in graph :: 0;
      var todo := graph.Keys;
      while todo != {}
        invariant todo <= graph.Keys && count.Keys == graph.Keys
        invariant forall v :: v in graph ==> count[v] == |Missing(graph, todo, v)|
        decreases |todo|
      {
        var u :| u in todo;
        MissingShrinksForAll(graph, todo, u);
        todo := todo - {u};
        count := map v | v in graph :: if v in graph[u] then count[v] + 1 else count[v];
      }
      forall v | v in graph ensures Missing(graph, {}, v) == Parents(graph, v) {
      }
    }

    /** `topological_sort`: yields, once each and after all their parents, exactly
      * the vertices that have no cycle at or above them. */
    method TopologicalSort() returns (out: seq<V>)
      requires Closed(graph)
      ensures Distinct(out) && ParentsFirst(graph, out)
      ensures forall v :: v in out <==> v in graph && !BelowCycle(graph, v)
    {
      var count := CountParents();
      var roots := RootVertices();
      var queue := SetToSeq(roots);
      out := [];
      assert SortInv(graph, out, queue, {}, count) by {
        forall v | v in graph ensures Missing(graph, Elements(out), v) == Parents(graph, v) {
        }
        assert out + queue == queue;
      }
      while queue != []
        invariant SortInv(graph, out, queue, {}, count)
        decreases |graph| - |out|
      {
        YieldStep(graph, out, queue, count);
        var vertex := queue[0];
        queue := queue[1..];
        ghost var out0 := out;
        out := out + [vertex];
        var todo := graph[vertex];
        while todo != {}
          invariant todo <= graph[vertex]
          invariant SortInv(graph, out, queue, todo, count)
          decreases |todo|
        {
          var node :| node in todo;
          assert Edge(graph, vertex, node);
          VisitStep(graph, out, queue, todo, count, node);
          count := count[node := count[node] - 1];
          if count[node] == 0 {
            queue := queue + [node];
          }
          todo := todo - {node};
        }
        DistinctBound(out, queue, graph.Keys);
      }
      SortResult(graph, out, count);
    }

    /** On an acyclic graph the sort is an order of all vertices. */
    method SortAcyclic() returns (out: seq<V>)
      requires Closed(graph) && Acyclic(graph)
      ensures Distinct(out) && ParentsFirst(graph, out)
      ensures Elements(out) == graph.Keys && |out| == |graph|
    {
      out := TopologicalSort();
      DistinctSize(out);
      assert graph.Keys == Elements(out);
    }
  }

  // -------------------------------------------------------------------- paths

  /** A path without repeated vertex that cannot be extended. */
  ghost predicate MaximalPath<V>(g: map<V, set<V>>, p: seq<V>) {
    && IsWalk(g, p) && Distinct(p)
    && p[|p|-1] in g && forall w :: w in g[p[|p|-1]] ==> w in p
  }

  /** `found` are, once each, exactly the maximal paths that extend `path` by one
    * of the vertices in `next` (and by nothing, if `self`). */
  ghost predicate Enumerates<V(!new)>(g: map<V, set<V>>, path: seq<V>, next: set<V>, self: bool, found: seq<seq<V>>) {
    && Distinct(found)
    && forall p :: p in found <==> MaximalPath(g, p) && Extends(p, path, next, self)
  }

  predicate Extends<V(==)>(p: seq<V>, path: seq<V>, next: set<V>, self: bool) {
    path <= p && if |p| > |path| then p[|path|] in next else self
  }

  /** One more neighbour explored. */
  lemma MorePaths<V(!new)>(g: map<V, set<V>>, path: seq<V>, done: set<V>, n: V, more: seq<seq<V>>, sub: seq<seq<V>>)
    requires path != [] && n !in done && Enumerates(g, path, done, false, more)
    requires Distinct(sub) && forall p :: p in sub <==> MaximalPath(g, p) && path + [n] <= p
    ensures Enumerates(g, path, done + {n}, false, more + sub)
  {
    forall p
      ensures path + [n] <= p <==> Extends(p, path, {n}, false)
      ensures Extends(p, path, done + {n}, false) <==> Extends(p, path, done, false) || Extends(p, path, {n}, false)
      ensures !(Extends(p, path, done, false) && Extends(p, path, {n}, false))
    {
      if Extends(p, path, {n}, false) {
        assert p[..|path|+1] == path + [n];
      }
    }
    forall i, k | 0 <= i < k < |more + sub| ensures (more + sub)[i] != (more + sub)[k] {
      if i < |more| <= k {
        assert more[i] in more && sub[k - |more|] in sub;
      }
    }
  }

  /** A neighbour that is on the path already leads to no further path. */
  lemma SeenSkips<V(!new)>(g: map<V, set<V>>, path: seq<V>, done: set<V>, n: V, more: seq<seq<V>>)
    requires path != [] && n in path && Enumerates(g, path, done, false, more)
    ensures Enumerates(g, path, done + {n}, false, more)
  {
    forall p | MaximalPath(g, p) && Extends(p, path, done + {n}, false)
      ensures Extends(p, path, done, false)
    {
      forall i | 0 <= i < |path| ensures path[i] != p[|path|] {
        assert p[i] == path[i];
      }
    }
  }

  /** All neighbours explored: the path itself counts if none was new. */
  lemma PathsComplete<V(!new)>(g: map<V, set<V>>, path: seq<V>, more: seq<seq<V>>, deadEnd: bool)
    requires IsWalk(g, path) && Distinct(path) && path[|path|-1] in g
    requires deadEnd <==> forall w :: w in g[path[|path|-1]] ==> w in path
    requires Enumerates(g, path, g[path[|path|-1]], false, more)
    ensures Distinct(if deadEnd then more + [path] else more)
    ensures forall p :: p in (if deadEnd then more + [path] else more) <==> MaximalPath(g, p) && path <= p
  {
    forall p | MaximalPath(g, p) && path <= p && p != path
      ensures Extends(p, path, g[path[|path|-1]], false)
    {
      assert StepAt(g, p, |path| - 1);
    }
    assert path !in more;
  }

  /** The generator inside `paths`: the path traversed so far and the set of its
    * vertices are updated in place and restored by backtracking. */
  class PathSearch<V(==, !new)> {
    const graph: map<V, set<V>>
    var path: seq<V>
    var seen: set<V>
    var found: seq<seq<V>>

    constructor (graph: map<V, set<V>>, vertex: V)
      ensures this.graph == graph && path == [vertex] && seen == {vertex} && found == []
    {
      this.graph := graph;
      path := [vertex];
      seen := {vertex};
      found := [];
    }

    ghost predicate Valid()
      reads this
    {
      && Closed(graph)
      && IsWalk(graph, path) && Distinct(path) && seen == Elements(path)
      && path[0] in graph && seen <= graph.Keys
    }

    /** Go on to a new neighbour, search from there, and come back. */
    method Explore(n: V) returns (ghost sub: seq<seq<V>>)
      requires Valid() && Edge(graph, path[|path|-1], n) && n !in seen
      modifies this
      decreases graph.Keys - seen, 0
      ensures Valid() && path == old(path) && seen == old(seen) && found == old(found) + sub
      ensures Distinct(sub) && forall p :: p in sub <==> MaximalPath(graph, p) && path + [n] <= p
    {
      ghost var path0, found0 := path, found;
      assert n in graph.Keys - seen;
      WalkExtends(graph, path, n);
      seen := seen + {n};
      path := path + [n];
      Search();
      sub :| found == found0 + sub && Distinct(sub) && forall p :: p in sub <==> MaximalPath(graph, p) && path0 + [n] <= p;
      path := path[..|path|-1];
      seen := seen - {n};
      assert path == path0;
    }

    /** The nested `search`: restores `path` and `seen` and yields, once each,
      * exactly the maximal paths that extend the current one. */
    method Search()
      requires Valid()
      modifies this
      decreases graph.Keys - seen, 1
      ensures Valid() && path == old(path) && seen == old(seen)
      ensures exists more :: (&& found == old(found) + more
                              && Distinct(more)
                              && forall p :: p in more <==> MaximalPath(graph, p) && path <= p)
    {
      ghost var path0, seen0, found0 := path, seen, found;
      var last := path[|path|-1];
      assert last in seen;
      var deadEnd := true;
      var todo := graph[last];
      ghost var more: seq<seq<V>> := [];
      while todo != {}
        invariant Valid() && path == path0 && seen == seen0
        invariant todo <= graph[last]
        invariant found == found0 + more
        invariant deadEnd <==> forall w :: w in graph[last] && w !in todo ==> w in path0
        invariant Enumerates(graph, path0, graph[last] - todo, false, more)
        decreases |todo|
      {
        var neighbour :| neighbour in todo;
        ghost var done := graph[last] - todo;
        assert graph[last] - (todo - {neighbour}) == done + {neighbour};
        todo := todo - {neighbour};
        if neighbour !in seen {
          deadEnd := false;
          ghost var sub := Explore(neighbour);
          MorePaths(graph, path0, done, neighbour, more, sub);
          more := more + sub;
        } else {
          SeenSkips(graph, path0, done, neighbour, more);
        }
      }
      PathsComplete(graph, path, more, deadEnd);
      if deadEnd {
        found := found + [path];
        more := more + [path];
      }
    }
  }

  /** `paths`: once each, exactly the maximal paths without repeated vertex that start
    * at `vertex`. */
  method Paths<V(==, !new)>(graph: map<V, set<V>>, vertex: V) returns (paths: seq<seq<V>>)
    requires Closed(graph) && vertex in graph
    ensures Distinct(paths)
    ensures forall p :: p in paths <==> MaximalPath(graph, p) && p[0] == vertex
  {
    var search := new PathSearch(graph, vertex);
    search.Search();
    paths := search.found;
    forall p | MaximalPath(graph, p) ensures [vertex] <= p <==> p[0] == vertex {
    }
  }
}
