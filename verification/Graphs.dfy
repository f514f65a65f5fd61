/** Directed graphs kept as a map from each vertex to its neighbours, and the two ways of walking them. */
module Graphs {
  import opened Sequences

  // ---- Elements, edges and paths ----

  ghost predicate Closed<V>(g: map<V, set<V>>) {
    forall v | v in g :: g[v] <= g.Keys
  }

  function Preds<V>(g: map<V, set<V>>, v: V): set<V> {
    set u | u in g && v in g[u]
  }

  ghost function EdgeSet<V>(g: map<V, set<V>>): set<(V, V)> {
    set u, v | u in g && v in g[u] :: (u, v)
  }

  /** A walk along the edges of `g`. */
  ghost predicate IsPath<V>(g: map<V, set<V>>, p: seq<V>) {
    && |p| >= 1
    && (forall i | 0 <= i < |p| :: p[i] in g)
    && (forall i, j | 0 <= i && j == i + 1 < |p| :: p[j] in g[p[i]])
  }

  ghost predicate IsCycle<V>(g: map<V, set<V>>, p: seq<V>) {
    IsPath(g, p) && |p| >= 2 && p[0] == p[|p| - 1]
  }

  /** A path that visits no vertex twice and cannot be extended without doing so. */
  ghost predicate IsMaximal<V>(g: map<V, set<V>>, p: seq<V>) {
    IsPath(g, p) && Distinct(p) && g[p[|p| - 1]] <= Elements(p)
  }

  /** Every member of `s` depends on another member. */
  ghost predicate Rootless<V>(g: map<V, set<V>>, s: set<V>) {
    forall v | v in s :: Preds(g, v) * s != {}
  }

  /** Every set of vertices has a member that depends on no other member. */
  ghost predicate Acyclic<V>(g: map<V, set<V>>) {
    forall s | s <= g.Keys && s != {} :: !Rootless(g, s)
  }

  /** Every vertex of `order` comes after all the vertices it depends on. */
  ghost predicate Ordered<V>(g: map<V, set<V>>, order: seq<V>) {
    forall i | 0 <= i < |order| :: order[i] in g && Preds(g, order[i]) <= Elements(order[..i])
  }

  // ---- What acyclic means ----

  lemma {:induction false} Backwards<V>(g: map<V, set<V>>, s: set<V>, v: V, n: nat) returns (p: seq<V>)
    requires s <= g.Keys && v in s && Rootless(g, s)
    ensures IsPath(g, p) && |p| == n + 1 && Elements(p) <= s
  {
    if n == 0 {
      p := [v];
    } else {
      var u :| u in Preds(g, v) * s;
      p := Backwards(g, s, v, n - 1);
      assert p[0] in Elements(p);
      var w :| w in Preds(g, p[0]) * s;
      p := [w] + p;
    }
  }

  lemma {:induction false} DistinctFits<V>(p: seq<V>, s: set<V>)
    requires Distinct(p) && Elements(p) <= s
    ensures |p| <= |s|
  {
    if |p| > 0 {
      var q := p[..|p| - 1];
      var v := p[|p| - 1];
      assert forall u | u in q :: u in p && u != v;
      DistinctFits(q, s - {v});
      assert v in p;
    }
  }

  lemma CycleIsRootless<V>(g: map<V, set<V>>, p: seq<V>)
    requires IsCycle(g, p)
    ensures Rootless(g, Elements(p)) && Elements(p) <= g.Keys && p[0] in Elements(p)
  {
    forall v | v in Elements(p) ensures Preds(g, v) * Elements(p) != {} {
      var i :| 0 <= i < |p| && p[i] == v;
      var j := if i == 0 then |p| - 2 else i - 1;
      assert p[j + 1] == v && p[j] in Preds(g, v) * Elements(p);
    }
  }

  /** A graph is acyclic exactly when no walk returns to where it started. */
  lemma AcyclicMeansNoCycle<V>(g: map<V, set<V>>)
    ensures Acyclic(g) <==> forall p :: !IsCycle(g, p)
  {
    if p :| IsCycle(g, p) {
      CycleIsRootless(g, p);
    } else if s :| s <= g.Keys && s != {} && Rootless(g, s) {
      var v :| v in s;
      var p := Backwards(g, s, v, |s|);
      if Distinct(p) {
        DistinctFits(p, s);
      }
      var i, j :| 0 <= i < j < |p| && p[i] == p[j];
      assert IsCycle(g, p[i..j + 1]);
    }
  }

  /** A graph can be put in dependency order exactly when it is acyclic: an order of everything proves it so. */
  lemma OrderedIsAcyclic<V>(g: map<V, set<V>>, order: seq<V>)
    requires Ordered(g, order) && Elements(order) == g.Keys
    ensures Acyclic(g)
  {
    forall s | s <= g.Keys && s != {} ensures !Rootless(g, s) {
      var v :| v in s;
      assert v in order;
      var k :| 0 <= k < |order| && order[k] == v;
      var i := FirstIn(order, s, k);
      assert Preds(g, order[i]) <= Elements(order[..i]);
    }
  }

  lemma FirstIn<V>(order: seq<V>, s: set<V>, k: nat) returns (i: nat)
    requires k < |order| && order[k] in s
    ensures i < |order| && order[i] in s && Elements(order[..i]) !! s
  {
    i := 0;
    while order[i] !in s
      invariant i <= k
      invariant forall j | 0 <= j < i :: order[j] !in s
      decreases k - i
    {
      i := i + 1;
    }
  }

  /** In a dependency order, the end of a path comes strictly after its start. */
  lemma {:induction false} PathsFollowOrder<V>(g: map<V, set<V>>, order: seq<V>, p: seq<V>, j: nat) returns (i: nat)
    requires Ordered(g, order) && Distinct(order) && IsPath(g, p) && |p| >= 2
    requires j < |order| && order[j] == p[|p| - 1]
    ensures i < j && order[i] == p[0]
  {
    var q := p[..|p| - 1];
    assert q[|q| - 1] in Preds(g, order[j]);
    var k :| 0 <= k < j && order[k] == q[|q| - 1];
    if |q| == 1 {
      i := k;
    } else {
      i := PathsFollowOrder(g, order, q, k);
    }
  }

  // ---- Counting ----

  function Count<V(==)>(counts: map<V, int>, v: V): int {
    if v in counts then counts[v] else 0
  }

  ghost function Sources<V>(links: seq<(V, V)>, v: V): set<V> {
    set e | e in links && e.1 == v :: e.0
  }

  lemma NextSource<V>(links: seq<(V, V)>, link: (V, V), v: V)
    requires link !in links
    ensures |Sources(links + [link], v)| == |Sources(links, v)| + if v == link.1 then 1 else 0
  {
    if v == link.1 {
      assert Sources(links + [link], v) == Sources(links, v) + {link.0};
    } else {
      assert Sources(links + [link], v) == Sources(links, v);
    }
  }

  // ---- Kahn's algorithm ----

  ghost predicate Degrees<V>(g: map<V, set<V>>, counts: map<V, int>) {
    forall v | v in g :: Count(counts, v) == |Preds(g, v)|
  }

  ghost function Roots<V>(g: map<V, set<V>>): set<V> {
    set v | v in g && Preds(g, v) == {}
  }

  lemma Appended<V>(p: seq<V>, v: V)
    requires Distinct(p) && v !in Elements(p)
    ensures Distinct(p + [v]) && Elements(p + [v]) == Elements(p) + {v}
  {
    assert v !in p;
  }

  lemma FirstAndRest<V>(p: seq<V>)
    ensures p != [] ==> p[0] in Elements(p) && Elements(p) == {p[0]} + Elements(p[1..])
    ensures p == [] ==> Elements(p) == {}
  {
    assert p != [] ==> p == [p[0]] + p[1..];
  }

  lemma Popped<V>(p: seq<V>)
    requires Distinct(p) && p != []
    ensures p[0] in Elements(p) && Distinct(p[1..]) && Elements(p[1..]) == Elements(p) - {p[0]}
  {
    assert forall i | 1 <= i < |p| :: p[1..][i - 1] == p[i];
  }

  lemma OrderedGrows<V>(g: map<V, set<V>>, order: seq<V>, v: V)
    requires Ordered(g, order) && v in g && Preds(g, v) <= Elements(order)
    ensures Ordered(g, order + [v])
  {
    assert forall i | 0 <= i <= |order| :: (order + [v])[..i] == order[..i];
  }

  /** The dependencies of `v` still counted while the neighbours of the vertex just yielded are visited. */
  ghost function Left<V>(g: map<V, set<V>>, before: set<V>, done: set<V>, nodes: set<V>, v: V): set<V> {
    if v in nodes then Preds(g, v) - before else Preds(g, v) - done
  }

  /** The counters are right, and the vertices met so far are those with nothing left to wait for. */
  ghost predicate Kahn<V>(
      g: map<V, set<V>>, counts: map<V, int>, met: set<V>, before: set<V>, done: set<V>, nodes: set<V>) {
    forall v {:trigger KahnAt(g, counts, met, before, done, nodes, v)} | v in g ::
      KahnAt(g, counts, met, before, done, nodes, v)
  }

  ghost predicate KahnAt<V>(
      g: map<V, set<V>>, counts: map<V, int>, met: set<V>, before: set<V>, done: set<V>, nodes: set<V>, v: V) {
    var left := Left(g, before, done, nodes, v);
    Count(counts, v) == |left| && (v in met <==> left == {})
  }

  lemma LeftAtYield<V>(g: map<V, set<V>>, before: set<V>, vertex: V, v: V)
    requires vertex in g
    ensures Left(g, before, before + {vertex}, g[vertex], v) == Left(g, before, before, {}, v)
  {
    assert vertex in Preds(g, v) <==> v in g[vertex];
    hide Preds;
  }

  lemma KahnYields<V>(g: map<V, set<V>>, counts: map<V, int>, met: set<V>, before: set<V>, vertex: V)
    requires Kahn(g, counts, met, before, before, {}) && vertex in g && vertex in met
    ensures Kahn(g, counts, met, before, before + {vertex}, g[vertex])
    ensures Preds(g, vertex) <= before
  {
    hide Preds;
    assert KahnAt(g, counts, met, before, before, {}, vertex);
    assert forall u | u in Preds(g, vertex) && u !in before :: u in Left(g, before, before, {}, vertex);
    hide Left;
    forall v | v in g
      ensures KahnAt(g, counts, met, before, before + {vertex}, g[vertex], v)
    {
      assert KahnAt(g, counts, met, before, before, {}, v);
      LeftAtYield(g, before, vertex, v);
    }
  }

  lemma KahnReleases<V>(
      g: map<V, set<V>>, counts: map<V, int>, met: set<V>, before: set<V>, vertex: V, nodes: set<V>, node: V)
    requires Kahn(g, counts, met, before, before + {vertex}, nodes)
    requires vertex in g && vertex !in before && node in g && node in nodes && nodes <= g[vertex]
    ensures node !in met
    ensures var left := Count(counts, node) - 1;
      Kahn(g, counts[node := left], if left == 0 then met + {node} else met, before, before + {vertex}, nodes - {node})
  {
    var done := before + {vertex};
    var left := Count(counts, node) - 1;
    var counts', met' := counts[node := left], if left == 0 then met + {node} else met;
    assert KahnAt(g, counts, met, before, done, nodes, node);
    var was := Left(g, before, done, nodes, node);
    var now := Left(g, before, done, nodes - {node}, node);
    assert vertex in was && was == now + {vertex} && vertex !in now;
    forall v | v in g ensures KahnAt(g, counts', met', before, done, nodes - {node}, v) {
      assert KahnAt(g, counts, met, before, done, nodes, v);
      assert v != node ==> Left(g, before, done, nodes - {node}, v) == Left(g, before, done, nodes, v);
    }
  }

  lemma KahnTurns<V>(g: map<V, set<V>>, counts: map<V, int>, met: set<V>, before: set<V>, done: set<V>)
    requires Kahn(g, counts, met, before, done, {})
    ensures Kahn(g, counts, met, done, done, {})
  {
    forall v | v in g ensures KahnAt(g, counts, met, done, done, {}, v) {
      assert KahnAt(g, counts, met, before, done, {}, v);
    }
  }

  /** The queue holds the vertices that have been met and not yielded. */
  ghost predicate Waiting<V>(g: map<V, set<V>>, met: set<V>, done: set<V>, queue: seq<V>) {
    Distinct(queue) && Elements(queue) == met - done && done <= met <= g.Keys
  }

  ghost function Room<V>(g: map<V, set<V>>, done: set<V>): nat {
    |g.Keys - done|
  }

  lemma RoomShrinks<V>(g: map<V, set<V>>, done: set<V>, v: V)
    requires v in g && v !in done
    ensures Room(g, done + {v}) < Room(g, done)
  {
    assert g.Keys - done == g.Keys - (done + {v}) + {v};
  }

  /** What has been yielded is in order. */
  ghost predicate Yielded<V>(g: map<V, set<V>>, done: set<V>, order: seq<V>) {
    Distinct(order) && Elements(order) == done && Ordered(g, order)
  }

  lemma SortStarts<V>(g: map<V, set<V>>, counts: map<V, int>)
    requires Degrees(g, counts)
    ensures Roots(g) <= g.Keys && Kahn(g, counts, Roots(g), {}, {}, {})
    ensures Waiting(g, {}, {}, []) && Yielded(g, {}, [])
  {
    KahnStarts(g, counts);
  }

  lemma WaitingGrows<V>(g: map<V, set<V>>, met: set<V>, done: set<V>, queue: seq<V>, v: V)
    requires Waiting(g, met, done, queue) && v in g && v !in met
    ensures Waiting(g, met + {v}, done, queue + [v])
  {
    Appended(queue, v);
  }

  lemma SortYields<V>(
      g: map<V, set<V>>, counts: map<V, int>, met: set<V>, done: set<V>, queue: seq<V>, order: seq<V>)
    requires Waiting(g, met, done, queue) && queue != [] && Yielded(g, done, order)
    requires Kahn(g, counts, met, done, done, {}) && Closed(g)
    ensures var v := queue[0];
      && v in g && v !in done && g[v] <= g.Keys && Room(g, done + {v}) < Room(g, done)
      && Waiting(g, met, done + {v}, queue[1..]) && Yielded(g, done + {v}, order + [v])
      && Kahn(g, counts, met, done, done + {v}, g[v])
  {
    Popped(queue);
    RoomShrinks(g, done, queue[0]);
    KahnYields(g, counts, met, done, queue[0]);
    OrderedGrows(g, order, queue[0]);
    Appended(order, queue[0]);
  }

  lemma SortEnds<V>(g: map<V, set<V>>, counts: map<V, int>, met: set<V>, done: set<V>, order: seq<V>)
    requires Waiting(g, met, done, []) && Yielded(g, done, order)
    requires Kahn(g, counts, met, done, done, {})
    ensures Distinct(order) && Ordered(g, order)
    ensures Elements(order) == g.Keys <==> Acyclic(g)
  {
    assert forall v | v in met :: v in done || v in Elements<V>([]);
    assert met == done;
    if Acyclic(g) {
      KahnFinishes(g, counts, done);
    }
    if Elements(order) == g.Keys {
      OrderedIsAcyclic(g, order);
    }
  }

  lemma KahnFinishes<V>(g: map<V, set<V>>, counts: map<V, int>, done: set<V>)
    requires Kahn(g, counts, done, done, done, {}) && Acyclic(g)
    ensures g.Keys <= done
  {
    var rest := g.Keys - done;
    forall v | v in rest ensures Preds(g, v) * rest != {} {
      assert KahnAt(g, counts, done, done, done, {}, v);
      var u :| u in Left(g, done, done, {}, v);
      assert u in Preds(g, v) * rest;
    }
    assert Rootless(g, rest);
    assert forall v | v in g.Keys :: v in rest || v in done;
  }

  lemma KahnStarts<V>(g: map<V, set<V>>, counts: map<V, int>)
    requires Degrees(g, counts)
    ensures Kahn(g, counts, Roots(g), {}, {}, {})
  {
    forall v | v in g ensures KahnAt(g, counts, Roots(g), {}, {}, {}, v) {
      assert Left(g, {}, {}, {}, v) == Preds(g, v);
    }
  }

  // ---- Searching for paths ----

  lemma OneMoreVertex<V>(p: seq<V>, v: V)
    ensures Elements(p + [v]) == Elements(p) + {v}
  {
  }

  lemma Longer<V>(g: map<V, set<V>>, path: seq<V>, n: V)
    requires Closed(g) && IsPath(g, path) && n in g[path[|path| - 1]] - Elements(path)
    ensures IsPath(g, path + [n]) && Elements(path + [n]) == Elements(path) + {n} && n in g
    ensures Room(g, Elements(path + [n])) < Room(g, Elements(path))
    ensures Distinct(path) ==> Distinct(path + [n])
  {
    hide Elements, Room, Distinct;
    OneMoreVertex(path, n);
    RoomShrinks(g, Elements(path), n);
    if Distinct(path) {
      Appended(path, n);
    }
  }

  /** What is left to find when the search has got to `path`. */
  ghost function MaximalFrom<V>(g: map<V, set<V>>, path: seq<V>): set<seq<V>>
    requires Closed(g) && IsPath(g, path)
    decreases Room(g, Elements(path)), 2
  {
    var next := g[path[|path| - 1]] - Elements(path);
    if next == {} then {path} else BranchesOf(g, path, next)
  }

  ghost function BranchesOf<V>(g: map<V, set<V>>, path: seq<V>, next: set<V>): set<seq<V>>
    requires Closed(g) && IsPath(g, path) && next <= g[path[|path| - 1]] - Elements(path)
    decreases Room(g, Elements(path)), 1
  {
    set n, p | n in next && p in Branch(g, path, n) :: p
  }

  ghost function Branch<V>(g: map<V, set<V>>, path: seq<V>, n: V): set<seq<V>>
    requires Closed(g) && IsPath(g, path) && n in g[path[|path| - 1]] - Elements(path)
    decreases Room(g, Elements(path)), 0
  {
    Longer(g, path, n);
    MaximalFrom(g, path + [n])
  }

  /** A maximal path that goes beyond `path` does so by an unvisited neighbour of its end. */
  lemma MaximalGoesOn<V>(g: map<V, set<V>>, path: seq<V>, p: seq<V>)
    requires IsPath(g, path) && Distinct(path) && path <= p
    ensures IsMaximal(g, p) && path != p ==> |path| < |p| && p[|path|] in g[path[|path| - 1]] - Elements(path)
    ensures IsMaximal(g, p) && path == p ==> g[path[|path| - 1]] - Elements(path) == {}
    ensures g[path[|path| - 1]] - Elements(path) == {} ==> IsMaximal(g, path)
  {
    var next := g[path[|path| - 1]] - Elements(path);
    assert forall v | v in g[path[|path| - 1]] :: v in next || v in Elements(path);
    if IsMaximal(g, p) && path != p {
      assert p[|path|] in g[p[|path| - 1]];
      assert forall i | 0 <= i < |path| :: path[i] == p[i];
    }
  }

  /** The search finds exactly the maximal cycle-free paths that extend the one it has reached. */
  lemma {:induction false} SearchIsExact<V>(g: map<V, set<V>>, path: seq<V>, p: seq<V>)
    requires Closed(g) && IsPath(g, path) && Distinct(path)
    ensures p in MaximalFrom(g, path) <==> IsMaximal(g, p) && path <= p
    decreases Room(g, Elements(path))
  {
    hide Distinct, IsPath, IsMaximal, Elements, Room, Closed;
    NoPaths(g, path);
    var next := g[path[|path| - 1]] - Elements(path);
    forall n | n in next
      ensures p in Branch(g, path, n) <==> IsMaximal(g, p) && path + [n] <= p
    {
      Longer(g, path, n);
      SearchIsExact(g, path + [n], p);
    }
    if path <= p {
      MaximalGoesOn(g, path, p);
      assert path != p ==> p == path + [p[|path|]] + p[|path| + 1..];
    }
  }

  lemma BranchesApart<V>(g: map<V, set<V>>, path: seq<V>, visited: set<V>, n: V)
    requires Closed(g) && IsPath(g, path) && Distinct(path) && visited + {n} <= g[path[|path| - 1]] - Elements(path)
    requires n !in visited
    ensures IsPath(g, path + [n]) && Distinct(path + [n]) && Elements(path + [n]) == Elements(path) + {n}
    ensures n in g && Room(g, Elements(path + [n])) < Room(g, Elements(path))
    ensures MaximalFrom(g, path + [n]) !! BranchesOf(g, path, visited)
    ensures BranchesOf(g, path, visited + {n}) == BranchesOf(g, path, visited) + MaximalFrom(g, path + [n])
  {
    hide Distinct, IsPath, IsMaximal, Elements, Room, Closed, MaximalFrom;
    Longer(g, path, n);
    assert Branch(g, path, n) == MaximalFrom(g, path + [n]);
    forall p | p in MaximalFrom(g, path + [n]) ensures p !in BranchesOf(g, path, visited) {
      SearchIsExact(g, path + [n], p);
      assert p[|path|] == n;
      forall m | m in visited ensures p !in Branch(g, path, m) {
        Longer(g, path, m);
        SearchIsExact(g, path + [m], p);
        assert (path + [m])[|path|] == m;
      }
    }
  }

  lemma SearchEnds<V>(g: map<V, set<V>>, path: seq<V>, paths: seq<seq<V>>)
    requires Closed(g) && IsPath(g, path) && Distinct(paths)
    requires Elements(paths) == BranchesOf(g, path, g[path[|path| - 1]] - Elements(path))
    ensures var all := if g[path[|path| - 1]] - Elements(path) == {} then paths + [path] else paths;
      Distinct(all) && Elements(all) == MaximalFrom(g, path)
  {
    if g[path[|path| - 1]] - Elements(path) == {} {
      FirstAndRest(paths);
    }
  }

  lemma NoPaths<V>(g: map<V, set<V>>, path: seq<V>)
    requires Closed(g) && IsPath(g, path)
    ensures |path| >= 1 && path[|path| - 1] in g
    ensures Distinct<seq<V>>([]) && Elements<seq<V>>([]) == {} && BranchesOf(g, path, {}) == {}
  {
  }

  lemma Joined<V>(p: seq<V>, q: seq<V>)
    requires Distinct(p) && Distinct(q) && Elements(p) !! Elements(q)
    ensures Distinct(p + q) && Elements(p + q) == Elements(p) + Elements(q)
  {
    forall i, j | 0 <= i < |p| && 0 <= j < |q| ensures p[i] != q[j] {
      assert p[i] in Elements(p) && q[j] in Elements(q);
    }
  }

  class Graph<V(==)> {
    var graph: map<V, set<V>>

    constructor ()
      ensures graph == map[]
    {
      graph := map[];
    }

    method AddVertex(vertex: V)
      modifies this
      ensures graph == if vertex in old(graph) then old(graph) else old(graph)[vertex := {}]
      ensures EdgeSet(graph) == EdgeSet(old(graph))
      ensures old(Closed(graph)) ==> Closed(graph)
    {
      if vertex !in graph {
        graph := graph[vertex := {}];
      }
    }

    method AddEdge(parent: V, child: V)
      modifies this
      ensures graph.Keys == old(graph.Keys) + {parent, child}
      ensures EdgeSet(graph) == EdgeSet(old(graph)) + {(parent, child)}
      ensures old(Closed(graph)) ==> Closed(graph)
    {
      AddVertex(child);
      ghost var before := graph;
      if parent !in graph {
        graph := graph[parent := {child}];
      } else {
        graph := graph[parent := graph[parent] + {child}];
      }
      assert forall e :: e in EdgeSet(graph) <==> e in EdgeSet(before) || e == (parent, child);
      assert forall e | e in EdgeSet(old(graph)) :: e.1 in old(graph)[e.0];
    }

    /** Every edge, once. */
    method Edges() returns (links: seq<(V, V)>)
      ensures Distinct(links) && Elements(links) == EdgeSet(graph)
    {
      links := [];
      var vertices := graph.Keys;
      while vertices != {}
        invariant vertices <= graph.Keys
        invariant Distinct(links)
        invariant Elements(links) == set e | e in EdgeSet(graph) && e.0 !in vertices
      {
        var vertex :| vertex in vertices;
        vertices := vertices - {vertex};
        var neighbours := graph[vertex];
        while neighbours != {}
          invariant neighbours <= graph[vertex]
          invariant Distinct(links)
          invariant Elements(links)
            == set e | e in EdgeSet(graph) && e.0 !in vertices && (e.0 == vertex ==> e.1 !in neighbours)
        {
          var neighbour :| neighbour in neighbours;
          neighbours := neighbours - {neighbour};
          assert (vertex, neighbour) !in Elements(links);
          assert Elements(links + [(vertex, neighbour)]) == Elements(links) + {(vertex, neighbour)};
          links := links + [(vertex, neighbour)];
        }
      }
    }

    /** The vertices that depend on nothing. */
    method RootVertices() returns (roots: set<V>)
      ensures roots == Roots(graph)
    {
      var dependencies := {};
      var vertices := graph.Keys;
      while vertices != {}
        invariant vertices <= graph.Keys
        invariant forall v :: v in dependencies <==> exists u :: u in graph && u !in vertices && v in graph[u]
      {
        var vertex :| vertex in vertices;
        vertices := vertices - {vertex};
        dependencies := dependencies + graph[vertex];
      }
      roots := graph.Keys - dependencies;
    }

    /** How many edges lead to each vertex. */
    method InDegrees() returns (degrees: map<V, int>)
      ensures Degrees(graph, degrees)
    {
      var links := Edges();
      degrees := map[];
      var i := 0;
      while i < |links|
        invariant 0 <= i <= |links|
        invariant forall v :: Count(degrees, v) == |Sources(links[..i], v)|
      {
        var tail := links[i].1;
        ghost var seen := links[..i];
        assert links[..i + 1] == seen + [links[i]];
        forall v ensures |Sources(links[..i + 1], v)| == |Sources(seen, v)| + if v == tail then 1 else 0 {
          NextSource(seen, links[i], v);
        }
        degrees := degrees[tail := Count(degrees, tail) + 1];
        i := i + 1;
        assert forall v :: Count(degrees, v) == |Sources(seen, v)| + if v == tail then 1 else 0;
      }
      assert links[..i] == links;
      forall v ensures Sources(links, v) == Preds(graph, v) {
        assert forall u :: u in Preds(graph, v) <==> (u, v) in Elements(links);
        assert forall u :: (u, v) in Elements(links) ==> u in Sources(links, v);
      }
    }

    /** Kahn's algorithm: in dependency order, everything that is not held up by a cycle. */
    method TopologicalSort() returns (order: seq<V>)
      requires Closed(graph)
      ensures Distinct(order) && Ordered(graph, order)
      ensures Elements(order) == graph.Keys <==> Acyclic(graph)
    {
      hide Kahn, Acyclic, Distinct, Elements, Ordered, Roots, Degrees, Waiting, Yielded, Closed, Room, Preds;
      var depends := InDegrees();
      var roots := RootVertices();
      var queue := [];
      ghost var met, done := {}, {};
      SortStarts(graph, depends);
      while roots != {}
        invariant roots <= graph.Keys && roots !! met && met + roots == Roots(graph)
        invariant Waiting(graph, met, done, queue)
      {
        var root :| root in roots;
        WaitingGrows(graph, met, done, queue, root);
        roots, met := roots - {root}, met + {root};
        queue := queue + [root];
      }
      order := [];
      while queue != []
        invariant Yielded(graph, done, order) && Waiting(graph, met, done, queue)
        invariant Kahn(graph, depends, met, done, done, {})
        decreases Room(graph, done)
      {
        var vertex := queue[0];
        ghost var before := done;
        SortYields(graph, depends, met, done, queue, order);
        order := order + [vertex];
        queue := queue[1..];
        done := done + {vertex};
        var nodes := graph[vertex];
        while nodes != {}
          invariant nodes <= graph[vertex]
          invariant Waiting(graph, met, done, queue)
          invariant Kahn(graph, depends, met, before, done, nodes)
        {
          var node :| node in nodes;
          KahnReleases(graph, depends, met, before, vertex, nodes, node);
          nodes := nodes - {node};
          depends := depends[node := Count(depends, node) - 1];
          if depends[node] == 0 {
            WaitingGrows(graph, met, done, queue, node);
            queue := queue + [node];
            met := met + {node};
          }
        }
        KahnTurns(graph, depends, met, before, done);
      }
      SortEnds(graph, depends, met, done, order);
    }

    /** The maximal cycle-free paths that start at `vertex`, each once. */
    method Paths(vertex: V) returns (paths: seq<seq<V>>)
      requires Closed(graph) && vertex in graph
      ensures Distinct(paths)
      ensures forall p :: p in paths <==> IsMaximal(graph, p) && p[0] == vertex
    {
      var trail := new Trail([vertex], {vertex});
      paths := Search(trail);
      forall p: seq<V> ensures p in paths <==> IsMaximal(graph, p) && p[0] == vertex {
        SearchIsExact(graph, [vertex], p);
        assert p in paths <==> p in Elements(paths);
        assert IsMaximal(graph, p) ==> ([vertex] <= p <==> p[0] == vertex);
      }
    }

    /** Every maximal cycle-free way to continue the trail, which is afterwards as it was. */
    method Search(trail: Trail<V>) returns (paths: seq<seq<V>>)
      requires Closed(graph) && IsPath(graph, trail.path) && Distinct(trail.path)
      requires trail.seen == Elements(trail.path)
      modifies trail
      ensures trail.path == old(trail.path) && trail.seen == old(trail.seen)
      ensures Distinct(paths) && Elements(paths) == MaximalFrom(graph, trail.path)
      decreases Room(graph, trail.seen)
    {
      hide IsPath, Distinct, Elements, Closed, Room, MaximalFrom, BranchesOf;
      var g, path := graph, trail.path;
      NoPaths(g, path);
      var last := path[|path| - 1];
      paths := [];
      var deadEnd := true;
      ghost var visited := {};
      var neighbours := g[last];
      while neighbours != {}
        invariant neighbours <= g[last]
        invariant trail.path == path && trail.seen == Elements(path)
        invariant visited == g[last] - neighbours - Elements(path)
        invariant deadEnd <==> visited == {}
        invariant Distinct(paths) && Elements(paths) == BranchesOf(g, path, visited)
      {
        var neighbour :| neighbour in neighbours;
        neighbours := neighbours - {neighbour};
        if neighbour !in trail.seen {
          deadEnd := false;
          BranchesApart(g, path, visited, neighbour);
          trail.seen := trail.seen + {neighbour};
          trail.path := trail.path + [neighbour];
          var found := Search(trail);
          trail.path := trail.path[..|trail.path| - 1];
          trail.seen := trail.seen - {neighbour};
          visited := visited + {neighbour};
          Joined(paths, found);
          paths := paths + found;
        }
      }
      assert visited == g[last] - Elements(path);
      SearchEnds(g, path, paths);
      if deadEnd {
        paths := paths + [trail.path];
      }
    }
  }

  /** Where a search for paths has got to. */
  class Trail<V(==)> {
    var path: seq<V>
    var seen: set<V>

    constructor (path: seq<V>, seen: set<V>)
      ensures this.path == path && this.seen == seen
    {
      this.path := path;
      this.seen := seen;
    }
  }
}
