/** A chain that starts with a chain, and follows a job: built, compiled, and found to lose what was asked for. */
module Nesting {
  import opened Sequences
  import opened Graphs
  import opened Delayables
  import opened Flattening

  /** The chain `outer` of `inner` and `c`, where `inner` is the chain of `a` and `b`, follows the job `x`. */
  ghost predicate NestedAfter(
      net: Net, x: Delayable, a: Delayable, b: Delayable, c: Delayable, inner: Delayable, outer: Delayable) {
    && x.Sound() && x.kind.Unit? && a.kind.Unit? && b.kind.Unit? && c.kind.Unit? && a !in {x, b, c}
    && inner.Sound() && inner.kind.Chain? && inner.parts == [a, b]
    && outer.Sound() && outer.kind.Chain? && outer.parts == [inner, c]
    && net.Keys == {x.graph, outer.graph, inner.graph, a.graph, b.graph, c.graph}
    && IsGraph(net[x.graph], {x, outer}, {(x, outer)}) && IsGraph(net[outer.graph], {inner, c}, {(inner, c)})
    && IsGraph(net[inner.graph], {a, b}, {(a, b)}) && IsGraph(net[a.graph], {a}, {})
    && IsGraph(net[b.graph], {b}, {}) && IsGraph(net[c.graph], {c}, {})
  }

  ghost predicate IsGraph(g: Neighbours, vertices: set<Delayable>, edges: set<(Delayable, Delayable)>) {
    g.Keys == vertices && EdgeSet(g) == edges
  }

  lemma PairChain(d: Delayable, p: Delayable, q: Delayable)
    requires d.Sound() && d.kind.Chain? && d.parts == [p, q]
    ensures p.Sound() && q.Sound() && d.Heads() == p.Tails() && d.Tails() == q.Heads()
    ensures Inside(p) <= Inside(d)
  {
    assert p in d.parts && q in d.parts;
  }

  lemma UnitEnds(d: Delayable)
    requires d.Sound() && d.kind.Unit?
    ensures d.Heads() == {d} && d.Tails() == {d} && Inside(d) == {d}
  {
  }

  lemma NestedHeads(
      net: Net, x: Delayable, a: Delayable, b: Delayable, c: Delayable, inner: Delayable, outer: Delayable)
    requires NestedAfter(net, x, a, b, c, inner, outer)
    ensures x.Sound() && b.Sound() && c.Sound() && a !in {b, c}
    ensures outer.Heads() == {b} && b.Heads() == {b} && c.Heads() == {c}
    ensures a in Inside(outer) && x in Inside(x)
  {
    hide Inside, Delayable.Sound, Delayable.Heads, Delayable.Tails;
    PairChain(inner, a, b);
    PairChain(outer, inner, c);
    UnitEnds(a);
    UnitEnds(b);
    UnitEnds(c);
    UnitEnds(x);
  }

  lemma NestedEdges(
      net: Net, x: Delayable, a: Delayable, b: Delayable, c: Delayable, inner: Delayable, outer: Delayable)
    requires NestedAfter(net, x, a, b, c, inner, outer)
    ensures forall g, u, v | g in net && u in net[g] && v in net[g][u] :: v in {outer, b, c}
    ensures x.graph in net && x in net[x.graph] && outer in net[x.graph][x]
  {
    hide Delayable.Sound;
    forall g, u, v | g in net && u in net[g] && v in net[g][u] ensures v in {outer, b, c} {
      assert (u, v) in EdgeSet(net[g]);
    }
    assert (x, outer) in EdgeSet(net[x.graph]);
  }

  lemma NestedIsPlaced(
      net: Net, graphs: set<Graph<Delayable>>, m: Neighbours,
      x: Delayable, a: Delayable, b: Delayable, c: Delayable, inner: Delayable, outer: Delayable)
    requires Flat(net, x.graph, graphs, m) && NestedAfter(net, x, a, b, c, inner, outer)
    ensures a in m
  {
    hide Flat, Placed, Inside, Delayable.Sound;
    VisitedIsPlaced(net, x.graph, graphs, m, outer);
    PartsArePlaced(net, x.graph, graphs, m, outer);
    assert inner in outer.parts && a in inner.parts;
    PartsArePlaced(net, x.graph, graphs, m, inner);
    PartsArePlaced(net, x.graph, graphs, m, a);
    UnitEnds(a);
  }

  lemma VisitedIsPlaced(net: Net, root: Graph<Delayable>, graphs: set<Graph<Delayable>>, m: Neighbours, d: Delayable)
    requires Flat(net, root, graphs, m) && root in net && d in net[root]
    ensures Placed(net, graphs, d)
  {
  }

  /** The first job of the nested chain waits for nothing, although it is asked to wait for `x`. */
  lemma NestedChainEscapes(
      net: Net, graphs: set<Graph<Delayable>>, m: Neighbours,
      x: Delayable, a: Delayable, b: Delayable, c: Delayable, inner: Delayable, outer: Delayable)
    requires Flat(net, x.graph, graphs, m) && NestedAfter(net, x, a, b, c, inner, outer)
    ensures (x, a) in Meant(net, graphs) && a in m
    ensures forall p | IsPath(m, p) && p[|p| - 1] == a :: p == [a]
  {
    hide NestedAfter, Inside, Delayable.Heads, AllJobs, AllLinks, Meant, Delayable.Built, Closed, EdgeSet, GraphsOf,
      IsPath;
    NestedIsPlaced(net, graphs, m, x, a, b, c, inner, outer);
    NestedHeads(net, x, a, b, c, inner, outer);
    NestedEdges(net, x, a, b, c, inner, outer);
    JobEscapes(net, x.graph, graphs, m, x.graph, x, outer, x, a);
  }

  /** The vertices of a graph bring nothing that is not in play. */
  ghost predicate InOrder(net: Net, g: Graph<Delayable>)
    requires g in net
  {
    && Closed(net[g]) && AllSound(net[g])
    && forall v | v in net[g] :: v.graph in net && v.Built(net[v.graph])
  }

  lemma GraphInOrder(net: Net, g: Graph<Delayable>, vertices: set<Delayable>, edges: set<(Delayable, Delayable)>)
    requires g in net && IsGraph(net[g], vertices, edges)
    requires forall e | e in edges :: e.1 in vertices
    requires forall v | v in vertices :: v.Sound() && v.graph in net && v.Built(net[v.graph])
    ensures InOrder(net, g)
  {
    hide Delayable.Sound, Delayable.Built;
    forall u, v | u in net[g] && v in net[g][u] ensures v in vertices {
      assert (u, v) in EdgeSet(net[g]);
    }
  }

  lemma ExampleIsConsistent(
      net: Net, x: Delayable, a: Delayable, b: Delayable, c: Delayable, inner: Delayable, outer: Delayable)
    requires NestedAfter(net, x, a, b, c, inner, outer) && a.Sound() && b.Sound() && c.Sound()
    requires forall v | v in {x, a, b, c, inner, outer} :: v.Built(net[v.graph])
    ensures Consistent(net)
  {
    hide Delayable.Sound, Delayable.Built, IsGraph, InOrder;
    GraphInOrder(net, x.graph, {x, outer}, {(x, outer)});
    GraphInOrder(net, outer.graph, {inner, c}, {(inner, c)});
    GraphInOrder(net, inner.graph, {a, b}, {(a, b)});
    GraphInOrder(net, a.graph, {a}, {});
    GraphInOrder(net, b.graph, {b}, {});
    GraphInOrder(net, c.graph, {c}, {});
    AllInOrder(net);
  }

  lemma AllInOrder(net: Net)
    requires forall g | g in net :: InOrder(net, g)
    ensures Consistent(net)
  {
    hide Delayable.Sound, Delayable.Built, Closed, AllSound;
  }

  /** Build the two chains and let the outer one follow `x`. */
  method BuildNestedChain()
    returns (x: Delayable, a: Delayable, b: Delayable, c: Delayable, inner: Delayable, outer: Delayable)
    ensures forall v | v in {x, a, b, c, inner, outer} :: v.Sound() && v.Built(v.graph.graph)
    ensures x.kind.Unit? && a.kind.Unit? && b.kind.Unit? && c.kind.Unit? && a !in {x, b, c}
    ensures inner.kind.Chain? && inner.parts == [a, b] && outer.kind.Chain? && outer.parts == [inner, c]
    ensures IsGraph(x.graph.graph, {x, outer}, {(x, outer)}) && IsGraph(outer.graph.graph, {inner, c}, {(inner, c)})
    ensures IsGraph(inner.graph.graph, {a, b}, {(a, b)}) && IsGraph(a.graph.graph, {a}, {})
    ensures IsGraph(b.graph.graph, {b}, {}) && IsGraph(c.graph.graph, {c}, {})
  {
    hide IsGraph, Product, Touched, Elements, EdgeSet;
    x := new Delayable.Unit();
    a := new Delayable.Unit();
    b := new Delayable.Unit();
    c := new Delayable.Unit();
    SingleGraph(x);
    SingleGraph(a);
    SingleGraph(b);
    SingleGraph(c);
    inner := BuildPair(a, b);
    outer := BuildPair(inner, c);
    assert x.Ends() == {x};
    x.OnDone([outer]);
    FollowedGraph(x, outer, x.graph.graph);
  }

  lemma SingleGraph(d: Delayable)
    ensures IsGraph(map[d := {}], {d}, {})
  {
  }

  lemma FollowedGraph(x: Delayable, v: Delayable, g: Neighbours)
    requires g.Keys == {x} + Touched({x}, [v])
    requires EdgeSet(g) == EdgeSet<Delayable>(map[x := {}]) + Product({x}, Elements([v]))
    ensures IsGraph(g, {x, v}, {(x, v)})
  {
  }

  method BuildPair(p: Delayable, q: Delayable) returns (d: Delayable)
    requires p.Sound() && q.Sound()
    ensures d.Sound() && d.kind.Chain? && d.parts == [p, q] && fresh(d) && fresh(d.graph)
    ensures d.Built(d.graph.graph) && IsGraph(d.graph.graph, {p, q}, {(p, q)})
  {
    hide Delayable.Built, EdgeSet;
    d := new Delayable.Chain([p, q]);
    PairSteps(p, q);
  }

  lemma PairSteps(p: Delayable, q: Delayable)
    ensures Steps([p, q]) == {(p, q)} && Elements([p, q]) == {p, q}
  {
    assert forall e | e in Steps([p, q]) :: e == (p, q);
    assert [p, q][0] == p && [p, q][1] == q;
  }

  /** Compile the example: the first job of the nested chain does not wait for `x`. */
  method CompileNestedChain()
    returns (graph: Graph<Delayable>, x: Delayable, a: Delayable, ghost net: Net, ghost graphs: set<Graph<Delayable>>)
    ensures Flat(net, x.graph, graphs, graph.graph) && (x, a) in Meant(net, graphs) && a in graph.graph
    ensures forall p | IsPath(graph.graph, p) && p[|p| - 1] == a :: p == [a]
  {
    hide Consistent, Delayable.Sound, Delayable.Built, IsGraph, IsPath, Meant, Reaches, Needed, Compiled;
    var b, c, inner, outer;
    x, a, b, c, inner, outer := BuildNestedChain();
    ghost var all := {x.graph, outer.graph, inner.graph, a.graph, b.graph, c.graph};
    net := Snapshot(all);
    ExampleIsConsistent(net, x, a, b, c, inner, outer);
    graph, graphs := ConnectGraphs(x.graph, all);
    NestedChainEscapes(net, graphs, graph.graph, x, a, b, c, inner, outer);
  }
}
