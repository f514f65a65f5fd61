/** Nested chains and groups of jobs, and the plain dependency graph they are compiled to. */
module Delayables {
  import opened Sequences
  import opened Graphs

  datatype Kind = Unit | Chain(first: Delayable, last: Delayable) | Group(members: set<Delayable>)

  type Neighbours = map<Delayable, set<Delayable>>

  /** The graphs in play, each with its vertices and their neighbours. */
  type Net = map<Graph<Delayable>, Neighbours>

  ghost function Deepest(ds: seq<Delayable>): (n: nat)
    ensures forall d | d in ds :: d.depth <= n
  {
    if ds == [] then 0
    else
      var n := Deepest(ds[1..]);
      if ds[0].depth <= n then n else ds[0].depth
  }

  /** The edges of a chain of `ds`. */
  ghost function Steps(ds: seq<Delayable>): set<(Delayable, Delayable)> {
    set i, j | 0 <= i < |ds| && 0 <= j < |ds| && j == i + 1 :: (ds[i], ds[j])
  }

  ghost function Product(us: set<Delayable>, vs: set<Delayable>): set<(Delayable, Delayable)> {
    set u, v | u in us && v in vs :: (u, v)
  }

  function HeadsOf(ds: set<Delayable>): set<Delayable>
    requires forall d | d in ds :: d.Sound()
  {
    set d, h | d in ds && h in d.Heads() :: h
  }

  class Delayable {
    const kind: Kind
    const graph: Graph<Delayable>
    ghost const parts: seq<Delayable>
    ghost const depth: nat

    /** What never changes: a delayable is nested more deeply than its parts. */
    ghost predicate Sound()
      decreases depth
    {
      && (forall p | p in parts :: p.depth < depth && p.Sound())
      && match kind
         case Unit => parts == []
         case Chain(first, last) => parts != [] && first == parts[0] && last == parts[|parts| - 1]
         case Group(members) => members == Elements(parts)
    }

    /** What `neighbours` must hold to be the graph of this delayable. */
    ghost predicate Built(neighbours: Neighbours) {
      && (forall p | p in parts :: p in neighbours)
      && (kind.Unit? ==> this in neighbours)
      && (kind.Chain? ==> Steps(parts) <= EdgeSet(neighbours))
    }

    /** The jobs that others wait for before this delayable. */
    function Heads(): set<Delayable>
      requires Sound()
      decreases depth
    {
      match kind
      case Unit => {this}
      case Chain(first, _) => first.Tails()
      case Group(members) => set m, h | m in members && h in m.Heads() :: h
    }

    function Tails(): set<Delayable>
      requires Sound()
      decreases depth
    {
      match kind
      case Unit => {this}
      case Chain(_, last) => last.Heads()
      case Group(members) => set m, t | m in members && t in m.Tails() :: t
    }

    /** The vertices that a follower is attached to. */
    function Ends(): set<Delayable> {
      match kind
      case Unit => {this}
      case Chain(_, last) => {last}
      case Group(members) => members
    }

    constructor Unit()
      ensures Sound() && kind.Unit? && fresh(graph)
      ensures graph.graph == map[this := {}] && Built(graph.graph) && Closed(graph.graph)
    {
      kind := Kind.Unit;
      parts, depth := [], 0;
      graph := new Graph();
      new;
      graph.AddVertex(this);
    }

    constructor Chain(delayables: seq<Delayable>)
      requires delayables != [] && forall d | d in delayables :: d.Sound()
      ensures Sound() && kind.Chain? && parts == delayables && fresh(graph)
      ensures graph.graph.Keys == Elements(delayables) && EdgeSet(graph.graph) == Steps(delayables)
      ensures Built(graph.graph) && Closed(graph.graph)
    {
      kind := Kind.Chain(delayables[0], delayables[|delayables| - 1]);
      parts, depth := delayables, Deepest(delayables) + 1;
      graph := new Graph();
      new;
      graph.AddVertex(delayables[0]);
      var i := 1;
      while i < |delayables|
        invariant 1 <= i <= |delayables| && fresh(graph)
        invariant graph.graph.Keys == Elements(delayables[..i]) && EdgeSet(graph.graph) == Steps(delayables[..i])
        invariant Closed(graph.graph)
      {
        graph.AddEdge(delayables[i - 1], delayables[i]);
        NextStep(delayables, i);
        i := i + 1;
      }
      assert delayables[..i] == delayables;
    }

    constructor Group(delayables: seq<Delayable>)
      requires forall d | d in delayables :: d.Sound()
      ensures Sound() && kind.Group? && parts == delayables && fresh(graph)
      ensures graph.graph.Keys == Elements(delayables) && EdgeSet(graph.graph) == {}
      ensures Built(graph.graph) && Closed(graph.graph)
    {
      kind := Kind.Group(set d | d in delayables);
      parts, depth := delayables, Deepest(delayables) + 1;
      graph := new Graph();
      new;
      for i := 0 to |delayables|
        invariant fresh(graph)
        invariant graph.graph.Keys == Elements(delayables[..i]) && EdgeSet(graph.graph) == {}
        invariant Closed(graph.graph)
      {
        graph.AddVertex(delayables[i]);
        assert delayables[..i + 1] == delayables[..i] + [delayables[i]];
      }
      assert delayables[..|delayables|] == delayables;
    }

    /** Make each of `delayables` wait for the vertex `end`. */
    method AddFollowers(end: Delayable, delayables: seq<Delayable>)
      requires Closed(graph.graph)
      modifies graph
      ensures Closed(graph.graph)
      ensures graph.graph.Keys == old(graph.graph.Keys) + Touched({end}, delayables)
      ensures EdgeSet(graph.graph) == old(EdgeSet(graph.graph)) + Product({end}, Elements(delayables))
    {
      ghost var before := graph.graph;
      for i := 0 to |delayables|
        invariant Closed(graph.graph)
        invariant graph.graph.Keys == before.Keys + Touched({end}, delayables[..i])
        invariant EdgeSet(graph.graph) == EdgeSet(before) + Product({end}, Elements(delayables[..i]))
      {
        graph.AddEdge(end, delayables[i]);
        OneMoreFollower(end, delayables, i);
      }
      assert delayables[..|delayables|] == delayables;
    }

    /** Make each of `delayables` wait for this one. */
    method OnDone(delayables: seq<Delayable>)
      requires Built(graph.graph) && Closed(graph.graph)
      modifies graph
      ensures Built(graph.graph) && Closed(graph.graph)
      ensures EdgeSet(graph.graph) == old(EdgeSet(graph.graph)) + Product(Ends(), Elements(delayables))
      ensures graph.graph.Keys == old(graph.graph.Keys) + Touched(Ends(), delayables)
    {
      var ends := Ends();
      ghost var before, done := graph.graph, {};
      while ends != {}
        invariant ends + done == Ends() && Closed(graph.graph)
        invariant graph.graph.Keys == before.Keys + Touched(done, delayables)
        invariant EdgeSet(graph.graph) == EdgeSet(before) + Product(done, Elements(delayables))
      {
        var end :| end in ends;
        AddFollowers(end, delayables);
        OneMoreEnd(done, end, delayables);
        ends, done := ends - {end}, done + {end};
      }
      assert done == Ends();
    }
  }

  /** The vertices that linking `ends` to `followers` adds: none if there is no link. */
  ghost function Touched(ends: set<Delayable>, followers: seq<Delayable>): set<Delayable> {
    if ends == {} || followers == [] then {} else ends + Elements(followers)
  }

  lemma OneMoreFollower(end: Delayable, followers: seq<Delayable>, i: nat)
    requires i < |followers|
    ensures Touched({end}, followers[..i + 1]) == Touched({end}, followers[..i]) + {end, followers[i]}
    ensures Product({end}, Elements(followers[..i + 1]))
         == Product({end}, Elements(followers[..i])) + {(end, followers[i])}
  {
    assert followers[..i + 1] == followers[..i] + [followers[i]];
    OneMoreVertex(followers[..i], followers[i]);
    FirstAndRest(followers[..0]);
  }

  lemma OneMoreEnd(done: set<Delayable>, end: Delayable, followers: seq<Delayable>)
    ensures Touched(done + {end}, followers) == Touched(done, followers) + Touched({end}, followers)
    ensures var vs := Elements(followers); Product(done + {end}, vs) == Product(done, vs) + Product({end}, vs)
  {
  }

  lemma NextStep(ds: seq<Delayable>, i: nat)
    requires 1 <= i < |ds|
    ensures Steps(ds[..i + 1]) == Steps(ds[..i]) + {(ds[i - 1], ds[i])}
    ensures Elements(ds[..i + 1]) == Elements(ds[..i]) + {ds[i - 1], ds[i]}
  {
    assert ds[..i + 1] == ds[..i] + [ds[i]];
    assert ds[i - 1] in ds[..i];
  }

  // ---- Compiling nested graphs to one graph of jobs ----

  /** The jobs that stand for the vertices `us`. */
  ghost function TailsOf(us: set<Delayable>): set<Delayable>
    requires forall u | u in us :: u.Sound()
  {
    set u, t | u in us && t in u.Tails() :: t
  }

  /** The edges of `m` out of `us`, from every tail of one end to every head of the other. */
  ghost function Links(m: Neighbours, us: set<Delayable>): set<(Delayable, Delayable)>
    requires us <= m.Keys && AllSound(m)
  {
    set u, v, t, h | u in us && v in m[u] && t in u.Tails() && h in v.Heads() :: (t, h)
  }

  ghost predicate AllSound(m: Neighbours) {
    forall u | u in m :: u.Sound() && forall v | v in m[u] :: v.Sound()
  }

  lemma LinksGrow(m: Neighbours, us: set<Delayable>, u: Delayable)
    requires us <= m.Keys && AllSound(m) && u in m
    ensures Links(m, us + {u}) == Links(m, us) + Product(u.Tails(), HeadsOf(m[u]))
    ensures TailsOf(us + {u}) == TailsOf(us) + u.Tails()
  {
    forall e | e in Links(m, us + {u}) ensures e in Links(m, us) + Product(u.Tails(), HeadsOf(m[u])) {
    }
    forall e | e in Product(u.Tails(), HeadsOf(m[u])) ensures e in Links(m, us + {u}) {
      assert e.1 in HeadsOf(m[u]);
      var v :| v in m[u] && e.1 in v.Heads();
      assert u in us + {u} && e.0 in u.Tails();
    }
  }

  lemma NoLinks(m: Neighbours, us: set<Delayable>)
    requires AllSound(m)
    ensures Links(m, {}) == {} && TailsOf({}) == {} && Product({}, us) == {}
  {
  }

  lemma Linked(m: Neighbours, done: set<Delayable>, t: Delayable, heads: set<Delayable>)
    ensures var m' := m[t := if t in m then m[t] + heads else heads];
      EdgeSet(m') == EdgeSet(m) + Product({t}, heads)
    ensures Product(done + {t}, heads) == Product(done, heads) + Product({t}, heads)
  {
  }

  /** Merge the graph `other` into a graph of jobs. */
  method MergeGraph(graph: Graph<Delayable>, other: Graph<Delayable>)
    requires graph != other && AllSound(other.graph)
    modifies graph
    ensures graph.graph.Keys == old(graph.graph.Keys) + TailsOf(other.graph.Keys)
    ensures EdgeSet(graph.graph) == EdgeSet(old(graph.graph)) + Links(other.graph, other.graph.Keys)
  {
    hide EdgeSet, Links, TailsOf, Product, HeadsOf, Delayable.Sound;
    var vertices := other.graph.Keys;
    ghost var m := other.graph;
    ghost var done := {};
    NoLinks(m, {});
    while vertices != {}
      invariant vertices + done == m.Keys && vertices !! done
      invariant graph.graph.Keys == old(graph.graph.Keys) + TailsOf(done)
      invariant EdgeSet(graph.graph) == EdgeSet(old(graph.graph)) + Links(m, done)
    {
      var vertex :| vertex in vertices;
      vertices := vertices - {vertex};
      var tails := vertex.Tails();
      ghost var linked := {};
      ghost var before := graph.graph;
      NoLinks(m, HeadsOf(m[vertex]));
      while tails != {}
        invariant tails + linked == vertex.Tails() && tails !! linked
        invariant graph.graph.Keys == before.Keys + linked
        invariant EdgeSet(graph.graph) == EdgeSet(before) + Product(linked, HeadsOf(m[vertex]))
      {
        var tail :| tail in tails;
        tails := tails - {tail};
        var heads := HeadsOf(other.graph[vertex]);
        Linked(graph.graph, linked, tail, heads);
        linked := linked + {tail};
        graph.graph := graph.graph[tail := if tail in graph.graph then graph.graph[tail] + heads else heads];
      }
      LinksGrow(m, done, vertex);
      done := done + {vertex};
    }
    assert done == m.Keys;
  }

  ghost function Snapshot(graphs: set<Graph<Delayable>>): Net
    reads graphs
  {
    map g | g in graphs :: g.graph
  }

  /** The graphs of the vertices are in play too, and are what the delayables need. */
  ghost predicate Consistent(net: Net) {
    forall g | g in net ::
      && Closed(net[g]) && AllSound(net[g])
      && forall v | v in net[g] :: v.graph in net && v.Built(net[v.graph])
  }

  function GraphsOf(vs: set<Delayable>): set<Graph<Delayable>> {
    set v | v in vs :: v.graph
  }

  /** `graphs` holds `root` and the graph of every vertex of its graphs. */
  ghost predicate Reaches(net: Net, root: Graph<Delayable>, graphs: set<Graph<Delayable>>) {
    root in graphs && graphs <= net.Keys && forall g | g in graphs :: GraphsOf(net[g].Keys) <= graphs
  }

  /** No graph is there without being reachable from `root`. */
  ghost predicate Needed(net: Net, root: Graph<Delayable>, graphs: set<Graph<Delayable>>) {
    forall s | s <= net.Keys :: Reaches(net, root, s) ==> graphs <= s
  }

  ghost function AllJobs(net: Net, graphs: set<Graph<Delayable>>): set<Delayable>
    requires Consistent(net) && graphs <= net.Keys
  {
    set g, t | g in graphs && t in TailsOf(net[g].Keys) :: t
  }

  ghost function AllLinks(net: Net, graphs: set<Graph<Delayable>>): set<(Delayable, Delayable)>
    requires Consistent(net) && graphs <= net.Keys
  {
    set g, e | g in graphs && e in Links(net[g], net[g].Keys) :: e
  }

  /** `m` links the jobs of `graphs` as their edges say. */
  ghost predicate Compiled(net: Net, graphs: set<Graph<Delayable>>, m: Neighbours) {
    && Consistent(net) && graphs <= net.Keys
    && m.Keys == AllJobs(net, graphs) && EdgeSet(m) == AllLinks(net, graphs)
  }

  lemma CompiledGrows(net: Net, graphs: set<Graph<Delayable>>, g: Graph<Delayable>, m: Neighbours, m': Neighbours)
    requires Compiled(net, graphs, m) && g in net && AllSound(net[g])
    requires m'.Keys == m.Keys + TailsOf(net[g].Keys) && EdgeSet(m') == EdgeSet(m) + Links(net[g], net[g].Keys)
    ensures Compiled(net, graphs + {g}, m')
  {
    hide EdgeSet, Links, TailsOf, Consistent;
    assert AllJobs(net, graphs + {g}) == AllJobs(net, graphs) + TailsOf(net[g].Keys);
    assert AllLinks(net, graphs + {g}) == AllLinks(net, graphs) + Links(net[g], net[g].Keys);
  }

  /** Part-way through compiling: the graphs `seen` are done with, those in `pending` are merged but not walked. */
  ghost predicate Connecting(
      net: Net, root: Graph<Delayable>, seen: set<Graph<Delayable>>, pending: set<Graph<Delayable>>, m: Neighbours) {
    && Compiled(net, seen + pending, m)
    && root in seen + pending && Needed(net, root, seen + pending)
    && forall g | g in seen :: GraphsOf(net[g].Keys) <= seen + pending
  }

  lemma ConnectStarts(net: Net, root: Graph<Delayable>, m: Neighbours)
    requires Consistent(net) && root in net
    requires m.Keys == TailsOf(net[root].Keys)
    requires EdgeSet(m) == EdgeSet<Delayable>(map[]) + Links(net[root], net[root].Keys)
    ensures Connecting(net, root, {}, Elements([root]), m)
  {
    assert Compiled(net, {}, map[]);
    CompiledGrows(net, {}, root, map[], m);
    assert {} + Elements([root]) == {} + {root};
  }

  /** The graph of every vertex of `g` that is not among `left` has been reached. */
  ghost predicate Walked(m: Neighbours, left: set<Delayable>, reached: set<Graph<Delayable>>) {
    left <= m.Keys && forall v | v in m && v !in left :: v.graph in reached
  }

  ghost function Unseen(net: Net, seen: set<Graph<Delayable>>): nat {
    |net.Keys - seen|
  }

  lemma ConnectPops(
      net: Net, root: Graph<Delayable>, seen: set<Graph<Delayable>>, stack: seq<Graph<Delayable>>, m: Neighbours)
    requires Connecting(net, root, seen, Elements(stack), m) && stack != []
    ensures stack[0] in net && seen <= net.Keys
    ensures stack[0] !in seen ==> Unseen(net, seen + {stack[0]}) < Unseen(net, seen)
    ensures Connecting(net, root, seen, Elements(stack[1..]) + {stack[0]}, m)
    ensures Walked(net[stack[0]], net[stack[0]].Keys, seen + Elements(stack[1..]) + {stack[0]})
  {
    hide Consistent, EdgeSet, Needed, Elements;
    FirstAndRest(stack);
    assert Elements(stack) == Elements(stack[1..]) + {stack[0]};
    assert stack[0] !in seen ==> net.Keys - seen == net.Keys - (seen + {stack[0]}) + {stack[0]};
  }

  /** Merging and queueing the graph of a vertex of the graph being walked. */
  lemma ConnectVisits(
      net: Net, root: Graph<Delayable>, seen: set<Graph<Delayable>>, stack: seq<Graph<Delayable>>, m: Neighbours,
      current: Graph<Delayable>, left: set<Delayable>, vertex: Delayable, m': Neighbours)
    requires Connecting(net, root, seen, Elements(stack) + {current}, m) && current in net
    requires Walked(net[current], left, seen + Elements(stack) + {current}) && vertex in left
    requires vertex.graph in net && AllSound(net[vertex.graph])
    requires var other := net[vertex.graph];
      m'.Keys == m.Keys + TailsOf(other.Keys) && EdgeSet(m') == EdgeSet(m) + Links(other, other.Keys)
    ensures var stack' := stack + [vertex.graph];
      && Connecting(net, root, seen, Elements(stack') + {current}, m')
      && Walked(net[current], left - {vertex}, seen + Elements(stack') + {current})
  {
    hide AllSound, Links, EdgeSet, TailsOf, Compiled, Consistent, Elements;
    var next := vertex.graph;
    var reached := seen + (Elements(stack) + {current});
    CompiledGrows(net, reached, next, m, m');
    OneMoreVertex(stack, next);
    assert seen + (Elements(stack + [next]) + {current}) == reached + {next};
    forall s | s <= net.Keys && Reaches(net, root, s) ensures reached + {next} <= s {
      assert next in GraphsOf(net[current].Keys);
    }
  }

  /** The graph `current` has been walked. */
  lemma ConnectLeaves(
      net: Net, root: Graph<Delayable>, seen: set<Graph<Delayable>>, stack: seq<Graph<Delayable>>, m: Neighbours,
      current: Graph<Delayable>)
    requires Connecting(net, root, seen, Elements(stack) + {current}, m) && current in net
    requires current in seen || Walked(net[current], {}, seen + Elements(stack) + {current})
    ensures Connecting(net, root, seen + {current}, Elements(stack), m)
    ensures current in seen ==> seen + {current} == seen
  {
    hide Compiled, Needed, Elements;
    assert seen + {current} + Elements(stack) == seen + (Elements(stack) + {current});
  }

  lemma ConnectEnds(net: Net, root: Graph<Delayable>, seen: set<Graph<Delayable>>, m: Neighbours)
    requires Connecting(net, root, seen, Elements([]), m)
    ensures Reaches(net, root, seen) && Needed(net, root, seen) && Compiled(net, seen, m)
  {
    hide Needed, GraphsOf, Consistent, EdgeSet;
    assert seen + Elements([]) == seen;
  }

  lemma InPlay(graphs: set<Graph<Delayable>>, g: Graph<Delayable>)
    requires g in graphs && Consistent(Snapshot(graphs))
    ensures Snapshot(graphs).Keys == graphs && Snapshot(graphs)[g] == g.graph && AllSound(g.graph)
    ensures forall v | v in g.graph :: v.graph in graphs
  {
  }

  /** Compile the graph `root` and those of its vertices, and of theirs, to one graph of jobs. */
  method ConnectGraphs(root: Graph<Delayable>, ghost graphs: set<Graph<Delayable>>)
    returns (graph: Graph<Delayable>, ghost visited: set<Graph<Delayable>>)
    requires root in graphs && Consistent(Snapshot(graphs))
    ensures fresh(graph)
    ensures Reaches(Snapshot(graphs), root, visited) && Needed(Snapshot(graphs), root, visited)
    ensures Compiled(Snapshot(graphs), visited, graph.graph)
  {
    hide EdgeSet, Links, TailsOf, AllSound, Consistent, Reaches, Needed, Compiled, Connecting, Elements, Snapshot;
    hide Walked, AllJobs, AllLinks, GraphsOf, HeadsOf, Product, Closed, Delayable.Sound, Delayable.Built, Unseen;
    ghost var net := Snapshot(graphs);
    InPlay(graphs, root);
    graph := new Graph();
    MergeGraph(graph, root);
    ConnectStarts(net, root, graph.graph);
    var seen := {};
    var stack := [root];
    while stack != []
      invariant fresh(graph) && Snapshot(graphs) == net
      invariant Connecting(net, root, seen, Elements(stack), graph.graph)
      decreases Unseen(net, seen), |stack|
    {
      var current := stack[0];
      ConnectPops(net, root, seen, stack, graph.graph);
      InPlay(graphs, current);
      stack := stack[1..];
      if current !in seen {
        var vertices := current.graph.Keys;
        while vertices != {}
          invariant vertices <= net[current].Keys
          invariant fresh(graph) && Snapshot(graphs) == net
          invariant Connecting(net, root, seen, Elements(stack) + {current}, graph.graph)
          invariant Walked(net[current], vertices, seen + Elements(stack) + {current})
        {
          var vertex :| vertex in vertices;
          var next := vertex.graph;
          ghost var before := graph.graph;
          InPlay(graphs, next);
          MergeGraph(graph, next);
          ConnectVisits(net, root, seen, stack, before, current, vertices, vertex, graph.graph);
          vertices := vertices - {vertex};
          stack := stack + [next];
        }
        ConnectLeaves(net, root, seen, stack, graph.graph, current);
        seen := seen + {current};
      } else {
        ConnectLeaves(net, root, seen, stack, graph.graph, current);
      }
    }
    visited := seen;
    ConnectEnds(net, root, visited, graph.graph);
  }
}
