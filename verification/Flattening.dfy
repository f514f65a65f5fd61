/** What the compiled graph of jobs means for the chains and groups it was compiled from. */
module Flattening {
  import opened Sequences
  import opened Graphs
  import opened Delayables

  /** The jobs nested in a delayable. */
  ghost function Inside(d: Delayable): set<Delayable>
    requires d.Sound()
    decreases d.depth
  {
    if d.kind.Unit? then {d} else set p, j | p in d.parts && j in Inside(p) :: j
  }

  /** The jobs of a delayable that are meant to start first: those of its first part, if it is a chain. */
  ghost function Openers(d: Delayable): set<Delayable>
    requires d.Sound()
    decreases d.depth
  {
    match d.kind
    case Unit => {d}
    case Chain(first, _) => Openers(first)
    case Group(_) => set p, j | p in d.parts && j in Openers(p) :: j
  }

  ghost function Closers(d: Delayable): set<Delayable>
    requires d.Sound()
    decreases d.depth
  {
    match d.kind
    case Unit => {d}
    case Chain(_, last) => Closers(last)
    case Group(_) => set p, j | p in d.parts && j in Closers(p) :: j
  }

  /** All the parts nested in `d`, and `d` itself, satisfy what is asked of the ends of a chain. */
  ghost predicate Coherent(d: Delayable)
    requires d.Sound()
    decreases d.depth
  {
    && (forall p | p in d.parts :: Coherent(p))
    && match d.kind
       case Chain(first, last) => first.Heads() == first.Tails() && last.Heads() == last.Tails()
       case _ => true
  }

  /** The compiler attaches the edges of `d` and its parts where they are meant to be attached. */
  ghost predicate Attached(d: Delayable)
    requires d.Sound()
    decreases d.depth
  {
    (forall p | p in d.parts :: Attached(p)) && d.Heads() == Openers(d) && d.Tails() == Closers(d)
  }

  ghost predicate NonEmpty(d: Delayable)
    requires d.Sound()
    decreases d.depth
  {
    (d.kind.Unit? || d.parts != []) && forall p | p in d.parts :: NonEmpty(p)
  }

  /**
   * A delayable and everything nested in it is attached by its first and last jobs exactly when the ends of every
   * chain in it have the same heads as tails.
   */
  lemma {:induction false} CoherentIsAttached(d: Delayable)
    requires d.Sound()
    ensures Coherent(d) <==> Attached(d)
    decreases d.depth
  {
    forall p | p in d.parts ensures Coherent(p) <==> Attached(p) {
      CoherentIsAttached(p);
    }
    match d.kind
    case Unit =>
    case Chain(first, last) =>
      assert first in d.parts && last in d.parts;
    case Group(_) =>
      if forall p | p in d.parts :: Attached(p) {
        assert d.Heads() == Openers(d);
        assert d.Tails() == Closers(d);
      }
  }

  lemma {:induction false} EndsAreInside(d: Delayable)
    requires d.Sound()
    ensures d.Heads() <= Inside(d) && d.Tails() <= Inside(d)
    ensures NonEmpty(d) ==> d.Heads() != {} && d.Tails() != {}
    ensures forall j | j in Inside(d) :: j.kind.Unit?
    decreases d.depth
  {
    forall p | p in d.parts
      ensures p.Heads() <= Inside(p) && p.Tails() <= Inside(p) && (NonEmpty(p) ==> p.Heads() != {} && p.Tails() != {})
      ensures forall j | j in Inside(p) :: j.kind.Unit?
    {
      EndsAreInside(p);
    }
    if d.kind.Group? && NonEmpty(d) {
      var p := d.parts[0];
      assert p in d.parts && NonEmpty(p) && p.Heads() != {} && p.Tails() != {};
      var h :| h in p.Heads();
      var t :| t in p.Tails();
      assert h in d.Heads() && t in d.Tails();
    }
  }

  // ---- The compiled graph ----

  /** `graphs` are the graphs that compiling `root` visits, and `m` is what they are compiled to. */
  ghost predicate Flat(net: Net, root: Graph<Delayable>, graphs: set<Graph<Delayable>>, m: Neighbours) {
    Reaches(net, root, graphs) && Compiled(net, graphs, m)
  }

  /** `d` is a vertex of one of the graphs. */
  ghost predicate Placed(net: Net, graphs: set<Graph<Delayable>>, d: Delayable) {
    graphs <= net.Keys && exists g | g in graphs :: d in net[g]
  }

  lemma PartsArePlaced(net: Net, root: Graph<Delayable>, graphs: set<Graph<Delayable>>, m: Neighbours, d: Delayable)
    requires Flat(net, root, graphs, m) && Placed(net, graphs, d)
    ensures d.Sound() && d.graph in graphs && d.Built(net[d.graph]) && AllSound(net[d.graph])
    ensures d.Tails() <= m.Keys
    ensures forall p | p in d.parts :: p in net[d.graph] && Placed(net, graphs, p)
  {
    hide EdgeSet, Closed, AllLinks;
    var g :| g in graphs && d in net[g];
    assert d.graph in GraphsOf(net[g].Keys);
    assert d.Tails() <= TailsOf(net[g].Keys);
  }

  lemma {:induction false} HeadsArePlaced(
      net: Net, root: Graph<Delayable>, graphs: set<Graph<Delayable>>, m: Neighbours, d: Delayable)
    requires Flat(net, root, graphs, m) && Placed(net, graphs, d)
    ensures d.Sound() && d.Heads() <= m.Keys
    decreases d.depth
  {
    hide Flat, Placed;
    PartsArePlaced(net, root, graphs, m, d);
    forall p | p in d.parts ensures p.Tails() <= m.Keys && p.Heads() <= m.Keys {
      PartsArePlaced(net, root, graphs, m, p);
      HeadsArePlaced(net, root, graphs, m, p);
    }
  }

  /** The edge from `u` to `v` links every tail of `u` to every head of `v`. */
  lemma EdgeIsLinked(
      net: Net, root: Graph<Delayable>, graphs: set<Graph<Delayable>>, m: Neighbours,
      g: Graph<Delayable>, u: Delayable, v: Delayable, t: Delayable, h: Delayable)
    requires Flat(net, root, graphs, m) && g in graphs && (u, v) in EdgeSet(net[g]) && u.Sound() && v.Sound()
    requires t in u.Tails() && h in v.Heads()
    ensures t in m && h in m[t]
  {
    hide Placed;
    assert (t, h) in Links(net[g], net[g].Keys);
    assert (t, h) in EdgeSet(m);
  }

  /** Every link of the compiled graph stands for an edge of a visited graph. */
  lemma LinkIsEdge(
      net: Net, root: Graph<Delayable>, graphs: set<Graph<Delayable>>, m: Neighbours, t: Delayable, h: Delayable)
    returns (g: Graph<Delayable>, u: Delayable, v: Delayable)
    requires Flat(net, root, graphs, m) && t in m && h in m[t]
    ensures g in graphs && (u, v) in EdgeSet(net[g]) && u.Sound() && v.Sound()
    ensures t in u.Tails() && h in v.Heads()
  {
    assert (t, h) in EdgeSet(m);
    assert (t, h) in AllLinks(net, graphs);
    g :| g in graphs && (t, h) in Links(net[g], net[g].Keys);
    u, v :| u in net[g] && v in net[g][u] && t in u.Tails() && h in v.Heads();
  }

  lemma EdgeIsPlaced(
      net: Net, root: Graph<Delayable>, graphs: set<Graph<Delayable>>, m: Neighbours,
      g: Graph<Delayable>, u: Delayable, v: Delayable)
    requires Flat(net, root, graphs, m) && g in graphs && (u, v) in EdgeSet(net[g])
    ensures Placed(net, graphs, u) && Placed(net, graphs, v) && u.Sound() && v.Sound()
  {
    assert v in net[g][u];
  }

  /** The compiled graph holds jobs only, and the target of every link is one of its vertices. */
  lemma CompiledIsClosed(net: Net, root: Graph<Delayable>, graphs: set<Graph<Delayable>>, m: Neighbours)
    requires Flat(net, root, graphs, m)
    ensures Closed(m) && forall j | j in m :: j.kind.Unit?
  {
    forall t, h | t in m && h in m[t] ensures h in m {
      var g, u, v := LinkIsEdge(net, root, graphs, m, t, h);
      EdgeIsPlaced(net, root, graphs, m, g, u, v);
      HeadsArePlaced(net, root, graphs, m, v);
    }
    forall j | j in m ensures j.kind.Unit? {
      var g :| g in graphs && j in TailsOf(net[g].Keys);
      var u :| u in net[g] && j in u.Tails();
      EndsAreInside(u);
    }
  }

  // ---- Every job of one end waits for every job of the other ----

  lemma Joins(m: Neighbours, p: seq<Delayable>, q: seq<Delayable>) returns (r: seq<Delayable>)
    requires IsPath(m, p) && IsPath(m, q) && q[0] in m[p[|p| - 1]]
    ensures IsPath(m, r) && r == p + q && |r| >= 2 && r[0] == p[0] && r[|r| - 1] == q[|q| - 1]
  {
    r := p + q;
  }

  lemma Alone(m: Neighbours, a: Delayable) returns (p: seq<Delayable>)
    requires a in m
    ensures IsPath(m, p) && |p| == 1 && p[0] == a
  {
    p := [a];
  }

  ghost predicate Proper(net: Net, root: Graph<Delayable>, graphs: set<Graph<Delayable>>, m: Neighbours, d: Delayable) {
    Flat(net, root, graphs, m) && Placed(net, graphs, d) && d.Sound() && Coherent(d) && NonEmpty(d)
  }

  lemma PartIsProper(
      net: Net, root: Graph<Delayable>, graphs: set<Graph<Delayable>>, m: Neighbours, d: Delayable, p: Delayable)
    requires Proper(net, root, graphs, m, d) && p in d.parts
    ensures Proper(net, root, graphs, m, p) && d.Sound() && p.Sound() && p.depth < d.depth
    ensures p.Heads() != {} && p.Tails() != {} && p.Heads() <= Inside(p) && p.Tails() <= Inside(p)
  {
    hide Flat, Placed;
    PartsArePlaced(net, root, graphs, m, d);
    EndsAreInside(p);
  }

  lemma StepIsLinked(
      net: Net, root: Graph<Delayable>, graphs: set<Graph<Delayable>>, m: Neighbours, d: Delayable, i: nat,
      t: Delayable, h: Delayable)
    requires Proper(net, root, graphs, m, d) && d.kind.Chain? && i + 1 < |d.parts|
    requires d.parts[i].Sound() && d.parts[i + 1].Sound()
    requires t in d.parts[i].Tails() && h in d.parts[i + 1].Heads()
    ensures t in m && h in m[t]
  {
    hide Flat, Placed, EdgeSet;
    PartsArePlaced(net, root, graphs, m, d);
    var j := i + 1;
    assert (d.parts[i], d.parts[j]) in Steps(d.parts);
    EdgeIsLinked(net, root, graphs, m, d.graph, d.parts[i], d.parts[j], t, h);
  }

  lemma JobIsLinked(net: Net, root: Graph<Delayable>, graphs: set<Graph<Delayable>>, m: Neighbours, d: Delayable)
    requires Proper(net, root, graphs, m, d) && d.kind.Unit?
    ensures d.Sound() && d in m && Inside(d) == {d} && d.Heads() == {d} && d.Tails() == {d}
  {
    hide Flat, Placed;
    PartsArePlaced(net, root, graphs, m, d);
  }

  lemma ChainIsCoherent(net: Net, root: Graph<Delayable>, graphs: set<Graph<Delayable>>, m: Neighbours, d: Delayable)
    requires Proper(net, root, graphs, m, d) && d.kind.Chain?
    ensures d.parts != [] && forall p | p in d.parts :: p.Sound()
    ensures d.Sound() && d.Heads() == d.parts[0].Heads() && d.Tails() == d.parts[|d.parts| - 1].Tails()
    ensures forall j :: j in Inside(d) <==> exists i :: 0 <= i < |d.parts| && j in Inside(d.parts[i])
  {
    hide Flat, Placed, NonEmpty;
  }

  lemma GroupIsUnion(net: Net, root: Graph<Delayable>, graphs: set<Graph<Delayable>>, m: Neighbours, d: Delayable)
    requires Proper(net, root, graphs, m, d) && d.kind.Group?
    ensures d.Sound() && forall p | p in d.parts :: p.Sound() && p.Heads() <= d.Heads() && p.Tails() <= d.Tails()
    ensures forall j :: j in Inside(d) <==> exists p :: p in d.parts && j in Inside(p)
  {
    hide Flat, Placed, NonEmpty, Coherent;
  }

  /** From a job nested in `d` there is a path to one of its tails. */
  lemma {:induction false} ToTail(
      net: Net, root: Graph<Delayable>, graphs: set<Graph<Delayable>>, m: Neighbours, d: Delayable, a: Delayable)
    returns (p: seq<Delayable>)
    requires Proper(net, root, graphs, m, d) && a in Inside(d)
    ensures |p| >= 1 && IsPath(m, p) && p[0] == a && p[|p| - 1] in d.Tails()
    decreases d.depth, |d.parts| + 1
  {
    hide Proper, Flat, Placed, Coherent, NonEmpty, Inside, IsPath, Delayable.Sound;
    match d.kind
    case Unit =>
      JobIsLinked(net, root, graphs, m, d);
      p := Alone(m, a);
    case Chain(_, last) =>
      ChainIsCoherent(net, root, graphs, m, d);
      var i :| 0 <= i < |d.parts| && a in Inside(d.parts[i]);
      p := AlongChain(net, root, graphs, m, d, i, a);
    case Group(_) =>
      GroupIsUnion(net, root, graphs, m, d);
      var part :| part in d.parts && a in Inside(part);
      PartIsProper(net, root, graphs, m, d, part);
      p := ToTail(net, root, graphs, m, part, a);
  }

  lemma {:induction false} AlongChain(
      net: Net, root: Graph<Delayable>, graphs: set<Graph<Delayable>>, m: Neighbours, d: Delayable, i: nat,
      a: Delayable)
    returns (p: seq<Delayable>)
    requires Proper(net, root, graphs, m, d) && d.kind.Chain? && i < |d.parts| && a in Inside(d.parts[i])
    ensures |p| >= 1 && IsPath(m, p) && p[0] == a && p[|p| - 1] in d.Tails()
    decreases d.depth, |d.parts| - i
  {
    hide Proper, Flat, Placed, Coherent, NonEmpty, Inside, IsPath, Delayable.Sound;
    ChainIsCoherent(net, root, graphs, m, d);
    PartIsProper(net, root, graphs, m, d, d.parts[i]);
    p := ToTail(net, root, graphs, m, d.parts[i], a);
    if i + 1 < |d.parts| {
      PartIsProper(net, root, graphs, m, d, d.parts[i + 1]);
      var h :| h in d.parts[i + 1].Heads();
      StepIsLinked(net, root, graphs, m, d, i, p[|p| - 1], h);
      var q := AlongChain(net, root, graphs, m, d, i + 1, h);
      p := Joins(m, p, q);
    }
  }

  /** To a job nested in `d` there is a path from one of its heads. */
  lemma {:induction false} FromHead(
      net: Net, root: Graph<Delayable>, graphs: set<Graph<Delayable>>, m: Neighbours, d: Delayable, b: Delayable)
    returns (p: seq<Delayable>)
    requires Proper(net, root, graphs, m, d) && b in Inside(d)
    ensures |p| >= 1 && IsPath(m, p) && p[0] in d.Heads() && p[|p| - 1] == b
    decreases d.depth, |d.parts| + 1
  {
    hide Proper, Flat, Placed, Coherent, NonEmpty, Inside, IsPath, Delayable.Sound;
    match d.kind
    case Unit =>
      JobIsLinked(net, root, graphs, m, d);
      p := Alone(m, b);
    case Chain(_, _) =>
      ChainIsCoherent(net, root, graphs, m, d);
      var i :| 0 <= i < |d.parts| && b in Inside(d.parts[i]);
      p := BackAlongChain(net, root, graphs, m, d, i, b);
    case Group(_) =>
      GroupIsUnion(net, root, graphs, m, d);
      var part :| part in d.parts && b in Inside(part);
      PartIsProper(net, root, graphs, m, d, part);
      p := FromHead(net, root, graphs, m, part, b);
  }

  lemma {:induction false} BackAlongChain(
      net: Net, root: Graph<Delayable>, graphs: set<Graph<Delayable>>, m: Neighbours, d: Delayable, i: nat,
      b: Delayable)
    returns (p: seq<Delayable>)
    requires Proper(net, root, graphs, m, d) && d.kind.Chain? && i < |d.parts| && b in Inside(d.parts[i])
    ensures |p| >= 1 && IsPath(m, p) && p[0] in d.Heads() && p[|p| - 1] == b
    decreases d.depth, i
  {
    hide Proper, Flat, Placed, Coherent, NonEmpty, Inside, IsPath, Delayable.Sound;
    ChainIsCoherent(net, root, graphs, m, d);
    PartIsProper(net, root, graphs, m, d, d.parts[i]);
    p := FromHead(net, root, graphs, m, d.parts[i], b);
    if i > 0 {
      PartIsProper(net, root, graphs, m, d, d.parts[i - 1]);
      var t :| t in d.parts[i - 1].Tails();
      StepIsLinked(net, root, graphs, m, d, i - 1, t, p[0]);
      var q := BackAlongChain(net, root, graphs, m, d, i - 1, t);
      p := Joins(m, q, p);
    }
  }

  /** For every edge of a visited graph, every job inside its start leads to every job inside its end. */
  lemma EdgeIsKept(
      net: Net, root: Graph<Delayable>, graphs: set<Graph<Delayable>>, m: Neighbours,
      g: Graph<Delayable>, u: Delayable, v: Delayable, a: Delayable, b: Delayable)
    returns (p: seq<Delayable>)
    requires Proper(net, root, graphs, m, u) && Proper(net, root, graphs, m, v)
    requires g in graphs && (u, v) in EdgeSet(net[g]) && a in Inside(u) && b in Inside(v)
    ensures IsPath(m, p) && |p| >= 2 && p[0] == a && p[|p| - 1] == b
  {
    hide Placed, Coherent, NonEmpty, Inside, EdgeSet;
    var before := ToTail(net, root, graphs, m, u, a);
    var after := FromHead(net, root, graphs, m, v, b);
    EdgeIsLinked(net, root, graphs, m, g, u, v, before[|before| - 1], after[0]);
    p := Joins(m, before, after);
  }

  // ---- The compiled graph against what was asked for ----

  /** What the edges of the graphs ask for: each job inside `v` waits for each job inside `u`. */
  ghost function Meant(net: Net, graphs: set<Graph<Delayable>>): set<(Delayable, Delayable)>
    requires Consistent(net) && graphs <= net.Keys
  {
    set g, u, v, a, b | g in graphs && u in net[g] && v in net[g][u] && a in Inside(u) && b in Inside(v) :: (a, b)
  }

  ghost predicate AllProper(net: Net, graphs: set<Graph<Delayable>>)
    requires Consistent(net) && graphs <= net.Keys
  {
    forall g, v | g in graphs && v in net[g] :: Coherent(v) && NonEmpty(v)
  }

  /** A chain of jobs each of which is to wait for the one before. */
  ghost predicate Asked(net: Net, graphs: set<Graph<Delayable>>, q: seq<Delayable>)
    requires Consistent(net) && graphs <= net.Keys
  {
    |q| >= 2 && forall i, j | 0 <= i && j == i + 1 < |q| :: (q[i], q[j]) in Meant(net, graphs)
  }

  lemma MeantByEdge(
      net: Net, root: Graph<Delayable>, graphs: set<Graph<Delayable>>, m: Neighbours, a: Delayable, b: Delayable)
    returns (g: Graph<Delayable>, u: Delayable, v: Delayable)
    requires Flat(net, root, graphs, m) && AllProper(net, graphs) && (a, b) in Meant(net, graphs)
    ensures Proper(net, root, graphs, m, u) && Proper(net, root, graphs, m, v)
    ensures g in graphs && (u, v) in EdgeSet(net[g]) && a in Inside(u) && b in Inside(v)
  {
    hide Coherent, NonEmpty, Inside, AllJobs, AllLinks, GraphsOf, Delayable.Sound, Delayable.Built, Reaches;
    g, u, v :| g in graphs && u in net[g] && v in net[g][u] && a in Inside(u) && b in Inside(v);
    assert v in net[g];
  }

  lemma PairIsKept(
      net: Net, root: Graph<Delayable>, graphs: set<Graph<Delayable>>, m: Neighbours, a: Delayable, b: Delayable)
    returns (p: seq<Delayable>)
    requires Flat(net, root, graphs, m) && AllProper(net, graphs) && (a, b) in Meant(net, graphs)
    ensures IsPath(m, p) && |p| >= 2 && p[0] == a && p[|p| - 1] == b
  {
    hide Flat, AllProper, Meant, Proper, EdgeSet, IsPath, Inside;
    var g, u, v := MeantByEdge(net, root, graphs, m, a, b);
    p := EdgeIsKept(net, root, graphs, m, g, u, v, a, b);
  }

  lemma Prolonged(m: Neighbours, p: seq<Delayable>, q: seq<Delayable>) returns (r: seq<Delayable>)
    requires IsPath(m, p) && IsPath(m, q) && |q| >= 2 && q[0] == p[|p| - 1]
    ensures IsPath(m, r) && |r| >= 2 && r[0] == p[0] && r[|r| - 1] == q[|q| - 1]
  {
    assert q[0] in m && q[1] in m[q[0]];
    r := p + q[1..];
  }

  lemma AskedFirst(net: Net, graphs: set<Graph<Delayable>>, q: seq<Delayable>)
    requires Consistent(net) && graphs <= net.Keys && Asked(net, graphs, q)
    ensures |q| >= 2 && (q[|q| - 2], q[|q| - 1]) in Meant(net, graphs)
    ensures |q| > 2 ==> Asked(net, graphs, q[..|q| - 1])
  {
    var i, j := |q| - 2, |q| - 1;
    assert (q[i], q[j]) in Meant(net, graphs);
    hide Meant, Consistent;
  }

  /** Nothing that was asked for is lost. */
  lemma {:induction false} AskedIsKept(
      net: Net, root: Graph<Delayable>, graphs: set<Graph<Delayable>>, m: Neighbours, q: seq<Delayable>)
    returns (p: seq<Delayable>)
    requires Flat(net, root, graphs, m) && AllProper(net, graphs) && Asked(net, graphs, q)
    ensures IsPath(m, p) && |p| >= 2 && p[0] == q[0] && p[|p| - 1] == q[|q| - 1]
  {
    hide AllProper, Meant, IsPath, Asked, Consistent, Reaches, AllJobs, AllLinks, EdgeSet;
    AskedFirst(net, graphs, q);
    p := PairIsKept(net, root, graphs, m, q[|q| - 2], q[|q| - 1]);
    if |q| > 2 {
      var before := AskedIsKept(net, root, graphs, m, q[..|q| - 1]);
      p := Prolonged(m, before, p);
    }
  }

  /** Nothing is added: a path of the compiled graph was asked for, link by link. */
  lemma PathWasAsked(
      net: Net, root: Graph<Delayable>, graphs: set<Graph<Delayable>>, m: Neighbours, p: seq<Delayable>)
    requires Flat(net, root, graphs, m) && IsPath(m, p) && |p| >= 2
    ensures Asked(net, graphs, p)
  {
    forall i, j | 0 <= i && j == i + 1 < |p| ensures (p[i], p[j]) in Meant(net, graphs) {
      var g, u, v := LinkIsEdge(net, root, graphs, m, p[i], p[j]);
      EndsAreInside(u);
      EndsAreInside(v);
    }
  }

  /** The compiled graph can be ordered exactly when what was asked for is not circular. */
  lemma AcyclicAsAsked(net: Net, root: Graph<Delayable>, graphs: set<Graph<Delayable>>, m: Neighbours)
    requires Flat(net, root, graphs, m) && AllProper(net, graphs)
    ensures Acyclic(m) <==> forall q :: Asked(net, graphs, q) ==> q[0] != q[|q| - 1]
  {
    AcyclicMeansNoCycle(m);
    forall q | Asked(net, graphs, q) && q[0] == q[|q| - 1] ensures exists p :: IsCycle(m, p) {
      var p := AskedIsKept(net, root, graphs, m, q);
      assert IsCycle(m, p);
    }
    forall p | IsCycle(m, p) ensures Asked(net, graphs, p) {
      PathWasAsked(net, root, graphs, m, p);
    }
  }

  /** Performed in dependency order, a job comes after every job it was asked to wait for. */
  lemma PerformedAsAsked(
      net: Net, root: Graph<Delayable>, graphs: set<Graph<Delayable>>, m: Neighbours,
      order: seq<Delayable>, q: seq<Delayable>, j: nat)
    returns (i: nat)
    requires Flat(net, root, graphs, m) && AllProper(net, graphs)
    requires Ordered(m, order) && Distinct(order) && Asked(net, graphs, q)
    requires j < |order| && order[j] == q[|q| - 1]
    ensures i < j && order[i] == q[0]
  {
    var p := AskedIsKept(net, root, graphs, m, q);
    i := PathsFollowOrder(m, order, p, j);
  }

  // ---- Which jobs are left waiting for nothing ----

  /** The edge from `u` to `v` makes `j` wait for something. */
  ghost predicate Leads(u: Delayable, v: Delayable, j: Delayable)
    requires u.Sound() && v.Sound()
  {
    u.Tails() != {} && j in v.Heads()
  }

  /** A job waits for nothing exactly when no edge ends at something that has it among its heads. */
  lemma WaitsForNothing(net: Net, root: Graph<Delayable>, graphs: set<Graph<Delayable>>, m: Neighbours, j: Delayable)
    requires Flat(net, root, graphs, m)
    ensures Preds(m, j) == {} <==> forall g, u, v | g in graphs && u in net[g] && v in net[g][u] :: !Leads(u, v, j)
    ensures Preds(m, j) == {} <==> forall p | IsPath(m, p) && p[|p| - 1] == j :: p == [j]
  {
    hide AllJobs, AllLinks, Reaches;
    forall t | t in Preds(m, j)
      ensures exists g, u, v :: g in graphs && u in net[g] && v in net[g][u] && Leads(u, v, j)
    {
      var g, u, v := LinkIsEdge(net, root, graphs, m, t, j);
      assert Leads(u, v, j) && v in net[g][u];
    }
    forall g, u, v | g in graphs && u in net[g] && v in net[g][u] && Leads(u, v, j) ensures Preds(m, j) != {} {
      var t :| t in u.Tails();
      EdgeIsLinked(net, root, graphs, m, g, u, v, t, j);
      assert t in Preds(m, j);
    }
    CompiledIsClosed(net, root, graphs, m);
    PathsWithoutPreds(m, j);
  }

  lemma PathsWithoutPreds(m: Neighbours, j: Delayable)
    requires Closed(m)
    ensures Preds(m, j) == {} <==> forall p | IsPath(m, p) && p[|p| - 1] == j :: p == [j]
  {
    forall p | IsPath(m, p) && p[|p| - 1] == j && p != [j] ensures Preds(m, j) != {} {
      assert |p| == 1 ==> p == [j];
      var i, k := |p| - 2, |p| - 1;
      assert p[k] in m[p[i]];
      assert p[i] in Preds(m, j);
    }
    if t :| t in Preds(m, j) {
      assert IsPath(m, [t, j]);
    }
  }

  /**
   * What was asked for is lost when an edge ends at something that holds the job, but no edge ends at something that
   * has it among its heads.
   */
  lemma JobEscapes(
      net: Net, root: Graph<Delayable>, graphs: set<Graph<Delayable>>, m: Neighbours,
      g: Graph<Delayable>, u: Delayable, v: Delayable, a: Delayable, j: Delayable)
    requires Flat(net, root, graphs, m) && g in graphs && u in net[g] && v in net[g][u]
    requires u.Sound() && v.Sound() && a in Inside(u) && j in Inside(v)
    requires forall h, x, y | h in graphs && x in net[h] && y in net[h][x] :: !Leads(x, y, j)
    ensures (a, j) in Meant(net, graphs) && forall p | IsPath(m, p) && p[|p| - 1] == j :: p == [j]
  {
    hide AllJobs, AllLinks, Reaches, Inside;
    WaitsForNothing(net, root, graphs, m, j);
  }
}
