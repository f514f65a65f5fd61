/** Delaying a compiled graph: a job for every vertex, and a dependency for every link. */
module Delaying {
  import opened Sequences
  import opened Graphs
  import opened Delayables
  import opened Jobs
  import opened JobStates

  ghost function JobsOf(jobs: map<Delayable, Job>, vs: set<Delayable>): set<Job> {
    set v | v in vs && v in jobs :: jobs[v]
  }

  ghost function Before(links: set<(Delayable, Delayable)>, v: Delayable): set<Delayable> {
    set e | e in links && e.1 == v :: e.0
  }

  ghost function After(links: set<(Delayable, Delayable)>, v: Delayable): set<Delayable> {
    set e | e in links && e.0 == v :: e.1
  }

  ghost predicate Injective(jobs: map<Delayable, Job>) {
    forall u, v | u in jobs && v in jobs && u != v :: jobs[u] != jobs[v]
  }

  /** The jobs depend on each other as the links say, and those that depend on any wait. */
  ghost predicate Recorded(jobs: map<Delayable, Job>, links: set<(Delayable, Delayable)>)
    reads jobs.Values
  {
    forall v | v in jobs :: RecordedAt(jobs, links, v)
  }

  ghost predicate RecordedAt(jobs: map<Delayable, Job>, links: set<(Delayable, Delayable)>, v: Delayable)
    requires v in jobs
    reads jobs[v]
  {
    && jobs[v].dependsOn == JobsOf(jobs, Before(links, v))
    && jobs[v].reverseDependsOn == JobsOf(jobs, After(links, v))
    && jobs[v].state == if Before(links, v) == {} then Pending else WaitDependencies
  }

  method BuildJobs(vertices: set<Delayable>, maxRetries: Delayable -> nat) returns (jobs: map<Delayable, Job>)
    ensures jobs.Keys == vertices && fresh(jobs.Values) && Injective(jobs) && Recorded(jobs, {})
  {
    jobs := map[];
    var left := vertices;
    while left != {}
      invariant left !! jobs.Keys && left + jobs.Keys == vertices
      invariant fresh(jobs.Values) && Injective(jobs)
      invariant forall v | v in jobs ::
        jobs[v].dependsOn == {} && jobs[v].reverseDependsOn == {} && jobs[v].state == Pending
    {
      var v :| v in left;
      var job := new Job(maxRetries(v));
      left := left - {v};
      assert forall u | u in jobs :: jobs[u] in jobs.Values;
      jobs := jobs[v := job];
    }
  }

  lemma RecordedMore(
      jobs: map<Delayable, Job>, links: set<(Delayable, Delayable)>, u: Delayable, v: Delayable, w: Delayable)
    requires u in jobs && v in jobs && w in jobs
    ensures JobsOf(jobs, Before(links + {(u, v)}, w))
         == JobsOf(jobs, Before(links, w)) + if w == v then {jobs[u]} else {}
    ensures JobsOf(jobs, After(links + {(u, v)}, w))
         == JobsOf(jobs, After(links, w)) + if w == u then {jobs[v]} else {}
    ensures Before(links + {(u, v)}, w) == {} <==> Before(links, w) == {} && w != v
  {
    assert Before(links + {(u, v)}, w) == Before(links, w) + if w == v then {u} else {};
    assert After(links + {(u, v)}, w) == After(links, w) + if w == u then {v} else {};
  }

  method AddLink(
      jobs: map<Delayable, Job>, ghost links: set<(Delayable, Delayable)>, u: Delayable, v: Delayable)
    returns (ok: bool)
    requires u in jobs && v in jobs && Injective(jobs) && Recorded(jobs, links)
    modifies jobs.Values
    ensures ok <==> u != v
    ensures ok ==> Recorded(jobs, links + {(u, v)})
  {
    hide JobsOf, Before, After;
    assert jobs[u] in jobs.Values && jobs[v] in jobs.Values;
    ok := jobs[v].AddDepends({jobs[u]});
    if ok {
      forall w | w in jobs ensures RecordedAt(jobs, links + {(u, v)}, w) {
        RecordedMore(jobs, links, u, v, w);
        assert old(RecordedAt(jobs, links, w));
      }
    }
  }

  lemma NoSelfLink(g: Neighbours)
    ensures (forall e | e in EdgeSet(g) :: e.0 != e.1) <==> forall v | v in g :: v !in g[v]
  {
    forall v | v in g && v in g[v] ensures (v, v) in EdgeSet(g) {
    }
  }

  /** False stands for the error raised for a job that would depend on itself. */
  method StoreGraph(graph: Graph<Delayable>, maxRetries: Delayable -> nat) returns (ok: bool, jobs: map<Delayable, Job>)
    requires Closed(graph.graph)
    ensures jobs.Keys == graph.graph.Keys && fresh(jobs.Values) && Injective(jobs)
    ensures ok <==> forall v | v in graph.graph :: v !in graph.graph[v]
    ensures ok ==> Recorded(jobs, EdgeSet(graph.graph))
  {
    hide Recorded, Injective, JobsOf;
    jobs := BuildJobs(graph.graph.Keys, maxRetries);
    var links := graph.Edges();
    NoSelfLink(graph.graph);
    var i := 0;
    FirstAndRest(links[..0]);
    while i < |links|
      invariant 0 <= i <= |links| && fresh(jobs.Values)
      invariant Recorded(jobs, Elements(links[..i]))
      invariant forall e | e in Elements(links[..i]) :: e.0 != e.1
    {
      var (u, v) := links[i];
      assert (u, v) in Elements(links);
      OneMoreVertex(links[..i], links[i]);
      assert links[..i + 1] == links[..i] + [links[i]];
      ok := AddLink(jobs, Elements(links[..i]), u, v);
      if !ok {
        return;
      }
      i := i + 1;
    }
    assert links[..i] == links;
    ok := true;
  }
}
