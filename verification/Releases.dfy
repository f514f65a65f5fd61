/** Jobs that wait are released: when this fails, and what becomes of them then. */
module Releases {
  import opened JobStates
  import opened JobProtocol

  /** A waiting job whose dependencies are all done is about to be released by the worker of one of them. */
  ghost predicate NoneForgotten(s: System) {
    forall j | j in s.rows && s.rows[j] == WaitDependencies && DepsDone(s, j) ::
      exists w | w in s.workers :: Releases(s, w) && s.workers[w].job in s.deps[j]
  }

  /** Each ready job that the worker was to release is to be released by another worker as well. */
  ghost predicate Covered(s: System, w: nat)
    requires w in s.workers
  {
    forall j | j in s.rows && s.rows[j] == WaitDependencies && DepsDone(s, j) && s.workers[w].job in s.deps[j] ::
      exists v | v in s.workers :: v != w && Releases(s, v) && s.workers[v].job in s.deps[j]
  }

  /** A worker dies between its commit of DONE and its release only if others release the same jobs. */
  ghost predicate ReleasesSurvive(s: System, e: Event) {
    e.Crash? && Releases(s, e.worker) ==> Covered(s, e.worker)
  }

  /** Changes that make no waiting job ready, and take no releasing worker away. */
  ghost predicate Harmless(s: System, t: System) {
    && t.deps == s.deps
    && (forall j | j in t.rows && t.rows[j] == WaitDependencies && DepsDone(t, j) ::
          j in s.rows && s.rows[j] == WaitDependencies && DepsDone(s, j))
    && (forall w | Releases(s, w) :: Releases(t, w) && t.workers[w].job == s.workers[w].job)
  }

  lemma HarmlessForgetsNone(s: System, t: System)
    requires NoneForgotten(s) && Harmless(s, t)
    ensures NoneForgotten(t)
  {
    forall j | j in t.rows && t.rows[j] == WaitDependencies && DepsDone(t, j)
      ensures exists w | w in t.workers :: Releases(t, w) && t.workers[w].job in t.deps[j]
    {
      var w :| w in s.workers && Releases(s, w) && s.workers[w].job in s.deps[j];
      assert Releases(t, w);
    }
  }

  lemma SetRowHarmless(s: System, j: Id, state: JobState)
    requires WellFormed(s) && state != Done && (state == WaitDependencies ==> !DepsDone(s, j))
    ensures Harmless(s, SetRow(s, j, state))
  {
    var t := SetRow(s, j, state);
    forall k | DepsDone(t, k) ensures DepsDone(s, k) {
      forall p | p in s.deps[k] ensures p in s.rows && s.rows[p] == Done {
        assert t.rows[p] == Done;
      }
    }
    assert forall w | Releases(s, w) :: Releases(t, w);
  }

  lemma SameRowsHarmless(s: System, t: System)
    requires t.rows == s.rows && t.deps == s.deps
    requires forall w | Releases(s, w) :: w in t.workers && t.workers[w] == s.workers[w]
    ensures Harmless(s, t)
  {
    forall k | DepsDone(t, k) ensures DepsDone(s, k) { }
    assert forall w | Releases(s, w) :: Releases(t, w);
  }

  lemma HarmlessTwice(s: System, t: System, u: System)
    requires Harmless(s, t) && Harmless(t, u)
    ensures Harmless(s, u)
  {
  }

  lemma CreateForgetsNone(s: System, graph: map<Id, set<Id>>, t: System)
    requires WellFormed(s) && NoneForgotten(s) && Step(s, Create(graph), t)
    ensures NoneForgotten(t)
  {
    forall j | j in t.rows && t.rows[j] == WaitDependencies && DepsDone(t, j)
      ensures exists w | w in t.workers :: Releases(t, w) && t.workers[w].job in t.deps[j]
    {
      CreatedIsNotReady(s, graph, t, j);
      assert DepsDone(s, j) by {
        forall p | p in s.deps[j] ensures s.rows[p] == Done { assert t.rows[p] == Done; }
      }
      var w :| w in s.workers && Releases(s, w) && s.workers[w].job in s.deps[j];
      assert Releases(t, w);
    }
  }

  lemma CreatedIsNotReady(s: System, graph: map<Id, set<Id>>, t: System, j: Id)
    requires WellFormed(s) && Step(s, Create(graph), t)
    requires j in t.rows && t.rows[j] == WaitDependencies && DepsDone(t, j)
    ensures j !in graph
  {
    forall k | k in graph ensures !(t.rows[k] == WaitDependencies && DepsDone(t, k)) {
      NewJobIsNotReady(s, graph, t, k);
    }
  }

  lemma NewJobIsNotReady(s: System, graph: map<Id, set<Id>>, t: System, k: Id)
    requires Step(s, Create(graph), t) && k in graph
    ensures k in t.rows && !(t.rows[k] == WaitDependencies && DepsDone(t, k))
  {
    if t.rows[k] == WaitDependencies {
      var p :| p in graph[k];
      assert t.rows[p] != Done;
    }
  }

  lemma ReleaseForgetsNone(s: System, w: nat, t: System)
    requires WellFormed(s) && NoneForgotten(s) && Step(s, Release(w), t)
    ensures NoneForgotten(t)
  {
    var p := s.workers[w].job;
    forall j | j in t.rows && t.rows[j] == WaitDependencies && DepsDone(t, j)
      ensures exists v | v in t.workers :: Releases(t, v) && t.workers[v].job in t.deps[j]
    {
      SameDone(s, p, j);
      assert DepsDone(s, j) && p !in s.deps[j];
      var v :| v in s.workers && Releases(s, v) && s.workers[v].job in s.deps[j];
      assert Releases(t, v);
    }
  }

  /** Releasing jobs changes no job that is done. */
  lemma SameDone(s: System, p: Id, j: Id)
    ensures DepsDone(ReleaseChildren(s, p), j) <==> DepsDone(s, j)
  {
    var t := ReleaseChildren(s, p);
    assert forall k | k in s.rows :: t.rows[k] == Done <==> s.rows[k] == Done;
  }

  lemma FinishDoneForgetsNone(s: System, w: nat, t: System)
    requires WellFormed(s) && NoneForgotten(s) && Step(s, FinishDone(w), t)
    ensures NoneForgotten(t)
  {
    var d := s.workers[w].job;
    forall j | j in t.rows && t.rows[j] == WaitDependencies && DepsDone(t, j)
      ensures exists v | v in t.workers :: Releases(t, v) && t.workers[v].job in t.deps[j]
    {
      if d in s.deps[j] {
        assert Releases(t, w);
      } else {
        assert DepsDone(s, j) by {
          forall p | p in s.deps[j] ensures s.rows[p] == Done { assert t.rows[p] == Done; }
        }
        var v :| v in s.workers && Releases(s, v) && s.workers[v].job in s.deps[j];
        assert Releases(t, v);
      }
    }
  }

  lemma ButtonDoneForgetsNone(s: System, d: Id, t: System)
    requires WellFormed(s) && NoneForgotten(s) && Step(s, ButtonDone(d), t)
    ensures NoneForgotten(t)
  {
    var u := SetRow(s, d, Done);
    assert t.workers == s.workers;
    forall j | j in t.rows && t.rows[j] == WaitDependencies && DepsDone(t, j)
      ensures exists v | v in t.workers :: Releases(t, v) && t.workers[v].job in t.deps[j]
    {
      SameDone(u, d, j);
      assert u.rows[j] == WaitDependencies && DepsDone(u, j) && d !in s.deps[j];
      assert DepsDone(s, j) by {
        forall p | p in s.deps[j] ensures s.rows[p] == Done { assert u.rows[p] == Done; }
      }
      var v :| v in s.workers && Releases(s, v) && s.workers[v].job in s.deps[j];
      assert Releases(t, v);
    }
  }

  /** Steps of the runner and of the requests that change no row. */
  lemma QuietForgetsNone(s: System, e: Event, t: System)
    requires NoneForgotten(s) && Step(s, e, t)
    requires e.Notify? || e.Drop? || e.LoseRequest? || (e.Crash? && !Releases(s, e.worker))
    ensures NoneForgotten(t)
  {
    hide NoneForgotten, Harmless;
    SameRowsHarmless(s, t);
    HarmlessForgetsNone(s, t);
  }

  /** The death of a releasing worker loses a release exactly when it was the only one to make it. */
  lemma CrashForgetsNone(s: System, w: nat, t: System)
    requires NoneForgotten(s) && Step(s, Crash(w), t) && Releases(s, w)
    ensures NoneForgotten(t) <==> Covered(s, w)
  {
    assert forall v | v in s.workers && v != w :: Releases(t, v) <==> Releases(s, v);
    forall j | j in s.rows ensures DepsDone(t, j) <==> DepsDone(s, j) { }
    if Covered(s, w) {
      forall j | j in t.rows && t.rows[j] == WaitDependencies && DepsDone(t, j)
        ensures exists v | v in t.workers :: Releases(t, v) && t.workers[v].job in t.deps[j]
      {
        var v :| v in s.workers && Releases(s, v) && s.workers[v].job in s.deps[j] &&
          (s.workers[w].job in s.deps[j] ==> v != w);
        assert v in t.workers && Releases(t, v);
      }
    }
    if NoneForgotten(t) {
      forall j | j in s.rows && s.rows[j] == WaitDependencies && DepsDone(s, j) && s.workers[w].job in s.deps[j]
        ensures exists v | v in s.workers :: v != w && Releases(s, v) && s.workers[v].job in s.deps[j]
      {
        var v :| v in t.workers && Releases(t, v) && t.workers[v].job in t.deps[j];
        assert v != w && Releases(s, v);
      }
    }
  }

  lemma RunnerForgetsNone(s: System, e: Event, t: System)
    requires WellFormed(s) && NoneForgotten(s) && Step(s, e, t)
    requires e.Dispatch? || e.Timeout? || e.Gate?
    ensures NoneForgotten(t)
  {
    hide WellFormed, NoneForgotten, DepsDone;
    var state := if e.Dispatch? then Enqueued else if e.Timeout? then Pending else Started;
    if e.Dispatch? || (e.job in s.rows && s.rows[e.job] == Enqueued) {
      SetRowForgetsNone(s, e.job, state, t);
    } else {
      SameRowsHarmless(s, t);
      HarmlessForgetsNone(s, t);
    }
  }

  lemma WorkerForgetsNone(s: System, e: Event, t: System)
    requires WellFormed(s) && NoneForgotten(s) && Step(s, e, t)
    requires e.FinishRetry? || e.FinishFailed? || e.ButtonCancelled? || e.Requeue?
    ensures NoneForgotten(t)
  {
    hide WellFormed, NoneForgotten, DepsDone;
    match e
    case FinishRetry(w) => SetRowForgetsNone(s, s.workers[w].job, PendingState(s, s.workers[w].job), t);
    case FinishFailed(w) => SetRowForgetsNone(s, s.workers[w].job, Failed, t);
    case ButtonCancelled(j) => SetRowForgetsNone(s, j, Cancelled, t);
    case Requeue(j) =>
      if s.rows[j] != WaitDependencies { SetRowForgetsNone(s, j, PendingState(s, j), t); }
  }

  /** Only the death of a releasing worker can lose a release. */
  lemma StepForgetsNone(s: System, e: Event, t: System)
    requires WellFormed(s) && NoneForgotten(s) && Step(s, e, t)
    ensures NoneForgotten(t) <==> ReleasesSurvive(s, e)
  {
    hide WellFormed, NoneForgotten, Step, Covered, Releases;
    match e
    case Create(graph) => CreateForgetsNone(s, graph, t);
    case FinishDone(w) => FinishDoneForgetsNone(s, w, t);
    case Release(w) => ReleaseForgetsNone(s, w, t);
    case ButtonDone(j) => ButtonDoneForgetsNone(s, j, t);
    case Crash(w) =>
      if Releases(s, w) {
        CrashForgetsNone(s, w, t);
      } else {
        QuietForgetsNone(s, e, t);
      }
    case _ =>
      if e.Dispatch? || e.Timeout? || e.Gate? {
        RunnerForgetsNone(s, e, t);
      } else if e.FinishRetry? || e.FinishFailed? || e.ButtonCancelled? || e.Requeue? {
        WorkerForgetsNone(s, e, t);
      } else {
        QuietForgetsNone(s, e, t);
      }
  }

  lemma SetRowForgetsNone(s: System, j: Id, state: JobState, t: System)
    requires WellFormed(s) && NoneForgotten(s)
    requires state != Done && (state == WaitDependencies ==> !DepsDone(s, j))
    requires t.rows == SetRow(s, j, state).rows && t.deps == s.deps
    requires forall w | Releases(s, w) :: w in t.workers && t.workers[w] == s.workers[w]
    ensures NoneForgotten(t)
  {
    hide WellFormed, NoneForgotten, Harmless, DepsDone;
    var u := SetRow(s, j, state);
    SetRowHarmless(s, j, state);
    SameRowsHarmless(u, t);
    HarmlessTwice(s, u, t);
    HarmlessForgetsNone(s, t);
  }

  /**
   * No lost release: over a run, a waiting job whose dependencies are all done is always about to be released by the
   * worker of one of them, exactly as long as no worker dies with a release that it alone was to make.
   */
  lemma {:induction false} RunForgetsNone(states: seq<System>, events: seq<Event>, n: nat)
    requires Run(states, events) && n < |states|
    ensures (forall i | 0 <= i <= n :: NoneForgotten(states[i]))
      <==> forall k | 0 <= k < n :: ReleasesSurvive(states[k], events[k])
  {
    hide Step, Safe, NoneForgotten, ReleasesSurvive;
    if n == 0 {
      NothingForgotten();
    } else {
      RunForgetsNone(states, events, n - 1);
      RunSafe(states, events, n - 1);
      SafeWellFormed(states[n - 1]);
      if NoneForgotten(states[n - 1]) {
        StepForgetsNone(states[n - 1], events[n - 1], states[n]);
      }
    }
  }

  lemma NothingForgotten()
    ensures NoneForgotten(NOTHING)
  {
  }

  /** When no worker has a release outstanding, every waiting job has a dependency that is not done. */
  lemma WaitingHasUnfinishedDependency(states: seq<System>, events: seq<Event>, i: nat, j: Id)
    requires Run(states, events) && i < |states|
    requires forall k | 0 <= k < i :: ReleasesSurvive(states[k], events[k])
    requires forall w | w in states[i].workers :: !Releases(states[i], w)
    requires j in states[i].rows && states[i].rows[j] == WaitDependencies
    ensures j in states[i].deps
    ensures exists p | p in states[i].deps[j] :: p in states[i].rows && states[i].rows[p] != Done
  {
    RunForgetsNone(states, events, i);
    RunSafe(states, events, i);
  }

  // ----- A release that is lost is lost for ever -----

  /** The jobs that `j` waits for, and `j`. */
  ghost function Family(s: System, j: Id): set<Id>
    requires j in s.deps
  {
    s.deps[j] + {j}
  }

  /** `j` could start, but waits, and no worker and no queue holds anything that could release it. */
  ghost predicate Stuck(s: System, j: Id) {
    && j in s.rows && s.rows[j] == WaitDependencies && DepsDone(s, j)
    && (forall w | w in s.workers :: s.workers[w].job !in Family(s, j))
    && (forall k | k in Family(s, j) :: !(k in s.seen && s.seen[k] == Queued))
  }

  /** The operator leaves `j` and the jobs it waits for alone; requeuing `j` itself does nothing while it waits. */
  ghost predicate LeavesAlone(s: System, e: Event, j: Id)
    requires j in s.deps
  {
    match e
    case ButtonDone(k) => k !in Family(s, j)
    case ButtonCancelled(k) => k !in Family(s, j)
    case Requeue(k) => k !in s.deps[j]
    case _ => true
  }

  lemma StillStuck(s: System, j: Id, t: System)
    requires Stuck(s, j) && j in t.deps && t.deps[j] == s.deps[j]
    requires forall k | k in Family(s, j) :: k in t.rows && t.rows[k] == s.rows[k]
    requires forall w | w in t.workers && t.workers[w].job in Family(s, j) ::
      w in s.workers && t.workers[w].job == s.workers[w].job
    requires forall k | k in Family(s, j) && k in t.seen && t.seen[k] == Queued :: k in s.seen && s.seen[k] == Queued
    ensures Stuck(t, j)
  {
  }

  lemma RunnerWhenStuck(s: System, e: Event, t: System, j: Id)
    requires WellFormed(s) && Stuck(s, j) && Step(s, e, t)
    requires e.Create? || e.Notify? || e.Drop? || e.LoseRequest?
    ensures Stuck(t, j)
  {
    hide DepsDone;
    DependenciesDone(s, j);
    StillStuck(s, j, t);
  }

  lemma SendingWhenStuck(s: System, e: Event, t: System, j: Id)
    requires WellFormed(s) && Stuck(s, j) && Step(s, e, t)
    requires e.Dispatch? || e.Timeout? || e.Gate?
    ensures Stuck(t, j)
  {
    hide DepsDone;
    DependenciesDone(s, j);
    StillStuck(s, j, t);
  }

  lemma WorkerWhenStuck(s: System, e: Event, t: System, j: Id)
    requires WellFormed(s) && Stuck(s, j) && Step(s, e, t)
    requires e.FinishDone? || e.FinishRetry? || e.FinishFailed? || e.Release? || e.Crash?
    ensures Stuck(t, j)
  {
    hide DepsDone;
    DependenciesDone(s, j);
    StillStuck(s, j, t);
  }

  lemma DependenciesDone(s: System, j: Id)
    requires j in s.deps && DepsDone(s, j)
    ensures forall k | k in s.deps[j] :: k in s.rows && s.rows[k] == Done
  {
  }

  lemma LeftAloneWhenStuck(s: System, e: Event, t: System, j: Id)
    requires WellFormed(s) && Stuck(s, j) && Step(s, e, t) && LeavesAlone(s, e, j)
    requires e.ButtonDone? || e.ButtonCancelled? || e.Requeue?
    ensures Stuck(t, j)
  {
    hide DepsDone;
    DependenciesDone(s, j);
    StillStuck(s, j, t);
  }

  lemma SeenToWhenStuck(s: System, e: Event, t: System, j: Id)
    requires WellFormed(s) && Stuck(s, j) && Step(s, e, t) && !LeavesAlone(s, e, j)
    requires e.ButtonDone? || e.ButtonCancelled? || e.Requeue?
    ensures !Stuck(t, j)
  {
    DependenciesDone(s, j);
    if e.ButtonDone? {
      SameDone(SetRow(s, e.job, Done), e.job, j);
    }
  }

  /** Of the operator's steps, exactly those that see to `j` or one of its dependencies end what kept `j` stuck. */
  lemma OperatorWhenStuck(s: System, e: Event, t: System, j: Id)
    requires WellFormed(s) && Stuck(s, j) && Step(s, e, t)
    requires e.ButtonDone? || e.ButtonCancelled? || e.Requeue?
    ensures Stuck(t, j) <==> LeavesAlone(s, e, j)
  {
    hide WellFormed, Step, Stuck, LeavesAlone;
    StuckIsKnown(s, j);
    if LeavesAlone(s, e, j) {
      LeftAloneWhenStuck(s, e, t, j);
    } else {
      SeenToWhenStuck(s, e, t, j);
    }
  }

  /** What is stuck stays stuck through every step but those of an operator who sees to it. */
  lemma StepWhenStuck(s: System, e: Event, t: System, j: Id)
    requires WellFormed(s) && Stuck(s, j) && Step(s, e, t)
    ensures Stuck(t, j) <==> LeavesAlone(s, e, j)
  {
    hide Step, WellFormed, Stuck;
    if e.ButtonDone? || e.ButtonCancelled? || e.Requeue? {
      OperatorWhenStuck(s, e, t, j);
    } else if e.FinishDone? || e.FinishRetry? || e.FinishFailed? || e.Release? || e.Crash? {
      WorkerWhenStuck(s, e, t, j);
    } else if e.Dispatch? || e.Timeout? || e.Gate? {
      SendingWhenStuck(s, e, t, j);
    } else {
      RunnerWhenStuck(s, e, t, j);
    }
  }

  lemma StuckIsKnown(s: System, j: Id)
    requires WellFormed(s) && Stuck(s, j)
    ensures j in s.deps && j in s.rows && s.rows[j] == WaitDependencies && !NoneForgotten(s)
  {
  }

  /** Over the rest of a run, a stuck job waits as long as the operator leaves it and its dependencies alone. */
  lemma {:induction false} StuckForEver(states: seq<System>, events: seq<Event>, i: nat, n: nat, j: Id)
    requires Run(states, events) && i <= n < |states| && Stuck(states[i], j)
    ensures (forall k | i <= k <= n :: Stuck(states[k], j))
      <==> forall k | i <= k < n :: j in states[k].deps && LeavesAlone(states[k], events[k], j)
    ensures (forall k | i <= k < n :: j in states[k].deps && LeavesAlone(states[k], events[k], j)) ==>
      forall k | i <= k <= n :: j in states[k].rows && states[k].rows[j] == WaitDependencies
    decreases n
  {
    hide Step, Safe, WellFormed, Stuck, LeavesAlone, NoneForgotten;
    forall k | i <= k <= n && Stuck(states[k], j)
      ensures j in states[k].deps && j in states[k].rows && states[k].rows[j] == WaitDependencies
    {
      RunSafe(states, events, k);
      SafeWellFormed(states[k]);
      StuckIsKnown(states[k], j);
    }
    if n > i {
      StuckForEver(states, events, i, n - 1, j);
      if Stuck(states[n - 1], j) {
        RunSafe(states, events, n - 1);
        SafeWellFormed(states[n - 1]);
        StepWhenStuck(states[n - 1], events[n - 1], states[n], j);
      }
    }
  }

  /**
   * Worker `w` performs the last of the jobs that `j` waits for, and nothing else holds a job that `j` waits for.
   */
  ghost predicate LastHope(s: System, w: nat, j: Id) {
    && Performs(s, w) && j in s.deps && s.workers[w].job in s.deps[j]
    && j in s.rows && s.rows[j] == WaitDependencies
    && (forall k | k in s.deps[j] :: k in s.rows && (s.rows[k] == Done || k == s.workers[w].job))
    && (forall v | v in s.workers && v != w :: s.workers[v].job !in Family(s, j))
    && (forall k | k in Family(s, j) :: !(k in s.seen && s.seen[k] == Queued))
  }

  /** If it dies after its commit of DONE, and exactly in this case, `j` is stuck. */
  lemma DyingLeavesStuck(s: System, w: nat, j: Id, t: System, u: System)
    requires WellFormed(s) && Performs(s, w) && j in s.deps && s.workers[w].job in s.deps[j]
    requires Step(s, FinishDone(w), t) && Step(t, Crash(w), u)
    ensures Stuck(u, j) <==> LastHope(s, w, j)
  {
    var p := s.workers[w].job;
    assert u.deps == s.deps && u.seen == s.seen && u.workers == s.workers - {w} && u.rows == s.rows[p := Done];
    if Stuck(u, j) {
      DependenciesDone(u, j);
      assert forall k | k in s.deps[j] && k != p :: u.rows[k] == s.rows[k];
      forall v | v in s.workers && v != w ensures s.workers[v].job !in Family(s, j) {
        assert v in u.workers && u.workers[v] == s.workers[v];
      }
    }
    if LastHope(s, w, j) {
      assert forall k | k in u.deps[j] :: k in u.rows && u.rows[k] == Done;
      assert forall v | v in u.workers :: v in s.workers && v != w;
    }
  }

  /** From then on, over the rest of any run, `j` waits until the operator sees to it or its dependencies. */
  lemma LostForEver(states: seq<System>, events: seq<Event>, i: nat, w: nat, n: nat, j: Id)
    requires Run(states, events) && i + 2 <= n < |states| && LastHope(states[i], w, j)
    requires events[i] == FinishDone(w) && events[i + 1] == Crash(w)
    requires forall k | i + 2 <= k < n :: j in states[k].deps && LeavesAlone(states[k], events[k], j)
    ensures j in states[n].rows && states[n].rows[j] == WaitDependencies && !NoneForgotten(states[n])
  {
    hide Step, Stuck, LastHope, LeavesAlone, NoneForgotten, WellFormed, Safe;
    RunSafe(states, events, i);
    RunSafe(states, events, n);
    SafeWellFormed(states[i]);
    SafeWellFormed(states[n]);
    assert Step(states[i], events[i], states[i + 1]) && Step(states[i + 1], events[i + 1], states[i + 2]);
    HopeIsKnown(states[i], w, j);
    DyingLeavesStuck(states[i], w, j, states[i + 1], states[i + 2]);
    StuckForEver(states, events, i + 2, n, j);
    StuckIsKnown(states[n], j);
  }

  lemma HopeIsKnown(s: System, w: nat, j: Id)
    requires LastHope(s, w, j)
    ensures Performs(s, w) && j in s.deps && s.workers[w].job in s.deps[j]
  {
  }

  /** Any run that has come to such a state can go on like this. */
  lemma DyingIsPossible(s: System, w: nat, j: Id) returns (t: System, u: System)
    requires WellFormed(s) && LastHope(s, w, j)
    ensures Step(s, FinishDone(w), t) && Step(t, Crash(w), u) && Stuck(u, j) && !NoneForgotten(u)
  {
    hide WellFormed, LastHope, Stuck, NoneForgotten;
    HopeIsKnown(s, w, j);
    var p := s.workers[w].job;
    t := SetRow(s, p, Done).(workers := s.workers[w := Worker(p, Releasing)]);
    u := t.(workers := t.workers - {w});
    DyingLeavesStuck(s, w, j, t, u);
    DyingKeepsForm(s, w, j, t, u);
    StuckIsKnown(u, j);
  }

  lemma DyingKeepsForm(s: System, w: nat, j: Id, t: System, u: System)
    requires WellFormed(s) && LastHope(s, w, j) && Step(s, FinishDone(w), t) && Step(t, Crash(w), u)
    ensures WellFormed(u)
  {
  }


  // A run in which the worker of job `p` dies after its commit of DONE, and job `c`, which depends on it, is stuck.

  function Pair(p: Id, c: Id): map<Id, set<Id>> {
    map[p := {}, c := {p}]
  }

  function Rows(p: Id, c: Id, state: JobState): map<Id, JobState> {
    map[p := state, c := WaitDependencies]
  }

  function Created(p: Id, c: Id): System {
    System(Rows(p, c, Pending), Pair(p, c), map[], multiset{}, map[], {})
  }

  function Dispatched(p: Id, c: Id): System {
    System(Rows(p, c, Enqueued), Pair(p, c), map[p := Running], multiset{p}, map[], {})
  }

  function Performed(p: Id, c: Id): System {
    System(Rows(p, c, Started), Pair(p, c), map[p := Running], multiset{}, map[7 := Worker(p, Performing)], {})
  }

  function Finished(p: Id, c: Id): System {
    System(Rows(p, c, Done), Pair(p, c), map[p := Running], multiset{}, map[7 := Worker(p, Releasing)], {p})
  }

  lemma CrashBegins(p: Id, c: Id)
    requires p != c
    ensures var s := Created(p, c);
      Step(NOTHING, Create(Pair(p, c)), s) && Step(s, Notify(p, true), s.(seen := map[p := Queued]))
  {
    var graph := Pair(p, c);
    assert Rows(p, c, Pending)
        == NOTHING.rows + (map j | j in graph :: if graph[j] == {} then Pending else WaitDependencies);
  }

  lemma CrashGoesOn(p: Id, c: Id)
    requires p != c
    ensures Step(Created(p, c).(seen := map[p := Queued]), Dispatch(p), Dispatched(p, c))
    ensures Step(Dispatched(p, c), Gate(p, 7), Performed(p, c))
  {
    assert multiset{p} - multiset{p} == multiset{};
  }

  lemma CrashEnds(p: Id, c: Id)
    requires p != c
    ensures Step(Performed(p, c), FinishDone(7), Finished(p, c))
    ensures Step(Finished(p, c), Crash(7), Finished(p, c).(workers := map[]))
  {
  }

  /** Such states are reached: here a worker dies after its commit of DONE, and the job it served is stuck. */
  lemma CrashLosesRelease(p: Id, c: Id) returns (states: seq<System>, events: seq<Event>)
    requires p != c
    ensures Run(states, events) && |states| >= 3
    ensures var n := |states| - 1;
      LastHope(states[n - 2], 7, c) && events[n - 2] == FinishDone(7) && events[n - 1] == Crash(7) &&
      Stuck(states[n], c) && states[n].workers == map[] && states[n].requests == multiset{}
  {
    hide Step, Stuck, LastHope, Created, Dispatched, Performed;
    var crashed := Finished(p, c).(workers := map[]);
    events := [Create(Pair(p, c)), Notify(p, true), Dispatch(p), Gate(p, 7), FinishDone(7), Crash(7)];
    states := [NOTHING, Created(p, c), Created(p, c).(seen := map[p := Queued]), Dispatched(p, c), Performed(p, c),
               Finished(p, c), crashed];
    CrashBegins(p, c);
    CrashGoesOn(p, c);
    CrashEnds(p, c);
    StuckAfterCrash(p, c);
  }

  lemma StuckAfterCrash(p: Id, c: Id)
    requires p != c
    ensures LastHope(Performed(p, c), 7, c) && Stuck(Finished(p, c).(workers := map[]), c)
  {
    assert DepsDone(Finished(p, c).(workers := map[]), c);
  }
}
