/** At most one worker performs a job: what this asks of the operator. */
module Executors {
  import opened JobStates
  import opened JobProtocol

  ghost predicate PerformsJob(s: System, w: nat, j: Id) {
    Performs(s, w) && s.workers[w].job == j
  }

  ghost predicate IsQueued(s: System, j: Id) {
    j in s.seen && s.seen[j] == Queued
  }

  /** No two workers perform the same job, and nothing can start a job that is being performed. */
  ghost predicate Single(s: System) {
    && (forall v, w | Performs(s, v) && Performs(s, w) && v != w :: s.workers[v].job != s.workers[w].job)
    && (forall w | Performs(s, w) :: Settled(s, s.workers[w].job))
    && (forall j | IsQueued(s, j) :: j in s.rows && s.rows[j] !in {Enqueued, Started})
  }

  /** The job is in a state from which no request or dispatch starts it, and is not queued in the channels. */
  ghost predicate Settled(s: System, j: Id) {
    j in s.rows && s.rows[j] in {Started, Done, Cancelled} && !IsQueued(s, j)
  }

  /** Each job that is performed is stored as started. */
  ghost predicate AllStarted(s: System) {
    forall w | Performs(s, w) :: s.workers[w].job in s.rows && s.rows[s.workers[w].job] == Started
  }

  /** The operator does not requeue a job that is being performed. */
  ghost predicate RequeuesNone(s: System, e: Event) {
    e.Requeue? ==> forall w | w in s.workers :: !PerformsJob(s, w, e.job)
  }

  /** The operator leaves alone the jobs that are being performed. */
  ghost predicate SparesPerformed(s: System, e: Event) {
    e.ButtonDone? || e.ButtonCancelled? || e.Requeue? ==> forall w | w in s.workers :: !PerformsJob(s, w, e.job)
  }

  // ----- What each step keeps -----

  /** Nobody new performs a job, and nobody new is queued. */
  ghost predicate NoNewcomers(s: System, t: System) {
    && (forall w | Performs(t, w) :: Performs(s, w) && t.workers[w] == s.workers[w])
    && (forall j | IsQueued(t, j) :: IsQueued(s, j))
  }

  lemma RowChangeSingle(s: System, j: Id, state: JobState, t: System)
    requires Single(s) && NoNewcomers(s, t) && t.rows == s.rows[j := state]
    requires state in {Done, Cancelled} || forall w | w in t.workers :: !PerformsJob(t, w, j)
    requires state in {Enqueued, Started} ==> !IsQueued(t, j)
    ensures Single(t)
  {
    forall w | Performs(t, w) ensures Settled(t, t.workers[w].job) {
      assert PerformsJob(t, w, t.workers[w].job) && Settled(s, s.workers[w].job);
    }
  }

  lemma SameRowsSingle(s: System, t: System)
    requires Single(s) && t.rows == s.rows
    requires forall w | Performs(t, w) :: Performs(s, w) && t.workers[w] == s.workers[w]
    requires forall j | IsQueued(t, j) :: IsQueued(s, j) || (j in s.rows && s.rows[j] == Pending)
    ensures Single(t)
  {
    forall w | Performs(t, w) ensures Settled(t, t.workers[w].job) {
      assert Settled(s, s.workers[w].job);
    }
  }

  lemma ReleaseSingle(s: System, p: Id, t: System)
    requires Single(s) && NoNewcomers(s, t) && t.rows == ReleaseChildren(s, p).rows
    ensures Single(t)
  {
    hide DepsDone;
    assert forall j | j in s.rows :: t.rows[j] == s.rows[j] || (s.rows[j] == WaitDependencies && t.rows[j] == Pending);
    forall w | Performs(t, w) ensures Settled(t, t.workers[w].job) {
      assert Settled(s, s.workers[w].job);
    }
  }

  lemma GateSingle(s: System, j: Id, w: nat, t: System)
    requires Single(s) && Step(s, Gate(j, w), t)
    ensures Single(t)
  {
    assert forall v | Performs(t, v) && v != w :: Performs(s, v) && t.workers[v] == s.workers[v];
    if j in s.rows && s.rows[j] == Enqueued {
      forall v | Performs(t, v) && v != w ensures Settled(t, t.workers[v].job) && t.workers[v].job != j {
        assert Settled(s, s.workers[v].job);
      }
    } else {
      SameRowsSingle(s, t);
    }
  }

  lemma NotifySingle(s: System, j: Id, keep: bool, t: System)
    requires Single(s) && Step(s, Notify(j, keep), t)
    ensures Single(t)
  {
    assert forall w | Performs(t, w) :: Performs(s, w);
    assert forall k | IsQueued(t, k) :: IsQueued(s, k) || (k == j && s.rows[k] == Pending);
    SameRowsSingle(s, t);
  }

  lemma CreateSingle(s: System, graph: map<Id, set<Id>>, t: System)
    requires Single(s) && Step(s, Create(graph), t)
    ensures Single(t)
  {
    assert t.workers == s.workers && forall j | j in s.rows :: j in t.rows && t.rows[j] == s.rows[j];
    forall w | Performs(t, w) ensures Performs(s, w) && Settled(t, t.workers[w].job) {
      assert Performs(s, w) && Settled(s, s.workers[w].job);
    }
    assert forall j | IsQueued(t, j) :: IsQueued(s, j);
  }

  lemma FinishSingle(s: System, w: nat, state: JobState, t: System)
    requires Single(s) && Performs(s, w) && t.rows == s.rows[s.workers[w].job := state] && t.seen == s.seen
    requires state !in {Enqueued, Started}
    requires t.workers == s.workers - {w} || t.workers == s.workers[w := Worker(s.workers[w].job, Releasing)]
    ensures Single(t)
  {
    forall v | Performs(t, v) ensures Performs(s, v) && t.workers[v] == s.workers[v] && v != w { }
    RowChangeSingle(s, s.workers[w].job, state, t);
  }

  lemma OperatorSingle(s: System, j: Id, state: JobState, t: System)
    requires Single(s) && t.rows == s.rows[j := state] && t.seen == s.seen && t.workers == s.workers
    requires state !in {Enqueued, Started}
    ensures Single(t) <==> state in {Done, Cancelled} || forall w | w in s.workers :: !PerformsJob(s, w, j)
  {
    forall v ensures Performs(t, v) <==> Performs(s, v) { }
    forall v ensures PerformsJob(t, v, j) <==> PerformsJob(s, v, j) { }
    if state in {Done, Cancelled} || forall w | w in s.workers :: !PerformsJob(s, w, j) {
      RowChangeSingle(s, j, state, t);
    } else {
      var w :| w in s.workers && PerformsJob(s, w, j);
      assert Performs(t, w) && !Settled(t, j);
    }
  }

  lemma DispatchSingle(s: System, j: Id, t: System)
    requires Single(s) && Step(s, Dispatch(j), t)
    ensures Single(t)
  {
    forall v | Performs(t, v) ensures Performs(s, v) && !PerformsJob(t, v, j) {
      assert Performs(s, v) && Settled(s, s.workers[v].job);
    }
    RowChangeSingle(s, j, Enqueued, t);
  }

  lemma TimeoutSingle(s: System, j: Id, t: System)
    requires Single(s) && Step(s, Timeout(j), t)
    ensures Single(t)
  {
    if j in s.rows && s.rows[j] == Enqueued {
      forall v | Performs(t, v) ensures Performs(s, v) && !PerformsJob(t, v, j) {
        assert Performs(s, v) && Settled(s, s.workers[v].job);
      }
      RowChangeSingle(s, j, Pending, t);
    }
  }

  lemma FewerSingle(s: System, t: System)
    requires Single(s) && t.rows == s.rows && forall j | IsQueued(t, j) :: IsQueued(s, j)
    requires forall w | w in t.workers :: w in s.workers && t.workers[w] == s.workers[w]
    ensures Single(t)
  {
    assert forall w | Performs(t, w) :: Performs(s, w);
    SameRowsSingle(s, t);
  }

  lemma RequeueSingle(s: System, j: Id, t: System)
    requires Single(s) && Step(s, Requeue(j), t)
    ensures Single(t) <==> RequeuesNone(s, Requeue(j))
  {
    if s.rows[j] != WaitDependencies {
      OperatorSingle(s, j, PendingState(s, j), t);
    } else {
      forall w | Performs(s, w) ensures s.workers[w].job != j {
        assert Settled(s, s.workers[w].job);
      }
    }
  }

  /** Of all steps, exactly requeuing a job that is being performed gives this up. */
  lemma StepSingle(s: System, e: Event, t: System)
    requires Single(s) && Step(s, e, t)
    ensures Single(t) <==> RequeuesNone(s, e)
  {
    hide DepsDone, Single, IsQueued, RequeuesNone;
    RequeuesNoneOf(s, e);
    match e
    case Create(graph) => CreateSingle(s, graph, t);
    case Notify(j, keep) => NotifySingle(s, j, keep, t);
    case Drop(_) => FewerQueued(s, t); FewerSingle(s, t);
    case Dispatch(j) => DispatchSingle(s, j, t);
    case Timeout(j) => TimeoutSingle(s, j, t);
    case LoseRequest(j) => SameQueues(s, t); FewerSingle(s, t);
    case Gate(j, w) => GateSingle(s, j, w, t);
    case FinishDone(w) => FinishSingle(s, w, Done, t);
    case FinishRetry(w) => FinishSingle(s, w, PendingState(s, s.workers[w].job), t);
    case FinishFailed(w) => FinishSingle(s, w, Failed, t);
    case Release(w) => SameQueues(s, t); ReleaseSingle(s, s.workers[w].job, t);
    case Crash(w) => SameQueues(s, t); FewerSingle(s, t);
    case ButtonDone(j) =>
      var u := SetRow(s, j, Done);
      OperatorSingle(s, j, Done, u);
      SameQueues(u, t);
      ReleaseSingle(u, j, t);
    case ButtonCancelled(j) => OperatorSingle(s, j, Cancelled, t);
    case Requeue(j) => RequeueSingle(s, j, t);
  }

  lemma RequeuesNoneOf(s: System, e: Event)
    ensures !e.Requeue? ==> RequeuesNone(s, e)
  {
  }

  lemma SameQueues(s: System, t: System)
    requires t.seen == s.seen
    ensures forall j | IsQueued(t, j) :: IsQueued(s, j)
  {
  }

  lemma FewerQueued(s: System, t: System)
    requires forall j | j in t.seen :: j in s.seen && t.seen[j] == s.seen[j]
    ensures forall j | IsQueued(t, j) :: IsQueued(s, j)
  {
  }

  // ----- Over whole runs -----

  /**
   * At most one executor: over a run, no two workers ever perform the same job and nothing can start a job that is
   * being performed, exactly as long as the operator does not requeue a job while it is performed.
   */
  lemma {:induction false} RunSingle(states: seq<System>, events: seq<Event>, n: nat)
    requires Run(states, events) && n < |states|
    ensures (forall i | 0 <= i <= n :: Single(states[i]))
      <==> forall k | 0 <= k < n :: RequeuesNone(states[k], events[k])
  {
    hide Step, Single, RequeuesNone;
    if n == 0 {
      NothingSingle();
    } else {
      RunSingle(states, events, n - 1);
      if Single(states[n - 1]) {
        StepSingle(states[n - 1], events[n - 1], states[n]);
      }
    }
  }

  lemma NothingSingle()
    ensures Single(NOTHING) && AllStarted(NOTHING)
  {
  }

  lemma RowChangeStarted(s: System, j: Id, state: JobState, t: System)
    requires AllStarted(s) && t.rows == s.rows[j := state]
    requires forall w | Performs(t, w) :: Performs(s, w) && t.workers[w] == s.workers[w]
    ensures AllStarted(t) <==> state == Started || forall w | w in t.workers :: !PerformsJob(t, w, j)
  {
    forall w | Performs(t, w) ensures t.workers[w].job != j ==> t.rows[t.workers[w].job] == Started {
      assert Performs(s, w);
    }
  }

  lemma OperatorStarted(s: System, j: Id, state: JobState, t: System)
    requires AllStarted(s) && t.rows == s.rows[j := state] && t.workers == s.workers && state != Started
    ensures AllStarted(t) <==> forall w | w in s.workers :: !PerformsJob(s, w, j)
  {
    assert forall w :: Performs(t, w) <==> Performs(s, w);
    assert forall w :: PerformsJob(t, w, j) <==> PerformsJob(s, w, j);
    RowChangeStarted(s, j, state, t);
  }

  lemma ReleaseStarted(s: System, p: Id, t: System)
    requires t.rows == ReleaseChildren(s, p).rows
    requires forall w | Performs(t, w) :: Performs(s, w) && t.workers[w] == s.workers[w]
    ensures AllStarted(s) ==> AllStarted(t)
    ensures (forall w | Performs(s, w) :: Performs(t, w)) && AllStarted(t) ==> AllStarted(s)
  {
    hide DepsDone;
    assert forall j | j in s.rows :: t.rows[j] == s.rows[j] || (s.rows[j] == WaitDependencies && t.rows[j] == Pending);
    assert forall w | Performs(s, w) && Performs(t, w) :: t.workers[w] == s.workers[w];
  }

  lemma OperatorKeepsStarted(s: System, e: Event, t: System)
    requires AllStarted(s) && Step(s, e, t)
    requires e.ButtonDone? || e.ButtonCancelled? || e.Requeue?
    ensures AllStarted(t) <==> SparesPerformed(s, e)
  {
    hide DepsDone, AllStarted;
    match e
    case ButtonDone(j) =>
      var u := SetRow(s, j, Done);
      OperatorStarted(s, j, Done, u);
      ReleaseStarted(u, j, t);
    case ButtonCancelled(j) => OperatorStarted(s, j, Cancelled, t);
    case Requeue(j) =>
      if s.rows[j] != WaitDependencies {
        OperatorStarted(s, j, PendingState(s, j), t);
      } else {
        StartedIsNotWaiting(s, j);
      }
  }

  lemma StartedIsNotWaiting(s: System, j: Id)
    requires AllStarted(s) && j in s.rows && s.rows[j] != Started
    ensures forall w | w in s.workers :: !PerformsJob(s, w, j)
  {
  }

  lemma QuietKeepsStarted(s: System, e: Event, t: System)
    requires AllStarted(s) && Step(s, e, t)
    requires e.Create? || e.Notify? || e.Drop? || e.LoseRequest? || e.Release? || e.Crash?
    ensures AllStarted(t)
  {
    hide DepsDone;
    assert forall w | Performs(t, w) :: Performs(s, w) && t.workers[w] == s.workers[w];
    if e.Release? {
      ReleaseStarted(s, s.workers[e.worker].job, t);
    }
  }

  lemma PerformedAreSettled(s: System)
    requires Single(s)
    ensures forall w | Performs(s, w) :: Settled(s, s.workers[w].job)
  {
  }

  lemma RunnerKeepsStarted(s: System, e: Event, t: System)
    requires Single(s) && AllStarted(s) && Step(s, e, t)
    requires e.Dispatch? || e.Timeout?
    ensures AllStarted(t)
  {
    hide Single;
    PerformedAreSettled(s);
    assert forall w | Performs(t, w) :: Performs(s, w) && t.workers[w] == s.workers[w];
  }

  lemma GateKeepsStarted(s: System, j: Id, w: nat, t: System)
    requires Single(s) && AllStarted(s) && Step(s, Gate(j, w), t)
    ensures AllStarted(t)
  {
    hide Single;
    PerformedAreSettled(s);
    assert forall v | Performs(t, v) && v != w :: Performs(s, v) && t.workers[v] == s.workers[v];
  }

  lemma WorkerKeepsStarted(s: System, e: Event, t: System)
    requires Single(s) && AllStarted(s) && Step(s, e, t)
    requires e.FinishDone? || e.FinishRetry? || e.FinishFailed?
    ensures AllStarted(t)
  {
    hide DepsDone, Settled;
    forall w | Performs(t, w)
      ensures Performs(s, w) && t.workers[w] == s.workers[w] && s.workers[w].job != s.workers[e.worker].job
    {
      assert w != e.worker;
    }
  }

  /** Of all steps, exactly the operator's hand on a job that is being performed stores it as something else. */
  lemma StepStarted(s: System, e: Event, t: System)
    requires Single(s) && AllStarted(s) && Step(s, e, t)
    ensures AllStarted(t) <==> SparesPerformed(s, e)
  {
    hide Single, AllStarted, Step;
    if e.ButtonDone? || e.ButtonCancelled? || e.Requeue? {
      OperatorKeepsStarted(s, e, t);
    } else if e.Gate? {
      GateKeepsStarted(s, e.job, e.worker, t);
    } else if e.Dispatch? || e.Timeout? {
      RunnerKeepsStarted(s, e, t);
    } else if e.FinishDone? || e.FinishRetry? || e.FinishFailed? {
      WorkerKeepsStarted(s, e, t);
    } else {
      QuietKeepsStarted(s, e, t);
    }
  }

  /** One executor for every job, and every job that is performed is stored as started. */
  ghost predicate Exclusive(s: System) {
    Single(s) && AllStarted(s)
  }

  lemma SparingIsNotRequeuing(s: System, e: Event)
    requires SparesPerformed(s, e)
    ensures RequeuesNone(s, e)
  {
  }

  /** The step keeps this exactly when the operator spares the jobs that are being performed. */
  lemma StepExclusive(s: System, e: Event, t: System)
    requires Exclusive(s) && Step(s, e, t)
    ensures Exclusive(t) <==> SparesPerformed(s, e)
  {
    hide Single, AllStarted, Step, SparesPerformed, RequeuesNone;
    StepSingle(s, e, t);
    StepStarted(s, e, t);
    if SparesPerformed(s, e) {
      SparingIsNotRequeuing(s, e);
    }
  }

  /**
   * Over a run, every job has at most one executor and is stored as STARTED while it is performed, exactly as long as
   * the operator neither requeues nor cancels nor sets to done a job that is being performed.
   */
  lemma {:induction false} RunExclusive(states: seq<System>, events: seq<Event>, n: nat)
    requires Run(states, events) && n < |states|
    ensures (forall i | 0 <= i <= n :: Exclusive(states[i]))
      <==> forall k | 0 <= k < n :: SparesPerformed(states[k], events[k])
  {
    hide Step, Exclusive, SparesPerformed;
    if n == 0 {
      NothingExclusive();
    } else {
      RunExclusive(states, events, n - 1);
      if Exclusive(states[n - 1]) {
        StepExclusive(states[n - 1], events[n - 1], states[n]);
      }
    }
  }

  lemma NothingExclusive()
    ensures Exclusive(NOTHING)
  {
  }

  // ----- Requeuing a job that is being performed -----

  /** The dependencies of `j` that are not done. */
  ghost function Undone(s: System, j: Id): set<Id>
    requires WellFormed(s) && j in s.deps
  {
    set p | p in s.deps[j] && s.rows[p] != Done
  }

  lemma SetDoneHelps(s: System, j: Id, p: Id)
    requires WellFormed(s) && j in s.deps && p in Undone(s, j)
    ensures WellFormed(SetRow(s, p, Done)) && Undone(SetRow(s, p, Done), j) == Undone(s, j) - {p}
  {
  }

  lemma ReleaseKeepsUndone(s: System, p: Id, j: Id)
    requires WellFormed(s) && j in s.deps
    ensures WellFormed(ReleaseChildren(s, p)) && Undone(ReleaseChildren(s, p), j) == Undone(s, j)
    ensures DepsDone(s, j) <==> Undone(s, j) == {}
  {
    var t := ReleaseChildren(s, p);
    assert forall k | k in s.rows :: t.rows[k] == Done <==> s.rows[k] == Done;
    assert forall k | k in s.deps[j] && s.rows[k] != Done :: k in Undone(s, j);
  }

  /** Setting a dependency to done by hand: one less to wait for, and the last one lets the job go. */
  lemma ButtonHelps(s: System, j: Id, p: Id) returns (t: System)
    requires WellFormed(s) && j in s.rows && s.rows[j] == WaitDependencies && p in Undone(s, j)
    ensures Step(s, ButtonDone(p), t) && WellFormed(t) && j in t.rows && t.workers == s.workers
    ensures t.deps == s.deps && Undone(t, j) == Undone(s, j) - {p}
    ensures t.rows[j] == if Undone(t, j) == {} then Pending else WaitDependencies
  {
    var u := SetRow(s, p, Done);
    t := ReleaseChildren(u, p);
    SetDoneHelps(s, j, p);
    ReleaseKeepsUndone(u, p, j);
  }

  /** From any state in which `j` waits for something, the operator can let it go without requeuing any job. */
  lemma {:induction false} CanBeReleased(s: System, j: Id) returns (states: seq<System>, events: seq<Event>)
    requires WellFormed(s) && j in s.rows && s.rows[j] == WaitDependencies && Undone(s, j) != {}
    ensures Path(states, events) && states[0] == s && forall e | e in events :: e.ButtonDone?
    ensures var t := states[|events|]; j in t.rows && t.rows[j] == Pending && t.workers == s.workers
    decreases |Undone(s, j)|
  {
    hide Step;
    var p :| p in Undone(s, j);
    var t := ButtonHelps(s, j, p);
    if Undone(t, j) == {} {
      states, events := [s, t], [ButtonDone(p)];
    } else {
      states, events := CanBeReleased(t, j);
      states, events := [s] + states, [ButtonDone(p)] + events;
    }
  }

  /** From a state in which `j` is pending, it can be given to one more worker. */
  lemma CanBeStarted(s: System, j: Id, v: nat) returns (states: seq<System>, events: seq<Event>)
    requires j in s.rows && s.rows[j] == Pending && v !in s.workers
    ensures Path(states, events) && states[0] == s && events == [Notify(j, true), Dispatch(j), Gate(j, v)]
    ensures states[|events|].workers == s.workers[v := Worker(j, Performing)]
  {
    var a := s.(seen := s.seen[j := Queued]);
    var b := SetRow(a, j, Enqueued).(seen := a.seen[j := Running], requests := a.requests + multiset{j});
    var r := b.(requests := b.requests - multiset{j});
    var c := SetRow(r, j, Started).(workers := r.workers[v := Worker(j, Performing)]);
    assert Step(s, Notify(j, true), a) && Step(a, Dispatch(j), b) && Step(b, Gate(j, v), c);
    states, events := [s, a, b, c], [Notify(j, true), Dispatch(j), Gate(j, v)];
  }

  /**
   * The operator's restraint is necessary: from any state in which a job is being performed, requeuing it can end with
   * two workers performing it, without any further requeue, whatever has become of its dependencies meanwhile.
   */
  lemma RequeueCanDuplicate(s: System, w: nat, v: nat) returns (states: seq<System>, events: seq<Event>)
    requires Safe(s) && Single(s) && Performs(s, w) && v !in s.workers
    ensures var j := s.workers[w].job;
      && Path(states, events) && states[0] == s && |events| > 0 && events[0] == Requeue(j)
      && (forall e | e in events[1..] :: !e.Requeue?)
      && v != w && PerformsJob(states[|events|], w, j) && PerformsJob(states[|events|], v, j)
  {
    hide Step, Safe, WellFormed, Single;
    var j := s.workers[w].job;
    var t := Requeued(s, w);
    if t.rows[j] == Pending {
      states, events := CanBeStarted(t, j, v);
    } else {
      states, events := CanBeReleased(t, j);
      var more, later := CanBeStarted(states[|events|], j, v);
      states, events := PathsJoin(states, events, more, later);
    }
    states, events := PathsJoin([s, t], [Requeue(j)], states, events);
  }

  lemma Requeued(s: System, w: nat) returns (t: System)
    requires Safe(s) && Single(s) && Performs(s, w)
    ensures var j := s.workers[w].job;
      && j in s.rows && Step(s, Requeue(j), t) && WellFormed(t) && t.workers == s.workers && j in t.rows
      && (t.rows[j] == Pending || (t.rows[j] == WaitDependencies && Undone(t, j) != {}))
  {
    var j := s.workers[w].job;
    assert Settled(s, j);
    t := SetRow(s, j, PendingState(s, j));
    if !DepsDone(s, j) {
      var p :| p in s.deps[j] && s.rows[p] != Done;
      assert p in Undone(t, j);
    }
  }
}
