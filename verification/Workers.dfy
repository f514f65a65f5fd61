/**
 * What becomes of a job after a worker's attempt: when it is performed again, and when only an operator can have it
 * so.
 */
module Workers {
  import opened JobStates
  import opened JobProtocol
  import opened Executors
  import Jobs

  /** How `runjob` ends for each verdict of `perform`. */
  function Ending(verdict: Jobs.Verdict, w: nat): Event {
    match verdict
    case Return => FinishDone(w)
    case Postpone => FinishRetry(w)
    case Fail => FinishFailed(w)
  }

  /**
   * The row says what the attempts came to: DONE when the last one made succeeded, FAILED when it met an error or
   * spent the last retry, and otherwise PENDING, or waiting if a dependency is not done any more.
   */
  lemma OutcomeIsStored(s: System, w: nat, retry: nat, maxRetries: nat, outcomes: seq<Jobs.Outcome>, t: System)
    requires Performs(s, w) && outcomes != []
    requires Step(s, Ending(Jobs.Attempts(retry, maxRetries, outcomes).2, w), t)
    ensures var j, made := s.workers[w].job, Jobs.Attempts(retry, maxRetries, outcomes).0;
      && 0 < made <= |outcomes| && j in t.rows
      && (t.rows[j] == Done <==> outcomes[made - 1] == Jobs.Success)
      && (t.rows[j] == Failed <==> Jobs.GivesUp(retry, maxRetries, outcomes, made - 1))
      && (t.rows[j] == Pending ==> DepsDone(s, j))
      && (t.rows[j] == WaitDependencies ==> !DepsDone(s, j))
      && t.rows[j] in {Done, Failed, Pending, WaitDependencies}
  {
    hide DepsDone, Jobs.GivesUp, Jobs.Attempts;
    Jobs.AttemptsEndAtFirst(retry, maxRetries, outcomes);
  }

  // ----- After a failure -----

  /** No worker performs the job, it is not queued, and no request or dispatch starts it. */
  ghost predicate AtRest(s: System, j: Id) {
    && j in s.rows && s.rows[j] in {Failed, Done, Cancelled} && !IsQueued(s, j)
    && forall w | Performs(s, w) :: s.workers[w].job != j
  }

  lemma FailureRests(s: System, w: nat, t: System)
    requires Single(s) && Performs(s, w) && Step(s, FinishFailed(w), t)
    ensures var j := s.workers[w].job; AtRest(t, j) && t.rows[j] == Failed
  {
    assert forall v | Performs(t, v) :: Performs(s, v) && t.workers[v] == s.workers[v] && v != w;
    assert Settled(s, s.workers[w].job);
  }

  lemma RunnerStepRests(s: System, e: Event, t: System, j: Id)
    requires AtRest(s, j) && Step(s, e, t)
    requires e.Notify? || e.Drop? || e.Dispatch? || e.Timeout? || e.LoseRequest?
    ensures AtRest(t, j) && t.rows[j] == s.rows[j]
  {
    assert t.workers == s.workers;
    assert forall v | Performs(t, v) :: Performs(s, v);
  }

  /** A request for a job at rest starts nothing. */
  lemma GateRests(s: System, k: Id, w: nat, t: System, j: Id)
    requires AtRest(s, j) && Step(s, Gate(k, w), t)
    ensures AtRest(t, j) && t.rows[j] == s.rows[j]
  {
    assert forall v | Performs(t, v) && v != w :: Performs(s, v) && t.workers[v] == s.workers[v];
  }

  lemma WorkerStepRests(s: System, e: Event, t: System, j: Id)
    requires AtRest(s, j) && Step(s, e, t)
    requires e.FinishDone? || e.FinishRetry? || e.FinishFailed? || e.Release? || e.Crash?
    ensures AtRest(t, j) && t.rows[j] == s.rows[j]
  {
    hide DepsDone;
    assert forall v | Performs(t, v) :: Performs(s, v) && t.workers[v] == s.workers[v];
  }

  lemma OutsideStepRests(s: System, e: Event, t: System, j: Id)
    requires AtRest(s, j) && Step(s, e, t)
    requires e.Create? || e.ButtonDone? || e.ButtonCancelled? || e.Requeue?
    ensures AtRest(t, j) <==> e != Requeue(j)
    ensures e != Requeue(j) && e != ButtonDone(j) && e != ButtonCancelled(j) ==> t.rows[j] == s.rows[j]
  {
    hide DepsDone;
    assert t.workers == s.workers && t.seen == s.seen;
    assert forall v :: Performs(t, v) <==> Performs(s, v);
  }

  /** Only requeuing ends the rest of a job; its row changes only when an operator sets it to done or cancels it. */
  lemma StepRests(s: System, e: Event, t: System, j: Id)
    requires AtRest(s, j) && Step(s, e, t)
    ensures AtRest(t, j) <==> e != Requeue(j)
    ensures e != Requeue(j) && e != ButtonDone(j) && e != ButtonCancelled(j) ==> t.rows[j] == s.rows[j]
  {
    hide Step, AtRest;
    if e.Create? || e.ButtonDone? || e.ButtonCancelled? || e.Requeue? {
      OutsideStepRests(s, e, t, j);
    } else if e.FinishDone? || e.FinishRetry? || e.FinishFailed? || e.Release? || e.Crash? {
      WorkerStepRests(s, e, t, j);
    } else if e.Gate? {
      GateRests(s, e.job, e.worker, t, j);
    } else {
      RunnerStepRests(s, e, t, j);
    }
  }

  lemma {:induction false} RestsUntilRequeued(states: seq<System>, events: seq<Event>, j: Id, m: nat, n: nat)
    requires Path(states, events) && m <= n < |states| && AtRest(states[m], j)
    requires forall k | m <= k < n :: events[k] != Requeue(j)
    ensures AtRest(states[n], j)
    ensures (forall k | m <= k < n :: events[k] != ButtonDone(j) && events[k] != ButtonCancelled(j))
      ==> states[n].rows[j] == states[m].rows[j]
    decreases n
  {
    hide Step, AtRest;
    if m < n {
      RestsUntilRequeued(states, events, j, m, n - 1);
      StepRests(states[n - 1], events[n - 1], states[n], j);
    }
  }

  /**
   * A job whose worker failed is not performed, nor queued, nor started by a stale request, before it is requeued;
   * and it is FAILED until then, unless the operator sets it to done or cancels it.
   */
  lemma FailedStaysFailed(states: seq<System>, events: seq<Event>, m: nat, n: nat)
    requires Path(states, events) && m < n < |states| && Single(states[m]) && events[m].FinishFailed?
    ensures var s := states[m]; var w := events[m].worker;
      && Performs(s, w)
      && var j := s.workers[w].job;
        (forall k | m < k < n :: events[k] != Requeue(j)) ==>
          && j in states[n].rows && !IsQueued(states[n], j)
          && (forall v :: !PerformsJob(states[n], v, j))
          && ((forall k | m < k < n :: events[k] != ButtonDone(j) && events[k] != ButtonCancelled(j))
              ==> states[n].rows[j] == Failed)
  {
    hide Single;
    var w, k := events[m].worker, m + 1;
    assert Step(states[m], events[m], states[k]);
    FailureRests(states[m], w, states[k]);
    var j := states[m].workers[w].job;
    if forall i | m < i < n :: events[i] != Requeue(j) {
      RestsUntilRequeued(states, events, j, k, n);
    }
  }

  /** Requeuing is what ends it: a job at rest can be performed again, by a requeue and steps of the runner alone. */
  lemma RequeuedCanBePerformed(s: System, j: Id, v: nat) returns (states: seq<System>, events: seq<Event>)
    requires AtRest(s, j) && DepsDone(s, j) && v !in s.workers
    ensures Path(states, events) && states[0] == s && PerformsJob(states[|events|], v, j)
    ensures events == [Requeue(j), Notify(j, true), Dispatch(j), Gate(j, v)]
  {
    hide Step;
    var t := Requeuing(s, j);
    states, events := CanBeStarted(t, j, v);
    states, events := PathsJoin([s, t], [Requeue(j)], states, events);
  }

  lemma Requeuing(s: System, j: Id) returns (t: System)
    requires AtRest(s, j) && DepsDone(s, j)
    ensures Step(s, Requeue(j), t) && t.workers == s.workers && j in t.rows && t.rows[j] == Pending
  {
    t := SetRow(s, j, Pending);
  }

  // ----- After a postponement -----

  lemma Postponing(s: System, w: nat) returns (t: System)
    requires Performs(s, w) && DepsDone(s, s.workers[w].job)
    ensures var j := s.workers[w].job;
      Step(s, FinishRetry(w), t) && t.workers == s.workers - {w} && j in t.rows && t.rows[j] == Pending
  {
    var j := s.workers[w].job;
    t := SetRow(s, j, Pending).(workers := s.workers - {w});
  }

  /** A job that was postponed can be performed again, by any worker that is free then, with no operator. */
  lemma PostponedCanBePerformed(s: System, w: nat, v: nat) returns (states: seq<System>, events: seq<Event>)
    requires Performs(s, w) && DepsDone(s, s.workers[w].job) && (v == w || v !in s.workers)
    ensures var j := s.workers[w].job;
      && Path(states, events) && states[0] == s && PerformsJob(states[|events|], v, j)
      && events == [FinishRetry(w), Notify(j, true), Dispatch(j), Gate(j, v)]
  {
    hide Step;
    var t := Postponing(s, w);
    var j := s.workers[w].job;
    states, events := CanBeStarted(t, j, v);
    states, events := PathsJoin([s, t], [FinishRetry(w)], states, events);
  }

  // ----- After a lost request -----

  lemma TimingOut(s: System, j: Id) returns (t: System)
    requires j in s.rows && s.rows[j] == Enqueued
    ensures Step(s, Timeout(j), t) && t.workers == s.workers && j in t.rows && t.rows[j] == Pending
  {
    t := SetRow(s, j, Pending);
  }

  /** A job whose request never reached a worker can be performed all the same, after its timeout, with no operator. */
  lemma TimedOutCanBePerformed(s: System, j: Id, v: nat) returns (states: seq<System>, events: seq<Event>)
    requires j in s.rows && s.rows[j] == Enqueued && v !in s.workers
    ensures Path(states, events) && states[0] == s && PerformsJob(states[|events|], v, j)
    ensures events == [Timeout(j), Notify(j, true), Dispatch(j), Gate(j, v)]
  {
    hide Step;
    var t := TimingOut(s, j);
    states, events := CanBeStarted(t, j, v);
    states, events := PathsJoin([s, t], [Timeout(j)], states, events);
  }
}
