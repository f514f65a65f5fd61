/**
 * The stored jobs, the runner's view of them, the requests on their way to the workers, and the
 * workers: every interleaving of their atomic steps.
 */
module JobProtocol {
  import opened JobStates

  type Id = string

  /** Where the runner's channels have a job. */
  datatype Seen = Unseen | Queued | Running | SeenFailed

  /**
   * A worker performs a job from the commit of STARTED to the commit of the outcome; after a
   * commit of DONE it still has to release the jobs that depend on this one.
   */
  datatype Phase = Performing | Releasing

  datatype Worker = Worker(job: Id, phase: Phase)

  datatype System = System(
    rows: map<Id, JobState>,
    deps: map<Id, set<Id>>,
    seen: map<Id, Seen>,
    requests: multiset<Id>,
    workers: map<nat, Worker>,
    /** The jobs that have been DONE at some moment. */
    everDone: set<Id>)

  /** A runner drops jobs when it starts anew, loses a database, or finds that a row is gone. */
  datatype Event =
    | Create(graph: map<Id, set<Id>>)
    | Notify(job: Id, keep: bool)
    | Drop(jobs: set<Id>)
    | Dispatch(job: Id)
    | Timeout(job: Id)
    | LoseRequest(job: Id)
    | Gate(job: Id, worker: nat)
    | FinishDone(worker: nat)
    | FinishRetry(worker: nat)
    | FinishFailed(worker: nat)
    | Release(worker: nat)
    | Crash(worker: nat)
    | ButtonDone(job: Id)
    | ButtonCancelled(job: Id)
    | Requeue(job: Id)

  ghost predicate DepsDone(s: System, j: Id) {
    j in s.deps && forall p | p in s.deps[j] :: p in s.rows && s.rows[p] == Done
  }

  /** The state that `set_pending` chooses. */
  ghost function PendingState(s: System, j: Id): JobState {
    if DepsDone(s, j) then Pending else WaitDependencies
  }

  ghost function SetRow(s: System, j: Id, state: JobState): System {
    s.(rows := s.rows[j := state], everDone := if state == Done then s.everDone + {j} else s.everDone)
  }

  /** `enqueue_waiting` of job `p`. */
  ghost function ReleaseChildren(s: System, p: Id): System {
    s.(rows := map j | j in s.rows ::
      if s.rows[j] == WaitDependencies && j in s.deps && p in s.deps[j] && DepsDone(s, j) then Pending else s.rows[j])
  }

  ghost predicate Performs(s: System, w: nat) {
    w in s.workers && s.workers[w].phase == Performing
  }

  ghost predicate Releases(s: System, w: nat) {
    w in s.workers && s.workers[w].phase == Releasing
  }

  /**
   * What a notification makes of a job's place in the channels, `state` being the state of its
   * row. A waiting job is left alone (`keep`), or loses its place because a property of it
   * changed; a job that is enqueued or started may stay queued in a parent channel (`keep`).
   */
  function SeenAfter(seen: Seen, state: JobState, keep: bool): Seen {
    match state
    case Pending => Queued
    case Enqueued => if keep && seen == Queued then Queued else Running
    case Started => if keep && seen == Queued then Queued else Running
    case Failed => SeenFailed
    case WaitDependencies => if keep then seen else Unseen
    case Done => Unseen
    case Cancelled => Unseen
  }

  /** `process_notifications`: the row is read when the notification is processed. */
  ghost function Notified(s: System, j: Id, keep: bool): System
    requires j in s.rows
  {
    var seen := SeenAfter(if j in s.seen then s.seen[j] else Unseen, s.rows[j], keep);
    s.(seen := if seen == Unseen then s.seen - {j} else s.seen[j := seen])
  }

  ghost predicate Step(s: System, e: Event, t: System) {
    match e
    case Create(graph) =>
      && graph.Keys !! s.rows.Keys
      && (forall j | j in graph :: j !in graph[j] && graph[j] <= graph.Keys)
      && t == s.(rows := s.rows + (map j | j in graph :: if graph[j] == {} then Pending else WaitDependencies),
                 deps := s.deps + graph)
    case Notify(j, keep) => j in s.rows && t == Notified(s, j, keep)
    case Drop(jobs) => t == s.(seen := s.seen - jobs)
    case Dispatch(j) =>
      && j in s.rows && j in s.seen && s.seen[j] == Queued
      && t == SetRow(s, j, Enqueued).(seen := s.seen[j := Running], requests := s.requests + multiset{j})
    case Timeout(j) =>
      t == if j in s.rows && s.rows[j] == Enqueued then SetRow(s, j, Pending) else s
    case LoseRequest(j) => t == s.(requests := s.requests - multiset{j})
    case Gate(j, w) =>
      && j in s.requests && w !in s.workers
      && var r := s.(requests := s.requests - multiset{j});
         t == if j in s.rows && s.rows[j] == Enqueued
              then SetRow(r, j, Started).(workers := s.workers[w := Worker(j, Performing)]) else r
    case FinishDone(w) =>
      && Performs(s, w)
      && var j := s.workers[w].job;
         t == SetRow(s, j, Done).(workers := s.workers[w := Worker(j, Releasing)])
    case FinishRetry(w) =>
      && Performs(s, w)
      && var j := s.workers[w].job;
         t == SetRow(s, j, PendingState(s, j)).(workers := s.workers - {w})
    case FinishFailed(w) =>
      Performs(s, w) && t == SetRow(s, s.workers[w].job, Failed).(workers := s.workers - {w})
    case Release(w) =>
      Releases(s, w) && t == ReleaseChildren(s, s.workers[w].job).(workers := s.workers - {w})
    case Crash(w) => w in s.workers && t == s.(workers := s.workers - {w})
    case ButtonDone(j) => j in s.rows && t == ReleaseChildren(SetRow(s, j, Done), j)
    case ButtonCancelled(j) => j in s.rows && t == SetRow(s, j, Cancelled)
    case Requeue(j) =>
      j in s.rows && t == if s.rows[j] == WaitDependencies then s else SetRow(s, j, PendingState(s, j))
  }

  const NOTHING := System(map[], map[], map[], multiset{}, map[], {})

  ghost predicate Run(states: seq<System>, events: seq<Event>) {
    && |states| == |events| + 1 && states[0] == NOTHING
    && forall i | 0 <= i < |events| :: Step(states[i], events[i], states[i + 1])
  }

  /** A way on from `states[0]`. */
  ghost predicate Path(states: seq<System>, events: seq<Event>) {
    |states| == |events| + 1 && forall i, j | 0 <= i && j == i + 1 < |states| :: Step(states[i], events[i], states[j])
  }

  lemma PathGoesOn(states: seq<System>, events: seq<Event>, e: Event, t: System)
    requires Path(states, events) && Step(states[|events|], e, t)
    ensures Path(states + [t], events + [e])
  {
    hide Step;
  }

  lemma PathsJoin(states: seq<System>, events: seq<Event>, more: seq<System>, later: seq<Event>)
    returns (all: seq<System>, done: seq<Event>)
    requires Path(states, events) && Path(more, later) && more[0] == states[|events|]
    ensures all == states + more[1..] && done == events + later && Path(all, done)
    ensures all[|done|] == more[|later|] && all[0] == states[0]
  {
    hide Step;
    all, done := states + more[1..], events + later;
    forall i, j | 0 <= i && j == i + 1 < |all| ensures Step(all[i], done[i], all[j]) {
      if i >= |events| {
        var k, l := i - |events|, j - |events|;
        assert all[i] == more[k] && all[j] == more[l];
      }
    }
  }

  // ----- Dependency safety -----

  /** Every dependency of `j` has been DONE at some moment. */
  ghost predicate Released(s: System, j: Id) {
    j in s.deps && s.deps[j] <= s.everDone
  }

  ghost predicate WellFormed(s: System) {
    && s.deps.Keys == s.rows.Keys
    && (forall j | j in s.deps :: j !in s.deps[j] && s.deps[j] <= s.rows.Keys)
    && (forall j | j in s.rows && s.rows[j] == Done :: j in s.everDone)
  }

  /** Whatever can still lead to job `j` being performed, its dependencies were done before. */
  ghost predicate DependencySafe(s: System) {
    && (forall j | j in s.rows && s.rows[j] in {Pending, Enqueued, Started, Failed} :: Released(s, j))
    && (forall j | j in s.seen :: j in s.rows && Released(s, j))
    && (forall j | j in s.requests :: j in s.rows && Released(s, j))
    && (forall w | w in s.workers :: s.workers[w].job in s.rows && Released(s, s.workers[w].job))
  }

  ghost predicate Safe(s: System) {
    WellFormed(s) && DependencySafe(s)
  }

  lemma DepsDoneReleases(s: System, j: Id)
    requires WellFormed(s) && DepsDone(s, j)
    ensures Released(s, j)
  {
  }

  lemma SetRowSafe(s: System, j: Id, state: JobState)
    requires Safe(s) && j in s.rows
    requires state in {Pending, Enqueued, Started, Failed} ==> Released(s, j)
    ensures Safe(SetRow(s, j, state))
  {
    var t := SetRow(s, j, state);
    forall k | Released(s, k) ensures Released(t, k) { }
  }

  lemma CreateSafe(s: System, graph: map<Id, set<Id>>, t: System)
    requires Safe(s) && Step(s, Create(graph), t)
    ensures Safe(t)
  {
    CreateWellFormed(s, graph, t);
    hide Step, WellFormed;
    forall k | k in s.deps && Released(s, k) ensures Released(t, k) { CreateReleases(s, graph, t, k); }
    forall j | j in t.rows && t.rows[j] in {Pending, Enqueued, Started, Failed} ensures Released(t, j) {
      CreateReleases(s, graph, t, j);
    }
    CreateReleases(s, graph, t, "");
  }

  lemma CreateWellFormed(s: System, graph: map<Id, set<Id>>, t: System)
    requires WellFormed(s) && Step(s, Create(graph), t)
    ensures WellFormed(t)
  {
  }

  lemma CreateReleases(s: System, graph: map<Id, set<Id>>, t: System, k: Id)
    requires WellFormed(s) && Step(s, Create(graph), t)
    ensures Released(s, k) ==> Released(t, k)
    ensures k in graph && t.rows[k] != WaitDependencies ==> Released(t, k)
    ensures k in t.rows && k !in graph ==> k in s.rows && t.rows[k] == s.rows[k]
    ensures k in graph ==> t.rows[k] in {Pending, WaitDependencies}
    ensures t.seen == s.seen && t.requests == s.requests && t.workers == s.workers && s.rows.Keys <= t.rows.Keys
  {
  }

  lemma ReleaseChildrenSafe(s: System, p: Id)
    requires Safe(s)
    ensures Safe(ReleaseChildren(s, p))
  {
    var t := ReleaseChildren(s, p);
    forall k | Released(s, k) ensures Released(t, k) { }
    forall j | j in s.rows && t.rows[j] != s.rows[j] ensures Released(s, j) {
      DepsDoneReleases(s, j);
    }
  }

  /** Steps that only forget requests, workers or places in the channels. */
  ghost predicate Forgets(s: System, t: System) {
    && t.rows == s.rows && t.deps == s.deps && t.everDone == s.everDone
    && (forall j | j in t.seen :: j in s.seen) && t.requests <= s.requests
    && (forall w | w in t.workers :: w in s.workers && t.workers[w] == s.workers[w])
  }

  lemma ForgetsSafe(s: System, t: System)
    requires Safe(s) && Forgets(s, t)
    ensures Safe(t)
  {
    forall k | Released(s, k) ensures Released(t, k) { }
  }

  lemma AddsSafe(s: System, j: Id, t: System)
    requires Safe(s) && j in s.rows && Released(s, j)
    requires t.rows == s.rows && t.deps == s.deps && t.everDone == s.everDone
    requires forall k | k in t.seen :: k in s.seen || k == j
    requires forall k | k in t.requests :: k in s.requests || k == j
    requires forall w | w in t.workers :: t.workers[w].job == j || (w in s.workers && t.workers[w] == s.workers[w])
    ensures Safe(t)
  {
    forall k | Released(s, k) ensures Released(t, k) { }
  }

  lemma NotifiedSafe(s: System, j: Id, keep: bool)
    requires Safe(s) && j in s.rows
    ensures Safe(Notified(s, j, keep)) && Notified(s, j, keep).everDone == s.everDone
  {
    hide Safe;
    var t := Notified(s, j, keep);
    SafeJob(s, j);
    if s.rows[j] in {Pending, Enqueued, Started, Failed} {
      AddsSafe(s, j, t);
    } else {
      ForgetsSafe(s, t);
    }
  }

  lemma RunnerStepSafe(s: System, e: Event, t: System)
    requires Safe(s) && Step(s, e, t)
    requires e.Notify? || e.Drop? || e.Dispatch? || e.Timeout? || e.LoseRequest? || e.Gate?
    ensures Safe(t) && s.everDone <= t.everDone
  {
    hide Safe, WellFormed, Released, DependencySafe;
    match e
    case Notify(j, keep) => NotifiedSafe(s, j, keep);
    case Drop(_) => ForgetsSafe(s, t);
    case Dispatch(j) =>
      SafeJob(s, j);
      SetRowSafe(s, j, Enqueued);
      SafeJob(SetRow(s, j, Enqueued), j);
      AddsSafe(SetRow(s, j, Enqueued), j, t);
    case Timeout(j) => SafeJob(s, j); if j in s.rows && s.rows[j] == Enqueued { SetRowSafe(s, j, Pending); }
    case LoseRequest(j) => ForgetsSafe(s, t);
    case Gate(j, w) => GateSafe(s, j, w, t);
  }

  lemma WorkerStepSafe(s: System, e: Event, t: System)
    requires Safe(s) && Step(s, e, t)
    requires e.FinishDone? || e.FinishRetry? || e.FinishFailed? || e.Release? || e.Crash?
    ensures Safe(t) && s.everDone <= t.everDone
  {
    hide Safe, WellFormed, Released, DependencySafe;
    SafeWorker(s, e.worker);
    var j := s.workers[e.worker].job;
    match e
    case FinishDone(w) =>
      SetRowSafe(s, j, Done);
      SafeWorker(SetRow(s, j, Done), w);
      AddsSafe(SetRow(s, j, Done), j, t);
    case FinishRetry(w) =>
      SetRowSafe(s, j, PendingState(s, j));
      ForgetsSafe(SetRow(s, j, PendingState(s, j)), t);
    case FinishFailed(w) =>
      SetRowSafe(s, j, Failed);
      ForgetsSafe(SetRow(s, j, Failed), t);
    case Release(w) =>
      ReleaseChildrenSafe(s, j);
      ForgetsSafe(ReleaseChildren(s, j), t);
    case Crash(w) => ForgetsSafe(s, t);
  }

  lemma OperatorStepSafe(s: System, e: Event, t: System)
    requires Safe(s) && Step(s, e, t)
    requires e.ButtonDone? || e.ButtonCancelled? || e.Requeue?
    ensures Safe(t) && s.everDone <= t.everDone
  {
    hide Safe, WellFormed, Released, DependencySafe;
    match e
    case ButtonDone(j) =>
      SetRowSafe(s, j, Done);
      ReleaseChildrenSafe(SetRow(s, j, Done), j);
    case ButtonCancelled(j) => SetRowSafe(s, j, Cancelled);
    case Requeue(j) =>
      SafeWellFormed(s);
      if DepsDone(s, j) { DepsDoneReleases(s, j); }
      if s.rows[j] != WaitDependencies { SetRowSafe(s, j, PendingState(s, j)); }
  }

  lemma StepSafe(s: System, e: Event, t: System)
    requires Safe(s) && Step(s, e, t)
    ensures Safe(t) && s.everDone <= t.everDone
  {
    hide Safe, Step;
    if e.Create? {
      CreateSafe(s, e.graph, t);
      CreateKeepsDone(s, e.graph, t);
    } else if e.ButtonDone? || e.ButtonCancelled? || e.Requeue? {
      OperatorStepSafe(s, e, t);
    } else if e.FinishDone? || e.FinishRetry? || e.FinishFailed? || e.Release? || e.Crash? {
      WorkerStepSafe(s, e, t);
    } else {
      RunnerStepSafe(s, e, t);
    }
  }

  lemma CreateKeepsDone(s: System, graph: map<Id, set<Id>>, t: System)
    requires Step(s, Create(graph), t)
    ensures t.everDone == s.everDone
  {
  }

  lemma SafeWellFormed(s: System)
    requires Safe(s)
    ensures WellFormed(s)
  {
  }

  lemma SafeJob(s: System, j: Id)
    requires Safe(s)
    ensures (j in s.rows && s.rows[j] in {Pending, Enqueued, Started, Failed}) || j in s.seen || j in s.requests ==>
      j in s.rows && Released(s, j)
  {
  }

  lemma SafeWorker(s: System, w: nat)
    requires Safe(s) && w in s.workers
    ensures s.workers[w].job in s.rows && Released(s, s.workers[w].job)
  {
  }

  lemma GateSafe(s: System, j: Id, w: nat, t: System)
    requires Safe(s) && Step(s, Gate(j, w), t)
    ensures Safe(t) && s.everDone <= t.everDone
  {
    hide Safe, WellFormed, Released, DependencySafe;
    var r := s.(requests := s.requests - multiset{j});
    ForgetsSafe(s, r);
    SafeJob(s, j);
    SafeJob(r, j);
    if j in s.rows && s.rows[j] == Enqueued {
      SetRowSafe(r, j, Started);
      SafeJob(SetRow(r, j, Started), j);
      AddsSafe(SetRow(r, j, Started), j, t);
    }
  }

  /** Over all runs, everything that can be performed has had its dependencies done. */
  lemma {:induction false} RunSafe(states: seq<System>, events: seq<Event>, i: nat)
    requires Run(states, events) && i < |states|
    ensures Safe(states[i])
  {
    hide Step, Safe;
    if i == 0 {
      NothingSafe();
    } else {
      RunSafe(states, events, i - 1);
      StepSafe(states[i - 1], events[i - 1], states[i]);
    }
  }

  lemma NothingSafe()
    ensures Safe(NOTHING)
  {
  }

  lemma {:induction false} EverDoneMeansDoneBefore(states: seq<System>, events: seq<Event>, i: nat, p: Id)
    requires Run(states, events) && i < |states| && p in states[i].everDone
    ensures exists k | 0 <= k <= i :: p in states[k].rows && states[k].rows[p] == Done
  {
    if i > 0 {
      if p in states[i - 1].everDone {
        EverDoneMeansDoneBefore(states, events, i - 1, p);
      } else {
        assert Step(states[i - 1], events[i - 1], states[i]);
        NewlyDone(states[i - 1], events[i - 1], states[i], p);
      }
    }
  }

  lemma NewlyDone(s: System, e: Event, t: System, p: Id)
    requires Step(s, e, t) && p in t.everDone && p !in s.everDone
    ensures p in t.rows && t.rows[p] == Done
  {
  }

  /**
   * Dependency safety: a job is performed only if each of its dependencies has been DONE at some
   * earlier moment, whatever requeues, cancellations, timeouts and stale views came in between.
   */
  lemma PerformedAfterDependencies(states: seq<System>, events: seq<Event>, i: nat, w: nat, p: Id)
    requires Run(states, events) && i < |states| && Performs(states[i], w)
    requires var j := states[i].workers[w].job; j in states[i].deps && p in states[i].deps[j]
    ensures exists k | 0 <= k <= i :: p in states[k].rows && states[k].rows[p] == Done
  {
    RunSafe(states, events, i);
    SafeWorker(states[i], w);
    EverDoneMeansDoneBefore(states, events, i, p);
  }
}
