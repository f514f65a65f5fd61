/** Whole runs of the channel manager: any interleaving of notifications, dispatches and lookups. */
module Runs {
  import opened Channels
  import opened Dispatching
  import opened Location
  import opened JobStates
  import opened Scheduling

  datatype RunState = RunState(schedule: Schedule, clock: nat)

  datatype Event =
    | NotifyKept(job: ChannelJob, eta: nat, state: Option<JobState>)
    | NotifyAnew(job: ChannelJob, eta: nat, state: Option<JobState>)
    | Remove(uuid: string)
    | Forget(uuid: string)
    | RemoveDb(uuids: seq<string>)
    | Lookup(news: seq<Channel>)
    | Dispatch(now: nat, outs: Outs)

  ghost predicate Step(root: Channel, a: RunState, e: Event, b: RunState) {
    var s, s1 := a.schedule, b.schedule;
    match e
    case NotifyKept(j, eta, state) => NotifiedKept(s, j, eta, state, s1) && b.clock == a.clock
    case NotifyAnew(j, eta, state) => NotifiedAnew(s, j, eta, state, s1) && b.clock == a.clock
    case Remove(uuid) => s1 == Removed(s, uuid) && b.clock == a.clock
    case Forget(uuid) => Forgotten(s, uuid, s1) && b.clock == a.clock
    case RemoveDb(uuids) => s1 == RemovedAll(s, uuids) && b.clock == a.clock
    case Lookup(news) => Grows(s.world, news) && s1 == s.(world := Grown(s.world, news)) && b.clock == a.clock
    case Dispatch(now, outs) =>
      Dispatched(s.world, root, now, outs, s1.world) && s1.jobs == s.jobs && a.clock <= now && b.clock == now
  }

  ghost predicate Run(root: Channel, states: seq<RunState>, events: seq<Event>) {
    && |states| == |events| + 1
    && Consistent(states[0].schedule, root)
    && forall i | 0 <= i < |events| :: Step(root, states[i], events[i], states[i + 1])
  }

  lemma StepConsistent(root: Channel, a: RunState, e: Event, b: RunState)
    requires Consistent(a.schedule, root) && Step(root, a, e, b)
    ensures Consistent(b.schedule, root)
  {
    hide Consistent, NotifiedKept, NotifiedAnew, Dispatched, Grows, Grown, RemovedAll;
    var s := a.schedule;
    match e
    case NotifyKept(j, eta, state) => NotifiedKeptConsistent(s, root, j, eta, state, b.schedule);
    case NotifyAnew(j, eta, state) => NotifiedAnewConsistent(s, root, j, eta, state, b.schedule);
    case Remove(uuid) => RemovedConsistent(s, root, uuid);
    case Forget(uuid) => ForgottenConsistent(s, root, uuid, b.schedule);
    case RemoveDb(uuids) => RemovedAllConsistent(s, root, uuids);
    case Lookup(news) => LookupConsistent(s, root, news);
    case Dispatch(now, outs) => DispatchedConsistent(s, root, now, outs, b.schedule.world);
  }

  lemma ForgottenConsistent(s: Schedule, root: Channel, uuid: string, s1: Schedule)
    requires Consistent(s, root) && Forgotten(s, uuid, s1)
    ensures Consistent(s1, root)
  {
    hide Tree, AllLocated, Rooted, PausesThrottled;
  }

  /** Every state of every run is consistent: each live job is at one position, and each uuid has one live object. */
  lemma {:induction false} RunConsistent(root: Channel, states: seq<RunState>, events: seq<Event>, i: nat)
    requires Run(root, states, events) && i < |states|
    ensures Consistent(states[i].schedule, root)
  {
    hide Consistent, Step;
    if i > 0 {
      RunConsistent(root, states, events, i - 1);
      StepConsistent(root, states[i - 1], events[i - 1], states[i]);
    }
  }

  // ----- Capacity over whole runs -----

  ghost predicate Fits(v: ChannelView) {
    v.capacity.Some? && v.capacity.value != 0 ==> |v.running| <= v.capacity.value
  }

  ghost predicate WithinCapacity(w: World) {
    forall c | c in w :: Fits(w[c])
  }

  ghost predicate IsRunningState(state: Option<JobState>) {
    state == Some(Enqueued) || state == Some(Started)
  }

  /** No limited channel on the way of `j` to the root is full. */
  ghost predicate HasRoom(w: World, j: ChannelJob) {
    forall d | d in w && OnPath(j.channel, d) && w[d].capacity.Some? && w[d].capacity.value != 0 ::
      |w[d].running| < w[d].capacity.value
  }

  /**
   * There is room for every enqueued or started job that is notified and does not run yet; a job that is replaced
   * leaves its own room first.
   */
  ghost predicate Roomy(s: Schedule, e: Event) {
    match e
    case NotifyKept(j, _, state) =>
      IsRunningState(state) && j.channel in s.world && j !in s.world[j.channel].running ==> HasRoom(s.world, j)
    case NotifyAnew(j, _, state) => IsRunningState(state) ==> HasRoom(Removed(s, j.uuid).world, j)
    case _ => true
  }

  /**
   * Enqueued and started jobs are notified only when they run down to the root already and
   * stay in their channel.
   */
  ghost predicate Expected(s: Schedule, e: Event) {
    match e
    case NotifyKept(j, _, state) =>
      IsRunningState(state) ==> PositionFrom(s.world, j.channel, j) == Running
    case NotifyAnew(j, _, state) =>
      IsRunningState(state) ==>
        j.uuid in s.jobs && s.jobs[j.uuid].channel == j.channel &&
        PositionFrom(s.world, j.channel, s.jobs[j.uuid]) == Running
    case _ => true
  }

  ghost predicate NoMoreRunning(w: World, w1: World) {
    w1.Keys == w.Keys && forall d | d in w :: w1[d].capacity == w[d].capacity && w1[d].running <= w[d].running
  }

  lemma NoMoreRunningFits(w: World, w1: World)
    requires WithinCapacity(w) && NoMoreRunning(w, w1)
    ensures WithinCapacity(w1)
  {
    forall d | d in w1 ensures Fits(w1[d]) {
      assert Fits(w[d]);
      SubsetSize(w1[d].running, w[d].running);
    }
  }

  lemma SubsetSize(a: set<ChannelJob>, b: set<ChannelJob>)
    requires a <= b
    ensures |a| <= |b|
  {
    assert b == a + (b - a);
    assert |b| == |a| + |b - a|;
  }

  lemma RemoveUpRunsNoMore(w: World, c: Channel, j: ChannelJob)
    ensures NoMoreRunning(w, RemoveUp(w, c, j))
  {
  }

  lemma OwnRunsNoMore(w: World, c: Channel, v: ChannelView, j: ChannelJob)
    requires c in w && v.capacity == w[c].capacity && v.running <= w[c].running
    ensures NoMoreRunning(w, RemoveBelow(w[c := v], c, j))
  {
    if c.parent != null { RemoveUpRunsNoMore(w[c := v], c.parent, j); }
  }

  lemma ApplyRunsNoMore(w: World, j: ChannelJob, eta: nat, state: Option<JobState>)
    requires j.channel in w && !IsRunningState(state)
    ensures NoMoreRunning(w, Apply(w, j, eta, state))
  {
    var c := j.channel;
    RemoveUpRunsNoMore(w, c, j);
    OwnRunsNoMore(w, c, AsPending(w[c], j, eta), j);
    OwnRunsNoMore(w, c, AsFailed(w[c], j), j);
  }

  /** `set_running` ignores capacity: it keeps every channel within capacity exactly when the path has room. */
  lemma SetRunningIgnoresCapacity(w: World, j: ChannelJob)
    requires Tree(w) && AllLocated(w) && WithinCapacity(w) && j.channel in w && j !in w[j.channel].running
    ensures WithinCapacity(RunningUp(w, j.channel, j)) <==> HasRoom(w, j)
  {
    forall d | d in w && OnPath(j.channel, d) ensures j !in w[d].running { NotRunningOnPath(w, j, d); }
    RunningUpAll(w, j.channel, j);
    hide Tree, AllLocated, OnPath;
    var w1 := AllRunning(w, j.channel, j);
    assert w1.Keys == w.Keys;
    forall d | d in w
      ensures OnPath(j.channel, d) ==>
        (Fits(w1[d]) <==> (w[d].capacity.Some? && w[d].capacity.value != 0 ==> |w[d].running| < w[d].capacity.value))
      ensures !OnPath(j.channel, d) ==> w1[d] == w[d]
    {
      if OnPath(j.channel, d) {
        assert w1[d].running == w[d].running + {j};
      }
    }
  }

  lemma KeptWithinCapacity(s: Schedule, root: Channel, j: ChannelJob, eta: nat, state: Option<JobState>, s1: Schedule)
    requires Consistent(s, root) && WithinCapacity(s.world) && NotifiedKept(s, j, eta, state, s1)
    ensures WithinCapacity(s1.world) <==> Roomy(s, NotifyKept(j, eta, state))
  {
    hide WithinCapacity, Tree, AllLocated, Rooted, HasRoom;
    if !IsRunningState(state) {
      ApplyRunsNoMore(s.world, j, eta, state);
      NoMoreRunningFits(s.world, s1.world);
    } else if j in s.world[j.channel].running {
      assert s1.world == s.world;
    } else {
      SetRunningIgnoresCapacity(s.world, j);
    }
  }

  lemma RemovedWithinCapacity(s: Schedule, uuid: string)
    requires WithinCapacity(s.world)
    ensures WithinCapacity(Removed(s, uuid).world)
  {
    hide WithinCapacity, RemoveUp;
    if uuid in s.jobs {
      RemoveUpRunsNoMore(s.world, s.jobs[uuid].channel, s.jobs[uuid]);
      NoMoreRunningFits(s.world, Removed(s, uuid).world);
    }
  }

  lemma AnewDoesNotRun(s: Schedule, root: Channel, j: ChannelJob, eta: nat, state: Option<JobState>, s1: Schedule)
    requires Consistent(s, root) && NotifiedAnew(s, j, eta, state, s1)
    ensures var w := Removed(s, j.uuid).world;
      Tree(w) && AllLocated(w) && j.channel in w && j !in w[j.channel].running
  {
    hide Tree, AllLocated, Rooted, PausesThrottled, RemoveUp;
    RemovedConsistent(s, root, j.uuid);
    assert j !in Present(Removed(s, j.uuid).world[j.channel]);
  }

  lemma AnewWithinCapacity(s: Schedule, root: Channel, j: ChannelJob, eta: nat, state: Option<JobState>, s1: Schedule)
    requires Consistent(s, root) && WithinCapacity(s.world) && NotifiedAnew(s, j, eta, state, s1)
    ensures WithinCapacity(s1.world) <==> Roomy(s, NotifyAnew(j, eta, state))
  {
    hide WithinCapacity, Tree, AllLocated, Consistent, HasRoom, Removed;
    var r := Removed(s, j.uuid);
    RemovedWithinCapacity(s, j.uuid);
    AnewDoesNotRun(s, root, j, eta, state, s1);
    if IsRunningState(state) {
      SetRunningIgnoresCapacity(r.world, j);
    } else {
      ApplyRunsNoMore(r.world, j, eta, state);
      NoMoreRunningFits(r.world, s1.world);
    }
  }

  /** A job that runs to the root leaves room when it is removed. */
  lemma RunningLeavesRoom(w: World, o: ChannelJob, j: ChannelJob)
    requires WithinCapacity(w) && o.channel == j.channel && At(w, o, Running)
    ensures HasRoom(RemoveUp(w, j.channel, o), j)
  {
    var w1 := RemoveUp(w, j.channel, o);
    forall d | d in w1 && OnPath(j.channel, d) && w1[d].capacity.Some? && w1[d].capacity.value != 0
      ensures |w1[d].running| < w1[d].capacity.value
    {
      assert Fits(w[d]) && o in w[d].running && w1[d].running == w[d].running - {o};
      assert |w[d].running - {o}| == |w[d].running| - 1;
    }
  }

  lemma ExpectedIsRoomy(root: Channel, a: RunState, e: Event, b: RunState)
    requires Consistent(a.schedule, root) && WithinCapacity(a.schedule.world) && Step(root, a, e, b)
    requires Expected(a.schedule, e)
    ensures Roomy(a.schedule, e)
  {
    hide WithinCapacity, Tree, AllLocated, Rooted, PausesThrottled, PositionFrom, HasRoom, Apply, RemoveUp, Dispatched,
      Grows, Grown, RemovedAll, AllPresent;
    var s := a.schedule;
    match e
    case NotifyKept(j, eta, state) =>
      HasPosition(s.world, j);
      OnPathRefl(j.channel);
    case NotifyAnew(j, eta, state) =>
      if IsRunningState(state) {
        var o := s.jobs[j.uuid];
        HasPosition(s.world, o);
        RunningLeavesRoom(s.world, o, j);
      }
    case _ =>
  }

  lemma DispatchedWithinCapacity(w: World, root: Channel, now: nat, outs: Outs, w1: World)
    requires Rooted(w, root) && WithinCapacity(w) && Dispatched(w, root, now, outs, w1)
    ensures WithinCapacity(w1)
  {
    UpstreamOfRoot(w, root);
    hide Yields, Upstream;
    forall d | d in w1 ensures Fits(w1[d]) {
      assert DispatchedAt(w, d, now, outs, w1);
      assert Fits(w[d]);
      var v := Receive(w[d], Inflow(outs, w[d].children));
      YieldsSameCapacity(v, now, outs[d], w1[d]);
      if v.capacity.Some? && v.capacity.value != 0 {
        YieldsWithinCapacity(v, now, outs[d], w1[d]);
      }
    }
  }

  lemma YieldsSameCapacity(v: ChannelView, now: nat, out: seq<ChannelJob>, v1: ChannelView)
    requires Yields(v, now, out, v1)
    ensures v1.capacity == v.capacity && v1.throttle == v.throttle
  {
  }

  lemma {:induction false} RemovedAllRunsNoMore(s: Schedule, root: Channel, uuids: seq<string>)
    requires Consistent(s, root)
    ensures NoMoreRunning(s.world, RemovedAll(s, uuids).world)
  {
    hide Consistent, RemoveUp;
    if uuids != [] {
      var before, uuid := RemovedAll(s, uuids[..|uuids| - 1]), uuids[|uuids| - 1];
      RemovedAllRunsNoMore(s, root, uuids[..|uuids| - 1]);
      if uuid in before.jobs {
        RemoveUpRunsNoMore(before.world, before.jobs[uuid].channel, before.jobs[uuid]);
      }
    }
  }

  /** Of all steps, exactly a notification of a running job for which there is no room exceeds a capacity. */
  lemma StepWithinCapacity(root: Channel, a: RunState, e: Event, b: RunState)
    requires Consistent(a.schedule, root) && WithinCapacity(a.schedule.world) && Step(root, a, e, b)
    ensures WithinCapacity(b.schedule.world) <==> Roomy(a.schedule, e)
  {
    hide NotifiedKept, NotifiedAnew, Dispatched, HasRoom, AllLocated, Tree, PausesThrottled, OneObjectPerUuid,
      Grows, Grown, RemovedAll, AllPresent, RemoveUp, NoMoreRunning;
    var s, w := a.schedule, a.schedule.world;
    match e
    case NotifyKept(j, eta, state) => KeptWithinCapacity(s, root, j, eta, state, b.schedule);
    case NotifyAnew(j, eta, state) => AnewWithinCapacity(s, root, j, eta, state, b.schedule);
    case Remove(uuid) => RemovedWithinCapacity(s, uuid);
    case Forget(uuid) =>
    case RemoveDb(uuids) =>
      RemovedAllRunsNoMore(s, root, uuids);
      NoMoreRunningFits(w, b.schedule.world);
    case Lookup(news) => LookupConsistent(s, root, news);
    case Dispatch(now, outs) => DispatchedWithinCapacity(w, root, now, outs, b.schedule.world);
  }

  /**
   * Over a run, no channel ever runs more jobs than its capacity, exactly as long as there is room for every enqueued
   * or started job that is notified and does not run yet.
   */
  lemma {:induction false} RunWithinCapacity(root: Channel, states: seq<RunState>, events: seq<Event>, n: nat)
    requires Run(root, states, events) && n < |states| && WithinCapacity(states[0].schedule.world)
    ensures (forall i | 0 <= i <= n :: WithinCapacity(states[i].schedule.world))
      <==> forall k | 0 <= k < n :: Roomy(states[k].schedule, events[k])
  {
    hide Consistent, Step, WithinCapacity, Roomy;
    if n > 0 {
      RunWithinCapacity(root, states, events, n - 1);
      RunConsistent(root, states, events, n - 1);
      if WithinCapacity(states[n - 1].schedule.world) {
        StepWithinCapacity(root, states[n - 1], events[n - 1], states[n]);
      }
    }
  }

  /** So no capacity is ever exceeded when enqueued and started jobs are notified only while they run already. */
  lemma {:induction false} ExpectedWithinCapacity(root: Channel, states: seq<RunState>, events: seq<Event>, i: nat)
    requires Run(root, states, events) && i < |states| && WithinCapacity(states[0].schedule.world)
    requires forall k | 0 <= k < |events| :: Expected(states[k].schedule, events[k])
    ensures WithinCapacity(states[i].schedule.world)
  {
    hide Consistent, Step, WithinCapacity, Expected, Roomy;
    if i > 0 {
      ExpectedWithinCapacity(root, states, events, i - 1);
      RunConsistent(root, states, events, i - 1);
      ExpectedIsRoomy(root, states[i - 1], events[i - 1], states[i]);
      StepWithinCapacity(root, states[i - 1], events[i - 1], states[i]);
    }
  }

  // ----- Throttling over whole runs -----

  /** The earliest time at which a throttled channel may yield again. */
  ghost function Bound(s: RunState, d: Channel): nat
    requires d in s.schedule.world
  {
    var v := s.schedule.world[d];
    if v.pauseUntil != 0 then v.pauseUntil else s.clock
  }

  ghost predicate YieldsFrom(e: Event, d: Channel) {
    e.Dispatch? && d in e.outs && e.outs[d] != []
  }

  lemma ThrottledYield(v: ChannelView, clock: nat, now: nat, out: seq<ChannelJob>, v1: ChannelView)
    requires Yields(v, now, out, v1) && v.throttle != 0 && clock <= now
    ensures (if v.pauseUntil != 0 then v.pauseUntil else clock) <= (if v1.pauseUntil != 0 then v1.pauseUntil else now)
    ensures out != [] ==> |out| == 1 && v1.pauseUntil == now + v.throttle
    ensures out != [] ==> (if v.pauseUntil != 0 then v.pauseUntil else clock) <= now
    ensures v1.throttle == v.throttle
  {
  }

  lemma StepKeepsThrottle(root: Channel, a: RunState, e: Event, b: RunState, d: Channel)
    requires Consistent(a.schedule, root) && Step(root, a, e, b) && !e.Dispatch? && d in a.schedule.world
    ensures d in b.schedule.world && b.clock == a.clock
    ensures b.schedule.world[d].throttle == a.schedule.world[d].throttle
    ensures b.schedule.world[d].pauseUntil == a.schedule.world[d].pauseUntil
  {
    hide Tree, AllLocated, Rooted, Apply, RemoveUp, AllPresent, Grows, Grown, RemovedAll;
    var s, w := a.schedule, a.schedule.world;
    match e
    case NotifyKept(j, eta, state) => ApplyKeepsSettings(w, j, eta, state);
    case NotifyAnew(j, eta, state) =>
      var r := Removed(s, j.uuid);
      if j.uuid in s.jobs { RemoveUpKeepsSettings(w, s.jobs[j.uuid].channel, s.jobs[j.uuid]); }
      ApplyKeepsSettings(r.world, j, eta, state);
    case Remove(uuid) =>
      if uuid in s.jobs { RemoveUpKeepsSettings(w, s.jobs[uuid].channel, s.jobs[uuid]); }
    case Forget(uuid) =>
    case RemoveDb(uuids) => RemovedAllConsistent(s, root, uuids);
    case Lookup(news) => LookupConsistent(s, root, news);
  }

  lemma StepBound(root: Channel, a: RunState, e: Event, b: RunState, d: Channel)
    requires Consistent(a.schedule, root) && Step(root, a, e, b)
    requires d in a.schedule.world && a.schedule.world[d].throttle != 0
    ensures d in b.schedule.world && b.schedule.world[d].throttle == a.schedule.world[d].throttle
    ensures Bound(a, d) <= Bound(b, d)
    ensures YieldsFrom(e, d) ==>
      |e.outs[d]| == 1 && Bound(a, d) <= e.now && Bound(b, d) == e.now + a.schedule.world[d].throttle
  {
    if e.Dispatch? {
      hide Yields, Tree, AllLocated, Receive, Inflow;
      var w, w1 := a.schedule.world, b.schedule.world;
      UpstreamOfRoot(w, root);
      assert DispatchedAt(w, d, e.now, e.outs, w1);
      var v := Receive(w[d], Inflow(e.outs, w[d].children));
      ReceiveKeepsThrottle(w[d], Inflow(e.outs, w[d].children));
      ThrottledYield(v, a.clock, e.now, e.outs[d], w1[d]);
    } else {
      hide Step;
      StepKeepsThrottle(root, a, e, b, d);
    }
  }

  lemma ReceiveKeepsThrottle(v: ChannelView, jobs: set<ChannelJob>)
    ensures Receive(v, jobs).throttle == v.throttle && Receive(v, jobs).pauseUntil == v.pauseUntil
  {
  }

  lemma {:induction false} BoundGrows(root: Channel, states: seq<RunState>, events: seq<Event>, i: nat, k: nat,
      d: Channel)
    requires Run(root, states, events) && i <= k < |states|
    requires d in states[i].schedule.world && states[i].schedule.world[d].throttle != 0
    ensures d in states[k].schedule.world
    ensures states[k].schedule.world[d].throttle == states[i].schedule.world[d].throttle
    ensures Bound(states[i], d) <= Bound(states[k], d)
  {
    hide Consistent, Step, Bound;
    if i < k {
      BoundGrows(root, states, events, i, k - 1, d);
      RunConsistent(root, states, events, k - 1);
      StepBound(root, states[k - 1], events[k - 1], states[k], d);
    }
  }

  /**
   * A throttled channel yields one job at a time, and two of its yields are at least `throttle`
   * seconds apart, whatever happens in between.
   */
  lemma RunThrottles(root: Channel, states: seq<RunState>, events: seq<Event>, i: nat, k: nat, d: Channel)
    requires Run(root, states, events) && i < k < |events|
    requires d in states[i].schedule.world && states[i].schedule.world[d].throttle != 0
    requires YieldsFrom(events[i], d) && YieldsFrom(events[k], d)
    ensures |events[i].outs[d]| == 1 && |events[k].outs[d]| == 1
    ensures events[k].now >= events[i].now + states[i].schedule.world[d].throttle
  {
    hide Consistent, Step, Bound;
    RunConsistent(root, states, events, i);
    RunConsistent(root, states, events, k);
    StepBound(root, states[i], events[i], states[i + 1], d);
    BoundGrows(root, states, events, i + 1, k, d);
    StepBound(root, states[k], events[k], states[k + 1], d);
  }
}
