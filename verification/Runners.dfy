/** The loop of the runner between two notifications. */
module Runners {
  import opened Channels
  import opened Dispatching
  import opened Location
  import opened JobStates
  import opened Scheduling
  import opened Runs
  import opened ChannelNames
  import opened Lookups
  import opened ChannelManagers

  /**
   * Run jobs, wait, and run jobs again without a notification in between. The runner never asks to be woken up in the
   * past; and when it wakes up before the time it asked for, there is nothing to run.
   */
  method RunWaitRun(m: ChannelManager, now: nat, later: nat)
    returns (first: seq<ChannelJob>, wakeup: nat, second: seq<ChannelJob>)
    requires m.Valid() && now <= later
    modifies Structure(m.all), WaitingJobs(m.all)`eta
    ensures m.Valid() && m.jobs == old(m.jobs)
    ensures wakeup == 0 || now < wakeup
    ensures wakeup == 0 || later < wakeup ==> second == []
  {
    hide Structure, WaitingJobs, Held, AllValid, Snapshot, Dispatched, WakeTimes, Tree, Timed, Consistent, Registered,
      PausesThrottled, Upstream;
    ghost var outs, outs2;
    ManagerIsConsistent(m);
    NotAChannel(m, m.all);
    ghost var w0 := Snapshot(m.all);
    first, outs := m.GetJobsToRun(now);
    ManagerIsConsistent(m);
    wakeup := m.GetWakeupTime();
    ghost var w1 := Snapshot(m.all);
    second, outs2 := m.GetJobsToRun(later);
    RootIsUpstream(w1, m.root);
    WakeupIsInTheFuture(w0, m.root, now, outs, w1, m.root);
    if wakeup == 0 || later < wakeup {
      NoMissedWakeup(w0, m.root, now, outs, w1, wakeup, later, outs2, Snapshot(m.all));
    }
  }

  lemma ManagerIsConsistent(m: ChannelManager)
    requires m.Valid()
    ensures Consistent(m.Current(), m.root) && m.Current().world == Snapshot(m.all)
    ensures Tree(Snapshot(m.all)) && PausesThrottled(Snapshot(m.all)) && m.root in Snapshot(m.all)
  {
  }

  // ----- The channel manager's calls are the steps of a run -----

  /** The run so far ends with what the channel manager holds. */
  ghost predicate Recorded(m: ChannelManager, states: seq<RunState>, events: seq<Event>)
    requires AllValid(m.all)
    reads m, Structure(m.all), Channels.Held(m.all)
  {
    Run(m.root, states, events) && states[|events|].schedule == m.Current()
  }

  lemma RunGoesOn(root: Channel, states: seq<RunState>, events: seq<Event>, e: Event, b: RunState)
    returns (later: seq<RunState>, done: seq<Event>)
    requires Run(root, states, events) && Step(root, states[|events|], e, b)
    ensures later == states + [b] && done == events + [e]
    ensures Run(root, later, done) && |later| == |done| + 1 && later[|done|] == b
  {
    hide Step, Consistent;
    later, done := states + [b], events + [e];
    forall i | 0 <= i <= |events| ensures Step(root, later[i], done[i], later[i + 1]) {
      if i < |events| {
        assert Step(root, states[i], events[i], states[i + 1]);
      }
    }
  }

  lemma RunEnds(root: Channel, states: seq<RunState>, events: seq<Event>)
    requires Run(root, states, events)
    ensures |states| == |events| + 1
  {
  }

  /** A notification goes on from any run by a lookup and what is then done with the job. */
  method NotifyRecorded(
      m: ChannelManager, dbName: string, channelName: Option<string>, uuid: string, rank: Rank, eta: nat,
      state: Option<JobState>, ghost states: seq<RunState>, ghost events: seq<Event>)
    returns (ghost later: seq<RunState>, ghost done: seq<Event>)
    requires m.Valid() && Recorded(m, states, events)
    requires uuid in m.jobs ==> m.jobs[uuid].dbName == dbName && m.jobs[uuid].rank.dateCreated == rank.dateCreated
    modifies m`jobs, m`channels, m`all, m.all`children, Structure(m.all)
    ensures m.Valid() && Recorded(m, later, done) && states <= later && events <= done
    ensures |done| == |events| + 2 && done[|events|].Lookup?
    ensures later[|done|].clock == states[|events|].clock
  {
    hide Structure, AllValid, Snapshot, Consistent, Registered, Grows, Grown, NotifiedKept, NotifiedAnew, Run,
      Extends, PathOf, Paths;
    RunEnds(m.root, states, events);
    ghost var clock := states[|events|].clock;
    ghost var found, news, job;
    job, found, news := m.Notify(dbName, channelName, uuid, rank, eta, state);
    later, done := RunGoesOn(m.root, states, events, Event.Lookup(news), RunState(found, clock));
    ghost var e :=
      if NotifiedKept(found, job, eta, state, m.Current()) then NotifyKept(job, eta, state)
      else NotifyAnew(job, eta, state);
    later, done := RunGoesOn(m.root, later, done, e, RunState(m.Current(), clock));
  }

  /** Removing the jobs of a database goes on from any run by removing them one after the other. */
  method RemoveDbRecorded(m: ChannelManager, dbName: string, ghost states: seq<RunState>, ghost events: seq<Event>)
    returns (ghost later: seq<RunState>, ghost done: seq<Event>)
    requires m.Valid() && Recorded(m, states, events)
    modifies m`jobs, Structure(m.all)
    ensures m.Valid() && Recorded(m, later, done) && states <= later && events <= done
  {
    hide Structure, AllValid, Snapshot, Consistent, Registered, RemovedAll, OnlyRemoved, Run;
    RunEnds(m.root, states, events);
    ghost var clock := states[|events|].clock;
    ghost var order := m.RemoveDb(dbName);
    later, done := RunGoesOn(m.root, states, events, Event.RemoveDb(order), RunState(m.Current(), clock));
  }

  /** So does a dispatch, when the clock has not gone back. */
  method DispatchRecorded(m: ChannelManager, now: nat, ghost states: seq<RunState>, ghost events: seq<Event>)
    returns (out: seq<ChannelJob>, ghost later: seq<RunState>, ghost done: seq<Event>)
    requires m.Valid() && Recorded(m, states, events) && |states| == |events| + 1 && states[|events|].clock <= now
    modifies Structure(m.all), WaitingJobs(m.all)`eta
    ensures m.Valid() && Recorded(m, later, done) && states <= later && events <= done
    ensures |done| == |events| + 1 && done[|events|].Dispatch? && m.root in done[|events|].outs
    ensures done[|events|].now == now && out == done[|events|].outs[m.root]
  {
    hide Structure, AllValid, Snapshot, Consistent, Registered, Dispatched, WaitingJobs, Keys, Kept, Run;
    RunEnds(m.root, states, events);
    ghost var outs;
    NotAChannel(m, m.all);
    ghost var s := m.Current();
    out, outs := m.GetJobsToRun(now);
    later, done := RunGoesOn(m.root, states, events, Event.Dispatch(now, outs), RunState(m.Current(), now));
  }

  // ----- A run that exceeds a capacity -----

  /** A new job that is notified as started runs at the root, whether there is room for it or not. */
  lemma StartedAtRoot(s: Schedule, root: Channel, j: ChannelJob, eta: nat, s1: Schedule)
    requires Consistent(s, root) && NotifiedAnew(s, j, eta, Some(Started), s1) && j.channel == root
    requires j.uuid !in s.jobs
    ensures s1.world == s.world[root := AsRunning(s.world[root], j)] && j !in s.world[root].running
  {
    hide Tree, AllLocated, PausesThrottled;
    assert j !in Present(s.world[root]);
  }

  /** A lookup, then a new job that is notified as started and belongs to the root. */
  ghost predicate Starts(
      s: Schedule, root: Channel, news: seq<Channel>, found: Schedule, j: ChannelJob, s1: Schedule) {
    && Grows(s.world, news) && found == s.(world := Grown(s.world, news))
    && NotifiedAnew(found, j, 0, Some(Started), s1) && j.channel == root && j.uuid !in s.jobs
  }

  lemma StartsRunning(s: Schedule, root: Channel, news: seq<Channel>, found: Schedule, j: ChannelJob, s1: Schedule)
    requires Consistent(s, root) && Starts(s, root, news, found, j, s1)
    ensures Consistent(found, root) && Consistent(s1, root)
    ensures root in s.world && root in found.world && root in s1.world
    ensures found.world[root].running == s.world[root].running && j !in s.world[root].running
    ensures s1.world[root].running == s.world[root].running + {j}
    ensures found.world[root].capacity == s1.world[root].capacity == s.world[root].capacity
    ensures s1.jobs.Keys == s.jobs.Keys + {j.uuid}
  {
    hide Tree, AllLocated, PausesThrottled, Grown, Grows;
    LookupConsistent(s, root, news);
    StartedAtRoot(found, root, j, 0, s1);
    NotifiedAnewConsistent(found, root, j, 0, Some(Started), s1);
  }

  /** Over a lookup and such a notification, capacities are kept exactly when the root has room for one job more. */
  lemma StartsWithinCapacity(
      s: Schedule, root: Channel, news: seq<Channel>, found: Schedule, j: ChannelJob, s1: Schedule, clock: nat)
    requires Consistent(s, root) && Starts(s, root, news, found, j, s1) && WithinCapacity(s.world)
    requires root in s.world && s.world[root].capacity == Some(1)
    ensures WithinCapacity(found.world)
    ensures WithinCapacity(s1.world) <==> |s.world[root].running| == 0
  {
    hide Consistent, Grown, Grows, NotifiedAnew, Fits, WithinCapacity;
    StartsRunning(s, root, news, found, j, s1);
    var a, b, c := RunState(s, clock), RunState(found, clock), RunState(s1, clock);
    StepWithinCapacity(root, a, Event.Lookup(news), b);
    StepWithinCapacity(root, b, NotifyAnew(j, 0, Some(Started)), c);
    RootHasRoom(found, root, j);
  }

  lemma RootHasRoom(s: Schedule, root: Channel, j: ChannelJob)
    requires Consistent(s, root) && root in s.world && j.channel == root && j.uuid !in s.jobs
    requires s.world[root].capacity == Some(1)
    ensures HasRoom(Removed(s, j.uuid).world, j) <==> |s.world[root].running| == 0
  {
    hide Tree, AllLocated, PausesThrottled;
    OnPathRefl(root);
    assert forall d | OnPath(root, d) :: d == root;
  }

  lemma RootByPath(m: ChannelManager)
    requires m.Valid()
    ensures Normal(None) == [ROOT] && [ROOT] in Paths(m.all)
    ensures forall c | c in m.all && PathOf(c) == [ROOT] :: c == m.root
  {
    hide PathOf;
    RootPath(m.all, m.root, m.jobs);
    forall c | c in m.all && PathOf(c) == [ROOT] ensures c == m.root {
      PathsAreUnique(m.channels, m.all, c, m.root);
    }
  }

  /** Notify a new job without a channel as started. */
  method NotifyStarted(m: ChannelManager, uuid: string, rank: Rank)
    returns (ghost job: ChannelJob, ghost found: Schedule, ghost news: seq<Channel>)
    requires m.Valid() && uuid !in m.jobs
    modifies m`jobs, m`channels, m`all, m.all`children, Structure(m.all)
    ensures m.Valid() && job.uuid == uuid
    ensures forall o: object | o in Structure(m.all) && o !in old(Structure(m.all)) :: fresh(o)
    ensures Starts(old(m.Current()), m.root, news, found, job, m.Current())
  {
    hide Structure, AllValid, Snapshot, Grows, Grown, NotifiedAnew, Extends, Consistent, Registered, PathOf, Paths,
      Normal;
    RootByPath(m);
    job, found, news := m.Notify("", None, uuid, rank, 0, Some(Started));
    RootByPath(m);
  }

  lemma ChannelsAreParts(cs: set<Channel>)
    ensures forall c | c in cs :: c in Structure(cs)
  {
  }

  lemma EmptyWithinCapacity(m: ChannelManager)
    requires m.Valid() && m.all == {m.root}
    requires Snapshot(m.all)[m.root] == EmptyChannel().(capacity := Some(1))
    ensures WithinCapacity(m.Current().world)
  {
  }

  /**
   * A new channel manager is told of two jobs that were started already: its root, with a capacity of one, then runs
   * both. A notification does not ask whether there is room.
   */
  method ExceedCapacity(rank: Rank, other: Rank)
    returns (m: ChannelManager, ghost states: seq<RunState>, ghost events: seq<Event>)
    ensures m.Valid() && Recorded(m, states, events) && |events| == 4 && |states| == 5
    ensures forall i | 0 <= i < 4 :: WithinCapacity(states[i].schedule.world)
    ensures !WithinCapacity(states[4].schedule.world)
  {
    hide Structure, AllValid, Snapshot, Consistent, Registered, Starts, WithinCapacity, Run, Step;
    m := new ChannelManager();
    ManagerIsConsistent(m);
    EmptyWithinCapacity(m);
    ghost var s0 := m.Current();
    ghost var job, found, news;
    job, found, news := NotifyStarted(m, "first", rank);
    ghost var s1 := m.Current();
    StartsRunning(s0, m.root, news, found, job, s1);
    assert "first"[0] != "second"[0];
    ChannelsAreParts(m.all);
    ghost var job2, found2, news2;
    job2, found2, news2 := NotifyStarted(m, "second", other);
    ghost var s2 := m.Current();
    StartsRunning(s1, m.root, news2, found2, job2, s2);
    StartsWithinCapacity(s0, m.root, news, found, job, s1, 0);
    StartsWithinCapacity(s1, m.root, news2, found2, job2, s2, 0);
    states, events := TwoStarts(m.root, s0, news, found, job, s1, news2, found2, job2, s2);
  }

  lemma TwoStarts(
      root: Channel, s0: Schedule, news: seq<Channel>, found: Schedule, job: ChannelJob, s1: Schedule,
      news2: seq<Channel>, found2: Schedule, job2: ChannelJob, s2: Schedule)
    returns (states: seq<RunState>, events: seq<Event>)
    requires Consistent(s0, root)
    requires Starts(s0, root, news, found, job, s1) && Starts(s1, root, news2, found2, job2, s2)
    ensures Run(root, states, events) && |events| == 4
    ensures states == [RunState(s0, 0), RunState(found, 0), RunState(s1, 0), RunState(found2, 0), RunState(s2, 0)]
  {
    hide Consistent, Grows, Grown, NotifiedAnew;
    events := [Event.Lookup(news), NotifyAnew(job, 0, Some(Started)),
               Event.Lookup(news2), NotifyAnew(job2, 0, Some(Started))];
    states := [RunState(s0, 0), RunState(found, 0), RunState(s1, 0), RunState(found2, 0), RunState(s2, 0)];
  }
}
