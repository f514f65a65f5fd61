/** The channel manager: it finds channels by name and turns notifications into channel operations. */
module ChannelManagers {
  import opened Channels
  import opened ChannelNames
  import opened Lookups
  import opened Dispatching
  import opened Location
  import opened JobStates
  import opened Scheduling

  /** The names on the way from the root to `c`. */
  ghost function PathOf(c: Channel): (p: Path)
    ensures |p| >= 1
    decreases c.depth
  {
    if c.parent == null || c.parent.depth >= c.depth then [c.name] else PathOf(c.parent) + [c.name]
  }

  ghost function Paths(cs: set<Channel>): set<Path> {
    set c | c in cs :: PathOf(c)
  }

  /** A name is registered exactly when it is the dotted path of a channel, and stands for that channel. */
  ghost predicate Registered(channels: map<string, Channel>, cs: set<Channel>) {
    && (forall c | c in cs :: Dotless(PathOf(c)) && Join(PathOf(c)) in channels && channels[Join(PathOf(c))] == c)
    && (forall n | n in channels :: channels[n] in cs && Join(PathOf(channels[n])) == n)
  }

  lemma PathsAreUnique(channels: map<string, Channel>, cs: set<Channel>, c: Channel, d: Channel)
    requires Registered(channels, cs) && c in cs && d in cs && PathOf(c) == PathOf(d)
    ensures c == d
  {
  }

  lemma NameIsRegistered(channels: map<string, Channel>, cs: set<Channel>, p: Path)
    requires Registered(channels, cs) && |p| >= 1 && Dotless(p)
    ensures Join(p) in channels <==> p in Paths(cs)
    ensures p in Paths(cs) ==> PathOf(channels[Join(p)]) == p
  {
    if Join(p) in channels {
      JoinIsInjective(p, PathOf(channels[Join(p)]));
    }
  }

  class ChannelManager {
    const root: Channel
    var jobs: map<string, ChannelJob>
    var channels: map<string, Channel>
    ghost var all: set<Channel>

    ghost predicate Valid()
      reads this, Structure(all), Held(all)
    {
      && root in all && root.name == ROOT
      && AllValid(all)
      && Consistent(Current(), root)
      && Registered(channels, all)
    }

    ghost function Current(): Schedule
      requires AllValid(all)
      reads this, Structure(all), Held(all)
    {
      Schedule(Snapshot(all), jobs)
    }

    constructor ()
      ensures Valid() && fresh(root) && fresh(Structure(all))
      ensures all == {root} && jobs == map[]
      ensures Snapshot(all)[root] == EmptyChannel().(capacity := Some(1))
    {
      hide PriorityQueue.Valid, ChannelQueue.Valid, ChannelQueue.View, Consistent, Registered, Channel.Valid,
        Channel.View, PriorityQueue.Contents, Held, WaitingJobs;
      root := new Channel(ROOT, null, Some(1));
      jobs := map[];
      new;
      channels := map[ROOT := root];
      all := {root};
      assert Snapshot(all) == map[root := root.View()];
      RootAlone(root, Snapshot(all));
    }

    /** `channel.fullname`. */
    method FullName(c: Channel, ghost cs: set<Channel>) returns (name: string)
      requires c in cs && AllValid(cs) && Tree(Snapshot(cs))
      ensures name == Join(PathOf(c))
      decreases c.depth
    {
      hide PriorityQueue.Valid, ChannelQueue.Valid, Channel.View;
      if c.parent != null {
        ParentInTree(Snapshot(cs), c);
        var p := FullName(c.parent, cs);
        JoinSnoc(PathOf(c.parent), c.name);
        name := p + "." + c.name;
      } else {
        name := c.name;
      }
    }

    /** Creates a channel below `parent` and registers it. */
    method AddChannel(name: string, parent: Channel) returns (c: Channel)
      requires Valid() && parent in all && '.' !in name
      requires forall k | k in parent.children :: k.name != name
      modifies this`channels, this`all, parent`children
      ensures Valid() && jobs == old(jobs) && fresh(c) && fresh(c.queue) && fresh(c.queue.ready)
        && fresh(c.queue.waiting) && all == old(all) + {c}
      ensures CanGrow(old(Snapshot(all)), parent, c)
      ensures Snapshot(all) == WithChannel(old(Snapshot(all)), parent, c)
      ensures PathOf(c) == PathOf(parent) + [name]
    {
      hide PriorityQueue.Valid, ChannelQueue.Valid, ChannelQueue.View, Consistent, Registered, PathOf, AllValid,
        Snapshot, Channel.Valid, Channel.View, WithChannel, Join, Tree, AllLocated, Rooted, PausesThrottled;
      ghost var s := Current();
      ConsistentTree(s, root);
      ChildrenInSnapshot(parent, all);
      c := NewChannel(name, parent, all);
      ghost var cs := all + {c};
      GrownConsistent(s, root, parent, c);
      NewPath(s.world, channels, parent, c);
      ConsistentTree(s.(world := WithChannel(s.world, parent, c)), root);
      Enlist(c, cs);
    }

    /** The loop of `get_channel_by_name` that looks for a parent with a configuration. */
    method FindFallback(name: string, ghost p: Path) returns (parent: Channel)
      requires Valid() && |p| >= 2 && p[0] == ROOT && Dotless(p) && name == Join(p)
      ensures parent in all && PathOf(parent) == Fallback(Paths(all), p)
      ensures Valid() && Snapshot(all) == old(Snapshot(all))
    {
      hide PriorityQueue.Valid, ChannelQueue.Valid, AllValid, Consistent, Registered, PathOf, Join;
      RootPath(all, root, jobs);
      ghost var known := Paths(all);
      parent := root;
      var parentName := name;
      ghost var q := p;
      while true
        invariant |q| >= 2 && q[0] == ROOT && Dotless(q) && parentName == Join(q)
        invariant Fallback(known, q) == Fallback(known, p)
        invariant Valid() && Snapshot(all) == old(Snapshot(all))
        decreases |q|
      {
        ghost var q1 := q[..|q| - 1];
        ParentName(q);
        DotlessPrefix(q, |q| - 1);
        JoinOfRoot(q1);
        NameIsRegistered(channels, all, q1);
        parentName := BeforeLastDot(parentName);
        if parentName == root.name { break; }
        if parentName in channels {
          parent := channels[parentName];
          RegisteredInside(channels, all, parentName);
          break;
        }
        q := q1;
      }
    }

    /** Finds the child of `c` with that name, or creates it. */
    method ChildOf(c: Channel, name: string) returns (k: Channel, ghost news: seq<Channel>)
      requires Valid() && c in all && '.' !in name
      modifies this`channels, this`all, all`children
      ensures Valid() && jobs == old(jobs) && k in all && PathOf(k) == PathOf(c) + [name]
      ensures old(all) <= all
        && (forall d | d in all && d !in old(all) ::
              fresh(d) && fresh(d.queue) && fresh(d.queue.ready) && fresh(d.queue.waiting))
        && Extends(old(Snapshot(all)), Snapshot(all))
      ensures Paths(all) == old(Paths(all)) + {PathOf(k)}
      ensures (news == [] || news == [k]) && Grows(old(Snapshot(all)), news)
      ensures Snapshot(all) == Grown(old(Snapshot(all)), news)
    {
      hide Structure, PriorityQueue.Valid, ChannelQueue.Valid, AllValid, Consistent, Registered, PathOf,
        Extends, Channel.Valid, Channel.View, Snapshot, Tree, AllLocated, Rooted, PausesThrottled,
        Grows, Grown, WithChannel;
      ConsistentTree(Current(), root);
      ghost var w := Snapshot(all);
      ExtendsItself(w);
      ChildPaths(Current(), root, c, all);
      var child := Subchannel(c.children, name);
      if child.Some? {
        k, news := child.value, [];
        GrowsNot(w);
      } else {
        k := AddChannel(name, c);
        ExtendsMore(w, w, c, k);
        GrowsNot(w);
        GrowsOn(w, [], k);
        news := [] + [k];
      }
    }

    /** The loop of `get_channel_by_name` that walks down from `start`, creating what is missing. */
    method Descend(start: Channel, names: seq<string>) returns (c: Channel, ghost news: seq<Channel>)
      requires Valid() && start in all && Dotless(names)
      modifies this`channels, this`all, all`children
      ensures Valid() && jobs == old(jobs) && c in all && PathOf(c) == PathOf(start) + names
      ensures old(all) <= all
        && (forall d | d in all && d !in old(all) ::
              fresh(d) && fresh(d.queue) && fresh(d.queue.ready) && fresh(d.queue.waiting))
        && Extends(old(Snapshot(all)), Snapshot(all))
      ensures Paths(all) == old(Paths(all)) + Prefixes(PathOf(c))
      ensures Grows(old(Snapshot(all)), news) && Snapshot(all) == Grown(old(Snapshot(all)), news)
    {
      hide Structure, PriorityQueue.Valid, ChannelQueue.Valid, AllValid, Consistent, Registered, PathOf, Paths,
        Extends, Prefixes, Channel.Valid, Channel.View, Snapshot, Grows, Grown;
      c, news := start, [];
      GrowsNot(Snapshot(all));
      ExtendsItself(Snapshot(all));
      PrefixesOfKnown(Current(), root, channels, c);
      assert names[..0] == [];
      for i := 0 to |names|
        invariant Valid() && jobs == old(jobs) && c in all && PathOf(c) == PathOf(start) + names[..i]
        invariant old(all) <= all
          && (forall d | d in all && d !in old(all) ::
                fresh(d) && fresh(d.queue) && fresh(d.queue.ready) && fresh(d.queue.waiting))
          && Extends(old(Snapshot(all)), Snapshot(all))
        invariant Paths(all) == old(Paths(all)) + Prefixes(PathOf(c))
        invariant Grows(old(Snapshot(all)), news) && Snapshot(all) == Grown(old(Snapshot(all)), news)
      {
        assert names[..i + 1] == names[..i] + [names[i]];
        PrefixesSnoc(PathOf(c), names[i]);
        ghost var w, before := Snapshot(all), Prefixes(PathOf(c));
        ghost var more;
        c, more := ChildOf(c, names[i]);
        GrowsByOne(old(Snapshot(all)), news, more);
        news := news + more;
        ExtendsTransitive(old(Snapshot(all)), w, Snapshot(all));
        assert old(Paths(all)) + before + {PathOf(c)} == old(Paths(all)) + (before + {PathOf(c)});
      }
      assert names[..|names|] == names;
    }

    method GetChannelByName(channelName: Option<string>, autocreate: bool, parentFallback: bool)
      returns (r: Option<Channel>, ghost news: seq<Channel>)
      requires Valid()
      modifies this`channels, this`all, all`children
      ensures Valid() && jobs == old(jobs)
      ensures old(all) <= all
        && (forall d | d in all && d !in old(all) ::
              fresh(d) && fresh(d.queue) && fresh(d.queue.ready) && fresh(d.queue.waiting))
        && Extends(old(Snapshot(all)), Snapshot(all))
      ensures r.None? <==> Normal(channelName) !in old(Paths(all)) && !autocreate && !parentFallback
      ensures r.None? ==> all == old(all)
      ensures |Normal(channelName)| == 1 ==> Normal(channelName) in old(Paths(all))
      ensures r.Some? ==>
        r.value in all && PathOf(r.value) == Target(old(Paths(all)), Normal(channelName), parentFallback)
      ensures Grows(old(Snapshot(all)), news) && Snapshot(all) == Grown(old(Snapshot(all)), news)
      ensures r.Some? ==> Paths(all) == old(Paths(all)) + Prefixes(PathOf(r.value))
    {
      hide Structure, PriorityQueue.Valid, ChannelQueue.Valid, AllValid, Consistent, Registered, PathOf, Paths,
        Extends, Prefixes, Held, WaitingJobs, Channel.Valid, Channel.View, Snapshot, Split, Join, BeforeLastDot,
        StartsWith, Fallback, Normal, Grows, Grown;
      ghost var p := Normal(channelName);
      RootPath(all, root, jobs);
      ExtendsItself(Snapshot(all));
      GrowsNot(Snapshot(all));
      if channelName.None? || channelName.value == "" || channelName.value == root.name {
        PrefixesOfKnown(Current(), root, channels, root);
        NormalIsRoot(channelName);
        return Some(root), [];
      }
      var name := channelName.value;
      if !StartsWith(name, root.name + ".") {
        name := root.name + "." + name;
      }
      NormalName(channelName, name);
      NameIsRegistered(channels, all, p);
      if name in channels {
        RegisteredInside(channels, all, name);
        PrefixesOfKnown(Current(), root, channels, channels[name]);
        return Some(channels[name]), [];
      }
      if !autocreate && !parentFallback { return None, []; }
      var parent := root;
      if parentFallback {
        parent := FindFallback(name, p);
      }
      var c;
      c, news := Descend(parent, Split(name)[1..]);
      r := Some(c);
    }

    /** Registers a channel under its full name. */
    method Enlist(c: Channel, ghost cs: set<Channel>)
      requires c in cs && AllValid(cs) && Tree(Snapshot(cs))
      modifies this`channels, this`all
      ensures channels == old(channels)[Join(PathOf(c)) := c] && all == cs
      ensures AllValid(cs) && Snapshot(cs) == old(Snapshot(cs))
    {
      hide PriorityQueue.Valid, ChannelQueue.Valid, Channel.Valid, Channel.View, Tree, Join, PathOf;
      var name := FullName(c, cs);
      NotAChannel(this, cs);
      channels := channels[name := c];
      all := cs;
    }

    /**
     * `get_channel_from_config`, once the channel is found: false stands for the error that is raised. Only taking the
     * throttle from a channel that is paused spoils what the scheduler keeps.
     */
    method Configure(c: Channel, capacity: Option<int>, sequential: bool, throttle: nat) returns (ok: bool)
      requires Valid() && c in all
      modifies c`capacity, c`throttle, c.queue`sequential
      ensures ok == (sequential ==> capacity == Some(1))
      ensures Valid() <==> (c.pauseUntil != 0 ==> throttle != 0)
      ensures AllValid(all) && jobs == old(jobs)
      ensures Snapshot(all) == Configured(old(Snapshot(all)), c, capacity, sequential, throttle)
    {
      hide PriorityQueue.Valid, Consistent, Registered, PriorityQueue.Contents, ChannelQueue.Valid,
        ChannelQueue.View, Channel.Valid, Channel.View;
      ghost var s := Current();
      SnapshotHere(c, all);
      ok := c.Configure(capacity, sequential, throttle);
      forall d | d in all && d != c ensures d.Valid() && d.View() == old(d.View()) {
      }
      assert Snapshot(all) == Configured(s.world, c, capacity, sequential, throttle);
      ConfiguredConsistent(s, root, c, Snapshot(all)[c]);
    }

    /** The state transitions at the end of `notify`. */
    method ApplyState(job: ChannelJob, state: Option<JobState>)
      requires AllValid(all) && Tree(Snapshot(all)) && job.channel in all
      modifies Structure(all)
      ensures AllValid(all) && Tree(Snapshot(all))
      ensures Snapshot(all) == Apply(old(Snapshot(all)), job, job.eta, state)
    {
      hide PriorityQueue.Valid, ChannelQueue.Valid, Channel.Valid, AllValid, Snapshot, Tree, RemoveUp,
        PendingUp, RunningUp, FailedUp;
      match state
      case None => job.channel.SetDone(job, all);
      case Some(Done) => job.channel.SetDone(job, all);
      case Some(Cancelled) => job.channel.SetDone(job, all);
      case Some(Pending) => job.channel.SetPending(job, all);
      case Some(Enqueued) => job.channel.SetRunning(job, all);
      case Some(Started) => job.channel.SetRunning(job, all);
      case Some(Failed) => job.channel.SetFailed(job, all);
      case Some(WaitDependencies) =>
    }

    method RemoveJob(uuid: string)
      requires Valid()
      modifies this`jobs, Structure(all)
      ensures Valid() && all == old(all) && Current() == Removed(old(Current()), uuid)
    {
      hide PriorityQueue.Valid, ChannelQueue.Valid, Channel.Valid, AllValid, Snapshot, RemoveUp, Registered,
        Consistent, Tree, AllLocated, Rooted, PausesThrottled;
      ghost var s := Current();
      RemovedConsistent(s, root, uuid);
      ConsistentTree(s, root);
      NotAChannel(this, all);
      hide Structure, Held;
      if uuid in jobs {
        LiveJob(s, root, uuid);
        jobs[uuid].channel.Remove(jobs[uuid], all);
        Unlist(uuid);
      }
    }

    /** `del self._jobs_by_uuid[uuid]`. */
    method Unlist(uuid: string)
      requires AllValid(all)
      modifies this`jobs
      ensures jobs == old(jobs) - {uuid} && AllValid(all) && Snapshot(all) == old(Snapshot(all))
    {
      hide PriorityQueue.Valid, ChannelQueue.Valid, Channel.Valid, Channel.View;
      NotAChannel(this, all);
      jobs := jobs - {uuid};
    }

    method List(job: ChannelJob)
      requires AllValid(all)
      modifies this`jobs
      ensures jobs == old(jobs)[job.uuid := job] && AllValid(all) && Snapshot(all) == old(Snapshot(all))
    {
      hide PriorityQueue.Valid, ChannelQueue.Valid, Channel.Valid, Channel.View;
      NotAChannel(this, all);
      jobs := jobs[job.uuid := job];
    }

    /** `notify` once the job's live object is known to be the right one. */
    method NotifyLive(job: ChannelJob, state: Option<JobState>)
      requires Valid() && job.uuid in jobs && jobs[job.uuid] == job
      modifies Structure(all)
      ensures Valid() && jobs == old(jobs) && job.eta == old(job.eta) && all == old(all)
      ensures NotifiedKept(old(Current()), job, job.eta, state, Current())
    {
      hide PriorityQueue.Valid, ChannelQueue.Valid, Channel.Valid, AllValid, Snapshot, Registered, Consistent,
        Apply;
      ghost var s := Current();
      ConsistentTree(s, root);
      LiveJob(s, root, job.uuid);
      NotAChannel(this, all);
      JobIsNotAChannel(job, all);
      ApplyState(job, state);
      NotifiedKeptConsistent(s, root, job, job.eta, state, Current());
    }

    /** `notify` when a new object is made for the job. */
    method NotifyNew(dbName: string, channel: Channel, uuid: string, rank: Rank, eta: nat, state: Option<JobState>)
      returns (job: ChannelJob)
      requires Valid() && channel in all
      modifies this`jobs, Structure(all)
      ensures Valid() && fresh(job) && all == old(all)
      ensures job.dbName == dbName && job.channel == channel && job.uuid == uuid && job.rank == rank && job.eta == eta
      ensures NotifiedAnew(old(Current()), job, eta, state, Current())
    {
      hide Structure, Held, Tree, AllLocated, Rooted, PausesThrottled, OneObjectPerUuid, PriorityQueue.Valid,
        ChannelQueue.Valid, Channel.Valid, AllValid, Snapshot, Registered, Consistent, Apply, RemoveUp,
        AllPresent;
      ghost var s := Current();
      RemovedConsistent(s, root, uuid);
      RemoveJob(uuid);
      ghost var r := Current();
      job := NewJob(dbName, channel, uuid, rank, eta, AllPresent(s.world));
      ListedConsistent(r, root, job);
      List(job);
      NotifyLive(job, state);
    }

    method NewJob(dbName: string, channel: Channel, uuid: string, rank: Rank, eta: nat, ghost earlier: set<ChannelJob>)
      returns (job: ChannelJob)
      requires AllValid(all)
      ensures fresh(job) && job !in earlier && AllValid(all) && Snapshot(all) == old(Snapshot(all))
      ensures job.dbName == dbName && job.channel == channel && job.uuid == uuid && job.rank == rank && job.eta == eta
    {
      hide PriorityQueue.Valid, ChannelQueue.Valid, Channel.Valid, Channel.View;
      job := new ChannelJob(dbName, channel, uuid, rank, eta);
    }

    method Notify(
        dbName: string, channelName: Option<string>, uuid: string, rank: Rank, eta: nat, state: Option<JobState>)
      returns (job: ChannelJob, ghost found: Schedule, ghost news: seq<Channel>)
      requires Valid()
      requires uuid in jobs ==> jobs[uuid].dbName == dbName && jobs[uuid].rank.dateCreated == rank.dateCreated
      modifies this`jobs, this`channels, this`all, all`children, Structure(all)
      ensures Valid()
      ensures found.jobs == old(jobs) && Extends(old(Snapshot(all)), found.world)
      ensures Grows(old(Snapshot(all)), news) && found.world == Grown(old(Snapshot(all)), news)
      ensures job.uuid == uuid && job.rank == rank && job.channel in all
      ensures |Normal(channelName)| == 1 ==> Normal(channelName) in old(Paths(all))
      ensures PathOf(job.channel) == Target(old(Paths(all)), Normal(channelName), true)
      ensures forall o: object | o in Structure(all) && o !in old(Structure(all)) :: fresh(o)
      ensures if uuid in old(jobs) && old(jobs)[uuid].rank == rank && old(jobs[uuid].eta) == eta
                 && old(jobs)[uuid].channel == job.channel
              then job == old(jobs)[uuid] && NotifiedKept(found, job, eta, state, Current())
              else fresh(job) && NotifiedAnew(found, job, eta, state, Current())
    {
      hide Structure, Held, Tree, AllLocated, Rooted, PausesThrottled, OneObjectPerUuid, PriorityQueue.Valid,
        ChannelQueue.Valid, Channel.Valid, AllValid, Snapshot, Registered, Consistent, NotifiedKept,
        NotifiedAnew, Extends, PathOf, Normal, Paths, Grows, Grown;
      if uuid in jobs { JobIsNotAChannel(jobs[uuid], all); }
      var c;
      c, news := GetChannelByName(channelName, false, true);
      forall o: object | o in Structure(all) && o !in old(Structure(all)) ensures fresh(o) {
        var d := PartOf(o, all, old(all));
      }
      var channel := c.value;
      found := Current();
      if uuid in jobs {
        LiveJob(found, root, uuid);
        job := jobs[uuid];
        if rank == job.rank && eta == job.eta && channel == job.channel {
          NotifyLive(job, state);
          return;
        }
      }
      job := NotifyNew(dbName, channel, uuid, rank, eta, state);
    }

    /** Removes the jobs of one database. */
    method RemoveDb(dbName: string) returns (ghost order: seq<string>)
      requires Valid()
      modifies this`jobs, Structure(all)
      ensures Valid() && all == old(all)
      ensures jobs == OfOtherDbs(old(jobs), dbName)
      ensures OnlyRemoved(old(Current()), Current()) && Current() == RemovedAll(old(Current()), order)
    {
      hide PriorityQueue.Valid, ChannelQueue.Valid, Channel.Valid, AllValid, Snapshot, Registered, Consistent,
        Structure, Removed, RemovedAll, OnlyRemoved;
      ghost var s := Current();
      NothingRemoved(s, root);
      var todo := jobs.Keys;
      order := [];
      while todo != {}
        invariant Valid() && all == old(all) && OnlyRemoved(s, Current())
        invariant Current() == RemovedAll(s, order)
        invariant todo <= jobs.Keys <= s.jobs.Keys && (forall u | u in jobs :: jobs[u] == s.jobs[u])
        invariant forall u | u in s.jobs :: u in jobs <==> u in todo || s.jobs[u].dbName != dbName
        decreases todo
      {
        var uuid :| uuid in todo;
        if jobs[uuid].dbName == dbName {
          OneMoreRemoved(s, Current(), root, uuid);
          RemovedJobs(Current(), uuid);
          RemovedOneMore(s, order, uuid);
          order := order + [uuid];
          RemoveJob(uuid);
        }
        todo := todo - {uuid};
      }
    }

    /** A live object that no channel holds disappears. */
    method Forget(uuid: string)
      requires Valid() && (uuid in jobs ==> Nowhere(Snapshot(all), jobs[uuid]))
      modifies this`jobs
      ensures Valid() && Forgotten(old(Current()), uuid, Current())
    {
      hide PriorityQueue.Valid, ChannelQueue.Valid, Channel.Valid, AllValid, Snapshot, Registered, Tree,
        AllLocated, Rooted, PausesThrottled;
      Unlist(uuid);
    }

    method GetJobsToRun(now: nat) returns (out: seq<ChannelJob>, ghost outs: Outs)
      requires Valid()
      modifies Structure(all), WaitingJobs(all)`eta
      ensures Valid() && jobs == old(jobs) && WaitingJobs(all) <= old(WaitingJobs(all))
      ensures Kept(old(Keys(all)), Keys(all))
      ensures Dispatched(old(Snapshot(all)), root, now, outs, Snapshot(all)) && root in outs && out == outs[root]
    {
      hide PriorityQueue.Valid, ChannelQueue.Valid, Channel.Valid, AllValid, Snapshot, Registered, Consistent,
        Dispatched, Tree, AllLocated, Rooted, PausesThrottled, Held, WaitingJobs;
      ghost var s := Current();
      ConsistentTree(s, root);
      NotAChannel(this, all);
      hide Structure;
      out, outs := root.GetJobsToRun(now, all);
      DispatchedConsistent(s, root, now, outs, Snapshot(all));
    }

    method GetWakeupTime() returns (t: nat)
      requires Valid()
      modifies Structure(all)
      ensures Valid() && Current() == old(Current()) && Tree(Snapshot(all)) && Timed(Snapshot(all))
      ensures WaitingJobs(all) <= old(WaitingJobs(all))
      ensures IsLeastTime(WakeTimes(Snapshot(all), root), t)
    {
      hide PriorityQueue.Valid, ChannelQueue.Valid, Channel.Valid, AllValid, Snapshot, Registered, Consistent,
        WakeTimes, IsLeastTime, WaitingJobs;
      ConsistentTree(Current(), root);
      SnapshotIsTimed(all);
      t := root.GetWakeupTime(0, all);
      assert WakeTimes(Snapshot(all), root) + Time(0) == WakeTimes(Snapshot(all), root);
    }
  }

  lemma GrowsByOne(w: World, news: seq<Channel>, more: seq<Channel>)
    requires Grows(w, news) && Grows(Grown(w, news), more) && |more| <= 1
    ensures Grows(w, news + more) && Grown(w, news + more) == Grown(Grown(w, news), more)
  {
    if more == [] {
      assert news + more == news;
    } else {
      assert more[..0] == [] && more == [more[0]];
      GrowsOn(w, news, more[0]);
    }
  }

  ghost function Configured(w: World, c: Channel, capacity: Option<int>, sequential: bool, throttle: nat): World
    requires c in w
  {
    w[c := w[c].(capacity := capacity, throttle := throttle, queue := w[c].queue.(sequential := sequential))]
  }

  lemma ConfiguredConsistent(s: Schedule, root: Channel, c: Channel, v: ChannelView)
    requires Consistent(s, root) && c in s.world && v.children == s.world[c].children
    requires v.queue.ready == s.world[c].queue.ready && v.queue.waiting == s.world[c].queue.waiting
    requires v.running == s.world[c].running && v.failed == s.world[c].failed
    ensures Consistent(s.(world := s.world[c := v]), root) <==> (v.pauseUntil != 0 ==> v.throttle != 0)
  {
    hide OnPath, TreeAt;
    var w, w1 := s.world, s.world[c := v];
    TreeKept(w, w1);
    forall d, j | d in w && j in Present(w1[d]) ensures Located(w1, d, j) && j in Present(w[d]) {
      OneChannelUnmoved(w, c, v, j);
      assert Located(w, d, j);
      UnmovedLocated(w, w1, d, j);
      hide Located, Unmoved;
    }
    hide Located, Tree;
    assert AllPresent(w1) == AllPresent(w);
    assert PausesThrottled(w1) <==> (v.pauseUntil != 0 ==> v.throttle != 0) by {
      assert w1[c] == v;
    }
  }

  function OfOtherDbs(jobs: map<string, ChannelJob>, dbName: string): map<string, ChannelJob> {
    map u | u in jobs && jobs[u].dbName != dbName :: jobs[u]
  }

  /** Some live jobs were removed; the others were not moved. */
  ghost predicate OnlyRemoved(s: Schedule, s1: Schedule) {
    && s1.world.Keys == s.world.Keys && s1.jobs.Keys <= s.jobs.Keys
    && AllPresent(s1.world) == (set j | j in AllPresent(s.world) && j.uuid in s1.jobs)
    && forall j | j in AllPresent(s1.world) :: Unmoved(s.world, s1.world, j)
  }

  lemma NothingRemoved(s: Schedule, root: Channel)
    requires Consistent(s, root)
    ensures OnlyRemoved(s, s) && RemovedAll(s, []) == s
  {
    assert AllPresent(s.world) == (set j | j in AllPresent(s.world) && j.uuid in s.jobs);
    forall j | j in AllPresent(s.world) ensures Unmoved(s.world, s.world, j) { UnmovedNot(s.world, j); }
  }

  lemma RemovedJobs(s: Schedule, uuid: string)
    requires uuid in s.jobs
    ensures Removed(s, uuid).jobs == s.jobs - {uuid}
  {
  }

  lemma OneMoreRemoved(s: Schedule, s1: Schedule, root: Channel, uuid: string)
    requires Consistent(s1, root) && uuid in s1.jobs && OnlyRemoved(s, s1)
    ensures OnlyRemoved(s, Removed(s1, uuid))
  {
    hide Tree, AllLocated, Rooted, PausesThrottled, RemoveUp, AllPresent, Unmoved;
    var j := s1.jobs[uuid];
    var w1, w2 := s1.world, RemoveUp(s1.world, j.channel, j);
    RemovedWorld(w1, root, j);
    forall x | x in AllPresent(w2) ensures Unmoved(s.world, w2, x) {
      RemoveUpUnmoved(w1, j.channel, j, x);
      UnmovedTwice(s.world, w1, w2, x);
    }
    assert AllPresent(w2) == (set x | x in AllPresent(s.world) && x.uuid in Removed(s1, uuid).jobs);
  }

  /** The registered names form a tree of names, as the lookups suppose. */
  lemma PathsAreClosed(channels: map<string, Channel>, cs: set<Channel>, s: Schedule, root: Channel)
    requires Consistent(s, root) && s.world.Keys == cs && Registered(channels, cs) && root.name == ROOT
    ensures Closed(Paths(cs))
  {
    hide AllLocated, PausesThrottled, Join, Tree, OnPath;
    assert PathOf(root) == [ROOT];
    hide PathOf;
    forall c | c in cs
      ensures var p := PathOf(c); p[0] == ROOT && Dotless(p) && (|p| >= 2 ==> p[..|p| - 1] in Paths(cs))
    {
      PathFromRoot(s, root, c);
    }
  }

  lemma {:induction false} PathFromRoot(s: Schedule, root: Channel, c: Channel)
    requires Tree(s.world) && Rooted(s.world, root) && c in s.world && root.name == ROOT
    ensures var p := PathOf(c); p[0] == ROOT && (|p| >= 2 ==> p[..|p| - 1] in Paths(s.world.Keys))
    decreases c.depth
  {
    if c.parent == null {
      assert OnPath(c, root);
    } else {
      ParentInTree(s.world, c);
      PathFromRoot(s, root, c.parent);
      assert PathOf(c)[..|PathOf(c)| - 1] == PathOf(c.parent);
    }
  }

  /** A channel whose path extends that of another lies upstream of it, so that its jobs pass through it. */
  lemma {:induction false} LongerPathIsUpstream(w: World, channels: map<string, Channel>, c: Channel, d: Channel)
    requires Tree(w) && Registered(channels, w.Keys) && c in w && d in w
    requires |PathOf(d)| <= |PathOf(c)| && PathOf(c)[..|PathOf(d)|] == PathOf(d)
    ensures OnPath(c, d)
    decreases c.depth
  {
    if |PathOf(c)| == |PathOf(d)| {
      assert PathOf(c)[..|PathOf(d)|] == PathOf(c);
      PathsAreUnique(channels, w.Keys, c, d);
      OnPathRefl(c);
    } else {
      ParentInTree(w, c);
      assert PathOf(c) == PathOf(c.parent) + [c.name];
      assert PathOf(c.parent)[..|PathOf(d)|] == PathOf(c)[..|PathOf(d)|];
      LongerPathIsUpstream(w, channels, c.parent, d);
    }
  }

  lemma ListedConsistent(s: Schedule, root: Channel, j: ChannelJob)
    requires Consistent(s, root) && j.channel in s.world && j !in AllPresent(s.world) && j.uuid !in s.jobs
    ensures Consistent(s.(jobs := s.jobs[j.uuid := j]), root)
  {
  }

  lemma LiveJob(s: Schedule, root: Channel, uuid: string)
    requires Consistent(s, root) && uuid in s.jobs
    ensures s.jobs[uuid].uuid == uuid && s.jobs[uuid].channel in s.world
  {
  }

  lemma SnapshotIsTimed(cs: set<Channel>)
    requires AllValid(cs)
    ensures Timed(Snapshot(cs))
  {
    hide PriorityQueue.Valid, ChannelQueue.View;
    forall c | c in cs ensures AllTimed(Snapshot(cs)[c].queue) {
      assert Snapshot(cs)[c].queue == c.queue.View();
    }
  }

  lemma RootPath(cs: set<Channel>, root: Channel, jobs: map<string, ChannelJob>)
    requires AllValid(cs) && root in cs && root.name == ROOT && Consistent(Schedule(Snapshot(cs), jobs), root)
    ensures PathOf(root) == [ROOT] && [ROOT] in Paths(cs)
  {
  }

  lemma DotlessPrefix(p: Path, n: nat)
    requires Dotless(p) && n <= |p|
    ensures Dotless(p[..n]) && Dotless(p[n..])
  {
    assert forall x | x in p[..n] :: x in p;
    assert forall x | x in p[n..] :: x in p;
  }

  lemma JoinOfRoot(p: Path)
    requires |p| >= 1 && p[0] == ROOT && Dotless(p)
    ensures Join(p) == ROOT <==> |p| == 1
  {
    if Join(p) == ROOT {
      assert Dotless([ROOT]);
      JoinIsInjective(p, [ROOT]);
    }
  }

  lemma RegisteredInside(channels: map<string, Channel>, cs: set<Channel>, name: string)
    requires Registered(channels, cs) && name in channels
    ensures channels[name] in cs
  {
  }

  lemma NormalIsRoot(name: Option<string>)
    requires name.None? || name.value == "" || name.value == ROOT
    ensures Normal(name) == [ROOT]
  {
  }

  lemma NormalName(name: Option<string>, full: string)
    requires name.Some? && name.value != "" && name.value != ROOT
    requires full == if StartsWith(name.value, ROOT + ".") then name.value else ROOT + "." + name.value
    ensures full == Join(Normal(name)) && Split(full) == Normal(name) && |Normal(name)| >= 2
  {
    StartsWithRoot(name.value, ROOT);
    JoinOfSplit(name.value);
    SplitOfJoin(Normal(name));
  }

  lemma PrefixesSnoc(p: Path, x: string)
    ensures Prefixes(p + [x]) == Prefixes(p) + {p + [x]}
  {
    var q := p + [x];
    assert q[..|q|] == q;
    forall n | 1 <= n <= |p| ensures q[..n] == p[..n] { }
    assert forall n | 1 <= n <= |p| :: p[..n] in Prefixes(q);
  }

  lemma ChildPaths(s: Schedule, root: Channel, c: Channel, cs: set<Channel>)
    requires Consistent(s, root) && AllValid(cs) && s.world == Snapshot(cs) && c in cs
    ensures forall k | k in c.children :: k in cs && PathOf(k) == PathOf(c) + [k.name] && PathOf(k) in Paths(cs)
  {
    ChildrenInSnapshot(c, cs);
    hide AllValid, Snapshot;
    forall k | k in c.children ensures k in cs && PathOf(k) == PathOf(c) + [k.name] {
      ParentInTree(s.world, k);
    }
  }

  lemma {:induction false} PrefixesOfKnown(s: Schedule, root: Channel, channels: map<string, Channel>, c: Channel)
    requires Consistent(s, root) && c in s.world
    ensures Prefixes(PathOf(c)) <= Paths(s.world.Keys)
    decreases c.depth
  {
    if c.parent == null {
      assert PathOf(c) == [c.name];
      assert forall n | 1 <= n <= 1 :: PathOf(c)[..n] == PathOf(c);
    } else {
      ParentInTree(s.world, c);
      PrefixesOfKnown(s, root, channels, c.parent);
      PrefixesSnoc(PathOf(c.parent), c.name);
    }
  }

  lemma PartOf(o: object, cs: set<Channel>, earlier: set<Channel>) returns (d: Channel)
    requires o in Structure(cs) && o !in Structure(earlier)
    ensures d in cs && d !in earlier && (o == d || o == d.queue || o == d.queue.ready || o == d.queue.waiting)
  {
    assert forall e | e in earlier :: e.Parts() <= Structure(earlier);
    d :| d in cs && (o == d || o == d.queue || o == d.queue.ready || o == d.queue.waiting);
  }

  lemma JobIsNotAChannel(j: ChannelJob, cs: set<Channel>)
    ensures j !in Structure(cs) && forall c: object | c in cs :: c != j
  {
  }

  lemma NotAChannel(m: ChannelManager, cs: set<Channel>)
    ensures m !in Structure(cs) && forall j: object | j in Held(cs) :: j != m
  {
  }

  /** `get_subchannel_by_name`, given the children of a channel. */
  function Subchannel(kids: seq<Channel>, name: string): (r: Option<Channel>)
    ensures r.Some? ==> r.value in kids && r.value.name == name
    ensures r.None? ==> forall k | k in kids :: k.name != name
  {
    if kids == [] then None
    else if kids[0].name == name then Some(kids[0])
    else Subchannel(kids[1..], name)
  }

  /** `Channel.__init__`: the new channel is the last child of its parent. */
  method MakeChild(name: string, parent: Channel) returns (c: Channel)
    requires parent.Valid()
    modifies parent`children
    ensures fresh(c.Parts()) && c.name == name && c.parent == parent && c.depth == parent.depth + 1
    ensures c.Valid() && c.View() == EmptyChannel()
    ensures parent.Valid() && parent.View() == var v := old(parent.View()); v.(children := v.children + [c])
  {
    hide PriorityQueue.Valid, ChannelQueue.Valid, ChannelQueue.View, PriorityQueue.Contents;
    c := new Channel(name, parent, None);
    parent.children := parent.children + [c];
  }

  /** Creates a channel, and says what this makes of the whole tree. */
  method NewChannel(name: string, parent: Channel, ghost cs: set<Channel>) returns (c: Channel)
    requires parent in cs && AllValid(cs)
    modifies parent`children
    ensures fresh(c.Parts()) && c.name == name && AllValid(cs + {c})
    ensures CanGrow(old(Snapshot(cs)), parent, c)
    ensures Snapshot(cs + {c}) == WithChannel(old(Snapshot(cs)), parent, c)
  {
    hide PriorityQueue.Valid, ChannelQueue.Valid, ChannelQueue.View, PriorityQueue.Contents, Held, WaitingJobs,
      Channel.Valid, Channel.View;
    c := MakeChild(name, parent);
    forall d | d in cs && d != parent ensures d.Valid() && d.View() == old(d.View()) {
    }
    assert Snapshot(cs + {c}) == WithChannel(old(Snapshot(cs)), parent, c);
  }

  lemma ConsistentTree(s: Schedule, root: Channel)
    requires Consistent(s, root)
    ensures Tree(s.world) && AllLocated(s.world) && Rooted(s.world, root) && PausesThrottled(s.world)
  {
  }

  lemma RootAlone(root: Channel, w: World)
    requires root.parent == null && root.name == ROOT && root.depth == 0
    requires w == map[root := EmptyChannel().(capacity := Some(1))]
    ensures Consistent(Schedule(w, map[]), root) && Registered(map[ROOT := root], {root})
  {
    assert PathOf(root) == [ROOT];
    assert Dotless([ROOT]);
  }

  lemma SiblingsHaveOtherNames(w: World, channels: map<string, Channel>, p: Channel, d: Channel, name: string)
    requires Tree(w) && p in w && d in w && Registered(channels, w.Keys)
    requires forall k | k in w[p].children :: k.name != name
    ensures PathOf(d) != PathOf(p) + [name]
  {
    var q := PathOf(p) + [name];
    assert q[..|q| - 1] == PathOf(p) && q[|q| - 1] == name;
    if d.parent != null {
      ParentInTree(w, d);
      var r := PathOf(d.parent) + [d.name];
      assert PathOf(d) == r && r[..|r| - 1] == PathOf(d.parent) && r[|r| - 1] == d.name;
      if PathOf(d.parent) == PathOf(p) {
        PathsAreUnique(channels, w.Keys, d.parent, p);
      }
    }
  }

  lemma NewPath(w: World, channels: map<string, Channel>, p: Channel, c: Channel)
    requires Tree(w) && CanGrow(w, p, c) && Registered(channels, w.Keys) && '.' !in c.name
    requires forall k | k in w[p].children :: k.name != c.name
    ensures PathOf(c) == PathOf(p) + [c.name]
    ensures Registered(channels[Join(PathOf(c)) := c], w.Keys + {c})
  {
    hide Tree, Join;
    var name := Join(PathOf(c));
    assert Dotless(PathOf(c));
    forall d | d in w ensures Join(PathOf(d)) != name {
      SiblingsHaveOtherNames(w, channels, p, d, c.name);
      if Join(PathOf(d)) == name { JoinIsInjective(PathOf(d), PathOf(c)); }
    }
  }
}
