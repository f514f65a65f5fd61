/** The steps of the channel manager as relations on values, and what whole runs of them keep. */
module Scheduling {
  import opened Channels
  import opened Dispatching
  import opened Location
  import opened JobStates

  /** All channels, and the live job object of each uuid. */
  datatype Schedule = Schedule(world: World, jobs: map<string, ChannelJob>)

  /** The state transitions at the end of `notify`; no state at all counts as done. */
  ghost function Apply(w: World, j: ChannelJob, eta: nat, state: Option<JobState>): World
    requires j.channel in w
  {
    match state
    case None => RemoveUp(w, j.channel, j)
    case Some(Done) => RemoveUp(w, j.channel, j)
    case Some(Cancelled) => RemoveUp(w, j.channel, j)
    case Some(Pending) => PendingUp(w, j.channel, j, eta)
    case Some(Enqueued) => RunningUp(w, j.channel, j)
    case Some(Started) => RunningUp(w, j.channel, j)
    case Some(Failed) => FailedUp(w, j.channel, j)
    case Some(WaitDependencies) => w
  }

  ghost predicate OneObjectPerUuid(s: Schedule) {
    && (forall j | j in AllPresent(s.world) :: j.uuid in s.jobs && s.jobs[j.uuid] == j)
    && (forall u | u in s.jobs :: s.jobs[u].uuid == u && s.jobs[u].channel in s.world)
  }

  ghost predicate Consistent(s: Schedule, root: Channel) {
    && Tree(s.world) && Rooted(s.world, root) && AllLocated(s.world) && PausesThrottled(s.world)
    && OneObjectPerUuid(s)
  }

  /** `remove_job`. */
  ghost function Removed(s: Schedule, uuid: string): Schedule {
    if uuid in s.jobs then Schedule(RemoveUp(s.world, s.jobs[uuid].channel, s.jobs[uuid]), s.jobs - {uuid}) else s
  }

  /** `notify` for a job whose live object `j` is kept. */
  ghost predicate NotifiedKept(s: Schedule, j: ChannelJob, eta: nat, state: Option<JobState>, s1: Schedule) {
    && j.uuid in s.jobs && s.jobs[j.uuid] == j && j.channel in s.world
    && s1 == s.(world := Apply(s.world, j, eta, state))
  }

  /** `notify` for a job that gets a new object `j`, replacing the one it may have. */
  ghost predicate NotifiedAnew(s: Schedule, j: ChannelJob, eta: nat, state: Option<JobState>, s1: Schedule) {
    && j !in AllPresent(s.world) && j.channel in s.world
    && var r := Removed(s, j.uuid);
       j.channel in r.world && s1 == Schedule(Apply(r.world, j, eta, state), r.jobs[j.uuid := j])
  }

  /** The live objects of jobs that no channel holds may disappear at any time. */
  ghost predicate Forgotten(s: Schedule, uuid: string, s1: Schedule) {
    && (uuid in s.jobs ==> Nowhere(s.world, s.jobs[uuid]))
    && s1 == s.(jobs := s.jobs - {uuid})
  }

  // ----- Settings -----

  ghost predicate SameSettings(v: ChannelView, v1: ChannelView) {
    && v1.capacity == v.capacity && v1.throttle == v.throttle && v1.pauseUntil == v.pauseUntil
    && v1.queue.sequential == v.queue.sequential && v1.children == v.children
  }

  ghost predicate KeepsSettings(w: World, w1: World) {
    w1.Keys == w.Keys && forall d | d in w :: SameSettings(w[d], w1[d])
  }

  lemma RemoveUpKeepsSettings(w: World, c: Channel, j: ChannelJob)
    ensures KeepsSettings(w, RemoveUp(w, c, j))
  {
  }

  lemma {:induction false} RunningUpKeepsSettings(w: World, c: Channel, j: ChannelJob)
    requires c in w
    ensures KeepsSettings(w, RunningUp(w, c, j))
    decreases c.depth
  {
    if j !in w[c].running {
      var w1 := w[c := AsRunning(w[c], j)];
      if !(c.parent == null || c.parent !in w || c.parent.depth >= c.depth) {
        RunningUpKeepsSettings(w1, c.parent, j);
      }
    }
  }

  lemma OwnKeepsSettings(w: World, c: Channel, v: ChannelView, j: ChannelJob)
    requires c in w && SameSettings(w[c], v)
    ensures KeepsSettings(w, RemoveBelow(w[c := v], c, j))
  {
    if c.parent != null { RemoveUpKeepsSettings(w[c := v], c.parent, j); }
  }

  lemma ApplyKeepsSettings(w: World, j: ChannelJob, eta: nat, state: Option<JobState>)
    requires j.channel in w
    ensures KeepsSettings(w, Apply(w, j, eta, state)) && Apply(w, j, eta, state).Keys == w.Keys
  {
    hide AsPending, AsFailed, RunningUp, RemoveUp;
    var c := j.channel;
    RemoveUpKeepsSettings(w, c, j);
    RunningUpKeepsSettings(w, c, j);
    OwnSettings(w[c], j, eta);
    OwnKeepsSettings(w, c, AsPending(w[c], j, eta), j);
    OwnKeepsSettings(w, c, AsFailed(w[c], j), j);
    hide KeepsSettings;
    assert KeepsSettings(w, w) by { SettingsRefl(w); }
  }

  lemma OwnSettings(v: ChannelView, j: ChannelJob, eta: nat)
    ensures SameSettings(v, AsPending(v, j, eta)) && SameSettings(v, AsFailed(v, j))
  {
  }

  lemma SettingsRefl(w: World)
    ensures KeepsSettings(w, w)
  {
  }

  lemma SettingsKept(w: World, w1: World, root: Channel)
    requires KeepsSettings(w, w1) && Tree(w) && Rooted(w, root) && PausesThrottled(w)
    ensures Tree(w1) && Rooted(w1, root) && PausesThrottled(w1)
  {
    TreeKept(w, w1);
  }

  // ----- Every step keeps the schedule consistent -----

  /** Where `notify` leaves its job, given where it was. */
  ghost function Destination(p: Position, own: Channel, state: Option<JobState>): Position {
    match state
    case None => Absent
    case Some(Done) => Absent
    case Some(Cancelled) => Absent
    case Some(Pending) => Queued(own)
    case Some(Enqueued) => if p.Queued? && p.channel != own then p else Running
    case Some(Started) => if p.Queued? && p.channel != own then p else Running
    case Some(Failed) => Position.Failed
    case Some(WaitDependencies) => p
  }

  lemma ApplyLocates(w: World, j: ChannelJob, eta: nat, state: Option<JobState>)
    requires Tree(w) && AllLocated(w) && j.channel in w
    ensures AllLocated(Apply(w, j, eta, state))
    ensures Moved(w, Apply(w, j, eta, state), j, Destination(PositionFrom(w, j.channel, j), j.channel, state))
  {
    hide Moved, AllLocated, Tree;
    match state
    case None => SetDoneLocates(w, j);
    case Some(Done) => SetDoneLocates(w, j);
    case Some(Cancelled) => SetDoneLocates(w, j);
    case Some(Pending) => SetPendingLocates(w, j, eta);
    case Some(Enqueued) => SetRunningLocates(w, j);
    case Some(Started) => SetRunningLocates(w, j);
    case Some(Failed) => SetFailedLocates(w, j);
    case Some(WaitDependencies) => NotMoved(w, j);
  }

  lemma NotMoved(w: World, j: ChannelJob)
    requires Tree(w) && AllLocated(w) && j.channel in w
    ensures Moved(w, w, j, PositionFrom(w, j.channel, j))
  {
    HasPosition(w, j);
    forall x ensures Unmoved(w, w, x) { UnmovedNot(w, x); }
  }

  lemma MovedPresent(w: World, w1: World, j: ChannelJob, p: Position, x: ChannelJob)
    requires Moved(w, w1, j, p) && x != j && w1.Keys == w.Keys
    ensures x in AllPresent(w1) <==> x in AllPresent(w)
  {
    if x in AllPresent(w) + AllPresent(w1) {
      assert Unmoved(w, w1, x);
      forall d | d in w ensures x in Present(w1[d]) <==> x in Present(w[d]) {
        UnmovedPresent(w, w1, x, d);
      }
    }
  }

  lemma NotifiedKeptConsistent(s: Schedule, root: Channel, j: ChannelJob, eta: nat, state: Option<JobState>,
      s1: Schedule)
    requires Consistent(s, root) && NotifiedKept(s, j, eta, state, s1)
    ensures Consistent(s1, root)
  {
    var w, w1 := s.world, s1.world;
    ApplyLocates(w, j, eta, state);
    ApplyKeepsSettings(w, j, eta, state);
    SettingsKept(w, w1, root);
    var p := Destination(PositionFrom(w, j.channel, j), j.channel, state);
    hide Apply, Moved, Destination, PositionFrom, AllPresent, Tree, AllLocated;
    forall x | x in AllPresent(w1) ensures x.uuid in s1.jobs && s1.jobs[x.uuid] == x {
      if x != j { MovedPresent(w, w1, j, p, x); }
    }
  }

  lemma RemovedWorld(w: World, root: Channel, j: ChannelJob)
    requires Tree(w) && Rooted(w, root) && AllLocated(w) && PausesThrottled(w) && j.channel in w
    ensures var w1 := RemoveUp(w, j.channel, j);
      && w1.Keys == w.Keys && Tree(w1) && Rooted(w1, root) && AllLocated(w1) && PausesThrottled(w1)
      && AllPresent(w1) == AllPresent(w) - {j}
  {
    hide RemoveUp, AllLocated, Tree, Rooted, PausesThrottled, Moved, AllPresent, SameSettings;
    var w1 := RemoveUp(w, j.channel, j);
    SetDoneLocates(w, j);
    RemoveUpKeepsSettings(w, j.channel, j);
    SettingsKept(w, w1, root);
    AbsentNotPresent(w, w1, j);
    forall x | x in AllPresent(w) + AllPresent(w1) && x != j ensures x in AllPresent(w1) <==> x in AllPresent(w) {
      MovedPresent(w, w1, j, Absent, x);
    }
    assert AllPresent(w1) == AllPresent(w) - {j};
  }

  lemma RemovedConsistent(s: Schedule, root: Channel, uuid: string)
    requires Consistent(s, root)
    ensures Consistent(Removed(s, uuid), root) && Removed(s, uuid).world.Keys == s.world.Keys
    ensures uuid in s.jobs ==> s.jobs[uuid] !in AllPresent(Removed(s, uuid).world)
    ensures AllPresent(Removed(s, uuid).world) <= AllPresent(s.world)
  {
    hide RemoveUp, AllLocated, Tree, Rooted, PausesThrottled, AllPresent;
    if uuid in s.jobs {
      RemovedWorld(s.world, root, s.jobs[uuid]);
    }
  }

  lemma AbsentNotPresent(w: World, w1: World, j: ChannelJob)
    requires Moved(w, w1, j, Absent)
    ensures j !in AllPresent(w1)
  {
  }

  lemma NotifiedAnewConsistent(s: Schedule, root: Channel, j: ChannelJob, eta: nat, state: Option<JobState>,
      s1: Schedule)
    requires Consistent(s, root) && NotifiedAnew(s, j, eta, state, s1)
    ensures Consistent(s1, root)
  {
    var r := Removed(s, j.uuid);
    RemovedConsistent(s, root, j.uuid);
    var t := r.(jobs := r.jobs[j.uuid := j]);
    assert Consistent(t, root) by {
      forall x | x in AllPresent(t.world) ensures t.jobs[x.uuid] == x {
        assert x in AllPresent(s.world);
      }
    }
    NotifiedKeptConsistent(t, root, j, eta, state, s1);
  }

  lemma DispatchedPresent(w: World, root: Channel, now: nat, outs: Outs, w1: World)
    requires Tree(w) && AllLocated(w) && Rooted(w, root) && Dispatched(w, root, now, outs, w1)
    ensures AllPresent(w1) == AllPresent(w)
  {
    hide Dispatched, Tree, Rooted, AllPresent, AllLocated;
    forall x | x in AllPresent(w) + AllPresent(w1) ensures x in AllPresent(w1) && x in AllPresent(w) {
      DispatchedStillPresent(w, root, now, outs, w1, x);
    }
    assert AllPresent(w1) == AllPresent(w);
  }

  lemma DispatchedStillPresent(w: World, root: Channel, now: nat, outs: Outs, w1: World, x: ChannelJob)
    requires Tree(w) && AllLocated(w) && Rooted(w, root) && Dispatched(w, root, now, outs, w1)
    requires x in AllPresent(w) + AllPresent(w1)
    ensures x in AllPresent(w1) && x in AllPresent(w)
  {
    hide Dispatched, Tree, Rooted, AllPresent, AllLocated, PositionFrom;
    DispatchLocates(w, root, now, outs, w1);
    PresentHasChannel(w, x);
    PresentHasChannel(w1, x);
    KeysKept(w, root, now, outs, w1);
    DispatchIsConservative(w, root, now, outs, w1, x);
    PresentIffNotAbsent(w, x);
    PresentIffNotAbsent(w1, x);
  }

  lemma KeysKept(w: World, root: Channel, now: nat, outs: Outs, w1: World)
    requires Dispatched(w, root, now, outs, w1)
    ensures w1.Keys == w.Keys
  {
  }

  lemma PresentHasChannel(w: World, j: ChannelJob)
    requires AllLocated(w)
    ensures j in AllPresent(w) ==> j.channel in w
  {
    if j in AllPresent(w) {
      var d :| d in w && j in Present(w[d]);
      assert Located(w, d, j);
    }
  }

  lemma PresentIffNotAbsent(w: World, j: ChannelJob)
    requires Tree(w) && AllLocated(w) && j.channel in w
    ensures j in AllPresent(w) <==> PositionFrom(w, j.channel, j) != Absent
  {
    HasPosition(w, j);
    var p := PositionFrom(w, j.channel, j);
    OnPathRefl(j.channel);
    if p.Queued? { assert j in Present(w[p.channel]); }
    if p == Position.Failed || p == Running { assert j in Present(w[j.channel]); }
  }

  lemma UpstreamOfRoot(w: World, root: Channel)
    requires Rooted(w, root)
    ensures Upstream(w.Keys, root) == w.Keys
  {
  }

  lemma DispatchedConsistent(s: Schedule, root: Channel, now: nat, outs: Outs, w1: World)
    requires Consistent(s, root) && Dispatched(s.world, root, now, outs, w1)
    ensures Consistent(s.(world := w1), root) && outs.Keys == s.world.Keys
  {
    hide Tree, AllLocated, OnPath;
    var w := s.world;
    DispatchedPresent(w, root, now, outs, w1);
    DispatchLocates(w, root, now, outs, w1);
    DispatchIsMaximal(w, root, now, outs, w1);
    UpstreamOfRoot(w, root);
    hide AllPresent, Upstream;
  }

  // ----- New channels -----

  function EmptyChannel(): ChannelView {
    ChannelView(QueueView({}, map[], false), {}, {}, 0, None, 0, [])
  }

  ghost function WithChannel(w: World, p: Channel, c: Channel): World
    requires p in w
  {
    w[p := w[p].(children := w[p].children + [c])][c := EmptyChannel()]
  }

  ghost predicate CanGrow(w: World, p: Channel, c: Channel) {
    p in w && c !in w && c.parent == p && c.depth == p.depth + 1
  }

  lemma {:induction false} PathInTree(w: World, c: Channel, d: Channel)
    requires Tree(w) && c in w && OnPath(c, d)
    ensures d in w
    decreases c.depth
  {
    if c != d { PathInTree(w, c.parent, d); }
  }

  lemma GrownRooted(w: World, p: Channel, c: Channel, root: Channel)
    requires Rooted(w, root) && PausesThrottled(w) && CanGrow(w, p, c)
    ensures var w1 := WithChannel(w, p, c); Rooted(w1, root) && PausesThrottled(w1)
  {
    assert OnPath(p, root);
    assert OnPath(c, root);
    hide OnPath;
  }

  lemma GrownTree(w: World, p: Channel, c: Channel, root: Channel)
    requires Tree(w) && Rooted(w, root) && PausesThrottled(w) && CanGrow(w, p, c)
    ensures var w1 := WithChannel(w, p, c); Tree(w1) && Rooted(w1, root) && PausesThrottled(w1)
  {
    hide OnPath, Rooted, PausesThrottled;
    GrownRooted(w, p, c, root);
    var w1 := WithChannel(w, p, c);
    forall d | d in w1 ensures TreeAt(w1, d) {
      if d != c { assert TreeAt(w, d); }
    }
  }

  lemma GrownLocated(w: World, p: Channel, c: Channel)
    requires Tree(w) && AllLocated(w) && CanGrow(w, p, c)
    ensures AllLocated(WithChannel(w, p, c)) && AllPresent(WithChannel(w, p, c)) == AllPresent(w)
  {
    hide Tree;
    var w1 := WithChannel(w, p, c);
    forall d, j | d in w1 && j in Present(w1[d]) ensures Located(w1, d, j) && d in w && j in Present(w[d]) {
      GrownLocatedAt(w, p, c, d, j);
    }
    forall d, j | d in w && j in Present(w[d]) ensures j in Present(w1[d]) {
    }
  }

  lemma GrownLocatedAt(w: World, p: Channel, c: Channel, d: Channel, j: ChannelJob)
    requires Tree(w) && AllLocated(w) && CanGrow(w, p, c)
    requires d in WithChannel(w, p, c) && j in Present(WithChannel(w, p, c)[d])
    ensures d in w && j in Present(w[d]) && Located(WithChannel(w, p, c), d, j)
  {
    hide Tree, OnPath;
    assert d != c;
    assert Located(w, d, j);
    if OnPath(j.channel, c) { PathInTree(w, j.channel, c); }
  }

  lemma GrownConsistent(s: Schedule, root: Channel, p: Channel, c: Channel)
    requires Consistent(s, root) && CanGrow(s.world, p, c)
    ensures Consistent(s.(world := WithChannel(s.world, p, c)), root)
  {
    GrownTree(s.world, p, c, root);
    GrownLocated(s.world, p, c);
    hide Tree, AllLocated, Rooted, PausesThrottled, AllPresent;
  }

  // ----- Several channels or jobs at a time -----

  /** Channels were added, without jobs, below the existing ones. */
  ghost predicate Extends(w: World, w1: World) {
    && w.Keys <= w1.Keys
    && AllPresent(w1) == AllPresent(w)
    && (forall d | d in w :: w1[d] == w[d].(children := w1[d].children))
    && (forall d | d in w1 && d !in w :: w1[d] == EmptyChannel().(children := w1[d].children))
  }

  lemma ExtendsItself(w: World)
    ensures Extends(w, w)
  {
  }

  lemma ExtendsTransitive(w: World, w1: World, w2: World)
    requires Extends(w, w1) && Extends(w1, w2)
    ensures Extends(w, w2)
  {
    hide AllPresent;
  }

  lemma ExtendsMore(w: World, w1: World, p: Channel, c: Channel)
    requires Extends(w, w1) && Tree(w1) && AllLocated(w1) && CanGrow(w1, p, c)
    ensures Extends(w, WithChannel(w1, p, c))
  {
    GrownLocated(w1, p, c);
    hide Tree, AllLocated, AllPresent;
  }

  /** The channels of `news` can be added one after the other, each below its parent. */
  ghost predicate Grows(w: World, news: seq<Channel>)
    decreases |news|, 0
  {
    news == [] ||
    var before, c := news[..|news| - 1], news[|news| - 1];
    Grows(w, before) && c.parent != null && CanGrow(Grown(w, before), c.parent, c)
  }

  ghost function Grown(w: World, news: seq<Channel>): World
    requires Grows(w, news)
    decreases |news|, 1
  {
    if news == [] then w
    else
      var before, c := news[..|news| - 1], news[|news| - 1];
      WithChannel(Grown(w, before), c.parent, c)
  }

  lemma GrowsNot(w: World)
    ensures Grows(w, []) && Grown(w, []) == w
  {
  }

  lemma GrowsOn(w: World, news: seq<Channel>, c: Channel)
    requires Grows(w, news) && c.parent != null && CanGrow(Grown(w, news), c.parent, c)
    ensures Grows(w, news + [c]) && Grown(w, news + [c]) == WithChannel(Grown(w, news), c.parent, c)
  {
    assert (news + [c])[..|news|] == news;
  }

  /** A lookup keeps the tree, the positions, one object per job, and the channels there were but for new children. */
  lemma {:induction false} LookupConsistent(s: Schedule, root: Channel, news: seq<Channel>)
    requires Consistent(s, root) && Grows(s.world, news)
    ensures Consistent(s.(world := Grown(s.world, news)), root) && Extends(s.world, Grown(s.world, news))
    decreases |news|
  {
    if news == [] {
      ExtendsItself(s.world);
    } else {
      hide Consistent, Extends, CanGrow;
      var before, c := news[..|news| - 1], news[|news| - 1];
      LookupConsistent(s, root, before);
      var mid := s.(world := Grown(s.world, before));
      GrownConsistent(mid, root, c.parent, c);
      ConsistentParts(mid, root);
      ExtendsMore(s.world, mid.world, c.parent, c);
    }
  }

  lemma ConsistentParts(s: Schedule, root: Channel)
    requires Consistent(s, root)
    ensures Tree(s.world) && AllLocated(s.world) && Rooted(s.world, root) && PausesThrottled(s.world)
  {
  }

  /** `remove_job` of one job after the other. */
  ghost function RemovedAll(s: Schedule, uuids: seq<string>): Schedule {
    if uuids == [] then s else Removed(RemovedAll(s, uuids[..|uuids| - 1]), uuids[|uuids| - 1])
  }

  lemma RemovedOneMore(s: Schedule, uuids: seq<string>, uuid: string)
    ensures RemovedAll(s, uuids + [uuid]) == Removed(RemovedAll(s, uuids), uuid)
  {
    assert (uuids + [uuid])[..|uuids|] == uuids;
  }

  lemma KeepsSettingsTwice(w: World, w1: World, w2: World)
    requires KeepsSettings(w, w1) && KeepsSettings(w1, w2)
    ensures KeepsSettings(w, w2)
  {
  }

  lemma {:induction false} RemovedAllConsistent(s: Schedule, root: Channel, uuids: seq<string>)
    requires Consistent(s, root)
    ensures Consistent(RemovedAll(s, uuids), root) && KeepsSettings(s.world, RemovedAll(s, uuids).world)
  {
    hide Consistent, KeepsSettings, RemoveUp;
    if uuids == [] {
      SettingsRefl(s.world);
    } else {
      var before, uuid := RemovedAll(s, uuids[..|uuids| - 1]), uuids[|uuids| - 1];
      RemovedAllConsistent(s, root, uuids[..|uuids| - 1]);
      RemovedConsistent(before, root, uuid);
      if uuid in before.jobs {
        var j := before.jobs[uuid];
        RemoveUpKeepsSettings(before.world, j.channel, j);
        KeepsSettingsTwice(s.world, before.world, Removed(before, uuid).world);
      }
    }
  }

  /**
   * A channel that lost its throttle while it was paused never ends its pause, over any sequence of dispatches and of
   * steps that keep the settings: whenever it has capacity it asks to be woken up at the end of that pause, be it long
   * past.
   */
  lemma {:induction false} StalePauseNeverEnds(
      worlds: seq<World>, top: Channel, nows: seq<nat>, outs: seq<Outs>, c: Channel, n: nat)
    requires n < |worlds| == |nows| + 1 == |outs| + 1
    requires forall i, k | 0 <= i && k == i + 1 < |worlds| ::
      Dispatched(worlds[i], top, nows[i], outs[i], worlds[k]) || KeepsSettings(worlds[i], worlds[k])
    requires c in worlds[0] && worlds[0][c].pauseUntil != 0 && worlds[0][c].throttle == 0
    ensures c in worlds[n]
    ensures worlds[n][c].pauseUntil == worlds[0][c].pauseUntil && worlds[n][c].throttle == 0
    ensures Tree(worlds[n]) && HasCapacity(worlds[n][c]) ==> WakeTimes(worlds[n], c) == {worlds[0][c].pauseUntil}
  {
    hide Tree;
    if n > 0 {
      var k := n - 1;
      StalePauseNeverEnds(worlds, top, nows, outs, c, k);
      if Dispatched(worlds[k], top, nows[k], outs[k], worlds[n]) {
        PauseStays(worlds[k], top, nows[k], outs[k], worlds[n], c);
      }
    }
  }
}
