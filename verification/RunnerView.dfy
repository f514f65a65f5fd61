/** The place of a job in the channel tree, as the job protocol sees it. */
module RunnerView {
  import opened Sequences
  import opened Channels
  import opened Dispatching
  import opened Location
  import opened JobStates
  import opened Scheduling
  import P = JobProtocol

  function SeenAt(p: Position): P.Seen {
    match p
    case Absent => P.Unseen
    case Failed => P.SeenFailed
    case Queued(_) => P.Queued
    case Running => P.Running
  }

  /** The live object of a job, if it has one, and where that object is. */
  ghost function SeenOf(s: Schedule, uuid: string): P.Seen {
    if uuid in s.jobs then SeenAt(PositionFrom(s.world, s.jobs[uuid].channel, s.jobs[uuid])) else P.Unseen
  }

  /** The position of a job after the state transition of a notification. */
  lemma ApplyMoves(w: World, root: Channel, j: ChannelJob, eta: nat, state: JobState)
    requires Tree(w) && Rooted(w, root) && AllLocated(w) && PausesThrottled(w) && j.channel in w
    ensures PositionFrom(Apply(w, j, eta, Some(state)), j.channel, j)
      == Destination(PositionFrom(w, j.channel, j), j.channel, Some(state))
  {
    hide Tree, AllLocated, Rooted, PausesThrottled, Apply, PositionFrom, At, Unmoved;
    ApplyLocates(w, j, eta, Some(state));
    ApplyKeepsSettings(w, j, eta, Some(state));
    SettingsKept(w, Apply(w, j, eta, Some(state)), root);
    HasPosition(Apply(w, j, eta, Some(state)), j);
  }

  /** A job whose members are the same everywhere is where it was. */
  lemma {:induction false} PlaceKept(w: World, w1: World, c: Channel, x: ChannelJob)
    requires Unmoved(w, w1, x)
    ensures PositionFrom(w1, c, x) == PositionFrom(w, c, x)
    decreases c.depth
  {
    if c in w && c.parent != null && c.parent.depth < c.depth {
      PlaceKept(w, w1, c.parent, x);
    }
  }

  lemma NotPresentIsAbsent(w: World, c: Channel, x: ChannelJob)
    requires x !in AllPresent(w)
    ensures PositionFrom(w, c, x) == Absent
  {
    assert c in w ==> x !in Present(w[c]);
  }

  /** Moving one job leaves all the others where they are. */
  lemma OthersKept(s: Schedule, j: ChannelJob, p: Position, s1: Schedule, u: string)
    requires OneObjectPerUuid(s) && s1.world.Keys == s.world.Keys && Moved(s.world, s1.world, j, p)
    requires (u in s1.jobs <==> u in s.jobs) && (u in s.jobs ==> s1.jobs[u] == s.jobs[u] != j)
    ensures SeenOf(s1, u) == SeenOf(s, u)
  {
    hide AllPresent, PositionFrom, Unmoved, At;
    if u in s.jobs {
      var x := s.jobs[u];
      if x in AllPresent(s.world) + AllPresent(s1.world) {
        PlaceKept(s.world, s1.world, x.channel, x);
      } else {
        NotPresentIsAbsent(s.world, x.channel, x);
        NotPresentIsAbsent(s1.world, x.channel, x);
      }
    }
  }

  /** A notification that keeps the live object does to the place of the job what the protocol says, and no more. */
  lemma NotifiedKeptRefines(s: Schedule, root: Channel, j: ChannelJob, eta: nat, state: JobState, s1: Schedule)
    requires Consistent(s, root) && NotifiedKept(s, j, eta, Some(state), s1)
    ensures exists keep :: SeenOf(s1, j.uuid) == P.SeenAfter(SeenOf(s, j.uuid), state, keep)
    ensures forall u | u != j.uuid :: SeenOf(s1, u) == SeenOf(s, u)
  {
    hide Tree, AllLocated, Rooted, PausesThrottled, Apply, PositionFrom, Moved;
    ApplyMoves(s.world, root, j, eta, state);
    var p := PositionFrom(s.world, j.channel, j);
    assert SeenOf(s1, j.uuid) == SeenAt(Destination(p, j.channel, Some(state)));
    var keep := state == WaitDependencies || (p.Queued? && p.channel != j.channel);
    assert SeenOf(s1, j.uuid) == P.SeenAfter(SeenOf(s, j.uuid), state, keep);
    ApplyLocates(s.world, j, eta, Some(state));
    ApplyKeepsSettings(s.world, j, eta, Some(state));
    SameChannels(s.world, s1.world);
    forall u | u != j.uuid ensures SeenOf(s1, u) == SeenOf(s, u) {
      OthersKept(s, j, Destination(p, j.channel, Some(state)), s1, u);
    }
  }

  lemma SameChannels(w: World, w1: World)
    requires KeepsSettings(w, w1)
    ensures w1.Keys == w.Keys
  {
  }

  /** So does one that makes a new live object, whether or not the job had one. */
  lemma NotifiedAnewRefines(s: Schedule, root: Channel, j: ChannelJob, eta: nat, state: JobState, s1: Schedule)
    requires Consistent(s, root) && NotifiedAnew(s, j, eta, Some(state), s1)
    ensures SeenOf(s1, j.uuid) == P.SeenAfter(SeenOf(s, j.uuid), state, false)
    ensures forall u | u != j.uuid :: SeenOf(s1, u) == SeenOf(s, u)
  {
    hide Tree, AllLocated, Rooted, PausesThrottled, Apply, PositionFrom, RemoveUp, AllPresent, Moved;
    var r := Removed(s, j.uuid);
    RemovedConsistent(s, root, j.uuid);
    NewlyListed(s, root, j, eta, state, s1);
    ApplyMoves(r.world, root, j, eta, state);
    RemovedRefines(s, root, j.uuid);
    ApplyLocates(r.world, j, eta, Some(state));
    ApplyKeepsSettings(r.world, j, eta, Some(state));
    SameChannels(r.world, s1.world);
    forall u | u != j.uuid ensures SeenOf(s1, u) == SeenOf(s, u) {
      OthersKept(r, j, Destination(Absent, j.channel, Some(state)), s1, u);
    }
  }

  /** Removing a job takes away its place, and no other. */
  lemma RemovedRefines(s: Schedule, root: Channel, uuid: string)
    requires Consistent(s, root)
    ensures SeenOf(Removed(s, uuid), uuid) == P.Unseen
    ensures forall u | u != uuid :: SeenOf(Removed(s, uuid), u) == SeenOf(s, u)
  {
    hide Tree, AllLocated, Rooted, PausesThrottled, PositionFrom, RemoveUp, Moved;
    if uuid in s.jobs {
      var j := s.jobs[uuid];
      SetDoneLocates(s.world, j);
      RemovedWorld(s.world, root, j);
      forall u | u != uuid ensures SeenOf(Removed(s, uuid), u) == SeenOf(s, u) {
        OthersKept(s, j, Absent, Removed(s, uuid), u);
      }
    }
  }

  /** Forgetting a job that is nowhere changes nothing that the protocol sees. */
  lemma ForgottenRefines(s: Schedule, root: Channel, uuid: string, s1: Schedule)
    requires Consistent(s, root) && Forgotten(s, uuid, s1)
    ensures forall u :: SeenOf(s1, u) == SeenOf(s, u)
  {
    hide Tree, AllLocated, Rooted, PausesThrottled, PositionFrom;
    if uuid in s.jobs {
      NotPresentIsAbsent(s.world, s.jobs[uuid].channel, s.jobs[uuid]);
    }
  }

  lemma NewlyListed(s: Schedule, root: Channel, j: ChannelJob, eta: nat, state: JobState, s1: Schedule)
    requires Consistent(s, root) && NotifiedAnew(s, j, eta, Some(state), s1)
    ensures PositionFrom(Removed(s, j.uuid).world, j.channel, j) == Absent
  {
    var r := Removed(s, j.uuid);
    RemovedConsistent(s, root, j.uuid);
    hide Tree, AllLocated, Rooted, PausesThrottled, Apply, PositionFrom, RemoveUp;
    PresentIffNotAbsent(r.world, j);
  }

  /** A dispatch yields a job exactly when it moves it from queued to running. */
  lemma DispatchRefines(s: Schedule, root: Channel, now: nat, outs: Outs, w1: World, uuid: string)
    requires Consistent(s, root) && Dispatched(s.world, root, now, outs, w1) && uuid in s.jobs
    ensures root in outs
    ensures var before, after := SeenOf(s, uuid), SeenOf(s.(world := w1), uuid);
      if s.jobs[uuid] in outs[root] then before == P.Queued && after == P.Running else after == before
  {
    hide Tree, AllLocated, Rooted, PausesThrottled, Dispatched, PositionFrom;
    DispatchIsConservative(s.world, root, now, outs, w1, s.jobs[uuid]);
  }

  // ----- What the runner sees of all jobs -----

  /** The jobs that the channels hold, and where. */
  ghost function Shown(s: Schedule): map<string, P.Seen> {
    map u | u in s.jobs && SeenOf(s, u) != P.Unseen :: SeenOf(s, u)
  }

  /** A lookup creates channels, but no job changes its place. */
  lemma LookupRefines(s: Schedule, root: Channel, news: seq<Channel>, u: string)
    requires Consistent(s, root) && Grows(s.world, news)
    ensures SeenOf(s.(world := Grown(s.world, news)), u) == SeenOf(s, u)
  {
    hide Grown, Grows;
    LookupConsistent(s, root, news);
    if u in s.jobs {
      var j := s.jobs[u];
      PlaceInExtended(s.world, Grown(s.world, news), j.channel, j);
    }
  }

  lemma {:induction false} PlaceInExtended(w: World, w1: World, c: Channel, x: ChannelJob)
    requires Tree(w) && Extends(w, w1) && c in w
    ensures PositionFrom(w1, c, x) == PositionFrom(w, c, x)
    decreases c.depth
  {
    hide AllPresent;
    if c.parent != null && c.parent.depth < c.depth {
      ParentInTree(w, c);
      hide Tree;
      PlaceInExtended(w, w1, c.parent, x);
    }
  }

  /** Removing jobs one after the other takes away their places, and no others. */
  lemma {:induction false} RemovedAllRefines(s: Schedule, root: Channel, uuids: seq<string>, u: string)
    requires Consistent(s, root)
    ensures SeenOf(RemovedAll(s, uuids), u) == if u in uuids then P.Unseen else SeenOf(s, u)
  {
    hide Consistent, SeenOf;
    if uuids != [] {
      var first, last := uuids[..|uuids| - 1], uuids[|uuids| - 1];
      RemovedAllRefines(s, root, first, u);
      RemovedAllConsistent(s, root, first);
      RemovedRefines(RemovedAll(s, first), root, last);
      assert uuids == first + [last];
    }
  }

  lemma DispatchShows(s: Schedule, root: Channel, now: nat, outs: Outs, w1: World, u: string)
    requires Consistent(s, root) && Dispatched(s.world, root, now, outs, w1) && root in outs
    ensures SeenOf(s.(world := w1), u)
         == if u in s.jobs && s.jobs[u] in outs[root] then P.Running else SeenOf(s, u)
  {
    hide Consistent, Dispatched, PositionFrom;
    if u in s.jobs {
      DispatchRefines(s, root, now, outs, w1, u);
    }
  }

  lemma YieldedWerePresent(w: World, root: Channel, now: nat, outs: Outs, w1: World, j: ChannelJob)
    requires Tree(w) && AllLocated(w) && Rooted(w, root) && Dispatched(w, root, now, outs, w1) && root in w
    requires root in outs && j in outs[root]
    ensures j in AllPresent(w)
  {
    hide Dispatched, Tree, Rooted, AllLocated, AllFlow;
    AllFlows(w, root, now, outs, w1);
    OutsWereQueued(w, outs, w1, root, j);
  }

  lemma YieldedOnce(w: World, root: Channel, now: nat, outs: Outs, w1: World)
    requires Dispatched(w, root, now, outs, w1) && root in w
    ensures root in outs && Distinct(outs[root])
  {
    hide Dispatched, Distinct, Yields;
    RootIsUpstream(w, root);
    YieldsHere(w, root, root, now, outs, w1);
    YieldsBestFirst(Receive(w[root], Inflow(outs, w[root].children)), now, outs[root], w1[root]);
  }

  lemma Listed(s: Schedule, root: Channel, j: ChannelJob)
    requires Consistent(s, root) && j in AllPresent(s.world)
    ensures j.uuid in s.jobs && s.jobs[j.uuid] == j
  {
  }

  lemma JobsAreNamed(s: Schedule, root: Channel)
    requires Consistent(s, root)
    ensures Tree(s.world) && AllLocated(s.world) && Rooted(s.world, root)
    ensures forall u: string | u in s.jobs :: s.jobs[u].uuid == u
  {
  }

  /** Every job yielded is a live one that was queued, and is yielded once. */
  lemma YieldedAreListed(s: Schedule, root: Channel, now: nat, outs: Outs, w1: World)
    requires Consistent(s, root) && root in s.world && Dispatched(s.world, root, now, outs, w1)
    ensures root in outs && Distinct(outs[root])
    ensures forall j | j in outs[root] :: j.uuid in s.jobs && s.jobs[j.uuid] == j && SeenOf(s, j.uuid) == P.Queued
  {
    hide Consistent, Dispatched, SeenOf, AllPresent, Distinct, Tree, AllLocated, Rooted;
    JobsAreNamed(s, root);
    YieldedOnce(s.world, root, now, outs, w1);
    forall j | j in outs[root] ensures j.uuid in s.jobs && s.jobs[j.uuid] == j && SeenOf(s, j.uuid) == P.Queued {
      YieldedWerePresent(s.world, root, now, outs, w1, j);
      Listed(s, root, j);
      DispatchRefines(s, root, now, outs, w1, j.uuid);
    }
  }
}
