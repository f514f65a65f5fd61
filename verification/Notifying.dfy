/** Where a notification leaves its job, channel by channel. */
module Notifying {
  import opened Channels
  import opened Location
  import opened Scheduling
  import opened JobStates

  /** Nothing of the job is left in the channel. */
  ghost predicate Gone(v: ChannelView, j: ChannelJob) {
    j !in v.queue.ready && j !in v.queue.waiting && j !in v.running && j !in v.failed
  }

  /** The job runs in exactly the channels from its own to the root, and in no other way is it anywhere. */
  ghost predicate RunsToRoot(w: World, j: ChannelJob) {
    forall d | d in w ::
      && j !in w[d].queue.ready && j !in w[d].queue.waiting && j !in w[d].failed
      && (j in w[d].running <==> OnPath(j.channel, d))
  }

  /** The job is queued in `q`, an ancestor of its channel, and runs in exactly the channels below that. */
  ghost predicate RunsBelow(w: World, j: ChannelJob, q: Channel) {
    && q in w && q != j.channel && OnPath(j.channel, q)
    && forall d | d in w ::
      && j !in w[d].failed && (j in Jobs(w[d].queue) <==> d == q)
      && (j in w[d].running <==> OnPath(j.channel, d) && OnPath(d, q) && d != q)
  }

  /**
   * A job that is done, cancelled or no more is in no channel; a failed one is failed in its own channel only; a
   * pending one is queued in its own channel only; an enqueued or started one runs from its channel to the root,
   * unless it was queued in an ancestor, where it stays; a waiting one is left alone.
   */
  ghost predicate InPlace(w: World, j: ChannelJob, state: Option<JobState>, w1: World) {
    match state
    case Some(Failed) => forall d | d in w1 ::
      j !in w1[d].queue.ready && j !in w1[d].queue.waiting && j !in w1[d].running
      && (j in w1[d].failed <==> d == j.channel)
    case Some(Pending) => forall d | d in w1 ::
      j !in w1[d].running && j !in w1[d].failed && (j in Jobs(w1[d].queue) <==> d == j.channel)
    case Some(Enqueued) => RunsToRoot(w1, j) || exists q | q in w :: RunsBelow(w, j, q) && RunsBelow(w1, j, q)
    case Some(Started) => RunsToRoot(w1, j) || exists q | q in w :: RunsBelow(w, j, q) && RunsBelow(w1, j, q)
    case Some(WaitDependencies) => forall d | d in w && d in w1 ::
      && (j in w1[d].queue.ready <==> j in w[d].queue.ready)
      && (j in w1[d].queue.waiting <==> j in w[d].queue.waiting)
      && (j in w1[d].running <==> j in w[d].running) && (j in w1[d].failed <==> j in w[d].failed)
    case Some(Done) => forall d | d in w1 :: Gone(w1[d], j)
    case Some(Cancelled) => forall d | d in w1 :: Gone(w1[d], j)
    case None => forall d | d in w1 :: Gone(w1[d], j)
  }

  /** A job that becomes queued waits for its eta, or is ready when it has none. */
  ghost predicate QueuedByEta(w: World, j: ChannelJob, eta: nat, w1: World)
    requires j.channel in w && j.channel in w1
  {
    j !in Jobs(w[j.channel].queue) ==>
      var q := w1[j.channel].queue;
      if eta == 0 then j in q.ready && j !in q.waiting else j in q.waiting && q.waiting[j] == eta && j !in q.ready
  }

  lemma DestinationInPlace(w: World, j: ChannelJob, p: Position, state: Option<JobState>, w1: World)
    requires At(w, j, p) && At(w1, j, Destination(p, j.channel, state)) && w1.Keys == w.Keys
    requires state == Some(WaitDependencies) ==> w1 == w
    ensures InPlace(w, j, state, w1)
  {
    hide OnPath;
    match state
    case Some(Enqueued) => KeepsRunning(w, j, p, w1);
    case Some(Started) => KeepsRunning(w, j, p, w1);
    case Some(Pending) =>
      forall d | d in w1 && OnPath(j.channel, d) && OnPath(d, j.channel) ensures d == j.channel {
        if d != j.channel { PathIsAntisymmetric(j.channel, d); }
      }
    case _ =>
  }

  lemma KeepsRunning(w: World, j: ChannelJob, p: Position, w1: World)
    requires At(w, j, p) && At(w1, j, if p.Queued? && p.channel != j.channel then p else Running)
    requires w1.Keys == w.Keys
    ensures RunsToRoot(w1, j) || exists q | q in w :: RunsBelow(w, j, q) && RunsBelow(w1, j, q)
  {
    if p.Queued? && p.channel != j.channel {
      assert RunsBelow(w, j, p.channel) && RunsBelow(w1, j, p.channel);
    }
  }

  lemma PendingByEta(w: World, j: ChannelJob, eta: nat)
    requires Tree(w) && j.channel in w
    requires j !in w[j.channel].queue.ready && j !in w[j.channel].queue.waiting
    ensures j.channel in PendingUp(w, j.channel, j, eta)
    ensures QueuedByEta(w, j, eta, PendingUp(w, j.channel, j, eta))
  {
    if j.channel.parent != null {
      ParentInTree(w, j.channel);
      NotBelow(j.channel.parent, j.channel);
    }
  }

  lemma AppliedInPlace(w: World, j: ChannelJob, eta: nat, state: Option<JobState>)
    requires Tree(w) && AllLocated(w) && j.channel in w
    ensures Apply(w, j, eta, state).Keys == w.Keys && InPlace(w, j, state, Apply(w, j, eta, state))
    ensures state == Some(Pending) ==> QueuedByEta(w, j, eta, Apply(w, j, eta, state))
    ensures forall x | x in AllPresent(w) + AllPresent(Apply(w, j, eta, state)) && x != j ::
      Unmoved(w, Apply(w, j, eta, state), x)
  {
    hide AllLocated, Tree, OnPath, PositionFrom, InPlace, At, RemoveUp, RunningUp, FailedUp, PendingUp, Unmoved;
    HasPosition(w, j);
    ApplyLocates(w, j, eta, state);
    ApplyKeepsSettings(w, j, eta, state);
    DestinationInPlace(w, j, PositionFrom(w, j.channel, j), state, Apply(w, j, eta, state));
    if state == Some(Pending) && j !in Jobs(w[j.channel].queue) {
      PendingByEta(w, j, eta);
    }
  }

  /** A notification about a known job puts it in its place and moves no other. */
  lemma KeptInPlace(s: Schedule, root: Channel, j: ChannelJob, eta: nat, state: Option<JobState>, s1: Schedule)
    requires Consistent(s, root) && NotifiedKept(s, j, eta, state, s1)
    ensures InPlace(s.world, j, state, s1.world) && s1.world.Keys == s.world.Keys
    ensures state == Some(Pending) ==> QueuedByEta(s.world, j, eta, s1.world)
    ensures forall x | x in AllPresent(s.world) && x != j :: Unmoved(s.world, s1.world, x)
  {
    hide Apply, InPlace, Unmoved, AllPresent, Tree, AllLocated;
    AppliedInPlace(s.world, j, eta, state);
  }

  lemma GoneIsAbsent(v: ChannelView, j: ChannelJob)
    ensures Gone(v, j) <==> j !in Present(v)
  {
  }

  lemma StaysGone(r: World, w1: World, x: ChannelJob)
    requires w1.Keys == r.Keys && x !in AllPresent(r) && (x in AllPresent(w1) ==> Unmoved(r, w1, x))
    ensures forall d | d in w1 :: Gone(w1[d], x)
  {
    hide Unmoved, Present;
    forall d | d in w1 ensures Gone(w1[d], x) {
      GoneIsAbsent(w1[d], x);
      if x in Present(w1[d]) {
        assert x in AllPresent(w1);
        UnmovedPresent(r, w1, x, d);
      }
    }
  }

  lemma RemovedUnmoved(s: Schedule, root: Channel, uuid: string, x: ChannelJob)
    requires Consistent(s, root) && x in AllPresent(s.world) && (uuid in s.jobs ==> x != s.jobs[uuid])
    ensures Unmoved(s.world, Removed(s, uuid).world, x) && x in AllPresent(Removed(s, uuid).world)
  {
    hide RemoveUp, Unmoved, Tree, AllLocated;
    if uuid in s.jobs {
      SetDoneLocates(s.world, s.jobs[uuid]);
      var d :| d in s.world && x in Present(s.world[d]);
      RemoveUpKeepsSettings(s.world, s.jobs[uuid].channel, s.jobs[uuid]);
      UnmovedPresent(s.world, Removed(s, uuid).world, x, d);
    } else {
      UnmovedNot(s.world, x);
    }
  }

  /** For a job that is nowhere yet, it makes no difference whether another object was removed before. */
  lemma NewInPlace(w: World, r: World, j: ChannelJob, state: Option<JobState>, w1: World)
    requires w.Keys == r.Keys && w1.Keys == w.Keys && j !in AllPresent(w) && j !in AllPresent(r)
    requires InPlace(r, j, state, w1)
    ensures InPlace(w, j, state, w1)
    ensures state in {Some(Enqueued), Some(Started)} ==> RunsToRoot(w1, j)
  {
    hide OnPath, RunsToRoot;
    forall d | d in w ensures Gone(w[d], j) && Gone(r[d], j) {
      GoneIsAbsent(w[d], j);
      GoneIsAbsent(r[d], j);
    }
  }

  lemma NewByEta(w: World, r: World, j: ChannelJob, eta: nat, w1: World)
    requires w.Keys == r.Keys && w1.Keys == w.Keys && j.channel in w && j !in AllPresent(r)
    requires QueuedByEta(r, j, eta, w1)
    ensures QueuedByEta(w, j, eta, w1)
  {
    GoneIsAbsent(r[j.channel], j);
  }

  /**
   * A notification that replaces the job leaves nothing of the old object, puts the new one in its place, to the root
   * if it is enqueued or started, and moves no other.
   */
  lemma AnewInPlace(s: Schedule, root: Channel, j: ChannelJob, eta: nat, state: Option<JobState>, s1: Schedule)
    requires Consistent(s, root) && NotifiedAnew(s, j, eta, state, s1) && (j.uuid in s.jobs ==> s.jobs[j.uuid] != j)
    ensures InPlace(s.world, j, state, s1.world) && s1.world.Keys == s.world.Keys
    ensures state == Some(Pending) ==> QueuedByEta(s.world, j, eta, s1.world)
    ensures state in {Some(Enqueued), Some(Started)} ==> RunsToRoot(s1.world, j)
    ensures j.uuid in s.jobs ==> forall d | d in s1.world :: Gone(s1.world[d], s.jobs[j.uuid])
    ensures forall x | x in AllPresent(s.world) && (j.uuid in s.jobs ==> x != s.jobs[j.uuid]) ::
      Unmoved(s.world, s1.world, x)
  {
    hide Apply, InPlace, Unmoved, AllPresent, Tree, AllLocated, RunsToRoot, Gone, QueuedByEta, RemoveUp;
    var w, r, w1 := s.world, Removed(s, j.uuid).world, s1.world;
    RemovedConsistent(s, root, j.uuid);
    AppliedInPlace(r, j, eta, state);
    NewInPlace(w, r, j, state, w1);
    if state == Some(Pending) {
      NewByEta(w, r, j, eta, w1);
    }
    if j.uuid in s.jobs {
      StaysGone(r, w1, s.jobs[j.uuid]);
    }
    forall x | x in AllPresent(w) && (j.uuid in s.jobs ==> x != s.jobs[j.uuid]) ensures Unmoved(w, w1, x) {
      RemovedUnmoved(s, root, j.uuid, x);
      UnmovedTwice(w, r, w1, x);
    }
  }
}
