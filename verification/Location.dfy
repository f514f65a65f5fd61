/** Where a job can be in the tree of channels. */
module Location {
  import opened Sequences
  import opened Channels
  import opened Dispatching

  ghost function Active(v: ChannelView): set<ChannelJob> {
    Jobs(v.queue) + v.running
  }

  ghost function Present(v: ChannelView): set<ChannelJob> {
    Active(v) + v.failed
  }

  /** What holds of job `j` in channel `d`, in terms of `d` and its neighbours. */
  ghost predicate Located(w: World, d: Channel, j: ChannelJob)
    requires d in w
  {
    var v := w[d];
    && !(j in Jobs(v.queue) && j in v.running) && !(j in Active(v) && j in v.failed)
    && !(j in v.queue.ready && j in v.queue.waiting)
    && (j in Present(v) ==> j.channel in w && OnPath(j.channel, d))
    && (j in v.failed ==> j.channel == d)
    && (j in v.queue.waiting ==> j.channel == d)
    && (j in v.running && d.parent != null ==> d.parent in w && j in Active(w[d.parent]))
    && (j in Active(v) ==> forall k | k in v.children && OnPath(j.channel, k) :: k in w && j in w[k].running)
  }

  ghost predicate AllLocated(w: World) {
    forall d | d in w :: forall j | j in Present(w[d]) :: Located(w, d, j)
  }

  ghost predicate Nowhere(w: World, j: ChannelJob) {
    forall d | d in w :: j !in Present(w[d])
  }

  /** The change from `w` to `w1` does not concern job `j`. */
  ghost predicate Unmoved(w: World, w1: World, j: ChannelJob) {
    && w1.Keys == w.Keys
    && forall d | d in w ::
      && w1[d].children == w[d].children
      && (j in w1[d].queue.ready <==> j in w[d].queue.ready)
      && (j in w1[d].queue.waiting <==> j in w[d].queue.waiting)
      && (j in w1[d].running <==> j in w[d].running)
      && (j in w1[d].failed <==> j in w[d].failed)
  }

  lemma UnmovedLocated(w: World, w1: World, d: Channel, j: ChannelJob)
    requires Tree(w) && d in w && Unmoved(w, w1, j) && Located(w, d, j)
    ensures Located(w1, d, j)
  {
  }

  // ----- The three positions of a live job -----

  datatype Position = Absent | Failed | Queued(channel: Channel) | Running

  /** Failed in its own channel; or queued in one channel and running upstream; or running down to the root. */
  ghost predicate At(w: World, j: ChannelJob, p: Position) {
    match p
    case Absent => forall d | d in w :: j !in Present(w[d])
    case Failed => forall d | d in w :: j !in Active(w[d]) && (j in w[d].failed <==> d == j.channel)
    case Queued(q) => q in w && OnPath(j.channel, q) && forall d | d in w ::
      && j !in w[d].failed
      && (j in Jobs(w[d].queue) <==> d == q)
      && (j in w[d].running <==> OnPath(j.channel, d) && OnPath(d, q) && d != q)
    case Running => forall d | d in w ::
      j !in Jobs(w[d].queue) && j !in w[d].failed && (j in w[d].running <==> OnPath(j.channel, d))
  }

  ghost function PositionFrom(w: World, c: Channel, j: ChannelJob): Position
    decreases c.depth
  {
    if c !in w then Absent
    else if j in Jobs(w[c].queue) then Queued(c)
    else if j in w[c].running then
      if c.parent == null || c.parent.depth >= c.depth then Running else PositionFrom(w, c.parent, j)
    else if j in w[c].failed then Failed
    else Absent
  }

  lemma {:induction false} PathIsLinear(a: Channel, c: Channel, d: Channel)
    requires OnPath(a, c) && OnPath(a, d)
    ensures OnPath(c, d) || OnPath(d, c)
    decreases a.depth
  {
    if a != c && a != d { PathIsLinear(a.parent, c, d); }
  }

  lemma {:induction false} PathIsAntisymmetric(c: Channel, d: Channel)
    requires OnPath(c, d) && c != d
    ensures d.depth < c.depth && !OnPath(d, c)
    decreases c.depth
  {
    if c.parent != d { PathIsAntisymmetric(c.parent, d); }
    NotBelow(d, c);
  }

  /** A job not running in a channel on its path is neither queued nor running downstream of it. */
  lemma {:induction false} AbsentDownstream(w: World, c: Channel, d: Channel, j: ChannelJob)
    requires Tree(w) && AllLocated(w) && c in w && d in w && OnPath(j.channel, c) && j !in w[c].running
    requires OnPath(c, d) && c != d
    ensures j !in Active(w[d])
    decreases c.depth
  {
    ParentInTree(w, c);
    var p := c.parent;
    assert j in Active(w[p]) ==> Located(w, p, j);
    if d != p {
      OnPathRefl(p);
      assert OnPath(c, p);
      OnPathTransitive(j.channel, c, p);
      AbsentDownstream(w, p, d, j);
    }
  }

  ghost predicate RunningUpstream(w: World, c: Channel, j: ChannelJob) {
    forall d | d in w && OnPath(j.channel, d) && OnPath(d, c) && d != c :: j in w[d].running
  }

  lemma AtFront(w: World, c: Channel, j: ChannelJob)
    requires Tree(w) && AllLocated(w) && c in w && OnPath(j.channel, c) && RunningUpstream(w, c, j)
    requires j in Jobs(w[c].queue)
    ensures At(w, j, Queued(c))
  {
    forall d | d in w
      ensures j !in w[d].failed
      ensures j in Jobs(w[d].queue) <==> d == c
      ensures j in w[d].running <==> OnPath(j.channel, d) && OnPath(d, c) && d != c
    {
      assert Located(w, c, j);
      if j in Present(w[d]) {
        assert Located(w, d, j);
        PathIsLinear(j.channel, c, d);
        if !OnPath(d, c) { AbsentDownstream(w, c, d, j); }
        if d == j.channel && d != c { PathIsAntisymmetric(d, c); }
      }
    }
  }

  lemma {:induction false} HasPositionFrom(w: World, c: Channel, j: ChannelJob)
    requires Tree(w) && AllLocated(w) && c in w && OnPath(j.channel, c) && RunningUpstream(w, c, j)
    requires c != j.channel ==> j in Active(w[c])
    ensures At(w, j, PositionFrom(w, c, j))
    decreases c.depth
  {
    if j in Jobs(w[c].queue) {
      AtFront(w, c, j);
    } else if j in w[c].running {
      if c.parent == null {
        RunningToRoot(w, c, j);
      } else {
        ParentInTree(w, c);
        assert Located(w, c, j);
        OnPathRefl(c.parent);
        assert OnPath(c, c.parent);
        OnPathTransitive(j.channel, c, c.parent);
        forall d | d in w && OnPath(j.channel, d) && OnPath(d, c.parent) && d != c.parent ensures j in w[d].running {
          PathIsLinear(j.channel, c, d);
          if OnPath(c, d) && d != c {
            PathIsAntisymmetric(d, c.parent);
            PathIsAntisymmetric(c, d);
          }
        }
        HasPositionFrom(w, c.parent, j);
      }
    } else {
      AbsentOrFailed(w, j);
    }
  }

  lemma RunningToRoot(w: World, c: Channel, j: ChannelJob)
    requires Tree(w) && AllLocated(w) && c in w && OnPath(j.channel, c) && RunningUpstream(w, c, j)
    requires j in w[c].running && c.parent == null
    ensures At(w, j, Running)
  {
    forall d | d in w
      ensures j !in Jobs(w[d].queue) && j !in w[d].failed && (j in w[d].running <==> OnPath(j.channel, d))
    {
      assert j in Present(w[d]) ==> Located(w, d, j);
      if OnPath(j.channel, d) {
        PathIsLinear(j.channel, c, d);
      }
    }
  }

  lemma AbsentOrFailed(w: World, j: ChannelJob)
    requires Tree(w) && AllLocated(w) && j.channel in w && j !in Active(w[j.channel])
    ensures At(w, j, if j in w[j.channel].failed then Failed else Absent)
  {
    OnPathRefl(j.channel);
    forall d | d in w ensures j !in Active(w[d]) && (j in w[d].failed ==> d == j.channel) {
      if j in Present(w[d]) {
        assert Located(w, d, j);
        if d != j.channel { AbsentDownstream(w, j.channel, d, j); }
      }
    }
  }

  /** Every job is at exactly one position. */
  lemma HasPosition(w: World, j: ChannelJob)
    requires Tree(w) && AllLocated(w) && j.channel in w
    ensures At(w, j, PositionFrom(w, j.channel, j))
    ensures forall p: Position | At(w, j, p) :: p == PositionFrom(w, j.channel, j)
  {
    OnPathRefl(j.channel);
    forall d | d in w && OnPath(j.channel, d) && d != j.channel ensures !OnPath(d, j.channel) {
      PathIsAntisymmetric(j.channel, d);
    }
    HasPositionFrom(w, j.channel, j);
    forall p: Position | At(w, j, p) ensures p == PositionFrom(w, j.channel, j) {
      PositionIsUnique(w, j, p, PositionFrom(w, j.channel, j));
    }
  }

  lemma PositionIsUnique(w: World, j: ChannelJob, p: Position, q: Position)
    requires j.channel in w && At(w, j, p) && At(w, j, q)
    ensures p == q
  {
    OnPathRefl(j.channel);
    if p.Queued? { assert j in Jobs(w[p.channel].queue); }
    if q.Queued? { assert j in Jobs(w[q.channel].queue); }
  }

  // ----- Notifications keep every job located -----

  /** The world in which job `j` is at position `p` and every other job is where it was. */
  ghost predicate Moved(w: World, w1: World, j: ChannelJob, p: Position) {
    && At(w1, j, p)
    && forall x: ChannelJob | x in AllPresent(w) + AllPresent(w1) && x != j :: Unmoved(w, w1, x)
  }

  ghost function AllPresent(w: World): set<ChannelJob> {
    set d, j | d in w && j in Present(w[d]) :: j
  }

  lemma AtIsLocated(w: World, j: ChannelJob, p: Position, d: Channel)
    requires Tree(w) && At(w, j, p) && j.channel in w && d in w
    requires p.Queued? && j in w[p.channel].queue.waiting ==> p.channel == j.channel
    requires !(j in w[d].queue.ready && j in w[d].queue.waiting)
    ensures Located(w, d, j)
  {
    OnPathRefl(j.channel);
    if d.parent != null {
      ParentInTree(w, d);
      OnPathRefl(d.parent);
      assert OnPath(d, d.parent);
      if OnPath(j.channel, d) { OnPathTransitive(j.channel, d, d.parent); }
    }
    if p.Queued? {
      var q := p.channel;
      forall k | k in w[d].children && OnPath(j.channel, k) && j in Active(w[d]) ensures k in w && j in w[k].running {
        assert k.parent == d && OnPath(d, d) && OnPath(k, d);
        OnPathTransitive(k, d, q);
        if d != q { PathIsAntisymmetric(d, q); }
      }
    }
  }

  lemma MovedIsLocated(w: World, w1: World, j: ChannelJob, p: Position)
    requires Tree(w) && Tree(w1) && w1.Keys == w.Keys && AllLocated(w) && j.channel in w && Moved(w, w1, j, p)
    requires forall d | d in w && j in w1[d].queue.waiting :: d == j.channel && j !in w1[d].queue.ready
    ensures AllLocated(w1)
  {
    hide Located, Tree, Unmoved, OnPath;
    forall d, x | d in w && x in Present(w1[d]) ensures Located(w1, d, x) {
      if x == j {
        AtIsLocated(w1, j, p, d);
      } else {
        assert x in AllPresent(w1);
        assert x in Present(w[d]) by { UnmovedPresent(w, w1, x, d); }
        UnmovedLocated(w, w1, d, x);
      }
    }
  }

  lemma UnmovedPresent(w: World, w1: World, x: ChannelJob, d: Channel)
    requires d in w && Unmoved(w, w1, x)
    ensures x in Present(w1[d]) <==> x in Present(w[d])
  {
  }

  lemma RemoveUpUnmoved(w: World, c: Channel, j: ChannelJob, x: ChannelJob)
    requires x != j
    ensures Unmoved(w, RemoveUp(w, c, j), x)
  {
  }

  lemma RemoveUpMoves(w: World, j: ChannelJob)
    requires Tree(w) && AllLocated(w)
    ensures Tree(RemoveUp(w, j.channel, j)) && Moved(w, RemoveUp(w, j.channel, j), j, Absent)
  {
    hide Unmoved;
    var w1 := RemoveUp(w, j.channel, j);
    TreeKept(w, w1);
    forall x | x in AllPresent(w) + AllPresent(w1) && x != j ensures Unmoved(w, w1, x) {
      RemoveUpUnmoved(w, j.channel, j, x);
    }
    forall d | d in w ensures j !in Present(w1[d]) {
      RemovedHere(w, d, j);
    }
  }

  lemma RemovedHere(w: World, d: Channel, j: ChannelJob)
    requires AllLocated(w) && d in w
    ensures j !in Present(RemoveUp(w, j.channel, j)[d])
  {
    assert j in Present(w[d]) ==> Located(w, d, j);
  }

  lemma UnmovedTwice(w: World, w1: World, w2: World, x: ChannelJob)
    requires Unmoved(w, w1, x) && Unmoved(w1, w2, x)
    ensures Unmoved(w, w2, x)
  {
  }

  lemma UnmovedNot(w: World, x: ChannelJob)
    ensures Unmoved(w, w, x)
  {
  }

  ghost function RemoveBelow(w: World, c: Channel, j: ChannelJob): World {
    if c.parent == null then w else RemoveUp(w, c.parent, j)
  }

  lemma RemoveBelowUnmoved(w: World, c: Channel, j: ChannelJob, x: ChannelJob)
    requires x != j
    ensures Unmoved(w, RemoveBelow(w, c, j), x)
  {
    UnmovedNot(w, x);
    if c.parent != null { RemoveUpUnmoved(w, c.parent, j, x); }
  }

  /** Changing job `j` in its own channel and removing it downstream leaves it in that channel only. */
  lemma OnlyInOwnChannel(w: World, v: ChannelView, j: ChannelJob, d: Channel)
    requires Tree(w) && AllLocated(w) && j.channel in w && d in w && d != j.channel
    ensures d in RemoveBelow(w[j.channel := v], j.channel, j)
    ensures j !in Present(RemoveBelow(w[j.channel := v], j.channel, j)[d])
  {
    assert j in Present(w[d]) ==> Located(w, d, j);
    if j.channel.parent != null { ParentInTree(w, j.channel); }
  }

  lemma OwnChannelKept(w: World, v: ChannelView, j: ChannelJob)
    requires Tree(w) && j.channel in w && v.children == w[j.channel].children
    ensures var w2 := RemoveBelow(w[j.channel := v], j.channel, j); Tree(w2) && w2.Keys == w.Keys && w2[j.channel] == v
  {
    var w2 := RemoveBelow(w[j.channel := v], j.channel, j);
    TreeKept(w, w2);
    if j.channel.parent != null {
      ParentInTree(w, j.channel);
      NotBelow(j.channel.parent, j.channel);
    }
  }

  lemma OneChannelUnmoved(w: World, c: Channel, v: ChannelView, x: ChannelJob)
    requires c in w && v.children == w[c].children
    requires (x in v.queue.ready <==> x in w[c].queue.ready) && (x in v.queue.waiting <==> x in w[c].queue.waiting)
    requires (x in v.running <==> x in w[c].running) && (x in v.failed <==> x in w[c].failed)
    ensures Unmoved(w, w[c := v], x)
  {
  }

  ghost predicate SameButFor(v: ChannelView, v1: ChannelView, j: ChannelJob) {
    && v1.children == v.children
    && v1.queue.ready - {j} == v.queue.ready - {j} && v1.queue.waiting.Keys - {j} == v.queue.waiting.Keys - {j}
    && v1.running - {j} == v.running - {j} && v1.failed - {j} == v.failed - {j}
  }

  lemma OwnChannelMoves(w: World, v: ChannelView, j: ChannelJob, p: Position)
    requires Tree(w) && AllLocated(w) && j.channel in w && SameButFor(w[j.channel], v, j)
    requires p == Failed || p == Queued(j.channel)
    requires p == Failed ==> j !in Active(v) && j in v.failed
    requires p == Queued(j.channel) ==> j in Jobs(v.queue) && j !in v.running && j !in v.failed
    ensures Moved(w, RemoveBelow(w[j.channel := v], j.channel, j), j, p)
  {
    hide Unmoved, Tree, RemoveBelow;
    var c := j.channel;
    var w1 := w[c := v];
    var w2 := RemoveBelow(w1, c, j);
    OwnChannelKept(w, v, j);
    OnPathRefl(c);
    forall d | d in w && d != c ensures j !in Present(w2[d]) && (OnPath(c, d) ==> !OnPath(d, c)) {
      OnlyInOwnChannel(w, v, j, d);
      if OnPath(c, d) { PathIsAntisymmetric(c, d); }
    }
    forall x | x in AllPresent(w) + AllPresent(w2) && x != j ensures Unmoved(w, w2, x) {
      SameMembers(w[c], v, j, x);
      OneChannelUnmoved(w, c, v, x);
      RemoveBelowUnmoved(w1, c, j, x);
      UnmovedTwice(w, w1, w2, x);
    }
  }

  lemma SameMembers(v: ChannelView, v1: ChannelView, j: ChannelJob, x: ChannelJob)
    requires SameButFor(v, v1, j) && x != j
    ensures (x in v1.queue.ready <==> x in v.queue.ready) && (x in v1.queue.waiting <==> x in v.queue.waiting)
    ensures (x in v1.running <==> x in v.running) && (x in v1.failed <==> x in v.failed)
  {
    assert x in v1.queue.ready - {j} <==> x in v.queue.ready - {j};
    assert x in v1.queue.waiting.Keys - {j} <==> x in v.queue.waiting.Keys - {j};
    assert x in v1.running - {j} <==> x in v.running - {j};
    assert x in v1.failed - {j} <==> x in v.failed - {j};
  }

  // ----- Each notification keeps every job located, and says where its job then is -----

  lemma SetDoneLocates(w: World, j: ChannelJob)
    requires Tree(w) && AllLocated(w) && j.channel in w
    ensures var w1 := RemoveUp(w, j.channel, j); Tree(w1) && AllLocated(w1) && Moved(w, w1, j, Absent)
  {
    var w1 := RemoveUp(w, j.channel, j);
    RemoveUpMoves(w, j);
    forall d | d in w ensures j !in w1[d].queue.waiting {
      assert j !in Present(w1[d]);
    }
    MovedIsLocated(w, w1, j, Absent);
  }

  lemma SetPendingLocates(w: World, j: ChannelJob, eta: nat)
    requires Tree(w) && AllLocated(w) && j.channel in w
    ensures var w1 := PendingUp(w, j.channel, j, eta);
      Tree(w1) && AllLocated(w1) && Moved(w, w1, j, Queued(j.channel))
  {
    var c := j.channel;
    var w1 := PendingUp(w, c, j, eta);
    if j in Jobs(w[c].queue) {
      HasPosition(w, j);
      forall x ensures Unmoved(w, w, x) { UnmovedNot(w, x); }
    } else {
      var v := AsPending(w[c], j, eta);
      assert w1 == RemoveBelow(w[c := v], c, j);
      hide Tree, Unmoved, PendingUp, Located;
      OwnChannelMoves(w, v, j, Queued(c));
      OwnChannelKept(w, v, j);
      forall d | d in w && j in w1[d].queue.waiting ensures d == c && j !in w1[d].queue.ready {
        assert j in Jobs(w1[d].queue);
      }
      MovedIsLocated(w, w1, j, Queued(c));
    }
  }

  lemma SetFailedLocates(w: World, j: ChannelJob)
    requires Tree(w) && AllLocated(w) && j.channel in w
    ensures var w1 := FailedUp(w, j.channel, j); Tree(w1) && AllLocated(w1) && Moved(w, w1, j, Failed)
  {
    var c := j.channel;
    var w1 := FailedUp(w, c, j);
    if j in w[c].failed {
      assert Located(w, c, j);
      HasPosition(w, j);
      forall x ensures Unmoved(w, w, x) { UnmovedNot(w, x); }
    } else {
      var v := AsFailed(w[c], j);
      assert w1 == RemoveBelow(w[c := v], c, j);
      hide Tree, Unmoved, FailedUp, Located;
      OwnChannelMoves(w, v, j, Failed);
      OwnChannelKept(w, v, j);
      forall d | d in w ensures j !in w1[d].queue.waiting {
        assert j !in Active(w1[d]);
      }
      MovedIsLocated(w, w1, j, Failed);
    }
  }

  ghost function AllRunning(w: World, c: Channel, j: ChannelJob): World {
    map d | d in w :: if OnPath(c, d) then AsRunning(w[d], j) else w[d]
  }

  lemma {:induction false} RunningUpAll(w: World, c: Channel, j: ChannelJob)
    requires Tree(w) && c in w && forall d | d in w && OnPath(c, d) :: j !in w[d].running
    ensures RunningUp(w, c, j) == AllRunning(w, c, j)
    decreases c.depth
  {
    hide AsRunning, Tree;
    OnPathRefl(c);
    var w1 := w[c := AsRunning(w[c], j)];
    RunningKeepsChildren(w[c], j);
    TreeKept(w, w1);
    if c.parent == null {
      assert w1 == AllRunning(w, c, j);
    } else {
      ParentInTree(w, c);
      NotBelow(c.parent, c);
      RunningUpAll(w1, c.parent, j);
      assert AllRunning(w1, c.parent, j) == AllRunning(w, c, j);
    }
  }

  lemma RunningKeepsChildren(v: ChannelView, j: ChannelJob)
    ensures AsRunning(v, j).children == v.children
  {
  }

  lemma NotRunningOnPath(w: World, j: ChannelJob, d: Channel)
    requires Tree(w) && AllLocated(w) && j.channel in w && d in w && OnPath(j.channel, d) && j !in w[j.channel].running
    ensures j !in w[d].running
  {
    OnPathRefl(j.channel);
    if d != j.channel { AbsentDownstream(w, j.channel, d, j); }
  }

  lemma AllRunningUnmoved(w: World, c: Channel, j: ChannelJob, x: ChannelJob)
    requires x != j
    ensures Unmoved(w, AllRunning(w, c, j), x)
  {
  }

  lemma AllRunningMoves(w: World, j: ChannelJob)
    requires Tree(w) && AllLocated(w)
    ensures var w1 := AllRunning(w, j.channel, j); Tree(w1) && At(w1, j, Running)
  {
    var w1 := AllRunning(w, j.channel, j);
    TreeKept(w, w1);
    forall d | d in w
      ensures j !in Jobs(w1[d].queue) && j !in w1[d].failed && (j in w1[d].running <==> OnPath(j.channel, d))
    {
      assert j in Present(w[d]) ==> Located(w, d, j);
    }
  }

  /**
   * `set_running` marks a job running down to the root, except that it leaves a job alone
   * that already runs in its own channel and is still queued downstream.
   */
  lemma SetRunningLocates(w: World, j: ChannelJob)
    requires Tree(w) && AllLocated(w) && j.channel in w
    ensures var w1 := RunningUp(w, j.channel, j); Tree(w1) && AllLocated(w1)
    ensures var p := PositionFrom(w, j.channel, j);
      Moved(w, RunningUp(w, j.channel, j), j, if p.Queued? && p.channel != j.channel then p else Running)
  {
    var c := j.channel;
    var p := PositionFrom(w, c, j);
    HasPosition(w, j);
    OnPathRefl(c);
    if j in w[c].running {
      assert Located(w, c, j);
      forall x ensures Unmoved(w, w, x) { UnmovedNot(w, x); }
      StillRunningHere(w, j);
    } else {
      assert !(p.Queued? && p.channel != c);
      forall d | d in w && OnPath(c, d) ensures j !in w[d].running { NotRunningOnPath(w, j, d); }
      RunningUpAll(w, c, j);
      var w1 := AllRunning(w, c, j);
      AllRunningMoves(w, j);
      hide Tree, Unmoved, RunningUp, Located, AllRunning, PositionFrom;
      forall x | x in AllPresent(w) + AllPresent(w1) && x != j ensures Unmoved(w, w1, x) {
        AllRunningUnmoved(w, c, j, x);
      }
      AllRunningKeys(w, c, j);
      forall d | d in w ensures j !in w1[d].queue.waiting {
        assert j !in Jobs(w1[d].queue);
      }
      MovedIsLocated(w, w1, j, Running);
    }
  }

  lemma AllRunningKeys(w: World, c: Channel, j: ChannelJob)
    ensures AllRunning(w, c, j).Keys == w.Keys
  {
  }

  lemma StillRunningHere(w: World, j: ChannelJob)
    requires Tree(w) && AllLocated(w) && j.channel in w && j in w[j.channel].running
    ensures var p := PositionFrom(w, j.channel, j); p == Running || (p.Queued? && p.channel != j.channel)
  {
    HasPosition(w, j);
    OnPathRefl(j.channel);
  }

  // ----- A dispatch keeps every job located, and moves jobs only towards the root -----

  lemma YieldsMoves(v: ChannelView, now: nat, out: seq<ChannelJob>, v1: ChannelView)
    requires Yields(v, now, out, v1) && v.queue.ready !! v.queue.waiting.Keys
    ensures Elements(out) <= Jobs(v.queue) && Jobs(v1.queue) == Jobs(v.queue) - Elements(out)
    ensures v1.running == v.running + Elements(out) && v1.failed == v.failed && v1.children == v.children
    ensures v1.queue.waiting.Keys <= v.queue.waiting.Keys && v1.queue.ready !! v1.queue.waiting.Keys
  {
    hide NothingToPop, HasCapacity;
    var u := if v.throttle != 0 then v.(pauseUntil := 0) else v;
    var m := Mature(v.queue, now);
    assert Jobs(m) == Jobs(v.queue);
    if !(v.throttle != 0 && v.pauseUntil != 0 && now < v.pauseUntil) {
      forall k | 0 <= k < |out| ensures out[k] in m.ready {
        assert PopOk(u, now, out, k);
        var a := AfterPops(u, now, out[..k]);
        MatureIdempotent(u.queue, now);
      }
      MatureIdempotent(u.queue, now);
    }
  }

  ghost predicate Rooted(w: World, root: Channel) {
    root in w && root.parent == null && forall d | d in w :: OnPath(d, root)
  }

  /** `j` enters `d` from upstream. */
  ghost predicate Arrives(w: World, d: Channel, j: ChannelJob)
    requires d in w
  {
    j.channel in w && OnPath(j.channel, d) && j.channel != d && j !in Present(w[d])
  }

  /** `j` leaves the queue of `d` downstream. */
  ghost predicate Departs(w: World, d: Channel, j: ChannelJob)
    requires d in w
  {
    j.channel in w && OnPath(j.channel, d) && j !in w[d].running && j !in w[d].failed
  }

  lemma InflowArrives(w: World, d: Channel, outs: Outs)
    requires Tree(w) && AllLocated(w) && d in w
    requires forall k | k in w[d].children && k in outs :: k in w && forall j | j in outs[k] :: Departs(w, k, j)
    ensures forall j | j in Inflow(outs, w[d].children) :: Arrives(w, d, j)
  {
    hide Tree;
    forall j | j in Inflow(outs, w[d].children) ensures Arrives(w, d, j) {
      var k :| k in w[d].children && k in outs && j in outs[k];
      assert Departs(w, k, j);
      BelowKid(w, d, k, j.channel);
      assert j in Present(w[d]) ==> Located(w, d, j);
    }
  }

  /** The part of `Dispatched` that tells where jobs are. */
  ghost predicate Flows(w: World, d: Channel, outs: Outs, w1: World)
    requires d in w && d in w1 && d in outs
  {
    var v, v1, inflow, out := w[d], w1[d], Inflow(outs, w[d].children), Elements(outs[d]);
    && (forall j | j in inflow :: Arrives(w, d, j))
    && (forall j | j in out :: Departs(w, d, j))
    && out <= Jobs(v.queue) + inflow
    && Jobs(v1.queue) == Jobs(v.queue) + inflow - out
    && v1.running == v.running + out && v1.failed == v.failed && v1.children == v.children
    && v1.queue.waiting.Keys <= v.queue.waiting.Keys && v1.queue.ready !! v1.queue.waiting.Keys
  }

  lemma FlowsHere(w: World, now: nat, d: Channel, outs: Outs, w1: World)
    requires Tree(w) && AllLocated(w) && d in w && d in w1 && d in outs && DispatchedAt(w, d, now, outs, w1)
    requires forall k | k in w[d].children && k in outs :: k in w && forall j | j in outs[k] :: Departs(w, k, j)
    ensures Flows(w, d, outs, w1)
  {
    hide Yields, Tree;
    InflowArrives(w, d, outs);
    var inflow := Inflow(outs, w[d].children);
    var v := Receive(w[d], inflow);
    assert v.queue.ready !! v.queue.waiting.Keys by {
      forall j | j in w[d].queue.waiting ensures j !in v.queue.ready {
        assert Located(w, d, j);
        assert j in inflow ==> Arrives(w, d, j);
      }
    }
    YieldsMoves(v, now, outs[d], w1[d]);
    forall j | j in Elements(outs[d]) ensures Departs(w, d, j) {
      if j in inflow {
        assert Arrives(w, d, j);
      } else {
        assert Located(w, d, j);
      }
    }
  }

  lemma {:induction false} DispatchFlows(w: World, top: Channel, now: nat, outs: Outs, w1: World, d: Channel)
    requires Tree(w) && AllLocated(w) && Dispatched(w, top, now, outs, w1) && d in outs
    ensures d in w && d in w1 && Flows(w, d, outs, w1)
    decreases Deeper(w.Keys, d)
  {
    KidsAreDeeper(w, d);
    hide Tree, Yields, Departs, Deeper, DispatchedAt;
    forall k | k in w[d].children && k in outs ensures k in w && forall j | j in outs[k] :: Departs(w, k, j) {
      DispatchFlows(w, top, now, outs, w1, k);
      assert forall j | j in outs[k] :: j in Elements(outs[k]);
    }
    FlowsHere(w, now, d, outs, w1);
  }

  ghost predicate AllFlow(w: World, outs: Outs, w1: World) {
    w1.Keys == w.Keys == outs.Keys && forall d | d in w :: Flows(w, d, outs, w1)
  }

  lemma AllFlows(w: World, root: Channel, now: nat, outs: Outs, w1: World)
    requires Tree(w) && AllLocated(w) && Rooted(w, root) && Dispatched(w, root, now, outs, w1)
    ensures AllFlow(w, outs, w1)
  {
    hide Tree, Flows, Yields;
    forall d | d in w ensures Flows(w, d, outs, w1) {
      DispatchFlows(w, root, now, outs, w1, d);
    }
  }

  lemma FlowsDownstream(w: World, outs: Outs, w1: World, d: Channel, j: ChannelJob)
    requires Tree(w) && AllLocated(w) && AllFlow(w, outs, w1) && d in w && d.parent != null && j in w1[d].running
    ensures d.parent in w && j in Active(w1[d.parent])
  {
    var p := d.parent;
    ParentInTree(w, d);
    assert Flows(w, d, outs, w1) && Flows(w, p, outs, w1);
    if j in w[d].running {
      assert Located(w, d, j);
    } else {
      assert j in Inflow(outs, w[p].children);
    }
  }

  lemma FlowsUpstream(w: World, outs: Outs, w1: World, d: Channel, k: Channel, j: ChannelJob)
    requires Tree(w) && AllLocated(w) && AllFlow(w, outs, w1) && d in w && j in Active(w1[d])
    requires k in w[d].children && OnPath(j.channel, k)
    ensures k in w && j in w1[k].running
  {
    assert k.depth == d.depth + 1;
    assert Flows(w, d, outs, w1) && Flows(w, k, outs, w1);
    if j in Active(w[d]) {
      assert Located(w, d, j);
    } else {
      var k2 :| k2 in w[d].children && k2 in outs && j in outs[k2];
      assert k2.depth == d.depth + 1;
      assert Flows(w, k2, outs, w1);
      assert Departs(w, k2, j) by { assert j in Elements(outs[k2]); }
      DisjointSubtrees(j.channel, k, k2);
    }
  }

  lemma DispatchLocates(w: World, root: Channel, now: nat, outs: Outs, w1: World)
    requires Tree(w) && AllLocated(w) && Rooted(w, root) && Dispatched(w, root, now, outs, w1)
    ensures Tree(w1) && AllLocated(w1)
  {
    hide Yields, Dispatched;
    AllFlows(w, root, now, outs, w1);
    assert forall d | d in w :: w1[d].children == w[d].children by {
      assert forall d | d in w :: Flows(w, d, outs, w1);
    }
    TreeKept(w, w1);
    forall d, j | d in w1 && j in Present(w1[d]) ensures Located(w1, d, j) {
      LocatedAfter(w, outs, w1, d, j);
    }
  }

  lemma MembersAfter(w: World, outs: Outs, w1: World, d: Channel, j: ChannelJob)
    requires AllLocated(w) && d in w && d in w1 && d in outs && Flows(w, d, outs, w1) && j in Present(w1[d])
    ensures var v := w1[d];
      && !(j in Jobs(v.queue) && j in v.running) && !(j in Active(v) && j in v.failed)
      && !(j in v.queue.ready && j in v.queue.waiting)
      && j.channel in w && OnPath(j.channel, d)
      && (j in v.failed ==> j.channel == d)
      && (j in v.queue.waiting ==> j.channel == d)
  {
    hide OnPath;
    assert j in Present(w[d]) ==> Located(w, d, j);
    assert j in Inflow(outs, w[d].children) ==> Arrives(w, d, j);
    assert j in Elements(outs[d]) ==> Departs(w, d, j);
  }

  lemma LocatedAfter(w: World, outs: Outs, w1: World, d: Channel, j: ChannelJob)
    requires Tree(w) && AllLocated(w) && AllFlow(w, outs, w1) && d in w && j in Present(w1[d])
    ensures Located(w1, d, j)
  {
    assert Flows(w, d, outs, w1);
    hide Tree, Flows, AllFlow, OnPath, AllLocated, Present, Active;
    MembersAfter(w, outs, w1, d, j);
    if j in w1[d].running && d.parent != null { FlowsDownstream(w, outs, w1, d, j); }
    forall k | k in w1[d].children && OnPath(j.channel, k) && j in Active(w1[d]) ensures k in w1 && j in w1[k].running {
      FlowsKeepsChildren(w, outs, w1, d);
      FlowsUpstream(w, outs, w1, d, k, j);
    }
  }

  lemma FlowsKeepsChildren(w: World, outs: Outs, w1: World, d: Channel)
    requires d in w && d in w1 && d in outs && Flows(w, d, outs, w1)
    ensures w1[d].children == w[d].children
  {
  }

  lemma {:induction false} OutsWereQueued(w: World, outs: Outs, w1: World, d: Channel, j: ChannelJob)
    requires Tree(w) && AllFlow(w, outs, w1) && d in w && j in outs[d]
    ensures j in AllPresent(w)
    decreases Deeper(w.Keys, d)
  {
    OutWasQueuedOrInflow(w, outs, w1, d, j);
    hide AllFlow, Deeper, Tree, AllPresent;
    if j in Inflow(outs, w[d].children) {
      var k :| k in w[d].children && k in outs && j in outs[k];
      KidsAreDeeper(w, d);
      OutsWereQueued(w, outs, w1, k, j);
    }
  }

  lemma OutWasQueuedOrInflow(w: World, outs: Outs, w1: World, d: Channel, j: ChannelJob)
    requires AllFlow(w, outs, w1) && d in w && j in outs[d]
    ensures j in AllPresent(w) || j in Inflow(outs, w[d].children)
  {
    assert Flows(w, d, outs, w1) && j in Elements(outs[d]);
    hide Inflow, Arrives, Departs;
    assert j in Jobs(w[d].queue) ==> j in Present(w[d]);
  }

  lemma AbsentStays(w: World, outs: Outs, w1: World, j: ChannelJob)
    requires Tree(w) && AllFlow(w, outs, w1) && At(w, j, Absent)
    ensures At(w1, j, Absent)
  {
    forall d | d in w1 ensures j !in Present(w1[d]) {
      assert Flows(w, d, outs, w1);
      if j in Present(w1[d]) {
        var k :| k in outs && j in outs[k];
        OutsWereQueued(w, outs, w1, k, j);
      }
    }
  }

  lemma QueuedAdvances(w: World, outs: Outs, w1: World, j: ChannelJob, q: Channel, p: Position)
    requires Tree(w) && AllFlow(w, outs, w1) && j.channel in w && At(w, j, Queued(q)) && At(w1, j, p)
    ensures p == Running || (p.Queued? && OnPath(q, p.channel))
  {
    assert Flows(w, q, outs, w1);
    if p.Queued? {
      var q1 := p.channel;
      PathIsLinear(j.channel, q, q1);
      if !OnPath(q, q1) {
        assert Flows(w, q1, outs, w1);
      }
    }
  }

  /**
   * A fully consumed dispatch loses no job and invents none, moves a queued job only towards the
   * root, leaves the others in place, and yields exactly the jobs that begin to run at the root.
   */
  lemma DispatchIsConservative(w: World, root: Channel, now: nat, outs: Outs, w1: World, j: ChannelJob)
    requires Tree(w) && AllLocated(w) && Rooted(w, root) && Dispatched(w, root, now, outs, w1) && j.channel in w
    ensures root in outs
    ensures var p, p1 := PositionFrom(w, j.channel, j), PositionFrom(w1, j.channel, j);
      && (!p.Queued? ==> p1 == p)
      && (p.Queued? ==> p1 == Running || (p1.Queued? && OnPath(p.channel, p1.channel)))
      && (j in outs[root] <==> p != Running && p1 == Running)
  {
    hide Dispatched;
    AllFlows(w, root, now, outs, w1);
    DispatchLocates(w, root, now, outs, w1);
    hide Yields, Tree, AllLocated;
    HasPosition(w, j);
    HasPosition(w1, j);
    var p, p1 := PositionFrom(w, j.channel, j), PositionFrom(w1, j.channel, j);
    hide PositionFrom;
    OnPathRefl(j.channel);
    assert Flows(w, root, outs, w1) && Flows(w, j.channel, outs, w1);
    RunningAtRoot(w, root, j, p);
    RunningAtRoot(w1, root, j, p1);
    match p {
      case Absent => AbsentStays(w, outs, w1, j); PositionIsUnique(w1, j, p1, Absent);
      case Failed =>
      case Running =>
      case Queued(q) => QueuedAdvances(w, outs, w1, j, q, p1);
    }
    assert j in outs[root] <==> j in w1[root].running && j !in w[root].running by {
      assert j in outs[root] <==> j in Elements(outs[root]);
      assert j in outs[root] ==> Departs(w, root, j);
    }
  }

  lemma RunningAtRoot(w: World, root: Channel, j: ChannelJob, p: Position)
    requires Rooted(w, root) && j.channel in w && At(w, j, p)
    ensures p == Running <==> j in w[root].running
  {
  }
}
