/**
 * What a channel yields and leaves, in terms of its settings and of the jobs' own etas, priorities, dates and
 * numbers.
 */
module Yielding {
  import opened Sequences
  import opened Channels
  import opened Dispatching

  /** A job that no other one goes before has an eta if another has one, and the earliest, then the least priority. */
  lemma LeastGoesFirst(ea: nat, a: Rank, eb: nat, b: Rank)
    requires !KeyLess(eb, b, ea, a)
    ensures eb != 0 ==> ea != 0 && ea <= eb
    ensures ea == eb ==> a.priority <= b.priority
    ensures ea == eb && a.priority == b.priority ==> a.dateCreated <= b.dateCreated
    ensures ea == eb && a.priority == b.priority && a.dateCreated == b.dateCreated ==> a.seqNo <= b.seqNo
  {
  }

  /** Jobs are yielded by priority, then by date, then by number, and so are they before those left ready. */
  lemma YieldsByPriority(v: ChannelView, now: nat, out: seq<ChannelJob>, v1: ChannelView)
    requires Yields(v, now, out, v1)
    ensures forall i, k | 0 <= i < k < |out| ::
      var a, b := out[i].rank, out[k].rank;
      && a.priority <= b.priority
      && (a.priority == b.priority ==> a.dateCreated <= b.dateCreated)
      && (a.priority == b.priority && a.dateCreated == b.dateCreated ==> a.seqNo <= b.seqNo)
    ensures forall i, r | 0 <= i < |out| && r in v1.queue.ready ::
      var a, b := out[i].rank, r.rank;
      && a.priority <= b.priority
      && (a.priority == b.priority ==> a.dateCreated <= b.dateCreated)
      && (a.priority == b.priority && a.dateCreated == b.dateCreated ==> a.seqNo <= b.seqNo)
  {
    hide Yields;
    YieldsBestFirst(v, now, out, v1);
  }

  /** The order of the six jobs in the documentation of a job: 6, 4, 5, 3, 1, 2, whose etas are 2, 9, 9 and none. */
  lemma DocumentedOrder()
    ensures var j1, j2, j3 := Rank(9, 1, 0), Rank(9, 2, 0), Rank(2, 3, 0);
      var j4, j5, j6 := Rank(9, 4, 0), Rank(9, 5, 0), Rank(9, 5, 0);
      KeyLess(2, j6, 9, j4) && KeyLess(9, j4, 9, j5) && KeyLess(9, j5, 0, j3) && KeyLess(0, j3, 0, j1)
      && KeyLess(0, j1, 0, j2)
  {
  }

  // ----- When there is nothing to pop -----

  /** Ready, or waiting for a time that has come. */
  ghost predicate Due(q: QueueView, now: nat, j: ChannelJob) {
    j in q.ready || (j in q.waiting && q.waiting[j] <= now)
  }

  /**
   * Of the jobs that wait for a time to come, one with the earliest time and, among these, the least priority, date
   * and number.
   */
  ghost predicate Next(q: QueueView, now: nat, e: ChannelJob) {
    && e in q.waiting && q.waiting[e] > now
    && forall j | j in q.waiting && q.waiting[j] > now ::
      var a, b := e.rank, j.rank;
      && q.waiting[e] <= q.waiting[j]
      && (q.waiting[e] == q.waiting[j] ==> a.priority <= b.priority)
      && (q.waiting[e] == q.waiting[j] && a.priority == b.priority ==> a.dateCreated <= b.dateCreated)
      && (q.waiting[e] == q.waiting[j] && a.priority == b.priority && a.dateCreated == b.dateCreated ==>
          a.seqNo <= b.seqNo)
  }

  lemma NextIsEarliest(q: QueueView, now: nat, e: ChannelJob)
    ensures Earliest(Mature(q, now), e) <==> Next(q, now, e)
    ensures Next(q, now, e) ==> e in Mature(q, now).waiting
  {
    var m := Mature(q, now);
    assert forall j :: j in m.waiting <==> j in q.waiting && q.waiting[j] > now;
  }

  lemma DueAreReady(q: QueueView, now: nat, j: ChannelJob)
    ensures Due(q, now, j) <==> j in Mature(q, now).ready
    ensures Due(q, now, j) ==> j in Jobs(q)
  {
  }

  /**
   * There is nothing to pop exactly when no job is due or, in a sequential queue, the next one to wait for has a
   * smaller priority than every job that is due, or an earlier date at the same priority, or a smaller number at the
   * same date.
   */
  lemma NothingToPopExactly(q: QueueView, now: nat)
    ensures NothingToPop(q, now) <==>
      || (forall j | j in Jobs(q) :: !Due(q, now, j))
      || (q.sequential && exists e | Next(q, now, e) ::
            forall j | Due(q, now, j) ::
              var a, b := e.rank, j.rank;
              || a.priority < b.priority
              || (a.priority == b.priority && a.dateCreated < b.dateCreated)
              || (a.priority == b.priority && a.dateCreated == b.dateCreated && a.seqNo < b.seqNo))
  {
    hide Mature, Next, Due, Earliest;
    var m := Mature(q, now);
    MatureKeeps(q, now);
    forall e ensures Earliest(m, e) <==> Next(q, now, e) ensures Next(q, now, e) ==> e in m.waiting {
      NextIsEarliest(q, now, e);
    }
    forall j ensures Due(q, now, j) <==> j in m.ready ensures Due(q, now, j) ==> j in Jobs(q) {
      DueAreReady(q, now, j);
    }
  }

  lemma MatureKeeps(q: QueueView, now: nat)
    ensures Mature(q, now).sequential == q.sequential && Jobs(Mature(q, now)) == Jobs(q)
  {
  }

  // ----- When a channel yields, and when it stops -----

  /**
   * A channel yields nothing exactly when it is paused, when it is sequential and a job has failed in it, when it
   * runs as many jobs as it may, or when there is nothing to pop.
   */
  lemma YieldsNothingExactly(v: ChannelView, now: nat, out: seq<ChannelJob>, v1: ChannelView)
    requires Yields(v, now, out, v1)
    ensures out == [] <==>
      || (v.throttle != 0 && v.pauseUntil != 0 && now < v.pauseUntil)
      || (v.queue.sequential && v.failed != {})
      || (v.capacity.Some? && v.capacity.value != 0 && |v.running| >= v.capacity.value)
      || NothingToPop(v.queue, now)
  {
    hide NothingToPop, Mature, Best;
    assert out[..0] == [];
    var u := if v.throttle != 0 then v.(pauseUntil := 0) else v;
    if out != [] && !(v.throttle != 0 && v.pauseUntil != 0 && now < v.pauseUntil) {
      assert PopOk(u, now, out, 0);
    }
  }

  /**
   * Once it has yielded, a channel that is not paused has nothing to pop, or is sequential with a failed job, or runs
   * as many jobs as it may.
   */
  lemma YieldsUntilFull(v: ChannelView, now: nat, out: seq<ChannelJob>, v1: ChannelView)
    requires Yields(v, now, out, v1)
    ensures (v1.throttle != 0 && v1.pauseUntil != 0 && now < v1.pauseUntil)
      || NothingToPop(v1.queue, now)
      || (v1.queue.sequential && v1.failed != {})
      || (v1.capacity.Some? && v1.capacity.value != 0 && |v1.running| >= v1.capacity.value)
  {
    hide NothingToPop, Mature, Best;
    if !(v.throttle != 0 && v.pauseUntil != 0 && now < v.pauseUntil) {
      var u0 := if v.throttle != 0 then v.(pauseUntil := 0) else v;
      AfterPopsPause(u0, now, out);
      MatureStays(AfterPops(u0, now, out).queue, now);
    }
  }

  lemma MatureStays(q: QueueView, now: nat)
    ensures NothingToPop(Mature(q, now), now) <==> NothingToPop(q, now)
  {
    hide Blocked;
    MatureIdempotent(q, now);
  }

  /**
   * What is yielded was due, and runs afterwards beside what ran before; all other jobs stay queued, those whose time
   * is to come with it. A throttle lets one job through and pauses the channel.
   */
  lemma YieldsTheDue(v: ChannelView, now: nat, out: seq<ChannelJob>, v1: ChannelView)
    requires Yields(v, now, out, v1)
    ensures forall j | j in out :: Due(v.queue, now, j)
    ensures forall j :: Due(v1.queue, now, j) <==> Due(v.queue, now, j) && j !in out
    ensures forall j | j in v.queue.waiting && v.queue.waiting[j] > now ::
      j in v1.queue.waiting && v1.queue.waiting[j] == v.queue.waiting[j]
    ensures forall j | j in v1.queue.waiting && v1.queue.waiting[j] > now :: j in v.queue.waiting
    ensures v1.running == v.running + Elements(out) && v1.failed == v.failed
    ensures v.throttle != 0 && out != [] ==> |out| == 1 && v1.pauseUntil == now + v.throttle
  {
    var u := if v.throttle != 0 then v.(pauseUntil := 0) else v;
    if out != [] {
      forall k | 0 <= k < |out| ensures Due(v.queue, now, out[k]) {
        ReadyAt(u, now, out, k);
        assert PopOk(u, now, out, k);
      }
    }
  }

  // ----- The same for all the channels of a dispatch -----

  /**
   * After a dispatch every channel of the tree that is not paused has nothing to pop, or is sequential with a failed
   * job, or runs as many jobs as it may; before it, exactly the paused, the sequential ones with a failed job, the
   * full ones and those without anything to pop, what their children yield included, are the ones that yield nothing.
   */
  lemma DispatchYieldsUntilFull(w0: World, c: Channel, now: nat, outs: Outs, w1: World, d: Channel)
    requires Dispatched(w0, c, now, outs, w1) && d in Upstream(w1.Keys, c)
    ensures d in w0 && d in outs
    ensures var v1 := w1[d];
      || (v1.throttle != 0 && v1.pauseUntil != 0 && now < v1.pauseUntil)
      || NothingToPop(v1.queue, now)
      || (v1.queue.sequential && v1.failed != {})
      || (v1.capacity.Some? && v1.capacity.value != 0 && |v1.running| >= v1.capacity.value)
    ensures var v := w0[d];
      outs[d] == [] <==>
        || (v.throttle != 0 && v.pauseUntil != 0 && now < v.pauseUntil)
        || (v.queue.sequential && v.failed != {})
        || (v.capacity.Some? && v.capacity.value != 0 && |v.running| >= v.capacity.value)
        || NothingToPop(v.queue.(ready := v.queue.ready + Inflow(outs, v.children)), now)
  {
    hide Yields, NothingToPop, Inflow;
    var v := w0[d];
    assert DispatchedAt(w0, d, now, outs, w1);
    YieldsUntilFull(Receive(v, Inflow(outs, v.children)), now, outs[d], w1[d]);
    YieldsNothingExactly(Receive(v, Inflow(outs, v.children)), now, outs[d], w1[d]);
  }

  /**
   * Every channel of the tree yields what was due in it or comes from its children, in order, and what it leaves
   * comes after that.
   */
  lemma DispatchYieldsByPriority(w0: World, c: Channel, now: nat, outs: Outs, w1: World, d: Channel)
    requires Dispatched(w0, c, now, outs, w1) && d in Upstream(w1.Keys, c)
    ensures d in w0 && d in outs
    ensures forall j | j in outs[d] ::
      Due(w0[d].queue, now, j) || exists k | k in w0[d].children && k in outs :: j in outs[k]
    ensures forall i, k | 0 <= i < k < |outs[d]| ::
      var a, b := outs[d][i].rank, outs[d][k].rank;
      && a.priority <= b.priority
      && (a.priority == b.priority ==> a.dateCreated <= b.dateCreated)
      && (a.priority == b.priority && a.dateCreated == b.dateCreated ==> a.seqNo <= b.seqNo)
    ensures forall i, r | 0 <= i < |outs[d]| && r in w1[d].queue.ready ::
      var a, b := outs[d][i].rank, r.rank;
      && a.priority <= b.priority
      && (a.priority == b.priority ==> a.dateCreated <= b.dateCreated)
      && (a.priority == b.priority && a.dateCreated == b.dateCreated ==> a.seqNo <= b.seqNo)
  {
    hide Yields, OnPath;
    var v := w0[d];
    assert DispatchedAt(w0, d, now, outs, w1);
    YieldsByPriority(Receive(v, Inflow(outs, v.children)), now, outs[d], w1[d]);
    YieldsTheDue(Receive(v, Inflow(outs, v.children)), now, outs[d], w1[d]);
  }

  // ----- Whom the runner wakes up for -----

  /**
   * What `d` has to yield gets through to `c`: no channel on the way, both included, is sequential with a failed job or
   * runs as many jobs as it may, and none after `d` is paused.
   */
  ghost predicate Open(w: World, d: Channel, c: Channel) {
    OnPath(d, c) && forall e | e in w && OnPath(d, e) && OnPath(e, c) ::
      && (w[e].queue.sequential ==> w[e].failed == {})
      && (w[e].capacity.None? || w[e].capacity.value == 0 || |w[e].running| < w[e].capacity.value)
      && (e != d ==> w[e].pauseUntil == 0)
  }

  /** The end of its pause, if the channel is paused, or else the time that one of its jobs waits for. */
  ghost predicate WaitsFor(v: ChannelView, t: nat) {
    if v.pauseUntil != 0 then t == v.pauseUntil else exists j | j in v.queue.waiting :: v.queue.waiting[j] == t
  }

  lemma OpenBeyond(w: World, d: Channel, c: Channel, k: Channel)
    requires Tree(w) && d in w && c in w && k in w[c].children && OnPath(d, k)
    ensures Open(w, d, c) <==> Open(w, d, k) && Open(w, c, c) && w[c].pauseUntil == 0
  {
    hide Tree, OnPath;
    BelowKid(w, c, k, d);
    OnPathRefl(c);
    forall e | e in w && OnPath(d, e)
      ensures OnPath(e, c) <==> OnPath(e, k) || e == c
    {
      BetweenKid(w, d, c, k, e);
    }
    OnlyItself(w, c);
  }

  lemma OnlyItself(w: World, c: Channel)
    requires Tree(w) && c in w
    ensures forall e | OnPath(c, e) && OnPath(e, c) :: e == c
  {
    forall e | OnPath(c, e) && OnPath(e, c) ensures e == c {
      ShallowerOnPath(c, e);
      ShallowerOnPath(e, c);
      SameDepth(c, e);
    }
  }

  lemma {:induction false} ShallowerOnPath(c: Channel, d: Channel)
    requires OnPath(c, d)
    ensures d.depth <= c.depth
    decreases c.depth
  {
    if c != d { ShallowerOnPath(c.parent, d); }
  }

  lemma SameDepth(c: Channel, d: Channel)
    requires OnPath(c, d) && c.depth == d.depth
    ensures c == d
  {
    if c != d { NotBelow(c.parent, d); }
  }

  lemma BetweenKid(w: World, d: Channel, c: Channel, k: Channel, e: Channel)
    requires Tree(w) && d in w && c in w && e in w && k in w[c].children && OnPath(d, k) && OnPath(d, e)
    ensures OnPath(e, c) <==> OnPath(e, k) || e == c
  {
    hide OnPath;
    OnPathRefl(c);
    if OnPath(e, k) {
      BelowKid(w, c, k, e);
    } else if OnPath(e, c) && e != c {
      SubtreeSplit(w, e, c);
      var x :| x in w[c].children && OnPath(e, x);
      OnPathTransitive(d, e, x);
      DisjointSubtrees(d, x, k);
    }
  }

  /**
   * The times at which the runner asks to be woken up are exactly the ends of pauses and the etas of waiting jobs, in
   * channels from which a job gets through.
   */
  lemma {:induction false} WakeTimesExactly(w: World, c: Channel, t: nat)
    requires Tree(w) && c in w
    ensures t in WakeTimes(w, c) <==> exists d | d in w && Open(w, d, c) :: WaitsFor(w[d], t)
    decreases Deeper(w.Keys, c)
  {
    hide Tree, OnPath, Open, WaitsFor, Deeper, HasCapacity;
    OpenHere(w, c);
    WaitsHere(w[c], t);
    if HasCapacity(w[c]) && w[c].pauseUntil == 0 {
      KidsAreDeeper(w, c);
      forall k | k in w[c].children
        ensures k in w && (t in WakeTimes(w, k) <==> exists d | d in w && Open(w, d, k) :: WaitsFor(w[d], t))
      {
        WakeTimesExactly(w, k, t);
      }
      if exists d | d in w && Open(w, d, c) :: WaitsFor(w[d], t) {
        var d :| d in w && Open(w, d, c) && WaitsFor(w[d], t);
        if d != c {
          var k := OpenKid(w, d, c);
        }
      }
      forall k, d | k in w[c].children && d in w && Open(w, d, k) ensures Open(w, d, c) {
        OpensFurther(w, d, c, k);
      }
    } else {
      forall d | d in w && Open(w, d, c) ensures HasCapacity(w[c]) && d == c {
        if d != c { var k := OpenKid(w, d, c); }
      }
    }
  }

  lemma OpenHere(w: World, c: Channel)
    requires Tree(w) && c in w
    ensures Open(w, c, c) <==> HasCapacity(w[c])
  {
    OnlyItself(w, c);
    OnPathRefl(c);
  }

  lemma WaitsHere(v: ChannelView, t: nat)
    ensures WaitsFor(v, t) <==> if v.pauseUntil != 0 then t == v.pauseUntil else t in Etas(v.queue)
  {
  }

  lemma OpenKid(w: World, d: Channel, c: Channel) returns (k: Channel)
    requires Tree(w) && d in w && c in w && d != c && Open(w, d, c)
    ensures k in w[c].children && Open(w, d, k) && HasCapacity(w[c]) && w[c].pauseUntil == 0
  {
    hide Tree, OnPath;
    SubtreeSplit(w, d, c);
    k :| k in w[c].children && OnPath(d, k);
    OpenBeyond(w, d, c, k);
    OpenHere(w, c);
  }

  lemma OpensFurther(w: World, d: Channel, c: Channel, k: Channel)
    requires Tree(w) && d in w && c in w && k in w[c].children && Open(w, d, k)
    requires HasCapacity(w[c]) && w[c].pauseUntil == 0
    ensures Open(w, d, c)
  {
    OpenBeyond(w, d, c, k);
    OpenHere(w, c);
  }
}
