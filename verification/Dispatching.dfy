/** What a fully consumed `get_jobs_to_run` does to every channel, and when the next one is due. */
module Dispatching {
  import opened Sequences
  import opened Channels

  // ----- Dispatching is maximal -----

  /** A channel that yields nothing more at time `now` without further input. */
  ghost predicate Settled(v: ChannelView, now: nat) {
    || !HasCapacity(v)
    || (v.pauseUntil != 0 && now < v.pauseUntil)
    || (v.pauseUntil == 0 && NothingToPop(v.queue, now) && Mature(v.queue, now) == v.queue)
  }

  /** Only throttled channels pause. */
  ghost predicate PausesThrottled(w: World) {
    forall c | c in w :: w[c].pauseUntil != 0 ==> w[c].throttle != 0
  }

  lemma MatureIdempotent(q: QueueView, now: nat)
    ensures Mature(Mature(q, now), now) == Mature(q, now)
  {
    assert Mature(Mature(q, now), now).ready == Mature(q, now).ready;
    assert Mature(Mature(q, now), now).waiting == Mature(q, now).waiting;
  }

  lemma YieldsSettles(v: ChannelView, now: nat, out: seq<ChannelJob>, v1: ChannelView)
    requires Yields(v, now, out, v1) && (v.pauseUntil != 0 ==> v.throttle != 0)
    ensures Settled(v1, now) && (v1.pauseUntil != 0 ==> v1.throttle != 0)
    ensures v1.pauseUntil == 0 || now < v1.pauseUntil
  {
    hide Blocked;
    if !(v.throttle != 0 && v.pauseUntil != 0 && now < v.pauseUntil) {
      var u0 := if v.throttle != 0 then v.(pauseUntil := 0) else v;
      var u := AfterPops(u0, now, out);
      MatureIdempotent(u.queue, now);
    }
  }

  /** After `get_jobs_to_run` every channel upstream is out of capacity, paused, or has nothing to pop. */
  lemma DispatchIsMaximal(w0: World, c: Channel, now: nat, outs: Outs, w1: World)
    requires PausesThrottled(w0) && Dispatched(w0, c, now, outs, w1)
    ensures PausesThrottled(w1)
    ensures forall d | d in Upstream(w1.Keys, c) ::
      Settled(w1[d], now) && (w1[d].pauseUntil == 0 || now < w1[d].pauseUntil)
  {
    hide Settled, Yields;
    forall d | d in Upstream(w1.Keys, c)
      ensures Settled(w1[d], now) && (w1[d].pauseUntil == 0 || now < w1[d].pauseUntil)
      ensures w1[d].pauseUntil != 0 ==> w1[d].throttle != 0
    {
      assert DispatchedAt(w0, d, now, outs, w1);
      YieldsSettles(Receive(w0[d], Inflow(outs, w0[d].children)), now, outs[d], w1[d]);
    }
  }

  // ----- What one channel yields -----

  /** No job is yielded twice, and jobs are yielded best first: none left ready ranks before a yielded one. */
  lemma YieldsBestFirst(v: ChannelView, now: nat, out: seq<ChannelJob>, v1: ChannelView)
    requires Yields(v, now, out, v1)
    ensures Distinct(out)
    ensures forall i, k | 0 <= i < k < |out| :: !RankLess(out[k].rank, out[i].rank)
    ensures forall i, r | 0 <= i < |out| && r in v1.queue.ready :: !RankLess(r.rank, out[i].rank)
  {
    var u := if v.throttle != 0 then v.(pauseUntil := 0) else v;
    forall i, k | 0 <= i < k < |out| ensures out[i] != out[k] && !RankLess(out[k].rank, out[i].rank) {
      ReadyBefore(u, now, out, i, k);
    }
    forall i, r | 0 <= i < |out| && r in v1.queue.ready ensures !RankLess(r.rank, out[i].rank) {
      LeftReady(u, now, out, i, r);
    }
  }

  lemma ReadyAt(v: ChannelView, now: nat, out: seq<ChannelJob>, i: nat)
    requires i <= |out|
    ensures Mature(AfterPops(v, now, out[..i]).queue, now).ready == Mature(v.queue, now).ready - Elements(out[..i])
  {
    if i == 0 {
      assert out[..0] == [];
      assert Mature(v.queue, now).ready - Elements([]) == Mature(v.queue, now).ready;
    } else {
      var m := Mature(v.queue, now);
      var q := m.(ready := m.ready - Elements(out[..i]));
      assert Mature(q, now).ready == q.ready;
    }
  }

  lemma ReadyBefore(v: ChannelView, now: nat, out: seq<ChannelJob>, i: nat, k: nat)
    requires i < k < |out| && PopOk(v, now, out, i) && PopOk(v, now, out, k)
    ensures out[i] != out[k] && !RankLess(out[k].rank, out[i].rank)
  {
    hide AfterPops, Mature, NothingToPop, HasCapacity;
    ReadyAt(v, now, out, i);
    ReadyAt(v, now, out, k);
    assert out[i] == out[..k][i];
    forall x | x in out[..i] ensures x in out[..k] {
      var n :| 0 <= n < i && out[..i][n] == x;
      assert out[..k][n] == x;
    }
  }

  lemma LeftReady(v: ChannelView, now: nat, out: seq<ChannelJob>, i: nat, r: ChannelJob)
    requires i < |out| && PopOk(v, now, out, i)
    requires r in Mature(AfterPops(v, now, out).queue, now).ready
    ensures !RankLess(r.rank, out[i].rank)
  {
    hide AfterPops, Mature, NothingToPop, HasCapacity;
    ReadyAt(v, now, out, i);
    assert out[..|out|] == out;
    ReadyAt(v, now, out, |out|);
  }

  /** A channel never exceeds its capacity by yielding jobs. */
  lemma YieldsWithinCapacity(v: ChannelView, now: nat, out: seq<ChannelJob>, v1: ChannelView)
    requires Yields(v, now, out, v1) && v.capacity.Some? && v.capacity.value != 0
    requires |v.running| <= v.capacity.value
    ensures |v1.running| <= v1.capacity.value && v1.capacity == v.capacity
  {
    hide Mature, NothingToPop, Best, Elements;
    var u := if v.throttle != 0 then v.(pauseUntil := 0) else v;
    if out != [] {
      RunningAfter(u, now, out);
      var n := |out| - 1;
      assert PopOk(u, now, out, n);
      RunningAfter(u, now, out[..n]);
      LastPopped(v.running, out);
    }
  }

  lemma RunningAfter(v: ChannelView, now: nat, out: seq<ChannelJob>)
    ensures AfterPops(v, now, out).running == v.running + Elements(out)
    ensures AfterPops(v, now, out).capacity == v.capacity
  {
    if out == [] { assert v.running + Elements([]) == v.running; }
  }

  lemma LastPopped(running: set<ChannelJob>, out: seq<ChannelJob>)
    requires out != []
    ensures |running + Elements(out)| <= |running + Elements(out[..|out| - 1])| + 1
  {
    var n := |out| - 1;
    var r := running + Elements(out[..n]);
    assert out == out[..n] + [out[n]];
    assert running + Elements(out) == r + {out[n]};
  }

  // ----- No missed wakeup -----

  lemma CapacityOfReceive(v: ChannelView, a: set<ChannelJob>)
    ensures HasCapacity(Receive(v, a)) == HasCapacity(v)
  {
  }

  lemma NoCapacityNoYield(v: ChannelView, now: nat, out: seq<ChannelJob>, v1: ChannelView)
    requires Yields(v, now, out, v1) && !HasCapacity(v)
    ensures out == []
  {
    var u := if v.throttle != 0 then v.(pauseUntil := 0) else v;
    assert out[..0] == [];
    assert out != [] ==> PopOk(u, now, out, 0);
  }

  lemma NothingToPopNoYield(v: ChannelView, now: nat, out: seq<ChannelJob>, v1: ChannelView)
    requires Yields(v, now, out, v1) && NothingToPop(v.queue, now)
    ensures out == []
  {
    hide NothingToPop;
    var u := if v.throttle != 0 then v.(pauseUntil := 0) else v;
    assert out[..0] == [];
    assert out != [] ==> PopOk(u, now, out, 0);
  }

  lemma NothingDueLater(v: ChannelView, now: nat, later: nat)
    requires Mature(v.queue, now) == v.queue && NothingToPop(v.queue, now)
    requires forall t | t in Etas(v.queue) :: later < t
    ensures NothingToPop(v.queue, later)
  {
    hide Blocked;
    assert Mature(v.queue, later) == v.queue by {
      forall j | j in v.queue.waiting ensures later < v.queue.waiting[j] {
        assert v.queue.waiting[j] in Etas(v.queue);
      }
      assert Mature(v.queue, later).ready == v.queue.ready;
      assert Mature(v.queue, later).waiting == v.queue.waiting;
    }
  }

  ghost predicate AllLater(s: set<nat>, t: nat) {
    forall x | x in s :: t < x
  }

  /** A settled channel that asks for no wakeup before `later` yields nothing at `later`. */
  lemma {:induction false} SilentUntilWakeup(w: World, top: Channel, c: Channel, now: nat, later: nat, outs: Outs,
      w2: World)
    requires Tree(w) && PausesThrottled(w) && c in Upstream(w.Keys, top)
    requires forall d | d in Upstream(w.Keys, top) :: Settled(w[d], now)
    requires Dispatched(w, top, later, outs, w2)
    requires AllLater(WakeTimes(w, c), later)
    ensures outs[c] == []
    decreases Deeper(w.Keys, c)
  {
    hide NothingToPop, Mature, HasCapacity, Yields, Dispatched, Upstream, OnPath, Tree, Deeper;
    var v := w[c];
    var inflow := Inflow(outs, v.children);
    YieldsHere(w, top, c, later, outs, w2);
    if !HasCapacity(v) {
      CapacityOfReceive(v, inflow);
      NoCapacityNoYield(Receive(v, inflow), later, outs[c], w2[c]);
    } else if v.pauseUntil != 0 {
      PausedNoYield(Receive(v, inflow), later, outs[c], w2[c]);
    } else {
      KidsAreDeeper(w, c);
      forall k | k in v.children && k in outs ensures outs[k] == [] {
        KidUpstream(w, top, c, k);
        KidTimesLater(w, c, k, later);
        SilentUntilWakeup(w, top, k, now, later, outs, w2);
      }
      assert inflow == {};
      assert Receive(v, inflow) == v by { ReceiveNothing(v); }
      EtasLater(w, c, later);
      NothingDueLater(v, now, later);
      NothingToPopNoYield(v, later, outs[c], w2[c]);
    }
  }

  lemma ReceiveNothing(v: ChannelView)
    ensures Receive(v, {}) == v
  {
    assert v.queue.ready + {} == v.queue.ready;
  }

  lemma PausedNoYield(v: ChannelView, now: nat, out: seq<ChannelJob>, v1: ChannelView)
    requires Yields(v, now, out, v1) && v.throttle != 0 && v.pauseUntil != 0 && now < v.pauseUntil
    ensures out == []
  {
  }

  lemma YieldsHere(w: World, top: Channel, c: Channel, now: nat, outs: Outs, w2: World)
    requires c in Upstream(w.Keys, top) && Dispatched(w, top, now, outs, w2)
    ensures c in outs && c in w2 && Yields(Receive(w[c], Inflow(outs, w[c].children)), now, outs[c], w2[c])
  {
    assert DispatchedAt(w, c, now, outs, w2);
  }

  lemma RootIsUpstream(w: World, root: Channel)
    requires root in w
    ensures root in Upstream(w.Keys, root)
  {
    OnPathRefl(root);
  }

  lemma KidUpstream(w: World, top: Channel, c: Channel, k: Channel)
    requires Tree(w) && c in Upstream(w.Keys, top) && k in w[c].children
    ensures k in Upstream(w.Keys, top)
  {
    KidsBelow(w, c, top);
  }

  lemma KidTimesLater(w: World, c: Channel, k: Channel, t: nat)
    requires Tree(w) && c in w && HasCapacity(w[c]) && w[c].pauseUntil == 0 && k in w[c].children && k in w
    requires AllLater(WakeTimes(w, c), t)
    ensures AllLater(WakeTimes(w, k), t)
  {
    forall x | x in WakeTimes(w, k) ensures t < x {
      assert x in WakeTimes(w, c);
    }
  }

  lemma EtasLater(w: World, c: Channel, t: nat)
    requires Tree(w) && c in w && HasCapacity(w[c]) && w[c].pauseUntil == 0
    requires AllLater(WakeTimes(w, c), t)
    ensures forall x | x in Etas(w[c].queue) :: t < x
  {
    forall x | x in Etas(w[c].queue) ensures t < x {
      assert x in WakeTimes(w, c);
    }
  }

  /**
   * No missed wakeup: when a dispatch was fully consumed at `now`, and the wakeup time computed
   * afterwards is `wakeup`, a dispatch at any time before `wakeup` (at any time, when there is
   * none) yields nothing.
   */
  lemma NoMissedWakeup(w0: World, top: Channel, now: nat, outs: Outs, w1: World, wakeup: nat,
                       later: nat, outs2: Outs, w2: World)
    requires Tree(w0) && top in w0 && PausesThrottled(w0) && Dispatched(w0, top, now, outs, w1)
    requires Tree(w1) && IsLeastTime(WakeTimes(w1, top), wakeup)
    requires now <= later && (wakeup == 0 || later < wakeup)
    requires Timed(w1) && Dispatched(w1, top, later, outs2, w2)
    ensures top in outs2 && outs2[top] == []
  {
    DispatchIsMaximal(w0, top, now, outs, w1);
    OnPathRefl(top);
    assert AllLater(WakeTimes(w1, top), later);
    SilentUntilWakeup(w1, top, top, now, later, outs2, w2);
  }

  /** The wakeup time asked for after a dispatch lies in the future, so the runner does not spin. */
  lemma {:induction false} WakeupIsInTheFuture(w0: World, top: Channel, now: nat, outs: Outs, w1: World, c: Channel)
    requires Tree(w1) && PausesThrottled(w0) && Dispatched(w0, top, now, outs, w1) && c in Upstream(w1.Keys, top)
    ensures AllLater(WakeTimes(w1, c), now)
    decreases Deeper(w1.Keys, c)
  {
    hide Yields, Dispatched, OnPath, Tree, Deeper;
    DispatchIsMaximal(w0, top, now, outs, w1);
    KidsAreDeeper(w1, c);
    forall x | x in WakeTimes(w1, c) ensures now < x {
      if w1[c].pauseUntil == 0 {
        if x in Etas(w1[c].queue) {
          var j :| j in w1[c].queue.waiting && w1[c].queue.waiting[j] == x;
          assert j in Mature(w1[c].queue, now).waiting;
        } else {
          var k :| k in w1[c].children && x in WakeTimes(w1, k);
          KidUpstream(w1, top, c, k);
          WakeupIsInTheFuture(w0, top, now, outs, w1, k);
        }
      }
    }
  }

  /** A dispatch ends no pause of a channel without a throttle: such a pause is left when the throttle is taken away. */
  lemma PauseStays(w0: World, top: Channel, now: nat, outs: Outs, w1: World, c: Channel)
    requires Dispatched(w0, top, now, outs, w1) && c in w0 && w0[c].throttle == 0
    ensures c in w1 && w1[c].pauseUntil == w0[c].pauseUntil && w1[c].throttle == 0
  {
    if c in outs {
      assert DispatchedAt(w0, c, now, outs, w1);
      var v := Receive(w0[c], Inflow(outs, w0[c].children));
      AfterPopsPause(v, now, outs[c]);
    }
  }

  lemma AfterPopsPause(v: ChannelView, now: nat, out: seq<ChannelJob>)
    ensures AfterPops(v, now, out).pauseUntil == v.pauseUntil && AfterPops(v, now, out).throttle == v.throttle
  {
  }
}
