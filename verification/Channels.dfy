/**
 * The channels of the job runner: jobs ordered by rank and eta, priority queues whose removals are
 * deferred, and the tree of channels through which jobs flow to the root.
 */
module Channels {
  import opened Sequences

  datatype Option<+T> = None | Some(value: T)

  /** What orders two jobs with the same eta; it never changes while the job exists. */
  datatype Rank = Rank(priority: int, dateCreated: int, seqNo: int)

  predicate RankLess(a: Rank, b: Rank) {
    a.priority < b.priority ||
    (a.priority == b.priority &&
     (a.dateCreated < b.dateCreated || (a.dateCreated == b.dateCreated && a.seqNo < b.seqNo)))
  }

  /** `__lt__` of two jobs: those with an eta come first, an eta of 0 standing for none. */
  predicate KeyLess(ea: nat, a: Rank, eb: nat, b: Rank) {
    if ea != 0 && eb == 0 then true
    else if ea == 0 && eb != 0 then false
    else ea < eb || (ea == eb && RankLess(a, b))
  }

  /** A job as the channels know it; compared by identity, only its eta ever changes. */
  class ChannelJob {
    const dbName: string
    const channel: Channel
    const uuid: string
    const rank: Rank
    var eta: nat

    constructor (dbName: string, channel: Channel, uuid: string, rank: Rank, eta: nat)
      ensures this.dbName == dbName && this.channel == channel && this.uuid == uuid
      ensures this.rank == rank && this.eta == eta
    {
      this.dbName, this.channel, this.uuid, this.rank, this.eta := dbName, channel, uuid, rank, eta;
    }

    predicate Less(other: ChannelJob)
      reads this, other
    {
      KeyLess(eta, rank, other.eta, other.rank)
    }
  }

  ghost predicate HeadIsLeast(h: seq<ChannelJob>)
    reads h
  {
    forall j | j in h :: !j.Less(h[0])
  }

  /** `heappush`: the heap gains `o`, and its first element is still a least one. */
  method HeapPush(h: seq<ChannelJob>, o: ChannelJob) returns (r: seq<ChannelJob>)
    requires Distinct(h) && o !in h && HeadIsLeast(h)
    ensures Distinct(r) && HeadIsLeast(r)
    ensures forall j :: j in r <==> j in h || j == o
  {
    if h == [] || o.Less(h[0]) {
      r := [o] + h;
    } else {
      r := h + [o];
    }
  }

  /** `heappop`: the heap loses its first element, and has a least one first again. */
  method HeapPop(h: seq<ChannelJob>) returns (o: ChannelJob, r: seq<ChannelJob>)
    requires h != [] && Distinct(h) && HeadIsLeast(h)
    ensures o == h[0]
    ensures |r| == |h| - 1 && Distinct(r) && HeadIsLeast(r)
    ensures forall j :: j in r <==> j in h && j != o
  {
    o := h[0];
    r := h[1..];
    if r == [] { return; }
    var t, m := r, 0;
    for i := 1 to |t|
      invariant 0 <= m < |t|
      invariant forall k :: 0 <= k < i ==> !t[k].Less(t[m])
    {
      if t[i].Less(t[m]) { m := i; }
    }
    r := t[0 := t[m]][m := t[0]];
    assert forall k :: 0 <= k < |t| ==> t[k] == r[if k == 0 then m else if k == m then 0 else k];
    assert forall k :: 0 <= k < |t| ==> r[k] == t[if k == 0 then m else if k == m then 0 else k];
    assert forall j :: j in t <==> j in h && j != o;
  }

  /**
   * A heap with deferred removal: a removed job stays in `heap` and `known` until it comes up, and is
   * recorded in `removed`.
   */
  class PriorityQueue {
    var heap: seq<ChannelJob>
    var known: set<ChannelJob>
    var removed: set<ChannelJob>

    ghost predicate Valid()
      reads this, known
    {
      && known == Elements(heap)
      && Distinct(heap)
      && removed <= known
      && HeadIsLeast(heap)
    }

    ghost function Contents(): set<ChannelJob>
      reads this
    {
      known - removed
    }

    constructor ()
      ensures Valid() && heap == [] && Contents() == {}
    {
      heap, known, removed := [], {}, {};
    }

    method Len() returns (n: nat)
      requires Valid()
      ensures n == |Contents()|
    {
      assert |Contents()| == |known| - |removed| by {
        assert known == Contents() + removed;
      }
      n := |known| - |removed|;
    }

    method First() returns (r: Option<ChannelJob>)
      requires Valid()
      modifies this
      ensures Valid() && Contents() == old(Contents()) && known <= old(known)
      ensures r.None? <==> Contents() == {}
      ensures r.Some? ==> r.value in Contents() && forall j :: j in Contents() ==> !j.Less(r.value)
    {
      while true
        invariant Valid() && Contents() == old(Contents()) && known <= old(known)
        decreases |heap|
      {
        if heap == [] { return None; }
        var o := heap[0];
        if o in removed {
          var o2, rest := HeapPop(heap);
          heap := rest;
          removed := removed - {o};
          known := known - {o};
        } else {
          assert o in Contents();
          return Some(o);
        }
      }
    }

    method Add(o: ChannelJob)
      requires Valid()
      modifies this
      ensures Valid() && Contents() == old(Contents()) + {o} && known == old(known) + {o}
    {
      removed := removed - {o};
      if o in known { return; }
      known := known + {o};
      heap := HeapPush(heap, o);
    }

    method Remove(o: ChannelJob)
      requires Valid()
      modifies this
      ensures Valid() && Contents() == old(Contents()) - {o} && known == old(known)
    {
      if o !in known { return; }
      removed := removed + {o};
    }

    method Pop() returns (r: Option<ChannelJob>)
      requires Valid()
      modifies this
      ensures Valid() && known <= old(known)
      ensures r.None? <==> old(Contents()) == {}
      ensures r.None? ==> Contents() == {}
      ensures r.Some? ==> r.value in old(Contents()) && Contents() == old(Contents()) - {r.value} && r.value !in known
      ensures r.Some? ==> forall j :: j in old(Contents()) ==> !j.Less(r.value)
    {
      while true
        invariant Valid() && Contents() == old(Contents()) && known <= old(known)
        decreases |heap|
      {
        if heap == [] { return None; }
        var o, rest := HeapPop(heap);
        heap := rest;
        known := known - {o};
        if o in removed {
          removed := removed - {o};
        } else {
          assert o in old(Contents());
          return Some(o);
        }
      }
    }
  }

  datatype QueueView = QueueView(ready: set<ChannelJob>, waiting: map<ChannelJob, nat>, sequential: bool)

  function Jobs(q: QueueView): set<ChannelJob> {
    q.ready + q.waiting.Keys
  }

  function Mature(q: QueueView, now: int): QueueView {
    q.(ready := q.ready + (set j | j in q.waiting && q.waiting[j] <= now),
       waiting := map j | j in q.waiting && q.waiting[j] > now :: q.waiting[j])
  }

  predicate Earliest(q: QueueView, e: ChannelJob)
  {
    e in q.waiting && forall j | j in q.waiting :: !KeyLess(q.waiting[j], j.rank, q.waiting[e], e.rank)
  }

  predicate Best(q: QueueView, b: ChannelJob)
  {
    b in q.ready && forall j | j in q.ready :: !RankLess(j.rank, b.rank)
  }

  ghost predicate Blocked(q: QueueView) {
    q.sequential && q.ready != {} &&
    exists e | e in q.waiting :: Earliest(q, e) && forall j | j in q.ready :: RankLess(e.rank, j.rank)
  }

  ghost predicate NothingToPop(q: QueueView, now: int) {
    var m := Mature(q, now);
    m.ready == {} || Blocked(m)
  }

  function Etas(q: QueueView): set<nat> {
    set j | j in q.waiting :: q.waiting[j]
  }

  function Time(t: nat): set<nat> {
    if t == 0 then {} else {t}
  }

  predicate IsLeastTime(s: set<nat>, t: nat) {
    if s == {} then t == 0 else t in s && forall x | x in s :: t <= x
  }

  ghost predicate AllTimed(q: QueueView) {
    forall j | j in q.waiting :: q.waiting[j] != 0
  }

  lemma EarliestHasLeastEta(q: QueueView, e: ChannelJob, j: ChannelJob)
    requires AllTimed(q) && Earliest(q, e) && j in q.waiting
    ensures q.waiting[e] <= q.waiting[j]
  {
  }

  lemma EarliestEta(q: QueueView, e: ChannelJob)
    requires AllTimed(q) && Earliest(q, e)
    ensures IsLeastTime(Etas(q), q.waiting[e])
  {
    assert q.waiting[e] in Etas(q);
    forall x | x in Etas(q) ensures q.waiting[e] <= x {
      var j :| j in q.waiting && q.waiting[j] == x;
      EarliestHasLeastEta(q, e, j);
    }
  }

  lemma MatureNothing(q: QueueView, now: int)
    requires AllTimed(q)
    requires q.waiting.Keys == {} || exists e | e in q.waiting :: Earliest(q, e) && q.waiting[e] > now
    ensures Mature(q, now) == q
  {
    if q.waiting.Keys != {} {
      var e :| e in q.waiting && Earliest(q, e) && q.waiting[e] > now;
      forall j | j in q.waiting ensures q.waiting[j] > now { EarliestHasLeastEta(q, e, j); }
    }
    assert Mature(q, now).ready == q.ready;
    assert Mature(q, now).waiting == q.waiting;
  }

  lemma MaturePromoted(q: QueueView, e: ChannelJob, now: int)
    requires e in q.waiting && q.waiting[e] <= now
    ensures Mature(q.(ready := q.ready + {e}, waiting := q.waiting - {e}), now) == Mature(q, now)
  {
    var p := Mature(q.(ready := q.ready + {e}, waiting := q.waiting - {e}), now);
    assert p.ready == Mature(q, now).ready;
    assert p.waiting == Mature(q, now).waiting;
  }

  lemma BlockedExactly(q: QueueView, e: ChannelJob, b: ChannelJob)
    requires AllTimed(q) && q.sequential && Earliest(q, e) && Best(q, b)
    ensures Blocked(q) <==> RankLess(e.rank, b.rank)
  {
    if Blocked(q) {
      var x :| x in q.waiting && Earliest(q, x) && forall j | j in q.ready :: RankLess(x.rank, j.rank);
      assert !KeyLess(q.waiting[x], x.rank, q.waiting[e], e.rank) && !KeyLess(q.waiting[e], e.rank, q.waiting[x],
        x.rank);
      assert x.rank == e.rank;
    }
  }

  /** A best job has the least priority, the earliest date at that priority, and the least number at that date. */
  lemma BestGoesFirst(q: QueueView, r: ChannelJob)
    requires Best(q, r)
    ensures forall j | j in q.ready ::
      var a, b := r.rank, j.rank;
      && a.priority <= b.priority
      && (a.priority == b.priority ==> a.dateCreated <= b.dateCreated)
      && (a.priority == b.priority && a.dateCreated == b.dateCreated ==> a.seqNo <= b.seqNo)
  {
  }

  lemma NotBlocked(q: QueueView)
    requires !q.sequential || q.waiting.Keys == {} || q.ready == {}
    ensures !Blocked(q)
  {
  }

  /** The queue of a channel: `ready` jobs compete now, `waiting` ones from their eta on. */
  class ChannelQueue {
    const ready: PriorityQueue
    const waiting: PriorityQueue
    var sequential: bool

    ghost predicate Valid()
      reads this, ready, waiting, ready.known, waiting.known
    {
      && ready != waiting
      && ready.Valid()
      && waiting.Valid()
      && (forall j | j in ready.known :: j.eta == 0)
      && (forall j | j in waiting.known :: j.eta != 0)
    }

    ghost function View(): (q: QueueView)
      requires Valid()
      reads this, ready, waiting, ready.known, waiting.known
      ensures AllTimed(q) && q.ready == ready.Contents() && q.waiting.Keys == waiting.Contents()
      ensures q.ready !! q.waiting.Keys && q.sequential == sequential
    {
      QueueView(ready.Contents(), map j | j in waiting.Contents() :: j.eta, sequential)
    }

    constructor (sequential: bool := false)
      ensures Valid() && fresh(ready) && fresh(waiting)
      ensures View() == QueueView({}, map[], sequential)
      ensures ready.known == {} && waiting.known == {}
    {
      ready := new PriorityQueue();
      waiting := new PriorityQueue();
      this.sequential := sequential;
    }

    method Len() returns (n: nat)
      requires Valid()
      ensures n == |Jobs(View())|
    {
      var e := waiting.Len();
      var q := ready.Len();
      assert ready.Contents() !! waiting.Contents();
      assert View().waiting.Keys == waiting.Contents();
      n := e + q;
    }

    predicate Contains(o: ChannelJob): (b: bool)
      requires Valid()
      reads this, ready, waiting, ready.known, waiting.known
      ensures b <==> o in Jobs(View())
    {
      (o in waiting.known && o !in waiting.removed) || (o in ready.known && o !in ready.removed)
    }

    method Add(job: ChannelJob)
      requires Valid()
      modifies ready, waiting
      ensures Valid()
      ensures View() == var q := old(View());
        if job.eta != 0 then q.(waiting := q.waiting[job := job.eta]) else q.(ready := q.ready + {job})
      ensures ready.known <= old(ready.known) + {job} && waiting.known <= old(waiting.known) + {job}
      ensures job.eta == 0 ==> waiting.known == old(waiting.known)
    {
      hide PriorityQueue.Valid;
      if job.eta != 0 {
        waiting.Add(job);
      } else {
        ready.Add(job);
      }
    }

    method Remove(job: ChannelJob)
      requires Valid()
      modifies ready, waiting
      ensures Valid()
      ensures View() == var q := old(View()); q.(ready := q.ready - {job}, waiting := q.waiting - {job})
      ensures ready.known == old(ready.known) && waiting.known == old(waiting.known)
    {
      hide PriorityQueue.Valid;
      waiting.Remove(job);
      ready.Remove(job);
    }

    /** `_eta_queue[0]`, or none when that queue is empty. */
    method FirstWaiting() returns (e: Option<ChannelJob>)
      requires Valid()
      modifies waiting
      ensures Valid() && View() == old(View()) && waiting.Contents() == old(waiting.Contents())
      ensures waiting.known <= old(waiting.known)
      ensures e.None? ==> View().waiting.Keys == {}
      ensures e.Some? ==>
        e.value in View().waiting && Earliest(View(), e.value) && View().waiting[e.value] == e.value.eta
    {
      hide PriorityQueue.Valid;
      e := waiting.First();
    }

    /** `_queue[0]`, or none when that queue is empty. */
    method FirstReady() returns (b: Option<ChannelJob>)
      requires Valid()
      modifies ready
      ensures Valid() && View() == old(View()) && ready.known <= old(ready.known)
      ensures b.None? ==> View().ready == {}
      ensures b.Some? ==> Best(View(), b.value)
    {
      hide PriorityQueue.Valid;
      b := ready.First();
    }

    /** Moves the waiting job with the earliest eta to the ready jobs and clears its eta. */
    method Promote() returns (job: ChannelJob)
      requires Valid() && waiting.Contents() != {}
      modifies ready, waiting, waiting.known`eta
      ensures Valid() && job in old(View()).waiting && Earliest(old(View()), job)
        && waiting.Contents() == old(waiting.Contents()) - {job}
      ensures View() == var q := old(View()); q.(ready := q.ready + {job}, waiting := q.waiting - {job})
      ensures waiting.known <= old(waiting.known) && ready.known <= old(ready.known) + old(waiting.known)
      ensures forall j | j in old(waiting.known) :: j.eta == old(j.eta) || j.eta == 0
    {
      hide PriorityQueue.Valid;
      var popped := waiting.Pop();
      job := popped.value;
      job.eta := 0;
      ready.Add(job);
    }

    /** The loop of `pop` that makes ready every job whose eta is past. */
    method PromoteDue(now: int)
      requires Valid()
      modifies ready, waiting, waiting.known`eta
      ensures Valid() && View() == Mature(old(View()), now)
      ensures waiting.known <= old(waiting.known) && ready.known <= old(ready.known) + old(waiting.known)
      ensures forall j | j in old(waiting.known) :: j.eta == old(j.eta) || j.eta == 0
    {
      hide Mature, PriorityQueue.Valid, Earliest;
      while true
        invariant Valid()
        invariant waiting.known <= old(waiting.known) && ready.known <= old(ready.known) + old(waiting.known)
        invariant forall j | j in old(waiting.known) :: j.eta == old(j.eta) || j.eta == 0
        invariant Mature(View(), now) == Mature(old(View()), now)
        decreases waiting.Contents()
      {
        ghost var q := View();
        var first := FirstWaiting();
        if first.None? || first.value.eta > now {
          MatureNothing(q, now);
          break;
        }
        var job := Promote();
        EarliestHasLeastEta(q, job, first.value);
        MaturePromoted(q, job, now);
      }
    }

    method PopReady() returns (r: Option<ChannelJob>)
      requires Valid()
      modifies ready
      ensures Valid() && ready.known <= old(ready.known)
      ensures r.None? <==> old(View()).ready == {}
      ensures r.None? ==> View() == old(View())
      ensures r.Some? ==> Best(old(View()), r.value) && r.value.eta == 0
      ensures r.Some? ==> View() == old(View()).(ready := old(View()).ready - {r.value})
    {
      hide PriorityQueue.Valid;
      r := ready.Pop();
    }

    method Pop(now: int) returns (r: Option<ChannelJob>)
      requires Valid()
      modifies ready, waiting, waiting.known`eta
      ensures Valid()
      ensures r.None? <==> NothingToPop(old(View()), now)
      ensures r.None? ==> View() == Mature(old(View()), now)
      ensures r.Some? ==> Best(Mature(old(View()), now), r.value) && r.value.eta == 0
      ensures r.Some? ==> var m := Mature(old(View()), now); View() == m.(ready := m.ready - {r.value})
      ensures r.Some? ==> forall j | j in View().ready ::
        var a, b := r.value.rank, j.rank;
        && a.priority <= b.priority
        && (a.priority == b.priority ==> a.dateCreated <= b.dateCreated)
        && (a.priority == b.priority && a.dateCreated == b.dateCreated ==> a.seqNo <= b.seqNo)
      ensures waiting.known <= old(waiting.known) && ready.known <= old(ready.known) + old(waiting.known)
      ensures forall j | j in old(waiting.known) :: j.eta == old(j.eta) || j.eta == 0
    {
      hide PriorityQueue.Valid, ChannelQueue.Valid, Mature, Best, Earliest, Blocked;
      PromoteDue(now);
      ghost var m := View();
      if sequential {
        var e := FirstWaiting();
        var b := FirstReady();
        if e.Some? && b.Some? {
          BlockedExactly(m, e.value, b.value);
          if RankLess(e.value.rank, b.value.rank) {
            return None;
          }
        } else {
          NotBlocked(m);
        }
      } else {
        NotBlocked(m);
      }
      r := PopReady();
      if r.Some? {
        BestGoesFirst(m, r.value);
      }
    }

    method GetWakeupTime(wakeupTime: nat) returns (r: nat)
      requires Valid()
      modifies waiting
      ensures Valid() && View() == old(View()) && waiting.known <= old(waiting.known) && ready.known == old(ready.known)
      ensures IsLeastTime(Etas(View()) + Time(wakeupTime), r)
    {
      hide PriorityQueue.Valid;
      var e := FirstWaiting();
      r := wakeupTime;
      if e.Some? {
        EarliestEta(View(), e.value);
        if r == 0 {
          r := e.value.eta;
        } else {
          r := if e.value.eta < r then e.value.eta else r;
        }
      }
    }
  }

  // ----- The state of one channel, and of all channels, as values -----

  datatype ChannelView = ChannelView(
    queue: QueueView,
    running: set<ChannelJob>,
    failed: set<ChannelJob>,
    pauseUntil: nat,
    capacity: Option<int>,
    throttle: nat,
    children: seq<Channel>)

  type World = map<Channel, ChannelView>

  predicate HasCapacity(v: ChannelView) {
    if v.queue.sequential && v.failed != {} then false
    else if v.capacity.None? || v.capacity.value == 0 then true
    else |v.running| < v.capacity.value
  }

  function Without(v: ChannelView, job: ChannelJob): ChannelView {
    v.(queue := v.queue.(ready := v.queue.ready - {job}, waiting := v.queue.waiting - {job}),
       running := v.running - {job},
       failed := v.failed - {job})
  }

  function Enqueue(q: QueueView, job: ChannelJob, eta: nat): QueueView {
    if eta != 0 then q.(waiting := q.waiting[job := eta]) else q.(ready := q.ready + {job})
  }

  function AsPending(v: ChannelView, job: ChannelJob, eta: nat): ChannelView {
    v.(queue := Enqueue(v.queue, job, eta), running := v.running - {job}, failed := v.failed - {job})
  }

  function AsRunning(v: ChannelView, job: ChannelJob): ChannelView {
    var u := Without(v, job);
    u.(running := u.running + {job})
  }

  function AsFailed(v: ChannelView, job: ChannelJob): ChannelView {
    var u := Without(v, job);
    u.(failed := u.failed + {job})
  }

  function Receive(v: ChannelView, jobs: set<ChannelJob>): ChannelView {
    v.(queue := v.queue.(ready := v.queue.ready + jobs))
  }

  /** `d` is `c` or one of its ancestors, that is, `d` lies between `c` and the root. */
  ghost predicate OnPath(c: Channel, d: Channel)
    decreases c.depth
  {
    c == d || (c.parent != null && c.parent.depth < c.depth && OnPath(c.parent, d))
  }

  ghost predicate TreeAt(w: World, c: Channel)
    requires c in w
  {
    && (c.parent != null ==> c.parent in w && c.depth == c.parent.depth + 1 && c in w[c.parent].children)
    && (forall k | k in w[c].children :: k in w && k.parent == c)
    && (forall i, k :: 0 <= i < k < |w[c].children| ==> w[c].children[i] != w[c].children[k])
  }

  /** The channels are joined in a tree by `parent` and `children`. */
  ghost predicate Tree(w: World) {
    forall c | c in w :: TreeAt(w, c)
  }

  ghost function Deeper(cs: set<Channel>, c: Channel): set<Channel> {
    set d | d in cs && d.depth > c.depth
  }

  // ----- What the operations on a channel do to all channels -----

  ghost function RemoveUp(w: World, c: Channel, job: ChannelJob): World {
    map d | d in w :: if OnPath(c, d) then Without(w[d], job) else w[d]
  }

  ghost function PendingUp(w: World, c: Channel, job: ChannelJob, eta: nat): World
    requires c in w
  {
    if job in Jobs(w[c].queue) then w
    else
      var w1 := w[c := AsPending(w[c], job, eta)];
      if c.parent == null then w1 else RemoveUp(w1, c.parent, job)
  }

  ghost function FailedUp(w: World, c: Channel, job: ChannelJob): World
    requires c in w
  {
    if job in w[c].failed then w
    else
      var w1 := w[c := AsFailed(w[c], job)];
      if c.parent == null then w1 else RemoveUp(w1, c.parent, job)
  }

  ghost function RunningUp(w: World, c: Channel, job: ChannelJob): World
    requires c in w
    decreases c.depth
  {
    if job in w[c].running then w
    else
      var w1 := w[c := AsRunning(w[c], job)];
      if c.parent == null || c.parent !in w || c.parent.depth >= c.depth then w1
      else RunningUp(w1, c.parent, job)
  }

  lemma TreeKept(w: World, w1: World)
    requires Tree(w) && w1.Keys == w.Keys && forall c | c in w :: w1[c].children == w[c].children
    ensures Tree(w1)
  {
  }

  lemma ParentInTree(w: World, c: Channel)
    requires Tree(w) && c in w && c.parent != null
    ensures c.parent in w && c.parent.depth < c.depth && c in w[c.parent].children
  {
  }

  lemma RemoveUpStep(w: World, c: Channel, job: ChannelJob)
    requires Tree(w) && c in w
    ensures Tree(w[c := Without(w[c], job)])
    ensures RemoveUp(w, c, job) ==
      if c.parent == null then w[c := Without(w[c], job)] else RemoveUp(w[c := Without(w[c], job)], c.parent, job)
  {
    var w1 := w[c := Without(w[c], job)];
    TreeKept(w, w1);
    if c.parent != null {
      NotBelow(c.parent, c);
    }
  }

  lemma {:induction false} NotBelow(c: Channel, d: Channel)
    requires c.depth < d.depth
    ensures !OnPath(c, d)
    decreases c.depth
  {
    if c.parent != null && c.parent.depth < c.depth {
      NotBelow(c.parent, d);
    }
  }

  // ----- One channel's own part of the dispatch -----

  /** The channel after it popped the jobs of `out`. */
  ghost function AfterPops(v: ChannelView, now: nat, out: seq<ChannelJob>): ChannelView {
    if out == [] then v
    else
      var m := Mature(v.queue, now);
      v.(queue := m.(ready := m.ready - Elements(out)), running := v.running + Elements(out))
  }

  /** Job number `k` of `out` was popped while there was capacity, and was a best ready job. */
  ghost predicate PopOk(v: ChannelView, now: nat, out: seq<ChannelJob>, k: nat)
    requires k < |out|
  {
    var u := AfterPops(v, now, out[..k]);
    HasCapacity(u) && !NothingToPop(u.queue, now) && Best(Mature(u.queue, now), out[k])
  }

  ghost predicate Unpaused(v: ChannelView, now: nat, out: seq<ChannelJob>, v1: ChannelView) {
    var u := AfterPops(v, now, out);
    && (forall k | 0 <= k < |out| :: PopOk(v, now, out, k))
    && (v.throttle != 0 ==> |out| <= 1)
    && if v.throttle != 0 && out != [] then v1 == u.(pauseUntil := now + v.throttle)
       else if HasCapacity(u) then NothingToPop(u.queue, now) && v1 == u.(queue := Mature(u.queue, now))
       else v1 == u
  }

  /** The second half of `get_jobs_to_run`: `out` is yielded and `v` becomes `v1`. */
  ghost predicate Yields(v: ChannelView, now: nat, out: seq<ChannelJob>, v1: ChannelView) {
    if v.throttle != 0 && v.pauseUntil != 0 && now < v.pauseUntil then out == [] && v1 == v
    else Unpaused(if v.throttle != 0 then v.(pauseUntil := 0) else v, now, out, v1)
  }

  lemma AfterPopsStep(v: ChannelView, now: nat, out: seq<ChannelJob>, j: ChannelJob)
    ensures var u := AfterPops(v, now, out); var m := Mature(u.queue, now);
      AfterPops(v, now, out + [j]) == u.(queue := m.(ready := m.ready - {j}), running := u.running + {j})
  {
    var u := AfterPops(v, now, out);
    var m := Mature(u.queue, now);
    var a := AfterPops(v, now, out + [j]);
    assert Elements(out + [j]) == Elements(out) + {j};
    assert m.waiting == Mature(v.queue, now).waiting;
    assert a.queue.ready == m.ready - {j} by {
      if out != [] {
        assert m.ready == u.queue.ready;
      }
    }
    assert a.running == u.running + {j};
  }

  lemma AfterNoPops(v: ChannelView, now: nat)
    ensures AfterPops(v, now, []) == v
  {
  }

  lemma PopShrinks(q: QueueView, now: nat, j: ChannelJob)
    requires q.ready !! q.waiting.Keys && Best(Mature(q, now), j)
    ensures var m := Mature(q, now); Jobs(m.(ready := m.ready - {j})) < Jobs(q)
  {
    var m := Mature(q, now);
    assert j in Jobs(q) && j !in m.waiting.Keys;
  }

  lemma PopOkExtend(v: ChannelView, now: nat, out: seq<ChannelJob>, j: ChannelJob)
    requires forall k | 0 <= k < |out| :: PopOk(v, now, out, k)
    requires var u := AfterPops(v, now, out); HasCapacity(u) && !NothingToPop(u.queue, now) && Best(Mature(u.queue,
      now), j)
    ensures forall k | 0 <= k < |out + [j]| :: PopOk(v, now, out + [j], k)
    ensures var u := AfterPops(v, now, out); var m := Mature(u.queue, now);
      AfterPops(v, now, out + [j]) == u.(queue := m.(ready := m.ready - {j}), running := u.running + {j})
  {
    AfterPopsStep(v, now, out, j);
    hide AfterPops, Mature, NothingToPop, Best, HasCapacity;
    forall k | 0 <= k < |out + [j]| ensures PopOk(v, now, out + [j], k) {
      if k < |out| {
        PopOkPrefix(v, now, out, j, k);
      } else {
        assert (out + [j])[..k] == out && (out + [j])[k] == j;
      }
    }
  }

  lemma PopOkPrefix(v: ChannelView, now: nat, out: seq<ChannelJob>, j: ChannelJob, k: nat)
    requires k < |out|
    ensures PopOk(v, now, out + [j], k) == PopOk(v, now, out, k)
  {
    assert (out + [j])[..k] == out[..k] && (out + [j])[k] == out[k];
    hide AfterPops, Mature, NothingToPop, Best, HasCapacity;
  }

  // ----- The dispatch over all channels -----

  type Outs = map<Channel, seq<ChannelJob>>

  ghost function Inflow(outs: Outs, kids: seq<Channel>): set<ChannelJob> {
    set k, j | k in kids && k in outs && j in outs[k] :: j
  }

  ghost predicate DispatchedAt(w0: World, d: Channel, now: nat, outs: Outs, w1: World)
    requires d in w0 && d in w1 && d in outs
  {
    Yields(Receive(w0[d], Inflow(outs, w0[d].children)), now, outs[d], w1[d])
  }

  ghost predicate BelowAny(d: Channel, kids: seq<Channel>) {
    exists k | k in kids :: OnPath(d, k)
  }

  ghost function Upstream(cs: set<Channel>, c: Channel): (up: set<Channel>)
    ensures up <= cs
  {
    set d | d in cs && OnPath(d, c)
  }

  ghost function UpstreamOfAny(cs: set<Channel>, kids: seq<Channel>): (up: set<Channel>)
    ensures up <= cs
  {
    set d | d in cs && BelowAny(d, kids)
  }

  /** `get_jobs_to_run` of `c`: every channel `d` from `c` upstream yields `outs[d]`. */
  ghost predicate Dispatched(w0: World, c: Channel, now: nat, outs: Outs, w1: World) {
    && w1.Keys == w0.Keys
    && outs.Keys == Upstream(w0.Keys, c)
    && (forall d | d in outs :: DispatchedAt(w0, d, now, outs, w1))
    && (forall d | d in w0 && d !in outs :: w1[d] == w0[d])
  }

  /** The state when `c` has consumed its first `n` children. */
  ghost predicate Consumed(w0: World, c: Channel, n: nat, now: nat, outs: Outs, w: World)
    requires c in w0 && n <= |w0[c].children|
  {
    var kids := w0[c].children[..n];
    && w.Keys == w0.Keys
    && outs.Keys == UpstreamOfAny(w0.Keys, kids)
    && c !in outs
    && w[c] == Receive(w0[c], Inflow(outs, kids))
    && (forall d | d in outs :: DispatchedAt(w0, d, now, outs, w))
    && (forall d | d in w0 && d !in outs && d != c :: w[d] == w0[d])
  }

  lemma ConsumedNone(w: World, c: Channel, now: nat)
    requires c in w
    ensures Consumed(w, c, 0, now, map[], w)
  {
    assert Receive(w[c], {}).queue.ready == w[c].queue.ready;
  }

  lemma {:induction false} OnPathTransitive(c: Channel, d: Channel, e: Channel)
    requires OnPath(c, d) && OnPath(d, e)
    ensures OnPath(c, e)
    decreases c.depth
  {
    if c != d { OnPathTransitive(c.parent, d, e); }
  }

  /** Channels at the same depth have no common upstream channel. */
  lemma {:induction false} DisjointSubtrees(d: Channel, a: Channel, b: Channel)
    requires OnPath(d, a) && OnPath(d, b) && a.depth == b.depth
    ensures a == b
    decreases d.depth
  {
    if d != a && d != b {
      DisjointSubtrees(d.parent, a, b);
    } else if d != a {
      NotBelow(d.parent, a);
    } else if d != b {
      NotBelow(d.parent, b);
    }
  }

  /** What lies strictly upstream of `c` lies upstream of exactly one child of `c`. */
  lemma {:induction false} SubtreeSplit(w: World, d: Channel, c: Channel)
    requires Tree(w) && d in w && c in w && d != c && OnPath(d, c)
    ensures BelowAny(d, w[c].children)
    decreases d.depth
  {
    if d.parent == c {
      assert OnPath(d, d);
    } else {
      SubtreeSplit(w, d.parent, c);
      var k :| k in w[c].children && OnPath(d.parent, k);
      assert OnPath(d, k);
    }
  }

  lemma BelowKid(w: World, c: Channel, k: Channel, d: Channel)
    requires Tree(w) && c in w && k in w[c].children && OnPath(d, k)
    ensures OnPath(d, c) && d != c
  {
    assert OnPath(k, c);
    OnPathTransitive(d, k, c);
    NotBelow(c, k);
  }

  lemma InflowLocal(w: World, d: Channel, a: Outs, b: Outs)
    requires Tree(w) && d in w
    requires forall k | k in w[d].children :: (k in a <==> k in b) && (k in a ==> a[k] == b[k])
    ensures Inflow(a, w[d].children) == Inflow(b, w[d].children)
  {
  }

  lemma KidsBelow(w: World, d: Channel, c: Channel)
    requires Tree(w) && d in w && OnPath(d, c)
    ensures forall k | k in w[d].children :: k in w && OnPath(k, c)
  {
    forall k | k in w[d].children ensures k in w && OnPath(k, c) {
      assert k.parent == d && k.depth == d.depth + 1;
    }
  }

  lemma SiblingsApart(w: World, c: Channel, n: nat, d: Channel)
    requires Tree(w) && c in w && n < |w[c].children|
    requires BelowAny(d, w[c].children[..n])
    ensures !OnPath(d, w[c].children[n])
  {
    var all := w[c].children;
    var k :| k in all[..n] && OnPath(d, k);
    assert k in all && all[n] in all;
    if OnPath(d, all[n]) {
      DisjointSubtrees(d, k, all[n]);
    }
  }

  lemma BelowAnyMore(d: Channel, kids: seq<Channel>, k: Channel)
    ensures BelowAny(d, kids + [k]) <==> BelowAny(d, kids) || OnPath(d, k)
  {
    if OnPath(d, k) {
      assert k in kids + [k];
    }
    if BelowAny(d, kids) {
      var x :| x in kids && OnPath(d, x);
      assert x in kids + [k];
    }
  }

  lemma BelowAnyKids(w: World, d: Channel, kids: seq<Channel>)
    requires Tree(w) && d in w && BelowAny(d, kids)
    ensures forall k | k in w[d].children :: k in w && BelowAny(k, kids)
  {
    var x :| x in kids && OnPath(d, x);
    KidsBelow(w, d, x);
  }

  lemma ReceiveMore(v: ChannelView, outs: Outs, o: Outs, kids: seq<Channel>, k: Channel)
    requires k in o && outs.Keys !! o.Keys && forall x | x in kids :: x !in o
    ensures Receive(Receive(v, Inflow(outs, kids)), Elements(o[k])) == Receive(v, Inflow(outs + o, kids + [k]))
  {
    assert Inflow(outs + o, kids + [k]) == Inflow(outs, kids) + Elements(o[k]) by {
      forall j | j in Inflow(outs, kids) ensures j in Inflow(outs + o, kids + [k]) {
        var x :| x in kids && x in outs && j in outs[x];
        assert x in kids + [k] && x in outs + o && j in (outs + o)[x];
      }
      assert k in kids + [k] && (outs + o)[k] == o[k];
    }
    assert v.queue.ready + Inflow(outs, kids) + Elements(o[k]) == v.queue.ready + Inflow(outs + o, kids + [k]);
  }

  lemma UpstreamMore(w: World, c: Channel, n: nat)
    requires Tree(w) && c in w && n < |w[c].children|
    ensures UpstreamOfAny(w.Keys, w[c].children[..n]) !! Upstream(w.Keys, w[c].children[n])
    ensures UpstreamOfAny(w.Keys, w[c].children[..n + 1]) ==
      UpstreamOfAny(w.Keys, w[c].children[..n]) + Upstream(w.Keys, w[c].children[n])
  {
    hide OnPath, BelowAny, Tree;
    var all, kid := w[c].children, w[c].children[n];
    assert all[..n + 1] == all[..n] + [kid];
    forall d | d in w
      ensures BelowAny(d, all[..n]) ==> !OnPath(d, kid)
      ensures BelowAny(d, all[..n + 1]) <==> BelowAny(d, all[..n]) || OnPath(d, kid)
    {
      if BelowAny(d, all[..n]) { SiblingsApart(w, c, n, d); }
      BelowAnyMore(d, all[..n], kid);
    }
  }

  lemma UpstreamOfKid(w: World, c: Channel, n: nat)
    requires Tree(w) && c in w && n < |w[c].children|
    ensures var kid := w[c].children[n];
      kid in Upstream(w.Keys, kid) && c !in Upstream(w.Keys, kid)
    ensures var up := Upstream(w.Keys, w[c].children[n]);
      forall d | d in up :: forall k | k in w[d].children :: k in up
    ensures forall x | x in w[c].children[..n] :: x !in Upstream(w.Keys, w[c].children[n])
  {
    hide OnPath, BelowAny;
    var all, kid := w[c].children, w[c].children[n];
    assert kid in all;
    OnPathRefl(kid);
    NotBelow(c, kid);
    forall d | d in Upstream(w.Keys, kid) ensures forall k | k in w[d].children :: k in Upstream(w.Keys, kid) {
      KidsBelow(w, d, kid);
    }
    forall x | x in all[..n] ensures x !in Upstream(w.Keys, kid) {
      assert x in all;
      var i :| 0 <= i < n && all[i] == x;
      if OnPath(x, kid) {
        OnPathRefl(x);
        DisjointSubtrees(x, x, kid);
      }
    }
  }

  lemma UpstreamOfAnyKids(w: World, kids: seq<Channel>)
    requires Tree(w)
    ensures var up := UpstreamOfAny(w.Keys, kids); forall d | d in up :: forall k | k in w[d].children :: k in up
  {
    hide OnPath, BelowAny;
    var up := UpstreamOfAny(w.Keys, kids);
    forall d | d in up ensures forall k | k in w[d].children :: k in up {
      BelowAnyKids(w, d, kids);
    }
  }

  lemma OnPathRefl(c: Channel)
    ensures OnPath(c, c)
  {
  }

  lemma DispatchedAtLocal(w0: World, u0: World, d: Channel, now: nat, a: Outs, w: World, b: Outs, w1: World)
    requires Tree(w0) && d in w0 && d in w && d in w1 && d in a && d in b && d in u0 && u0[d] == w0[d]
    requires DispatchedAt(u0, d, now, a, w) && w1[d] == w[d] && b[d] == a[d]
    requires forall k | k in w0[d].children :: (k in a <==> k in b) && (k in a ==> a[k] == b[k])
    ensures DispatchedAt(w0, d, now, b, w1)
  {
    hide Yields, Tree, Receive;
    InflowLocal(w0, d, a, b);
  }

  lemma ConsumedOne(w0: World, c: Channel, n: nat, now: nat, outs: Outs, w: World, o: Outs, w1: World)
    requires Tree(w0) && c in w0 && n < |w0[c].children| && Consumed(w0, c, n, now, outs, w)
    requires Dispatched(w, w0[c].children[n], now, o, w1)
    ensures w0[c].children[n] in o && c in w1
    ensures Consumed(w0, c, n + 1, now, outs + o, w1[c := Receive(w1[c], Elements(o[w0[c].children[n]]))])
  {
    hide Tree, OnPath, BelowAny, Receive, Upstream, UpstreamOfAny, Inflow, DispatchedAt;
    var all, kid := w0[c].children, w0[c].children[n];
    assert all[..n + 1] == all[..n] + [kid];
    UpstreamMore(w0, c, n);
    UpstreamOfKid(w0, c, n);
    var w2 := w1[c := Receive(w1[c], Elements(o[kid]))];
    forall d | d in o ensures DispatchedAt(w0, d, now, outs + o, w2) {
      assert d !in outs && d != c;
      DispatchedAtLocal(w0, w, d, now, o, w1, outs + o, w2);
    }
    UpstreamOfAnyKids(w0, all[..n]);
    forall d | d in outs ensures DispatchedAt(w0, d, now, outs + o, w2) {
      DispatchedAtLocal(w0, w0, d, now, outs, w, outs + o, w2);
    }
    ReceiveMore(w0[c], outs, o, all[..n], kid);
  }

  lemma UpstreamWhole(w: World, c: Channel)
    requires Tree(w) && c in w
    ensures Upstream(w.Keys, c) == UpstreamOfAny(w.Keys, w[c].children) + {c}
    ensures forall d | d in Upstream(w.Keys, c) :: c !in w[d].children
  {
    hide OnPath, BelowAny;
    OnPathRefl(c);
    forall d | d in w ensures OnPath(d, c) <==> BelowAny(d, w[c].children) || d == c {
      if BelowAny(d, w[c].children) {
        BelowAnyWitness(w, c, d);
      } else if OnPath(d, c) && d != c {
        SubtreeSplit(w, d, c);
      }
    }
    forall d | d in Upstream(w.Keys, c) ensures c !in w[d].children {
      if c in w[d].children { NotBelow(d, c); }
    }
  }

  lemma BelowAnyWitness(w: World, c: Channel, d: Channel)
    requires Tree(w) && c in w && BelowAny(d, w[c].children)
    ensures OnPath(d, c)
  {
    var k :| k in w[c].children && OnPath(d, k);
    BelowKid(w, c, k, d);
  }

  lemma ConsumedAll(w0: World, c: Channel, now: nat, outs: Outs, w: World, out: seq<ChannelJob>, v1: ChannelView)
    requires Tree(w0) && c in w0 && Consumed(w0, c, |w0[c].children|, now, outs, w)
    requires Yields(w[c], now, out, v1)
    ensures Dispatched(w0, c, now, outs[c := out], w[c := v1])
  {
    hide Tree, OnPath, BelowAny, Receive, Upstream, UpstreamOfAny, Inflow, DispatchedAt, Yields;
    var all := w0[c].children;
    assert all[..|all|] == all;
    var o, w1 := outs[c := out], w[c := v1];
    UpstreamWhole(w0, c);
    DispatchedAtItself(w0, c, now, outs, w, out, v1);
    forall d | d in outs ensures DispatchedAt(w0, d, now, o, w1) {
      DispatchedAtLocal(w0, w0, d, now, outs, w, o, w1);
    }
  }

  lemma DispatchedAtItself(w0: World, c: Channel, now: nat, outs: Outs, w: World, out: seq<ChannelJob>, v1: ChannelView)
    requires Tree(w0) && c in w0 && c in w && c !in w0[c].children
    requires w[c] == Receive(w0[c], Inflow(outs, w0[c].children)) && Yields(w[c], now, out, v1)
    ensures DispatchedAt(w0, c, now, outs[c := out], w[c := v1])
  {
    hide Yields, Tree, Receive;
    InflowLocal(w0, c, outs, outs[c := out]);
  }

  // ----- The channel objects -----

  ghost function Structure(cs: set<Channel>): set<object> {
    cs + (set c | c in cs :: c.queue) + (set c | c in cs :: c.queue.ready) + (set c | c in cs :: c.queue.waiting)
  }

  ghost function WaitingJobs(cs: set<Channel>): set<ChannelJob>
    reads Structure(cs)
  {
    set c, j | c in cs && j in c.queue.waiting.known :: j
  }

  /** The etas by which the jobs in the waiting heaps are ordered, those of removed jobs included. */
  ghost function Keys(cs: set<Channel>): map<ChannelJob, nat>
    reads Structure(cs), WaitingJobs(cs)
  {
    map j | j in WaitingJobs(cs) :: j.eta
  }

  /** Jobs may leave the heaps; no eta of a job that stays has changed. */
  ghost predicate Kept(before: map<ChannelJob, nat>, after: map<ChannelJob, nat>) {
    forall j | j in after :: j in before && after[j] == before[j]
  }

  lemma KeptItself(keys: map<ChannelJob, nat>)
    ensures Kept(keys, keys)
  {
  }

  lemma KeptTwice(a: map<ChannelJob, nat>, b: map<ChannelJob, nat>, c: map<ChannelJob, nat>)
    requires Kept(a, b) && Kept(b, c)
    ensures Kept(a, c)
  {
  }

  ghost function Held(cs: set<Channel>): set<ChannelJob>
    reads Structure(cs)
  {
    (set c, j | c in cs && j in c.queue.ready.known :: j) + WaitingJobs(cs)
  }

  /** No two channels share a queue. */
  ghost predicate Separate(cs: set<Channel>) {
    forall c, d | c in cs && d in cs && c != d ::
      c.queue != d.queue && {c.queue.ready, c.queue.waiting} !! {d.queue.ready, d.queue.waiting}
  }

  ghost predicate AllValid(cs: set<Channel>)
    reads Structure(cs), Held(cs)
  {
    Separate(cs) && forall c | c in cs :: c.Valid()
  }

  ghost function Snapshot(cs: set<Channel>): (w: World)
    requires AllValid(cs)
    reads Structure(cs), Held(cs)
    ensures w.Keys == cs
  {
    map c | c in cs :: c.View()
  }

  /** A channel with a capacity, a throttle and a queue; the set `cs` of its methods is the whole tree. */
  class Channel {
    const name: string
    const parent: Channel?
    ghost const depth: nat
    const queue: ChannelQueue
    var children: seq<Channel>
    var running: set<ChannelJob>
    var failed: set<ChannelJob>
    var pauseUntil: nat
    var capacity: Option<int>
    var throttle: nat

    ghost predicate Valid()
      reads this, queue, queue.ready, queue.waiting, queue.ready.known, queue.waiting.known
    {
      queue.Valid() && forall j | j in queue.waiting.known :: j.channel == this
    }

    ghost function View(): ChannelView
      requires Valid()
      reads this, queue, queue.ready, queue.waiting, queue.ready.known, queue.waiting.known
    {
      ChannelView(queue.View(), running, failed, pauseUntil, capacity, throttle, children)
    }

    ghost function Parts(): set<object> {
      {this, queue, queue.ready, queue.waiting}
    }

    constructor (name: string, parent: Channel?, capacity: Option<int>)
      ensures this.name == name && this.parent == parent && depth == (if parent == null then 0 else parent.depth + 1)
      ensures fresh(Parts()) && Valid()
      ensures View() == ChannelView(QueueView({}, map[], false), {}, {}, 0, capacity, 0, [])
      ensures queue.ready.known == {} && queue.waiting.known == {}
    {
      this.name, this.parent, this.capacity := name, parent, capacity;
      depth := if parent == null then 0 else parent.depth + 1;
      queue := new ChannelQueue();
      children, running, failed, pauseUntil, throttle := [], {}, {}, 0, 0;
    }

    /** `configure`; false stands for the error that is raised once the settings are stored. */
    method Configure(capacity: Option<int>, sequential: bool, throttle: nat) returns (ok: bool)
      requires Valid()
      modifies `capacity, `throttle, queue`sequential
      ensures Valid() && ok == (sequential ==> capacity == Some(1))
      ensures View() == var v := old(View());
        v.(capacity := capacity, throttle := throttle, queue := v.queue.(sequential := sequential))
    {
      hide PriorityQueue.Valid, PriorityQueue.Contents;
      this.capacity := capacity;
      queue.sequential := sequential;
      this.throttle := throttle;
      ok := !sequential || capacity == Some(1);
    }

    // ----- The part of each operation that concerns this channel only -----

    method RemoveHere(job: ChannelJob)
      requires Valid()
      modifies queue.ready, queue.waiting, `running, `failed
      ensures Valid() && View() == Without(old(View()), job)
    {
      hide PriorityQueue.Valid, PriorityQueue.Contents;
      queue.Remove(job);
      running := running - {job};
      failed := failed - {job};
    }

    method PendingHere(job: ChannelJob)
      requires Valid() && job.channel == this
      modifies queue.ready, queue.waiting, `running, `failed
      ensures Valid() && View() == AsPending(old(View()), job, job.eta)
    {
      hide PriorityQueue.Valid, PriorityQueue.Contents;
      queue.Add(job);
      running := running - {job};
      failed := failed - {job};
    }

    method RunningHere(job: ChannelJob)
      requires Valid()
      modifies queue.ready, queue.waiting, `running, `failed
      ensures Valid() && View() == AsRunning(old(View()), job)
    {
      hide PriorityQueue.Valid, PriorityQueue.Contents;
      queue.Remove(job);
      running := running + {job};
      failed := failed - {job};
    }

    method FailedHere(job: ChannelJob)
      requires Valid()
      modifies queue.ready, queue.waiting, `running, `failed
      ensures Valid() && View() == AsFailed(old(View()), job)
    {
      hide PriorityQueue.Valid, PriorityQueue.Contents;
      queue.Remove(job);
      running := running - {job};
      failed := failed + {job};
    }

    method ReceiveHere(job: ChannelJob)
      requires Valid() && job.eta == 0
      modifies queue.ready, queue.waiting
      ensures Valid() && View() == Receive(old(View()), {job})
      ensures queue.waiting.known == old(queue.waiting.known)
    {
      hide PriorityQueue.Valid, PriorityQueue.Contents;
      queue.Add(job);
    }

    method PopHere(now: nat) returns (r: Option<ChannelJob>)
      requires Valid()
      modifies queue.ready, queue.waiting, queue.waiting.known`eta
      ensures Valid() && queue.waiting.known <= old(queue.waiting.known)
      ensures forall j | j in old(queue.waiting.known) :: j.eta == old(j.eta) || j.eta == 0
      ensures r.None? <==> NothingToPop(old(View()).queue, now)
      ensures var m := Mature(old(View()).queue, now); View() == old(View()).(queue := 
        if r.None? then m else m.(ready := m.ready - {r.value}))
      ensures r.Some? ==> r.value.eta == 0 && Best(Mature(old(View()).queue, now), r.value)
    {
      hide PriorityQueue.Valid, PriorityQueue.Contents, Mature, NothingToPop, Best;
      r := queue.Pop(now);
    }

    /** Pops a job and marks it running here. */
    method TakeHere(now: nat) returns (r: Option<ChannelJob>)
      requires Valid()
      modifies queue.ready, queue.waiting, queue.waiting.known`eta, `running
      ensures Valid() && queue.waiting.known <= old(queue.waiting.known)
      ensures forall j | j in old(queue.waiting.known) :: j.eta == old(j.eta) || j.eta == 0
      ensures r.None? <==> NothingToPop(old(View()).queue, now)
      ensures r.None? ==> View() == old(View()).(queue := Mature(old(View()).queue, now))
      ensures r.Some? ==> var v, m := old(View()), Mature(old(View()).queue, now);
        View() == v.(queue := m.(ready := m.ready - {r.value}), running := v.running + {r.value})
      ensures r.Some? ==> r.value.eta == 0 && Best(Mature(old(View()).queue, now), r.value)
    {
      hide PriorityQueue.Valid, PriorityQueue.Contents, ChannelQueue.Valid, ChannelQueue.View, Mature,
        NothingToPop, Best;
      r := PopHere(now);
      if r.Some? {
        running := running + {r.value};
      }
    }

    predicate HasQueued(job: ChannelJob): (b: bool)
      requires Valid()
      reads this, queue, queue.ready, queue.waiting, queue.ready.known, queue.waiting.known
      ensures b <==> job in Jobs(View().queue)
    {
      queue.Contains(job)
    }

    predicate HasCapacityHere()
      reads this, queue
    {
      if queue.sequential && failed != {} then false
      else if capacity.None? || capacity.value == 0 then true
      else |running| < capacity.value
    }

    lemma CapacityIsViewed()
      requires Valid()
      ensures HasCapacityHere() <==> HasCapacity(View())
    {
    }

    /** The loop that yields jobs while there is capacity. */
    method YieldUnpaused(now: nat) returns (out: seq<ChannelJob>)
      requires Valid()
      modifies queue.ready, queue.waiting, queue.waiting.known`eta, `running, `pauseUntil
      ensures Valid() && queue.waiting.known <= old(queue.waiting.known)
      ensures forall j | j in old(queue.waiting.known) :: j.eta == old(j.eta) || j.eta == 0
      ensures Unpaused(old(View()), now, out, View())
      ensures forall j | j in out :: j.eta == 0
    {
      hide PriorityQueue.Valid, PriorityQueue.Contents, ChannelQueue.Valid, ChannelQueue.View, Mature,
        NothingToPop, Best, AfterPops, PopOk, HasCapacity, HasCapacityHere, Jobs;
      ghost var v := View();
      out := [];
      AfterNoPops(v, now);
      CapacityIsViewed();
      while HasCapacityHere()
        invariant Valid() && queue.waiting.known <= old(queue.waiting.known)
        invariant forall j | j in old(queue.waiting.known) :: j.eta == old(j.eta) || j.eta == 0
        invariant View() == AfterPops(v, now, out) && forall k | 0 <= k < |out| :: PopOk(v, now, out, k)
        invariant throttle == v.throttle && (throttle != 0 ==> out == [])
        invariant forall j | j in out :: j.eta == 0
        invariant HasCapacityHere() <==> HasCapacity(View())
        decreases Jobs(View().queue)
      {
        ghost var u := View();
        var r := TakeHere(now);
        if r.None? { return; }
        var job := r.value;
        PopShrinks(u.queue, now, job);
        PopOkExtend(v, now, out, job);
        out := out + [job];
        if throttle != 0 {
          pauseUntil := now + throttle;
          return;
        }
        CapacityIsViewed();
      }
    }

    method YieldHere(now: nat) returns (out: seq<ChannelJob>)
      requires Valid()
      modifies queue.ready, queue.waiting, queue.waiting.known`eta, `running, `pauseUntil
      ensures Valid() && queue.waiting.known <= old(queue.waiting.known)
      ensures forall j | j in old(queue.waiting.known) :: j.eta == old(j.eta) || j.eta == 0
      ensures Yields(old(View()), now, out, View())
      ensures forall j | j in out :: j.eta == 0
    {
      hide PriorityQueue.Valid, PriorityQueue.Contents, ChannelQueue.Valid, ChannelQueue.View, Unpaused;
      if throttle != 0 && pauseUntil != 0 {
        if now < pauseUntil { return []; }
        pauseUntil := 0;
      }
      out := YieldUnpaused(now);
    }

    // ----- The operations -----

    method Remove(job: ChannelJob, ghost cs: set<Channel>)
      requires this in cs && AllValid(cs) && Tree(Snapshot(cs))
      modifies Structure(cs)
      ensures AllValid(cs) && Tree(Snapshot(cs))
      ensures Snapshot(cs) == RemoveUp(old(Snapshot(cs)), this, job)
      decreases depth
    {
      hide PriorityQueue.Valid, ChannelQueue.Valid, Channel.Valid, Channel.View, ChannelQueue.View,
        PriorityQueue.Contents, Without, Tree, RemoveUp;
      ghost var w := Snapshot(cs);
      RemoveUpStep(w, this, job);
      RemoveHere(job);
      forall d | d in cs && d != this ensures d.Valid() && d.View() == old(d.View()) {
      }
      assert Snapshot(cs) == w[this := Without(w[this], job)];
      if parent != null {
        ParentInTree(w, this);
        parent.Remove(job, cs);
      }
    }

    method SetDone(job: ChannelJob, ghost cs: set<Channel>)
      requires this in cs && AllValid(cs) && Tree(Snapshot(cs))
      modifies Structure(cs)
      ensures AllValid(cs) && Tree(Snapshot(cs))
      ensures Snapshot(cs) == RemoveUp(old(Snapshot(cs)), this, job)
    {
      Remove(job, cs);
    }

    method SetPending(job: ChannelJob, ghost cs: set<Channel>)
      requires this in cs && AllValid(cs) && Tree(Snapshot(cs)) && job.channel == this
      modifies Structure(cs)
      ensures AllValid(cs) && Tree(Snapshot(cs))
      ensures Snapshot(cs) == PendingUp(old(Snapshot(cs)), this, job, job.eta)
    {
      hide PriorityQueue.Valid, ChannelQueue.Valid, Channel.Valid, Channel.View, ChannelQueue.View,
        PriorityQueue.Contents, HasQueued, AsPending, Tree, TreeAt, RemoveUp, Jobs;
      ghost var w := Snapshot(cs);
      if !HasQueued(job) {
        PendingHere(job);
        forall d | d in cs && d != this ensures d.Valid() && d.View() == old(d.View()) {
        }
        ghost var w1 := w[this := AsPending(w[this], job, job.eta)];
        assert Snapshot(cs) == w1;
        PendingKeepsChildren(w[this], job, job.eta);
        TreeKept(w, w1);
        if parent != null {
          ParentInTree(w, this);
          parent.Remove(job, cs);
        }
      }
    }

    method SetFailed(job: ChannelJob, ghost cs: set<Channel>)
      requires this in cs && AllValid(cs) && Tree(Snapshot(cs))
      modifies Structure(cs)
      ensures AllValid(cs) && Tree(Snapshot(cs))
      ensures Snapshot(cs) == FailedUp(old(Snapshot(cs)), this, job)
    {
      hide PriorityQueue.Valid, ChannelQueue.Valid, Channel.Valid, ChannelQueue.View, PriorityQueue.Contents,
        Tree, RemoveUp;
      ghost var w := Snapshot(cs);
      if job !in failed {
        FailedHere(job);
        forall d | d in cs && d != this ensures d.Valid() && d.View() == old(d.View()) {
        }
        ghost var w1 := w[this := AsFailed(w[this], job)];
        assert Snapshot(cs) == w1;
        TreeKept(w, w1);
        if parent != null {
          ParentInTree(w, this);
          parent.Remove(job, cs);
        }
      }
    }

    method SetRunning(job: ChannelJob, ghost cs: set<Channel>)
      requires this in cs && AllValid(cs) && Tree(Snapshot(cs))
      modifies Structure(cs)
      ensures AllValid(cs) && Tree(Snapshot(cs))
      ensures Snapshot(cs) == RunningUp(old(Snapshot(cs)), this, job)
      decreases depth
    {
      hide PriorityQueue.Valid, ChannelQueue.Valid, Channel.Valid, ChannelQueue.View, PriorityQueue.Contents,
        Tree;
      ghost var w := Snapshot(cs);
      if job !in running {
        RunningHere(job);
        forall d | d in cs && d != this ensures d.Valid() && d.View() == old(d.View()) {
        }
        ghost var w1 := w[this := AsRunning(w[this], job)];
        assert Snapshot(cs) == w1;
        TreeKept(w, w1);
        if parent != null {
          ParentInTree(w, this);
          parent.SetRunning(job, cs);
        }
      }
    }

    /** Consumes what a child yielded. */
    method ReceiveAll(jobs: seq<ChannelJob>, ghost cs: set<Channel>)
      requires this in cs && AllValid(cs) && Tree(Snapshot(cs)) && forall j | j in jobs :: j.eta == 0
      modifies queue.ready, queue.waiting
      ensures AllValid(cs) && Tree(Snapshot(cs)) && WaitingJobs(cs) == old(WaitingJobs(cs))
      ensures Keys(cs) == old(Keys(cs))
      ensures Snapshot(cs) == old(Snapshot(cs))[this := Receive(old(Snapshot(cs))[this], Elements(jobs))]
    {
      hide PriorityQueue.Valid, ChannelQueue.Valid, Channel.Valid, Channel.View, ChannelQueue.View,
        PriorityQueue.Contents, Tree, Receive;
      ghost var w := Snapshot(cs);
      ReceiveNone(w[this]);
      for k := 0 to |jobs|
        invariant AllValid(cs) && queue.waiting.known == old(queue.waiting.known)
        invariant Snapshot(cs) == w[this := Receive(w[this], Elements(jobs[..k]))]
      {
        label before:
        ReceiveHere(jobs[k]);
        forall d | d in cs && d != this ensures d.Valid() && d.View() == old@before(d.View()) {
        }
        assert jobs[..k + 1] == jobs[..k] + [jobs[k]];
        ReceiveTwice(w[this], Elements(jobs[..k]), jobs[k]);
        assert Elements(jobs[..k + 1]) == Elements(jobs[..k]) + {jobs[k]};
      }
      assert jobs[..|jobs|] == jobs;
      ReceiveKeepsChildren(w[this], Elements(jobs));
      TreeKept(w, Snapshot(cs));
    }

    /** Yields jobs of this channel, the other channels staying as they are. */
    method YieldAlone(now: nat, ghost cs: set<Channel>) returns (out: seq<ChannelJob>)
      requires this in cs && AllValid(cs)
      modifies Structure(cs), WaitingJobs(cs)`eta
      ensures AllValid(cs) && WaitingJobs(cs) <= old(WaitingJobs(cs)) && Kept(old(Keys(cs)), Keys(cs))
      ensures Yields(old(View()), now, out, View()) && forall j | j in out :: j.eta == 0
      ensures forall d | d in cs && d != this :: d.View() == old(d.View())
    {
      hide PriorityQueue.Valid, ChannelQueue.Valid, Channel.Valid, Channel.View, ChannelQueue.View,
        PriorityQueue.Contents, Yields;
      forall d | d in cs && d != this
        ensures queue.waiting.known !! d.queue.ready.known + d.queue.waiting.known
      {
        KnownApart(cs, this, d);
      }
      out := YieldHere(now);
      forall d | d in cs && d != this
        ensures d.Valid() && d.View() == old(d.View()) && d.queue.waiting.known == old(d.queue.waiting.known)
      {
      }
      WaitingHaveEta(cs);
    }

    method YieldAt(now: nat, ghost cs: set<Channel>) returns (out: seq<ChannelJob>)
      requires this in cs && AllValid(cs) && Tree(Snapshot(cs))
      modifies Structure(cs), WaitingJobs(cs)`eta
      ensures AllValid(cs) && Tree(Snapshot(cs)) && WaitingJobs(cs) <= old(WaitingJobs(cs))
      ensures Snapshot(cs) == old(Snapshot(cs))[this := Snapshot(cs)[this]]
      ensures Yields(old(Snapshot(cs))[this], now, out, Snapshot(cs)[this])
      ensures Kept(old(Keys(cs)), Keys(cs))
      ensures forall j | j in out :: j.eta == 0
    {
      hide PriorityQueue.Valid, ChannelQueue.Valid, Channel.Valid, Channel.View, ChannelQueue.View,
        PriorityQueue.Contents, Tree, Yields, WaitingJobs, Keys, Kept;
      ghost var w := Snapshot(cs);
      out := YieldAlone(now, cs);
      ghost var w1 := w[this := View()];
      assert Snapshot(cs) == w1;
      YieldsKeepsChildren(w[this], now, out, View());
      TreeKept(w, w1);
    }

    /** No key changes while its job waits in a heap: a dispatch clears the etas only of jobs that it takes out. */
    method GetJobsToRun(now: nat, ghost cs: set<Channel>) returns (out: seq<ChannelJob>, ghost outs: Outs)
      requires this in cs && AllValid(cs) && Tree(Snapshot(cs))
      modifies Structure(cs), WaitingJobs(cs)`eta
      ensures AllValid(cs) && Tree(Snapshot(cs)) && WaitingJobs(cs) <= old(WaitingJobs(cs))
      ensures this in outs && out == outs[this] && forall j | j in out :: j.eta == 0
      ensures Dispatched(old(Snapshot(cs)), this, now, outs, Snapshot(cs))
      ensures Kept(old(Keys(cs)), Keys(cs))
      decreases Deeper(cs, this)
    {
      hide PriorityQueue.Valid, ChannelQueue.Valid, Channel.Valid, ChannelQueue.View, PriorityQueue.Contents,
        Tree, Yields, AllValid, Snapshot, WaitingJobs, Consumed, Dispatched, Deeper, Receive, Upstream, OnPath, Keys,
        Kept;
      ghost var w0 := Snapshot(cs);
      ghost var keys := Keys(cs);
      outs := map[];
      ChildrenInSnapshot(this, cs);
      ConsumedNone(w0, this, now);
      KeptItself(keys);
      for i := 0 to |children|
        invariant AllValid(cs) && Tree(Snapshot(cs)) && WaitingJobs(cs) <= old(WaitingJobs(cs))
        invariant children == w0[this].children
        invariant Kept(keys, Keys(cs))
        invariant Consumed(w0, this, i, now, outs, Snapshot(cs))
      {
        ghost var w, before := Snapshot(cs), Keys(cs);
        ConsumedKeepsChildren(w0, this, i, now, outs, w);
        KidIsDeeper(w, this, i);
        var jobs, o := children[i].GetJobsToRun(now, cs);
        ghost var w1 := Snapshot(cs);
        ReceiveAll(jobs, cs);
        ConsumedOne(w0, this, i, now, outs, w, o, w1);
        KeptTwice(keys, before, Keys(cs));
        outs := outs + o;
        ConsumedKeepsChildren(w0, this, i + 1, now, outs, Snapshot(cs));
        ChildrenInSnapshot(this, cs);
      }
      ghost var w, before := Snapshot(cs), Keys(cs);
      out := YieldAt(now, cs);
      ConsumedAll(w0, this, now, outs, w, out, Snapshot(cs)[this]);
      outs := outs[this := out];
      KeptTwice(keys, before, Keys(cs));
    }

    /** The wakeup time of this channel's own queue. */
    method QueueWakeupAt(wakeupTime: nat, ghost cs: set<Channel>) returns (r: nat)
      requires this in cs && AllValid(cs)
      modifies Structure(cs)
      ensures AllValid(cs) && Snapshot(cs) == old(Snapshot(cs)) && WaitingJobs(cs) <= old(WaitingJobs(cs))
      ensures IsLeastTime(Etas(Snapshot(cs)[this].queue) + Time(wakeupTime), r)
    {
      hide PriorityQueue.Valid, ChannelQueue.Valid, ChannelQueue.View, PriorityQueue.Contents, Etas, Time,
        IsLeastTime;
      r := queue.GetWakeupTime(wakeupTime);
      assert Valid() && View() == old(View());
      forall d | d in cs && d != this ensures d.Valid() && d.View() == old(d.View()) {
        hide Channel.Valid, Channel.View;
      }
    }

    method GetWakeupTime(wakeupTime: nat, ghost cs: set<Channel>) returns (r: nat)
      requires this in cs && AllValid(cs) && Tree(Snapshot(cs)) && Timed(Snapshot(cs))
      modifies Structure(cs)
      ensures AllValid(cs) && Snapshot(cs) == old(Snapshot(cs)) && WaitingJobs(cs) <= old(WaitingJobs(cs))
      ensures IsLeastTime(WakeTimes(Snapshot(cs), this) + Time(wakeupTime), r)
      decreases Deeper(cs, this), 1
    {
      hide PriorityQueue.Valid, ChannelQueue.Valid, Channel.Valid, ChannelQueue.View, PriorityQueue.Contents,
        Channel.View, WaitingJobs, HasCapacity, HasCapacityHere, Tree, Timed, AllValid, Snapshot, Deeper, Etas, Time,
        IsLeastTime, WakeTimes, TimesOf;
      ghost var w := Snapshot(cs);
      SnapshotHere(this, cs);
      r := wakeupTime;
      if !HasCapacityHere() {
        WakeTimesWhenFull(w, this, r);
        return;
      }
      if pauseUntil != 0 {
        r := if r == 0 || pauseUntil < r then pauseUntil else r;
        WakeTimesWhenPaused(w, this, wakeupTime, r);
        return;
      }
      r := QueueWakeupAt(r, cs);
      r := ChildrenWakeupTime(wakeupTime, r, cs);
      WakeTimesOfAll(w, this, wakeupTime, r);
    }

    /** The loop over the children, where `own` is the wakeup time so far. */
    method ChildrenWakeupTime(ghost wakeupTime: nat, own: nat, ghost cs: set<Channel>) returns (r: nat)
      requires this in cs && AllValid(cs) && Tree(Snapshot(cs)) && Timed(Snapshot(cs))
      requires IsLeastTime(Etas(Snapshot(cs)[this].queue) + Time(wakeupTime), own)
      modifies Structure(cs)
      ensures AllValid(cs) && Snapshot(cs) == old(Snapshot(cs)) && WaitingJobs(cs) <= old(WaitingJobs(cs))
      ensures var v := Snapshot(cs)[this];
        IsLeastTime(Etas(v.queue) + Time(wakeupTime) + TimesOf(Snapshot(cs), v.children[..|v.children|]), r)
      decreases Deeper(cs, this), 0
    {
      hide PriorityQueue.Valid, ChannelQueue.Valid, Channel.Valid, ChannelQueue.View, PriorityQueue.Contents,
        Channel.View, WaitingJobs, HasCapacity, HasCapacityHere, Timed, Tree, AllValid, Snapshot, Deeper, Etas, Time,
        IsLeastTime, WakeTimes, TimesOf;
      ghost var w := Snapshot(cs);
      r := own;
      TimesOfNone(w, Etas(w[this].queue) + Time(wakeupTime), r);
      SnapshotHere(this, cs);
      for i := 0 to |children|
        invariant AllValid(cs) && Snapshot(cs) == w && children == w[this].children
        invariant WaitingJobs(cs) <= old(WaitingJobs(cs))
        invariant IsLeastTime(Etas(w[this].queue) + Time(wakeupTime) + TimesOf(w, children[..i]), r)
      {
        KidIsDeeper(w, this, i);
        ghost var before := r;
        r := children[i].GetWakeupTime(r, cs);
        SnapshotHere(this, cs);
        TimesOfOneMore(w, this, wakeupTime, i, before, r);
      }
    }
  }

  // ----- The times at which the channels ask to be woken up -----

  ghost predicate Timed(w: World) {
    forall c | c in w :: AllTimed(w[c].queue)
  }

  lemma KidsAreDeeper(w: World, c: Channel)
    requires Tree(w) && c in w
    ensures forall k | k in w[c].children :: k in w && Deeper(w.Keys, k) < Deeper(w.Keys, c)
  {
    forall k | k in w[c].children ensures k in w && Deeper(w.Keys, k) < Deeper(w.Keys, c) {
      var i :| 0 <= i < |w[c].children| && w[c].children[i] == k;
      KidIsDeeper(w, c, i);
    }
  }

  ghost function WakeTimes(w: World, c: Channel): (s: set<nat>)
    requires Tree(w) && c in w
    ensures Timed(w) ==> 0 !in s
    decreases Deeper(w.Keys, c)
  {
    if !HasCapacity(w[c]) then {}
    else if w[c].pauseUntil != 0 then {w[c].pauseUntil}
    else
      KidsAreDeeper(w, c);
      Etas(w[c].queue) + set k, t | k in w[c].children && t in WakeTimes(w, k) :: t
  }

  ghost function TimesOf(w: World, kids: seq<Channel>): (s: set<nat>)
    requires Tree(w)
    ensures Timed(w) ==> 0 !in s
  {
    set k, t | k in kids && k in w && t in WakeTimes(w, k) :: t
  }

  lemma SnapshotHere(c: Channel, cs: set<Channel>)
    requires AllValid(cs) && c in cs
    ensures var v := Snapshot(cs)[c];
      v.children == c.children && v.pauseUntil == c.pauseUntil && HasCapacity(v) == c.HasCapacityHere()
  {
  }

  lemma TimesOfNone(w: World, s: set<nat>, r: nat)
    requires Tree(w) && IsLeastTime(s, r)
    ensures IsLeastTime(s + TimesOf(w, []), r)
  {
    assert s + TimesOf(w, []) == s;
  }

  lemma WakeTimesWhenFull(w: World, c: Channel, t: nat)
    requires Tree(w) && c in w && !HasCapacity(w[c])
    ensures IsLeastTime(WakeTimes(w, c) + Time(t), t)
  {
    assert WakeTimes(w, c) + Time(t) == Time(t);
  }

  lemma WakeTimesWhenPaused(w: World, c: Channel, t: nat, r: nat)
    requires Tree(w) && c in w && HasCapacity(w[c]) && w[c].pauseUntil != 0
    requires r == if t == 0 || w[c].pauseUntil < t then w[c].pauseUntil else t
    ensures IsLeastTime(WakeTimes(w, c) + Time(t), r)
  {
  }

  lemma LeastTimeOfUnion(s: set<nat>, t: nat, u: set<nat>, r: nat)
    requires 0 !in s && IsLeastTime(s, t) && IsLeastTime(u + Time(t), r)
    ensures IsLeastTime(s + u, r)
  {
    if s == {} {
      assert u + Time(t) == s + u;
    } else {
      assert r in s + u;
      forall x | x in s + u ensures r <= x {
        assert t in u + Time(t);
        if x in u { assert x in u + Time(t); }
      }
    }
  }

  lemma TimesOfOneMore(w: World, c: Channel, t: nat, i: nat, before: nat, r: nat)
    requires Tree(w) && Timed(w) && c in w && i < |w[c].children| && w[c].children[i] in w
    requires IsLeastTime(Etas(w[c].queue) + Time(t) + TimesOf(w, w[c].children[..i]), before)
    requires IsLeastTime(WakeTimes(w, w[c].children[i]) + Time(before), r)
    ensures IsLeastTime(Etas(w[c].queue) + Time(t) + TimesOf(w, w[c].children[..i + 1]), r)
  {
    hide WakeTimes, IsLeastTime, Tree, TimesOf, Etas, Time, Timed;
    var kids, kid := w[c].children[..i], w[c].children[i];
    assert w[c].children[..i + 1] == kids + [kid];
    TimesOfSnoc(w, kids, kid);
    var own := Etas(w[c].queue) + Time(t);
    assert own + TimesOf(w, kids) + WakeTimes(w, kid) == own + TimesOf(w, kids + [kid]);
    NoZeroTime(w, c, t);
    LeastTimeOfUnion(own + TimesOf(w, kids), before, WakeTimes(w, kid), r);
  }

  lemma NoZeroTime(w: World, c: Channel, t: nat)
    requires Timed(w) && c in w
    ensures 0 !in Etas(w[c].queue) + Time(t)
  {
  }

  lemma TimesOfSnoc(w: World, kids: seq<Channel>, kid: Channel)
    requires Tree(w) && kid in w
    ensures TimesOf(w, kids + [kid]) == TimesOf(w, kids) + WakeTimes(w, kid)
  {
    hide WakeTimes, Tree;
    forall x | x in TimesOf(w, kids) + WakeTimes(w, kid) ensures x in TimesOf(w, kids + [kid]) {
      if x in TimesOf(w, kids) {
        var k :| k in kids && k in w && x in WakeTimes(w, k);
        assert k in kids + [kid];
      } else {
        assert kid in kids + [kid];
      }
    }
  }

  lemma WakeTimesOfAll(w: World, c: Channel, t: nat, r: nat)
    requires Tree(w) && c in w && HasCapacity(w[c]) && w[c].pauseUntil == 0
    requires IsLeastTime(Etas(w[c].queue) + Time(t) + TimesOf(w, w[c].children[..|w[c].children|]), r)
    ensures IsLeastTime(WakeTimes(w, c) + Time(t), r)
  {
    var kids := w[c].children;
    assert kids[..|kids|] == kids;
    assert WakeTimes(w, c) + Time(t) == Etas(w[c].queue) + Time(t) + TimesOf(w, kids);
  }

  lemma YieldsKeepsChildren(v: ChannelView, now: nat, out: seq<ChannelJob>, v1: ChannelView)
    requires Yields(v, now, out, v1)
    ensures v1.children == v.children
  {
  }

  lemma ChildrenInSnapshot(c: Channel, cs: set<Channel>)
    requires AllValid(cs) && c in cs
    ensures Snapshot(cs)[c].children == c.children
  {
  }

  lemma ConsumedKeepsChildren(w0: World, c: Channel, n: nat, now: nat, outs: Outs, w: World)
    requires c in w0 && n <= |w0[c].children| && Consumed(w0, c, n, now, outs, w)
    ensures c in w && w[c].children == w0[c].children
  {
  }

  lemma KidIsDeeper(w: World, c: Channel, i: nat)
    requires Tree(w) && c in w && i < |w[c].children|
    ensures w[c].children[i] in w && Deeper(w.Keys, w[c].children[i]) < Deeper(w.Keys, c)
  {
    var kid := w[c].children[i];
    assert kid in w[c].children;
    assert kid.depth == c.depth + 1;
    assert kid in Deeper(w.Keys, c) && kid !in Deeper(w.Keys, kid);
  }

  lemma WaitingHaveEta(cs: set<Channel>)
    requires AllValid(cs)
    ensures forall j | j in WaitingJobs(cs) :: j.eta != 0
  {
    hide PriorityQueue.Valid;
    assert forall c | c in cs :: c.Valid();
  }

  lemma KnownApart(cs: set<Channel>, c: Channel, d: Channel)
    requires AllValid(cs) && c in cs && d in cs && c != d
    ensures c.queue.waiting.known !! d.queue.ready.known + d.queue.waiting.known
  {
    hide PriorityQueue.Valid;
    assert c.Valid() && d.Valid();
  }

  lemma PendingKeepsChildren(v: ChannelView, job: ChannelJob, eta: nat)
    ensures AsPending(v, job, eta).children == v.children
  {
  }

  lemma ReceiveNone(v: ChannelView)
    ensures Receive(v, Elements([])) == v
  {
    assert v.queue.ready + Elements([]) == v.queue.ready;
  }

  lemma ReceiveTwice(v: ChannelView, a: set<ChannelJob>, j: ChannelJob)
    ensures Receive(Receive(v, a), {j}) == Receive(v, a + {j})
  {
    assert v.queue.ready + a + {j} == v.queue.ready + (a + {j});
  }

  lemma ReceiveKeepsChildren(v: ChannelView, a: set<ChannelJob>)
    ensures Receive(v, a).children == v.children
  {
  }
}
