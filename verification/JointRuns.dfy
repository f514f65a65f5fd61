/** The channel manager, the store and the workers together: what holds of them, taken step by step. */
module JointRuns {
  import opened Sequences
  import opened Channels
  import opened Location
  import opened JobStates
  import opened Scheduling
  import opened RunnerView
  import P = JobProtocol
  import E = Executors
  import R = Runs

  /**
   * The channels with their jobs, the store with its requests and workers, and the jobs that a dispatch has yielded but
   * that have not been sent on their way yet. What a runner sees is told by the channels, not by the store.
   */
  datatype Joint = Joint(run: R.RunState, store: P.System, outbox: seq<string>)

  /** A call of the channel manager, sending a job on its way, or what workers, requests and operators do meanwhile. */
  datatype Event = Managed(call: R.Event) | Send | Stored(event: P.Event)

  /** A job that waits to be sent is still queued, as far as the store is concerned. */
  ghost function SeenBy(j: Joint): map<string, P.Seen> {
    var shown := Shown(j.run.schedule);
    map u | u in shown :: if u in j.outbox then P.Queued else shown[u]
  }

  ghost function SystemOf(j: Joint): P.System {
    j.store.(seen := SeenBy(j))
  }

  function UuidsOf(out: seq<ChannelJob>): (uuids: seq<string>)
    ensures |uuids| == |out| && forall i | 0 <= i < |out| :: uuids[i] == out[i].uuid
  {
    if out == [] then [] else UuidsOf(out[..|out| - 1]) + [out[|out| - 1].uuid]
  }

  /** A notification tells the state that is in the row when it is processed. */
  ghost predicate ReadsRow(store: P.System, call: R.Event) {
    match call
    case NotifyKept(j, _, state) => j.uuid in store.rows && state == Some(store.rows[j.uuid])
    case NotifyAnew(j, _, state) => j.uuid in store.rows && state == Some(store.rows[j.uuid])
    case _ => true
  }

  /** `set_job_enqueued` and the request that follows it. */
  ghost function Sent(store: P.System, u: string): P.System {
    var t := if u in store.rows then P.SetRow(store, u, Enqueued) else store;
    t.(requests := t.requests + multiset{u})
  }

  /** The runner calls the channel manager again only when it has sent all jobs that the last dispatch yielded. */
  ghost predicate Step(root: Channel, a: Joint, e: Event, b: Joint) {
    match e
    case Managed(call) =>
      && a.outbox == [] && b.store == a.store
      && R.Step(root, a.run, call, b.run) && ReadsRow(a.store, call)
      && (call.Dispatch? ==> root in call.outs)
      && b.outbox == if call.Dispatch? then UuidsOf(call.outs[root]) else []
    case Send =>
      a.outbox != [] && b == Joint(a.run, Sent(a.store, a.outbox[0]), a.outbox[1..])
    case Stored(event) =>
      && !event.Notify? && !event.Drop? && !event.Dispatch?
      && b.run == a.run && b.outbox == a.outbox && P.Step(SystemOf(a), event, SystemOf(b))
  }

  /** A runner starts with no jobs, whatever earlier runners, workers and operators have left in the store. */
  ghost predicate Begins(root: Channel, j: Joint) {
    && Consistent(j.run.schedule, root) && root in j.run.schedule.world
    && j.run.schedule.jobs == map[] && j.outbox == []
    && P.Safe(SystemOf(j)) && E.Single(SystemOf(j))
  }

  ghost predicate Run(root: Channel, states: seq<Joint>, events: seq<Event>) {
    && |states| == |events| + 1 && Begins(root, states[0])
    && forall i, k | 0 <= i && k == i + 1 < |states| :: Step(root, states[i], events[i], states[k])
  }

  /** The operator does not requeue a job that is being performed. */
  ghost predicate RequeuesNone(a: Joint, e: Event) {
    e.Stored? ==> E.RequeuesNone(SystemOf(a), e.event)
  }

  /** What every step keeps. */
  ghost predicate Sound(root: Channel, j: Joint) {
    && Consistent(j.run.schedule, root) && root in j.run.schedule.world
    && P.Safe(SystemOf(j))
    && Distinct(j.outbox) && forall u | u in j.outbox :: SeenOf(j.run.schedule, u) == P.Running
  }

  // ----- Each step is a step of the protocol, or none -----

  lemma ShownIs(s: Schedule, u: string)
    ensures u in Shown(s) <==> SeenOf(s, u) != P.Unseen
    ensures u in Shown(s) ==> Shown(s)[u] == SeenOf(s, u)
  {
  }

  lemma ShownSame(s: Schedule, s1: Schedule)
    requires forall u :: SeenOf(s1, u) == SeenOf(s, u)
    ensures Shown(s1) == Shown(s)
  {
    hide SeenOf;
    forall u ensures (u in Shown(s1) <==> u in Shown(s)) && (u in Shown(s) ==> Shown(s1)[u] == Shown(s)[u]) {
      ShownIs(s, u);
      ShownIs(s1, u);
    }
  }

  lemma SeenWithoutOutbox(j: Joint)
    requires j.outbox == []
    ensures SeenBy(j) == Shown(j.run.schedule)
  {
    hide Shown;
  }

  lemma NotifyIsStep(
      s: Schedule, root: Channel, j: ChannelJob, eta: nat, state: JobState, s1: Schedule, sys: P.System)
    returns (keep: bool)
    requires Consistent(s, root) && sys.seen == Shown(s)
    requires NotifiedKept(s, j, eta, Some(state), s1) || NotifiedAnew(s, j, eta, Some(state), s1)
    requires j.uuid in sys.rows && sys.rows[j.uuid] == state
    ensures P.Step(sys, P.Notify(j.uuid, keep), sys.(seen := Shown(s1)))
  {
    hide Consistent, NotifiedKept, NotifiedAnew, SeenOf, Shown;
    if NotifiedKept(s, j, eta, Some(state), s1) {
      NotifiedKeptRefines(s, root, j, eta, state, s1);
      keep :| SeenOf(s1, j.uuid) == P.SeenAfter(SeenOf(s, j.uuid), state, keep);
    } else {
      NotifiedAnewRefines(s, root, j, eta, state, s1);
      keep := false;
    }
    ShownIs(s, j.uuid);
    var t := P.Notified(sys, j.uuid, keep);
    forall u ensures (u in t.seen <==> u in Shown(s1)) && (u in t.seen ==> t.seen[u] == Shown(s1)[u]) {
      ShownIs(s, u);
      ShownIs(s1, u);
    }
    assert t.seen == Shown(s1);
  }

  lemma DropIsStep(s: Schedule, root: Channel, uuids: seq<string>, sys: P.System)
    requires Consistent(s, root) && sys.seen == Shown(s)
    ensures P.Step(sys, P.Drop(Elements(uuids)), sys.(seen := Shown(RemovedAll(s, uuids))))
  {
    hide Consistent, SeenOf, Shown, RemovedAll;
    var s1 := RemovedAll(s, uuids);
    forall u
      ensures (u in Shown(s) && u !in uuids <==> u in Shown(s1)) && (u in Shown(s1) ==> Shown(s1)[u] == Shown(s)[u])
    {
      RemovedAllRefines(s, root, uuids, u);
      ShownIs(s, u);
      ShownIs(s1, u);
    }
    assert sys.seen - Elements(uuids) == Shown(s1);
  }

  /** Yielding jobs changes nothing as far as the store is concerned, until they are sent. */
  lemma DispatchIsNoStep(root: Channel, a: Joint, call: R.Event, b: Joint)
    requires Sound(root, a) && Step(root, a, Managed(call), b) && call.Dispatch?
    ensures SystemOf(b) == SystemOf(a)
    ensures Distinct(b.outbox) && forall u | u in b.outbox :: SeenOf(b.run.schedule, u) == P.Running
  {
    hide Consistent, SeenOf, Shown, Dispatching.Settled, Dispatched, P.Safe;
    var s, s1, out := a.run.schedule, b.run.schedule, call.outs[root];
    YieldedAreListed(s, root, call.now, call.outs, s1.world);
    JobsAreNamed(s, root);
    forall u ensures SeenOf(s1, u) == if u in b.outbox then P.Running else SeenOf(s, u)
    ensures u in b.outbox ==> SeenOf(s, u) == P.Queued
    {
      DispatchShows(s, root, call.now, call.outs, s1.world, u);
      assert u in b.outbox <==> exists i :: 0 <= i < |out| && out[i].uuid == u;
      assert u in s.jobs && s.jobs[u] in out ==> s.jobs[u].uuid == u;
    }
    forall u ensures (u in SeenBy(a) <==> u in SeenBy(b)) && (u in SeenBy(a) ==> SeenBy(a)[u] == SeenBy(b)[u]) {
      ShownIs(s, u);
      ShownIs(s1, u);
    }
    assert SeenBy(b) == SeenBy(a);
  }

  /** Sending a job is the step of the protocol that takes it from queued to running. */
  lemma SendIsStep(root: Channel, a: Joint, b: Joint)
    requires Sound(root, a) && Step(root, a, Send, b)
    ensures P.Step(SystemOf(a), P.Dispatch(a.outbox[0]), SystemOf(b))
    ensures Distinct(b.outbox) && forall u | u in b.outbox :: u in a.outbox
  {
    hide Consistent, SeenOf, Shown;
    var u := a.outbox[0];
    ShownIs(a.run.schedule, u);
    P.SafeJob(SystemOf(a), u);
    hide P.Safe;
    assert SeenBy(b) == SeenBy(a)[u := P.Running];
  }

  lemma OthersKeepSeen(s: P.System, e: P.Event, t: P.System)
    requires P.Step(s, e, t) && !e.Notify? && !e.Drop? && !e.Dispatch?
    ensures t.seen == s.seen
  {
  }

  /** Whatever workers, requests and operators can do in the protocol, they can do beside the channel manager. */
  lemma StoredCanHappen(root: Channel, a: Joint, e: P.Event, t: P.System) returns (b: Joint)
    requires P.Step(SystemOf(a), e, t) && !e.Notify? && !e.Drop? && !e.Dispatch?
    ensures Step(root, a, Stored(e), b) && SystemOf(b) == t
  {
    hide P.Step;
    OthersKeepSeen(SystemOf(a), e, t);
    b := Joint(a.run, t, a.outbox);
    assert SeenBy(b) == SeenBy(a);
  }

  lemma CallKeepsRoot(root: Channel, a: Joint, call: R.Event, b: Joint)
    requires Sound(root, a) && Step(root, a, Managed(call), b)
    ensures Consistent(b.run.schedule, root) && root in b.run.schedule.world
  {
    R.StepConsistent(root, a.run, call, b.run);
    if call.Dispatch? {
      hide Consistent;
    } else {
      hide R.Step, Consistent;
      R.StepKeepsThrottle(root, a.run, call, b.run, root);
    }
  }

  /** A call of the channel manager is one step of the protocol or none. */
  lemma CallIsPath(root: Channel, a: Joint, call: R.Event, b: Joint) returns (p: Option<P.Event>)
    requires Sound(root, a) && Step(root, a, Managed(call), b)
    ensures if p.None? then SystemOf(b) == SystemOf(a) else P.Step(SystemOf(a), p.value, SystemOf(b))
    ensures p.None? || p.value.Notify? || p.value.Drop?
  {
    hide Consistent, SeenOf, Shown, NotifiedKept, NotifiedAnew, RemovedAll, Removed, Grows, Grown, Forgotten, P.Step,
      SeenBy, P.Safe, Dispatched;
    var s, s1, sys := a.run.schedule, b.run.schedule, SystemOf(a);
    SeenWithoutOutbox(a);
    if call.Dispatch? {
      DispatchIsNoStep(root, a, call, b);
      return None;
    }
    SeenWithoutOutbox(b);
    match call
    case NotifyKept(j, eta, state) =>
      var keep := NotifyIsStep(s, root, j, eta, state.value, s1, sys);
      p := Some(P.Notify(j.uuid, keep));
    case NotifyAnew(j, eta, state) =>
      var keep := NotifyIsStep(s, root, j, eta, state.value, s1, sys);
      p := Some(P.Notify(j.uuid, keep));
    case Remove(uuid) =>
      RemovedOne(s, uuid);
      DropIsStep(s, root, [uuid], sys);
      p := Some(P.Drop(Elements([uuid])));
    case RemoveDb(uuids) =>
      DropIsStep(s, root, uuids, sys);
      p := Some(P.Drop(Elements(uuids)));
    case Forget(uuid) =>
      ForgottenRefines(s, root, uuid, s1);
      ShownSame(s, s1);
      p := None;
    case Lookup(news) =>
      forall u ensures SeenOf(s1, u) == SeenOf(s, u) { LookupRefines(s, root, news, u); }
      ShownSame(s, s1);
      p := None;
  }

  lemma RemovedOne(s: Schedule, uuid: string)
    ensures RemovedAll(s, [uuid]) == Removed(s, uuid)
  {
    hide Removed;
    RemovedOneMore(s, [], uuid);
    assert [] + [uuid] == [uuid];
  }

  // ----- Over whole runs -----

  /** Every step is one step of the protocol or none, and keeps what makes the next one so. */
  lemma StepIsPath(root: Channel, a: Joint, e: Event, b: Joint) returns (p: Option<P.Event>)
    requires Sound(root, a) && Step(root, a, e, b)
    ensures Sound(root, b)
    ensures if p.None? then SystemOf(b) == SystemOf(a) else P.Step(SystemOf(a), p.value, SystemOf(b))
    ensures if e.Stored? then p == Some(e.event) else p.None? || p.value.Notify? || p.value.Drop? || p.value.Dispatch?
  {
    hide Consistent, SeenOf, P.Step, R.Step, SystemOf, P.Safe, ReadsRow;
    match e {
      case Managed(call) =>
        CallKeepsRoot(root, a, call, b);
        p := CallIsPath(root, a, call, b);
        if call.Dispatch? {
          DispatchIsNoStep(root, a, call, b);
        }
      case Send =>
        SendIsStep(root, a, b);
        p := Some(P.Dispatch(a.outbox[0]));
      case Stored(event) =>
        p := Some(event);
    }
    if p.Some? {
      P.StepSafe(SystemOf(a), p.value, SystemOf(b));
    }
  }

  lemma BeginsSound(root: Channel, j: Joint)
    requires Begins(root, j)
    ensures Sound(root, j)
  {
  }

  /** At every moment of any run the channels are consistent, and what the store makes of them is safe. */
  lemma {:induction false} RunSound(root: Channel, states: seq<Joint>, events: seq<Event>, n: nat)
    requires Run(root, states, events) && n < |states|
    ensures Sound(root, states[n])
  {
    hide Begins, Step, Sound;
    if n == 0 {
      BeginsSound(root, states[0]);
    } else {
      RunSound(root, states, events, n - 1);
      var k := n - 1;
      assert Step(root, states[k], events[k], states[n]);
      var p := StepIsPath(root, states[k], events[k], states[n]);
    }
  }

  lemma StepSingle(root: Channel, a: Joint, e: Event, b: Joint)
    requires Sound(root, a) && Step(root, a, e, b) && E.Single(SystemOf(a))
    ensures E.Single(SystemOf(b)) <==> RequeuesNone(a, e)
  {
    hide Sound, Step, SystemOf, E.Single, P.Step, E.RequeuesNone;
    var p := StepIsPath(root, a, e, b);
    if p.Some? {
      E.StepSingle(SystemOf(a), p.value, SystemOf(b));
      E.RequeuesNoneOf(SystemOf(a), p.value);
    }
  }

  /**
   * Over any run of channel manager, store, requests, workers and operators, no two workers ever perform the same job,
   * and nothing can start a job that is being performed, exactly as long as no job is requeued while it is performed.
   */
  lemma {:induction false} RunSingle(root: Channel, states: seq<Joint>, events: seq<Event>, n: nat)
    requires Run(root, states, events) && n < |states|
    ensures (forall i | 0 <= i <= n :: E.Single(SystemOf(states[i])))
      <==> forall k | 0 <= k < n :: RequeuesNone(states[k], events[k])
  {
    hide Begins, Step, Sound, SystemOf, E.Single, RequeuesNone;
    if n == 0 {
      BeginsSingle(root, states[0]);
    } else {
      RunSingle(root, states, events, n - 1);
      RunSound(root, states, events, n - 1);
      var k := n - 1;
      assert Step(root, states[k], events[k], states[n]);
      if E.Single(SystemOf(states[k])) {
        StepSingle(root, states[k], events[k], states[n]);
      }
    }
  }

  lemma BeginsSingle(root: Channel, j: Joint)
    requires Begins(root, j)
    ensures E.Single(SystemOf(j))
  {
  }

  /** What a run makes of the store is a path of the protocol: one step or none for each of its own. */
  lemma {:induction false} RunIsPath(root: Channel, states: seq<Joint>, events: seq<Event>, n: nat)
    returns (ps: seq<P.System>, pes: seq<P.Event>)
    requires Run(root, states, events) && n < |states|
    ensures P.Path(ps, pes) && |ps| == |pes| + 1 <= n + 1
    ensures ps[0] == SystemOf(states[0]) && ps[|pes|] == SystemOf(states[n])
  {
    hide Begins, Step, Sound, SystemOf, P.Step;
    if n == 0 {
      ps, pes := [SystemOf(states[0])], [];
    } else {
      ps, pes := RunIsPath(root, states, events, n - 1);
      RunSound(root, states, events, n - 1);
      var k := n - 1;
      assert Step(root, states[k], events[k], states[n]);
      var p := StepIsPath(root, states[k], events[k], states[n]);
      if p.Some? {
        P.PathGoesOn(ps, pes, p.value, SystemOf(states[n]));
        ps, pes := ps + [SystemOf(states[n])], pes + [p.value];
      }
    }
  }
}
