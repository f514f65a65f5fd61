/** The in-memory jobs: dependencies, state transitions, and the count of retries. */
module Jobs {
  import opened JobStates

  const RETRY_INTERVAL: nat := 600

  /**
   * How the method of a job ends: it returns or says that there is nothing to do, it asks to be tried again, it meets a
   * serialization error of the database, or it raises anything else.
   */
  datatype Outcome = Success | Retryable(ignoreRetry: bool) | Conflict | Error

  /** A number of seconds, 0 standing for none, or two bounds between which it is drawn. */
  datatype Delay = Exactly(seconds: nat) | Between(least: nat, most: nat) {
    predicate Valid() {
      Between? ==> least <= most
    }

    predicate Given() {
      this != Exactly(0)
    }

    predicate Allows(r: nat) {
      match this
      case Exactly(n) => r == n
      case Between(least, most) => least <= r <= most
    }
  }

  /** What `perform` makes of it. */
  datatype Verdict = Return | Postpone | Fail

  class Job {
    var state: JobState
    var retry: nat
    const maxRetries: nat
    var dependsOn: set<Job>
    var reverseDependsOn: set<Job>

    constructor (maxRetries: nat)
      ensures this.maxRetries == maxRetries && state == Pending && retry == 0
      ensures dependsOn == {} && reverseDependsOn == {}
    {
      this.maxRetries := maxRetries;
      state, retry, dependsOn, reverseDependsOn := Pending, 0, {}, {};
    }

    /** `add_depends`; false stands for the error raised for a job that would depend on itself. */
    method AddDepends(jobs: set<Job>) returns (ok: bool)
      modifies this`dependsOn, this`state, jobs`reverseDependsOn
      ensures ok == (this !in jobs)
      ensures !ok ==> dependsOn == old(dependsOn) && state == old(state) && forall j | j in jobs :: unchanged(j)
      ensures ok ==> dependsOn == old(dependsOn) + jobs
      ensures ok ==> forall j | j in jobs ::
        j.reverseDependsOn == old(j.reverseDependsOn) + {this} && j.state == old(j.state)
      ensures ok ==> state == if exists j | j in jobs :: j.state != Done then WaitDependencies else old(state)
    {
      if this in jobs { return false; }
      dependsOn := dependsOn + jobs;
      var todo := jobs;
      while todo != {}
        invariant todo <= jobs
        invariant forall j | j in jobs ::
          j.reverseDependsOn == old(j.reverseDependsOn) + if j in todo then {} else {this}
        invariant dependsOn == old(dependsOn) + jobs && state == old(state)
        decreases todo
      {
        var parent :| parent in todo;
        parent.reverseDependsOn := parent.reverseDependsOn + {this};
        todo := todo - {parent};
      }
      if exists j | j in jobs :: j.state != Done {
        state := WaitDependencies;
      }
      ok := true;
    }

    method SetPending(resetRetry: bool)
      modifies this`state, this`retry
      ensures state == if exists j | j in dependsOn :: old(j.state) != Done then WaitDependencies else Pending
      ensures retry == if resetRetry then 0 else old(retry)
    {
      state := if exists j | j in dependsOn :: j.state != Done then WaitDependencies else Pending;
      if resetRetry { retry := 0; }
    }

    /** `perform`, where `outcome` is how the method of the job ends, and what `runjob` makes of it. */
    method Perform(outcome: Outcome) returns (verdict: Verdict)
      modifies this`retry
      ensures (retry, verdict) == Attempt(old(retry), maxRetries, outcome)
      ensures retry == old(retry) + if outcome == Retryable(true) then 0 else 1
      ensures verdict == Return <==> outcome == Success
      ensures verdict == Fail <==>
        outcome == Error || (outcome == Retryable(false) && maxRetries != 0 && retry >= maxRetries)
    {
      retry := retry + 1;
      match outcome
      case Success => verdict := Return;
      case Error => verdict := Fail;
      case Conflict => verdict := Postpone;
      case Retryable(ignoreRetry) =>
        if ignoreRetry {
          retry := retry - 1;
          verdict := Postpone;
        } else if maxRetries == 0 {
          verdict := Postpone;
        } else if retry >= maxRetries {
          verdict := Fail;
        } else {
          verdict := Postpone;
        }
    }

    /** `_get_retry_seconds`, where `pattern` holds the items of the retry pattern in order. */
    method GetRetrySeconds(seconds: Delay, pattern: seq<(nat, Delay)>) returns (r: nat)
      requires forall i, k | 0 <= i < k < |pattern| :: pattern[i].0 < pattern[k].0
      requires seconds.Valid() && forall i | 0 <= i < |pattern| :: pattern[i].1.Valid()
      ensures seconds.Given() ==> seconds.Allows(r)
      ensures !seconds.Given() && (forall i | 0 <= i < |pattern| :: pattern[i].0 > retry) ==> r == RETRY_INTERVAL
      ensures !seconds.Given() ==> forall i | 0 <= i < |pattern| && pattern[i].0 <= retry
        && (i + 1 < |pattern| ==> pattern[i + 1].0 > retry) :: pattern[i].1.Allows(r)
    {
      var delay := seconds;
      if !delay.Given() && pattern != [] {
        delay := Exactly(RETRY_INTERVAL);
        var i := 0;
        while i < |pattern|
          invariant 0 <= i <= |pattern|
          invariant forall k | 0 <= k < i :: pattern[k].0 <= retry
          invariant delay == if i == 0 then Exactly(RETRY_INTERVAL) else pattern[i - 1].1
        {
          if retry >= pattern[i].0 {
            delay := pattern[i].1;
          } else {
            break;
          }
          i := i + 1;
        }
      } else if !delay.Given() {
        delay := Exactly(RETRY_INTERVAL);
      }
      match delay
      case Exactly(n) => r := n;
      case Between(least, most) => r :| least <= r <= most;
    }
  }

  // ----- Dependencies are recorded at both ends -----

  ghost predicate Linked(jobs: set<Job>)
    reads jobs
  {
    forall a, b | a in jobs && b in jobs :: b in a.dependsOn <==> a in b.reverseDependsOn
  }

  /** Adding dependencies keeps both ends in step. */
  method AddLinked(a: Job, parents: set<Job>, ghost all: set<Job>) returns (ok: bool)
    requires Linked(all) && a in all && parents <= all
    modifies a`dependsOn, a`state, parents`reverseDependsOn
    ensures Linked(all) && ok == (a !in parents)
  {
    ok := a.AddDepends(parents);
    assert forall j | j in all && j !in parents :: j.reverseDependsOn == old(j.reverseDependsOn);
    assert forall j | j in all && j != a :: j.dependsOn == old(j.dependsOn);
  }

  // ----- Retries -----

  function Attempt(retry: nat, maxRetries: nat, outcome: Outcome): (nat, Verdict) {
    match outcome
    case Success => (retry + 1, Return)
    case Error => (retry + 1, Fail)
    case Conflict => (retry + 1, Postpone)
    case Retryable(true) => (retry, Postpone)
    case Retryable(false) => (retry + 1, if maxRetries != 0 && retry + 1 >= maxRetries then Fail else Postpone)
  }

  /** All attempts but those that the job asks not to count. */
  function Counted(outcomes: seq<Outcome>): nat {
    if outcomes == [] then 0
    else (if outcomes[0] == Retryable(true) then 0 else 1) + Counted(outcomes[1..])
  }

  /** What ends the attempts, given how many were counted before attempt number `i`. */
  ghost predicate GivesUp(retry: nat, maxRetries: nat, outcomes: seq<Outcome>, i: nat)
    requires i < |outcomes|
  {
    || outcomes[i] == Error
    || (outcomes[i] == Retryable(false) && maxRetries != 0 && retry + Counted(outcomes[..i + 1]) >= maxRetries)
  }

  /**
   * A job is attempted until an attempt does not postpone it: how many attempts are made if they end as in
   * `outcomes`, how many tries are counted then, and what becomes of the job.
   */
  function Attempts(retry: nat, maxRetries: nat, outcomes: seq<Outcome>): (nat, nat, Verdict)
    decreases |outcomes|
  {
    if outcomes == [] then (0, retry, Postpone)
    else
      var (tries, verdict) := Attempt(retry, maxRetries, outcomes[0]);
      if verdict != Postpone then (1, tries, verdict)
      else
        var (made, last, end) := Attempts(tries, maxRetries, outcomes[1..]);
        (made + 1, last, end)
  }

  lemma CountedOne(outcome: Outcome, rest: seq<Outcome>)
    ensures Counted([outcome] + rest) == (if outcome == Retryable(true) then 0 else 1) + Counted(rest)
  {
    assert ([outcome] + rest)[1..] == rest;
  }

  lemma GivesUpLater(retry: nat, maxRetries: nat, outcomes: seq<Outcome>, i: nat)
    requires 0 < i < |outcomes|
    ensures GivesUp(retry, maxRetries, outcomes, i) <==>
      GivesUp(retry + if outcomes[0] == Retryable(true) then 0 else 1, maxRetries, outcomes[1..], i - 1)
  {
    assert outcomes[..i + 1] == [outcomes[0]] + outcomes[1..][..i];
    CountedOne(outcomes[0], outcomes[1..][..i]);
  }

  /**
   * The attempts end with the first that returns, gives up with an error, or asks for a retry when as many tries as
   * allowed have been counted: the job returns or fails accordingly, and every attempt made is counted but those that
   * ask not to be.
   */
  lemma {:induction false} AttemptsEndAtFirst(retry: nat, maxRetries: nat, outcomes: seq<Outcome>)
    ensures var (made, tries, verdict) := Attempts(retry, maxRetries, outcomes);
      && made <= |outcomes| && tries == retry + Counted(outcomes[..made])
      && (forall i | 0 <= i < made - 1 :: outcomes[i] != Success && !GivesUp(retry, maxRetries, outcomes, i))
      && (verdict == Return <==> made > 0 && outcomes[made - 1] == Success)
      && (verdict == Fail <==> made > 0 && GivesUp(retry, maxRetries, outcomes, made - 1))
      && (verdict == Postpone ==> made == |outcomes|)
    decreases |outcomes|
  {
    if outcomes != [] {
      var (tries, verdict) := Attempt(retry, maxRetries, outcomes[0]);
      var rest := outcomes[1..];
      assert outcomes[..1] == [outcomes[0]] + [];
      CountedOne(outcomes[0], []);
      if verdict == Postpone {
        AttemptsEndAtFirst(tries, maxRetries, rest);
        var (made, _, _) := Attempts(tries, maxRetries, rest);
        assert outcomes[..made + 1] == [outcomes[0]] + rest[..made];
        CountedOne(outcomes[0], rest[..made]);
        forall i | 0 < i < |outcomes|
          ensures GivesUp(retry, maxRetries, outcomes, i) <==> GivesUp(tries, maxRetries, rest, i - 1)
        {
          GivesUpLater(retry, maxRetries, outcomes, i);
        }
        assert forall i | 0 <= i < |rest| ::
          GivesUp(tries, maxRetries, rest, i) <==> GivesUp(retry, maxRetries, outcomes, i + 1);
        assert forall i | 0 <= i < |rest| :: rest[i] == outcomes[i + 1];
      }
    }
  }

  /** Attempt number `i` is one that postpones, given how many were counted before it. */
  ghost predicate Postpones(retry: nat, maxRetries: nat, outcomes: seq<Outcome>, i: nat)
    requires i < |outcomes|
  {
    outcomes[i] == Conflict || outcomes[i] == Retryable(true) ||
    (outcomes[i] == Retryable(false) && (maxRetries == 0 || retry + Counted(outcomes[..i]) + 1 < maxRetries))
  }

  /**
   * A job is postponed again and again exactly as long as every attempt ends with a conflict, an
   * uncounted retry, or a counted one before the maximum; conflicts count, but are never the last.
   */
  lemma RetriesAreBounded(retry: nat, maxRetries: nat, outcomes: seq<Outcome>)
    ensures Attempts(retry, maxRetries, outcomes).2 == Postpone <==>
      forall i | 0 <= i < |outcomes| :: Postpones(retry, maxRetries, outcomes, i)
  {
    var (made, _, verdict) := Attempts(retry, maxRetries, outcomes);
    AttemptsEndAtFirst(retry, maxRetries, outcomes);
    forall i | 0 <= i < |outcomes|
      ensures Postpones(retry, maxRetries, outcomes, i) <==>
        outcomes[i] != Success && !GivesUp(retry, maxRetries, outcomes, i)
    {
      CountedNext(outcomes, i);
    }
    assert verdict == Postpone && made > 0 ==> outcomes[made - 1] != Success;
  }

  lemma {:induction false} CountedNext(outcomes: seq<Outcome>, i: nat)
    requires i < |outcomes|
    ensures Counted(outcomes[..i + 1]) == Counted(outcomes[..i]) + if outcomes[i] == Retryable(true) then 0 else 1
    decreases i
  {
    if i > 0 {
      CountedNext(outcomes[1..], i - 1);
      assert outcomes[..i + 1] == [outcomes[0]] + outcomes[1..][..i];
      assert outcomes[..i] == [outcomes[0]] + outcomes[1..][..i - 1];
      CountedOne(outcomes[0], outcomes[1..][..i]);
      CountedOne(outcomes[0], outcomes[1..][..i - 1]);
    }
  }
}
