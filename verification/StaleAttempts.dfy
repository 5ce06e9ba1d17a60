/** How often a job can be claimed when failures read and write at different times. */
module StaleAttempts {
  import opened Basics
  import opened JobTables
  import opened Lifecycle
  import opened LifecycleRuns
  import opened StaleSnapshots
  import opened StaleRuns
  import S = StaleSnapshots

  /** A failure is about to be written that queues the job again. */
  ghost predicate Requeues(s: State, a: Action, id: JobId)
    requires S.Enabled(s, a)
  {
    && a.Commit? && id in s.w.jobs
    && s.calls[a.call].Failing? && s.calls[a.call].id == id
    && s.calls[a.call].seen.retryCount < s.calls[a.call].maxRetries
  }

  /** By how many retries the row is ahead of what the writer has read. */
  ghost function LagOf(s: State, a: Action, id: JobId): nat
    requires S.Enabled(s, a)
  {
    if Requeues(s, a, id) && s.w.jobs[id].retryCount > s.calls[a.call].seen.retryCount
    then s.w.jobs[id].retryCount - s.calls[a.call].seen.retryCount
    else 0
  }

  ghost function Lag(s: State, run: seq<Action>, id: JobId): nat
    requires S.Legal(s, run)
    decreases |run|
  {
    if run == [] then 0 else LagOf(s, run[0], id) + Lag(S.Apply(s, run[0]), run[1..], id)
  }

  /** How many of the failing writes had been overtaken by another one. */
  ghost function Overtaken(s: State, run: seq<Action>, id: JobId): nat
    requires S.Legal(s, run)
    decreases |run|
  {
    if run == [] then 0
    else (if LagOf(s, run[0], id) > 0 then 1 else 0) + Overtaken(S.Apply(s, run[0]), run[1..], id)
  }

  /** The atomic level's bound on claims, loosened by `slack`. */
  ghost predicate AttemptsOk(w: World, id: JobId, slack: nat) {
    id in w.jobs ==>
      && id in w.claims
      && w.claims[id] + (if w.jobs[id].status == Pending then 1 else 0) <= 1 + w.jobs[id].retryCount + slack
  }

  lemma WholeKeepsAttempts(w: World, e: Event, id: JobId, slack: nat)
    requires S.Enabled(State(w, map[]), Whole(e)) && AttemptsOk(w, id, slack)
    requires id in w.jobs ==> id < w.nextId
    ensures AttemptsOk(Lifecycle.Apply(w, e), id, slack)
  {
    match e.step {
      case Submit(i, url) =>
      case Claim(k, worker, locked) => assert IsPending(w.jobs - locked, k);
      case _ =>
    }
  }

  lemma CommitKeepsAttempts(s: State, a: Action, id: JobId, slack: nat)
    requires S.Enabled(s, a) && a.Commit? && AttemptsOk(s.w, id, slack)
    ensures AttemptsOk(S.Apply(s, a).w, id, slack + LagOf(s, a, id))
  {
  }

  lemma StepKeepsAttempts(s: State, a: Action, id: JobId, slack: nat)
    requires Sound(s) && S.Enabled(s, a) && AttemptsOk(s.w, id, slack)
    ensures AttemptsOk(S.Apply(s, a).w, id, slack + LagOf(s, a, id))
  {
    match a
    case Whole(e) =>
      assert id in s.w.jobs ==> RowSound(s.w, id);
      WholeKeepsAttempts(s.w, e, id, slack);
    case Commit(c, at) => CommitKeepsAttempts(s, a, id, slack);
    case _ =>
  }

  lemma {:induction false} AttemptsWithinLag(s: State, run: seq<Action>, id: JobId, slack: nat)
    requires Sound(s) && S.Legal(s, run) && AttemptsOk(s.w, id, slack)
    ensures AttemptsOk(S.Exec(s, run).w, id, slack + Lag(s, run, id))
    decreases |run|
  {
    if run != [] {
      StepKeepsSound(s, run[0]);
      StepKeepsAttempts(s, run[0], id, slack);
      AttemptsWithinLag(S.Apply(s, run[0]), run[1..], id, slack + LagOf(s, run[0], id));
    }
  }

  ghost predicate LimitsAtMost(w: World, retries: nat) {
    forall i :: i in w.images ==> w.images[i].maxRetries <= retries
  }

  lemma StepKeepsLimit(s: State, a: Action, i: ImageId)
    requires S.Enabled(s, a) && i in s.w.images
    ensures var v := S.Apply(s, a).w; i in v.images && v.images[i].maxRetries == s.w.images[i].maxRetries
  {
    if a.Whole? {
      RetryLimitIsFixed(s.w, a.event, i);
    }
  }

  lemma {:induction false} LimitsStay(s: State, run: seq<Action>, i: ImageId)
    requires S.Legal(s, run) && i in s.w.images
    ensures var v := S.Exec(s, run).w; i in v.images && v.images[i].maxRetries == s.w.images[i].maxRetries
    decreases |run|
  {
    if run != [] {
      StepKeepsLimit(s, run[0], i);
      LimitsStay(S.Apply(s, run[0]), run[1..], i);
    }
  }

  lemma LagIsSmall(s: State, run: seq<Action>, id: JobId, retries: nat)
    requires Sound(s) && S.Legal(s, run) && run != [] && LimitsAtMost(S.Exec(s, run).w, retries)
    ensures LagOf(s, run[0], id) <= retries
  {
    if id in s.w.jobs {
      assert RowSound(s.w, id);
      LimitsStay(s, run, s.w.jobs[id].imageId);
    }
  }

  /** Each overtaken write costs at most as many claims as there are retries. */
  lemma {:induction false} LagByOvertaken(s: State, run: seq<Action>, id: JobId, retries: nat)
    requires Sound(s) && S.Legal(s, run) && LimitsAtMost(S.Exec(s, run).w, retries)
    ensures Lag(s, run, id) <= Overtaken(s, run, id) * retries
    decreases |run|
  {
    if run != [] {
      var t := S.Apply(s, run[0]);
      StepKeepsSound(s, run[0]);
      LagIsSmall(s, run, id, retries);
      LagByOvertaken(t, run[1..], id, retries);
      TimesNext(Overtaken(t, run[1..], id), retries);
    }
  }

  /**
   * From an empty database, however reads and writes interleave: the claims of a job exceed what its
   * retries allow at most by the retries that overtaken failures had missed. Without such a write the
   * bound of the atomic level holds.
   */
  lemma AttemptsAreBounded(run: seq<Action>, id: JobId, retries: nat)
    requires S.Legal(State(EMPTY, map[]), run)
    requires id in S.Exec(State(EMPTY, map[]), run).w.jobs
    requires LimitsAtMost(S.Exec(State(EMPTY, map[]), run).w, retries)
    ensures var s := State(EMPTY, map[]);
            var w := S.Exec(s, run).w;
            && id in w.claims
            && w.claims[id] + (if w.jobs[id].status == Pending then 1 else 0) <=
                 1 + w.jobs[id].retryCount + Lag(s, run, id)
            && w.jobs[id].retryCount + Lag(s, run, id) <= (1 + Overtaken(s, run, id)) * retries
  {
    var s := State(EMPTY, map[]);
    AttemptsWithinLag(s, run, id, 0);
    LagByOvertaken(s, run, id, retries);
    TimesNext(Overtaken(s, run, id), retries);
    RunKeepsSound(s, run);
    assert RowSound(S.Exec(s, run).w, id);
  }

  /** The job has been claimed, and two failures of that spell have read it. */
  ghost function TwoReads(): State {
    State(OneJob(2.0, 1, FirstClaim(), 1), map[0 := StaleFailure(), 1 := StaleFailure()])
  }

  function Requeued(): Job {
    FailedRow(FirstClaim(), 1, "timed out", 3.0)
  }

  function Reclaimed(): Job {
    ClaimedRow(Requeued(), "dispatcher", 4.0)
  }

  lemma SecondFailure() returns (end: State)
    ensures Steps(State(OneJob(4.0, 1, Reclaimed(), 2), map[1 := StaleFailure()]), Commit(1, 5.0), end)
    ensures IsPending(end.w.jobs, 0) && 0 in end.w.claims && end.w.claims[0] + 1 == 2 + end.w.jobs[0].retryCount
  {
    end := State(OneJob(5.0, 1, FailWrite(Reclaimed(), FirstClaim(), 1, "timed out", 5.0), 2), map[]);
    assert map[1 := StaleFailure()] - {1} == end.calls;
  }

  lemma SecondClaim()
    ensures Steps(State(OneJob(3.0, 1, Requeued(), 1), map[1 := StaleFailure()]),
              Whole(Event(4.0, Claim(0, "dispatcher", {}))),
                  State(OneJob(4.0, 1, Reclaimed(), 2), map[1 := StaleFailure()]))
  {
    var w := OneJob(3.0, 1, Requeued(), 1);
    assert w.jobs - {} == w.jobs;
  }

  lemma FirstFailure()
    ensures Steps(TwoReads(), Commit(0, 3.0), State(OneJob(3.0, 1, Requeued(), 1), map[1 := StaleFailure()]))
  {
    assert TwoReads().calls - {0} == map[1 := StaleFailure()];
  }

  /** Two failures of one spell with a claim in between do exceed the atomic level's bound. */
  lemma OvertakenFailureAddsAClaim() returns (run: seq<Action>)
    ensures S.Legal(State(EMPTY, map[]), run)
    ensures var w := S.Exec(State(EMPTY, map[]), run).w;
            IsPending(w.jobs, 0) && 0 in w.claims && w.claims[0] + 1 == 2 + w.jobs[0].retryCount
  {
    var end := SecondFailure();
    var s3, s4 := State(OneJob(3.0, 1, Requeued(), 1), map[1 := StaleFailure()]),
        State(OneJob(4.0, 1, Reclaimed(), 2), map[1 := StaleFailure()]);
    var claim := Event(4.0, Claim(0, "dispatcher", {}));
    Prepend(s4, Commit(1, 5.0), end, [], end);
    SecondClaim();
    Prepend(s3, Whole(claim), s4, [Commit(1, 5.0)] + [], end);
    FirstFailure();
    Prepend(TwoReads(), Commit(0, 3.0), s3, [Whole(claim)] + ([Commit(1, 5.0)] + []), end);
    run := FromTwoReads([Commit(0, 3.0)] + ([Whole(claim)] + ([Commit(1, 5.0)] + [])), end);
  }

  lemma FromTwoReads(tail: seq<Action>, end: State) returns (run: seq<Action>)
    requires Reaches(TwoReads(), tail, end)
    ensures Reaches(State(EMPTY, map[]), run, end)
  {
    var w := OneJob(2.0, 1, FirstClaim(), 1);
    var s1 := State(w, map[0 := StaleFailure()]);
    Prepend(s1, ReadToFail(1, 0, "timed out"), TwoReads(), tail, end);
    Prepend(State(w, map[]), ReadToFail(0, 0, "timed out"), s1, [ReadToFail(1, 0, "timed out")] + tail, end);
    run := FromClaim(1, [ReadToFail(0, 0, "timed out")] + ([ReadToFail(1, 0, "timed out")] + tail), end);
  }
}
