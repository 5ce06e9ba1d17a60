/** Runs from an empty database in which reads and writes that lie apart do what whole calls cannot. */
module StaleScenarios {
  import opened Basics
  import opened JobTables
  import opened Lifecycle
  import opened LifecycleRuns
  import opened StaleSnapshots
  import opened StaleRuns
  import S = StaleSnapshots

  ghost function Alone(at: real, max: nat, job: Job, claims: nat, calls: map<CallId, Call>): State {
    State(OneJob(at, max, job, claims), calls)
  }

  function ClaimAt(at: real): Action {
    Whole(Event(at, Claim(0, "dispatcher", {})))
  }

  lemma ClaimSteps(at: real, later: real, max: nat, job: Job, claims: nat, calls: map<CallId, Call>)
    requires at <= later && job.status == Pending
    ensures Steps(Alone(at, max, job, claims, calls), ClaimAt(later),
                  Alone(later, max, ClaimedRow(job, "dispatcher", later), claims + 1, calls))
  {
    var w := OneJob(at, max, job, claims);
    assert w.jobs - {} == w.jobs;
  }

  lemma FailureSteps(at: real, later: real, max: nat, job: Job, claims: nat, calls: map<CallId, Call>, c: CallId,
      seen: Job)
    requires at <= later && c in calls && calls[c] == Failing(0, seen, max, "failed")
    ensures Steps(Alone(at, max, job, claims, calls), Commit(c, later),
                  Alone(later, max, FailWrite(job, seen, max, "failed", later), claims, calls - {c}))
  {
  }

  lemma CancelSteps(at: real, later: real, max: nat, job: Job, claims: nat, calls: map<CallId, Call>, c: CallId,
      seen: Job)
    requires at <= later && c in calls && calls[c] == Cancelling(0, seen)
    ensures Steps(Alone(at, max, job, claims, calls), Commit(c, later),
                  Alone(later, max, job.(status := Cancelled), claims, calls - {c}))
  {
  }

  lemma ReadSteps(at: real, max: nat, job: Job, claims: nat, calls: map<CallId, Call>, c: CallId)
    requires c !in calls && job.imageId == 0
    ensures job.status != Completed ==>
              Steps(Alone(at, max, job, claims, calls), ReadToFail(c, 0, "failed"),
                    Alone(at, max, job, claims, calls[c := Failing(0, job, max, "failed")]))
    ensures job.status == Pending ==>
              Steps(Alone(at, max, job, claims, calls), ReadToCancel(c, 0),
                    Alone(at, max, job, claims, calls[c := Cancelling(0, job)]))
    ensures job.status == Processing ==>
              Steps(Alone(at, max, job, claims, calls), ReadToComplete(c, 0, NO_REPORT, 1.0),
                    Alone(at, max, job, claims, calls[c := Completing(0, job, NO_REPORT, 1.0)]))
  {
  }

  // ---- A cancelled job that completes -------------------------------------------------

  function Requeued(): Job {
    FailWrite(FirstClaim(), FirstClaim(), 1, "timed out", 3.0)
  }

  lemma SweptThenCancelled() returns (run: seq<Action>)
    ensures Reaches(BothRead(), run, Alone(4.0, 1, Requeued().(status := Cancelled), 1, map[0 := FirstCompletion()]))
  {
    var done, end := map[0 := FirstCompletion()],
        Alone(4.0, 1, Requeued().(status := Cancelled), 1, map[0 := FirstCompletion()]);
    var both := done[2 := Cancelling(0, Requeued())];
    var s1, s2 := Alone(3.0, 1, Requeued(), 1, done), Alone(3.0, 1, Requeued(), 1, both);
    assert BothRead().calls - {1} == done && both - {2} == done;
    CancelSteps(3.0, 4.0, 1, Requeued(), 1, both, 2, Requeued());
    Prepend(s2, Commit(2, 4.0), end, [], end);
    ReadSteps(3.0, 1, Requeued(), 1, done, 2);
    Prepend(s1, ReadToCancel(2, 0), s2, [Commit(2, 4.0)] + [], end);
    Prepend(BothRead(), Commit(1, 3.0), s1, [ReadToCancel(2, 0)] + ([Commit(2, 4.0)] + []), end);
    run := [Commit(1, 3.0)] + ([ReadToCancel(2, 0)] + ([Commit(2, 4.0)] + []));
  }

  /**
   * The run of a job reads it to complete it; the sweep requeues the job and the user cancels it; and
   * then the completion is written. Nothing has failed since, but the cancelled job is completed.
   */
  lemma CancelledJobCompletes() returns (before: seq<Action>, last: Action)
    ensures S.Legal(State(EMPTY, map[]), before)
    ensures var s := S.Exec(State(EMPTY, map[]), before);
            && 0 in s.w.jobs && s.w.jobs[0].status == Cancelled && S.Enabled(s, last)
            && last.Commit? && s.calls[last.call].Completing?
            && var t := S.Apply(s, last);
               0 in t.w.jobs && t.w.jobs[0].status == Completed && 0 in t.w.results
  {
    var tail := SweptThenCancelled();
    before := FromBothRead(tail, Alone(4.0, 1, Requeued().(status := Cancelled), 1, map[0 := FirstCompletion()]));
    last := Commit(0, 5.0);
  }

  // ---- A cancelled job that retention removes ------------------------------------------

  function StaleCancel(): Call {
    Cancelling(0, StoredRow())
  }

  ghost function CompletedMeanwhile(): World {
    CompleteWrite(OneJob(3.0, 0, FirstClaim(), 1), 0, FirstClaim(), NO_REPORT, 1.0)
  }

  ghost function CancelledAfterwards(): State {
    State(CommitCall(CompletedMeanwhile().(clock := 4.0), StaleCancel()), map[])
  }

  lemma CancelledLate() returns (run: seq<Action>)
    ensures Reaches(Alone(2.0, 0, FirstClaim(), 1, map[0 := StaleCancel()]), run, CancelledAfterwards())
  {
    var one, end := map[0 := StaleCancel()], CancelledAfterwards();
    var s0 := Alone(2.0, 0, FirstClaim(), 1, one);
    var s1, s2 := Alone(2.0, 0, FirstClaim(), 1, one[1 := FirstCompletion()]), State(CompletedMeanwhile(), one);
    assert s1.calls - {1} == one && one - {0} == map[];
    Prepend(s2, Commit(0, 4.0), end, [], end);
    Prepend(s1, Commit(1, 3.0), s2, [Commit(0, 4.0)] + [], end);
    ReadSteps(2.0, 0, FirstClaim(), 1, one, 1);
    Prepend(s0, ReadToComplete(1, 0, NO_REPORT, 1.0), s1, [Commit(1, 3.0)] + ([Commit(0, 4.0)] + []), end);
    run := [ReadToComplete(1, 0, NO_REPORT, 1.0)] + ([Commit(1, 3.0)] + ([Commit(0, 4.0)] + []));
  }

  /**
   * A cancellation that read the job before it was claimed is written after it completed: the cancelled
   * row keeps its completion time, and retention removes it.
   */
  lemma CancelledIsPurged() returns (before: seq<Action>, purge: Action)
    ensures S.Legal(State(EMPTY, map[]), before)
    ensures var s := S.Exec(State(EMPTY, map[]), before);
            && 0 in s.w.jobs && s.w.jobs[0].status == Cancelled && s.w.jobs[0].completedAt.Some?
            && purge.Whole? && purge.event.step.Purge? && S.Enabled(s, purge) && 0 !in S.Apply(s, purge).w.jobs
  {
    var tail := CancelledLate();
    var one, end := map[0 := StaleCancel()], CancelledAfterwards();
    ClaimSteps(1.0, 2.0, 0, StoredRow(), 0, one);
    Prepend(Alone(1.0, 0, StoredRow(), 0, one), ClaimAt(2.0), Alone(2.0, 0, FirstClaim(), 1, one), tail, end);
    ReadSteps(1.0, 0, StoredRow(), 0, map[], 0);
    Prepend(Alone(1.0, 0, StoredRow(), 0, map[]), ReadToCancel(0, 0), Alone(1.0, 0, StoredRow(), 0, one),
        [ClaimAt(2.0)] + tail, end);
    before := FromSubmission(0, [ReadToCancel(0, 0)] + ([ClaimAt(2.0)] + tail), end);
    purge := Whole(Event(10.0, Purge(5.0)));
  }

  // ---- A processing job without a start time -------------------------------------------

  /** The job after its first failure, and cancelled. */
  function FailedOnce(): Job {
    FailWrite(FirstClaim(), FirstClaim(), 3, "failed", 3.0)
  }

  function CancelledOnce(): Job {
    FailedOnce().(status := Cancelled)
  }

  /** Two failures have read the cancelled row; one of them has been written. */
  function QueuedAgain(): Job {
    FailWrite(CancelledOnce(), CancelledOnce(), 3, "failed", 5.0)
  }

  function ClaimedAgain(): Job {
    ClaimedRow(QueuedAgain(), "dispatcher", 6.0)
  }

  /** The other one is written while the job is processing: the row is pending and has a start time. */
  function PendingStarted(): Job {
    FailWrite(ClaimedAgain(), CancelledOnce(), 3, "failed", 7.0)
  }

  function ClaimedOnceMore(): Job {
    ClaimedRow(PendingStarted(), "dispatcher", 8.0)
  }

  function Late(seen: Job): Call {
    Failing(0, seen, 3, "failed")
  }

  /** A third failure reads the row then, the job is claimed, and the start time goes with the write. */
  function Startless(): Job {
    FailWrite(ClaimedOnceMore(), PendingStarted(), 3, "failed", 9.0)
  }

  lemma LastClaim() returns (run: seq<Action>)
    ensures Reaches(Alone(7.0, 3, PendingStarted(), 2, map[]), run, Alone(9.0, 3, Startless(), 3, map[]))
    ensures Startless().status == Processing && Startless().startedAt == None
  {
    var one, end := map[3 := Late(PendingStarted())], Alone(9.0, 3, Startless(), 3, map[]);
    assert one - {3} == map[];
    FailureSteps(8.0, 9.0, 3, ClaimedOnceMore(), 3, one, 3, PendingStarted());
    Prepend(Alone(8.0, 3, ClaimedOnceMore(), 3, one), Commit(3, 9.0), end, [], end);
    ClaimSteps(7.0, 8.0, 3, PendingStarted(), 2, one);
    Prepend(Alone(7.0, 3, PendingStarted(), 2, one), ClaimAt(8.0), Alone(8.0, 3, ClaimedOnceMore(), 3, one),
        [Commit(3, 9.0)] + [], end);
    ReadSteps(7.0, 3, PendingStarted(), 2, map[], 3);
    Prepend(Alone(7.0, 3, PendingStarted(), 2, map[]), ReadToFail(3, 0, "failed"),
        Alone(7.0, 3, PendingStarted(), 2, one),
            [ClaimAt(8.0)] + ([Commit(3, 9.0)] + []), end);
    run := [ReadToFail(3, 0, "failed")] + ([ClaimAt(8.0)] + ([Commit(3, 9.0)] + []));
  }

  lemma SecondClaim(tail: seq<Action>, end: State) returns (run: seq<Action>)
    requires Reaches(Alone(7.0, 3, PendingStarted(), 2, map[]), tail, end)
    ensures Reaches(Alone(5.0, 3, QueuedAgain(), 1, map[1 := Late(CancelledOnce())]), run, end)
  {
    var one := map[1 := Late(CancelledOnce())];
    assert one - {1} == map[];
    FailureSteps(6.0, 7.0, 3, ClaimedAgain(), 2, one, 1, CancelledOnce());
    Prepend(Alone(6.0, 3, ClaimedAgain(), 2, one), Commit(1, 7.0), Alone(7.0, 3, PendingStarted(), 2, map[]), tail,
        end);
    ClaimSteps(5.0, 6.0, 3, QueuedAgain(), 1, one);
    Prepend(Alone(5.0, 3, QueuedAgain(), 1, one), ClaimAt(6.0), Alone(6.0, 3, ClaimedAgain(), 2, one),
        [Commit(1, 7.0)] + tail, end);
    run := [ClaimAt(6.0)] + ([Commit(1, 7.0)] + tail);
  }

  lemma TwoLateFailures(tail: seq<Action>, end: State) returns (run: seq<Action>)
    requires Reaches(Alone(5.0, 3, QueuedAgain(), 1, map[1 := Late(CancelledOnce())]), tail, end)
    ensures Reaches(Alone(4.0, 3, CancelledOnce(), 1, map[]), run, end)
  {
    var one, two := map[1 := Late(CancelledOnce())], map[1 := Late(CancelledOnce()), 2 := Late(CancelledOnce())];
    assert two - {2} == one;
    FailureSteps(4.0, 5.0, 3, CancelledOnce(), 1, two, 2, CancelledOnce());
    Prepend(Alone(4.0, 3, CancelledOnce(), 1, two), Commit(2, 5.0), Alone(5.0, 3, QueuedAgain(), 1, one), tail, end);
    ReadSteps(4.0, 3, CancelledOnce(), 1, one, 2);
    Prepend(Alone(4.0, 3, CancelledOnce(), 1, one), ReadToFail(2, 0, "failed"),
        Alone(4.0, 3, CancelledOnce(), 1, two), [Commit(2, 5.0)] + tail, end);
    ReadSteps(4.0, 3, CancelledOnce(), 1, map[], 1);
    Prepend(Alone(4.0, 3, CancelledOnce(), 1, map[]), ReadToFail(1, 0, "failed"),
        Alone(4.0, 3, CancelledOnce(), 1, one),
            [ReadToFail(2, 0, "failed")] + ([Commit(2, 5.0)] + tail), end);
    run := [ReadToFail(1, 0, "failed")] + ([ReadToFail(2, 0, "failed")] + ([Commit(2, 5.0)] + tail));
  }

  lemma FailThenCancel(tail: seq<Action>, end: State) returns (run: seq<Action>)
    requires Reaches(Alone(4.0, 3, CancelledOnce(), 1, map[]), tail, end)
    ensures Reaches(Alone(2.0, 3, FirstClaim(), 1, map[]), run, end)
  {
    var cancel, fail := map[0 := Cancelling(0, FailedOnce())], map[0 := Late(FirstClaim())];
    assert cancel - {0} == map[] && fail - {0} == map[];
    CancelSteps(3.0, 4.0, 3, FailedOnce(), 1, cancel, 0, FailedOnce());
    Prepend(Alone(3.0, 3, FailedOnce(), 1, cancel), Commit(0, 4.0), Alone(4.0, 3, CancelledOnce(), 1, map[]), tail,
        end);
    ReadSteps(3.0, 3, FailedOnce(), 1, map[], 0);
    Prepend(Alone(3.0, 3, FailedOnce(), 1, map[]), ReadToCancel(0, 0), Alone(3.0, 3, FailedOnce(), 1, cancel),
        [Commit(0, 4.0)] + tail, end);
    run := [ReadToCancel(0, 0)] + ([Commit(0, 4.0)] + tail);
    FailureSteps(2.0, 3.0, 3, FirstClaim(), 1, fail, 0, FirstClaim());
    Prepend(Alone(2.0, 3, FirstClaim(), 1, fail), Commit(0, 3.0), Alone(3.0, 3, FailedOnce(), 1, map[]), run, end);
    ReadSteps(2.0, 3, FirstClaim(), 1, map[], 0);
    Prepend(Alone(2.0, 3, FirstClaim(), 1, map[]), ReadToFail(0, 0, "failed"), Alone(2.0, 3, FirstClaim(), 1, fail),
        [Commit(0, 3.0)] + run, end);
    run := [ReadToFail(0, 0, "failed")] + ([Commit(0, 3.0)] + run);
  }

  /**
   * With three retries, a run after which the job is processing without a start time, so that the
   * timeout sweep does not see it, and no call is under way that could change that.
   */
  lemma ProcessingWithoutStart() returns (run: seq<Action>)
    ensures S.Legal(State(EMPTY, map[]), run)
    ensures var s := S.Exec(State(EMPTY, map[]), run);
            0 in s.w.jobs && s.w.jobs[0].status == Processing && s.w.jobs[0].startedAt == None && s.calls == map[]
  {
    var end := Alone(9.0, 3, Startless(), 3, map[]);
    run := LastClaim();
    run := SecondClaim(run, end);
    run := TwoLateFailures(run, end);
    run := FailThenCancel(run, end);
    run := FromClaim(3, run, end);
  }
}
