/** What holds over whole runs of the queue: absorption, bounds, termination, retention. */
module LifecycleRuns {
  import opened Basics
  import opened JobTables
  import opened RollingAverage
  import opened Lifecycle

  ghost predicate Reachable(w: World) {
    exists run :: Legal(EMPTY, run) && Exec(EMPTY, run) == w
  }

  lemma ReachableInv(w: World)
    requires Reachable(w)
    ensures Inv(w)
  {
    var run :| Legal(EMPTY, run) && Exec(EMPTY, run) == w;
    InvInitially();
    RunKeepsInv(EMPTY, run);
  }

  /**
   * Every row of every reachable state: a result row exists iff the job is completed, a
   * processing job has its start time, a failed one has used up its retries, a job that was
   * never failed carries no error message, and the number of claims is bounded by the retries.
   */
  lemma EveryReachableRow(w: World, id: JobId)
    requires Reachable(w) && id in w.jobs
    ensures var job, max := w.jobs[id], MaxRetries(w.images, w.jobs[id]);
            && job.imageId in w.images && id in w.claims
            && job.status != Queued
            && (id in w.results <==> job.status == Completed)
            && (job.status in {Processing, Completed} ==> job.startedAt.Some?)
            && (job.startedAt.Some? ==> job.submittedAt <= job.startedAt.value <= w.clock)
            && (job.completedAt.Some? <==> job.status in {Completed, Failed})
            && (job.completedAt.Some? ==> job.submittedAt <= job.completedAt.value <= w.clock)
            && (job.completedAt.Some? && job.startedAt.Some? ==> job.startedAt.value <= job.completedAt.value)
            && (job.status == Failed ==> job.retryCount == max)
            && (job.errorMessage.Some? <==> job.status == Failed)
            && (job.source == PendingUpload <==> id in w.uploading)
            && w.claims[id] + (if job.status == Pending then 1 else 0) <= 1 + job.retryCount <= 1 + max
  {
    ReachableInv(w);
    assert JobOk(w, id);
  }

  /**
   * Retention removes exactly the jobs that completed or failed before the cutoff, with their
   * result rows, and leaves all others as they are. So a cancelled job is never removed, although
   * the query asks for cancelled jobs too: cancelling does not set `completed_at`.
   */
  lemma PurgeIsExact(w: World, e: Event, id: JobId)
    requires Reachable(w) && Enabled(w, e) && e.step.Purge? && id in w.jobs
    ensures var v, job := Apply(w, e), w.jobs[id];
            && (job.completedAt.Some? <==> job.status in {Completed, Failed})
            && (id !in v.jobs <==> job.completedAt.Some? && job.completedAt.value < e.step.cutoff)
            && (job.status == Cancelled ==> id in v.jobs)
            && (id in v.jobs ==> v.jobs[id] == job)
            && (id in v.results <==> id in v.jobs && id in w.results)
            && (id in v.results ==> v.results[id] == w.results[id])
  {
    ReachableInv(w);
    assert JobOk(w, id);
  }

  /** The stored average and count of every image describe exactly the completions it ever had. */
  lemma ReachableAverages(w: World, i: ImageId)
    requires Reachable(w) && i in w.images
    ensures ImageStatsOk(w.images[i], i, w.completions)
  {
    ReachableInv(w);
  }

  // ---- How one row evolves ------------------------------------------------------

  function Rank(status: Status): nat {
    match status
    case Pending => 2
    case Queued => 2
    case Processing => 1
    case Cancelled => 1
    case Completed => 0
    case Failed => 0
  }

  /** How many moves a job can still make. */
  function Budget(job: Job, max: nat): int {
    2 * (max - job.retryCount) + Rank(job.status)
  }

  predicate SameMove(a: Job, b: Job) {
    a.status == b.status && a.retryCount == b.retryCount
  }

  /** What no step ever changes, and what a step may do to the rest. */
  ghost predicate Evolves(a: Job, b: Job, max: nat) {
    && a.imageId == b.imageId && a.submittedAt == b.submittedAt
    && a.estimatedRuntime == b.estimatedRuntime && a.callbackUrl == b.callbackUrl
    && (a.status == Completed ==> b == a.(worker := b.worker, source := b.source))
    && (a.status == Failed ==> b.status == Failed && b.retryCount == a.retryCount)
    && (SameMove(a, b) || Budget(b, max) < Budget(a, max))
    && a.retryCount <= b.retryCount
  }

  /** What a step leaves in the row `id`, if it leaves the row at all. */
  ghost function RowAfter(w: World, e: Event, id: JobId): Job
    requires Enabled(w, e) && id in w.jobs
  {
    var job := w.jobs[id];
    match e.step
    case FinishUpload(k, path) => if k == id then job.(source := Stored(path)) else job
    case Cancel(k) => if k == id && job.status == Pending then job.(status := Cancelled) else job
    case Claim(k, worker, _) => if k == id then ClaimedRow(job, worker, e.at) else job
    case RecordPod(k, pod) => if k == id then job.(worker := Some(pod)) else job
    case MarkCompleted(k, _, runtime) =>
      if k == id && job.status == Processing && id !in w.results then CompletedRow(job, runtime, e.at) else job
    case MarkFailed(k, message) =>
      if k == id && job.status != Completed then FailedRow(job, MaxRetries(w.images, job), message, e.at) else job
    case _ => job
  }

  lemma ApplyRow(w: World, e: Event, id: JobId)
    requires Enabled(w, e) && id in w.jobs && id < w.nextId && id in Apply(w, e).jobs
    ensures Apply(w, e).jobs[id] == RowAfter(w, e, id)
  {
    match e.step {
      case Submit(i, url) => assert id != w.nextId;
      case _ =>
    }
  }

  lemma RowEvolves(w: World, e: Event, id: JobId)
    requires Enabled(w, e) && id in w.jobs && JobOk(w, id)
    ensures Evolves(w.jobs[id], RowAfter(w, e, id), MaxRetries(w.images, w.jobs[id]))
  {
  }

  lemma RetryLimitIsFixed(w: World, e: Event, i: ImageId)
    requires Enabled(w, e) && i in w.images
    ensures i in Apply(w, e).images && Apply(w, e).images[i].maxRetries == w.images[i].maxRetries
  {
    match e.step {
      case MarkCompleted(id, report, runtime) =>
      case _ =>
    }
  }

  lemma ResultIsKept(w: World, e: Event, id: JobId)
    requires Enabled(w, e) && id in w.jobs && id in w.results && id in Apply(w, e).jobs
    ensures id in Apply(w, e).results && Apply(w, e).results[id] == w.results[id]
  {
    match e.step {
      case MarkCompleted(k, report, runtime) =>
      case _ =>
    }
  }

  lemma StepEvolves(w: World, e: Event, id: JobId)
    requires Inv(w) && Enabled(w, e) && id in w.jobs && id in Apply(w, e).jobs
    ensures Evolves(w.jobs[id], Apply(w, e).jobs[id], MaxRetries(w.images, w.jobs[id]))
    ensures id in w.results ==> id in Apply(w, e).results && Apply(w, e).results[id] == w.results[id]
    ensures MaxRetries(Apply(w, e).images, Apply(w, e).jobs[id]) == MaxRetries(w.images, w.jobs[id])
  {
    assert JobOk(w, id);
    ApplyRow(w, e, id);
    RowEvolves(w, e, id);
    RetryLimitIsFixed(w, e, w.jobs[id].imageId);
    if id in w.results {
      ResultIsKept(w, e, id);
    }
  }

  /** A job id that is gone never comes back: ids are not reused. */
  lemma StepKeepsGone(w: World, e: Event, id: JobId)
    requires Enabled(w, e) && id < w.nextId && id !in w.jobs
    ensures id !in Apply(w, e).jobs && id < Apply(w, e).nextId
  {
    match e.step {
      case Submit(i, url) =>
      case _ =>
    }
  }

  lemma ClockIsTime(w: World, e: Event)
    requires Enabled(w, e)
    ensures Apply(w, e).clock == e.at
  {
    match e.step {
      case Submit(i, url) =>
      case _ =>
    }
  }

  lemma IdsGrow(w: World, e: Event)
    requires Enabled(w, e)
    ensures w.nextId <= Apply(w, e).nextId
  {
    match e.step {
      case Submit(i, url) =>
      case _ =>
    }
  }

  lemma {:induction false} GoneStaysGone(w: World, run: seq<Event>, id: JobId)
    requires Inv(w) && Legal(w, run) && id < w.nextId && id !in w.jobs
    ensures id !in Exec(w, run).jobs
    decreases |run|
  {
    if run != [] {
      StepKeepsGone(w, run[0], id);
      StepKeepsInv(w, run[0]);
      GoneStaysGone(Apply(w, run[0]), run[1..], id);
    }
  }

  lemma StillThereAfterOne(w: World, run: seq<Event>, id: JobId)
    requires Inv(w) && Legal(w, run) && run != [] && id in w.jobs && id in Exec(w, run).jobs
    ensures id in Apply(w, run[0]).jobs
  {
    var v := Apply(w, run[0]);
    StepKeepsInv(w, run[0]);
    assert JobOk(w, id);
    if id !in v.jobs {
      GoneStaysGone(v, run[1..], id);
      assert false;
    }
  }

  /**
   * Completed and failed absorb: as long as the row exists, no run, with late calls from
   * abandoned attempts anywhere in it, moves the job again, touches a completed job's times,
   * or replaces its result row.
   */
  lemma {:induction false} TerminalAbsorbs(w: World, run: seq<Event>, id: JobId)
    requires Inv(w) && Legal(w, run)
    requires id in w.jobs && w.jobs[id].status in {Completed, Failed} && id in Exec(w, run).jobs
    ensures var a, v, b := w.jobs[id], Exec(w, run), Exec(w, run).jobs[id];
            && b.status == a.status && b.retryCount == a.retryCount
            && (a.status == Completed ==>
                  b == a.(worker := b.worker, source := b.source) &&
                  id in w.results && id in v.results && v.results[id] == w.results[id])
    decreases |run|
  {
    assert JobOk(w, id);
    if run != [] {
      StillThereAfterOne(w, run, id);
      StepEvolves(w, run[0], id);
      StepKeepsInv(w, run[0]);
      TerminalAbsorbs(Apply(w, run[0]), run[1..], id);
    }
  }

  /** Retries keep a job's place in time: submission time, estimate and image never change. */
  lemma {:induction false} IdentityNeverChanges(w: World, run: seq<Event>, id: JobId)
    requires Inv(w) && Legal(w, run) && id in w.jobs && id in Exec(w, run).jobs
    ensures var a, b := w.jobs[id], Exec(w, run).jobs[id];
            && b.submittedAt == a.submittedAt && b.estimatedRuntime == a.estimatedRuntime
            && b.imageId == a.imageId && b.callbackUrl == a.callbackUrl
            && a.retryCount <= b.retryCount
    decreases |run|
  {
    if run != [] {
      StillThereAfterOne(w, run, id);
      StepEvolves(w, run[0], id);
      StepKeepsInv(w, run[0]);
      IdentityNeverChanges(Apply(w, run[0]), run[1..], id);
    }
  }

  // ---- Retention ------------------------------------------------------------------

  /** No retention of this run reaches back beyond `t`, and the job's submission is not undone. */
  ghost predicate Spares(run: seq<Event>, t: real, id: JobId) {
    forall e :: e in run ==> (e.step.Purge? ==> e.step.cutoff <= t) && e.step != AbortSubmission(id)
  }

  lemma SparedStays(w: World, e: Event, t: real, id: JobId)
    requires Enabled(w, e) && id in w.jobs && (w.jobs[id].completedAt.Some? ==> t <= w.jobs[id].completedAt.value)
    requires (e.step.Purge? ==> e.step.cutoff <= t) && e.step != AbortSubmission(id)
    ensures id in Apply(w, e).jobs
  {
    match e.step {
      case Submit(i, url) =>
      case _ =>
    }
  }

  /** A completion committed at time t survives every later run in which retention keeps to cutoffs of at most t. */
  lemma CompletionOutlivesRetention(w: World, e: Event, run: seq<Event>)
    requires Inv(w) && Enabled(w, e) && e.step.MarkCompleted? && e.step.id in w.jobs
    requires w.jobs[e.step.id].status == Processing
    requires Legal(Apply(w, e), run) && Spares(run, e.at, e.step.id)
    ensures var v, id := Exec(Apply(w, e), run), e.step.id;
            && id in v.jobs && v.jobs[id].status == Completed && v.jobs[id].completedAt == Some(e.at)
            && v.jobs[id].actualRuntime == Some(e.step.runtime) && id in v.results && v.results[id] == e.step.report
  {
    assert JobOk(w, e.step.id);
    StepKeepsInv(w, e);
    CompletedOutlives(Apply(w, e), run, e.step.id, e.at);
  }

  lemma {:induction false} CompletedOutlives(w: World, run: seq<Event>, id: JobId, t: real)
    requires Inv(w) && Legal(w, run) && Spares(run, t, id)
    requires id in w.jobs && w.jobs[id].status == Completed && w.jobs[id].completedAt == Some(t)
    ensures var v := Exec(w, run);
            && id in v.jobs && id in w.results && id in v.results && v.results[id] == w.results[id]
            && v.jobs[id] == w.jobs[id].(worker := v.jobs[id].worker, source := v.jobs[id].source)
    decreases |run|
  {
    assert JobOk(w, id);
    if run != [] {
      assert run[0] in run && forall e :: e in run[1..] ==> e in run;
      SparedStays(w, run[0], t, id);
      StepEvolves(w, run[0], id);
      StepKeepsInv(w, run[0]);
      CompletedOutlives(Apply(w, run[0]), run[1..], id, t);
    }
  }

  // ---- What single steps achieve ------------------------------------------------

  /** The steps that are about the job: every other step but retention leaves it alone. */
  predicate Concerns(step: Step, id: JobId) {
    match step
    case FinishUpload(k, _) => k == id
    case AbortSubmission(k) => k == id
    case Cancel(k) => k == id
    case Claim(k, _, _) => k == id
    case RecordPod(k, _) => k == id
    case MarkCompleted(k, _, _) => k == id
    case MarkFailed(k, _) => k == id
    case Purge(_) => true
    case _ => false
  }

  lemma OthersAreUntouched(w: World, e: Event, id: JobId)
    requires Inv(w) && Enabled(w, e) && id in w.jobs && !Concerns(e.step, id)
    ensures var v := Apply(w, e);
            && id in v.jobs && v.jobs[id] == w.jobs[id]
            && (id in v.results <==> id in w.results) && (id in w.results ==> v.results[id] == w.results[id])
            && id in v.claims && v.claims[id] == w.claims[id]
            && (id in v.uploading <==> id in w.uploading)
  {
    assert JobOk(w, id);
    OthersStay(w, e, id);
  }

  lemma OthersStay(w: World, e: Event, id: JobId)
    requires Enabled(w, e) && id in w.jobs && !Concerns(e.step, id) && id < w.nextId && id in w.claims
    ensures var v := Apply(w, e);
            && id in v.jobs && v.jobs[id] == w.jobs[id]
            && (id in v.results <==> id in w.results) && (id in w.results ==> v.results[id] == w.results[id])
            && id in v.claims && v.claims[id] == w.claims[id]
            && (id in v.uploading <==> id in w.uploading)
  {
    match e.step {
      case Submit(i, url) => assert id != w.nextId;
      case _ =>
    }
  }

  /** A claim starts the job's processing spell and records the best score among the unlocked pending rows. */
  lemma ClaimTakesBest(w: World, e: Event)
    requires Inv(w) && Enabled(w, e) && e.step.Claim?
    ensures var v, id := Apply(w, e), e.step.id;
            && IsPending(w.jobs, id) && id !in e.step.locked
            && v.jobs[id].status == Processing && v.jobs[id].startedAt == Some(e.at)
            && v.jobs[id].worker == Some(e.step.worker)
            && v.jobs[id].scoreAtDequeue == Some(Score(w.jobs[id], e.at))
            && v.claims[id] == w.claims[id] + 1
            && forall k :: IsPending(w.jobs, k) && k !in e.step.locked ==>
                 Score(w.jobs[k], e.at) <= v.jobs[id].scoreAtDequeue.value
  {
    var free := w.jobs - e.step.locked;
    assert JobOk(w, e.step.id);
    forall k | IsPending(w.jobs, k) && k !in e.step.locked
      ensures Score(w.jobs[k], e.at) <= Score(w.jobs[e.step.id], e.at)
    {
      assert IsPending(free, k);
    }
  }

  // ---- Cancelled jobs -----------------------------------------------------------

  /**
   * `cancelled` does not absorb, but only one step leads out of it: a failure reported by a run of
   * the job that was abandoned before the job was queued again and cancelled.
   */
  lemma CancelledLeavesIff(w: World, e: Event, id: JobId)
    requires Inv(w) && Enabled(w, e) && id in w.jobs && w.jobs[id].status == Cancelled && id in Apply(w, e).jobs
    ensures Apply(w, e).jobs[id].status == Cancelled <==> !(e.step.MarkFailed? && e.step.id == id)
  {
    assert JobOk(w, id);
    ApplyRow(w, e, id);
  }

  ghost predicate Fails(e: Event, id: JobId) {
    e.step.MarkFailed? && e.step.id == id
  }

  ghost predicate NeverFails(run: seq<Event>, id: JobId) {
    forall e :: e in run ==> !Fails(e, id)
  }

  /** The job is cancelled now and after every step of the run. */
  ghost predicate CancelledThroughout(w: World, run: seq<Event>, id: JobId)
    requires Legal(w, run)
    decreases |run|
  {
    && id in w.jobs && w.jobs[id].status == Cancelled
    && (run != [] ==> CancelledThroughout(Apply(w, run[0]), run[1..], id))
  }

  /** Over a run: a cancelled job that is still there at the end was cancelled all along iff no failure was reported. */
  lemma {:induction false} StaysCancelledIff(w: World, run: seq<Event>, id: JobId)
    requires Inv(w) && Legal(w, run) && id in w.jobs && w.jobs[id].status == Cancelled && id in Exec(w, run).jobs
    ensures CancelledThroughout(w, run, id) <==> NeverFails(run, id)
    decreases |run|
  {
    if run != [] {
      StillThereAfterOne(w, run, id);
      StepKeepsInv(w, run[0]);
      CancelledLeavesIff(w, run[0], id);
      NeverFailsCons(run, id);
      if !Fails(run[0], id) {
        StaysCancelledIff(Apply(w, run[0]), run[1..], id);
      }
    }
  }

  lemma NeverFailsCons(run: seq<Event>, id: JobId)
    requires run != []
    ensures NeverFails(run, id) <==> !Fails(run[0], id) && NeverFails(run[1..], id)
  {
    assert run == [run[0]] + run[1..];
  }

  /** A queue with one image and one job. */
  ghost function OneJob(at: real, max: nat, job: Job, claims: nat): World {
    World(at, map[0 := job], map[], map[0 := Image(60, max, 1.0, None, 0, true)], 1, {}, map[0 := claims], [])
  }

  function StoredRow(): Job {
    NewRow(0, 1.0, None, 0.0).(source := Stored("input"))
  }

  function FirstClaim(): Job {
    ClaimedRow(StoredRow(), "dispatcher", 2.0)
  }

  lemma OneJobSubmitted(max: nat) returns (run: seq<Event>)
    ensures Legal(EMPTY, run) && Exec(EMPTY, run) == OneJob(1.0, max, StoredRow(), 0)
    ensures forall e :: e in run ==> e.step.AddImage? || e.step.Submit? || e.step.FinishUpload?
  {
    var added, submitted := Event(0.0, AddImage(0, 60, max, 1.0)), Event(0.0, Submit(0, None));
    var stored := Event(1.0, FinishUpload(0, "input"));
    var w1 := Apply(EMPTY, added);
    var w2 := Apply(w1, submitted);
    AppendLeads([], EMPTY, added, w1);
    AppendLeads([] + [added], w1, submitted, w2);
    AppendLeads([] + [added] + [submitted], w2, stored, OneJob(1.0, max, StoredRow(), 0));
    run := [] + [added] + [submitted] + [stored];
  }

  lemma OneJobClaims(max: nat)
    ensures Leads(OneJob(1.0, max, StoredRow(), 0), Event(2.0, Claim(0, "dispatcher", {})),
              OneJob(2.0, max, FirstClaim(), 1))
  {
    var w := OneJob(1.0, max, StoredRow(), 0);
    assert w.jobs - {} == w.jobs;
  }

  lemma OneJobFails(at: real, later: real, max: nat, job: Job, claims: nat, message: string)
    requires at <= later && job.imageId == 0 && job.status != Completed
    ensures Leads(OneJob(at, max, job, claims), Event(later, MarkFailed(0, message)),
                  OneJob(later, max, FailedRow(job, max, message, later), claims))
  {
  }

  lemma OneJobCancels(at: real, later: real, max: nat, job: Job, claims: nat)
    requires at <= later && job.status == Pending
    ensures Leads(OneJob(at, max, job, claims), Event(later, Cancel(0)),
                  OneJob(later, max, job.(status := Cancelled), claims))
  {
  }

  /**
   * It happens: the sweep requeues a job whose run is still going, the user cancels the job, and
   * then the run reports its own failure. The cancelled job is pending again.
   */
  lemma CancelledJobRunsAgain() returns (before: seq<Event>, late: Event)
    ensures Legal(EMPTY, before) && Legal(EMPTY, before + [late]) && Fails(late, 0)
    ensures var w := Exec(EMPTY, before); 0 in w.jobs && w.jobs[0].status == Cancelled
    ensures IsPending(Exec(EMPTY, before + [late]).jobs, 0)
  {
    var requeued := FailedRow(FirstClaim(), 2, "timed out", 100.0);
    var cancelled := requeued.(status := Cancelled);
    before := OneJobSubmitted(2);
    OneJobClaims(2);
    AppendLeads(before, OneJob(1.0, 2, StoredRow(), 0), Event(2.0, Claim(0, "dispatcher", {})),
        OneJob(2.0, 2, FirstClaim(), 1));
    before := before + [Event(2.0, Claim(0, "dispatcher", {}))];
    OneJobFails(2.0, 100.0, 2, FirstClaim(), 1, "timed out");
    AppendLeads(before, OneJob(2.0, 2, FirstClaim(), 1), Event(100.0, MarkFailed(0, "timed out")),
        OneJob(100.0, 2, requeued, 1));
    before := before + [Event(100.0, MarkFailed(0, "timed out"))];
    OneJobCancels(100.0, 101.0, 2, requeued, 1);
    AppendLeads(before, OneJob(100.0, 2, requeued, 1), Event(101.0, Cancel(0)), OneJob(101.0, 2, cancelled, 1));
    before := before + [Event(101.0, Cancel(0))];
    late := Event(102.0, MarkFailed(0, "late"));
    OneJobFails(101.0, 102.0, 2, cancelled, 1, "late");
    AppendLeads(before, OneJob(101.0, 2, cancelled, 1), late,
        OneJob(102.0, 2, FailedRow(cancelled, 2, "late", 102.0), 1));
  }

  // ---- Termination --------------------------------------------------------------

  /** The number of steps of the run that change the status or the retry count of the job. */
  ghost function Moves(w: World, run: seq<Event>, id: JobId): nat
    requires Legal(w, run)
    decreases |run|
  {
    if run == [] then 0
    else
      var v := Apply(w, run[0]);
      (if id in w.jobs && id in v.jobs && !SameMove(w.jobs[id], v.jobs[id]) then 1 else 0) + Moves(v, run[1..], id)
  }

  lemma {:induction false} NoMovesOnceGone(w: World, run: seq<Event>, id: JobId)
    requires Inv(w) && Legal(w, run) && id < w.nextId && id !in w.jobs
    ensures Moves(w, run, id) == 0
    decreases |run|
  {
    if run != [] {
      StepKeepsGone(w, run[0], id);
      StepKeepsInv(w, run[0]);
      NoMovesOnceGone(Apply(w, run[0]), run[1..], id);
    }
  }

  /** However long a run is, the job moves at most as often as its budget allows. */
  lemma {:induction false} MovesWithinBudget(w: World, run: seq<Event>, id: JobId)
    requires Inv(w) && Legal(w, run) && id in w.jobs
    ensures Moves(w, run, id) <= Budget(w.jobs[id], MaxRetries(w.images, w.jobs[id]))
    decreases |run|
  {
    assert JobOk(w, id);
    if run != [] {
      var v := Apply(w, run[0]);
      StepKeepsInv(w, run[0]);
      if id in v.jobs {
        StepEvolves(w, run[0], id);
        MovesWithinBudget(v, run[1..], id);
      } else {
        NoMovesOnceGone(v, run[1..], id);
      }
    }
  }

  /** A submitted job therefore changes status at most 2 * max_retries + 2 times, ever. */
  lemma SubmittedJobSettles(w: World, e: Event, run: seq<Event>)
    requires Inv(w) && Enabled(w, e) && e.step.Submit? && Admission(w.images, e.step.imageId).Ok?
    requires Legal(Apply(w, e), run)
    ensures w.nextId in Apply(w, e).jobs && Apply(w, e).jobs[w.nextId].status == Pending
    ensures Moves(Apply(w, e), run, w.nextId) <= 2 * w.images[e.step.imageId].maxRetries + 2
  {
    StepKeepsInv(w, e);
    MovesWithinBudget(Apply(w, e), run, w.nextId);
  }

  // ---- Submission and estimates -------------------------------------------------

  /**
   * If recorded runtimes are never negative and defaults are positive, an active image refuses a
   * submission exactly when it has completions and every one of them took zero time.
   */
  lemma RefusedForRuntimeIff(w: World, i: ImageId)
    requires Reachable(w) && i in w.images && w.images[i].active && w.images[i].defaultEstimate > 0.0
    requires forall k :: 0 <= k < |w.completions| ==> w.completions[k].runtime >= 0.0
    ensures Admission(w.images, i) == Err(InvalidRuntime) <==>
              CountFor(w.completions, i) > 0 &&
              forall k :: 0 <= k < |w.completions| && w.completions[k].imageId == i ==> w.completions[k].runtime == 0.0
  {
    ReachableAverages(w, i);
    if w.images[i].average.Some? {
      AverageVanishesIff(w.images[i], i, w.completions);
    }
  }

  /** One completion that took no time is enough: the image refuses from then on, though its default is positive. */
  lemma ZeroRuntimeBlocksImage() returns (run: seq<Event>)
    ensures Legal(EMPTY, run)
    ensures var w := Exec(EMPTY, run);
            && 0 in w.images && w.images[0].active && w.images[0].defaultEstimate == 1.0
            && |w.completions| == 1 && w.completions[0].runtime == 0.0
            && Admission(w.images, 0) == Err(InvalidRuntime)
  {
    var before := OneJobSubmitted(1);
    var claim := Event(2.0, Claim(0, "dispatcher", {}));
    OneJobClaims(1);
    AppendLeads(before, OneJob(1.0, 1, StoredRow(), 0), claim, OneJob(2.0, 1, FirstClaim(), 1));
    var w := OneJob(2.0, 1, FirstClaim(), 1);
    var done := Event(2.0, MarkCompleted(0, NO_REPORT, 0.0));
    AppendLeads(before + [claim], w, done, DoMarkCompleted(w, 0, NO_REPORT, 0.0));
    run := before + [claim] + [done];
  }

  /** An accepted estimate lies within the runtimes the image has actually shown. */
  lemma EstimateWithinHistory(w: World, i: ImageId, lo: real, hi: real)
    requires Reachable(w) && i in w.images && w.images[i].active && CountFor(w.completions, i) > 0
    requires 0.0 < lo
    requires forall k :: 0 <= k < |w.completions| && w.completions[k].imageId == i ==>
               lo <= w.completions[k].runtime <= hi
    ensures Admission(w.images, i).Ok? && lo <= Admission(w.images, i).value <= hi
  {
    ReachableAverages(w, i);
    AverageWithinBounds(w.images[i], i, w.completions, lo, hi);
  }

  /** In every reachable state it is the score the scheduler orders by, and it is at least 1. */
  lemma ScoresAgree(w: World, id: JobId, at: real)
    requires Reachable(w) && id in w.jobs && w.clock <= at
    ensures DisplayScore(w.jobs[id], at) == Score(w.jobs[id], at) >= 1.0
  {
    ReachableInv(w);
    assert JobOk(w, id);
    ScoreAtLeastOne(w.jobs[id], at);
  }
}
