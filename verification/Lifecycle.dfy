/**
 * The job queue as a state machine: each service call is one atomic step over the tables.
 * Steps arrive in any order and any number of times, so a call made late by an abandoned
 * run is just another step.
 */
module Lifecycle {
  import opened Basics
  import opened JobTables
  import opened RollingAverage

  /**
   * The tables, the submissions whose upload is still in progress, and two histories:
   * how often each job was claimed, and every completion that was ever committed.
   */
  datatype World = World(
    clock: real,
    jobs: map<JobId, Job>,
    results: map<JobId, Report>,
    images: map<ImageId, Image>,
    nextId: JobId,
    uploading: set<JobId>,
    claims: map<JobId, nat>,
    completions: seq<Completion>)

  /**
   * A claim passes over the rows that other transactions have locked; `Look` only reads. A
   * submission can be aborted even after its files were stored, if its reply then fails. At the end
   * of a run of a job its files are removed, which the tables do not show.
   */
  datatype Step =
    | AddImage(imageId: ImageId, timeoutSeconds: nat, maxRetries: nat, defaultEstimate: real)
    | EditImage(imageId: ImageId, timeoutSeconds: nat, defaultEstimate: real, active: bool)
    | Submit(imageId: ImageId, callbackUrl: Option<string>)
    | FinishUpload(id: JobId, path: string)
    | AbortSubmission(id: JobId)
    | Cancel(id: JobId)
    | Claim(id: JobId, worker: string, locked: set<JobId>)
    | RecordPod(id: JobId, pod: string)
    | MarkCompleted(id: JobId, report: Report, runtime: real)
    | MarkFailed(id: JobId, message: string)
    | Purge(cutoff: real)
    | EndRun(id: JobId)
    | Look

  datatype Event = Event(at: real, step: Step)

  datatype SubmitError = ImageNotFound | ImageInactive | InvalidRuntime

  /** The checks of a submission: the estimate its row will carry, or the refusal. */
  function Admission(images: map<ImageId, Image>, imageId: ImageId): Result<Estimate, SubmitError> {
    if imageId !in images then Err(ImageNotFound)
    else if !images[imageId].active then Err(ImageInactive)
    else
      var estimate := images[imageId].average.GetOr(images[imageId].defaultEstimate);
      if estimate <= 0.0 then Err(InvalidRuntime) else Ok(estimate)
  }

  function MaxRetries(images: map<ImageId, Image>, job: Job): nat {
    if job.imageId in images then images[job.imageId].maxRetries else 0
  }

  function DoSubmit(w: World, imageId: ImageId, callbackUrl: Option<string>): World {
    match Admission(w.images, imageId)
    case Err(_) => w
    case Ok(estimate) =>
      w.(jobs := w.jobs[w.nextId := NewRow(imageId, estimate, callbackUrl, w.clock)],
         claims := w.claims[w.nextId := 0],
         uploading := w.uploading + {w.nextId},
         nextId := w.nextId + 1)
  }

  function DoFinishUpload(w: World, id: JobId, path: string): World {
    w.(uploading := w.uploading - {id},
       jobs := if id in w.jobs then w.jobs[id := w.jobs[id].(source := Stored(path))] else w.jobs)
  }

  /** Deleting job rows cascades to their result rows. */
  function DeleteJobs(w: World, ids: set<JobId>): World {
    w.(jobs := w.jobs - ids, results := w.results - ids)
  }

  function DoCancel(w: World, id: JobId): World {
    if id in w.jobs && w.jobs[id].status == Pending
    then w.(jobs := w.jobs[id := w.jobs[id].(status := Cancelled)])
    else w
  }

  function DoClaim(w: World, id: JobId, worker: string): World
    requires id in w.jobs
  {
    w.(jobs := w.jobs[id := ClaimedRow(w.jobs[id], worker, w.clock)],
       claims := w.claims[id := 1 + if id in w.claims then w.claims[id] else 0])
  }

  function DoRecordPod(w: World, id: JobId, pod: string): World {
    if id in w.jobs then w.(jobs := w.jobs[id := w.jobs[id].(worker := Some(pod))]) else w
  }

  /** The whole transaction is undone when the result row already exists (UNIQUE job_id). */
  function DoMarkCompleted(w: World, id: JobId, report: Report, runtime: real): World {
    if id in w.jobs && w.jobs[id].status == Processing && id !in w.results then
      var i := w.jobs[id].imageId;
      w.(jobs := w.jobs[id := CompletedRow(w.jobs[id], runtime, w.clock)],
         results := w.results[id := report],
         images := if i in w.images then w.images[i := RecordRuntime(w.images[i], runtime)] else w.images,
         completions := w.completions + [Completion(id, i, runtime)])
    else w
  }

  function DoMarkFailed(w: World, id: JobId, message: string): World {
    if id in w.jobs && w.jobs[id].status != Completed
    then w.(jobs := w.jobs[id := FailedRow(w.jobs[id], MaxRetries(w.images, w.jobs[id]), message, w.clock)])
    else w
  }

  /** The rows that retention removes. A row without `completed_at` is never older than the cutoff. */
  function Expired(jobs: map<JobId, Job>, cutoff: real): set<JobId> {
    set id | id in jobs && jobs[id].status in {Completed, Failed, Cancelled} &&
             jobs[id].completedAt.Some? && jobs[id].completedAt.value < cutoff
  }

  ghost predicate Enabled(w: World, e: Event) {
    && w.clock <= e.at
    && match e.step
       case AddImage(i, _, _, _) => i !in w.images
       case EditImage(i, _, _, _) => i in w.images
       case FinishUpload(id, _) => id in w.uploading
       case AbortSubmission(id) => id < w.nextId
       case Claim(id, _, locked) => IsTop(w.jobs - locked, e.at, id)
       case EndRun(id) => id in w.claims && w.claims[id] > 0
       case _ => true
  }

  ghost function Apply(w: World, e: Event): World
    requires Enabled(w, e)
  {
    var w := w.(clock := e.at);
    match e.step
    case AddImage(i, timeout, retries, estimate) =>
      w.(images := w.images[i := Image(timeout, retries, estimate, None, 0, true)])
    case EditImage(i, timeout, estimate, active) =>
      var image := w.images[i].(timeoutSeconds := timeout, defaultEstimate := estimate, active := active);
      w.(images := w.images[i := image])
    case Submit(i, url) => DoSubmit(w, i, url)
    case FinishUpload(id, path) => DoFinishUpload(w, id, path)
    case AbortSubmission(id) => DeleteJobs(w.(uploading := w.uploading - {id}), {id})
    case Cancel(id) => DoCancel(w, id)
    case Claim(id, worker, _) => DoClaim(w, id, worker)
    case RecordPod(id, pod) => DoRecordPod(w, id, pod)
    case MarkCompleted(id, report, runtime) => DoMarkCompleted(w, id, report, runtime)
    case MarkFailed(id, message) => DoMarkFailed(w, id, message)
    case Purge(cutoff) => DeleteJobs(w, Expired(w.jobs, cutoff))
    case EndRun(_) => w
    case Look => w
  }

  /** A run: every event is enabled where it happens. */
  ghost predicate Legal(w: World, run: seq<Event>)
    decreases |run|
  {
    run == [] || (Enabled(w, run[0]) && Legal(Apply(w, run[0]), run[1..]))
  }

  ghost function Exec(w: World, run: seq<Event>): World
    requires Legal(w, run)
    decreases |run|
  {
    if run == [] then w else Exec(Apply(w, run[0]), run[1..])
  }

  lemma {:induction false} ExecAppend(w: World, run: seq<Event>, e: Event)
    requires Legal(w, run) && Enabled(Exec(w, run), e)
    ensures Legal(w, run + [e]) && Exec(w, run + [e]) == Apply(Exec(w, run), e)
    decreases |run|
  {
    if run == [] {
      assert run + [e] == [e];
      assert Exec(Apply(w, e), [e][1..]) == Apply(w, e);
    } else {
      assert (run + [e])[1..] == run[1..] + [e];
      ExecAppend(Apply(w, run[0]), run[1..], e);
    }
  }

  ghost predicate Leads(w: World, e: Event, v: World) {
    Enabled(w, e) && Apply(w, e) == v
  }

  lemma AppendLeads(run: seq<Event>, w: World, e: Event, v: World)
    requires Legal(EMPTY, run) && Exec(EMPTY, run) == w && Leads(w, e, v)
    ensures Legal(EMPTY, run + [e]) && Exec(EMPTY, run + [e]) == v
  {
    ExecAppend(EMPTY, run, e);
  }

  ghost const EMPTY := World(0.0, map[], map[], map[], 0, {}, map[], [])

  // ---- The invariant ------------------------------------------------------------

  /** What always holds of one row, given its image's retry limit and its history. */
  ghost predicate RowOk(job: Job, max: nat, claims: nat, hasResult: bool, clock: real) {
    && job.status != Queued
    && job.submittedAt <= clock
    && (hasResult <==> job.status == Completed)
    && (job.status == Processing ==> job.worker.Some?)
    && (job.status in {Processing, Completed} ==> job.startedAt.Some?)
    && (job.status in {Pending, Cancelled} ==> job.startedAt == None)
    && (job.completedAt.Some? <==> job.status in {Completed, Failed})
    && (job.startedAt.Some? ==> job.submittedAt <= job.startedAt.value <= clock)
    && (job.completedAt.Some? ==>
          job.submittedAt <= job.completedAt.value <= clock &&
          (job.startedAt.Some? ==> job.startedAt.value <= job.completedAt.value))
    && (job.actualRuntime.Some? <==> job.status == Completed)
    && (job.errorMessage.Some? <==> job.status == Failed)
    && (job.status == Failed ==> job.retryCount == max)
    && job.retryCount <= max
    && claims + (if job.status == Pending then 1 else 0) <= 1 + job.retryCount
    && (job.scoreAtDequeue.Some? <==> claims > 0)
    && (job.scoreAtDequeue.Some? ==> job.scoreAtDequeue.value >= 1.0)
  }

  ghost predicate JobOk(w: World, id: JobId)
    requires id in w.jobs
  {
    && id < w.nextId
    && id in w.claims
    && w.jobs[id].imageId in w.images
    && (w.jobs[id].source == PendingUpload <==> id in w.uploading)
    && RowOk(w.jobs[id], MaxRetries(w.images, w.jobs[id]), w.claims[id], id in w.results, w.clock)
  }

  predicate Shows(job: Job, c: Completion) {
    job.imageId == c.imageId && job.actualRuntime == Some(c.runtime)
  }

  /** Every completion was of a different job, and a surviving job has one iff it has a result row. */
  ghost predicate History(jobs: map<JobId, Job>, results: set<JobId>, completions: seq<Completion>, nextId: JobId) {
    && results <= jobs.Keys
    && (forall k :: 0 <= k < |completions| ==> completions[k].jobId < nextId)
    && (forall k, l :: 0 <= k < l < |completions| ==> completions[k].jobId != completions[l].jobId)
    && (forall k :: 0 <= k < |completions| && completions[k].jobId in jobs ==>
          completions[k].jobId in results && Shows(jobs[completions[k].jobId], completions[k]))
    && (forall id :: id in results ==> exists k :: 0 <= k < |completions| && completions[k].jobId == id)
  }

  ghost predicate HistoryOk(w: World) {
    History(w.jobs, w.results.Keys, w.completions, w.nextId)
  }

  ghost predicate RowsOk(w: World) {
    forall id :: id in w.jobs ==> JobOk(w, id)
  }

  ghost predicate Inv(w: World) {
    && RowsOk(w)
    && (forall id :: id in w.uploading ==> id < w.nextId)
    && HistoryOk(w)
    && StatsOk(w.images, w.completions)
  }

  lemma InvInitially()
    ensures Inv(EMPTY)
  {
  }

  lemma ScoreAtLeastOne(job: Job, at: real)
    requires job.submittedAt <= at
    ensures Score(job, at) >= 1.0
  {
    var s := job.estimatedRuntime;
    FractionOrder(s, s, at - job.submittedAt + s, s);
    assert s / s == 1.0;
  }

  // ---- Every step keeps the invariant -------------------------------------------

  lemma TickKeeps(w: World, at: real)
    requires Inv(w) && w.clock <= at
    ensures Inv(w.(clock := at))
  {
    var v := w.(clock := at);
    forall id | id in v.jobs
      ensures JobOk(v, id)
    {
      assert JobOk(w, id);
    }
  }

  /** Rows may change as long as their images and recorded runtimes do not. */
  lemma HistoryIgnoresTheRest(jobs: map<JobId, Job>, later: map<JobId, Job>, results: set<JobId>, cs: seq<Completion>,
      nextId: JobId)
    requires History(jobs, results, cs, nextId) && later.Keys == jobs.Keys
    requires forall id :: id in jobs ==>
               later[id].imageId == jobs[id].imageId && later[id].actualRuntime == jobs[id].actualRuntime
    ensures History(later, results, cs, nextId)
  {
  }

  lemma HistoryIgnoresNewRow(jobs: map<JobId, Job>, id: JobId, row: Job, results: set<JobId>, cs: seq<Completion>)
    requires History(jobs, results, cs, id)
    ensures History(jobs[id := row], results, cs, id + 1)
  {
  }

  lemma SubmitKeepsRows(w: World, imageId: ImageId, url: Option<string>)
    requires RowsOk(w) && w.results.Keys <= w.jobs.Keys && (forall k :: k in w.uploading ==> k < w.nextId)
    ensures RowsOk(DoSubmit(w, imageId, url))
  {
    var v := DoSubmit(w, imageId, url);
    forall id | id in v.jobs
      ensures JobOk(v, id)
    {
      if id in w.jobs {
        assert JobOk(w, id);
      } else {
        assert id !in w.results;
      }
    }
  }

  lemma SubmitKeeps(w: World, imageId: ImageId, url: Option<string>)
    requires Inv(w)
    ensures Inv(DoSubmit(w, imageId, url))
  {
    SubmitKeepsRows(w, imageId, url);
    if Admission(w.images, imageId).Ok? {
      assert forall k :: k in w.jobs ==> JobOk(w, k);
      var v := DoSubmit(w, imageId, url);
      HistoryIgnoresNewRow(w.jobs, w.nextId, v.jobs[w.nextId], w.results.Keys, w.completions);
    }
  }

  /** A step that rewrites one row, and nothing the other rows depend on, needs only that row checked. */
  lemma RowUpdateKeeps(w: World, v: World, id: JobId, row: Job)
    requires Inv(w) && id in w.jobs
    requires v == w.(jobs := w.jobs[id := row], claims := v.claims, uploading := v.uploading)
    requires row.imageId == w.jobs[id].imageId && row.actualRuntime == w.jobs[id].actualRuntime
    requires forall k :: k in w.jobs && k != id ==>
               k in v.claims && k in w.claims && v.claims[k] == w.claims[k] && (k in v.uploading <==> k in w.uploading)
    requires v.uploading <= w.uploading
    requires JobOk(v, id)
    ensures Inv(v)
  {
    assert RowsOk(v) by {
      forall k | k in v.jobs
        ensures JobOk(v, k)
      {
        if k != id {
          assert JobOk(w, k);
        }
      }
    }
    HistoryIgnoresTheRest(w.jobs, v.jobs, w.results.Keys, w.completions, w.nextId);
  }

  lemma FinishUploadKeeps(w: World, id: JobId, path: string)
    requires Inv(w) && id in w.uploading
    ensures Inv(DoFinishUpload(w, id, path))
  {
    var v := DoFinishUpload(w, id, path);
    assert forall k :: k in w.jobs ==> JobOk(w, k);
    if id in w.jobs {
      assert JobOk(v, id);
      RowUpdateKeeps(w, v, id, v.jobs[id]);
    } else {
      assert forall k :: k in v.jobs ==> JobOk(v, k);
    }
  }

  lemma DeleteKeeps(w: World, ids: set<JobId>, uploading: set<JobId>)
    requires Inv(w) && uploading <= w.uploading && w.uploading - ids <= uploading
    ensures Inv(DeleteJobs(w.(uploading := uploading), ids))
  {
    var v := DeleteJobs(w.(uploading := uploading), ids);
    forall id | id in v.jobs
      ensures JobOk(v, id)
    {
      assert JobOk(w, id);
    }
  }

  lemma ClaimKeeps(w: World, id: JobId, worker: string)
    requires Inv(w) && id in w.jobs && w.jobs[id].status == Pending
    ensures Inv(DoClaim(w, id, worker))
  {
    assert JobOk(w, id);
    ScoreAtLeastOne(w.jobs[id], w.clock);
    assert forall k :: k in w.jobs ==> JobOk(w, k);
    var v := DoClaim(w, id, worker);
    RowUpdateKeeps(w, v, id, v.jobs[id]);
  }

  ghost predicate Completable(w: World, id: JobId) {
    id in w.jobs && w.jobs[id].status == Processing && id !in w.results
  }

  lemma CompletedKeepsRows(w: World, id: JobId, report: Report, runtime: real)
    requires Inv(w) && Completable(w, id)
    ensures var v := DoMarkCompleted(w, id, report, runtime);
            RowsOk(v)
  {
    var v := DoMarkCompleted(w, id, report, runtime);
    assert JobOk(w, id);
    forall k | k in v.jobs
      ensures JobOk(v, k)
    {
      assert JobOk(w, k);
    }
  }

  lemma CompletionIsNew(w: World, id: JobId)
    requires Inv(w) && Completable(w, id)
    ensures forall k :: 0 <= k < |w.completions| ==> w.completions[k].jobId != id
    ensures id < w.nextId && w.jobs[id].imageId in w.images
  {
    assert JobOk(w, id);
  }

  /** A new completion of a job that has none extends the history correctly. */
  lemma HistoryGrows(jobs: map<JobId, Job>, row: Job, results: set<JobId>, cs: seq<Completion>, nextId: JobId,
      c: Completion)
    requires History(jobs, results, cs, nextId) && c.jobId in jobs && c.jobId < nextId && Shows(row, c)
    requires forall k :: 0 <= k < |cs| ==> cs[k].jobId != c.jobId
    ensures History(jobs[c.jobId := row], results + {c.jobId}, cs + [c], nextId)
  {
    var after, all := cs + [c], results + {c.jobId};
    assert after[|cs|] == c && forall k :: 0 <= k < |cs| ==> after[k] == cs[k];
    forall id | id in all
      ensures exists n :: 0 <= n < |after| && after[n].jobId == id
    {
      if id != c.jobId {
        var n :| 0 <= n < |cs| && cs[n].jobId == id;
        assert after[n].jobId == id;
      }
    }
  }

  lemma CompletedKeepsHistory(w: World, id: JobId, report: Report, runtime: real)
    requires HistoryOk(w) && Completable(w, id) && id < w.nextId
    requires forall k :: 0 <= k < |w.completions| ==> w.completions[k].jobId != id
    ensures HistoryOk(DoMarkCompleted(w, id, report, runtime))
  {
    var v := DoMarkCompleted(w, id, report, runtime);
    HistoryGrows(w.jobs, v.jobs[id], w.results.Keys, w.completions, w.nextId,
                 Completion(id, w.jobs[id].imageId, runtime));
    assert v.results.Keys == w.results.Keys + {id};
  }

  lemma CompletedKeepsStats(w: World, id: JobId, report: Report, runtime: real)
    requires StatsOk(w.images, w.completions) && Completable(w, id) && w.jobs[id].imageId in w.images
    ensures var v := DoMarkCompleted(w, id, report, runtime); StatsOk(v.images, v.completions)
  {
    RecordKeepsStats(w.images, w.completions, Completion(id, w.jobs[id].imageId, runtime));
  }

  lemma CompletedKeeps(w: World, id: JobId, report: Report, runtime: real)
    requires Inv(w)
    ensures Inv(DoMarkCompleted(w, id, report, runtime))
  {
    if Completable(w, id) {
      CompletedKeepsRows(w, id, report, runtime);
      CompletionIsNew(w, id);
      CompletedKeepsHistory(w, id, report, runtime);
      CompletedKeepsStats(w, id, report, runtime);
    }
  }

  lemma CancelKeeps(w: World, id: JobId)
    requires Inv(w)
    ensures Inv(DoCancel(w, id))
  {
    if IsPending(w.jobs, id) {
      assert forall k :: k in w.jobs ==> JobOk(w, k);
      RowStepsKeep(w.jobs[id], MaxRetries(w.images, w.jobs[id]), w.claims[id], id in w.results, w.clock, "");
      RowUpdateKeeps(w, DoCancel(w, id), id, w.jobs[id].(status := Cancelled));
    }
  }

  lemma RecordPodKeeps(w: World, id: JobId, pod: string)
    requires Inv(w)
    ensures Inv(DoRecordPod(w, id, pod))
  {
    if id in w.jobs {
      assert forall k :: k in w.jobs ==> JobOk(w, k);
      RowUpdateKeeps(w, DoRecordPod(w, id, pod), id, w.jobs[id].(worker := Some(pod)));
    }
  }

  lemma FailedKeeps(w: World, id: JobId, message: string)
    requires Inv(w)
    ensures Inv(DoMarkFailed(w, id, message))
    ensures var v := DoMarkFailed(w, id, message);
            && v == w.(jobs := v.jobs) && v.jobs.Keys == w.jobs.Keys
            && forall k :: k in w.jobs && k != id ==> v.jobs[k] == w.jobs[k]
  {
    if id in w.jobs && w.jobs[id].status != Completed {
      assert forall k :: k in w.jobs ==> JobOk(w, k);
      var max := MaxRetries(w.images, w.jobs[id]);
      RowStepsKeep(w.jobs[id], max, w.claims[id], id in w.results, w.clock, message);
      RowUpdateKeeps(w, DoMarkFailed(w, id, message), id, FailedRow(w.jobs[id], max, message, w.clock));
    }
  }

  lemma RowStepsKeep(job: Job, max: nat, claims: nat, hasResult: bool, clock: real, text: string)
    requires RowOk(job, max, claims, hasResult, clock)
    ensures job.status == Pending ==> RowOk(job.(status := Cancelled), max, claims, hasResult, clock)
    ensures RowOk(job.(worker := Some(text)), max, claims, hasResult, clock)
    ensures job.status != Completed ==> RowOk(FailedRow(job, max, text, clock), max, claims, hasResult, clock)
  {
  }

  lemma ImageStepsKeep(w: World, i: ImageId, image: Image)
    requires Inv(w)
    requires if i in w.images
             then image.maxRetries == w.images[i].maxRetries && image.average == w.images[i].average &&
                  image.totalCompleted == w.images[i].totalCompleted
             else image.average == None && image.totalCompleted == 0
    ensures Inv(w.(images := w.images[i := image]))
  {
    var v := w.(images := w.images[i := image]);
    forall id | id in v.jobs
      ensures JobOk(v, id)
    {
      assert JobOk(w, id);
    }
    if i !in w.images {
      NoCompletions(w.completions, i);
    }
  }

  /** Any enabled step, by any actor, keeps the invariant. */
  lemma StepKeepsInv(w: World, e: Event)
    requires Inv(w) && Enabled(w, e)
    ensures Inv(Apply(w, e))
  {
    TickKeeps(w, e.at);
    var v := w.(clock := e.at);
    match e.step
    case AddImage(i, timeout, retries, estimate) =>
      ImageStepsKeep(v, i, Image(timeout, retries, estimate, None, 0, true));
    case EditImage(i, timeout, estimate, active) =>
      ImageStepsKeep(v, i, v.images[i].(timeoutSeconds := timeout, defaultEstimate := estimate, active := active));
    case Submit(i, url) => SubmitKeeps(v, i, url);
    case FinishUpload(id, path) => FinishUploadKeeps(v, id, path);
    case AbortSubmission(id) => DeleteKeeps(v, {id}, v.uploading - {id});
    case Cancel(id) => CancelKeeps(v, id);
    case Claim(id, worker, _) => ClaimKeeps(v, id, worker);
    case RecordPod(id, pod) => RecordPodKeeps(v, id, pod);
    case MarkCompleted(id, report, runtime) => CompletedKeeps(v, id, report, runtime);
    case MarkFailed(id, message) => FailedKeeps(v, id, message);
    case Purge(cutoff) => DeleteKeeps(v, Expired(v.jobs, cutoff), v.uploading);
    case EndRun(id) =>
    case Look =>
  }

  /** The invariant holds after every run, whatever the interleaving of the actors. */
  lemma {:induction false} RunKeepsInv(w: World, run: seq<Event>)
    requires Inv(w) && Legal(w, run)
    ensures Inv(Exec(w, run))
    decreases |run|
  {
    if run != [] {
      StepKeepsInv(w, run[0]);
      RunKeepsInv(Apply(w, run[0]), run[1..]);
    }
  }
}
