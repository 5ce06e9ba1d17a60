/**
 * The rows of the tables `jobs`, `job_results` and `image_configs`, and what each
 * service call writes to one row.
 */
module JobTables {
  import opened Basics

  type JobId = nat
  type ImageId = nat

  /** A runtime estimate: submission refuses anything else (see Lifecycle.Admission). */
  type Estimate = r: real | r > 0.0 witness 1.0

  // `Queued` is allowed by the table's check constraint.
  datatype Status = Pending | Queued | Processing | Completed | Failed | Cancelled

  /** `source_path`: a placeholder until the uploaded files have been stored. */
  datatype Source = PendingUpload | Stored(path: string)

  datatype Job = Job(
    imageId: ImageId,
    status: Status,
    source: Source,
    callbackUrl: Option<string>,
    submittedAt: real,
    startedAt: Option<real>,
    completedAt: Option<real>,
    estimatedRuntime: Estimate,
    actualRuntime: Option<real>,
    scoreAtDequeue: Option<real>,
    worker: Option<string>,
    retryCount: nat,
    errorMessage: Option<string>)

  datatype Report = Report(
    correctness: Option<real>,
    containerLogs: Option<seq<int>>, // its code points
    payloadPath: Option<string>)

  const NO_REPORT := Report(None, None, None)

  datatype Image = Image(
    timeoutSeconds: nat,
    maxRetries: nat,
    defaultEstimate: real,
    average: Option<real>,
    totalCompleted: nat,
    active: bool)

  /** How a call of `markCompleted` ends: it throws before or after its transaction commits, or it returns. */
  datatype Commitment = ThrewBefore | ThrewAfter | Returned

  /** One committed completion, kept as history. */
  datatype Completion = Completion(jobId: JobId, imageId: ImageId, runtime: real)

  /** The response ratio (W + S) / S of a job at time `at`. */
  function Score(job: Job, at: real): real {
    (at - job.submittedAt + job.estimatedRuntime) / job.estimatedRuntime
  }

  /** The score shown by the status endpoint: a clamped age and a fallback runtime. */
  function DisplayScore(job: Job, at: real): real {
    var age := if at - job.submittedAt < 0.0 then 0.0 else at - job.submittedAt;
    (age + job.estimatedRuntime) / job.estimatedRuntime
  }

  ghost predicate IsPending(jobs: map<JobId, Job>, id: JobId) {
    id in jobs && jobs[id].status == Pending
  }

  function PendingJobs(jobs: map<JobId, Job>): set<JobId> {
    set k | k in jobs && jobs[k].status == Pending
  }

  /** `id` heads the pending rows when they are ordered by descending score. */
  ghost predicate IsTop(jobs: map<JobId, Job>, at: real, id: JobId) {
    && IsPending(jobs, id)
    && forall k :: IsPending(jobs, k) ==> Score(jobs[k], at) <= Score(jobs[id], at)
  }

  function NewRow(imageId: ImageId, estimate: Estimate, callbackUrl: Option<string>, now: real): Job {
    Job(imageId, Pending, PendingUpload, callbackUrl, now, None, None, estimate, None, None, None, 0, None)
  }

  function ClaimedRow(job: Job, worker: string, now: real): Job {
    job.(status := Processing, startedAt := Some(now), worker := Some(worker), scoreAtDequeue := Some(Score(job, now)))
  }

  function CompletedRow(job: Job, runtime: real, now: real): Job {
    job.(status := Completed, completedAt := Some(now), actualRuntime := Some(runtime))
  }

  /** What `markFailed` does to a row that is not completed. */
  function FailedRow(job: Job, maxRetries: nat, message: string, now: real): Job {
    if job.retryCount < maxRetries
    then job.(retryCount := job.retryCount + 1, status := Pending, worker := None, startedAt := None)
    else job.(status := Failed, errorMessage := Some(message), completedAt := Some(now))
  }

  /** The rolling update of a mean of `n` values by one more value. */
  function Blend(average: real, n: nat, runtime: real): real {
    (average * n as real + runtime) / (n + 1) as real
  }

  /** The SQL update of an image's rolling average; a NULL average stays NULL. */
  function RecordRuntime(image: Image, runtime: real): Image {
    var n := image.totalCompleted;
    var average :=
      if n == 0 then Some(runtime)
      else match image.average
        case None => None
        case Some(a) => Some(Blend(a, n, runtime));
    image.(average := average, totalCompleted := n + 1)
  }
}
