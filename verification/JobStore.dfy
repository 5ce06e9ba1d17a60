/**
 * The service calls that read and write the job tables, as methods that update the tables in
 * place. Each is proved to be the step of the state machine it stands for.
 */
module JobStore {
  import opened Basics
  import opened JobTables
  import opened Lifecycle
  import opened SubmittedFiles
  import opened QueuePosition

  const GRACE_PERIOD_SECONDS := 30
  const DEFAULT_TIMEOUT_SECONDS := 30

  /** The age at which a processing row counts as stuck. */
  function StuckAfter(images: map<ImageId, Image>, job: Job): real {
    var timeout := if job.imageId in images then images[job.imageId].timeoutSeconds else DEFAULT_TIMEOUT_SECONDS;
    (timeout + GRACE_PERIOD_SECONDS) as real
  }

  predicate Stuck(images: map<ImageId, Image>, job: Job, at: real) {
    job.status == Processing && job.startedAt.Some? && at - job.startedAt.value > StuckAfter(images, job)
  }

  /**
   * What a sweep that starts at `from` and ends at `to` does: every row already stuck at `from`
   * fails, only rows stuck by `to` can fail, and nothing else changes.
   */
  ghost predicate Swept(w: World, v: World, from: real, to: real) {
    && v == w.(clock := to, jobs := v.jobs)
    && v.jobs.Keys == w.jobs.Keys
    && forall id :: id in w.jobs ==> RowSwept(w.images, w.jobs[id], v.jobs[id], from, to)
  }

  ghost predicate RowSwept(images: map<ImageId, Image>, a: Job, b: Job, from: real, to: real) {
    || (a == b && !Stuck(images, a, from))
    || (Stuck(images, a, to) &&
        exists t, message :: from <= t <= to && b == FailedRow(a, MaxRetries(images, a), message, t))
  }

  /** A sweep touches a row iff it has been processing for longer than the timeout and 30 seconds. */
  lemma SweptRow(images: map<ImageId, Image>, a: Job, b: Job, from: real, to: real)
    requires RowSwept(images, a, b, from, to) && a.imageId in images
    ensures b != a ==>
              && a.status == Processing && a.startedAt.Some? && b.status in {Pending, Failed}
              && to - a.startedAt.value > (images[a.imageId].timeoutSeconds + 30) as real
    ensures a.status == Processing && a.startedAt.Some? ==>
              from - a.startedAt.value > (images[a.imageId].timeoutSeconds + 30) as real ==> b != a
  {
  }

  /** The rows that differ between two states of a table. */
  function Changed(a: map<JobId, Job>, b: map<JobId, Job>): set<JobId> {
    set id | id in a && id in b && a[id] != b[id]
  }

  lemma ExaminedRow(images: map<ImageId, Image>, job: Job, from: real, at: real)
    requires from <= at
    ensures Stuck(images, job, at) ==>
              RowSwept(images, job, FailedRow(job, MaxRetries(images, job), "Job timed out", at), from, at)
    ensures !Stuck(images, job, at) ==> RowSwept(images, job, job, from, at)
  {
  }

  lemma OneMoreSwept(w: World, before: map<JobId, Job>, after: map<JobId, Job>, todo: set<JobId>, id: JobId, at: real,
      later: real)
    requires w.clock <= at <= later && before.Keys == after.Keys == w.jobs.Keys && id in w.jobs &&
               before[id] == w.jobs[id]
    requires forall k :: k in w.jobs && k !in todo ==> RowSwept(w.images, w.jobs[k], before[k], w.clock, at)
    requires after == if Stuck(w.images, w.jobs[id], later)
                      then before[id := FailedRow(w.jobs[id], MaxRetries(w.images, w.jobs[id]), "Job timed out", later)]
                      else before
    ensures forall k :: k in w.jobs && k !in todo - {id} ==> RowSwept(w.images, w.jobs[k], after[k], w.clock, later)
    ensures |Changed(w.jobs, after)| == |Changed(w.jobs, before)| + if Stuck(w.images, w.jobs[id], later) then 1 else 0
  {
    forall k | k in w.jobs && k !in todo - {id}
      ensures RowSwept(w.images, w.jobs[k], after[k], w.clock, later)
    {
      if k != id {
        assert RowSwept(w.images, w.jobs[k], before[k], w.clock, at);
      } else {
        ExaminedRow(w.images, w.jobs[id], w.clock, later);
      }
    }
    ChangesGrow(w.jobs, before, after, id, Stuck(w.images, w.jobs[id], later));
  }

  lemma ChangesGrow(start: map<JobId, Job>, before: map<JobId, Job>, after: map<JobId, Job>, id: JobId, failed: bool)
    requires id in start && id in before && before[id] == start[id] && before.Keys == after.Keys
    requires forall k :: k in before && k != id ==> after[k] == before[k]
    requires failed <==> after[id] != start[id]
    ensures |Changed(start, after)| == |Changed(start, before)| + if failed then 1 else 0
  {
    assert Changed(start, after) == Changed(start, before) + if failed then {id} else {};
  }

  lemma RemovedIff(before: map<JobId, Job>, after: map<JobId, Job>, cutoff: real)
    requires after == before - Expired(before, cutoff)
    ensures before.Keys - after.Keys == Expired(before, cutoff)
    ensures forall id :: id in after ==> id in before && after[id] == before[id]
    ensures forall id :: id in before ==>
              (id !in after <==>
                 && before[id].status in {Completed, Failed, Cancelled}
                 && before[id].completedAt.Some? && before[id].completedAt.value < cutoff)
  {
  }

  datatype CancelReply = CancelNotFound | CancelConflict | CancelDone

  class JobStore {
    var jobs: map<JobId, Job>
    var results: map<JobId, Report>
    var images: map<ImageId, Image>
    var nextId: JobId
    var submissionDirs: set<JobId>
    var payloadDirs: set<JobId>
    var clock: real // when the last call was made
    ghost var uploading: set<JobId>
    ghost var claims: map<JobId, nat>
    ghost var completions: seq<Completion>
    ghost var history: seq<Event> // every step taken so far

    ghost function Tables(): World
      reads this
    {
      World(clock, jobs, results, images, nextId, uploading, claims, completions)
    }

    /** The tables are what the steps taken so far make of an empty database, and so are the stored submissions. */
    ghost predicate Valid()
      reads this
    {
      Legal(EMPTY, history) && Exec(EMPTY, history) == Tables() && submissionDirs == Dirs(EMPTY, history, {})
    }

    /** The history has grown by one enabled step. */
    twostate predicate Took(e: Event)
      reads this
    {
      && Enabled(old(Tables()), e)
      && Tables() == Apply(old(Tables()), e)
      && history == old(history) + [e]
      && submissionDirs == DirsAfter(old(Tables()), e, old(submissionDirs))
    }

    lemma Advance(e: Event)
      requires Valid() && Enabled(Tables(), e)
      ensures Legal(EMPTY, history + [e]) && Exec(EMPTY, history + [e]) == Apply(Tables(), e)
      ensures Dirs(EMPTY, history + [e], {}) == DirsAfter(Tables(), e, submissionDirs)
    {
      ExecAppend(EMPTY, history, e);
      DirsAppend(EMPTY, history, e, {});
    }

    constructor ()
      ensures Valid() && Tables() == EMPTY && history == []
      ensures submissionDirs == payloadDirs == {}
    {
      jobs, results, images, nextId := map[], map[], map[], 0;
      submissionDirs, payloadDirs := {}, {};
      clock, uploading, claims, completions, history := 0.0, {}, map[], [], [];
    }

    /** Everything proved of reachable states holds of the tables. */
    lemma InvHolds()
      requires Valid()
      ensures Inv(Tables())
    {
      InvInitially();
      RunKeepsInv(EMPTY, history);
    }

    /** Exactly which jobs have their files, and that those waiting for their first run do. */
    lemma FilesHold()
      requires Valid()
      ensures forall id :: id in jobs ==> (id in submissionDirs <==> UploadsAndKeeps(EMPTY, history, id))
      ensures FilesThere(Tables(), submissionDirs)
    {
      forall id | id in jobs
        ensures id in submissionDirs <==> UploadsAndKeeps(EMPTY, history, id)
      {
        FilesThereIff(history, id);
      }
      InvInitially();
      RunKeepsFiles(EMPTY, history, {});
    }

    lemma NextIdIsFree()
      requires Valid()
      ensures nextId !in jobs
    {
      InvHolds();
      assert nextId in jobs ==> JobOk(Tables(), nextId);
    }

    lemma ImageIsThere(id: JobId)
      requires Valid() && id in jobs
      ensures jobs[id].imageId in images
    {
      InvHolds();
      assert JobOk(Tables(), id);
    }

    lemma ImagesAreThere()
      requires Valid()
      ensures forall id :: id in jobs ==> jobs[id].imageId in images
    {
      forall id | id in jobs
        ensures jobs[id].imageId in images
      {
        ImageIsThere(id);
      }
    }

    /** At the level of whole calls the UNIQUE constraint never fires. */
    lemma NoResultYet(id: JobId)
      requires Valid() && id in jobs && jobs[id].status == Processing
      ensures id !in results && jobs[id].imageId in images
    {
      InvHolds();
      assert JobOk(Tables(), id);
    }

    /** A call that changes nothing. */
    method Pass(now: real)
      requires Valid() && clock <= now
      modifies `clock, `history
      ensures Valid() && Took(Event(now, Look))
    {
      Advance(Event(now, Look));
      history := history + [Event(now, Look)];
      clock := now;
    }

    /** Refused if the image is there already. */
    method AddImage(i: ImageId, timeoutSeconds: nat, maxRetries: nat, defaultEstimate: real, now: real)
      returns (added: bool)
      requires Valid() && clock <= now
      modifies `images, `clock, `history
      ensures Valid() && added == (i !in old(images))
      ensures added ==> images == old(images)[i := Image(timeoutSeconds, maxRetries, defaultEstimate, None, 0, true)]
      ensures !added ==> images == old(images)
      ensures Took(Event(now, if added then Step.AddImage(i, timeoutSeconds, maxRetries, defaultEstimate) else Look))
    {
      if i in images {
        Pass(now);
        return false;
      }
      Advance(Event(now, Step.AddImage(i, timeoutSeconds, maxRetries, defaultEstimate)));
      history := history + [Event(now, Step.AddImage(i, timeoutSeconds, maxRetries, defaultEstimate))];
      clock := now;
      images := images[i := Image(timeoutSeconds, maxRetries, defaultEstimate, None, 0, true)];
      return true;
    }

    /** Changes what is given of the image's settings; deactivating it is one use. Its statistics stay. */
    method EditImage(i: ImageId, timeoutSeconds: Option<nat>, defaultEstimate: Option<real>, active: Option<bool>,
        now: real)
      requires Valid() && clock <= now && i in images
      modifies `images, `clock, `history
      ensures Valid()
      ensures images.Keys == old(images).Keys && forall k :: k in images && k != i ==> images[k] == old(images)[k]
      ensures images[i].timeoutSeconds == timeoutSeconds.GetOr(old(images)[i].timeoutSeconds)
      ensures images[i].defaultEstimate == defaultEstimate.GetOr(old(images)[i].defaultEstimate)
      ensures images[i].active == active.GetOr(old(images)[i].active)
      ensures images[i].maxRetries == old(images)[i].maxRetries && images[i].average == old(images)[i].average
      ensures images[i].totalCompleted == old(images)[i].totalCompleted
      ensures Took(Event(now, Step.EditImage(i, timeoutSeconds.GetOr(old(images)[i].timeoutSeconds),
                                             defaultEstimate.GetOr(old(images)[i].defaultEstimate),
                                             active.GetOr(old(images)[i].active))))
    {
      var image := images[i];
      if timeoutSeconds.Some? {
        image := image.(timeoutSeconds := timeoutSeconds.value);
      }
      if defaultEstimate.Some? {
        image := image.(defaultEstimate := defaultEstimate.value);
      }
      if active.Some? {
        image := image.(active := active.value);
      }
      ghost var e := Event(now, Step.EditImage(i, image.timeoutSeconds, image.defaultEstimate, image.active));
      Advance(e);
      history := history + [e];
      clock := now;
      images := images[i := image];
    }

    /** First half of a submission: the checks and the inserted row. */
    method CreateJob(imageId: ImageId, callbackUrl: Option<string>, now: real) returns (r: Result<JobId, SubmitError>)
      requires Valid() && clock <= now
      modifies `jobs, `nextId, `clock, `uploading, `claims, `history
      ensures Valid() && Took(Event(now, Submit(imageId, callbackUrl)))
      ensures r == Err(ImageNotFound) <==> imageId !in images
      ensures r == Err(ImageInactive) <==> imageId in images && !images[imageId].active
      ensures r == Err(InvalidRuntime) <==>
                && imageId in images && images[imageId].active
                && (if images[imageId].average.Some? then images[imageId].average.value
                    else images[imageId].defaultEstimate) <= 0.0
      ensures r.Err? ==> jobs == old(jobs) && nextId == old(nextId) && uploading == old(uploading)
      ensures r.Ok? ==>
                && r.value == old(nextId) && nextId == r.value + 1 && r.value !in old(jobs)
                && uploading == old(uploading) + {r.value} && claims == old(claims)[r.value := 0]
                && jobs.Keys == old(jobs).Keys + {r.value}
                && forall k :: k in old(jobs) ==> jobs[k] == old(jobs)[k]
      ensures r.Ok? ==>
                var job, image := jobs[r.value], images[imageId];
                && job.imageId == imageId && job.status == Pending && job.source == PendingUpload
                && job.callbackUrl == callbackUrl && job.submittedAt == now && job.retryCount == 0
                && job.estimatedRuntime == (if image.average.Some? then image.average.value else image.defaultEstimate)
                && job.startedAt == job.completedAt == job.actualRuntime == job.scoreAtDequeue == None
                && job.worker == None && job.errorMessage == None
    {
      NextIdIsFree();
      Advance(Event(now, Submit(imageId, callbackUrl)));
      history := history + [Event(now, Submit(imageId, callbackUrl))];
      clock := now;
      if imageId !in images {
        return Err(ImageNotFound);
      }
      var image := images[imageId];
      if !image.active {
        return Err(ImageInactive);
      }
      var estimate := image.average.GetOr(image.defaultEstimate);
      if estimate <= 0.0 {
        return Err(InvalidRuntime);
      }
      var id := nextId;
      nextId := nextId + 1;
      jobs := jobs[id := NewRow(imageId, estimate, callbackUrl, now)];
      claims, uploading := claims[id := 0], uploading + {id};
      return Ok(id);
    }

    /**
     * Then: `upload` is the path under which the files were stored, or None if storing or saving it
     * failed, in which case the row and the files are removed again.
     */
    method StoreFiles(id: JobId, upload: Option<string>, now: real)
      requires Valid() && clock <= now && id in uploading
      modifies `jobs, `results, `submissionDirs, `clock, `uploading, `history
      ensures Valid() && id !in uploading
      ensures upload.Some? ==> Took(Event(now, FinishUpload(id, upload.value))) && id in submissionDirs
      ensures upload.None? ==> Took(Event(now, AbortSubmission(id))) && id !in jobs && id !in submissionDirs
      ensures upload.None? ==> jobs == old(jobs) - {id} && results == old(results) - {id}
      ensures upload.Some? && id in old(jobs) ==>
                jobs == old(jobs)[id := old(jobs)[id].(source := Stored(upload.value))] && results == old(results)
    {
      assert id < nextId by {
        InvHolds();
      }
      if upload.Some? {
        RecordSource(id, upload.value, now);
      } else {
        DropSubmission(id, now);
      }
    }

    /**
     * And the reply, other calls having been made in between: the position, or, if the query for it
     * fails, the removal of row and files.
     */
    method ReplyToSubmission(id: JobId, works: bool, now: real) returns (position: Option<nat>)
      requires Valid() && clock <= now && id < nextId
      modifies `jobs, `results, `submissionDirs, `clock, `uploading, `history
      ensures Valid()
      ensures works ==> Took(Event(now, Look)) && jobs == old(jobs)
      ensures works ==> position == Some(1 + if id in jobs then |Ahead(jobs, now, id)| else 0)
      ensures !works ==> Took(Event(now, AbortSubmission(id))) && position == None
      ensures !works ==> jobs == old(jobs) - {id} && results == old(results) - {id} && id !in submissionDirs
    {
      if !works {
        DropSubmission(id, now);
        return None;
      }
      Pass(now);
      var ahead := CountJobsAhead(jobs, now, id);
      return Some(ahead + 1);
    }

    method RecordSource(id: JobId, path: string, now: real)
      requires Valid() && clock <= now && id in uploading
      modifies `jobs, `submissionDirs, `clock, `uploading, `history
      ensures Valid() && Took(Event(now, FinishUpload(id, path))) && id in submissionDirs
      ensures jobs == if id in old(jobs) then old(jobs)[id := old(jobs)[id].(source := Stored(path))] else old(jobs)
    {
      Advance(Event(now, FinishUpload(id, path)));
      history := history + [Event(now, FinishUpload(id, path))];
      clock := now;
      uploading := uploading - {id};
      submissionDirs := submissionDirs + {id};
      if id in jobs {
        var job := jobs[id];
        job := job.(source := Stored(path));
        jobs := jobs[id := job];
      }
    }

    method DropSubmission(id: JobId, now: real)
      requires Valid() && clock <= now && id < nextId
      modifies `jobs, `results, `submissionDirs, `clock, `uploading, `history
      ensures Valid() && Took(Event(now, AbortSubmission(id)))
      ensures jobs == old(jobs) - {id} && results == old(results) - {id} && id !in submissionDirs
    {
      Advance(Event(now, AbortSubmission(id)));
      history := history + [Event(now, AbortSubmission(id))];
      clock := now;
      uploading := uploading - {id};
      submissionDirs := submissionDirs - {id};
      jobs, results := jobs - {id}, results - {id};
    }

    method CancelJob(id: JobId, now: real) returns (reply: CancelReply)
      requires Valid() && clock <= now
      modifies `jobs, `submissionDirs, `clock, `history
      ensures Valid() && Took(Event(now, Cancel(id)))
      ensures reply == if id !in old(jobs) then CancelNotFound
                       else if old(jobs)[id].status != Pending then CancelConflict else CancelDone
      ensures submissionDirs == if reply == CancelDone then old(submissionDirs) - {id} else old(submissionDirs)
      ensures jobs == if reply == CancelDone then old(jobs)[id := old(jobs)[id].(status := Cancelled)] else old(jobs)
    {
      Advance(Event(now, Cancel(id)));
      history := history + [Event(now, Cancel(id))];
      clock := now;
      if id !in jobs {
        return CancelNotFound;
      }
      if jobs[id].status != Pending {
        return CancelConflict;
      }
      var job := jobs[id];
      job := job.(status := Cancelled);
      jobs := jobs[id := job];
      submissionDirs := submissionDirs - {id};
      return CancelDone;
    }

    /** Claims the pending row with the highest score among those no other transaction has locked. */
    method DequeueNext(worker: string, locked: set<JobId>, now: real) returns (picked: Option<JobId>)
      requires Valid() && clock <= now
      modifies `jobs, `clock, `claims, `history
      ensures Valid()
      ensures picked.None? ==> Took(Event(now, Look)) && jobs == old(jobs)
      ensures picked.None? ==> forall k :: k in jobs && jobs[k].status == Pending ==> k in locked
      ensures picked.Some? ==> Took(Event(now, Claim(picked.value, worker, locked))) && picked.value in old(jobs)
      ensures picked.Some? ==>
                var job := old(jobs)[picked.value];
                var score := (now - job.submittedAt + job.estimatedRuntime) / job.estimatedRuntime;
                && job.status == Pending && picked.value !in locked
                && jobs == old(jobs)[picked.value := job.(status := Processing, startedAt := Some(now),
                                                          worker := Some(worker), scoreAtDequeue := Some(score))]
                && forall k :: k in old(jobs) && old(jobs)[k].status == Pending && k !in locked ==>
                     Score(old(jobs)[k], now) <= score
    {
      picked := PickTop(jobs - locked, now);
      match picked
      case None =>
        forall k | k in jobs && jobs[k].status == Pending
          ensures k in locked
        {
          assert !IsPending(jobs - locked, k);
        }
        Pass(now);
      case Some(id) =>
        forall k | k in jobs && jobs[k].status == Pending && k !in locked
          ensures Score(jobs[k], now) <= Score(jobs[id], now)
        {
          assert IsPending(jobs - locked, k);
        }
        ClaimRow(id, worker, locked, now);
    }

    method ClaimRow(id: JobId, worker: string, locked: set<JobId>, now: real)
      requires Valid() && clock <= now && IsTop(jobs - locked, now, id)
      modifies `jobs, `clock, `claims, `history
      ensures Valid() && Took(Event(now, Claim(id, worker, locked)))
      ensures jobs == old(jobs)[id := old(jobs)[id].(status := Processing, startedAt := Some(now),
                                                     worker := Some(worker),
                                                     scoreAtDequeue := Some(Score(old(jobs)[id], now)))]
    {
      Advance(Event(now, Claim(id, worker, locked)));
      history := history + [Event(now, Claim(id, worker, locked))];
      clock := now;
      claims := claims[id := 1 + if id in claims then claims[id] else 0];
      var job := jobs[id];
      job := job.(status := Processing, startedAt := Some(now), worker := Some(worker),
          scoreAtDequeue := Some(Score(job, now)));
      jobs := jobs[id := job];
    }

    method RecordPod(id: JobId, pod: string, now: real)
      requires Valid() && clock <= now
      modifies `jobs, `clock, `history
      ensures Valid() && Took(Event(now, Step.RecordPod(id, pod)))
      ensures jobs == if id in old(jobs) then old(jobs)[id := old(jobs)[id].(worker := Some(pod))] else old(jobs)
    {
      Advance(Event(now, Step.RecordPod(id, pod)));
      history := history + [Event(now, Step.RecordPod(id, pod))];
      clock := now;
      if id in jobs {
        var job := jobs[id];
        job := job.(worker := Some(pod));
        jobs := jobs[id := job];
      }
    }

    /** Returns whether the job was completed, and whether a callback is to be delivered at once. */
    method MarkCompleted(id: JobId, report: Report, runtime: real, now: real) returns (done: bool, deliver: bool)
      requires Valid() && clock <= now
      modifies `jobs, `results, `images, `clock, `completions, `history
      ensures Valid() && Took(Event(now, Step.MarkCompleted(id, report, runtime)))
      ensures done <==> id in old(jobs) && old(jobs)[id].status == Processing
      ensures deliver <==> done && old(jobs)[id].callbackUrl.Some?
      ensures results == if done then old(results)[id := report] else old(results)
      ensures !done ==> jobs == old(jobs) && images == old(images)
      ensures done ==> jobs == old(jobs)[id := old(jobs)[id].(status := Completed, completedAt := Some(now),
                                                             actualRuntime := Some(runtime))]
      ensures done ==> old(jobs)[id].imageId in images &&
                       images == old(images)[old(jobs)[id].imageId := images[old(jobs)[id].imageId]]
    {
      if id !in jobs || jobs[id].status != Processing {
        Advance(Event(now, Step.MarkCompleted(id, report, runtime)));
        history := history + [Event(now, Step.MarkCompleted(id, report, runtime))];
        clock := now;
        return false, false;
      }
      var url := jobs[id].callbackUrl;
      CommitCompletion(id, report, runtime, now);
      return true, url.Some?;
    }

    /** The transaction. */
    method CommitCompletion(id: JobId, report: Report, runtime: real, now: real)
      requires Valid() && clock <= now && id in jobs && jobs[id].status == Processing
      modifies `jobs, `results, `images, `clock, `completions, `history
      ensures Valid() && Took(Event(now, Step.MarkCompleted(id, report, runtime)))
      ensures results == old(results)[id := report]
      ensures jobs == old(jobs)[id := old(jobs)[id].(status := Completed, completedAt := Some(now),
                                                     actualRuntime := Some(runtime))]
      ensures old(jobs)[id].imageId in images &&
              images == old(images)[old(jobs)[id].imageId := images[old(jobs)[id].imageId]]
    {
      NoResultYet(id);
      Advance(Event(now, Step.MarkCompleted(id, report, runtime)));
      history := history + [Event(now, Step.MarkCompleted(id, report, runtime))];
      clock := now;
      var job := jobs[id];
      job := job.(status := Completed, completedAt := Some(now), actualRuntime := Some(runtime));
      jobs := jobs[id := job];
      results := results[id := report];
      UpdateAverage(job.imageId, runtime);
      completions := completions + [Completion(id, job.imageId, runtime)];
    }

    /** The SQL update of the rolling average. */
    method UpdateAverage(i: ImageId, runtime: real)
      requires i in images
      modifies `images
      ensures images == old(images)[i := RecordRuntime(old(images)[i], runtime)]
    {
      var image := images[i];
      var n := image.totalCompleted;
      if n == 0 {
        image := image.(average := Some(runtime));
      } else if image.average.Some? {
        image := image.(average := Some(Blend(image.average.value, n, runtime)));
      }
      images := images[i := image.(totalCompleted := n + 1)];
    }

    method MarkFailed(id: JobId, message: string, now: real) returns (row: Option<Job>)
      requires Valid() && clock <= now
      modifies `jobs, `clock, `history
      ensures Valid() && Took(Event(now, Step.MarkFailed(id, message)))
      ensures row.Some? <==> id in old(jobs) && old(jobs)[id].status != Completed
      ensures row.None? ==> jobs == old(jobs)
      ensures row.Some? ==> jobs == old(jobs)[id := row.value]
      ensures row.Some? ==>
                var job := old(jobs)[id];
                && job.imageId in images
                && row.value ==
                     if job.retryCount < images[job.imageId].maxRetries
                     then job.(retryCount := job.retryCount + 1, status := Pending, worker := None, startedAt := None)
                     else job.(status := Failed, errorMessage := Some(message), completedAt := Some(now))
    {
      if id in jobs {
        ImageIsThere(id);
      }
      Advance(Event(now, Step.MarkFailed(id, message)));
      history := history + [Event(now, Step.MarkFailed(id, message))];
      clock := now;
      if id !in jobs || jobs[id].status == Completed {
        return None;
      }
      var job := jobs[id];
      var maxRetries := if job.imageId in images then images[job.imageId].maxRetries else 0;
      if job.retryCount < maxRetries {
        job := job.(retryCount := job.retryCount + 1, status := Pending, worker := None, startedAt := None);
      } else {
        job := job.(status := Failed, errorMessage := Some(message), completedAt := Some(now));
      }
      jobs := jobs[id := job];
      return Some(job);
    }

    // ---- The end of a run ---------------------------------------------------------

    /** Only a run of a claimed job calls this. */
    method CleanupSubmission(id: JobId, now: real)
      requires Valid() && clock <= now && id in claims && claims[id] > 0
      modifies `submissionDirs, `clock, `history
      ensures Valid() && Took(Event(now, EndRun(id)))
    {
      Advance(Event(now, EndRun(id)));
      history := history + [Event(now, EndRun(id))];
      clock := now;
      submissionDirs := submissionDirs - {id};
    }

    /**
     * A run that ends well: the payload is moved away if there is one, the completion is recorded, and
     * the submission is cleaned up. A payload stays even if the job was not processing any more. If the
     * completion throws, the payload is removed and a failure is reported; but when it throws after its
     * commit, as the start of a callback may, the job is completed all the same, with a result that
     * names a payload that is gone.
     */
    method CompleteRun(id: JobId, report: Report, runtime: real, end: Commitment, now: real)
      returns (done: bool, threw: bool)
      requires Valid() && clock <= now && id in claims && claims[id] > 0
      modifies `jobs, `results, `images, `clock, `completions, `history, `submissionDirs, `payloadDirs
      ensures Valid() && submissionDirs == old(submissionDirs) - {id}
      ensures done <==> !end.ThrewBefore? && id in old(jobs) && old(jobs)[id].status == Processing
      ensures threw <==> end.ThrewBefore? || (end.ThrewAfter? && done && old(jobs)[id].callbackUrl.Some?)
      ensures done ==> results == old(results)[id := report]
      ensures done ==> jobs == old(jobs)[id := old(jobs)[id].(status := Completed, completedAt := Some(now),
                                                             actualRuntime := Some(runtime))]
      ensures !done ==> results == old(results) && images == old(images)
      ensures !done && !threw ==> jobs == old(jobs)
      ensures payloadDirs == if report.payloadPath.None? then old(payloadDirs)
                             else if threw then old(payloadDirs) - {id} else old(payloadDirs) + {id}
      ensures end.ThrewBefore? && id in old(jobs) && old(jobs)[id].status != Completed ==>
                && id in jobs && old(jobs)[id].imageId in images
                && jobs[id].status ==
                     if old(jobs)[id].retryCount < images[old(jobs)[id].imageId].maxRetries then Pending else Failed
    {
      done, threw := TryToComplete(id, report, runtime, end, now);
      if threw {
        ReportError(id, now);
      }
      CleanupSubmission(id, now);
    }

    /** The failure reported when a run throws; it does not reach a job that is completed by then. */
    method ReportError(id: JobId, now: real)
      requires Valid() && clock <= now
      modifies `jobs, `clock, `history
      ensures Valid() && clock == now
      ensures id in old(jobs) && old(jobs)[id].status == Completed ==> jobs == old(jobs)
      ensures id in old(jobs) && old(jobs)[id].status != Completed ==>
                && id in jobs && old(jobs)[id].imageId in images
                && jobs[id].status ==
                     if old(jobs)[id].retryCount < images[old(jobs)[id].imageId].maxRetries then Pending else Failed
    {
      var row := MarkFailed(id, "Dispatcher error", now);
    }

    /** The payload's way out, the completion, and the payload's removal if the completion throws. */
    method TryToComplete(id: JobId, report: Report, runtime: real, end: Commitment, now: real)
      returns (done: bool, threw: bool)
      requires Valid() && clock <= now
      modifies `jobs, `results, `images, `clock, `completions, `history, `payloadDirs
      ensures Valid() && clock <= now
      ensures done <==> !end.ThrewBefore? && id in old(jobs) && old(jobs)[id].status == Processing
      ensures threw <==> end.ThrewBefore? || (end.ThrewAfter? && done && old(jobs)[id].callbackUrl.Some?)
      ensures done ==> results == old(results)[id := report]
      ensures done ==> jobs == old(jobs)[id := old(jobs)[id].(status := Completed, completedAt := Some(now),
                                                             actualRuntime := Some(runtime))]
      ensures !done ==> results == old(results) && jobs == old(jobs) && images == old(images)
      ensures payloadDirs == if report.payloadPath.None? then old(payloadDirs)
                             else if threw then old(payloadDirs) - {id} else old(payloadDirs) + {id}
    {
      if report.payloadPath.Some? {
        payloadDirs := payloadDirs + {id};
      }
      done, threw := false, true;
      if !end.ThrewBefore? {
        var deliver;
        done, deliver := MarkCompleted(id, report, runtime, now);
        threw := end.ThrewAfter? && deliver;
      }
      if threw && report.payloadPath.Some? {
        payloadDirs := payloadDirs - {id};
      }
    }

    /**
     * A run that ends with a failure. If that queues the job again, the job is pending with its
     * source path recorded, but the files under that path are gone.
     */
    method FailRun(id: JobId, message: string, now: real)
      requires Valid() && clock <= now && id in claims && claims[id] > 0
      modifies `jobs, `clock, `history, `submissionDirs
      ensures Valid() && submissionDirs == old(submissionDirs) - {id}
      ensures history == old(history) + [Event(now, Step.MarkFailed(id, message))] + [Event(now, EndRun(id))]
      ensures id in old(jobs) && old(jobs)[id].status != Completed ==> old(jobs)[id].imageId in images
      ensures id in old(jobs) && old(jobs)[id].status != Completed ==>
                if old(jobs)[id].retryCount < images[old(jobs)[id].imageId].maxRetries
                then jobs == old(jobs)[id := old(jobs)[id].(retryCount := old(jobs)[id].retryCount + 1,
                                                            status := Pending, worker := None, startedAt := None)]
                else jobs == old(jobs)[id := old(jobs)[id].(status := Failed, errorMessage := Some(message),
                                                            completedAt := Some(now))]
      ensures id in old(jobs) && old(jobs)[id].status == Completed ==> jobs == old(jobs)
    {
      var row := MarkFailed(id, message, now);
      CleanupSubmission(id, now);
    }

    /** The retention sweep: rows go first, by cascade with their results, then their directories. */
    method CleanupOldJobs(cutoff: real, now: real) returns (deleted: nat)
      requires Valid() && clock <= now
      modifies `jobs, `results, `submissionDirs, `payloadDirs, `clock, `history
      ensures Valid() && Took(Event(now, Purge(cutoff)))
      ensures forall id :: id in jobs ==> id in old(jobs) && jobs[id] == old(jobs)[id]
      ensures forall id :: id in old(jobs) ==>
                (id !in jobs <==>
                   && old(jobs)[id].status in {Completed, Failed, Cancelled}
                   && old(jobs)[id].completedAt.Some? && old(jobs)[id].completedAt.value < cutoff)
      ensures deleted == |old(jobs).Keys - jobs.Keys| && results == old(results) - (old(jobs).Keys - jobs.Keys)
      ensures submissionDirs == old(submissionDirs) - (old(jobs).Keys - jobs.Keys)
      ensures payloadDirs == old(payloadDirs) - (old(jobs).Keys - jobs.Keys)
    {
      Advance(Event(now, Purge(cutoff)));
      history := history + [Event(now, Purge(cutoff))];
      clock := now;
      var ids := SelectExpired(cutoff);
      deleted := |ids|;
      jobs, results := jobs - ids, results - ids;
      RemovedIff(old(jobs), jobs, cutoff);
      RemoveDirectories(ids);
    }

    method SelectExpired(cutoff: real) returns (ids: set<JobId>)
      ensures ids == Expired(jobs, cutoff)
    {
      ids := set id | id in jobs && jobs[id].status in {Completed, Failed, Cancelled} &&
                      jobs[id].completedAt.Some? && jobs[id].completedAt.value < cutoff;
    }

    method RemoveDirectories(ids: set<JobId>)
      modifies this`submissionDirs, this`payloadDirs
      ensures submissionDirs == old(submissionDirs) - ids && payloadDirs == old(payloadDirs) - ids
    {
      var todo := ids;
      while todo != {}
        invariant todo <= ids
        invariant submissionDirs == old(submissionDirs) - (ids - todo)
        invariant payloadDirs == old(payloadDirs) - (ids - todo)
      {
        var id :| id in todo;
        submissionDirs := submissionDirs - {id};
        payloadDirs := payloadDirs - {id};
        todo := todo - {id};
      }
      assert ids - todo == ids;
    }

    /** One iteration of the timeout sweep, at time `at`, on a row listed when the sweep began. */
    method FailIfStuck(id: JobId, listed: Job, at: real) returns (failed: bool)
      requires Valid() && clock <= at
      requires id in jobs && jobs[id] == listed && listed.status == Processing && listed.startedAt.Some?
      modifies `jobs, `clock, `history
      ensures Valid() && old(history) <= history
      ensures failed == Stuck(old(images), listed, at)
      ensures clock == at
      ensures jobs == if failed then old(jobs)[id := FailedRow(listed, MaxRetries(images, listed), "Job timed out", at)]
                      else old(jobs)
    {
      var timeout :=
        if listed.imageId in images then images[listed.imageId].timeoutSeconds else DEFAULT_TIMEOUT_SECONDS;
      var running := at - listed.startedAt.value;
      if running > (timeout + GRACE_PERIOD_SECONDS) as real {
        var _ := MarkFailed(id, "Job timed out", at);
        return true;
      }
      Pass(at);
      return false;
    }

    /**
     * The timeout sweep: it lists the processing rows once, then looks at them one by one while
     * time passes, and fails each that has run longer than its timeout and the grace period.
     */
    method DetectStuckJobs(now: real) returns (stuckCount: nat)
      requires Valid() && clock <= now
      modifies `jobs, `clock, `history
      ensures Valid() && now <= clock && Swept(old(Tables()), Tables(), now, clock)
      ensures stuckCount == |Changed(old(jobs), jobs)|
      ensures old(history) <= history && jobs.Keys == old(jobs).Keys
      ensures forall id :: id in jobs && jobs[id] != old(jobs)[id] ==>
                var job := old(jobs)[id];
                && job.status == Processing && job.startedAt.Some? && job.imageId in images
                && clock - job.startedAt.value > (images[job.imageId].timeoutSeconds + 30) as real
                && jobs[id].status in {Pending, Failed}
      ensures forall id :: id in jobs && old(jobs)[id].status == Processing && old(jobs)[id].startedAt.Some? ==>
                var job := old(jobs)[id];
                && job.imageId in images
                && (now - job.startedAt.value > (images[job.imageId].timeoutSeconds + 30) as real ==> jobs[id] != job)
    {
      ImagesAreThere();
      var listed := ListProcessing(now);
      stuckCount := FailStuck(listed);
      forall id | id in jobs
        ensures RowSwept(images, old(jobs)[id], jobs[id], now, clock) && old(jobs)[id].imageId in images
      {
        SweptRow(images, old(jobs)[id], jobs[id], now, clock);
      }
    }

    /** The rows the sweep will look at, with their start times as they were when it began. */
    method ListProcessing(now: real) returns (listed: map<JobId, Job>)
      requires Valid() && clock <= now
      modifies `clock, `history
      ensures Valid() && Took(Event(now, Look))
      ensures Sweeping(Tables(), listed.Keys)
      ensures forall id :: id in listed ==> listed[id] == jobs[id]
    {
      Pass(now);
      listed := map id | id in jobs && jobs[id].status == Processing && jobs[id].startedAt.Some? :: jobs[id];
    }

    /** Where a sweep that found the tables `w` stands, with the rows in `todo` still to look at. */
    ghost predicate Sweeping(w: World, todo: set<JobId>)
      reads this
    {
      && Valid()
      && w.clock <= clock && Tables() == w.(clock := clock, jobs := jobs) && jobs.Keys == w.jobs.Keys
      && todo <= jobs.Keys
      && (forall id :: id in todo ==>
            jobs[id] == w.jobs[id] && jobs[id].status == Processing && jobs[id].startedAt.Some?)
      && (forall id :: id in w.jobs && id !in todo ==> RowSwept(images, w.jobs[id], jobs[id], w.clock, clock))
    }

    method FailStuck(listed: map<JobId, Job>) returns (stuckCount: nat)
      requires Sweeping(Tables(), listed.Keys)
      requires forall id :: id in listed ==> listed[id] == jobs[id]
      modifies `jobs, `clock, `history
      ensures Sweeping(old(Tables()), {}) && old(history) <= history
      ensures stuckCount == |Changed(old(jobs), jobs)|
    {
      ghost var w := Tables();
      var todo := listed.Keys;
      stuckCount := 0;
      assert Changed(w.jobs, jobs) == {};
      while todo != {}
        invariant Sweeping(w, todo) && todo <= listed.Keys && old(history) <= history
        invariant stuckCount == |Changed(w.jobs, jobs)|
      {
        var id :| id in todo;
        var elapsed: real := *;
        var failed := SweepNext(w, todo, id, listed[id], if elapsed > 0.0 then clock + elapsed else clock);
        if failed {
          stuckCount := stuckCount + 1;
        }
        todo := todo - {id};
      }
    }

    method SweepNext(ghost w: World, ghost todo: set<JobId>, id: JobId, listed: Job, at: real) returns (failed: bool)
      requires Sweeping(w, todo) && id in todo && listed == w.jobs[id] && clock <= at
      modifies `jobs, `clock, `history
      ensures Sweeping(w, todo - {id}) && old(history) <= history
      ensures |Changed(w.jobs, jobs)| == |Changed(w.jobs, old(jobs))| + if failed then 1 else 0
    {
      failed := FailIfStuck(id, listed, at);
      OneMoreSwept(w, old(jobs), jobs, todo, id, old(clock), clock);
    }
  }

  method StoreWithJob() returns (store: JobStore, id: JobId)
    ensures fresh(store) && store.Valid() && store.clock == 1.0
    ensures store.images == map[0 := Image(60, 2, 1.0, None, 0, true)] && store.claims == map[id := 0]
    ensures store.jobs == map[id := NewRow(0, 1.0, None, 0.0).(source := Stored("input"))]
  {
    store := new JobStore();
    var added := store.AddImage(0, 60, 2, 1.0, 0.0);
    assert store.images == map[0 := Image(60, 2, 1.0, None, 0, true)];
    var created := store.CreateJob(0, None, 0.0);
    id := created.value;
    assert store.jobs == map[id := NewRow(0, 1.0, None, 0.0)] && store.claims == map[id := 0];
    store.StoreFiles(id, Some("input"), 1.0);
  }

  /** From an empty store: a job whose first run fails waits for its second without its files. */
  method RetryWithoutFiles() returns (store: JobStore, id: JobId)
    ensures fresh(store) && store.Valid()
    ensures IsPending(store.jobs, id) && store.jobs[id].retryCount == 1
    ensures store.jobs[id].source.Stored? && id !in store.submissionDirs
  {
    store, id := StoreWithJob();
    assert IsPending(store.jobs, id);
    var picked := store.DequeueNext("dispatcher", {}, 2.0);
    store.FailRun(id, "container exited", 3.0);
  }

  /** The head of the pending rows in descending order of score. */
  method PickTop(free: map<JobId, Job>, now: real) returns (picked: Option<JobId>)
    ensures match picked
            case None => forall k :: !IsPending(free, k)
            case Some(id) => IsTop(free, now, id)
  {
    picked := None;
    var todo := free.Keys;
    while todo != {}
      invariant todo <= free.Keys
      invariant match picked
                case None => forall k :: IsPending(free, k) ==> k in todo
                case Some(id) => IsPending(free, id) &&
                                 forall k :: IsPending(free, k) && k !in todo ==>
                                     Score(free[k], now) <= Score(free[id], now)
    {
      var k :| k in todo;
      if free[k].status == Pending && (picked.None? || Score(free[k], now) > Score(free[picked.value], now)) {
        picked := Some(k);
      }
      todo := todo - {k};
    }
  }
}
