/** Which jobs have their submitted files on disk, over whole runs of the queue. */
module SubmittedFiles {
  import opened JobTables
  import opened Lifecycle
  import opened LifecycleRuns

  /** Whose submitted files are on disk after a step, if they were in `dirs` before. */
  ghost function DirsAfter(w: World, e: Event, dirs: set<JobId>): set<JobId> {
    match e.step
    case FinishUpload(id, _) => dirs + {id}
    case AbortSubmission(id) => dirs - {id}
    case Cancel(id) => if IsPending(w.jobs, id) then dirs - {id} else dirs
    case Purge(cutoff) => dirs - Expired(w.jobs, cutoff)
    case EndRun(id) => dirs - {id}
    case _ => dirs
  }

  ghost function Dirs(w: World, run: seq<Event>, dirs: set<JobId>): set<JobId>
    requires Legal(w, run)
    decreases |run|
  {
    if run == [] then dirs else Dirs(Apply(w, run[0]), run[1..], DirsAfter(w, run[0], dirs))
  }

  lemma {:induction false} DirsAppend(w: World, run: seq<Event>, e: Event, dirs: set<JobId>)
    requires Legal(w, run) && Enabled(Exec(w, run), e)
    ensures Legal(w, run + [e])
    ensures Dirs(w, run + [e], dirs) == DirsAfter(Exec(w, run), e, Dirs(w, run, dirs))
    decreases |run|
  {
    ExecAppend(w, run, e);
    if run == [] {
      assert run + [e] == [e];
      assert Dirs(Apply(w, e), [e][1..], DirsAfter(w, e, dirs)) == DirsAfter(w, e, dirs);
    } else {
      assert (run + [e])[1..] == run[1..] + [e];
      DirsAppend(Apply(w, run[0]), run[1..], e, DirsAfter(w, run[0], dirs));
    }
  }

  /** A run of the job ends, or the job is cancelled. */
  ghost predicate Loses(w: World, e: Event, id: JobId) {
    e.step == EndRun(id) || (e.step == Cancel(id) && IsPending(w.jobs, id))
  }

  ghost predicate Uploads(e: Event, id: JobId) {
    e.step.FinishUpload? && e.step.id == id
  }

  /** In the whole run no run of the job ends and it is not cancelled. */
  ghost predicate NeverLoses(w: World, run: seq<Event>, id: JobId)
    requires Legal(w, run)
    decreases |run|
  {
    run == [] || (!Loses(w, run[0], id) && NeverLoses(Apply(w, run[0]), run[1..], id))
  }

  /** The upload finishes at some point, and from then on no run of the job ends and it is not cancelled. */
  ghost predicate UploadsAndKeeps(w: World, run: seq<Event>, id: JobId)
    requires Legal(w, run)
    decreases |run|
  {
    run != [] &&
    var v := Apply(w, run[0]);
    (Uploads(run[0], id) && NeverLoses(v, run[1..], id)) || UploadsAndKeeps(v, run[1..], id)
  }

  lemma StepMovesFiles(w: World, e: Event, dirs: set<JobId>, id: JobId)
    requires Inv(w) && Enabled(w, e) && id in w.jobs && id in Apply(w, e).jobs
    ensures Uploads(e, id) ==> id in DirsAfter(w, e, dirs)
    ensures !Uploads(e, id) ==> (id in DirsAfter(w, e, dirs) <==> id in dirs && !Loses(w, e, id))
  {
    assert JobOk(w, id);
  }

  lemma {:induction false} FilesFollow(w: World, run: seq<Event>, dirs: set<JobId>, id: JobId)
    requires Inv(w) && Legal(w, run) && id in w.jobs && id in Exec(w, run).jobs
    ensures id in Dirs(w, run, dirs) <==> UploadsAndKeeps(w, run, id) || (id in dirs && NeverLoses(w, run, id))
    decreases |run|
  {
    if run != [] {
      StillThereAfterOne(w, run, id);
      StepKeepsInv(w, run[0]);
      StepMovesFiles(w, run[0], dirs, id);
      FilesFollow(Apply(w, run[0]), run[1..], DirsAfter(w, run[0], dirs), id);
    }
  }

  /** A job that has not been submitted yet has no files, and gets none before its own upload. */
  lemma {:induction false} FilesFromSubmission(w: World, run: seq<Event>, dirs: set<JobId>, id: JobId)
    requires Inv(w) && Legal(w, run) && w.nextId <= id && id !in dirs && id in Exec(w, run).jobs
    ensures id in Dirs(w, run, dirs) <==> UploadsAndKeeps(w, run, id)
    decreases |run|
  {
    assert id !in w.jobs by {
      assert id in w.jobs ==> JobOk(w, id);
    }
    if run != [] {
      var v := Apply(w, run[0]);
      StepKeepsInv(w, run[0]);
      NotYetThere(w, run[0], dirs, id);
      if id in v.jobs {
        FilesFollow(v, run[1..], DirsAfter(w, run[0], dirs), id);
      } else if v.nextId <= id {
        FilesFromSubmission(v, run[1..], DirsAfter(w, run[0], dirs), id);
      } else {
        GoneStaysGone(v, run[1..], id);
      }
    }
  }

  lemma NotYetThere(w: World, e: Event, dirs: set<JobId>, id: JobId)
    requires Inv(w) && Enabled(w, e) && w.nextId <= id && id !in dirs
    ensures id !in DirsAfter(w, e, dirs) && !Uploads(e, id)
  {
  }

  /**
   * In every state that a run can reach, a job has its files exactly when its upload has finished
   * and, since then, no run of it has ended and it has not been cancelled.
   */
  lemma FilesThereIff(run: seq<Event>, id: JobId)
    requires Legal(EMPTY, run) && id in Exec(EMPTY, run).jobs
    ensures id in Dirs(EMPTY, run, {}) <==> UploadsAndKeeps(EMPTY, run, id)
  {
    InvInitially();
    FilesFromSubmission(EMPTY, run, {}, id);
  }

  // ---- Jobs that wait for their first run ------------------------------------------

  /** The row is waiting for its first run, its upload done. */
  predicate Unused(job: Job) {
    job.status == Pending && job.retryCount == 0 && job.source.Stored?
  }

  /** Every job that waits for its first run has its files. */
  ghost predicate FilesThere(w: World, dirs: set<JobId>) {
    forall id :: id in w.jobs && Unused(w.jobs[id]) && id in w.claims && w.claims[id] == 0 ==> id in dirs
  }

  lemma StepKeepsFiles(w: World, e: Event, dirs: set<JobId>)
    requires Inv(w) && Enabled(w, e) && FilesThere(w, dirs)
    ensures FilesThere(Apply(w, e), DirsAfter(w, e, dirs))
  {
    var v, after := Apply(w, e), DirsAfter(w, e, dirs);
    forall id | id in v.jobs && Unused(v.jobs[id]) && id in v.claims && v.claims[id] == 0
      ensures id in after
    {
      FileKept(w, e, dirs, id);
    }
  }

  lemma FileKept(w: World, e: Event, dirs: set<JobId>, id: JobId)
    requires Inv(w) && Enabled(w, e) && FilesThere(w, dirs)
    requires var v := Apply(w, e); id in v.jobs && Unused(v.jobs[id]) && id in v.claims && v.claims[id] == 0
    ensures id in DirsAfter(w, e, dirs)
  {
    if id !in w.jobs {
      NewRowIsUploading(w, e, id);
    } else {
      assert JobOk(w, id);
      ApplyRow(w, e, id);
      ClaimsOnlyGrow(w, e, id);
    }
  }

  lemma NewRowIsUploading(w: World, e: Event, id: JobId)
    requires Enabled(w, e) && id !in w.jobs && id in Apply(w, e).jobs
    ensures Apply(w, e).jobs[id].source == PendingUpload
  {
    match e.step {
      case Submit(i, url) =>
      case _ =>
    }
  }

  lemma ClaimsOnlyGrow(w: World, e: Event, id: JobId)
    requires Enabled(w, e) && id in w.claims && id < w.nextId
    ensures id in Apply(w, e).claims && w.claims[id] <= Apply(w, e).claims[id]
    ensures e.step.Claim? && e.step.id == id ==> Apply(w, e).claims[id] > 0
  {
    match e.step {
      case Submit(i, url) =>
      case _ =>
    }
  }

  lemma {:induction false} RunKeepsFiles(w: World, run: seq<Event>, dirs: set<JobId>)
    requires Inv(w) && Legal(w, run) && FilesThere(w, dirs)
    ensures FilesThere(Exec(w, run), Dirs(w, run, dirs))
    decreases |run|
  {
    if run != [] {
      StepKeepsInv(w, run[0]);
      StepKeepsFiles(w, run[0], dirs);
      RunKeepsFiles(Apply(w, run[0]), run[1..], DirsAfter(w, run[0], dirs));
    }
  }
}
