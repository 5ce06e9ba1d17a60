/**
 * The finer picture: `markCompleted`, `markFailed` and `cancelJob` first read the row and write
 * it later, and a save writes only the columns that differ from what was read. Any number of
 * such calls overlap; UNIQUE (job_id) on the results is the only guard between them.
 */
module StaleSnapshots {
  import opened Basics
  import opened JobTables
  import opened RollingAverage
  import opened Lifecycle
  import opened LifecycleRuns

  type CallId = nat

  /** A call that has read the row `seen` and has yet to write. */
  datatype Call =
    | Completing(id: JobId, seen: Job, report: Report, runtime: real)
    | Failing(id: JobId, seen: Job, maxRetries: nat, message: string)
    | Cancelling(id: JobId, seen: Job)

  datatype State = State(w: World, calls: map<CallId, Call>)

  datatype Action =
    | Whole(event: Event)
    | ReadToComplete(call: CallId, id: JobId, report: Report, runtime: real)
    | ReadToFail(call: CallId, id: JobId, message: string)
    | ReadToCancel(call: CallId, id: JobId)
    | Commit(call: CallId, at: real)

  ghost predicate Enabled(s: State, a: Action) {
    match a
    case Whole(e) =>
      Lifecycle.Enabled(s.w, e) && !e.step.MarkCompleted? && !e.step.MarkFailed? && !e.step.Cancel?
    case Commit(c, at) => c in s.calls && s.w.clock <= at
    case _ => a.call !in s.calls
  }

  /** The columns that a stale `markFailed` writes into the row as it is by then. */
  function FailWrite(row: Job, seen: Job, maxRetries: nat, message: string, now: real): Job {
    if seen.retryCount < maxRetries then
      row.(retryCount := seen.retryCount + 1,
           status := if seen.status != Pending then Pending else row.status,
           worker := if seen.worker != None then None else row.worker,
           startedAt := if seen.startedAt != None then None else row.startedAt)
    else
      row.(status := if seen.status != Failed then Failed else row.status,
           errorMessage := if seen.errorMessage != Some(message) then Some(message) else row.errorMessage,
           completedAt := Some(now))
  }

  /** The transaction of a stale `markCompleted`; a missing job row or an existing result row undoes it. */
  function CompleteWrite(w: World, id: JobId, seen: Job, report: Report, runtime: real): World {
    if id !in w.jobs || id in w.results then w
    else
      var i := seen.imageId;
      w.(jobs := w.jobs[id := CompletedRow(w.jobs[id], runtime, w.clock)],
         results := w.results[id := report],
         images := if i in w.images then w.images[i := RecordRuntime(w.images[i], runtime)] else w.images,
         completions := w.completions + [Completion(id, i, runtime)])
  }

  function CommitCall(w: World, call: Call): World {
    match call
    case Completing(id, seen, report, runtime) => CompleteWrite(w, id, seen, report, runtime)
    case Failing(id, seen, max, message) =>
      if id in w.jobs then w.(jobs := w.jobs[id := FailWrite(w.jobs[id], seen, max, message, w.clock)]) else w
    case Cancelling(id, seen) =>
      if id in w.jobs then w.(jobs := w.jobs[id := w.jobs[id].(status := Cancelled)]) else w
  }

  ghost function Apply(s: State, a: Action): State
    requires Enabled(s, a)
  {
    var jobs := s.w.jobs;
    match a
    case Whole(e) => s.(w := Lifecycle.Apply(s.w, e))
    case ReadToComplete(c, id, report, runtime) =>
      if id in jobs && jobs[id].status == Processing
      then s.(calls := s.calls[c := Completing(id, jobs[id], report, runtime)])
      else s
    case ReadToFail(c, id, message) =>
      if id in jobs && jobs[id].status != Completed
      then s.(calls := s.calls[c := Failing(id, jobs[id], MaxRetries(s.w.images, jobs[id]), message)])
      else s
    case ReadToCancel(c, id) =>
      if id in jobs && jobs[id].status == Pending
      then s.(calls := s.calls[c := Cancelling(id, jobs[id])])
      else s
    case Commit(c, at) => State(CommitCall(s.w.(clock := at), s.calls[c]), s.calls - {c})
  }

  // ---- The two levels agree when nothing happens in between ----------------------

  /** A call whose write directly follows its read is exactly the atomic step. */
  lemma BackToBackIsAtomic(w: World, id: JobId, report: Report, runtime: real, message: string)
    requires id in w.jobs
    ensures w.jobs[id].status == Processing ==>
              CommitCall(w, Completing(id, w.jobs[id], report, runtime)) == DoMarkCompleted(w, id, report, runtime)
    ensures w.jobs[id].status != Completed ==>
              CommitCall(w, Failing(id, w.jobs[id], MaxRetries(w.images, w.jobs[id]), message)) ==
                DoMarkFailed(w, id, message)
    ensures w.jobs[id].status == Pending ==> CommitCall(w, Cancelling(id, w.jobs[id])) == DoCancel(w, id)
  {
  }

  /** A stale failure writes exactly the columns in which what it makes of the row it read differs from that row. */
  lemma FailWriteIsMerge(row: Job, seen: Job, max: nat, message: string, now: real)
    requires seen.completedAt != Some(now)
    ensures var made, after := FailedRow(seen, max, message, now), FailWrite(row, seen, max, message, now);
            && after.retryCount == (if made.retryCount != seen.retryCount then made.retryCount else row.retryCount)
            && after.status == (if made.status != seen.status then made.status else row.status)
            && after.worker == (if made.worker != seen.worker then made.worker else row.worker)
            && after.startedAt == (if made.startedAt != seen.startedAt then made.startedAt else row.startedAt)
            && after.completedAt == (if made.completedAt != seen.completedAt then made.completedAt else row.completedAt)
            && after.errorMessage ==
                 (if made.errorMessage != seen.errorMessage then made.errorMessage else row.errorMessage)
            && after == row.(retryCount := after.retryCount, status := after.status, worker := after.worker,
                             startedAt := after.startedAt, completedAt := after.completedAt,
                             errorMessage := after.errorMessage)
  {
  }

  // ---- What survives any interleaving --------------------------------------------

  ghost predicate RowSound(w: World, id: JobId)
    requires id in w.jobs
  {
    && id < w.nextId && w.jobs[id].submittedAt <= w.clock
    && (w.jobs[id].completedAt.Some? ==> w.jobs[id].submittedAt <= w.jobs[id].completedAt.value <= w.clock)
    && w.jobs[id].imageId in w.images && w.jobs[id].retryCount <= MaxRetries(w.images, w.jobs[id])
  }

  /** The guard that the call has passed when it read the row. */
  predicate PassedGuard(call: Call) {
    match call
    case Completing(_, seen, _, _) => seen.status == Processing
    case Failing(_, seen, _, _) => seen.status != Completed
    case Cancelling(_, seen) => seen.status == Pending
  }

  ghost predicate CallSound(w: World, call: Call) {
    && PassedGuard(call)
    && call.seen.imageId in w.images
    && call.seen.retryCount <= MaxRetries(w.images, call.seen)
    && (call.Failing? ==> call.maxRetries == MaxRetries(w.images, call.seen))
    && call.id < w.nextId
    && (call.id in w.jobs ==> w.jobs[call.id].imageId == call.seen.imageId)
  }

  ghost predicate Sound(s: State) {
    && (forall id :: id in s.w.jobs ==> RowSound(s.w, id))
    && (forall c :: c in s.calls ==> CallSound(s.w, s.calls[c]))
    && HistoryOk(s.w)
    && StatsOk(s.w.images, s.w.completions)
  }

  // ---- Whole steps --------------------------------------------------------------

  lemma WholeKeepsRow(w: World, e: Event, id: JobId)
    requires Enabled(State(w, map[]), Whole(e)) && id in Lifecycle.Apply(w, e).jobs
    requires id in w.jobs ==> RowSound(w, id)
    ensures RowSound(Lifecycle.Apply(w, e), id)
    ensures id in w.jobs ==> var a, b := w.jobs[id], Lifecycle.Apply(w, e).jobs[id];
              b.imageId == a.imageId && b.retryCount == a.retryCount && b.actualRuntime == a.actualRuntime
    ensures id !in w.jobs ==> id == w.nextId
  {
    var v := Lifecycle.Apply(w, e);
    if id in w.jobs {
      ApplyRow(w, e, id);
      RetryLimitIsFixed(w, e, w.jobs[id].imageId);
    } else {
      NewRowIsSound(w, e, id);
    }
  }

  lemma NewRowIsSound(w: World, e: Event, id: JobId)
    requires Lifecycle.Enabled(w, e) && id !in w.jobs && id in Lifecycle.Apply(w, e).jobs
    ensures RowSound(Lifecycle.Apply(w, e), id) && id == w.nextId
  {
    match e.step {
      case Submit(i, url) =>
      case _ =>
    }
  }

  lemma WholeLeavesHistory(w: World, e: Event)
    requires Enabled(State(w, map[]), Whole(e))
    ensures var v := Lifecycle.Apply(w, e);
            && v.completions == w.completions && w.nextId <= v.nextId
            && (forall id :: id in v.jobs && id in w.jobs && id in w.results ==> id in v.results)
            && (forall id :: id in v.results ==> id in w.results && (id in w.jobs ==> id in v.jobs))
  {
    match e.step {
      case Submit(i, url) =>
      case _ =>
    }
  }

  lemma WholeKeepsStats(w: World, e: Event)
    requires Enabled(State(w, map[]), Whole(e)) && StatsOk(w.images, w.completions)
    ensures StatsOk(Lifecycle.Apply(w, e).images, w.completions)
    ensures w.images.Keys <= Lifecycle.Apply(w, e).images.Keys
  {
    match e.step {
      case AddImage(i, timeout, retries, estimate) => NoCompletions(w.completions, i);
      case _ =>
    }
  }

  lemma WholeKeepsHistory(w: World, e: Event)
    requires Enabled(State(w, map[]), Whole(e)) && HistoryOk(w)
    requires forall id :: id in w.jobs ==> RowSound(w, id)
    ensures HistoryOk(Lifecycle.Apply(w, e))
  {
    var v := Lifecycle.Apply(w, e);
    WholeLeavesHistory(w, e);
    forall k | 0 <= k < |v.completions| && v.completions[k].jobId in v.jobs
      ensures v.completions[k].jobId in v.results && Shows(v.jobs[v.completions[k].jobId], v.completions[k])
    {
      WholeKeepsRow(w, e, v.completions[k].jobId);
    }
  }

  lemma WholeKeepsCall(w: World, e: Event, call: Call)
    requires Enabled(State(w, map[]), Whole(e)) && CallSound(w, call)
    requires call.id in w.jobs ==> RowSound(w, call.id)
    ensures CallSound(Lifecycle.Apply(w, e), call)
  {
    var v := Lifecycle.Apply(w, e);
    RetryLimitIsFixed(w, e, call.seen.imageId);
    if call.id in v.jobs {
      WholeKeepsRow(w, e, call.id);
    }
    match e.step {
      case Submit(i, url) =>
      case _ =>
    }
  }

  lemma WholeKeepsSound(s: State, e: Event)
    requires Sound(s) && Enabled(s, Whole(e))
    ensures Sound(Apply(s, Whole(e)))
  {
    var w, v := s.w, Lifecycle.Apply(s.w, e);
    assert Enabled(State(w, map[]), Whole(e));
    forall id | id in v.jobs
      ensures RowSound(v, id)
    {
      WholeKeepsRow(w, e, id);
    }
    forall c | c in s.calls
      ensures CallSound(v, s.calls[c])
    {
      WholeKeepsCall(w, e, s.calls[c]);
    }
    WholeKeepsHistory(w, e);
    WholeKeepsStats(w, e);
    assert v.completions == w.completions by { WholeLeavesHistory(w, e); }
  }

  // ---- Commits ------------------------------------------------------------------

  /** A commit changes at most one row, keeps its image, and never exceeds the retry limit. */
  lemma CommitKeepsRows(w: World, call: Call)
    requires CallSound(w, call) && forall id :: id in w.jobs ==> RowSound(w, id)
    ensures var v := CommitCall(w, call);
            && v.jobs.Keys == w.jobs.Keys && v.nextId == w.nextId && v.images.Keys == w.images.Keys
            && (forall i :: i in w.images ==> v.images[i].maxRetries == w.images[i].maxRetries)
            && (forall id :: id in w.jobs ==> RowSound(v, id) && v.jobs[id].imageId == w.jobs[id].imageId)
            && (forall id :: id in w.jobs && id != call.id ==> v.jobs[id] == w.jobs[id])
  {
  }

  lemma FailureKeepsHistory(w: World, call: Call)
    requires HistoryOk(w) && !call.Completing?
    ensures HistoryOk(CommitCall(w, call)) && CommitCall(w, call).images == w.images
  {
    HistoryIgnoresTheRest(w.jobs, CommitCall(w, call).jobs, w.results.Keys, w.completions, w.nextId);
  }

  lemma CompletionKeepsHistory(w: World, call: Call)
    requires CallSound(w, call) && HistoryOk(w) && StatsOk(w.images, w.completions)
    requires call.Completing? && call.id in w.jobs && call.id !in w.results
    ensures HistoryOk(CommitCall(w, call))
    ensures StatsOk(CommitCall(w, call).images, CommitCall(w, call).completions)
  {
    var c := Completion(call.id, call.seen.imageId, call.runtime);
    assert forall k :: 0 <= k < |w.completions| ==> w.completions[k].jobId != call.id;
    var v := CommitCall(w, call);
    HistoryGrows(w.jobs, v.jobs[call.id], w.results.Keys, w.completions, w.nextId, c);
    assert v.results.Keys == w.results.Keys + {call.id};
    RecordKeepsStats(w.images, w.completions, c);
  }

  lemma CommitKeepsHistory(w: World, call: Call)
    requires CallSound(w, call) && HistoryOk(w) && StatsOk(w.images, w.completions)
    ensures HistoryOk(CommitCall(w, call))
    ensures StatsOk(CommitCall(w, call).images, CommitCall(w, call).completions)
  {
    if !call.Completing? {
      FailureKeepsHistory(w, call);
    } else if call.id in w.jobs && call.id !in w.results {
      CompletionKeepsHistory(w, call);
    } else {
      assert CommitCall(w, call) == w;
    }
  }

  lemma CommitKeepsSound(s: State, c: CallId, at: real)
    requires Sound(s) && Enabled(s, Commit(c, at))
    ensures Sound(Apply(s, Commit(c, at)))
  {
    var w, call := s.w.(clock := at), s.calls[c];
    assert CallSound(w, call);
    assert forall id :: id in w.jobs ==> RowSound(s.w, id) && RowSound(w, id);
    CommitKeepsRows(w, call);
    CommitKeepsHistory(w, call);
    var v := CommitCall(w, call);
    forall d | d in s.calls - {c}
      ensures CallSound(v, s.calls[d])
    {
      assert CallSound(s.w, s.calls[d]);
    }
  }

  lemma ReadKeepsSound(s: State, a: Action)
    requires Sound(s) && Enabled(s, a) && !a.Whole? && !a.Commit?
    ensures Sound(Apply(s, a))
  {
    assert a.id in s.w.jobs ==> RowSound(s.w, a.id);
  }

  // ---- Whole runs ---------------------------------------------------------------

  ghost predicate Legal(s: State, run: seq<Action>)
    decreases |run|
  {
    run == [] || (Enabled(s, run[0]) && Legal(Apply(s, run[0]), run[1..]))
  }

  ghost function Exec(s: State, run: seq<Action>): State
    requires Legal(s, run)
    decreases |run|
  {
    if run == [] then s else Exec(Apply(s, run[0]), run[1..])
  }

  lemma {:induction false} RunKeepsSound(s: State, run: seq<Action>)
    requires Sound(s) && Legal(s, run)
    ensures Sound(Exec(s, run))
    decreases |run|
  {
    if run != [] {
      match run[0] {
        case Whole(e) => WholeKeepsSound(s, e);
        case Commit(c, at) => CommitKeepsSound(s, c, at);
        case _ => ReadKeepsSound(s, run[0]);
      }
      RunKeepsSound(Apply(s, run[0]), run[1..]);
    }
  }

  /**
   * However reads and commits interleave: no job is ever completed twice, every image has counted
   * exactly the completions committed for it and averages exactly their runtimes, and retry
   * counts stay within the limit.
   */
  lemma AnyInterleavingIsSound(run: seq<Action>)
    requires Legal(State(EMPTY, map[]), run)
    ensures var w := Exec(State(EMPTY, map[]), run).w;
            && (forall k, l :: 0 <= k < l < |w.completions| ==> w.completions[k].jobId != w.completions[l].jobId)
            && (forall id :: id in w.jobs ==>
                  (id in w.results <==> exists k :: 0 <= k < |w.completions| && w.completions[k].jobId == id))
            && (forall i :: i in w.images ==> ImageStatsOk(w.images[i], i, w.completions))
            && (forall id :: id in w.jobs ==>
                  w.jobs[id].imageId in w.images && w.jobs[id].retryCount <= w.images[w.jobs[id].imageId].maxRetries)
  {
    RunKeepsSound(State(EMPTY, map[]), run);
    var s := Exec(State(EMPTY, map[]), run);
    assert forall id :: id in s.w.jobs ==> RowSound(s.w, id);
  }

  // ---- What does not survive ----------------------------------------------------

  /** Exactly which pending writes leave a completed row completed. */
  lemma CompletedSurvivesIff(w: World, call: Call)
    requires call.id in w.jobs && w.jobs[call.id].status == Completed && PassedGuard(call)
    ensures CommitCall(w, call).jobs[call.id].status == Completed <==>
              match call
              case Completing(_, _, _, _) => true
              case Failing(_, seen, max, _) => seen.status == if seen.retryCount < max then Pending else Failed
              case Cancelling(_, _) => false
  {
  }

  /** And which leave a cancelled row cancelled: a completion that read the row earlier may not. */
  lemma CancelledSurvivesIff(w: World, call: Call)
    requires call.id in w.jobs && w.jobs[call.id].status == Cancelled && PassedGuard(call)
    ensures CommitCall(w, call).jobs[call.id].status == Cancelled <==>
              match call
              case Completing(_, _, _, _) => call.id in w.results
              case Failing(_, seen, max, _) => seen.status == if seen.retryCount < max then Pending else Failed
              case Cancelling(_, _) => true
  {
  }

  /** A failing write takes the start time from a processing row exactly when it read the row as pending with one. */
  lemma StartTimeLostIff(w: World, call: Call)
    requires call.id in w.jobs && w.jobs[call.id].status == Processing && w.jobs[call.id].startedAt.Some?
    requires PassedGuard(call)
    ensures var row := CommitCall(w, call).jobs[call.id];
            row.status == Processing && row.startedAt == None <==>
              && call.Failing? && call.seen.retryCount < call.maxRetries
              && call.seen.status == Pending && call.seen.startedAt.Some?
  {
  }
}
