/**
 * Which statuses last, and which processing rows keep their start time, when calls read and write at
 * different times.
 */
module StaleStatus {
  import opened Basics
  import opened JobTables
  import opened Lifecycle
  import opened LifecycleRuns
  import opened StaleSnapshots
  import opened StaleRuns
  import S = StaleSnapshots

  // ---- Final statuses ----------------------------------------------------------------

  predicate Final(status: Status) {
    status in {Completed, Failed, Cancelled}
  }

  /** The write leaves a row of this final status as it is: a matter of what it had read. */
  predicate Spares(call: Call, status: Status, hasResult: bool) {
    match call
    case Completing(_, _, _, _) => status == Completed || hasResult
    case Failing(_, seen, max, _) =>
      if seen.retryCount < max then seen.status == Pending else seen.status == Failed || status == Failed
    case Cancelling(_, _) => status == Cancelled
  }

  lemma FinalSurvivesIff(w: World, call: Call)
    requires call.id in w.jobs && Final(w.jobs[call.id].status)
    ensures CommitCall(w, call).jobs[call.id].status == w.jobs[call.id].status <==>
              Spares(call, w.jobs[call.id].status, call.id in w.results)
  {
  }

  ghost predicate Has(s: State, id: JobId, status: Status) {
    id in s.w.jobs && s.w.jobs[id].status == status
  }

  /** If the step commits a write to the job, the write spares the status. */
  ghost predicate SparedBy(s: State, a: Action, id: JobId, status: Status)
    requires S.Enabled(s, a)
  {
    a.Commit? && s.calls[a.call].id == id ==> Spares(s.calls[a.call], status, id in s.w.results)
  }

  lemma StepSparesIff(s: State, a: Action, id: JobId, status: Status)
    requires Sound(s) && S.Enabled(s, a) && Final(status) && Has(s, id, status) && id in S.Apply(s, a).w.jobs
    ensures Has(S.Apply(s, a), id, status) <==> SparedBy(s, a, id, status)
  {
    match a
    case Whole(e) =>
      assert RowSound(s.w, id);
      ApplyRow(s.w, e, id);
    case Commit(c, at) =>
      if s.calls[c].id == id {
        FinalSurvivesIff(s.w.(clock := at), s.calls[c]);
      }
    case _ =>
  }

  ghost predicate Throughout(s: State, run: seq<Action>, id: JobId, status: Status)
    requires S.Legal(s, run)
    decreases |run|
  {
    Has(s, id, status) && (run != [] ==> Throughout(S.Apply(s, run[0]), run[1..], id, status))
  }

  ghost predicate AllSpare(s: State, run: seq<Action>, id: JobId, status: Status)
    requires S.Legal(s, run)
    decreases |run|
  {
    run == [] || (SparedBy(s, run[0], id, status) && AllSpare(S.Apply(s, run[0]), run[1..], id, status))
  }

  lemma StillThere(s: State, run: seq<Action>, id: JobId)
    requires Sound(s) && S.Legal(s, run) && run != [] && id in s.w.jobs && id in S.Exec(s, run).w.jobs
    ensures id in S.Apply(s, run[0]).w.jobs
  {
    assert RowSound(s.w, id);
    StepKeepsSound(s, run[0]);
    AllIdsGrow(s, run[0]);
    if id !in S.Apply(s, run[0]).w.jobs {
      GoneStays(S.Apply(s, run[0]), run[1..], id);
    }
  }

  /**
   * Over any run: a completed, failed or cancelled job that is still there at the end had this status all
   * along iff every write committed to it on the way spares the status.
   */
  lemma {:induction false} FinalStaysIff(s: State, run: seq<Action>, id: JobId, status: Status)
    requires Sound(s) && S.Legal(s, run) && Final(status) && Has(s, id, status) && id in S.Exec(s, run).w.jobs
    ensures Throughout(s, run, id, status) <==> AllSpare(s, run, id, status)
    decreases |run|
  {
    if run != [] {
      StillThere(s, run, id);
      StepKeepsSound(s, run[0]);
      StepSparesIff(s, run[0], id, status);
      if Has(S.Apply(s, run[0]), id, status) {
        FinalStaysIff(S.Apply(s, run[0]), run[1..], id, status);
      }
    }
  }

  // ---- Start times -------------------------------------------------------------------

  ghost predicate AllStarted(w: World) {
    forall id :: id in w.jobs && w.jobs[id].status == Processing ==> w.jobs[id].startedAt.Some?
  }

  /** A failing write is committed that has read the row as pending with a start time, and finds it processing. */
  ghost predicate LosesStart(s: State, a: Action)
    requires S.Enabled(s, a)
  {
    && a.Commit?
    && var call := s.calls[a.call];
       && call.Failing? && call.seen.retryCount < call.maxRetries
       && call.seen.status == Pending && call.seen.startedAt.Some?
       && call.id in s.w.jobs && s.w.jobs[call.id].status == Processing
  }

  lemma WholeKeepsStarted(w: World, e: Event)
    requires S.Enabled(State(w, map[]), Whole(e)) && AllStarted(w)
    requires forall id :: id in w.jobs ==> RowSound(w, id)
    ensures AllStarted(Lifecycle.Apply(w, e))
  {
    var v := Lifecycle.Apply(w, e);
    forall id | id in v.jobs && v.jobs[id].status == Processing
      ensures v.jobs[id].startedAt.Some?
    {
      if id in w.jobs {
        assert RowSound(w, id);
        ApplyRow(w, e, id);
      } else {
        NewRowIsPending(w, e, id);
      }
    }
  }

  lemma NewRowIsPending(w: World, e: Event, id: JobId)
    requires Lifecycle.Enabled(w, e) && id !in w.jobs && id in Lifecycle.Apply(w, e).jobs
    ensures Lifecycle.Apply(w, e).jobs[id].status == Pending
  {
    match e.step {
      case Submit(i, url) =>
      case _ =>
    }
  }

  lemma CommitKeepsStartedIff(s: State, a: Action)
    requires Sound(s) && S.Enabled(s, a) && a.Commit? && AllStarted(s.w)
    ensures AllStarted(S.Apply(s, a).w) <==> !LosesStart(s, a)
  {
    var call, w := s.calls[a.call], s.w.(clock := a.at);
    assert CallSound(s.w, call);
    if call.id in w.jobs && w.jobs[call.id].status == Processing {
      StartTimeLostIff(w, call);
    }
    assert forall id :: id in w.jobs && id != call.id ==> CommitCall(w, call).jobs[id] == w.jobs[id];
  }

  lemma StepKeepsStartedIff(s: State, a: Action)
    requires Sound(s) && S.Enabled(s, a) && AllStarted(s.w)
    ensures AllStarted(S.Apply(s, a).w) <==> !LosesStart(s, a)
  {
    match a
    case Whole(e) => WholeKeepsStarted(s.w, e);
    case Commit(c, at) => CommitKeepsStartedIff(s, a);
    case _ =>
  }

  ghost predicate StartedThroughout(s: State, run: seq<Action>)
    requires S.Legal(s, run)
    decreases |run|
  {
    AllStarted(s.w) && (run != [] ==> StartedThroughout(S.Apply(s, run[0]), run[1..]))
  }

  ghost predicate NoStartLost(s: State, run: seq<Action>)
    requires S.Legal(s, run)
    decreases |run|
  {
    run == [] || (!LosesStart(s, run[0]) && NoStartLost(S.Apply(s, run[0]), run[1..]))
  }

  /** Over any run: every processing row has its start time all along iff no write of that kind is committed. */
  lemma {:induction false} StartedThroughoutIff(s: State, run: seq<Action>)
    requires Sound(s) && S.Legal(s, run) && AllStarted(s.w)
    ensures StartedThroughout(s, run) <==> NoStartLost(s, run)
    decreases |run|
  {
    if run != [] {
      StepKeepsSound(s, run[0]);
      StepKeepsStartedIff(s, run[0]);
      if AllStarted(S.Apply(s, run[0]).w) {
        StartedThroughoutIff(S.Apply(s, run[0]), run[1..]);
      }
    }
  }

  /** Every failing write finds the status that it has read. */
  ghost predicate Punctual(s: State, run: seq<Action>)
    requires S.Legal(s, run)
    decreases |run|
  {
    run == [] ||
    ((run[0].Commit? && s.calls[run[0].call].Failing? && s.calls[run[0].call].id in s.w.jobs ==>
        s.w.jobs[s.calls[run[0].call].id].status == s.calls[run[0].call].seen.status) &&
     Punctual(S.Apply(s, run[0]), run[1..]))
  }

  /** That is enough: for the start times, failures may otherwise be as late as they like. */
  lemma {:induction false} PunctualLosesNoStart(s: State, run: seq<Action>)
    requires S.Legal(s, run) && Punctual(s, run)
    ensures NoStartLost(s, run)
    decreases |run|
  {
    if run != [] {
      PunctualLosesNoStart(S.Apply(s, run[0]), run[1..]);
    }
  }

  // ---- Retention ---------------------------------------------------------------------

  /** The row finished at `t` or later, if its finish time is set. */
  ghost predicate FinishedSince(w: World, id: JobId, t: real) {
    id in w.jobs && t <= w.clock && (w.jobs[id].completedAt.Some? ==> t <= w.jobs[id].completedAt.value)
  }

  /** The step is no retention that reaches back beyond `t`, and does not undo the job's submission. */
  ghost predicate Reaches(a: Action, t: real, id: JobId) {
    a.Whole? && (a.event.step == AbortSubmission(id) || (a.event.step.Purge? && t < a.event.step.cutoff))
  }

  lemma WholeKeepsFinished(w: World, e: Event, id: JobId, t: real)
    requires S.Enabled(State(w, map[]), Whole(e)) && FinishedSince(w, id, t) && RowSound(w, id)
    requires !Reaches(Whole(e), t, id)
    ensures FinishedSince(Lifecycle.Apply(w, e), id, t)
  {
    SparedStays(w, e, t, id);
    ApplyRow(w, e, id);
    ClockIsTime(w, e);
  }

  lemma StepKeepsFinished(s: State, a: Action, id: JobId, t: real)
    requires Sound(s) && S.Enabled(s, a) && FinishedSince(s.w, id, t) && !Reaches(a, t, id)
    ensures FinishedSince(S.Apply(s, a).w, id, t)
  {
    assert RowSound(s.w, id);
    match a
    case Whole(e) => WholeKeepsFinished(s.w, e, id, t);
    case Commit(c, at) => CommitKeepsFinished(s.w.(clock := at), s.calls[c], id, t);
    case _ =>
  }

  lemma CommitKeepsFinished(w: World, call: Call, id: JobId, t: real)
    requires FinishedSince(w, id, t)
    ensures FinishedSince(CommitCall(w, call), id, t)
  {
  }

  lemma {:induction false} FinishedOutlives(s: State, run: seq<Action>, id: JobId, t: real)
    requires Sound(s) && S.Legal(s, run) && FinishedSince(s.w, id, t)
    requires forall a :: a in run ==> !Reaches(a, t, id)
    ensures FinishedSince(S.Exec(s, run).w, id, t)
    decreases |run|
  {
    if run != [] {
      assert run[0] in run && forall a :: a in run[1..] ==> a in run;
      StepKeepsFinished(s, run[0], id, t);
      StepKeepsSound(s, run[0]);
      FinishedOutlives(S.Apply(s, run[0]), run[1..], id, t);
    }
  }

  /**
   * A completion committed at time t, however long after it read the job: its row has this finish time,
   * and over any later interleaving retention with cutoffs of at most t does not remove it.
   */
  lemma CompletionOutlivesRetention(s: State, c: CallId, t: real, run: seq<Action>)
    requires Sound(s) && S.Enabled(s, Commit(c, t)) && s.calls[c].Completing?
    requires s.calls[c].id in s.w.jobs && s.calls[c].id !in s.w.results
    requires S.Legal(S.Apply(s, Commit(c, t)), run)
    requires forall a :: a in run ==> !Reaches(a, t, s.calls[c].id)
    ensures var v, id := S.Apply(s, Commit(c, t)).w, s.calls[c].id;
            id in v.jobs && v.jobs[id].status == Completed && v.jobs[id].completedAt == Some(t)
    ensures s.calls[c].id in S.Exec(S.Apply(s, Commit(c, t)), run).w.jobs
    ensures var row := S.Exec(S.Apply(s, Commit(c, t)), run).w.jobs[s.calls[c].id];
            row.completedAt.Some? ==> t <= row.completedAt.value
  {
    StepKeepsSound(s, Commit(c, t));
    FinishedOutlives(S.Apply(s, Commit(c, t)), run, s.calls[c].id, t);
  }
}
