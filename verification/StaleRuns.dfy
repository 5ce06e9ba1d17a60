/** What stale writes can and cannot do over whole runs: a completion that is undone stays undone. */
module StaleRuns {
  import opened JobTables
  import opened Lifecycle
  import opened LifecycleRuns
  import opened StaleSnapshots
  import S = StaleSnapshots

  // ---- A completion that was undone stays undone -----------------------------------

  /** The job has its result row, but a later write has taken its status away from completed. */
  ghost predicate Undone(w: World, id: JobId) {
    id in w.jobs && id in w.results && w.jobs[id].status != Completed
  }

  lemma WholeKeepsUndone(w: World, e: Event, id: JobId)
    requires Sound(State(w, map[])) && S.Enabled(State(w, map[]), Whole(e)) && Undone(w, id)
    requires id in Lifecycle.Apply(w, e).jobs
    ensures Undone(Lifecycle.Apply(w, e), id)
  {
    assert RowSound(w, id);
    ApplyRow(w, e, id);
    ResultIsKept(w, e, id);
  }

  lemma StepKeepsUndone(s: State, a: Action, id: JobId)
    requires Sound(s) && S.Enabled(s, a) && Undone(s.w, id)
    requires id in S.Apply(s, a).w.jobs
    ensures Undone(S.Apply(s, a).w, id)
  {
    match a
    case Whole(e) => WholeKeepsUndone(s.w, e, id);
    case Commit(c, at) => CommitKeepsUndone(s.w.(clock := at), s.calls[c], id);
    case _ =>
  }

  lemma CommitKeepsUndone(w: World, call: Call, id: JobId)
    requires Undone(w, id)
    ensures Undone(CommitCall(w, call), id)
  {
  }

  lemma StepKeepsGone(s: State, a: Action, id: JobId)
    requires Sound(s) && S.Enabled(s, a) && id < s.w.nextId && id !in s.w.jobs
    ensures id !in S.Apply(s, a).w.jobs && id < S.Apply(s, a).w.nextId
  {
    match a {
      case Whole(e) => LifecycleRuns.StepKeepsGone(s.w, e, id);
      case _ =>
    }
  }

  lemma StepKeepsSound(s: State, a: Action)
    requires Sound(s) && S.Enabled(s, a)
    ensures Sound(S.Apply(s, a))
  {
    match a
    case Whole(e) => WholeKeepsSound(s, e);
    case Commit(c, at) => CommitKeepsSound(s, c, at);
    case _ => ReadKeepsSound(s, a);
  }

  lemma {:induction false} GoneStays(s: State, run: seq<Action>, id: JobId)
    requires Sound(s) && S.Legal(s, run) && id < s.w.nextId && id !in s.w.jobs
    ensures id !in S.Exec(s, run).w.jobs
    decreases |run|
  {
    if run != [] {
      StepKeepsSound(s, run[0]);
      StepKeepsGone(s, run[0], id);
      GoneStays(S.Apply(s, run[0]), run[1..], id);
    }
  }

  /**
   * A completion that a stale write has undone is never made again: over any run, as long as the row
   * is there, the job is not completed, although its result is stored.
   */
  lemma {:induction false} NeverCompletesAgain(s: State, run: seq<Action>, id: JobId)
    requires Sound(s) && S.Legal(s, run) && Undone(s.w, id)
    ensures id in S.Exec(s, run).w.jobs ==> Undone(S.Exec(s, run).w, id)
    decreases |run|
  {
    if run != [] {
      var t := S.Apply(s, run[0]);
      assert RowSound(s.w, id);
      StepKeepsSound(s, run[0]);
      if id in t.w.jobs {
        StepKeepsUndone(s, run[0], id);
        NeverCompletesAgain(t, run[1..], id);
      } else {
        AllIdsGrow(s, run[0]);
        GoneStays(t, run[1..], id);
      }
    }
  }

  lemma AllIdsGrow(s: State, a: Action)
    requires S.Enabled(s, a)
    ensures s.w.nextId <= S.Apply(s, a).w.nextId
  {
    if a.Whole? {
      IdsGrow(s.w, a.event);
    }
  }

  // ---- How it comes about ------------------------------------------------------------

  ghost predicate Reaches(s: State, run: seq<Action>, end: State) {
    S.Legal(s, run) && S.Exec(s, run) == end
  }

  ghost predicate Steps(s: State, a: Action, t: State) {
    S.Enabled(s, a) && S.Apply(s, a) == t
  }

  lemma Prepend(s: State, a: Action, t: State, run: seq<Action>, end: State)
    requires Steps(s, a, t) && Reaches(t, run, end)
    ensures Reaches(s, [a] + run, end)
  {
    assert ([a] + run)[1..] == run;
  }

  /** A run of whole steps that neither complete, fail nor cancel is a run at this level. */
  lemma {:induction false} Lift(w: World, events: seq<Event>, tail: seq<Action>, end: State) returns (run: seq<Action>)
    requires Lifecycle.Legal(w, events) && Reaches(State(Lifecycle.Exec(w, events), map[]), tail, end)
    requires forall e :: e in events ==> e.step.AddImage? || e.step.Submit? || e.step.FinishUpload?
    ensures Reaches(State(w, map[]), run, end)
    decreases |events|
  {
    if events == [] {
      run := tail;
    } else {
      var v := Lifecycle.Apply(w, events[0]);
      run := Lift(v, events[1..], tail, end);
      Prepend(State(w, map[]), Whole(events[0]), State(v, map[]), run, end);
      run := [Whole(events[0])] + run;
    }
  }

  /** A stored submission, by itself in the queue, from which the tail of a run goes on. */
  lemma FromSubmission(max: nat, tail: seq<Action>, end: State) returns (run: seq<Action>)
    requires Reaches(State(OneJob(1.0, max, StoredRow(), 0), map[]), tail, end)
    ensures Reaches(State(EMPTY, map[]), run, end)
  {
    var events := OneJobSubmitted(max);
    run := Lift(EMPTY, events, tail, end);
  }

  /** The same with the job claimed. */
  lemma FromClaim(max: nat, tail: seq<Action>, end: State) returns (run: seq<Action>)
    requires Reaches(State(OneJob(2.0, max, FirstClaim(), 1), map[]), tail, end)
    ensures Reaches(State(EMPTY, map[]), run, end)
  {
    OneJobClaims(max);
    var claim := Event(2.0, Claim(0, "dispatcher", {}));
    Prepend(State(OneJob(1.0, max, StoredRow(), 0), map[]), Whole(claim),
            State(OneJob(2.0, max, FirstClaim(), 1), map[]), tail, end);
    run := FromSubmission(max, [Whole(claim)] + tail, end);
  }

  ghost function Written(): World {
    CompleteWrite(OneJob(3.0, 1, FirstClaim(), 1), 0, FirstClaim(), NO_REPORT, 1.0)
  }

  function FirstCompletion(): Call {
    Completing(0, FirstClaim(), NO_REPORT, 1.0)
  }

  function StaleFailure(): Call {
    Failing(0, FirstClaim(), 1, "timed out")
  }

  /** The job has been claimed, and a completion and a failure have both read it. */
  ghost function BothRead(): State {
    State(OneJob(2.0, 1, FirstClaim(), 1), map[0 := FirstCompletion(), 1 := StaleFailure()])
  }

  lemma FromBothRead(tail: seq<Action>, end: State) returns (run: seq<Action>)
    requires Reaches(BothRead(), tail, end)
    ensures Reaches(State(EMPTY, map[]), run, end)
  {
    var w := OneJob(2.0, 1, FirstClaim(), 1);
    var s1 := State(w, map[0 := FirstCompletion()]);
    Prepend(s1, ReadToFail(1, 0, "timed out"), BothRead(), tail, end);
    run := [ReadToFail(1, 0, "timed out")] + tail;
    Prepend(State(w, map[]), ReadToComplete(0, 0, NO_REPORT, 1.0), s1, run, end);
    run := FromClaim(1, [ReadToComplete(0, 0, NO_REPORT, 1.0)] + run, end);
  }

  lemma CompletionThenFailure() returns (run: seq<Action>, end: State)
    ensures Reaches(BothRead(), run, end)
    ensures Undone(end.w, 0) && end.w.jobs[0].status == Pending && end.calls == map[]
  {
    var s3 := State(Written(), map[1 := StaleFailure()]);
    var row := FailWrite(Written().jobs[0], FirstClaim(), 1, "timed out", 4.0);
    end := State(Written().(clock := 4.0, jobs := map[0 := row]), map[]);
    assert BothRead().calls - {0} == s3.calls && s3.calls - {1} == map[];
    Prepend(s3, Commit(1, 4.0), end, [], end);
    Prepend(BothRead(), Commit(0, 3.0), s3, [Commit(1, 4.0)] + [], end);
    run := [Commit(0, 3.0)] + ([Commit(1, 4.0)] + []);
  }

  /**
   * The end of a run and the timeout sweep both read the job while it was processing; the completion
   * commits first and the failure afterwards. From then on the job is pending, has its result, and
   * over no further run does it complete.
   */
  lemma LateFailureUndoesCompletion() returns (run: seq<Action>)
    ensures S.Legal(State(EMPTY, map[]), run)
    ensures var s := S.Exec(State(EMPTY, map[]), run);
            && Undone(s.w, 0) && s.w.jobs[0].status == Pending && s.calls == map[]
            && forall more :: S.Legal(s, more) && 0 in S.Exec(s, more).w.jobs ==> Undone(S.Exec(s, more).w, 0)
  {
    var tail, end := CompletionThenFailure();
    run := FromBothRead(tail, end);
    ReachedIsSound(run, end);
    UndoneForGood(end);
  }

  lemma ReachedIsSound(run: seq<Action>, end: State)
    requires Reaches(State(EMPTY, map[]), run, end)
    ensures Sound(end)
  {
    RunKeepsSound(State(EMPTY, map[]), run);
  }

  lemma UndoneForGood(s: State)
    requires Sound(s) && Undone(s.w, 0)
    ensures forall more :: S.Legal(s, more) && 0 in S.Exec(s, more).w.jobs ==> Undone(S.Exec(s, more).w, 0)
  {
    forall more | S.Legal(s, more) && 0 in S.Exec(s, more).w.jobs
      ensures Undone(S.Exec(s, more).w, 0)
    {
      NeverCompletesAgain(s, more, 0);
    }
  }
}
