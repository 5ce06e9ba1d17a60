/**
 * How long a job can stay in processing when the timeout sweep runs often enough. The sweep looks at
 * one row after the other, and everybody, the sweep included, reads and writes at different times.
 */
module TimeoutSweep {
  import opened Basics
  import opened JobTables
  import opened Lifecycle
  import opened LifecycleRuns
  import opened StaleSnapshots
  import opened StaleRuns
  import opened StaleStatus
  import opened JobStore
  import S = StaleSnapshots

  /** After a sweep that nothing interrupts, no processing job had run past its limit when it began. */
  lemma SweptLeavesNoneStuck(w: World, v: World, from: real, to: real, id: JobId)
    requires Swept(w, v, from, to) && id in v.jobs && w.jobs[id].imageId in w.images
    ensures v.jobs[id].imageId in v.images
    ensures v.jobs[id].status == Processing && v.jobs[id].startedAt.Some? ==>
              from - v.jobs[id].startedAt.value <= (v.images[v.jobs[id].imageId].timeoutSeconds + 30) as real
    ensures v.jobs[id] != w.jobs[id] ==>
              && w.jobs[id].status == Processing && w.jobs[id].startedAt.Some? && v.jobs[id].status in {Pending, Failed}
              && to - w.jobs[id].startedAt.value > (w.images[w.jobs[id].imageId].timeoutSeconds + 30) as real
  {
    assert RowSwept(w.images, w.jobs[id], v.jobs[id], from, to);
    SweptRow(w.images, w.jobs[id], v.jobs[id], from, to);
  }

  // ---- Sweeps among the other actors ---------------------------------------------

  /**
   * A sweep that began at `from` has the rows in `todo`, as it listed them, still to deal with; it may
   * be about to write the failure of one of them.
   */
  datatype Progress = Idle | Sweeping(from: real, todo: map<JobId, Job>, writing: Option<CallId>)

  /** `last` is when the last sweep that reached its end had begun. */
  datatype Timeline = Timeline(s: State, last: real, sweep: Progress)

  /** A step of any other actor, or one of the sweep; an error anywhere abandons the sweep. */
  datatype Timed =
    | Act(action: Action)
    | Begin(at: real)
    | Examine(id: JobId, call: CallId, message: string, at: real)
    | Write(at: real)
    | Finish(at: real)
    | Abandon(at: real)

  function TimeOf(t: Timeline, step: Timed): real {
    match step
    case Act(Whole(e)) => e.at
    case Act(Commit(_, at)) => at
    case Act(_) => t.s.w.clock
    case _ => step.at
  }

  ghost predicate KeepsTimeout(w: World, a: Action) {
    a.Whole? && a.event.step.EditImage? && a.event.step.imageId in w.images ==>
      a.event.step.timeoutSeconds == w.images[a.event.step.imageId].timeoutSeconds
  }

  /** Timeouts are not edited. */
  ghost predicate Enabled(t: Timeline, step: Timed) {
    && t.s.w.clock <= TimeOf(t, step)
    && match step
       case Act(a) =>
         && S.Enabled(t.s, a) && KeepsTimeout(t.s.w, a)
         && (a.Commit? && t.sweep.Sweeping? ==> t.sweep.writing != Some(a.call))
       case Begin(_) => t.sweep.Idle?
       case Examine(id, c, _, _) =>
         t.sweep.Sweeping? && t.sweep.writing == None && id in t.sweep.todo && c !in t.s.calls
       case Write(_) => t.sweep.Sweeping? && t.sweep.writing.Some? && t.sweep.writing.value in t.s.calls
       case Finish(_) => t.sweep.Sweeping? && t.sweep.writing == None && t.sweep.todo == map[]
       case Abandon(_) => t.sweep.Sweeping?
  }

  function Tick(s: State, at: real): State {
    s.(w := s.w.(clock := at))
  }

  ghost function Listed(jobs: map<JobId, Job>): map<JobId, Job> {
    map id | id in jobs && jobs[id].status == Processing && jobs[id].startedAt.Some? :: jobs[id]
  }

  /** The age is that of the listed row; `markFailed` then reads the row as it is by now. */
  ghost function Examined(t: Timeline, id: JobId, c: CallId, message: string, at: real): Timeline
    requires Enabled(t, Examine(id, c, message, at))
  {
    var now := Tick(t.s, at);
    if !Stuck(now.w.images, t.sweep.todo[id], at) then Timeline(now, t.last, t.sweep.(todo := t.sweep.todo - {id}))
    else
      var read := S.Apply(now, ReadToFail(c, id, message));
      if c in read.calls then Timeline(read, t.last, t.sweep.(writing := Some(c)))
      else Timeline(read, t.last, t.sweep.(todo := t.sweep.todo - {id}))
  }

  ghost function Apply(t: Timeline, step: Timed): Timeline
    requires Enabled(t, step)
  {
    match step
    case Act(a) => t.(s := S.Apply(t.s, a))
    case Begin(at) => t.(s := Tick(t.s, at), sweep := Sweeping(at, Listed(t.s.w.jobs), None))
    case Examine(id, c, message, at) => Examined(t, id, c, message, at)
    case Write(at) =>
      var c := t.sweep.writing.value;
      Timeline(S.Apply(t.s, Commit(c, at)), t.last,
               t.sweep.(todo := t.sweep.todo - {t.s.calls[c].id}, writing := None))
    case Finish(at) => Timeline(Tick(t.s, at), t.sweep.from, Idle)
    case Abandon(at) => t.(s := Tick(t.s, at), sweep := Idle)
  }

  /** Sweeps reach their end often enough: nothing happens later than `period` after the last one's beginning. */
  ghost predicate Legal(t: Timeline, period: real, run: seq<Timed>)
    decreases |run|
  {
    run == [] ||
    (Enabled(t, run[0]) && TimeOf(t, run[0]) <= t.last + period && Legal(Apply(t, run[0]), period, run[1..]))
  }

  ghost function Exec(t: Timeline, period: real, run: seq<Timed>): Timeline
    requires Legal(t, period, run)
    decreases |run|
  {
    if run == [] then t else Exec(Apply(t, run[0]), period, run[1..])
  }

  // ---- The invariant -------------------------------------------------------------

  /** The job is processing and had run past its limit at `from`. */
  ghost predicate Late(w: World, job: Job, from: real) {
    job.status == Processing && job.startedAt.Some? && job.startedAt.value + StuckAfter(w.images, job) < from
  }

  predicate SameSpell(a: Job, b: Job) {
    a.startedAt == b.startedAt && a.imageId == b.imageId
  }

  /** Every late job is one that the sweep still has to deal with, in the spell that was listed. */
  ghost predicate OnTime(w: World, from: real, todo: map<JobId, Job>) {
    forall id :: id in w.jobs && Late(w, w.jobs[id], from) ==> id in todo && SameSpell(todo[id], w.jobs[id])
  }

  /** The failure that the sweep is about to write will end a late spell. */
  ghost predicate WillEnd(s: State, c: CallId, from: real) {
    && c in s.calls && s.calls[c].Failing?
    && var id := s.calls[c].id;
       id in s.w.jobs && Late(s.w, s.w.jobs[id], from) ==> s.calls[c].seen.status == Processing
  }

  ghost predicate ListedRows(w: World, todo: map<JobId, Job>) {
    forall id :: id in todo ==>
      todo[id].status == Processing && todo[id].startedAt.Some? && todo[id].imageId in w.images
  }

  ghost predicate TimedInv(t: Timeline) {
    && Sound(t.s) && t.last <= t.s.w.clock && OnTime(t.s.w, t.last, map[])
    && (t.sweep.Sweeping? ==>
          && ListedRows(t.s.w, t.sweep.todo) && t.last <= t.sweep.from <= t.s.w.clock
          && OnTime(t.s.w, t.sweep.from, t.sweep.todo)
          && (t.sweep.writing.Some? ==> WillEnd(t.s, t.sweep.writing.value, t.sweep.from)))
  }

  lemma LimitIsFixed(w: World, e: Event, job: Job)
    requires Lifecycle.Enabled(w, e) && KeepsTimeout(w, Whole(e)) && job.imageId in w.images
    ensures StuckAfter(Lifecycle.Apply(w, e).images, job) == StuckAfter(w.images, job)
  {
    match e.step {
      case MarkCompleted(id, report, runtime) =>
      case _ =>
    }
  }

  lemma WholeLateWasLate(w: World, e: Event, from: real, id: JobId)
    requires S.Enabled(State(w, map[]), Whole(e)) && KeepsTimeout(w, Whole(e)) && from <= w.clock
    requires id in w.jobs && RowSound(w, id) && id in Lifecycle.Apply(w, e).jobs
    requires Late(Lifecycle.Apply(w, e), Lifecycle.Apply(w, e).jobs[id], from)
    ensures Late(w, w.jobs[id], from) && SameSpell(w.jobs[id], Lifecycle.Apply(w, e).jobs[id])
  {
    ApplyRow(w, e, id);
    LimitIsFixed(w, e, w.jobs[id]);
    assert RowAfter(w, e, id).imageId == w.jobs[id].imageId;
  }

  lemma CommitLateWasLate(w: World, call: Call, from: real, id: JobId)
    requires CallSound(w, call) && id in w.jobs && id in CommitCall(w, call).jobs
    requires Late(CommitCall(w, call), CommitCall(w, call).jobs[id], from)
    ensures Late(w, w.jobs[id], from) && SameSpell(w.jobs[id], CommitCall(w, call).jobs[id])
    ensures call.Failing? && call.id == id ==> call.seen.status != Processing
  {
  }

  /** No step of anybody makes a job late: a late spell was late before. */
  lemma LateWasLate(s: State, a: Action, from: real, id: JobId)
    requires Sound(s) && S.Enabled(s, a) && KeepsTimeout(s.w, a) && from <= s.w.clock
    requires id in S.Apply(s, a).w.jobs && Late(S.Apply(s, a).w, S.Apply(s, a).w.jobs[id], from)
    ensures id in s.w.jobs && Late(s.w, s.w.jobs[id], from) && SameSpell(s.w.jobs[id], S.Apply(s, a).w.jobs[id])
  {
    match a
    case Whole(e) =>
      if id in s.w.jobs {
        assert RowSound(s.w, id);
        WholeLateWasLate(s.w, e, from, id);
      } else {
        NewRowIsPending(s.w, e, id);
      }
    case Commit(c, at) =>
      assert CallSound(s.w, s.calls[c]);
      CommitLateWasLate(s.w.(clock := at), s.calls[c], from, id);
    case _ =>
  }

  lemma StepStaysOnTime(s: State, a: Action, from: real, todo: map<JobId, Job>)
    requires Sound(s) && S.Enabled(s, a) && KeepsTimeout(s.w, a) && from <= s.w.clock && OnTime(s.w, from, todo)
    ensures OnTime(S.Apply(s, a).w, from, todo)
  {
    var v := S.Apply(s, a).w;
    forall id | id in v.jobs && Late(v, v.jobs[id], from)
      ensures id in todo && SameSpell(todo[id], v.jobs[id])
    {
      LateWasLate(s, a, from, id);
    }
  }

  lemma StepStillEnds(s: State, a: Action, from: real, c: CallId)
    requires Sound(s) && S.Enabled(s, a) && KeepsTimeout(s.w, a) && from <= s.w.clock && WillEnd(s, c, from)
    requires !(a.Commit? && a.call == c)
    ensures WillEnd(S.Apply(s, a), c, from)
  {
    var id := s.calls[c].id;
    if id in S.Apply(s, a).w.jobs && Late(S.Apply(s, a).w, S.Apply(s, a).w.jobs[id], from) {
      LateWasLate(s, a, from, id);
    }
  }

  lemma TickKeepsTiming(s: State, at: real)
    requires Sound(s) && s.w.clock <= at
    ensures Sound(Tick(s, at))
    ensures forall from, todo :: OnTime(s.w, from, todo) ==> OnTime(Tick(s, at).w, from, todo)
  {
    var v := Tick(s, at);
    assert forall id :: id in s.w.jobs ==> RowSound(s.w, id) && RowSound(v.w, id);
    assert forall c :: c in s.calls ==> CallSound(s.w, s.calls[c]) && CallSound(v.w, s.calls[c]);
    forall from, todo | OnTime(s.w, from, todo)
      ensures OnTime(v.w, from, todo)
    {
      assert forall id :: id in v.w.jobs && Late(v.w, v.w.jobs[id], from) ==> Late(s.w, s.w.jobs[id], from);
    }
  }

  lemma BeginListsAll(w: World, at: real)
    ensures OnTime(w, at, Listed(w.jobs))
  {
  }

  /** A row that is not late need not be looked at. */
  lemma OneFewer(w: World, from: real, todo: map<JobId, Job>, id: JobId)
    requires OnTime(w, from, todo) && (id in w.jobs ==> !Late(w, w.jobs[id], from))
    ensures OnTime(w, from, todo - {id})
  {
  }

  lemma YoungIsNotLate(w: World, from: real, todo: map<JobId, Job>, id: JobId, at: real)
    requires OnTime(w, from, todo) && from <= at && id in todo && todo[id].startedAt.Some?
    requires todo[id].status == Processing && !Stuck(w.images, todo[id], at)
    ensures id in w.jobs ==> !Late(w, w.jobs[id], from)
  {
  }

  lemma ExamineKeeps(t: Timeline, id: JobId, c: CallId, message: string, at: real)
    requires TimedInv(t) && Enabled(t, Examine(id, c, message, at))
    ensures TimedInv(Apply(t, Examine(id, c, message, at)))
  {
    var now, from, todo := Tick(t.s, at), t.sweep.from, t.sweep.todo;
    TickKeepsTiming(t.s, at);
    if !Stuck(now.w.images, todo[id], at) {
      YoungIsNotLate(now.w, from, todo, id, at);
      OneFewer(now.w, from, todo, id);
    } else {
      ReadKeepsSound(now, ReadToFail(c, id, message));
      if id !in now.w.jobs || now.w.jobs[id].status == Completed {
        OneFewer(now.w, from, todo, id);
      }
    }
  }

  lemma WriteKeeps(t: Timeline, at: real)
    requires TimedInv(t) && Enabled(t, Write(at))
    ensures TimedInv(Apply(t, Write(at)))
  {
    var c, from, todo := t.sweep.writing.value, t.sweep.from, t.sweep.todo;
    var id, v := t.s.calls[c].id, S.Apply(t.s, Commit(c, at));
    CommitKeepsSound(t.s, c, at);
    StepStaysOnTime(t.s, Commit(c, at), t.last, map[]);
    StepStaysOnTime(t.s, Commit(c, at), from, todo);
    if id in v.w.jobs && Late(v.w, v.w.jobs[id], from) {
      LateWasLate(t.s, Commit(c, at), from, id);
      assert CallSound(t.s.w, t.s.calls[c]);
      CommitLateWasLate(t.s.w.(clock := at), t.s.calls[c], from, id);
      assert false;
    }
    OneFewer(v.w, from, todo, id);
  }

  lemma ListedStay(s: State, a: Action, todo: map<JobId, Job>)
    requires S.Enabled(s, a) && ListedRows(s.w, todo)
    ensures ListedRows(S.Apply(s, a).w, todo)
  {
    forall id | id in todo
      ensures todo[id].imageId in S.Apply(s, a).w.images
    {
      if a.Whole? {
        RetryLimitIsFixed(s.w, a.event, todo[id].imageId);
      }
    }
  }

  lemma ActKeepsSweep(t: Timeline, a: Action)
    requires TimedInv(t) && Enabled(t, Act(a)) && t.sweep.Sweeping?
    ensures var v := S.Apply(t.s, a);
            && ListedRows(v.w, t.sweep.todo) && OnTime(v.w, t.sweep.from, t.sweep.todo)
            && (t.sweep.writing.Some? ==> WillEnd(v, t.sweep.writing.value, t.sweep.from))
  {
    ListedStay(t.s, a, t.sweep.todo);
    StepStaysOnTime(t.s, a, t.sweep.from, t.sweep.todo);
    if t.sweep.writing.Some? {
      StepStillEnds(t.s, a, t.sweep.from, t.sweep.writing.value);
    }
  }

  lemma ActKeeps(t: Timeline, a: Action)
    requires TimedInv(t) && Enabled(t, Act(a))
    ensures TimedInv(Apply(t, Act(a)))
  {
    StepKeepsSound(t.s, a);
    StepStaysOnTime(t.s, a, t.last, map[]);
    ClockOfAction(t, a);
    if t.sweep.Sweeping? {
      ActKeepsSweep(t, a);
    }
  }

  lemma ClockOfAction(t: Timeline, a: Action)
    requires Enabled(t, Act(a))
    ensures S.Apply(t.s, a).w.clock == TimeOf(t, Act(a))
  {
    if a.Whole? {
      ClockIsTime(t.s.w, a.event);
    }
  }

  lemma StepKeepsTimedInv(t: Timeline, step: Timed)
    requires TimedInv(t) && Enabled(t, step)
    ensures TimedInv(Apply(t, step))
  {
    match step
    case Act(a) => ActKeeps(t, a);
    case Examine(id, c, message, at) => ExamineKeeps(t, id, c, message, at);
    case Write(at) => WriteKeeps(t, at);
    case Begin(at) =>
      TickKeepsTiming(t.s, at);
      BeginListsAll(Tick(t.s, at).w, at);
    case Finish(at) => TickKeepsTiming(t.s, at);
    case Abandon(at) => TickKeepsTiming(t.s, at);
  }

  lemma ClockAdvances(t: Timeline, step: Timed)
    requires Enabled(t, step)
    ensures Apply(t, step).s.w.clock == TimeOf(t, step)
  {
    match step {
      case Act(a) => ClockOfAction(t, a);
      case _ =>
    }
  }

  lemma {:induction false} TimedRunKeepsInv(t: Timeline, period: real, run: seq<Timed>)
    requires TimedInv(t) && Legal(t, period, run) && t.s.w.clock <= t.last + period
    ensures TimedInv(Exec(t, period, run))
    ensures Exec(t, period, run).s.w.clock <= Exec(t, period, run).last + period
    decreases |run|
  {
    if run != [] {
      StepKeepsTimedInv(t, run[0]);
      ClockAdvances(t, run[0]);
      TimedRunKeepsInv(Apply(t, run[0]), period, run[1..]);
    }
  }

  ghost function Beginning(): Timeline {
    Timeline(State(EMPTY, map[]), 0.0, Idle)
  }

  /**
   * In every timed run, whatever the other actors do while sweeps are under way and however late
   * anybody writes, no job with a start time has been in its current processing spell for longer than
   * its timeout, the grace period of 30 seconds and the sweep period together.
   */
  lemma ProcessingIsBounded(period: real, run: seq<Timed>, id: JobId)
    requires period >= 0.0 && Legal(Beginning(), period, run)
    requires var v := Exec(Beginning(), period, run).s.w;
             id in v.jobs && v.jobs[id].status == Processing && v.jobs[id].startedAt.Some?
    ensures var v := Exec(Beginning(), period, run).s.w;
            && v.jobs[id].imageId in v.images
            && v.clock - v.jobs[id].startedAt.value <=
                 (v.images[v.jobs[id].imageId].timeoutSeconds + 30) as real + period
  {
    TimedRunKeepsInv(Beginning(), period, run);
    var t := Exec(Beginning(), period, run);
    assert RowSound(t.s.w, id);
    assert !Late(t.s.w, t.s.w.jobs[id], t.last);
  }

  // ---- Jobs without a start time ---------------------------------------------------

  /** The write of the step, if it is one, takes a processing row's start time (StaleStatus.LosesStart). */
  ghost predicate Loses(t: Timeline, step: Timed)
    requires Enabled(t, step)
  {
    match step
    case Act(a) => LosesStart(t.s, a)
    case Write(at) => LosesStart(t.s, Commit(t.sweep.writing.value, at))
    case _ => false
  }

  ghost predicate NeverLoses(t: Timeline, period: real, run: seq<Timed>)
    requires Legal(t, period, run)
    decreases |run|
  {
    run == [] || (!Loses(t, run[0]) && NeverLoses(Apply(t, run[0]), period, run[1..]))
  }

  lemma StepKeepsAllStarted(t: Timeline, step: Timed)
    requires TimedInv(t) && Enabled(t, step) && AllStarted(t.s.w)
    ensures AllStarted(Apply(t, step).s.w) <==> !Loses(t, step)
  {
    match step
    case Act(a) => StepKeepsStartedIff(t.s, a);
    case Write(at) => StepKeepsStartedIff(t.s, Commit(t.sweep.writing.value, at));
    case _ =>
  }

  lemma {:induction false} RunKeepsAllStarted(t: Timeline, period: real, run: seq<Timed>)
    requires TimedInv(t) && Legal(t, period, run) && AllStarted(t.s.w) && NeverLoses(t, period, run)
    ensures AllStarted(Exec(t, period, run).s.w)
    decreases |run|
  {
    if run != [] {
      StepKeepsTimedInv(t, run[0]);
      StepKeepsAllStarted(t, run[0]);
      RunKeepsAllStarted(Apply(t, run[0]), period, run[1..]);
    }
  }

  /** As long as no write takes a start time, the bound holds for every processing job. */
  lemma EveryProcessingIsBounded(period: real, run: seq<Timed>, id: JobId)
    requires period >= 0.0 && Legal(Beginning(), period, run) && NeverLoses(Beginning(), period, run)
    requires var v := Exec(Beginning(), period, run).s.w; id in v.jobs && v.jobs[id].status == Processing
    ensures var v := Exec(Beginning(), period, run).s.w;
            && v.jobs[id].startedAt.Some? && v.jobs[id].imageId in v.images
            && v.clock - v.jobs[id].startedAt.value <=
                 (v.images[v.jobs[id].imageId].timeoutSeconds + 30) as real + period
  {
    RunKeepsAllStarted(Beginning(), period, run);
    ProcessingIsBounded(period, run, id);
  }

  /** A job without a start time is not listed: no sweep deals with it. */
  lemma StartlessIsNeverSwept(t: Timeline, id: JobId, at: real)
    requires Enabled(t, Begin(at)) && id in t.s.w.jobs && t.s.w.jobs[id].startedAt == None
    ensures id !in Apply(t, Begin(at)).sweep.todo
  {
  }

  // ---- The sweep spares the young --------------------------------------------------

  /** Whoever is under way besides: the sweep turns to failing a job iff the spell that it listed is old enough. */
  lemma SweepSparesTheYoung(period: real, run: seq<Timed>, id: JobId, c: CallId, message: string, at: real)
    requires period >= 0.0 && Legal(Beginning(), period, run)
    requires Enabled(Exec(Beginning(), period, run), Examine(id, c, message, at))
    ensures var t := Exec(Beginning(), period, run);
            var listed, v := t.sweep.todo[id], Apply(t, Examine(id, c, message, at));
            && listed.startedAt.Some? && listed.imageId in t.s.w.images && v.sweep.Sweeping?
            && v.s.w.jobs == t.s.w.jobs
            && (v.sweep.writing == Some(c) <==>
                  && at - listed.startedAt.value > (t.s.w.images[listed.imageId].timeoutSeconds + 30) as real
                  && id in t.s.w.jobs && t.s.w.jobs[id].status != Completed)
            && (v.sweep.writing == None <==> v.sweep.writing != Some(c))
  {
    TimedRunKeepsInv(Beginning(), period, run);
  }

  /** And it fails nobody without turning to it first: the sweep's own steps change no row but by such a write. */
  lemma OnlyWritesFail(t: Timeline, step: Timed, id: JobId)
    requires TimedInv(t) && Enabled(t, step) && !step.Act? && id in t.s.w.jobs
    ensures id in Apply(t, step).s.w.jobs
    ensures Apply(t, step).s.w.jobs[id] != t.s.w.jobs[id] ==>
              step.Write? && t.s.calls[t.sweep.writing.value].id == id
  {
  }
}
