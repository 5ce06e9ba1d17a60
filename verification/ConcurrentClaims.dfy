/**
 * Dispatchers that claim at the same time. A claim picks and locks a row, passing over the rows
 * that others have locked, and later commits; in between, anything may happen to unlocked rows.
 */
module ConcurrentClaims {
  import opened JobTables

  type WorkerId = nat

  datatype Phase = Ready | Holding(id: JobId) | Claimed(id: JobId) | NoJob

  datatype State = State(jobs: map<JobId, Job>, locks: map<JobId, WorkerId>, workers: map<WorkerId, Phase>)

  /** `Write` is any other transaction's update or insert of one row; it has to wait for the row's lock. */
  datatype Step =
    | Pick(worker: WorkerId, id: JobId, at: real)
    | PickNothing(worker: WorkerId)
    | Commit(worker: WorkerId, at: real)
    | Abort(worker: WorkerId)
    | Again(worker: WorkerId)
    | Write(id: JobId, row: Job)

  /** The pending rows that no transaction has locked. */
  function Free(s: State): set<JobId> {
    PendingJobs(s.jobs) - s.locks.Keys
  }

  ghost predicate Enabled(s: State, step: Step) {
    match step
    case Pick(w, id, at) => w in s.workers && s.workers[w] == Ready && IsTop(s.jobs - s.locks.Keys, at, id)
    case PickNothing(w) => w in s.workers && s.workers[w] == Ready && Free(s) == {}
    case Commit(w, _) => w in s.workers && s.workers[w].Holding? && s.workers[w].id in s.jobs
    case Abort(w) => w in s.workers && s.workers[w].Holding?
    case Again(w) => w in s.workers && !s.workers[w].Holding?
    case Write(id, _) => id !in s.locks
  }

  ghost function Apply(s: State, step: Step): State
    requires Enabled(s, step)
  {
    match step
    case Pick(w, id, _) => s.(locks := s.locks[id := w], workers := s.workers[w := Holding(id)])
    case PickNothing(w) => s.(workers := s.workers[w := NoJob])
    case Commit(w, at) =>
      var id := s.workers[w].id;
      State(s.jobs[id := ClaimedRow(s.jobs[id], "", at)], s.locks - {id}, s.workers[w := Claimed(id)])
    case Abort(w) => s.(locks := s.locks - {s.workers[w].id}, workers := s.workers[w := Ready])
    case Again(w) => s.(workers := s.workers[w := Ready])
    case Write(id, row) => s.(jobs := s.jobs[id := row])
  }

  ghost predicate Legal(s: State, run: seq<Step>)
    decreases |run|
  {
    run == [] || (Enabled(s, run[0]) && Legal(Apply(s, run[0]), run[1..]))
  }

  ghost function Exec(s: State, run: seq<Step>): State
    requires Legal(s, run)
    decreases |run|
  {
    if run == [] then s else Exec(Apply(s, run[0]), run[1..])
  }

  // ---- Exclusion ----------------------------------------------------------------

  /** A lock belongs to exactly the worker that holds the job, and the locked row is still pending. */
  ghost predicate Exclusive(s: State) {
    && (forall id :: id in s.locks ==>
          s.locks[id] in s.workers && s.workers[s.locks[id]] == Holding(id) && IsPending(s.jobs, id))
    && (forall w :: w in s.workers && s.workers[w].Holding? ==>
          s.workers[w].id in s.locks && s.locks[s.workers[w].id] == w)
  }

  lemma StepKeepsExclusive(s: State, step: Step)
    requires Exclusive(s) && Enabled(s, step)
    ensures Exclusive(Apply(s, step))
  {
    match step {
      case Pick(w, id, at) => assert IsPending(s.jobs - s.locks.Keys, id);
      case _ =>
    }
  }

  /** In no run is a job ever held by two workers at once, nor a held job anything but pending. */
  lemma {:induction false} NeverHeldTwice(s: State, run: seq<Step>)
    requires Exclusive(s) && Legal(s, run)
    ensures Exclusive(Exec(s, run))
    ensures var e := Exec(s, run);
            forall v, w :: v in e.workers && w in e.workers && v != w && e.workers[v].Holding? ==>
                e.workers[v] != e.workers[w]
    decreases |run|
  {
    if run != [] {
      StepKeepsExclusive(s, run[0]);
      NeverHeldTwice(Apply(s, run[0]), run[1..]);
    }
  }

  predicate Commits(s: State, step: Step, id: JobId) {
    step.Commit? && step.worker in s.workers && s.workers[step.worker] == Holding(id)
  }

  /** How often the job is claimed in the run. */
  ghost function ClaimsOf(s: State, run: seq<Step>, id: JobId): nat
    requires Legal(s, run)
    decreases |run|
  {
    if run == [] then 0
    else (if Commits(s, run[0], id) then 1 else 0) + ClaimsOf(Apply(s, run[0]), run[1..], id)
  }

  /** How often another transaction makes the job pending again (or inserts it). */
  function RequeuesOf(run: seq<Step>, id: JobId): nat {
    if run == [] then 0
    else (if run[0].Write? && run[0].id == id && run[0].row.status == Pending then 1 else 0) + RequeuesOf(run[1..], id)
  }

  /** Claims never outnumber the times the job was made pending: one claim per pending spell. */
  lemma {:induction false} OneClaimPerSpell(s: State, run: seq<Step>, id: JobId)
    requires Exclusive(s) && Legal(s, run)
    ensures ClaimsOf(s, run, id) <= (if IsPending(s.jobs, id) then 1 else 0) + RequeuesOf(run, id)
    decreases |run|
  {
    if run != [] {
      StepKeepsExclusive(s, run[0]);
      OneClaimPerSpell(Apply(s, run[0]), run[1..], id);
    }
  }

  // ---- n workers at one instant --------------------------------------------------

  function Busy(s: State): set<WorkerId> {
    set w | w in s.workers && (s.workers[w].Holding? || s.workers[w].Claimed?)
  }

  predicate InBurst(step: Step, at: real) {
    (step.Pick? && step.at == at) || step.Commit? || step.PickNothing?
  }

  /** Only claims, all at the same time. */
  ghost predicate Burst(run: seq<Step>, at: real) {
    forall step :: step in run ==> InBurst(step, at)
  }

  /** The scores that the rows have at the instant of the burst. */
  function ScoresAt(jobs: map<JobId, Job>, at: real): map<JobId, real> {
    map id | id in jobs :: Score(jobs[id], at)
  }

  /** Of the rows pending at the start, the taken ones score at least as high as the free ones. */
  ghost predicate TopTaken(all: set<JobId>, free: set<JobId>, scores: map<JobId, real>) {
    && free <= all <= scores.Keys
    && forall c, k :: c in all - free && k in free ==> scores[k] <= scores[c]
  }

  ghost predicate FreeUnchanged(s: State, scores: map<JobId, real>, at: real) {
    forall id :: id in Free(s) ==> id in s.jobs && id in scores && Score(s.jobs[id], at) == scores[id]
  }

  /** As many jobs are taken as workers are busy, and nobody leaves with nothing while a job is free. */
  ghost predicate Counted(all: set<JobId>, s: State) {
    && |all| == |Free(s)| + |Busy(s)|
    && forall w :: w in s.workers && s.workers[w] == NoJob ==> Free(s) == {}
  }

  ghost predicate ClaimsDiffer(jobs0: map<JobId, Job>, s: State) {
    && PendingJobs(s.jobs) <= PendingJobs(jobs0)
    && (forall w :: w in s.workers && s.workers[w].Claimed? ==>
          s.workers[w].id in PendingJobs(jobs0) - PendingJobs(s.jobs))
    && (forall v, w :: v in s.workers && w in s.workers && v != w && s.workers[v].Claimed? ==>
         s.workers[v] != s.workers[w])
  }

  lemma PickTakesTop(all: set<JobId>, scores: map<JobId, real>, s: State, w: WorkerId, id: JobId, at: real)
    requires Enabled(s, Pick(w, id, at)) && TopTaken(all, Free(s), scores) && FreeUnchanged(s, scores, at)
    ensures id in Free(s) && TopTaken(all, Free(s) - {id}, scores)
  {
    assert IsPending(s.jobs - s.locks.Keys, id);
    assert id in Free(s);
    forall k | k in Free(s)
      ensures scores[k] <= scores[id]
    {
      assert IsPending(s.jobs - s.locks.Keys, k);
      assert (s.jobs - s.locks.Keys)[k] == s.jobs[k];
    }
  }

  lemma StepMovesFree(s: State, step: Step)
    requires Exclusive(s) && Enabled(s, step) && (step.Pick? ==> step.id in Free(s))
    ensures step.Pick? ==> Free(Apply(s, step)) == Free(s) - {step.id} && |Free(Apply(s, step))| == |Free(s)| - 1
    ensures step.Commit? || step.PickNothing? ==> Free(Apply(s, step)) == Free(s)
    ensures step.Pick? || step.PickNothing? ==> Apply(s, step).jobs == s.jobs
    ensures step.Commit? ==> forall id :: id in Free(s) ==> Apply(s, step).jobs[id] == s.jobs[id]
  {
  }

  lemma StepMovesBusy(s: State, step: Step)
    requires Enabled(s, step)
    ensures step.Pick? ==> |Busy(Apply(s, step))| == |Busy(s)| + 1
    ensures step.Commit? || step.PickNothing? ==> |Busy(Apply(s, step))| == |Busy(s)|
  {
    if step.Pick? {
      assert Busy(Apply(s, step)) == Busy(s) + {step.worker};
    } else if step.Commit? || step.PickNothing? {
      assert Busy(Apply(s, step)) == Busy(s);
    }
  }

  lemma PickIsFree(s: State, step: Step)
    requires Enabled(s, step) && step.Pick?
    ensures step.id in Free(s)
  {
    assert IsPending(s.jobs - s.locks.Keys, step.id);
  }

  lemma StepKeepsTop(all: set<JobId>, scores: map<JobId, real>, s: State, step: Step, at: real)
    requires Exclusive(s) && Enabled(s, step) && InBurst(step, at)
    requires TopTaken(all, Free(s), scores) && FreeUnchanged(s, scores, at)
    ensures TopTaken(all, Free(Apply(s, step)), scores) && FreeUnchanged(Apply(s, step), scores, at)
  {
    if step.Pick? {
      PickTakesTop(all, scores, s, step.worker, step.id, at);
    }
    StepMovesFree(s, step);
  }

  lemma {:induction false} BurstKeepsTop(all: set<JobId>, scores: map<JobId, real>, s: State, run: seq<Step>, at: real)
    requires Exclusive(s) && Legal(s, run) && Burst(run, at)
    requires TopTaken(all, Free(s), scores) && FreeUnchanged(s, scores, at)
    ensures TopTaken(all, Free(Exec(s, run)), scores)
    decreases |run|
  {
    if run != [] {
      StepKeepsExclusive(s, run[0]);
      StepKeepsTop(all, scores, s, run[0], at);
      BurstKeepsTop(all, scores, Apply(s, run[0]), run[1..], at);
    }
  }

  lemma StepConservesTotal(s: State, step: Step, at: real)
    requires Exclusive(s) && Enabled(s, step) && InBurst(step, at)
    ensures |Free(Apply(s, step))| + |Busy(Apply(s, step))| == |Free(s)| + |Busy(s)|
    ensures Apply(s, step).workers.Keys == s.workers.Keys
  {
    if step.Pick? {
      PickIsFree(s, step);
    }
    StepMovesFree(s, step);
    StepMovesBusy(s, step);
  }

  lemma NothingStaysNothing(s: State, step: Step, at: real)
    requires Exclusive(s) && Enabled(s, step) && InBurst(step, at)
    requires forall w :: w in s.workers && s.workers[w] == NoJob ==> Free(s) == {}
    ensures var v := Apply(s, step);
            forall w :: w in v.workers && v.workers[w] == NoJob ==> Free(v) == {}
  {
    if step.Pick? {
      PickIsFree(s, step);
    }
    StepMovesFree(s, step);
  }

  lemma StepKeepsCounted(all: set<JobId>, s: State, step: Step, at: real)
    requires Exclusive(s) && Enabled(s, step) && InBurst(step, at) && Counted(all, s)
    ensures Counted(all, Apply(s, step)) && Apply(s, step).workers.Keys == s.workers.Keys
  {
    StepConservesTotal(s, step, at);
    NothingStaysNothing(s, step, at);
  }

  lemma {:induction false} BurstKeepsCounted(all: set<JobId>, s: State, run: seq<Step>, at: real)
    requires Exclusive(s) && Legal(s, run) && Burst(run, at) && Counted(all, s)
    ensures Counted(all, Exec(s, run)) && Exec(s, run).workers.Keys == s.workers.Keys
    decreases |run|
  {
    if run != [] {
      StepKeepsExclusive(s, run[0]);
      StepKeepsCounted(all, s, run[0], at);
      BurstKeepsCounted(all, Apply(s, run[0]), run[1..], at);
    }
  }

  lemma StepKeepsClaims(jobs0: map<JobId, Job>, s: State, step: Step, at: real)
    requires Exclusive(s) && ClaimsDiffer(jobs0, s) && Enabled(s, step)
    requires InBurst(step, at)
    ensures ClaimsDiffer(jobs0, Apply(s, step))
  {
    if step.Commit? {
      assert s.workers[step.worker].id in PendingJobs(s.jobs);
      assert PendingJobs(Apply(s, step).jobs) == PendingJobs(s.jobs) - {s.workers[step.worker].id};
    }
  }

  lemma {:induction false} BurstKeepsClaims(jobs0: map<JobId, Job>, s: State, run: seq<Step>, at: real)
    requires Exclusive(s) && Legal(s, run) && Burst(run, at) && ClaimsDiffer(jobs0, s)
    ensures ClaimsDiffer(jobs0, Exec(s, run))
    decreases |run|
  {
    if run != [] {
      StepKeepsExclusive(s, run[0]);
      StepKeepsClaims(jobs0, s, run[0], at);
      BurstKeepsClaims(jobs0, Apply(s, run[0]), run[1..], at);
    }
  }

  function ClaimedBy(s: State): set<JobId> {
    set w | w in s.workers && s.workers[w].Claimed? :: s.workers[w].id
  }

  ghost predicate AllDone(s: State) {
    forall w :: w in s.workers ==> s.workers[w].Claimed? || s.workers[w].NoJob?
  }

  /**
   * n workers that claim at one instant, in any interleaving, end up with min(n, pending) different
   * jobs, one each, and these are a top set: no job left over scores higher than a job taken.
   */
  lemma ClaimsAreTheTop(s: State, run: seq<Step>, at: real)
    requires AtRest(s)
    requires Legal(s, run) && Burst(run, at) && AllDone(Exec(s, run))
    ensures var e, p := Exec(s, run), PendingJobs(s.jobs);
            && ClaimedBy(e) <= p
            && |ClaimedBy(e)| == (if |s.workers| <= |p| then |s.workers| else |p|)
            && (forall c, k :: c in ClaimedBy(e) && k in p - ClaimedBy(e) ==>
                 Score(s.jobs[k], at) <= Score(s.jobs[c], at))
            && (forall v, w :: v in e.workers && w in e.workers && v != w && e.workers[v].Claimed? ==>
                 e.workers[v] != e.workers[w])
  {
    var scores, e, p := ScoresAt(s.jobs, at), Exec(s, run), PendingJobs(s.jobs);
    RestStarts(s);
    BurstKeepsTop(p, scores, s, run, at);
    BurstEnd(s, run, at);
    CountClaims(s.jobs, e);
    forall c, k | c in ClaimedBy(e) && k in PendingJobs(s.jobs) - ClaimedBy(e)
      ensures Score(s.jobs[k], at) <= Score(s.jobs[c], at)
    {
      assert scores[k] <= scores[c];
    }
  }

  ghost predicate AtRest(s: State) {
    s.locks == map[] && forall w :: w in s.workers ==> s.workers[w] == Ready
  }

  lemma RestStarts(s: State)
    requires AtRest(s)
    ensures Exclusive(s) && Free(s) == PendingJobs(s.jobs) && Counted(PendingJobs(s.jobs), s) && ClaimsDiffer(s.jobs, s)
  {
    assert Busy(s) == {};
  }

  lemma BurstEnd(s: State, run: seq<Step>, at: real)
    requires Exclusive(s) && Counted(PendingJobs(s.jobs), s) && ClaimsDiffer(s.jobs, s)
    requires Legal(s, run) && Burst(run, at)
    ensures Counted(PendingJobs(s.jobs), Exec(s, run)) && Exec(s, run).workers.Keys == s.workers.Keys
    ensures ClaimsDiffer(s.jobs, Exec(s, run)) && Exclusive(Exec(s, run))
  {
    BurstKeepsCounted(PendingJobs(s.jobs), s, run, at);
    BurstKeepsClaims(s.jobs, s, run, at);
    NeverHeldTwice(s, run);
  }

  lemma CountClaims(jobs0: map<JobId, Job>, e: State)
    requires AllDone(e) && Counted(PendingJobs(jobs0), e) && ClaimsDiffer(jobs0, e) && Exclusive(e)
    ensures ClaimedBy(e) == PendingJobs(jobs0) - Free(e)
    ensures |ClaimedBy(e)| == if |e.workers| <= |PendingJobs(jobs0)| then |e.workers| else |PendingJobs(jobs0)|
  {
    ClaimedSize(jobs0, e);
    ClaimedWereFree(jobs0, e);
    TakenIsTheRest(PendingJobs(jobs0), Free(e), ClaimedBy(e));
    BusyOrEmpty(e);
  }

  lemma ClaimedSize(jobs0: map<JobId, Job>, e: State)
    requires AllDone(e) && ClaimsDiffer(jobs0, e)
    ensures |ClaimedBy(e)| == |Busy(e)|
  {
    assert ClaimedBy(e) == set w | w in Busy(e) :: e.workers[w].id;
    ImageSize(e, Busy(e));
  }

  lemma ClaimedWereFree(jobs0: map<JobId, Job>, e: State)
    requires AllDone(e) && ClaimsDiffer(jobs0, e) && Exclusive(e)
    ensures Free(e) <= PendingJobs(jobs0) && ClaimedBy(e) <= PendingJobs(jobs0) - Free(e)
  {
  }

  lemma TakenIsTheRest(all: set<JobId>, free: set<JobId>, taken: set<JobId>)
    requires free <= all && taken <= all - free && |all| == |free| + |taken|
    ensures taken == all - free
  {
    SplitSize(all, free);
    SplitSize(all - free, taken);
  }

  /** Either every worker got a job, or someone found nothing. */
  lemma BusyOrEmpty(e: State)
    requires AllDone(e)
    ensures |Busy(e)| <= |e.workers|
    ensures |Busy(e)| == |e.workers| || exists w :: w in e.workers && e.workers[w] == NoJob
  {
    SplitSize(e.workers.Keys, Busy(e));
    if forall w :: w in e.workers ==> e.workers[w].Claimed? {
      assert Busy(e) == e.workers.Keys;
    }
  }

  lemma SplitSize<T>(a: set<T>, b: set<T>)
    requires b <= a
    ensures |a| == |b| + |a - b| && (|a| == |b| ==> a == b)
  {
    assert a == b + (a - b);
  }

  lemma ImageSize(e: State, ws: set<WorkerId>)
    requires forall w :: w in ws ==> w in e.workers && e.workers[w].Claimed?
    requires forall v, w :: v in ws && w in ws && v != w ==> e.workers[v] != e.workers[w]
    ensures |set w | w in ws :: e.workers[w].id| == |ws|
    decreases |ws|
  {
    if ws != {} {
      var w :| w in ws;
      var rest := ws - {w};
      ImageSize(e, rest);
      assert (set u | u in ws :: e.workers[u].id) == (set u | u in rest :: e.workers[u].id) + {e.workers[w].id};
    }
  }
}
