/**
 * How often a pending job can be overtaken over a whole run in which all calls read and write at
 * different times.
 */
module Overtaking {
  import opened Basics
  import opened JobTables
  import opened Lifecycle
  import opened LifecycleRuns
  import opened StaleSnapshots
  import opened StaleRuns
  import opened StaleAttempts
  import opened HrrnOrder
  import S = StaleSnapshots

  /** Jobs submitted later than this cannot be claimed ahead of `j` by time `at`, if no estimate is below m. */
  function Cutoff(j: Job, at: real, m: real): real {
    at - Wait(j, at) * m / j.estimatedRuntime
  }

  lemma CutoffGrows(j: Job, at: real, later: real, m: real)
    requires 0.0 < m <= j.estimatedRuntime && at <= later
    ensures Cutoff(j, at, m) <= Cutoff(j, later, m)
  {
    var s: real, d := j.estimatedRuntime, later - at;
    FractionOrder(d * m, s, d, 1.0);
    assert d * m <= d * s by { assert d * (s - m) >= 0.0; }
    assert d / 1.0 == d;
    assert Wait(j, later) * m == Wait(j, at) * m + d * m;
    assert (Wait(j, at) * m + d * m) / s == Wait(j, at) * m / s + d * m / s;
  }

  /** A claim of another job while j is pending. */
  ghost predicate Overtakes(s: State, a: Action, j: JobId) {
    a.Whole? && a.event.step.Claim? && a.event.step.id != j && IsPending(s.w.jobs, j)
  }

  ghost predicate OvertakesWith(s: State, a: Action, j: JobId, ids: set<JobId>) {
    Overtakes(s, a, j) && a.event.step.id in ids
  }

  /** How often the run overtakes j. */
  ghost function Overtakings(s: State, run: seq<Action>, j: JobId): nat
    requires S.Legal(s, run)
    decreases |run|
  {
    if run == [] then 0
    else (if Overtakes(s, run[0], j) then 1 else 0) + Overtakings(S.Apply(s, run[0]), run[1..], j)
  }

  /** How often with one of the given jobs. */
  ghost function OvertakingsWith(s: State, run: seq<Action>, j: JobId, ids: set<JobId>): nat
    requires S.Legal(s, run)
    decreases |run|
  {
    if run == [] then 0
    else (if OvertakesWith(s, run[0], j, ids) then 1 else 0) + OvertakingsWith(S.Apply(s, run[0]), run[1..], j, ids)
  }

  // ---- Each job overtakes at most once per attempt ---------------------------------

  ghost function ClaimsOf(w: World, k: JobId): nat {
    if k in w.claims then w.claims[k] else 0
  }

  ghost predicate IdsInUse(w: World) {
    forall k :: k in w.claims ==> k < w.nextId
  }

  lemma WholeCountsClaims(w: World, e: Event, k: JobId)
    requires Lifecycle.Enabled(w, e) && IdsInUse(w)
    ensures ClaimsOf(Lifecycle.Apply(w, e), k) == ClaimsOf(w, k) + (if e.step.Claim? && e.step.id == k then 1 else 0)
    ensures IdsInUse(Lifecycle.Apply(w, e)) || (e.step.Claim? && e.step.id !in w.claims)
  {
    match e.step {
      case Submit(i, url) =>
      case _ =>
    }
  }

  lemma StepCountsClaims(s: State, a: Action, k: JobId)
    requires Sound(s) && S.Enabled(s, a) && IdsInUse(s.w)
    ensures var claims := ClaimsOf(S.Apply(s, a).w, k);
            claims == ClaimsOf(s.w, k) + if a.Whole? && a.event.step.Claim? && a.event.step.id == k then 1 else 0
    ensures IdsInUse(S.Apply(s, a).w)
  {
    if a.Whole? {
      WholeCountsClaims(s.w, a.event, k);
      if a.event.step.Claim? {
        assert RowSound(s.w, a.event.step.id);
        ClaimedIdsInUse(s.w, a.event);
      }
    }
  }

  lemma ClaimedIdsInUse(w: World, e: Event)
    requires Lifecycle.Enabled(w, e) && e.step.Claim? && IdsInUse(w) && e.step.id < w.nextId
    ensures IdsInUse(Lifecycle.Apply(w, e))
  {
  }

  /** Each overtaking shows in the count of claims of the job that overtook. */
  lemma {:induction false} OvertakingsOfOne(s: State, run: seq<Action>, j: JobId, k: JobId)
    requires Sound(s) && IdsInUse(s.w) && S.Legal(s, run)
    ensures OvertakingsWith(s, run, j, {k}) + ClaimsOf(s.w, k) <= ClaimsOf(S.Exec(s, run).w, k)
    decreases |run|
  {
    if run != [] {
      StepKeepsSound(s, run[0]);
      StepCountsClaims(s, run[0], k);
      OvertakingsOfOne(S.Apply(s, run[0]), run[1..], j, k);
    }
  }

  lemma {:induction false} OvertakingsSplit(s: State, run: seq<Action>, j: JobId, ids: set<JobId>, k: JobId)
    requires S.Legal(s, run) && k in ids
    ensures OvertakingsWith(s, run, j, ids) == OvertakingsWith(s, run, j, ids - {k}) + OvertakingsWith(s, run, j, {k})
    decreases |run|
  {
    if run != [] {
      OvertakingsSplit(S.Apply(s, run[0]), run[1..], j, ids, k);
    }
  }

  lemma {:induction false} NoneOfNobody(s: State, run: seq<Action>, j: JobId)
    requires S.Legal(s, run)
    ensures OvertakingsWith(s, run, j, {}) == 0
    decreases |run|
  {
    if run != [] {
      NoneOfNobody(S.Apply(s, run[0]), run[1..], j);
    }
  }

  ghost predicate EachAtMost(s: State, run: seq<Action>, j: JobId, ids: set<JobId>, attempts: nat)
    requires S.Legal(s, run)
  {
    forall k :: k in ids ==> OvertakingsWith(s, run, j, {k}) <= attempts
  }

  lemma {:induction false} OvertakingsOfMany(s: State, run: seq<Action>, j: JobId, ids: set<JobId>, attempts: nat)
    requires S.Legal(s, run) && EachAtMost(s, run, j, ids, attempts)
    ensures OvertakingsWith(s, run, j, ids) <= |ids| * attempts
    decreases |ids|
  {
    if ids == {} {
      NoneOfNobody(s, run, j);
    } else {
      var k :| k in ids;
      OvertakingsSplit(s, run, j, ids, k);
      OvertakingsOfMany(s, run, j, ids - {k}, attempts);
      assert |ids| == |ids - {k}| + 1;
      TimesNext(|ids - {k}|, attempts);
    }
  }

  /** The claims of a job, also once its row is gone. */
  ghost predicate ClaimsWithin(w: World, k: JobId, bound: nat) {
    ClaimsOf(w, k) <= bound
  }

  lemma StepKeepsClaimsWithin(s: State, a: Action, k: JobId, slack: nat, retries: nat)
    requires Sound(s) && IdsInUse(s.w) && S.Enabled(s, a) && AttemptsOk(s.w, k, slack) && LimitsAtMost(s.w, retries)
    requires ClaimsWithin(s.w, k, 1 + retries + slack)
    ensures ClaimsWithin(S.Apply(s, a).w, k, 1 + retries + slack)
  {
    StepCountsClaims(s, a, k);
    if a.Whole? && a.event.step.Claim? && a.event.step.id == k {
      assert IsPending(s.w.jobs - a.event.step.locked, k);
      assert RowSound(s.w, k);
    }
  }

  lemma {:induction false} ClaimsWithinLag(s: State, run: seq<Action>, k: JobId, slack: nat, retries: nat)
    requires Sound(s) && IdsInUse(s.w) && S.Legal(s, run) && AttemptsOk(s.w, k, slack)
    requires LimitsAtMost(S.Exec(s, run).w, retries) && ClaimsWithin(s.w, k, 1 + retries + slack)
    ensures ClaimsWithin(S.Exec(s, run).w, k, 1 + retries + slack + Lag(s, run, k))
    ensures Sound(S.Exec(s, run)) && IdsInUse(S.Exec(s, run).w)
    decreases |run|
  {
    if run != [] {
      LimitsWereAtMost(s, run, retries);
      StepKeepsClaimsWithin(s, run[0], k, slack, retries);
      StepKeepsAttempts(s, run[0], k, slack);
      StepKeepsSound(s, run[0]);
      StepCountsClaims(s, run[0], k);
      ClaimsWithinLag(S.Apply(s, run[0]), run[1..], k, slack + LagOf(s, run[0], k), retries);
    }
  }

  lemma LimitsWereAtMost(s: State, run: seq<Action>, retries: nat)
    requires S.Legal(s, run) && LimitsAtMost(S.Exec(s, run).w, retries)
    ensures LimitsAtMost(s.w, retries)
  {
    forall i | i in s.w.images
      ensures s.w.images[i].maxRetries <= retries
    {
      LimitsStay(s, run, i);
    }
  }

  // ---- Only early jobs overtake ----------------------------------------------------

  /** No pending estimate is below m, and the jobs submitted by `until` are among `early`. */
  ghost predicate Bounded(w: World, m: real, early: set<JobId>, until: real) {
    && (forall k :: IsPending(w.jobs, k) ==> m <= w.jobs[k].estimatedRuntime)
    && (forall k :: k in w.jobs && w.jobs[k].submittedAt <= until ==> k in early)
  }

  ghost predicate PassesOver(a: Action, j: JobId) {
    a.Whole? && a.event.step.Claim? && j in a.event.step.locked
  }

  /** In every state of the run; and no other transaction holds a lock on j while a claim is made. */
  ghost predicate BoundedThroughout(s: State, run: seq<Action>, j: JobId, m: real, early: set<JobId>, until: real)
    requires S.Legal(s, run)
    decreases |run|
  {
    && Bounded(s.w, m, early, until)
    && (run != [] ==>
          !PassesOver(run[0], j) && BoundedThroughout(S.Apply(s, run[0]), run[1..], j, m, early, until))
  }

  lemma PassingOverLocks(w: World, e: Event, j: JobId, m: real)
    requires Lifecycle.Enabled(w, e) && e.step.Claim? && j !in e.step.locked && IsPending(w.jobs, j)
    requires w.jobs[j].submittedAt <= w.clock && m > 0.0
    ensures IsPending(w.jobs, e.step.id)
    ensures m <= w.jobs[e.step.id].estimatedRuntime ==> w.jobs[e.step.id].submittedAt <= Cutoff(w.jobs[j], e.at, m)
  {
    var free, k := w.jobs - e.step.locked, e.step.id;
    assert IsTop(free, e.at, k) && IsPending(free, j);
    if m <= w.jobs[k].estimatedRuntime {
      OvertakersHaveWaited(free, e.at, j, k, m);
    }
  }

  /** The job is the one described, as long as it is there. */
  ghost predicate SameIdentity(w: World, j: JobId, job: Job) {
    && j < w.nextId && job.submittedAt <= w.clock
    && (j in w.jobs ==> w.jobs[j].submittedAt == job.submittedAt && w.jobs[j].estimatedRuntime == job.estimatedRuntime)
  }

  lemma SameCutoff(a: Job, b: Job, at: real, m: real)
    requires a.submittedAt == b.submittedAt && a.estimatedRuntime == b.estimatedRuntime
    ensures Cutoff(a, at, m) == Cutoff(b, at, m)
  {
  }

  /** Whoever overtakes by time t was submitted by the cutoff. */
  lemma OvertakerIsEarly(w: World, e: Event, j: JobId, job: Job, m: real, early: set<JobId>, t: real)
    requires Lifecycle.Enabled(w, e) && e.step.Claim? && IsPending(w.jobs, j) && j !in e.step.locked
    requires e.at <= t && m > 0.0 && SameIdentity(w, j, job) && Bounded(w, m, early, Cutoff(job, t, m))
    ensures e.step.id in early
  {
    PassingOverLocks(w, e, j, m);
    CutoffGrows(w.jobs[j], e.at, t, m);
    SameCutoff(w.jobs[j], job, t, m);
  }

  lemma WholeKeepsIdentity(w: World, e: Event, j: JobId, job: Job)
    requires S.Enabled(State(w, map[]), Whole(e)) && SameIdentity(w, j, job)
    ensures SameIdentity(Lifecycle.Apply(w, e), j, job)
  {
    if j in w.jobs && j in Lifecycle.Apply(w, e).jobs {
      ApplyRow(w, e, j);
    } else if j !in w.jobs {
      LifecycleRuns.StepKeepsGone(w, e, j);
    }
    IdsGrow(w, e);
    ClockIsTime(w, e);
  }

  lemma StepKeepsIdentity(s: State, a: Action, j: JobId, job: Job)
    requires S.Enabled(s, a) && SameIdentity(s.w, j, job)
    ensures SameIdentity(S.Apply(s, a).w, j, job)
  {
    if a.Whole? {
      WholeKeepsIdentity(s.w, a.event, j, job);
    }
  }

  lemma StepAdvances(s: State, a: Action)
    requires S.Enabled(s, a)
    ensures s.w.clock <= S.Apply(s, a).w.clock
    ensures a.Whole? ==> S.Apply(s, a).w.clock == a.event.at
  {
    if a.Whole? {
      ClockIsTime(s.w, a.event);
    }
  }

  lemma {:induction false} ClockGrows(s: State, run: seq<Action>)
    requires S.Legal(s, run)
    ensures s.w.clock <= S.Exec(s, run).w.clock
    decreases |run|
  {
    if run != [] {
      StepAdvances(s, run[0]);
      ClockGrows(S.Apply(s, run[0]), run[1..]);
    }
  }

  lemma {:induction false} OvertakersAreEarly(s: State, run: seq<Action>, j: JobId, job: Job, m: real,
      early: set<JobId>, t: real)
    requires S.Legal(s, run) && m > 0.0 && S.Exec(s, run).w.clock <= t && SameIdentity(s.w, j, job)
    requires BoundedThroughout(s, run, j, m, early, Cutoff(job, t, m))
    ensures Overtakings(s, run, j) == OvertakingsWith(s, run, j, early)
    decreases |run|
  {
    if run != [] {
      StepAdvances(s, run[0]);
      ClockGrows(S.Apply(s, run[0]), run[1..]);
      if Overtakes(s, run[0], j) {
        OvertakerIsEarly(s.w, run[0].event, j, job, m, early, t);
      }
      StepKeepsIdentity(s, run[0], j, job);
      OvertakersAreEarly(S.Apply(s, run[0]), run[1..], j, job, m, early, t);
    }
  }

  // ---- From an empty database ------------------------------------------------------

  /** The retries that overtaken failures of the job had missed, from the beginning to the end of the run. */
  ghost function LagOverall(start: seq<Action>, run: seq<Action>, k: JobId): nat
    requires S.Legal(State(EMPTY, map[]), start) && S.Legal(S.Exec(State(EMPTY, map[]), start), run)
  {
    Lag(State(EMPTY, map[]), start, k) + Lag(S.Exec(State(EMPTY, map[]), start), run, k)
  }

  lemma ClaimsFromEmpty(start: seq<Action>, k: JobId, retries: nat)
    requires S.Legal(State(EMPTY, map[]), start) && LimitsAtMost(S.Exec(State(EMPTY, map[]), start).w, retries)
    ensures var s, lag := S.Exec(State(EMPTY, map[]), start), Lag(State(EMPTY, map[]), start, k);
            Sound(s) && IdsInUse(s.w) && AttemptsOk(s.w, k, lag) && ClaimsWithin(s.w, k, 1 + retries + lag)
  {
    ClaimsWithinLag(State(EMPTY, map[]), start, k, 0, retries);
    AttemptsWithinLag(State(EMPTY, map[]), start, k, 0);
  }

  lemma EachIsBounded(start: seq<Action>, s: State, run: seq<Action>, j: JobId, ids: set<JobId>, retries: nat,
      late: nat)
    requires S.Legal(State(EMPTY, map[]), start) && s == S.Exec(State(EMPTY, map[]), start) && S.Legal(s, run)
    requires LimitsAtMost(S.Exec(s, run).w, retries)
    requires forall k :: k in ids ==> LagOverall(start, run, k) <= late
    ensures EachAtMost(s, run, j, ids, 1 + retries + late)
  {
    LimitsWereAtMost(s, run, retries);
    forall k | k in ids
      ensures OvertakingsWith(s, run, j, {k}) <= 1 + retries + late
    {
      ClaimsFromEmpty(start, k, retries);
      ClaimsWithinLag(s, run, k, Lag(State(EMPTY, map[]), start, k), retries);
      OvertakingsOfOne(s, run, j, k);
    }
  }

  /**
   * At most once per attempt: with no more than `retries` retries, and failures that have missed no more
   * than `late` retries of a job, a set of jobs overtakes j at most 1 + retries + late times each. When
   * calls are not interrupted, `late` is 0.
   */
  lemma AtMostOncePerAttempt(start: seq<Action>, run: seq<Action>, j: JobId, ids: set<JobId>, retries: nat, late: nat)
    requires S.Legal(State(EMPTY, map[]), start)
    requires var s := S.Exec(State(EMPTY, map[]), start);
             S.Legal(s, run) && LimitsAtMost(S.Exec(s, run).w, retries)
    requires forall k :: k in ids ==> LagOverall(start, run, k) <= late
    ensures OvertakingsWith(S.Exec(State(EMPTY, map[]), start), run, j, ids) <= |ids| * (1 + retries + late)
  {
    var s := S.Exec(State(EMPTY, map[]), start);
    EachIsBounded(start, s, run, j, ids, retries, late);
    OvertakingsOfMany(s, run, j, ids, 1 + retries + late);
  }

  /**
   * Aging over whole runs: if no pending estimate is below m, job j is overtaken, while it is pending,
   * only by jobs submitted by the cutoff, and by each of them at most once per attempt. So a finite
   * number of early submissions bounds it.
   */
  lemma OvertakingsAreBounded(start: seq<Action>, run: seq<Action>, j: JobId, m: real, early: set<JobId>,
      retries: nat, late: nat)
    requires S.Legal(State(EMPTY, map[]), start)
    requires var s := S.Exec(State(EMPTY, map[]), start);
             && S.Legal(s, run) && LimitsAtMost(S.Exec(s, run).w, retries) && m > 0.0
             && j in s.w.jobs
             && BoundedThroughout(s, run, j, m, early, Cutoff(s.w.jobs[j], S.Exec(s, run).w.clock, m))
    requires forall k :: k in early ==> LagOverall(start, run, k) <= late
    ensures var s := S.Exec(State(EMPTY, map[]), start);
            Overtakings(s, run, j) == OvertakingsWith(s, run, j, early) <= |early| * (1 + retries + late)
  {
    var s := S.Exec(State(EMPTY, map[]), start);
    AtMostOncePerAttempt(start, run, j, early, retries, late);
    ReachedIsSound(start, s);
    assert RowSound(s.w, j);
    OvertakersAreEarly(s, run, j, s.w.jobs[j], m, early, S.Exec(s, run).w.clock);
  }
}
