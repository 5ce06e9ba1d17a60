/** How response ratios order two jobs over time, and when a waiting job is the next one claimed. */
module HrrnOrder {
  import opened Basics
  import opened JobTables
  import opened Lifecycle
  import opened LifecycleRuns

  function Wait(job: Job, at: real): real {
    at - job.submittedAt
  }

  /** Scores are compared by cross-multiplying waits with estimates. */
  lemma ScoreOrder(a: Job, b: Job, at: real)
    ensures Score(a, at) <= Score(b, at) <==>
              Wait(a, at) * b.estimatedRuntime <= Wait(b, at) * a.estimatedRuntime
  {
    var s, t := a.estimatedRuntime, b.estimatedRuntime;
    FractionOrder(Wait(a, at) + s, s, Wait(b, at) + t, t);
    assert (Wait(a, at) + s) * t == Wait(a, at) * t + s * t;
    assert (Wait(b, at) + t) * s == Wait(b, at) * s + s * t;
  }

  /** Between jobs with equal estimates the order is first come, first served. */
  lemma EqualEstimatesAreFifo(a: Job, b: Job, at: real)
    requires a.estimatedRuntime == b.estimatedRuntime
    ensures Score(a, at) <= Score(b, at) <==> b.submittedAt <= a.submittedAt
  {
    ScoreOrder(a, b, at);
    ScaleOrder(Wait(a, at), Wait(b, at), a.estimatedRuntime);
  }

  /** Once the shorter job is level with the longer one, it stays level or ahead. */
  lemma ShorterStaysAhead(a: Job, b: Job, at: real, later: real)
    requires a.estimatedRuntime <= b.estimatedRuntime && at <= later
    requires Score(b, at) <= Score(a, at)
    ensures Score(b, later) <= Score(a, later)
  {
    ScoreOrder(b, a, at);
    ScoreOrder(b, a, later);
    var d, s, t := later - at, a.estimatedRuntime, b.estimatedRuntime;
    assert Wait(b, later) * s == Wait(b, at) * s + d * s;
    assert Wait(a, later) * t == Wait(a, at) * t + d * t;
    assert d * s <= d * t by { assert d * (t - s) >= 0.0; }
  }

  /** Two jobs change places at most once over any run, retries included. */
  lemma OrderFlipsAtMostOnce(w: World, run: seq<Event>, a: JobId, b: JobId, at: real, later: real)
    requires Inv(w) && Legal(w, run) && a in w.jobs && b in w.jobs
    requires a in Exec(w, run).jobs && b in Exec(w, run).jobs
    requires w.jobs[a].estimatedRuntime <= w.jobs[b].estimatedRuntime && at <= later
    requires Score(w.jobs[b], at) <= Score(w.jobs[a], at)
    ensures Score(Exec(w, run).jobs[b], later) <= Score(Exec(w, run).jobs[a], later)
  {
    IdentityNeverChanges(w, run, a);
    IdentityNeverChanges(w, run, b);
    ShorterStaysAhead(w.jobs[a], w.jobs[b], at, later);
    SameTimesSameScore(w.jobs[a], Exec(w, run).jobs[a], later);
    SameTimesSameScore(w.jobs[b], Exec(w, run).jobs[b], later);
  }

  lemma SameTimesSameScore(a: Job, b: Job, at: real)
    requires a.submittedAt == b.submittedAt && a.estimatedRuntime == b.estimatedRuntime
    ensures Score(a, at) == Score(b, at)
  {
  }

  // ---- Aging --------------------------------------------------------------------

  /** How long job k must have waited to be level with job j. */
  function LevelWait(j: Job, k: Job, at: real): real {
    Wait(j, at) * k.estimatedRuntime / j.estimatedRuntime
  }

  lemma OutranksIff(j: Job, k: Job, at: real)
    ensures Score(k, at) < Score(j, at) <==> Wait(k, at) < LevelWait(j, k, at)
  {
    ScoreOrder(j, k, at);
    var s := j.estimatedRuntime;
    FractionOrder(Wait(j, at) * k.estimatedRuntime, s, Wait(k, at), 1.0);
    assert Wait(k, at) / 1.0 == Wait(k, at);
  }

  /** Exactly when job j must be claimed next: every other pending job has waited too briefly. */
  lemma ClaimedNextIff(jobs: map<JobId, Job>, at: real, j: JobId)
    requires IsPending(jobs, j)
    ensures (forall k :: IsTop(jobs, at, k) ==> k == j) && IsTop(jobs, at, j) <==>
            forall k :: IsPending(jobs, k) && k != j ==> Wait(jobs[k], at) < LevelWait(jobs[j], jobs[k], at)
  {
    forall k | IsPending(jobs, k)
      ensures Score(jobs[k], at) < Score(jobs[j], at) <==> Wait(jobs[k], at) < LevelWait(jobs[j], jobs[k], at)
    {
      OutranksIff(jobs[j], jobs[k], at);
    }
    if IsTop(jobs, at, j) && forall k :: IsTop(jobs, at, k) ==> k == j {
      forall k | IsPending(jobs, k) && k != j
        ensures Score(jobs[k], at) < Score(jobs[j], at)
      {
        if Score(jobs[k], at) == Score(jobs[j], at) {
          assert IsTop(jobs, at, k);
        }
      }
    }
  }

  /**
   * Aging: when no estimate is below m, whoever is claimed ahead of a pending job j has itself
   * waited at least m/S of j's own wait, so only jobs submitted early enough can overtake j.
   */
  lemma OvertakersHaveWaited(jobs: map<JobId, Job>, at: real, j: JobId, k: JobId, m: real)
    requires IsPending(jobs, j) && IsTop(jobs, at, k) && jobs[j].submittedAt <= at
    requires 0.0 < m <= jobs[k].estimatedRuntime
    ensures Wait(jobs[j], at) * m / jobs[j].estimatedRuntime <= Wait(jobs[k], at)
  {
    var wj, wk, s, t := Wait(jobs[j], at), Wait(jobs[k], at), jobs[j].estimatedRuntime, jobs[k].estimatedRuntime;
    ScoreOrder(jobs[j], jobs[k], at);
    assert wj * m <= wj * t by { assert wj * (t - m) >= 0.0; }
    FractionOrder(wj * m, s, wk, 1.0);
    assert wk / 1.0 == wk;
  }

  /** Hence a job is claimed next once every other pending job has waited less than that share. */
  lemma AgedJobIsNext(jobs: map<JobId, Job>, at: real, j: JobId, m: real)
    requires IsPending(jobs, j) && jobs[j].submittedAt <= at && m > 0.0
    requires forall k :: IsPending(jobs, k) ==> m <= jobs[k].estimatedRuntime
    requires forall k :: IsPending(jobs, k) && k != j ==>
               Wait(jobs[k], at) < Wait(jobs[j], at) * m / jobs[j].estimatedRuntime
    ensures forall k :: IsTop(jobs, at, k) ==> k == j
  {
    forall k | IsTop(jobs, at, k)
      ensures k == j
    {
      OvertakersHaveWaited(jobs, at, j, k, m);
    }
  }
}
