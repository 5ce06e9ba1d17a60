/**
 * Permanent overload starves a long job, although the service keeps up with its work: one job at
 * a time is processed, each completes within a second, and the queue only grows.
 */
module Starvation {
  import opened Basics
  import opened JobTables
  import opened Lifecycle
  import opened HrrnOrder

  const LONG: ImageId := 0
  const SHORT: ImageId := 1

  /** A job of 100 seconds submitted first; then a job of 1 second every half second. */
  function OverloadRow(id: JobId): Job {
    var row := if id == 0 then NewRow(LONG, 100.0, None, 0.0) else NewRow(SHORT, 1.0, None, id as real / 2.0);
    row.(source := Stored("input"))
  }

  function ServedRow(id: JobId): Job {
    CompletedRow(ClaimedRow(OverloadRow(id), "dispatcher", id as real), 1.0, id as real + 1.0)
  }

  /** The row at second n, when jobs 1..n-1 have been claimed and completed, one each second. */
  function RowAt(n: nat, id: JobId): Job {
    if 0 < id < n then ServedRow(id) else OverloadRow(id)
  }

  lemma LowerScore(a: Job, b: Job, at: real, x: real, s: Estimate)
    requires x >= 1.0 && Wait(a, at) == x / 2.0 && a.estimatedRuntime == 1.0 && b.estimatedRuntime == s
    requires (s == 100.0 && Wait(b, at) == x) || (s == 1.0 && Wait(b, at) < x / 2.0)
    ensures Score(b, at) < Score(a, at)
  {
    ScoreOrder(a, b, at);
    assert Wait(b, at) * 1.0 == Wait(b, at);
    if s == 100.0 {
      assert x / 2.0 * 100.0 == 50.0 * x;
    }
  }

  lemma ShortScoresMore(n: nat, at: real, k: JobId)
    requires n >= 1 && at == n as real && RowAt(n, k).status == Pending && k != n
    ensures Score(RowAt(n, k), at) < Score(RowAt(n, n), at)
  {
    LowerScore(RowAt(n, n), RowAt(n, k), at, n as real, if k == 0 then 100.0 else 1.0);
  }

  // ---- The same as states of the whole queue -------------------------------------

  /** One image for the long job, and one for the short ones, of which `served` have completed. */
  function Images(served: nat): map<ImageId, Image> {
    map[LONG := Image(60, 0, 100.0, None, 0, true),
        SHORT := Image(60, 0, 1.0, if served == 0 then None else Some(1.0), served, true)]
  }

  ghost predicate RowsAt(jobs: map<JobId, Job>, n: nat) {
    && (forall k: JobId :: k in jobs <==> k <= 2 * n)
    && forall k: JobId :: k in jobs ==> jobs[k] == RowAt(n, k)
  }

  /** The queue at second n. */
  ghost predicate AtSecond(w: World, n: nat) {
    && n >= 1 && w.clock == n as real && w.nextId == 2 * n + 1 && w.uploading == {} && w.images == Images(n - 1)
    && RowsAt(w.jobs, n)
    && (forall k: JobId :: k <= 2 * n ==> k in w.claims && w.claims[k] == if 0 < k < n then 1 else 0)
    && (forall k: JobId :: k in w.results ==> k < n)
  }

  ghost function Claimed(w: World, id: JobId): World
    requires id in w.jobs
  {
    w.(jobs := w.jobs[id := ClaimedRow(w.jobs[id], "dispatcher", w.clock)], claims := w.claims[id := 1])
  }

  /** A short job has been submitted and its files have been stored. */
  ghost function Arrived(w: World, at: real): World {
    w.(clock := at, jobs := w.jobs[w.nextId := NewRow(SHORT, 1.0, None, at).(source := Stored("input"))],
       claims := w.claims[w.nextId := 0], uploading := {}, nextId := w.nextId + 1)
  }

  ghost function Served(w: World, id: JobId, served: nat): World
    requires id in w.jobs
  {
    w.(jobs := w.jobs[id := CompletedRow(w.jobs[id], 1.0, w.clock)], results := w.results[id := NO_REPORT],
       images := Images(served + 1), completions := w.completions + [Completion(id, SHORT, 1.0)])
  }

  /** What the sweep and a dispatcher with a limit of one see: at most one job is processing, for at most a second. */
  ghost predicate Light(w: World) {
    forall k, l :: k in w.jobs && w.jobs[k].status == Processing && l in w.jobs && w.jobs[l].status == Processing ==>
      k == l && w.jobs[k].startedAt.Some? && w.clock - w.jobs[k].startedAt.value <= 1.0
  }

  ghost predicate LightThroughout(w: World, run: seq<Event>)
    requires Legal(w, run)
    decreases |run|
  {
    Light(w) && (run != [] ==> LightThroughout(Apply(w, run[0]), run[1..]))
  }

  /** A run together with the states it passes through. */
  datatype Trace = Trace(run: seq<Event>, worlds: seq<World>)

  /** A run from the empty database to `w` that is light throughout. */
  ghost predicate LightRun(t: Trace, w: World) {
    && |t.worlds| == |t.run| + 1 && t.worlds[0] == EMPTY && t.worlds[|t.run|] == w
    && (forall i :: 0 <= i < |t.run| ==> Leads(t.worlds[i], t.run[i], t.worlds[i + 1]))
    && (forall i :: 0 <= i < |t.worlds| ==> Light(t.worlds[i]))
  }

  lemma Append(t: Trace, w: World, e: Event, v: World) returns (longer: Trace)
    requires LightRun(t, w) && Leads(w, e, v) && Light(v)
    ensures LightRun(longer, v)
  {
    longer := Trace(t.run + [e], t.worlds + [v]);
  }

  lemma {:induction false} TraceIsRun(t: Trace, w: World, k: nat)
    requires LightRun(t, w) && k <= |t.run|
    ensures Legal(t.worlds[k], t.run[k..]) && Exec(t.worlds[k], t.run[k..]) == w
    ensures LightThroughout(t.worlds[k], t.run[k..])
    decreases |t.run| - k
  {
    if k < |t.run| {
      TraceIsRun(t, w, k + 1);
      assert Leads(t.worlds[k], t.run[k], t.worlds[k + 1]);
      assert t.run[k..][0] == t.run[k] && t.run[k..][1..] == t.run[k + 1..];
    }
  }

  // ---- One second of overload ----------------------------------------------------

  /** Only job n is processing, since second n. */
  ghost predicate OnlyBusy(w: World, n: nat) {
    && n as real <= w.clock <= n as real + 1.0
    && forall k :: k in w.jobs && w.jobs[k].status == Processing ==> k == n && w.jobs[k].startedAt == Some(n as real)
  }

  lemma ClaimLeads(w: World, id: JobId)
    requires IsTop(w.jobs, w.clock, id) && id in w.claims && w.claims[id] == 0
    ensures Leads(w, Event(w.clock, Claim(id, "dispatcher", {})), Claimed(w, id))
  {
    assert w.jobs - {} == w.jobs;
  }

  lemma BusyIsLight(w: World, n: nat)
    requires OnlyBusy(w, n)
    ensures Light(w)
  {
  }

  /** A state in which second n begins. */
  ghost predicate Begins(w: World, n: nat) {
    && n in w.jobs && w.jobs[n] == OverloadRow(n) && w.clock == n as real && IsTop(w.jobs, w.clock, n)
    && (forall k :: k in w.jobs ==> k < w.nextId && w.jobs[k].status != Processing)
    && n in w.claims && w.claims[n] == 0 && n !in w.results && w.uploading == {} && n >= 1
    && w.images == Images(n - 1)
  }

  /** At every second the one job that can be claimed is a short one. */
  lemma ShortJobIsNext(w: World, n: nat)
    requires AtSecond(w, n)
    ensures IsTop(w.jobs, w.clock, n) && forall k :: IsTop(w.jobs, w.clock, k) ==> k == n
  {
    forall k | IsPending(w.jobs, k) && k != n
      ensures Score(w.jobs[k], w.clock) < Score(w.jobs[n], w.clock)
    {
      ShortScoresMore(n, w.clock, k);
    }
  }

  lemma SecondBegins(w: World, n: nat)
    requires AtSecond(w, n)
    ensures Begins(w, n)
  {
    ShortJobIsNext(w, n);
  }

  lemma ClaimShort(w: World, n: nat, run: Trace) returns (longer: Trace)
    requires Begins(w, n) && LightRun(run, w)
    ensures LightRun(longer, Claimed(w, n)) && OnlyBusy(Claimed(w, n), n)
  {
    ClaimLeads(w, n);
    BusyIsLight(Claimed(w, n), n);
    longer := Append(run, w, Event(w.clock, Claim(n, "dispatcher", {})), Claimed(w, n));
  }

  ghost predicate TakesShort(images: map<ImageId, Image>) {
    SHORT in images && Admission(images, SHORT) == Ok(1.0)
  }

  lemma SubmitLeads(w: World, at: real) returns (mid: World)
    requires w.clock <= at && TakesShort(w.images) && w.uploading == {}
    ensures Leads(w, Event(at, Submit(SHORT, None)), mid)
    ensures Leads(mid, Event(at, FinishUpload(w.nextId, "input")), Arrived(w, at))
    ensures mid == Arrived(w, at).(jobs := mid.jobs, uploading := {w.nextId})
    ensures mid.jobs == w.jobs[w.nextId := NewRow(SHORT, 1.0, None, at)]
  {
    mid := Apply(w, Event(at, Submit(SHORT, None)));
  }

  lemma Arrival(n: nat, w: World, at: real, run: Trace) returns (longer: Trace)
    requires LightRun(run, w) && w.clock <= at <= n as real + 1.0 && TakesShort(w.images) && w.uploading == {}
    requires OnlyBusy(w, n) && w.nextId !in w.jobs
    ensures LightRun(longer, Arrived(w, at)) && OnlyBusy(Arrived(w, at), n)
  {
    var mid := SubmitLeads(w, at);
    longer := Append(run, w, Event(at, Submit(SHORT, None)), mid);
    longer := Append(longer, mid, Event(at, FinishUpload(w.nextId, "input")), Arrived(w, at));
  }

  lemma MeanOfOnes(n: nat)
    requires n > 0
    ensures n as real / n as real == 1.0
  {
  }

  lemma RecordShort(served: nat)
    ensures RecordRuntime(Images(served)[SHORT], 1.0) == Images(served + 1)[SHORT]
    ensures TakesShort(Images(served))
  {
    if served > 0 {
      MeanOfOnes(served + 1);
    }
  }

  lemma ServeLeads(w: World, id: JobId, served: nat)
    requires id in w.jobs && w.jobs[id].status == Processing && w.jobs[id].imageId == SHORT && id !in w.results
    requires w.images == Images(served)
    ensures Leads(w, Event(w.clock, MarkCompleted(id, NO_REPORT, 1.0)), Served(w, id, served))
  {
    RecordShort(served);
    assert Images(served)[SHORT := Images(served + 1)[SHORT]] == Images(served + 1);
  }

  lemma Serve(w: World, n: nat, served: nat, run: Trace) returns (longer: Trace)
    requires LightRun(run, w) && OnlyBusy(w, n)
    requires n in w.jobs && w.jobs[n].status == Processing && w.jobs[n].imageId == SHORT && n !in w.results
    requires w.images == Images(served)
    ensures LightRun(longer, Served(w, n, served))
  {
    ServeLeads(w, n, served);
    longer := Append(run, w, Event(w.clock, MarkCompleted(n, NO_REPORT, 1.0)), Served(w, n, served));
  }

  lemma ArrivalsMatch(n: nat)
    ensures OverloadRow(2 * n + 1) == NewRow(SHORT, 1.0, None, n as real + 0.5).(source := Stored("input"))
    ensures OverloadRow(2 * n + 2) == NewRow(SHORT, 1.0, None, n as real + 1.0).(source := Stored("input"))
  {
  }

  ghost function Waiting(w: World, n: nat): World
    requires Begins(w, n)
  {
    Arrived(Arrived(Claimed(w, n), n as real + 0.5), n as real + 1.0)
  }

  lemma WaitingIs(w: World, n: nat)
    requires Begins(w, n)
    ensures Waiting(w, n) ==
              w.(clock := n as real + 1.0, nextId := w.nextId + 2,
                  claims := w.claims[n := 1][w.nextId := 0][w.nextId + 1 := 0],
                 jobs := w.jobs[n := ClaimedRow(OverloadRow(n), "dispatcher", n as real)]
                               [w.nextId := NewRow(SHORT, 1.0, None, n as real + 0.5).(source := Stored("input"))]
                               [w.nextId + 1 := NewRow(SHORT, 1.0, None, n as real + 1.0).(source := Stored("input"))])
    ensures n in Waiting(w, n).jobs && Waiting(w, n).jobs[n] == ClaimedRow(OverloadRow(n), "dispatcher", n as real)
    ensures n !in Waiting(w, n).results && Waiting(w, n).images == Images(n - 1)
  {
    assert n < w.nextId;
  }

  lemma FreshIds(w: World, n: nat)
    requires Begins(w, n)
    ensures var w1 := Claimed(w, n);
            && w1.nextId !in w1.jobs && w1.uploading == {} && w1.images == Images(n - 1) && w1.clock == n as real
            && forall at :: Arrived(w1, at).nextId !in Arrived(w1, at).jobs
  {
  }

  lemma FirstArrival(w: World, n: nat, run: Trace) returns (longer: Trace)
    requires Begins(w, n) && LightRun(run, Claimed(w, n)) && OnlyBusy(Claimed(w, n), n)
    ensures LightRun(longer, Arrived(Claimed(w, n), n as real + 0.5)) &&
              OnlyBusy(Arrived(Claimed(w, n), n as real + 0.5), n)
  {
    RecordShort(n - 1);
    FreshIds(w, n);
    longer := Arrival(n, Claimed(w, n), n as real + 0.5, run);
  }

  lemma SecondArrival(w: World, n: nat, run: Trace) returns (longer: Trace)
    requires Begins(w, n) && LightRun(run, Arrived(Claimed(w, n), n as real + 0.5))
    requires OnlyBusy(Arrived(Claimed(w, n), n as real + 0.5), n)
    ensures LightRun(longer, Waiting(w, n)) && OnlyBusy(Waiting(w, n), n)
  {
    RecordShort(n - 1);
    FreshIds(w, n);
    longer := Arrival(n, Arrived(Claimed(w, n), n as real + 0.5), n as real + 1.0, run);
  }

  lemma ServeWaiting(w: World, n: nat, before: Trace) returns (run: Trace)
    requires Begins(w, n) && LightRun(before, Waiting(w, n)) && OnlyBusy(Waiting(w, n), n)
    ensures n in Waiting(w, n).jobs && LightRun(run, Served(Waiting(w, n), n, n - 1))
  {
    WaitingIs(w, n);
    run := Serve(Waiting(w, n), n, n - 1, before);
  }

  /** One more second of overload: a claim, two arrivals half a second apart, and the completion. */
  lemma Second(w: World, n: nat, before: Trace) returns (run: Trace)
    requires Begins(w, n) && LightRun(before, w)
    ensures n in Waiting(w, n).jobs && LightRun(run, Served(Waiting(w, n), n, n - 1))
  {
    run := ClaimShort(w, n, before);
    run := FirstArrival(w, n, run);
    run := SecondArrival(w, n, run);
    run := ServeWaiting(w, n, run);
  }

  lemma ServedIs(w: World, n: nat)
    requires Begins(w, n)
    ensures n in Waiting(w, n).jobs
    ensures Served(Waiting(w, n), n, n - 1) ==
              World(n as real + 1.0,
                    w.jobs[n := ClaimedRow(OverloadRow(n), "dispatcher", n as real)]
                          [w.nextId := NewRow(SHORT, 1.0, None, n as real + 0.5).(source := Stored("input"))]
                          [w.nextId + 1 := NewRow(SHORT, 1.0, None, n as real + 1.0).(source := Stored("input"))]
                          [n := ServedRow(n)],
                    w.results[n := NO_REPORT], Images(n), w.nextId + 2, {},
                    w.claims[n := 1][w.nextId := 0][w.nextId + 1 := 0], w.completions + [Completion(n, SHORT, 1.0)])
  {
    WaitingIs(w, n);
  }

  lemma RowsEnd(jobs: map<JobId, Job>, after: map<JobId, Job>, n: nat, m: nat, claimed: Job, first: Job, second: Job)
    requires n >= 1 && m == 2 * n + 1 && RowsAt(jobs, n)
    requires first == OverloadRow(m) && second == OverloadRow(m + 1)
    requires after == jobs[n := claimed][m := first][m + 1 := second][n := ServedRow(n)]
    ensures RowsAt(after, n + 1)
  {
  }

  lemma ClaimsEnd(claims: map<JobId, nat>, n: nat, m: nat)
    requires n >= 1 && m == 2 * n + 1
    requires forall k: JobId :: k <= 2 * n ==> k in claims && claims[k] == if 0 < k < n then 1 else 0
    ensures var after := claims[n := 1][m := 0][m + 1 := 0];
            forall k: JobId :: k <= 2 * n + 2 ==> k in after && after[k] == if 0 < k < n + 1 then 1 else 0
  {
  }

  ghost function Next(w: World, n: nat, m: nat): World {
    World(n as real + 1.0,
          w.jobs[n := ClaimedRow(OverloadRow(n), "dispatcher", n as real)]
                [m := OverloadRow(m)][m + 1 := OverloadRow(m + 1)][n := ServedRow(n)],
          w.results[n := NO_REPORT], Images(n), m + 2, {},
          w.claims[n := 1][m := 0][m + 1 := 0], w.completions + [Completion(n, SHORT, 1.0)])
  }

  lemma ServedIsNext(w: World, n: nat)
    requires Begins(w, n) && w.nextId == 2 * n + 1
    ensures n in Waiting(w, n).jobs
    ensures Served(Waiting(w, n), n, n - 1) == Next(w, n, w.nextId)
  {
    ServedIs(w, n);
    ArrivalsMatch(n);
  }

  lemma SecondEnds(w: World, n: nat, v: World)
    requires AtSecond(w, n) && v == Next(w, n, w.nextId)
    ensures AtSecond(v, n + 1)
  {
    RowsEnd(w.jobs, v.jobs, n, w.nextId, ClaimedRow(OverloadRow(n), "dispatcher", n as real),
            OverloadRow(w.nextId), OverloadRow(w.nextId + 1));
    ClaimsEnd(w.claims, n, w.nextId);
  }

  lemma OverloadGoesOn(n: nat, w: World, before: Trace) returns (run: Trace, v: World)
    requires AtSecond(w, n) && LightRun(before, w)
    ensures AtSecond(v, n + 1) && LightRun(run, v)
  {
    SecondBegins(w, n);
    run := Second(w, n, before);
    ServedIsNext(w, n);
    v := Next(w, n, w.nextId);
    SecondEnds(w, n, v);
  }

  /** Two images and the long job. */
  lemma LongJobArrives() returns (t: Trace)
    ensures LightRun(t, OverloadStart())
  {
    var long, short := Event(0.0, AddImage(LONG, 60, 0, 100.0)), Event(0.0, AddImage(SHORT, 60, 0, 1.0));
    var first, stored := Event(0.0, Submit(LONG, None)), Event(0.0, FinishUpload(0, "input"));
    var w1 := Apply(EMPTY, long);
    var w2 := Apply(w1, short);
    var w3 := Apply(w2, first);
    t := Append(Trace([], [EMPTY]), EMPTY, long, w1);
    t := Append(t, w1, short, w2);
    t := Append(t, w2, first, w3);
    t := Append(t, w3, stored, OverloadStart());
  }

  /** And two short ones by the end of the first second. */
  lemma OverloadBegins() returns (t: Trace, w: World)
    ensures AtSecond(w, 1) && LightRun(t, w)
  {
    t := LongJobArrives();
    t := Arrival(0, OverloadStart(), 0.5, t);
    t := Arrival(0, Arrived(OverloadStart(), 0.5), 1.0, t);
    w := Arrived(Arrived(OverloadStart(), 0.5), 1.0);
    StartMatches();
  }

  ghost function OverloadStart(): World {
    World(0.0, map[0 := OverloadRow(0)], map[], Images(0), 1, {}, map[0 := 0], [])
  }

  lemma StartMatches()
    ensures AtSecond(Arrived(Arrived(OverloadStart(), 0.5), 1.0), 1)
  {
    ArrivalsMatch(0);
    var w := Arrived(Arrived(OverloadStart(), 0.5), 1.0);
    assert w.jobs.Keys == {0, 1, 2};
  }

  lemma {:induction false} OverloadRun(n: nat) returns (t: Trace, w: World)
    requires n >= 1
    ensures AtSecond(w, n) && LightRun(t, w)
  {
    if n == 1 {
      t, w := OverloadBegins();
    } else {
      t, w := OverloadRun(n - 1);
      t, w := OverloadGoesOn(n - 1, w, t);
    }
  }

  /** Seen from second n: the first job still waits, unclaimed, and n - 1 later ones have been served. */
  ghost predicate Starved(w: World, n: nat) {
    && IsPending(w.jobs, 0) && 0 in w.claims && w.claims[0] == 0 && Wait(w.jobs[0], w.clock) == n as real
    && forall k: JobId :: 0 < k < n ==>
         k in w.jobs && w.jobs[k].status == Completed && w.jobs[0].submittedAt < w.jobs[k].submittedAt
  }

  lemma OverloadIsStarved(w: World, n: nat)
    requires AtSecond(w, n)
    ensures Starved(w, n)
  {
    assert 0 in w.jobs && w.jobs[0] == RowAt(n, 0);
    forall k: JobId | 0 < k < n
      ensures k in w.jobs && w.jobs[k].status == Completed && w.jobs[0].submittedAt < w.jobs[k].submittedAt
    {
      assert k in w.jobs && w.jobs[k] == RowAt(n, k);
    }
  }

  /**
   * For every n there is a run that ends so, in which no job is ever processed for more than a
   * second and never two at a time: nothing bounds how often a job is overtaken.
   */
  lemma LongJobStarves(n: nat) returns (run: seq<Event>)
    requires n >= 1
    ensures Legal(EMPTY, run) && LightThroughout(EMPTY, run) && Starved(Exec(EMPTY, run), n)
  {
    var t, w := OverloadRun(n);
    TraceIsRun(t, w, 0);
    run := t.run;
    assert run[0..] == run;
    OverloadIsStarved(w, n);
  }
}
