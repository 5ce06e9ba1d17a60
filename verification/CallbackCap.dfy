/** How many delivery attempts a job can get, with the configured maximum and deliverers that overlap. */
module CallbackCap {
  import opened Basics
  import opened CallbackDelivery

  function InFlight(s: State, j: JobId): set<DelivererId> {
    set d | d in s.running && s.running[d].job == j
  }

  function Logged(s: State, j: JobId): nat {
    if j in s.jobs then |s.jobs[j].log| else 0
  }

  /** At every moment of the run at most `width` deliverers are in flight for the job. */
  predicate AtMost(s: State, run: seq<Step>, j: JobId, width: nat)
    requires Legal(s, run)
    decreases |run|
  {
    |InFlight(s, j)| <= width && (run != [] ==> AtMost(Apply(s, run[0]), run[1..], j, width))
  }

  predicate Capped(s: State, j: JobId, width: nat) {
    Logged(s, j) + |InFlight(s, j)| <= Ceil(s.max) - 1 + width
  }

  /** Besides the two steps that start a delivery, no step adds to what is logged or in flight. */
  lemma OthersDoNotAdd(s: State, step: Step, j: JobId)
    requires Inv(s) && Enabled(s, step) && !step.Enlist? && !step.Complete?
    ensures Logged(Apply(s, step), j) + |InFlight(Apply(s, step), j)| <= Logged(s, j) + |InFlight(s, j)|
  {
    FlightsMove(s, step, j);
    if step.Commit? {
      assert s.running[step.deliverer].job == j ==> step.deliverer in InFlight(s, j);
    } else {
      assert Logged(Apply(s, step), j) <= Logged(s, j);
    }
  }

  lemma FlightsMove(s: State, step: Step, j: JobId)
    requires Enabled(s, step) && !step.Enlist? && !step.Complete?
    ensures var after := InFlight(Apply(s, step), j);
            after == if step.Commit? || step.Crash? then InFlight(s, j) - {step.deliverer}
                     else if step.Check? && step.deliverer !in Apply(s, step).running
                     then InFlight(s, j) - {step.deliverer}
                     else InFlight(s, j)
  {
    match step {
      case Check(d, ok) =>
      case Commit(d) =>
      case _ =>
    }
  }

  /**
   * The retry cap under concurrency: with at most D deliverers in flight for a job at any time,
   * logged plus in-flight attempts never exceed max - 1 + D (max rounded up).
   */
  lemma {:induction false} RetryCap(s: State, run: seq<Step>, j: JobId, width: nat)
    requires s.max > 0.0 && Inv(s) && Legal(s, run) && AtMost(s, run, j, width)
    requires Capped(s, j, width)
    ensures Capped(Exec(s, run), j, width)
    decreases |run|
  {
    if run != [] {
      var v := Apply(s, run[0]);
      StepKeepsInv(s, run[0]);
      match run[0] {
        case Enlist(d, k) => assert k != j ==> InFlight(v, j) == InFlight(s, j);
        case Complete(k, d) => assert k != j ==> InFlight(v, j) == InFlight(s, j);
        case _ => OthersDoNotAdd(s, run[0], j);
      }
      RetryCap(v, run[1..], j, width);
    }
  }

  /** In particular a lone deliverer at a time never logs more than the configured maximum. */
  lemma LoneLoopStaysWithinMax(max: real, run: seq<Step>, j: JobId)
    requires max > 0.0 && Legal(Initial(max), run) && AtMost(Initial(max), run, j, 1)
    ensures Logged(Exec(Initial(max), run), j) <= Ceil(max)
  {
    MaxIsFixed(Initial(max), run);
    RetryCap(Initial(max), run, j, 1);
  }

  lemma {:induction false} MaxIsFixed(s: State, run: seq<Step>)
    requires Legal(s, run)
    ensures Exec(s, run).max == s.max
    decreases |run|
  {
    if run != [] {
      MaxIsFixed(Apply(s, run[0]), run[1..]);
    }
  }

  // ---- One retry loop and the immediate deliveries --------------------------------

  /**
   * The passes of the retry loop do not overlap: it starts a delivery for a job only when none of
   * its own is in flight for it. `loop` are the deliverers that it started.
   */
  predicate SerialPasses(s: State, run: seq<Step>, loop: set<DelivererId>)
    requires Legal(s, run)
    decreases |run|
  {
    run == [] ||
    (PassMayStart(s, run[0], loop) && SerialPasses(Apply(s, run[0]), run[1..], LoopAfter(run[0], loop)))
  }

  predicate PassMayStart(s: State, step: Step, loop: set<DelivererId>) {
    step.Enlist? ==> InFlight(s, step.job) !! loop
  }

  function LoopAfter(step: Step, loop: set<DelivererId>): set<DelivererId> {
    match step
    case Enlist(d, _) => loop + {d}
    case Complete(_, d) => loop - {d}
    case _ => loop
  }

  /** At most one delivery of each kind is in flight, and an immediate one only for a job with its result. */
  ghost predicate Narrow(s: State, loop: set<DelivererId>, j: JobId) {
    && (forall d, e :: d in InFlight(s, j) && e in InFlight(s, j) && (d in loop <==> e in loop) ==> d == e)
    && (forall d :: d in InFlight(s, j) && d !in loop ==> j < s.nextId && (j in s.jobs ==> s.jobs[j].hasResult))
  }

  lemma NarrowIsTwo(s: State, loop: set<DelivererId>, j: JobId)
    requires Narrow(s, loop, j)
    ensures |InFlight(s, j)| <= 2
  {
    var all := InFlight(s, j);
    var passes, immediate := all * loop, all - loop;
    assert all == passes + immediate;
    AtMostOne(passes);
    AtMostOne(immediate);
  }

  lemma AtMostOne(ds: set<DelivererId>)
    requires forall d, e :: d in ds && e in ds ==> d == e
    ensures |ds| <= 1
  {
    if ds != {} {
      var d :| d in ds;
      assert ds == {d};
    }
  }

  lemma StepKeepsNarrow(s: State, step: Step, loop: set<DelivererId>, j: JobId)
    requires Inv(s) && Enabled(s, step) && PassMayStart(s, step, loop) && Narrow(s, loop, j)
    ensures Narrow(Apply(s, step), LoopAfter(step, loop), j)
  {
    var v := Apply(s, step);
    assert forall d :: d in InFlight(v, j) ==>
        d in InFlight(s, j) || (step.Enlist? && step.deliverer == d && step.job == j) ||
        (step.Complete? && step.deliverer == d && step.job == j);
  }

  lemma {:induction false} PassesAreNarrow(s: State, run: seq<Step>, loop: set<DelivererId>, j: JobId)
    requires Inv(s) && Legal(s, run) && SerialPasses(s, run, loop) && Narrow(s, loop, j)
    ensures AtMost(s, run, j, 2)
    decreases |run|
  {
    NarrowIsTwo(s, loop, j);
    if run != [] {
      StepKeepsInv(s, run[0]);
      StepKeepsNarrow(s, run[0], loop, j);
      PassesAreNarrow(Apply(s, run[0]), run[1..], LoopAfter(run[0], loop), j);
    }
  }

  /**
   * With one retry loop, and because a job completes only once, no log ever has more than one entry
   * beyond the maximum.
   */
  lemma OneBeyondMaxAtMost(max: real, run: seq<Step>, j: JobId)
    requires max > 0.0 && Legal(Initial(max), run) && SerialPasses(Initial(max), run, {})
    ensures Logged(Exec(Initial(max), run), j) <= Ceil(max) + 1
  {
    PassesAreNarrow(Initial(max), run, {}, j);
    MaxIsFixed(Initial(max), run);
    RetryCap(Initial(max), run, j, 2);
  }

  // ---- The bound is reached ---------------------------------------------------------

  const IMMEDIATE: DelivererId := 0
  const LOOP: DelivererId := 1

  /** A run that does not let passes overlap. */
  predicate Good(s: State, run: seq<Step>, loop: set<DelivererId>, end: State) {
    Legal(s, run) && SerialPasses(s, run, loop) && Exec(s, run) == end
  }

  lemma Prepend(s: State, step: Step, t: State, run: seq<Step>, loop: set<DelivererId>, end: State)
    requires Enabled(s, step) && PassMayStart(s, step, loop) && Apply(s, step) == t
    requires Good(t, run, LoopAfter(step, loop), end)
    ensures Good(s, [step] + run, loop, end)
  {
    assert ([step] + run)[1..] == run;
  }

  /** The job has been completed, `n` attempts have failed, and the immediate one is still in flight. */
  function Underway(max: real, url: string, log: seq<Entry>, loop: map<DelivererId, Phase>): State {
    State(max, 1, map[0 := Job(Some(url), true, true, false, log)], map[IMMEDIATE := Posting(0, url)] + loop)
  }

  function Logs(log: seq<Entry>, url: string, failure: Outcome): seq<Entry> {
    log + [EntryOf(|log| + 1, url, failure)]
  }

  /** A pass that has started fails and leaves one more entry. */
  lemma PassFails(s: State, url: string, failure: Outcome, run: seq<Step>, end: State) returns (longer: seq<Step>)
    requires LOOP in s.running && s.running[LOOP] == Queued(0) && 0 in s.jobs && !Accepted(failure)
    requires Deliverable(s.jobs[0]) && s.jobs[0].url == Some(url)
    requires Good(s.(jobs := s.jobs[0 := Committed(s.jobs[0], url, failure)], running := s.running - {LOOP}), run,
               {LOOP}, end)
    ensures Good(s, longer, {LOOP}, end)
  {
    var t := s.(jobs := s.jobs[0 := Committed(s.jobs[0], url, failure)], running := s.running - {LOOP});
    var s1 := s.(running := s.running[LOOP := Posting(0, url)]);
    var s2 := s.(running := s.running[LOOP := Posted(0, url, failure)]);
    assert s2.running - {LOOP} == s.running - {LOOP};
    Prepend(s2, Commit(LOOP), t, run, {LOOP}, end);
    Prepend(s1, Post(LOOP, failure), s2, [Commit(LOOP)] + run, {LOOP}, end);
    longer := [Check(LOOP, true)] + ([Post(LOOP, failure)] + ([Commit(LOOP)] + run));
    Prepend(s, Check(LOOP, true), s1, [Post(LOOP, failure)] + ([Commit(LOOP)] + run), {LOOP}, end);
  }

  lemma StartPass(max: real, url: string, log: seq<Entry>, loop: set<DelivererId>, run: seq<Step>, end: State)
    requires |log| as real < max && loop <= {LOOP}
    requires Good(Underway(max, url, log, map[LOOP := Queued(0)]), run, {LOOP}, end)
    ensures Good(Underway(max, url, log, map[]), [Enlist(LOOP, 0)] + run, loop, end)
  {
    var s0 := Underway(max, url, log, map[]);
    assert loop + {LOOP} == {LOOP};
    assert InFlight(s0, 0) == {IMMEDIATE};
    Prepend(s0, Enlist(LOOP, 0), Underway(max, url, log, map[LOOP := Queued(0)]), run, loop, end);
  }

  /** One pass of the loop, which fails while the immediate delivery waits for its answer. */
  lemma FailingPass(max: real, url: string, log: seq<Entry>, failure: Outcome, loop: set<DelivererId>, run: seq<Step>,
      end: State)
    returns (longer: seq<Step>)
    requires |log| as real < max && !Accepted(failure) && loop <= {LOOP}
    requires Good(Underway(max, url, Logs(log, url, failure), map[]), run, {LOOP}, end)
    ensures Good(Underway(max, url, log, map[]), longer, loop, end)
  {
    var s1 := Underway(max, url, log, map[LOOP := Queued(0)]);
    var t := Underway(max, url, Logs(log, url, failure), map[]);
    assert s1.running - {LOOP} == t.running;
    assert s1.jobs[0 := Committed(s1.jobs[0], url, failure)] == t.jobs;
    longer := PassFails(s1, url, failure, run, end);
    StartPass(max, url, log, loop, longer, end);
    longer := [Enlist(LOOP, 0)] + longer;
  }

  /** The last pass starts, the immediate delivery fails, and then the pass fails: two more entries. */
  lemma LastPass(max: real, url: string, log: seq<Entry>, failure: Outcome, loop: set<DelivererId>)
    returns (run: seq<Step>, end: State)
    requires |log| as real < max && !Accepted(failure) && loop <= {LOOP}
    ensures Good(Underway(max, url, log, map[]), run, loop, end) && Logged(end, 0) == |log| + 2
  {
    var s1 := Underway(max, url, log, map[LOOP := Queued(0)]);
    var s2 := s1.(running := s1.running[IMMEDIATE := Posted(0, url, failure)]);
    var s3 := s1.(running := map[LOOP := Queued(0)], jobs := s1.jobs[0 := Committed(s1.jobs[0], url, failure)]);
    end := s3.(running := map[], jobs := s3.jobs[0 := Committed(s3.jobs[0], url, failure)]);
    assert s2.running - {IMMEDIATE} == s3.running && s3.running - {LOOP} == map[];
    run := PassFails(s3, url, failure, [], end);
    Prepend(s2, Commit(IMMEDIATE), s3, run, {LOOP}, end);
    Prepend(s1, Post(IMMEDIATE, failure), s2, [Commit(IMMEDIATE)] + run, {LOOP}, end);
    run := [Post(IMMEDIATE, failure)] + ([Commit(IMMEDIATE)] + run);
    StartPass(max, url, log, loop, run, end);
    run := [Enlist(LOOP, 0)] + run;
  }

  lemma {:induction false} OverlapFrom(max: real, url: string, log: seq<Entry>, failure: Outcome,
      loop: set<DelivererId>)
    returns (run: seq<Step>, end: State)
    requires |log| <= Ceil(max) - 1 && !Accepted(failure) && loop <= {LOOP}
    ensures Good(Underway(max, url, log, map[]), run, loop, end) && Logged(end, 0) == Ceil(max) + 1
    decreases Ceil(max) - |log|
  {
    if |log| == Ceil(max) - 1 {
      run, end := LastPass(max, url, log, failure, loop);
    } else {
      run, end := OverlapFrom(max, url, Logs(log, url, failure), failure, {LOOP});
      run := FailingPass(max, url, log, failure, loop, run, end);
    }
  }

  /**
   * And one beyond the maximum does occur, for every maximum: the immediate delivery is still waiting
   * for its answer while all passes but the last one fail, and commits when the last one has started.
   */
  lemma OverlapExceedsMax(max: real, url: string, failure: Outcome) returns (run: seq<Step>)
    requires max > 0.0 && !Accepted(failure)
    ensures Legal(Initial(max), run) && SerialPasses(Initial(max), run, {})
    ensures Logged(Exec(Initial(max), run), 0) == Ceil(max) + 1
  {
    var end;
    run, end := OverlapFrom(max, url, [], failure, {});
    var s0 := Initial(max);
    var s1 := State(max, 1, map[0 := Job(Some(url), false, false, false, [])], map[]);
    var s2 := State(max, 1, map[0 := Job(Some(url), true, true, false, [])], map[IMMEDIATE := Queued(0)]);
    assert {} - {IMMEDIATE} == {};
    Prepend(s2, Check(IMMEDIATE, true), Underway(max, url, [], map[]), run, {}, end);
    Prepend(s1, Complete(0, IMMEDIATE), s2, [Check(IMMEDIATE, true)] + run, {}, end);
    Prepend(s0, NewJob(Some(url)), s1, [Complete(0, IMMEDIATE)] + ([Check(IMMEDIATE, true)] + run), {}, end);
    run := [NewJob(Some(url))] + ([Complete(0, IMMEDIATE)] + ([Check(IMMEDIATE, true)] + run));
  }
}
