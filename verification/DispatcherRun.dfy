/**
 * One run of a claimed job: create the pod, wait, read the results, report to the lifecycle
 * service, clean up. Every external call may throw; `Env` says what each would do.
 */
module DispatcherRun {
  import opened Basics
  import opened JobTables
  import opened Lifecycle
  import opened Utf8Truncation

  type Text = seq<Rune>

  datatype Fetch<+T> = Threw | Got(value: T)

  datatype Verdict = Verdict(succeeded: bool, exitCode: int, seconds: real)

  /** Reading results.json: readable, unusable for a known reason, or any other error. */
  datatype Reading = Readable(score: Option<real>) | Unusable(code: string) | ReadError

  datatype Env = Env(
    config: Fetch<Option<nat>>,          // the image's timeout, if the image is there
    prepared: bool,
    pod: Fetch<string>,
    saved: bool,
    verdict: Fetch<Verdict>,
    reading: Reading,
    logs: Fetch<Option<Text>>,
    payload: Fetch<Option<string>>,
    commit: Commitment,                  // how markCompleted ends
    failsFirst: bool,                    // a markFailed inside the try block returns
    failsLast: bool,                     // the markFailed of the catch block returns
    keepAll: bool,
    keepFailed: bool)

  datatype Reason =
    | NoGradingResults(code: string)
    | ContainerExited(exitCode: int, logs: Option<Text>)
    | DispatcherError

  datatype Call =
    | LoadConfig
    | PrepareOutput
    | CreatePod
    | SavePod(pod: string)
    | WaitForPod
    | ReadResults
    | GetLogs
    | ExtractPayload
    | Complete(score: Option<real>, logs: Option<Text>, pod: string, payload: Option<string>, seconds: real)
    | Fail(reason: Reason)
    | CleanupPayload
    | DeletePod
    | CleanupSubmission

  /** `getJobLogs` cuts the logs it read, and yields null when it cannot read any. */
  function FetchedLogs(env: Env): Option<Text> {
    match env.logs
    case Got(Some(text)) => Some(Truncate(text, MAX_LOG_BYTES))
    case _ => None
  }

  function TruncateLogs(logs: Option<Text>, max: nat): Option<Text> {
    match logs
    case None => None
    case Some(text) => Some(Truncate(text, max))
  }

  // ---- What a run amounts to, in terms of the environment ------------------------

  predicate PodCreated(env: Env) {
    env.config.Got? && env.config.value.Some? && env.prepared && env.pod.Got?
  }

  /** The run got as far as a verdict on the pod. */
  predicate Judged(env: Env) {
    PodCreated(env) && env.saved && env.verdict.Got?
  }

  predicate PodKept(env: Env) {
    env.keepAll || (env.keepFailed && Judged(env) && !env.verdict.value.succeeded)
  }

  predicate TriesToComplete(env: Env) {
    Judged(env) && env.verdict.value.succeeded && env.reading.Readable? && env.payload.Got?
  }

  /** What `markCompleted` is called with. */
  function Completion(env: Env): Call
    requires TriesToComplete(env)
  {
    Complete(env.reading.score, TruncateLogs(FetchedLogs(env), MAX_CONTAINER_LOGS_BYTES), env.pod.value,
             env.payload.value, env.verdict.value.seconds)
  }

  /** The pod failed, or succeeded without usable results. */
  predicate FailsOnVerdict(env: Env) {
    Judged(env) && (env.verdict.value.succeeded ==> env.reading.Unusable?)
  }

  function Failure(env: Env): Call
    requires FailsOnVerdict(env)
  {
    if env.verdict.value.succeeded then Fail(NoGradingResults(env.reading.code))
    else
      var excerpt := TruncateLogs(FetchedLogs(env), MAX_FAILURE_LOG_BYTES);
      Fail(ContainerExited(env.verdict.value.exitCode, if excerpt == Some([]) then None else excerpt))
  }

  /** The lifecycle calls of the run, in order: one, or a second one after the first threw. */
  function LifecycleCalls(env: Env): seq<Call> {
    if TriesToComplete(env) then
      if env.commit.Returned? then [Completion(env)] else [Completion(env), Fail(DispatcherError)]
    else if FailsOnVerdict(env) then
      if env.failsFirst then [Failure(env)] else [Failure(env), Fail(DispatcherError)]
    else [Fail(DispatcherError)]
  }

  predicate IsLifecycle(call: Call) {
    call.Complete? || call.Fail?
  }

  function Reported(trace: seq<Call>): seq<Call> {
    if trace == [] then []
    else (if IsLifecycle(trace[0]) then [trace[0]] else []) + Reported(trace[1..])
  }

  lemma {:induction false} ReportedConcat(a: seq<Call>, b: seq<Call>)
    ensures Reported(a + b) == Reported(a) + Reported(b)
  {
    if a == [] {
      assert a + b == b;
    } else {
      assert (a + b)[0] == a[0] && (a + b)[1..] == a[1..] + b;
      ReportedConcat(a[1..], b);
      var head := if IsLifecycle(a[0]) then [a[0]] else [];
      assert Reported(a + b) == head + (Reported(a[1..]) + Reported(b));
    }
  }

  lemma {:induction false} ReportedMembers(trace: seq<Call>)
    ensures forall call :: call in Reported(trace) <==> call in trace && IsLifecycle(call)
  {
    if trace != [] {
      ReportedMembers(trace[1..]);
      assert trace == [trace[0]] + trace[1..];
    }
  }

  // ---- What the calls of a run carry ----------------------------------------------

  /** The pod's logs, cut to a number of bytes. */
  function Excerpt(env: Env, max: nat): Option<Text> {
    match env.logs
    case Got(Some(text)) => Some(Truncate(text, max))
    case _ => None
  }

  /**
   * What a call is made with comes from where it should: score and seconds of the completion are those
   * that were read and measured, and each failure names its cause.
   */
  predicate CarriesWhatWasFound(env: Env, call: Call) {
    match call
    case SavePod(pod) => env.pod == Got(pod)
    case Complete(score, logs, pod, payload, seconds) =>
      && env.reading == Readable(score) && env.pod == Got(pod) && env.payload == Got(payload)
      && env.verdict.Got? && env.verdict.value.succeeded && env.verdict.value.seconds == seconds
      && logs == Excerpt(env, 10240)
    case Fail(NoGradingResults(code)) =>
      env.verdict.Got? && env.verdict.value.succeeded && env.reading == Unusable(code)
    case Fail(ContainerExited(exitCode, logs)) =>
      && env.verdict.Got? && !env.verdict.value.succeeded && env.verdict.value.exitCode == exitCode
      && logs == if Excerpt(env, 2048) == Some([]) then None else Excerpt(env, 2048)
    case _ => true
  }

  lemma CutTwice(env: Env)
    ensures TruncateLogs(FetchedLogs(env), MAX_CONTAINER_LOGS_BYTES) == Excerpt(env, 10240)
    ensures TruncateLogs(FetchedLogs(env), MAX_FAILURE_LOG_BYTES) == Excerpt(env, 2048)
  {
    if env.logs.Got? && env.logs.value.Some? {
      LogCuts(env.logs.value.value);
    }
  }

  lemma LifecycleCallsCarry(env: Env)
    ensures forall call :: call in LifecycleCalls(env) ==> CarriesWhatWasFound(env, call)
  {
    CutTwice(env);
  }

  /** A pod came up and reached its verdict, so nothing before has thrown. */
  predicate Ran(env: Env, succeeded: bool) {
    && env.config.Got? && env.config.value.Some? && env.prepared && env.pod.Got? && env.saved
    && env.verdict.Got? && env.verdict.value.succeeded == succeeded
  }

  /** Which lifecycle calls a run makes, by what has gone wrong. */
  predicate MakesTheRightCalls(env: Env, trace: seq<Call>) {
    && ((exists call :: call in trace && call.Complete?) <==>
          Ran(env, true) && env.reading.Readable? && env.payload.Got?)
    && ((exists call :: call in trace && call.Fail? && call.reason.NoGradingResults?) <==>
          Ran(env, true) && env.reading.Unusable?)
    && ((exists call :: call in trace && call.Fail? && call.reason.ContainerExited?) <==> Ran(env, false))
    && (Fail(DispatcherError) !in trace <==>
          || (Ran(env, true) && env.reading.Readable? && env.payload.Got? && env.commit.Returned?)
          || (Ran(env, true) && env.reading.Unusable? && env.failsFirst)
          || (Ran(env, false) && env.failsFirst))
  }

  /** After a successful pod: results, logs and payload come first, then the completion, then the payload's removal. */
  predicate AfterSuccess(env: Env, calls: seq<Call>) {
    env.reading.Readable? && env.payload.Got? ==>
      && |calls| > 3 && calls[0] == ReadResults && calls[1] == GetLogs && calls[2] == ExtractPayload
      && calls[3].Complete?
      && (env.payload.value.Some? && !env.commit.Returned? ==> |calls| > 4 && calls[4] == CleanupPayload)
  }

  function ToVerdict(pod: string): seq<Call> {
    [LoadConfig, PrepareOutput, CreatePod, SavePod(pod), WaitForPod]
  }

  /** The steps of a run come in their order. */
  predicate InOrder(env: Env, trace: seq<Call>) {
    && (Ran(env, true) || Ran(env, false) ==> ToVerdict(env.pod.value) <= trace)
    && (Ran(env, true) ==> AfterSuccess(env, trace[5..]))
  }

  lemma InOrderAppend(env: Env, trace: seq<Call>, more: seq<Call>)
    requires InOrder(env, trace)
    ensures InOrder(env, trace + more)
  {
    if Ran(env, true) {
      assert (trace + more)[5..] == trace[5..] + more;
    }
  }

  lemma InOrderParts(env: Env, start: seq<Call>, calls: seq<Call>)
    requires Ran(env, true) || Ran(env, false) ==> start == ToVerdict(env.pod.value)
    requires Ran(env, true) ==> AfterSuccess(env, calls)
    ensures InOrder(env, start + calls)
  {
    if Ran(env, true) {
      assert (start + calls)[5..] == calls;
    }
  }

  lemma RightCalls(env: Env)
    ensures MakesTheRightCalls(env, LifecycleCalls(env))
  {
    var calls := LifecycleCalls(env);
    assert calls[0] in calls && calls[|calls| - 1] in calls;
    assert forall call :: call in calls ==> call == calls[0] || call == calls[|calls| - 1];
  }

  lemma SameCallsRight(env: Env, calls: seq<Call>, trace: seq<Call>)
    requires MakesTheRightCalls(env, calls)
    requires forall call :: call in calls <==> call in trace && IsLifecycle(call)
    ensures MakesTheRightCalls(env, trace)
  {
    assert (exists call :: call in calls && call.Complete?) <==> (exists call :: call in trace && call.Complete?);
  }

  lemma ReportedRight(env: Env, trace: seq<Call>)
    requires Reported(trace) == LifecycleCalls(env)
    ensures MakesTheRightCalls(env, trace)
    ensures forall call :: call in trace && IsLifecycle(call) ==> CarriesWhatWasFound(env, call)
  {
    ReportedMembers(trace);
    LifecycleCallsCarry(env);
    RightCalls(env);
    SameCallsRight(env, LifecycleCalls(env), trace);
  }

  // ---- The run ------------------------------------------------------------------

  method HandleSuccessfulRun(env: Env) returns (calls: seq<Call>, threw: bool)
    requires Judged(env) && env.verdict.value.succeeded
    ensures forall call :: call in calls ==>
              !call.SavePod? && call != DeletePod && call != CleanupSubmission && call != CreatePod
    ensures forall call :: call in calls && call.Complete? ==>
              && env.reading == Readable(call.score) && call.seconds == env.verdict.value.seconds
              && call.pod == env.pod.value && env.payload == Got(call.payload)
    ensures CleanupPayload in calls <==> TriesToComplete(env) && env.payload.value.Some? && !env.commit.Returned?
    ensures ExtractPayload in calls <==> env.reading.Readable?
    ensures AfterSuccess(env, calls)
    ensures LifecycleCalls(env) == Reported(calls) + if threw then [Fail(DispatcherError)] else []
  {
    calls := [ReadResults];
    match env.reading {
      case Unusable(code) =>
        calls := [ReadResults] + [Fail(NoGradingResults(code))];
        ReportedConcat([ReadResults], [Fail(NoGradingResults(code))]);
        return calls, !env.failsFirst;
      case ReadError =>
        return calls, true;
      case Readable(score) =>
        var logs := FetchedLogs(env);
        calls := [ReadResults, GetLogs, ExtractPayload];
        if env.payload.Threw? {
          return calls, true;
        }
        var last;
        last, threw := TryToComplete(env, score, logs);
        ReportedConcat(calls, last);
        calls := calls + last;
    }
  }

  /** The completion, and the removal of the payload if it throws. */
  method TryToComplete(env: Env, score: Option<real>, logs: Option<Text>) returns (calls: seq<Call>, threw: bool)
    requires TriesToComplete(env) && env.reading == Readable(score) && logs == FetchedLogs(env)
    ensures threw <==> !env.commit.Returned?
    ensures calls == [Completion(env)] + if threw && env.payload.value.Some? then [CleanupPayload] else []
    ensures |calls| > 0 && calls[0].Complete? && calls[0].score == score && calls[0].pod == env.pod.value
    ensures calls[0].seconds == env.verdict.value.seconds && calls[0].payload == env.payload.value
    ensures Reported(calls) == [calls[0]]
  {
    var completion := Complete(score, TruncateLogs(logs, MAX_CONTAINER_LOGS_BYTES), env.pod.value, env.payload.value,
                               env.verdict.value.seconds);
    calls := [completion];
    threw := !env.commit.Returned?;
    if threw && env.payload.value.Some? {
      calls := calls + [CleanupPayload];
      ReportedConcat([completion], [CleanupPayload]);
    }
  }

  method HandleFailedRun(env: Env) returns (calls: seq<Call>, threw: bool)
    requires Judged(env) && !env.verdict.value.succeeded
    ensures {DeletePod, CleanupSubmission, CreatePod, CleanupPayload, ExtractPayload} !! set call | call in calls
    ensures forall call :: call in calls ==> call == GetLogs || (call.Fail? && call.reason.ContainerExited?)
    ensures forall call :: call in calls && call.Fail? ==> call.reason.exitCode == env.verdict.value.exitCode
    ensures LifecycleCalls(env) == Reported(calls) + if threw then [Fail(DispatcherError)] else []
  {
    var logs := FetchedLogs(env);
    var excerpt := TruncateLogs(logs, MAX_FAILURE_LOG_BYTES);
    var reason := if excerpt.Some? && excerpt.value != []
                  then ContainerExited(env.verdict.value.exitCode, excerpt)
                  else ContainerExited(env.verdict.value.exitCode, None);
    calls := [GetLogs] + [Fail(reason)];
    ReportedConcat([GetLogs], [Fail(reason)]);
    threw := !env.failsFirst;
  }

  /** The steps up to the verdict on the pod; `judged` is false if one of them threw. */
  method StartPod(env: Env) returns (trace: seq<Call>, podCreated: bool, judged: bool)
    ensures podCreated == PodCreated(env) && judged == Judged(env)
    ensures judged ==> trace == ToVerdict(env.pod.value)
    ensures trace <= [LoadConfig, PrepareOutput, CreatePod] +
                     if env.pod.Got? then [SavePod(env.pod.value), WaitForPod] else []
    ensures CreatePod in trace <==> env.config.Got? && env.config.value.Some? && env.prepared
  {
    podCreated, judged := false, false;
    trace := [LoadConfig];
    if env.config.Threw? || env.config.value.None? {
      return;
    }
    trace := [LoadConfig, PrepareOutput];
    if !env.prepared {
      return;
    }
    trace := [LoadConfig, PrepareOutput, CreatePod];
    if env.pod.Threw? {
      return;
    }
    podCreated := true;
    trace := trace + [SavePod(env.pod.value)];
    if !env.saved {
      return;
    }
    trace := trace + [WaitForPod];
    judged := env.verdict.Got?;
  }

  lemma {:induction false} NothingReported(trace: seq<Call>)
    requires forall call :: call in trace ==> !IsLifecycle(call)
    ensures Reported(trace) == []
  {
    if trace != [] {
      NothingReported(trace[1..]);
    }
  }

  /** The try block: how far the run gets, whether the pod was created, the verdict, whether it threw. */
  method TryRun(env: Env) returns (trace: seq<Call>, podCreated: bool, succeeded: Option<bool>, threw: bool)
    ensures podCreated == PodCreated(env)
    ensures succeeded == if Judged(env) then Some(env.verdict.value.succeeded) else None
    ensures DeletePod !in trace && CleanupSubmission !in trace
    ensures forall pod :: SavePod(pod) in trace ==> env.pod == Got(pod)
    ensures InOrder(env, trace)
    ensures CreatePod in trace <==> env.config.Got? && env.config.value.Some? && env.prepared
    ensures CleanupPayload in trace <==> TriesToComplete(env) && env.payload.value.Some? && !env.commit.Returned?
    ensures ExtractPayload in trace <==> Judged(env) && env.verdict.value.succeeded && env.reading.Readable?
    ensures LifecycleCalls(env) == Reported(trace) + if threw then [Fail(DispatcherError)] else []
  {
    var judged;
    trace, podCreated, judged := StartPod(env);
    NothingReported(trace);
    if !judged {
      return trace, podCreated, None, true;
    }
    succeeded := Some(env.verdict.value.succeeded);
    var calls: seq<Call>;
    if env.verdict.value.succeeded {
      calls, threw := HandleSuccessfulRun(env);
    } else {
      calls, threw := HandleFailedRun(env);
    }
    ReportedConcat(trace, calls);
    InOrderParts(env, trace, calls);
    trace := trace + calls;
  }

  /** The try block and its catch block. */
  method TryAndCatch(env: Env) returns (trace: seq<Call>, podCreated: bool, succeeded: Option<bool>)
    ensures podCreated == PodCreated(env)
    ensures succeeded == if Judged(env) then Some(env.verdict.value.succeeded) else None
    ensures DeletePod !in trace && CleanupSubmission !in trace
    ensures forall pod :: SavePod(pod) in trace ==> env.pod == Got(pod)
    ensures InOrder(env, trace)
    ensures CreatePod in trace <==> env.config.Got? && env.config.value.Some? && env.prepared
    ensures CleanupPayload in trace <==> TriesToComplete(env) && env.payload.value.Some? && !env.commit.Returned?
    ensures ExtractPayload in trace <==> Judged(env) && env.verdict.value.succeeded && env.reading.Readable?
    ensures Reported(trace) == LifecycleCalls(env)
  {
    var threw;
    trace, podCreated, succeeded, threw := TryRun(env);
    if threw {
      ReportedConcat(trace, [Fail(DispatcherError)]);
      InOrderAppend(env, trace, [Fail(DispatcherError)]);
      trace := trace + [Fail(DispatcherError)];
    }
  }

  /** The finally block. */
  method CleanUp(env: Env, podCreated: bool, completedSuccessfully: Option<bool>) returns (calls: seq<Call>)
    ensures var kept := env.keepAll || (env.keepFailed && completedSuccessfully == Some(false));
            calls == if podCreated && !kept then [DeletePod, CleanupSubmission] else [CleanupSubmission]
    ensures Reported(calls) == []
  {
    calls := [];
    if podCreated {
      var shouldKeep := env.keepAll || (env.keepFailed && completedSuccessfully == Some(false));
      if !shouldKeep {
        calls := [DeletePod];
      }
    }
    ReportedConcat(calls, [CleanupSubmission]);
    calls := calls + [CleanupSubmission];
  }

  /**
   * Whatever throws: the submission directory is cleaned up exactly once and last; the pod is
   * deleted, next to last, iff it was created and is not kept; an extracted payload is removed iff
   * the completion threw; the lifecycle service is told exactly what `LifecycleCalls` says; and every
   * call carries what was found.
   */
  method RunJob(env: Env) returns (trace: seq<Call>)
    ensures CleansUpLast(trace)
    ensures InOrder(env, trace)
    ensures CreatePod in trace <==> env.config.Got? && env.config.value.Some? && env.prepared
    ensures DeletePod in trace <==>
              && env.config.Got? && env.config.value.Some? && env.prepared && env.pod.Got?
              && !env.keepAll && !(env.keepFailed && Ran(env, false))
    ensures CleanupPayload in trace <==>
              && Ran(env, true) && env.reading.Readable? && env.payload.Got? && env.payload.value.Some?
              && !env.commit.Returned?
    ensures ExtractPayload in trace <==> Ran(env, true) && env.reading.Readable?
    ensures Reported(trace) == LifecycleCalls(env)
    ensures MakesTheRightCalls(env, trace)
    ensures forall call :: call in trace ==> CarriesWhatWasFound(env, call)
  {
    var podCreated, completedSuccessfully;
    trace, podCreated, completedSuccessfully := TryAndCatch(env);
    var last := CleanUp(env, podCreated, completedSuccessfully);
    EndsWithCleanUp(trace, last);
    InOrderAppend(env, trace, last);
    ReportedConcat(trace, last);
    assert Reported(trace + last) == Reported(trace);
    trace := trace + last;
    ReportedRight(env, trace);
  }

  /** The submission directory is cleaned up once, at the very end, and the pod deleted at most once, just before. */
  predicate CleansUpLast(trace: seq<Call>) {
    var n := |trace|;
    && n > 0 && trace[n - 1] == CleanupSubmission && CleanupSubmission !in trace[..n - 1]
    && (DeletePod in trace ==> n > 1 && trace[n - 2] == DeletePod && DeletePod !in trace[..n - 2])
  }

  lemma EndsWithCleanUp(body: seq<Call>, last: seq<Call>)
    requires DeletePod !in body && CleanupSubmission !in body
    requires last == [DeletePod, CleanupSubmission] || last == [CleanupSubmission]
    ensures CleansUpLast(body + last)
    ensures forall call :: call in body + last <==> call in body || call in last
  {
    var n := |body + last|;
    if last == [CleanupSubmission] {
      assert (body + last)[..n - 1] == body;
    } else {
      assert (body + last)[..n - 1] == body + [DeletePod];
      assert (body + last)[..n - 2] == body;
    }
  }

  // ---- What the run means for the job --------------------------------------------

  /** The first lifecycle call that takes effect, if any. */
  function FirstAccepted(env: Env): Option<Call> {
    if TriesToComplete(env) && !env.commit.ThrewBefore? then Some(Completion(env))
    else if FailsOnVerdict(env) && env.failsFirst then Some(Failure(env))
    else if env.failsLast then Some(Fail(DispatcherError))
    else None
  }

  /** The step a lifecycle call takes on the tables. */
  predicate Performs(step: Step, call: Call, id: JobId) {
    match call
    case Complete(score, logs, _, payload, seconds) =>
      && step.MarkCompleted? && step.id == id && step.runtime == seconds
      && step.report.payloadPath == payload && step.report.correctness == score
      && step.report.containerLogs == logs
    case Fail(_) => step.MarkFailed? && step.id == id
    case _ => false
  }

  /**
   * A job that is still processing when the first call that takes effect arrives is no longer
   * processing after it: completed with its result, or queued again, or failed, as its retries decide.
   * If it is queued again, its submission directory is gone all the same (RunJob, first clause).
   */
  lemma RunSettlesJob(env: Env, w: World, e: Event, id: JobId)
    requires Inv(w) && Lifecycle.Enabled(w, e) && id in w.jobs && w.jobs[id].status == Processing
    requires FirstAccepted(env).Some? && Performs(e.step, FirstAccepted(env).value, id)
    ensures FirstAccepted(env).value in LifecycleCalls(env)
    ensures id in Lifecycle.Apply(w, e).jobs
    ensures Lifecycle.Apply(w, e).jobs[id].status ==
              if TriesToComplete(env) && !env.commit.ThrewBefore? then Completed
              else if w.jobs[id].retryCount < MaxRetries(w.images, w.jobs[id]) then Pending else Failed
    ensures TriesToComplete(env) && !env.commit.ThrewBefore? ==>
              && id in Lifecycle.Apply(w, e).results
              && Lifecycle.Apply(w, e).results[id].payloadPath == env.payload.value
              && Lifecycle.Apply(w, e).results[id].correctness == env.reading.score
              && Lifecycle.Apply(w, e).results[id].containerLogs == Excerpt(env, 10240)
              && Lifecycle.Apply(w, e).jobs[id].actualRuntime == Some(env.verdict.value.seconds)
              && Lifecycle.Apply(w, e).jobs[id].completedAt == Some(e.at)
  {
    CutTwice(env);
    assert JobOk(w, id);
  }

  /**
   * When `markCompleted` throws after its commit, the run reports a failure as well, but that comes to
   * nothing: the job stays completed, its result naming a payload that the run has removed (RunJob,
   * the clause about CleanupPayload).
   */
  lemma ThrownCompletionStands(env: Env, w: World, e: Event, f: Event, id: JobId)
    requires Inv(w) && id in w.jobs && w.jobs[id].status == Processing
    requires TriesToComplete(env) && env.commit.ThrewAfter?
    requires Lifecycle.Enabled(w, e) && Performs(e.step, LifecycleCalls(env)[0], id)
    requires Lifecycle.Enabled(Lifecycle.Apply(w, e), f) && Performs(f.step, LifecycleCalls(env)[1], id)
    ensures |LifecycleCalls(env)| == 2
    ensures var v := Lifecycle.Apply(Lifecycle.Apply(w, e), f);
            && v == Lifecycle.Apply(w, e).(clock := f.at)
            && id in v.jobs && v.jobs[id].status == Completed
            && id in v.results && v.results[id].payloadPath == env.payload.value
  {
    assert JobOk(w, id);
  }

  /** The logs stored with a completion and those quoted in a failure are single cuts of the pod's logs. */
  lemma LogsAreCutOnce(env: Env, text: Text)
    requires env.logs == Got(Some(text))
    ensures TriesToComplete(env) ==> Completion(env).logs == Some(Truncate(text, MAX_CONTAINER_LOGS_BYTES))
    ensures FailsOnVerdict(env) && !env.verdict.value.succeeded ==>
              Failure(env).reason.logs ==
                if Truncate(text, MAX_FAILURE_LOG_BYTES) == [] then None
                else Some(Truncate(text, MAX_FAILURE_LOG_BYTES))
  {
    LogCuts(text);
  }
}
