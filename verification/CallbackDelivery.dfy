/**
 * Delivering results to callback URLs. Any number of deliverers run at the same time: each
 * checks the job, posts to its URL, and then commits under a lock on the job's row. A job's
 * attempt log is part of its row here, as deleting the job deletes its log.
 */
module CallbackDelivery {
  import opened Basics

  type JobId = nat
  type DelivererId = nat

  const MAX_RESPONSE_BODY := 1000

  datatype Outcome = Response(code: int, body: Option<string>) | NetworkError(message: string)

  datatype Entry = Entry(attempt: nat, url: string, code: Option<int>, body: Option<string>, success: bool)

  /** `completed` is the status; a stale failure can take it back, but not the result row. */
  datatype Job = Job(url: Option<string>, hasResult: bool, completed: bool, delivered: bool, log: seq<Entry>)

  function Clip(text: string): string {
    if |text| <= MAX_RESPONSE_BODY then text else text[..MAX_RESPONSE_BODY]
  }

  predicate Accepted(outcome: Outcome) {
    outcome.Response? && 200 <= outcome.code < 300
  }

  function EntryOf(attempt: nat, url: string, outcome: Outcome): Entry {
    match outcome
    case Response(code, None) => Entry(attempt, url, Some(code), None, Accepted(outcome))
    case Response(code, Some(body)) => Entry(attempt, url, Some(code), Some(Clip(body)), Accepted(outcome))
    case NetworkError(message) => Entry(attempt, url, None, Some(Clip(message)), false)
  }

  /** The locked transaction: nothing if already delivered, otherwise one more entry. */
  function Committed(job: Job, url: string, outcome: Outcome): Job {
    if job.delivered then job
    else job.(log := job.log + [EntryOf(|job.log| + 1, url, outcome)], delivered := Accepted(outcome))
  }

  /** The checks before the POST. */
  predicate Deliverable(job: Job) {
    job.url.Some? && !job.delivered && job.hasResult
  }

  /** What the retry loop selects. */
  predicate Due(job: Job) {
    job.completed && !job.delivered && job.url.Some?
  }

  // ---- Concurrent deliverers ----------------------------------------------------

  /**
   * A deliverer counts as in flight from the moment its attempt was decided on: when the retry
   * loop read the job's attempt count, or when the completed job started it at once.
   */
  datatype Phase =
    | Queued(job: JobId)
    | Posting(job: JobId, url: string)
    | Posted(job: JobId, url: string, outcome: Outcome)

  /** `max` is the setting callback_retry_max, which need not be a whole number. */
  datatype State = State(max: real, nextId: JobId, jobs: map<JobId, Job>, running: map<DelivererId, Phase>)

  datatype Step =
    | NewJob(url: Option<string>)
    | Complete(job: JobId, deliverer: DelivererId)
    | Reopen(job: JobId)
    | Delete(job: JobId)
    | Enlist(deliverer: DelivererId, job: JobId)
    | Check(deliverer: DelivererId, urlAllowed: bool)
    | Post(deliverer: DelivererId, outcome: Outcome)
    | Commit(deliverer: DelivererId)
    | Crash(deliverer: DelivererId)

  predicate Enabled(s: State, step: Step) {
    match step
    case NewJob(_) => true
    case Complete(j, d) => j in s.jobs && !s.jobs[j].hasResult && d !in s.running
    case Reopen(j) => j in s.jobs
    case Delete(j) => j in s.jobs
    case Enlist(d, j) => d !in s.running && j in s.jobs && Due(s.jobs[j]) && |s.jobs[j].log| as real < s.max
    case Check(d, _) => d in s.running && s.running[d].Queued?
    case Post(d, _) => d in s.running && s.running[d].Posting?
    case Commit(d) => d in s.running && s.running[d].Posted?
    case Crash(d) => d in s.running
  }

  function Apply(s: State, step: Step): State
    requires Enabled(s, step)
  {
    match step
    case NewJob(url) => s.(nextId := s.nextId + 1, jobs := s.jobs[s.nextId := Job(url, false, false, false, [])])
    case Complete(j, d) =>
      var s := s.(jobs := s.jobs[j := s.jobs[j].(hasResult := true, completed := true)]);
      if s.jobs[j].url.Some? then s.(running := s.running[d := Queued(j)]) else s
    case Reopen(j) => s.(jobs := s.jobs[j := s.jobs[j].(completed := false)])
    case Delete(j) => s.(jobs := s.jobs - {j})
    case Enlist(d, j) => s.(running := s.running[d := Queued(j)])
    case Check(d, urlAllowed) =>
      var j := s.running[d].job;
      if j in s.jobs && Deliverable(s.jobs[j]) && urlAllowed
      then s.(running := s.running[d := Posting(j, s.jobs[j].url.value)])
      else s.(running := s.running - {d})
    case Post(d, outcome) => s.(running := s.running[d := Posted(s.running[d].job, s.running[d].url, outcome)])
    case Commit(d) =>
      var p := s.running[d];
      State(s.max, s.nextId,
            if p.job in s.jobs then s.jobs[p.job := Committed(s.jobs[p.job], p.url, p.outcome)] else s.jobs,
            s.running - {d})
    case Crash(d) => s.(running := s.running - {d})
  }

  predicate Legal(s: State, run: seq<Step>)
    decreases |run|
  {
    run == [] || (Enabled(s, run[0]) && Legal(Apply(s, run[0]), run[1..]))
  }

  function Exec(s: State, run: seq<Step>): State
    requires Legal(s, run)
    decreases |run|
  {
    if run == [] then s else Exec(Apply(s, run[0]), run[1..])
  }

  function Initial(max: real): State {
    State(max, 0, map[], map[])
  }

  // ---- The log ------------------------------------------------------------------

  /** A success is a response with a status from 200 to 299; of any text at most 1000 characters are kept. */
  predicate EntryOk(e: Entry) {
    && (e.success <==> e.code.Some? && 200 <= e.code.value <= 299)
    && (e.body.Some? ==> |e.body.value| <= 1000)
  }

  /** The entry says which attempt it was, where it was sent, and what came back. */
  predicate Records(e: Entry, attempt: nat, url: string, outcome: Outcome) {
    && EntryOk(e) && e.attempt == attempt && e.url == url
    && match outcome
       case Response(code, None) => e.code == Some(code) && e.body == None
       case Response(code, Some(text)) => e.code == Some(code) && BeginningOf(e.body, text)
       case NetworkError(message) => e.code == None && BeginningOf(e.body, message)
  }

  predicate BeginningOf(body: Option<string>, text: string) {
    && body.Some? && body.value <= text
    && (|text| <= 1000 ==> body.value == text) && (|text| > 1000 ==> |body.value| == 1000)
  }

  /** The job has been tried once more, with this outcome. */
  predicate TriedOnce(before: Job, after: Job, url: string, outcome: Outcome) {
    && after.url == before.url && after.hasResult == before.hasResult && after.completed == before.completed
    && |after.log| == |before.log| + 1 && after.log[..|before.log|] == before.log
    && Records(after.log[|before.log|], |before.log| + 1, url, outcome)
    && (after.delivered <==> outcome.Response? && 200 <= outcome.code <= 299)
  }

  /** Attempts are numbered 1..n in commit order, only the last can be a success, and it is what `delivered` records. */
  predicate LogOk(job: Job) {
    && (forall i :: 0 <= i < |job.log| ==> job.log[i].attempt == i + 1)
    && (forall i :: 0 <= i < |job.log| && job.log[i].success ==> i == |job.log| - 1)
    && (job.delivered <==> exists i :: 0 <= i < |job.log| && job.log[i].success)
    && (!job.hasResult ==> job.log == [] && !job.completed)
    && (forall i :: 0 <= i < |job.log| ==> EntryOk(job.log[i]))
  }

  predicate Inv(s: State) {
    && (forall j :: j in s.jobs ==> j < s.nextId && LogOk(s.jobs[j]))
    && (forall d :: d in s.running ==> s.running[d].job < s.nextId)
    && (forall d :: d in s.running && !s.running[d].Queued? && s.running[d].job in s.jobs ==>
         s.jobs[s.running[d].job].hasResult)
  }

  lemma CommittedLogOk(job: Job, url: string, outcome: Outcome)
    requires LogOk(job) && job.hasResult
    ensures LogOk(Committed(job, url, outcome)) && Committed(job, url, outcome).hasResult
    ensures |job.log| <= |Committed(job, url, outcome).log| <= |job.log| + 1
  {
    var after := Committed(job, url, outcome);
    if !job.delivered {
      var n := |job.log|;
      assert after.log[n] == EntryOf(n + 1, url, outcome);
      assert forall i :: 0 <= i < n ==> after.log[i] == job.log[i] && !job.log[i].success;
    }
  }

  lemma CommittedTries(job: Job, url: string, outcome: Outcome)
    requires !job.delivered
    ensures TriedOnce(job, Committed(job, url, outcome), url, outcome)
  {
    assert Committed(job, url, outcome).log == job.log + [EntryOf(|job.log| + 1, url, outcome)];
  }

  /** A step adds to a job's log iff it commits an attempt before the job was delivered: what that POST met. */
  lemma StepLogs(s: State, step: Step, j: JobId)
    requires Inv(s) && Enabled(s, step) && j in s.jobs && j in Apply(s, step).jobs
    ensures var a, b := s.jobs[j], Apply(s, step).jobs[j];
            if step.Commit? && s.running[step.deliverer].job == j && !a.delivered
            then TriedOnce(a, b, s.running[step.deliverer].url, s.running[step.deliverer].outcome)
            else b.log == a.log && b.delivered == a.delivered
  {
    if step.Commit? && s.running[step.deliverer].job == j && !s.jobs[j].delivered {
      CommittedTries(s.jobs[j], s.running[step.deliverer].url, s.running[step.deliverer].outcome);
    }
  }

  /** A POST begins exactly with a check that finds a job with an allowed URL and a result, and not yet delivered. */
  lemma PostsIff(s: State, step: Step, d: DelivererId)
    requires Enabled(s, step) && d in s.running && s.running[d].Queued? && d in Apply(s, step).running
    ensures Apply(s, step).running[d].Posting? <==>
              && step.Check? && step.deliverer == d && step.urlAllowed
              && var j := s.running[d].job;
                 j in s.jobs && s.jobs[j].url.Some? && !s.jobs[j].delivered && s.jobs[j].hasResult
    ensures Apply(s, step).running[d].Posting? ==>
              Apply(s, step).running[d] == Posting(s.running[d].job, s.jobs[s.running[d].job].url.value)
  {
  }

  /** So a job becomes delivered exactly by the commit of a response with a status from 200 to 299. */
  lemma BecomesDeliveredIff(s: State, step: Step, j: JobId)
    requires Inv(s) && Enabled(s, step) && j in s.jobs && j in Apply(s, step).jobs && !s.jobs[j].delivered
    ensures Apply(s, step).jobs[j].delivered <==>
              && step.Commit? && s.running[step.deliverer].job == j
              && s.running[step.deliverer].outcome.Response? && 200 <= s.running[step.deliverer].outcome.code <= 299
  {
    StepLogs(s, step, j);
  }

  lemma StepKeepsLog(s: State, step: Step, j: JobId)
    requires Inv(s) && Enabled(s, step) && j in Apply(s, step).jobs
    ensures j < Apply(s, step).nextId && LogOk(Apply(s, step).jobs[j])
    ensures j in s.jobs && s.jobs[j].hasResult ==> Apply(s, step).jobs[j].hasResult
  {
    match step {
      case Commit(d) =>
        var p := s.running[d];
        if p.job == j {
          CommittedLogOk(s.jobs[j], p.url, p.outcome);
        }
      case _ =>
    }
  }

  lemma StepKeepsInv(s: State, step: Step)
    requires Inv(s) && Enabled(s, step)
    ensures Inv(Apply(s, step))
  {
    var v := Apply(s, step);
    forall j | j in v.jobs
      ensures j < v.nextId && LogOk(v.jobs[j]) && (j in s.jobs && s.jobs[j].hasResult ==> v.jobs[j].hasResult)
    {
      StepKeepsLog(s, step, j);
    }
  }

  /** In every interleaving of any number of deliverers, every job's log is well-formed. */
  lemma {:induction false} LogsStayOk(s: State, run: seq<Step>)
    requires Inv(s) && Legal(s, run)
    ensures Inv(Exec(s, run))
    decreases |run|
  {
    if run != [] {
      StepKeepsInv(s, run[0]);
      LogsStayOk(Apply(s, run[0]), run[1..]);
    }
  }

  /** Once delivered, nothing is ever logged for the job again. */
  lemma {:induction false} DeliveredIsFinal(s: State, run: seq<Step>, j: JobId)
    requires Inv(s) && Legal(s, run) && j in s.jobs && s.jobs[j].delivered
    ensures j in Exec(s, run).jobs ==>
              Exec(s, run).jobs[j].delivered && Exec(s, run).jobs[j].log == s.jobs[j].log
    decreases |run|
  {
    if run != [] {
      StepKeepsInv(s, run[0]);
      var v := Apply(s, run[0]);
      if j in v.jobs {
        DeliveredIsFinal(v, run[1..], j);
      } else {
        GoneStaysGone(v, run[1..], j);
      }
    }
  }

  lemma {:induction false} GoneStaysGone(s: State, run: seq<Step>, j: JobId)
    requires Legal(s, run) && j < s.nextId && j !in s.jobs
    ensures j !in Exec(s, run).jobs
    decreases |run|
  {
    if run != [] {
      GoneStaysGone(Apply(s, run[0]), run[1..], j);
    }
  }

  predicate Leads(s: State, a: Step, b: Step, t: State) {
    Enabled(s, a) && Enabled(Apply(s, a), b) && Apply(Apply(s, a), b) == t
  }

  lemma ThenTwo(s: State, run: seq<Step>, t: State, end: State)
    requires |run| >= 2 && Leads(s, run[0], run[1], t) && Legal(t, run[2..]) && Exec(t, run[2..]) == end
    ensures Legal(s, run) && Exec(s, run) == end
  {
    assert run[1..][1..] == run[2..];
  }

  // ---- The retry loop on its own -------------------------------------------------

  /** What one delivery, with nothing else going on, makes of a job. */
  function Delivered(job: Job, urlAllowed: bool, outcome: Outcome): Job {
    if Deliverable(job) && urlAllowed then Committed(job, job.url.value, outcome) else job
  }

  /** What one pass of the retry loop makes of a job. */
  function Retried(job: Job, max: real, urlAllowed: bool, outcome: Outcome): Job {
    if Due(job) && |job.log| as real < max then Delivered(job, urlAllowed, outcome) else job
  }

  /** A pass adds at most one attempt, keeps the log well-formed, and never takes it past the maximum. */
  lemma RetriedStaysWithinMax(job: Job, max: real, urlAllowed: bool, outcome: Outcome)
    requires LogOk(job)
    ensures LogOk(Retried(job, max, urlAllowed, outcome))
    ensures |Retried(job, max, urlAllowed, outcome).log| <= Max(|job.log|, Ceil(max))
    ensures Retried(job, max, urlAllowed, outcome) != job <==>
              Due(job) && urlAllowed && |job.log| as real < max
  {
    if Due(job) && urlAllowed && |job.log| as real < max {
      CommittedLogOk(job, job.url.value, outcome);
    }
  }

  /** A deliverer with nothing else going on takes its job exactly to what one pass of the loop makes of it. */
  lemma LonePassIsRetried(s: State, j: JobId, d: DelivererId, outcome: Outcome)
    requires j in s.jobs && Due(s.jobs[j]) && s.jobs[j].hasResult && |s.jobs[j].log| as real < s.max && d !in s.running
    ensures var run := [Enlist(d, j), Check(d, true), Post(d, outcome), Commit(d)];
            Legal(s, run) && Exec(s, run) == s.(jobs := s.jobs[j := Retried(s.jobs[j], s.max, true, outcome)])
  {
    var run, url := [Enlist(d, j), Check(d, true), Post(d, outcome), Commit(d)], s.jobs[j].url.value;
    var mid := s.(running := s.running[d := Posting(j, url)]);
    var end := s.(jobs := s.jobs[j := Committed(s.jobs[j], url, outcome)]);
    assert Leads(s, run[0], run[1], mid);
    assert Leads(mid, run[2], run[3], end);
    ThenTwo(mid, run[2..], end, end);
    ThenTwo(s, run, mid, end);
  }

  class CallbackService {
    var jobs: map<JobId, Job>

    /** One delivery: the checks, the POST, whose outcome the caller supplies, and the locked commit. */
    method DeliverResult(id: JobId, urlAllowed: bool, outcome: Outcome)
      modifies this
      ensures jobs == if id in old(jobs) then old(jobs)[id := Delivered(old(jobs)[id], urlAllowed, outcome)]
                      else old(jobs)
      ensures jobs.Keys == old(jobs).Keys && forall k :: k in jobs && k != id ==> jobs[k] == old(jobs)[k]
      ensures id in jobs ==>
                var job := old(jobs)[id];
                if job.url.Some? && !job.delivered && job.hasResult && urlAllowed
                then TriedOnce(job, jobs[id], job.url.value, outcome)
                else jobs[id] == job
    {
      if id !in jobs {
        return;
      }
      var job := jobs[id];
      if job.url.None? || job.delivered || !urlAllowed || !job.hasResult {
        return;
      }
      var responseCode: Option<int>, responseBody: Option<string>, success := None, None, false;
      match outcome {
        case Response(code, body) =>
          responseCode := Some(code);
          responseBody := match body case None => None case Some(text) => Some(Clip(text));
          success := 200 <= code < 300;
        case NetworkError(message) =>
          responseBody := Some(Clip(message));
      }
      var locked := jobs[id];
      if locked.delivered {
        return;
      }
      var attempt := |locked.log| + 1;
      locked := locked.(log := locked.log + [Entry(attempt, job.url.value, responseCode, responseBody, success)]);
      if success {
        locked := locked.(delivered := true);
      }
      jobs := jobs[id := locked];
      CommittedTries(job, job.url.value, outcome);
    }

    /**
     * One pass over the completed jobs whose callback is still due: the attempt counts are read
     * once, and each job below the maximum gets one delivery.
     */
    method RetryPendingCallbacks(max: real, urlAllowed: set<JobId>, outcomes: map<JobId, Outcome>)
      requires outcomes.Keys == jobs.Keys
      modifies this
      ensures jobs.Keys == old(jobs).Keys
      ensures forall id :: id in jobs ==> jobs[id] == Retried(old(jobs)[id], max, id in urlAllowed, outcomes[id])
      ensures forall id :: id in jobs ==>
                var job := old(jobs)[id];
                if job.completed && !job.delivered && job.url.Some? && |job.log| as real < max &&
                   job.hasResult && id in urlAllowed
                then TriedOnce(job, jobs[id], job.url.value, outcomes[id])
                else jobs[id] == job
    {
      var pending := set id | id in jobs && jobs[id].completed && !jobs[id].delivered && jobs[id].url.Some?;
      var attempts := map id | id in pending && |jobs[id].log| > 0 :: |jobs[id].log|;
      var todo := pending;
      while todo != {}
        invariant todo <= pending && jobs.Keys == old(jobs).Keys
        invariant forall id :: id in jobs ==>
                    jobs[id] == if id in pending && id !in todo
                                then Retried(old(jobs)[id], max, id in urlAllowed, outcomes[id]) else old(jobs)[id]
      {
        var id :| id in todo;
        var attemptCount := if id in attempts then attempts[id] else 0;
        if attemptCount as real < max {
          DeliverResult(id, id in urlAllowed, outcomes[id]);
        }
        todo := todo - {id};
      }
      forall id | id in jobs
        ensures var job := old(jobs)[id];
                if job.completed && !job.delivered && job.url.Some? && |job.log| as real < max &&
                   job.hasResult && id in urlAllowed
                then TriedOnce(job, jobs[id], job.url.value, outcomes[id])
                else jobs[id] == job
      {
        var job := old(jobs)[id];
        if job.url.Some? && !job.delivered {
          CommittedTries(job, job.url.value, outcomes[id]);
        }
      }
    }
  }
}
