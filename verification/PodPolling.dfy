/** Waiting for a pod: poll every two seconds until it is decided or the hard deadline passes. */
module PodPolling {
  datatype Poll = Undecided | PodSucceeded | PodFailed(exitCode: int) | PodGone | PollError

  datatype Completion = Completion(succeeded: bool, exitCode: int, seconds: real)

  const DEADLINE_MARGIN := 60
  const POLL_INTERVAL := 2.0
  const TIMEOUT_EXIT_CODE := 124
  const GONE_EXIT_CODE := -1

  predicate Decides(p: Poll) {
    p.PodSucceeded? || p.PodFailed? || p.PodGone?
  }

  function Verdict(p: Poll, seconds: real): Completion
    requires Decides(p)
  {
    match p
    case PodSucceeded => Completion(true, 0, seconds)
    case PodFailed(code) => Completion(false, code, seconds)
    case PodGone => Completion(false, GONE_EXIT_CODE, seconds)
  }

  /** The k-th poll happens before the deadline of a wait that starts at clock(0). */
  predicate InTime(clock: nat -> real, timeoutSeconds: nat, k: nat) {
    clock(k) < clock(0) + (timeoutSeconds + DEADLINE_MARGIN) as real
  }

  /** Poll k is the first that would come too late. */
  predicate IsDeadline(clock: nat -> real, timeoutSeconds: nat, k: nat) {
    !InTime(clock, timeoutSeconds, k) && forall i :: 0 <= i < k ==> InTime(clock, timeoutSeconds, i)
  }

  /**
   * `polls(k)` is the answer of the k-th poll, `clock(k)` the time just before it and `answered(k)` the
   * time just after. The verdict is that of the first poll that decides; without one the pod is deleted,
   * by the time `deletedAt`, and reported as timed out. The duration is never negative, but can be zero.
   */
  method WaitForJobCompletion(polls: nat -> Poll, clock: nat -> real, answered: nat -> real, deletedAt: real,
                              timeoutSeconds: nat)
    returns (r: Completion, count: nat, deleted: bool)
    requires forall k: nat :: clock(k) <= answered(k) && answered(k) + POLL_INTERVAL <= clock(k + 1)
    requires forall k: nat :: IsDeadline(clock, timeoutSeconds, k) ==> clock(k) <= deletedAt
    ensures forall k :: 0 <= k < count ==> clock(k) < clock(0) + (timeoutSeconds + 60) as real
    ensures forall k :: 0 <= k < count - 1 ==> !Decides(polls(k))
    ensures if count > 0 && Decides(polls(count - 1))
            then r == Verdict(polls(count - 1), answered(count - 1) - clock(0)) && !deleted
            else r == Completion(false, TIMEOUT_EXIT_CODE, deletedAt - clock(0)) && deleted &&
                 clock(count) >= clock(0) + (timeoutSeconds + 60) as real
    ensures r.succeeded <==> count > 0 && polls(count - 1).PodSucceeded?
    ensures r.exitCode == if r.succeeded then 0 else if deleted then 124
                          else if polls(count - 1).PodFailed? then polls(count - 1).exitCode else -1
    ensures r.seconds >= 2.0 * (count - 1) as real && (deleted ==> r.seconds >= (timeoutSeconds + 60) as real)
    ensures r.seconds >= 0.0
    ensures 2 * count <= timeoutSeconds + 61
  {
    count := 0;
    var start := clock(0);
    var deadline := start + (timeoutSeconds + DEADLINE_MARGIN) as real;
    while clock(count) < deadline
      invariant forall k :: 0 <= k < count ==> InTime(clock, timeoutSeconds, k) && !Decides(polls(k))
      invariant forall k :: 0 <= k < count ==> clock(k) < deadline
      invariant clock(0) + 2.0 * count as real <= clock(count)
      invariant 2 * count <= timeoutSeconds + DEADLINE_MARGIN + 1
      decreases timeoutSeconds + DEADLINE_MARGIN + 1 - 2 * count
    {
      var p := polls(count);
      var seconds := answered(count) - start;
      count := count + 1;
      match p {
        case PodSucceeded => return Completion(true, 0, seconds), count, false;
        case PodFailed(code) => return Completion(false, code, seconds), count, false;
        case PodGone => return Completion(false, GONE_EXIT_CODE, seconds), count, false;
        case _ =>
      }
    }
    return Completion(false, TIMEOUT_EXIT_CODE, deletedAt - start), count, true;
  }
}
