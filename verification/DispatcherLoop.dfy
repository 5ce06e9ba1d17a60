/**
 * The dispatcher's polling loop. Between any two awaits of an iteration, jobs in flight may
 * finish and `stop` may be called, so the loop is a state machine over the awaited replies.
 */
module DispatcherLoop {
  import opened Basics

  type RunId = nat

  const DEFAULT_MAX_CONCURRENT := 10.0

  /** Where the loop is suspended. */
  datatype Place =
    | Top
    | AwaitingMax
    | AwaitingActiveCount(max: real)
    | AwaitingDequeue(max: real, active: nat)
    | Sleeping
    | Ended

  /** `highest` is the largest maximum read so far; `late` counts the claims made after `stop`. */
  datatype State = State(running: bool, inflight: set<RunId>, place: Place, nextRun: RunId, highest: real, late: nat)

  datatype Event =
    | Turn
    | MaxRead(setting: Option<real>)
    | ActiveCounted(active: nat)
    | Dequeued(found: bool)
    | Failed
    | WokeUp
    | Finished(run: RunId)
    | Stop

  /** The setting max_concurrent_jobs if it is a positive number, otherwise the default. */
  function MaxInForce(setting: Option<real>): real {
    if setting.Some? && setting.value > 0.0 then setting.value else DEFAULT_MAX_CONCURRENT
  }

  predicate Enabled(s: State, e: Event) {
    match e
    case Turn => s.place.Top?
    case MaxRead(_) => s.place.AwaitingMax?
    case ActiveCounted(_) => s.place.AwaitingActiveCount?
    case Dequeued(_) => s.place.AwaitingDequeue?
    case Failed => s.place.AwaitingMax? || s.place.AwaitingActiveCount? || s.place.AwaitingDequeue?
    case WokeUp => s.place.Sleeping?
    case Finished(run) => run in s.inflight
    case Stop => true
  }

  /** The end of an iteration that did not claim: stop, or sleep before the next one. */
  function Idle(s: State): State {
    s.(place := if s.running then Sleeping else Ended)
  }

  function Apply(s: State, e: Event): State
    requires Enabled(s, e)
  {
    match e
    case Turn => s.(place := if s.running then AwaitingMax else Ended)
    case MaxRead(setting) =>
      var max := MaxInForce(setting);
      s.(place := AwaitingActiveCount(max), highest := if max > s.highest then max else s.highest)
    case ActiveCounted(active) =>
      if (active + |s.inflight|) as real >= s.place.max then Idle(s)
      else s.(place := AwaitingDequeue(s.place.max, active))
    case Dequeued(found) =>
      if !found then Idle(s)
      else s.(inflight := s.inflight + {s.nextRun}, nextRun := s.nextRun + 1,
              late := s.late + if s.running then 0 else 1,
              place := if s.running then Top else Ended)
    case Failed => Idle(s)
    case WokeUp => s.(place := Top)
    case Finished(run) => s.(inflight := s.inflight - {run})
    case Stop => s.(running := false)
  }

  const STARTED := State(true, {}, Top, 0, 0.0, 0)

  predicate Legal(s: State, run: seq<Event>)
    decreases |run|
  {
    run == [] || (Enabled(s, run[0]) && Legal(Apply(s, run[0]), run[1..]))
  }

  function Exec(s: State, run: seq<Event>): State
    requires Legal(s, run)
    decreases |run|
  {
    if run == [] then s else Exec(Apply(s, run[0]), run[1..])
  }

  lemma {:induction false} ExecAppend(s: State, run: seq<Event>, e: Event)
    requires Legal(s, run) && Enabled(Exec(s, run), e)
    ensures Legal(s, run + [e]) && Exec(s, run + [e]) == Apply(Exec(s, run), e)
    decreases |run|
  {
    if run == [] {
      assert run + [e] == [e];
    } else {
      assert (run + [e])[1..] == run[1..] + [e];
      ExecAppend(Apply(s, run[0]), run[1..], e);
    }
  }

  predicate MidIteration(place: Place) {
    place.AwaitingMax? || place.AwaitingActiveCount? || place.AwaitingDequeue?
  }

  /** Room found at the count lasts until the claim, as meanwhile jobs can only finish. */
  predicate Inv(s: State) {
    && (forall run :: run in s.inflight ==> run < s.nextRun)
    && (|s.inflight| > 0 ==> |s.inflight| <= Ceil(s.highest))
    && (s.place.AwaitingActiveCount? ==> s.place.max <= s.highest)
    && (s.place.AwaitingDequeue? ==> s.place.max <= s.highest && (s.place.active + |s.inflight|) as real < s.place.max)
    && s.late + (if !s.running && MidIteration(s.place) then 1 else 0) <= 1
    && (s.running ==> s.late == 0)
    && (s.place.Ended? ==> !s.running)
  }

  lemma StepKeepsInv(s: State, e: Event)
    requires Inv(s) && Enabled(s, e)
    ensures Inv(Apply(s, e))
    ensures Apply(s, e).inflight - s.inflight != {} ==>
              && e == Dequeued(true) && s.place.AwaitingDequeue?
              && (s.place.active + |s.inflight|) as real < s.place.max
              && |Apply(s, e).inflight| == |s.inflight| + 1
  {
    if e.Finished? {
      assert s.inflight == (s.inflight - {e.run}) + {e.run};
    }
  }

  /**
   * In every run of the loop: never more jobs are in flight than the largest maximum that was in
   * force (rounded up), and after `stop` at most one more job is claimed.
   */
  lemma {:induction false} RunKeepsInv(s: State, run: seq<Event>)
    requires Inv(s) && Legal(s, run)
    ensures Inv(Exec(s, run))
    decreases |run|
  {
    if run != [] {
      StepKeepsInv(s, run[0]);
      RunKeepsInv(Apply(s, run[0]), run[1..]);
    }
  }

  /** With the maximum never set above `limit`, at most that many jobs are in flight. */
  lemma CapacityHolds(run: seq<Event>, limit: nat)
    requires Legal(STARTED, run)
    requires forall k :: 0 <= k < |run| && run[k].MaxRead? ==> MaxInForce(run[k].setting) <= limit as real
    ensures |Exec(STARTED, run).inflight| <= limit
    ensures Exec(STARTED, run).late <= 1
    ensures Exec(STARTED, run).place.Ended? ==> !Exec(STARTED, run).running
  {
    RunKeepsInv(STARTED, run);
    HighestWithin(STARTED, run, limit);
  }

  lemma {:induction false} HighestWithin(s: State, run: seq<Event>, limit: nat)
    requires Legal(s, run) && s.highest <= limit as real
    requires forall k :: 0 <= k < |run| && run[k].MaxRead? ==> MaxInForce(run[k].setting) <= limit as real
    ensures Exec(s, run).highest <= limit as real
    decreases |run|
  {
    if run != [] {
      assert forall k :: 0 <= k < |run[1..]| ==> run[1..][k] == run[k + 1];
      HighestWithin(Apply(s, run[0]), run[1..], limit);
    }
  }

  /** Once ended, the loop never claims again. */
  lemma {:induction false} EndedClaimsNothing(s: State, run: seq<Event>)
    requires Legal(s, run) && s.place.Ended?
    ensures Exec(s, run).place.Ended? && Exec(s, run).nextRun == s.nextRun && Exec(s, run).inflight <= s.inflight
    decreases |run|
  {
    if run != [] {
      EndedClaimsNothing(Apply(s, run[0]), run[1..]);
    }
  }

  datatype Outcome = Processed | NothingPending | AtCapacity

  /**
   * The service object, with one method for each stretch of code between two awaits. Whatever order
   * they are called in, each where the loop is suspended there, the object has run the state machine.
   */
  class DispatcherService {
    var running: bool
    var inflight: set<RunId>
    var place: Place
    var nextRun: RunId
    ghost var highest: real
    ghost var late: nat
    ghost var history: seq<Event>

    ghost function Abstract(): State
      reads this
    {
      State(running, inflight, place, nextRun, highest, late)
    }

    ghost predicate Valid()
      reads this
    {
      Legal(STARTED, history) && Exec(STARTED, history) == Abstract()
    }

    /** The history has grown by one enabled event, and the object is valid again. */
    twostate predicate Took(e: Event)
      reads this
    {
      Enabled(old(Abstract()), e) && history == old(history) + [e] && Valid()
    }

    constructor ()
      ensures Valid() && history == []
    {
      running, inflight, place, nextRun := true, {}, Top, 0;
      highest, late, history := 0.0, 0, [];
    }

    lemma InvHolds()
      requires Valid()
      ensures Inv(Abstract())
    {
      RunKeepsInv(STARTED, history);
    }

    /**
     * Whatever has been called so far: no more jobs in flight than the maximum ever allowed, and at most
     * one late claim.
     */
    lemma StaysWithin(limit: nat)
      requires Valid()
      requires forall k :: 0 <= k < |history| && history[k].MaxRead? ==> MaxInForce(history[k].setting) <= limit as real
      ensures |inflight| <= limit && late <= 1 && (place.Ended? ==> !running)
    {
      CapacityHolds(history, limit);
    }

    lemma Advance(e: Event)
      requires Valid() && Enabled(Abstract(), e)
      ensures Legal(STARTED, history + [e]) && Exec(STARTED, history + [e]) == Apply(Abstract(), e)
      ensures Inv(Abstract())
    {
      ExecAppend(STARTED, history, e);
      InvHolds();
    }

    /** The head of the loop: goes on iff `stop` has not been called. */
    method BeginIteration()
      requires Valid() && place.Top?
      modifies this
      ensures Took(Turn) && inflight == old(inflight)
      ensures place == if old(running) then AwaitingMax else Ended
    {
      Advance(Turn);
      history := history + [Turn];
      if running {
        place := AwaitingMax;
      } else {
        place := Ended;
      }
    }

    /** From here on the iteration works with a positive maximum, the configured one if that is positive. */
    method OnMaxRead(setting: Option<real>)
      requires Valid() && place.AwaitingMax?
      modifies this
      ensures Took(MaxRead(setting)) && inflight == old(inflight)
      ensures place.AwaitingActiveCount? && 0.0 < place.max <= highest
      ensures place.max == if setting.Some? && setting.value > 0.0 then setting.value else 10.0
    {
      Advance(MaxRead(setting));
      history := history + [MaxRead(setting)];
      var max := DEFAULT_MAX_CONCURRENT;
      if setting.Some? && setting.value > 0.0 {
        max := setting.value;
      }
      highest := if max > highest then max else highest;
      place := AwaitingActiveCount(max);
    }

    /**
     * The iteration gets to claim only if one more job in flight, next to the active pods, is within the
     * maximum rounded up.
     */
    method OnActiveCounted(active: nat) returns (outcome: Option<Outcome>)
      requires Valid() && place.AwaitingActiveCount?
      modifies this
      ensures Took(ActiveCounted(active)) && inflight == old(inflight)
      ensures outcome.None? <==> place.AwaitingDequeue?
      ensures outcome.None? ==> active + |inflight| + 1 <= Ceil(old(place).max)
      ensures outcome.Some? ==> outcome.value == AtCapacity && active + |inflight| >= Ceil(old(place).max)
      ensures outcome.Some? ==> place == if old(running) then Sleeping else Ended
      ensures outcome.None? ==> place == AwaitingDequeue(old(place).max, active)
    {
      Advance(ActiveCounted(active));
      history := history + [ActiveCounted(active)];
      var max := place.max;
      if (active + |inflight|) as real >= max {
        place := if running then Sleeping else Ended;
        return Some(AtCapacity);
      }
      place := AwaitingDequeue(max, active);
      return None;
    }

    /** A claimed job is one more in flight, and still within the maximum, as meanwhile jobs have only finished. */
    method OnDequeued(found: bool) returns (outcome: Outcome)
      requires Valid() && place.AwaitingDequeue?
      modifies this
      ensures Took(Dequeued(found)) && (outcome == Processed <==> found)
      ensures found ==> old(inflight) < inflight && |inflight| == |old(inflight)| + 1
      ensures found ==> old(place).active + |inflight| <= Ceil(old(place).max)
      ensures !found ==> inflight == old(inflight) && outcome == NothingPending
      ensures place == if !old(running) then Ended else if found then Top else Sleeping
    {
      Advance(Dequeued(found));
      history := history + [Dequeued(found)];
      if !found {
        place := if running then Sleeping else Ended;
        return NothingPending;
      }
      inflight := inflight + {nextRun};
      nextRun := nextRun + 1;
      if running {
        place := Top;
      } else {
        late := late + 1;
        place := Ended;
      }
      return Processed;
    }

    /** An awaited call threw: the iteration ends, and the loop sleeps or ends. */
    method OnFailed()
      requires Valid() && MidIteration(place)
      modifies this
      ensures Took(Failed) && inflight == old(inflight) && place == if old(running) then Sleeping else Ended
    {
      Advance(Failed);
      history := history + [Failed];
      place := if running then Sleeping else Ended;
    }

    method OnWokeUp()
      requires Valid() && place.Sleeping?
      modifies this
      ensures Took(WokeUp) && inflight == old(inflight) && place == Top
    {
      Advance(WokeUp);
      history := history + [WokeUp];
      place := Top;
    }

    method OnFinished(run: RunId)
      requires Valid() && run in inflight
      modifies this
      ensures Took(Finished(run)) && inflight == old(inflight) - {run} && place == old(place)
    {
      Advance(Finished(run));
      history := history + [Finished(run)];
      inflight := inflight - {run};
    }

    method StopLoop()
      requires Valid()
      modifies this
      ensures Took(Stop) && !running && inflight == old(inflight) && place == old(place)
    {
      Advance(Stop);
      history := history + [Stop];
      if !running {
        return;
      }
      running := false;
    }
  }
}
