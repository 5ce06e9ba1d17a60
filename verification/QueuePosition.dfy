/** The two queue positions the service reports, and the order in which jobs are then claimed. */
module QueuePosition {
  import opened Basics
  import opened JobTables

  /** The pending jobs that the counting query puts strictly ahead of `id`. */
  function Ahead(jobs: map<JobId, Job>, at: real, id: JobId): set<JobId>
    requires id in jobs
  {
    set k | k in jobs && k != id && jobs[k].status == Pending && Score(jobs[k], at) > Score(jobs[id], at)
  }

  function Tied(jobs: map<JobId, Job>, at: real, id: JobId): set<JobId>
    requires id in jobs
  {
    set k | k in jobs && k != id && jobs[k].status == Pending && Score(jobs[k], at) == Score(jobs[id], at)
  }

  /** What `ORDER BY score DESC` may return: ties come in any order. */
  ghost predicate IsRanking(jobs: map<JobId, Job>, at: real, order: seq<JobId>) {
    && (forall k :: k in order <==> IsPending(jobs, k))
    && (forall i, j :: 0 <= i < j < |order| ==> order[i] != order[j])
    && (forall i, j :: 0 <= i < j < |order| ==>
          order[i] in jobs && order[j] in jobs && Score(jobs[order[j]], at) <= Score(jobs[order[i]], at))
  }

  function Claim(jobs: map<JobId, Job>, at: real, id: JobId): map<JobId, Job>
    requires id in jobs
  {
    jobs[id := ClaimedRow(jobs[id], "", at)]
  }

  /** `picks` can be claimed one after the other, all at the same instant. */
  ghost predicate ClaimOrder(jobs: map<JobId, Job>, at: real, picks: seq<JobId>)
    decreases |picks|
  {
    picks == [] || (IsTop(jobs, at, picks[0]) && ClaimOrder(Claim(jobs, at, picks[0]), at, picks[1..]))
  }

  /** A ranking lists the pending jobs in an order in which the scheduler can claim them. */
  lemma {:induction false} RankingIsClaimOrder(jobs: map<JobId, Job>, at: real, order: seq<JobId>)
    requires IsRanking(jobs, at, order)
    ensures ClaimOrder(jobs, at, order)
    decreases |order|
  {
    if order != [] {
      var top := order[0];
      assert top in order && IsPending(jobs, top);
      forall k | IsPending(jobs, k)
        ensures Score(jobs[k], at) <= Score(jobs[top], at)
      {
        var i :| 0 <= i < |order| && order[i] == k;
      }
      var rest, left := order[1..], Claim(jobs, at, top);
      forall k
        ensures k in rest <==> IsPending(left, k)
      {
        assert k in rest <==> k in order && k != top;
      }
      RankingIsClaimOrder(left, at, rest);
    }
  }

  /**
   * A job is claimed after everything strictly ahead of it and before everything strictly behind:
   * its place among the claims is its counting rank, give or take the jobs tied with it.
   */
  lemma {:induction false} ClaimPlace(jobs: map<JobId, Job>, at: real, picks: seq<JobId>, id: JobId)
    requires ClaimOrder(jobs, at, picks) && IsPending(jobs, id)
    ensures forall q :: 0 <= q < |picks| && picks[q] == id ==>
              |Ahead(jobs, at, id)| <= q <= |Ahead(jobs, at, id)| + |Tied(jobs, at, id)|
    ensures |picks| > |Ahead(jobs, at, id)| + |Tied(jobs, at, id)| ==> id in picks
    decreases |picks|
  {
    if picks != [] {
      var top := picks[0];
      var left := Claim(jobs, at, top);
      if top == id {
        assert Ahead(jobs, at, id) == {};
        NotClaimedAgain(left, at, picks[1..], id);
      } else {
        ClaimPlace(left, at, picks[1..], id);
        if top in Ahead(jobs, at, id) {
          assert Ahead(left, at, id) == Ahead(jobs, at, id) - {top};
          assert Tied(left, at, id) == Tied(jobs, at, id);
        } else {
          assert Ahead(jobs, at, id) == {} == Ahead(left, at, id);
          assert Tied(left, at, id) == Tied(jobs, at, id) - {top};
        }
      }
    }
  }

  lemma {:induction false} NotClaimedAgain(jobs: map<JobId, Job>, at: real, picks: seq<JobId>, id: JobId)
    requires ClaimOrder(jobs, at, picks) && !IsPending(jobs, id)
    ensures id !in picks
    decreases |picks|
  {
    if picks != [] {
      NotClaimedAgain(Claim(jobs, at, picks[0]), at, picks[1..], id);
    }
  }

  /** The sorting rank is at least the counting rank and exceeds it by at most the number of ties. */
  lemma RanksAgreeUpToTies(jobs: map<JobId, Job>, at: real, order: seq<JobId>, i: nat)
    requires IsRanking(jobs, at, order) && i < |order|
    ensures order[i] in jobs
    ensures |Ahead(jobs, at, order[i])| <= i <= |Ahead(jobs, at, order[i])| + |Tied(jobs, at, order[i])|
  {
    assert order[i] in order && IsPending(jobs, order[i]);
    RankingIsClaimOrder(jobs, at, order);
    ClaimPlace(jobs, at, order, order[i]);
  }

  ghost predicate DistinctScores(jobs: map<JobId, Job>, at: real) {
    forall k, l :: IsPending(jobs, k) && IsPending(jobs, l) && k != l ==> Score(jobs[k], at) != Score(jobs[l], at)
  }

  lemma NoTies(jobs: map<JobId, Job>, at: real, id: JobId)
    requires DistinctScores(jobs, at) && IsPending(jobs, id)
    ensures |Tied(jobs, at, id)| == 0
  {
    assert forall k :: k in Tied(jobs, at, id) ==> IsPending(jobs, k);
    assert Tied(jobs, at, id) == {};
  }

  lemma RankIsAhead(jobs: map<JobId, Job>, at: real, order: seq<JobId>, id: JobId)
    requires DistinctScores(jobs, at) && IsRanking(jobs, at, order) && IsPending(jobs, id)
    ensures |Ahead(jobs, at, id)| < |order| && order[|Ahead(jobs, at, id)|] == id
  {
    NoTies(jobs, at, id);
    assert id in order;
    var i :| 0 <= i < |order| && order[i] == id;
    RanksAgreeUpToTies(jobs, at, order, i);
  }

  lemma PlaceIsAhead(jobs: map<JobId, Job>, at: real, picks: seq<JobId>, id: JobId)
    requires DistinctScores(jobs, at) && ClaimOrder(jobs, at, picks) && IsPending(jobs, id)
    ensures |Ahead(jobs, at, id)| < |picks| <==> id in picks
    ensures id in picks ==> picks[|Ahead(jobs, at, id)|] == id
  {
    NoTies(jobs, at, id);
    ClaimPlace(jobs, at, picks, id);
  }

  /** With distinct scores both ranks are the number of dequeues that come first, exactly. */
  lemma PositionIsClaimOrder(jobs: map<JobId, Job>, at: real, order: seq<JobId>, picks: seq<JobId>, id: JobId)
    requires DistinctScores(jobs, at) && IsRanking(jobs, at, order)
    requires ClaimOrder(jobs, at, picks) && IsPending(jobs, id)
    ensures |Ahead(jobs, at, id)| < |order| && order[|Ahead(jobs, at, id)|] == id
    ensures |Ahead(jobs, at, id)| < |picks| <==> id in picks
    ensures id in picks ==> picks[|Ahead(jobs, at, id)|] == id
  {
    RankIsAhead(jobs, at, order, id);
    PlaceIsAhead(jobs, at, picks, id);
  }

  // ---- The two queries as the code runs them ------------------------------------

  lemma VisitOne(wanted: set<JobId>, todo: set<JobId>, k: JobId)
    requires k in todo
    ensures |wanted - (todo - {k})| == |wanted - todo| + if k in wanted then 1 else 0
  {
    if k in wanted {
      assert wanted - (todo - {k}) == (wanted - todo) + {k};
    } else {
      assert wanted - (todo - {k}) == wanted - todo;
    }
  }

  /** The counting query: how many pending jobs score strictly more. A missing row counts none. */
  method CountJobsAhead(jobs: map<JobId, Job>, at: real, id: JobId) returns (count: nat)
    ensures count == if id in jobs then |Ahead(jobs, at, id)| else 0
    ensures id in jobs ==>
              forall k :: k in Ahead(jobs, at, id) <==>
                k in jobs && k != id && jobs[k].status == Pending && Score(jobs[k], at) > Score(jobs[id], at)
  {
    count := 0;
    if id !in jobs {
      return;
    }
    ghost var ahead := Ahead(jobs, at, id);
    var mine := Score(jobs[id], at);
    var todo := jobs.Keys;
    while todo != {}
      invariant todo <= jobs.Keys
      invariant count == |ahead - todo|
    {
      var k :| k in todo;
      if k != id && jobs[k].status == Pending && Score(jobs[k], at) > mine {
        count := count + 1;
      }
      VisitOne(ahead, todo, k);
      todo := todo - {k};
    }
    assert ahead - todo == ahead;
  }

  datatype Standing = Standing(position: nat, estimatedWait: real, score: real, totalPending: nat)

  /**
   * What the status of a job reports about its place, by counting. The row is read from `found`, the
   * better jobs are counted in `counted`, and all pending jobs in `totalled`: three queries, between
   * which the tables may change. A job that is not pending gets the place it would have at its score.
   */
  method DescribeStanding(found: map<JobId, Job>, counted: map<JobId, Job>, totalled: map<JobId, Job>,
                          at: real, now: real, recent: Option<real>, id: JobId)
    returns (r: Option<Standing>)
    ensures r.Some? <==> id in found
    ensures r.Some? ==>
              && r.value.position == 1 + (if id in counted then |Ahead(counted, at, id)| else 0)
              && r.value.score == DisplayScore(found[id], now)
              && (found[id].submittedAt <= now ==>
                    var s := found[id].estimatedRuntime; r.value.score == (now - found[id].submittedAt + s) / s)
              && r.value.estimatedWait == r.value.position as real * recent.GetOr(found[id].estimatedRuntime)
              && r.value.totalPending == |PendingJobs(totalled)|
              && (forall k :: k in PendingJobs(totalled) <==> k in totalled && totalled[k].status == Pending)
    ensures r.Some? && IsPending(counted, id) && counted == totalled ==> 1 <= r.value.position <= r.value.totalPending
  {
    if id !in found {
      return None;
    }
    var ahead := CountJobsAhead(counted, at, id);
    var position := ahead + 1;
    if id in counted {
      AheadIsPending(counted, at, id);
    }
    return Some(Standing(position, position as real * recent.GetOr(found[id].estimatedRuntime),
                         DisplayScore(found[id], now), |PendingJobs(totalled)|));
  }

  lemma AheadIsPending(jobs: map<JobId, Job>, at: real, id: JobId)
    requires id in jobs
    ensures IsPending(jobs, id) ==> |Ahead(jobs, at, id)| < |PendingJobs(jobs)|
  {
    if IsPending(jobs, id) {
      Smaller(Ahead(jobs, at, id), PendingJobs(jobs) - {id});
    }
  }

  lemma Smaller(a: set<JobId>, b: set<JobId>)
    requires a <= b
    ensures |a| <= |b|
  {
    assert b == a + (b - a);
  }

  datatype PositionReply =
    | NotFound
    | NotPending(status: Status)
    | Position(position: nat, score: Option<real>, estimatedWait: real, totalPending: nat)

  /** The first place of `id` in the order, if it has one. */
  method FindIndex(order: seq<JobId>, id: JobId) returns (index: int)
    ensures index == -1 <==> id !in order
    ensures index != -1 ==> 0 <= index < |order| && order[index] == id && id !in order[..index]
  {
    index := 0;
    while index < |order| && order[index] != id
      invariant 0 <= index <= |order| && id !in order[..index]
    {
      index := index + 1;
    }
    if index == |order| {
      assert order[..index] == order;
      index := -1;
    }
  }

  /**
   * The reply of the queue endpoint. The row is read from `found`; `order` are the sorted rows of a
   * later query, made at time `at` of the tables `jobs`. `recent` is the average runtime of the last
   * hour, if anything completed in it. A job that has left the queue in between gets position 0.
   */
  method GetQueuePosition(found: map<JobId, Job>, jobs: map<JobId, Job>, at: real, order: seq<JobId>,
      recent: Option<real>, id: JobId)
    returns (reply: PositionReply)
    requires IsRanking(jobs, at, order)
    ensures id !in found ==> reply == NotFound
    ensures id in found && found[id].status != Pending ==> reply == NotPending(found[id].status)
    ensures IsPending(found, id) ==>
              && reply.Position? && reply.totalPending == |order|
              && reply.estimatedWait == reply.position as real * recent.GetOr(found[id].estimatedRuntime)
              && (reply.position == 0 <==> !IsPending(jobs, id)) && (reply.score.None? <==> !IsPending(jobs, id))
    ensures IsPending(found, id) && IsPending(jobs, id) ==>
              && 1 <= reply.position <= |order| && order[reply.position - 1] == id
              && reply.score == Some(Score(jobs[id], at))
              && |Ahead(jobs, at, id)| < reply.position <= |Ahead(jobs, at, id)| + |Tied(jobs, at, id)| + 1
  {
    if id !in found {
      return NotFound;
    }
    if found[id].status != Pending {
      return NotPending(found[id].status);
    }
    var average := recent.GetOr(found[id].estimatedRuntime);
    var index := FindIndex(order, id);
    assert id in order <==> IsPending(jobs, id);
    if index >= 0 {
      RanksAgreeUpToTies(jobs, at, order, index);
    }
    var score := if index >= 0 then Some(Score(jobs[id], at)) else None;
    return Position(index + 1, score, (index + 1) as real * average, |order|);
  }
}
