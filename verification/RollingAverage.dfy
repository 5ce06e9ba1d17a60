/** The rolling average of an image is the true mean of its recorded runtimes. */
module RollingAverage {
  import opened Basics
  import opened JobTables

  function CountFor(history: seq<Completion>, image: ImageId): (n: nat)
    ensures n <= |history|
  {
    if history == [] then 0
    else
      var last := history[|history| - 1];
      CountFor(history[..|history| - 1], image) + (if last.imageId == image then 1 else 0)
  }

  function SumFor(history: seq<Completion>, image: ImageId): real {
    if history == [] then 0.0
    else
      var last := history[|history| - 1];
      SumFor(history[..|history| - 1], image) + (if last.imageId == image then last.runtime else 0.0)
  }

  function Mean(sum: real, n: nat): real
    requires n > 0
  {
    sum / n as real
  }

  /** The stored statistics of one image agree with its history of completions. */
  ghost predicate ImageStatsOk(image: Image, id: ImageId, history: seq<Completion>) {
    var n := CountFor(history, id);
    && image.totalCompleted == n
    && image.average == if n == 0 then None else Some(Mean(SumFor(history, id), n))
  }

  ghost predicate StatsOk(images: map<ImageId, Image>, history: seq<Completion>) {
    && (forall i :: i in images ==> ImageStatsOk(images[i], i, history))
    && (forall k :: 0 <= k < |history| ==> history[k].imageId in images)
  }

  /** An image that has no completions yet counts zero of them. */
  lemma {:induction false} NoCompletions(history: seq<Completion>, image: ImageId)
    requires forall k :: 0 <= k < |history| ==> history[k].imageId != image
    ensures CountFor(history, image) == 0 && SumFor(history, image) == 0.0
  {
    if history != [] {
      NoCompletions(history[..|history| - 1], image);
    }
  }

  /** One recorded runtime turns the mean of n values into the mean of n + 1 values. */
  lemma BlendMean(s: real, n: nat, r: real)
    requires n > 0
    ensures Blend(Mean(s, n), n, r) == Mean(s + r, n + 1)
  {
    MeanTimesCount(s, n);
  }

  lemma MeanTimesCount(s: real, n: nat)
    requires n > 0
    ensures Mean(s, n) * n as real == s
  {
  }

  lemma MeanOfOne(s: real)
    ensures Mean(s, 1) == s
  {
  }

  lemma RecordKeepsImageStats(image: Image, history: seq<Completion>, c: Completion)
    requires ImageStatsOk(image, c.imageId, history)
    ensures ImageStatsOk(RecordRuntime(image, c.runtime), c.imageId, history + [c])
  {
    var after := history + [c];
    assert after[..|after| - 1] == history;
    var n, s := image.totalCompleted, SumFor(history, c.imageId);
    assert SumFor(after, c.imageId) == s + c.runtime;
    if n > 0 {
      BlendMean(s, n, c.runtime);
    } else {
      NoneRecorded(history, c.imageId);
      MeanOfOne(c.runtime);
    }
  }

  lemma OtherImagesKeepStats(image: Image, id: ImageId, history: seq<Completion>, c: Completion)
    requires ImageStatsOk(image, id, history) && id != c.imageId
    ensures ImageStatsOk(image, id, history + [c])
  {
    var after := history + [c];
    assert after[..|after| - 1] == history;
  }

  /** A committed completion keeps every image's count and mean exact. */
  lemma RecordKeepsStats(images: map<ImageId, Image>, history: seq<Completion>, c: Completion)
    requires StatsOk(images, history) && c.imageId in images
    ensures StatsOk(images[c.imageId := RecordRuntime(images[c.imageId], c.runtime)], history + [c])
  {
    forall i | i in images && i != c.imageId
      ensures ImageStatsOk(images[i], i, history + [c])
    {
      OtherImagesKeepStats(images[i], i, history, c);
    }
    RecordKeepsImageStats(images[c.imageId], history, c);
  }

  lemma {:induction false} NoneRecorded(history: seq<Completion>, image: ImageId)
    requires CountFor(history, image) == 0
    ensures SumFor(history, image) == 0.0
  {
    if history != [] {
      NoneRecorded(history[..|history| - 1], image);
    }
  }

  // ---- The update folded over a whole sequence of runtimes ----------------------

  function Total(rs: seq<real>): real {
    if rs == [] then 0.0 else Total(rs[..|rs| - 1]) + rs[|rs| - 1]
  }

  function RecordAll(image: Image, rs: seq<real>): Image {
    if rs == [] then image else RecordRuntime(RecordAll(image, rs[..|rs| - 1]), rs[|rs| - 1])
  }

  /** From a new image, any sequence of completions leaves exactly the mean and the count. */
  lemma {:induction false} AverageIsMean(image: Image, rs: seq<real>)
    requires image.totalCompleted == 0 && image.average == None
    ensures RecordAll(image, rs).totalCompleted == |rs|
    ensures rs != [] ==> RecordAll(image, rs).average == Some(Mean(Total(rs), |rs|))
  {
    if rs != [] {
      var front, last := rs[..|rs| - 1], rs[|rs| - 1];
      AverageIsMean(image, front);
      if front != [] {
        BlendMean(Total(front), |front|, last);
      } else {
        MeanOfOne(last);
      }
    }
  }

  lemma {:induction false} TotalSplit(a: seq<real>, b: seq<real>)
    ensures Total(a + b) == Total(a) + Total(b)
  {
    if b == [] {
      assert a + b == a;
    } else {
      assert (a + b)[..|a + b| - 1] == a + b[..|b| - 1];
      TotalSplit(a, b[..|b| - 1]);
    }
  }

  lemma {:induction false} TotalOfPermutation(rs: seq<real>, qs: seq<real>)
    requires multiset(rs) == multiset(qs)
    ensures Total(rs) == Total(qs)
    decreases |rs|
  {
    if rs == [] {
      assert |multiset(qs)| == 0;
    } else {
      var front, last := rs[..|rs| - 1], rs[|rs| - 1];
      assert rs == front + [last];
      assert last in multiset(qs);
      var k :| 0 <= k < |qs| && qs[k] == last;
      var without := qs[..k] + qs[k + 1..];
      assert qs == qs[..k] + ([last] + qs[k + 1..]);
      assert multiset(without) == multiset(qs) - multiset{last};
      assert multiset(front) == multiset(rs) - multiset{last};
      TotalOfPermutation(front, without);
      TotalSplit(qs[..k], qs[k + 1..]);
      TotalSplit(qs[..k], [last] + qs[k + 1..]);
      TotalSplit([last], qs[k + 1..]);
      assert Total([last]) == Total([]) + last;
    }
  }

  /** The order in which jobs complete does not matter to the stored average. */
  lemma AverageIgnoresOrder(image: Image, rs: seq<real>, qs: seq<real>)
    requires image.totalCompleted == 0 && image.average == None
    requires multiset(rs) == multiset(qs)
    ensures RecordAll(image, rs) == RecordAll(image, qs)
  {
    AverageIsMean(image, rs);
    AverageIsMean(image, qs);
    TotalOfPermutation(rs, qs);
    assert |rs| == |multiset(rs)| == |multiset(qs)| == |qs|;
    OnlyStatsChange(image, rs);
    OnlyStatsChange(image, qs);
  }

  lemma {:induction false} OnlyStatsChange(image: Image, rs: seq<real>)
    ensures var r := RecordAll(image, rs);
            r == image.(average := r.average, totalCompleted := r.totalCompleted)
  {
    if rs != [] {
      OnlyStatsChange(image, rs[..|rs| - 1]);
    }
  }

  function Times(x: real, n: nat): real {
    x * n as real
  }

  lemma OneMore(x: real, n: nat)
    ensures Times(x, n + 1) == Times(x, n) + x && Times(x, 0) == 0.0
  {
  }

  lemma {:induction false} SumWithin(history: seq<Completion>, image: ImageId, lo: real, hi: real)
    requires forall k :: 0 <= k < |history| && history[k].imageId == image ==> lo <= history[k].runtime <= hi
    ensures Times(lo, CountFor(history, image)) <= SumFor(history, image) <= Times(hi, CountFor(history, image))
  {
    OneMore(lo, 0);
    OneMore(hi, 0);
    if history != [] {
      var front := history[..|history| - 1];
      SumWithin(front, image, lo, hi);
      OneMore(lo, CountFor(front, image));
      OneMore(hi, CountFor(front, image));
    }
  }

  /** The average lies between the least and the greatest recorded runtime. */
  lemma AverageWithinBounds(image: Image, id: ImageId, history: seq<Completion>, lo: real, hi: real)
    requires ImageStatsOk(image, id, history) && image.average.Some?
    requires forall k :: 0 <= k < |history| && history[k].imageId == id ==> lo <= history[k].runtime <= hi
    ensures lo <= image.average.value <= hi
  {
    SumWithin(history, id, lo, hi);
    MeanBetween(SumFor(history, id), CountFor(history, id), lo, hi);
  }

  lemma MeanBetween(s: real, n: nat, lo: real, hi: real)
    requires n > 0 && lo * n as real <= s <= hi * n as real
    ensures lo <= Mean(s, n) <= hi
  {
    var mean, k := Mean(s, n), n as real;
    MeanTimesCount(s, n);
    ScaleOrder(lo, mean, k);
    ScaleOrder(mean, hi, k);
  }

  lemma {:induction false} PositiveSum(history: seq<Completion>, image: ImageId)
    requires forall k :: 0 <= k < |history| && history[k].imageId == image ==> history[k].runtime >= 0.0
    ensures SumFor(history, image) >= 0.0
    ensures SumFor(history, image) == 0.0 <==>
              forall k :: 0 <= k < |history| && history[k].imageId == image ==> history[k].runtime == 0.0
  {
    if history != [] {
      var front := history[..|history| - 1];
      PositiveSum(front, image);
      assert forall k :: 0 <= k < |front| ==> front[k] == history[k];
    }
  }

  /**
   * Durations are never negative but can be zero. The average is unusable as an estimate
   * (not positive) exactly when every recorded runtime of the image is zero.
   */
  lemma AverageVanishesIff(image: Image, id: ImageId, history: seq<Completion>)
    requires ImageStatsOk(image, id, history) && image.average.Some?
    requires forall k :: 0 <= k < |history| && history[k].imageId == id ==> history[k].runtime >= 0.0
    ensures image.average.value >= 0.0
    ensures image.average.value == 0.0 <==>
              forall k :: 0 <= k < |history| && history[k].imageId == id ==> history[k].runtime == 0.0
  {
    PositiveSum(history, id);
    MeanTimesCount(SumFor(history, id), CountFor(history, id));
  }
}
