/** `computeResults` (lines 675-706): a read-only fold over the trials, the response log
    and the four counters, giving signal-detection statistics. */
module Statistics {
  import opened Trials

  /** The floating-point routines the results use and this model leaves uninterpreted:
      `Math.sqrt` and the Winitzki approximation `inverseError` (lines 760-770). */
  datatype Numerics = Numerics(sqrt: real -> real, inverseError: real -> real)

  datatype Results = Results(
    accuracy: real,
    meanRT: real,
    rtSD: real,
    hits: nat,
    misses: nat,
    falseAlarms: nat,
    correctRejections: nat,
    hitRate: real,
    falseAlarmRate: real,
    dPrime: real)

  /** `count > 0 ? n / count : 0` */
  function Rate(n: nat, count: nat): (r: real)
    ensures count == 0 ==> r == 0.0
    ensures count > 0 ==> r * (count as real) == n as real
    ensures 0.0 <= r
    ensures n <= count ==> r <= 1.0
  {
    if count > 0 then (n as real) / (count as real) else 0.0
  }

  /** The z-score of a rate, clamped to ±3 at the ends:
      `rate >= 1 ? 3 : rate <= 0 ? -3 : Math.sqrt(2) * inverseError(2 * rate - 1)`. */
  function ZScore(rate: real, num: Numerics): (z: real)
    ensures rate >= 1.0 ==> z == 3.0
    ensures rate <= 0.0 ==> z == -3.0
  {
    if rate >= 1.0 then 3.0
    else if rate <= 0.0 then -3.0
    else num.sqrt(2.0) * num.inverseError(2.0 * rate - 1.0)
  }

  /** The reaction times that enter the statistics: those of `hit` entries whose
      reaction time is truthy, that is, non-zero. */
  function HitReactionTimes(rs: seq<Response>): (rts: seq<int>)
    ensures |rts| <= |rs|
    ensures forall k :: 0 <= k < |rts| ==> rts[k] != 0
    ensures forall x :: x in rts <==>
              exists k :: 0 <= k < |rs| && rs[k].kind == Hit && rs[k].reactionTime == x && x != 0
  {
    if rs == [] then []
    else
      var rest := HitReactionTimes(rs[..|rs| - 1]);
      var r := rs[|rs| - 1];
      assert forall k :: 0 <= k < |rs| - 1 ==> rs[..|rs| - 1][k] == rs[k];
      if r.kind == Hit && r.reactionTime != 0 then rest + [r.reactionTime] else rest
  }

  /** The positions of the `hit` entries whose reaction time is `x`. */
  ghost function HitsWith(rs: seq<Response>, x: int): set<nat>
  {
    set k: nat | k < |rs| && rs[k].kind == Hit && rs[k].reactionTime == x
  }

  /** Every non-zero reaction time enters the statistics as often as a `hit` entry
      carries it. */
  lemma {:induction false} HitReactionTimesCount(rs: seq<Response>, x: int)
    requires x != 0
    ensures multiset(HitReactionTimes(rs))[x] == |HitsWith(rs, x)|
  {
    if rs != [] {
      var init := rs[..|rs| - 1];
      var e := rs[|rs| - 1];
      HitReactionTimesCount(init, x);
      if e.kind == Hit && e.reactionTime == x {
        assert HitsWith(rs, x) == HitsWith(init, x) + {|rs| - 1};
      } else {
        assert HitsWith(rs, x) == HitsWith(init, x);
      }
    }
  }

  /** `reduce((a, b) => a + b, 0)` */
  function Sum(xs: seq<real>): real
  {
    if xs == [] then 0.0 else Sum(xs[..|xs| - 1]) + xs[|xs| - 1]
  }

  function AsReals(xs: seq<int>): (ys: seq<real>)
    ensures |ys| == |xs| && forall k :: 0 <= k < |xs| ==> ys[k] == xs[k] as real
  {
    seq(|xs|, k requires 0 <= k < |xs| => xs[k] as real)
  }

  /** The arithmetic mean, 0 for no values. */
  function Mean(xs: seq<real>): (m: real)
    ensures |xs| == 0 ==> m == 0.0
  {
    if |xs| > 0 then Sum(xs) / (|xs| as real) else 0.0
  }

  /** `Math.pow(x, 2)` */
  function Square(x: real): (s: real)
    ensures 0.0 <= s
  {
    x * x
  }

  lemma PositiveProduct(a: real, b: real)
    requires 0.0 < a && 0.0 < b
    ensures 0.0 < a * b
  {
  }

  /** `reduce((sum, x) => sum + Math.pow(x - mean, 2), 0)` */
  function SumSquaredDeviations(xs: seq<real>, mean: real): (s: real)
    ensures 0.0 <= s
  {
    if xs == [] then 0.0
    else SumSquaredDeviations(xs[..|xs| - 1], mean) + Square(xs[|xs| - 1] - mean)
  }

  /** The population variance (dividing by n), 0 for no values. */
  function Variance(xs: seq<real>): (v: real)
    ensures 0.0 <= v
  {
    if |xs| > 0 then SumSquaredDeviations(xs, Mean(xs)) / (|xs| as real) else 0.0
  }

  /** A sum of values between `lo` and `hi` lies between `n * lo` and `n * hi`. */
  lemma {:induction false} SumBounds(xs: seq<real>, lo: real, hi: real)
    requires forall k :: 0 <= k < |xs| ==> lo <= xs[k] <= hi
    ensures (|xs| as real) * lo <= Sum(xs) <= (|xs| as real) * hi
  {
    if xs != [] {
      SumBounds(xs[..|xs| - 1], lo, hi);
    }
  }

  /** The mean lies between any lower and upper bound of the values. */
  lemma MeanBounds(xs: seq<real>, lo: real, hi: real)
    requires |xs| > 0
    requires forall k :: 0 <= k < |xs| ==> lo <= xs[k] <= hi
    ensures lo <= Mean(xs) <= hi
  {
    SumBounds(xs, lo, hi);
    var n := |xs| as real;
    var m := Mean(xs);
    assert m * n == Sum(xs);
    if m < lo {
      PositiveProduct(lo - m, n);
    }
    if hi < m {
      PositiveProduct(m - hi, n);
    }
  }

  /** `totalTrials > 0 ? (correctResponses / totalTrials) * 100 : 0` */
  function Accuracy(correctResponses: nat, totalTrials: nat): (a: real)
    ensures totalTrials == 0 ==> a == 0.0
    ensures totalTrials > 0 ==> a * (totalTrials as real) == 100.0 * (correctResponses as real)
  {
    if totalTrials > 0 then (correctResponses as real / totalTrials as real) * 100.0 else 0.0
  }

  /** The results record. */
  function ComputeResults(trials: seq<Trial>, responses: seq<Response>,
                          hits: nat, misses: nat, falseAlarms: nat, correctRejections: nat,
                          num: Numerics): (r: Results)
    ensures r.hits == hits && r.misses == misses
    ensures r.falseAlarms == falseAlarms && r.correctRejections == correctRejections
    ensures CountKind(trials, true) == 0 ==> r.hitRate == 0.0
    ensures CountKind(trials, true) > 0 ==> r.hitRate * (CountKind(trials, true) as real) == hits as real
    ensures CountKind(trials, false) == 0 ==> r.falseAlarmRate == 0.0
    ensures CountKind(trials, false) > 0 ==>
              r.falseAlarmRate * (CountKind(trials, false) as real) == falseAlarms as real
    ensures r.dPrime == ZScore(r.hitRate, num) - ZScore(r.falseAlarmRate, num)
    ensures HitReactionTimes(responses) == [] ==> r.meanRT == 0.0 && r.rtSD == num.sqrt(0.0)
    ensures r.meanRT == Mean(AsReals(HitReactionTimes(responses)))
    ensures r.rtSD == num.sqrt(Variance(AsReals(HitReactionTimes(responses))))
    ensures |trials| == 0 ==> r.accuracy == 0.0
    ensures |trials| > 0 ==> r.accuracy * (|trials| as real) == 100.0 * ((hits + correctRejections) as real)
  {
    var totalGoTrials := CountKind(trials, true);
    var totalNoGoTrials := CountKind(trials, false);
    var hitRate := Rate(hits, totalGoTrials);
    var falseAlarmRate := Rate(falseAlarms, totalNoGoTrials);
    var zHit := ZScore(hitRate, num);
    var zFA := ZScore(falseAlarmRate, num);
    var hitRTs := AsReals(HitReactionTimes(responses));
    var meanRT := Mean(hitRTs);
    var rtVariance := Variance(hitRTs);
    var totalTrials := |trials|;
    var correctResponses := hits + correctRejections;
    var accuracy := Accuracy(correctResponses, totalTrials);
    Results(accuracy, meanRT, num.sqrt(rtVariance), hits, misses, falseAlarms, correctRejections,
            hitRate, falseAlarmRate, zHit - zFA)
  }

  /** The clamped z-score reflects: `z(1 - rate) == -z(rate)`, provided the inverse error
      function is odd (as the Winitzki approximation is). */
  lemma ZScoreReflection(rate: real, num: Numerics)
    requires forall x :: num.inverseError(-x) == -num.inverseError(x)
    ensures ZScore(1.0 - rate, num) == -ZScore(rate, num)
  {
    if 0.0 < rate < 1.0 {
      var x := 2.0 * rate - 1.0;
      assert 2.0 * (1.0 - rate) - 1.0 == -x;
      assert num.inverseError(-x) == -num.inverseError(x);
    }
  }

  /** d' is symmetric under exchanging the hit rate with one minus the false-alarm rate. */
  lemma DPrimeReflection(hitRate: real, falseAlarmRate: real, num: Numerics)
    requires forall x :: num.inverseError(-x) == -num.inverseError(x)
    ensures ZScore(1.0 - falseAlarmRate, num) - ZScore(1.0 - hitRate, num)
            == ZScore(hitRate, num) - ZScore(falseAlarmRate, num)
  {
    ZScoreReflection(hitRate, num);
    ZScoreReflection(falseAlarmRate, num);
  }
}
