/** Reliability bins and calibration error of researchos/probability_validation.py. */
module Reliability {
  import opened Arithmetic

  /** A max-probability prediction and whether it was right. */
  datatype Prediction = Prediction(confidence: real, correct: bool) {
    function Hit(): real { if correct then 1.0 else 0.0 }
  }

  datatype CalibrationBin = CalibrationBin(lower: real, upper: real, count: nat, meanConfidence: real,
                                           accuracy: real, gap: real)

  function Abs(v: real): real { if v < 0.0 then -v else v }

  ghost predicate InUnit(preds: seq<Prediction>) {
    forall i :: 0 <= i < |preds| ==> 0.0 <= preds[i].confidence <= 1.0
  }

  // ---------------------------------------------------------------- specification

  function BinIndex(c: real, bins: int): int
    requires bins >= 1
  {
    Clamp(Slot(c, bins), bins)
  }

  function Scale(c: real, n: int): real {
    c * n as real
  }

  function Slot(c: real, bins: int): int {
    Scale(c, bins).Floor
  }

  function Clamp(i: int, bins: int): int {
    if i < bins - 1 then i else bins - 1
  }

  /** The predictions of bin b, in order. */
  function Bucket(preds: seq<Prediction>, bins: int, b: int): seq<Prediction>
    requires bins >= 1
  {
    if preds == [] then []
    else
      var rest := Bucket(preds[..|preds| - 1], bins, b);
      var last := preds[|preds| - 1];
      if BinIndex(last.confidence, bins) == b then rest + [last] else rest
  }

  function Confidence(preds: seq<Prediction>): real {
    if preds == [] then 0.0 else Confidence(preds[..|preds| - 1]) + preds[|preds| - 1].confidence
  }

  function Hits(preds: seq<Prediction>): real {
    if preds == [] then 0.0 else Hits(preds[..|preds| - 1]) + preds[|preds| - 1].Hit()
  }

  function Ratio(a: real, n: int): real
    requires n >= 1
  {
    a / n as real
  }

  function MakeBin(bucket: seq<Prediction>, bins: int, b: int): CalibrationBin
    requires bins >= 1 && bucket != []
  {
    var mean := Ratio(Confidence(bucket), |bucket|);
    var accuracy := Ratio(Hits(bucket), |bucket|);
    CalibrationBin(Ratio(b as real, bins), Ratio((b + 1) as real, bins), |bucket|, mean, accuracy, Abs(mean - accuracy))
  }

  /** The summaries of the non-empty bins among the first k. */
  function BinsUpTo(preds: seq<Prediction>, bins: int, k: nat): seq<CalibrationBin>
    requires bins >= 1
  {
    if k == 0 then []
    else
      var rest := BinsUpTo(preds, bins, k - 1);
      var bucket := Bucket(preds, bins, k - 1);
      if bucket == [] then rest else rest + [MakeBin(bucket, bins, k - 1)]
  }

  function Bins(preds: seq<Prediction>, bins: int): seq<CalibrationBin>
    requires bins >= 1
  {
    BinsUpTo(preds, bins, bins)
  }

  function GapWeight(bin: CalibrationBin, n: nat): real
    requires n > 0
  {
    Ratio(bin.count as real, n) * bin.gap
  }

  function WeightedGap(summary: seq<CalibrationBin>, n: nat): real
    requires n > 0
  {
    if summary == [] then 0.0
    else WeightedGap(summary[..|summary| - 1], n) + GapWeight(summary[|summary| - 1], n)
  }

  /** Expected calibration error. */
  function Ece(preds: seq<Prediction>, bins: int): real
    requires bins >= 1
  {
    if preds == [] then 0.0 else WeightedGap(Bins(preds, bins), |preds|)
  }

  function LargestGap(summary: seq<CalibrationBin>): real {
    if summary == [] then 0.0
    else
      var rest := LargestGap(summary[..|summary| - 1]);
      var last := summary[|summary| - 1].gap;
      if last > rest then last else rest
  }

  /** Maximum calibration error. */
  function Mce(preds: seq<Prediction>, bins: int): real
    requires bins >= 1
  {
    LargestGap(Bins(preds, bins))
  }

  // ---------------------------------------------------------------- the algorithm

  lemma IndexInRange(c: real, bins: int)
    requires bins >= 1 && 0.0 <= c
    ensures 0 <= BinIndex(c, bins) < bins
  {
    assert c * bins as real >= 0.0;
  }

  method BuildBins(preds: seq<Prediction>, bins: int) returns (summary: seq<CalibrationBin>)
    requires bins >= 1 && InUnit(preds)
    ensures summary == Bins(preds, bins)
  {
    hide BinIndex;
    var buckets := new seq<Prediction>[bins](_ => []);
    for i := 0 to |preds|
      invariant forall b :: 0 <= b < bins ==> buckets[b] == Bucket(preds[..i], bins, b)
    {
      assert preds[..i + 1][..i] == preds[..i];
      IndexInRange(preds[i].confidence, bins);
      var index := BinIndex(preds[i].confidence, bins);
      buckets[index] := buckets[index] + [preds[i]];
    }
    assert preds[..|preds|] == preds;
    summary := [];
    for b := 0 to bins
      invariant summary == BinsUpTo(preds, bins, b)
    {
      if buckets[b] != [] {
        summary := summary + [MakeBin(buckets[b], bins, b)];
      }
    }
  }

  // ---------------------------------------------------------------- arithmetic

  lemma RatioTimes(a: real, n: int)
    requires n >= 1
    ensures Ratio(a, n) * n as real == a
  {
  }

  lemma RatioLeq(a: real, b: real, n: int)
    requires n >= 1 && a <= b * n as real
    ensures Ratio(a, n) <= b
  {
    RatioTimes(a, n);
    CancelLeq(Ratio(a, n), b, n as real);
  }

  lemma RatioGeq(a: real, b: real, n: int)
    requires n >= 1 && b * n as real <= a
    ensures b <= Ratio(a, n)
  {
    RatioTimes(a, n);
    CancelLeq(b, Ratio(a, n), n as real);
  }

  // ---------------------------------------------------------------- what a bin holds

  lemma IndexBounds(c: real, bins: int)
    requires bins >= 1 && 0.0 <= c <= 1.0
    ensures var b := BinIndex(c, bins); Ratio(b as real, bins) <= c <= Ratio((b + 1) as real, bins)
  {
    var x := c * bins as real;
    MulLeq(c, 1.0, bins as real);
    assert x.Floor as real <= x < x.Floor as real + 1.0;
    IndexInRange(c, bins);
    var b := BinIndex(c, bins);
    RatioLeq(b as real, c, bins);
    RatioGeq((b + 1) as real, c, bins);
  }

  lemma {:induction false} BucketHolds(preds: seq<Prediction>, bins: int, b: int)
    requires bins >= 1 && InUnit(preds)
    ensures |Bucket(preds, bins, b)| <= |preds| && InUnit(Bucket(preds, bins, b))
    ensures forall i :: 0 <= i < |Bucket(preds, bins, b)| ==>
              Ratio(b as real, bins) <= Bucket(preds, bins, b)[i].confidence <= Ratio((b + 1) as real, bins)
  {
    hide BinIndex;
    hide Ratio;
    if preds != [] {
      BucketHolds(preds[..|preds| - 1], bins, b);
      IndexBounds(preds[|preds| - 1].confidence, bins);
    }
  }

  lemma {:induction false} MeanBounds(preds: seq<Prediction>, lo: real, hi: real)
    requires forall i :: 0 <= i < |preds| ==> lo <= preds[i].confidence <= hi
    ensures lo * |preds| as real <= Confidence(preds) <= hi * |preds| as real
    ensures 0.0 <= Hits(preds) <= |preds| as real
  {
    if preds != [] {
      var n := |preds| - 1;
      MeanBounds(preds[..n], lo, hi);
      Distribute(lo, n as real, 1.0);
      Distribute(hi, n as real, 1.0);
    }
  }

  /** What a summary says: its mean confidence lies inside its bounds, and its gap inside [0, 1]. */
  ghost predicate BinSound(b: CalibrationBin) {
    && b.count > 0
    && b.lower <= b.meanConfidence <= b.upper
    && 0.0 <= b.meanConfidence <= 1.0 && 0.0 <= b.accuracy <= 1.0
    && b.gap == Abs(b.meanConfidence - b.accuracy)
  }

  lemma MakeBinSound(preds: seq<Prediction>, bins: int, b: int)
    requires bins >= 1 && InUnit(preds) && Bucket(preds, bins, b) != []
    ensures BinSound(MakeBin(Bucket(preds, bins, b), bins, b))
  {
    hide Ratio;
    hide Bucket;
    hide Confidence;
    hide Hits;
    var bucket := Bucket(preds, bins, b);
    var n := |bucket|;
    var lo, hi := Ratio(b as real, bins), Ratio((b + 1) as real, bins);
    BucketHolds(preds, bins, b);
    MeanBounds(bucket, lo, hi);
    MeanBounds(bucket, 0.0, 1.0);
    RatioGeq(Confidence(bucket), lo, n);
    RatioLeq(Confidence(bucket), hi, n);
    RatioGeq(Confidence(bucket), 0.0, n);
    RatioLeq(Confidence(bucket), 1.0, n);
    RatioGeq(Hits(bucket), 0.0, n);
    RatioLeq(Hits(bucket), 1.0, n);
  }

  lemma {:induction false} BinsSound(preds: seq<Prediction>, bins: int, k: nat)
    requires bins >= 1 && InUnit(preds)
    ensures forall i :: 0 <= i < |BinsUpTo(preds, bins, k)| ==> BinSound(BinsUpTo(preds, bins, k)[i])
  {
    hide MakeBin;
    hide Bucket;
    hide BinSound;
    if k > 0 {
      BinsSound(preds, bins, k - 1);
      if Bucket(preds, bins, k - 1) != [] {
        MakeBinSound(preds, bins, k - 1);
      }
    }
  }

  // ---------------------------------------------------------------- every prediction is in one bin

  ghost function Counts(summary: seq<CalibrationBin>): nat {
    if summary == [] then 0 else Counts(summary[..|summary| - 1]) + summary[|summary| - 1].count
  }

  ghost function Sizes(preds: seq<Prediction>, bins: int, k: nat): nat
    requires bins >= 1
  {
    if k == 0 then 0 else Sizes(preds, bins, k - 1) + |Bucket(preds, bins, k - 1)|
  }

  lemma {:induction false} CountsAreSizes(preds: seq<Prediction>, bins: int, k: nat)
    requires bins >= 1
    ensures Counts(BinsUpTo(preds, bins, k)) == Sizes(preds, bins, k)
  {
    hide Bucket;
    if k > 0 {
      CountsAreSizes(preds, bins, k - 1);
      var s := BinsUpTo(preds, bins, k);
      if Bucket(preds, bins, k - 1) != [] {
        assert s[..|s| - 1] == BinsUpTo(preds, bins, k - 1);
      }
    }
  }

  lemma {:induction false} SizesSnoc(preds: seq<Prediction>, bins: int, k: nat)
    requires bins >= 1 && preds != []
    ensures Sizes(preds, bins, k) == Sizes(preds[..|preds| - 1], bins, k)
                                     + if 0 <= BinIndex(preds[|preds| - 1].confidence, bins) < k then 1 else 0
  {
    hide BinIndex;
    if k > 0 {
      SizesSnoc(preds, bins, k - 1);
    }
  }

  lemma {:induction false} SizesTotal(preds: seq<Prediction>, bins: int)
    requires bins >= 1 && InUnit(preds)
    ensures Sizes(preds, bins, bins) == |preds|
  {
    if preds == [] {
      SizesEmpty(bins, bins);
    } else {
      SizesTotal(preds[..|preds| - 1], bins);
      SizesSnoc(preds, bins, bins);
      IndexInRange(preds[|preds| - 1].confidence, bins);
    }
  }

  lemma {:induction false} SizesEmpty(bins: int, k: nat)
    requires bins >= 1
    ensures Sizes([], bins, k) == 0
  {
    if k > 0 {
      SizesEmpty(bins, k - 1);
    }
  }

  /** The bin counts add up to the number of predictions, and every bin is sound. */
  lemma BinsPartition(preds: seq<Prediction>, bins: int)
    requires bins >= 1 && InUnit(preds)
    ensures Counts(Bins(preds, bins)) == |preds|
    ensures forall i :: 0 <= i < |Bins(preds, bins)| ==> BinSound(Bins(preds, bins)[i])
  {
    CountsAreSizes(preds, bins, bins);
    SizesTotal(preds, bins);
    BinsSound(preds, bins, bins);
  }

  // ---------------------------------------------------------------- ECE as a sum of absolute excesses

  /** By how much the confidences of a bucket exceed its hits. */
  ghost function Excess(preds: seq<Prediction>): real {
    Confidence(preds) - Hits(preds)
  }

  ghost function Spread(preds: seq<Prediction>, bins: int, lo: nat, hi: nat): real
    requires bins >= 1 && lo <= hi
    decreases hi - lo
  {
    if lo == hi then 0.0 else Spread(preds, bins, lo, hi - 1) + Abs(Excess(Bucket(preds, bins, hi - 1)))
  }

  lemma GapTimes(a: real, b: real, n: int)
    requires n >= 1
    ensures Abs(Ratio(a, n) - Ratio(b, n)) * n as real == Abs(a - b)
  {
    hide Ratio;
    var d := Ratio(a, n) - Ratio(b, n);
    RatioTimes(a, n);
    RatioTimes(b, n);
    SplitProduct(Ratio(a, n), -Ratio(b, n), n as real);
    NegProduct(Ratio(b, n), n as real);
    AbsTimes(d, n as real);
  }

  lemma NegProduct(a: real, n: real)
    ensures (-a) * n == -(a * n)
  {
  }

  /** A bin's share of the error, times the sample size, is its absolute excess. */
  lemma GapWeightTimes(bucket: seq<Prediction>, bins: int, b: int, n: nat)
    requires bins >= 1 && bucket != [] && n > 0
    ensures GapWeight(MakeBin(bucket, bins, b), n) * n as real == Abs(Excess(bucket))
  {
    hide Ratio;
    hide Confidence;
    hide Hits;
    var gap := Abs(Ratio(Confidence(bucket), |bucket|) - Ratio(Hits(bucket), |bucket|));
    GapTimes(Confidence(bucket), Hits(bucket), |bucket|);
    RatioTimes(|bucket| as real, n);
    Reorder(Ratio(|bucket| as real, n), gap, n as real);
    assert |bucket| as real * gap == gap * |bucket| as real;
  }

  lemma Reorder(a: real, b: real, c: real)
    ensures a * b * c == (a * c) * b
  {
  }

  lemma AbsTimes(d: real, n: real)
    requires n > 0.0
    ensures Abs(d) * n == Abs(d * n)
  {
    if d >= 0.0 {
      MulLeq(0.0, d, n);
      assert 0.0 * n == 0.0;
    } else {
      MulLess(d, 0.0, n);
      assert 0.0 * n == 0.0;
    }
  }

  /** What one more bin adds to the weighted gap. */
  ghost function BinShare(preds: seq<Prediction>, bins: int, b: nat): real
    requires bins >= 1 && preds != []
  {
    var bucket := Bucket(preds, bins, b);
    if bucket == [] then 0.0 else GapWeight(MakeBin(bucket, bins, b), |preds|)
  }

  lemma WeightedGapStep(preds: seq<Prediction>, bins: int, k: nat)
    requires bins >= 1 && preds != [] && k > 0
    ensures WeightedGap(BinsUpTo(preds, bins, k), |preds|)
         == WeightedGap(BinsUpTo(preds, bins, k - 1), |preds|) + BinShare(preds, bins, k - 1)
  {
    hide Bucket;
    hide GapWeight;
    hide MakeBin;
    var s, rest := BinsUpTo(preds, bins, k), BinsUpTo(preds, bins, k - 1);
    if Bucket(preds, bins, k - 1) != [] {
      assert s[..|s| - 1] == rest;
    }
  }

  lemma BinShareTimes(preds: seq<Prediction>, bins: int, b: nat)
    requires bins >= 1 && preds != []
    ensures Scale(BinShare(preds, bins, b), |preds|) == Abs(Excess(Bucket(preds, bins, b)))
  {
    hide Bucket;
    hide GapWeight;
    hide MakeBin;
    hide Excess;
    hide Abs;
    var bucket := Bucket(preds, bins, b);
    if bucket == [] {
      EmptyExcess();
      assert 0.0 * |preds| as real == 0.0;
    } else {
      GapWeightTimes(bucket, bins, b, |preds|);
    }
  }

  lemma ScaleSplit(a: real, b: real, n: int)
    ensures Scale(a + b, n) == Scale(a, n) + Scale(b, n)
  {
    SplitProduct(a, b, n as real);
  }

  lemma ScaleZero(n: int)
    ensures Scale(0.0, n) == 0.0
  {
  }

  lemma SpreadStep(preds: seq<Prediction>, bins: int, k: nat)
    requires bins >= 1 && k > 0
    ensures Spread(preds, bins, 0, k) == Spread(preds, bins, 0, k - 1) + Abs(Excess(Bucket(preds, bins, k - 1)))
  {
  }

  lemma NoBins(preds: seq<Prediction>, bins: int)
    requires bins >= 1 && preds != []
    ensures WeightedGap(BinsUpTo(preds, bins, 0), |preds|) == 0.0 && Spread(preds, bins, 0, 0) == 0.0
  {
  }

  lemma {:induction false} WeightedGapIsSpread(preds: seq<Prediction>, bins: int, k: nat)
    requires bins >= 1 && preds != []
    ensures Scale(WeightedGap(BinsUpTo(preds, bins, k), |preds|), |preds|) == Spread(preds, bins, 0, k)
  {
    hide *;
    if k == 0 {
      NoBins(preds, bins);
      ScaleZero(|preds|);
    } else {
      WeightedGapIsSpread(preds, bins, k - 1);
      WeightedGapStep(preds, bins, k);
      SpreadStep(preds, bins, k);
      BinShareTimes(preds, bins, k - 1);
      ScaleSplit(WeightedGap(BinsUpTo(preds, bins, k - 1), |preds|), BinShare(preds, bins, k - 1), |preds|);
    }
  }

  lemma CancelScale(a: real, b: real, n: int)
    requires n > 0 && Scale(a, n) <= Scale(b, n)
    ensures a <= b
  {
    CancelLeq(a, b, n as real);
  }

  lemma EmptyExcess()
    ensures Abs(Excess([])) == 0.0
  {
  }

  lemma EceIsSpread(preds: seq<Prediction>, bins: int)
    requires bins >= 1 && preds != []
    ensures Scale(Ece(preds, bins), |preds|) == Spread(preds, bins, 0, bins)
  {
    hide WeightedGap;
    hide BinsUpTo;
    hide Spread;
    hide Scale;
    WeightedGapIsSpread(preds, bins, bins);
  }

  // ---------------------------------------------------------------- refinement

  lemma ScaleMonotone(a: real, b: real, n: int)
    requires n >= 1
    ensures a <= b ==> Scale(a, n) <= Scale(b, n)
    ensures a < b ==> Scale(a, n) < Scale(b, n)
  {
  }

  lemma ScaleInt(m: int, n: int)
    ensures Scale(m as real, n) == (m * n) as real
  {
  }

  lemma FloorRefines(x: real, factor: int)
    requires factor >= 1
    ensures x.Floor * factor <= Scale(x, factor).Floor < (x.Floor + 1) * factor
  {
    hide Scale;
    var m := x.Floor;
    ScaleInt(m, factor);
    ScaleInt(m + 1, factor);
    ScaleMonotone(m as real, x, factor);
    ScaleMonotone(x, (m + 1) as real, factor);
    FloorBetween(Scale(x, factor), m * factor, (m + 1) * factor);
  }

  lemma FloorBetween(y: real, a: int, b: int)
    requires a as real <= y < b as real
    ensures a <= y.Floor < b
  {
  }

  /** Clamping to the last bin commutes with the split. */
  lemma ClampRefines(m: int, f: int, bins: int, factor: int)
    requires bins >= 1 && factor >= 1 && m <= bins && m * factor <= f < (m + 1) * factor
    ensures Clamp(f, bins * factor) / factor == Clamp(m, bins)
  {
    var fine := bins * factor;
    assert fine == (bins - 1) * factor + factor;
    if m < bins - 1 {
      MulLeqInt(m + 1, bins - 1, factor);
      QuotientIs(f, m, factor);
    } else {
      MulLeqInt(bins - 1, m, factor);
      QuotientIs(if f < fine - 1 then f else fine - 1, bins - 1, factor);
    }
  }

  lemma SlotRefines(c: real, bins: int, factor: int)
    requires bins >= 1 && factor >= 1 && 0.0 <= c <= 1.0
    ensures Slot(c, bins) <= bins
    ensures Slot(c, bins) * factor <= Slot(c, bins * factor) < (Slot(c, bins) + 1) * factor
  {
    hide Scale;
    ScaleMonotone(c, 1.0, bins);
    ScaleInt(1, bins);
    assert Scale(c, bins) <= bins as real;
    ScaleTwice(c, bins, factor);
    FloorRefines(Scale(c, bins), factor);
  }

  /** Splitting every bin into `factor` bins: the fine index determines the coarse one. */
  lemma IndexRefines(c: real, bins: int, factor: int)
    requires bins >= 1 && factor >= 1 && bins * factor >= 1 && 0.0 <= c <= 1.0
    ensures BinIndex(c, bins * factor) / factor == BinIndex(c, bins)
  {
    hide Slot;
    hide Clamp;
    SlotRefines(c, bins, factor);
    ClampRefines(Slot(c, bins), Slot(c, bins * factor), bins, factor);
  }

  lemma ScaleTwice(c: real, bins: int, factor: int)
    ensures Scale(c, bins * factor) == Scale(Scale(c, bins), factor)
  {
    Associate(c, bins as real, factor as real);
  }

  lemma Associate(a: real, b: real, c: real)
    ensures a * (b * c) == a * b * c
  {
  }

  lemma QuotientIs(v: int, q: int, d: int)
    requires d >= 1 && q * d <= v < (q + 1) * d
    ensures v / d == q
  {
    var r := v / d;
    assert r * d <= v < r * d + d;
    if r < q {
      MulLeqInt(r + 1, q, d);
    } else if r > q {
      MulLeqInt(q + 1, r, d);
    }
  }

  /** Sum of the excesses of the fine bins lo .. hi - 1. */
  ghost function Excesses(preds: seq<Prediction>, bins: int, lo: nat, hi: nat): real
    requires bins >= 1 && lo <= hi
    decreases hi - lo
  {
    if lo == hi then 0.0 else Excesses(preds, bins, lo, hi - 1) + Excess(Bucket(preds, bins, hi - 1))
  }

  lemma BucketExcessSnoc(preds: seq<Prediction>, bins: int, b: int)
    requires bins >= 1 && preds != []
    ensures var last := preds[|preds| - 1];
            Excess(Bucket(preds, bins, b)) == Excess(Bucket(preds[..|preds| - 1], bins, b))
            + if BinIndex(last.confidence, bins) == b then last.confidence - last.Hit() else 0.0
  {
    hide BinIndex;
    var bucket := Bucket(preds, bins, b);
    if BinIndex(preds[|preds| - 1].confidence, bins) == b {
      assert bucket[..|bucket| - 1] == Bucket(preds[..|preds| - 1], bins, b);
    }
  }

  lemma {:induction false} ExcessesSnoc(preds: seq<Prediction>, bins: int, lo: nat, hi: nat)
    requires bins >= 1 && lo <= hi && preds != []
    ensures var last := preds[|preds| - 1];
            Excesses(preds, bins, lo, hi) == Excesses(preds[..|preds| - 1], bins, lo, hi)
            + if lo <= BinIndex(last.confidence, bins) < hi then last.confidence - last.Hit() else 0.0
    decreases hi - lo
  {
    hide BinIndex;
    hide Bucket;
    if lo < hi {
      ExcessesSnoc(preds, bins, lo, hi - 1);
      BucketExcessSnoc(preds, bins, hi - 1);
    }
  }

  lemma {:induction false} ExcessesEmpty(bins: int, lo: nat, hi: nat)
    requires bins >= 1 && lo <= hi
    ensures Excesses([], bins, lo, hi) == 0.0
    decreases hi - lo
  {
    if lo < hi {
      ExcessesEmpty(bins, lo, hi - 1);
    }
  }

  /** A coarse bin's excess is the sum of the excesses of the fine bins it is split into. */
  lemma {:induction false} CoarseIsSumOfFine(preds: seq<Prediction>, bins: int, factor: int, b: nat)
    requires bins >= 1 && factor >= 1 && InUnit(preds) && bins * factor >= 1 && b * factor >= 0
    ensures Excess(Bucket(preds, bins, b)) == Excesses(preds, bins * factor, b * factor, b * factor + factor)
  {
    hide BinIndex;
    hide Bucket;
    if preds == [] {
      ExcessesEmpty(bins * factor, b * factor, b * factor + factor);
      EmptyBucket(bins, b);
    } else {
      var last := preds[|preds| - 1];
      CoarseIsSumOfFine(preds[..|preds| - 1], bins, factor, b);
      ExcessesSnoc(preds, bins * factor, b * factor, b * factor + factor);
      BucketExcessSnoc(preds, bins, b);
      IndexRefines(last.confidence, bins, factor);
      WithinBlock(BinIndex(last.confidence, bins * factor), b, factor);
    }
  }

  lemma EmptyBucket(bins: int, b: int)
    requires bins >= 1
    ensures Excess(Bucket([], bins, b)) == 0.0
  {
  }

  lemma WithinBlock(j: int, b: int, factor: int)
    requires factor >= 1
    ensures j / factor == b <==> b * factor <= j < b * factor + factor
  {
    assert (j / factor) * factor <= j < (j / factor) * factor + factor;
    if b * factor <= j < b * factor + factor {
      QuotientIs(j, b, factor);
    }
  }

  lemma {:induction false} TriangleInequality(preds: seq<Prediction>, bins: int, lo: nat, hi: nat)
    requires bins >= 1 && lo <= hi
    ensures Abs(Excesses(preds, bins, lo, hi)) <= Spread(preds, bins, lo, hi)
    decreases hi - lo
  {
    hide Bucket;
    hide Excess;
    if lo < hi {
      TriangleInequality(preds, bins, lo, hi - 1);
    }
  }

  lemma {:induction false} SpreadSplits(preds: seq<Prediction>, bins: int, lo: nat, mid: nat, hi: nat)
    requires bins >= 1 && lo <= mid <= hi
    ensures Spread(preds, bins, lo, hi) == Spread(preds, bins, lo, mid) + Spread(preds, bins, mid, hi)
    decreases hi - mid
  {
    hide Bucket;
    hide Excess;
    if mid < hi {
      SpreadSplits(preds, bins, lo, mid, hi - 1);
    }
  }

  lemma {:induction false} SpreadRefines(preds: seq<Prediction>, bins: int, factor: int, k: nat)
    requires bins >= 1 && factor >= 1 && InUnit(preds) && bins * factor >= 1 && k * factor >= 0
    ensures Spread(preds, bins, 0, k) <= Spread(preds, bins * factor, 0, k * factor)
  {
    hide Bucket;
    hide Excess;
    if k > 0 {
      assert k * factor == (k - 1) * factor + factor && (k - 1) * factor >= 0;
      SpreadRefines(preds, bins, factor, k - 1);
      CoarseIsSumOfFine(preds, bins, factor, k - 1);
      TriangleInequality(preds, bins * factor, (k - 1) * factor, k * factor);
      SpreadSplits(preds, bins * factor, 0, (k - 1) * factor, k * factor);
    }
  }

  /** Splitting every bin into `factor` equal bins never lowers the expected calibration error. */
  lemma RefiningNeverLowersEce(preds: seq<Prediction>, bins: int, factor: int)
    requires bins >= 1 && factor >= 1 && InUnit(preds)
    ensures bins * factor >= 1
    ensures Ece(preds, bins) <= Ece(preds, bins * factor)
  {
    MulLeqInt(1, bins, factor);
    RefinedEce(preds, bins, factor, bins * factor);
  }

  lemma RefinedEce(preds: seq<Prediction>, bins: int, factor: int, fine: int)
    requires bins >= 1 && factor >= 1 && InUnit(preds) && fine == bins * factor && fine >= 1
    ensures Ece(preds, bins) <= Ece(preds, fine)
  {
    if preds != [] {
      hide *;
      SpreadRefines(preds, bins, factor, bins);
      EceIsSpread(preds, bins);
      EceIsSpread(preds, fine);
      CancelScale(Ece(preds, bins), Ece(preds, fine), |preds|);
    }
  }

  // ---------------------------------------------------------------- the chain of inequalities

  ghost function MeanConfidence(preds: seq<Prediction>): real
    requires preds != []
  {
    Ratio(Confidence(preds), |preds|)
  }

  ghost function Accuracy(preds: seq<Prediction>): real
    requires preds != []
  {
    Ratio(Hits(preds), |preds|)
  }

  lemma {:induction false} OneBinHoldsAll(preds: seq<Prediction>)
    requires InUnit(preds)
    ensures Bucket(preds, 1, 0) == preds
  {
    if preds != [] {
      var n := |preds| - 1;
      OneBinHoldsAll(preds[..n]);
      IndexInRange(preds[n].confidence, 1);
      assert preds[..n] + [preds[n]] == preds;
    }
  }

  lemma OneBinEce(preds: seq<Prediction>)
    requires InUnit(preds) && preds != []
    ensures Ece(preds, 1) == Abs(MeanConfidence(preds) - Accuracy(preds))
  {
    hide Ratio;
    hide Ece;
    hide Bucket;
    hide Excess;
    OneBinHoldsAll(preds);
    EceIsSpread(preds, 1);
    OneBinSpread(preds);
    GapTimes(Confidence(preds), Hits(preds), |preds|);
    var n := |preds| as real;
    CancelLeq(Abs(MeanConfidence(preds) - Accuracy(preds)), Ece(preds, 1), n);
    CancelLeq(Ece(preds, 1), Abs(MeanConfidence(preds) - Accuracy(preds)), n);
  }

  lemma OneBinSpread(preds: seq<Prediction>)
    requires Bucket(preds, 1, 0) == preds
    ensures Spread(preds, 1, 0, 1) == Abs(Confidence(preds) - Hits(preds))
  {
    hide Bucket;
  }

  lemma {:induction false} LargestGapBounds(summary: seq<CalibrationBin>)
    requires forall i :: 0 <= i < |summary| ==> BinSound(summary[i])
    ensures 0.0 <= LargestGap(summary) <= 1.0
    ensures forall i :: 0 <= i < |summary| ==> summary[i].gap <= LargestGap(summary)
  {
    if summary != [] {
      LargestGapBounds(summary[..|summary| - 1]);
    }
  }

  lemma {:induction false} WeightedGapBelow(summary: seq<CalibrationBin>, n: nat, cap: real)
    requires n > 0 && forall i :: 0 <= i < |summary| ==> summary[i].gap <= cap
    ensures Scale(WeightedGap(summary, n), n) <= Scale(cap, Counts(summary))
  {
    hide GapWeight;
    hide Scale;
    if summary == [] {
      ScaleZero(n);
      ScaleByZero(cap);
    } else {
      var m := |summary| - 1;
      var last := summary[m];
      WeightedGapBelow(summary[..m], n, cap);
      ScaleSplit(WeightedGap(summary[..m], n), GapWeight(last, n), n);
      GapWeightBelow(last, n, cap);
      ScaleSum(cap, Counts(summary[..m]), last.count);
    }
  }

  lemma ScaleByZero(a: real)
    ensures Scale(a, 0) == 0.0
  {
  }

  lemma ScaleSum(a: real, m: int, n: int)
    ensures Scale(a, m + n) == Scale(a, m) + Scale(a, n)
  {
    Distribute(a, m as real, n as real);
  }

  lemma GapWeightBelow(bin: CalibrationBin, n: nat, cap: real)
    requires n > 0 && bin.gap <= cap
    ensures Scale(GapWeight(bin, n), n) <= Scale(cap, bin.count)
  {
    hide Ratio;
    RatioTimes(bin.count as real, n);
    Reorder(Ratio(bin.count as real, n), bin.gap, n as real);
    MulLeq(bin.gap, cap, bin.count as real);
  }

  /** |mean confidence - accuracy| <= ECE <= MCE <= 1 for every sample and every bin count. */
  lemma ErrorChain(preds: seq<Prediction>, bins: int)
    requires bins >= 1 && InUnit(preds) && preds != []
    ensures Abs(MeanConfidence(preds) - Accuracy(preds)) <= Ece(preds, bins) <= Mce(preds, bins) <= 1.0
  {
    hide Bins;
    hide LargestGap;
    hide WeightedGap;
    hide Scale;
    hide Abs;
    hide MeanConfidence;
    hide Accuracy;
    OneBinEce(preds);
    RefiningNeverLowersEce(preds, 1, bins);
    BinsPartition(preds, bins);
    LargestGapBounds(Bins(preds, bins));
    WeightedGapBelow(Bins(preds, bins), |preds|, Mce(preds, bins));
    CancelScale(Ece(preds, bins), Mce(preds, bins), |preds|);
  }

  // ---------------------------------------------------------------- refinement and the maximum error

  /** The gap of bin b is at most `cap`, said of its excess so that it also makes sense of an empty bin. */
  ghost predicate Within(preds: seq<Prediction>, bins: int, b: nat, cap: real)
    requires bins >= 1
  {
    Abs(Excess(Bucket(preds, bins, b))) <= Scale(cap, |Bucket(preds, bins, b)|)
  }

  lemma GapIffWithin(preds: seq<Prediction>, bins: int, b: nat, cap: real)
    requires bins >= 1 && Bucket(preds, bins, b) != []
    ensures MakeBin(Bucket(preds, bins, b), bins, b).gap <= cap <==> Within(preds, bins, b, cap)
  {
    hide Bucket;
    hide Confidence;
    hide Hits;
    hide Ratio;
    var bucket := Bucket(preds, bins, b);
    var gap := MakeBin(bucket, bins, b).gap;
    GapTimes(Confidence(bucket), Hits(bucket), |bucket|);
    if gap <= cap {
      MulLeq(gap, cap, |bucket| as real);
    } else {
      MulLess(cap, gap, |bucket| as real);
    }
  }

  lemma EmptyWithin(preds: seq<Prediction>, bins: int, b: nat, cap: real)
    requires bins >= 1 && Bucket(preds, bins, b) == []
    ensures Within(preds, bins, b, cap)
  {
    EmptyExcess();
    ScaleByZero(cap);
  }

  lemma LargestGapStep(preds: seq<Prediction>, bins: int, k: nat, cap: real)
    requires bins >= 1 && k > 0
    ensures LargestGap(BinsUpTo(preds, bins, k)) <= cap <==>
              LargestGap(BinsUpTo(preds, bins, k - 1)) <= cap && Within(preds, bins, k - 1, cap)
  {
    hide Within;
    hide Bucket;
    hide MakeBin;
    var s := BinsUpTo(preds, bins, k);
    if Bucket(preds, bins, k - 1) == [] {
      EmptyWithin(preds, bins, k - 1, cap);
    } else {
      assert s[..|s| - 1] == BinsUpTo(preds, bins, k - 1);
      GapIffWithin(preds, bins, k - 1, cap);
    }
  }

  lemma NoGap(preds: seq<Prediction>, bins: int)
    requires bins >= 1
    ensures LargestGap(BinsUpTo(preds, bins, 0)) == 0.0
  {
  }

  lemma {:induction false} LargestGapIff(preds: seq<Prediction>, bins: int, k: nat, cap: real)
    requires bins >= 1 && cap >= 0.0
    ensures LargestGap(BinsUpTo(preds, bins, k)) <= cap <==> forall b: nat :: b < k ==> Within(preds, bins, b, cap)
  {
    hide Within;
    hide LargestGap;
    hide BinsUpTo;
    if k == 0 {
      NoGap(preds, bins);
    } else {
      LargestGapIff(preds, bins, k - 1, cap);
      LargestGapStep(preds, bins, k, cap);
    }
  }

  /** Within every bin of a block, hence within the block taken together. */
  lemma {:induction false} BlockWithin(preds: seq<Prediction>, bins: int, lo: nat, hi: nat, cap: real)
    requires bins >= 1 && lo <= hi && forall b: nat :: lo <= b < hi ==> Within(preds, bins, b, cap)
    ensures Abs(Excesses(preds, bins, lo, hi)) <= Scale(cap, Sizes(preds, bins, hi) - Sizes(preds, bins, lo))
    decreases hi - lo
  {
    hide Bucket;
    hide Excess;
    hide Scale;
    if lo == hi {
      ScaleByZero(cap);
    } else {
      BlockWithin(preds, bins, lo, hi - 1, cap);
      assert Within(preds, bins, hi - 1, cap);
      ScaleSum(cap, Sizes(preds, bins, hi - 1) - Sizes(preds, bins, lo), |Bucket(preds, bins, hi - 1)|);
    }
  }

  lemma BucketSizeSnoc(preds: seq<Prediction>, bins: int, b: int)
    requires bins >= 1 && preds != []
    ensures |Bucket(preds, bins, b)| == |Bucket(preds[..|preds| - 1], bins, b)|
                                        + if BinIndex(preds[|preds| - 1].confidence, bins) == b then 1 else 0
  {
    hide BinIndex;
  }

  /** A coarse bin holds as many predictions as the fine bins it is split into. */
  lemma {:induction false} CoarseSize(preds: seq<Prediction>, bins: int, factor: int, b: nat)
    requires bins >= 1 && factor >= 1 && InUnit(preds) && bins * factor >= 1 && b * factor >= 0
    ensures |Bucket(preds, bins, b)|
         == Sizes(preds, bins * factor, b * factor + factor) - Sizes(preds, bins * factor, b * factor)
  {
    hide BinIndex;
    hide Sizes;
    var fine, lo := bins * factor, b * factor;
    if preds == [] {
      SizesEmpty(fine, lo + factor);
      SizesEmpty(fine, lo);
    } else {
      var c := preds[|preds| - 1].confidence;
      CoarseSize(preds[..|preds| - 1], bins, factor, b);
      SizesSnoc(preds, fine, lo + factor);
      SizesSnoc(preds, fine, lo);
      BucketSizeSnoc(preds, bins, b);
      IndexRefines(c, bins, factor);
      WithinBlock(BinIndex(c, fine), b, factor);
      IndexInRange(c, fine);
    }
  }

  lemma CoarseWithin(preds: seq<Prediction>, bins: int, factor: int, fine: int, b: nat, cap: real)
    requires bins >= 1 && factor >= 1 && fine == bins * factor && fine >= 1 && InUnit(preds) && b < bins
    requires forall j: nat :: j < fine ==> Within(preds, fine, j, cap)
    ensures Within(preds, bins, b, cap)
  {
    hide Bucket;
    hide Excess;
    hide Excesses;
    hide Sizes;
    hide Scale;
    hide Within;
    MulLeqInt(0, b, factor);
    MulLeqInt(b + 1, bins, factor);
    assert (b + 1) * factor == b * factor + factor;
    BlockWithin(preds, fine, b * factor, b * factor + factor, cap);
    CoarseIsSumOfFine(preds, bins, factor, b);
    CoarseSize(preds, bins, factor, b);
    WithinMeans(preds, bins, b, cap);
  }

  lemma WithinMeans(preds: seq<Prediction>, bins: int, b: nat, cap: real)
    requires bins >= 1
    ensures Within(preds, bins, b, cap) <==> Abs(Excess(Bucket(preds, bins, b))) <= Scale(cap, |Bucket(preds, bins, b)|)
  {
  }

  /** Splitting every bin into `factor` equal bins never lowers the maximum calibration error either: a coarse gap is
      at most a weighted mean of the gaps of the fine bins it is split into. */
  lemma RefiningNeverLowersMce(preds: seq<Prediction>, bins: int, factor: int)
    requires bins >= 1 && factor >= 1 && InUnit(preds)
    ensures bins * factor >= 1
    ensures Mce(preds, bins) <= Mce(preds, bins * factor)
  {
    MulLeqInt(1, bins, factor);
    RefinedMce(preds, bins, factor, bins * factor);
  }

  lemma RefinedMce(preds: seq<Prediction>, bins: int, factor: int, fine: int)
    requires bins >= 1 && factor >= 1 && InUnit(preds) && fine == bins * factor && fine >= 1
    ensures Mce(preds, bins) <= Mce(preds, fine)
  {
    hide BinsUpTo;
    hide LargestGap;
    hide Within;
    var cap := Mce(preds, fine);
    BinsPartition(preds, fine);
    LargestGapBounds(Bins(preds, fine));
    LargestGapIff(preds, fine, fine, cap);
    forall b: nat | b < bins ensures Within(preds, bins, b, cap) {
      CoarseWithin(preds, bins, factor, fine, b, cap);
    }
    LargestGapIff(preds, bins, bins, cap);
  }
}
