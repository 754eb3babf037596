/** What a probability report says, written out on the assessments and the outcomes. */
module ReportRules {
  import opened Arithmetic
  import opened Common
  import opened Reliability
  import opened ProbabilityValidation

  // ---------------------------------------------------------------- rows

  /** What makes an assessment acceptable. */
  lemma AcceptableIff(a: Assessment)
    ensures Acceptable(a) <==>
              && 0.0 <= a.bullish <= 1.0 && 0.0 <= a.bearish <= 1.0 && 0.0 <= a.neutral <= 1.0
              && 0.999999999 <= a.bullish + a.bearish + a.neutral <= 1.000000001
              && 0.0 <= a.confidence <= 1.0 && 0.0 <= a.uncertainty <= 1.0 && a.sampleSize >= 0
  {
  }

  ghost function Largest(a: Assessment): real {
    if a.bullish >= a.bearish then (if a.bullish >= a.neutral then a.bullish else a.neutral)
    else if a.bearish >= a.neutral then a.bearish else a.neutral
  }

  /** The outcome is the first of bullish, bearish, neutral that has the largest probability. */
  ghost predicate FirstLargest(a: Assessment, o: Observed) {
    match o
    case Known(Bullish) => a.bullish >= a.bearish && a.bullish >= a.neutral
    case Known(Bearish) => a.bearish > a.bullish && a.bearish >= a.neutral
    case Known(Neutral) => a.neutral > a.bullish && a.neutral > a.bearish
    case Unsupported => false
  }

  /** v lies in bin b of `bins` equal bins of the unit interval; the last bin is closed. */
  ghost predicate InBin(v: real, bins: int, b: int) {
    && 0 <= b < bins && b as real <= v * bins as real
    && (v * bins as real < (b + 1) as real || b == bins - 1)
  }

  ghost function RowsIn(assessments: seq<Assessment>, bins: int, b: int): (s: set<nat>)
    ensures forall i: nat :: i in s <==> i < |assessments| && InBin(Largest(assessments[i]), bins, b)
  {
    set i: nat | i < |assessments| && InBin(Largest(assessments[i]), bins, b)
  }

  ghost function HitsIn(assessments: seq<Assessment>, observed: seq<Observed>, bins: int, b: int): (s: set<nat>)
    requires |assessments| == |observed|
    ensures forall i: nat :: i in s <==>
              i < |assessments| && InBin(Largest(assessments[i]), bins, b) && FirstLargest(assessments[i], observed[i])
  {
    set i: nat |
      i < |assessments| && InBin(Largest(assessments[i]), bins, b) && FirstLargest(assessments[i], observed[i])
  }

  /** The largest probabilities of the rows of bin b, added up. */
  ghost function MassIn(assessments: seq<Assessment>, bins: int, b: int): real {
    if assessments == [] then 0.0
    else
      var a := assessments[|assessments| - 1];
      MassIn(assessments[..|assessments| - 1], bins, b) + if InBin(Largest(a), bins, b) then Largest(a) else 0.0
  }

  lemma ToPredictionMeans(a: Assessment, o: Observed)
    requires o.Known?
    ensures ToPrediction(a, o.outcome).confidence == Largest(a)
    ensures ToPrediction(a, o.outcome).correct <==> FirstLargest(a, o)
  {
  }

  lemma SlotMeans(v: real, bins: int, b: int)
    requires bins >= 1 && 0.0 <= v
    ensures Slot(v, bins) >= 0
    ensures Slot(v, bins) == b <==> b as real <= v * bins as real < (b + 1) as real
  {
    MulNonNegative(v, bins as real, v * bins as real);
  }

  lemma BinMeans(v: real, bins: int, b: int)
    requires bins >= 1 && 0.0 <= v <= 1.0
    ensures BinIndex(v, bins) == b <==> InBin(v, bins, b)
  {
    SlotMeans(v, bins, Slot(v, bins));
    SlotMeans(v, bins, b);
    hide Slot;
  }

  // ---------------------------------------------------------------- buckets

  lemma PredictionsInit(assessments: seq<Assessment>, observed: seq<Observed>)
    requires |assessments| == |observed| && AllOk(assessments, observed) && observed != []
    ensures var n := |observed| - 1;
            && AllOk(assessments[..n], observed[..n])
            && Predictions(assessments, observed)[..n] == Predictions(assessments[..n], observed[..n])
            && Predictions(assessments, observed)[n] == ToPrediction(assessments[n], observed[n].outcome)
            && RowOk(assessments[n], observed[n])
  {
    hide ToPrediction;
    hide Acceptable;
  }

  lemma SetsSnoc(assessments: seq<Assessment>, observed: seq<Observed>, bins: int, b: int)
    requires |assessments| == |observed| && observed != []
    ensures var n := |observed| - 1;
            var inside := InBin(Largest(assessments[n]), bins, b);
            && |RowsIn(assessments, bins, b)| == |RowsIn(assessments[..n], bins, b)| + (if inside then 1 else 0)
            && |HitsIn(assessments, observed, bins, b)| == |HitsIn(assessments[..n], observed[..n], bins, b)|
               + (if inside && FirstLargest(assessments[n], observed[n]) then 1 else 0)
  {
    hide InBin;
    hide Largest;
    hide FirstLargest;
    var n := |observed| - 1;
    var xs, os := assessments[..n], observed[..n];
    var inside := InBin(Largest(assessments[n]), bins, b);
    assert RowsIn(assessments, bins, b) == RowsIn(xs, bins, b) + if inside then {n} else {};
    assert HitsIn(assessments, observed, bins, b)
        == HitsIn(xs, os, bins, b) + if inside && FirstLargest(assessments[n], observed[n]) then {n} else {};
  }

  /** The bucket of bin b: its size, its hits and the sum of its confidences. */
  lemma {:induction false} BucketMeans(assessments: seq<Assessment>, observed: seq<Observed>, bins: int, b: int)
    requires |assessments| == |observed| && AllOk(assessments, observed) && bins >= 1
    ensures var bucket := Bucket(Predictions(assessments, observed), bins, b);
            && |bucket| == |RowsIn(assessments, bins, b)|
            && Hits(bucket) == |HitsIn(assessments, observed, bins, b)| as real
            && Confidence(bucket) == MassIn(assessments, bins, b)
  {
    hide BinIndex;
    hide ToPrediction;
    hide Acceptable;
    hide InBin;
    hide Largest;
    hide FirstLargest;
    if observed == [] {
      assert RowsIn(assessments, bins, b) == {} && HitsIn(assessments, observed, bins, b) == {};
    } else {
      var n := |observed| - 1;
      PredictionsInit(assessments, observed);
      BucketMeans(assessments[..n], observed[..n], bins, b);
      SetsSnoc(assessments, observed, bins, b);
      ToPredictionMeans(assessments[n], observed[n]);
      TopInUnit(assessments[n]);
      BinMeans(Largest(assessments[n]), bins, b);
      var preds := Predictions(assessments, observed);
      var bucket, rest := Bucket(preds, bins, b), Bucket(preds[..n], bins, b);
      assert bucket != rest ==> bucket == rest + [preds[n]] && bucket[..|bucket| - 1] == rest;
      hide Predictions;
    }
  }

  lemma TopInUnit(a: Assessment)
    requires Acceptable(a)
    ensures 0.0 <= Largest(a) <= 1.0
  {
  }

  // ---------------------------------------------------------------- bins of the report

  lemma {:induction false} BinSource(preds: seq<Prediction>, bins: int, k: nat, i: nat) returns (b: nat)
    requires bins >= 1 && i < |BinsUpTo(preds, bins, k)|
    ensures b < k && Bucket(preds, bins, b) != []
    ensures BinsUpTo(preds, bins, k)[i] == MakeBin(Bucket(preds, bins, b), bins, b)
  {
    hide Bucket;
    hide MakeBin;
    if i < |BinsUpTo(preds, bins, k - 1)| {
      b := BinSource(preds, bins, k - 1, i);
    } else {
      b := k - 1;
    }
  }

  lemma {:induction false} BinListed(preds: seq<Prediction>, bins: int, k: nat, b: nat) returns (i: nat)
    requires bins >= 1 && b < k && Bucket(preds, bins, b) != []
    ensures i < |BinsUpTo(preds, bins, k)| && BinsUpTo(preds, bins, k)[i] == MakeBin(Bucket(preds, bins, b), bins, b)
  {
    hide Bucket;
    hide MakeBin;
    if b < k - 1 {
      i := BinListed(preds, bins, k - 1, b);
    } else {
      i := |BinsUpTo(preds, bins, k - 1)|;
    }
  }

  /** One summary, on the rows: bounds, count, accuracy, mean and gap of bin b. */
  ghost predicate Summarises(bin: CalibrationBin, assessments: seq<Assessment>, observed: seq<Observed>,
                             bins: int, b: int)
    requires |assessments| == |observed| && bins >= 1
  {
    var n := bin.count as real;
    && bin.lower * bins as real == b as real && bin.upper * bins as real == (b + 1) as real
    && bin.count == |RowsIn(assessments, bins, b)| > 0
    && bin.accuracy * n == |HitsIn(assessments, observed, bins, b)| as real
    && bin.meanConfidence * n == MassIn(assessments, bins, b)
    && (bin.gap == bin.meanConfidence - bin.accuracy || bin.gap == bin.accuracy - bin.meanConfidence) && bin.gap >= 0.0
  }

  lemma MadeBinSummarises(assessments: seq<Assessment>, observed: seq<Observed>, bins: int, b: nat)
    requires |assessments| == |observed| && AllOk(assessments, observed) && bins >= 1
    requires Bucket(Predictions(assessments, observed), bins, b) != []
    ensures var bin := MakeBin(Bucket(Predictions(assessments, observed), bins, b), bins, b);
            Summarises(bin, assessments, observed, bins, b)
  {
    hide Bucket;
    hide Predictions;
    hide AllOk;
    hide Confidence;
    hide Hits;
    hide RowsIn;
    hide HitsIn;
    hide MassIn;
    hide Ratio;
    BucketMeans(assessments, observed, bins, b);
    var bucket := Bucket(Predictions(assessments, observed), bins, b);
    RatioTimes(Confidence(bucket), |bucket|);
    RatioTimes(Hits(bucket), |bucket|);
    RatioTimes(b as real, bins);
    RatioTimes((b + 1) as real, bins);
  }

  /** The summary is that of some bin. */
  ghost predicate Legitimate(bin: CalibrationBin, assessments: seq<Assessment>, observed: seq<Observed>, bins: int)
    requires |assessments| == |observed| && bins >= 1
  {
    exists b: nat :: b < bins && Summarises(bin, assessments, observed, bins, b)
  }

  /** Bin b has a summary. */
  ghost predicate Summarised(summary: seq<CalibrationBin>, assessments: seq<Assessment>, observed: seq<Observed>,
                             bins: int, b: nat)
    requires |assessments| == |observed| && bins >= 1
  {
    exists i :: 0 <= i < |summary| && Summarises(summary[i], assessments, observed, bins, b)
  }

  /** The bins of the report `Evaluate` returns: every one summarises the rows whose largest probability lies in it and
      counts as accurate those whose outcome is the first with that probability, and every bin with a row is there. */
  lemma ReportBins(assessments: seq<Assessment>, observed: seq<Observed>, bins: int, summary: seq<CalibrationBin>)
    requires |assessments| == |observed| && AllOk(assessments, observed) && bins >= 1
    requires summary == Bins(Predictions(assessments, observed), bins)
    ensures forall i :: 0 <= i < |summary| ==> Legitimate(summary[i], assessments, observed, bins)
    ensures forall b: nat :: b < bins && RowsIn(assessments, bins, b) != {} ==>
              Summarised(summary, assessments, observed, bins, b)
  {
    hide Bucket;
    hide Predictions;
    hide AllOk;
    hide MakeBin;
    hide Summarises;
    hide RowsIn;
    hide BinsUpTo;
    var preds := Predictions(assessments, observed);
    forall i | 0 <= i < |summary| ensures Legitimate(summary[i], assessments, observed, bins) {
      var b := BinSource(preds, bins, bins, i);
      MadeBinSummarises(assessments, observed, bins, b);
    }
    forall b: nat | b < bins && RowsIn(assessments, bins, b) != {}
      ensures Summarised(summary, assessments, observed, bins, b)
    {
      BucketMeans(assessments, observed, bins, b);
      var i := BinListed(preds, bins, bins, b);
      MadeBinSummarises(assessments, observed, bins, b);
    }
  }

  // ---------------------------------------------------------------- calibration errors

  ghost function GapIn(assessments: seq<Assessment>, observed: seq<Observed>, bins: int, b: int): real
    requires |assessments| == |observed|
  {
    var d := MassIn(assessments, bins, b) - |HitsIn(assessments, observed, bins, b)| as real;
    if d >= 0.0 then d else -d
  }

  ghost function TotalGap(assessments: seq<Assessment>, observed: seq<Observed>, bins: int, k: nat): real
    requires |assessments| == |observed|
  {
    if k == 0 then 0.0 else TotalGap(assessments, observed, bins, k - 1) + GapIn(assessments, observed, bins, k - 1)
  }

  lemma ExcessMeans(assessments: seq<Assessment>, observed: seq<Observed>, bins: int, b: nat)
    requires |assessments| == |observed| && AllOk(assessments, observed) && bins >= 1
    ensures Abs(Excess(Bucket(Predictions(assessments, observed), bins, b))) == GapIn(assessments, observed, bins, b)
  {
    hide Bucket;
    hide Predictions;
    BucketMeans(assessments, observed, bins, b);
  }

  lemma {:induction false} SpreadMeans(assessments: seq<Assessment>, observed: seq<Observed>, bins: int, k: nat)
    requires |assessments| == |observed| && AllOk(assessments, observed) && bins >= 1
    ensures Spread(Predictions(assessments, observed), bins, 0, k) == TotalGap(assessments, observed, bins, k)
  {
    hide Bucket;
    hide Predictions;
    hide Excess;
    hide GapIn;
    hide AllOk;
    hide Abs;
    if k > 0 {
      SpreadMeans(assessments, observed, bins, k - 1);
      ExcessMeans(assessments, observed, bins, k - 1);
    }
  }

  /** The expected error of the report, times the number of rows, is the sum over bins of the distance between
      probability mass and hits. */
  lemma ReportEce(assessments: seq<Assessment>, observed: seq<Observed>, bins: int)
    requires |assessments| == |observed| && AllOk(assessments, observed) && bins >= 1 && observed != []
    ensures Ece(Predictions(assessments, observed), bins) * |observed| as real
         == TotalGap(assessments, observed, bins, bins)
  {
    hide Spread;
    hide Ece;
    hide AllOk;
    var preds := Predictions(assessments, observed);
    assert |preds| == |observed|;
    EceIsSpread(preds, bins);
    SpreadMeans(assessments, observed, bins, bins);
  }

  /** The maximum error of the report is at most `cap` if and only if in every bin that distance is at most `cap` for
      each row of the bin. */
  lemma ReportMce(assessments: seq<Assessment>, observed: seq<Observed>, bins: int, cap: real)
    requires |assessments| == |observed| && AllOk(assessments, observed) && bins >= 1 && cap >= 0.0
    ensures Mce(Predictions(assessments, observed), bins) <= cap <==>
              forall b: nat :: b < bins ==>
                GapIn(assessments, observed, bins, b) <= cap * |RowsIn(assessments, bins, b)| as real
  {
    hide Bucket;
    hide GapIn;
    hide BinsUpTo;
    hide LargestGap;
    hide AllOk;
    hide Predictions;
    var preds := Predictions(assessments, observed);
    LargestGapIff(preds, bins, bins, cap);
    forall b: nat
      ensures Within(preds, bins, b, cap) <==>
                GapIn(assessments, observed, bins, b) <= cap * |RowsIn(assessments, bins, b)| as real
    {
      ExcessMeans(assessments, observed, bins, b);
      BucketMeans(assessments, observed, bins, b);
    }
  }

  // ---------------------------------------------------------------- a single row

  lemma OneRowExcess(p: Prediction, bins: int, b: nat, cap: real)
    requires bins >= 1 && cap == Abs(p.confidence - p.Hit())
    ensures Within([p], bins, b, cap)
  {
    assert [p][..0] == [];
    if BinIndex(p.confidence, bins) == b {
      assert Bucket([p], bins, b) == [] + [p] == [p];
      assert Confidence([p]) == p.confidence && Hits([p]) == p.Hit();
    } else {
      assert Bucket([p], bins, b) == [];
    }
  }

  lemma OneRowErrors(p: Prediction, bins: int)
    requires bins >= 1 && 0.0 <= p.confidence <= 1.0
    ensures Ece([p], bins) == Mce([p], bins) == Abs(p.confidence - p.Hit())
  {
    hide Ece;
    hide Within;
    hide BinsUpTo;
    hide LargestGap;
    var cap := Abs(p.confidence - p.Hit());
    ErrorChain([p], bins);
    forall b: nat | b < bins ensures Within([p], bins, b, cap) {
      OneRowExcess(p, bins, b, cap);
    }
    LargestGapIff([p], bins, bins, cap);
    OneRowMeans(p);
  }

  lemma OneRowMeans(p: Prediction)
    ensures MeanConfidence([p]) == p.confidence && Accuracy([p]) == p.Hit()
  {
    var none: seq<Prediction> := [];
    assert [p][..0] == none && Confidence(none) == 0.0 && Hits(none) == 0.0;
    assert Confidence([p]) == 0.0 + p.confidence;
    assert Hits([p]) == 0.0 + p.Hit();
    RatioTimes(p.confidence, 1);
    RatioTimes(p.Hit(), 1);
  }

  /** A report on one row: both errors are 1 minus the largest probability if the first outcome with it happened, and
      that probability if not. */
  lemma OneRowReport(a: Assessment, o: Observed, bins: int)
    requires RowOk(a, o) && bins >= 1
    ensures AllOk([a], [o])
    ensures var error := if FirstLargest(a, o) then 1.0 - Largest(a) else Largest(a);
            Ece(Predictions([a], [o]), bins) == Mce(Predictions([a], [o]), bins) == error
  {
    var p := ToPrediction(a, o.outcome);
    ToPredictionMeans(a, o);
    TopInUnit(a);
    assert Predictions([a], [o]) == [p];
    hide Ece;
    hide Mce;
    OneRowErrors(p, bins);
  }

  // ---------------------------------------------------------------- scores

  ghost function Given(a: Assessment, o: Observed): real {
    match o
    case Known(Bullish) => a.bullish
    case Known(Bearish) => a.bearish
    case Known(Neutral) => a.neutral
    case Unsupported => 0.0
  }

  /** The squared error of one row, multiplied out. */
  ghost function SquaredError(a: Assessment, o: Observed): real {
    a.bullish * a.bullish + a.bearish * a.bearish + a.neutral * a.neutral - 2.0 * Given(a, o) + 1.0
  }

  ghost function SquaredErrors(assessments: seq<Assessment>, observed: seq<Observed>): real
    requires |assessments| == |observed|
  {
    if observed == [] then 0.0
    else
      var n := |observed| - 1;
      SquaredErrors(assessments[..n], observed[..n]) + SquaredError(assessments[n], observed[n])
  }

  lemma MultipliedOut(p: real, hit: real)
    requires hit == 0.0 || hit == 1.0
    ensures Square(p - hit) == p * p - 2.0 * (p * hit) + hit
    ensures p * hit == if hit == 0.0 then 0.0 else p
  {
  }

  lemma RowBrierMeans(a: Assessment, o: Observed)
    requires o.Known?
    ensures RowBrier(a, o.outcome) == SquaredError(a, o)
  {
    hide Square;
    MultipliedOut(a.bullish, if o.outcome == Bullish then 1.0 else 0.0);
    MultipliedOut(a.bearish, if o.outcome == Bearish then 1.0 else 0.0);
    MultipliedOut(a.neutral, if o.outcome == Neutral then 1.0 else 0.0);
  }

  lemma {:induction false} BrierSumMeans(assessments: seq<Assessment>, observed: seq<Observed>)
    requires |assessments| == |observed| && AllOk(assessments, observed)
    ensures BrierSum(assessments, observed) == SquaredErrors(assessments, observed)
  {
    hide RowBrier;
    hide SquaredError;
    hide Acceptable;
    if observed != [] {
      var n := |observed| - 1;
      BrierSumMeans(assessments[..n], observed[..n]);
      assert RowOk(assessments[n], observed[n]);
      RowBrierMeans(assessments[n], observed[n]);
    }
  }

  ghost function LogSum(ln: real -> real, assessments: seq<Assessment>, observed: seq<Observed>): real
    requires |assessments| == |observed|
  {
    if observed == [] then 0.0
    else
      var n := |observed| - 1;
      LogSum(ln, assessments[..n], observed[..n]) + ln(Given(assessments[n], observed[n]))
  }

  lemma {:induction false} LossSumMeans(ln: real -> real, assessments: seq<Assessment>, observed: seq<Observed>)
    requires |assessments| == |observed| && AllOk(assessments, observed)
    ensures LossSum(ln, assessments, observed).Finite? <==>
              forall i :: 0 <= i < |observed| ==> Given(assessments[i], observed[i]) > 0.0
    ensures LossSum(ln, assessments, observed).Finite? ==>
              LossSum(ln, assessments, observed).value == -LogSum(ln, assessments, observed)
  {
    hide Acceptable;
    if observed != [] {
      var n := |observed| - 1;
      var xs, os := assessments[..n], observed[..n];
      LossSumMeans(ln, xs, os);
      assert RowOk(assessments[n], observed[n]);
      assert Given(assessments[n], observed[n]) == ProbabilityOf(assessments[n], observed[n].outcome);
      assert forall i :: 0 <= i < n ==> xs[i] == assessments[i] && os[i] == observed[i];
    }
  }

  /** The scores of the report: the Brier score is the mean over rows of the squared probabilities minus twice the one
      given to the outcome plus 1; the log loss is the mean negative logarithm of what was given to the outcome, and
      finite if and only if that is never 0. */
  lemma ReportScores(ln: real -> real, assessments: seq<Assessment>, observed: seq<Observed>)
    requires |assessments| == |observed| && AllOk(assessments, observed)
    ensures BrierScore(assessments, observed) * |observed| as real == SquaredErrors(assessments, observed)
    ensures var loss := LogLoss(ln, assessments, observed);
            && (loss.Finite? <==> forall i :: 0 <= i < |observed| ==> Given(assessments[i], observed[i]) > 0.0)
            && (loss.Finite? ==> loss.value * |observed| as real == -LogSum(ln, assessments, observed))
  {
    hide AllOk;
    hide BrierSum;
    hide LossSum;
    hide Given;
    BrierSumMeans(assessments, observed);
    LossSumMeans(ln, assessments, observed);
    if observed != [] {
      RatioTimes(BrierSum(assessments, observed), |observed|);
      if LossSum(ln, assessments, observed).Finite? {
        RatioTimes(LossSum(ln, assessments, observed).value, |observed|);
      }
    }
  }
}
