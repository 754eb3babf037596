/** `evaluate_probability_calibration`: validation, Brier score, bins and the report's own checks. */
module ProbabilityValidation {
  import opened Arithmetic
  import opened Common
  import opened Reliability

  const TOLERANCE: real := 0.000000001

  datatype Assessment = Assessment(bullish: real, bearish: real, neutral: real, confidence: real,
                                   uncertainty: real, sampleSize: int)

  datatype Outcome = Bullish | Bearish | Neutral

  /** An observed outcome string after trimming and lower-casing. */
  datatype Observed = Known(outcome: Outcome) | Unsupported

  datatype Error =
    | BinCountBelowOne | MinimumSampleBelowOne | LengthMismatch
    | InvalidAssessment(index: nat) | UnsupportedOutcome(index: nat) | ScoreOutOfRange

  /** A log loss; infinite when some outcome that happened had been given probability 0. */
  datatype Loss = Finite(value: real) | Infinite

  datatype Report = Report(count: nat, brier: real, logLoss: Loss, ece: real, mce: real, ready: bool,
                           bins: seq<CalibrationBin>)

  predicate Unit(v: real) { 0.0 <= v <= 1.0 }

  /** No error from `validate_probability_assessment`. */
  predicate Acceptable(a: Assessment) {
    && Unit(a.bullish) && Unit(a.bearish) && Unit(a.neutral)
    && Abs(a.bullish + a.bearish + a.neutral - 1.0) <= TOLERANCE
    && Unit(a.confidence) && Unit(a.uncertainty) && a.sampleSize >= 0
  }

  function Square(v: real): real { v * v }

  function RowBrier(a: Assessment, actual: Outcome): real {
    Square(a.bullish - (if actual == Bullish then 1.0 else 0.0))
    + Square(a.bearish - (if actual == Bearish then 1.0 else 0.0))
    + Square(a.neutral - (if actual == Neutral then 1.0 else 0.0))
  }

  /** The first outcome with the largest probability. */
  function Predicted(a: Assessment): Outcome {
    if a.bullish >= a.bearish && a.bullish >= a.neutral then Bullish
    else if a.bearish >= a.neutral then Bearish
    else Neutral
  }

  function ProbabilityOf(a: Assessment, o: Outcome): real {
    match o
    case Bullish => a.bullish
    case Bearish => a.bearish
    case Neutral => a.neutral
  }

  function ToPrediction(a: Assessment, actual: Outcome): Prediction {
    Prediction(ProbabilityOf(a, Predicted(a)), Predicted(a) == actual)
  }

  // ---------------------------------------------------------------- specification

  predicate RowOk(a: Assessment, o: Observed) {
    Acceptable(a) && o.Known?
  }

  predicate AllOk(assessments: seq<Assessment>, observed: seq<Observed>)
    requires |assessments| == |observed|
  {
    forall i :: 0 <= i < |observed| ==> RowOk(assessments[i], observed[i])
  }

  function Predictions(assessments: seq<Assessment>, observed: seq<Observed>): seq<Prediction>
    requires |assessments| == |observed| && AllOk(assessments, observed)
  {
    seq(|observed|, i requires 0 <= i < |observed| => ToPrediction(assessments[i], observed[i].outcome))
  }

  function BrierSum(assessments: seq<Assessment>, observed: seq<Observed>): real
    requires |assessments| == |observed| && AllOk(assessments, observed)
  {
    if observed == [] then 0.0
    else
      var n := |observed| - 1;
      BrierSum(assessments[..n], observed[..n]) + RowBrier(assessments[n], observed[n].outcome)
  }

  function BrierScore(assessments: seq<Assessment>, observed: seq<Observed>): real
    requires |assessments| == |observed| && AllOk(assessments, observed)
  {
    if observed == [] then 0.0 else BrierSum(assessments, observed) / |observed| as real
  }

  /** What is used of the natural logarithm: it is not positive on probabilities. */
  ghost predicate LogOfUnit(ln: real -> real) {
    forall p :: 0.0 < p <= 1.0 ==> ln(p) <= 0.0
  }

  function RowLoss(ln: real -> real, a: Assessment, actual: Outcome): Loss {
    if ProbabilityOf(a, actual) > 0.0 then Finite(-ln(ProbabilityOf(a, actual))) else Infinite
  }

  function Plus(a: Loss, b: Loss): Loss {
    if a.Finite? && b.Finite? then Finite(a.value + b.value) else Infinite
  }

  function Over(a: Loss, n: nat): Loss
    requires n > 0
  {
    if a.Finite? then Finite(a.value / n as real) else Infinite
  }

  function LossSum(ln: real -> real, assessments: seq<Assessment>, observed: seq<Observed>): Loss
    requires |assessments| == |observed| && AllOk(assessments, observed)
  {
    if observed == [] then Finite(0.0)
    else
      var n := |observed| - 1;
      Plus(LossSum(ln, assessments[..n], observed[..n]), RowLoss(ln, assessments[n], observed[n].outcome))
  }

  function LogLoss(ln: real -> real, assessments: seq<Assessment>, observed: seq<Observed>): Loss
    requires |assessments| == |observed| && AllOk(assessments, observed)
  {
    if observed == [] then Finite(0.0) else Over(LossSum(ln, assessments, observed), |observed|)
  }

  // ---------------------------------------------------------------- the evaluation

  /** Scans the rows in order and stops at the first invalid one; an invalid assessment is reported
      before an unsupported outcome of the same row. */
  method ValidateRows(assessments: seq<Assessment>, observed: seq<Observed>) returns (r: Result<(), Error>)
    requires |assessments| == |observed|
    ensures r.Ok? <==> AllOk(assessments, observed)
    ensures r.Err? ==> r.error.InvalidAssessment? || r.error.UnsupportedOutcome?
    ensures r.Err? ==>
              && r.error.index < |observed|
              && !RowOk(assessments[r.error.index], observed[r.error.index])
              && (r.error.InvalidAssessment? <==> !Acceptable(assessments[r.error.index]))
              && (forall j :: 0 <= j < r.error.index ==> RowOk(assessments[j], observed[j]))
  {
    hide Acceptable;
    for i := 0 to |observed|
      invariant forall j :: 0 <= j < i ==> RowOk(assessments[j], observed[j])
    {
      if !Acceptable(assessments[i]) {
        return Err(InvalidAssessment(i));
      }
      if observed[i].Unsupported? {
        return Err(UnsupportedOutcome(i));
      }
    }
    r := Ok(());
  }

  method Evaluate(ln: real -> real,
                  assessments: seq<Assessment>, observed: seq<Observed>, binCount: int, minimumSample: int)
    returns (r: Result<Report, Error>)
    requires LogOfUnit(ln)
    ensures r.Ok? <==>
              && binCount >= 1 && minimumSample >= 1 && |assessments| == |observed|
              && AllOk(assessments, observed) && BrierScore(assessments, observed) <= 2.0
    ensures r.Ok? ==>
              && r.value.count == |observed|
              && r.value.brier == BrierScore(assessments, observed)
              && r.value.logLoss == LogLoss(ln, assessments, observed)
              && r.value.bins == Bins(Predictions(assessments, observed), binCount)
              && r.value.ece == Ece(Predictions(assessments, observed), binCount)
              && r.value.mce == Mce(Predictions(assessments, observed), binCount)
              && (r.value.ready <==> |observed| >= minimumSample)
  {
    hide Acceptable;
    hide RowBrier;
    hide RowLoss;
    hide ToPrediction;
    hide Bins;
    hide Ece;
    hide Mce;
    if binCount < 1 {
      return Err(BinCountBelowOne);
    }
    if minimumSample < 1 {
      return Err(MinimumSampleBelowOne);
    }
    if |assessments| != |observed| {
      return Err(LengthMismatch);
    }
    var checked := ValidateRows(assessments, observed);
    if checked.Err? {
      return Err(checked.error);
    }
    var n := |observed|;
    var brier, loss := 0.0, Finite(0.0);
    var preds: seq<Prediction> := [];
    for i := 0 to n
      invariant brier == BrierSum(assessments[..i], observed[..i])
      invariant loss == LossSum(ln, assessments[..i], observed[..i])
      invariant preds == Predictions(assessments, observed)[..i]
    {
      assert assessments[..i + 1][..i] == assessments[..i] && observed[..i + 1][..i] == observed[..i];
      brier := brier + RowBrier(assessments[i], observed[i].outcome);
      loss := Plus(loss, RowLoss(ln, assessments[i], observed[i].outcome));
      preds := preds + [ToPrediction(assessments[i], observed[i].outcome)];
    }
    assert assessments[..n] == assessments && observed[..n] == observed;
    assert preds == Predictions(assessments, observed);
    PredictionsInUnit(assessments, observed);
    var score := if n == 0 then 0.0 else brier / n as real;
    var logLoss := if n == 0 then Finite(0.0) else Over(loss, n);
    var summary := BuildBins(preds, binCount);
    var ece, mce := Measures(summary, preds, binCount);
    ScoreNonNegative(assessments, observed);
    LossNonNegative(ln, assessments, observed);
    ErrorsInUnit(preds, binCount);
    if !(0.0 <= score <= 2.0) || (logLoss.Finite? && logLoss.value < 0.0) || !Unit(ece) || !Unit(mce) {
      return Err(ScoreOutOfRange);
    }
    r := Ok(Report(n, score, logLoss, ece, mce, n >= minimumSample, summary));
  }

  /** The two comprehension sums over the bins. */
  method Measures(summary: seq<CalibrationBin>, preds: seq<Prediction>, binCount: int) returns (ece: real, mce: real)
    requires binCount >= 1 && summary == Bins(preds, binCount)
    ensures ece == Ece(preds, binCount) && mce == Mce(preds, binCount)
  {
    hide Bins;
    var n := |preds|;
    ece, mce := 0.0, 0.0;
    for i := 0 to |summary|
      invariant n > 0 ==> ece == WeightedGap(summary[..i], n)
      invariant n == 0 ==> ece == 0.0
      invariant mce == LargestGap(summary[..i])
    {
      assert summary[..i + 1][..i] == summary[..i];
      if n > 0 {
        ece := ece + GapWeight(summary[i], n);
      }
      if summary[i].gap > mce {
        mce := summary[i].gap;
      }
    }
    assert summary[..|summary|] == summary;
  }

  // ---------------------------------------------------------------- ranges

  /** The max-probability confidence is one of the three probabilities and no other exceeds it. */
  lemma PredictedIsMaximal(a: Assessment, o: Outcome)
    ensures ProbabilityOf(a, o) <= ProbabilityOf(a, Predicted(a))
  {
  }

  lemma PredictionsInUnit(assessments: seq<Assessment>, observed: seq<Observed>)
    requires |assessments| == |observed| && AllOk(assessments, observed)
    ensures InUnit(Predictions(assessments, observed))
  {
    var preds := Predictions(assessments, observed);
    forall i | 0 <= i < |preds| ensures 0.0 <= preds[i].confidence <= 1.0 {
      assert RowOk(assessments[i], observed[i]);
    }
  }

  lemma ErrorsInUnit(preds: seq<Prediction>, binCount: int)
    requires binCount >= 1 && InUnit(preds)
    ensures Unit(Ece(preds, binCount)) && Unit(Mce(preds, binCount))
  {
    hide Bins;
    BinsPartition(preds, binCount);
    LargestGapBounds(Bins(preds, binCount));
    if preds != [] {
      ErrorChain(preds, binCount);
    }
  }

  lemma SquareNonNegative(v: real)
    ensures Square(v) >= 0.0
  {
  }

  lemma {:induction false} ScoreNonNegative(assessments: seq<Assessment>, observed: seq<Observed>)
    requires |assessments| == |observed| && AllOk(assessments, observed)
    ensures BrierSum(assessments, observed) >= 0.0 && BrierScore(assessments, observed) >= 0.0
  {
    hide Square;
    hide Acceptable;
    if observed != [] {
      var n := |observed| - 1;
      ScoreNonNegative(assessments[..n], observed[..n]);
      var a, o := assessments[n], observed[n].outcome;
      SquareNonNegative(a.bullish - (if o == Bullish then 1.0 else 0.0));
      SquareNonNegative(a.bearish - (if o == Bearish then 1.0 else 0.0));
      SquareNonNegative(a.neutral - (if o == Neutral then 1.0 else 0.0));
      RatioGeq(BrierSum(assessments, observed), 0.0, n + 1);
      assert Ratio(BrierSum(assessments, observed), n + 1) == BrierScore(assessments, observed);
    }
  }

  /** p and q in [0, 1] with sum at most s >= 1 have squares adding up to at most 1 + (s - 1)^2. */
  lemma TwoSquares(p: real, q: real, excess: real)
    requires Unit(p) && Unit(q) && 0.0 <= excess <= 1.0 && p + q <= 1.0 + excess
    ensures Square(p) + Square(q) <= 1.0 + Square(excess)
  {
    if p + q <= 1.0 {
      UnitSquare(p);
      UnitSquare(q);
      SquareNonNegative(excess);
    } else {
      // with e = p + q - 1: (1 - p)(1 - q) >= 0 turns into p^2 + q^2 <= 1 + e^2
      var e := p + q - 1.0;
      MulNonNegative(1.0 - p, 1.0 - q, (1.0 - p) * (1.0 - q));
      assert Square(p) + Square(q) == 1.0 + Square(e) - 2.0 * ((1.0 - p) * (1.0 - q));
      SquareMonotone(e, excess);
    }
  }

  lemma UnitSquare(p: real)
    requires Unit(p)
    ensures Square(p) <= p
  {
    ScaledDown(p, p, Square(p));
  }

  lemma ScaledDown(p: real, q: real, product: real)
    requires 0.0 <= p && q <= 1.0 && product == p * q
    ensures product <= p
  {
  }

  lemma SquareMonotone(a: real, b: real)
    requires 0.0 <= a <= b
    ensures Square(a) <= Square(b)
  {
    MulLeq(a, b, a);
    MulLeq(a, b, b);
  }

  /** Of one accepted row, whatever happened: at most 2 plus the squared excess of its sum over 1. */
  lemma RowBrierBound(a: Assessment, actual: Outcome, excess: real)
    requires Unit(a.bullish) && Unit(a.bearish) && Unit(a.neutral)
    requires 0.0 <= excess <= 1.0 && a.bullish + a.bearish + a.neutral <= 1.0 + excess
    ensures RowBrier(a, actual) <= 2.0 + Square(excess)
  {
    hide Square;
    var t := ProbabilityOf(a, actual);
    MissSquare(t);
    SquareOfDifference(a);
    match actual
    case Bullish => TwoSquares(a.bearish, a.neutral, excess);
    case Bearish => TwoSquares(a.bullish, a.neutral, excess);
    case Neutral => TwoSquares(a.bullish, a.bearish, excess);
  }

  lemma MissSquare(t: real)
    requires Unit(t)
    ensures Square(t - 1.0) <= 1.0
  {
    UnitSquare(1.0 - t);
    assert Square(1.0 - t) == Square(t - 1.0);
  }

  lemma SquareOfDifference(a: Assessment)
    ensures Square(a.bullish - 0.0) == Square(a.bullish) && Square(a.bearish - 0.0) == Square(a.bearish)
    ensures Square(a.neutral - 0.0) == Square(a.neutral)
  {
  }

  lemma {:induction false} BrierSumBound(assessments: seq<Assessment>, observed: seq<Observed>, excess: real)
    requires |assessments| == |observed| && AllOk(assessments, observed) && 0.0 <= excess <= 1.0
    requires forall i :: 0 <= i < |observed| ==>
               assessments[i].bullish + assessments[i].bearish + assessments[i].neutral <= 1.0 + excess
    ensures BrierSum(assessments, observed) <= (2.0 + Square(excess)) * |observed| as real
  {
    hide Square;
    hide RowBrier;
    var cap := 2.0 + Square(excess);
    if observed == [] {
      assert cap * 0.0 == 0.0;
    } else {
      var n := |observed| - 1;
      BrierSumBound(assessments[..n], observed[..n], excess);
      assert RowOk(assessments[n], observed[n]);
      RowBrierBound(assessments[n], observed[n].outcome, excess);
      Distribute(cap, n as real, 1.0);
    }
  }

  /** The score of rows whose probabilities exceed 1 in sum by at most `excess`, in exact arithmetic. */
  lemma ScoreRange(assessments: seq<Assessment>, observed: seq<Observed>, excess: real)
    requires |assessments| == |observed| && AllOk(assessments, observed) && 0.0 <= excess <= 1.0
    requires forall i :: 0 <= i < |observed| ==>
               assessments[i].bullish + assessments[i].bearish + assessments[i].neutral <= 1.0 + excess
    ensures 0.0 <= BrierScore(assessments, observed) <= 2.0 + Square(excess)
  {
    hide BrierSum;
    hide RowOk;
    ScoreNonNegative(assessments, observed);
    SquareNonNegative(excess);
    if observed != [] {
      BrierSumBound(assessments, observed, excess);
      RatioLeq(BrierSum(assessments, observed), 2.0 + Square(excess), |observed|);
      assert Ratio(BrierSum(assessments, observed), |observed|) == BrierScore(assessments, observed);
    }
  }

  /** When no row's probabilities exceed 1 in sum, the score is at most 2 and the report is accepted. */
  lemma ReportAccepted(assessments: seq<Assessment>, observed: seq<Observed>)
    requires |assessments| == |observed| && AllOk(assessments, observed)
    requires forall i :: 0 <= i < |observed| ==>
               assessments[i].bullish + assessments[i].bearish + assessments[i].neutral <= 1.0
    ensures 0.0 <= BrierScore(assessments, observed) <= 2.0
  {
    ScoreRange(assessments, observed, 0.0);
    assert Square(0.0) == 0.0;
  }

  /** Any accepted rows: in exact arithmetic the score is within 10^-18 of the range. */
  lemma AcceptedScoreBound(assessments: seq<Assessment>, observed: seq<Observed>)
    requires |assessments| == |observed| && AllOk(assessments, observed)
    ensures 0.0 <= BrierScore(assessments, observed) <= 2.0 + Square(TOLERANCE)
  {
    hide BrierScore;
    forall i | 0 <= i < |observed|
      ensures assessments[i].bullish + assessments[i].bearish + assessments[i].neutral <= 1.0 + TOLERANCE
    {
      assert RowOk(assessments[i], observed[i]);
    }
    ScoreRange(assessments, observed, TOLERANCE);
  }

  /** That bound is sharp: for every tolerated excess some accepted row scores 2 plus its square, no more and
      no less. */
  lemma ScoreBoundSharp(excess: real)
    requires 0.0 <= excess <= TOLERANCE
    ensures var a := Assessment(0.0, 1.0, excess, 1.0, 0.0, 1);
            AllOk([a], [Known(Bullish)]) && BrierScore([a], [Known(Bullish)]) == 2.0 + Square(excess)
  {
    var a := Assessment(0.0, 1.0, excess, 1.0, 0.0, 1);
    assert RowOk(a, Known(Bullish));
    assert RowBrier(a, Bullish) == 2.0 + Square(excess);
    OneRowScore(a, Known(Bullish));
  }

  lemma OneRowScore(a: Assessment, o: Observed)
    requires RowOk(a, o)
    ensures AllOk([a], [o]) && BrierScore([a], [o]) == RowBrier(a, o.outcome)
  {
    hide RowBrier;
    hide Acceptable;
    assert BrierSum([a][..0], [o][..0]) == 0.0;
    assert BrierSum([a], [o]) == RowBrier(a, o.outcome);
  }

  lemma {:induction false} LossNonNegative(ln: real -> real, assessments: seq<Assessment>, observed: seq<Observed>)
    requires LogOfUnit(ln) && |assessments| == |observed| && AllOk(assessments, observed)
    ensures LossSum(ln, assessments, observed).Finite? ==> LossSum(ln, assessments, observed).value >= 0.0
    ensures LogLoss(ln, assessments, observed).Finite? ==> LogLoss(ln, assessments, observed).value >= 0.0
  {
    if observed != [] {
      var n := |observed| - 1;
      LossNonNegative(ln, assessments[..n], observed[..n]);
      assert RowOk(assessments[n], observed[n]);
      var total := LossSum(ln, assessments, observed);
      if total.Finite? {
        DivideLeq(0.0, total.value, |observed| as real);
      }
    }
  }

  /** The log loss is infinite exactly when some outcome happened that had been given probability 0. */
  lemma {:induction false} LossInfiniteIff(ln: real -> real, assessments: seq<Assessment>, observed: seq<Observed>)
    requires |assessments| == |observed| && AllOk(assessments, observed)
    ensures LogLoss(ln, assessments, observed).Infinite?
            <==> exists i :: 0 <= i < |observed| && ProbabilityOf(assessments[i], observed[i].outcome) <= 0.0
  {
    LossSumInfiniteIff(ln, assessments, observed);
  }

  lemma {:induction false} LossSumInfiniteIff(ln: real -> real, assessments: seq<Assessment>, observed: seq<Observed>)
    requires |assessments| == |observed| && AllOk(assessments, observed)
    ensures LossSum(ln, assessments, observed).Infinite?
            <==> exists i :: 0 <= i < |observed| && ProbabilityOf(assessments[i], observed[i].outcome) <= 0.0
  {
    hide Acceptable;
    if observed != [] {
      var n := |observed| - 1;
      var xs, os := assessments[..n], observed[..n];
      LossSumInfiniteIff(ln, xs, os);
      if i :| 0 <= i < n && ProbabilityOf(xs[i], os[i].outcome) <= 0.0 {
        assert ProbabilityOf(assessments[i], observed[i].outcome) <= 0.0;
      }
      if i :| 0 <= i < n && ProbabilityOf(assessments[i], observed[i].outcome) <= 0.0 {
        assert ProbabilityOf(xs[i], os[i].outcome) <= 0.0;
      }
    }
  }
}
