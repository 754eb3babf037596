/** The B-level decision of scripts/evaluate_xauusd_m1_b_level_gate.py. */
module Gate {
  import opened Arithmetic
  import opened SignTest
  import opened SignFlip

  const MIN_OOS_EVENTS: int := 10000
  const MIN_FOLD_IMPROVEMENT_RATE: real := 0.70
  const PERMUTATION_ALPHA: real := 0.01
  const SIGN_TEST_ALPHA: real := 0.05
  const MONTE_CARLO_SAMPLES: nat := 100000

  datatype Score = Missing | Score(value: real)
  datatype FoldScores = FoldScores(model: Score, baseline: Score)
  datatype Improvements = Invalid(fold: nat) | NoFolds | Differences(values: seq<real>)

  ghost predicate Usable(f: FoldScores) {
    f.model.Score? && f.baseline.Score?
  }

  /** `_fold_improvements`: baseline minus model, fold by fold, or the error that stops it. */
  method FoldImprovements(folds: seq<FoldScores>) returns (r: Improvements)
    ensures r.Differences? <==> folds != [] && forall i :: 0 <= i < |folds| ==> Usable(folds[i])
    ensures r.Differences? ==>
              && |r.values| == |folds|
              && forall i :: 0 <= i < |folds| ==> r.values[i] == folds[i].baseline.value - folds[i].model.value
    ensures r.Invalid? ==>
              r.fold < |folds| && !Usable(folds[r.fold]) && forall i :: 0 <= i < r.fold ==> Usable(folds[i])
    ensures r.NoFolds? <==> folds == []
  {
    var values: seq<real> := [];
    for i := 0 to |folds|
      invariant |values| == i
      invariant forall j :: 0 <= j < i ==>
                  Usable(folds[j]) && values[j] == folds[j].baseline.value - folds[j].model.value
    {
      if folds[i].model.Missing? || folds[i].baseline.Missing? {
        return Invalid(i);
      }
      values := values + [folds[i].baseline.value - folds[i].model.value];
    }
    r := if values == [] then NoFolds else Differences(values);
  }

  function Positives(values: seq<real>): nat {
    if values == [] then 0 else Positives(values[..|values| - 1]) + if values[|values| - 1] > 0.0 then 1 else 0
  }

  function Negatives(values: seq<real>): nat {
    if values == [] then 0 else Negatives(values[..|values| - 1]) + if values[|values| - 1] < 0.0 then 1 else 0
  }

  /** Everything the decision reads; `hits` is how many Monte Carlo draws were extreme. */
  datatype Evidence = Evidence(
    walkforwardAudit: bool, sourceAudit: bool, oosEvents: int, aggregateImprovement: real,
    differences: seq<real>, ciLow: real, hits: nat, labelShuffle: bool, leakageRejected: bool)

  function PermutationP(e: Evidence): real {
    if |e.differences| <= 20 then ExactPValue(e.differences)
    else (e.hits + 1) as real / (MONTE_CARLO_SAMPLES + 1) as real
  }

  predicate BLevelPass(e: Evidence)
    requires e.differences != []
  {
    && e.walkforwardAudit && e.sourceAudit
    && e.oosEvents >= MIN_OOS_EVENTS
    && e.aggregateImprovement > 0.0
    && e.ciLow > 0.0
    && PermutationP(e) < PERMUTATION_ALPHA
    && GateSignTest(Positives(e.differences), Negatives(e.differences)) < SIGN_TEST_ALPHA
    && Positives(e.differences) as real / |e.differences| as real >= MIN_FOLD_IMPROVEMENT_RATE
    && e.labelShuffle && e.leakageRejected
  }

  lemma {:induction false} Pow2Monotone(m: nat, n: nat)
    requires m <= n
    ensures Pow2(m) <= Pow2(n)
    decreases n
  {
    if m < n {
      Pow2Monotone(m, n - 1);
    }
  }

  lemma Pow2Values()
    ensures Pow2(6) == 64 && Pow2(7) == 128
  {
    assert Pow2(3) == 8;
    assert Pow2(5) == 32;
  }

  /** A quotient below alpha needs its numerator below alpha times the denominator. */
  lemma BelowAlpha(count: nat, total: nat, alpha: real)
    requires total > 0 && count as real / total as real < alpha
    ensures count as real < alpha * total as real
  {
    var q := count as real / total as real;
    assert q * total as real == count as real;
    MulLess(q, alpha, total as real);
  }

  /** No artifact with fewer than seven folds can pass, whatever its scores. */
  lemma PassNeedsSevenFolds(e: Evidence)
    requires e.differences != [] && BLevelPass(e)
    ensures |e.differences| >= 7
  {
    hide GateSignTest;
    var n := |e.differences|;
    if n < 7 {
      ExactPValueBound(e.differences);
      BelowAlpha(Extreme(e.differences), Pow2(n), PERMUTATION_ALPHA);
      Pow2Monotone(n, 6);
      Pow2Values();
      assert false;
    }
  }

  /** With exactly seven folds, a pass means that every single fold improved. */
  lemma SevenFoldsAllImprove(e: Evidence)
    requires |e.differences| == 7 && BLevelPass(e)
    ensures forall i :: 0 <= i < 7 ==> e.differences[i] > 0.0
  {
    hide GateSignTest;
    ExactPValueBound(e.differences);
    BelowAlpha(Extreme(e.differences), Pow2(7), PERMUTATION_ALPHA);
    Pow2Values();
    assert Extreme(e.differences) == 1;
  }

  lemma {:induction false} AllPositive(values: seq<real>)
    requires forall i :: 0 <= i < |values| ==> values[i] > 0.0
    ensures Positives(values) == |values| && Negatives(values) == 0
  {
    if values != [] {
      AllPositive(values[..|values| - 1]);
    }
  }

  lemma SmallQuotient(total: nat, q: real)
    requires total >= 128 && q * total as real == 1.0
    ensures q < 0.01
  {
    if q >= 0.01 {
      MulLeq(0.01, q, total as real);
      assert false;
    }
  }

  lemma OneOver(total: nat)
    requires total >= 128
    ensures 1 as real / total as real < 0.01
  {
    SmallQuotient(total, 1.0 / total as real);
  }

  lemma LargePower(n: nat)
    requires n >= 7
    ensures Pow2(n) >= 128
  {
    Pow2Monotone(7, n);
    Pow2Values();
  }

  lemma PermutationGateAttainable(values: seq<real>)
    requires |values| >= 7 && forall i :: 0 <= i < |values| ==> 2.0 * values[i] > |values| as real * SLACK
    ensures ExactPValue(values) < PERMUTATION_ALPHA
  {
    hide MasksReaching;
    hide Pow2;
    ExactPValueBound(values);
    LargePower(|values|);
    OneOver(Pow2(|values|));
  }

  lemma SignGateAttainable(n: nat)
    requires n >= 7
    ensures GateSignTest(n, 0) < SIGN_TEST_ALPHA
  {
    hide Pow2;
    LargePower(n);
    OneOver(Pow2(n));
    assert Tail(n, 0) == 1 by { assert Tail(n, -1) == 0; }
  }

  /** Seven is enough: from seven to twenty folds that all improve by more than the comparison slack, the
      three statistical gates are passed. */
  lemma StatisticalGatesAttainable(e: Evidence)
    requires 7 <= |e.differences| <= 20
    requires forall i :: 0 <= i < |e.differences| ==> 2.0 * e.differences[i] > |e.differences| as real * SLACK
    ensures PermutationP(e) < PERMUTATION_ALPHA
    ensures GateSignTest(Positives(e.differences), Negatives(e.differences)) < SIGN_TEST_ALPHA
    ensures Positives(e.differences) as real / |e.differences| as real >= MIN_FOLD_IMPROVEMENT_RATE
  {
    hide ExactPValue;
    hide GateSignTest;
    var n := |e.differences|;
    PermutationGateAttainable(e.differences);
    SlackPositive(n);
    AllPositive(e.differences);
    SignGateAttainable(n);
    SelfQuotient(n as real);
  }

  lemma SlackPositive(n: nat)
    requires n > 0
    ensures n as real * SLACK > 0.0
  {
  }

  lemma SelfQuotient(d: real)
    requires d > 0.0
    ensures d / d == 1.0
  {
  }
}
