/** The B-level decision, written out in its thresholds. */
module GateRules {
  import opened Arithmetic
  import opened Common
  import opened SignTest
  import opened SignFlip
  import opened Gate

  /** The folds whose improvement is positive. */
  ghost function Improved(values: seq<real>): (s: set<nat>)
    ensures forall i: nat :: i in s <==> i < |values| && values[i] > 0.0
  {
    set i: nat | i < |values| && values[i] > 0.0
  }

  ghost function Worsened(values: seq<real>): (s: set<nat>)
    ensures forall i: nat :: i in s <==> i < |values| && values[i] < 0.0
  {
    set i: nat | i < |values| && values[i] < 0.0
  }

  lemma OneMoreFold(values: seq<real>)
    requires values != []
    ensures var n := |values| - 1;
            && |Improved(values)| == |Improved(values[..n])| + (if values[n] > 0.0 then 1 else 0)
            && |Worsened(values)| == |Worsened(values[..n])| + (if values[n] < 0.0 then 1 else 0)
  {
    var n := |values| - 1;
    SizeGrows(Improved(values[..n]), Improved(values), n, values[n] > 0.0);
    SizeGrows(Worsened(values[..n]), Worsened(values), n, values[n] < 0.0);
  }

  lemma {:induction false} PositivesCount(values: seq<real>)
    ensures Positives(values) == |Improved(values)| && Negatives(values) == |Worsened(values)|
  {
    if values == [] {
      assert Improved([]) == {} && Worsened([]) == {};
    } else {
      hide Improved;
      hide Worsened;
      PositivesCount(values[..|values| - 1]);
      OneMoreFold(values);
    }
  }

  lemma BelowIff(count: nat, total: nat, hundredths: nat)
    requires total > 0
    ensures count as real / total as real < hundredths as real / 100.0 <==> 100 * count < hundredths * total
  {
    var q, alpha := count as real / total as real, hundredths as real / 100.0;
    assert q * total as real == count as real;
    assert alpha * total as real == (hundredths * total) as real / 100.0;
    if q < alpha {
      MulLess(q, alpha, total as real);
    } else {
      MulLeq(alpha, q, total as real);
    }
  }

  /** What the permutation test asks for. Up to twenty folds: fewer than one in a hundred of the sign choices have a
      sum that comes within 10^-15 per fold of the observed one. With more folds: the sampled count. */
  ghost predicate PermutationSmall(e: Evidence) {
    var d := e.differences;
    if |d| <= 20
    then 100 * ChoicesReaching(d, Total(d) - |d| as real * 0.000000000000001) < Pow2(|d|)
    else 100 * (e.hits + 1) < 100001
  }

  /** What the sign test asks for: twice the smaller binomial tail below one in twenty. */
  ghost predicate SignsSmall(up: nat, down: nat) {
    up + down > 0 && 40 * Tail(up + down, if up < down then up else down) < Pow2(up + down)
  }

  lemma SignsMean(up: nat, down: nat)
    ensures GateSignTest(up, down) < 0.05 <==> SignsSmall(up, down)
  {
    hide Tail;
    hide Pow2;
    var n, k := up + down, MinInt(up, down);
    if n > 0 {
      var t, d := Tail(n, k), Pow2(n);
      DoubleQuotient(t as real, d as real);
      BelowIff(2 * t, d, 5);
    }
  }

  lemma PermutationMeans(e: Evidence)
    ensures PermutationP(e) < 0.01 <==> PermutationSmall(e)
  {
    hide MasksReaching;
    hide Pow2;
    hide Threshold;
    if |e.differences| <= 20 {
      MasksAreChoices(e.differences, Threshold(e.differences));
      ThresholdIs(e.differences);
      BelowIff(MasksReaching(e.differences, Threshold(e.differences), Pow2(|e.differences|)), Pow2(|e.differences|), 1);
    } else {
      BelowIff(e.hits + 1, 100001, 1);
    }
  }

  lemma ThresholdIs(values: seq<real>)
    ensures Threshold(values) == Total(values) - |values| as real * 0.000000000000001
  {
  }

  /** The decision passes if and only if both audits pass, there are at least 10000 out-of-sample events, the aggregate
      and the lower end of the interval improve, the permutation p-value is below 1 in 100 and the sign test below 5 in
      100, at least 7 folds in 10 improve, and both controls hold. */
  lemma PassIff(e: Evidence)
    requires e.differences != []
    ensures BLevelPass(e) <==>
              && e.walkforwardAudit && e.sourceAudit && e.oosEvents >= 10000
              && e.aggregateImprovement > 0.0 && e.ciLow > 0.0
              && PermutationSmall(e)
              && SignsSmall(|Improved(e.differences)|, |Worsened(e.differences)|)
              && 10 * |Improved(e.differences)| >= 7 * |e.differences|
              && e.labelShuffle && e.leakageRejected
  {
    PositivesCount(e.differences);
    PermutationMeans(e);
    SignsMean(Positives(e.differences), Negatives(e.differences));
    BelowIff(Positives(e.differences), |e.differences|, 70);
    hide SignsSmall;
    hide PermutationSmall;
    hide PermutationP;
    hide GateSignTest;
    hide Positives;
    hide Negatives;
  }
}
