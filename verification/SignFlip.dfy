/** The exact sign-flip test of scripts/evaluate_xauusd_m1_b_level_gate.py. */
module SignFlip {
  import opened Arithmetic
  import opened SignTest

  const SLACK: real := 0.000000000000001

  function Total(values: seq<real>): real {
    if values == [] then 0.0 else Total(values[..|values| - 1]) + values[|values| - 1]
  }

  /** `(mask >> i) & 1` */
  predicate Bit(mask: nat, i: nat) {
    mask / Pow2(i) % 2 == 1
  }

  function SignedSum(values: seq<real>, mask: nat): real {
    if values == [] then 0.0
    else
      var n := |values| - 1;
      SignedSum(values[..n], mask) + if Bit(mask, n) then values[n] else -values[n]
  }

  /** Masks below `limit` whose signed sum reaches the threshold. */
  function MasksReaching(values: seq<real>, threshold: real, limit: nat): nat {
    if limit == 0 then 0
    else MasksReaching(values, threshold, limit - 1) + if SignedSum(values, limit - 1) >= threshold then 1 else 0
  }

  /** Sign choices whose sum reaches the threshold, choosing the last sign first. */
  ghost function ChoicesReaching(values: seq<real>, threshold: real): nat {
    if values == [] then (if 0.0 >= threshold then 1 else 0)
    else
      var n := |values| - 1;
      ChoicesReaching(values[..n], threshold - values[n]) + ChoicesReaching(values[..n], threshold + values[n])
  }

  /** The comparison of means, multiplied by the number of folds. */
  function Threshold(values: seq<real>): real {
    Total(values) - |values| as real * SLACK
  }

  function ExactPValue(values: seq<real>): real {
    MasksReaching(values, Threshold(values), Pow2(|values|)) as real / Pow2(|values|) as real
  }

  lemma MeanComparison(signed: real, total: real, n: nat)
    requires n > 0
    ensures signed / n as real >= total / n as real - SLACK <==> signed >= total - n as real * SLACK
  {
    var a, b, d := signed / n as real, total / n as real, n as real;
    assert a * d == signed && b * d == total;
    if a >= b - SLACK {
      MulLeq(b - SLACK, a, d);
      assert (b - SLACK) * d == total - d * SLACK;
    }
    if a < b - SLACK {
      MulLess(a, b - SLACK, d);
      assert (b - SLACK) * d == total - d * SLACK;
    }
  }

  /** The double loop over masks and folds, comparing means as the source does. */
  method PermutationPValue(values: seq<real>) returns (p: real, samples: nat)
    requires values != []
    ensures p == ExactPValue(values) && samples == Pow2(|values|)
  {
    var n := |values|;
    var observed := Total(values) / n as real;
    samples := Pow2(n);
    var extreme := 0;
    for mask := 0 to samples
      invariant extreme == MasksReaching(values, Threshold(values), mask)
    {
      var signedSum := 0.0;
      for i := 0 to n
        invariant signedSum == SignedSum(values[..i], mask)
      {
        assert values[..i + 1][..i] == values[..i];
        signedSum := signedSum + if Bit(mask, i) then values[i] else -values[i];
      }
      assert values[..n] == values;
      MeanComparison(signedSum, Total(values), n);
      if signedSum / n as real >= observed - SLACK {
        extreme := extreme + 1;
      }
    }
    p := extreme as real / samples as real;
  }

  // ---------------------------------------------------------------- masks are sign choices

  lemma Pow2Step(n: nat)
    requires n > 0
    ensures Pow2(n) == 2 * Pow2(n - 1)
  {
  }

  lemma Regroup(a: nat, b: nat)
    ensures 2 * (2 * a * b) == 2 * a * (2 * b)
  {
  }

  lemma {:induction false} Pow2Split(k: nat, i: nat)
    requires i < k
    ensures Pow2(k) == 2 * Pow2(k - 1 - i) * Pow2(i)
    decreases i
  {
    Pow2Step(k);
    if i == 0 {
      assert Pow2(0) == 1;
    } else {
      hide Pow2;
      Pow2Split(k - 1, i - 1);
      Pow2Step(i);
      Regroup(Pow2(k - 1 - i), Pow2(i - 1));
    }
  }

  lemma DivideShifted(m: nat, q: nat, d: nat)
    requires d >= 1
    ensures (m + q * d) / d == m / d + q
  {
    assert m + q * d == d * (m / d + q) + m % d;
    DivideUnique(m + q * d, m / d + q, m % d, d);
  }

  lemma DivideUnique(v: int, q: int, r: int, d: int)
    requires d >= 1 && v == d * q + r && 0 <= r < d
    ensures v / d == q
  {
    var w := v / d;
    assert d * w <= v < d * w + d;
    if w < q {
      MulLeqInt(w + 1, q, d);
    } else if w > q {
      MulLeqInt(q + 1, w, d);
    }
  }

  /** Setting bit k leaves the lower bits alone and is visible at k. */
  lemma HighBit(m: nat, k: nat)
    requires m < Pow2(k)
    ensures !Bit(m, k) && Bit(Pow2(k) + m, k)
    ensures forall i :: 0 <= i < k ==> Bit(Pow2(k) + m, i) == Bit(m, i)
  {
    DivideUnique(m, 0, m, Pow2(k));
    DivideUnique(Pow2(k) + m, 1, m, Pow2(k));
    forall i | 0 <= i < k ensures Bit(Pow2(k) + m, i) == Bit(m, i) {
      LowBit(m, k, i);
    }
  }

  lemma LowBit(m: nat, k: nat, i: nat)
    requires i < k
    ensures Bit(Pow2(k) + m, i) == Bit(m, i)
  {
    Pow2Split(k, i);
    var h := Pow2(k - 1 - i);
    DivideShifted(m, 2 * h, Pow2(i));
    assert (m / Pow2(i) + 2 * h) % 2 == m / Pow2(i) % 2;
  }

  lemma {:induction false} SignedSumLowBits(values: seq<real>, m: nat, k: nat)
    requires |values| <= k && m < Pow2(k)
    ensures SignedSum(values, Pow2(k) + m) == SignedSum(values, m)
  {
    hide Bit;
    if values != [] {
      SignedSumLowBits(values[..|values| - 1], m, k);
      HighBit(m, k);
    }
  }

  lemma SignedSumHalves(values: seq<real>, m: nat)
    requires values != [] && m < Pow2(|values| - 1)
    ensures var n := |values| - 1;
            && SignedSum(values, m) == SignedSum(values[..n], m) - values[n]
            && SignedSum(values, Pow2(n) + m) == SignedSum(values[..n], m) + values[n]
  {
    hide Bit;
    var n := |values| - 1;
    HighBit(m, n);
    SignedSumLowBits(values[..n], m, n);
  }

  lemma {:induction false} LowerHalf(values: seq<real>, threshold: real, limit: nat)
    requires values != [] && limit <= Pow2(|values| - 1)
    ensures var n := |values| - 1;
            MasksReaching(values, threshold, limit) == MasksReaching(values[..n], threshold + values[n], limit)
  {
    hide SignedSum;
    if limit > 0 {
      LowerHalf(values, threshold, limit - 1);
      SignedSumHalves(values, limit - 1);
    }
  }

  lemma {:induction false} UpperHalf(values: seq<real>, threshold: real, limit: nat)
    requires values != [] && limit <= Pow2(|values| - 1)
    ensures var n := |values| - 1;
            MasksReaching(values, threshold, Pow2(n) + limit) ==
            MasksReaching(values, threshold, Pow2(n)) + MasksReaching(values[..n], threshold - values[n], limit)
  {
    hide SignedSum;
    hide Pow2;
    if limit > 0 {
      UpperHalf(values, threshold, limit - 1);
      SignedSumHalves(values, limit - 1);
    }
  }

  /** Enumerating all masks counts every choice of signs exactly once. */
  lemma {:induction false} MasksAreChoices(values: seq<real>, threshold: real)
    ensures MasksReaching(values, threshold, Pow2(|values|)) == ChoicesReaching(values, threshold)
  {
    if values == [] {
      assert MasksReaching([], threshold, 1) == MasksReaching([], threshold, 0) + if 0.0 >= threshold then 1 else 0;
    } else {
      hide MasksReaching;
      var n := |values| - 1;
      LowerHalf(values, threshold, Pow2(n));
      UpperHalf(values, threshold, Pow2(n));
      MasksAreChoices(values[..n], threshold + values[n]);
      MasksAreChoices(values[..n], threshold - values[n]);
    }
  }

  // ---------------------------------------------------------------- how small the p-value can be

  lemma {:induction false} SomeChoiceReaches(values: seq<real>, threshold: real)
    requires threshold <= Total(values)
    ensures ChoicesReaching(values, threshold) >= 1
  {
    if values != [] {
      SomeChoiceReaches(values[..|values| - 1], threshold - values[|values| - 1]);
    }
  }

  lemma {:induction false} NoChoiceReaches(values: seq<real>, threshold: real)
    requires threshold > Total(values) && forall i :: 0 <= i < |values| ==> values[i] >= 0.0
    ensures ChoicesReaching(values, threshold) == 0
  {
    if values != [] {
      var n := |values| - 1;
      NoChoiceReaches(values[..n], threshold - values[n]);
      NoChoiceReaches(values[..n], threshold + values[n]);
    }
  }

  /** Only the observed signs reach within `slack` of the observed sum, exactly when every value is
      more than half the slack. */
  lemma {:induction false} OnlyObservedReaches(values: seq<real>, slack: real)
    requires slack >= 0.0
    ensures ChoicesReaching(values, Total(values) - slack) == 1
            <==> forall i :: 0 <= i < |values| ==> 2.0 * values[i] > slack
  {
    if values != [] {
      var n := |values| - 1;
      var init, v := values[..n], values[n];
      OnlyObservedReaches(init, slack);
      SomeChoiceReaches(init, Total(init) - slack);
      assert Total(values) - slack - v == Total(init) - slack;
      assert Total(values) - slack + v == Total(init) + (2.0 * v - slack);
      if 2.0 * v <= slack {
        SomeChoiceReaches(init, Total(init) + (2.0 * v - slack));
      } else if forall i :: 0 <= i < |init| ==> 2.0 * init[i] > slack {
        NoChoiceReaches(init, Total(init) + (2.0 * v - slack));
      }
      assert (forall i :: 0 <= i < |values| ==> 2.0 * values[i] > slack)
          <==> (2.0 * v > slack && forall i :: 0 <= i < |init| ==> 2.0 * init[i] > slack);
    }
  }

  ghost function Extreme(values: seq<real>): nat {
    MasksReaching(values, Threshold(values), Pow2(|values|))
  }

  /** The exact p-value is at least 2^-n, with equality exactly when every improvement exceeds half of
      n times the comparison slack. */
  lemma ExactPValueBound(values: seq<real>)
    ensures Extreme(values) >= 1
    ensures Extreme(values) == 1 <==> forall i :: 0 <= i < |values| ==> 2.0 * values[i] > |values| as real * SLACK
  {
    hide MasksReaching;
    MasksAreChoices(values, Threshold(values));
    assert |values| as real * SLACK >= 0.0;
    SomeChoiceReaches(values, Threshold(values));
    OnlyObservedReaches(values, |values| as real * SLACK);
  }
}
