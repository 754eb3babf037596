/** The binomial sign test, which the repository implements three times. */
module SignTest {
  import opened Arithmetic

  function Pow2(n: nat): (p: nat)
    ensures p >= 1
  {
    if n == 0 then 1 else 2 * Pow2(n - 1)
  }

  function Comb(n: nat, k: nat): nat {
    if k == 0 then 1 else if n == 0 then 0 else Comb(n - 1, k - 1) + Comb(n - 1, k)
  }

  /** comb(n, 0) + ... + comb(n, k), which is empty for negative k. */
  function Tail(n: nat, k: int): nat
    decreases if k < 0 then 0 else k + 1
  {
    if k < 0 then 0 else Tail(n, k - 1) + Comb(n, k)
  }

  function MinInt(a: int, b: int): int { if a <= b then a else b }

  function Clamped(v: real): real { if v < 1.0 then v else 1.0 }

  // ---------------------------------------------------------------- the three implementations

  /** `_two_sided_sign_test` of the gate: doubles the smaller tail. */
  function GateSignTest(positive: nat, negative: nat): real {
    var n := positive + negative;
    if n == 0 then 1.0
    else Clamped(2.0 * (Tail(n, MinInt(positive, negative)) as real / Pow2(n) as real))
  }

  /** `_sign_test_p` of the confirmation script: the smaller of two tails. */
  function ConfirmSignTest(positive: nat, negative: nat): real {
    var n := positive + negative;
    if n == 0 then 1.0
    else Clamped(2.0 * MinInt(Tail(n, positive), Tail(n, negative)) as real / Pow2(n) as real)
  }

  datatype Quotient = NaN | Number(value: real)

  /** `_sign_test_p` of the discovery script: not a number without signs. */
  function DiscoverSignTest(positive: nat, negative: nat): Quotient {
    var n := positive + negative;
    if n == 0 then NaN
    else Number(Clamped(2.0 * Tail(n, MinInt(positive, negative)) as real / Pow2(n) as real))
  }

  // ---------------------------------------------------------------- tails

  lemma {:induction false} CombPositive(n: nat, k: nat)
    requires k <= n
    ensures Comb(n, k) > 0
  {
    if 0 < k {
      CombPositive(n - 1, k - 1);
    }
  }

  lemma {:induction false} TailMonotone(n: nat, j: int, k: int)
    requires j <= k
    ensures Tail(n, j) <= Tail(n, k)
    ensures j < k && 0 <= k <= n ==> Tail(n, j) < Tail(n, k)
    decreases k - j
  {
    if j < k {
      TailMonotone(n, j, k - 1);
      if 0 <= k <= n {
        CombPositive(n, k);
      }
    }
  }

  lemma {:induction false} TailPascal(n: nat, k: int)
    ensures Tail(n + 1, k) == Tail(n, k) + Tail(n, k - 1)
    decreases if k < 0 then 0 else k + 1
  {
    if k >= 0 {
      TailPascal(n, k - 1);
    }
  }

  lemma {:induction false} TailOfNothing(k: int)
    ensures Tail(0, k) == if k < 0 then 0 else 1
    decreases if k < 0 then 0 else k + 1
  {
    if k >= 0 {
      TailOfNothing(k - 1);
    }
  }

  /** The two tails cut at any point add up to all sign patterns. */
  lemma {:induction false} TailsComplement(n: nat, k: int)
    ensures Tail(n, k) + Tail(n, n - 1 - k) == Pow2(n)
    decreases n
  {
    hide Tail;
    if n == 0 {
      TailOfNothing(k);
      TailOfNothing(-1 - k);
    } else {
      TailPascal(n - 1, k);
      TailPascal(n - 1, n - 1 - k);
      TailsComplement(n - 1, k);
      TailsComplement(n - 1, k - 1);
    }
  }

  // ---------------------------------------------------------------- theorems

  lemma DoubleQuotient(t: real, d: real)
    requires d > 0.0
    ensures 2.0 * (t / d) == 2.0 * t / d
  {
  }

  /** The three implementations return the same value for every non-empty count of signs. */
  lemma SignTestsAgree(positive: nat, negative: nat)
    requires positive + negative > 0
    ensures GateSignTest(positive, negative) == ConfirmSignTest(positive, negative)
    ensures DiscoverSignTest(positive, negative) == Number(GateSignTest(positive, negative))
  {
    hide Tail;
    var n := positive + negative;
    if positive <= negative {
      TailMonotone(n, positive, negative);
    } else {
      TailMonotone(n, negative, positive);
    }
    DoubleQuotient(Tail(n, MinInt(positive, negative)) as real, Pow2(n) as real);
  }

  /** They disagree exactly when there is no sign at all. */
  lemma NoSigns()
    ensures GateSignTest(0, 0) == ConfirmSignTest(0, 0) == 1.0 && DiscoverSignTest(0, 0) == NaN
  {
  }

  /** Twice the smaller tail against all patterns, in integers. */
  lemma DoubledTail(positive: nat, negative: nat)
    requires positive + negative > 0
    ensures var n := positive + negative;
            var t := 2 * Tail(n, MinInt(positive, negative));
            && (t > Pow2(n) <==> positive == negative)
            && (t == Pow2(n) <==> positive - negative == 1 || negative - positive == 1)
  {
    hide Tail;
    hide Pow2;
    var n := positive + negative;
    var k := MinInt(positive, negative);
    TailsComplement(n, k);
    if positive == negative {
      TailMonotone(n, n - 1 - k, k);
    } else {
      TailMonotone(n, k, n - 1 - k);
    }
  }

  lemma QuotientVersusOne(t: real, d: real)
    requires d > 0.0
    ensures (t / d > 1.0 <==> t > d) && (t / d == 1.0 <==> t == d)
  {
    var q := t / d;
    assert q * d == t;
    if q > 1.0 {
      MulLess(1.0, q, d);
    } else if q < 1.0 {
      MulLess(q, 1.0, d);
    }
  }

  /** The clamp to 1 cuts something off exactly for a tie; the p-value is 1 exactly when the counts
      differ by at most one. */
  lemma ClampActiveIffTied(positive: nat, negative: nat)
    requires positive + negative > 0
    ensures var n := positive + negative;
            && Pow2(n) > 0
            && (2.0 * Tail(n, MinInt(positive, negative)) as real / Pow2(n) as real > 1.0 <==> positive == negative)
            && (GateSignTest(positive, negative) == 1.0 <==> -1 <= positive - negative <= 1)
  {
    hide Tail;
    hide Pow2;
    var n := positive + negative;
    var t := Tail(n, MinInt(positive, negative));
    DoubledTail(positive, negative);
    DoubleQuotient(t as real, Pow2(n) as real);
    QuotientVersusOne(2.0 * t as real, Pow2(n) as real);
    assert 2.0 * t as real == (2 * t) as real;
  }
}
