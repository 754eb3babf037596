/** Facts about products and quotients, each named so that a proof can ask for exactly one of them.
    Where a product is a parameter, it is the caller's own term for it. */
module Arithmetic {

  lemma MulNonNegative(a: real, b: real, product: real)
    requires a >= 0.0 && b >= 0.0 && product == a * b
    ensures product >= 0.0
  {
  }

  lemma ProductPositive(a: real, b: real, product: real)
    requires a > 0.0 && b > 0.0 && product == a * b
    ensures product > 0.0
  {
  }

  lemma MulLeq(a: real, b: real, n: real)
    requires a <= b && 0.0 <= n
    ensures a * n <= b * n && n * a <= n * b
  {
  }

  lemma MulLess(a: real, b: real, n: real)
    requires a < b && 0.0 < n
    ensures a * n < b * n
  {
  }

  lemma MulLeqInt(a: int, b: int, n: int)
    requires a <= b && n >= 0
    ensures a * n <= b * n && n * a <= n * b
  {
  }

  lemma CancelLeq(a: real, b: real, n: real)
    requires n > 0.0 && a * n <= b * n
    ensures a <= b
  {
    if b < a {
      MulLess(b, a, n);
      assert false;
    }
  }

  lemma CancelLess(a: real, b: real, n: real)
    requires n > 0.0 && a * n < b * n
    ensures a < b
  {
    if b <= a {
      MulLeq(b, a, n);
      assert false;
    }
  }

  lemma SplitProduct(a: real, b: real, n: real)
    ensures (a + b) * n == a * n + b * n
  {
  }

  lemma Distribute(n: real, a: real, b: real)
    ensures n * (a + b) == n * a + n * b
  {
  }

  lemma DivTimes(a: real, b: real)
    requires b > 0.0
    ensures a / b * b == a
    ensures a > 0.0 ==> a / b > 0.0
  {
  }

  lemma DivideLeq(a: real, b: real, n: real)
    requires a <= b && n > 0.0
    ensures a / n <= b / n
  {
  }

  /** A part of a positive whole, as a fraction. */
  lemma UnitQuotient(part: real, whole: real)
    requires 0.0 <= part <= whole && whole > 0.0
    ensures 0.0 <= part / whole <= 1.0
  {
    DivideLeq(0.0, part, whole);
    DivideLeq(part, whole, whole);
  }
}
