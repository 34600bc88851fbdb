/** Integer helpers shared by the dashboard pages: `Math.min`, `Math.max`, `Math.round`. */
module Numbers {

  function Min(a: int, b: int): (r: int)
    ensures r <= a && r <= b && (r == a || r == b)
  {
    if a <= b then a else b
  }

  function Max(a: int, b: int): (r: int)
    ensures r >= a && r >= b && (r == a || r == b)
  {
    if a >= b then a else b
  }

  /** `Math.round(a / b)` for b > 0: the integer nearest to a/b, halves rounded up. */
  function RoundDiv(a: int, b: int): (r: int)
    requires b > 0
    ensures 2 * b * r - b <= 2 * a < 2 * b * r + b
  {
    (2 * a + b) / (2 * b)
  }

  /** A rounded quotient stays within any integer bounds that the exact quotient respects. */
  lemma RoundDivWithin(a: int, b: int, lo: int, hi: int)
    requires b > 0
    requires lo * b <= a <= hi * b
    ensures lo <= RoundDiv(a, b) <= hi
  {
    var r := RoundDiv(a, b);
    if r < lo {
      MulMonotone(b, r + 1, lo);
      assert false;
    }
    if r > hi {
      MulMonotone(b, hi, r - 1);
      assert false;
    }
  }

  lemma MulMonotone(b: int, x: int, y: int)
    requires b > 0 && x <= y
    ensures b * x <= b * y && x * b == b * x && y * b == b * y
  {
    assert b * y - b * x == b * (y - x);
  }

  /** One more summand of `a`. */
  lemma MulSucc(a: int, n: nat)
    ensures a * (n + 1) == a * n + a
  {
  }
}
