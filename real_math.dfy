/**
 * Exact real arithmetic used by the poster layout: minimum and maximum,
 * `Math.ceil`, what is assumed of `Math.sqrt` and `Math.log2`, and the
 * facts about products and quotients the layout proofs rely on.
 */
module RealMath {
  function Min(a: int, b: int): int { if a <= b then a else b }
  function Max(a: int, b: int): int { if a >= b then a else b }
  function MinR(a: real, b: real): real { if a <= b then a else b }
  function MaxR(a: real, b: real): real { if a >= b then a else b }

  /** `Math.ceil`. */
  function Ceil(x: real): (r: int)
    ensures x <= r as real < x + 1.0
  {
    -((-x).Floor)
  }

  /** `Math.sqrt` on the non-negative reals. */
  ghost predicate IsSqrt(sqrt: real -> real) {
    forall x :: 0.0 <= x ==> 0.0 <= sqrt(x) && sqrt(x) * sqrt(x) == x
  }

  /** What is used of `Math.log2`: it is non-negative from 1 on. */
  ghost predicate IsLog2(log2: real -> real) {
    forall x :: 1.0 <= x ==> 0.0 <= log2(x)
  }

  lemma SqrtMonotone(sqrt: real -> real, a: real, b: real)
    requires IsSqrt(sqrt)
    requires 0.0 <= a <= b
    ensures sqrt(a) <= sqrt(b)
  {
    var sa, sb := sqrt(a), sqrt(b);
    if sb < sa {
      SquareStrict(sb, sa);
      assert false;
    }
  }

  lemma SquareStrict(x: real, y: real)
    requires 0.0 <= x < y
    ensures x * x < y * y
  {
    var d, t := y - x, y + x;
    assert d * t > 0.0;
    assert y * y - x * x == d * t;
  }

  lemma MulLe(a: real, b: real, c: real)
    requires a <= b && 0.0 <= c
    ensures a * c <= b * c
  {
    assert b * c - a * c == (b - a) * c;
  }

  lemma SquareAtMost(x: real, y: real)
    requires 0.0 <= x <= y
    ensures x * x <= y * y
  {
    MulLe(x, y, x);
    MulLe(x, y, y);
  }

  lemma DivAntitone(k: real, x: real, y: real)
    requires k >= 0.0 && 0.0 < x <= y
    ensures k / y <= k / x
  {
    assert (k / y) * y == k == (k / x) * x;
    assert (k / y) * x <= (k / y) * y;
  }

  lemma DivMul(a: real, c: real)
    requires c > 0.0
    ensures (a / c) * c == a
  {
  }

  lemma EmptyRatioZero(width: real, height: real, ew: real, eh: real)
    requires width > 0.0 && height > 0.0
    requires (ew == 0.0 && eh >= 0.0) || (eh == 0.0 && ew >= 0.0)
    ensures MinR(ew / width, eh / height) == 0.0
  {
  }
}
