/** Facts of real arithmetic that involve a product of two variables. */
module Reals {

  /** The product as a function, so that a proof about sums can hide its definition. */
  function Mul(a: real, b: real): real {
    a * b
  }

  lemma MulDistributes(a: real, b: real, c: real)
    ensures Mul(a + b, c) == Mul(a, c) + Mul(b, c)
    ensures Mul(0.0, c) == 0.0
  {
  }

  lemma Distribute(a: real, b: real, c: real)
    ensures (a + b) * c == a * c + b * c
    ensures (a - b) * c == a * c - b * c
    ensures c * (a + b) == c * a + c * b
    ensures c * (a - b) == c * a - c * b
  {
  }

  lemma ScaleLe(s: real, a: real, b: real)
    requires s >= 0.0 && a <= b
    ensures s * a <= s * b
    ensures a * s <= b * s
  {
  }

  lemma ScaleLt(s: real, a: real, b: real)
    requires s > 0.0 && a < b
    ensures s * a < s * b
    ensures a * s < b * s
  {
  }

  lemma ProductNonNegative(a: real, b: real)
    requires a >= 0.0 && b >= 0.0
    ensures a * b >= 0.0
  {
  }

  lemma PositiveFactor(c: real, d: real)
    requires c > 0.0 && c * d >= 0.0
    ensures d >= 0.0
  {
  }

  lemma CancelLe(c: real, a: real, b: real)
    requires c > 0.0 && c * a <= c * b
    ensures a <= b
  {
    PositiveFactor(c, b - a);
  }

  lemma CancelEq(c: real, a: real, b: real)
    requires c != 0.0 && c * a == c * b
    ensures a == b
  {
    assert a == (c * a) / c;
  }

  lemma Square(d: real)
    ensures d * d >= 0.0
    ensures d != 0.0 ==> d * d > 0.0
  {
    if d < 0.0 {
      assert d * d == (-d) * (-d);
      assert (-d) * (-d) > 0.0;
    }
  }

  lemma ZeroProduct(a: real, b: real, q: real)
    requires q == a * b && q == 0.0 && a != 0.0
    ensures b == 0.0
  {
    assert b == q / a;
  }

  lemma ZeroSquare(d: real, q: real)
    requires q == d * d && q == 0.0
    ensures d == 0.0
  {
    if d != 0.0 {
      ZeroProduct(d, d, q);
    }
  }

  lemma SquareOfSum(a: real, b: real)
    ensures (a + b) * (a + b) == a * a + 2.0 * (a * b) + b * b
  {
  }

  lemma DivTimes(a: real, b: real)
    requires b != 0.0
    ensures a / b * b == a
    ensures b * (a / b) == a
  {
  }

  lemma DivLe(a: real, b: real, c: real)
    requires c > 0.0 && a <= b
    ensures a / c <= b / c
  {
    DivTimes(a, c);
    DivTimes(b, c);
    CancelLe(c, a / c, b / c);
  }

  lemma DivPositive(a: real, c: real)
    requires c > 0.0 && a > 0.0
    ensures a / c > 0.0
  {
  }

  lemma DivAdd(a: real, b: real, c: real)
    requires c != 0.0
    ensures (a + b) / c == a / c + b / c
  {
  }

  lemma DivOne(c: real)
    requires c != 0.0
    ensures c / c == 1.0
  {
  }

  lemma MeanAtLeast(wa: real, wb: real, lo: real, m: real, s: real)
    requires wa + wb > 0.0 && (wa + wb) * m == s && lo * wa + lo * wb <= s
    ensures lo <= m
  {
    assert (wa + wb) * lo == lo * wa + lo * wb;
    CancelLe(wa + wb, lo, m);
  }

  lemma MeanAtMost(wa: real, wb: real, hi: real, m: real, s: real)
    requires wa + wb > 0.0 && (wa + wb) * m == s && s <= hi * wa + hi * wb
    ensures m <= hi
  {
    assert (wa + wb) * hi == hi * wa + hi * wb;
    CancelLe(wa + wb, m, hi);
  }

  /** A weighted mean lies between its terms. */
  lemma WeightedBetween(a: real, wa: real, b: real, wb: real, m: real, lo: real, hi: real)
    requires wa > 0.0 && wb > 0.0 && (wa + wb) * m == a * wa + b * wb
    requires lo <= a <= hi && lo <= b <= hi
    ensures lo <= m <= hi
  {
    ScaleLe(wa, lo, a);
    ScaleLe(wa, a, hi);
    ScaleLe(wb, lo, b);
    ScaleLe(wb, b, hi);
    var s := a * wa + b * wb;
    assert lo * wa + lo * wb <= s <= hi * wa + hi * wb;
    MeanAtLeast(wa, wb, lo, m, s);
    MeanAtMost(wa, wb, hi, m, s);
  }

  /** n copies of c added up; the same as c * n, kept out of the reach of multiplication. */
  function Times(c: real, n: nat): real {
    if n == 0 then 0.0 else Times(c, n - 1) + c
  }

  lemma {:induction false} TimesIsProduct(c: real, n: nat)
    ensures Times(c, n) == c * n as real
  {
    if n > 0 {
      TimesIsProduct(c, n - 1);
      Distribute((n - 1) as real, 1.0, c);
    }
  }

  lemma {:induction false} TimesAdd(c: real, m: nat, n: nat)
    ensures Times(c, m + n) == Times(c, m) + Times(c, n)
  {
    if n > 0 {
      TimesAdd(c, m, n - 1);
    }
  }

  lemma {:induction false} TimesLe(c: real, d: real, n: nat)
    requires c <= d
    ensures Times(c, n) <= Times(d, n)
  {
    if n > 0 {
      TimesLe(c, d, n - 1);
    }
  }

  lemma {:induction false} TimesLt(c: real, d: real, n: nat)
    requires c < d && n > 0
    ensures Times(c, n) < Times(d, n)
  {
    if n > 1 {
      TimesLt(c, d, n - 1);
    }
  }

  lemma TimesCancel(c: real, d: real, n: nat)
    requires n > 0
    ensures Times(c, n) <= Times(d, n) <==> c <= d
  {
    if d < c {
      TimesLt(d, c, n);
    } else {
      TimesLe(c, d, n);
    }
  }

  lemma TimesOfQuotient(s: real, n: nat)
    requires n > 0
    ensures Times(s / n as real, n) == s
  {
    TimesIsProduct(s / n as real, n);
    DivTimes(s, n as real);
  }
}
