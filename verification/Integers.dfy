/** Integer multiplication, division and extremes. */
module Integers {

  lemma MulGap(p: int, q: int, b: nat)
    requires p < q
    ensures p * b + b <= q * b
  {
    MulAtLeast(q - p, b);
    assert (q - p) * b == q * b - p * b;
  }

  lemma MulAtLeast(q: nat, b: nat)
    requires q > 0
    ensures q * b >= b
  {
    assert q * b == (q - 1) * b + b;
  }

  lemma MulLe(p: int, q: int, b: nat)
    requires p <= q
    ensures p * b <= q * b
  {
    if p < q {
      MulGap(p, q, b);
    }
  }

  lemma Quotient(x: int, k: nat)
    requires k >= 1
    ensures x / k * k <= x < x / k * k + k
  {
    assert x == x / k * k + x % k;
  }

  lemma QuotientUnique(x: int, k: nat, q: int)
    requires k >= 1 && q * k <= x < q * k + k
    ensures x / k == q
  {
    var p := x / k;
    Quotient(x, k);
    if p < q {
      MulGap(p, q, k);
      assert false;
    }
    if q < p {
      MulGap(q, p, k);
      assert false;
    }
  }

  lemma QuotientMonotone(x: int, y: int, k: nat)
    requires k >= 1 && x <= y
    ensures x / k <= y / k
  {
    Quotient(x, k);
    Quotient(y, k);
    if y / k < x / k {
      MulGap(y / k, x / k, k);
      assert false;
    }
  }

  lemma QuotientGap(x: int, y: int, k: nat)
    requires k >= 1 && x + k <= y
    ensures x / k < y / k
  {
    Quotient(x, k);
    var q := x / k;
    assert (q + 1) * k == q * k + k;
    QuotientUnique(x + k, k, q + 1);
    QuotientMonotone(x + k, y, k);
  }

  // ---------- Extremes ----------

  function MinOf(s: seq<int>): (m: int)
    requires s != []
    ensures m in s && forall x :: x in s ==> m <= x
  {
    if |s| == 1 then s[0]
    else
      assert s == [s[0]] + s[1..];
      var m := MinOf(s[1..]);
      if s[0] < m then s[0] else m
  }

  function MaxOf(s: seq<int>): (m: int)
    requires s != []
    ensures m in s && forall x :: x in s ==> x <= m
  {
    if |s| == 1 then s[0]
    else
      assert s == [s[0]] + s[1..];
      var m := MaxOf(s[1..]);
      if m < s[0] then s[0] else m
  }
}
