/** The few facts about products and quotients the address proofs rest on. */
module Arith {
  lemma LessMul(a: nat, b: nat, c: nat)
    requires a <= b
    ensures a * c <= b * c
  {
  }

  lemma MulSwap(a: nat, b: nat, c: nat)
    ensures a * (b * c) == b * (a * c)
  {
  }

  lemma MulAssoc(a: nat, b: nat, c: nat)
    ensures a * (b * c) == a * b * c
  {
  }

  lemma MulDist(a: nat, b: nat, c: nat)
    ensures a * (b + c) == a * b + a * c
  {
  }

  lemma Division(n: nat, d: nat)
    requires d > 0
    ensures n / d >= 0 && 0 <= n % d < d && n == n / d * d + n % d && n / d * d >= 0
  {
    LessMul(0, n / d, d);
  }

  lemma DivideOut(x: nat, y: nat, a: nat)
    requires a > 0 && x == y * a
    ensures x / a == y
  {
    MultipleMod(y, a);
  }

  lemma DivMod(n: nat, d: nat, q: nat, r: nat)
    requires r < d && n == q * d + r
    ensures n / d == q && n % d == r
  {
    var k := n / d;
    assert n == k * d + n % d;
    if k < q { LessMul(k + 1, q, d); MulDist(d, k, 1); }
    else if q < k { LessMul(q + 1, k, d); MulDist(d, q, 1); }
  }

  lemma ModOfMultiple(a: nat, t: nat, b: nat)
    requires a > 0 && b > 0
    ensures a * b > 0 && (a * t) % (a * b) == a * (t % b)
  {
    var q, r := t / b, t % b;
    MulDist(a, b * q, r);
    MulSwap(a, q, b);
    LessMul(r + 1, b, a);
    MulDist(a, r, 1);
    DivMod(a * t, a * b, q, a * r);
  }

  lemma DivDiv(n: nat, a: nat, b: nat)
    requires a > 0 && b > 0
    ensures a * b > 0 && n / a / b == n / (a * b)
  {
    var x := n / a;
    var q, r, s := x / b, x % b, n % a;
    assert n == a * x + s;
    assert a * x == q * (a * b) + a * r by {
      assert x == q * b + r;
      MulDist(a, q * b, r);
      MulSwap(a, q, b);
    }
    assert a * r + s < a * b by {
      LessMul(r + 1, b, a);
      MulDist(a, r, 1);
    }
    DivMod(n, a * b, q, a * r + s);
  }

  lemma MultipleMod(q: nat, d: nat)
    requires d > 0
    ensures q * d / d == q && (q * d) % d == 0
  {
    DivMod(q * d, d, q, 0);
  }

  lemma QuotientBelow(n: nat, d: nat, m: nat)
    requires d > 0 && n < m * d
    ensures n / d < m && n / d * d + d <= m * d
  {
    var k := n / d;
    assert n == k * d + n % d;
    if m <= k { LessMul(m, k, d); }
    else { LessMul(k + 1, m, d); MulDist(d, k, 1); }
  }
}
