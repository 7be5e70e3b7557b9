/** Multiplication and division facts, each small enough to be proved on its own. */
module Arith {

  lemma MulLe(a: int, b: int, c: nat)
    requires a <= b
    ensures a * c <= b * c
  {
  }

  lemma LtOfMul(a: int, b: int, c: nat)
    requires a * c < b * c
    ensures a < b
  {
    if b <= a {
      MulLe(b, a, c);
    }
  }

  lemma DivBounds(x: int, c: nat)
    requires c > 0
    ensures (x / c) * c <= x < (x / c + 1) * c
  {
    assert x == (x / c) * c + x % c;
    assert (x / c + 1) * c == (x / c) * c + c;
  }

  lemma DivUnique(x: int, c: nat, q: int)
    requires c > 0 && q * c <= x < (q + 1) * c
    ensures x / c == q
  {
    DivBounds(x, c);
    LtOfMul(x / c, q + 1, c);
    LtOfMul(q, x / c + 1, c);
  }

  /** Taking away d whole multiples takes d off the quotient. */
  lemma DivLess(x: int, c: nat, d: int)
    requires c > 0
    ensures (x - d * c) / c == x / c - d
  {
    DivBounds(x, c);
    var q := x / c;
    assert (q - d) * c == q * c - d * c && (q - d + 1) * c == (q + 1) * c - d * c;
    DivUnique(x - d * c, c, q - d);
  }

  lemma DivMonotone(a: int, b: int, c: nat)
    requires c > 0 && a <= b
    ensures a / c <= b / c
  {
    DivBounds(a, c);
    DivBounds(b, c);
    LtOfMul(a / c, b / c + 1, c);
  }

  lemma WholeBelow(x: nat, c: nat)
    requires c > 0
    ensures 0 <= (x / c) * c <= x
  {
    var q := x / c;
    DivBounds(x, c);
    assert q >= 0 by {
      DivMonotone(0, x, c);
    }
    MulLe(0, q, c);
  }

  lemma MulDiv(q: int, c: nat)
    requires c > 0
    ensures (q * c) / c == q
  {
    assert (q + 1) * c == q * c + c;
    DivUnique(q * c, c, q);
  }

  /** Element c of whole group i lies inside x elements. */
  lemma InGroup(x: nat, n: nat, i: nat, c: nat)
    requires c < n && i < x / n
    ensures i * n + c < x
  {
    DivBounds(x, n);
    MulLe(i + 1, x / n, n);
    assert (i + 1) * n == i * n + n;
  }

  function CeilDiv(a: nat, b: nat): nat
    requires b > 0
  {
    (a + b - 1) / b
  }

  lemma CeilDivLess(a: nat, b: nat, k: nat)
    requires b > 0
    ensures k < CeilDiv(a, b) <==> k * b < a
  {
    var q := CeilDiv(a, b);
    DivBounds(a + b - 1, b);
    assert (q + 1) * b == q * b + b && (k + 1) * b == k * b + b;
    if k < q {
      MulLe(k + 1, q, b);
    } else {
      MulLe(q, k, b);
    }
  }

  lemma MulReal(a: int, b: int)
    ensures (a * b) as real == a as real * b as real
  {
  }

  lemma RealMulPos(x: real, d: real)
    requires d > 0.0
    ensures x > 0.0 <==> x * d > 0.0
  {
  }

  lemma RealLeOfMul(x: real, y: real, d: real)
    requires d > 0.0 && x * d <= y * d
    ensures x <= y
  {
    RealMulPos(x - y, d);
    assert (x - y) * d == x * d - y * d;
  }

  lemma RealMulLe(x: real, y: real, d: real)
    requires d > 0.0 && x <= y
    ensures x * d <= y * d
  {
    if x < y {
      RealMulPos(y - x, d);
      assert (y - x) * d == y * d - x * d;
    }
  }

  /** s/d * m compared with c, without the division. */
  lemma RatioTimes(s: real, d: real, m: real, c: real)
    requires d > 0.0
    ensures s / d * m <= c <==> s * m <= c * d
  {
    var r := s / d;
    assert r * d == s;
    assert r * m * d == s * m;
    if r * m <= c {
      RealMulLe(r * m, c, d);
    }
    if s * m <= c * d {
      RealLeOfMul(r * m, c, d);
    }
  }

  lemma RatioLess(a: int, d: nat, m: int)
    requires d > 0
    ensures a as real / d as real < m as real <==> a < m * d
  {
    var x, y := a as real / d as real, d as real;
    assert x * y == a as real;
    MulReal(m, d);
    RealMulPos(m as real - x, y);
    assert (m as real - x) * y == m as real * y - x * y;
  }
}
