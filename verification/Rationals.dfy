/** Fractions in lowest terms, as FaucetOutflowModule keeps its balance: a positive
    denominator and coprime parts. Coprimality is carried by Bezout coefficients. */
module Rationals {

  predicate Bezout(n: int, d: int, x: int, y: int) { n * x + d * y == 1 }

  ghost predicate Coprime(n: int, d: int) { exists x, y :: Bezout(n, d, x, y) }

  ghost predicate Lowest(n: int, d: int) { d > 0 && Coprime(n, d) }

  function Gcd(a: nat, b: nat): nat
    decreases b
  {
    if b == 0 then a else Gcd(b, a % b)
  }

  predicate Combines(a: int, b: int, g: int, x: int, y: int) { a * x + b * y == g }

  lemma {:induction false} GcdCombines(a: nat, b: nat) returns (x: int, y: int)
    ensures Combines(a, b, Gcd(a, b), x, y)
    decreases b
  {
    if b == 0 {
      x, y := 1, 0;
    } else {
      var u, v := GcdCombines(b, a % b);
      // b*u + (a - b*(a/b))*v == a*v + b*(u - (a/b)*v)
      x, y := v, u - (a / b) * v;
      var q := a / b;
      assert a == b * q + a % b;
      calc {
        a * x + b * y;
        a * v + b * (u - q * v);
        { assert b * (u - q * v) == b * u - b * (q * v); assert b * (q * v) == (b * q) * v; }
        a * v + b * u - (b * q) * v;
        { assert a * v - (b * q) * v == (a - b * q) * v; }
        b * u + (a - b * q) * v;
      }
    }
  }

  predicate Divides(g: int, a: int) { g != 0 && a % g == 0 }

  lemma {:induction false} GcdDivides(a: nat, b: nat)
    requires a > 0 || b > 0
    ensures Gcd(a, b) > 0 && Divides(Gcd(a, b), a) && Divides(Gcd(a, b), b)
    decreases b
  {
    if b != 0 {
      GcdDivides(b, a % b);
      var g := Gcd(b, a % b);
      MultipleMod(a % b, g);
      MultipleMod(b, g);
      CombinationMultiple(a, b, a / b, a % b, g, b / g, (a % b) / g);
      ModOfMultiple((b / g) * (a / b) + (a % b) / g, g);
    }
  }

  /** A combination of multiples of g is a multiple of g. */
  lemma CombinationMultiple(a: int, b: int, q: int, r: int, g: int, m: int, k: int)
    requires a == b * q + r && b == m * g && r == k * g
    ensures a == (m * q + k) * g
  {
    assert (m * g) * q == (m * q) * g;
  }

  lemma MultipleMod(a: int, g: int)
    requires g > 0 && a % g == 0
    ensures a == (a / g) * g
  {}

  /** A positive factor keeps the sign and does not shrink. */
  lemma MulOrder(g: int, k: int)
    requires g > 0
    ensures k >= 1 ==> g * k >= g
    ensures k >= 2 ==> g * k >= g + g
    ensures k <= 0 ==> g * k <= 0
    ensures k <= -1 ==> g * k <= -g
    ensures k == 1 ==> g * k == g
    ensures k == 0 ==> g * k == 0
  {
    if k >= 2 { MulMono(g, 2, k); }
    else if k <= -1 { MulMono(g, k, -1); }
  }

  lemma MulMono(g: int, a: int, b: int)
    requires g >= 0 && a <= b
    ensures g * a <= g * b
  {
    assert g * b == g * a + g * (b - a);
  }

  lemma ModOfMultiple(k: int, g: int)
    requires g > 0
    ensures (k * g) % g == 0 && (k * g) / g == k
  {
    var a := k * g;
    var q, r := a / g, a % g;
    assert a == g * q + r && 0 <= r < g;
    assert r == g * (k - q) by { assert g * (k - q) == g * k - g * q; }
    MulOrder(g, k - q);
    assert k == q;
  }

  function Abs(n: int): nat { if n < 0 then -n else n }

  /** n is g times a whole number when g divides its absolute value. */
  lemma ExactQuotient(n: int, g: int)
    requires g > 0 && Abs(n) % g == 0
    ensures n == (n / g) * g
  {
    MultipleMod(Abs(n), g);
    if n < 0 {
      assert n == (-(Abs(n) / g)) * g;
      ModOfMultiple(-(Abs(n) / g), g);
    }
  }

  lemma QuotientsCoprime(p: int, q: int, g: int, x: int, y: int)
    requires g > 0 && (p * g) * x + (q * g) * y == g
    ensures Bezout(p, q, x, y)
  {
    assert (p * g) * x == g * (p * x);
    assert (q * g) * y == g * (q * y);
    assert g * (p * x) + g * (q * y) == g * (p * x + q * y);
    CancelOne(g, p * x + q * y);
  }

  /** Dividing both parts by their greatest common divisor gives lowest terms of the same value. */
  lemma ReduceLowest(n: int, d: int, g: nat)
    requires d > 0 && n != 0 && g == Gcd(Abs(n), d)
    ensures g > 0 && Lowest(n / g, d / g) && (n / g) * d == n * (d / g)
  {
    GcdDivides(Abs(n), d);
    ExactQuotient(n, g);
    MultipleMod(d, g);
    var x, y := GcdCombines(Abs(n), d);
    ReducedParts(n, d, g, n / g, d / g, if n < 0 then -x else x, y);
  }

  lemma ReducedParts(n: int, d: int, g: int, p: int, q: int, x: int, y: int)
    requires g > 0 && d > 0 && n == p * g && d == q * g && n * x + d * y == g
    ensures Lowest(p, q) && p * d == n * q
  {
    QuotientsCoprime(p, q, g, x, y);
    assert g * q == d;
    MulOrder(g, q);
    assert p * (q * g) == (p * g) * q;
  }

  lemma CancelOne(g: int, k: int)
    requires g > 0 && g == g * k
    ensures k == 1
  {
    MulOrder(g, k);
  }

  /** Lowest terms are unique: equal values in lowest terms are identical pairs. */
  lemma LowestUnique(n1: int, d1: int, n2: int, d2: int)
    requires Lowest(n1, d1) && Lowest(n2, d2) && n1 * d2 == n2 * d1
    ensures n1 == n2 && d1 == d2
  {
    var x1, y1 :| Bezout(n1, d1, x1, y1);
    var x2, y2 :| Bezout(n2, d2, x2, y2);
    Divisor(n1, d1, n2, d2, x1, y1);
    Divisor(n2, d2, n1, d1, x2, y2);
    MutualDivisors(d1, d2, n2 * x1 + d2 * y1, n1 * x2 + d1 * y2);
    CancelFactor(n1, n2, d1);
  }

  lemma MutualDivisors(a: int, b: int, k: int, m: int)
    requires a > 0 && b > 0 && b == a * k && a == b * m
    ensures a == b
  {
    MulOrder(a, k);
    MulOrder(b, m);
  }

  lemma CancelFactor(a: int, b: int, d: int)
    requires d > 0 && a * d == b * d
    ensures a == b
  {
    assert d * (a - b) == a * d - b * d;
    MulOrder(d, a - b);
  }

  lemma Divisor(n1: int, d1: int, n2: int, d2: int, x: int, y: int)
    requires Bezout(n1, d1, x, y) && n1 * d2 == n2 * d1
    ensures d2 == d1 * (n2 * x + d2 * y)
  {
    calc {
      d2;
      d2 * (n1 * x + d1 * y);
      { assert d2 * (n1 * x) == (n1 * d2) * x; assert d2 * (d1 * y) == d1 * (d2 * y); }
      (n1 * d2) * x + d1 * (d2 * y);
      (n2 * d1) * x + d1 * (d2 * y);
      { assert (n2 * d1) * x == d1 * (n2 * x); }
      d1 * (n2 * x) + d1 * (d2 * y);
      d1 * (n2 * x + d2 * y);
    }
  }

  /** The fraction n/d in lowest terms; zero is 0/1. */
  function LowestTerms(n: int, d: int): (int, int)
    requires d > 0
  {
    if n == 0 then (0, 1)
    else
      GcdDivides(Abs(n), d);
      var g := Gcd(Abs(n), d);
      (n / g, d / g)
  }

  lemma LowestTermsOk(n: int, d: int)
    requires d > 0
    ensures Lowest(LowestTerms(n, d).0, LowestTerms(n, d).1)
    ensures LowestTerms(n, d).0 * d == n * LowestTerms(n, d).1
  {
    if n == 0 {
      ZeroLowest(d);
    } else {
      var g := Gcd(Abs(n), d);
      GcdDivides(Abs(n), d);
      ReduceLowest(n, d, g);
      var p, q := n / g, d / g;
      assert LowestTerms(n, d) == (p, q);
      assert p * d == n * q;
    }
  }

  lemma ZeroLowest(d: int)
    ensures Lowest(0, 1)
  {
    assert Bezout(0, 1, 0, 1);
  }
}
