// Facts about products and quotients of reals.
//
// Times and Over are multiplication and division under a name: the solver
// compares two named products argument by argument, which it does not do for
// the bare operators.
module RealArith {

  function Times(a: real, b: real): real {
    a * b
  }

  function Over(a: real, b: real): real
    requires b != 0.0
  {
    a / b
  }

  function Min(a: real, b: real): (m: real)
    ensures m <= a && m <= b && (m == a || m == b)
  {
    if a <= b then a else b
  }

  function Max(a: real, b: real): (m: real)
    ensures a <= m && b <= m && (m == a || m == b)
  {
    if a <= b then b else a
  }

  function Abs(a: real): (m: real)
    ensures 0.0 <= m && a <= m && -a <= m && (m == a || m == -a)
  {
    if 0.0 <= a then a else -a
  }

  lemma Scale(k: real, a: real, b: real)
    requires 0.0 <= k && a <= b
    ensures Times(k, a) <= Times(k, b) && Times(a, k) <= Times(b, k)
  {
  }

  lemma ScaleStrict(k: real, a: real, b: real)
    requires 0.0 < k && a < b
    ensures Times(k, a) < Times(k, b) && Times(a, k) < Times(b, k)
  {
  }

  lemma Cancel(k: real, a: real, b: real)
    requires 0.0 < k && Times(a, k) <= Times(b, k)
    ensures a <= b
  {
  }

  lemma ProductPositive(a: real, b: real)
    requires 0.0 <= a && 0.0 < b
    ensures 0.0 <= Times(a, b)
    ensures 0.0 < a ==> 0.0 < Times(a, b)
  {
  }

  lemma Negate(a: real, b: real)
    ensures Times(a, -b) == -Times(a, b) == Times(-a, b)
  {
  }

  lemma Distribute(a: real, b: real, k: real)
    ensures Times(a + b, k) == Times(a, k) + Times(b, k)
    ensures Times(k, a + b) == Times(k, a) + Times(k, b)
    ensures Times(a - b, k) == Times(a, k) - Times(b, k)
  {
  }

  lemma Commute(a: real, b: real)
    ensures Times(a, b) == Times(b, a)
  {
  }

  lemma Associate(a: real, b: real, c: real)
    ensures Times(a, Times(b, c)) == Times(Times(a, b), c)
  {
  }

  /** Over(a, b) is the number that times b is a. */
  lemma Quotient(a: real, b: real)
    requires b != 0.0
    ensures Times(Over(a, b), b) == a
  {
  }

  /** A bound on a quotient is a bound on the product. */
  lemma QuotientBound(q: real, a: real, b: real)
    requires 0.0 < b
    ensures q <= Over(a, b) <==> Times(q, b) <= a
    ensures Over(a, b) <= q <==> a <= Times(q, b)
  {
    Quotient(a, b);
    var x := Over(a, b);
    if q <= x {
      Scale(b, q, x);
    } else {
      ScaleStrict(b, x, q);
    }
    if x <= q {
      Scale(b, x, q);
    } else {
      ScaleStrict(b, q, x);
    }
  }

  lemma QuotientPositive(a: real, b: real)
    requires 0.0 < a && 0.0 < b
    ensures 0.0 < Over(a, b)
  {
  }

  /** Compare two quotients by cross-multiplying. */
  lemma CompareQuotients(a: real, b: real, c: real, d: real)
    requires 0.0 < b && 0.0 < d && Times(d, a) <= Times(b, c)
    ensures Over(a, b) <= Over(c, d)
  {
    var x, y := Over(a, b), Over(c, d);
    Quotient(a, b);
    Quotient(c, d);
    assert Times(x, Times(b, d)) == Times(d, Times(x, b));
    assert Times(y, Times(b, d)) == Times(b, Times(y, d));
    ProductPositive(b, d);
    Cancel(Times(b, d), x, y);
  }
}
