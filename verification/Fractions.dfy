/** Order of products and quotients of reals. */
module Fractions {

  lemma {:induction false} ProductOrder(p: real, q: real, d: real)
    requires d > 0.0
    ensures p <= q <==> p * d <= q * d
    ensures p == q <==> p * d == q * d
  {
    assert (q - p) * d == q * d - p * d;
  }

  lemma {:induction false} QuotientOrder(u: real, v: real, d: real)
    requires d > 0.0
    ensures u <= v <==> u / d <= v / d
    ensures u == v <==> u / d == v / d
  {
    var p, q := u / d, v / d;
    assert p * d == u && q * d == v;
    ProductOrder(p, q, d);
  }

  lemma {:induction false} QuotientInUnit(x: real, y: real)
    requires 0.0 <= x <= y && y > 0.0
    ensures 0.0 <= x / y <= 1.0
  {
    QuotientOrder(0.0, x, y);
    QuotientOrder(x, y, y);
  }

  /** A total of at most n times `top` averages to at most `top`. */
  lemma {:induction false} QuotientBounds(total: real, n: real, top: real)
    requires n > 0.0 && 0.0 <= total <= n * top
    ensures 0.0 <= total / n <= top
  {
    var q := total / n;
    assert q * n == total;
    ProductOrder(q, top, n);
    ProductOrder(0.0, q, n);
  }

  lemma {:induction false} QuotientBelowOne(x: real, y: real)
    requires 0.0 <= x < y
    ensures 0.0 <= x / y < 1.0
  {
    QuotientOrder(0.0, x, y);
    QuotientOrder(x, y, y);
    assert y / y == 1.0;
  }
}
