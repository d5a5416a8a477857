/** Facts about products and quotients of reals, each small enough for the solver. */
module RealFacts {
  lemma PositiveProduct(a: real, b: real)
    requires a > 0.0 && b > 0.0
    ensures a * b > 0.0
  {
  }

  lemma Square(a: real)
    ensures a * a >= 0.0
  {
  }

  lemma Order(a: real, b: real, r: real)
    requires r > 0.0
    ensures a * r <= b * r <==> a <= b
  {
    if a <= b { assert (b - a) * r >= 0.0; } else { assert (a - b) * r > 0.0; }
  }

  lemma QuotientTimes(a: real, r: real)
    requires r > 0.0
    ensures a / r * r == a
    ensures a > 0.0 ==> a / r > 0.0
  {
  }

  lemma QuotientOrder(a: real, b: real, r: real)
    requires r > 0.0
    ensures a / r <= b <==> a <= b * r
    ensures b <= a / r <==> b * r <= a
  {
    QuotientTimes(a, r);
    Order(a / r, b, r);
    Order(b, a / r, r);
  }

  lemma ProductOrder(a: real, b: real, c: real, d: real)
    requires 0.0 < a <= c && 0.0 < b <= d
    ensures a * b <= c * d
  {
    Order(a, c, b);
    Order(b, d, c);
  }

  lemma SquareOrder(d: real, r: real)
    requires r > 0.0
    ensures d * d <= r * r <==> -r <= d <= r
  {
    if d >= 0.0 {
      assert r * r - d * d == (r - d) * (r + d);
      SignOf(r - d, r + d);
    } else {
      assert r * r - d * d == (r + d) * (r - d);
      SignOf(r + d, r - d);
    }
  }

  lemma SignOf(a: real, s: real)
    requires s > 0.0
    ensures a * s >= 0.0 <==> a >= 0.0
  {
    Order(0.0, a, s);
  }

  lemma SquareOfProduct(a: real, b: real)
    ensures a * a * (b * b) == a * b * (a * b)
  {
  }

  lemma Distribute(a: real, b: real, c: real)
    ensures (a + b) * c == a * c + b * c
  {
  }
}
