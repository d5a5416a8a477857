/** Cosine similarity with a Newton square root, and the semantic index that searches by it. Numbers are reals. */
module Similarity {
  import opened RealFacts

  const STEPS := 24

  /** One Newton step towards the square root of x. */
  function Improved(x: real, g: real): (h: real)
    requires x > 0.0 && g > 0.0
    ensures h > 0.0
  {
    (g + x / g) / 2.0
  }

  /** The n-th Newton iterate, starting from x. */
  function Newton(x: real, n: nat): (g: real)
    requires x > 0.0
    ensures g > 0.0
  {
    if n == 0 then x else Improved(x, Newton(x, n - 1))
  }

  function Root(x: real): (g: real)
    ensures x > 0.0 ==> g > 0.0
  {
    if x <= 0.0 then 0.0 else Newton(x, STEPS)
  }

  /** `sqrtF` */
  method SqrtF(x: real) returns (g: real)
    ensures g == Root(x)
  {
    if x <= 0.0 { return 0.0; }
    g := x;
    for i := 0 to STEPS
      invariant g > 0.0 && g == Newton(x, i)
    {
      g := (g + x / g) / 2.0;
    }
  }

  // ----- how good the root is -----

  /** y / 4^n */
  function Quarter(y: real, n: nat): real {
    if n == 0 then y else Quarter(y, n - 1) / 4.0
  }

  function Max(a: real, b: real): real {
    if a >= b then a else b
  }

  /** How far the square of g is above x. */
  function Above(g: real, x: real): real {
    g * g - x
  }

  function Excess(x: real, n: nat): real
    requires x > 0.0
  {
    Above(Newton(x, n), x)
  }

  /** One step, with q the quotient x / g: the new square is above x by (g - q)^2 / 4, at most a quarter of the old
      excess if g was not too small. */
  lemma StepExcess(g: real, q: real, x: real)
    requires g > 0.0 && q > 0.0 && q * g == x
    ensures var h := (g + q) / 2.0; h * h - x >= 0.0 && (g >= q ==> h * h - x <= (g * g - x) / 4.0)
  {
    var d := g - q;
    Square(d);
    assert (g + q) / 2.0 * ((g + q) / 2.0) - x == d * d / 4.0;
    if g >= q {
      assert g * g - x == d * d + d * q;
      assert d * q >= 0.0;
    }
  }

  lemma StepFrom(g: real, x: real)
    requires g > 0.0 && x > 0.0
    ensures var h := Improved(x, g); Above(h, x) >= 0.0 && (Above(g, x) >= 0.0 ==> Above(h, x) <= Above(g, x) / 4.0)
  {
    QuotientTimes(x, g);
    Order(x / g, g, g);
    StepExcess(g, x / g, x);
  }

  lemma ExcessStep(x: real, n: nat)
    requires x > 0.0
    ensures Excess(x, n + 1) >= 0.0
    ensures Excess(x, n) >= 0.0 ==> Excess(x, n + 1) <= Excess(x, n) / 4.0
  {
    hide Improved, Above;
    StepFrom(Newton(x, n), x);
  }

  lemma FirstIterate(x: real)
    requires x > 0.0
    ensures Newton(x, 1) == (x + 1.0) / 2.0
  {
    assert Newton(x, 0) == x && x / x == 1.0;
  }

  lemma FirstSquare(x: real)
    ensures var g := (x + 1.0) / 2.0; g * g - x == (x - 1.0) * (x - 1.0) / 4.0
  {
  }

  lemma GapBounded(x: real)
    requires x > 0.0
    ensures (x - 1.0) * (x - 1.0) <= Max(x * x, 1.0)
  {
    if x >= 1.0 { SquareOrder(x - 1.0, x); } else { SquareOrder(x - 1.0, 1.0); }
  }

  lemma LargerOf(x: real)
    requires x > 0.0
    ensures x * Max(x, 1.0 / x) == Max(x * x, 1.0)
  {
    QuotientTimes(1.0, x);
    Order(1.0 / x, x, x);
  }

  lemma FirstExcess(x: real)
    requires x > 0.0
    ensures Excess(x, 1) <= x * Max(x, 1.0 / x) / 4.0
  {
    FirstIterate(x);
    FirstSquare(x);
    GapBounded(x);
    LargerOf(x);
    hide Max, Newton;
  }

  /** From the first step on, the square is above x and the excess shrinks by four each time. */
  lemma {:induction false} ExcessShrinks(x: real, bound: real, n: nat)
    requires x > 0.0 && n >= 1 && Excess(x, 1) <= bound / 4.0
    ensures 0.0 <= Excess(x, n) <= Quarter(bound, n)
  {
    hide Excess;
    ExcessStep(x, n - 1);
    if n > 1 { ExcessShrinks(x, bound, n - 1); } else { assert Quarter(bound, 0) == bound; }
  }

  lemma {:induction false} QuarterTimes(x: real, y: real, n: nat)
    ensures Quarter(x * y, n) == x * Quarter(y, n)
  {
    if n == 0 {
    } else {
      QuarterTimes(x, y, n - 1);
      Halves(x, Quarter(y, n - 1));
    }
  }

  lemma Halves(x: real, y: real)
    ensures x * y / 4.0 == x * (y / 4.0)
  {
  }

  /** How far a squared root may be above its argument, relative to it. */
  function Slack(x: real): real
    requires x > 0.0
  {
    Quarter(Max(x, 1.0 / x), STEPS)
  }

  lemma {:induction false} QuarterPositive(y: real, n: nat)
    requires y > 0.0
    ensures Quarter(y, n) > 0.0
  {
    if n == 0 {
    } else {
      QuarterPositive(y, n - 1);
    }
  }

  /** Main result on roots: for every positive x the square lies between x and x (1 + max(x, 1/x) / 4^24). */
  lemma RootBounds(x: real)
    requires x > 0.0
    ensures Root(x) > 0.0 && x <= Root(x) * Root(x) <= x * (1.0 + Slack(x))
  {
    var m := Max(x, 1.0 / x);
    FirstExcess(x);
    ExcessShrinks(x, x * m, STEPS);
    QuarterTimes(x, m, STEPS);
    hide Quarter, Max, Newton;
    assert x * (1.0 + Quarter(m, STEPS)) == x + x * Quarter(m, STEPS);
  }

  const FOUR_24 := 281474976710656.0

  lemma QuarterIs(y: real)
    ensures Quarter(y, STEPS) == y / FOUR_24
  {
    QuarterTwice(y, 4, 4);
    FourFour(y);
    FourFour(Quarter(y, 4));
    FourFour(Quarter(y, 8));
    FourFour(Quarter(y, 12));
    FourFour(Quarter(y, 16));
    FourFour(Quarter(y, 20));
    QuarterTwice(y, 8, 4);
    QuarterTwice(y, 12, 4);
    QuarterTwice(y, 16, 4);
    QuarterTwice(y, 20, 4);
    hide Quarter;
  }

  /** What the slack is, in figures: FOUR_24 is 4^24. */
  lemma SlackIs(x: real)
    requires x > 0.0
    ensures Slack(x) == Max(x, 1.0 / x) / FOUR_24
  {
    QuarterIs(Max(x, 1.0 / x));
    hide Quarter, Max;
  }

  lemma FourFour(y: real)
    ensures Quarter(y, 4) == y / 256.0
  {
    assert Quarter(y, 1) == Quarter(y, 0) / 4.0 == y / 4.0;
    assert Quarter(y, 2) == Quarter(y, 1) / 4.0;
    assert Quarter(y, 3) == Quarter(y, 2) / 4.0;
  }

  lemma {:induction false} QuarterTwice(y: real, n: nat, k: nat)
    ensures Quarter(Quarter(y, n), k) == Quarter(y, n + k)
  {
    if k == 0 {
    } else {
      QuarterTwice(y, n, k - 1);
    }
  }

  // ----- the root of a huge number -----

  /** x / 2^n */
  function Half(x: real, n: nat): real {
    if n == 0 then x else Half(x, n - 1) / 2.0
  }

  /** Each step at most halves the iterate. */
  lemma {:induction false} NewtonAbove(x: real, n: nat)
    requires x > 0.0
    ensures Newton(x, n) >= Half(x, n) > 0.0
  {
    if n == 0 {
    } else {
      NewtonAbove(x, n - 1);
      AtLeastHalf(x, Newton(x, n - 1));
      hide Improved;
    }
  }

  lemma AtLeastHalf(x: real, g: real)
    requires x > 0.0 && g > 0.0
    ensures Improved(x, g) >= g / 2.0
  {
    QuotientTimes(x, g);
  }

  lemma {:induction false} HalfSquared(x: real, n: nat)
    ensures Half(x, n) * Half(x, n) == Quarter(x * x, n)
  {
    if n == 0 {
    } else {
      HalfSquared(x, n - 1);
      HalvesSquared(Half(x, n - 1));
    }
  }

  lemma HalvesSquared(h: real)
    ensures h / 2.0 * (h / 2.0) == h * h / 4.0
  {
  }

  /** After 24 steps the root is not below x / 2^24, however large x is. */
  lemma RootLow(x: real)
    requires x > 0.0
    ensures x * x <= Root(x) * Root(x) * FOUR_24
  {
    NewtonAbove(x, STEPS);
    HalfSquared(x, STEPS);
    QuarterIs(x * x);
    assert Root(x) == Newton(x, STEPS);
    hide Quarter, Newton, Half, Root;
    ProductOrder(Half(x, STEPS), Half(x, STEPS), Root(x), Root(x));
  }

  /** The first step is at least one half, and each further one at most halves it. */
  lemma {:induction false} NewtonAboveOne(x: real, n: nat)
    requires x > 0.0 && n > 0
    ensures Newton(x, n) >= Half(1.0, n) > 0.0
  {
    if n == 1 {
      FirstStep(x);
      assert Newton(x, 1) == Improved(x, x) && Half(1.0, 1) == 0.5;
    } else {
      NewtonAboveOne(x, n - 1);
      AtLeastHalf(x, Newton(x, n - 1));
      hide Improved;
    }
  }

  lemma FirstStep(x: real)
    requires x > 0.0
    ensures Improved(x, x) >= 0.5
  {
    assert x / x == 1.0;
  }

  /** Nor is it below 1 / 2^24, however small x is. */
  lemma RootLowOne(x: real)
    requires x > 0.0
    ensures 1.0 <= Root(x) * Root(x) * FOUR_24
  {
    NewtonAboveOne(x, STEPS);
    HalfSquared(1.0, STEPS);
    QuarterIs(1.0);
    assert Root(x) == Newton(x, STEPS);
    hide Quarter, Newton, Half, Root;
    ProductOrder(Half(1.0, STEPS), Half(1.0, STEPS), Root(x), Root(x));
  }

  // ----- Cosine -----

  /** The inner product of the first n components. */
  function Dot(a: seq<real>, b: seq<real>, n: nat): (d: real)
    requires n <= |a| && n <= |b|
    ensures a == b ==> d >= 0.0
  {
    assert a == b && n > 0 ==> a[n - 1] * b[n - 1] >= 0.0;
    if n == 0 then 0.0 else Dot(a, b, n - 1) + a[n - 1] * b[n - 1]
  }

  /** What the inner product is divided by. */
  function Norm(na: real, nb: real): (r: real)
    requires na > 0.0 && nb > 0.0
    ensures r > 0.0
  {
    PositiveProduct(Root(na), Root(nb));
    Root(na) * Root(nb)
  }

  function Quotient(a: real, b: real): real
    requires b != 0.0
  {
    a / b
  }

  function CosineOf(a: seq<real>, b: seq<real>): real
    requires |a| <= |b|
  {
    var dot, na, nb := Dot(a, b, |a|), Dot(a, a, |a|), Dot(b, b, |a|);
    if na == 0.0 || nb == 0.0 then 0.0 else Quotient(dot, Norm(na, nb))
  }

  method Divide(dot: real, na: real, nb: real) returns (c: real)
    requires na > 0.0 && nb > 0.0
    ensures c == Quotient(dot, Norm(na, nb))
  {
    hide Root;
    var ra := SqrtF(na);
    var rb := SqrtF(nb);
    PositiveProduct(ra, rb);
    c := dot / (ra * rb);
  }

  /** `Cosine`; the second vector must be at least as long as the first. */
  method Cosine(a: seq<real>, b: seq<real>) returns (c: real)
    requires |a| <= |b|
    ensures c == CosineOf(a, b)
  {
    hide Norm, Quotient;
    var dot, na, nb := 0.0, 0.0, 0.0;
    for i := 0 to |a|
      invariant dot == Dot(a, b, i) && na == Dot(a, a, i) && nb == Dot(b, b, i)
    {
      dot := dot + a[i] * b[i];
      na := na + a[i] * a[i];
      nb := nb + b[i] * b[i];
    }
    if na == 0.0 || nb == 0.0 { return 0.0; }
    c := Divide(dot, na, nb);
  }

  function Form(na: real, d: real, nb: real, s: real, t: real): real {
    na * (s * s) - 2.0 * (d * (s * t)) + nb * (t * t)
  }

  lemma FormSum(na: real, d: real, nb: real, x: real, y: real, s: real, t: real)
    ensures Form(na + x * x, d + x * y, nb + y * y, s, t) >= Form(na, d, nb, s, t)
  {
    SquareTerm(x, y, s, t);
    Distribute(na, x * x, s * s);
    Distribute(d, x * y, s * t);
    Distribute(nb, y * y, t * t);
  }

  lemma FormOfSums(na: real, d: real, nb: real, x: real, y: real, s: real, t: real, na': real, d': real, nb': real)
    requires na' == na + x * x && d' == d + x * y && nb' == nb + y * y
    ensures Form(na', d', nb', s, t) >= Form(na, d, nb, s, t)
  {
    hide Form;
    FormSum(na, d, nb, x, y, s, t);
  }

  lemma DotStep(a: seq<real>, b: seq<real>, n: nat)
    requires 0 < n <= |a| && n <= |b|
    ensures Dot(a, b, n) == Dot(a, b, n - 1) + a[n - 1] * b[n - 1]
  {
  }

  lemma FormGrows(a: seq<real>, b: seq<real>, n: nat, s: real, t: real)
    requires 0 < n <= |a| && n <= |b|
    ensures Form(Dot(a, a, n), Dot(a, b, n), Dot(b, b, n), s, t) >=
            Form(Dot(a, a, n - 1), Dot(a, b, n - 1), Dot(b, b, n - 1), s, t)
  {
    hide Form, Dot;
    DotStep(a, a, n);
    DotStep(a, b, n);
    DotStep(b, b, n);
    FormOfSums(Dot(a, a, n - 1), Dot(a, b, n - 1), Dot(b, b, n - 1), a[n - 1], b[n - 1], s, t,
               Dot(a, a, n), Dot(a, b, n), Dot(b, b, n));
  }

  /** The sum of the squares (a[i] s - b[i] t)^2 is not negative. */
  lemma {:induction false} Quadratic(a: seq<real>, b: seq<real>, n: nat, s: real, t: real)
    requires n <= |a| && n <= |b|
    ensures Form(Dot(a, a, n), Dot(a, b, n), Dot(b, b, n), s, t) >= 0.0
  {
    if n == 0 {
      hide Form;
      ZeroForm(s, t);
    } else {
      hide Form, Dot;
      Quadratic(a, b, n - 1, s, t);
      FormGrows(a, b, n, s, t);
    }
  }

  lemma ZeroForm(s: real, t: real)
    ensures Form(0.0, 0.0, 0.0, s, t) == 0.0
  {
  }

  lemma SquareTerm(x: real, y: real, s: real, t: real)
    ensures x * x * (s * s) - 2.0 * (x * y * (s * t)) + y * y * (t * t) >= 0.0
  {
    var d := x * s - y * t;
    assert d * d >= 0.0;
    assert d * d == x * s * (x * s) - 2.0 * (x * s * (y * t)) + y * t * (y * t);
  }

  lemma Rearranged(na: real, d: real, nb: real)
    ensures Form(na, d, nb, d, na) == (na * nb - d * d) * na
  {
  }

  /** The Cauchy-Schwarz inequality for the inner products. */
  predicate Within(d: real, na: real, nb: real) {
    d * d <= na * nb
  }

  lemma FromForm(na: real, d: real, nb: real)
    requires na > 0.0 && Form(na, d, nb, d, na) >= 0.0
    ensures Within(d, na, nb) && Within(d, nb, na)
  {
    hide Form;
    Rearranged(na, d, nb);
    SignOf(na * nb - d * d, na);
  }

  lemma FormZero(d: real)
    requires Form(0.0, d, 0.0, d, 1.0) >= 0.0
    ensures Within(d, 0.0, 0.0)
  {
  }

  lemma DotWithin(a: seq<real>, b: seq<real>, n: nat)
    requires n <= |a| && n <= |b|
    ensures Within(Dot(a, b, n), Dot(a, a, n), Dot(b, b, n))
  {
    var na, d, nb := Dot(a, a, n), Dot(a, b, n), Dot(b, b, n);
    hide Dot, Form, Within;
    if na > 0.0 {
      Quadratic(a, b, n, d, na);
      FromForm(na, d, nb);
    } else if nb > 0.0 {
      Quadratic(b, a, n, d, nb);
      DotCommutes(a, b, n);
      FromForm(nb, d, na);
    } else {
      Quadratic(a, b, n, d, 1.0);
      FormZero(d);
    }
  }

  /** The Cauchy-Schwarz inequality. */
  lemma CauchySchwarz(a: seq<real>, b: seq<real>, n: nat)
    requires n <= |a| && n <= |b|
    ensures Dot(a, b, n) * Dot(a, b, n) <= Dot(a, a, n) * Dot(b, b, n)
  {
    hide Dot;
    DotWithin(a, b, n);
  }

  lemma {:induction false} DotCommutes(a: seq<real>, b: seq<real>, n: nat)
    requires n <= |a| && n <= |b|
    ensures Dot(a, b, n) == Dot(b, a, n)
  {
    if n == 0 {
    } else {
      DotCommutes(a, b, n - 1);
    }
  }

  lemma WithinProduct(d: real, na: real, nb: real, ra: real, rb: real)
    requires 0.0 < na <= ra * ra && 0.0 < nb <= rb * rb && ra > 0.0 && rb > 0.0 && d * d <= na * nb
    ensures -(ra * rb) <= d <= ra * rb
  {
    PositiveProduct(ra, rb);
    ProductOrder(na, nb, ra * ra, rb * rb);
    SquareOfProduct(ra, rb);
    SquareOrder(d, ra * rb);
  }

  lemma RootAbove(x: real)
    requires x > 0.0
    ensures Root(x) > 0.0 && x <= Root(x) * Root(x)
  {
    RootBounds(x);
  }

  lemma WithinNorm(d: real, na: real, nb: real)
    requires na > 0.0 && nb > 0.0 && d * d <= na * nb
    ensures -Norm(na, nb) <= d <= Norm(na, nb)
  {
    hide Root;
    RootAbove(na);
    RootAbove(nb);
    WithinProduct(d, na, nb, Root(na), Root(nb));
  }

  lemma QuotientBounded(d: real, r: real)
    requires r > 0.0 && -r <= d <= r
    ensures -1.0 <= Quotient(d, r) <= 1.0
  {
    QuotientOrder(d, 1.0, r);
    QuotientOrder(d, -1.0, r);
  }

  lemma DotWithinNorm(a: seq<real>, b: seq<real>, n: nat)
    requires n <= |a| && n <= |b| && Dot(a, a, n) > 0.0 && Dot(b, b, n) > 0.0
    ensures var r := Norm(Dot(a, a, n), Dot(b, b, n)); -r <= Dot(a, b, n) <= r
  {
    hide Dot, Norm;
    CauchySchwarz(a, b, n);
    WithinNorm(Dot(a, b, n), Dot(a, a, n), Dot(b, b, n));
  }

  /** Main result on similarity: it lies between -1 and 1. */
  lemma CosineBounded(a: seq<real>, b: seq<real>)
    requires |a| <= |b|
    ensures -1.0 <= CosineOf(a, b) <= 1.0
  {
    var d, na, nb := Dot(a, b, |a|), Dot(a, a, |a|), Dot(b, b, |a|);
    hide Dot, Norm, Quotient;
    if na > 0.0 && nb > 0.0 {
      DotWithinNorm(a, b, |a|);
      QuotientBounded(d, Norm(na, nb));
    }
  }

  lemma QuotientAbove(n: real, square: real, slack: real)
    requires n > 0.0 && square > 0.0 && slack > 0.0 && square <= n * (1.0 + slack)
    ensures Quotient(n, square) >= Quotient(1.0, 1.0 + slack)
  {
    var r := 1.0 / (1.0 + slack);
    QuotientTimes(1.0, 1.0 + slack);
    QuotientOrder(n, r, square);
    Order(square, n * (1.0 + slack), r);
    Regroup(n, 1.0 + slack, r);
  }

  lemma Regroup(n: real, a: real, r: real)
    requires r * a == 1.0
    ensures n * a * r == n
  {
    assert n * a * r == n * (r * a);
  }

  /** The similarity a vector surely has to itself, given the sum n of its squares. */
  function SelfBound(n: real): real
    requires n > 0.0
  {
    SlackPositive(n);
    Quotient(1.0, 1.0 + Slack(n))
  }

  lemma SelfNorm(n: real)
    requires n > 0.0
    ensures Quotient(n, Norm(n, n)) >= SelfBound(n)
  {
    hide Root, Slack, Quotient;
    SlackPositive(n);
    RootBounds(n);
    QuotientAbove(n, Norm(n, n), Slack(n));
  }

  /** A vector is as similar to itself as the root is exact. */
  lemma SelfSimilarity(v: seq<real>)
    requires Dot(v, v, |v|) > 0.0
    ensures CosineOf(v, v) >= SelfBound(Dot(v, v, |v|))
  {
    hide Dot, Norm, Quotient, SelfBound;
    SelfNorm(Dot(v, v, |v|));
  }

  lemma PositiveAs(p: real, a: real, b: real)
    requires a > 0.0 && b > 0.0 && p == a * b
    ensures p > 0.0
  {
  }

  lemma ScaledProduct(a: real, b: real, c: real, d: real, p: real)
    requires 0.0 < a <= c * FOUR_24 && 0.0 < b <= d && p == c * d
    ensures a * b <= p * FOUR_24
  {
    var e := c * FOUR_24;
    ProductOrder(a, b, e, d);
    assert e * d == c * d * FOUR_24;
  }

  function Squared(x: real): real { x * x }

  lemma SquaredFacts(a: real, b: real)
    ensures a > 0.0 ==> Squared(a) > 0.0
    ensures Squared(a * b) == Squared(a) * Squared(b)
  {
    if a > 0.0 { PositiveAs(Squared(a), a, a); }
    SquareOfProduct(a, b);
  }

  lemma SquaredRoot(x: real)
    requires x > 0.0
    ensures Squared(x) <= Squared(Root(x)) * FOUR_24 && x <= Squared(Root(x))
  {
    RootLow(x);
    RootAbove(x);
    hide Root;
  }

  lemma NormSquared(na: real, nb: real)
    requires na > 0.0 && nb > 0.0
    ensures Squared(Norm(na, nb)) == Squared(Root(na)) * Squared(Root(nb))
  {
    var r := Root(na) * Root(nb);
    assert Norm(na, nb) == r;
    hide Root, Norm;
    SquareOfProduct(Root(na), Root(nb));
  }

  /** The norm is not small either. */
  lemma NormLow(na: real, nb: real)
    requires na > 0.0 && nb > 0.0
    ensures Squared(na) * nb <= Squared(Norm(na, nb)) * FOUR_24
  {
    hide Root, Squared, Norm;
    SquaredRoot(na);
    SquaredRoot(nb);
    SquaredFacts(na, 0.0);
    NormSquared(na, nb);
    ScaledProduct(Squared(na), nb, Squared(Root(na)), Squared(Root(nb)), Squared(Norm(na, nb)));
  }

  /** The similarity c cannot matter at the squared length n. */
  predicate Faint(c: real, n: real) {
    c * c * n <= FOUR_24
  }

  lemma QuotientLow(d: real, r: real, na: real, nb: real)
    requires na > 0.0 && nb > 0.0 && r > 0.0 && d * d <= na * nb && Squared(na) * nb <= Squared(r) * FOUR_24
    ensures Faint(Quotient(d, r), na)
  {
    var c := d / r;
    QuotientTimes(d, r);
    SquaredFacts(c, r);
    Square(c);
    PositiveProduct(na, nb);
    CancelSquares(Squared(c), Squared(r), na, nb);
  }

  lemma CancelSquares(c: real, r: real, na: real, nb: real)
    requires c >= 0.0 && na > 0.0 && nb > 0.0 && na * nb > 0.0
    requires c * r <= na * nb && Squared(na) * nb <= r * FOUR_24
    ensures c * na <= FOUR_24
  {
    Scaled(c, Squared(na) * nb, r * FOUR_24);
    assert c * (r * FOUR_24) == c * r * FOUR_24;
    assert c * (Squared(na) * nb) == c * na * (na * nb);
    Order(c * na, FOUR_24, na * nb);
  }

  lemma Scaled(s: real, a: real, b: real)
    requires s >= 0.0 && a <= b
    ensures s * a <= s * b
  {
    assert s * (b - a) >= 0.0;
  }

  /** Main result on large vectors: no vector is more similar to one of squared length n than 2^24 / sqrt(n). */
  lemma LargeVectorsDiffer(a: seq<real>, b: seq<real>)
    requires |a| <= |b| && Dot(a, a, |a|) > 0.0
    ensures Faint(CosineOf(a, b), Dot(a, a, |a|))
  {
    hide Dot, Norm, Quotient, Faint;
    if Dot(b, b, |a|) > 0.0 {
      QuotientFaint(a, b, |a|);
    } else {
      ZeroFaint(Dot(a, a, |a|));
    }
  }

  lemma ZeroFaint(n: real)
    ensures Faint(0.0, n)
  {
  }

  lemma QuotientFaint(a: seq<real>, b: seq<real>, n: nat)
    requires n <= |a| && n <= |b| && Dot(a, a, n) > 0.0 && Dot(b, b, n) > 0.0
    ensures Faint(Quotient(Dot(a, b, n), Norm(Dot(a, a, n), Dot(b, b, n))), Dot(a, a, n))
  {
    hide Dot, Norm, Quotient, Faint, Squared;
    CauchySchwarz(a, b, n);
    NormLow(Dot(a, a, n), Dot(b, b, n));
    QuotientLow(Dot(a, b, n), Norm(Dot(a, a, n), Dot(b, b, n)), Dot(a, a, n), Dot(b, b, n));
  }

  lemma SelfQuotientLow(n: real, square: real)
    requires n > 0.0 && square > 0.0 && n * n <= square * FOUR_24
    ensures Quotient(n, square) * n <= FOUR_24
  {
    var c := n / square;
    QuotientTimes(n, square);
    Scaled(c, n * n, square * FOUR_24);
    assert c * (square * FOUR_24) == n * FOUR_24 by { assert c * (square * FOUR_24) == c * square * FOUR_24; }
    assert c * (n * n) == c * n * n;
    Order(c * n, FOUR_24, n);
  }

  lemma SelfQuotientTiny(n: real, square: real)
    requires n > 0.0 && square > 0.0 && 1.0 <= square * FOUR_24
    ensures Quotient(n, square) <= n * FOUR_24
  {
    var c := n / square;
    QuotientTimes(n, square);
    Scaled(c, 1.0, square * FOUR_24);
    assert c * (square * FOUR_24) == n * FOUR_24 by { assert c * (square * FOUR_24) == c * square * FOUR_24; }
  }

  /** A vector's similarity to itself is at most 4^24 divided by its squared length, and at most 4^24 times that. */
  lemma SelfSimilarityFades(v: seq<real>)
    requires Dot(v, v, |v|) > 0.0
    ensures CosineOf(v, v) * Dot(v, v, |v|) <= FOUR_24
    ensures CosineOf(v, v) <= Dot(v, v, |v|) * FOUR_24
  {
    var n := Dot(v, v, |v|);
    RootLow(n);
    RootLowOne(n);
    hide Dot, Root, Quotient;
    assert Norm(n, n) == Root(n) * Root(n);
    hide Norm;
    SelfQuotientLow(n, Norm(n, n));
    SelfQuotientTiny(n, Norm(n, n));
  }

  lemma SquareOfQuotient(c: real, ra: real, rb: real, d: real)
    requires ra > 0.0 && rb > 0.0 && c * (ra * rb) == d
    ensures Squared(d) == Squared(c) * (Squared(ra) * Squared(rb))
    ensures Squared(ra) > 0.0 && Squared(rb) > 0.0 && Squared(c) >= 0.0
  {
    SquaredFacts(ra, rb);
    SquaredFacts(rb, ra);
    SquaredFacts(c, ra * rb);
    Square(c);
  }

  lemma SquaredWithin(na: real, nb: real, d: real, c: real, ra: real, rb: real, sa: real, sb: real)
    requires na > 0.0 && nb > 0.0 && ra > 0.0 && rb > 0.0 && c * (ra * rb) == d
    requires na <= Squared(ra) <= sa && nb <= Squared(rb) <= sb
    ensures Squared(c) * (na * nb) <= Squared(d) <= Squared(c) * (sa * sb)
  {
    hide Squared;
    SquareOfQuotient(c, ra, rb, d);
    ProductsWithin(Squared(c), na, nb, Squared(ra), Squared(rb), sa, sb);
  }

  lemma ProductsWithin(c: real, na: real, nb: real, ra: real, rb: real, sa: real, sb: real)
    requires c >= 0.0 && 0.0 < na <= ra <= sa && 0.0 < nb <= rb <= sb
    ensures c * (na * nb) <= c * (ra * rb) <= c * (sa * sb)
  {
    ProductOrder(na, nb, ra, rb);
    ProductOrder(ra, rb, sa, sb);
    Between(c, na * nb, ra * rb, sa * sb);
  }

  lemma Between(c: real, low: real, mid: real, high: real)
    requires c >= 0.0 && low <= mid <= high
    ensures c * low <= c * mid <= c * high
  {
    Scaled(c, low, mid);
    Scaled(c, mid, high);
  }

  /** x with the relative error of its root added. */
  function Upper(x: real): real
    requires x > 0.0
  {
    x * (1.0 + Slack(x))
  }

  lemma SquaredRootWithin(x: real)
    requires x > 0.0
    ensures x <= Squared(Root(x)) <= Upper(x) && Root(x) > 0.0
  {
    RootBounds(x);
    hide Root, Slack;
  }

  /** With na and nb the squared lengths, c is near d / sqrt(na nb): its square is that of d / sqrt(na nb), at most
      smaller by the errors of the two roots. */
  ghost predicate NearTrue(c: real, d: real, na: real, nb: real)
    requires na > 0.0 && nb > 0.0
  {
    && Squared(c) * (na * nb) <= Squared(d) <= Squared(c) * (Upper(na) * Upper(nb))
    && (c > 0.0 <==> d > 0.0) && (c == 0.0 <==> d == 0.0)
  }

  lemma NormTimes(d: real, na: real, nb: real)
    requires na > 0.0 && nb > 0.0
    ensures Quotient(d, Norm(na, nb)) * (Root(na) * Root(nb)) == d
  {
    QuotientTimes(d, Norm(na, nb));
    hide Root;
  }

  lemma QuotientNear(d: real, na: real, nb: real)
    requires na > 0.0 && nb > 0.0
    ensures NearTrue(Quotient(d, Norm(na, nb)), d, na, nb)
  {
    hide Root, Norm, Upper, Squared, Quotient;
    var c := Quotient(d, Norm(na, nb));
    SquaredRootWithin(na);
    SquaredRootWithin(nb);
    NormTimes(d, na, nb);
    QuotientSign(d, Norm(na, nb));
    SquaredWithin(na, nb, d, c, Root(na), Root(nb), Upper(na), Upper(nb));
  }

  lemma QuotientSign(d: real, r: real)
    requires r > 0.0
    ensures (Quotient(d, r) > 0.0 <==> d > 0.0) && (Quotient(d, r) == 0.0 <==> d == 0.0)
  {
    QuotientTimes(d, r);
    SameSign(d / r, r, d);
  }

  /** Main result on accuracy: the similarity has the sign of the inner product and is near the true cosine. */
  lemma CosineNearTrue(a: seq<real>, b: seq<real>)
    requires |a| <= |b| && Dot(a, a, |a|) > 0.0 && Dot(b, b, |a|) > 0.0
    ensures NearTrue(CosineOf(a, b), Dot(a, b, |a|), Dot(a, a, |a|), Dot(b, b, |a|))
  {
    hide Dot, Norm, Quotient, NearTrue;
    QuotientNear(Dot(a, b, |a|), Dot(a, a, |a|), Dot(b, b, |a|));
  }

  lemma SameSign(c: real, r: real, d: real)
    requires r > 0.0 && c * r == d
    ensures (c > 0.0 <==> d > 0.0) && (c == 0.0 <==> d == 0.0)
  {
  }

  lemma SlackPositive(x: real)
    requires x > 0.0
    ensures Slack(x) > 0.0
  {
    QuarterPositive(Max(x, 1.0 / x), STEPS);
    hide Quarter;
  }

  // ----- the index -----

  datatype Item = Item(vec: seq<real>, key: string)

  const DEFAULT_THRESHOLD := 0.93
  const DEFAULT_MAX := 1000

  /** Every stored vector is at least as long as the one searched for; a shorter one makes the source panic. */
  ghost predicate Searchable(items: seq<Item>, vec: seq<real>) {
    forall i :: 0 <= i < |items| ==> |vec| <= |items[i].vec|
  }

  ghost function Score(items: seq<Item>, vec: seq<real>, i: nat): real
    requires Searchable(items, vec) && i < |items|
  {
    CosineOf(vec, items[i].vec)
  }

  /** The first of the most similar items. */
  ghost predicate IsBest(items: seq<Item>, vec: seq<real>, i: nat)
    requires Searchable(items, vec)
  {
    && i < |items|
    && (forall j :: 0 <= j < |items| ==> Score(items, vec, j) <= Score(items, vec, i))
    && (forall j :: 0 <= j < i ==> Score(items, vec, j) < Score(items, vec, i))
  }

  function AfterAdd(items: seq<Item>, e: Item, max: nat): seq<Item> {
    var all := items + [e];
    if |all| > max then all[|all| - max..] else all
  }

  function AddedAll(es: seq<Item>, max: nat): seq<Item> {
    if es == [] then [] else AfterAdd(AddedAll(es[..|es| - 1], max), es[|es| - 1], max)
  }

  /** The index holds the last entries added, at most max of them, in the order they came. */
  lemma {:induction false} IndexKeepsLast(es: seq<Item>, max: nat)
    ensures AddedAll(es, max) == es[if |es| > max then |es| - max else 0..]
  {
    if es == [] {
    } else {
      var n := |es| - 1;
      IndexKeepsLast(es[..n], max);
      hide AfterAdd;
      LastKept(es[..n], es[n], max);
      assert es[..n] + [es[n]] == es;
    }
  }

  lemma LastKept(es: seq<Item>, e: Item, max: nat)
    ensures AfterAdd(es[if |es| > max then |es| - max else 0..], e, max) ==
            (es + [e])[if |es| + 1 > max then |es| + 1 - max else 0..]
  {
    if |es| > max {
      assert es[|es| - max..] + [e] == (es + [e])[|es| - max..];
    } else {
      assert es[0..] + [e] == es + [e];
    }
  }

  class SemanticIndex {
    const threshold: real
    const max: nat
    var items: seq<Item>

    constructor (threshold: real, max: int)
      ensures this.threshold == (if threshold <= 0.0 then 0.93 else threshold) > 0.0
      ensures this.max == (if max <= 0 then 1000 else max) > 0
      ensures items == []
    {
      this.threshold := if threshold <= 0.0 then DEFAULT_THRESHOLD else threshold;
      this.max := if max <= 0 then DEFAULT_MAX else max;
      items := [];
    }

    method Add(key: string, vec: seq<real>)
      modifies this`items
      ensures items == AfterAdd(old(items), Item(vec, key), max)
    {
      items := items + [Item(vec, key)];
      if |items| > max { items := items[|items| - max..]; }
    }

    /** A hit is the first most similar item, if it reaches the threshold and has a key. */
    method Search(vec: seq<real>) returns (key: string, sim: real, ok: bool)
      requires threshold > 0.0 && Searchable(items, vec)
      ensures ok <==> Hits(items, vec, threshold)
      ensures ok ==> exists i: nat :: IsBest(items, vec, i) && Score(items, vec, i) == sim && items[i].key == key
      ensures !ok ==> key == "" && sim == 0.0
    {
      hide CosineOf;
      var best, bestKey := -1.0, "";
      ghost var w := 0;
      for n := 0 to |items|
        invariant best >= -1.0 && forall j :: 0 <= j < n ==> Score(items, vec, j) <= best
        invariant best == -1.0 ==> bestKey == ""
        invariant best > -1.0 ==> 0 <= w < n && best == Score(items, vec, w) && bestKey == items[w].key
        invariant best > -1.0 ==> forall j :: 0 <= j < w ==> Score(items, vec, j) < best
      {
        var c := Cosine(vec, items[n].vec);
        assert c == Score(items, vec, n);
        if c > best {
          best, bestKey := c, items[n].key;
          w := n;
        }
      }
      assert best > -1.0 ==> IsBest(items, vec, w);
      if best >= threshold && bestKey != "" { return bestKey, best, true; }
      key, sim, ok := "", 0.0, false;
    }
  }

  lemma {:induction false} BestExists(items: seq<Item>, vec: seq<real>) returns (i: nat)
    requires items != [] && Searchable(items, vec)
    ensures IsBest(items, vec, i)
  {
    hide CosineOf;
    i := 0;
    for n := 1 to |items|
      invariant i < n
      invariant forall j :: 0 <= j < n ==> Score(items, vec, j) <= Score(items, vec, i)
      invariant forall j :: 0 <= j < i ==> Score(items, vec, j) < Score(items, vec, i)
    {
      if Score(items, vec, n) > Score(items, vec, i) { i := n; }
    }
  }

  /** `Search` hits: the first most similar item reaches the threshold and has a key. */
  ghost predicate Hits(items: seq<Item>, vec: seq<real>, threshold: real)
    requires Searchable(items, vec)
  {
    exists i: nat :: IsBest(items, vec, i) && Score(items, vec, i) >= threshold && items[i].key != ""
  }

  ghost predicate NoEmptyKey(items: seq<Item>) {
    forall i :: 0 <= i < |items| ==> items[i].key != ""
  }

  lemma Added(items: seq<Item>, e: Item, max: nat, vec: seq<real>)
    requires max > 0 && Searchable(items, vec) && NoEmptyKey(items) && |vec| <= |e.vec| && e.key != ""
    ensures var t := AfterAdd(items, e, max); t != [] && t[|t| - 1] == e && Searchable(t, vec) && NoEmptyKey(t)
  {
  }

  lemma HitsBy(items: seq<Item>, vec: seq<real>, threshold: real, j: nat)
    requires Searchable(items, vec) && NoEmptyKey(items) && j < |items| && Score(items, vec, j) >= threshold
    ensures Hits(items, vec, threshold)
  {
    var i := BestExists(items, vec);
    hide CosineOf, Searchable;
  }

  /** Main result on the index: searching for a vector just added always hits when no stored key is empty and the
      threshold leaves room for the error of the root. */
  lemma SearchAfterAdd(items: seq<Item>, k: string, v: seq<real>, max: nat, threshold: real)
    requires max > 0 && Searchable(items, v) && NoEmptyKey(items) && k != ""
    requires Dot(v, v, |v|) > 0.0 && threshold <= SelfBound(Dot(v, v, |v|))
    ensures var t := AfterAdd(items, Item(v, k), max); Searchable(t, v) && Hits(t, v, threshold)
  {
    var t := AfterAdd(items, Item(v, k), max);
    SelfSimilarity(v);
    hide CosineOf, Dot, SelfBound;
    Added(items, Item(v, k), max, v);
    hide Searchable, NoEmptyKey, Hits, AfterAdd;
    HitsBy(t, v, threshold, |t| - 1);
  }

  predicate Huge(n: real, threshold: real) {
    threshold * threshold * n > FOUR_24
  }

  lemma BelowThreshold(c: real, n: real, threshold: real)
    requires threshold > 0.0 && n > 0.0 && Faint(c, n) && Huge(n, threshold)
    ensures c < threshold
  {
    Order(threshold * threshold, c * c, n);
    SquareOrder(threshold, threshold);
    if c > 0.0 { SquareOrder(threshold, c); }
  }

  /** Its converse: a search for a vector so large that |v|^2 exceeds 4^24 / threshold^2 never hits, whatever is
      stored, the vector itself included. */
  lemma HugeVectorsMiss(items: seq<Item>, v: seq<real>, threshold: real)
    requires threshold > 0.0 && Searchable(items, v) && Dot(v, v, |v|) > 0.0 && Huge(Dot(v, v, |v|), threshold)
    ensures !Hits(items, v, threshold)
  {
    hide CosineOf, Dot, Huge, Faint;
    forall i: nat | i < |items| ensures Score(items, v, i) < threshold {
      LargeVectorsDiffer(v, items[i].vec);
      BelowThreshold(Score(items, v, i), Dot(v, v, |v|), threshold);
    }
  }

  lemma SelfBelow(c: real, n: real, threshold: real)
    requires n > 0.0 && c * n <= FOUR_24 < threshold * n
    ensures c < threshold
  {
    Order(threshold, c, n);
  }

  lemma SelfMisses(v: seq<real>, threshold: real)
    requires Dot(v, v, |v|) > 0.0
    requires threshold * Dot(v, v, |v|) > FOUR_24 || Dot(v, v, |v|) * FOUR_24 < threshold
    ensures CosineOf(v, v) < threshold
  {
    hide CosineOf, Dot;
    SelfSimilarityFades(v);
    if threshold * Dot(v, v, |v|) > FOUR_24 { SelfBelow(CosineOf(v, v), Dot(v, v, |v|), threshold); }
  }

  /** When only the vector itself is stored, |v|^2 above 4^24 / threshold or below threshold / 4^24 is enough. */
  lemma AloneMisses(k: string, v: seq<real>, max: nat, threshold: real)
    requires max > 0 && Dot(v, v, |v|) > 0.0
    requires threshold * Dot(v, v, |v|) > FOUR_24 || Dot(v, v, |v|) * FOUR_24 < threshold
    ensures var t := AfterAdd([], Item(v, k), max); Searchable(t, v) && !Hits(t, v, threshold)
  {
    assert AfterAdd([], Item(v, k), max) == [Item(v, k)];
    hide CosineOf, Dot, AfterAdd;
    SelfMisses(v, threshold);
  }
}
