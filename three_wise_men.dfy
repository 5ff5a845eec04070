/**
 * The "Three Wise Men" scheme: each mode is ζ(ω) = z·(1 + γ)·c/(c² + γ) with
 * c = cosh(ln(ω/w)), a peak of height z at ω = w whose flank is shaped by γ. A mode owns
 * three raw slots, (w, z, γ); `s` maps the γ slot to p² − 0.98, so γ ≥ −0.98 and the
 * denominator c² + γ stays at least 0.02. With the exact rational form of cosh(ln r) the whole
 * scheme is rational arithmetic.
 */
module ThreeWiseMen {
  import opened RealMath
  import opened Reparam

  const NumPara: nat := 3

  /** The smallest γ that `s` produces. */
  const GammaFloor: real := -0.98

  /** Mode parameters as `s` produces them. */
  predicate Admissible(p: seq<real>) {
    |p| == NumPara && p[0] > 0.0 && p[2] >= GammaFloor
  }

  /** c ≥ 1 implies c² ≥ 1, with equality only at c = 1. */
  lemma SquareAtLeastOne(c: real)
    requires c >= 1.0
    ensures c * c >= 1.0
    ensures c * c == 1.0 <==> c == 1.0
  {
    MulSign(c - 1.0, c + 1.0);
    assert Mul(c - 1.0, c + 1.0) == c * c - 1.0;
  }

  /** c² + γ: at least 0.02 for c ≥ 1 and γ ≥ −0.98, so no entry divides by zero. */
  function Factor(c: real, g: real): (f: real)
    requires c >= 1.0 && g >= GammaFloor
    ensures f >= 0.02
    ensures f >= 1.0 + g
  {
    SquareAtLeastOne(c);
    c * c + g
  }

  /** (1 + γ)·c/(c² + γ): the unit-height mode as a function of c = cosh(ln(x/w)). */
  function Shape(c: real, g: real): (r: real)
    requires c >= 1.0 && g >= GammaFloor
    ensures c == 1.0 ==> r == 1.0
    ensures r > 0.0
  {
    var f := Factor(c, g);
    assert c == 1.0 ==> f == 1.0 + g;
    DivSelf(1.0 + g);
    MulSign(1.0 + g, c);
    DivPositive((1.0 + g) * c, f);
    (1.0 + g) * c / f
  }

  /** compute_response: height z at the corner, the sign of z everywhere. */
  function Response(x: real, p: seq<real>): (r: real)
    requires x > 0.0 && Admissible(p)
    ensures x == p[0] ==> r == p[1]
    ensures p[1] > 0.0 ==> r > 0.0
    ensures p[1] == 0.0 ==> r == 0.0
  {
    var w, z, g := p[0], p[1], p[2];
    var c := CoshLog(x, w);
    MulSign(z, Shape(c, g));
    z * Shape(c, g)
  }

  /** out(1) of compute_gradient: z·(1 + γ)·(c² − γ)·sinh/w·factor^(−2). */
  function FrequencyEntry(z: real, g: real, c: real, s: real, w: real): real
    requires c >= 1.0 && g >= GammaFloor && w > 0.0
  {
    z * (1.0 + g) * (c * c - g) * s / w * (1.0 / Sq(Factor(c, g)))
  }

  /** out(3) of compute_gradient: c·(c² − 1)·z·factor^(−2). */
  function GammaEntry(z: real, g: real, c: real): real
    requires c >= 1.0 && g >= GammaFloor
  {
    c * (c * c - 1.0) * z * (1.0 / Sq(Factor(c, g)))
  }

  /** compute_gradient: [response, ∂/∂w, ∂/∂z, ∂/∂γ]. */
  function Gradient(x: real, p: seq<real>): (out: seq<real>)
    requires x > 0.0 && Admissible(p)
    ensures |out| == NumPara + 1
  {
    var w, z, g := p[0], p[1], p[2];
    var c := CoshLog(x, w);
    var out2 := Shape(c, g);
    [z * out2, FrequencyEntry(z, g, c, SinhLog(x, w), w), out2, GammaEntry(z, g, c)]
  }

  /** out(0) = z·out(2) is the response itself; out(2) is the unit-height response. */
  lemma GradientResponse(x: real, p: seq<real>)
    requires x > 0.0 && Admissible(p)
    ensures Gradient(x, p)[0] == Response(x, p)
    ensures Gradient(x, p)[2] == Response(x, [p[0], 1.0, p[2]])
  {
  }

  /** At the corner (c = 1, sinh = 0) the peak is z and the ∂/∂w and ∂/∂γ entries vanish. */
  lemma GradientAtCorner(w: real, z: real, g: real)
    requires w > 0.0 && g >= GammaFloor
    ensures Gradient(w, [w, z, g])[0] == z
    ensures Gradient(w, [w, z, g])[1] == 0.0
    ensures Gradient(w, [w, z, g])[3] == 0.0
  {
    GradientResponse(w, [w, z, g]);
    var c := CoshLog(w, w);
    assert c == 1.0;
    var s := SinhLog(w, w);
    assert s == 0.0;
    ZeroFactorQuotient(z * (1.0 + g) * (c * c - g), s, w);
  }

  /**
   * The γ entry is the derivative of the response in γ: for any two γ values the response
   * difference is (γ1 − γ2)·z·c·(c² − 1)/(factor1·factor2), and at γ1 = γ2 that slope is out(3).
   */
  lemma GammaSecant(c: real, z: real, g1: real, g2: real)
    requires c >= 1.0 && g1 >= GammaFloor && g2 >= GammaFloor
    ensures z * Shape(c, g1) - z * Shape(c, g2)
         == (g1 - g2) * (z * c * (c * c - 1.0) / (Factor(c, g1) * Factor(c, g2)))
  {
    var f1, f2 := Factor(c, g1), Factor(c, g2);
    var a1, a2 := (1.0 + g1) * c, (1.0 + g2) * c;
    var u, m := g1 - g2, c * c - 1.0;
    var d := u * c * m;
    CrossDifference(c, g1, g2);
    QuotientDifference(z, a1, a2, f1, f2, d);
    ScaledQuotient(z, u, c, m, f1 * f2);
  }

  /** The numerator of the difference of two shapes over their common denominator. */
  lemma CrossDifference(c: real, g1: real, g2: real)
    ensures (1.0 + g1) * c * (c * c + g2) - (1.0 + g2) * c * (c * c + g1) == (g1 - g2) * c * (c * c - 1.0)
  {
  }

  /** z·a1/f1 − z·a2/f2 = z·(a1·f2 − a2·f1)/(f1·f2) for positive denominators. */
  lemma QuotientDifference(z: real, a1: real, a2: real, f1: real, f2: real, d: real)
    requires f1 > 0.0 && f2 > 0.0 && a1 * f2 - a2 * f1 == d
    ensures f1 * f2 > 0.0
    ensures z * (a1 / f1) - z * (a2 / f2) == z * d / (f1 * f2)
  {
    var q1, q2 := a1 / f1, a2 / f2;
    assert q1 * f1 == a1 && q2 * f2 == a2;
    var w := f1 * f2;
    assert w > 0.0;
    var lhs := z * q1 - z * q2;
    assert lhs * w == z * (q1 * f1) * f2 - z * (q2 * f2) * f1;
    assert lhs * w == z * d;
    assert (z * d / w) * w == z * d;
    Cancel(lhs, z * d / w, w);
  }

  /** z·(u·c·m)/w = u·(z·c·m/w). */
  lemma ScaledQuotient(z: real, u: real, c: real, m: real, w: real)
    requires w != 0.0
    ensures z * (u * c * m) / w == u * (z * c * m / w)
  {
    assert z * (u * c * m) == u * (z * c * m);
  }

  /** out(3) is the secant slope of `GammaSecant` at γ1 = γ2. */
  lemma GammaEntryIsSlope(x: real, p: seq<real>)
    requires x > 0.0 && Admissible(p)
    ensures Gradient(x, p)[3]
         == p[1] * CoshLog(x, p[0]) * (Sq(CoshLog(x, p[0])) - 1.0)
            / (Factor(CoshLog(x, p[0]), p[2]) * Factor(CoshLog(x, p[0]), p[2]))
  {
    var c, z, g := CoshLog(x, p[0]), p[1], p[2];
    var f := Factor(c, g);
    MulSign(f, f);
    var k := c * (c * c - 1.0) * z;
    assert k * (1.0 / Sq(f)) == k / (f * f);
  }

  /** γ = p² − 0.98 from the raw slot: never below −0.98. */
  function GammaOf(p: real): (g: real)
    ensures g >= GammaFloor
  {
    MulSign(p, p);
    assert p * p >= 0.0 by {
      assert Mul(p, p) == p * p;
    }
    p * p - 0.98
  }

  /** s: frequency and height as in Zero Day, γ = p2² − 0.98. */
  function S(e: Elementary, b: Bounds, p: seq<real>): (sp: seq<real>)
    requires Sound(e) && |p| == NumPara
    ensures Admissible(sp)
    ensures b.rangeOmega > 0.0 ==>
      e.pow(10.0, b.minOmega) < sp[0] < e.pow(10.0, b.minOmega + b.rangeOmega)
    ensures b.maxZeta > 0.0 ==> 0.0 < sp[1] < b.maxZeta
    ensures sp[2] == GammaOf(p[2])
  {
    [Frequency(e, b, p[0]), Squash(e, b.maxZeta, p[1]), GammaOf(p[2])]
  }

  /** ds: the jacobian of `s`; the γ entry is 2·p2. */
  function DS(e: Elementary, b: Bounds, p: seq<real>): (d: seq<real>)
    requires Sound(e) && |p| == NumPara
    ensures |d| == NumPara
    ensures d[0] == e.ln(10.0) * Frequency(e, b, p[0]) * SquashSlope(e, b.rangeOmega, p[0])
    ensures b.rangeOmega > 0.0 ==> d[0] > 0.0
    ensures d[1] == SquashSlope(e, b.maxZeta, p[1])
    ensures b.maxZeta > 0.0 ==> 0.0 < d[1] <= b.maxZeta / 4.0
    ensures d[2] == 2.0 * p[2]
  {
    [FrequencySlope(e, b, p[0]), SquashSlope(e, b.maxZeta, p[1]), 2.0 * p[2]]
  }

  /**
   * ds(2) = 2·p2 is the exact derivative of the γ map: its secant between two raw values u and
   * v is u + v, the mean of their ds(2) entries, and that is 2u when the two coincide.
   */
  lemma GammaOfSecant(u: real, v: real)
    ensures GammaOf(u) - GammaOf(v) == (u - v) * (u + v)
  {
  }
}
