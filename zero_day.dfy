/**
 * The "Zero Day" scheme: each mode is ζ(ω) = z·2(ω/w)/(1 + (ω/w)²), a peak of height z
 * at the corner frequency w. A mode owns two raw slots, (w, z).
 */
module ZeroDay {
  import opened RealMath
  import opened Reparam

  const NumPara: nat := 2

  /** Mode parameters as `s` produces them: two entries, positive corner frequency. */
  predicate Admissible(p: seq<real>) {
    |p| == NumPara && p[0] > 0.0
  }

  /** |a·b| ≤ |a| when |b| ≤ 1. */
  lemma ScaledBelow(a: real, b: real)
    requires Abs(b) <= 1.0
    ensures Abs(a * b) <= Abs(a)
  {
    MulSign(Abs(a), 1.0 - Abs(b));
    if a < 0.0 && b < 0.0 {
      assert a * b == Abs(a) * Abs(b);
    } else if a < 0.0 {
      assert Abs(a * b) == Abs(a) * Abs(b);
    } else if b < 0.0 {
      assert Abs(a * b) == Abs(a) * Abs(b);
    } else {
      assert a * b == Abs(a) * Abs(b);
    }
  }

  /** 2t/(1 + t²): the unit-height peak in the relative frequency t = x/w. */
  function Shape(t: real): (r: real)
    ensures Abs(r) <= 1.0
    ensures t == 1.0 ==> r == 1.0
  {
    var d := 1.0 + Sq(t);
    var a := Abs(t);
    assert Sq(t) == Sq(a) by {
      if t < 0.0 {
        assert Mul(t, t) == Mul(-t, -t);
      }
    }
    assert Sq(a) - 2.0 * a + 1.0 == Sq(a - 1.0);
    assert 2.0 * a <= d;
    DivLe(2.0 * a, d, 1.0);
    assert t < 0.0 ==> Abs(2.0 * t / d) == 2.0 * a / d;
    2.0 * t / d
  }

  /** compute_response: the peak height bounds the response and is reached at x = w. */
  function Response(x: real, p: seq<real>): (r: real)
    requires Admissible(p)
    ensures Abs(r) <= Abs(p[1])
    ensures x == p[0] ==> r == p[1]
  {
    var w, z := p[0], p[1];
    ScaledBelow(z, Shape(x / w));
    z * Shape(x / w)
  }

  /** The response is linear in the peak height z. */
  lemma ResponseLinearInPeak(x: real, w: real, z: real)
    requires w > 0.0
    ensures Response(x, [w, z]) == z * Response(x, [w, 1.0])
  {
  }

  /** out(1) of compute_gradient: out(0)/w·(wr² − 1)/(wr² + 1). */
  function FrequencyEntry(out0: real, w: real, wr: real): real
    requires w > 0.0
  {
    out0 / w * (Sq(wr) - 1.0) / (1.0 + Sq(wr))
  }

  lemma FrequencyEntryAtCorner(out0: real, w: real)
    requires w > 0.0
    ensures FrequencyEntry(out0, w, 1.0) == 0.0
  {
    ZeroFactorQuotient(out0 / w, Sq(1.0) - 1.0, 1.0 + Sq(1.0));
  }

  /** compute_gradient: [response, ∂/∂w, ∂/∂z]. */
  function Gradient(x: real, p: seq<real>): (out: seq<real>)
    requires Admissible(p)
    ensures |out| == NumPara + 1
  {
    var w, z := p[0], p[1];
    var wr := x / w;
    var out2 := Shape(wr);
    var out0 := out2 * z;
    [out0, FrequencyEntry(out0, w, wr), out2]
  }

  /** out(0) is the response itself and out(2), its ∂/∂z, is the unit-height response. */
  lemma GradientResponse(x: real, p: seq<real>)
    requires Admissible(p)
    ensures Gradient(x, p)[0] == Response(x, p)
    ensures Gradient(x, p)[2] == Response(x, [p[0], 1.0])
  {
  }

  lemma FrequencySlotScaled(t: real, w: real, z: real, f: real)
    requires w > 0.0 && f > 0.0
    ensures (2.0 * t / f) * z / w * (Sq(t) - 1.0) / f * (f * w * f) == 2.0 * t * z * (Sq(t) - 1.0)
  {
    var q1 := 2.0 * t / f;
    var q2 := q1 * z;
    var q3 := q2 / w;
    var q4 := q3 * (Sq(t) - 1.0);
    var l := q4 / f;
    assert l * f == q4;
    assert q3 * w == q2;
    assert q1 * f == 2.0 * t;
    assert l * (f * w * f) == (l * f) * w * f;
    assert (l * f) * w == q2 * (Sq(t) - 1.0);
  }

  lemma QuotientRuleScaled(t: real, w: real, z: real, f: real, r: real)
    requires w > 0.0 && f == 1.0 + Sq(t)
    requires r * Sq(Sq(t * w) + Sq(w)) == z * 2.0 * (t * w) * (Sq(t * w) - Sq(w))
    ensures r * (f * w * f) == 2.0 * t * z * (Sq(t) - 1.0)
  {
    var ww := Sq(w);
    MulSign(w, w);
    assert Sq(t * w) == Sq(t) * ww;
    var s := Sq(t * w) + ww;
    assert s == f * ww;
    assert Sq(s) == (f * w * f) * (w * ww);
    var k := 2.0 * t * z * (Sq(t) - 1.0);
    assert z * 2.0 * (t * w) * (Sq(t * w) - ww) == k * (w * ww);
    MulSign(w, ww);
    assert w * ww != 0.0;
    assert (r * (f * w * f)) * (w * ww) == r * Sq(s);
    assert (r * (f * w * f)) * (w * ww) == k * (w * ww);
    Cancel(r * (f * w * f), k, w * ww);
  }

  /** The frequency slot of compute_gradient, cleared of its nested quotients. */
  lemma FrequencySlotAlgebra(x: real, w: real, z: real)
    requires w > 0.0
    ensures (2.0 * (x / w) / (1.0 + Sq(x / w))) * z / w * (Sq(x / w) - 1.0) / (1.0 + Sq(x / w))
         == z * 2.0 * x * (Sq(x) - Sq(w)) / Sq(Sq(x) + Sq(w))
  {
    var t := x / w;
    var f := 1.0 + Sq(t);
    assert x == t * w;
    var s := Sq(x) + Sq(w);
    var r := z * 2.0 * x * (Sq(x) - Sq(w)) / Sq(s);
    assert r * Sq(s) == z * 2.0 * x * (Sq(x) - Sq(w));
    FrequencySlotScaled(t, w, z, f);
    QuotientRuleScaled(t, w, z, f, r);
    MulSign(f, w);
    MulSign(f * w, f);
    Cancel(r, (2.0 * t / f) * z / w * (Sq(t) - 1.0) / f, f * w * f);
    assert r == (2.0 * t / f) * z / w * (Sq(t) - 1.0) / f;
  }

  /**
   * The ∂/∂w entry is the quotient-rule derivative of z·2xw/(x² + w²) with respect to w,
   * written in the original variables.
   */
  lemma GradientFrequencySlot(x: real, w: real, z: real)
    requires w > 0.0
    ensures Gradient(x, [w, z])[1] == z * 2.0 * x * (Sq(x) - Sq(w)) / Sq(Sq(x) + Sq(w))
  {
    FrequencySlotAlgebra(x, w, z);
  }

  /** At the corner frequency the frequency derivative vanishes: the peak is flat there. */
  lemma GradientAtCorner(w: real, z: real)
    requires w > 0.0
    ensures Gradient(w, [w, z])[0] == z
    ensures Gradient(w, [w, z])[1] == 0.0
  {
    GradientResponse(w, [w, z]);
    DivSelf(w);
    FrequencyEntryAtCorner(Gradient(w, [w, z])[0], w);
  }

  /** s: the corner frequency inside the sampled decade span, the height in (0, max ζ). */
  function S(e: Elementary, b: Bounds, p: seq<real>): (sp: seq<real>)
    requires Sound(e) && |p| == NumPara
    ensures Admissible(sp)
    ensures b.rangeOmega > 0.0 ==>
      e.pow(10.0, b.minOmega) < sp[0] < e.pow(10.0, b.minOmega + b.rangeOmega)
    ensures b.maxZeta > 0.0 ==> 0.0 < sp[1] < b.maxZeta
  {
    [Frequency(e, b, p[0]), Squash(e, b.maxZeta, p[1])]
  }

  /**
   * ds: the jacobian of `s`. The frequency entry is the chain rule through 10^u,
   * ln(10)·10^u·u'; the height entry is the squash slope, at most max ζ/4.
   */
  function DS(e: Elementary, b: Bounds, p: seq<real>): (d: seq<real>)
    requires Sound(e) && |p| == NumPara
    ensures |d| == NumPara
    ensures d[0] == e.ln(10.0) * Frequency(e, b, p[0]) * SquashSlope(e, b.rangeOmega, p[0])
    ensures b.rangeOmega > 0.0 ==> d[0] > 0.0
    ensures d[1] == SquashSlope(e, b.maxZeta, p[1])
    ensures b.maxZeta > 0.0 ==> 0.0 < d[1] <= b.maxZeta / 4.0
  {
    [FrequencySlope(e, b, p[0]), SquashSlope(e, b.maxZeta, p[1])]
  }

}
