/**
 * The "Unicorn" scheme: each mode is ζ(ω) = z·cosh(ln(ω/w))^(−2n−1), a bell in log-frequency
 * whose width is set by the order n. A mode owns three raw slots, (w, z, n), and the
 * optimiser is nudged towards whole orders by a soft-integer penalty.
 */
module Unicorn {
  import opened RealMath
  import opened Reparam

  const NumPara: nat := 3

  /** Mode parameters as `s` produces them: three entries, positive corner frequency. */
  predicate Admissible(p: seq<real>) {
    |p| == NumPara && p[0] > 0.0
  }

  /** cosh(ln(x/w))^(−2n−1): the unit-height bell, positive everywhere. */
  function Bell(e: Elementary, x: real, w: real, n: real): (r: real)
    requires Sound(e) && x > 0.0 && w > 0.0
    ensures r > 0.0
    ensures x == w ==> r == 1.0
  {
    e.pow(CoshLog(x, w), -2.0 * n - 1.0)
  }

  /** compute_response: height z at the corner, the sign of z everywhere. */
  function Response(e: Elementary, x: real, p: seq<real>): (r: real)
    requires Sound(e) && x > 0.0 && Admissible(p)
    ensures x == p[0] ==> r == p[1]
    ensures p[1] > 0.0 ==> r > 0.0
    ensures p[1] == 0.0 ==> r == 0.0
  {
    MulSign(p[1], Bell(e, x, p[0], p[2]));
    p[1] * Bell(e, x, p[0], p[2])
  }

  /** out(1) of compute_gradient: (2n + 1)·out(0)/cosh·sinh/w. */
  function FrequencyEntry(n: real, out0: real, c: real, s: real, w: real): real
    requires c != 0.0 && w != 0.0
  {
    (2.0 * n + 1.0) * out0 / c * s / w
  }

  /** out(3) of compute_gradient: −2·out(2)·z·ln(cosh). */
  function OrderEntry(e: Elementary, out2: real, z: real, c: real): real {
    -2.0 * out2 * z * e.ln(c)
  }

  /** compute_gradient: [response, ∂/∂w, ∂/∂z, ∂/∂n]. */
  function Gradient(e: Elementary, x: real, p: seq<real>): (out: seq<real>)
    requires Sound(e) && x > 0.0 && Admissible(p)
    ensures |out| == NumPara + 1
  {
    var w, z, n := p[0], p[1], p[2];
    var c := CoshLog(x, w);
    var out2 := Bell(e, x, w, n);
    var out0 := z * out2;
    [out0, FrequencyEntry(n, out0, c, SinhLog(x, w), w), out2, OrderEntry(e, out2, z, c)]
  }

  /** out(0) is the response and out(2), its ∂/∂z, is the unit-height response. */
  lemma GradientResponse(e: Elementary, x: real, p: seq<real>)
    requires Sound(e) && x > 0.0 && Admissible(p)
    ensures Gradient(e, x, p)[0] == Response(e, x, p)
    ensures Gradient(e, x, p)[2] == Response(e, x, [p[0], 1.0, p[2]])
  {
  }

  /** At the corner the bell peaks at z and both shape derivatives vanish. */
  lemma GradientAtCorner(e: Elementary, w: real, z: real, n: real)
    requires Sound(e) && w > 0.0
    ensures Gradient(e, w, [w, z, n])[0] == z
    ensures Gradient(e, w, [w, z, n])[1] == 0.0
    ensures Gradient(e, w, [w, z, n])[3] == 0.0
  {
    var c := CoshLog(w, w);
    var out0 := Gradient(e, w, [w, z, n])[0];
    ZeroFactorQuotient((2.0 * n + 1.0) * out0 / c, SinhLog(w, w), w);
    assert e.ln(c) == 0.0;
  }

  /** s: frequency and height as in Zero Day, the order squashed into (0, max order). */
  function S(e: Elementary, b: Bounds, p: seq<real>): (sp: seq<real>)
    requires Sound(e) && |p| == NumPara
    ensures Admissible(sp)
    ensures b.rangeOmega > 0.0 ==>
      e.pow(10.0, b.minOmega) < sp[0] < e.pow(10.0, b.minOmega + b.rangeOmega)
    ensures b.maxZeta > 0.0 ==> 0.0 < sp[1] < b.maxZeta
    ensures b.maxOrder > 0 ==> 0.0 < sp[2] < b.maxOrder as real
    ensures b.maxOrder >= 0 ==> sp[2] >= 0.0
  {
    [Frequency(e, b, p[0]), Squash(e, b.maxZeta, p[1]), Squash(e, b.maxOrder as real, p[2])]
  }

  /**
   * ds: the jacobian of `s`. The frequency entry is the chain rule through 10^u; the height
   * and order entries are squash slopes, at most a quarter of their scale.
   */
  function DS(e: Elementary, b: Bounds, p: seq<real>): (d: seq<real>)
    requires Sound(e) && |p| == NumPara
    ensures |d| == NumPara
    ensures d[0] == e.ln(10.0) * Frequency(e, b, p[0]) * SquashSlope(e, b.rangeOmega, p[0])
    ensures b.rangeOmega > 0.0 ==> d[0] > 0.0
    ensures d[1] == SquashSlope(e, b.maxZeta, p[1])
    ensures d[2] == SquashSlope(e, b.maxOrder as real, p[2])
    ensures b.maxOrder > 0 ==> 0.0 < d[2] <= b.maxOrder as real / 4.0
  {
    [FrequencySlope(e, b, p[0]), SquashSlope(e, b.maxZeta, p[1]), SquashSlope(e, b.maxOrder as real, p[2])]
  }


  /** NumConstraints: one soft-integer constraint per mode. */
  function NumConstraints(numModes: nat): nat {
    numModes
  }

  /** EvaluateConstraint(i): weight·decimal(n_i)², the penalty share of mode i. */
  function EvaluateConstraint(e: Elementary, b: Bounds, weight: real, i: nat, x: seq<real>): (r: real)
    requires Sound(e) && NumPara * i + NumPara <= |x|
    ensures weight >= 0.0 ==> r >= 0.0
    ensures weight > 0.0 ==> (r == 0.0 <==> IsInteger(S(e, b, Slice(x, NumPara, i))[2]))
  {
    PenaltyTerm(weight, S(e, b, Slice(x, NumPara, i))[2])
  }

  /**
   * The derivative of weight·decimal(n)² with respect to the raw order slot, by the chain rule
   * through `s`: 2·weight·decimal(n)·ds. It vanishes exactly when the order is whole (for a
   * positive weight and a positive max order).
   */
  function OrderPenaltySlope(e: Elementary, b: Bounds, weight: real, p: seq<real>): (r: real)
    requires Sound(e) && |p| == NumPara
    ensures weight > 0.0 && b.maxOrder > 0 ==> (r == 0.0 <==> IsInteger(S(e, b, p)[2]))
  {
    PenaltySlope(weight, S(e, b, p)[2], DS(e, b, p)[2])
  }

  /** GradientConstraint(i): zero except at the order slot 3i + 2 of mode i. */
  function GradientConstraint(e: Elementary, b: Bounds, weight: real, i: nat, x: seq<real>): (g: seq<real>)
    requires Sound(e) && NumPara * i + NumPara <= |x|
    ensures |g| == |x|
    ensures forall k :: 0 <= k < |x| && k != NumPara * i + 2 ==> g[k] == 0.0
    ensures g[NumPara * i + 2] == OrderPenaltySlope(e, b, weight, Slice(x, NumPara, i))
  {
    Spike(|x|, NumPara * i + 2, OrderPenaltySlope(e, b, weight, Slice(x, NumPara, i)))
  }
}
