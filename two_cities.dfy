/**
 * The "Two Cities" scheme: each mode is
 *   ζ(ω) = z·(1 + r)·(ω/w)^(2nl+1) / (1 + r·(ω/w)^(2(1+nr+nl))),   r = (2nl+1)/(2nr+1),
 * a peak of height z at ω = w whose left and right slopes are set by two orders (nl, nr).
 * A mode owns four raw slots, (w, z, nr, nl), and both orders carry a soft-integer penalty.
 */
module TwoCities {
  import opened RealMath
  import opened Reparam

  const NumPara: nat := 4

  /** Mode parameters as `s` produces them (for a non-negative max order). */
  predicate Admissible(p: seq<real>) {
    |p| == NumPara && p[0] > 0.0 && p[2] >= 0.0 && p[3] >= 0.0
  }

  /** r = (2nl + 1)/(2nr + 1): its denominator is at least 1 and the ratio is positive. */
  function Ratio(nr: real, nl: real): (r: real)
    requires nr >= 0.0 && nl >= 0.0
    ensures r > 0.0
  {
    assert 2.0 * nr + 1.0 >= 1.0;
    DivPositive(2.0 * nl + 1.0, 2.0 * nr + 1.0);
    (2.0 * nl + 1.0) / (2.0 * nr + 1.0)
  }

  /** 1 + r·xr^(2·nps), the denominator of the response, positive for r > 0. */
  function Denominator(e: Elementary, xr: real, r: real, nps: real): (fb: real)
    requires Sound(e) && xr > 0.0 && r > 0.0
    ensures fb > 1.0
  {
    MulSign(r, e.pow(xr, 2.0 * nps));
    1.0 + r * e.pow(xr, 2.0 * nps)
  }

  /** compute_response: the height z is reached at the corner, the sign of z is kept. */
  function Response(e: Elementary, x: real, p: seq<real>): (v: real)
    requires Sound(e) && x > 0.0 && Admissible(p)
    ensures x == p[0] ==> v == p[1]
    ensures p[1] > 0.0 ==> v > 0.0
    ensures p[1] == 0.0 ==> v == 0.0
  {
    var w, z, nr, nl := p[0], p[1], p[2], p[3];
    var r := Ratio(nr, nl);
    var xr := x / w;
    DivPositive(x, w);
    var fb := Denominator(e, xr, r, 1.0 + nr + nl);
    var a := z * (1.0 + r) * e.pow(xr, 2.0 * nl + 1.0);
    assert x == w ==> a / fb == z by {
      if x == w {
        DivSelf(w);
        assert fb == 1.0 + r;
        assert a == z * (1.0 + r);
      }
    }
    MulSign(z, 1.0 + r);
    MulSign(z * (1.0 + r), e.pow(xr, 2.0 * nl + 1.0));
    assert z > 0.0 ==> a / fb > 0.0 by {
      if z > 0.0 {
        DivPositive(a, fb);
      }
    }
    a / fb
  }

  /** aw (with fc) and bw (with fe): −2·f·ra·nps/(w·rb). */
  function FrequencyTerm(f: real, ra: real, rb: real, nps: real, w: real): real
    requires w > 0.0 && rb >= 1.0
  {
    MulSign(w, rb);
    -2.0 * f * ra * nps / (w * rb)
  }

  /** anr: −fc·(nl + 0.5)/fd. */
  function RightTermA(fc: real, nl: real, fd: real): real
    requires fd > 0.0
  {
    -fc * (1.0 * nl + 0.5) / fd
  }

  /** bnr: fe·ra·(2·fd·log(xr) − nr − 0.5)/(fd·rb). */
  function RightTermB(fe: real, ra: real, rb: real, fd: real, lg: real, nr: real): real
    requires fd > 0.0 && rb >= 1.0
  {
    MulSign(fd, rb);
    fe * ra * (2.0 * fd * lg - nr - 0.5) / (fd * rb)
  }

  /** anl: fc·(4·nps·log(xr) + 2)/rb. */
  function LeftTermA(fc: real, nps: real, lg: real, rb: real): real
    requires rb >= 1.0
  {
    fc * (4.0 * nps * lg + 2.0) / rb
  }

  /** bnl: 2·fe·(ra·log(xr) + 1)/rb. */
  function LeftTermB(fe: real, ra: real, lg: real, rb: real): real
    requires rb >= 1.0
  {
    2.0 * fe * (ra * lg + 1.0) / rb
  }

  /** z/fb·(a − out(2)·b): the quotient rule shared by out(1), out(3) and out(4). */
  function QuotientEntry(z: real, fb: real, a: real, out2: real, b: real): real
    requires fb > 0.0
  {
    z / fb * (a - out2 * b)
  }

  /** compute_gradient: [response, ∂/∂w, ∂/∂z, ∂/∂nr, ∂/∂nl]. */
  function Gradient(e: Elementary, x: real, p: seq<real>): (out: seq<real>)
    requires Sound(e) && x > 0.0 && Admissible(p)
    ensures |out| == NumPara + 1
  {
    var w, z, nr, nl := p[0], p[1], p[2], p[3];
    DivPositive(x, w);
    var xr := x / w;
    var nps := 1.0 + nr + nl;
    var ra := 2.0 * nl + 1.0;
    var rb := 2.0 * nr + 1.0;
    var r := Ratio(nr, nl);
    var fa := (1.0 + r) * e.pow(xr, 2.0 * nl + 1.0);
    var fb := Denominator(e, xr, r, nps);
    var fc := e.pow(xr, ra);
    var fd := Sq(nr + 0.5);
    var fe := e.pow(xr, 2.0 * nps);
    var lg := e.ln(xr);
    var out2 := fa / fb;
    [z * out2,
     QuotientEntry(z, fb, FrequencyTerm(fc, ra, rb, nps, w), out2, FrequencyTerm(fe, ra, rb, nps, w)),
     out2,
     QuotientEntry(z, fb, RightTermA(fc, nl, fd), out2, RightTermB(fe, ra, rb, fd, lg, nr)),
     QuotientEntry(z, fb, LeftTermA(fc, nps, lg, rb), out2, LeftTermB(fe, ra, lg, rb))]
  }

  /** out(0) = z·out(2) is the response itself; out(2) is the unit-height response. */
  lemma GradientResponse(e: Elementary, x: real, p: seq<real>)
    requires Sound(e) && x > 0.0 && Admissible(p)
    ensures Gradient(e, x, p)[0] == Response(e, x, p)
    ensures Gradient(e, x, p)[2] == Response(e, x, [p[0], 1.0, p[2], p[3]])
  {
    var w, z, nr, nl := p[0], p[1], p[2], p[3];
    var xr := x / w;
    var r := Ratio(nr, nl);
    var fb := Denominator(e, xr, r, 1.0 + nr + nl);
    MulDivAssoc(z, (1.0 + r) * e.pow(xr, 2.0 * nl + 1.0), fb);
  }

  /** The right-order terms agree when log(xr) = 0 and both powers are 1. */
  lemma RightTermsAtCorner(nr: real, nl: real)
    requires nr >= 0.0 && nl >= 0.0
    ensures RightTermB(1.0, 2.0 * nl + 1.0, 2.0 * nr + 1.0, Sq(nr + 0.5), 0.0, nr)
         == RightTermA(1.0, nl, Sq(nr + 0.5))
  {
    var fd := Sq(nr + 0.5);
    var ra, rb := 2.0 * nl + 1.0, 2.0 * nr + 1.0;
    var lhs := 1.0 * ra * (2.0 * fd * 0.0 - nr - 0.5) / (fd * rb);
    var rhs := -1.0 * (1.0 * nl + 0.5) / fd;
    MulSign(fd, rb);
    assert lhs * (fd * rb) == -(ra * (nr + 0.5));
    assert rhs * fd == -(nl + 0.5);
    assert rhs * (fd * rb) == -((nl + 0.5) * rb);
    assert ra * (nr + 0.5) == (nl + 0.5) * rb;
    Cancel(lhs, rhs, fd * rb);
  }

  /** A quotient-rule entry vanishes when out(2) = 1 and its two terms agree. */
  lemma QuotientEntryVanishes(z: real, fb: real, a: real)
    requires fb > 0.0
    ensures QuotientEntry(z, fb, a, 1.0, a) == 0.0
  {
  }

  /** At the corner the peak is z and the ∂/∂w, ∂/∂nr and ∂/∂nl entries all vanish. */
  lemma GradientAtCorner(e: Elementary, w: real, z: real, nr: real, nl: real)
    requires Sound(e) && w > 0.0 && nr >= 0.0 && nl >= 0.0
    ensures Gradient(e, w, [w, z, nr, nl])[0] == z
    ensures Gradient(e, w, [w, z, nr, nl])[1] == 0.0
    ensures Gradient(e, w, [w, z, nr, nl])[3] == 0.0
    ensures Gradient(e, w, [w, z, nr, nl])[4] == 0.0
  {
    var p := [w, z, nr, nl];
    GradientResponse(e, w, p);
    DivSelf(w);
    var nps := 1.0 + nr + nl;
    var ra, rb := 2.0 * nl + 1.0, 2.0 * nr + 1.0;
    var r := Ratio(nr, nl);
    var fb := Denominator(e, 1.0, r, nps);
    assert fb == 1.0 + r;
    var fa := (1.0 + r) * e.pow(1.0, 2.0 * nl + 1.0);
    assert fa == 1.0 + r;
    DivSelf(fb);
    assert fa / fb == 1.0;
    assert e.ln(1.0) == 0.0;
    RightTermsAtCorner(nr, nl);
    QuotientEntryVanishes(z, fb, FrequencyTerm(1.0, ra, rb, nps, w));
    QuotientEntryVanishes(z, fb, RightTermA(1.0, nl, Sq(nr + 0.5)));
    QuotientEntryVanishes(z, fb, LeftTermA(1.0, nps, 0.0, rb));
  }

  /** s: frequency and height as in Zero Day, both orders squashed into (0, max order). */
  function S(e: Elementary, b: Bounds, p: seq<real>): (sp: seq<real>)
    requires Sound(e) && |p| == NumPara
    ensures |sp| == NumPara && sp[0] > 0.0
    ensures b.maxOrder >= 0 ==> Admissible(sp)
    ensures b.rangeOmega > 0.0 ==>
      e.pow(10.0, b.minOmega) < sp[0] < e.pow(10.0, b.minOmega + b.rangeOmega)
    ensures b.maxZeta > 0.0 ==> 0.0 < sp[1] < b.maxZeta
    ensures b.maxOrder > 0 ==> 0.0 < sp[2] < b.maxOrder as real && 0.0 < sp[3] < b.maxOrder as real
    ensures sp[2] == Squash(e, b.maxOrder as real, p[2]) && sp[3] == Squash(e, b.maxOrder as real, p[3])
  {
    [Frequency(e, b, p[0]), Squash(e, b.maxZeta, p[1]),
     Squash(e, b.maxOrder as real, p[2]), Squash(e, b.maxOrder as real, p[3])]
  }

  /** ds: the jacobian of `s`; both order entries have the max-order squash-slope form. */
  function DS(e: Elementary, b: Bounds, p: seq<real>): (d: seq<real>)
    requires Sound(e) && |p| == NumPara
    ensures |d| == NumPara
    ensures d[0] == e.ln(10.0) * Frequency(e, b, p[0]) * SquashSlope(e, b.rangeOmega, p[0])
    ensures b.rangeOmega > 0.0 ==> d[0] > 0.0
    ensures d[1] == SquashSlope(e, b.maxZeta, p[1])
    ensures d[2] == SquashSlope(e, b.maxOrder as real, p[2])
    ensures d[3] == SquashSlope(e, b.maxOrder as real, p[3])
    ensures b.maxOrder > 0 ==> 0.0 < d[2] <= b.maxOrder as real / 4.0 && 0.0 < d[3] <= b.maxOrder as real / 4.0
  {
    [FrequencySlope(e, b, p[0]), SquashSlope(e, b.maxZeta, p[1]),
     SquashSlope(e, b.maxOrder as real, p[2]), SquashSlope(e, b.maxOrder as real, p[3])]
  }

  /** NumConstraints: two soft-integer constraints (nr and nl) per mode. */
  function NumConstraints(numModes: nat): (k: nat)
    ensures k == 2 * numModes
  {
    2 * numModes
  }

  /** Constraint i belongs to mode i/2 and to its order slot i%2 + 2 (nr for even i, nl for odd). */
  function ConstraintSlot(i: nat): (slot: nat)
    ensures slot == 2 || slot == 3
    ensures slot == 2 <==> i % 2 == 0
  {
    i % 2 + 2
  }

  /** The flat raw index that constraint i acts on. */
  function ConstraintIndex(i: nat): (k: nat)
    ensures k == NumPara * (i / 2) + ConstraintSlot(i)
  {
    NumPara * (i / 2) + i % 2 + 2
  }

  /**
   * Constraint indices are distinct, and constraints 2J and 2J + 1 act on exactly the order
   * slots 4J + 2 and 4J + 3 of mode J: the map is a bijection onto the penalised slots.
   */
  lemma ConstraintIndexBijective(i: nat, j: nat, mode: nat)
    ensures ConstraintIndex(i) == ConstraintIndex(j) <==> i == j
    ensures ConstraintIndex(2 * mode) == NumPara * mode + 2
    ensures ConstraintIndex(2 * mode + 1) == NumPara * mode + 3
    ensures ConstraintIndex(i) % NumPara >= 2
  {
    assert (2 * mode) / 2 == mode && (2 * mode) % 2 == 0;
    assert (2 * mode + 1) / 2 == mode && (2 * mode + 1) % 2 == 1;
    if ConstraintIndex(i) == ConstraintIndex(j) {
      assert i / 2 == j / 2 && i % 2 == j % 2;
      assert i == 2 * (i / 2) + i % 2;
      assert j == 2 * (j / 2) + j % 2;
    }
  }

  /** A constraint's slot range lies inside x whenever its mode does. */
  lemma ConstraintInRange(i: nat, numModes: nat)
    requires i < NumConstraints(numModes)
    ensures NumPara * (i / 2) + NumPara <= NumPara * numModes
    ensures ConstraintIndex(i) < NumPara * numModes
  {
  }

  /** EvaluateConstraint(i): weight·decimal(order)² for the order that constraint i names. */
  function EvaluateConstraint(e: Elementary, b: Bounds, weight: real, i: nat, x: seq<real>): (v: real)
    requires Sound(e) && NumPara * (i / 2) + NumPara <= |x|
    ensures weight >= 0.0 ==> v >= 0.0
    ensures weight > 0.0 ==> (v == 0.0 <==> IsInteger(S(e, b, Slice(x, NumPara, i / 2))[ConstraintSlot(i)]))
  {
    PenaltyTerm(weight, S(e, b, Slice(x, NumPara, i / 2))[ConstraintSlot(i)])
  }

  /** 2·weight·decimal(order)·ds(order): the derivative of a penalty term in its raw slot. */
  function OrderPenaltySlope(e: Elementary, b: Bounds, weight: real, p: seq<real>, slot: nat): (v: real)
    requires Sound(e) && |p| == NumPara && 2 <= slot < NumPara
    ensures weight > 0.0 && b.maxOrder > 0 ==> (v == 0.0 <==> IsInteger(S(e, b, p)[slot]))
  {
    PenaltySlope(weight, S(e, b, p)[slot], DS(e, b, p)[slot])
  }

  /** GradientConstraint(i): the size of x, zero everywhere but at ConstraintIndex(i). */
  function GradientConstraint(e: Elementary, b: Bounds, weight: real, i: nat, x: seq<real>): (g: seq<real>)
    requires Sound(e) && NumPara * (i / 2) + NumPara <= |x|
    ensures |g| == |x|
    ensures forall k :: 0 <= k < |x| && k != ConstraintIndex(i) ==> g[k] == 0.0
    ensures g[ConstraintIndex(i)] == OrderPenaltySlope(e, b, weight, Slice(x, NumPara, i / 2), ConstraintSlot(i))
  {
    Spike(|x|, ConstraintIndex(i), OrderPenaltySlope(e, b, weight, Slice(x, NumPara, i / 2), ConstraintSlot(i)))
  }
}
