/**
 * The sigmoid reparameterisation every scheme applies to its raw optimisation vector
 * before evaluating a mode: `s` squashes a raw value into an interval, `ds` is the jacobian
 * entry the chain rule multiplies by. The scalings come from the fitted data (`Bounds`).
 */
module Reparam {
  import opened RealMath

  /** The fields of the objective that `s` and `ds` read. */
  datatype Bounds = Bounds(minOmega: real, rangeOmega: real, maxZeta: real, maxOrder: int)

  /** σ(p) = 1/(1 + exp(−p)), the logistic function. */
  function Logistic(e: Elementary, p: real): (r: real)
    requires Sound(e)
    ensures 0.0 < r < 1.0
  {
    assert e.exp(-p) > 0.0;
    1.0 / (1.0 + e.exp(-p))
  }

  /** scale/(1 + exp(−p)): maps any raw value strictly between 0 and scale. */
  function Squash(e: Elementary, scale: real, p: real): (r: real)
    requires Sound(e)
    ensures r == scale * Logistic(e, p)
    ensures scale > 0.0 ==> 0.0 < r < scale
    ensures scale == 0.0 ==> r == 0.0
  {
    assert e.exp(-p) > 0.0;
    scale / (1.0 + e.exp(-p))
  }

  /** A larger raw value is squashed to a larger value. */
  lemma SquashMonotone(e: Elementary, scale: real, p: real, q: real)
    requires Sound(e) && scale > 0.0 && p < q
    ensures Squash(e, scale, p) < Squash(e, scale, q)
  {
    ExpMonotone(e, -q, -p);
    var a, b := 1.0 + e.exp(-p), 1.0 + e.exp(-q);
    assert 0.0 < b < a;
    var u, v := scale / a, scale / b;
    assert u * a == scale && v * b == scale;
    DivPositive(scale, a);
    MulSign(u, a - b);
    MulSign(u - v, b);
    assert u < v;
  }

  /** The derivative identity behind `SquashSlope`, proved on its own. */
  lemma SlopeIsLogisticProduct(e: Elementary, p: real)
    requires Sound(e)
    ensures e.exp(-Abs(p)) / Sq(1.0 + e.exp(-Abs(p))) == Logistic(e, p) * (1.0 - Logistic(e, p))
  {
    var en := e.exp(-p);
    LogisticProduct(en);
    if p < 0.0 {
      var ep := e.exp(p);
      assert -p + p == 0.0;
      ExpInverse(e, -p);
      assert en * ep == 1.0;
      ReciprocalSlope(en, ep);
      assert -Abs(p) == p;
    } else {
      assert -Abs(p) == -p;
    }
  }

  /**
   * scale·e/(1 + e)² with e = exp(−|p|), the slope `ds` uses for a squashed slot. It is the
   * derivative of the squash, scale·σ(p)·(1 − σ(p)); writing it with exp(−|p|) keeps the
   * exponential below one without changing the value.
   */
  function SquashSlope(e: Elementary, scale: real, p: real): (r: real)
    requires Sound(e)
    ensures scale > 0.0 ==> 0.0 < r <= scale / 4.0
    ensures scale == 0.0 ==> r == 0.0
    ensures r == scale * Logistic(e, p) * (1.0 - Logistic(e, p))
  {
    var ew := e.exp(-Abs(p));
    ScaledSlopeBound(scale, ew);
    SlopeIsLogisticProduct(e, p);
    MulDivAssoc(scale, ew, Sq(1.0 + ew));
    scale * ew / Sq(1.0 + ew)
  }

  /** The slope depends on |p| only: ds is an even function of the raw slot. */
  lemma SquashSlopeEven(e: Elementary, scale: real, p: real)
    requires Sound(e)
    ensures SquashSlope(e, scale, p) == SquashSlope(e, scale, -p)
  {
    assert Abs(p) == Abs(-p);
  }

  /** 10^(minOmega + rangeOmega·σ(p)): the frequency slot of every scheme. */
  function Frequency(e: Elementary, b: Bounds, p: real): (w: real)
    requires Sound(e)
    ensures w > 0.0
    ensures b.rangeOmega > 0.0 ==>
      e.pow(10.0, b.minOmega) < w < e.pow(10.0, b.minOmega + b.rangeOmega)
  {
    var q := Squash(e, b.rangeOmega, p);
    PowBetween(e, b.minOmega, q, b.rangeOmega);
    e.pow(10.0, b.minOmega + q)
  }

  /** 10^lo < 10^(lo + q) < 10^(lo + range) for 0 < q < range. */
  lemma PowBetween(e: Elementary, lo: real, q: real, range: real)
    requires Sound(e)
    ensures 0.0 < q < range ==> e.pow(10.0, lo) < e.pow(10.0, lo + q) < e.pow(10.0, lo + range)
  {
    if 0.0 < q < range {
      Pow10Monotone(e, lo, lo + q);
      Pow10Monotone(e, lo + q, lo + range);
    }
  }

  /**
   * ln(10)·e/(1+e)²·10^(…)·rangeOmega: the frequency slot's jacobian entry, grouped as
   * ln(10)·Frequency·SquashSlope — the chain rule through 10^(minOmega + rangeOmega·σ(p)).
   */
  function FrequencySlope(e: Elementary, b: Bounds, p: real): (r: real)
    requires Sound(e)
    ensures b.rangeOmega > 0.0 ==> r > 0.0
  {
    var l, w, c := e.ln(10.0), Frequency(e, b, p), SquashSlope(e, b.rangeOmega, p);
    LnTenPositive(e);
    MulSign(l, w);
    MulSign(l * w, c);
    l * w * c
  }

  /** The raw slots [np·J, np·J + np) that mode J owns in the flat optimisation vector. */
  function Slice(x: seq<real>, np: nat, j: nat): (p: seq<real>)
    requires np * j + np <= |x|
    ensures |p| == np
    ensures forall k :: 0 <= k < np ==> p[k] == x[np * j + k]
  {
    x[np * j..np * j + np]
  }

  /** Mode j < m's block of np slots lies inside a vector of m blocks. */
  lemma BlockFits(np: nat, j: nat, m: nat)
    requires j < m
    ensures np * j + np <= np * m
  {
    assert np * m == np * j + np + np * (m - j - 1);
  }

  /** Every mode below m has its block inside a vector of m blocks. */
  lemma AllBlocksFit(np: nat, m: nat)
    ensures forall j: nat :: j < m ==> np * j + np <= np * m
  {
    forall j: nat | j < m
      ensures np * j + np <= np * m
    {
      BlockFits(np, j, m);
    }
  }

  /** a·d ≥ a for a ≥ 0 and d ≥ 1. */
  lemma MulAtLeast(a: int, d: int)
    requires a >= 0 && d >= 1
    ensures a * d >= a
  {
    assert a * d == a + a * (d - 1);
  }

  /** The block after block j starts np slots later. */
  lemma NextBlock(np: nat, j: nat)
    ensures np * (j + 1) == np * j + np
  {
  }

  /** The first slot of a block is a natural number. */
  lemma BlockStart(np: nat, j: nat)
    ensures np * j >= 0
  {
    MulAtLeast(j, 1);
    if np > 0 {
      MulAtLeast(j, np);
    }
  }

  /** Euclidean division is unique: r = np·q + m with 0 ≤ m < np fixes r / np and r % np. */
  lemma DivModUnique(r: int, np: int, q: int, m: int)
    requires np > 0 && r == np * q + m && 0 <= m < np
    ensures r / np == q && r % np == m
  {
    var q', m' := r / np, r % np;
    assert np * q' + m' == r;
    if q > q' {
      MulAtLeast(np, q - q');
    } else if q < q' {
      MulAtLeast(np, q' - q);
    }
  }

  /** Slot k of block j is flat index np·j + k, and r / np, r % np recover j and k. */
  lemma SlotOf(np: nat, j: nat, k: nat)
    requires k < np
    ensures (np * j + k) / np == j
    ensures (np * j + k) % np == k
  {
    DivModUnique(np * j + k, np, j, k);
  }

  /** A flat index below np·m belongs to one of the m blocks. */
  lemma {:induction false} BlockOf(np: nat, r: nat, m: nat)
    requires np > 0 && r < np * m
    ensures r / np < m
    ensures np * (r / np) + r % np == r
    ensures np * (r / np) + np <= np * m
  {
    var q := r / np;
    if q >= m {
      MulAtLeast(np, q - m + 1);
    }
    BlockFits(np, q, m);
  }

  /** weight·decimal(n)²: one soft-integer penalty term, zero exactly on whole orders. */
  function PenaltyTerm(weight: real, n: real): (v: real)
    ensures weight >= 0.0 ==> v >= 0.0
    ensures weight > 0.0 ==> (v == 0.0 <==> IsInteger(n))
  {
    var d := Decimal(n);
    DecimalZeroIffInteger(n);
    MulSign(weight, Sq(d));
    assert weight * d * d == weight * Sq(d);
    weight * d * d
  }

  /**
   * 2·weight·decimal(n)·t: the derivative of a penalty term in its raw slot when t is the
   * slot's jacobian entry; for positive weight and slope it is zero exactly on whole orders.
   */
  function PenaltySlope(weight: real, n: real, t: real): (v: real)
    ensures weight > 0.0 && t > 0.0 ==> (v == 0.0 <==> IsInteger(n))
  {
    var d := Decimal(n);
    DecimalZeroIffInteger(n);
    MulSign(2.0 * weight, d);
    MulSign(2.0 * weight * d, t);
    2.0 * weight * d * t
  }
}
