/**
 * Real-number vocabulary shared by the whole model: the elementary functions the closed forms
 * call (exp, log, log10, pow), the rounding std::round performs, the decimal part that the
 * soft-integer penalties drive to zero, and finite sums.
 *
 * Doubles are modelled as `real`. The elementary functions cannot be defined here, so they are
 * passed around as function values; `Sound` lists the only laws the proofs rely on.
 */
module RealMath {

  /** exp, natural log, log10 and pow as the C library provides them. */
  datatype Elementary = Elementary(
    exp: real -> real,
    ln: real -> real,
    log10: real -> real,
    pow: (real, real) -> real)

  /**
   * A marker term for the laws that relate two arguments. Those laws fire only where a proof
   * names the pair through one of the lemmas below, so they are not tried on every pair of
   * exponentials in a proof.
   */
  ghost predicate Pair(x: real, y: real) {
    true
  }

  /** Positivity and monotonicity laws (plus exp(x)·exp(−x) = 1 and the values at 1). */
  ghost predicate Sound(e: Elementary) {
    && (forall x :: e.exp(x) > 0.0)
    && (forall x, y {:trigger Pair(x, y)} :: x < y ==> e.exp(x) < e.exp(y))
    && (forall x, y {:trigger Pair(x, y)} :: x + y == 0.0 ==> e.exp(x) * e.exp(y) == 1.0)
    && e.ln(1.0) == 0.0
    && (forall x, y {:trigger Pair(x, y)} :: 0.0 < x < y ==> e.ln(x) < e.ln(y))
    && (forall x, y {:trigger Pair(x, y)} :: 0.0 < x <= y ==> e.log10(x) <= e.log10(y))
    && (forall b, y :: b > 0.0 ==> e.pow(b, y) > 0.0)
    && (forall y :: e.pow(1.0, y) == 1.0)
    && (forall y, z {:trigger Pair(y, z)} :: y < z ==> e.pow(10.0, y) < e.pow(10.0, z))
  }

  lemma ExpMonotone(e: Elementary, x: real, y: real)
    requires Sound(e) && x < y
    ensures e.exp(x) < e.exp(y)
  {
    assert Pair(x, y);
  }

  lemma ExpInverse(e: Elementary, x: real)
    requires Sound(e)
    ensures e.exp(x) * e.exp(-x) == 1.0
  {
    assert Pair(x, -x);
  }

  lemma LnMonotone(e: Elementary, x: real, y: real)
    requires Sound(e) && 0.0 < x < y
    ensures e.ln(x) < e.ln(y)
  {
    assert Pair(x, y);
  }

  lemma Log10Monotone(e: Elementary, x: real, y: real)
    requires Sound(e) && 0.0 < x <= y
    ensures e.log10(x) <= e.log10(y)
  {
    assert Pair(x, y);
  }

  lemma Pow10Monotone(e: Elementary, y: real, z: real)
    requires Sound(e) && y < z
    ensures e.pow(10.0, y) < e.pow(10.0, z)
  {
    assert Pair(y, z);
  }

  /** log(10.) is positive, so dividing by it or scaling with it is harmless. */
  lemma LnTenPositive(e: Elementary)
    requires Sound(e)
    ensures e.ln(10.0) > 0.0
  {
    LnMonotone(e, 1.0, 10.0);
  }

  function Abs(x: real): (r: real)
    ensures r >= 0.0 && (r == x || r == -x)
  {
    if x < 0.0 then -x else x
  }

  /** Product as a function, so that facts about squares are proved once for two factors. */
  function Mul(a: real, b: real): real {
    a * b
  }

  /** Equal factors give equal products, without handing the product to nonlinear arithmetic. */
  lemma MulCongruent(a: real, b: real, c: real, d: real)
    requires a == c && b == d
    ensures Mul(a, 2.0 * b) == Mul(c, 2.0 * d)
  {
  }

  lemma MulSign(a: real, b: real)
    ensures a > 0.0 && b > 0.0 ==> Mul(a, b) > 0.0
    ensures a < 0.0 && b < 0.0 ==> Mul(a, b) > 0.0
    ensures a > 0.0 && b < 0.0 ==> Mul(a, b) < 0.0
    ensures a == 0.0 || b == 0.0 ==> Mul(a, b) == 0.0
  {
  }

  /** x², non-negative and zero only at zero. */
  function Sq(x: real): (r: real)
    ensures r >= 0.0
    ensures r == 0.0 <==> x == 0.0
  {
    MulSign(x, x);
    Mul(x, x)
  }

  /** Comparing a quotient is comparing the numerator with the scaled bound. */
  lemma DivLe(a: real, b: real, c: real)
    requires b > 0.0
    ensures a / b <= c <==> a <= c * b
  {
    var q := a / b;
    assert q * b == a;
    if q <= c {
      assert (c - q) * b >= 0.0;
    } else {
      assert (q - c) * b > 0.0;
    }
  }

  /** A common nonzero factor cancels. */
  lemma Cancel(a: real, b: real, c: real)
    requires c != 0.0 && a * c == b * c
    ensures a == b
  {
    assert (a - b) * c == 0.0;
  }

  /** Multiplying before or after a division gives the same quotient. */
  lemma MulDivAssoc(a: real, b: real, c: real)
    requires c != 0.0
    ensures a * b / c == a * (b / c)
  {
  }

  /** A zero factor makes the whole quotient zero. */
  lemma ZeroFactorQuotient(a: real, b: real, c: real)
    requires b == 0.0 && c != 0.0
    ensures a * b / c == 0.0
  {
  }

  lemma DivSelf(a: real)
    requires a != 0.0
    ensures a / a == 1.0
  {
  }

  lemma DivPositive(a: real, b: real)
    requires a > 0.0 && b > 0.0
    ensures a / b > 0.0
  {
  }

  /** 4t ≤ (1 + t)², so t/(1 + t)² ≤ 1/4: the peak of the logistic slope. */
  lemma SlopeBound(t: real)
    requires t > 0.0
    ensures Sq(1.0 + t) > 0.0 && 4.0 * t <= Sq(1.0 + t)
  {
    var d := Sq(1.0 + t);
    assert d == 4.0 * t + (1.0 - t) * (1.0 - t);
    assert (1.0 - t) * (1.0 - t) >= 0.0;
  }

  /** Scaling the logistic slope keeps it in (0, scale/4]. */
  lemma ScaledSlopeBound(scale: real, t: real)
    requires t > 0.0
    ensures scale > 0.0 ==> 0.0 < scale * t / Sq(1.0 + t) <= scale / 4.0
    ensures scale == 0.0 ==> scale * t / Sq(1.0 + t) == 0.0
  {
    var d := Sq(1.0 + t);
    SlopeBound(t);
    var q := t / d;
    DivLe(t, d, 0.25);
    DivPositive(t, d);
    assert scale * t / d == scale * q;
    MulSign(scale, q);
    MulSign(scale, 0.25 - q);
  }

  /** σ(1 − σ) for σ = 1/(1 + t) is t/(1 + t)². */
  lemma LogisticProduct(t: real)
    requires t > 0.0
    ensures (1.0 / (1.0 + t)) * (1.0 - 1.0 / (1.0 + t)) == t / Sq(1.0 + t)
  {
    var a := 1.0 + t;
    assert 1.0 - 1.0 / a == t / a;
    assert (1.0 / a) * (t / a) == t / (a * a);
  }

  /** t/(1 + t)² takes the same value at t and at 1/t. */
  lemma ReciprocalSlope(t: real, u: real)
    requires t > 0.0 && u > 0.0 && t * u == 1.0
    ensures t / Sq(1.0 + t) == u / Sq(1.0 + u)
  {
    var a := 1.0 + t;
    var b := 1.0 + u;
    assert a * u == b;
    assert t / (a * a) == (t * u * u) / (a * a * u * u);
    assert (a * u) * (a * u) == b * b;
  }

  /** arma::sign: −1, 0 or +1. */
  function Sign(x: real): (r: int)
    ensures r == -1 || r == 0 || r == 1
    ensures r == 1 <==> x > 0.0
    ensures r == -1 <==> x < 0.0
  {
    if x > 0.0 then 1 else if x < 0.0 then -1 else 0
  }

  /** clamp(lo, inf): the least value that is at least both x and lo. */
  function ClampBelow(x: real, lo: real): (r: real)
    ensures r >= lo && r >= x
    ensures r == x || r == lo
  {
    if x < lo then lo else x
  }

  /** The sign of a product is the product of the signs. */
  lemma SignOfProduct(a: real, b: real)
    ensures Sign(a * b) == Sign(a) * Sign(b)
  {
    if a > 0.0 && b > 0.0 {
      assert a * b > 0.0;
    } else if a > 0.0 && b < 0.0 {
      assert a * (-b) > 0.0;
    } else if a < 0.0 && b > 0.0 {
      assert (-a) * b > 0.0;
    } else if a < 0.0 && b < 0.0 {
      assert (-a) * (-b) > 0.0;
    }
  }

  /** x is a whole number. */
  predicate IsInteger(x: real) {
    x == x.Floor as real
  }

  /** std::round (and arma::round): nearest integer, halfway cases away from zero. */
  function Round(x: real): (r: int)
    ensures r as real - 0.5 <= x <= r as real + 0.5
    ensures x >= 0.0 ==> r >= 0
    ensures x <= 0.0 ==> r <= 0
  {
    if x >= 0.0 then (x + 0.5).Floor else -((-x + 0.5).Floor)
  }

  lemma RoundOfInteger(x: real)
    requires IsInteger(x)
    ensures Round(x) as real == x
  {
    var k := x.Floor;
    if x >= 0.0 {
      assert k as real <= x + 0.5 < (k + 1) as real;
    } else {
      assert (-k) as real <= -x + 0.5 < (-k + 1) as real;
      assert (-x + 0.5).Floor == -k;
    }
  }

  /** n − round(n): the decimal part the soft-integer penalties square. */
  function Decimal(x: real): (d: real)
    ensures -0.5 <= d <= 0.5
  {
    x - Round(x) as real
  }

  /** The decimal part vanishes exactly on whole numbers. */
  lemma DecimalZeroIffInteger(x: real)
    ensures Decimal(x) == 0.0 <==> IsInteger(x)
  {
    if IsInteger(x) {
      RoundOfInteger(x);
    }
    if Decimal(x) == 0.0 {
      var k := Round(x);
      assert x == k as real;
      assert x.Floor == k;
    }
  }

  /** Trunc toward zero, what a double-to-integer conversion keeps. */
  function Trunc(x: real): (r: int)
    ensures Abs(r as real) <= Abs(x) < Abs(r as real) + 1.0
    ensures x >= 0.0 ==> r >= 0
  {
    if x >= 0.0 then x.Floor else -((-x).Floor)
  }

  /** Sum of a sequence, accumulated from the front as arma::accu and the loops do. */
  function Sum(s: seq<real>): real
  {
    if |s| == 0 then 0.0 else Sum(s[..|s| - 1]) + s[|s| - 1]
  }

  lemma {:induction false} SumAppend(s: seq<real>, t: seq<real>)
    ensures Sum(s + t) == Sum(s) + Sum(t)
    decreases |t|
  {
    if |t| == 0 {
      assert s + t == s;
    } else {
      assert (s + t)[..|s + t| - 1] == s + t[..|t| - 1];
      SumAppend(s, t[..|t| - 1]);
    }
  }

  /** A prefix sum grows by the next element, the step every accumulation loop takes. */
  lemma SumPrefix(s: seq<real>, k: nat)
    requires k < |s|
    ensures Sum(s[..k + 1]) == Sum(s[..k]) + s[k]
  {
    assert s[..k + 1][..k] == s[..k];
  }

  lemma {:induction false} SumNonNegative(s: seq<real>)
    requires forall i :: 0 <= i < |s| ==> s[i] >= 0.0
    ensures Sum(s) >= 0.0
    decreases |s|
  {
    if |s| > 0 {
      SumNonNegative(s[..|s| - 1]);
    }
  }

  /** A sum of non-negative terms is zero exactly when every term is. */
  lemma {:induction false} SumZeroIffAllZero(s: seq<real>)
    requires forall i :: 0 <= i < |s| ==> s[i] >= 0.0
    ensures Sum(s) == 0.0 <==> forall i :: 0 <= i < |s| ==> s[i] == 0.0
    decreases |s|
  {
    if |s| > 0 {
      var init := s[..|s| - 1];
      SumZeroIffAllZero(init);
      SumNonNegative(init);
      if Sum(s) == 0.0 {
        forall i | 0 <= i < |s| ensures s[i] == 0.0 {
          if i < |s| - 1 {
            assert s[i] == init[i];
          }
        }
      }
      if forall i :: 0 <= i < |s| ==> s[i] == 0.0 {
        assert forall i :: 0 <= i < |init| ==> init[i] == s[i];
      }
    }
  }

  /** Termwise equal sequences have equal sums (used when two formulas build the same terms). */
  lemma {:induction false} SumCongruent(s: seq<real>, t: seq<real>)
    requires |s| == |t|
    requires forall i :: 0 <= i < |s| ==> s[i] == t[i]
    ensures Sum(s) == Sum(t)
    decreases |s|
  {
    if |s| > 0 {
      SumCongruent(s[..|s| - 1], t[..|t| - 1]);
    }
  }

  /** Sum of termwise additions. */
  lemma {:induction false} SumOfPairs(s: seq<real>, t: seq<real>, u: seq<real>)
    requires |s| == |t| == |u|
    requires forall i :: 0 <= i < |u| ==> u[i] == s[i] + t[i]
    ensures Sum(u) == Sum(s) + Sum(t)
    decreases |u|
  {
    if |u| > 0 {
      SumOfPairs(s[..|s| - 1], t[..|t| - 1], u[..|u| - 1]);
    }
  }

  /** The smallest entry of a non-empty list, as std::min_element and arma::min give it. */
  function MinOf(s: seq<real>): (r: real)
    requires |s| > 0
    ensures r in s && forall k :: 0 <= k < |s| ==> r <= s[k]
  {
    if |s| == 1 then s[0]
    else
      var m := MinOf(s[..|s| - 1]);
      assert forall k :: 0 <= k < |s| - 1 ==> s[..|s| - 1][k] == s[k];
      if s[|s| - 1] < m then s[|s| - 1] else m
  }

  /** The largest entry of a non-empty list, as std::max_element and arma::max give it. */
  function MaxOf(s: seq<real>): (r: real)
    requires |s| > 0
    ensures r in s && forall k :: 0 <= k < |s| ==> r >= s[k]
  {
    if |s| == 1 then s[0]
    else
      var m := MaxOf(s[..|s| - 1]);
      assert forall k :: 0 <= k < |s| - 1 ==> s[..|s| - 1][k] == s[k];
      if s[|s| - 1] > m then s[|s| - 1] else m
  }

  /** A non-negative multiple of a sum of non-negative terms is non-negative. */
  lemma ScaledSumNonNegative(w: real, q: seq<real>)
    requires w >= 0.0
    requires forall i :: 0 <= i < |q| ==> q[i] >= 0.0
    ensures Mul(w, Sum(q)) >= 0.0
  {
    SumNonNegative(q);
    MulSign(w, Sum(q));
  }

  /** A positive multiple of a sum of non-negative terms vanishes exactly when every term does. */
  lemma ScaledSumZeroIff(w: real, q: seq<real>)
    requires w > 0.0
    requires forall i :: 0 <= i < |q| ==> q[i] >= 0.0
    ensures Mul(w, Sum(q)) == 0.0 <==> forall i :: 0 <= i < |q| ==> q[i] == 0.0
  {
    SumNonNegative(q);
    SumZeroIffAllZero(q);
    MulSign(w, Sum(q));
  }

  /** cosh(ln r) for r > 0, written exactly as (r² + 1)/(2r). */
  function CoshLn(r: real): (c: real)
    requires r > 0.0
    ensures c >= 1.0
    ensures c == 1.0 <==> r == 1.0
  {
    var d := r - 1.0;
    assert r * r + 1.0 == 2.0 * r + Sq(d);
    (r * r + 1.0) / (2.0 * r)
  }

  /** sinh(ln r) for r > 0, written exactly as (r² − 1)/(2r). */
  function SinhLn(r: real): (s: real)
    requires r > 0.0
    ensures s == 0.0 <==> r == 1.0
    ensures s > 0.0 <==> r > 1.0
  {
    assert r > 1.0 ==> r * r > 1.0;
    assert r < 1.0 ==> r * r < 1.0;
    (r * r - 1.0) / (2.0 * r)
  }

  /** cosh² − sinh² = 1 holds of the two rational forms. */
  lemma CoshSinhIdentity(r: real)
    requires r > 0.0
    ensures CoshLn(r) * CoshLn(r) - SinhLn(r) * SinhLn(r) == 1.0
  {
    var c, s := CoshLn(r), SinhLn(r);
    assert c * (2.0 * r) == r * r + 1.0;
    assert s * (2.0 * r) == r * r - 1.0;
    assert (c * c - s * s) * (4.0 * r * r) == (r * r + 1.0) * (r * r + 1.0) - (r * r - 1.0) * (r * r - 1.0);
  }

  /** The vector of length n that is v at index k and zero elsewhere. */
  function Spike(n: nat, k: nat, v: real): (g: seq<real>)
    requires k < n
    ensures |g| == n
    ensures g[k] == v
    ensures forall j :: 0 <= j < n && j != k ==> g[j] == 0.0
  {
    seq(n, j => if j == k then v else 0.0)
  }

  /** The zero vector of length n. */
  function Zeros(n: nat): (g: seq<real>)
    ensures |g| == n
    ensures forall j :: 0 <= j < n ==> g[j] == 0.0
  {
    seq(n, j => 0.0)
  }

  /** cosh(ln(x/w)), at least 1 and equal to 1 only at the corner. */
  function CoshLog(x: real, w: real): (c: real)
    requires x > 0.0 && w > 0.0
    ensures c >= 1.0
    ensures c == 1.0 <==> x == w
  {
    DivPositive(x, w);
    assert x / w == 1.0 <==> x == w by {
      if x / w == 1.0 {
        assert x == (x / w) * w;
      }
      if x == w {
        DivSelf(w);
      }
    }
    CoshLn(x / w)
  }

  /** sinh(ln(x/w)), zero only at the corner. */
  function SinhLog(x: real, w: real): (s: real)
    requires x > 0.0 && w > 0.0
    ensures s == 0.0 <==> x == w
  {
    DivPositive(x, w);
    assert x / w == 1.0 <==> x == w by {
      if x / w == 1.0 {
        assert x == (x / w) * w;
      }
      if x == w {
        DivSelf(w);
      }
    }
    SinhLn(x / w)
  }
}
