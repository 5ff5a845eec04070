/**
 * The display-side damping modes T0–T4. A mode has a type, a corner frequency ωp and a peak
 * ratio ζp fixed at construction, and a parameter list p that `tidyUp` rounds in place. Every
 * type evaluates at the relative frequency ωr = |ω/ωp| and mirrors itself onto negative
 * frequencies with the side l = −1 and the parity rules of the source. For positive
 * frequencies T0, T2 and T3 are the closed forms the Zero Day, Two Cities and Three Wise Men
 * schemes fit.
 */
module DampingModes {
  import opened RealMath
  import ZeroDay
  import TwoCities
  import ThreeWiseMen

  datatype ModeType = T0 | T1 | T2 | T3 | T4

  /** The entries of p a mode of each type reads: none, n, (nr, nl), γ, (nr, nl, nk, nm, γ). */
  function ParamCount(t: ModeType): (n: nat)
    ensures n <= 5
  {
    match t
    case T0 => 0
    case T1 => 1
    case T2 => 2
    case T3 => 1
    case T4 => 5
  }

  /** l: −1 on the negative frequency side, 1 otherwise. */
  function Side(omega: real): (l: real)
    ensures l == -1.0 || l == 1.0
    ensures l < 0.0 <==> omega < 0.0
  {
    if omega < 0.0 then -1.0 else 1.0
  }

  /** ωr = |ω/ωp|. */
  function RelFreq(omega: real, omegaP: real): (r: real)
    requires omegaP != 0.0
    ensures r >= 0.0
    ensures r == 0.0 <==> omega == 0.0
    ensures omega == omegaP ==> r == 1.0
  {
    assert omega == omega / omegaP * omegaP;
    DivSelf(omegaP);
    Abs(omega / omegaP)
  }

  /** unsigned(x) % 2 != 0: the parity of x truncated toward zero. */
  predicate OddUnsigned(x: real) {
    Trunc(x) % 2 != 0
  }

  /** l·ωr² + 1, the denominator of n0. */
  function Den0(l: real, r: real): real {
    l * r * r + 1.0
  }

  /** n0 = 2·l·ωr/(l·ωr² + 1), the unit bell of T0, T1 and T3. */
  function Bell0(l: real, r: real): real
    requires Den0(l, r) != 0.0
  {
    2.0 * l * r / Den0(l, r)
  }

  /** a = pow(ωr, 2n + 1), negated on the negative side when unsigned(n) is even. */
  function Rising(e: Elementary, l: real, r: real, n: real): real {
    var a := e.pow(r, 2.0 * n + 1.0);
    if l < 0.0 && !OddUnsigned(n) then -a else a
  }

  /** b = pow(ωr, 2·nps), negated on the negative side when unsigned(nps) is odd. */
  function Falling(e: Elementary, l: real, r: real, nps: real): real {
    var b := e.pow(r, 2.0 * nps);
    if l < 0.0 && OddUnsigned(nps) then -b else b
  }

  /** (2nl + 1)/(2nr + 1). */
  function OrderRatio(nr: real, nl: real): real
    requires 2.0 * nr + 1.0 != 0.0
  {
    (2.0 * nl + 1.0) / (2.0 * nr + 1.0)
  }

  /** 1 + r·b, the denominator of an order pair. */
  function PairDen(e: Elementary, l: real, r: real, nr: real, nl: real): real
    requires 2.0 * nr + 1.0 != 0.0
  {
    1.0 + OrderRatio(nr, nl) * Falling(e, l, r, nr + nl + 1.0)
  }

  /** Neither denominator of the order pair (nr, nl) vanishes. */
  predicate PairDefined(e: Elementary, l: real, r: real, nr: real, nl: real) {
    2.0 * nr + 1.0 != 0.0 && PairDen(e, l, r, nr, nl) != 0.0
  }

  /** (1 + r)·a/(1 + r·b) with r = (2nl + 1)/(2nr + 1) and nps = nr + nl + 1: T2, and each half of T4. */
  function PairShape(e: Elementary, l: real, r: real, nr: real, nl: real): real
    requires PairDefined(e, l, r, nr, nl)
  {
    (1.0 + OrderRatio(nr, nl)) * Rising(e, l, r, nl) / PairDen(e, l, r, nr, nl)
  }

  /** 1 + γ·l·n0², the denominator of T3. */
  function Den3(g: real, l: real, r: real): real
    requires Den0(l, r) != 0.0
  {
    1.0 + g * l * Bell0(l, r) * Bell0(l, r)
  }

  /** 1 + l·γ·ns·np, the outer denominator of T4. */
  function Den4(e: Elementary, p: seq<real>, l: real, r: real): real
    requires |p| >= 5 && PairDefined(e, l, r, p[0], p[1]) && PairDefined(e, l, r, p[2], p[3])
  {
    1.0 + l * p[4] * PairShape(e, l, r, p[0], p[1]) * PairShape(e, l, r, p[2], p[3])
  }

  /** No denominator of the mode's formula vanishes at ω. */
  predicate Defined(e: Elementary, t: ModeType, omegaP: real, p: seq<real>, omega: real) {
    omegaP != 0.0 && |p| >= ParamCount(t) && DefinedAt(e, t, p, Side(omega), RelFreq(omega, omegaP))
  }

  /** The same, at side l and relative frequency r. */
  predicate DefinedAt(e: Elementary, t: ModeType, p: seq<real>, l: real, r: real)
    requires |p| >= ParamCount(t)
  {
    match t
    case T0 => Den0(l, r) != 0.0
    case T1 => Den0(l, r) != 0.0
    case T2 => PairDefined(e, l, r, p[0], p[1])
    case T3 => Den0(l, r) != 0.0 && Den3(p[0], l, r) != 0.0
    case T4 => PairDefined(e, l, r, p[0], p[1]) && PairDefined(e, l, r, p[2], p[3]) && Den4(e, p, l, r) != 0.0
  }

  /** operator() of each mode type: nothing for a zero peak ratio, and T0 and T3 vanish at ω = 0. */
  function ModeValue(e: Elementary, t: ModeType, omegaP: real, zetaP: real, p: seq<real>, omega: real): (v: real)
    requires Defined(e, t, omegaP, p, omega)
    ensures zetaP == 0.0 ==> v == 0.0
    ensures omega == 0.0 && (t == T0 || t == T3) ==> v == 0.0
  {
    ValueAt(e, t, zetaP, p, Side(omega), RelFreq(omega, omegaP))
  }

  /** The value at side l and relative frequency r. */
  function ValueAt(e: Elementary, t: ModeType, zetaP: real, p: seq<real>, l: real, r: real): (v: real)
    requires |p| >= ParamCount(t) && DefinedAt(e, t, p, l, r)
    ensures zetaP == 0.0 ==> v == 0.0
    ensures r == 0.0 && (t == T0 || t == T3) ==> v == 0.0
  {
    match t
    case T0 => zetaP * Bell0(l, r)
    case T1 =>
      var n1 := e.pow(Bell0(l, r), 2.0 * p[0] + 1.0);
      zetaP * (if l < 0.0 && OddUnsigned(p[0]) then -n1 else n1)
    case T2 => zetaP * PairShape(e, l, r, p[0], p[1])
    case T3 => zetaP * (1.0 + p[0]) * Bell0(l, r) / Den3(p[0], l, r)
    case T4 => zetaP * (1.0 + p[4]) * PairShape(e, l, r, p[0], p[1]) / Den4(e, p, l, r)
  }

  /** a/b = c/d whenever a·d = c·b. */
  lemma QuotientsEqual(a: real, b: real, c: real, d: real)
    requires b != 0.0 && d != 0.0 && a * d == c * b
    ensures a / b == c / d
  {
    assert a / b * (b * d) == a * d;
    assert c / d * (b * d) == c * b;
  }

  /** For ω > 0, T0 is the closed form Zero Day fits, 2·ζp·ωr/(1 + ωr²). */
  lemma T0IsZeroDayResponse(e: Elementary, omegaP: real, zetaP: real, p: seq<real>, omega: real)
    requires omega > 0.0 && omegaP > 0.0
    ensures Defined(e, T0, omegaP, p, omega)
    ensures ModeValue(e, T0, omegaP, zetaP, p, omega) == ZeroDay.Response(omega, [omegaP, zetaP])
  {
    var r := omega / omegaP;
    DivPositive(omega, omegaP);
    assert RelFreq(omega, omegaP) == r;
    assert Sq(r) == r * r;
    assert Bell0(1.0, r) == 2.0 * r / (1.0 + Sq(r));
  }

  /** n0 at the positive side is 1/cosh(ln ωr). */
  lemma BellIsReciprocalCosh(r: real)
    requires r > 0.0
    ensures Den0(1.0, r) > 0.0 && Bell0(1.0, r) * CoshLn(r) == 1.0
  {
    var d, n := r * r + 1.0, 2.0 * r;
    assert Den0(1.0, r) == d;
    assert Bell0(1.0, r) == n / d;
    assert (n / d) * (d / n) == 1.0;
  }

  /** (1 + γ)·n0/(1 + γ·n0²) = (1 + γ)·c/(c² + γ) for n0·c = 1. */
  lemma ReciprocalShape(n0: real, c: real, g: real)
    requires n0 * c == 1.0 && c >= 1.0 && g >= ThreeWiseMen.GammaFloor
    ensures 1.0 + g * 1.0 * n0 * n0 > 0.0
    ensures (1.0 + g) * n0 / (1.0 + g * 1.0 * n0 * n0) == ThreeWiseMen.Shape(c, g)
  {
    var f := ThreeWiseMen.Factor(c, g);
    var den := 1.0 + g * 1.0 * n0 * n0;
    assert den * (c * c) == f by {
      assert den * (c * c) == c * c + g * (n0 * c) * (n0 * c);
    }
    assert den > 0.0 by {
      if den <= 0.0 {
        MulSign(-den, c * c);
        assert false;
      }
    }
    assert (1.0 + g) * n0 * f == (1.0 + g) * c * den by {
      assert n0 * f == n0 * c * c + g * n0;
      assert c * den == c + g * n0 * (n0 * c);
    }
    QuotientsEqual((1.0 + g) * n0, den, (1.0 + g) * c, f);
  }

  /**
   * For ω > 0 and γ ≥ −0.98, T3 is the closed form Three Wise Men fits: with n0 = 1/cosh(ln ωr),
   * (1 + γ)·n0/(1 + γ·n0²) = (1 + γ)·c/(c² + γ).
   */
  lemma T3IsThreeWiseMenResponse(e: Elementary, omegaP: real, zetaP: real, gamma: real, omega: real)
    requires omega > 0.0 && omegaP > 0.0 && gamma >= ThreeWiseMen.GammaFloor
    ensures Defined(e, T3, omegaP, [gamma], omega)
    ensures ModeValue(e, T3, omegaP, zetaP, [gamma], omega) == ThreeWiseMen.Response(omega, [omegaP, zetaP, gamma])
  {
    var r := omega / omegaP;
    DivPositive(omega, omegaP);
    assert RelFreq(omega, omegaP) == r && Side(omega) == 1.0;
    var c := CoshLog(omega, omegaP);
    assert c == CoshLn(r);
    BellIsReciprocalCosh(r);
    var n0 := Bell0(1.0, r);
    ReciprocalShape(n0, c, gamma);
    assert Den3(gamma, 1.0, r) == 1.0 + gamma * 1.0 * n0 * n0;
    MulDivAssoc(zetaP, (1.0 + gamma) * n0, Den3(gamma, 1.0, r));
    assert zetaP * (1.0 + gamma) * n0 == zetaP * ((1.0 + gamma) * n0);
  }

  /**
   * For ω > 0 and whole-or-positive orders nr, nl ≥ 0, T2 is the closed form Two Cities fits,
   * ζp·(1 + r)·ωr^(2nl + 1)/(1 + r·ωr^(2·nps)).
   */
  lemma T2IsTwoCitiesResponse(e: Elementary, omegaP: real, zetaP: real, nr: real, nl: real, omega: real)
    requires Sound(e) && omega > 0.0 && omegaP > 0.0 && nr >= 0.0 && nl >= 0.0
    ensures Defined(e, T2, omegaP, [nr, nl], omega)
    ensures ModeValue(e, T2, omegaP, zetaP, [nr, nl], omega) == TwoCities.Response(e, omega, [omegaP, zetaP, nr, nl])
  {
    var r := omega / omegaP;
    DivPositive(omega, omegaP);
    assert RelFreq(omega, omegaP) == r;
    var q := OrderRatio(nr, nl);
    assert q == TwoCities.Ratio(nr, nl);
    var fb := TwoCities.Denominator(e, r, q, 1.0 + nr + nl);
    assert nr + nl + 1.0 == 1.0 + nr + nl;
    assert 1.0 + q * Falling(e, 1.0, r, nr + nl + 1.0) == fb;
    var a := e.pow(r, 2.0 * nl + 1.0);
    assert zetaP * ((1.0 + q) * a / fb) == zetaP * (1.0 + q) * a / fb;
  }

  /** With n0 = 1 on the positive side, ζ·(1 + γ)·n0/(1 + γ·n0²) = ζ for γ ≠ −1. */
  lemma UnitBellShape(z: real, g: real, b: real)
    requires b == 1.0 && g != -1.0
    ensures 1.0 + g * 1.0 * b * b == 1.0 + g
    ensures z * (1.0 + g) * b / (1.0 + g * 1.0 * b * b) == z
  {
    MulDivAssoc(z, 1.0 + g, 1.0 + g);
    DivSelf(1.0 + g);
  }

  /** Wherever the positive-side bell n0 is 1, T3 is defined unless γ = −1 and takes the value ζp. */
  lemma T3AtUnitBell(e: Elementary, zetaP: real, p: seq<real>, l: real, r: real)
    requires |p| >= 1 && p[0] != -1.0 && l == 1.0 && Den0(l, r) != 0.0 && Bell0(l, r) == 1.0
    ensures DefinedAt(e, T3, p, l, r) && ValueAt(e, T3, zetaP, p, l, r) == zetaP
  {
    UnitBellShape(zetaP, p[0], Bell0(l, r));
  }

  /**
   * At the corner ω = ωp the side is positive, ωr = 1 and the bell n0 = 2/2 = 1, so by
   * `T3AtUnitBell` T3 takes the value ζp there unless γ = −1.
   */
  lemma AtCorner(omegaP: real)
    requires omegaP > 0.0
    ensures Side(omegaP) == 1.0 && RelFreq(omegaP, omegaP) == 1.0
    ensures Den0(1.0, 1.0) == 2.0 && Bell0(1.0, 1.0) == 1.0
  {
  }

  /** At its corner frequency ω = ωp, T0 returns ζp. */
  lemma T0PeakValue(e: Elementary, omegaP: real, zetaP: real, p: seq<real>)
    requires omegaP > 0.0
    ensures Defined(e, T0, omegaP, p, omegaP) && ModeValue(e, T0, omegaP, zetaP, p, omegaP) == zetaP
  {
    T0IsZeroDayResponse(e, omegaP, zetaP, p, omegaP);
  }

  /** At ω = ωp a mode is its value at the positive side and ωr = 1. */
  lemma AtPeak(e: Elementary, t: ModeType, omegaP: real, zetaP: real, p: seq<real>)
    requires omegaP > 0.0 && |p| >= ParamCount(t) && DefinedAt(e, t, p, 1.0, 1.0)
    ensures Defined(e, t, omegaP, p, omegaP)
    ensures ModeValue(e, t, omegaP, zetaP, p, omegaP) == ValueAt(e, t, zetaP, p, 1.0, 1.0)
  {
    AtCorner(omegaP);
  }

  /** Wherever the positive-side bell n0 is 1, T1 is defined and takes the value ζp: pow(1, 2n + 1) = 1. */
  lemma T1AtUnitBell(e: Elementary, zetaP: real, p: seq<real>, l: real, r: real)
    requires Sound(e) && |p| >= 1 && l == 1.0 && Den0(l, r) != 0.0 && Bell0(l, r) == 1.0
    ensures DefinedAt(e, T1, p, l, r) && ValueAt(e, T1, zetaP, p, l, r) == zetaP
  {
    assert e.pow(1.0, 2.0 * p[0] + 1.0) == 1.0;
  }

  /** At ω = ωp, T1 returns ζp whatever its order. */
  lemma T1PeakValue(e: Elementary, omegaP: real, zetaP: real, p: seq<real>)
    requires Sound(e) && omegaP > 0.0 && |p| >= 1
    ensures Defined(e, T1, omegaP, p, omegaP) && ModeValue(e, T1, omegaP, zetaP, p, omegaP) == zetaP
  {
    var l, r := Side(omegaP), RelFreq(omegaP, omegaP);
    assert l == 1.0 && r == 1.0;
    T1AtOne(e, zetaP, p, l, r);
  }

  /** T1 on the positive side at ωr = 1, where n0 = 2/2 = 1. */
  lemma T1AtOne(e: Elementary, zetaP: real, p: seq<real>, l: real, r: real)
    requires Sound(e) && l == 1.0 && r == 1.0 && |p| >= 1
    ensures DefinedAt(e, T1, p, l, r) && ValueAt(e, T1, zetaP, p, l, r) == zetaP
  {
    assert Den0(l, r) == 2.0;
    assert Bell0(l, r) == 1.0;
    T1AtUnitBell(e, zetaP, p, l, r);
  }

  /** At ω = ωp, T3 returns ζp unless γ = −1. */
  lemma T3PeakValue(e: Elementary, omegaP: real, zetaP: real, p: seq<real>)
    requires omegaP > 0.0 && |p| >= 1 && p[0] != -1.0
    ensures Defined(e, T3, omegaP, p, omegaP) && ModeValue(e, T3, omegaP, zetaP, p, omegaP) == zetaP
  {
    var l, r := Side(omegaP), RelFreq(omegaP, omegaP);
    assert l == 1.0 && r == 1.0;
    T3AtOne(e, zetaP, p, l, r);
  }

  /** T3 on the positive side at ωr = 1, where n0 = 2/2 = 1. */
  lemma T3AtOne(e: Elementary, zetaP: real, p: seq<real>, l: real, r: real)
    requires l == 1.0 && r == 1.0 && |p| >= 1 && p[0] != -1.0
    ensures DefinedAt(e, T3, p, l, r) && ValueAt(e, T3, zetaP, p, l, r) == zetaP
  {
    assert Den0(l, r) == 2.0;
    assert Bell0(l, r) == 1.0;
    T3AtUnitBell(e, zetaP, p, l, r);
  }

  /** At ωr = 1 on the positive side an order pair is 1: both powers are 1 and (1 + r)/(1 + r) remains. */
  lemma PairAtPeak(e: Elementary, nr: real, nl: real)
    requires Sound(e) && 2.0 * nr + 1.0 != 0.0 && nr + nl + 1.0 != 0.0
    ensures PairDefined(e, 1.0, 1.0, nr, nl) && PairShape(e, 1.0, 1.0, nr, nl) == 1.0
  {
    var q := OrderRatio(nr, nl);
    assert e.pow(1.0, 2.0 * nl + 1.0) == 1.0;
    assert e.pow(1.0, 2.0 * (nr + nl + 1.0)) == 1.0;
    assert q * (2.0 * nr + 1.0) == 2.0 * nl + 1.0;
    assert 1.0 + q != 0.0;
    assert PairDen(e, 1.0, 1.0, nr, nl) == 1.0 + q;
    DivSelf(1.0 + q);
  }

  /** At ω = ωp, T4 returns ζp when neither order pair sums to −1, 2nr + 1 and 2nk + 1 are nonzero, and γ ≠ −1. */
  lemma T4PeakValue(e: Elementary, omegaP: real, zetaP: real, p: seq<real>)
    requires Sound(e) && omegaP > 0.0 && |p| >= 5
    requires 2.0 * p[0] + 1.0 != 0.0 && p[0] + p[1] + 1.0 != 0.0
    requires 2.0 * p[2] + 1.0 != 0.0 && p[2] + p[3] + 1.0 != 0.0
    requires p[4] != -1.0
    ensures Defined(e, T4, omegaP, p, omegaP) && ModeValue(e, T4, omegaP, zetaP, p, omegaP) == zetaP
  {
    PairAtPeak(e, p[0], p[1]);
    PairAtPeak(e, p[2], p[3]);
    assert Den4(e, p, 1.0, 1.0) == 1.0 + p[4];
    MulDivAssoc(zetaP, 1.0 + p[4], 1.0 + p[4]);
    DivSelf(1.0 + p[4]);
    assert ValueAt(e, T4, zetaP, p, 1.0, 1.0) == zetaP * (1.0 + p[4]) * 1.0 / (1.0 + p[4]);
    AtPeak(e, T4, omegaP, zetaP, p);
  }

  /**
   * The mirror image of the corner: at ω = −ωp the denominator l·ωr² + 1 of T0, T1 and T3 is
   * 1 − 1 = 0, so those modes are not defined there.
   */
  lemma NegativePole(e: Elementary, t: ModeType, omegaP: real, p: seq<real>)
    requires omegaP > 0.0 && (t == T0 || t == T1 || t == T3)
    ensures !Defined(e, t, omegaP, p, -omegaP)
  {
    assert -omegaP / omegaP == -1.0 by {
      DivSelf(omegaP);
    }
    assert RelFreq(-omegaP, omegaP) == 1.0;
  }

  /**
   * The sign rules of T2 and T4 on the negative side: `a` is negated exactly when unsigned(n)
   * is even and `b` exactly when unsigned(nps) is odd; on the positive side neither is.
   */
  lemma SignRules(e: Elementary, omega: real, r: real, n: real, nps: real)
    requires Sound(e) && r > 0.0
    ensures omega < 0.0 ==> (Rising(e, Side(omega), r, n) < 0.0 <==> !OddUnsigned(n))
    ensures omega < 0.0 ==> (Falling(e, Side(omega), r, nps) < 0.0 <==> OddUnsigned(nps))
    ensures omega >= 0.0 ==> Rising(e, Side(omega), r, n) > 0.0 && Falling(e, Side(omega), r, nps) > 0.0
  {
    assert e.pow(r, 2.0 * n + 1.0) > 0.0 && e.pow(r, 2.0 * nps) > 0.0;
  }

  /**
   * T1 on the negative side negates its result exactly when unsigned(n) is odd: the value is
   * ζp·pow(n0, 2n + 1) with the sign flipped by that rule, and unflipped for ω ≥ 0.
   */
  lemma T1SignRule(e: Elementary, omegaP: real, zetaP: real, p: seq<real>, omega: real)
    requires Defined(e, T1, omegaP, p, omega)
    ensures var n1 := e.pow(Bell0(Side(omega), RelFreq(omega, omegaP)), 2.0 * p[0] + 1.0);
      ModeValue(e, T1, omegaP, zetaP, p, omega) == if omega < 0.0 && OddUnsigned(p[0]) then -(zetaP * n1) else zetaP * n1
  {
  }

  /** −ω has the same relative frequency as ω, on the other side. */
  lemma Mirror(omegaP: real, omega: real)
    requires omegaP != 0.0 && omega > 0.0
    ensures RelFreq(-omega, omegaP) == RelFreq(omega, omegaP)
    ensures Side(-omega) == -1.0 && Side(omega) == 1.0
  {
    assert -omega / omegaP == -(omega / omegaP);
  }

  /**
   * With unsigned(nps) even, `b` does not flip on the negative side, so the order pair is
   * defined there too; `a` flips exactly when unsigned(nl) is even, and the pair with it.
   */
  lemma PairMirror(e: Elementary, r: real, nr: real, nl: real)
    requires PairDefined(e, 1.0, r, nr, nl) && !OddUnsigned(nr + nl + 1.0)
    ensures PairDefined(e, -1.0, r, nr, nl)
    ensures PairShape(e, -1.0, r, nr, nl) ==
      if OddUnsigned(nl) then PairShape(e, 1.0, r, nr, nl) else -PairShape(e, 1.0, r, nr, nl)
  {
    assert Falling(e, -1.0, r, nr + nl + 1.0) == Falling(e, 1.0, r, nr + nl + 1.0);
    assert PairDen(e, -1.0, r, nr, nl) == PairDen(e, 1.0, r, nr, nl);
    if !OddUnsigned(nl) {
      var k, a, d := 1.0 + OrderRatio(nr, nl), Rising(e, 1.0, r, nl), PairDen(e, 1.0, r, nr, nl);
      assert Rising(e, -1.0, r, nl) == -a;
      assert k * -a / d == -(k * a / d);
    }
  }

  /**
   * With unsigned(nl) odd and unsigned(nps) even no sign flips, so T2 is even in ω; with both
   * even only `a` flips, so T2 is odd in ω.
   */
  lemma T2Symmetry(e: Elementary, omegaP: real, zetaP: real, p: seq<real>, omega: real)
    requires omega > 0.0 && Defined(e, T2, omegaP, p, omega) && !OddUnsigned(p[0] + p[1] + 1.0)
    ensures Defined(e, T2, omegaP, p, -omega)
    ensures OddUnsigned(p[1]) ==> ModeValue(e, T2, omegaP, zetaP, p, -omega) == ModeValue(e, T2, omegaP, zetaP, p, omega)
    ensures !OddUnsigned(p[1]) ==> ModeValue(e, T2, omegaP, zetaP, p, -omega) == -ModeValue(e, T2, omegaP, zetaP, p, omega)
  {
    Mirror(omegaP, omega);
    var r := RelFreq(omega, omegaP);
    PairMirror(e, r, p[0], p[1]);
    var v := PairShape(e, 1.0, r, p[0], p[1]);
    assert zetaP * -v == -(zetaP * v);
  }

  /** p with its first k entries rounded to the nearest whole number, the rest kept. */
  function RoundFirst(p: seq<real>, k: nat): (q: seq<real>)
    requires k <= |p|
    ensures |q| == |p|
    ensures forall i :: 0 <= i < k ==> q[i] == Round(p[i]) as real
    ensures forall i :: k <= i < |p| ==> q[i] == p[i]
  {
    seq(|p|, i requires 0 <= i < |p| => if i < k then Round(p[i]) as real else p[i])
  }

  /** The entries tidyUp rounds: none for T0 and T3, n for T1, nr and nl for T2, the four orders of T4. */
  function RoundedCount(t: ModeType): (k: nat)
    ensures k <= ParamCount(t)
    ensures t == T4 ==> k == ParamCount(t) - 1
  {
    match t
    case T1 => 1
    case T2 => 2
    case T4 => 4
    case _ => 0
  }

  /** tidyUp of each mode type on its parameter list. */
  function Tidy(t: ModeType, p: seq<real>): (q: seq<real>)
    requires |p| >= ParamCount(t)
    ensures |q| == |p|
  {
    RoundFirst(p, RoundedCount(t))
  }

  /**
   * tidyUp makes every order a whole number, leaves every other entry (γ of T4, all of T0 and
   * T3) as it was, and a second tidyUp changes nothing.
   */
  lemma TidyProperties(t: ModeType, p: seq<real>)
    requires |p| >= ParamCount(t)
    ensures forall i :: 0 <= i < RoundedCount(t) ==> IsInteger(Tidy(t, p)[i])
    ensures forall i :: RoundedCount(t) <= i < |p| ==> Tidy(t, p)[i] == p[i]
    ensures t == T0 || t == T3 ==> Tidy(t, p) == p
    ensures Tidy(t, Tidy(t, p)) == Tidy(t, p)
  {
    var q := Tidy(t, p);
    forall i | 0 <= i < RoundedCount(t)
      ensures IsInteger(q[i]) && Round(q[i]) as real == q[i]
    {
      assert (Round(p[i]) as real).Floor == Round(p[i]);
      RoundOfInteger(q[i]);
    }
  }

  /** A mode on the curve: type, corner and peak fixed at construction, p rounded in place by tidyUp. */
  class DampingMode {
    const kind: ModeType
    const omegaP: real
    const zetaP: real
    var p: seq<real>

    constructor(omega: real, zeta: real, params: seq<real>, t: ModeType)
      ensures kind == t && omegaP == omega && zetaP == zeta && p == params
    {
      kind, omegaP, zetaP, p := t, omega, zeta, params;
    }

    /** No denominator of this mode vanishes at ω. */
    predicate IsDefined(e: Elementary, omega: real)
      reads this
    {
      Defined(e, kind, omegaP, p, omega)
    }

    /** operator()(ω). */
    function Value(e: Elementary, omega: real): real
      reads this
      requires IsDefined(e, omega)
    {
      ModeValue(e, kind, omegaP, zetaP, p, omega)
    }

    /** tidyUp(): only p changes; the type, the corner and the peak are constants. */
    method TidyUp()
      requires |p| >= ParamCount(kind)
      modifies this`p
      ensures p == Tidy(kind, old(p))
    {
      var k := RoundedCount(kind);
      var i := 0;
      while i < k
        invariant 0 <= i <= k && |p| == |old(p)|
        invariant forall j :: 0 <= j < |p| ==> p[j] == if j < i then Round(old(p)[j]) as real else old(p)[j]
      {
        p := p[i := Round(p[i]) as real];
        i := i + 1;
      }
    }
  }
}
