/**
 * The four fitting schemes behind one interface, as the virtual methods of the objective
 * dispatch to them: the number of raw slots per mode, `s`, `ds`, `compute_response`,
 * `compute_gradient`, and the soft-integer constraint interface (with the defaults of the
 * base class for the two schemes that do not override it).
 */
module Family {
  import opened RealMath
  import opened Reparam
  import ZeroDay
  import Unicorn
  import TwoCities
  import ThreeWiseMen

  datatype Scheme = ZeroDayScheme | UnicornScheme | TwoCitiesScheme | ThreeWiseMenScheme

  /** num_para of each scheme: 2, 3, 4 and 3 raw slots per mode. */
  function NumPara(f: Scheme): (np: nat)
    ensures 2 <= np <= 4
    ensures np == 2 <==> f == ZeroDayScheme
    ensures np == 4 <==> f == TwoCitiesScheme
  {
    match f
    case ZeroDayScheme => ZeroDay.NumPara
    case UnicornScheme => Unicorn.NumPara
    case TwoCitiesScheme => TwoCities.NumPara
    case ThreeWiseMenScheme => ThreeWiseMen.NumPara
  }

  /** Mode parameters that the closed forms of scheme f are defined on. */
  predicate Admissible(f: Scheme, sp: seq<real>) {
    match f
    case ZeroDayScheme => ZeroDay.Admissible(sp)
    case UnicornScheme => Unicorn.Admissible(sp)
    case TwoCitiesScheme => TwoCities.Admissible(sp)
    case ThreeWiseMenScheme => ThreeWiseMen.Admissible(sp)
  }

  /**
   * `s` of Two Cities yields non-negative orders only for a non-negative max order; every other
   * scheme's `s` is admissible for all bounds.
   */
  predicate OrderBoundOk(f: Scheme, b: Bounds) {
    f == TwoCitiesScheme ==> b.maxOrder >= 0
  }

  /** s: the reparameterisation of one mode's raw slots. */
  function S(e: Elementary, f: Scheme, b: Bounds, p: seq<real>): (sp: seq<real>)
    requires Sound(e) && |p| == NumPara(f)
    ensures |sp| == NumPara(f)
    ensures OrderBoundOk(f, b) ==> Admissible(f, sp)
  {
    match f
    case ZeroDayScheme => ZeroDay.S(e, b, p)
    case UnicornScheme => Unicorn.S(e, b, p)
    case TwoCitiesScheme => TwoCities.S(e, b, p)
    case ThreeWiseMenScheme => ThreeWiseMen.S(e, b, p)
  }

  /** ds: the jacobian entries of `s`, one per raw slot. */
  function DS(e: Elementary, f: Scheme, b: Bounds, p: seq<real>): (d: seq<real>)
    requires Sound(e) && |p| == NumPara(f)
    ensures |d| == NumPara(f)
  {
    match f
    case ZeroDayScheme => ZeroDay.DS(e, b, p)
    case UnicornScheme => Unicorn.DS(e, b, p)
    case TwoCitiesScheme => TwoCities.DS(e, b, p)
    case ThreeWiseMenScheme => ThreeWiseMen.DS(e, b, p)
  }

  /** compute_response of scheme f. */
  function Response(e: Elementary, f: Scheme, x: real, sp: seq<real>): real
    requires Sound(e) && x > 0.0 && Admissible(f, sp)
  {
    match f
    case ZeroDayScheme => ZeroDay.Response(x, sp)
    case UnicornScheme => Unicorn.Response(e, x, sp)
    case TwoCitiesScheme => TwoCities.Response(e, x, sp)
    case ThreeWiseMenScheme => ThreeWiseMen.Response(x, sp)
  }

  /** compute_gradient of scheme f: the response followed by one partial per slot. */
  function Gradient(e: Elementary, f: Scheme, x: real, sp: seq<real>): (out: seq<real>)
    requires Sound(e) && x > 0.0 && Admissible(f, sp)
    ensures |out| == NumPara(f) + 1
  {
    match f
    case ZeroDayScheme => ZeroDay.Gradient(x, sp)
    case UnicornScheme => Unicorn.Gradient(e, x, sp)
    case TwoCitiesScheme => TwoCities.Gradient(e, x, sp)
    case ThreeWiseMenScheme => ThreeWiseMen.Gradient(x, sp)
  }

  /** In every scheme out(0) of compute_gradient is compute_response. */
  lemma GradientLeadsWithResponse(e: Elementary, f: Scheme, x: real, sp: seq<real>)
    requires Sound(e) && x > 0.0 && Admissible(f, sp)
    ensures Gradient(e, f, x, sp)[0] == Response(e, f, x, sp)
  {
    match f
    case ZeroDayScheme => ZeroDay.GradientResponse(x, sp);
    case UnicornScheme => Unicorn.GradientResponse(e, x, sp);
    case TwoCitiesScheme => TwoCities.GradientResponse(e, x, sp);
    case ThreeWiseMenScheme => ThreeWiseMen.GradientResponse(x, sp);
  }

  /** Unicorn and Two Cities add the soft-integer penalty; the other two fit least squares only. */
  predicate HasPenalty(f: Scheme) {
    f == UnicornScheme || f == TwoCitiesScheme
  }

  /** The slots of a mode that carry an order and hence a penalty term. */
  predicate PenalisedSlot(f: Scheme, k: nat) {
    match f
    case UnicornScheme => k == 2
    case TwoCitiesScheme => k == 2 || k == 3
    case _ => false
  }

  lemma PenalisedSlotsAreOrders(f: Scheme, k: nat)
    ensures PenalisedSlot(f, k) ==> HasPenalty(f) && 2 <= k < NumPara(f)
  {
  }

  /** NumConstraints: none by default, one per mode for Unicorn, two per mode for Two Cities. */
  function NumConstraints(f: Scheme, numModes: nat): (k: nat)
    ensures !HasPenalty(f) ==> k == 0
    ensures HasPenalty(f) ==> numModes <= k <= 2 * numModes
  {
    match f
    case UnicornScheme => Unicorn.NumConstraints(numModes)
    case TwoCitiesScheme => TwoCities.NumConstraints(numModes)
    case _ => 0
  }

  /** The raw vector has one block of NumPara slots per mode, and i names a constraint. */
  predicate ConstraintArgs(f: Scheme, numModes: nat, i: nat, x: seq<real>) {
    |x| == NumPara(f) * numModes && (HasPenalty(f) ==> i < NumConstraints(f, numModes))
  }

  lemma ConstraintBlockInRange(f: Scheme, numModes: nat, i: nat, x: seq<real>)
    requires ConstraintArgs(f, numModes, i, x)
    ensures f == UnicornScheme ==> Unicorn.NumPara * i + Unicorn.NumPara <= |x|
    ensures f == TwoCitiesScheme ==> TwoCities.NumPara * (i / 2) + TwoCities.NumPara <= |x|
  {
  }

  /** EvaluateConstraint(i): 0 by default, the scheme's penalty term otherwise. */
  function EvaluateConstraint(e: Elementary, f: Scheme, b: Bounds, weight: real, numModes: nat, i: nat, x: seq<real>): (v: real)
    requires Sound(e) && ConstraintArgs(f, numModes, i, x)
    ensures !HasPenalty(f) ==> v == 0.0
    ensures weight >= 0.0 ==> v >= 0.0
  {
    ConstraintBlockInRange(f, numModes, i, x);
    match f
    case UnicornScheme => Unicorn.EvaluateConstraint(e, b, weight, i, x)
    case TwoCitiesScheme => TwoCities.EvaluateConstraint(e, b, weight, i, x)
    case _ => 0.0
  }

  /** GradientConstraint(i): the zero vector the size of x by default. */
  function GradientConstraint(e: Elementary, f: Scheme, b: Bounds, weight: real, numModes: nat, i: nat, x: seq<real>): (g: seq<real>)
    requires Sound(e) && ConstraintArgs(f, numModes, i, x)
    ensures |g| == |x|
    ensures !HasPenalty(f) ==> forall k :: 0 <= k < |x| ==> g[k] == 0.0
  {
    ConstraintBlockInRange(f, numModes, i, x);
    match f
    case UnicornScheme => Unicorn.GradientConstraint(e, b, weight, i, x)
    case TwoCitiesScheme => TwoCities.GradientConstraint(e, b, weight, i, x)
    case _ => Zeros(|x|)
  }

  /** The type digit each scheme's getTypeList writes ("Type k --- …"). */
  function TypeDigit(f: Scheme): (k: nat)
    ensures k <= 3
  {
    match f
    case ZeroDayScheme => 0
    case UnicornScheme => 1
    case TwoCitiesScheme => 2
    case ThreeWiseMenScheme => 3
  }
}
