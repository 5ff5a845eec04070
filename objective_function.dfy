/**
 * The objective every fit minimises, written as functions of the raw optimisation vector x:
 * mode J owns the raw slots [np·J, np·J + np), its parameters are `s` of that slice, the
 * response cache holds out(0) of compute_gradient for every mode and sample, the residual of
 * a sample is the summed response minus its target damping ratio, and the loss is the sum of
 * squared residuals plus, for Unicorn and Two Cities, weight times the squared decimal parts
 * of the orders. The class `Objective.ObjectiveFunction` computes these with loops.
 */
module ObjectiveSpec {
  import opened RealMath
  import opened Reparam
  import opened Family

  /** One column of the sampling matrix: row 0 is the frequency, row 1 the target damping ratio. */
  datatype Sample = Sample(omega: real, zeta: real)

  predicate PositiveFrequencies(samples: seq<Sample>) {
    forall I :: 0 <= I < |samples| ==> samples[I].omega > 0.0
  }

  /** What the closed forms need: the math laws, one block per mode, admissible orders. */
  ghost predicate Evaluable(e: Elementary, f: Scheme, b: Bounds, numModes: nat, x: seq<real>) {
    Sound(e) && |x| == NumPara(f) * numModes && OrderBoundOk(f, b)
  }

  /** s of mode J's raw slice. */
  function Params(e: Elementary, f: Scheme, b: Bounds, x: seq<real>, J: nat): (sp: seq<real>)
    requires Sound(e) && NumPara(f) * J + NumPara(f) <= |x|
    ensures |sp| == NumPara(f)
    ensures OrderBoundOk(f, b) ==> Admissible(f, sp)
  {
    S(e, f, b, Slice(x, NumPara(f), J))
  }

  /** ds of mode J's raw slice. */
  function Jacobian(e: Elementary, f: Scheme, b: Bounds, x: seq<real>, J: nat): (d: seq<real>)
    requires Sound(e) && NumPara(f) * J + NumPara(f) <= |x|
    ensures |d| == NumPara(f)
  {
    DS(e, f, b, Slice(x, NumPara(f), J))
  }

  /** compute_gradient of mode J at frequency omega. */
  function ModeGradient(e: Elementary, f: Scheme, b: Bounds, x: seq<real>, J: nat, omega: real): (out: seq<real>)
    requires Sound(e) && NumPara(f) * J + NumPara(f) <= |x| && OrderBoundOk(f, b) && omega > 0.0
    ensures |out| == NumPara(f) + 1
  {
    Gradient(e, f, omega, Params(e, f, b, x, J))
  }

  /** What the cache holds for mode J and frequency omega is that mode's response there. */
  lemma CacheValueIsResponse(e: Elementary, f: Scheme, b: Bounds, x: seq<real>, J: nat, omega: real)
    requires Sound(e) && NumPara(f) * J + NumPara(f) <= |x| && OrderBoundOk(f, b) && omega > 0.0
    ensures ModeGradient(e, f, b, x, J, omega)[0] == Response(e, f, omega, Params(e, f, b, x, J))
  {
    GradientLeadsWithResponse(e, f, omega, Params(e, f, b, x, J));
  }

  /** Column I of the cache: every mode's response at one frequency. */
  function Column(e: Elementary, f: Scheme, b: Bounds, x: seq<real>, numModes: nat, omega: real): (col: seq<real>)
    requires Evaluable(e, f, b, numModes, x) && omega > 0.0
    ensures |col| == numModes
  {
    AllBlocksFit(NumPara(f), numModes);
    seq(numModes, J requires 0 <= J < numModes => ModeGradient(e, f, b, x, J, omega)[0])
  }

  /** fi: the summed response of all modes minus the target. */
  function Residual(e: Elementary, f: Scheme, b: Bounds, x: seq<real>, numModes: nat, s: Sample): real
    requires Evaluable(e, f, b, numModes, x) && s.omega > 0.0
  {
    Sum(Column(e, f, b, x, numModes, s.omega)) - s.zeta
  }

  /** fi² for every sample. */
  function SquaredResiduals(e: Elementary, f: Scheme, b: Bounds, x: seq<real>, numModes: nat, samples: seq<Sample>): (q: seq<real>)
    requires Evaluable(e, f, b, numModes, x) && PositiveFrequencies(samples)
    ensures |q| == |samples|
    ensures forall I :: 0 <= I < |q| ==> q[I] >= 0.0
  {
    seq(|samples|, I requires 0 <= I < |samples| => Sq(Residual(e, f, b, x, numModes, samples[I])))
  }

  /** Σ fi²: the least-squares part of the loss. */
  function LeastSquares(e: Elementary, f: Scheme, b: Bounds, x: seq<real>, numModes: nat, samples: seq<Sample>): real
    requires Evaluable(e, f, b, numModes, x) && PositiveFrequencies(samples)
  {
    Sum(SquaredResiduals(e, f, b, x, numModes, samples))
  }

  /** ∂ response / ∂ slot k of mode J times ds(slice J)(k): the chain rule for one raw slot. */
  function ModeChain(e: Elementary, f: Scheme, b: Bounds, x: seq<real>, J: nat, k: nat, omega: real): real
    requires Sound(e) && NumPara(f) * J + NumPara(f) <= |x| && OrderBoundOk(f, b) && k < NumPara(f) && omega > 0.0
  {
    Mul(ModeGradient(e, f, b, x, J, omega)[k + 1], Jacobian(e, f, b, x, J)[k])
  }

  /** dg(r, I) before scaling: the chain-rule entry of the slot that flat index r names. */
  function ChainEntry(e: Elementary, f: Scheme, b: Bounds, x: seq<real>, numModes: nat, r: nat, omega: real): real
    requires Evaluable(e, f, b, numModes, x) && r < NumPara(f) * numModes && omega > 0.0
  {
    var np := NumPara(f);
    BlockOf(np, r, numModes);
    ModeChain(e, f, b, x, r / np, r % np, omega)
  }

  /** Row r of mode J's block [np·J, np·J + np) is slot r − np·J of mode J. */
  lemma ChainEntryOfRow(e: Elementary, f: Scheme, b: Bounds, x: seq<real>, numModes: nat, J: nat, r: nat, omega: real)
    requires Evaluable(e, f, b, numModes, x) && J < numModes && omega > 0.0
    requires NumPara(f) * J <= r < NumPara(f) * J + NumPara(f)
    ensures NumPara(f) * J + NumPara(f) <= |x| && r < NumPara(f) * numModes
    ensures ChainEntry(e, f, b, x, numModes, r, omega) == ModeChain(e, f, b, x, J, r - NumPara(f) * J, omega)
  {
    var np := NumPara(f);
    BlockFits(np, J, numModes);
    DivModUnique(r, np, J, r - np * J);
  }

  /** What dg holds before scaling: the chain-rule entry of raw slot r at sample I. */
  function ChainTable(e: Elementary, f: Scheme, b: Bounds, x: seq<real>, numModes: nat, samples: seq<Sample>): (t: seq<seq<real>>)
    requires Evaluable(e, f, b, numModes, x) && PositiveFrequencies(samples)
    ensures |t| == |x| && forall r :: 0 <= r < |x| ==> |t[r]| == |samples|
    ensures forall r, I :: 0 <= r < |x| && 0 <= I < |samples| ==>
      t[r][I] == ChainEntry(e, f, b, x, numModes, r, samples[I].omega)
  {
    seq(|x|, r requires 0 <= r < |x| =>
      seq(|samples|, I requires 0 <= I < |samples| => ChainEntry(e, f, b, x, numModes, r, samples[I].omega)))
  }

  /** What the cache holds: out(0) of mode J at sample I. */
  function ResponseTable(e: Elementary, f: Scheme, b: Bounds, x: seq<real>, numModes: nat, samples: seq<Sample>): (t: seq<seq<real>>)
    requires Evaluable(e, f, b, numModes, x) && PositiveFrequencies(samples)
    ensures |t| == numModes && forall J :: 0 <= J < numModes ==> |t[J]| == |samples|
    ensures forall J, I :: 0 <= J < numModes && 0 <= I < |samples| ==>
      t[J][I] == Column(e, f, b, x, numModes, samples[I].omega)[J]
  {
    AllBlocksFit(NumPara(f), numModes);
    seq(numModes, J requires 0 <= J < numModes =>
      seq(|samples|, I requires 0 <= I < |samples| => ModeGradient(e, f, b, x, J, samples[I].omega)[0]))
  }

  /**
   * Mode J's pass at sample I, with grad its compute_gradient there and dsp its ds: grad(0) is
   * the cache entry, and the products of the partials with ds are the chain-rule entries of the
   * block of slots [row, row + np).
   */
  lemma ModeColumn(e: Elementary, f: Scheme, b: Bounds, x: seq<real>, numModes: nat, samples: seq<Sample>,
                   J: nat, I: nat, row: nat, grad: seq<real>, dsp: seq<real>)
    requires Evaluable(e, f, b, numModes, x) && PositiveFrequencies(samples) && J < numModes && I < |samples|
    requires row == NumPara(f) * J && row + NumPara(f) <= |x|
    requires grad == ModeGradient(e, f, b, x, J, samples[I].omega) && dsp == Jacobian(e, f, b, x, J)
    ensures ResponseTable(e, f, b, x, numModes, samples)[J][I] == grad[0]
    ensures forall r :: row <= r < row + NumPara(f) ==>
      ChainTable(e, f, b, x, numModes, samples)[r][I] == Mul(grad[r - row + 1], dsp[r - row])
  {
    forall r | row <= r < row + NumPara(f) {
      ModeChainEntry(e, f, b, x, numModes, samples, J, I, row, grad, dsp, r);
    }
  }

  /** Row r of mode J's block holds partial r − row times jacobian entry r − row. */
  lemma ModeChainEntry(e: Elementary, f: Scheme, b: Bounds, x: seq<real>, numModes: nat, samples: seq<Sample>,
                       J: nat, I: nat, row: nat, grad: seq<real>, dsp: seq<real>, r: nat)
    requires Evaluable(e, f, b, numModes, x) && PositiveFrequencies(samples) && J < numModes && I < |samples|
    requires row == NumPara(f) * J && row + NumPara(f) <= |x|
    requires grad == ModeGradient(e, f, b, x, J, samples[I].omega) && dsp == Jacobian(e, f, b, x, J)
    requires row <= r < row + NumPara(f)
    ensures ChainTable(e, f, b, x, numModes, samples)[r][I] == Mul(grad[r - row + 1], dsp[r - row])
  {
    var k := r - row;
    ChainEntryOfRow(e, f, b, x, numModes, J, r, samples[I].omega);
    assert ModeChain(e, f, b, x, J, k, samples[I].omega) == Mul(grad[k + 1], dsp[k]);
  }

  /** Column i of a table whose rows all reach past i. */
  function TableColumn(t: seq<seq<real>>, i: nat): (col: seq<real>)
    requires forall J :: 0 <= J < |t| ==> i < |t[J]|
    ensures |col| == |t|
    ensures forall J :: 0 <= J < |t| ==> col[J] == t[J][i]
  {
    seq(|t|, J requires 0 <= J < |t| => t[J][i])
  }

  /** Column I of the response table is the response column at that sample's frequency. */
  lemma ResponseColumn(e: Elementary, f: Scheme, b: Bounds, x: seq<real>, numModes: nat, samples: seq<Sample>, I: nat)
    requires Evaluable(e, f, b, numModes, x) && PositiveFrequencies(samples) && I < |samples|
    ensures TableColumn(ResponseTable(e, f, b, x, numModes, samples), I) == Column(e, f, b, x, numModes, samples[I].omega)
  {
  }

  /** The terms of gradient entry r: dg(r, I)·2·fi(I) for every sample. */
  function GradientTerms(e: Elementary, f: Scheme, b: Bounds, x: seq<real>, numModes: nat, r: nat, samples: seq<Sample>): (t: seq<real>)
    requires Evaluable(e, f, b, numModes, x) && r < NumPara(f) * numModes && PositiveFrequencies(samples)
    ensures |t| == |samples|
  {
    seq(|samples|, I requires 0 <= I < |samples| =>
      Mul(ChainEntry(e, f, b, x, numModes, r, samples[I].omega), 2.0 * Residual(e, f, b, x, numModes, samples[I])))
  }

  /** The terms of every gradient entry, one row per raw slot. */
  function GradientTable(e: Elementary, f: Scheme, b: Bounds, x: seq<real>, numModes: nat, samples: seq<Sample>): (t: seq<seq<real>>)
    requires Evaluable(e, f, b, numModes, x) && PositiveFrequencies(samples)
    ensures |t| == |x| && forall r :: 0 <= r < |x| ==> |t[r]| == |samples|
    ensures forall r :: 0 <= r < |x| ==> t[r] == GradientTerms(e, f, b, x, numModes, r, samples)
  {
    seq(|x|, r requires 0 <= r < |x| => GradientTerms(e, f, b, x, numModes, r, samples))
  }

  /** Term I of gradient entry r: the chain-rule entry at sample I times 2·fi(I). */
  lemma GradientTermAt(e: Elementary, f: Scheme, b: Bounds, x: seq<real>, numModes: nat, r: nat, samples: seq<Sample>, I: nat)
    requires Evaluable(e, f, b, numModes, x) && r < NumPara(f) * numModes && PositiveFrequencies(samples) && I < |samples|
    ensures GradientTerms(e, f, b, x, numModes, r, samples)[I]
         == Mul(ChainEntry(e, f, b, x, numModes, r, samples[I].omega), 2.0 * Residual(e, f, b, x, numModes, samples[I]))
  {
  }

  /** Entry r of the least-squares gradient: Σ_I 2·fi·∂·ds. */
  function LeastSquaresGradient(e: Elementary, f: Scheme, b: Bounds, x: seq<real>, numModes: nat, r: nat, samples: seq<Sample>): real
    requires Evaluable(e, f, b, numModes, x) && r < NumPara(f) * numModes && PositiveFrequencies(samples)
  {
    Sum(GradientTerms(e, f, b, x, numModes, r, samples))
  }

  /** Mode J's order in slot k. */
  function Order(e: Elementary, f: Scheme, b: Bounds, x: seq<real>, J: nat, k: nat): real
    requires Sound(e) && NumPara(f) * J + NumPara(f) <= |x| && k < NumPara(f)
  {
    Params(e, f, b, x, J)[k]
  }

  /** Σ decimal(order)² over the penalised slots of mode J. */
  function ModePenalty(e: Elementary, f: Scheme, b: Bounds, x: seq<real>, J: nat): (v: real)
    requires Sound(e) && NumPara(f) * J + NumPara(f) <= |x|
    ensures v >= 0.0
  {
    match f
    case UnicornScheme => Sq(Decimal(Order(e, f, b, x, J, 2)))
    case TwoCitiesScheme => Sq(Decimal(Order(e, f, b, x, J, 2))) + Sq(Decimal(Order(e, f, b, x, J, 3)))
    case _ => 0.0
  }

  function ModePenalties(e: Elementary, f: Scheme, b: Bounds, x: seq<real>, numModes: nat): (q: seq<real>)
    requires Evaluable(e, f, b, numModes, x)
    ensures |q| == numModes
    ensures forall J :: 0 <= J < numModes ==> q[J] >= 0.0
  {
    AllBlocksFit(NumPara(f), numModes);
    seq(numModes, J requires 0 <= J < numModes => ModePenalty(e, f, b, x, J))
  }

  /** weight·Σ decimal(n)² for the penalised schemes, nothing for the others. */
  function Penalty(e: Elementary, f: Scheme, b: Bounds, weight: real, x: seq<real>, numModes: nat): real
    requires Evaluable(e, f, b, numModes, x)
  {
    if HasPenalty(f) then Mul(weight, Sum(ModePenalties(e, f, b, x, numModes))) else 0.0
  }

  /** The value EvaluateWithGradient returns. */
  function Loss(e: Elementary, f: Scheme, b: Bounds, weight: real, x: seq<real>, numModes: nat, samples: seq<Sample>): real
    requires Evaluable(e, f, b, numModes, x) && PositiveFrequencies(samples)
  {
    LeastSquares(e, f, b, x, numModes, samples) + Penalty(e, f, b, weight, x, numModes)
  }

  /** What the penalty adds to gradient entry r: 2·weight·decimal(n)·ds at an order slot, else 0. */
  function PenaltyGradient(e: Elementary, f: Scheme, b: Bounds, weight: real, x: seq<real>, numModes: nat, r: nat): real
    requires Evaluable(e, f, b, numModes, x) && r < NumPara(f) * numModes
  {
    var np := NumPara(f);
    BlockOf(np, r, numModes);
    if PenalisedSlot(f, r % np)
    then PenaltySlope(weight, Order(e, f, b, x, r / np, r % np), Jacobian(e, f, b, x, r / np)[r % np])
    else 0.0
  }

  /** Entry r of the gradient EvaluateWithGradient writes. */
  function TotalGradient(e: Elementary, f: Scheme, b: Bounds, weight: real, x: seq<real>, numModes: nat, r: nat, samples: seq<Sample>): real
    requires Evaluable(e, f, b, numModes, x) && r < NumPara(f) * numModes && PositiveFrequencies(samples)
  {
    LeastSquaresGradient(e, f, b, x, numModes, r, samples) + PenaltyGradient(e, f, b, weight, x, numModes, r)
  }

  lemma LeastSquaresNonNegative(e: Elementary, f: Scheme, b: Bounds, x: seq<real>, numModes: nat, samples: seq<Sample>)
    requires Evaluable(e, f, b, numModes, x) && PositiveFrequencies(samples)
    ensures LeastSquares(e, f, b, x, numModes, samples) >= 0.0
  {
    SumNonNegative(SquaredResiduals(e, f, b, x, numModes, samples));
  }

  lemma PenaltyNonNegative(e: Elementary, f: Scheme, b: Bounds, weight: real, x: seq<real>, numModes: nat)
    requires Evaluable(e, f, b, numModes, x) && weight >= 0.0
    ensures Penalty(e, f, b, weight, x, numModes) >= 0.0
  {
    if HasPenalty(f) {
      ScaledSumNonNegative(weight, ModePenalties(e, f, b, x, numModes));
    }
  }

  /** With a non-negative weight the loss is never negative. */
  lemma LossNonNegative(e: Elementary, f: Scheme, b: Bounds, weight: real, x: seq<real>, numModes: nat, samples: seq<Sample>)
    requires Evaluable(e, f, b, numModes, x) && PositiveFrequencies(samples) && weight >= 0.0
    ensures Loss(e, f, b, weight, x, numModes, samples) >= 0.0
  {
    LeastSquaresNonNegative(e, f, b, x, numModes, samples);
    PenaltyNonNegative(e, f, b, weight, x, numModes);
  }

  /** Every penalised order of mode J is a whole number. */
  ghost predicate WholeModeOrders(e: Elementary, f: Scheme, b: Bounds, x: seq<real>, J: nat)
    requires Sound(e) && NumPara(f) * J + NumPara(f) <= |x|
  {
    forall k :: 0 <= k < NumPara(f) && PenalisedSlot(f, k) ==> IsInteger(Order(e, f, b, x, J, k))
  }

  /** Every penalised order of every mode is a whole number. */
  ghost predicate WholeOrders(e: Elementary, f: Scheme, b: Bounds, x: seq<real>, numModes: nat)
    requires Evaluable(e, f, b, numModes, x)
  {
    AllBlocksFit(NumPara(f), numModes);
    forall J :: 0 <= J < numModes ==> WholeModeOrders(e, f, b, x, J)
  }

  /** A mode's penalty is zero exactly when its penalised orders are whole. */
  lemma ModePenaltyZero(e: Elementary, f: Scheme, b: Bounds, x: seq<real>, J: nat)
    requires Sound(e) && NumPara(f) * J + NumPara(f) <= |x|
    ensures ModePenalty(e, f, b, x, J) == 0.0 <==> WholeModeOrders(e, f, b, x, J)
  {
    if HasPenalty(f) {
      var n2 := Order(e, f, b, x, J, 2);
      DecimalZeroIffInteger(n2);
      if f == TwoCitiesScheme {
        var n3 := Order(e, f, b, x, J, 3);
        DecimalZeroIffInteger(n3);
      }
    }
  }

  /**
   * For a positive weight the penalised loss equals the least-squares loss exactly when every
   * order is a whole number.
   */
  lemma {:induction false} LossIsLeastSquaresIffWholeOrders(e: Elementary, f: Scheme, b: Bounds, weight: real, x: seq<real>, numModes: nat, samples: seq<Sample>)
    requires Evaluable(e, f, b, numModes, x) && PositiveFrequencies(samples) && weight > 0.0
    ensures Loss(e, f, b, weight, x, numModes, samples) == LeastSquares(e, f, b, x, numModes, samples)
        <==> WholeOrders(e, f, b, x, numModes)
  {
    PenaltyZeroIffWholeOrders(e, f, b, weight, x, numModes);
  }

  /** For a positive weight the penalty vanishes exactly on whole orders. */
  lemma PenaltyZeroIffWholeOrders(e: Elementary, f: Scheme, b: Bounds, weight: real, x: seq<real>, numModes: nat)
    requires Evaluable(e, f, b, numModes, x) && weight > 0.0
    ensures Penalty(e, f, b, weight, x, numModes) == 0.0 <==> WholeOrders(e, f, b, x, numModes)
  {
    var q := ModePenalties(e, f, b, x, numModes);
    PenaltiesZeroIffWholeOrders(e, f, b, x, numModes);
    if HasPenalty(f) {
      ScaledSumZeroIff(weight, q);
    }
  }

  lemma PenaltiesZeroIffWholeOrders(e: Elementary, f: Scheme, b: Bounds, x: seq<real>, numModes: nat)
    requires Evaluable(e, f, b, numModes, x)
    ensures (forall J :: 0 <= J < numModes ==> ModePenalties(e, f, b, x, numModes)[J] == 0.0)
        <==> WholeOrders(e, f, b, x, numModes)
  {
    var q := ModePenalties(e, f, b, x, numModes);
    AllBlocksFit(NumPara(f), numModes);
    forall J | 0 <= J < numModes
      ensures q[J] == 0.0 <==> WholeModeOrders(e, f, b, x, J)
    {
      ModePenaltyZero(e, f, b, x, J);
    }
  }

  /** The penalty touches only order slots; every other entry is the least-squares gradient. */
  lemma PenaltyOnlyAtOrderSlots(e: Elementary, f: Scheme, b: Bounds, weight: real, x: seq<real>, numModes: nat, J: nat, k: nat, samples: seq<Sample>)
    requires Evaluable(e, f, b, numModes, x) && PositiveFrequencies(samples)
    requires J < numModes && k < NumPara(f) && !PenalisedSlot(f, k)
    ensures NumPara(f) * J + k < NumPara(f) * numModes
    ensures TotalGradient(e, f, b, weight, x, numModes, NumPara(f) * J + k, samples)
         == LeastSquaresGradient(e, f, b, x, numModes, NumPara(f) * J + k, samples)
  {
    PenaltyOffOrderSlot(e, f, b, weight, x, numModes, J, k);
  }

  /** At an order slot the penalty adds 2·weight·decimal(n_J)·ds(slot J)(k). */
  lemma PenaltyAtOrderSlot(e: Elementary, f: Scheme, b: Bounds, weight: real, x: seq<real>, numModes: nat, J: nat, k: nat)
    requires Evaluable(e, f, b, numModes, x)
    requires J < numModes && k < NumPara(f) && PenalisedSlot(f, k)
    ensures NumPara(f) * J + NumPara(f) <= |x| && NumPara(f) * J + k < NumPara(f) * numModes
    ensures PenaltyGradient(e, f, b, weight, x, numModes, NumPara(f) * J + k)
         == PenaltySlope(weight, Order(e, f, b, x, J, k), Jacobian(e, f, b, x, J)[k])
    ensures PenaltyGradient(e, f, b, weight, x, numModes, NumPara(f) * J + k)
         == 2.0 * weight * Decimal(Order(e, f, b, x, J, k)) * Jacobian(e, f, b, x, J)[k]
  {
    var np := NumPara(f);
    BlockFits(np, J, numModes);
    SlotOf(np, J, k);
    var r := np * J + k;
    assert r / np == J && r % np == k;
    assert PenaltyGradient(e, f, b, weight, x, numModes, r)
        == PenaltySlope(weight, Order(e, f, b, x, J, k), Jacobian(e, f, b, x, J)[k]);
  }

  /** Per-block form of `PenaltyGradient`: slot k of mode J gets the penalty slope of its order. */
  lemma PenaltyGradientOfSlot(e: Elementary, f: Scheme, b: Bounds, weight: real, x: seq<real>, numModes: nat, J: nat, k: nat)
    requires Evaluable(e, f, b, numModes, x) && J < numModes && k < NumPara(f)
    ensures NumPara(f) * J + NumPara(f) <= |x| && NumPara(f) * J + k < NumPara(f) * numModes
    ensures PenaltyGradient(e, f, b, weight, x, numModes, NumPara(f) * J + k)
         == if PenalisedSlot(f, k) then PenaltySlope(weight, Order(e, f, b, x, J, k), Jacobian(e, f, b, x, J)[k]) else 0.0
  {
    if PenalisedSlot(f, k) {
      PenaltyAtOrderSlot(e, f, b, weight, x, numModes, J, k);
    } else {
      PenaltyOffOrderSlot(e, f, b, weight, x, numModes, J, k);
    }
  }

  lemma PenaltyOffOrderSlot(e: Elementary, f: Scheme, b: Bounds, weight: real, x: seq<real>, numModes: nat, J: nat, k: nat)
    requires Evaluable(e, f, b, numModes, x)
    requires J < numModes && k < NumPara(f) && !PenalisedSlot(f, k)
    ensures NumPara(f) * J + k < NumPara(f) * numModes
    ensures PenaltyGradient(e, f, b, weight, x, numModes, NumPara(f) * J + k) == 0.0
  {
    BlockFits(NumPara(f), J, numModes);
    SlotOf(NumPara(f), J, k);
  }

  /** n.col(J) / n(J): the orders of mode J, the parameters after the two leading slots. */
  function OrderTails(e: Elementary, f: Scheme, b: Bounds, x: seq<real>, numModes: nat): (n: seq<seq<real>>)
    requires Evaluable(e, f, b, numModes, x)
    ensures |n| == numModes
    ensures forall J :: 0 <= J < numModes ==> |n[J]| == NumPara(f) - 2
  {
    AllBlocksFit(NumPara(f), numModes);
    seq(numModes, J requires 0 <= J < numModes => Params(e, f, b, x, J)[2..])
  }

  /** dn.col(J) / dn(J): the jacobian entries of those orders. */
  function SlopeTails(e: Elementary, f: Scheme, b: Bounds, x: seq<real>, numModes: nat): (dn: seq<seq<real>>)
    requires Evaluable(e, f, b, numModes, x)
    ensures |dn| == numModes
    ensures forall J :: 0 <= J < numModes ==> |dn[J]| == NumPara(f) - 2
  {
    AllBlocksFit(NumPara(f), numModes);
    seq(numModes, J requires 0 <= J < numModes => Jacobian(e, f, b, x, J)[2..])
  }

  /** Entry J of the stored tails is the tail of mode J's parameters and of its jacobian. */
  lemma TailsOfMode(e: Elementary, f: Scheme, b: Bounds, x: seq<real>, numModes: nat, J: nat)
    requires Evaluable(e, f, b, numModes, x) && J < numModes
    ensures NumPara(f) * J + NumPara(f) <= |x|
    ensures OrderTails(e, f, b, x, numModes)[J] == Params(e, f, b, x, J)[2..]
    ensures SlopeTails(e, f, b, x, numModes)[J] == Jacobian(e, f, b, x, J)[2..]
  {
    BlockFits(NumPara(f), J, numModes);
  }

  /**
   * What one window of EvaluateWithGradient writes, sample by sample and mode by mode: the
   * chain-rule entries of dg, the responses of the cache, and the orders and order slopes the
   * penalised schemes collect.
   */
  datatype Tables = Tables(chain: seq<seq<real>>, response: seq<seq<real>>, tails: seq<seq<real>>, slopes: seq<seq<real>>)

  ghost function WindowTables(e: Elementary, f: Scheme, b: Bounds, x: seq<real>, numModes: nat, samples: seq<Sample>): (tb: Tables)
    requires Evaluable(e, f, b, numModes, x) && PositiveFrequencies(samples)
    ensures |tb.tails| == |tb.slopes| == numModes
  {
    Tables(ChainTable(e, f, b, x, numModes, samples), ResponseTable(e, f, b, x, numModes, samples),
           OrderTails(e, f, b, x, numModes), SlopeTails(e, f, b, x, numModes))
  }

  /** linspace<uvec>(0, n − 1, n): the indices 0, 1, …, n − 1. */
  function Range(n: nat): (s: seq<nat>)
    ensures |s| == n
    ensures forall i :: 0 <= i < n ==> s[i] == i
  {
    seq(n, i requires 0 <= i < n => i)
  }

  /** num_para·base + k: slot k of every mode that `base` lists, as flat indices. */
  function SlotIndices(np: nat, base: seq<nat>, numModes: nat, k: nat): (idx: seq<nat>)
    requires k < np && forall t :: 0 <= t < |base| ==> base[t] < numModes
    ensures |idx| == |base|
    ensures forall t :: 0 <= t < |base| ==> idx[t] == np * base[t] + k && idx[t] < np * numModes
  {
    AllBlocksFit(np, numModes);
    seq(|base|, t requires 0 <= t < |base| => np * base[t] + k)
  }

  /** g(idx) += v: the listed entries of g get the matching entries of v added, one after another. */
  function AddAt(g: seq<real>, idx: seq<nat>, v: seq<real>): (h: seq<real>)
    requires |idx| == |v| && forall t :: 0 <= t < |idx| ==> idx[t] < |g|
    ensures |h| == |g|
    decreases |idx|
  {
    if |idx| == 0 then g
    else
      var last := |idx| - 1;
      var h := AddAt(g, idx[..last], v[..last]);
      h[idx[last] := h[idx[last]] + v[last]]
  }

  /**
   * Adding v(t) at slot k of block t, for the blocks t < |idx|: slot j of block J gains v(J)
   * when j is k and block J is listed, and nothing otherwise.
   */
  lemma {:induction false} AddAtSlots(g: seq<real>, idx: seq<nat>, v: seq<real>, np: nat, k: nat, J: nat, j: nat)
    requires k < np && j < np && |idx| == |v| && np * |idx| <= |g| && np * J + j < |g|
    requires forall t :: 0 <= t < |idx| ==> idx[t] == np * t + k
    ensures forall t :: 0 <= t < |idx| ==> idx[t] < |g|
    ensures AddAt(g, idx, v)[np * J + j] == g[np * J + j] + (if j == k && J < |idx| then v[J] else 0.0)
    decreases |idx|
  {
    AllBlocksFit(np, |idx|);
    if |idx| > 0 {
      var last := |idx| - 1;
      BlockFits(np, last, |idx|);
      MulAtLeast(np, 1);
      AddAtSlots(g, idx[..last], v[..last], np, k, J, j);
      var r := np * J + j;
      var h := AddAt(g, idx[..last], v[..last]);
      assert AddAt(g, idx, v) == h[idx[last] := h[idx[last]] + v[last]];
      if r == idx[last] {
        DivModUnique(r, np, J, j);
        DivModUnique(r, np, last, k);
        assert AddAt(g, idx, v)[r] == h[r] + v[last];
      } else {
        assert AddAt(g, idx, v)[r] == h[r];
      }
    }
  }

  /** 2·weight·decimal(n)·dn for stored order j of every mode. */
  function SlopeColumn(weight: real, n: seq<seq<real>>, dn: seq<seq<real>>, j: nat): (v: seq<real>)
    requires |n| == |dn| && forall J :: 0 <= J < |n| ==> j < |n[J]| && j < |dn[J]|
    ensures |v| == |n|
    ensures forall J :: 0 <= J < |n| ==> v[J] == PenaltySlope(weight, n[J][j], dn[J][j])
  {
    seq(|n|, J requires 0 <= J < |n| => PenaltySlope(weight, n[J][j], dn[J][j]))
  }

  /**
   * g(num_para·base + 2) += 2·weight·decimal(n)·dn for the first stored order, and for Two
   * Cities g(num_para·base + 3) += … for the second.
   */
  function AddPenaltySlopes(f: Scheme, weight: real, base: seq<nat>, numModes: nat,
                            n: seq<seq<real>>, dn: seq<seq<real>>, g: seq<real>): (h: seq<real>)
    requires HasPenalty(f) && |g| == NumPara(f) * numModes
    requires forall t :: 0 <= t < |base| ==> base[t] < numModes
    requires |n| == |base| && |dn| == |base|
    requires forall J :: 0 <= J < |n| ==> |n[J]| == NumPara(f) - 2 && |dn[J]| == NumPara(f) - 2
    ensures |h| == |g|
  {
    var np := NumPara(f);
    var h := AddAt(g, SlotIndices(np, base, numModes, 2), SlopeColumn(weight, n, dn, 0));
    if f == TwoCitiesScheme then AddAt(h, SlotIndices(np, base, numModes, 3), SlopeColumn(weight, n, dn, 1)) else h
  }

  /** One scatter over base = 0 … M − 1 at slot k adds w(J) to slot k of mode J and nothing elsewhere. */
  lemma ScatterSlot(g: seq<real>, np: nat, numModes: nat, k: nat, w: seq<real>, J: nat, j: nat)
    requires k < np && j < np && J < numModes && |g| == np * numModes && |w| == numModes
    ensures np * J + j < |g|
    ensures AddAt(g, SlotIndices(np, Range(numModes), numModes, k), w)[np * J + j]
         == g[np * J + j] + (if j == k then w[J] else 0.0)
  {
    BlockFits(np, J, numModes);
    AddAtSlots(g, SlotIndices(np, Range(numModes), numModes, k), w, np, k, J, j);
  }

  /** Unicorn scatters the slope of its one order into slot 2. */
  lemma ScatterUnicorn(weight: real, numModes: nat, n: seq<seq<real>>, dn: seq<seq<real>>, g: seq<real>, J: nat, j: nat)
    requires |g| == 3 * numModes && J < numModes && j < 3 && |n| == numModes && |dn| == numModes
    requires forall t :: 0 <= t < numModes ==> |n[t]| == 1 && |dn[t]| == 1
    ensures 3 * J + j < |g|
    ensures AddPenaltySlopes(UnicornScheme, weight, Range(numModes), numModes, n, dn, g)[3 * J + j]
         == g[3 * J + j] + (if j == 2 then PenaltySlope(weight, n[J][0], dn[J][0]) else 0.0)
  {
    ScatterSlot(g, 3, numModes, 2, SlopeColumn(weight, n, dn, 0), J, j);
  }

  /** Two Cities scatters the slopes of its two orders into slots 2 and 3. */
  lemma ScatterTwoCities(weight: real, numModes: nat, n: seq<seq<real>>, dn: seq<seq<real>>, g: seq<real>, J: nat, j: nat)
    requires |g| == 4 * numModes && J < numModes && j < 4 && |n| == numModes && |dn| == numModes
    requires forall t :: 0 <= t < numModes ==> |n[t]| == 2 && |dn[t]| == 2
    ensures 4 * J + j < |g|
    ensures AddPenaltySlopes(TwoCitiesScheme, weight, Range(numModes), numModes, n, dn, g)[4 * J + j]
         == g[4 * J + j] + (if j == 2 || j == 3 then PenaltySlope(weight, n[J][j - 2], dn[J][j - 2]) else 0.0)
  {
    var h := AddAt(g, SlotIndices(4, Range(numModes), numModes, 2), SlopeColumn(weight, n, dn, 0));
    ScatterSlot(g, 4, numModes, 2, SlopeColumn(weight, n, dn, 0), J, j);
    ScatterSlot(h, 4, numModes, 3, SlopeColumn(weight, n, dn, 1), J, j);
  }

  /**
   * What the scatter adds at slot j of mode J: the slope of the order stored for that slot when
   * the slot carries an order, nothing otherwise.
   */
  lemma ScatterAt(f: Scheme, weight: real, numModes: nat, n: seq<seq<real>>, dn: seq<seq<real>>, g: seq<real>, J: nat, j: nat)
    requires HasPenalty(f) && |g| == NumPara(f) * numModes && J < numModes && j < NumPara(f)
    requires |n| == numModes && |dn| == numModes
    requires forall t :: 0 <= t < numModes ==> |n[t]| == NumPara(f) - 2 && |dn[t]| == NumPara(f) - 2
    ensures NumPara(f) * J + j < |g|
    ensures AddPenaltySlopes(f, weight, Range(numModes), numModes, n, dn, g)[NumPara(f) * J + j]
         == g[NumPara(f) * J + j] + (if PenalisedSlot(f, j) then PenaltySlope(weight, n[J][j - 2], dn[J][j - 2]) else 0.0)
  {
    if f == UnicornScheme {
      ScatterUnicorn(weight, numModes, n, dn, g, J, j);
    } else {
      ScatterTwoCities(weight, numModes, n, dn, g, J, j);
    }
  }

  /**
   * With base = 0 … M − 1 and the stored orders and order slopes of x, the scatter adds exactly
   * the penalty's share of every gradient entry.
   */
  lemma PenaltySlopesArePenaltyGradient(e: Elementary, f: Scheme, b: Bounds, weight: real, x: seq<real>,
                                        numModes: nat, g: seq<real>, r: nat)
    requires Evaluable(e, f, b, numModes, x) && HasPenalty(f) && |g| == |x| && r < |x|
    ensures AddPenaltySlopes(f, weight, Range(numModes), numModes, OrderTails(e, f, b, x, numModes),
                             SlopeTails(e, f, b, x, numModes), g)[r]
         == g[r] + PenaltyGradient(e, f, b, weight, x, numModes, r)
  {
    var np := NumPara(f);
    var n, dn := OrderTails(e, f, b, x, numModes), SlopeTails(e, f, b, x, numModes);
    BlockOf(np, r, numModes);
    var J, j := r / np, r % np;
    TailsOfMode(e, f, b, x, numModes, J);
    PenaltyGradientOfSlot(e, f, b, weight, x, numModes, J, j);
    ScatterAt(f, weight, numModes, n, dn, g, J, j);
    if PenalisedSlot(f, j) {
      assert n[J][j - 2] == Order(e, f, b, x, J, j) && dn[J][j - 2] == Jacobian(e, f, b, x, J)[j];
    }
  }

  /** Σ decimal(n)² over one stored order vector. */
  function FloorSquares(n: seq<real>): (v: real)
    ensures v >= 0.0
  {
    SumNonNegative(seq(|n|, k requires 0 <= k < |n| => Sq(Decimal(n[k]))));
    Sum(seq(|n|, k requires 0 <= k < |n| => Sq(Decimal(n[k]))))
  }

  /** accu(pow(floor_diff, 2.)) taken mode by mode. */
  function AllFloorSquares(n: seq<seq<real>>): (q: seq<real>)
    ensures |q| == |n|
  {
    seq(|n|, J requires 0 <= J < |n| => FloorSquares(n[J]))
  }

  /** One stored order: decimal(n)². */
  lemma FloorSquaresOne(a: real)
    ensures FloorSquares([a]) == Sq(Decimal(a))
  {
    var sq := seq(1, k requires 0 <= k < 1 => Sq(Decimal([a][k])));
    assert sq[..0] == [];
    SumPrefix(sq, 0);
    assert sq[..1] == sq;
  }

  /** Two stored orders: the sum of both squared decimals. */
  lemma FloorSquaresTwo(a: real, c: real)
    ensures FloorSquares([a, c]) == Sq(Decimal(a)) + Sq(Decimal(c))
  {
    var sq := seq(2, k requires 0 <= k < 2 => Sq(Decimal([a, c][k])));
    assert sq[..0] == [];
    SumPrefix(sq, 0);
    SumPrefix(sq, 1);
    assert sq[..2] == sq;
  }

  /** The order tail of mode J carries exactly that mode's penalty. */
  lemma FloorSquaresOfMode(e: Elementary, f: Scheme, b: Bounds, x: seq<real>, J: nat)
    requires Sound(e) && NumPara(f) * J + NumPara(f) <= |x| && HasPenalty(f)
    ensures FloorSquares(Params(e, f, b, x, J)[2..]) == ModePenalty(e, f, b, x, J)
  {
    var t := Params(e, f, b, x, J)[2..];
    if f == UnicornScheme {
      assert t == [Order(e, f, b, x, J, 2)];
      FloorSquaresOne(Order(e, f, b, x, J, 2));
    } else {
      assert t == [Order(e, f, b, x, J, 2), Order(e, f, b, x, J, 3)];
      FloorSquaresTwo(Order(e, f, b, x, J, 2), Order(e, f, b, x, J, 3));
    }
  }

  /**
   * Summing decimal(n)² over the stored tails is the same as summing the per-mode penalties over
   * the order slots: the order tail of a penalised scheme holds exactly its penalised slots.
   */
  lemma FloorSquaresArePenalties(e: Elementary, f: Scheme, b: Bounds, x: seq<real>, numModes: nat)
    requires Evaluable(e, f, b, numModes, x) && HasPenalty(f)
    ensures AllFloorSquares(OrderTails(e, f, b, x, numModes)) == ModePenalties(e, f, b, x, numModes)
  {
    var n := OrderTails(e, f, b, x, numModes);
    var q := ModePenalties(e, f, b, x, numModes);
    AllBlocksFit(NumPara(f), numModes);
    forall J | 0 <= J < numModes
      ensures AllFloorSquares(n)[J] == q[J]
    {
      FloorSquaresOfMode(e, f, b, x, J);
    }
  }
}
