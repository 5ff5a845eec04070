/**
 * How a fit drives an optimizer: the setting a fit starts from, which knobs each optimizer
 * kind honours (the template specialisations that turn a setter into a no-op), the
 * cancellation observer, and `run_optimizer`, which configures the optimizer and the
 * objective and decodes the optimised raw vector into one row of mode parameters per mode.
 */
module OptimizerTuning {
  import opened RealMath
  import opened Reparam
  import opened Family
  import opened ObjectiveSpec
  import opened Objective

  /** The fields of OptimizerSetting. */
  datatype OptimizerSetting = OptimizerSetting(maxOrder: int, batchSize: int, maxIter: int,
                                               tolerance: real, stepSize: real, weight: real)

  /** The member initialisers of OptimizerSetting. */
  function DefaultSetting(): (s: OptimizerSetting)
    ensures s.maxOrder == 5 && s.batchSize == 32 && s.maxIter == 20000
    ensures s.tolerance == 0.00000001 && s.stepSize == 0.001 && s.weight == 0.0001
  {
    OptimizerSetting(5, 32, 20000, 0.00000001, 0.001, 0.0001)
  }

  /**
   * The optimizer types the setters are instantiated with: the ones with a specialisation, and
   * `OtherKind` for every type that takes the primary template.
   */
  datatype OptimizerKind =
    | LBFGS | GradientDescent | AugLagrangian | KatyushaProximal | SA | CNE | DE | SPSA | OtherKind

  /** StepSize is a no-op for KatyushaProximal, L_BFGS, AugLagrangian, SA, CNE and DE. */
  predicate HonoursStepSize(k: OptimizerKind) {
    !(k == KatyushaProximal || k == LBFGS || k == AugLagrangian || k == SA || k == CNE || k == DE)
  }

  /** Tolerance is a no-op for L_BFGS, AugLagrangian and SPSA. */
  predicate HonoursTolerance(k: OptimizerKind) {
    !(k == LBFGS || k == AugLagrangian || k == SPSA)
  }

  /** BatchSize is a no-op for L_BFGS, GradientDescent, AugLagrangian, SA, CNE, DE and SPSA. */
  predicate HonoursBatchSize(k: OptimizerKind) {
    !(k == LBFGS || k == GradientDescent || k == AugLagrangian || k == SA || k == CNE || k == DE || k == SPSA)
  }

  /** MaxIterations sets MaxGenerations for CNE and DE, MaxIterations for every other kind. */
  predicate IterationsAreGenerations(k: OptimizerKind) {
    k == CNE || k == DE
  }

  /**
   * Of the three optimizers a fit can select, L-BFGS and the augmented Lagrangian take only the
   * iteration limit, and gradient descent takes the step size, the tolerance and the iteration
   * limit but not the batch size; a batch size reaches only optimizers outside these three.
   */
  lemma FitOptimizerKnobs(k: OptimizerKind)
    ensures k == LBFGS || k == AugLagrangian ==>
      !HonoursStepSize(k) && !HonoursTolerance(k) && !HonoursBatchSize(k) && !IterationsAreGenerations(k)
    ensures k == GradientDescent ==>
      HonoursStepSize(k) && HonoursTolerance(k) && !HonoursBatchSize(k) && !IterationsAreGenerations(k)
    ensures HonoursBatchSize(k) ==> k == KatyushaProximal || k == OtherKind
  {
  }

  /** The knobs of one optimizer object, as the setters see them. */
  class Optimizer {
    const kind: OptimizerKind
    var stepSize: real
    var tolerance: real
    var batchSize: int
    var maxIterations: int
    var maxGenerations: int

    /** A default-constructed optimizer; its own defaults come from the library. */
    constructor(k: OptimizerKind, step: real, tol: real, batch: int, iterations: int, generations: int)
      ensures kind == k && stepSize == step && tolerance == tol && batchSize == batch
      ensures maxIterations == iterations && maxGenerations == generations
    {
      kind, stepSize, tolerance, batchSize := k, step, tol, batch;
      maxIterations, maxGenerations := iterations, generations;
    }

    /** StepSize(optimizer, v). */
    method SetStepSize(v: real)
      modifies this`stepSize
      ensures stepSize == if HonoursStepSize(kind) then v else old(stepSize)
    {
      if HonoursStepSize(kind) {
        stepSize := v;
      }
    }

    /** Tolerance(optimizer, v). */
    method SetTolerance(v: real)
      modifies this`tolerance
      ensures tolerance == if HonoursTolerance(kind) then v else old(tolerance)
    {
      if HonoursTolerance(kind) {
        tolerance := v;
      }
    }

    /** BatchSize(optimizer, v). */
    method SetBatchSize(v: int)
      modifies this`batchSize
      ensures batchSize == if HonoursBatchSize(kind) then v else old(batchSize)
    {
      if HonoursBatchSize(kind) {
        batchSize := v;
      }
    }

    /** MaxIterations(optimizer, v): the generation limit for CNE and DE. */
    method SetMaxIterations(v: int)
      modifies this`maxIterations, this`maxGenerations
      ensures maxGenerations == if IterationsAreGenerations(kind) then v else old(maxGenerations)
      ensures maxIterations == if IterationsAreGenerations(kind) then old(maxIterations) else v
    {
      if IterationsAreGenerations(kind) {
        maxGenerations := v;
      } else {
        maxIterations := v;
      }
    }

    /** The four setter calls that open run_optimizer. */
    method Configure(setting: OptimizerSetting)
      modifies this
      ensures stepSize == if HonoursStepSize(kind) then setting.stepSize else old(stepSize)
      ensures tolerance == if HonoursTolerance(kind) then setting.tolerance else old(tolerance)
      ensures batchSize == if HonoursBatchSize(kind) then setting.batchSize else old(batchSize)
      ensures maxGenerations == if IterationsAreGenerations(kind) then setting.maxIter else old(maxGenerations)
      ensures maxIterations == if IterationsAreGenerations(kind) then old(maxIterations) else setting.maxIter
    {
      SetStepSize(setting.stepSize);
      SetTolerance(setting.tolerance);
      SetBatchSize(setting.batchSize);
      SetMaxIterations(setting.maxIter);
    }
  }

  /** The cancellation flag the interface thread sets and the optimizer thread reads. */
  class QuitFlag {
    var quit: bool

    constructor(q: bool)
      ensures quit == q
    {
      quit := q;
    }
  }

  /**
   * The EarlyQuit callback: every checkpoint answers with the current value of the flag, so the
   * optimizer stops at its next checkpoint once the flag is set. A checkpoint only reads the flag.
   */
  class EarlyQuit {
    const ifQuit: QuitFlag

    constructor(quit: QuitFlag)
      ensures ifQuit == quit
    {
      ifQuit := quit;
    }

    function BeginOptimization(x: seq<real>): (stop: bool)
      reads this, ifQuit
      ensures stop <==> ifQuit.quit
    {
      ifQuit.quit
    }

    function Evaluate(x: seq<real>, objective: real): (stop: bool)
      reads this, ifQuit
      ensures stop <==> ifQuit.quit
    {
      ifQuit.quit
    }

    function Gradient(x: seq<real>, g: seq<real>): (stop: bool)
      reads this, ifQuit
      ensures stop <==> ifQuit.quit
    {
      ifQuit.quit
    }

    function StepTaken(x: seq<real>): (stop: bool)
      reads this, ifQuit
      ensures stop <==> ifQuit.quit
    {
      ifQuit.quit
    }
  }

  /**
   * reshape(x, getSize(), getNumberModes()) with `s` applied to each column, transposed: one row
   * per mode, row J the parameters `s` gives mode J's raw slots [np·J, np·J + np).
   */
  function DecodeResult(e: Elementary, f: Scheme, b: Bounds, x: seq<real>, numModes: nat): (t: seq<seq<real>>)
    requires Sound(e) && |x| == NumPara(f) * numModes
    ensures |t| == numModes
    ensures forall J :: 0 <= J < numModes ==> NumPara(f) * J + NumPara(f) <= |x| && t[J] == Params(e, f, b, x, J)
  {
    AllBlocksFit(NumPara(f), numModes);
    seq(numModes, J requires 0 <= J < numModes => Params(e, f, b, x, J))
  }

  /**
   * Every decoded row has getSize() entries and is a parameter set the scheme's closed forms
   * accept, and the mode it describes has, at every positive frequency, the response the
   * objective cached for that mode in its last evaluation at x.
   */
  lemma DecodedModesReproduceCache(e: Elementary, f: Scheme, b: Bounds, x: seq<real>, numModes: nat,
                                   J: nat, omega: real)
    requires Evaluable(e, f, b, numModes, x) && J < numModes && omega > 0.0
    ensures |DecodeResult(e, f, b, x, numModes)[J]| == NumPara(f)
    ensures Admissible(f, DecodeResult(e, f, b, x, numModes)[J])
    ensures Response(e, f, omega, DecodeResult(e, f, b, x, numModes)[J]) == Column(e, f, b, x, numModes, omega)[J]
  {
    BlockFits(NumPara(f), J, numModes);
    CacheValueIsResponse(e, f, b, x, J, omega);
  }

  /** 2·randn(n) with the normal draws given: the start vector. */
  function StartVector(draws: seq<real>): (x: seq<real>)
    ensures |x| == |draws|
    ensures forall k :: 0 <= k < |draws| ==> x[k] == 2.0 * draws[k]
  {
    seq(|draws|, k requires 0 <= k < |draws| => 2.0 * draws[k])
  }

  /**
   * run_optimizer: configures the optimizer, copies the weight and the max order into the
   * objective, starts from 2·randn(getSize()·getNumberModes()) and decodes the vector the
   * optimizer ends at. The normal draws and the optimizer's result are parameters; the result
   * has the shape of the start vector, as Optimize changes x in place.
   */
  method RunOptimizer(setting: OptimizerSetting, optimizer: Optimizer, f: ObjectiveFunction,
                      draws: seq<real>, optimised: seq<real>)
    returns (start: seq<real>, result: seq<seq<real>>)
    requires f.Valid() && |draws| == NumPara(f.scheme) * f.numModes && |optimised| == |draws|
    modifies optimizer, f`weight, f`maxOrder
    ensures optimizer.stepSize == if HonoursStepSize(optimizer.kind) then setting.stepSize else old(optimizer.stepSize)
    ensures optimizer.tolerance == if HonoursTolerance(optimizer.kind) then setting.tolerance else old(optimizer.tolerance)
    ensures optimizer.batchSize == if HonoursBatchSize(optimizer.kind) then setting.batchSize else old(optimizer.batchSize)
    ensures optimizer.maxGenerations ==
      if IterationsAreGenerations(optimizer.kind) then setting.maxIter else old(optimizer.maxGenerations)
    ensures optimizer.maxIterations ==
      if IterationsAreGenerations(optimizer.kind) then old(optimizer.maxIterations) else setting.maxIter
    ensures f.weight == setting.weight && f.maxOrder == setting.maxOrder && f.Valid()
    ensures |start| == NumPara(f.scheme) * f.numModes && start == StartVector(draws)
    ensures result == DecodeResult(f.e, f.scheme, f.BoundsOf(), optimised, f.numModes)
  {
    optimizer.Configure(setting);
    f.SetWeight(setting.weight);
    f.SetMaxOrder(setting.maxOrder);
    start := StartVector(draws);
    result := DecodeResult(f.e, f.scheme, f.BoundsOf(), optimised, f.numModes);
  }
}
