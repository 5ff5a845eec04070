/**
 * The Delta-Bar-Delta update rule: every parameter has its own step size, which grows by
 * kappa while the gradient keeps the sign of the running average of past gradients, shrinks
 * by the proportion phi when the sign turns, and never falls below minStepSize. A matrix is
 * modelled as the sequence of its entries; every operation is entrywise.
 */
module DeltaBarDelta {
  import opened RealMath

  /** The hyperparameters of DeltaBarDeltaUpdate. */
  datatype DeltaBarDeltaUpdate = DeltaBarDeltaUpdate(initialStepSize: real, kappa: real, phi: real,
                                                     theta: real, minStepSize: real)

  /** One step size after the sign test and the clamp. */
  function NextStepSize(kappa: real, phi: real, minStepSize: real, epsilon: real, delta: real, deltaBar: real): (r: real)
    ensures r >= minStepSize
    ensures Adapted(kappa, phi, epsilon, delta, deltaBar) >= minStepSize ==> r == Adapted(kappa, phi, epsilon, delta, deltaBar)
    ensures Adapted(kappa, phi, epsilon, delta, deltaBar) < minStepSize ==> r == minStepSize
  {
    ClampBelow(Adapted(kappa, phi, epsilon, delta, deltaBar), minStepSize)
  }

  /**
   * The step size the sign of delta·deltaBar selects, before the clamp. With kappa ≥ 0,
   * phi in [0, 1] and a non-negative step size it lies between (1 − phi)·epsilon and
   * epsilon + kappa.
   */
  function Adapted(kappa: real, phi: real, epsilon: real, delta: real, deltaBar: real): (r: real)
    ensures kappa >= 0.0 && 0.0 <= phi <= 1.0 && epsilon >= 0.0 ==> (1.0 - phi) * epsilon <= r <= epsilon + kappa
  {
    var s := Sign(delta * deltaBar);
    epsilon + (if s == 1 then kappa else 0.0) - (if s == -1 then phi * epsilon else 0.0)
  }

  /**
   * The sign test in terms of the two factors: the step size grows by kappa when the gradient
   * and the running average have the same strict sign, becomes (1 − phi)·epsilon when their
   * signs are opposite, and stays when either is zero.
   */
  lemma SignTestRule(kappa: real, phi: real, epsilon: real, delta: real, deltaBar: real)
    ensures Sign(delta) * Sign(deltaBar) == 1 ==> Adapted(kappa, phi, epsilon, delta, deltaBar) == epsilon + kappa
    ensures Sign(delta) * Sign(deltaBar) == -1 ==> Adapted(kappa, phi, epsilon, delta, deltaBar) == (1.0 - phi) * epsilon
    ensures delta == 0.0 || deltaBar == 0.0 ==> Adapted(kappa, phi, epsilon, delta, deltaBar) == epsilon
  {
    SignOfProduct(delta, deltaBar);
  }

  /**
   * The running average after one gradient: theta of the old average, 1 − theta of delta.
   * With theta in [0, 1] it lies between the two.
   */
  function Averaged(theta: real, deltaBar: real, delta: real): (r: real)
    ensures 0.0 <= theta <= 1.0 && deltaBar <= delta ==> deltaBar <= r <= delta
    ensures 0.0 <= theta <= 1.0 && delta <= deltaBar ==> delta <= r <= deltaBar
  {
    var m := theta * deltaBar + (1.0 - theta) * delta;
    BetweenMix(theta, deltaBar, delta, m);
    m
  }

  /**
   * With theta in [0, 1] the new average lies between the old one and the new gradient, so it
   * stays within any bound that both obey: starting from zero, no average exceeds the largest
   * gradient seen.
   */
  lemma AverageBetween(theta: real, deltaBar: real, delta: real, bound: real)
    requires 0.0 <= theta <= 1.0 && Abs(deltaBar) <= bound && Abs(delta) <= bound
    ensures Abs(Averaged(theta, deltaBar, delta)) <= bound
  {
    var lo, hi := -bound, bound;
    assert theta * deltaBar <= theta * bound && theta * deltaBar >= theta * lo by {
      MulLe(theta, deltaBar, bound);
      MulLe(theta, lo, deltaBar);
    }
    assert (1.0 - theta) * delta <= (1.0 - theta) * bound && (1.0 - theta) * delta >= (1.0 - theta) * lo by {
      MulLe(1.0 - theta, delta, bound);
      MulLe(1.0 - theta, lo, delta);
    }
  }

  /** A mix c·a + (1 − c)·b with c in [0, 1] lies between a and b. */
  lemma BetweenMix(c: real, a: real, b: real, m: real)
    requires m == c * a + (1.0 - c) * b
    ensures 0.0 <= c <= 1.0 && a <= b ==> a <= m <= b
    ensures 0.0 <= c <= 1.0 && b <= a ==> b <= m <= a
  {
    if 0.0 <= c <= 1.0 {
      assert m == b + c * (a - b);
      assert m == a + (1.0 - c) * (b - a);
      if a <= b {
        MulNonNegative(c, b - a);
        MulNonNegative(1.0 - c, b - a);
      } else {
        MulNonNegative(c, a - b);
        MulNonNegative(1.0 - c, a - b);
      }
    }
  }

  lemma MulNonNegative(x: real, y: real)
    requires x >= 0.0 && y >= 0.0
    ensures x * y >= 0.0
  {
  }

  /** A non-negative factor keeps an order. */
  lemma MulLe(c: real, a: real, b: real)
    requires c >= 0.0 && a <= b
    ensures c * a <= c * b
  {
    assert c * b - c * a == c * (b - a);
  }

  /**
   * Each parameter moves against its gradient: with a positive minStepSize, a parameter with a
   * nonzero gradient changes, in the direction opposite to the gradient's sign.
   */
  lemma DescentDirection(minStepSize: real, epsilon: real, x: real, delta: real)
    requires minStepSize > 0.0 && epsilon >= minStepSize
    ensures Sign(x - epsilon * delta - x) == -Sign(delta)
  {
    assert x - epsilon * delta - x == -(epsilon * delta);
    SignOfProduct(epsilon, delta);
  }

  /** The state an optimisation run keeps: the running averages and the step sizes. */
  class Policy {
    const kappa: real
    const phi: real
    const theta: real
    const minStepSize: real
    const size: nat
    var deltaBar: seq<real>
    var epsilon: seq<real>

    ghost predicate Valid()
      reads this
    {
      |deltaBar| == size && |epsilon| == size
    }

    /** Averages all zero and every step size initialStepSize, shaped like the gradient. */
    constructor(parent: DeltaBarDeltaUpdate, rows: nat, cols: nat)
      ensures Valid() && size == rows * cols
      ensures kappa == parent.kappa && phi == parent.phi && theta == parent.theta
      ensures minStepSize == parent.minStepSize
      ensures deltaBar == Zeros(rows * cols)
      ensures forall k :: 0 <= k < size ==> epsilon[k] == parent.initialStepSize
    {
      kappa, phi, theta, minStepSize := parent.kappa, parent.phi, parent.theta, parent.minStepSize;
      size := rows * cols;
      deltaBar := Zeros(rows * cols);
      epsilon := seq(rows * cols, k => parent.initialStepSize);
    }

    /**
     * Update: the step sizes by the sign test against the old averages and the clamp, then the
     * averages, then the iterate by the new step sizes. The step size argument is not used.
     */
    method Update(iterate: array<real>, stepSize: real, delta: seq<real>)
      requires Valid() && iterate.Length == size && |delta| == size
      modifies this`deltaBar, this`epsilon, iterate
      ensures Valid()
      ensures forall k :: 0 <= k < size ==>
        epsilon[k] == NextStepSize(kappa, phi, minStepSize, old(epsilon[k]), delta[k], old(deltaBar[k]))
      ensures forall k :: 0 <= k < size ==> epsilon[k] >= minStepSize
      ensures forall k :: 0 <= k < size ==> deltaBar[k] == Averaged(theta, old(deltaBar[k]), delta[k])
      ensures forall k :: 0 <= k < size ==> iterate[k] == old(iterate[k]) - epsilon[k] * delta[k]
    {
      var e0, d0 := epsilon, deltaBar;
      epsilon := seq(size, k requires 0 <= k < size => NextStepSize(kappa, phi, minStepSize, e0[k], delta[k], d0[k]));
      deltaBar := seq(size, k requires 0 <= k < size => Averaged(theta, d0[k], delta[k]));
      Descend(iterate, epsilon, delta);
    }
  }

  /** The iterate loop of Update: each entry moves against its gradient by its own step size. */
  method Descend(iterate: array<real>, epsilon: seq<real>, delta: seq<real>)
    requires iterate.Length == |epsilon| == |delta|
    modifies iterate
    ensures forall k :: 0 <= k < iterate.Length ==> iterate[k] == old(iterate[k]) - epsilon[k] * delta[k]
  {
    for k := 0 to iterate.Length
      invariant forall j :: 0 <= j < k ==> iterate[j] == old(iterate[j]) - epsilon[j] * delta[j]
      invariant forall j :: k <= j < iterate.Length ==> iterate[j] == old(iterate[j])
    {
      iterate[k] := iterate[k] - epsilon[k] * delta[k];
    }
  }
}
