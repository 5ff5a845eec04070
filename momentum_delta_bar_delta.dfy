/**
 * The momentum variant of Delta-Bar-Delta: every parameter has a gain, which grows by kappa
 * when the gradient's sign differs from the velocity's, is scaled by phi when the signs
 * agree, and never falls below minGain; the velocity decays by momentum and takes the scaled
 * gradient, and the iterate moves by the velocity. A matrix is modelled as the sequence of
 * its entries; every operation is entrywise.
 */
module MomentumDeltaBarDelta {
  import opened RealMath

  /** The hyperparameters of MomentumDeltaBarDeltaUpdate. */
  datatype MomentumDeltaBarDeltaUpdate = MomentumDeltaBarDeltaUpdate(kappa: real, phi: real, momentum: real, minGain: real)

  /** The constructor's default arguments. */
  function DefaultUpdate(): (u: MomentumDeltaBarDeltaUpdate)
    ensures u.kappa == 0.2 && u.phi == 0.8 && u.momentum == 0.5 && u.minGain == 0.00000001
  {
    MomentumDeltaBarDeltaUpdate(0.2, 0.8, 0.5, 0.00000001)
  }

  /**
   * The gain the sign comparison selects, before the clamp. With kappa ≥ 0, phi in [0, 1] and
   * a non-negative gain it lies between phi·gain and gain + kappa.
   */
  function AdaptedGain(kappa: real, phi: real, gain: real, gradient: real, velocity: real): (r: real)
    ensures kappa >= 0.0 && 0.0 <= phi <= 1.0 && gain >= 0.0 ==> phi * gain <= r <= gain + kappa
  {
    var differ := Sign(gradient) != Sign(velocity);
    gain + (if differ then kappa else 0.0) - (if differ then 0.0 else (1.0 - phi) * gain)
  }

  /** One gain after the sign comparison and the clamp. */
  function NextGain(kappa: real, phi: real, minGain: real, gain: real, gradient: real, velocity: real): (r: real)
    ensures r >= minGain
    ensures Sign(gradient) != Sign(velocity) ==> r == ClampBelow(gain + kappa, minGain)
    ensures Sign(gradient) == Sign(velocity) ==> r == ClampBelow(phi * gain, minGain)
  {
    ClampBelow(AdaptedGain(kappa, phi, gain, gradient, velocity), minGain)
  }

  /**
   * The new velocity: the decayed old one minus the gradient scaled by stepSize and the new
   * gain. With a non-negative scale the part it adds points against the gradient.
   */
  function NextVelocity(momentum: real, stepSize: real, gain: real, gradient: real, velocity: real): (r: real)
    ensures gradient == 0.0 ==> r == momentum * velocity
    ensures stepSize * gain >= 0.0 ==> (r - momentum * velocity) * gradient <= 0.0
  {
    momentum * velocity - (stepSize * gain) * gradient
  }

  /**
   * The first update of a fresh policy, gain 1 and velocity 0: a parameter with a nonzero
   * gradient gets gain 1 + kappa (unless minGain is larger), one with a zero gradient gain phi,
   * and the velocity is the scaled gradient step.
   */
  lemma FirstUpdate(kappa: real, phi: real, minGain: real, momentum: real, stepSize: real, gradient: real)
    ensures var g := NextGain(kappa, phi, minGain, 1.0, gradient, 0.0);
      && (gradient != 0.0 ==> g == ClampBelow(1.0 + kappa, minGain))
      && (gradient == 0.0 ==> g == ClampBelow(phi, minGain))
      && NextVelocity(momentum, stepSize, g, gradient, 0.0) == -(stepSize * g * gradient)
  {
    var g := NextGain(kappa, phi, minGain, 1.0, gradient, 0.0);
    assert momentum * 0.0 == 0.0;
  }

  /**
   * Each parameter's first move is against its gradient: with a positive step size and gain,
   * the new velocity has the opposite sign of the gradient.
   */
  lemma FirstMoveDescends(stepSize: real, gain: real, momentum: real, gradient: real)
    requires stepSize > 0.0 && gain > 0.0
    ensures Sign(NextVelocity(momentum, stepSize, gain, gradient, 0.0)) == -Sign(gradient)
  {
    assert stepSize * gain > 0.0;
    assert NextVelocity(momentum, stepSize, gain, gradient, 0.0) == -((stepSize * gain) * gradient);
    SignOfProduct(stepSize * gain, gradient);
  }

  /** The state an optimisation run keeps: the gains and the velocities. */
  class Policy {
    const kappa: real
    const phi: real
    const momentum: real
    const minGain: real
    const size: nat
    var gains: seq<real>
    var velocity: seq<real>

    ghost predicate Valid()
      reads this
    {
      |gains| == size && |velocity| == size
    }

    /** Gains all one and velocities all zero, shaped like the gradient. */
    constructor(parent: MomentumDeltaBarDeltaUpdate, rows: nat, cols: nat)
      ensures Valid() && size == rows * cols
      ensures kappa == parent.kappa && phi == parent.phi && momentum == parent.momentum
      ensures minGain == parent.minGain
      ensures velocity == Zeros(rows * cols)
      ensures forall k :: 0 <= k < size ==> gains[k] == 1.0
    {
      kappa, phi, momentum, minGain := parent.kappa, parent.phi, parent.momentum, parent.minGain;
      size := rows * cols;
      gains := seq(rows * cols, k => 1.0);
      velocity := Zeros(rows * cols);
    }

    /**
     * Update: the gains by the sign comparison against the old velocity and the clamp, then
     * the velocity from the new gains, then the iterate by the new velocity.
     */
    method Update(iterate: array<real>, stepSize: real, gradient: seq<real>)
      requires Valid() && iterate.Length == size && |gradient| == size
      modifies this`gains, this`velocity, iterate
      ensures Valid()
      ensures forall k :: 0 <= k < size ==>
        gains[k] == NextGain(kappa, phi, minGain, old(gains[k]), gradient[k], old(velocity[k]))
      ensures forall k :: 0 <= k < size ==> gains[k] >= minGain
      ensures forall k :: 0 <= k < size ==>
        velocity[k] == NextVelocity(momentum, stepSize, gains[k], gradient[k], old(velocity[k]))
      ensures forall k :: 0 <= k < size ==> iterate[k] == old(iterate[k]) + velocity[k]
    {
      var g0, v0 := gains, velocity;
      var g := seq(size, k requires 0 <= k < size => NextGain(kappa, phi, minGain, g0[k], gradient[k], v0[k]));
      gains := g;
      velocity := seq(size, k requires 0 <= k < size => NextVelocity(momentum, stepSize, g[k], gradient[k], v0[k]));
      for k := 0 to size
        modifies iterate
        invariant forall j :: 0 <= j < k ==> iterate[j] == old(iterate[j]) + velocity[j]
        invariant forall j :: k <= j < size ==> iterate[j] == old(iterate[j])
      {
        iterate[k] := iterate[k] + velocity[k];
      }
    }
  }
}
