/** A particle moving at a fixed velocity whose time step is stretched by the
    Lorentz factor and by the newest phi (class `QuantumParticle` of main.py). */
module Particle {
  import opened Numerics
  import opened ActiveTime

  /** `1 / sqrt(1 - |v|^2 / C^2)`; defined because the speed is below C, and
      never below 1. */
  function LorentzFactor(velocity: seq<real>, sqrt: real -> real): (gamma: real)
    requires IsSqrt(sqrt) && NormSq(velocity) < C * C
    ensures gamma >= 1.0
  {
    var n := Norm(velocity, sqrt);
    var x := 1.0 - n * n / (C * C);
    assert 0.0 < x <= 1.0;
    var s := sqrt(x);
    assert 0.0 < s <= 1.0 by {
      assert s * s == x;
    }
    1.0 / s
  }

  /** The step both particle operations compute: `dt` times the Lorentz
      factor times `1 + phi`. When `1 + phi` is non-negative it is never
      shorter than `dt * (1 + phi)`, the step without relativistic dilation. */
  function EffectiveDt(dt: real, velocity: seq<real>, phiLast: real, sqrt: real -> real): (r: real)
    requires IsSqrt(sqrt) && NormSq(velocity) < C * C
    ensures dt >= 0.0 && phiLast >= -1.0 ==> r >= dt * (1.0 + phiLast)
    ensures dt > 0.0 && phiLast > -1.0 ==> r > 0.0
  {
    var gamma := LorentzFactor(velocity, sqrt);
    var base := dt * (1.0 + phiLast);
    assert dt * (gamma * (1.0 + phiLast)) == base * gamma;
    assert base >= 0.0 ==> base * gamma >= base * 1.0;
    dt * (gamma * (1.0 + phiLast))
  }

  /** `state + np.dot(H, state) * effectiveDt` with `H` the identity. */
  function EulerStep(state: seq<real>, effectiveDt: real): seq<real>
  {
    Add(state, Scale(MatVec(Identity(|state|), state), effectiveDt))
  }

  /** With the identity generator, an Euler step scales the state by
      `1 + effectiveDt`. */
  lemma EulerStepScales(state: seq<real>, effectiveDt: real)
    ensures EulerStep(state, effectiveDt) == Scale(state, 1.0 + effectiveDt)
  {
    MatVecIdentity(state);
  }

  /** A unit state stays a unit state after an Euler step and normalisation,
      unless the step factor `1 + effectiveDt` is zero. */
  lemma StepKeepsUnitNorm(state: seq<real>, effectiveDt: real, sqrt: real -> real)
    requires IsSqrt(sqrt) && NormSq(state) == 1.0 && effectiveDt != -1.0
    ensures NormSq(Normalized(EulerStep(state, effectiveDt), sqrt)) == 1.0
  {
    EulerStepScales(state, effectiveDt);
    NormSqScaleNonZero(state, 1.0 + effectiveDt);
  }

  class QuantumParticle {
    var state: seq<real>
    const velocity: seq<real>
    /** `H`, the placeholder Hamiltonian: the identity of the state's size. */
    const h: seq<seq<real>>
    var dilatedTimes: seq<real>

    ghost predicate Valid()
      reads this
    {
      NormSq(velocity) < C * C && h == Identity(|state|)
    }

    constructor (state0: seq<real>, velocity0: seq<real>)
      requires NormSq(velocity0) < C * C
      ensures Valid()
      ensures state == state0 && velocity == velocity0 && dilatedTimes == []
    {
      state := state0;
      velocity := velocity0;
      h := Identity(|state0|);
      dilatedTimes := [];
    }

    /** `update_state`: one Euler step of length `dt * gamma * (1 + phi)` under
        `H`, then normalisation; a unit state stays a unit state. */
    method UpdateState(dt: real, globalTime: GlobalTime, sqrt: real -> real)
      requires Valid() && globalTime.Valid() && IsSqrt(sqrt)
      modifies this`state
      ensures Valid()
      ensures state == Normalized(EulerStep(old(state),
                                            EffectiveDt(dt, velocity, Last(globalTime.phiHistory), sqrt)), sqrt)
      ensures NormSq(old(state)) == 1.0 && EffectiveDt(dt, velocity, Last(globalTime.phiHistory), sqrt) != -1.0
              ==> NormSq(state) == 1.0
    {
      var lorentzFactor := LorentzFactor(velocity, sqrt);
      var lorentzFactorAth := lorentzFactor * (1.0 + globalTime.phiHistory[|globalTime.phiHistory| - 1]);
      var effectiveDt := dt * lorentzFactorAth;
      assert effectiveDt == EffectiveDt(dt, velocity, Last(globalTime.phiHistory), sqrt);
      ghost var before := state;
      if NormSq(state) == 1.0 && effectiveDt != -1.0 {
        StepKeepsUnitNorm(state, effectiveDt, sqrt);
      }
      state := Add(state, Scale(MatVec(h, state), effectiveDt));
      assert state == EulerStep(before, effectiveDt);
      state := Normalized(state, sqrt);
    }

    /** `calculate_dilated_time`: records the same effective step that
        `update_state` uses against the same global time. */
    method CalculateDilatedTime(dt: real, globalTime: GlobalTime, sqrt: real -> real)
      requires Valid() && globalTime.Valid() && IsSqrt(sqrt)
      modifies this`dilatedTimes
      ensures dilatedTimes == old(dilatedTimes) + [EffectiveDt(dt, velocity, Last(globalTime.phiHistory), sqrt)]
    {
      var lorentzFactor := LorentzFactor(velocity, sqrt);
      var lorentzFactorAth := lorentzFactor * (1.0 + globalTime.phiHistory[|globalTime.phiHistory| - 1]);
      var dilatedTime := dt * lorentzFactorAth;
      assert dilatedTime == EffectiveDt(dt, velocity, Last(globalTime.phiHistory), sqrt);
      dilatedTimes := dilatedTimes + [dilatedTime];
    }
  }
}
