/** The simulation driver (`run_simulation` of main.py): five atoms, five
    particles, and a counted loop that updates the global time, then the
    atoms, then records the global time, then steps the particles. */
module Simulation {
  import opened Numerics
  import opened ActiveTime
  import opened Particle
  import opened Cesium

  const NumAtoms: nat := 5
  const NumParticles: nat := 5

  /** The state every particle starts in. */
  const InitialState: seq<real> := [1.0, 0.0]

  /** Sum of `np.linalg.norm(v) ** 2` over the velocities. */
  function SumSquaredNorms(velocities: seq<seq<real>>, sqrt: real -> real): (r: real)
    requires IsSqrt(sqrt)
    ensures r >= 0.0
  {
    if velocities == [] then 0.0
    else Norm(velocities[0], sqrt) * Norm(velocities[0], sqrt) + SumSquaredNorms(velocities[1..], sqrt)
  }

  /** `np.mean` of the squared speeds: the energy density that drives phi. */
  function EnergyDensity(velocities: seq<seq<real>>, sqrt: real -> real): real
    requires IsSqrt(sqrt) && |velocities| > 0
  {
    SumSquaredNorms(velocities, sqrt) / (|velocities| as real)
  }

  /** The `phi_history[-1]` the particles read in step `k`: the newest value
      of the trajectory in the active-time mode, the zero pre-fill otherwise. */
  function ObservedPhi(useActiveTime: bool, e: real, k: nat): real
  {
    if useActiveTime then Phi(e, k + DeltaT) else 0.0
  }

  /** A particle's `dilated_times` after `n` steps. */
  function DilatedSeries(velocity: seq<real>, useActiveTime: bool, e: real, n: nat, sqrt: real -> real): (r: seq<real>)
    requires IsSqrt(sqrt) && NormSq(velocity) < C * C
    ensures |r| == n
    ensures forall k :: 0 <= k < n ==>
              r[k] == EffectiveDt(Dt, velocity, ObservedPhi(useActiveTime, e, k), sqrt)
  {
    if n == 0 then []
    else DilatedSeries(velocity, useActiveTime, e, n - 1, sqrt)
         + [EffectiveDt(Dt, velocity, ObservedPhi(useActiveTime, e, n - 1), sqrt)]
  }

  /** A particle's `state` after `n` steps: from `InitialState`, each step
      is the normalised Euler step with that step's effective step. */
  function ParticleState(velocity: seq<real>, useActiveTime: bool, e: real, n: nat, sqrt: real -> real): (r: seq<real>)
    requires IsSqrt(sqrt) && NormSq(velocity) < C * C
    ensures |r| == |InitialState|
  {
    if n == 0 then InitialState
    else
      var previous := ParticleState(velocity, useActiveTime, e, n - 1, sqrt);
      Normalized(EulerStep(previous, EffectiveDt(Dt, velocity, ObservedPhi(useActiveTime, e, n - 1), sqrt)), sqrt)
  }

  /** The state stays a unit vector as long as no step factor
      `1 + effective_dt` has been zero. */
  lemma {:induction false} ParticleStateUnit(velocity: seq<real>, useActiveTime: bool, e: real, n: nat, sqrt: real -> real)
    requires IsSqrt(sqrt) && NormSq(velocity) < C * C
    requires forall k :: 0 <= k < n ==> EffectiveDt(Dt, velocity, ObservedPhi(useActiveTime, e, k), sqrt) != -1.0
    ensures NormSq(ParticleState(velocity, useActiveTime, e, n, sqrt)) == 1.0
  {
    if n == 0 {
      assert NormSq(InitialState) == 1.0 * 1.0 + NormSq([0.0]);
    } else {
      ParticleStateUnit(velocity, useActiveTime, e, n - 1, sqrt);
      StepKeepsUnitNorm(ParticleState(velocity, useActiveTime, e, n - 1, sqrt),
                        EffectiveDt(Dt, velocity, ObservedPhi(useActiveTime, e, n - 1), sqrt), sqrt);
    }
  }

  /** In the classical mode every particle reads phi 0, so every effective
      step is positive and the state is a unit vector after any number of
      steps. */
  lemma ClassicalStateUnit(velocity: seq<real>, e: real, n: nat, sqrt: real -> real)
    requires IsSqrt(sqrt) && NormSq(velocity) < C * C
    ensures NormSq(ParticleState(velocity, false, e, n, sqrt)) == 1.0
  {
    ParticleStateUnit(velocity, false, e, n, sqrt);
  }

  /** `intrinsic_times` after `n` steps: the global time after each step in
      the active-time mode, and 0 throughout otherwise. */
  function IntrinsicSeries(useActiveTime: bool, tanh: real -> real, e: real, n: nat): (r: seq<real>)
    requires IsTanh(tanh)
    ensures |r| == n
    ensures forall k :: 0 <= k < n ==>
              r[k] == if useActiveTime then ElapsedTime(tanh, e, k + 1) else 0.0
  {
    if n == 0 then []
    else IntrinsicSeries(useActiveTime, tanh, e, n - 1)
         + [if useActiveTime then ElapsedTime(tanh, e, n) else 0.0]
  }

  /** Each atom's `transition_frequencies` after `n` steps: the snapshot of
      the last step in the active-time mode, never set otherwise. */
  function TransitionSnapshot(useActiveTime: bool, e: real, n: nat): Option<map<(int, int), real>>
  {
    if useActiveTime && n > 0 then Some(Transitions(EnergyLevels, 1.0 * (1.0 + Last(Window(e, n)))))
    else None
  }

  /** Global time elapsed over more steps is strictly larger. */
  lemma {:induction false} ElapsedTimeIncreasing(tanh: real -> real, e: real, m: nat, n: nat)
    requires IsTanh(tanh) && m < n
    ensures ElapsedTime(tanh, e, m) < ElapsedTime(tanh, e, n)
  {
    ElapsedTimeBounds(tanh, e, n);
    if m < n - 1 {
      ElapsedTimeIncreasing(tanh, e, m, n - 1);
    }
  }

  /** In the active-time mode `intrinsic_times` is strictly increasing; in
      the classical mode it is all zero. */
  lemma IntrinsicSeriesShape(useActiveTime: bool, tanh: real -> real, e: real, n: nat)
    requires IsTanh(tanh)
    ensures useActiveTime ==> forall k, l :: 0 <= k < l < n ==>
              IntrinsicSeries(useActiveTime, tanh, e, n)[k] < IntrinsicSeries(useActiveTime, tanh, e, n)[l]
    ensures !useActiveTime ==> forall k :: 0 <= k < n ==> IntrinsicSeries(useActiveTime, tanh, e, n)[k] == 0.0
  {
    if useActiveTime {
      forall k, l | 0 <= k < l < n
        ensures IntrinsicSeries(useActiveTime, tanh, e, n)[k] < IntrinsicSeries(useActiveTime, tanh, e, n)[l]
      {
        ElapsedTimeIncreasing(tanh, e, k + 1, l + 1);
      }
    }
  }

  /** The atom loop of one pass: every atom recomputes its transitions from
      the newest phi, which after `n` steps is the last value of `Window(e, n)`. */
  method UpdateClocks(atoms: seq<CesiumAtom>, globalTime: GlobalTime, ghost e: real, ghost n: nat)
    requires globalTime.Valid() && n > 0 && globalTime.phiHistory == Window(e, n)
    requires forall b :: 0 <= b < |atoms| ==> atoms[b].energyLevels == EnergyLevels
    modifies atoms
    ensures unchanged(globalTime)
    ensures forall a :: 0 <= a < |atoms| ==>
              atoms[a].transitionFrequencies
              == Some(Transitions(atoms[a].energyLevels, 1.0 * (1.0 + Last(globalTime.phiHistory))))
    ensures AtomsAfter(true, e, n, atoms)
  {
    for a := 0 to |atoms|
      invariant forall b :: 0 <= b < a ==>
                  atoms[b].transitionFrequencies
                  == Some(Transitions(atoms[b].energyLevels, 1.0 * (1.0 + Last(globalTime.phiHistory))))
    {
      atoms[a].CalculateTransitions(globalTime);
    }
  }

  /** What one particle holds after `n` steps. */
  ghost predicate ParticleAfter(p: QuantumParticle, useActiveTime: bool, e: real, n: nat, sqrt: real -> real)
    reads p
    requires IsSqrt(sqrt)
  {
    && p.Valid()
    && p.state == ParticleState(p.velocity, useActiveTime, e, n, sqrt)
    && p.dilatedTimes == DilatedSeries(p.velocity, useActiveTime, e, n, sqrt)
  }

  /** One particle's part of a pass: `update_state`, then
      `calculate_dilated_time`, against the global time of step `n`. */
  method StepParticle(p: QuantumParticle, dt: real, globalTime: GlobalTime, sqrt: real -> real,
                      ghost useActiveTime: bool, ghost e: real, ghost n: nat)
    requires globalTime.Valid() && IsSqrt(sqrt) && dt == Dt
    requires Last(globalTime.phiHistory) == ObservedPhi(useActiveTime, e, n)
    requires ParticleAfter(p, useActiveTime, e, n, sqrt)
    modifies p
    ensures ParticleAfter(p, useActiveTime, e, n + 1, sqrt)
  {
    p.UpdateState(dt, globalTime, sqrt);
    p.CalculateDilatedTime(dt, globalTime, sqrt);
  }

  /** The particle loop of one pass: every particle moves from step `n` to
      step `n + 1`, each against the same global time. */
  method UpdateParticles(particles: seq<QuantumParticle>, dt: real, globalTime: GlobalTime, sqrt: real -> real,
                         ghost useActiveTime: bool, ghost e: real, ghost n: nat)
    requires globalTime.Valid() && IsSqrt(sqrt) && dt == Dt
    requires Last(globalTime.phiHistory) == ObservedPhi(useActiveTime, e, n)
    requires forall q, r :: 0 <= q < r < |particles| ==> particles[q] != particles[r]
    requires forall q :: 0 <= q < |particles| ==> ParticleAfter(particles[q], useActiveTime, e, n, sqrt)
    modifies particles
    ensures unchanged(globalTime)
    ensures forall q :: 0 <= q < |particles| ==> ParticleAfter(particles[q], useActiveTime, e, n + 1, sqrt)
  {
    for q := 0 to |particles|
      invariant forall r :: 0 <= r < q ==> ParticleAfter(particles[r], useActiveTime, e, n + 1, sqrt)
      invariant forall r :: q <= r < |particles| ==> ParticleAfter(particles[r], useActiveTime, e, n, sqrt)
    {
      assert forall r :: 0 <= r < |particles| && r != q ==> particles[r] != particles[q];
      StepParticle(particles[q], dt, globalTime, sqrt, useActiveTime, e, n);
    }
  }

  /** The energy density as the loop computes it, from the particles'
      velocities. */
  method MeanSquaredSpeed(particles: seq<QuantumParticle>, ghost velocities: seq<seq<real>>, sqrt: real -> real)
    returns (energyDensity: real)
    requires IsSqrt(sqrt) && |particles| == |velocities| > 0
    requires forall r :: 0 <= r < |particles| ==> particles[r].velocity == velocities[r]
    ensures energyDensity == EnergyDensity(velocities, sqrt)
  {
    var speeds := seq(|particles|, r requires 0 <= r < |particles| => particles[r].velocity);
    assert speeds == velocities;
    energyDensity := EnergyDensity(speeds, sqrt);
  }

  /** What the global time holds after `n` steps with energy density `e`. */
  ghost predicate GlobalAfter(useActiveTime: bool, tanh: real -> real, e: real, n: nat, globalTime: GlobalTime)
    reads globalTime
    requires IsTanh(tanh)
  {
    && globalTime.Valid()
    && globalTime.phiHistory == Window(e, if useActiveTime then n else 0)
    && globalTime.timeFlowRates == (if useActiveTime then RateSeries(tanh, e, n) else [])
    && globalTime.currentTime == (if useActiveTime then ElapsedTime(tanh, e, n) else 0.0)
    && globalTime.timeFlowRate == (if useActiveTime && n > 0 then RateAt(tanh, e, n - 1) else 1.0)
  }

  /** What every atom holds after `n` steps. */
  ghost predicate AtomsAfter(useActiveTime: bool, e: real, n: nat, atoms: seq<CesiumAtom>)
    reads atoms
  {
    forall b :: 0 <= b < |atoms| ==>
      atoms[b].energyLevels == EnergyLevels
      && atoms[b].transitionFrequencies == TransitionSnapshot(useActiveTime, e, n)
  }

  /** What every particle holds after `n` steps. */
  ghost predicate ParticlesAfter(useActiveTime: bool, sqrt: real -> real, e: real, n: nat,
                                 velocities: seq<seq<real>>, particles: seq<QuantumParticle>)
    reads particles
    requires IsSqrt(sqrt)
  {
    && |particles| == |velocities|
    && (forall r, s :: 0 <= r < s < |particles| ==> particles[r] != particles[s])
    && (forall r :: 0 <= r < |particles| ==>
          particles[r].velocity == velocities[r] && ParticleAfter(particles[r], useActiveTime, e, n, sqrt))
  }

  /** Everything the run's objects hold after `n` steps. */
  ghost predicate RunAfter(useActiveTime: bool, tanh: real -> real, sqrt: real -> real, e: real, n: nat,
                           velocities: seq<seq<real>>, globalTime: GlobalTime,
                           atoms: seq<CesiumAtom>, particles: seq<QuantumParticle>)
    reads globalTime, atoms, particles
    requires IsTanh(tanh) && IsSqrt(sqrt)
  {
    && GlobalAfter(useActiveTime, tanh, e, n, globalTime)
    && AtomsAfter(useActiveTime, e, n, atoms)
    && ParticlesAfter(useActiveTime, sqrt, e, n, velocities, particles)
  }

  /** The global-time part of one pass: phi, rate and time advance together,
      and the window moves one step along the trajectory. */
  method AdvanceGlobalTime(globalTime: GlobalTime, tanh: real -> real, energyDensity: real, ghost n: nat)
    requires IsTanh(tanh) && GlobalAfter(true, tanh, energyDensity, n, globalTime)
    modifies globalTime
    ensures GlobalAfter(true, tanh, energyDensity, n + 1, globalTime)
  {
    WindowStep(energyDensity, n);
    WindowLast(energyDensity, n + 1);
    globalTime.UpdatePhi(energyDensity);
    globalTime.UpdateTimeFlow(tanh);
    globalTime.UpdateCurrentTime();
  }

  /** The active-time part of one pass: the global time, then every atom. */
  method ActivePass(globalTime: GlobalTime, atoms: seq<CesiumAtom>, tanh: real -> real, energyDensity: real, ghost n: nat)
    requires IsTanh(tanh)
    requires GlobalAfter(true, tanh, energyDensity, n, globalTime)
    requires AtomsAfter(true, energyDensity, n, atoms)
    modifies globalTime, atoms
    ensures GlobalAfter(true, tanh, energyDensity, n + 1, globalTime)
    ensures AtomsAfter(true, energyDensity, n + 1, atoms)
  {
    AdvanceGlobalTime(globalTime, tanh, energyDensity, n);
    UpdateClocks(atoms, globalTime, energyDensity, n + 1);
  }

  /** One pass of the main loop: update the global time and the atoms (only
      in the active-time mode), record the global time, step the particles. */
  method SimulationStep(useActiveTime: bool, tanh: real -> real, sqrt: real -> real, ghost e: real, ghost n: nat,
                        ghost velocities: seq<seq<real>>, globalTime: GlobalTime,
                        atoms: seq<CesiumAtom>, particles: seq<QuantumParticle>)
    returns (recorded: real)
    requires IsTanh(tanh) && IsSqrt(sqrt) && |particles| > 0
    requires RunAfter(useActiveTime, tanh, sqrt, e, n, velocities, globalTime, atoms, particles)
    requires e == EnergyDensity(velocities, sqrt)
    modifies globalTime, atoms, particles
    ensures RunAfter(useActiveTime, tanh, sqrt, e, n + 1, velocities, globalTime, atoms, particles)
    ensures recorded == if useActiveTime then ElapsedTime(tanh, e, n + 1) else 0.0
  {
    var energyDensity := MeanSquaredSpeed(particles, velocities, sqrt);
    if useActiveTime {
      ActivePass(globalTime, atoms, tanh, energyDensity, n);
    }
    WindowLast(e, if useActiveTime then n + 1 else 0);
    recorded := globalTime.currentTime;
    UpdateParticles(particles, globalTime.dt, globalTime, sqrt, useActiveTime, e, n);
  }

  /** The list comprehension that builds the atoms. */
  method MakeAtoms() returns (atoms: seq<CesiumAtom>)
    ensures |atoms| == NumAtoms
    ensures forall b :: 0 <= b < |atoms| ==> fresh(atoms[b])
    ensures forall b :: 0 <= b < |atoms| ==>
              atoms[b].energyLevels == EnergyLevels && atoms[b].transitionFrequencies == None
  {
    atoms := [];
    for a := 0 to NumAtoms
      invariant |atoms| == a
      invariant forall b :: 0 <= b < a ==> fresh(atoms[b])
      invariant forall b :: 0 <= b < a ==>
                  atoms[b].energyLevels == EnergyLevels && atoms[b].transitionFrequencies == None
    {
      var atom := new CesiumAtom();
      atoms := atoms + [atom];
    }
  }

  /** The list comprehension that builds one particle per velocity, each in
      the initial state. */
  method MakeParticles(velocities: seq<seq<real>>) returns (particles: seq<QuantumParticle>)
    requires forall q :: 0 <= q < |velocities| ==> NormSq(velocities[q]) < C * C
    ensures |particles| == |velocities|
    ensures forall r :: 0 <= r < |particles| ==> fresh(particles[r])
    ensures forall r, s :: 0 <= r < s < |particles| ==> particles[r] != particles[s]
    ensures forall r :: 0 <= r < |particles| ==>
              particles[r].Valid() && particles[r].velocity == velocities[r]
              && particles[r].state == InitialState && particles[r].dilatedTimes == []
  {
    particles := [];
    for q := 0 to |velocities|
      invariant |particles| == q
      invariant forall r :: 0 <= r < q ==> fresh(particles[r])
      invariant forall r, s :: 0 <= r < s < q ==> particles[r] != particles[s]
      invariant forall r :: 0 <= r < q ==>
                  particles[r].Valid() && particles[r].velocity == velocities[r]
                  && particles[r].state == InitialState && particles[r].dilatedTimes == []
    {
      var particle := new QuantumParticle(InitialState, velocities[q]);
      particles := particles + [particle];
    }
  }

  /** The objects `run_simulation` builds before its loop: the global time,
      five atoms and one particle per velocity, all in their step-0 state. */
  method Setup(useActiveTime: bool, tanh: real -> real, sqrt: real -> real, velocities: seq<seq<real>>)
    returns (globalTime: GlobalTime, atoms: seq<CesiumAtom>, particles: seq<QuantumParticle>)
    requires IsTanh(tanh) && IsSqrt(sqrt) && |velocities| > 0
    requires forall q :: 0 <= q < |velocities| ==> NormSq(velocities[q]) < C * C
    ensures fresh(globalTime)
    ensures |atoms| == NumAtoms && forall b :: 0 <= b < |atoms| ==> fresh(atoms[b])
    ensures forall r :: 0 <= r < |particles| ==> fresh(particles[r])
    ensures RunAfter(useActiveTime, tanh, sqrt, EnergyDensity(velocities, sqrt), 0, velocities,
                     globalTime, atoms, particles)
  {
    globalTime := new GlobalTime();
    atoms := MakeAtoms();
    particles := MakeParticles(velocities);
    WindowStart(EnergyDensity(velocities, sqrt));
  }

  /** The `for iteration in range(max_iterations)` loop, from the freshly
      built objects to the state after `maxIterations` steps. */
  method MainLoop(useActiveTime: bool, maxIterations: nat, tanh: real -> real, sqrt: real -> real,
                  ghost e: real, ghost velocities: seq<seq<real>>, globalTime: GlobalTime,
                  atoms: seq<CesiumAtom>, particles: seq<QuantumParticle>)
    returns (intrinsicTimes: seq<real>)
    requires IsTanh(tanh) && IsSqrt(sqrt) && |particles| > 0
    requires RunAfter(useActiveTime, tanh, sqrt, e, 0, velocities, globalTime, atoms, particles)
    requires e == EnergyDensity(velocities, sqrt)
    modifies globalTime, atoms, particles
    ensures RunAfter(useActiveTime, tanh, sqrt, e, maxIterations, velocities, globalTime, atoms, particles)
    ensures intrinsicTimes == IntrinsicSeries(useActiveTime, tanh, e, maxIterations)
  {
    intrinsicTimes := [];
    for iteration := 0 to maxIterations
      invariant RunAfter(useActiveTime, tanh, sqrt, e, iteration, velocities, globalTime, atoms, particles)
      invariant intrinsicTimes == IntrinsicSeries(useActiveTime, tanh, e, iteration)
    {
      var recorded := SimulationStep(useActiveTime, tanh, sqrt, e, iteration, velocities,
                                     globalTime, atoms, particles);
      intrinsicTimes := intrinsicTimes + [recorded];
    }
  }

  /** `[p.dilated_times for p in particles]`. */
  method CollectDilatedTimes(particles: seq<QuantumParticle>) returns (dilatedTimes: seq<seq<real>>)
    ensures |dilatedTimes| == |particles|
    ensures forall q :: 0 <= q < |particles| ==> dilatedTimes[q] == particles[q].dilatedTimes
  {
    dilatedTimes := [];
    for q := 0 to |particles|
      invariant |dilatedTimes| == q
      invariant forall r :: 0 <= r < q ==> dilatedTimes[r] == particles[r].dilatedTimes
    {
      dilatedTimes := dilatedTimes + [particles[q].dilatedTimes];
    }
  }

  /** `run_simulation`: the velocities, `tanh` and `sqrt` are parameters. */
  method RunSimulation(useActiveTime: bool, maxIterations: nat := 1000, velocities: seq<seq<real>>,
                       tanh: real -> real, sqrt: real -> real)
    returns (cesiumAtoms: seq<CesiumAtom>, intrinsicTimes: seq<real>, timeFlowRates: seq<real>,
             dilatedTimes: seq<seq<real>>)
    requires IsTanh(tanh) && IsSqrt(sqrt)
    requires |velocities| == NumParticles
    requires forall q :: 0 <= q < |velocities| ==> |velocities[q]| == 3 && NormSq(velocities[q]) < C * C
    ensures |intrinsicTimes| == maxIterations
    ensures |timeFlowRates| == if useActiveTime then maxIterations else 0
    ensures forall q :: 0 <= q < |dilatedTimes| ==> |dilatedTimes[q]| == maxIterations
    ensures intrinsicTimes == IntrinsicSeries(useActiveTime, tanh, EnergyDensity(velocities, sqrt), maxIterations)
    ensures timeFlowRates
            == if useActiveTime then RateSeries(tanh, EnergyDensity(velocities, sqrt), maxIterations) else []
    ensures |dilatedTimes| == NumParticles
    ensures forall q :: 0 <= q < NumParticles ==>
              dilatedTimes[q]
              == DilatedSeries(velocities[q], useActiveTime, EnergyDensity(velocities, sqrt), maxIterations, sqrt)
    ensures |cesiumAtoms| == NumAtoms
    ensures forall a :: 0 <= a < NumAtoms ==>
              cesiumAtoms[a].transitionFrequencies
              == TransitionSnapshot(useActiveTime, EnergyDensity(velocities, sqrt), maxIterations)
  {
    ghost var e := EnergyDensity(velocities, sqrt);
    var globalTime, particles;
    globalTime, cesiumAtoms, particles := Setup(useActiveTime, tanh, sqrt, velocities);
    intrinsicTimes := MainLoop(useActiveTime, maxIterations, tanh, sqrt, e, velocities,
                               globalTime, cesiumAtoms, particles);

    timeFlowRates := globalTime.timeFlowRates;
    dilatedTimes := CollectDilatedTimes(particles);
  }
}
