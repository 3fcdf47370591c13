# Active Time simulation — a verified Dafny model

This project models the simulation kernel of `main.py`, a toy "active time
hypothesis" simulation:

- A scalar field phi with delayed feedback lives in `GlobalTime`, a sliding
  window of the last five values. Phi drives a time-flow rate, and the rate
  accumulates into a global time.
- Particles (`QuantumParticle`) stretch their time step by the Lorentz
  factor and by `1 + phi`. They record that step and evolve a normalised
  state vector with it.
- Reference clocks (`CesiumAtom`) recompute the transition frequencies
  between their three energy levels, scaled by `1 + phi`.
- `run_simulation` runs these updates in a fixed order for a fixed number
  of steps.

All quantities are mathematical reals. `tanh` and `sqrt` are parameters
(`real -> real`), constrained only by what the model relies on:

- `-1 < tanh(x) < 1`;
- for `x >= 0`, `sqrt(x)` is the non-negative root.

Module layout, one file per part of `main.py`:

- `numerics.dfy` (`Numerics`): the constants `C` (speed of light),
  `DeltaT` (the window length `delta_t`) and `Planck` (`h`), and
  the vector arithmetic (norm, scaling, `np.eye`, `np.dot`, normalisation).
- `global_time.dfy` (`ActiveTime`): the phi window and its update.
  `Phi(e, i)` is the closed-form trajectory of a run whose energy density
  is `e`; `Window(e, n)` is the window after `n` updates. The class
  `GlobalTime` has three in-place methods. `UpdatePhi` is proved against
  the step function `PhiStep`, `UpdateTimeFlow` against the rate function
  `FlowRate`, and `UpdateCurrentTime` against the increment `rate * dt`.
- `quantum_particle.dfy` (`Particle`): the Lorentz factor, the effective
  step, and the class `QuantumParticle`.
- `cesium_atom.dfy` (`Cesium`): the transition map and the class
  `CesiumAtom`, whose nested loops build the map.
- `simulation.dfy` (`Simulation`): the driver. After `N` iterations every
  output list is stated in closed form: the intrinsic times, the rate
  history, each particle's state and dilated times, the current rate, and
  each atom's last snapshot.

Three behaviours of `main.py` that the model states explicitly:

- **Classical mode.** With the active-time flag off, `run_simulation`
  skips the `GlobalTime` updates and the atoms (main.py:81-87). So in that
  mode:
  - `time_flow_rates` stays empty;
  - `current_time` stays 0 and `time_flow_rate` stays 1;
  - the atoms never compute transitions;
  - particles read the pre-filled phi of 0.
- **First update.** Each Runge-Kutta stage already carries `dt`
  (main.py:22-26), so one `update_phi(1.0)` from rest appends `0.0005`
  (`ActiveTime.FirstStepFromRest`).
- **Forcing and clock.** Only the linear forcing `0.05 * e - 0.1 * phi`
  (main.py:18) and the three-level clock (main.py:61) exist.

## Model

| member | source | states |
|---|---|---|
| Numerics.Norm | main.py:80 | `np.linalg.norm` is non-negative and squares to the sum of squared components |
| Numerics.MatVecIdentity | main.py:43 | the placeholder Hamiltonian `np.eye(n)` leaves every vector unchanged under `np.dot` |
| Numerics.NormSqScale | main.py:51 | scaling a vector by `c` scales its squared norm by `c * c` |
| Numerics.NormSqScaleNonZero | main.py:50 | a non-zero vector scaled by a non-zero factor stays non-zero, so normalisation is defined |
| Numerics.Normalized | main.py:51 | dividing a non-zero vector by its norm gives a unit vector of the same length |
| ActiveTime.PhiDerivative | main.py:16-19 | on a full window the delayed read `phi_history[-delta_t]` is the oldest element, and the derivative is `0.05 * e - 0.1 * oldest` |
| ActiveTime.PhiStep | main.py:21-29 | one update keeps the window at `delta_t` values, shifts it left by one, and appends `last + dt * (0.05 * e - 0.1 * oldest)` |
| ActiveTime.FlowRate | main.py:33 | the rate `1 + 0.05 * tanh(phi)` lies strictly between 0.95 and 1.05 |
| ActiveTime.Window | main.py:10 | the window after `n` updates holds exactly `delta_t` trajectory values |
| ActiveTime.WindowStart | main.py:10 | the window starts as `delta_t` zeros, whatever the energy density |
| ActiveTime.WindowStep | main.py:17-29 | each update moves the window one step along the closed-form trajectory |
| ActiveTime.PhiAtRest | main.py:17-19 | with zero energy density the trajectory stays at zero |
| ActiveTime.Equilibrium | main.py:21-29 | an all-zero window with zero energy density is left all zero by an update |
| ActiveTime.FirstStepFromRest | main.py:21-27 | the first `update_phi(1.0)` from rest appends `0.0005`: the four equal stages combine to one `dt * derivative` |
| ActiveTime.RateSeries | main.py:31-34 | the rate history after `n` updates has `n` entries, entry `k` being the rate for the phi of step `k`, each in (0.95, 1.05) |
| ActiveTime.ElapsedTimeBounds | main.py:36-37 | after `n` steps the global time lies between `0.95 * dt * n` and `1.05 * dt * n`, and each step strictly increases it |
| ActiveTime.GlobalTime.constructor | main.py:9-14 | the window starts as `delta_t` zeros, time 0, rate 1, no recorded rates |
| ActiveTime.GlobalTime.UpdatePhi | main.py:21-29 | the in-place update leaves the window equal to `PhiStep` of the old window and keeps its length |
| ActiveTime.GlobalTime.UpdateTimeFlow | main.py:31-34 | the rate follows the newest phi, exactly that rate is appended once, and every recorded rate stays in (0.95, 1.05) |
| ActiveTime.GlobalTime.UpdateCurrentTime | main.py:36-37 | the global time advances by exactly `rate * dt`, and so strictly increases |
| Particle.LorentzFactor | main.py:47 | for a speed below `C` the Lorentz factor is defined and at least 1 |
| Particle.EffectiveDt | main.py:46-49 | when `dt >= 0` and `phi >= -1`, the effective step `dt * gamma * (1 + phi)` is never shorter than `dt * (1 + phi)`; it is positive when `dt > 0` and `phi > -1` |
| Particle.EulerStepScales | main.py:50 | with `H` the identity, the Euler step scales the state by `1 + effective_dt` |
| Particle.StepKeepsUnitNorm | main.py:50-51 | a unit state stays a unit state after the step and normalisation unless `1 + effective_dt` is zero |
| Particle.QuantumParticle.constructor | main.py:40-44 | stores the state and velocity, `H = eye(len(state))`, and no dilated times |
| Particle.QuantumParticle.UpdateState | main.py:46-51 | the new state is the normalised Euler step of the old one with the effective step; a unit state stays a unit state |
| Particle.QuantumParticle.CalculateDilatedTime | main.py:53-57 | exactly one entry is appended: the same effective step that `update_state` uses against the same global time |
| Cesium.Pairs | main.py:66-67 | the nested loops visit exactly the pairs `0 <= i < j < n` |
| Cesium.Transitions | main.py:63-71 | the transition map has exactly the pairs `i < j` as keys |
| Cesium.RitzCombination | main.py:68-71 | the frequency of a jump over an intermediate level is the sum of the two smaller jumps |
| Cesium.TransitionsPositive | main.py:68-71 | for increasing levels and a positive scale, every transition frequency is positive |
| Cesium.CesiumTransitions | main.py:61 | the three built-in levels give exactly the keys `(0,1)`, `(0,2)`, `(1,2)`, all with positive frequencies while `1 + phi > 0` |
| Cesium.CesiumAtom.constructor | main.py:60-61 | the atom holds the three built-in levels and no transition map yet |
| Cesium.CesiumAtom.CalculateTransitions | main.py:63-71 | the map is replaced by one entry per pair `i < j`, with value `(E_j * g - E_i * g) / h` for `g = 1 + phi`; no earlier entry survives |
| Simulation.SumSquaredNorms | main.py:80 | the sum of squared speeds is non-negative |
| Simulation.MeanSquaredSpeed | main.py:80 | the energy density computed from the particles equals the mean squared speed of the given velocities |
| Simulation.ParticleState | main.py:90-91 | the state after `n` steps is `[1, 0]` at step 0 and otherwise the normalised Euler step of the previous state with the effective step for the phi observed at that step; it always has two components |
| Simulation.ParticleStateUnit | main.py:50-51 | the state after `n` steps is a unit vector as long as no step had `1 + effective_dt == 0` |
| Simulation.ClassicalStateUnit | main.py:81-91 | with the flag off every particle state stays a unit vector at every step |
| Simulation.DilatedSeries | main.py:90-92 | after `n` steps a particle has `n` dilated times, entry `k` being the effective step for the phi that step observes |
| Simulation.IntrinsicSeries | main.py:89 | after `n` steps there are `n` intrinsic times: the global time after each step with the flag on, and 0 with it off |
| Simulation.ElapsedTimeIncreasing | main.py:84 | global time after more steps is strictly larger |
| Simulation.IntrinsicSeriesShape | main.py:81-89 | with the flag on the intrinsic times strictly increase; with it off they are all 0 |
| Simulation.MakeAtoms | main.py:75 | five fresh atoms, none with a transition map |
| Simulation.MakeParticles | main.py:76 | one fresh, distinct particle per velocity, each in state `[1, 0]` with no dilated times |
| Simulation.Setup | main.py:74-76 | a fresh global time, five fresh atoms and one fresh particle per velocity, together in the closed-form state of step 0 |
| Simulation.AdvanceGlobalTime | main.py:82-84 | the phi window, the current rate, the rate history and the time advance together from step `n` to step `n + 1` of the closed form |
| Simulation.UpdateClocks | main.py:86-87 | every atom's map is recomputed from the newest phi, which is the snapshot of step `n`; the global time is untouched |
| Simulation.ActivePass | main.py:81-87 | the global time (window, rate, rate history, time) and then every atom move from step `n` to step `n + 1` |
| Simulation.StepParticle | main.py:90-92 | one particle's state becomes the closed-form state of step `n + 1` and its dilated times gain the entry for the observed phi |
| Simulation.UpdateParticles | main.py:90-92 | every particle moves from step `n` to step `n + 1`: its state is `ParticleState` of step `n + 1` and its dilated times are `DilatedSeries` of step `n + 1`; the global time is untouched |
| Simulation.SimulationStep | main.py:79-92 | one iteration moves every object from step `n` to step `n + 1` and records the global time of step `n + 1` |
| Simulation.MainLoop | main.py:79-92 | after `N` iterations from step 0 every object is at step `N`, and the intrinsic times are the closed-form series |
| Simulation.CollectDilatedTimes | main.py:94 | one list per particle, in order, each equal to that particle's dilated times |
| Simulation.RunSimulation | main.py:73-94 | after `N` iterations: `N` intrinsic times, `N` rates with the flag on and none with it off, `N` dilated times per particle, each in closed form, and every atom holds the snapshot of the last step (none with the flag off) |

## Left out

- Printing and the example run (main.py:96-109) are console output only.
- Velocities are inputs instead of `np.random.uniform(-0.1, 0.1, 3) * C * 0.99`
  (main.py:76). The model requires three components and a speed below `C`,
  which every sampled velocity meets.
- `np.tanh` and `np.sqrt` are parameters. `tanh` is assumed only to lie
  strictly between -1 and 1. `sqrt` is assumed to be the exact non-negative
  square root on non-negative arguments. No numeric value of a rate or a
  Lorentz factor is computed.
- Floating-point rounding is not modelled. All properties hold over
  mathematical reals.
- Numerics.Normalized: a zero vector is left unchanged. numpy would divide
  by zero and give NaN components. The unit-norm guarantee is stated only
  for non-zero vectors.
- Particle.QuantumParticle.UpdateState: the unit-norm guarantee excludes
  the one step factor `1 + effective_dt == 0`, which leads to that zero
  vector.
- Simulation.RunSimulation: `maxIterations` defaults to 1000 as in
  main.py:73, but it is a `nat`. A negative count, which Python runs as
  zero iterations, is not accepted.
- Simulation.EnergyDensity has no contract of its own. It is the
  `np.mean` the driver recomputes every iteration, and it is named in the
  driver's contract.
- `transition_frequencies` does not exist on an atom until the first
  `calculate_transitions` (main.py:65). The model represents that state as
  `None`.
