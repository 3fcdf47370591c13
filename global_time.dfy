/** The global time field: a sliding window of phi values with delayed
    feedback, the time-flow rate derived from the newest phi, and the
    accumulated global time (class `GlobalTime` of main.py). */
module ActiveTime {
  import opened Numerics

  /** The integration step `dt` every GlobalTime uses. */
  const Dt: real := 0.01

  /** The right-hand side of the phi equation: linear forcing by the energy
      density, damped by a delayed phi value. */
  function Forcing(energyDensity: real, delayedPhi: real): real
  {
    0.05 * energyDensity - 0.1 * delayedPhi
  }

  /** `calculate_phi_derivative`: the delayed value is read as
      `phi_history[-delta_t]`, which needs at least `DeltaT` entries. */
  function PhiDerivative(history: seq<real>, energyDensity: real): (d: real)
    requires |history| >= DeltaT
    ensures |history| == DeltaT ==> d == Forcing(energyDensity, history[0])
  {
    Forcing(energyDensity, history[|history| - DeltaT])
  }

  /** What one `update_phi` does to a full window: drop the oldest value and
      append the newest plus one step of the derivative. */
  function PhiStep(history: seq<real>, energyDensity: real): (r: seq<real>)
    requires |history| == DeltaT
    ensures |r| == DeltaT
    ensures r[..DeltaT - 1] == history[1..]
    ensures Last(r) == Last(history) + Dt * (0.05 * energyDensity - 0.1 * history[0])
  {
    history[1..] + [Last(history) + Dt * PhiDerivative(history, energyDensity)]
  }

  /** `1 + 0.05 * tanh(phi)`: the time-flow rate for the newest phi. */
  function FlowRate(tanh: real -> real, phi: real): (rate: real)
    requires IsTanh(tanh)
    ensures 0.95 < rate < 1.05
  {
    1.0 + 0.05 * tanh(phi)
  }

  /** The phi trajectory of a run whose energy density stays `e`: entries
      `0 .. DeltaT-1` are the zero pre-fill, and entry `i` after them is the
      value the `(i - DeltaT + 1)`-th `update_phi` appends. */
  function Phi(e: real, i: nat): real
  {
    if i < DeltaT then 0.0 else Phi(e, i - 1) + Dt * Forcing(e, Phi(e, i - DeltaT))
  }

  /** The phi window after `n` calls of `update_phi` with energy density `e`. */
  function Window(e: real, n: nat): (w: seq<real>)
    ensures |w| == DeltaT
  {
    seq(DeltaT, j requires 0 <= j < DeltaT => Phi(e, n + j))
  }

  /** The window starts as the zero pre-fill, whatever the energy density. */
  lemma WindowStart(e: real)
    ensures Window(e, 0) == seq(DeltaT, _ => 0.0)
  {
  }

  /** One `update_phi` moves the window one step along the trajectory: the
      delayed read of step `n + 1` is `Phi(e, n)`, exactly `DeltaT` samples
      before the value it helps compute. */
  lemma WindowStep(e: real, n: nat)
    ensures PhiStep(Window(e, n), e) == Window(e, n + 1)
  {
    var w := Window(e, n);
    var r := PhiStep(w, e);
    assert Last(r) == Phi(e, n + DeltaT) by {
      assert Last(w) == Phi(e, n + DeltaT - 1);
      assert w[0] == Phi(e, n);
    }
    assert r[..DeltaT - 1] == Window(e, n + 1)[..DeltaT - 1];
  }

  /** The newest value in the window after `n` steps. */
  lemma WindowLast(e: real, n: nat)
    ensures Last(Window(e, n)) == Phi(e, n + DeltaT - 1)
  {
  }

  /** With zero energy density the trajectory never leaves zero. */
  lemma {:induction false} PhiAtRest(i: nat)
    ensures Phi(0.0, i) == 0.0
  {
    if i >= DeltaT {
      PhiAtRest(i - 1);
      PhiAtRest(i - DeltaT);
    }
  }

  /** Equilibrium: an all-zero window with zero energy density stays all zero. */
  lemma Equilibrium()
    ensures PhiStep(seq(DeltaT, _ => 0.0), 0.0) == seq(DeltaT, _ => 0.0)
  {
    WindowStart(0.0);
    WindowStep(0.0, 0);
    PhiAtRest(DeltaT);
    assert Window(0.0, 1) == seq(DeltaT, _ => 0.0) by {
      forall j | 0 <= j < DeltaT ensures Window(0.0, 1)[j] == 0.0 {
        PhiAtRest(1 + j);
      }
    }
  }

  /** The newest phi after the first `update_phi(1.0)` from the pre-filled
      window: the increment carries the factor `dt`. */
  lemma FirstStepFromRest()
    ensures Last(PhiStep(seq(DeltaT, _ => 0.0), 1.0)) == 0.0005
  {
  }

  /** Time-flow rate recorded in step `k` (counting from 0) of a run. */
  function RateAt(tanh: real -> real, e: real, k: nat): real
    requires IsTanh(tanh)
  {
    FlowRate(tanh, Phi(e, k + DeltaT))
  }

  /** The `time_flow_rates` list after `n` steps of a run. */
  function RateSeries(tanh: real -> real, e: real, n: nat): (r: seq<real>)
    requires IsTanh(tanh)
    ensures |r| == n
    ensures forall k :: 0 <= k < n ==> r[k] == RateAt(tanh, e, k) && 0.95 < r[k] < 1.05
  {
    if n == 0 then [] else RateSeries(tanh, e, n - 1) + [RateAt(tanh, e, n - 1)]
  }

  /** `current_time` after `n` steps of a run. */
  function ElapsedTime(tanh: real -> real, e: real, n: nat): real
    requires IsTanh(tanh)
  {
    if n == 0 then 0.0 else ElapsedTime(tanh, e, n - 1) + RateAt(tanh, e, n - 1) * Dt
  }

  /** Global time grows by between `0.95 * dt` and `1.05 * dt` per step, so it
      is strictly increasing and stays within those bounds of `n * dt`. */
  lemma {:induction false} ElapsedTimeBounds(tanh: real -> real, e: real, n: nat)
    requires IsTanh(tanh)
    ensures 0.95 * Dt * (n as real) <= ElapsedTime(tanh, e, n) <= 1.05 * Dt * (n as real)
    ensures n > 0 ==> ElapsedTime(tanh, e, n - 1) < ElapsedTime(tanh, e, n)
  {
    if n > 0 {
      ElapsedTimeBounds(tanh, e, n - 1);
    }
  }

  /** `GlobalTime`: the phi window, the accumulated time and the rate. */
  class GlobalTime {
    var phiHistory: seq<real>
    var currentTime: real
    var timeFlowRate: real
    const dt: real
    var timeFlowRates: seq<real>

    /** The window always holds exactly `DeltaT` values; the rate and every
        recorded rate lie in (0.95, 1.05). */
    ghost predicate Valid()
      reads this
    {
      && |phiHistory| == DeltaT
      && dt == Dt
      && 0.95 < timeFlowRate < 1.05
      && forall k :: 0 <= k < |timeFlowRates| ==> 0.95 < timeFlowRates[k] < 1.05
    }

    constructor ()
      ensures Valid()
      ensures phiHistory == seq(DeltaT, _ => 0.0)
      ensures currentTime == 0.0 && timeFlowRate == 1.0 && timeFlowRates == []
    {
      phiHistory := seq(DeltaT, _ => 0.0);
      currentTime := 0.0;
      timeFlowRate := 1.0;
      dt := Dt;
      timeFlowRates := [];
    }

    /** `update_phi`: four identical stages combined with weights 1, 2, 2, 1,
        appended to the window, and the oldest value evicted. */
    method UpdatePhi(energyDensity: real)
      requires Valid()
      modifies this`phiHistory
      ensures Valid()
      ensures phiHistory == PhiStep(old(phiHistory), energyDensity)
    {
      var k1 := dt * PhiDerivative(phiHistory, energyDensity);
      var k2 := dt * PhiDerivative(phiHistory, energyDensity);
      var k3 := dt * PhiDerivative(phiHistory, energyDensity);
      var k4 := dt * PhiDerivative(phiHistory, energyDensity);
      var phiUpdate := (k1 + 2.0 * k2 + 2.0 * k3 + k4) / 6.0;
      phiHistory := phiHistory + [phiHistory[|phiHistory| - 1] + phiUpdate];
      if |phiHistory| > DeltaT {
        phiHistory := phiHistory[1..];
      }
    }

    /** `update_time_flow`: the rate follows the newest phi and is recorded. */
    method UpdateTimeFlow(tanh: real -> real)
      requires Valid() && IsTanh(tanh)
      modifies this`timeFlowRate, this`timeFlowRates
      ensures Valid()
      ensures timeFlowRate == FlowRate(tanh, Last(phiHistory))
      ensures timeFlowRates == old(timeFlowRates) + [timeFlowRate]
    {
      var currentPhi := phiHistory[|phiHistory| - 1];
      timeFlowRate := 1.0 + 0.05 * tanh(currentPhi);
      timeFlowRates := timeFlowRates + [timeFlowRate];
    }

    /** `update_current_time`: global time advances by `rate * dt`, so it
        strictly increases. */
    method UpdateCurrentTime()
      requires Valid()
      modifies this`currentTime
      ensures Valid()
      ensures currentTime == old(currentTime) + timeFlowRate * dt
      ensures currentTime > old(currentTime)
    {
      currentTime := currentTime + timeFlowRate * dt;
    }
  }
}
