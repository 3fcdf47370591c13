/** A reference clock with three discrete energy levels whose transition
    frequencies are scaled by the newest phi (class `CesiumAtom` of main.py). */
module Cesium {
  import opened Numerics
  import opened ActiveTime

  datatype Option<T> = None | Some(value: T)

  /** The three energy levels every atom is built with. */
  const EnergyLevels: seq<real> := [-1.84e-23, -1.81e-23, -1.78e-23]

  /** The frequency of the transition from level `i` to level `j` when both
      energies are scaled by `gamma`. */
  function Frequency(levels: seq<real>, gamma: real, i: int, j: int): real
    requires 0 <= i < |levels| && 0 <= j < |levels|
  {
    (levels[j] * gamma - levels[i] * gamma) / Planck
  }

  /** The index pairs `(i, j)` with `0 <= i < j < n`. */
  function Pairs(n: nat): (s: set<(int, int)>)
    ensures forall p :: p in s <==> 0 <= p.0 < p.1 < n
  {
    set i, j | 0 <= i < j < n :: (i, j)
  }

  /** The map `calculate_transitions` builds: one entry for each pair of
      levels `i < j`, and nothing else. */
  function Transitions(levels: seq<real>, gamma: real): (m: map<(int, int), real>)
    ensures m.Keys == Pairs(|levels|)
  {
    map p | p in Pairs(|levels|) :: Frequency(levels, gamma, p.0, p.1)
  }

  /** Ritz combination: the frequency of a jump over an intermediate level is
      the sum of the frequencies of the two smaller jumps. */
  lemma RitzCombination(levels: seq<real>, gamma: real, i: int, j: int, k: int)
    requires 0 <= i < j < k < |levels|
    ensures Transitions(levels, gamma)[(i, k)]
         == Transitions(levels, gamma)[(i, j)] + Transitions(levels, gamma)[(j, k)]
  {
    var m := Transitions(levels, gamma);
    assert m[(i, k)] == Frequency(levels, gamma, i, k);
    assert m[(i, j)] == Frequency(levels, gamma, i, j);
    assert m[(j, k)] == Frequency(levels, gamma, j, k);
  }

  /** For increasing levels and a positive scale, every transition frequency
      is positive. */
  lemma TransitionsPositive(levels: seq<real>, gamma: real)
    requires forall i, j :: 0 <= i < j < |levels| ==> levels[i] < levels[j]
    requires gamma > 0.0
    ensures forall p :: p in Transitions(levels, gamma) ==> Transitions(levels, gamma)[p] > 0.0
  {
    var m := Transitions(levels, gamma);
    forall p | p in m ensures m[p] > 0.0 {
      ScaledOrder(levels[p.0], levels[p.1], gamma);
    }
  }

  lemma ScaledOrder(a: real, b: real, g: real)
    requires a < b && g > 0.0
    ensures a * g < b * g
  {
  }

  /** The atom's three levels give exactly three transitions, all positive
      while `1 + phi` is positive. */
  lemma CesiumTransitions(gamma: real)
    requires gamma > 0.0
    ensures Transitions(EnergyLevels, gamma).Keys == {(0, 1), (0, 2), (1, 2)}
    ensures forall p :: p in Transitions(EnergyLevels, gamma) ==> Transitions(EnergyLevels, gamma)[p] > 0.0
  {
    assert Pairs(3) == {(0, 1), (0, 2), (1, 2)} by {
      assert (0, 1) in Pairs(3) && (0, 2) in Pairs(3) && (1, 2) in Pairs(3);
    }
    TransitionsPositive(EnergyLevels, gamma);
  }

  class CesiumAtom {
    const energyLevels: seq<real>
    /** None until `calculate_transitions` first runs: main.py only creates the
        attribute there. */
    var transitionFrequencies: Option<map<(int, int), real>>

    constructor ()
      ensures energyLevels == EnergyLevels && transitionFrequencies == None
    {
      energyLevels := EnergyLevels;
      transitionFrequencies := None;
    }

    /** `calculate_transitions`: replaces the map with one entry per pair of
        levels, both energies scaled by `1 + phi` for the newest phi. */
    method CalculateTransitions(globalTime: GlobalTime)
      requires globalTime.Valid()
      modifies this`transitionFrequencies
      ensures transitionFrequencies
              == Some(Transitions(energyLevels, 1.0 * (1.0 + Last(globalTime.phiHistory))))
    {
      var gammaAth := 1.0 * (1.0 + globalTime.phiHistory[|globalTime.phiHistory| - 1]);
      var frequencies: map<(int, int), real> := map[];
      var n := |energyLevels|;
      for i := 0 to n
        invariant forall p :: p in frequencies <==> 0 <= p.0 < p.1 < n && p.0 < i
        invariant forall p :: p in frequencies ==>
                    frequencies[p] == Frequency(energyLevels, gammaAth, p.0, p.1)
      {
        for j := i + 1 to n
          invariant forall p :: p in frequencies <==>
                      0 <= p.0 < p.1 < n && (p.0 < i || (p.0 == i && p.1 < j))
          invariant forall p :: p in frequencies ==>
                      frequencies[p] == Frequency(energyLevels, gammaAth, p.0, p.1)
        {
          var adjustedEnergyI := energyLevels[i] * gammaAth;
          var adjustedEnergyJ := energyLevels[j] * gammaAth;
          var freq := (adjustedEnergyJ - adjustedEnergyI) / Planck;
          frequencies := frequencies[(i, j) := freq];
        }
      }
      assert frequencies == Transitions(energyLevels, gammaAth);
      transitionFrequencies := Some(frequencies);
    }
  }
}
