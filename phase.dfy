/** The phase indicator: a four-way classification of the state and the
    chirality banner. */
module PhaseIndicator {
  import opened Common
  import opened VacuumSimulation

  datatype Phase = TopologicalInsulator | HighEnergyCoherent | SymmetryBroken | Trivial
  {
    function Name(): string {
      match this
      case TopologicalInsulator => "Topological Insulator Phase"
      case HighEnergyCoherent => "High Energy Coherent State"
      case SymmetryBroken => "Symmetry Broken Phase"
      case Trivial => "Trivial Phase"
    }
  }

  /** Two states show the same heading exactly when they are in the same phase. */
  lemma HeadingIdentifiesPhase(s: SimulationState, t: SimulationState)
    ensures Classify(s).Name() == Classify(t).Name() <==> Classify(s) == Classify(t)
  {
  }

  predicate HighEnergy(s: SimulationState) {
    s.energy > 70 && s.coherence > 50
  }

  /** The first matching case wins: topological, then high energy with
      coherence, then a material under a field above 0.3, else trivial. */
  function Classify(s: SimulationState): (p: Phase)
    ensures p == TopologicalInsulator <==> s.topologicalPhase
    ensures p == HighEnergyCoherent <==> !s.topologicalPhase && HighEnergy(s)
    ensures p == SymmetryBroken <==>
              !s.topologicalPhase && !HighEnergy(s) && s.insertedMaterial != "none" && s.magneticField > 0.3
    ensures p == Trivial <==>
              !s.topologicalPhase && !HighEnergy(s) && !(s.insertedMaterial != "none" && s.magneticField > 0.3)
  {
    if s.topologicalPhase then TopologicalInsulator
    else if HighEnergy(s) then HighEnergyCoherent
    else if s.insertedMaterial != "none" && s.magneticField > 0.3 then SymmetryBroken
    else Trivial
  }

  /** On a derived state the coherence test of the second case is implied by
      the energy test: energy above 70 forces coherence of at least 56. */
  lemma HighEnergyImpliesCoherent(trig: Trig, s: SimulationState, previousPhase: bool)
    ensures var s1 := WithDerived(s, Derive(trig, ControlsOf(s), previousPhase));
            s1.energy > 70 ==> s1.coherence > 50
  {
    var c := ControlsOf(s);
    var d := Derive(trig, c, previousPhase);
    if d.energy > 70 {
      assert RawEnergy(c) > 70.5 - 1.0;
      assert RawCoherence(c) > 55.5;
    }
  }

  datatype Handedness = Right | Left

  /** The chirality banner: shown when |chirality| exceeds 0.1, naming the
      handedness by the sign. */
  function ChiralBanner(chirality: real): (b: Option<Handedness>)
    ensures b.Some? <==> Abs(chirality) > 0.1
    ensures b == Some(Right) <==> chirality > 0.1
    ensures b == Some(Left) <==> chirality < -0.1
  {
    if Abs(chirality) > 0.1 then Some(if chirality > 0.0 then Right else Left) else None
  }

  /** A field of at most 0.095 never raises the banner. */
  lemma WeakFieldShowsNoBanner(trig: Trig, c: Controls, previousPhase: bool)
    requires 0.0 <= c.magneticField <= 0.095
    ensures ChiralBanner(Derive(trig, c, previousPhase).chirality).None?
  {
  }
}
