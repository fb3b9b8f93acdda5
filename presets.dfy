/** Experiment presets: a fixed table of full control configurations, each
    available once its material is unlocked. */
module Presets {
  import opened Common
  import opened VacuumSimulation

  datatype Preset = Preset(id: string, name: string, state: Patch)

  function FullPatch(angle: real, spacing: real, field: real, direction: real, material: string): Patch {
    Patch(Some(angle), Some(spacing), Some(field), Some(direction), Some(material))
  }

  const Table: seq<Preset> := [
    Preset("resonance", "Perfect Resonance", FullPatch(45.0, 100.0, 0.5, 0.0, "none")),
    Preset("graphene-basic", "Graphene Introduction", FullPatch(42.0, 95.0, 0.6, 30.0, "graphene")),
    Preset("topological", "Topological Phase", FullPatch(47.0, 105.0, 0.8, 45.0, "graphene")),
    Preset("advanced-chiral", "Advanced Chirality", FullPatch(50.0, 110.0, 0.9, 90.0, "bismuthene"))
  ]

  /** The material a preset names, or the empty string when it names none. */
  function MaterialOf(p: Preset): string {
    if p.state.insertedMaterial.Some? then p.state.insertedMaterial.value else ""
  }

  /** A preset whose material is `"none"` is always available; any other
      needs its material in the unlock list, and one that names no material
      needs the empty key there. */
  function IsPresetAvailable(p: Preset, unlocked: seq<string>): (available: bool)
    ensures p.state.insertedMaterial == Some("none") ==> available
    ensures p.state.insertedMaterial != Some("none") ==> (available <==> MaterialOf(p) in unlocked)
  {
    if p.state.insertedMaterial == Some("none") then true
    else MaterialOf(p) in unlocked
  }

  /** The preset's button: disabled when unavailable, otherwise it hands the
      preset's patch over unchanged. */
  function LoadPreset(p: Preset, unlocked: seq<string>): (r: Option<Patch>)
    ensures r.Some? <==> IsPresetAvailable(p, unlocked)
    ensures r.Some? ==> r.value == p.state
  {
    if IsPresetAvailable(p, unlocked) then Some(p.state) else None
  }

  /** Every preset sets all five control fields (and no derived field, which a
      patch cannot name). */
  lemma PresetsSetAllControls()
    ensures forall i :: 0 <= i < |Table| ==> FieldCount(Table[i].state) == 5
  {
  }

  /** Loading 'topological' and deriving enters the phase: spacing 105 is
      resonant, angle 47 is optimal, and the energy is 156. */
  lemma TopologicalPresetEntersPhase(trig: Trig, s: SimulationState)
    ensures var c := ControlsOf(ApplyPatch(s, Table[2].state));
            var d := Derive(trig, c, s.topologicalPhase);
            && Resonant(c) && OptimalAngle(c)
            && d.topologicalPhase && d.energy == 156 && d.coherence == 100
  {
    var c := ControlsOf(ApplyPatch(s, Table[2].state));
    assert c == Controls(47.0, 105.0, 0.8, 45.0, "graphene");
    assert RawEnergy(c) == 156.0;
  }

  /** Under the initial unlock list the first three presets are available and
      'advanced-chiral' is not; once bismuthene is unlocked all four are. */
  lemma AvailabilityByUnlocks()
    ensures forall i :: 0 <= i < 3 ==> IsPresetAvailable(Table[i], InitialUnlocked)
    ensures !IsPresetAvailable(Table[3], InitialUnlocked)
    ensures forall i :: 0 <= i < |Table| ==> IsPresetAvailable(Table[i], InitialUnlocked + [Bismuthene])
  {
  }
}
