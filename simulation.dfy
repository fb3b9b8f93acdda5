/** The simulation state engine: the five control parameters, the derived
    quantities computed from them, the phase-edge scoring and material
    unlocking, and the handlers that edit, patch and reset the state. */
module VacuumSimulation {
  import opened Common

  /** The shared simulation record. The first four numbers and the material
      are set by the user; the rest are recomputed by `Recalculate`. */
  datatype SimulationState = SimulationState(
    mirrorAngle: real,
    mirrorSpacing: real,
    magneticField: real,
    fieldDirection: real,
    chirality: real,
    insertedMaterial: string,
    energy: int,
    coherence: int,
    topologicalPhase: bool)

  /** The state the session starts in, and the one reset restores. */
  const InitialState := SimulationState(45.0, 100.0, 0.5, 0.0, 0.0, "none", 0, 0, false)

  /** The five user-controlled fields. */
  datatype Controls = Controls(
    mirrorAngle: real,
    mirrorSpacing: real,
    magneticField: real,
    fieldDirection: real,
    insertedMaterial: string)

  function ControlsOf(s: SimulationState): Controls {
    Controls(s.mirrorAngle, s.mirrorSpacing, s.magneticField, s.fieldDirection, s.insertedMaterial)
  }

  /** The ranges of the control panel's sliders. */
  predicate InSliderDomain(c: Controls) {
    && 0.0 <= c.mirrorAngle <= 90.0
    && 50.0 <= c.mirrorSpacing <= 200.0
    && 0.0 <= c.magneticField <= 1.0
    && 0.0 <= c.fieldDirection <= 360.0
  }

  // ---------------------------------------------------------------------
  // Derivation

  /** The cavity is resonant when the spacing is within 10 nm of 100 nm. */
  predicate Resonant(c: Controls)
    ensures Resonant(c) <==> 90.0 < c.mirrorSpacing < 110.0
  {
    Abs(c.mirrorSpacing - 100.0) < 10.0
  }

  /** The mirror angle is optimal when within 5 degrees of 45. */
  predicate OptimalAngle(c: Controls)
    ensures OptimalAngle(c) <==> 40.0 < c.mirrorAngle < 50.0
  {
    Abs(c.mirrorAngle - 45.0) < 5.0
  }

  /** Energy before rounding: the field times 100, boosted by 1.5 at resonance
      and by 1.3 at the optimal angle. */
  function RawEnergy(c: Controls): (e: real)
    ensures e == c.magneticField * 100.0
                 * (if Resonant(c) then 1.5 else 1.0)
                 * (if OptimalAngle(c) then 1.3 else 1.0)
  {
    var e0 := c.magneticField * 100.0;
    var e1 := if Resonant(c) then e0 * 1.5 else e0;
    if OptimalAngle(c) then e1 * 1.3 else e1
  }

  /** Coherence before rounding: 80% of the energy, capped at 100. */
  function RawCoherence(c: Controls): (k: real)
    ensures k <= 100.0 && k <= 0.8 * RawEnergy(c)
    ensures k == 100.0 || k == 0.8 * RawEnergy(c)
    ensures 0.0 <= c.magneticField ==> 0.0 <= k
  {
    Min(100.0, RawEnergy(c) * 0.8)
  }

  /** The topological-phase test, made on the unrounded coherence. */
  predicate IsTopological(c: Controls) {
    c.insertedMaterial == "graphene" && c.magneticField > 0.7 && RawCoherence(c) > 60.0
  }

  lemma ScaledUnitBound(u: real, f: real)
    requires -1.0 <= u <= 1.0
    ensures 0.0 <= f ==> -f <= u * f <= f
  {
    if 0.0 <= f {
      assert (1.0 - u) * f >= 0.0;
      assert (1.0 + u) * f >= 0.0;
    }
  }

  /** Chirality before rounding: the sine of field direction plus mirror angle
      (in radians) times the field strength. */
  function RawChirality(trig: Trig, c: Controls): (x: real)
    ensures 0.0 <= c.magneticField ==> -c.magneticField <= x <= c.magneticField
  {
    var u := trig.sin(Radians(c.fieldDirection + c.mirrorAngle));
    ScaledUnitBound(u, c.magneticField);
    u * c.magneticField
  }

  /** What one run of the derivation produces: the four stored results and
      whether the phase was just entered. */
  datatype Derived = Derived(
    energy: int,
    coherence: int,
    chirality: real,
    topologicalPhase: bool,
    phaseEntered: bool)

  /** The derivation: a pure function of the controls and of the phase flag
      stored by the previous run, which serves only to detect the false-to-true
      edge. */
  function Derive(trig: Trig, c: Controls, previousPhase: bool): (d: Derived)
    ensures d.coherence <= 100
    ensures 0.0 <= c.magneticField ==> 0 <= d.energy && 0 <= d.coherence
    ensures 0.0 <= c.magneticField ==>
              -c.magneticField - 0.005 < d.chirality <= c.magneticField + 0.005
    ensures d.topologicalPhase <==>
              c.insertedMaterial == "graphene" && c.magneticField > 0.7 && RawCoherence(c) > 60.0
    ensures d.phaseEntered <==> d.topologicalPhase && !previousPhase
  {
    var topological := IsTopological(c);
    Derived(
      Round(RawEnergy(c)),
      Round(RawCoherence(c)),
      RoundHundredths(RawChirality(trig, c)),
      topological,
      topological && !previousPhase)
  }

  /** Stores the derived results into the state; the controls stay as they are. */
  function WithDerived(s: SimulationState, d: Derived): (r: SimulationState)
    ensures ControlsOf(r) == ControlsOf(s)
    ensures r.energy == d.energy && r.coherence == d.coherence
    ensures r.chirality == d.chirality && r.topologicalPhase == d.topologicalPhase
  {
    s.(energy := d.energy, coherence := d.coherence,
       topologicalPhase := d.topologicalPhase, chirality := d.chirality)
  }

  /** Without resonance or optimal angle the phase needs a field above 0.75;
      with either boost any field above 0.7 suffices. */
  lemma TopologicalCharacterization(c: Controls)
    ensures IsTopological(c) <==>
              && c.insertedMaterial == "graphene"
              && c.magneticField > 0.7
              && (c.magneticField > 0.75 || Resonant(c) || OptimalAngle(c))
  {
    var f := c.magneticField;
    var e := RawEnergy(c);
    if f > 0.7 {
      if Resonant(c) || OptimalAngle(c) {
        assert e >= f * 130.0;
        assert RawCoherence(c) > 60.0;
      } else {
        assert e == f * 100.0;
        assert RawCoherence(c) > 60.0 <==> f > 0.75;
      }
    }
  }

  /** Angle 45, spacing 100, field 0.8 and graphene give energy 156, coherence
      100 (capped) and the topological phase. */
  lemma ReferenceConfiguration(trig: Trig)
    ensures var d := Derive(trig, Controls(45.0, 100.0, 0.8, 0.0, "graphene"), false);
            d.energy == 156 && d.coherence == 100 && d.topologicalPhase && d.phaseEntered
  {
    var c := Controls(45.0, 100.0, 0.8, 0.0, "graphene");
    assert Resonant(c) && OptimalAngle(c);
    assert RawEnergy(c) == 156.0;
    assert RawCoherence(c) == 100.0;
  }

  /** A field of at most 0.3 can never produce a rounded energy above 59. */
  lemma LowFieldEnergyBound(trig: Trig, c: Controls, previousPhase: bool)
    requires c.magneticField <= 0.3
    ensures Derive(trig, c, previousPhase).energy <= 59
  {
    var e := RawEnergy(c);
    if 0.0 <= c.magneticField {
      assert e <= c.magneticField * 195.0;
    } else {
      assert e <= 0.0;
    }
    assert e <= 58.5;
  }

  /** Over the slider ranges every derived quantity stays within its band. */
  lemma DerivedRanges(trig: Trig, c: Controls, previousPhase: bool)
    requires InSliderDomain(c)
    ensures var d := Derive(trig, c, previousPhase);
            && 0 <= d.energy <= 195
            && 0 <= d.coherence <= 100
            && -1.0 <= d.chirality <= 1.0
  {
    assert RawEnergy(c) <= c.magneticField * 195.0;
    var x := RawChirality(trig, c);
    var k := (RoundHundredths(x) * 100.0).Floor;
    assert -100.5 < k as real <= 100.5;
    assert -100 <= k <= 100;
  }

  /** The derivation is stable: once its results are stored, running it again
      (as the effect does, because the stored phase flag changed) leaves the
      state as it is and does not fire the phase edge a second time. */
  lemma RecalculateSettles(trig: Trig, s: SimulationState)
    ensures var s1 := WithDerived(s, Derive(trig, ControlsOf(s), s.topologicalPhase));
            var d2 := Derive(trig, ControlsOf(s1), s1.topologicalPhase);
            !d2.phaseEntered && WithDerived(s1, d2) == s1
  {
  }

  // ---------------------------------------------------------------------
  // Scoring and unlocking

  const Bismuthene: string := "bismuthene"

  /** The unlock list the session starts with. */
  const InitialUnlocked: seq<string> := ["graphene"]

  /** A phase edge awards 100 points; otherwise the score is unchanged. */
  function ScoreAfter(score: int, phaseEntered: bool): (r: int)
    ensures score <= r
    ensures r != score <==> phaseEntered
    ensures r == score || r == score + 100
  {
    if phaseEntered then score + 100 else score
  }

  /** A phase edge appends bismuthene unless it is already unlocked. */
  function UnlockAfter(unlocked: seq<string>, phaseEntered: bool): (r: seq<string>)
    ensures |unlocked| <= |r| && r[..|unlocked|] == unlocked
    ensures !phaseEntered ==> r == unlocked
    ensures phaseEntered ==> Bismuthene in r
    ensures forall m :: m in r ==> m in unlocked || m == Bismuthene
    ensures NoDuplicates(unlocked) ==> NoDuplicates(r)
  {
    if phaseEntered && Bismuthene !in unlocked then unlocked + [Bismuthene] else unlocked
  }

  /** The unlock lists a session can hold: the initial one, or it followed by
      bismuthene. */
  predicate ReachableUnlocks(u: seq<string>) {
    u == InitialUnlocked || u == InitialUnlocked + [Bismuthene]
  }

  lemma UnlockAfterStaysReachable(u: seq<string>, phaseEntered: bool)
    requires ReachableUnlocks(u)
    ensures ReachableUnlocks(UnlockAfter(u, phaseEntered))
  {
  }

  /** A reachable unlock list has no duplicates and holds only graphene and
      bismuthene. */
  lemma ReachableUnlocksShape(u: seq<string>)
    requires ReachableUnlocks(u)
    ensures NoDuplicates(u)
    ensures forall m :: m in u ==> m == "graphene" || m == Bismuthene
  {
  }

  // ---------------------------------------------------------------------
  // Edits and patches

  /** One control-field edit, as the sliders and the material selector send it. */
  datatype Edit =
    | SetMirrorAngle(angle: real)
    | SetMirrorSpacing(spacing: real)
    | SetMagneticField(field: real)
    | SetFieldDirection(direction: real)
    | SetInsertedMaterial(material: string)

  /** A partial state: the control fields a preset or a tutorial step sets. */
  datatype Patch = Patch(
    mirrorAngle: Option<real>,
    mirrorSpacing: Option<real>,
    magneticField: Option<real>,
    fieldDirection: Option<real>,
    insertedMaterial: Option<string>)

  const EmptyPatch := Patch(None, None, None, None, None)

  /** The number of fields a patch sets. */
  function FieldCount(p: Patch): (n: nat)
    ensures n <= 5
    ensures n == 0 <==> p == EmptyPatch
  {
    (if p.mirrorAngle.Some? then 1 else 0)
    + (if p.mirrorSpacing.Some? then 1 else 0)
    + (if p.magneticField.Some? then 1 else 0)
    + (if p.fieldDirection.Some? then 1 else 0)
    + (if p.insertedMaterial.Some? then 1 else 0)
  }

  function Pick<T>(o: Option<T>, current: T): T {
    if o.Some? then o.value else current
  }

  /** `{...prev, [parameter]: value}`: only the named field changes. */
  function ApplyEdit(s: SimulationState, e: Edit): (r: SimulationState)
    ensures r.mirrorAngle == if e.SetMirrorAngle? then e.angle else s.mirrorAngle
    ensures r.mirrorSpacing == if e.SetMirrorSpacing? then e.spacing else s.mirrorSpacing
    ensures r.magneticField == if e.SetMagneticField? then e.field else s.magneticField
    ensures r.fieldDirection == if e.SetFieldDirection? then e.direction else s.fieldDirection
    ensures r.insertedMaterial == if e.SetInsertedMaterial? then e.material else s.insertedMaterial
    ensures r.energy == s.energy && r.coherence == s.coherence
    ensures r.chirality == s.chirality && r.topologicalPhase == s.topologicalPhase
  {
    match e
    case SetMirrorAngle(a) => s.(mirrorAngle := a)
    case SetMirrorSpacing(d) => s.(mirrorSpacing := d)
    case SetMagneticField(f) => s.(magneticField := f)
    case SetFieldDirection(d) => s.(fieldDirection := d)
    case SetInsertedMaterial(m) => s.(insertedMaterial := m)
  }

  /** `{...prev, ...patch}`: the patched fields take the patch's values, every
      other field keeps its own. */
  function ApplyPatch(s: SimulationState, p: Patch): (r: SimulationState)
    ensures r.mirrorAngle == if p.mirrorAngle.Some? then p.mirrorAngle.value else s.mirrorAngle
    ensures r.mirrorSpacing == if p.mirrorSpacing.Some? then p.mirrorSpacing.value else s.mirrorSpacing
    ensures r.magneticField == if p.magneticField.Some? then p.magneticField.value else s.magneticField
    ensures r.fieldDirection == if p.fieldDirection.Some? then p.fieldDirection.value else s.fieldDirection
    ensures r.insertedMaterial == if p.insertedMaterial.Some? then p.insertedMaterial.value else s.insertedMaterial
    ensures r.energy == s.energy && r.coherence == s.coherence
    ensures r.chirality == s.chirality && r.topologicalPhase == s.topologicalPhase
  {
    s.(mirrorAngle := Pick(p.mirrorAngle, s.mirrorAngle),
       mirrorSpacing := Pick(p.mirrorSpacing, s.mirrorSpacing),
       magneticField := Pick(p.magneticField, s.magneticField),
       fieldDirection := Pick(p.fieldDirection, s.fieldDirection),
       insertedMaterial := Pick(p.insertedMaterial, s.insertedMaterial))
  }

  /** The one-field patch that does what an edit does. */
  function PatchOf(e: Edit): (p: Patch)
    ensures FieldCount(p) == 1
  {
    match e
    case SetMirrorAngle(a) => EmptyPatch.(mirrorAngle := Some(a))
    case SetMirrorSpacing(d) => EmptyPatch.(mirrorSpacing := Some(d))
    case SetMagneticField(f) => EmptyPatch.(magneticField := Some(f))
    case SetFieldDirection(d) => EmptyPatch.(fieldDirection := Some(d))
    case SetInsertedMaterial(m) => EmptyPatch.(insertedMaterial := Some(m))
  }

  /** A parameter edit is the same as merging its one-field patch. */
  lemma EditIsOneFieldPatch(s: SimulationState, e: Edit)
    ensures ApplyEdit(s, e) == ApplyPatch(s, PatchOf(e))
  {
  }

  /** Merging the same patch twice is the same as merging it once. */
  lemma PatchIdempotent(s: SimulationState, p: Patch)
    ensures ApplyPatch(ApplyPatch(s, p), p) == ApplyPatch(s, p)
  {
  }

  // ---------------------------------------------------------------------
  // The session

  /** The simulation component's own state: the shared record, the running
      flag, the score and the list of unlocked materials. */
  class Simulation {
    var state: SimulationState
    var isRunning: bool
    var score: int
    var unlockedMaterials: seq<string>

    ghost predicate Valid()
      reads this
    {
      0 <= score && score % 100 == 0 && ReachableUnlocks(unlockedMaterials)
    }

    constructor ()
      ensures Valid()
      ensures state == InitialState && !isRunning
      ensures score == 0 && unlockedMaterials == InitialUnlocked
    {
      state := InitialState;
      isRunning := false;
      score := 0;
      unlockedMaterials := InitialUnlocked;
    }

    /** One run of the derivation effect: stores the derived results and, on a
        false-to-true phase edge, awards 100 points and unlocks bismuthene
        once. */
    method Recalculate(trig: Trig)
      requires Valid()
      modifies this
      ensures Valid()
      ensures var d := Derive(trig, ControlsOf(old(state)), old(state).topologicalPhase);
              && state == WithDerived(old(state), d)
              && score == ScoreAfter(old(score), d.phaseEntered)
              && unlockedMaterials == UnlockAfter(old(unlockedMaterials), d.phaseEntered)
      ensures isRunning == old(isRunning)
    {
      var previousPhase := state.topologicalPhase;
      var d := Derive(trig, ControlsOf(state), previousPhase);
      state := WithDerived(state, d);
      if d.topologicalPhase && !previousPhase {
        score := score + 100;
        if Bismuthene !in unlockedMaterials {
          unlockedMaterials := unlockedMaterials + [Bismuthene];
        }
      }
    }

    /** A slider or material-selector edit. */
    method ChangeParameter(e: Edit)
      modifies this`state
      ensures state == ApplyEdit(old(state), e)
    {
      state := ApplyEdit(state, e);
    }

    /** A preset load, and the tutorial's state change: merges a patch. */
    method MergePatch(p: Patch)
      modifies this`state
      ensures state == ApplyPatch(old(state), p)
    {
      state := ApplyPatch(state, p);
    }

    /** Restores the initial record and stops; score and unlocks are kept. */
    method Reset()
      modifies this`state, this`isRunning
      ensures state == InitialState && !isRunning
    {
      state := InitialState;
      isRunning := false;
    }

    /** The Start/Stop button. */
    method ToggleRunning()
      modifies this`isRunning
      ensures isRunning == !old(isRunning)
    {
      isRunning := !isRunning;
    }
  }
}
