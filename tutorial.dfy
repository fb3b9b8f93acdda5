/** The guided tutorial: a fixed list of steps, some of which set one control
    field when the user moves past them, and the step navigation. */
module Tutorial {
  import opened Common
  import opened VacuumSimulation

  datatype TutorialStep = TutorialStep(id: nat, title: string, targetState: Option<Patch>)

  /** The eight steps; steps 2 to 6 (indices 1 to 5) each carry a target. */
  const Steps: seq<TutorialStep> := [
    TutorialStep(1, "Welcome to Quantum Vacuum Manipulation", None),
    TutorialStep(2, "Mirror Configuration", Some(EmptyPatch.(mirrorSpacing := Some(100.0)))),
    TutorialStep(3, "Mirror Angle Effects", Some(EmptyPatch.(mirrorAngle := Some(45.0)))),
    TutorialStep(4, "Magnetic Field Control", Some(EmptyPatch.(magneticField := Some(0.7)))),
    TutorialStep(5, "Field Direction", Some(EmptyPatch.(fieldDirection := Some(45.0)))),
    TutorialStep(6, "Material Insertion", Some(EmptyPatch.(insertedMaterial := Some("graphene")))),
    TutorialStep(7, "Start the Simulation", None),
    TutorialStep(8, "Observe the Results", None)
  ]

  /** The default controls the restart button sends. */
  const RestartPatch := Patch(Some(45.0), Some(100.0), Some(0.5), Some(0.0), Some("none"))

  /** What a tutorial button asks of the surrounding application, in order. */
  datatype Effect = StateChange(patch: Patch) | Close

  /** Only the steps at indices 1 to 5 carry a target, and each target sets exactly one field. */
  lemma StepTargets()
    ensures |Steps| == 8
    ensures forall i :: 0 <= i < |Steps| ==> (Steps[i].targetState.Some? <==> 1 <= i <= 5)
    ensures forall i :: 1 <= i <= 5 ==> FieldCount(Steps[i].targetState.value) == 1
  {
  }

  /** Following every target, from any starting state, gives field 0.7, which
      is not above 0.7: the tutorial's own path stops just short of the
      topological phase. */
  lemma TutorialPathStopsShortOfPhase(trig: Trig, s0: SimulationState)
    ensures var s := ApplyPatch(ApplyPatch(ApplyPatch(ApplyPatch(ApplyPatch(s0,
                       Steps[1].targetState.value), Steps[2].targetState.value),
                       Steps[3].targetState.value), Steps[4].targetState.value),
                       Steps[5].targetState.value);
            && ControlsOf(s) == Controls(45.0, 100.0, 0.7, 45.0, "graphene")
            && !Derive(trig, ControlsOf(s), s0.topologicalPhase).topologicalPhase
  {
  }

  /** The restart patch restores exactly the controls of the initial state. */
  lemma RestartRestoresInitialControls(s: SimulationState)
    ensures ControlsOf(ApplyPatch(s, RestartPatch)) == ControlsOf(InitialState)
  {
  }

  /** The effects of pressing Next on step i: the step's target first, then
      closing if it is the last step, and nothing else. */
  function NextEffects(i: nat): (effects: seq<Effect>)
    requires i < |Steps|
    ensures |effects| == (if Steps[i].targetState.Some? then 1 else 0) + (if i == |Steps| - 1 then 1 else 0)
    ensures Close in effects <==> i == |Steps| - 1
    ensures (exists p :: StateChange(p) in effects) <==> Steps[i].targetState.Some?
    ensures Steps[i].targetState.Some? ==> effects[0] == StateChange(Steps[i].targetState.value)
  {
    (if Steps[i].targetState.Some? then [StateChange(Steps[i].targetState.value)] else [])
    + (if i < |Steps| - 1 then [] else [Close])
  }

  /** The tutorial panel's step counter. */
  class TutorialSystem {
    var currentStep: nat

    ghost predicate Valid()
      reads this
    {
      currentStep < |Steps|
    }

    constructor ()
      ensures Valid() && currentStep == 0
    {
      currentStep := 0;
    }

    /** Emits the step's target, then advances, or closes on the last step. */
    method Next() returns (effects: seq<Effect>)
      requires Valid()
      modifies this
      ensures Valid()
      ensures effects == NextEffects(old(currentStep))
      ensures currentStep == if old(currentStep) < |Steps| - 1 then old(currentStep) + 1 else old(currentStep)
    {
      effects := [];
      var step := Steps[currentStep];
      if step.targetState.Some? {
        effects := effects + [StateChange(step.targetState.value)];
      }
      if currentStep < |Steps| - 1 {
        currentStep := currentStep + 1;
      } else {
        effects := effects + [Close];
      }
    }

    /** Steps back, except at the first step. */
    method Previous()
      requires Valid()
      modifies this
      ensures Valid()
      ensures currentStep == if old(currentStep) > 0 then old(currentStep) - 1 else old(currentStep)
    {
      if currentStep > 0 {
        currentStep := currentStep - 1;
      }
    }

    /** Closes the tutorial and leaves the step where it is. */
    method Skip() returns (effects: seq<Effect>)
      requires Valid()
      ensures effects == [Close]
    {
      effects := [Close];
    }

    /** Returns to the first step and sends the default controls. */
    method Restart() returns (effects: seq<Effect>)
      requires Valid()
      modifies this
      ensures Valid() && currentStep == 0
      ensures effects == [StateChange(RestartPatch)]
    {
      currentStep := 0;
      effects := [StateChange(RestartPatch)];
    }
  }
}
