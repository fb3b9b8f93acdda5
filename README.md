# Quantum vacuum tuner — a Dafny model

This project models the core of an interactive quantum-vacuum simulation, a
React application. Its parts are:

- **Simulation state engine** (`simulation.dfy`, module `VacuumSimulation`).
  Five user controls are mirror angle, mirror spacing, magnetic field, field
  direction and inserted material. From them one derivation computes energy,
  coherence, chirality and the topological-phase flag. A false-to-true phase
  edge awards 100 points and unlocks bismuthene. Handlers edit one field,
  merge a partial state (a preset or a tutorial step), reset the state and
  toggle the running flag. The class `Simulation` holds the component's state.
- **Particle field** (`field.dfy`, module `Field`). A pool of particles lives
  in an `array`. It is created with `max(50, coherence)` entries and updated
  in place once per animation frame: drift, move, damping, wall bounce,
  clamping, ageing, fading, recolouring, and replacement of dead particles.
- **Tutorial** (`tutorial.dfy`). Eight steps. A step's control target is sent
  when the user presses Next on that step. Previous and Skip send nothing, and
  Restart sends the default controls.
- **Achievements** (`achievements.dfy`). Six conditions, the effect that
  appends newly earned ids, and the points total.
- **Presets** (`presets.dfy`). Four full control configurations, gated by
  the unlocked materials.
- **Material selector** (`materials.dfy`). Five material keys; only unlocked
  keys can be selected.
- **Phase indicator** (`phase.dfy`). A four-way phase classification and
  the chirality banner.
- **Data export** (`export.dfy`). The CSV rows, their join into text, a
  parse back into rows, and the verdicts chosen by the text report.

Shared helpers live in `common.dfy`, module `Common`:

- `Option`, absolute value, min and max.
- `Math.round` as `floor(x + 0.5)`.
- `Math.PI` as 3.141592653589793, the shortest decimal that reads back as
  that double; it is not the double's exact binary value.
- A `Trig` record that stands in for `Math.sin` and `Math.cos`. It is any
  pair of functions into [-1, 1] and is passed as a parameter.

`Math.random()` results are parameters. Each new particle consumes one
`Draw` record holding its seven random values, each in [0, 1).

Several facts about the source are proved here:

- The topological phase is reachable exactly when the material is graphene
  and the field is above 0.7, and in addition either the field is above 0.75,
  the cavity is resonant, or the angle is optimal.
- The "energy-efficiency" achievement can never fire on a state whose derived
  fields are up to date: a field of at most 0.3 gives an energy of at most 59.
  In the running program it can still fire on a state whose energy is stale
  (see "## Left out").
- Following every tutorial target leaves the field at 0.7. That is not above
  0.7, so the tutorial's own path stops just short of the phase.
- "twisted-bilayer" and "phosphorene" can never be unlocked.
- The exported CSV parses back to its row list.

## Model

| member | source | states |
|---|---|---|
| Common.Round | src/components/QuantumVacuumSimulation.tsx:84-85 | `Math.round` result lies within half a unit of its argument |
| Common.RoundHundredths | src/components/QuantumVacuumSimulation.tsx:87 | the result is a whole number of hundredths within 0.005 of the argument, which fixes `Math.round(x*100)/100` |
| VacuumSimulation.Resonant | src/components/QuantumVacuumSimulation.tsx:61 | the resonance test \|spacing−100\|<10 holds iff the spacing lies strictly between 90 and 110 |
| VacuumSimulation.OptimalAngle | src/components/QuantumVacuumSimulation.tsx:62 | the angle test \|angle−45\|<5 holds iff the angle lies strictly between 40 and 50 |
| VacuumSimulation.RawEnergy | src/components/QuantumVacuumSimulation.tsx:60-66 | energy is field × 100, times 1.5 exactly when \|spacing−100\|<10, times 1.3 exactly when \|angle−45\|<5 |
| VacuumSimulation.RawCoherence | src/components/QuantumVacuumSimulation.tsx:69 | coherence is at most 100 and at most 80% of energy, and equals one of them, so it is `min(100, 0.8·energy)`; non-negative for a non-negative field |
| VacuumSimulation.IsTopological | src/components/QuantumVacuumSimulation.tsx:72-75 | the phase test: graphene, field above 0.7 and unrounded coherence above 60; characterised by `TopologicalCharacterization` |
| VacuumSimulation.RawChirality | src/components/QuantumVacuumSimulation.tsx:78 | chirality magnitude is bounded by the field strength |
| VacuumSimulation.Derive | src/components/QuantumVacuumSimulation.tsx:56-103 | coherence ≤ 100; energy and coherence non-negative for a non-negative field; rounded chirality within field ± 0.005; phase flag iff graphene ∧ field>0.7 ∧ unrounded coherence>60; the phase edge fires iff the phase is on and was off |
| VacuumSimulation.WithDerived | src/components/QuantumVacuumSimulation.tsx:82-88 | the functional update stores the four derived fields and leaves every control field unchanged |
| VacuumSimulation.TopologicalCharacterization | src/components/QuantumVacuumSimulation.tsx:61-75 | phase iff graphene ∧ field>0.7 ∧ (field>0.75 ∨ resonant ∨ optimal angle) |
| VacuumSimulation.ReferenceConfiguration | src/components/QuantumVacuumSimulation.tsx:61-88 | angle 45, spacing 100, field 0.8, graphene: energy 156, coherence 100, phase entered |
| VacuumSimulation.LowFieldEnergyBound | src/components/QuantumVacuumSimulation.tsx:64-66 | a field ≤ 0.3 gives a rounded energy ≤ 59 |
| VacuumSimulation.DerivedRanges | src/components/QuantumVacuumSimulation.tsx:64-87 | within the slider ranges, energy ∈ [0,195], coherence ∈ [0,100], chirality ∈ [−1,1] |
| VacuumSimulation.RecalculateSettles | src/components/QuantumVacuumSimulation.tsx:80-103 | the rerun the effect makes after storing the phase flag changes nothing and awards no second bonus |
| VacuumSimulation.ScoreAfter | src/components/QuantumVacuumSimulation.tsx:91-92 | score never decreases, changes iff the phase edge fired, and then by exactly 100 |
| VacuumSimulation.UnlockAfter | src/components/QuantumVacuumSimulation.tsx:95-98 | the old list is a prefix; no edge leaves it unchanged; an edge guarantees bismuthene is present; nothing but bismuthene is added; no duplicates are introduced |
| VacuumSimulation.UnlockAfterStaysReachable | src/components/QuantumVacuumSimulation.tsx:95-98 | the unlock list is always `[graphene]` or `[graphene, bismuthene]` |
| VacuumSimulation.ReachableUnlocksShape | src/components/QuantumVacuumSimulation.tsx:44 | a reachable unlock list is duplicate-free and holds only graphene and bismuthene |
| VacuumSimulation.ApplyEdit | src/components/QuantumVacuumSimulation.tsx:124-128 | a parameter change sets exactly the named control field; every other field keeps its value |
| VacuumSimulation.ApplyPatch | src/components/QuantumVacuumSimulation.tsx:136-142 | a merged partial state overrides exactly the fields it names |
| VacuumSimulation.EditIsOneFieldPatch | src/components/QuantumVacuumSimulation.tsx:124-142 | a parameter change equals merging a patch that names one field |
| VacuumSimulation.PatchIdempotent | src/components/QuantumVacuumSimulation.tsx:136-142 | merging the same preset twice equals merging it once |
| VacuumSimulation.Simulation.constructor | src/components/QuantumVacuumSimulation.tsx:30-44 | the session starts in the initial record, stopped, with score 0 and `[graphene]` unlocked |
| VacuumSimulation.Simulation.Recalculate | src/components/QuantumVacuumSimulation.tsx:56-103 | one effect run stores `Derive`'s results, updates score and unlocks by the phase edge, and keeps the score a non-negative multiple of 100 and the unlock list reachable |
| VacuumSimulation.Simulation.ChangeParameter | src/components/QuantumVacuumSimulation.tsx:124-128 | the state becomes `ApplyEdit` of the old state |
| VacuumSimulation.Simulation.MergePatch | src/components/QuantumVacuumSimulation.tsx:136-142 | the state becomes `ApplyPatch` of the old state; this covers presets and the tutorial's state changes |
| VacuumSimulation.Simulation.Reset | src/components/QuantumVacuumSimulation.tsx:144-158 | the state is the initial record and the simulation is stopped; score and unlocks are untouched |
| VacuumSimulation.Simulation.ToggleRunning | src/components/QuantumVacuumSimulation.tsx:190 | the running flag flips |
| Field.ChiralColor | src/components/QuantumField.tsx:60-72 | purple (280,60,60) for zero; saturation 80 and lightness 50+30\|c\| otherwise; hue 20+20\|c\| for right-handed, 200+20\|c\| for left-handed |
| Field.ChiralColorBands | src/components/QuantumField.tsx:60-72 | for 0<\|c\|≤1 hues stay in 20–40 or 200–220 and lightness in 50–80; c and −c differ only by a 180° hue shift |
| Field.Spread | src/components/QuantumField.tsx:48-49 | a random coordinate lies in [0, extent), and equals 0 when the extent is 0 |
| Field.Jitter | src/components/QuantumField.tsx:50-51 | a random velocity component has magnitude at most energy/100 |
| Field.CreateParticle | src/components/QuantumField.tsx:43-58 | a new particle is inside the canvas, moves at most \|energy\|/100 per axis, has size in [1,4), alpha in [0.2,1), life in [50,150), and carries the state's chirality and colour |
| Field.Drift | src/components/QuantumField.tsx:186-195 | the velocity after the chiral force (chirality·0.01 times sin/cos of the position·0.01) and then the magnetic force (field·0.05 along the field direction); its effect on a frame is stated by `Tick`, `TickOrder` and `WallBounce` |
| Field.Tick | src/components/QuantumField.tsx:185-214 | after one frame the particle is inside the canvas, is one frame older, has alpha (life/150)(coherence/100) and the current chirality colour, and keeps its size and chirality |
| Field.TickOrder | src/components/QuantumField.tsx:186-210 | velocity is drifted, then damped by 0.98, then flipped by −0.8 on each axis whose new position left the canvas; position is clamped |
| Field.WallBounce | src/components/QuantumField.tsx:205-210 | a particle pushed past the left or right wall lands on that wall and moves back inward at 0.8 of its damped speed |
| Field.TickSlot | src/components/QuantumField.tsx:212-222 | a slot stays inside the canvas with positive life and the current colour; a survivor is exactly `Tick` of its particle (so it ages by one frame); a dying particle is replaced by a new one in the same slot |
| Field.PoolSize | src/components/QuantumField.tsx:33 | the pool holds `max(50, coherence)` particles |
| Field.QuantumField.constructor | src/components/QuantumField.tsx:25-27 | an empty pool on an 800 × 400 canvas |
| Field.QuantumField.InitParticles | src/components/QuantumField.tsx:30-41 | a fresh pool of `max(50, coherence)` new particles replaces the old one |
| Field.QuantumField.UpdateParticles | src/components/QuantumField.tsx:182-224 | every slot is updated in place to `TickSlot` of its old particle, so all particles are in bounds, alive and currently coloured |
| Field.QuantumField.Animate | src/components/QuantumField.tsx:254-277 | with no drawing surface nothing changes; otherwise the pool is updated and the next frame is requested exactly while running |
| Tutorial.StepTargets | src/components/TutorialSystem.tsx:18-80 | eight steps; exactly steps 2–6 carry a target, each naming one field |
| Tutorial.TutorialPathStopsShortOfPhase | src/components/TutorialSystem.tsx:26-65 | applying all five targets from any starting state gives the controls 45/100/0.7/45/graphene, and field 0.7 is not above 0.7, so no topological phase |
| Tutorial.RestartRestoresInitialControls | src/components/TutorialSystem.tsx:121-130 | the restart patch restores exactly the initial controls |
| Tutorial.NextEffects | src/components/TutorialSystem.tsx:99-109 | Next sends the step's target exactly once and first if it has one, closes iff on the last step, and sends nothing else |
| Tutorial.TutorialSystem.constructor | src/components/TutorialSystem.tsx:93 | the tutorial starts at the first step |
| Tutorial.TutorialSystem.Next | src/components/TutorialSystem.tsx:99-109 | emits `NextEffects` of the current step and advances, except on the last step |
| Tutorial.TutorialSystem.Previous | src/components/TutorialSystem.tsx:111-115 | steps back except at the first step |
| Tutorial.TutorialSystem.Skip | src/components/TutorialSystem.tsx:117-119 | only closes |
| Tutorial.TutorialSystem.Restart | src/components/TutorialSystem.tsx:121-130 | returns to step 1 and sends the default controls |
| Achievements.Holds | src/components/AchievementSystem.tsx:25-70 | the six conditions: phase on; coherence ≥ 90; energy ≥ 80 with field ≤ 0.3; spacing and angle each within 2 of 100 and 45; score ≥ 500; \|chirality\| ≥ 0.8; used by `NewlyMembers` and `EnergyEfficiencyUnreachable` |
| Achievements.TableIdsDistinct | src/components/AchievementSystem.tsx:19-74 | the six achievement ids are distinct |
| Achievements.NewlyMembers | src/components/AchievementSystem.tsx:84-94 | an id is appended iff it was not unlocked and its condition holds; nothing else is appended |
| Achievements.NewlyDistinct | src/components/AchievementSystem.tsx:84-94 | the appended ids are distinct |
| Achievements.UnlockAchievements | src/components/AchievementSystem.tsx:84-94 | the old list is a prefix; each table id is present afterwards iff it was already unlocked or its condition holds; a duplicate-free list stays duplicate-free |
| Achievements.PointsOf | src/components/AchievementSystem.tsx:106-108 | the unlocked points never exceed the table's total |
| Achievements.TotalPoints | src/components/AchievementSystem.tsx:106-108 | the badge total is at most 555 |
| Achievements.PointsMonotone | src/components/AchievementSystem.tsx:106-108 | unlocking more never lowers the total |
| Achievements.EnergyEfficiencyUnreachable | src/components/AchievementSystem.tsx:43 | energy ≥ 80 with field ≤ 0.3 never holds on a derived state |
| Achievements.EnergyEfficiencyOnStaleState | src/components/AchievementSystem.tsx:43 | derived at field 1.0 (energy 195) and then edited to field 0.3, the not-yet-rederived state meets the energy-efficiency condition |
| Presets.IsPresetAvailable | src/components/PresetManager.tsx:92-95 | a preset whose material is `'none'` is always available; otherwise (including a preset that names no material, which needs the empty key) it is available iff its material is unlocked |
| Presets.LoadPreset | src/components/PresetManager.tsx:124-126 | the button yields the preset's patch iff the preset is available |
| Presets.PresetsSetAllControls | src/components/PresetManager.tsx:18-75 | every preset names all five control fields |
| Presets.TopologicalPresetEntersPhase | src/components/PresetManager.tsx:47-60 | the "topological" preset is resonant and at optimal angle, and derives energy 156, coherence 100 and the phase |
| Presets.AvailabilityByUnlocks | src/components/PresetManager.tsx:18-95 | with `[graphene]` the first three presets are available and "advanced-chiral" is not; with bismuthene all four are |
| Materials.IsUnlocked | src/components/MaterialSelector.tsx:58 | a key is unlocked iff it is in the unlock list or is "none"; used by `SelectMaterial` and `ExoticMaterialsStayLocked` |
| Materials.IsSelected | src/components/MaterialSelector.tsx:59 | a key is selected iff it equals the current material; `AtMostOneSelected` shows at most one key is |
| Materials.SelectMaterial | src/components/MaterialSelector.tsx:58-64 | a click yields the material edit iff the key is unlocked or "none" |
| Materials.AtMostOneSelected | src/components/MaterialSelector.tsx:14-59 | the five keys are distinct, so at most one is shown selected |
| Materials.SelectionIsUnlocked | src/components/MaterialSelector.tsx:58-64 | a material set through the selector is unlocked |
| Materials.ExoticMaterialsStayLocked | src/components/MaterialSelector.tsx:58 | with any reachable unlock list "twisted-bilayer" and "phosphorene" are locked, while "none" and "graphene" are unlocked |
| PhaseIndicator.Classify | src/components/PhaseIndicator.tsx:13-47 | each of the four phases is shown exactly when its own test holds and no earlier test does; the heading shown is `Classify(s).Name()` |
| PhaseIndicator.HeadingIdentifiesPhase | src/components/PhaseIndicator.tsx:13-66 | the four headings are distinct, so the shown heading tells the phase apart |
| PhaseIndicator.HighEnergyImpliesCoherent | src/components/PhaseIndicator.tsx:22 | on a derived state energy > 70 already implies coherence > 50 |
| PhaseIndicator.ChiralBanner | src/components/PhaseIndicator.tsx:86-96 | the banner shows iff \|chirality\| > 0.1; right-handed iff chirality > 0.1, left-handed iff < −0.1 |
| PhaseIndicator.WeakFieldShowsNoBanner | src/components/PhaseIndicator.tsx:86 | a field in [0, 0.095] never raises the banner |
| DataExport.Values | src/components/DataExport.tsx:49-58 | ten value cells in label order: `show` of angle, spacing, field, direction, chirality, then the material, `show` of energy and coherence, the phase as "true"/"false", `show` of the score; every cell except the material is free of separators |
| DataExport.CsvRows | src/components/DataExport.tsx:47-59 | 11 rows: the header, then row i pairs the i-th label with the i-th value cell, labels in fixed order ending with Score; all cells are free of separators iff the material key is |
| DataExport.Join | src/components/DataExport.tsx:61 | `Array.join`: cells with the separator between them, "" for no cells; `SplitJoin` and `JoinSplit` show `Split` is its inverse |
| DataExport.Lines | src/components/DataExport.tsx:61 | each row joined with ','; `CsvRoundTrip` shows each line splits back into its row |
| DataExport.CsvContent | src/components/DataExport.tsx:61 | the lines joined with '\n', no trailing newline; `CsvRoundTrip` shows it parses back and counts its newlines |
| DataExport.Split | src/components/DataExport.tsx:61 | splitting gives one more piece than separators, and no piece holds the separator |
| DataExport.JoinSplit | src/components/DataExport.tsx:61 | joining the pieces of a split gives the text back |
| DataExport.SplitJoin | src/components/DataExport.tsx:61 | splitting a join of separator-free cells gives the cells back |
| DataExport.CsvRoundTrip | src/components/DataExport.tsx:61 | a non-empty list of non-empty rows with clean cells parses back from its CSV text, which holds one newline fewer than there are rows |
| DataExport.CsvExportRoundTrip | src/components/DataExport.tsx:47-61 | the exported CSV parses back to its rows and holds exactly 10 newlines |
| DataExport.AnalysisVerdicts | src/components/DataExport.tsx:96-108 | the verdicts are chosen by topological phase, by coherence > 80 and by \|chirality\| > 0.5 |

## Left out

- Canvas drawing is not modelled: mirrors, field lines, particles, material overlay and the fade fill. These are graphics side effects.
- `requestAnimationFrame`, `cancelAnimationFrame` and window resizing are not modelled. `Animate` returns whether a next frame would be requested.
- React effect scheduling is not modelled, and two behaviours that follow from it are therefore not captured:
  - The achievement effect (src/components/AchievementSystem.tsx:84-94) is in a child component, so it runs before the parent's derivation effect in the same commit. It therefore sees a state whose energy, coherence and chirality are still those of the previous derivation. From angle 45, spacing 100 and field 1.0 (energy 195), one slider move of the field to 0.3 commits field 0.3 with energy 195, and "energy-efficiency" fires (`Achievements.EnergyEfficiencyOnStaleState` exhibits this state). `Achievements.EnergyEfficiencyUnreachable` holds only for states whose derived fields are up to date.
  - The derivation effect reruns only when one of its dependencies changes (src/components/QuantumVacuumSimulation.tsx:103). A reset from the default controls with the phase off changes none of them, so energy, coherence and chirality stay 0 until the next edit.
- `Recalculate` is one run of the derivation effect and is not triggered automatically. The pool rebuild on a coherence change is `InitParticles`, called explicitly.
- The simulation component's own animation loop is not modelled because it does nothing but reschedule itself.
- Toast notifications are not modelled.
- The JSON export is not modelled, nor the Blob/URL/anchor download steps.
- `Date`, the session data, and the report's full template text are not modelled. Only the report's three verdict choices are.
- Number `toString` is not modelled; it is the parameter `show`.
- DataExport.CsvRows: the number cells are stated as `show` of their field, where `show` is a parameter returning text without ',' or '\n'; JavaScript's own number formatting is not modelled.
- IEEE-754 double arithmetic is not modelled. All numbers are exact reals, so rounding at exact .5 boundaries may differ from the double computation.
- VacuumSimulation.RawChirality: `Math.sin` is any function into [-1, 1], so the model proves only bounds on chirality and no specific value.
- Field.Tick: `Math.sin`/`Math.cos` are likewise abstract. The drift is exact in terms of them, but no bound on particle speed is stated.
- Field.QuantumField.UpdateParticles: `Math.random` is one shared stream in the source. Here slot i draws from `draws[i]`, and that draw is used only if the slot's particle dies, so the order of random calls across slots is not modelled.
- The source updates particle objects in place. Here they are values written back into their array slot; nothing else refers to a particle, so the outcome is the same.
- The source sets the colour on the old particle object after replacing it. Here the replacement's own colour is used; it is the same colour.
- `handleParameterChange` is modelled only for the five control fields; the sliders and the material selector never send other keys. Its empty sound-feedback branch is left out.
- Slider and button rendering, icons, rarity and difficulty colours, descriptions and the `isVisible` guard of the tutorial are presentation and are not modelled.
- Particle `life` is a real number in the code (`Math.random() * 100 + 50`), not an integer; the model follows the code.
