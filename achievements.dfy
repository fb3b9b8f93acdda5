/** Achievements: a fixed table of conditions on the state and score, the
    effect that unlocks those whose condition holds, and the points total. */
module Achievements {
  import opened Common
  import opened VacuumSimulation

  datatype Condition =
    | FirstTopological
    | HighCoherence
    | EnergyEfficiency
    | PerfectResonance
    | ScoreMaster
    | ChiralMaster

  datatype Achievement = Achievement(id: string, name: string, condition: Condition, points: nat)

  const Table: seq<Achievement> := [
    Achievement("first-topological", "Phase Pioneer", FirstTopological, 50),
    Achievement("high-coherence", "Coherence Master", HighCoherence, 75),
    Achievement("energy-efficiency", "Energy Wizard", EnergyEfficiency, 100),
    Achievement("perfect-resonance", "Resonance Expert", PerfectResonance, 60),
    Achievement("score-master", "Quantum Virtuoso", ScoreMaster, 150),
    Achievement("chiral-master", "Chirality Champion", ChiralMaster, 120)
  ]

  /** Each achievement's condition. */
  predicate Holds(c: Condition, s: SimulationState, score: int) {
    match c
    case FirstTopological => s.topologicalPhase
    case HighCoherence => s.coherence >= 90
    case EnergyEfficiency => s.energy >= 80 && s.magneticField <= 0.3
    case PerfectResonance => Abs(s.mirrorSpacing - 100.0) < 2.0 && Abs(s.mirrorAngle - 45.0) < 2.0
    case ScoreMaster => score >= 500
    case ChiralMaster => Abs(s.chirality) >= 0.8
  }

  predicate DistinctIds(t: seq<Achievement>) {
    forall i, j :: 0 <= i < j < |t| ==> t[i].id != t[j].id
  }

  lemma TableIdsDistinct()
    ensures DistinctIds(Table)
  {
  }

  /** Whether the effect appends `a`: not yet unlocked and its condition holds. */
  predicate Qualifies(a: Achievement, unlocked: seq<string>, s: SimulationState, score: int) {
    a.id !in unlocked && Holds(a.condition, s, score)
  }

  /** The ids one run of the effect appends, in table order. */
  function Newly(t: seq<Achievement>, unlocked: seq<string>, s: SimulationState, score: int): seq<string>
  {
    if t == [] then []
    else
      var last := t[|t| - 1];
      Newly(t[..|t| - 1], unlocked, s, score)
      + (if Qualifies(last, unlocked, s, score) then [last.id] else [])
  }

  /** An id of the table is appended exactly when it qualifies; nothing else
      is appended. */
  lemma {:induction false} NewlyMembers(t: seq<Achievement>, unlocked: seq<string>, s: SimulationState, score: int)
    requires DistinctIds(t)
    ensures forall i :: 0 <= i < |t| ==>
              (t[i].id in Newly(t, unlocked, s, score) <==> Qualifies(t[i], unlocked, s, score))
    ensures forall x :: x in Newly(t, unlocked, s, score) ==>
              x !in unlocked && exists i :: 0 <= i < |t| && t[i].id == x
  {
    if t != [] {
      var init := t[..|t| - 1];
      var last := t[|t| - 1];
      NewlyMembers(init, unlocked, s, score);
      forall i | 0 <= i < |t|
        ensures t[i].id in Newly(t, unlocked, s, score) <==> Qualifies(t[i], unlocked, s, score)
      {
        if i < |t| - 1 {
          assert init[i] == t[i];
          assert t[i].id != last.id;
        } else {
          forall k | 0 <= k < |init| ensures init[k].id != last.id {
            assert init[k] == t[k];
          }
        }
      }
      forall x | x in Newly(t, unlocked, s, score)
        ensures x !in unlocked && exists i :: 0 <= i < |t| && t[i].id == x
      {
        if x in Newly(init, unlocked, s, score) {
          var i :| 0 <= i < |init| && init[i].id == x;
          assert t[i].id == x;
        } else {
          assert t[|t| - 1].id == x;
        }
      }
    }
  }

  /** With distinct table ids the appended ids are distinct. */
  lemma {:induction false} NewlyDistinct(t: seq<Achievement>, unlocked: seq<string>, s: SimulationState, score: int)
    requires DistinctIds(t)
    ensures NoDuplicates(Newly(t, unlocked, s, score))
  {
    if t != [] {
      var init := t[..|t| - 1];
      var last := t[|t| - 1];
      assert DistinctIds(init) by {
        forall i, j | 0 <= i < j < |init| ensures init[i].id != init[j].id {
          assert init[i] == t[i] && init[j] == t[j];
        }
      }
      NewlyDistinct(init, unlocked, s, score);
      NewlyMembers(init, unlocked, s, score);
    }
  }

  /** One run of the unlock effect: walks the table and appends the id of
      every achievement that is not yet unlocked and whose condition holds. */
  method UnlockAchievements(unlocked: seq<string>, s: SimulationState, score: int) returns (r: seq<string>)
    ensures r == unlocked + Newly(Table, unlocked, s, score)
    ensures |unlocked| <= |r| && r[..|unlocked|] == unlocked
    ensures forall i :: 0 <= i < |Table| ==>
              (Table[i].id in r <==> Table[i].id in unlocked || Holds(Table[i].condition, s, score))
    ensures NoDuplicates(unlocked) ==> NoDuplicates(r)
  {
    r := unlocked;
    var i := 0;
    while i < |Table|
      invariant 0 <= i <= |Table|
      invariant r == unlocked + Newly(Table[..i], unlocked, s, score)
    {
      var a := Table[i];
      assert Table[..i + 1][..i] == Table[..i];
      if a.id !in unlocked && Holds(a.condition, s, score) {
        r := r + [a.id];
      }
      i := i + 1;
    }
    assert Table[..|Table|] == Table;
    TableIdsDistinct();
    NewlyMembers(Table, unlocked, s, score);
    NewlyDistinct(Table, unlocked, s, score);
    if NoDuplicates(unlocked) {
      var n := Newly(Table, unlocked, s, score);
      forall i, j | 0 <= i < j < |r| ensures r[i] != r[j] {
        if j >= |unlocked| && i < |unlocked| {
          assert r[j] == n[j - |unlocked|];
          assert r[j] in n;
        } else if i >= |unlocked| {
          assert r[i] == n[i - |unlocked|] && r[j] == n[j - |unlocked|];
        }
      }
    }
  }

  /** The sum of all points in a table. */
  function MaxPoints(t: seq<Achievement>): nat {
    if t == [] then 0 else t[0].points + MaxPoints(t[1..])
  }

  /** The points of the table entries whose id is unlocked. */
  function PointsOf(t: seq<Achievement>, unlocked: seq<string>): (n: nat)
    ensures n <= MaxPoints(t)
  {
    if t == [] then 0
    else (if t[0].id in unlocked then t[0].points else 0) + PointsOf(t[1..], unlocked)
  }

  /** The badge total: the points of the unlocked achievements, at most 555. */
  function TotalPoints(unlocked: seq<string>): (n: nat)
    ensures n <= 555
  {
    assert MaxPoints(Table) == 555 by {
      assert Table[1..][1..][1..][1..][1..][1..] == [];
    }
    PointsOf(Table, unlocked)
  }

  /** Unlocking more never lowers the total. */
  lemma {:induction false} PointsMonotone(t: seq<Achievement>, u1: seq<string>, u2: seq<string>)
    requires forall x :: x in u1 ==> x in u2
    ensures PointsOf(t, u1) <= PointsOf(t, u2)
  {
    if t != [] {
      PointsMonotone(t[1..], u1, u2);
    }
  }

  /** 'energy-efficiency' never fires on a derived state: a field of at most
      0.3 gives a rounded energy of at most 59. */
  lemma EnergyEfficiencyUnreachable(trig: Trig, s: SimulationState, previousPhase: bool, score: int)
    ensures !Holds(EnergyEfficiency, WithDerived(s, Derive(trig, ControlsOf(s), previousPhase)), score)
  {
    if s.magneticField <= 0.3 {
      LowFieldEnergyBound(trig, ControlsOf(s), previousPhase);
    }
  }

  /** Between an edit and the next derivation the stored energy is stale:
      derived at field 1.0 (energy 195), then edited to field 0.3, the state
      meets the 'energy-efficiency' condition. */
  lemma EnergyEfficiencyOnStaleState(trig: Trig, score: int)
    ensures var s := InitialState.(magneticField := 1.0);
            var derived := WithDerived(s, Derive(trig, ControlsOf(s), false));
            && derived.energy == 195
            && Holds(EnergyEfficiency, ApplyEdit(derived, SetMagneticField(0.3)), score)
  {
    var c := ControlsOf(InitialState.(magneticField := 1.0));
    assert Resonant(c) && OptimalAngle(c);
    assert RawEnergy(c) == 195.0;
  }
}
