/** The material selector: the closed set of material keys, which are unlocked
    or selected, and the guarded selection. */
module Materials {
  import opened Common
  import opened VacuumSimulation

  const MaterialKeys: seq<string> := ["none", "graphene", "bismuthene", "twisted-bilayer", "phosphorene"]

  /** A key is unlocked when it is 'none' or in the unlock list. */
  predicate IsUnlocked(key: string, unlocked: seq<string>) {
    key in unlocked || key == "none"
  }

  predicate IsSelected(key: string, selected: string) {
    selected == key
  }

  /** A click on a key's button: only an unlocked key produces the material
      edit. */
  function SelectMaterial(key: string, unlocked: seq<string>): (r: Option<Edit>)
    ensures r.Some? <==> IsUnlocked(key, unlocked)
    ensures r.Some? ==> r.value == SetInsertedMaterial(key)
  {
    if IsUnlocked(key, unlocked) then Some(SetInsertedMaterial(key)) else None
  }

  /** The keys are distinct, so at most one of them is selected. */
  lemma AtMostOneSelected(selected: string)
    ensures NoDuplicates(MaterialKeys)
    ensures forall i, j :: 0 <= i < j < |MaterialKeys| ==>
              !(IsSelected(MaterialKeys[i], selected) && IsSelected(MaterialKeys[j], selected))
  {
  }

  /** Whatever the selector sends, the material it sets is unlocked. */
  lemma SelectionIsUnlocked(key: string, unlocked: seq<string>, s: SimulationState)
    requires SelectMaterial(key, unlocked).Some?
    ensures IsUnlocked(ApplyEdit(s, SelectMaterial(key, unlocked).value).insertedMaterial, unlocked)
  {
  }

  /** Only bismuthene is ever added to the unlock list, so 'twisted-bilayer'
      and 'phosphorene' stay locked for the whole session. */
  lemma ExoticMaterialsStayLocked(u: seq<string>)
    requires ReachableUnlocks(u)
    ensures !IsUnlocked("twisted-bilayer", u) && !IsUnlocked("phosphorene", u)
    ensures IsUnlocked("none", u) && IsUnlocked("graphene", u)
  {
  }
}
