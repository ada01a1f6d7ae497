/**
 * The void knight set bonus: a multiplier (in thousandths) on the effective
 * level of Attack, Strength, Ranged or Magic when the set and the matching
 * helm are worn.
 */
module VoidSet {
  import opened Wrappers
  import opened Skills
  import opened Items

  /** Some variant of the garment is among the worn items. */
  predicate Wears(equipment: set<Item>, g: Garment)
  {
    || Void(g, Plain) in equipment
    || Void(g, Locked) in equipment
    || Void(g, Ornament) in equipment
    || Void(g, LockedOrnament) in equipment
  }

  /** Gloves, a top (plain or elite) and a robe (plain or elite). */
  predicate BaseSet(equipment: set<Item>)
  {
    && Wears(equipment, Gloves)
    && (Wears(equipment, Top) || Wears(equipment, EliteTop))
    && (Wears(equipment, Robe) || Wears(equipment, EliteRobe))
  }

  /** Both elite pieces. */
  predicate Elite(equipment: set<Item>)
  {
    Wears(equipment, EliteTop) && Wears(equipment, EliteRobe)
  }

  /** The helm that gives a skill its set bonus; Defence and the non-combat skills have none. */
  function HelmFor(skill: Skill): Option<Garment>
  {
    match skill
    case Attack => Some(MeleeHelm)
    case Strength => Some(MeleeHelm)
    case Ranged => Some(RangerHelm)
    case Magic => Some(MageHelm)
    case _ => None
  }

  /** The plugin's decision chain for the void multiplier. */
  function VoidBonus(skill: Skill, equipment: set<Item>): (m: int)
    // Defence never gets a set bonus, and no skill does without the base set.
    ensures skill == Defence || !BaseSet(equipment) ==> m == 1000
    // Otherwise the bonus needs the skill's own helm; a wrong or missing helm gives 1.0.
    ensures m != 1000 <==>
      BaseSet(equipment) && HelmFor(skill).Some? && Wears(equipment, HelmFor(skill).value)
    ensures (skill == Attack || skill == Strength) && m != 1000 ==> m == 1100
    ensures skill == Ranged && m != 1000 ==> m == if Elite(equipment) then 1125 else 1100
    ensures skill == Magic && m != 1000 ==> m == if Elite(equipment) then 1475 else 1450
  {
    if skill == Defence then 1000
    else if !BaseSet(equipment) then 1000
    else if (skill == Attack || skill == Strength) && Wears(equipment, MeleeHelm) then 1100
    else if skill == Ranged && Wears(equipment, RangerHelm) then
      if Elite(equipment) then 1125 else 1100
    else if skill == Magic && Wears(equipment, MageHelm) then
      if Elite(equipment) then 1475 else 1450
    else 1000
  }
}
