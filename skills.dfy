/** The skills of the game, as the client names them, and the two groups the plugin works on. */
module Skills {

  datatype Skill =
    | Attack | Defence | Strength | Hitpoints | Ranged | Prayer | Magic | Cooking
    | Woodcutting | Fletching | Fishing | Firemaking | Crafting | Smithing | Mining
    | Herblore | Agility | Thieving | Slayer | Farming | Runecraft | Hunter | Construction

  /** The combat skills, in the order the tick visits them. */
  const COMBAT_SKILLS: seq<Skill> := [Attack, Strength, Defence, Ranged, Magic]

  /** The gathering skills that can receive an invisible boost. */
  const GATHERING_SKILLS: seq<Skill> := [Mining, Construction, Fishing, Woodcutting]

  predicate IsCombat(s: Skill) {
    s in COMBAT_SKILLS
  }

  predicate IsGathering(s: Skill) {
    s in GATHERING_SKILLS
  }

}
