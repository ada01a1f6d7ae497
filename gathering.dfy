/**
 * The invisible boosts of the gathering skills: a celestial ring or signet
 * (+4 Mining), a crystal saw in the inventory (+3 Construction), and +7 to
 * the skill of the site the player stands in.
 */
module Gathering {
  import opened Wrappers
  import opened Skills
  import opened Items

  /** The ring variants that boost Mining, in the order the plugin tests them. */
  const MINING_RINGS: seq<Item> := [CelestialRing, CelestialRingUncharged, CelestialSignet, CelestialSignetUncharged]

  /** The skill a region's gathering site boosts, if any. */
  function RegionSite(regionId: int): Option<Skill>
  {
    if regionId == 11927 || regionId == 12183 then Some(Mining)
    else if regionId == 10293 then Some(Fishing)
    else if regionId == 6198 || regionId == 6454 then Some(Woodcutting)
    else None
  }

  predicate WearsMiningRing(equipment: set<Item>)
  {
    exists i | 0 <= i < |MINING_RINGS| :: MINING_RINGS[i] in equipment
  }

  /** The region bonus of a skill; no region (no local player) gives none. */
  function RegionBonus(skill: Skill, region: Option<int>): (bonus: int)
    ensures bonus in {0, 7}
    ensures bonus == 7 ==> region.Some? && (skill == Mining || skill == Fishing || skill == Woodcutting)
  {
    if region.Some? && RegionSite(region.value) == Some(skill) then 7 else 0
  }

  /** A region boosts at most one skill. */
  lemma RegionBonusAtMostOne(s1: Skill, s2: Skill, region: Option<int>)
    requires s1 != s2
    ensures RegionBonus(s1, region) == 0 || RegionBonus(s2, region) == 0
  {
  }

  /** The level the plugin shows for a skill when invisible boosts are on. */
  function GatheringLevel(skill: Skill, boosted: int, equipment: set<Item>, inventory: set<Item>, region: Option<int>): (level: int)
    // Only the four gathering skills are boosted, by at most 4 + 7.
    ensures !IsGathering(skill) ==> level == boosted
    ensures boosted <= level <= boosted + 11
    // The ring adds 4 once however many variants are worn, and adds to the region bonus.
    ensures skill == Mining ==> level == boosted + (if WearsMiningRing(equipment) then 4 else 0) + RegionBonus(Mining, region)
    ensures skill == Construction ==> level == boosted + (if CrystalSaw in inventory then 3 else 0)
    ensures skill == Fishing || skill == Woodcutting ==> level == boosted + RegionBonus(skill, region)
  {
    var ring := if skill == Mining && WearsMiningRing(equipment) then 4 else 0;
    var saw := if skill == Construction && CrystalSaw in inventory then 3 else 0;
    boosted + ring + saw + RegionBonus(skill, region)
  }

  /**
   * The plugin's computation of the four gathering levels from their boosted
   * levels, the equipment and inventory containers and the region (absent
   * when there is no local player).
   */
  method InvisibleBoost(boostedMining: int, boostedConstruction: int, boostedFishing: int, boostedWoodcutting: int,
                        equipmentContainer: Option<seq<Item>>, inventoryContainer: Option<seq<Item>>, region: Option<int>)
    returns (mining: int, construction: int, fishing: int, woodcutting: int)
    ensures var equipment, inventory := Held(equipmentContainer), Held(inventoryContainer);
      && mining == GatheringLevel(Mining, boostedMining, equipment, inventory, region)
      && construction == GatheringLevel(Construction, boostedConstruction, equipment, inventory, region)
      && fishing == GatheringLevel(Fishing, boostedFishing, equipment, inventory, region)
      && woodcutting == GatheringLevel(Woodcutting, boostedWoodcutting, equipment, inventory, region)
  {
    mining, construction := boostedMining, boostedConstruction;
    fishing, woodcutting := boostedFishing, boostedWoodcutting;

    var equipment := ItemIds(equipmentContainer);
    for i := 0 to |MINING_RINGS|
      invariant forall j | 0 <= j < i :: MINING_RINGS[j] !in equipment
      invariant mining == boostedMining
    {
      if MINING_RINGS[i] in equipment {
        mining := mining + 4;
        break;
      }
    }
    assert mining == boostedMining + (if WearsMiningRing(equipment) then 4 else 0);

    var inventory := ItemIds(inventoryContainer);
    if CrystalSaw in inventory {
      construction := construction + 3;
    }
    assert construction == GatheringLevel(Construction, boostedConstruction, equipment, inventory, region);

    if region.Some? {
      var regionId := region.value;
      if regionId == 11927 || regionId == 12183 {
        mining := mining + 7;
      } else if regionId == 10293 {
        fishing := fishing + 7;
      } else if regionId == 6198 || regionId == 6454 {
        woodcutting := woodcutting + 7;
      }
    }
  }
}
