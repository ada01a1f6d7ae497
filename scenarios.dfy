/** Worked ticks: concrete snapshots and the levels the plugin writes for them. */
module Scenarios {
  import opened Wrappers
  import opened Skills
  import opened Items
  import opened Prayers
  import opened CombatStyles
  import opened Stance
  import opened VoidSet
  import opened Gathering
  import opened EffectiveLevel

  /** A snapshot where every skill is boosted to `level`, wearing `equipment`, with weapon category 0. */
  function Uniform(level: int, prayers: set<Prayer>, attackStyle: int, equipment: seq<Item>, region: Option<int>): Snapshot
  {
    Snapshot(_ => level, prayers, 0, attackStyle, Some(equipment), Some([]), region)
  }

  /** Attack 80 in the Accurate stance (category 0, slot 0) with only the stance bonus shown: 83. */
  lemma AccurateStance()
    ensures TickUpdates(Uniform(80, {}, 0, [], None), Config(false, true, false, false, false)).value[Attack] == 83
  {
    assert AttackStyleText(0, 0) == Success(Some("Accurate"));
    StanceTable();
  }

  /** Strength 80 with Piety and only the prayer boost shown: floor(80 * 1.23) = 98. */
  lemma PietyStrength()
    ensures TickUpdates(Uniform(80, {Piety}, 0, [], None), Config(true, false, false, false, false)).value[Strength] == 98
  {
    TopPrayersWin({Piety});
  }

  /** Ranged 70 in the elite void ranger set with only the void bonus shown: floor(70 * 1.125) = 78. */
  lemma EliteVoidRanged()
    ensures var equipment := [Void(Gloves, Plain), Void(EliteTop, Plain), Void(EliteRobe, Locked), Void(RangerHelm, Ornament)];
      TickUpdates(Uniform(70, {}, 0, equipment, None), Config(false, false, false, true, false)).value[Ranged] == 78
  {
    var equipment := [Void(Gloves, Plain), Void(EliteTop, Plain), Void(EliteRobe, Locked), Void(RangerHelm, Ornament)];
    var worn := Held(Some(equipment));
    assert Void(Gloves, Plain) in worn && Void(EliteTop, Plain) in worn;
    assert Void(EliteRobe, Locked) in worn && Void(RangerHelm, Ornament) in worn;
    assert VoidBonus(Ranged, worn) == 1125;
  }

  /** Mining 60 wearing a celestial ring in a mining region: 60 + 4 + 7 = 71. */
  lemma RingAndMiningSite()
    ensures TickUpdates(Uniform(60, {}, 0, [CelestialRing], Some(11927)), Config(false, false, false, false, true)).value[Mining] == 71
  {
    var worn := Held(Some([CelestialRing]));
    assert MINING_RINGS[0] in worn;
  }

  /**
   * Category 3 has no style in slot 2: the lookup succeeds with no style,
   * and no skill gets a stance bonus.
   */
  lemma EmptySlot(skill: Skill)
    ensures AttackStyleText(3, 2) == Success(None)
    ensures StanceBonusFor(skill, None) == 0
  {
    StanceIdentity(skill, None);
  }
}
