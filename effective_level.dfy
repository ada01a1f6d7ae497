/**
 * One game tick of the plugin: the effective level of each combat skill and,
 * when invisible boosts are shown, of each gathering skill.
 */
module EffectiveLevel {
  import opened Wrappers
  import opened Skills
  import opened Items
  import opened Prayers
  import opened CombatStyles
  import opened Stance
  import opened VoidSet
  import opened Gathering

  /** The user's toggles, one per modifier. */
  datatype Config = Config(
    showPrayerBoost: bool,
    showStanceBonus: bool,
    showAdjustmentConstant: bool,
    showVoidBonus: bool,
    showInvisibleBoost: bool)

  const ALL_OFF := Config(false, false, false, false, false)

  /**
   * What the plugin reads from the client in one tick: the boosted level of
   * every skill, the active prayers, the equipped-weapon-type varbit and the
   * attack-style varp, the equipment and inventory containers (absent when
   * the client has none) and the region id (absent without a local player).
   */
  datatype Snapshot = Snapshot(
    boosted: Skill -> int,
    prayers: set<Prayer>,
    weaponType: int,
    attackStyle: int,
    equipment: Option<seq<Item>>,
    inventory: Option<seq<Item>>,
    region: Option<int>)

  /** The hidden +8 of the game's effective-level formulas. */
  const ADJUSTMENT := 8

  /**
   * `level` times a multiplier in thousandths, narrowed to an int by
   * truncation toward zero, as an `int *= double` does.
   */
  function Scale(level: int, multiplier: int): (r: int)
    ensures level * multiplier >= 0 ==> r * 1000 <= level * multiplier < r * 1000 + 1000
    ensures level * multiplier < 0 ==> r * 1000 - 1000 < level * multiplier <= r * 1000
  {
    var product := level * multiplier;
    if product >= 0 then product / 1000 else -((-product) / 1000)
  }

  /**
   * The combat pipeline, stage by stage in the plugin's order, each stage
   * only when its toggle is on: scale by the prayer multiplier, add the
   * stance bonus, add the constant, scale by the void multiplier.
   */
  function Pipeline(boosted: int, prayer: int, stance: int, voidBonus: int, config: Config): int
  {
    var afterPrayer := if config.showPrayerBoost then Scale(boosted, prayer) else boosted;
    var afterStance := if config.showStanceBonus then afterPrayer + stance else afterPrayer;
    var afterConstant := if config.showAdjustmentConstant then afterStance + ADJUSTMENT else afterStance;
    if config.showVoidBonus then Scale(afterConstant, voidBonus) else afterConstant
  }

  /** The effective level of a combat skill, given the style the stance lookup produced. */
  function CombatLevel(skill: Skill, snap: Snapshot, config: Config, style: Option<string>): int
  {
    Pipeline(snap.boosted(skill), PrayerMultiplier(skill, snap.prayers), StanceBonusFor(skill, style),
             VoidBonus(skill, Held(snap.equipment)), config)
  }

  /** The levels written for the combat skills. */
  function CombatUpdates(snap: Snapshot, config: Config, style: Option<string>): map<Skill, int>
  {
    map s | s in COMBAT_SKILLS :: CombatLevel(s, snap, config, style)
  }

  /** The levels written for the gathering skills when invisible boosts are on. */
  function GatheringUpdates(snap: Snapshot): map<Skill, int>
  {
    var equipment, inventory := Held(snap.equipment), Held(snap.inventory);
    map[Mining := GatheringLevel(Mining, snap.boosted(Mining), equipment, inventory, snap.region),
        Construction := GatheringLevel(Construction, snap.boosted(Construction), equipment, inventory, snap.region),
        Fishing := GatheringLevel(Fishing, snap.boosted(Fishing), equipment, inventory, snap.region),
        Woodcutting := GatheringLevel(Woodcutting, snap.boosted(Woodcutting), equipment, inventory, snap.region)]
  }

  /** Four writes one after another are the union with the map of the four. */
  lemma GatheringWrites(written: map<Skill, int>, mining: int, construction: int, fishing: int, woodcutting: int)
    ensures written[Mining := mining][Construction := construction][Fishing := fishing][Woodcutting := woodcutting]
      == written + map[Mining := mining, Construction := construction, Fishing := fishing, Woodcutting := woodcutting]
  {
  }

  /**
   * The levels one tick writes, by skill: every combat skill, and the
   * gathering skills when invisible boosts are on. A failed style lookup
   * aborts the tick before anything is written.
   */
  function TickUpdates(snap: Snapshot, config: Config): Result<map<Skill, int>, StyleError>
  {
    match AttackStyleText(snap.weaponType, snap.attackStyle)
    case Failure(e) => Failure(e)
    case Success(style) =>
      var combat := CombatUpdates(snap, config, style);
      if config.showInvisibleBoost then Success(combat + GatheringUpdates(snap)) else Success(combat)
  }

  /** The body of the plugin's combat loop for one skill: gather the three modifiers, then run the stages. */
  method EffectiveCombatLevel(skill: Skill, snap: Snapshot, config: Config) returns (r: Result<int, StyleError>)
    ensures AttackStyleText(snap.weaponType, snap.attackStyle).Failure? ==>
      r == Failure(AttackStyleText(snap.weaponType, snap.attackStyle).error)
    ensures AttackStyleText(snap.weaponType, snap.attackStyle).Success? ==>
      r == Success(CombatLevel(skill, snap, config, AttackStyleText(snap.weaponType, snap.attackStyle).value))
  {
    ghost var lookup := AttackStyleText(snap.weaponType, snap.attackStyle);
    var prayerBoost := PrayerBoost(skill, snap.prayers);
    assert prayerBoost == PrayerMultiplier(skill, snap.prayers);
    var stanceBonus :- StanceBonus(skill, snap.weaponType, snap.attackStyle);
    assert lookup.Success? && stanceBonus == StanceBonusFor(skill, lookup.value);
    var equipment := ItemIds(snap.equipment);
    var voidBonus := VoidBonus(skill, equipment);
    assert voidBonus == VoidBonus(skill, Held(snap.equipment));

    var effectiveLevel := snap.boosted(skill);
    if config.showPrayerBoost {
      effectiveLevel := Scale(effectiveLevel, prayerBoost);
    }
    if config.showStanceBonus {
      effectiveLevel := effectiveLevel + stanceBonus;
    }
    if config.showAdjustmentConstant {
      effectiveLevel := effectiveLevel + ADJUSTMENT;
    }
    if config.showVoidBonus {
      effectiveLevel := Scale(effectiveLevel, voidBonus);
    }
    assert effectiveLevel == Pipeline(snap.boosted(skill), prayerBoost, stanceBonus, voidBonus, config);
    assert effectiveLevel == CombatLevel(skill, snap, config, lookup.value);
    return Success(effectiveLevel);
  }

  /** The plugin's combat loop: the effective level of each combat skill, in order; a failed style lookup aborts it. */
  method CombatSkills(snap: Snapshot, config: Config) returns (r: Result<map<Skill, int>, StyleError>)
    ensures AttackStyleText(snap.weaponType, snap.attackStyle).Failure? ==>
      r == Failure(AttackStyleText(snap.weaponType, snap.attackStyle).error)
    ensures AttackStyleText(snap.weaponType, snap.attackStyle).Success? ==>
      r == Success(CombatUpdates(snap, config, AttackStyleText(snap.weaponType, snap.attackStyle).value))
  {
    var updates: map<Skill, int> := map[];
    ghost var lookup := AttackStyleText(snap.weaponType, snap.attackStyle);
    for i := 0 to |COMBAT_SKILLS|
      invariant i > 0 ==> lookup.Success?
      invariant forall s :: s in updates <==> s in COMBAT_SKILLS[..i]
      invariant forall s {:trigger updates[s]} | s in updates :: updates[s] == CombatLevel(s, snap, config, lookup.value)
    {
      var skill := COMBAT_SKILLS[i];
      var effectiveLevel :- EffectiveCombatLevel(skill, snap, config);
      assert COMBAT_SKILLS[..i + 1] == COMBAT_SKILLS[..i] + [skill];
      updates := updates[skill := effectiveLevel];
    }
    assert COMBAT_SKILLS[..|COMBAT_SKILLS|] == COMBAT_SKILLS;
    assert updates == CombatUpdates(snap, config, lookup.value);
    return Success(updates);
  }

  /** The plugin's tick handler: the combat loop, then the gathering skills when invisible boosts are on. */
  method OnGameTick(snap: Snapshot, config: Config) returns (r: Result<map<Skill, int>, StyleError>)
    ensures r == TickUpdates(snap, config)
  {
    var updates :- CombatSkills(snap, config);
    if config.showInvisibleBoost {
      var mining, construction, fishing, woodcutting :=
        InvisibleBoost(snap.boosted(Mining), snap.boosted(Construction), snap.boosted(Fishing),
                       snap.boosted(Woodcutting), snap.equipment, snap.inventory, snap.region);
      GatheringWrites(updates, mining, construction, fishing, woodcutting);
      updates := updates[Mining := mining][Construction := construction]
                        [Fishing := fishing][Woodcutting := woodcutting];
    }
    return Success(updates);
  }

  /** Scaling by 1.0 changes nothing. */
  lemma ScaleUnit(level: int)
    ensures Scale(level, UNIT) == level
  {
  }

  /** Scaling a non-negative level by a multiplier of at least 1.0 never lowers it. */
  lemma ScaleGrows(level: int, multiplier: int)
    requires level >= 0 && multiplier >= UNIT
    ensures Scale(level, multiplier) >= level
  {
    assert level * multiplier >= level * UNIT by {
      assert level * (multiplier - UNIT) >= 0;
    }
  }

  /** Truncating scaling by a non-negative multiplier preserves order. */
  lemma ScaleMonotone(a: int, b: int, multiplier: int)
    requires a <= b && multiplier >= 0
    ensures Scale(a, multiplier) <= Scale(b, multiplier)
  {
    assert a * multiplier <= b * multiplier by {
      assert (b - a) * multiplier >= 0;
    }
  }

  /** With every toggle off a combat skill shows its boosted level. */
  lemma PipelineIdentity(boosted: int, prayer: int, stance: int, voidBonus: int)
    ensures Pipeline(boosted, prayer, stance, voidBonus, ALL_OFF) == boosted
  {
  }

  /** A higher boosted level never gives a lower effective level. */
  lemma PipelineMonotone(b1: int, b2: int, prayer: int, stance: int, voidBonus: int, config: Config)
    requires b1 <= b2 && prayer >= 0 && voidBonus >= 0
    ensures Pipeline(b1, prayer, stance, voidBonus, config) <= Pipeline(b2, prayer, stance, voidBonus, config)
  {
    ScaleMonotone(b1, b2, prayer);
    var p1 := if config.showPrayerBoost then Scale(b1, prayer) else b1;
    var p2 := if config.showPrayerBoost then Scale(b2, prayer) else b2;
    var s1 := if config.showStanceBonus then p1 + stance else p1;
    var s2 := if config.showStanceBonus then p2 + stance else p2;
    var c1 := if config.showAdjustmentConstant then s1 + ADJUSTMENT else s1;
    var c2 := if config.showAdjustmentConstant then s2 + ADJUSTMENT else s2;
    ScaleMonotone(c1, c2, voidBonus);
  }

  /**
   * The order of the stages matters: at 80 Strength with Piety and the
   * Aggressive style, scaling first and then adding gives 101; adding first
   * would give 102.
   */
  lemma PipelineOrder()
    ensures Pipeline(80, 1230, 3, UNIT, Config(true, true, false, false, false)) == 101
    ensures Scale(80 + 3, 1230) == 102
  {
  }

  /** With multipliers of at least 1.0 and a non-negative stance bonus, no stage lowers the level. */
  lemma PipelineAtLeast(boosted: int, prayer: int, stance: int, voidBonus: int, config: Config)
    requires boosted >= 0 && prayer >= UNIT && stance >= 0 && voidBonus >= UNIT
    ensures Pipeline(boosted, prayer, stance, voidBonus, config) >= boosted
  {
    ScaleGrows(boosted, prayer);
    var afterPrayer := if config.showPrayerBoost then Scale(boosted, prayer) else boosted;
    var afterStance := if config.showStanceBonus then afterPrayer + stance else afterPrayer;
    var afterConstant := if config.showAdjustmentConstant then afterStance + ADJUSTMENT else afterStance;
    ScaleGrows(afterConstant, voidBonus);
  }

  /** The effective level of a combat skill is never below a non-negative boosted level. */
  lemma EffectiveAtLeastBoosted(skill: Skill, snap: Snapshot, config: Config, style: Option<string>)
    requires snap.boosted(skill) >= 0
    ensures CombatLevel(skill, snap, config, style) >= snap.boosted(skill)
  {
    PrayerBounds(skill, snap.prayers);
    StanceBonusValues(skill, style);
    PipelineAtLeast(snap.boosted(skill), PrayerMultiplier(skill, snap.prayers), StanceBonusFor(skill, style),
                    VoidBonus(skill, Held(snap.equipment)), config);
  }

  /** Defence is never scaled by the void set: its toggle makes no difference there. */
  lemma DefenceIgnoresVoid(snap: Snapshot, config: Config, style: Option<string>)
    ensures CombatLevel(Defence, snap, config, style)
         == CombatLevel(Defence, snap, config.(showVoidBonus := false), style)
  {
    var boosted := snap.boosted(Defence);
    var prayer := PrayerMultiplier(Defence, snap.prayers);
    var afterPrayer := if config.showPrayerBoost then Scale(boosted, prayer) else boosted;
    var stance := StanceBonusFor(Defence, style);
    var afterStance := if config.showStanceBonus then afterPrayer + stance else afterPrayer;
    var afterConstant := if config.showAdjustmentConstant then afterStance + ADJUSTMENT else afterStance;
    ScaleUnit(afterConstant);
  }

  /** With every toggle off, each combat skill is written at its boosted level. */
  lemma CombatUpdatesAllOff(snap: Snapshot, style: Option<string>)
    ensures CombatUpdates(snap, ALL_OFF, style) == map s | s in COMBAT_SKILLS :: snap.boosted(s)
  {
    forall s | s in COMBAT_SKILLS ensures CombatLevel(s, snap, ALL_OFF, style) == snap.boosted(s) {
      PipelineIdentity(snap.boosted(s), PrayerMultiplier(s, snap.prayers), StanceBonusFor(s, style),
                       VoidBonus(s, Held(snap.equipment)));
    }
  }

  /**
   * With every toggle off, a tick whose style lookup succeeds writes each
   * combat skill's boosted level and leaves the gathering skills alone.
   */
  lemma TogglesOffIdentity(snap: Snapshot)
    requires AttackStyleText(snap.weaponType, snap.attackStyle).Success?
    ensures TickUpdates(snap, ALL_OFF) == Success(map s | s in COMBAT_SKILLS :: snap.boosted(s))
  {
    CombatUpdatesAllOff(snap, AttackStyleText(snap.weaponType, snap.attackStyle).value);
  }

  /**
   * A style lookup that fails (unknown weapon category, slot out of range)
   * aborts the tick whatever the toggles, even with the stance bonus off.
   */
  lemma FailedLookupAborts(snap: Snapshot, config: Config)
    requires AttackStyleText(snap.weaponType, snap.attackStyle).Failure?
    ensures TickUpdates(snap, config).Failure?
  {
  }

  /** A tick writes exactly the combat skills, plus the gathering skills when invisible boosts are on. */
  lemma WrittenSkills(snap: Snapshot, config: Config)
    requires TickUpdates(snap, config).Success?
    ensures forall s :: s in TickUpdates(snap, config).value <==>
      IsCombat(s) || (config.showInvisibleBoost && IsGathering(s))
  {
  }
}
