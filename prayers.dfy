/**
 * Prayer multipliers. Each combat skill has an ordered list of prayers, each
 * with the multiplier it gives; the last active prayer in the list decides.
 * Multipliers are in thousandths: 1000 is 1.0, 1230 is 1.23.
 */
module Prayers {
  import opened Skills
  import opened Overrides

  /** The prayers whose activity the plugin consults. */
  datatype Prayer =
    | ClarityOfThought | ImprovedReflexes | IncredibleReflexes
    | BurstOfStrength | SuperhumanStrength | UltimateStrength
    | ThickSkin | RockSkin | SteelSkin
    | SharpEye | HawkEye | EagleEye
    | MysticWill | MysticLore | MysticMight
    | Chivalry | Piety | Rigour | Augury

  /** The multiplier 1.0, in thousandths. */
  const UNIT := 1000

  /** Per skill, the prayers in the order the plugin tests them, with their multipliers. */
  function PrayerRules(skill: Skill): seq<Rule<Prayer>>
  {
    match skill
    case Attack =>
      [Rule(ClarityOfThought, 1050), Rule(ImprovedReflexes, 1100), Rule(IncredibleReflexes, 1150),
       Rule(Chivalry, 1150), Rule(Piety, 1200)]
    case Strength =>
      [Rule(BurstOfStrength, 1050), Rule(SuperhumanStrength, 1100), Rule(UltimateStrength, 1150),
       Rule(Chivalry, 1180), Rule(Piety, 1230)]
    case Defence =>
      [Rule(ThickSkin, 1050), Rule(RockSkin, 1100), Rule(SteelSkin, 1150),
       Rule(Chivalry, 1200), Rule(Piety, 1250), Rule(Rigour, 1250), Rule(Augury, 1250)]
    case Ranged =>
      [Rule(SharpEye, 1050), Rule(HawkEye, 1100), Rule(EagleEye, 1150), Rule(Rigour, 1200)]
    case Magic =>
      [Rule(MysticWill, 1050), Rule(MysticLore, 1100), Rule(MysticMight, 1150), Rule(Augury, 1250)]
    case _ => []
  }

  /** The multiplier a skill receives from the active prayers: the last active rule wins, else 1.0. */
  function PrayerMultiplier(skill: Skill, active: set<Prayer>): int
  {
    LastMatch(PrayerRules(skill), active, UNIT, |PrayerRules(skill)|)
  }

  /**
   * The plugin's computation: start at 1.0 and reassign for every active
   * prayer, in order. After the line that tests rule k, `multiplier` is the
   * table's verdict on its first k + 1 rules.
   */
  method PrayerBoost(skill: Skill, active: set<Prayer>) returns (multiplier: int)
    ensures multiplier == PrayerMultiplier(skill, active)
  {
    ghost var rules := PrayerRules(skill);
    multiplier := UNIT;
    match skill {
      case Attack =>
        multiplier := if ClarityOfThought in active then 1050 else multiplier;
        assert multiplier == LastMatch(rules, active, UNIT, 1);
        multiplier := if ImprovedReflexes in active then 1100 else multiplier;
        assert multiplier == LastMatch(rules, active, UNIT, 2);
        multiplier := if IncredibleReflexes in active then 1150 else multiplier;
        assert multiplier == LastMatch(rules, active, UNIT, 3);
        multiplier := if Chivalry in active then 1150 else multiplier;
        assert multiplier == LastMatch(rules, active, UNIT, 4);
        multiplier := if Piety in active then 1200 else multiplier;
        assert multiplier == LastMatch(rules, active, UNIT, 5);
      case Strength =>
        multiplier := if BurstOfStrength in active then 1050 else multiplier;
        assert multiplier == LastMatch(rules, active, UNIT, 1);
        multiplier := if SuperhumanStrength in active then 1100 else multiplier;
        assert multiplier == LastMatch(rules, active, UNIT, 2);
        multiplier := if UltimateStrength in active then 1150 else multiplier;
        assert multiplier == LastMatch(rules, active, UNIT, 3);
        multiplier := if Chivalry in active then 1180 else multiplier;
        assert multiplier == LastMatch(rules, active, UNIT, 4);
        multiplier := if Piety in active then 1230 else multiplier;
        assert multiplier == LastMatch(rules, active, UNIT, 5);
      case Defence =>
        multiplier := if ThickSkin in active then 1050 else multiplier;
        assert multiplier == LastMatch(rules, active, UNIT, 1);
        multiplier := if RockSkin in active then 1100 else multiplier;
        assert multiplier == LastMatch(rules, active, UNIT, 2);
        multiplier := if SteelSkin in active then 1150 else multiplier;
        assert multiplier == LastMatch(rules, active, UNIT, 3);
        multiplier := if Chivalry in active then 1200 else multiplier;
        assert multiplier == LastMatch(rules, active, UNIT, 4);
        multiplier := if Piety in active then 1250 else multiplier;
        assert multiplier == LastMatch(rules, active, UNIT, 5);
        multiplier := if Rigour in active then 1250 else multiplier;
        assert multiplier == LastMatch(rules, active, UNIT, 6);
        multiplier := if Augury in active then 1250 else multiplier;
        assert multiplier == LastMatch(rules, active, UNIT, 7);
      case Ranged =>
        multiplier := if SharpEye in active then 1050 else multiplier;
        assert multiplier == LastMatch(rules, active, UNIT, 1);
        multiplier := if HawkEye in active then 1100 else multiplier;
        assert multiplier == LastMatch(rules, active, UNIT, 2);
        multiplier := if EagleEye in active then 1150 else multiplier;
        assert multiplier == LastMatch(rules, active, UNIT, 3);
        multiplier := if Rigour in active then 1200 else multiplier;
        assert multiplier == LastMatch(rules, active, UNIT, 4);
      case Magic =>
        multiplier := if MysticWill in active then 1050 else multiplier;
        assert multiplier == LastMatch(rules, active, UNIT, 1);
        multiplier := if MysticLore in active then 1100 else multiplier;
        assert multiplier == LastMatch(rules, active, UNIT, 2);
        multiplier := if MysticMight in active then 1150 else multiplier;
        assert multiplier == LastMatch(rules, active, UNIT, 3);
        multiplier := if Augury in active then 1250 else multiplier;
        assert multiplier == LastMatch(rules, active, UNIT, 4);
      case _ =>
    }
  }

  /** The prayers a skill's rules consult. */
  function Consulted(skill: Skill): set<Prayer>
  {
    set i | 0 <= i < |PrayerRules(skill)| :: PrayerRules(skill)[i].key
  }

  /** With none of a skill's prayers active, and for every non-combat skill, the multiplier is 1.0. */
  lemma PrayerIdentity(skill: Skill, active: set<Prayer>)
    requires !IsCombat(skill) || active * Consulted(skill) == {}
    ensures PrayerMultiplier(skill, active) == UNIT
  {
    var rules := PrayerRules(skill);
    forall i | 0 <= i < |rules| ensures rules[i].key !in active {
      assert rules[i].key in Consulted(skill);
      assert IsCombat(skill);
      assert rules[i].key !in active * Consulted(skill);
    }
    LastMatchNoneHolds(rules, active, UNIT, |rules|);
  }

  /** Every prayer multiplier lies between 1.0 and 1.25. */
  lemma PrayerBounds(skill: Skill, active: set<Prayer>)
    ensures UNIT <= PrayerMultiplier(skill, active) <= 1250
  {
    LastMatchWithin(PrayerRules(skill), active, UNIT, UNIT, 1250);
  }

  /** An active prayer decides the multiplier when no prayer tested after it is active. */
  lemma LastActiveWins(skill: Skill, active: set<Prayer>, i: nat)
    requires i < |PrayerRules(skill)| && PrayerRules(skill)[i].key in active
    requires forall j | i < j < |PrayerRules(skill)| :: PrayerRules(skill)[j].key !in active
    ensures PrayerMultiplier(skill, active) == PrayerRules(skill)[i].value
  {
    LastMatchFrom(PrayerRules(skill), active, UNIT, |PrayerRules(skill)|, i);
  }

  /**
   * The top prayers override everything else: Piety gives 1.20 Attack, 1.23
   * Strength and 1.25 Defence, Rigour 1.20 Ranged and 1.25 Defence, Augury
   * 1.25 Magic and 1.25 Defence, whatever else is active.
   */
  lemma TopPrayersWin(active: set<Prayer>)
    ensures Piety in active ==> PrayerMultiplier(Attack, active) == 1200
    ensures Piety in active ==> PrayerMultiplier(Strength, active) == 1230
    ensures (Piety in active || Rigour in active || Augury in active) ==> PrayerMultiplier(Defence, active) == 1250
    ensures Rigour in active ==> PrayerMultiplier(Ranged, active) == 1200
    ensures Augury in active ==> PrayerMultiplier(Magic, active) == 1250
  {
    var rules := PrayerRules(Defence);
    if Piety in active {
      LastMatchFrom(rules, active, UNIT, |rules|, 4);
    } else if Rigour in active {
      LastMatchFrom(rules, active, UNIT, |rules|, 5);
    } else if Augury in active {
      LastMatchFrom(rules, active, UNIT, |rules|, 6);
    }
  }
}
