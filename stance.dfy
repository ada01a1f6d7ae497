/**
 * Stance bonuses: the invisible +3 / +1 a combat skill gets from the
 * selected attack style. Each skill has an ordered list of style names with
 * their bonuses; the last name equal to the current style decides, and an
 * empty slot (no style) matches no name.
 */
module Stance {
  import opened Wrappers
  import opened Skills
  import opened Overrides
  import opened CombatStyles

  /** Per skill, the style names in the order the plugin compares them, with their bonuses. */
  function StanceRules(skill: Skill): seq<Rule<string>>
  {
    match skill
    case Attack => [Rule("Accurate", 3), Rule("Controlled", 1)]
    case Strength => [Rule("Aggressive", 3), Rule("Controlled", 1)]
    case Defence => [Rule("Controlled", 1), Rule("Defensive", 3), Rule("Longrange", 3)]
    case Ranged => [Rule("Accurate ranging", 3)]
    case Magic => [Rule("Accurate casting", 3), Rule("Longrange casting", 1)]
    case _ => []
  }

  /** The names a style is equal to: itself, or none for an empty slot. */
  function Matching(style: Option<string>): set<string>
  {
    if style.Some? then {style.value} else {}
  }

  /** The stance bonus a style gives a skill. */
  function StanceBonusFor(skill: Skill, style: Option<string>): int
  {
    LastMatch(StanceRules(skill), Matching(style), 0, |StanceRules(skill)|)
  }

  /**
   * The plugin's computation: look the style up in the table (a failed
   * lookup propagates), then start at 0 and reassign for every name equal to
   * the style, in order.
   */
  method StanceBonus(skill: Skill, category: int, index: int) returns (r: Result<int, StyleError>)
    ensures AttackStyleText(category, index).Failure? ==> r == Failure(AttackStyleText(category, index).error)
    ensures AttackStyleText(category, index).Success? ==>
      r == Success(StanceBonusFor(skill, AttackStyleText(category, index).value))
  {
    var style :- AttackStyleText(category, index);
    ghost var rules, holds := StanceRules(skill), Matching(style);
    var bonus := 0;
    match skill {
      case Attack =>
        bonus := if style == Some("Accurate") then 3 else bonus;
        assert bonus == LastMatch(rules, holds, 0, 1);
        bonus := if style == Some("Controlled") then 1 else bonus;
        assert bonus == LastMatch(rules, holds, 0, 2);
      case Strength =>
        bonus := if style == Some("Aggressive") then 3 else bonus;
        assert bonus == LastMatch(rules, holds, 0, 1);
        bonus := if style == Some("Controlled") then 1 else bonus;
        assert bonus == LastMatch(rules, holds, 0, 2);
      case Defence =>
        bonus := if style == Some("Controlled") then 1 else bonus;
        assert bonus == LastMatch(rules, holds, 0, 1);
        bonus := if style == Some("Defensive") then 3 else bonus;
        assert bonus == LastMatch(rules, holds, 0, 2);
        bonus := if style == Some("Longrange") then 3 else bonus;
        assert bonus == LastMatch(rules, holds, 0, 3);
      case Ranged =>
        bonus := if style == Some("Accurate ranging") then 3 else bonus;
        assert bonus == LastMatch(rules, holds, 0, 1);
      case Magic =>
        bonus := if style == Some("Accurate casting") then 3 else bonus;
        assert bonus == LastMatch(rules, holds, 0, 1);
        bonus := if style == Some("Longrange casting") then 1 else bonus;
        assert bonus == LastMatch(rules, holds, 0, 2);
      case _ =>
    }
    return Success(bonus);
  }

  /** Every stance bonus is 0, 1 or 3. */
  lemma StanceBonusValues(skill: Skill, style: Option<string>)
    ensures StanceBonusFor(skill, style) in {0, 1, 3}
  {
    LastMatchChosen(StanceRules(skill), Matching(style), 0, |StanceRules(skill)|);
  }

  /** A style that names none of a skill's rules, including an empty slot, gives 0. */
  lemma StanceIdentity(skill: Skill, style: Option<string>)
    requires style.None? || forall i | 0 <= i < |StanceRules(skill)| :: StanceRules(skill)[i].key != style.value
    ensures StanceBonusFor(skill, style) == 0
  {
    LastMatchNoneHolds(StanceRules(skill), Matching(style), 0, |StanceRules(skill)|);
  }

  /** A style named in a skill's rules gives that rule's bonus (the names of one skill are distinct). */
  lemma StanceNamedStyle(skill: Skill, i: nat)
    requires i < |StanceRules(skill)|
    ensures StanceBonusFor(skill, Some(StanceRules(skill)[i].key)) == StanceRules(skill)[i].value
  {
    var rules := StanceRules(skill);
    LastMatchFrom(rules, Matching(Some(rules[i].key)), 0, |rules|, i);
  }

  /**
   * The bonuses of the table: Attack gets 3 for "Accurate" and 1 for
   * "Controlled"; Defence gets 3 for "Defensive" and "Longrange" and 1 for
   * "Controlled"; Strength gets 3 for "Aggressive" and 1 for "Controlled";
   * Ranged gets 3 for "Accurate ranging"; Magic gets 3 for "Accurate casting"
   * and 1 for "Longrange casting".
   */
  lemma StanceTable()
    ensures StanceBonusFor(Attack, Some("Accurate")) == 3
    ensures StanceBonusFor(Attack, Some("Controlled")) == 1
    ensures StanceBonusFor(Defence, Some("Controlled")) == 1
    ensures StanceBonusFor(Defence, Some("Defensive")) == 3
    ensures StanceBonusFor(Defence, Some("Longrange")) == 3
    ensures StanceBonusFor(Strength, Some("Aggressive")) == 3
    ensures StanceBonusFor(Strength, Some("Controlled")) == 1
    ensures StanceBonusFor(Ranged, Some("Accurate ranging")) == 3
    ensures StanceBonusFor(Magic, Some("Accurate casting")) == 3
    ensures StanceBonusFor(Magic, Some("Longrange casting")) == 1
  {
    StanceNamedStyle(Attack, 0);
    StanceNamedStyle(Attack, 1);
    StanceNamedStyle(Defence, 0);
    StanceNamedStyle(Defence, 1);
    StanceNamedStyle(Defence, 2);
    StanceNamedStyle(Strength, 0);
    StanceNamedStyle(Strength, 1);
    StanceNamedStyle(Ranged, 0);
    StanceNamedStyle(Magic, 0);
    StanceNamedStyle(Magic, 1);
  }
}
