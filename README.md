# Effective levels: a Dafny model of the modifier rule engine

The Effective Levels plugin shows, in the skills tab, the "effective" level
of each combat skill: the number that goes into the game's max-hit,
accuracy-roll and defence-roll formulas. It also shows the hidden boost some
gathering skills get. On every game tick the plugin reads the client's state
and, for each combat skill, starts from the boosted level and runs four
stages in a fixed order, each switched on or off by the user:

1. multiply by the prayer multiplier and truncate;
2. add the stance bonus of the selected attack style;
3. add the constant 8;
4. multiply by the void knight set multiplier and truncate.

When invisible boosts are shown, the tick also writes four gathering levels:

- Mining gets +4 for a celestial ring or signet;
- Construction gets +3 for a crystal saw in the inventory;
- one gathering skill gets +7 for the region the player stands in.

The model is one Dafny module per component of `EffectiveLevelPlugin.java`:

- `Overrides`: the plugin's "start at a default, reassign while you test each condition in order" pattern. It is stated as an ordered rule table where the last rule that holds wins (`LastMatch`). The lemmas prove the general facts that the prayer and stance tables rely on.
- `Prayers`: the per-skill prayer table (`PrayerRules`) and the plugin's step-by-step computation (`PrayerBoost`), proved equal to the table.
- `CombatStyles`: the 30-entry attack-style table, indexed by weapon category, and the lookup that can fail.
- `Stance`: the per-skill stance table and the plugin's stance computation, including the lookup.
- `VoidSet`: the garment predicates ("any of the four variants") and the void multiplier's decision chain.
- `Items`: item identities and the container-to-set reading (`getItemIDs`).
- `Gathering`: the ring loop with its `break`, the crystal saw, and the region chain.
- `EffectiveLevel`: the combat pipeline (`Pipeline`), the levels a tick writes (`TickUpdates`, a map from skill to written level), and the tick handler `OnGameTick`, proved against `TickUpdates`.
- `Scenarios`: worked ticks with concrete snapshots.

Multipliers are exact integers in thousandths: 1000 is 1.0 and 1475 is 1.475. The
Java `int *= double` narrowing becomes `Scale`, which multiplies by the
thousandths and truncates toward zero. The client reads become the fields of
a `Snapshot`:

- the boosted level of each skill;
- the active prayers;
- the equipped-weapon-type varbit and the attack-style varp;
- the equipment and inventory containers, absent when the client has none;
- the region id, absent when there is no local player.

The five toggles of the plugin's config form the `Config` record.

Where the code and the plugin's design description differ, the model follows the code. Three differences:

- The design says a stance index runs from 0 to 3. In the code, categories 18 and 21 have six slots, so the model allows six there (`SlotCount`).
- The design says that turning every toggle off always gives back the boosted levels. In the code that only holds when the style lookup succeeds. `getStanceBonus` runs for every combat skill whatever the toggles. An unknown weapon category (a missing map entry) or a slot index past the category's slots throws an exception at the first combat skill, before any level is written (`FailedLookupAborts`).
- With invisible boosts off, the code does not write the gathering skills at all. It does not write them back to their boosted levels. `TogglesOffIdentity` therefore speaks only of the combat skills.

## Model

| member | source | states |
|---|---|---|
| Overrides.ReassignFrom | src/main/java/xrio/effectivelevel/EffectiveLevelPlugin.java:231-235 | Running the remaining reassignment lines from the verdict of the first i rules gives the verdict of the whole table: each line keeps the value unless its own condition holds. |
| Overrides.ReassignIsLastMatch | src/main/java/xrio/effectivelevel/EffectiveLevelPlugin.java:226-266 | Reassigning in order, from a default, gives exactly the value of the last rule whose condition holds, or the default if none holds. |
| Overrides.LastMatchNoneHolds | src/main/java/xrio/effectivelevel/EffectiveLevelPlugin.java:226-266 | When no rule's condition holds, the default survives. |
| Overrides.LastMatchChosen | src/main/java/xrio/effectivelevel/EffectiveLevelPlugin.java:276-301 | The result is the default or the value of some rule whose condition holds. |
| Overrides.LastMatchFrom | src/main/java/xrio/effectivelevel/EffectiveLevelPlugin.java:244-252 | Once rule i holds, the result is the value of a rule at index i or later that holds, and the default is out of play. |
| Overrides.LastMatchWithin | src/main/java/xrio/effectivelevel/EffectiveLevelPlugin.java:230-264 | If the default and all rule values lie in [lo, hi], so does the result. |
| Prayers.PrayerBoost | src/main/java/xrio/effectivelevel/EffectiveLevelPlugin.java:224-267 | The plugin's line-by-line reassignment returns the prayer table's verdict for the skill: the last active listed prayer's multiplier, else 1.0. |
| Prayers.PrayerIdentity | src/main/java/xrio/effectivelevel/EffectiveLevelPlugin.java:226-266 | The multiplier is 1.0 for every non-combat skill (the switch has no default case) and whenever none of the skill's listed prayers is active. |
| Prayers.PrayerBounds | src/main/java/xrio/effectivelevel/EffectiveLevelPlugin.java:230-264 | Every prayer multiplier lies in [1.0, 1.25]. |
| Prayers.LastActiveWins | src/main/java/xrio/effectivelevel/EffectiveLevelPlugin.java:228-265 | An active prayer decides the multiplier when no prayer tested after it is active. |
| Prayers.TopPrayersWin | src/main/java/xrio/effectivelevel/EffectiveLevelPlugin.java:230-264 | Piety gives 1.20 Attack, 1.23 Strength and 1.25 Defence. Rigour gives 1.20 Ranged and 1.25 Defence. Augury gives 1.25 Magic and 1.25 Defence. Each holds whatever else is active. |
| CombatStyles.AttackStyleText | src/main/java/xrio/effectivelevel/EffectiveLevelPlugin.java:400-455 | Lookup succeeds exactly for categories 0-29 and an index below the slot count (6 for categories 18 and 21, 4 otherwise). An unknown category fails as UnknownCategory. A slot past the end fails as SlotOutOfRange. An empty slot succeeds with no style. |
| Stance.StanceBonus | src/main/java/xrio/effectivelevel/EffectiveLevelPlugin.java:269-302 | A failed style lookup propagates. Otherwise the line-by-line reassignment returns the stance table's verdict for the looked-up style. |
| Stance.StanceBonusValues | src/main/java/xrio/effectivelevel/EffectiveLevelPlugin.java:276-301 | Every stance bonus is 0, 1 or 3. |
| Stance.StanceIdentity | src/main/java/xrio/effectivelevel/EffectiveLevelPlugin.java:276-301 | An empty slot (null style) or a style named by none of the skill's rules gives 0. |
| Stance.StanceNamedStyle | src/main/java/xrio/effectivelevel/EffectiveLevelPlugin.java:278-300 | A style named in a skill's rules gives exactly that rule's bonus. |
| Stance.StanceTable | src/main/java/xrio/effectivelevel/EffectiveLevelPlugin.java:280-299 | Attack: Accurate 3, Controlled 1. Strength: Aggressive 3, Controlled 1. Defence: Defensive 3, Longrange 3, Controlled 1. Ranged: Accurate ranging 3. Magic: Accurate casting 3, Longrange casting 1. |
| VoidSet.VoidBonus | src/main/java/xrio/effectivelevel/EffectiveLevelPlugin.java:318-396 | 1.0 for Defence and without gloves, a top and a robe (plain or elite). Otherwise the multiplier differs from 1.0 exactly when the skill's own helm is worn: melee 1.10 for Attack and Strength; ranger 1.125 with both elite pieces, else 1.10; mage 1.475 with both elite pieces, else 1.45. |
| Items.Held | src/main/java/xrio/effectivelevel/EffectiveLevelPlugin.java:304-316 | An item is in a container's id set exactly when the container exists and holds it. A missing container gives the empty set. |
| Items.ItemIds | src/main/java/xrio/effectivelevel/EffectiveLevelPlugin.java:304-316 | The loop that adds each slot's item builds exactly the container's id set. |
| Gathering.RegionBonus | src/main/java/xrio/effectivelevel/EffectiveLevelPlugin.java:143-159 | A region bonus is 0 or 7. A 7 needs a known region (a local player) and goes only to Mining, Fishing or Woodcutting. |
| Gathering.RegionBonusAtMostOne | src/main/java/xrio/effectivelevel/EffectiveLevelPlugin.java:147-158 | A region boosts at most one skill. |
| Gathering.GatheringLevel | src/main/java/xrio/effectivelevel/EffectiveLevelPlugin.java:120-165 | Only the four gathering skills are boosted, by 0 to 11. Mining gets +4 once for any ring variant, plus its region bonus. Construction gets +3 exactly when the saw is carried. Fishing and Woodcutting get only their region bonus. |
| Gathering.InvisibleBoost | src/main/java/xrio/effectivelevel/EffectiveLevelPlugin.java:122-159 | The ring loop with `break`, the saw test and the region chain compute the four gathering levels. |
| EffectiveLevel.Scale | src/main/java/xrio/effectivelevel/EffectiveLevelPlugin.java:99 | The result is level × multiplier ÷ 1000 truncated toward zero, i.e. the int the decimal product narrows to. |
| EffectiveLevel.ScaleUnit | src/main/java/xrio/effectivelevel/EffectiveLevelPlugin.java:320-325 | A 1.0 multiplier leaves a level unchanged. |
| EffectiveLevel.ScaleGrows | src/main/java/xrio/effectivelevel/EffectiveLevelPlugin.java:114 | A multiplier of at least 1.0 never lowers a non-negative level. |
| EffectiveLevel.ScaleMonotone | src/main/java/xrio/effectivelevel/EffectiveLevelPlugin.java:99 | Truncating scaling by a non-negative multiplier preserves order. |
| EffectiveLevel.PipelineIdentity | src/main/java/xrio/effectivelevel/EffectiveLevelPlugin.java:95-117 | With all four combat toggles off, the level written is the boosted level. |
| EffectiveLevel.PipelineMonotone | src/main/java/xrio/effectivelevel/EffectiveLevelPlugin.java:95-117 | A higher boosted level never yields a lower effective level. |
| EffectiveLevel.PipelineOrder | src/main/java/xrio/effectivelevel/EffectiveLevelPlugin.java:97-105 | The prayer stage runs before the stance stage. With Piety and Aggressive at 80 Strength the result is 101; adding first would give 102. |
| EffectiveLevel.PipelineAtLeast | src/main/java/xrio/effectivelevel/EffectiveLevelPlugin.java:95-117 | With multipliers of at least 1.0 and a non-negative bonus, no stage lowers the level. |
| EffectiveLevel.EffectiveAtLeastBoosted | src/main/java/xrio/effectivelevel/EffectiveLevelPlugin.java:89-118 | A combat skill's effective level is never below its non-negative boosted level. |
| EffectiveLevel.DefenceIgnoresVoid | src/main/java/xrio/effectivelevel/EffectiveLevelPlugin.java:322-325 | Defence's level is the same whether the void toggle is on or off. |
| EffectiveLevel.EffectiveCombatLevel | src/main/java/xrio/effectivelevel/EffectiveLevelPlugin.java:91-117 | One pass of the combat loop. A failed style lookup aborts. Otherwise it gives the pipeline applied to the skill's prayer multiplier, stance bonus and void multiplier. |
| EffectiveLevel.CombatSkills | src/main/java/xrio/effectivelevel/EffectiveLevelPlugin.java:89-118 | The combat loop over Attack, Strength, Defence, Ranged and Magic writes exactly the combat updates, each skill at its effective level. A failed style lookup aborts it. |
| EffectiveLevel.OnGameTick | src/main/java/xrio/effectivelevel/EffectiveLevelPlugin.java:89-165 | The tick handler writes exactly TickUpdates: all combat skills in order, then the gathering skills when invisible boosts are on, or nothing when the lookup fails. |
| EffectiveLevel.CombatUpdatesAllOff | src/main/java/xrio/effectivelevel/EffectiveLevelPlugin.java:89-118 | With every toggle off, each combat skill is written at its boosted level, whatever the style. |
| EffectiveLevel.TogglesOffIdentity | src/main/java/xrio/effectivelevel/EffectiveLevelPlugin.java:89-118 | With every toggle off and a successful lookup, a tick writes each combat skill's boosted level and no gathering skill. |
| EffectiveLevel.FailedLookupAborts | src/main/java/xrio/effectivelevel/EffectiveLevelPlugin.java:452-455 | A failing style lookup aborts the tick whatever the toggles. |
| EffectiveLevel.WrittenSkills | src/main/java/xrio/effectivelevel/EffectiveLevelPlugin.java:89-165 | A tick writes exactly the combat skills, plus the gathering skills when invisible boosts are on. |
| Scenarios.AccurateStance | src/main/java/xrio/effectivelevel/EffectiveLevelPlugin.java:102-105 | Attack 80 in the Accurate stance with only the stance toggle on shows 83. |
| Scenarios.PietyStrength | src/main/java/xrio/effectivelevel/EffectiveLevelPlugin.java:97-100 | Strength 80 with Piety and only the prayer toggle on shows 98. |
| Scenarios.EliteVoidRanged | src/main/java/xrio/effectivelevel/EffectiveLevelPlugin.java:373-378 | Ranged 70 in the elite void ranger set with only the void toggle on shows 78. |
| Scenarios.RingAndMiningSite | src/main/java/xrio/effectivelevel/EffectiveLevelPlugin.java:128-149 | Mining 60 with a celestial ring in region 11927 shows 71. |
| Scenarios.EmptySlot | src/main/java/xrio/effectivelevel/EffectiveLevelPlugin.java:403 | Category 3, slot 2 is an empty slot: no style and no stance bonus. |

## Left out

- Client reads (`getBoostedSkillLevel`, `isPrayerActive`, `getVarpValue`, `getVarbitValue`, `getItemContainer`, the local player's world location) are the fields of `Snapshot`, which a tick takes as input.
- Widget writing (`updateSkillLevel` with its skill-to-child-id switch, and `resetLevels`): a tick's writes are the map `TickUpdates` returns, so the text elements themselves are not modelled.
- Event subscription, the `GameState` logged-in check, `shutDown`, `onConfigChanged`, and the injected config provider are plumbing around the engine. The model starts at the first combat skill of a logged-in tick.
- Scale: multipliers are exact thousandths, not IEEE-754 doubles. For a product that lands exactly on an integer, the double computation can truncate one lower than the exact one (for example, when 1.15 is stored slightly below 1.15).
- Scale: the model does not cover Java's 32-bit `int` overflow or the saturating double-to-int narrowing. Levels here are small, far from either limit.
- The `ImmutableMap` static initializer of `CombatStyle` is the constant sequence `STYLES`, indexed by ordinal. Exceptions from the lookup are the `Failure` values of a `Result`.
- Item ids are named items (`Item`), not the client's numeric constants. Those constants live in the client's item table, which is not part of this model. `OtherItem` stands for every id the plugin does not name.
- Prayers the plugin never consults are not in the `Prayer` type. Their being active affects nothing.
