/**
 * The attack-style table: for each of the 30 weapon categories (the
 * equipped-weapon-type varbit), the style name of each stance slot (the
 * attack-style varp), or no style for an empty slot.
 */
module CombatStyles {
  import opened Wrappers

  /** Why a lookup fails: no table entry for the category, or a slot index past the entry's slots. */
  datatype StyleError = UnknownCategory(category: int) | SlotOutOfRange(category: int, index: int)

  /** Entry n is category TYPE_n. */
  const STYLES: seq<seq<Option<string>>> := [
    /*  0 */ [Some("Accurate"), Some("Aggressive"), None, Some("Defensive")],
    /*  1 */ [Some("Accurate"), Some("Aggressive"), Some("Aggressive"), Some("Defensive")],
    /*  2 */ [Some("Accurate"), Some("Aggressive"), None, Some("Defensive")],
    /*  3 */ [Some("Accurate ranging"), Some("Rapid"), None, Some("Longrange")],
    /*  4 */ [Some("Accurate"), Some("Aggressive"), Some("Controlled"), Some("Defensive")],
    /*  5 */ [Some("Accurate ranging"), Some("Rapid"), None, Some("Longrange")],
    /*  6 */ [Some("Aggressive"), Some("Rapid"), Some("Casting"), None],
    /*  7 */ [Some("Accurate ranging"), Some("Rapid"), None, Some("Longrange")],
    /*  8 */ [Some("Other"), Some("Aggressive"), None, None],
    /*  9 */ [Some("Accurate"), Some("Aggressive"), Some("Controlled"), Some("Defensive")],
    /* 10 */ [Some("Accurate"), Some("Aggressive"), Some("Aggressive"), Some("Defensive")],
    /* 11 */ [Some("Accurate"), Some("Aggressive"), Some("Aggressive"), Some("Defensive")],
    /* 12 */ [Some("Controlled"), Some("Aggressive"), None, Some("Defensive")],
    /* 13 */ [Some("Accurate"), Some("Aggressive"), None, Some("Defensive")],
    /* 14 */ [Some("Accurate"), Some("Aggressive"), Some("Aggressive"), Some("Defensive")],
    /* 15 */ [Some("Controlled"), Some("Controlled"), Some("Controlled"), Some("Defensive")],
    /* 16 */ [Some("Accurate"), Some("Aggressive"), Some("Controlled"), Some("Defensive")],
    /* 17 */ [Some("Accurate"), Some("Aggressive"), Some("Aggressive"), Some("Defensive")],
    /* 18 */ [Some("Accurate"), Some("Aggressive"), None, Some("Defensive"), Some("Casting"), Some("Defensive casting")],
    /* 19 */ [Some("Accurate ranging"), Some("Rapid"), None, Some("Longrange")],
    /* 20 */ [Some("Accurate"), Some("Controlled"), None, Some("Defensive")],
    /* 21 */ [Some("Accurate"), Some("Aggressive"), None, Some("Defensive"), Some("Casting"), Some("Defensive casting")],
    /* 22 */ [Some("Accurate"), Some("Aggressive"), Some("Aggressive"), Some("Defensive")],
    /* 23 */ [Some("Accurate casting"), Some("Accurate casting"), None, Some("Longrange casting")],
    /* 24 */ [Some("Accurate"), Some("Aggressive"), Some("Controlled"), Some("Defensive")],
    /* 25 */ [Some("Controlled"), Some("Aggressive"), None, Some("Defensive")],
    /* 26 */ [Some("Aggressive"), Some("Aggressive"), None, Some("Aggressive")],
    /* 27 */ [Some("Accurate"), None, None, Some("Other")],
    /* 28 */ [Some("Accurate casting"), Some("Accurate casting"), None, Some("Longrange casting")],
    /* 29 */ [Some("Accurate"), Some("Aggressive"), Some("Aggressive"), Some("Defensive")]
  ]

  /** How many stance slots a category has: six for the two spell-casting staff categories, four otherwise. */
  function SlotCount(category: int): nat
  {
    if category == 18 || category == 21 then 6 else 4
  }

  /**
   * The style name for a category and a stance slot. An unknown category
   * (the plugin dereferences a missing map entry) and a slot past the
   * category's slots (an array index out of bounds) are failures; an empty
   * slot is a successful lookup of no style.
   */
  function AttackStyleText(category: int, index: int): (r: Result<Option<string>, StyleError>)
    ensures r.Success? <==> 0 <= category < |STYLES| && 0 <= index < SlotCount(category)
    ensures !(0 <= category < |STYLES|) ==> r == Failure(UnknownCategory(category))
    ensures 0 <= category < |STYLES| && !(0 <= index < SlotCount(category)) ==> r == Failure(SlotOutOfRange(category, index))
  {
    if !(0 <= category < |STYLES|) then Failure(UnknownCategory(category))
    else if !(0 <= index < |STYLES[category]|) then Failure(SlotOutOfRange(category, index))
    else Success(STYLES[category][index])
  }
}
