/**
 * Ordered override tables. The plugin computes prayer multipliers and stance
 * bonuses by starting from a default and reassigning the value for each rule
 * whose condition holds, in a fixed order; the last rule that holds decides.
 */
module Overrides {

  /** When `key` holds, the value becomes `value`. */
  datatype Rule<K> = Rule(key: K, value: int)

  /**
   * The verdict of the first `n` rules: the value of the last of them whose
   * key holds, or `default` when none does.
   */
  function LastMatch<K>(rules: seq<Rule<K>>, holds: set<K>, default: int, n: nat): int
    requires n <= |rules|
  {
    if n == 0 then default
    else if rules[n - 1].key in holds then rules[n - 1].value
    else LastMatch(rules, holds, default, n - 1)
  }

  /**
   * The step-by-step reassignment the plugin performs: from rule `i` on,
   * each rule whose key holds replaces the current value.
   */
  function Reassign<K>(rules: seq<Rule<K>>, holds: set<K>, current: int, i: nat): int
    requires i <= |rules|
    decreases |rules| - i
  {
    if i == |rules| then current
    else Reassign(rules, holds, if rules[i].key in holds then rules[i].value else current, i + 1)
  }

  /** Reassigning the remaining rules on top of the verdict of the first `i` is the verdict of all. */
  lemma {:induction false} ReassignFrom<K>(rules: seq<Rule<K>>, holds: set<K>, default: int, i: nat)
    requires i <= |rules|
    ensures Reassign(rules, holds, LastMatch(rules, holds, default, i), i) == LastMatch(rules, holds, default, |rules|)
    decreases |rules| - i
  {
    if i < |rules| {
      ReassignFrom(rules, holds, default, i + 1);
    }
  }

  /** Reassigning in order from the default is exactly "the last rule that holds wins". */
  lemma ReassignIsLastMatch<K>(rules: seq<Rule<K>>, holds: set<K>, default: int)
    ensures Reassign(rules, holds, default, 0) == LastMatch(rules, holds, default, |rules|)
  {
    ReassignFrom(rules, holds, default, 0);
  }

  /** When none of the first `n` keys holds, the default survives. */
  lemma {:induction false} LastMatchNoneHolds<K>(rules: seq<Rule<K>>, holds: set<K>, default: int, n: nat)
    requires n <= |rules|
    requires forall i | 0 <= i < n :: rules[i].key !in holds
    ensures LastMatch(rules, holds, default, n) == default
  {
    if n > 0 {
      LastMatchNoneHolds(rules, holds, default, n - 1);
    }
  }

  /** The verdict is the default or the value of one of the first `n` rules whose key holds. */
  lemma {:induction false} LastMatchChosen<K>(rules: seq<Rule<K>>, holds: set<K>, default: int, n: nat)
    requires n <= |rules|
    ensures var r := LastMatch(rules, holds, default, n);
      r == default || exists i | 0 <= i < n :: rules[i].key in holds && rules[i].value == r
  {
    if n > 0 && rules[n - 1].key !in holds {
      LastMatchChosen(rules, holds, default, n - 1);
    }
  }

  /** Once rule `i` holds, the default is out of play: some rule from `i` on decides. */
  lemma {:induction false} LastMatchFrom<K>(rules: seq<Rule<K>>, holds: set<K>, default: int, n: nat, i: nat)
    requires n <= |rules| && i < n && rules[i].key in holds
    ensures exists j | i <= j < n :: rules[j].key in holds && rules[j].value == LastMatch(rules, holds, default, n)
  {
    if rules[n - 1].key !in holds {
      LastMatchFrom(rules, holds, default, n - 1, i);
    }
  }

  /** If the default and every rule value lie in [lo, hi], so does the verdict. */
  lemma LastMatchWithin<K>(rules: seq<Rule<K>>, holds: set<K>, default: int, lo: int, hi: int)
    requires lo <= default <= hi
    requires forall i | 0 <= i < |rules| :: lo <= rules[i].value <= hi
    ensures lo <= LastMatch(rules, holds, default, |rules|) <= hi
  {
    LastMatchChosen(rules, holds, default, |rules|);
  }
}
