/**
The four shipped rule tables and the calculators built on them.

Every calculator first counts sell-in down by one day and then resolves its
table against the new sell-in, so "expired as of today" is judged after the
decrement.
*/
module Calculators {
  import opened Rules

  /** Backstage passes: +1 above 10 days, +2 above 5, +3 above -1, then worthless. */
  const BackstageRules: seq<Rule> := [
    Rule(Above(10), Add(1)),
    Rule(Above(5), Add(2)),
    Rule(Above(-1), Add(3)),
    Rule(Always, Reset)
  ]

  /** Conjured items: -2 while sell-in is positive, -4 after. */
  const ConjuredRules: seq<Rule> := [Rule(Above(0), Add(-2)), Rule(Always, Add(-4))]

  /** Aged Brie: +1 while sell-in is positive, +2 after. */
  const BrieRules: seq<Rule> := [Rule(Above(0), Add(1)), Rule(Always, Add(2))]

  /** Every other item: -1 while sell-in is positive, -2 after. */
  const DefaultRules: seq<Rule> := [Rule(Above(0), Add(-1)), Rule(Always, Add(-2))]

  /** All shipped tables end in a catch-all, so resolving them never fails. */
  lemma ShippedTablesAreTotal()
    ensures HasCatchAll(BackstageRules)
    ensures HasCatchAll(ConjuredRules)
    ensures HasCatchAll(BrieRules)
    ensures HasCatchAll(DefaultRules)
  {
    assert BackstageRules[3].guard == Always;
    assert ConjuredRules[1].guard == Always;
    assert BrieRules[1].guard == Always;
    assert DefaultRules[1].guard == Always;
  }

  /** Resolves a table that cannot fail, returning the pair it produces. */
  function ResolveTotalTable(s: int, q: int, rules: seq<Rule>): (r: (int, int))
    requires HasCatchAll(rules)
    ensures r.0 == s
    ensures forall i :: IsFirstMatch(rules, s, i) ==> r.1 == ApplyEffect(rules[i].effect, q)
  {
    ResolveTotal(s, q, rules);
    var res := Resolve(s, q, rules);
    (res.sellIn, res.quality)
  }

  function CalculateBackstagePass(s: int, q: int): (r: (int, int))
    ensures r.0 == s - 1
    ensures r.0 > 10 ==> r.1 == q + 1
    ensures 6 <= r.0 <= 10 ==> r.1 == q + 2
    ensures 0 <= r.0 <= 5 ==> r.1 == q + 3
    ensures r.0 < 0 ==> r.1 == 0
  {
    ShippedTablesAreTotal();
    var (s1, q1) := (s - 1, q);
    assert s1 > 10 ==> IsFirstMatch(BackstageRules, s1, 0);
    assert 6 <= s1 <= 10 ==> IsFirstMatch(BackstageRules, s1, 1);
    assert 0 <= s1 <= 5 ==> IsFirstMatch(BackstageRules, s1, 2);
    assert s1 < 0 ==> IsFirstMatch(BackstageRules, s1, 3);
    ResolveTotalTable(s1, q1, BackstageRules)
  }

  function CalculateConjured(s: int, q: int): (r: (int, int))
    ensures r.0 == s - 1
    ensures r.0 > 0 ==> r.1 == q - 2
    ensures r.0 <= 0 ==> r.1 == q - 4
  {
    ShippedTablesAreTotal();
    var (s1, q1) := (s - 1, q);
    assert s1 > 0 ==> IsFirstMatch(ConjuredRules, s1, 0);
    assert s1 <= 0 ==> IsFirstMatch(ConjuredRules, s1, 1);
    ResolveTotalTable(s1, q1, ConjuredRules)
  }

  function CalculateBrie(s: int, q: int): (r: (int, int))
    ensures r.0 == s - 1
    ensures r.0 > 0 ==> r.1 == q + 1
    ensures r.0 <= 0 ==> r.1 == q + 2
  {
    ShippedTablesAreTotal();
    var (s1, q1) := (s - 1, q);
    assert s1 > 0 ==> IsFirstMatch(BrieRules, s1, 0);
    assert s1 <= 0 ==> IsFirstMatch(BrieRules, s1, 1);
    ResolveTotalTable(s1, q1, BrieRules)
  }

  function CalculateDefault(s: int, q: int): (r: (int, int))
    ensures r.0 == s - 1
    ensures r.0 > 0 ==> r.1 == q - 1
    ensures r.0 <= 0 ==> r.1 == q - 2
  {
    ShippedTablesAreTotal();
    var (s1, q1) := (s - 1, q);
    assert s1 > 0 ==> IsFirstMatch(DefaultRules, s1, 0);
    assert s1 <= 0 ==> IsFirstMatch(DefaultRules, s1, 1);
    ResolveTotalTable(s1, q1, DefaultRules)
  }
}
