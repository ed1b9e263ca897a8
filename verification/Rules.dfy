/**
The threshold rule resolver shared by every item category.

A rule table is an ordered list of rules. Each rule has a guard on the
(already decremented) sell-in and an effect on quality. The resolver scans the
table in order and applies the effect of the first rule whose guard holds; when
no rule holds it fails, which is a defect in the table rather than in the item.
*/
module Rules {

  /** When a rule applies: strictly above a sell-in threshold, or always (the catch-all). */
  datatype Guard = Above(threshold: int) | Always

  /** What a selected rule does to quality: add a delta, or reset quality to exactly zero. */
  datatype Effect = Add(delta: int) | Reset

  datatype Rule = Rule(guard: Guard, effect: Effect)

  /** Outcome of resolving a table: the new (sell-in, quality) pair, or no rule matched. */
  datatype Resolution = Applied(sellIn: int, quality: int) | NoMatchingRule

  predicate Matches(r: Rule, s: int) {
    match r.guard
    case Always => true
    case Above(t) => s > t
  }

  function ApplyEffect(e: Effect, q: int): int {
    match e
    case Add(d) => q + d
    case Reset => 0
  }

  /** Rule `i` is the first rule of `rules` whose guard holds for sell-in `s`. */
  predicate IsFirstMatch(rules: seq<Rule>, s: int, i: int) {
    && 0 <= i < |rules|
    && Matches(rules[i], s)
    && forall j :: 0 <= j < i ==> !Matches(rules[j], s)
  }

  /** Some rule of the table applies to sell-in `s`. */
  predicate HasMatch(rules: seq<Rule>, s: int) {
    exists i :: 0 <= i < |rules| && Matches(rules[i], s)
  }

  /** The table has a catch-all rule somewhere in it. */
  predicate HasCatchAll(rules: seq<Rule>) {
    exists i :: 0 <= i < |rules| && rules[i].guard == Always
  }

  /**
  Scans `rules` in order and applies the first matching rule to quality `q`,
  leaving sell-in `s` as it is. Fails exactly when no rule matches.
  */
  function Resolve(s: int, q: int, rules: seq<Rule>): (r: Resolution)
    ensures r.NoMatchingRule? <==> forall i :: 0 <= i < |rules| ==> !Matches(rules[i], s)
    ensures r.Applied? ==> r.sellIn == s
    ensures forall i :: IsFirstMatch(rules, s, i) ==> r == Applied(s, ApplyEffect(rules[i].effect, q))
  {
    if |rules| == 0 then NoMatchingRule
    else if Matches(rules[0], s) then Applied(s, ApplyEffect(rules[0].effect, q))
    else
      assert forall i :: IsFirstMatch(rules, s, i) ==> IsFirstMatch(rules[1..], s, i - 1);
      Resolve(s, q, rules[1..])
  }

  /** A table with a catch-all never fails, whatever the sell-in and quality. */
  lemma ResolveTotal(s: int, q: int, rules: seq<Rule>)
    requires HasCatchAll(rules)
    ensures Resolve(s, q, rules).Applied?
  {
    var i :| 0 <= i < |rules| && rules[i].guard == Always;
    assert Matches(rules[i], s);
  }

  /** Rules after the one selected never influence the result. */
  lemma {:induction false} ResolveIgnoresLaterRules(s: int, q: int, rules: seq<Rule>, later: seq<Rule>)
    requires HasMatch(rules, s)
    ensures Resolve(s, q, rules + later) == Resolve(s, q, rules)
  {
    if Matches(rules[0], s) {
      assert (rules + later)[0] == rules[0];
    } else {
      assert (rules + later)[1..] == rules[1..] + later;
      ResolveIgnoresLaterRules(s, q, rules[1..], later);
    }
  }

  /** When some rule applies, the resolution is the effect of the first one that does. */
  lemma {:induction false} ResolveSelectsFirstMatch(s: int, q: int, rules: seq<Rule>)
    requires HasMatch(rules, s)
    ensures exists i :: IsFirstMatch(rules, s, i) && Resolve(s, q, rules) == Applied(s, ApplyEffect(rules[i].effect, q))
  {
    if Matches(rules[0], s) {
      assert IsFirstMatch(rules, s, 0);
    } else {
      ResolveSelectsFirstMatch(s, q, rules[1..]);
      var k :| IsFirstMatch(rules[1..], s, k) && Resolve(s, q, rules[1..]) == Applied(s, ApplyEffect(rules[1..][k].effect, q));
      assert IsFirstMatch(rules, s, k + 1);
    }
  }
}
