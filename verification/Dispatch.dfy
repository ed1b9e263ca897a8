/**
Name-prefix dispatch: which transition an item's name selects.

The dispatch table lists four case-sensitive name prefixes in a fixed order;
the first prefix the name starts with selects the category, and a name that
starts with none of them is a default item.
*/
module Dispatch {
  import opened Calculators

  datatype Category = Conjured | Sulfuras | AgedBrie | BackstagePass | Default

  const ConjuredTag: string := "Conjured"
  const SulfurasTag: string := "Sulfuras"
  const BrieTag: string := "Aged Brie"
  const BackstageTag: string := "Backstage pass"

  /** The dispatch table, in the order its prefixes are tried. */
  const DispatchTable: seq<(string, Category)> := [
    (ConjuredTag, Conjured),
    (SulfurasTag, Sulfuras),
    (BrieTag, AgedBrie),
    (BackstageTag, BackstagePass)
  ]

  /** Entry `i` is the first entry of `table` whose prefix starts `name`. */
  predicate IsFirstPrefix(table: seq<(string, Category)>, name: string, i: int) {
    && 0 <= i < |table|
    && table[i].0 <= name
    && forall j :: 0 <= j < i ==> !(table[j].0 <= name)
  }

  /** Scans `table` in order for the first prefix of `name`, falling back to `Default`. */
  function FirstPrefixMatch(table: seq<(string, Category)>, name: string): (c: Category)
    ensures forall i :: IsFirstPrefix(table, name, i) ==> c == table[i].1
    ensures (forall i :: 0 <= i < |table| ==> !(table[i].0 <= name)) ==> c == Default
  {
    if |table| == 0 then Default
    else if table[0].0 <= name then table[0].1
    else
      assert forall i :: IsFirstPrefix(table, name, i) ==> IsFirstPrefix(table[1..], name, i - 1);
      FirstPrefixMatch(table[1..], name)
  }

  /** The category of an item, tried in the order Conjured, Sulfuras, Aged Brie, Backstage pass. */
  function Classify(name: string): (c: Category)
    ensures ConjuredTag <= name ==> c == Conjured
    ensures !(ConjuredTag <= name) && SulfurasTag <= name ==> c == Sulfuras
    ensures !(ConjuredTag <= name) && !(SulfurasTag <= name) && BrieTag <= name ==> c == AgedBrie
    ensures !(ConjuredTag <= name) && !(SulfurasTag <= name) && !(BrieTag <= name) && BackstageTag <= name
            ==> c == BackstagePass
    ensures !(ConjuredTag <= name) && !(SulfurasTag <= name) && !(BrieTag <= name) && !(BackstageTag <= name)
            ==> c == Default
  {
    assert ConjuredTag <= name ==> IsFirstPrefix(DispatchTable, name, 0);
    assert !(ConjuredTag <= name) && SulfurasTag <= name ==> IsFirstPrefix(DispatchTable, name, 1);
    assert !(ConjuredTag <= name) && !(SulfurasTag <= name) && BrieTag <= name
           ==> IsFirstPrefix(DispatchTable, name, 2);
    assert !(ConjuredTag <= name) && !(SulfurasTag <= name) && !(BrieTag <= name) && BackstageTag <= name
           ==> IsFirstPrefix(DispatchTable, name, 3);
    FirstPrefixMatch(DispatchTable, name)
  }

  /**
  No name starts with two of the four prefixes (they already differ in their
  first letter), so the order of the table never changes the outcome: each
  category is chosen exactly when the name carries its prefix.
  */
  lemma ClassifyByPrefix(name: string)
    ensures Classify(name) == Conjured <==> ConjuredTag <= name
    ensures Classify(name) == Sulfuras <==> SulfurasTag <= name
    ensures Classify(name) == AgedBrie <==> BrieTag <= name
    ensures Classify(name) == BackstagePass <==> BackstageTag <= name
    ensures Classify(name) == Default <==>
            !(ConjuredTag <= name) && !(SulfurasTag <= name) && !(BrieTag <= name) && !(BackstageTag <= name)
  {
    if |name| > 0 {
      assert ConjuredTag <= name ==> name[0] == 'C';
      assert SulfurasTag <= name ==> name[0] == 'S';
      assert BrieTag <= name ==> name[0] == 'A';
      assert BackstageTag <= name ==> name[0] == 'B';
    }
  }

  /**
  The transition each category selects: the identity for Sulfuras and, for
  every other category, one day less of sell-in and the quality its own table
  gives for the new sell-in.
  */
  function Transition(c: Category, s: int, q: int): (r: (int, int))
    ensures c == Sulfuras ==> r == (s, q)
    ensures c != Sulfuras ==> r.0 == s - 1
    ensures c == Conjured ==> r.1 == (if s - 1 > 0 then q - 2 else q - 4)
    ensures c == AgedBrie ==> r.1 == (if s - 1 > 0 then q + 1 else q + 2)
    ensures c == Default ==> r.1 == (if s - 1 > 0 then q - 1 else q - 2)
    ensures c == BackstagePass ==>
            r.1 == (if s - 1 > 10 then q + 1 else if s - 1 > 5 then q + 2 else if s - 1 >= 0 then q + 3 else 0)
  {
    match c
    case Conjured => CalculateConjured(s, q)
    case Sulfuras => (s, q)
    case AgedBrie => CalculateBrie(s, q)
    case BackstagePass => CalculateBackstagePass(s, q)
    case Default => CalculateDefault(s, q)
  }
}
