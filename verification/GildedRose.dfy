/**
Items, the daily update and inventory equality.

One day's update of an item dispatches on its name, runs the selected
transition, floors quality at zero and, unless the item is exactly the
legendary "Sulfuras, Hand of Ragnaros", caps quality at the maximum.
*/
module GildedRose {
  import opened Dispatch

  datatype Item = Item(name: string, sellIn: int, quality: int)

  const MaxQuality: int := 50

  /** The one name exempt from the quality ceiling (an exact match, not a prefix). */
  const LegendaryName: string := "Sulfuras, Hand of Ragnaros"

  /** Floors quality at zero: the least value that is at least both `q` and 0. */
  function QNotNegative(s: int, q: int): (r: (int, int))
    ensures r.0 == s
    ensures r.1 >= 0 && r.1 >= q
    ensures r.1 == q || r.1 == 0
  {
    (s, if q < 0 then 0 else q)
  }

  /** Caps quality at the maximum: the greatest value that is at most both `q` and the maximum. */
  function MaxQ(s: int, q: int): (r: (int, int))
    ensures r.0 == s
    ensures r.1 <= MaxQuality && r.1 <= q
    ensures r.1 == q || r.1 == MaxQuality
  {
    (s, if q > MaxQuality then MaxQuality else q)
  }

  /** The quality the category's transition produces, before the clamps. */
  function RawQuality(it: Item): int {
    Transition(Classify(it.name), it.sellIn, it.quality).1
  }

  /** One day's update of one item. */
  function UpdateItem(it: Item): (r: Item)
    ensures r.name == it.name
    ensures r.sellIn == (if SulfurasTag <= it.name then it.sellIn else it.sellIn - 1)
    ensures r.quality >= 0
    ensures it.name != LegendaryName ==> r.quality <= MaxQuality
    ensures 0 <= RawQuality(it) <= MaxQuality ==> r.quality == RawQuality(it)
    ensures RawQuality(it) < 0 ==> r.quality == 0
    ensures RawQuality(it) > MaxQuality ==>
            r.quality == (if it.name == LegendaryName then RawQuality(it) else MaxQuality)
  {
    ClassifyByPrefix(it.name);
    var (s1, q1) := Transition(Classify(it.name), it.sellIn, it.quality);
    var (s2, q2) := QNotNegative(s1, q1);
    var (s3, q3) := if it.name != LegendaryName then MaxQ(s2, q2) else (s2, q2);
    Item(it.name, s3, q3)
  }

  /** One day's update of a whole inventory, item by item and in order. */
  function Step(items: seq<Item>): (r: seq<Item>)
    ensures |r| == |items|
    ensures forall i :: 0 <= i < |items| ==> r[i] == UpdateItem(items[i])
  {
    if |items| == 0 then []
    else [UpdateItem(items[0])] + Step(items[1..])
  }

  /** The in-place form of the daily update: each array slot is overwritten by its updated item. */
  method UpdateQuality(items: array<Item>)
    modifies items
    ensures items[..] == Step(old(items[..]))
  {
    ghost var before := items[..];
    var i := 0;
    while i < items.Length
      invariant 0 <= i <= items.Length
      invariant forall k :: 0 <= k < i ==> items[k] == UpdateItem(before[k])
      invariant forall k :: i <= k < items.Length ==> items[k] == before[k]
    {
      UpdateSlot(items, i);
      i := i + 1;
    }
  }

  /** Overwrites one array slot with its updated item, leaving every other slot alone. */
  method UpdateSlot(items: array<Item>, i: int)
    requires 0 <= i < items.Length
    modifies items
    ensures items[i] == UpdateItem(old(items[i]))
    ensures forall k :: 0 <= k < items.Length && k != i ==> items[k] == old(items[k])
  {
    items[i] := UpdateItem(items[i]);
  }

  /** The inventory after `days` daily updates. */
  function Simulate(items: seq<Item>, days: nat): seq<Item>
    decreases days
  {
    if days == 0 then items else Simulate(Step(items), days - 1)
  }

  /**
  Over any number of days the inventory keeps its length and names, every
  item not starting with "Sulfuras" loses exactly one day of sell-in per day,
  and every item starting with "Sulfuras" keeps its sell-in.
  */
  lemma {:induction false} SimulateSellIn(items: seq<Item>, days: nat, i: int)
    decreases days
    requires 0 <= i < |items|
    ensures |Simulate(items, days)| == |items|
    ensures Simulate(items, days)[i].name == items[i].name
    ensures Simulate(items, days)[i].sellIn ==
            (if SulfurasTag <= items[i].name then items[i].sellIn else items[i].sellIn - days)
  {
    if days > 0 {
      SimulateSellIn(Step(items), days - 1, i);
    }
  }

  /**
  After at least one day every quality is non-negative and every item not
  named exactly "Sulfuras, Hand of Ragnaros" has quality at most the maximum,
  whatever the starting values.
  */
  lemma {:induction false} SimulateQualityBounds(items: seq<Item>, days: nat, i: int)
    decreases days
    requires 0 <= i < |items|
    requires days >= 1
    ensures |Simulate(items, days)| == |items|
    ensures Simulate(items, days)[i].quality >= 0
    ensures items[i].name != LegendaryName ==> Simulate(items, days)[i].quality <= MaxQuality
  {
    SimulateSellIn(items, days, i);
    assert Step(items)[i] == UpdateItem(items[i]);
    if days > 1 {
      SimulateQualityBounds(Step(items), days - 1, i);
    }
  }

  /** One item after `days` daily updates on its own. */
  function Age(it: Item, days: nat): Item
    decreases days
  {
    if days == 0 then it else Age(UpdateItem(it), days - 1)
  }

  /**
  Items evolve independently: after any number of days, each position of the
  inventory holds exactly what that item alone becomes over those days.
  */
  lemma {:induction false} SimulatePointwise(items: seq<Item>, days: nat, i: int)
    decreases days
    requires 0 <= i < |items|
    ensures |Simulate(items, days)| == |items|
    ensures Simulate(items, days)[i] == Age(items[i], days)
  {
    if days > 0 {
      var next := Step(items);
      assert Simulate(items, days) == Simulate(next, days - 1);
      assert next[i] == UpdateItem(items[i]);
      SimulatePointwise(next, days - 1, i);
      assert Age(items[i], days) == Age(next[i], days - 1);
    }
  }

  /** The legendary item with non-negative quality never changes, however many days pass. */
  lemma LegendaryIsFixedPoint(items: seq<Item>, days: nat, i: int)
    requires 0 <= i < |items|
    requires items[i].name == LegendaryName && items[i].quality >= 0
    ensures |Simulate(items, days)| == |items|
    ensures Simulate(items, days)[i] == items[i]
  {
    SimulatePointwise(items, days, i);
    LegendaryAgesNot(items[i], days);
  }

  lemma {:induction false} LegendaryAgesNot(it: Item, days: nat)
    decreases days
    requires it.name == LegendaryName && it.quality >= 0
    ensures Age(it, days) == it
  {
    if days > 0 {
      LegendaryUnchangedByDay(it);
      LegendaryAgesNot(it, days - 1);
    }
  }

  /** One day leaves the legendary item with non-negative quality exactly as it was. */
  lemma LegendaryUnchangedByDay(it: Item)
    requires it.name == LegendaryName && it.quality >= 0
    ensures UpdateItem(it) == it
  {
    assert SulfurasTag <= LegendaryName;
    SulfurasKeepsValuesWithinBounds(it);
  }

  /** An item starting with "Sulfuras" keeps its values unless the clamps move its quality. */
  lemma SulfurasKeepsValuesWithinBounds(it: Item)
    requires SulfurasTag <= it.name
    ensures UpdateItem(it).sellIn == it.sellIn
    ensures 0 <= it.quality <= MaxQuality ==> UpdateItem(it) == it
    ensures it.quality < 0 ==> UpdateItem(it).quality == 0
    ensures it.quality > MaxQuality ==>
            UpdateItem(it).quality == (if it.name == LegendaryName then it.quality else MaxQuality)
  {
    ClassifyByPrefix(it.name);
  }

  /** A pass whose sell-in drops below zero that day ends the day worth exactly zero. */
  lemma ExpiredPassDropsToZero(it: Item)
    requires BackstageTag <= it.name && it.sellIn <= 0
    ensures UpdateItem(it) == Item(it.name, it.sellIn - 1, 0)
  {
    ClassifyByPrefix(it.name);
    assert it.name != LegendaryName by {
      assert it.name[0] == 'B' && LegendaryName[0] == 'S';
    }
  }

  /** Once expired, a pass stays at quality zero on every later day while its sell-in keeps falling. */
  lemma {:induction false} ExpiredPassStaysWorthless(items: seq<Item>, days: nat, i: int)
    decreases days
    requires 0 <= i < |items|
    requires BackstageTag <= items[i].name && items[i].sellIn <= 0
    requires days >= 1
    ensures |Simulate(items, days)| == |items|
    ensures Simulate(items, days)[i] == Item(items[i].name, items[i].sellIn - days, 0)
  {
    ExpiredPassDropsToZero(items[i]);
    SimulateSellIn(items, days, i);
    if days > 1 {
      ExpiredPassStaysWorthless(Step(items), days - 1, i);
    }
  }

  /**
  Inventory equality as the shop defines it: items are compared pairwise by
  name, sell-in and quality, and only up to the length of the shorter list.
  */
  function TruncatedEqual(a: seq<Item>, b: seq<Item>): (r: bool)
    ensures r <==> forall i :: 0 <= i < |a| && i < |b| ==> a[i] == b[i]
  {
    if |a| == 0 || |b| == 0 then true
    else
      assert forall i :: 1 <= i < |a| && i < |b| ==> a[i] == a[1..][i - 1] && b[i] == b[1..][i - 1];
      a[0] == b[0] && TruncatedEqual(a[1..], b[1..])
  }

  /** As written, a list equals any extension of it and the empty list equals every list. */
  lemma TruncatedEqualIgnoresTail(a: seq<Item>, tail: seq<Item>, b: seq<Item>)
    ensures TruncatedEqual(a, a + tail)
    ensures TruncatedEqual(a + tail, a)
    ensures TruncatedEqual([], b)
  {
  }

  /** Two inventories of different lengths compare equal, so the relation is not transitive. */
  lemma TruncatedEqualCounterexample()
    ensures TruncatedEqual([], [Item("Aged Brie", 2, 0)])
    ensures TruncatedEqual([Item("Elixir of the Mongoose", 5, 7)], [])
    ensures [Item("Elixir of the Mongoose", 5, 7)] != [Item("Aged Brie", 2, 0)]
    ensures !TruncatedEqual([Item("Elixir of the Mongoose", 5, 7)], [Item("Aged Brie", 2, 0)])
  {
    var brie := [Item("Aged Brie", 2, 0)];
    var elixir := [Item("Elixir of the Mongoose", 5, 7)];
    assert brie[0] != elixir[0];
  }

  /** Inventory equality that also compares lengths: the same item sequence and nothing else. */
  function StrictEqual(a: seq<Item>, b: seq<Item>): (r: bool)
    ensures r <==> a == b
  {
    |a| == |b| && TruncatedEqual(a, b)
  }
}
