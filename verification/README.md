# Gilded Rose daily inventory update, in Dafny

This project models the daily update of the Gilded Rose inventory. Each item
has a name, a sell-in (days left before it expires) and a quality score. One
day's update does four things to each item:

1. It dispatches on the name. The prefixes "Conjured", "Sulfuras", "Aged Brie"
   and "Backstage pass" are tried in that order. A name with none of them is a
   default item.
2. It runs the category's transition. "Sulfuras" items get the identity. Every
   other category first counts sell-in down by one day. It then resolves its
   rule table against the new sell-in.
3. It floors quality at 0.
4. It caps quality at 50. The one exception is the item named exactly
   "Sulfuras, Hand of Ragnaros".

A rule table is an ordered list of `(guard, effect)` rules. The resolver applies
the first rule whose guard holds. A guard is "sell-in strictly above t" or a
catch-all. An effect is "add d to quality" or "reset quality to 0". The
resolver fails when no rule matches.

Modules:

- `Rules` (Rules.dfy) is the generic resolver.
- `Calculators` (Calculators.dfy) holds the four shipped tables and their
  calculators.
- `Dispatch` (Dispatch.dfy) holds the categories, the prefix dispatch and the
  transition each category selects.
- `GildedRose` (GildedRose.dfy) holds items, the clamps, the update of one item
  and of a whole inventory (functional, and in place on an array), multi-day
  simulation and inventory equality.

Three details of the code that a reader might not expect, all kept in the model:

- Dispatch picks the identity transition for any name that *starts with*
  "Sulfuras". Only the ceiling exemption uses the exact name. So
  "Sulfuras X" keeps its sell-in, but its quality is capped at 50.
- The zero floor also applies to the legendary item. A negative quality there
  is raised to 0, so legendary quality is not strictly "never changed".
- A table without a matching rule raises an ordinary value error. It is not a
  dedicated configuration error. Here it is the `NoMatchingRule` result.

## Model

| member | source | states |
|---|---|---|
| Rules.Resolve | gildedrose_console/gilded_rose.py:75-84 | fails exactly when no rule's guard holds for the sell-in; otherwise keeps sell-in and gives the effect of the first matching rule (delta added, or quality 0 on a reset) |
| Rules.ResolveTotal | gildedrose_console/gilded_rose.py:76-84 | a table holding a catch-all never fails, for any sell-in and quality |
| Rules.ResolveIgnoresLaterRules | gildedrose_console/gilded_rose.py:76-82 | when some rule of a table matches the sell-in, appending any rules after the table changes nothing |
| Rules.ResolveSelectsFirstMatch | gildedrose_console/gilded_rose.py:76-82 | when some rule matches, the resolution succeeds with sell-in kept and the effect of the first matching rule |
| Calculators.ShippedTablesAreTotal | gildedrose_console/gilded_rose.py:29-72 | all four shipped tables contain a catch-all, so none can fail |
| Calculators.ResolveTotalTable | gildedrose_console/gilded_rose.py:75-84 | on a table with a catch-all, sell-in is kept and quality is the effect of the first matching rule |
| Calculators.CalculateBackstagePass | gildedrose_console/gilded_rose.py:25-39 | sell-in drops by 1 (the decrement at lines 25-26, done first); with new sell-in s, quality gains 1 when s > 10, 2 when 6 <= s <= 10, 3 when 0 <= s <= 5, and becomes exactly 0 when s < 0 |
| Calculators.CalculateConjured | gildedrose_console/gilded_rose.py:42-50 | sell-in drops by 1 (the decrement at lines 25-26, done first); quality loses 2 while the new sell-in is positive, 4 otherwise |
| Calculators.CalculateBrie | gildedrose_console/gilded_rose.py:53-61 | sell-in drops by 1 (the decrement at lines 25-26, done first); quality gains 1 while the new sell-in is positive, 2 otherwise |
| Calculators.CalculateDefault | gildedrose_console/gilded_rose.py:64-72 | sell-in drops by 1 (the decrement at lines 25-26, done first); quality loses 1 while the new sell-in is positive, 2 otherwise |
| Dispatch.FirstPrefixMatch | gildedrose_console/gilded_rose.py:101-107 | picks the category of the first table entry whose prefix starts the name, and Default when no prefix does |
| Dispatch.Classify | gildedrose_console/gilded_rose.py:94-107 | Conjured if the name starts with "Conjured"; else Sulfuras if it starts with "Sulfuras"; else Aged Brie; else Backstage pass; else Default |
| Dispatch.ClassifyByPrefix | gildedrose_console/gilded_rose.py:94-99 | the four prefixes never overlap, so each category is chosen if and only if the name carries its prefix, and Default if and only if it carries none |
| Dispatch.Transition | gildedrose_console/gilded_rose.py:94-107 | Sulfuras leaves sell-in and quality alone; every other category lowers sell-in by exactly 1 and, with new sell-in s, changes quality by its own table: Conjured -2 if s > 0 else -4, Aged Brie +1 else +2, Default -1 else -2, Backstage pass +1 above 10, +2 above 5, +3 from 0, else exactly 0 |
| GildedRose.QNotNegative | gildedrose_console/gilded_rose.py:17-18 | sell-in is kept; quality becomes the least value that is at least both 0 and the old quality |
| GildedRose.MaxQ | gildedrose_console/gilded_rose.py:21-22 | sell-in is kept; quality becomes the greatest value that is at most both 50 and the old quality |
| GildedRose.UpdateItem | gildedrose_console/gilded_rose.py:101-111 | the name is kept; sell-in drops by 1 unless the name starts with "Sulfuras"; quality ends at least 0, and at most 50 unless the name is exactly the legendary one; the transition's quality is kept when in range, raised to 0 below it, and capped above it except for the legendary name |
| GildedRose.Step | gildedrose_console/gilded_rose.py:101-111 | the inventory keeps its length and order, and each position holds that item's own one-day update |
| GildedRose.UpdateSlot | gildedrose_console/gilded_rose.py:101-111 | one slot of the array receives its item's one-day update and every other slot is left alone |
| GildedRose.UpdateQuality | gildedrose_console/gilded_rose.py:93-111 | updating the array in place leaves exactly the functional one-day update of its old contents |
| GildedRose.SimulatePointwise | gildedrose_console/gilded_rose.py:101-111 | items evolve independently: after any number of days the inventory keeps its length, and each position holds what that item alone becomes over those days |
| GildedRose.SimulateSellIn | gildedrose_console/gilded_rose.py:25-111 | after n days (the decrement at lines 25-26, the Sulfuras identity at line 96, the per-item dispatch at lines 101-107) names and length are kept; sell-in has fallen by exactly n, unbounded below, for names not starting with "Sulfuras", and is unchanged for those that do |
| GildedRose.SimulateQualityBounds | gildedrose_console/gilded_rose.py:109-111 | after one day or more every quality is at least 0; every item not named exactly "Sulfuras, Hand of Ragnaros" is at most 50, whatever its starting quality |
| GildedRose.LegendaryIsFixedPoint | gildedrose_console/gilded_rose.py:96-111 | "Sulfuras, Hand of Ragnaros" with non-negative quality is unchanged after any number of days |
| GildedRose.LegendaryUnchangedByDay | gildedrose_console/gilded_rose.py:96-111 | one day leaves "Sulfuras, Hand of Ragnaros" with non-negative quality exactly as it was |
| GildedRose.LegendaryAgesNot | gildedrose_console/gilded_rose.py:96-111 | that item, updated on its own, is unchanged after any number of days |
| GildedRose.SulfurasKeepsValuesWithinBounds | gildedrose_console/gilded_rose.py:96-111 | a name starting with "Sulfuras" keeps its sell-in; it keeps its quality when in 0..50; negative quality goes to 0; over 50 is capped unless the name is exactly the legendary one |
| GildedRose.ExpiredPassDropsToZero | gildedrose_console/gilded_rose.py:29-39 | a pass whose new sell-in is negative ends the day at quality exactly 0, after clamping |
| GildedRose.ExpiredPassStaysWorthless | gildedrose_console/gilded_rose.py:29-39 | once a pass has expired, after any number of days (one or more) it has quality exactly 0 and sell-in lowered by that many days |
| GildedRose.TruncatedEqual | gildedrose_console/gilded_rose.py:113-127 | true exactly when the items agree by name, sell-in and quality at every position both inventories have |
| GildedRose.TruncatedEqualIgnoresTail | gildedrose_console/gilded_rose.py:123-127 | an inventory equals any extension of itself in both directions, and the empty inventory equals every inventory |
| GildedRose.TruncatedEqualCounterexample | gildedrose_console/gilded_rose.py:123-127 | two different one-item inventories are each equal to the empty one but not to each other |
| GildedRose.StrictEqual | gildedrose_console/gilded_rose.py:113-127 | true exactly when the two item sequences are identical, length included |

## Left out

- `Item.__repr__` is display formatting only.
- The demonstration block at the end of the file is left out. It prints a banner and waits for console input.
- The `AttributeError` path of `__eq__` (comparing against an object with no items) is left out. Static typing rules it out.
- Items are values, not shared mutable objects. In the Python program, one item object placed twice in the list is updated twice per day, and outside references see every update. Here each list position is updated once and independently, so aliasing of items is not modelled.
- `MAX_QUALITY` is a mutable class attribute in the Python program. Here it is the constant 50.
- The rule table is an ordered map in the Python program, so two rules can never share a threshold. A sequence of rules allows that. Any such duplicate could never be selected, so the shipped tables behave the same.
- The Python program's reset sentinel (a `None` delta caught through a type error) and its catch-all key (`None`) become the `Reset` effect and the `Always` guard.
- The Python program has dynamic typing, so fields could hold non-integers. That is not modelled: sell-in and quality are unbounded integers, just like Python's.

## Findings

| source | as written | input that shows it | evidently intended | confidence | as-written member | corrected member |
|---|---|---|---|---|---|---|
| gildedrose_console/gilded_rose.py:123-127 | equality zips the two item lists, so it compares only up to the shorter length | an empty inventory against one holding `Aged Brie, 2, 0` compares equal | equal only when both lists have the same length and the same items | medium, not executed | GildedRose.TruncatedEqualCounterexample | GildedRose.StrictEqual |
