/** Stock kept per ingredient and the purchase lines planned from it. */
module Inventory {
  import opened RealMath
  import opened Ingredients

  datatype InventorySetting = InventorySetting(onHandKg: real, safetyStockKg: real)

  /** One purchase line: expected use, the demand over the lead time, the
      safety stock, the stock on hand, the quantity to order and how many
      days the stock lasts. */
  datatype MRPOrderLine = MRPOrderLine(
    id: IngredientId,
    ingredientName: string,
    group: IngredientGroup,
    dailyUsageKg: real,
    leadDemandKg: real,
    safetyKg: real,
    onHandKg: real,
    reorderKg: real,
    daysCover: real)

  /** The quantity to buy so that stock reaches `needed`: nothing when the
      stock suffices, otherwise exactly the gap. */
  function Shortfall(needed: real, onHand: real): (r: real)
    ensures r >= 0.0
    ensures onHand + r >= needed
    ensures r > 0.0 <==> onHand < needed
    ensures r > 0.0 ==> onHand + r == needed
  {
    Max(0.0, needed - onHand)
  }

  /** Whether the lines are ordered from the largest reorder quantity down. */
  predicate SortedByReorder(lines: seq<MRPOrderLine>) {
    forall i, j :: 0 <= i < j < |lines| ==> lines[i].reorderKg >= lines[j].reorderKg
  }

  /** `line` placed into sorted lines before the first one it is not
      smaller than. */
  function InsertByReorder(line: MRPOrderLine, sorted: seq<MRPOrderLine>): (r: seq<MRPOrderLine>)
    requires SortedByReorder(sorted)
    ensures SortedByReorder(r)
    ensures multiset(r) == multiset(sorted) + multiset{line}
  {
    if sorted == [] || line.reorderKg >= sorted[0].reorderKg then
      [line] + sorted
    else
      var rest := InsertByReorder(line, sorted[1..]);
      assert sorted == [sorted[0]] + sorted[1..];
      HeadDominates(sorted[0], rest, sorted[1..], line);
      assert multiset([sorted[0]] + rest) == multiset{sorted[0]} + multiset(rest);
      [sorted[0]] + rest
  }

  /** A line at least as large as every line of `tail` and as `line` is at
      least as large as every line of a permutation of the two. */
  lemma HeadDominates(head: MRPOrderLine, rest: seq<MRPOrderLine>, tail: seq<MRPOrderLine>, line: MRPOrderLine)
    requires multiset(rest) == multiset(tail) + multiset{line}
    requires forall y :: y in tail ==> head.reorderKg >= y.reorderKg
    requires head.reorderKg >= line.reorderKg
    ensures forall i :: 0 <= i < |rest| ==> head.reorderKg >= rest[i].reorderKg
  {
    forall i | 0 <= i < |rest| ensures head.reorderKg >= rest[i].reorderKg {
      assert rest[i] in multiset(rest);
      assert rest[i] in multiset(tail) || rest[i] == line;
    }
  }

  /** The lines in non-increasing order of reorder quantity: a permutation
      of the input. */
  function SortByReorder(lines: seq<MRPOrderLine>): (r: seq<MRPOrderLine>)
    ensures SortedByReorder(r)
    ensures multiset(r) == multiset(lines)
    ensures |r| == |lines|
  {
    if lines == [] then []
    else
      assert lines == [lines[0]] + lines[1..];
      InsertByReorder(lines[0], SortByReorder(lines[1..]))
  }

  /** Reordering lines keeps every order quantity non-negative. */
  lemma ReorderedNonNegative(r: seq<MRPOrderLine>, lines: seq<MRPOrderLine>)
    requires multiset(r) == multiset(lines)
    requires forall i :: 0 <= i < |lines| ==> lines[i].reorderKg >= 0.0
    ensures forall i :: 0 <= i < |r| ==> r[i].reorderKg >= 0.0
  {
    forall i | 0 <= i < |r| ensures r[i].reorderKg >= 0.0 {
      assert r[i] in multiset(lines);
      var j :| 0 <= j < |lines| && lines[j] == r[i];
    }
  }
}
