/** The int64 amount folds of the order and payment services. */
module Amounts {
  import opened Events

  const TWO_63: int := 0x8000_0000_0000_0000
  const TWO_64: int := 0x1_0000_0000_0000_0000

  /** Two's complement wrap-around of an exact result into int64. */
  function Wrap64(x: int): int { (x + TWO_63) % TWO_64 - TWO_63 }

  predicate InInt64(x: int) { -TWO_63 <= x < TWO_63 }

  predicate ValidLine(item: Item) { 0 < item.quantity && 0 <= item.price }

  ghost predicate ValidLines(items: seq<Item>) { forall i | 0 <= i < |items| :: ValidLine(items[i]) }

  /** The value of `total` after a loop of `total += int64(quantity) * price`. */
  function Amount(items: seq<Item>): int {
    if items == [] then 0
    else var last := items[|items| - 1];
         Wrap64(Amount(items[..|items| - 1]) + Wrap64(last.quantity * last.price))
  }

  function ExactAmount(items: seq<Item>): int {
    if items == [] then 0
    else var last := items[|items| - 1]; ExactAmount(items[..|items| - 1]) + last.quantity * last.price
  }

  /** One turn of the loop. */
  lemma AmountOfOneMore(items: seq<Item>, item: Item)
    ensures Amount(items + [item]) == Wrap64(Amount(items) + Wrap64(item.quantity * item.price))
  {
    assert (items + [item])[..|items|] == items;
  }

  lemma WrapIsCongruent(x: int)
    ensures InInt64(Wrap64(x))
    ensures exists k: int :: Wrap64(x) == x + k * TWO_64
  {
    var k := -((x + TWO_63) / TWO_64);
    assert Wrap64(x) == x + k * TWO_64;
  }

  lemma WrapIsIdentityInRange(x: int)
    ensures Wrap64(x) == x <==> InInt64(x)
  {
    WrapIsCongruent(x);
    if InInt64(x) {
      assert (x + TWO_63) % TWO_64 == x + TWO_63;
    }
  }

  lemma WrapAbsorbsMultiples(x: int, k: int)
    ensures Wrap64(x + k * TWO_64) == Wrap64(x)
  {
    var y := x + TWO_63;
    var q, r := y / TWO_64, y % TWO_64;
    assert y + k * TWO_64 == (q + k) * TWO_64 + r;
  }

  lemma WrapOfWrappedSum(x: int, y: int)
    ensures Wrap64(Wrap64(x) + Wrap64(y)) == Wrap64(x + y)
  {
    WrapIsCongruent(x);
    WrapIsCongruent(y);
    var j: int :| Wrap64(x) == x + j * TWO_64;
    var k: int :| Wrap64(y) == y + k * TWO_64;
    assert Wrap64(x) + Wrap64(y) == (x + y) + (j + k) * TWO_64;
    WrapAbsorbsMultiples(x + y, j + k);
  }

  /** Wrapping at every addition loses nothing beyond one final wrap of the exact sum. */
  lemma {:induction false} AmountWrapsExactAmount(items: seq<Item>)
    ensures Amount(items) == Wrap64(ExactAmount(items))
  {
    if items != [] {
      var front, last := items[..|items| - 1], items[|items| - 1];
      AmountWrapsExactAmount(front);
      WrapOfWrappedSum(ExactAmount(front), last.quantity * last.price);
    }
  }

  lemma {:induction false} PartialSumsGrow(items: seq<Item>, k: nat)
    requires ValidLines(items) && k <= |items|
    ensures 0 <= ExactAmount(items[..k]) <= ExactAmount(items)
    decreases |items|
  {
    if k == |items| {
      assert items[..k] == items;
      if items != [] {
        PartialSumsGrow(items[..|items| - 1], |items| - 1);
        assert items[..|items| - 1][..|items| - 1] == items[..|items| - 1];
        LineIsNonNegative(items[|items| - 1]);
      }
    } else {
      PartialSumsGrow(items[..|items| - 1], k);
      assert items[..|items| - 1][..k] == items[..k];
      LineIsNonNegative(items[|items| - 1]);
    }
  }

  lemma LineIsNonNegative(item: Item)
    requires ValidLine(item)
    ensures 0 <= item.quantity * item.price
  {
  }

  lemma PartialSumIsExact(items: seq<Item>, k: nat)
    requires ValidLines(items) && k <= |items| && ExactAmount(items) < TWO_63
    ensures InInt64(ExactAmount(items[..k])) && Amount(items[..k]) == ExactAmount(items[..k])
  {
    PartialSumsGrow(items, k);
    AmountWrapsExactAmount(items[..k]);
    WrapIsIdentityInRange(ExactAmount(items[..k]));
  }

  /** For validated lines the stored amount is the true amount exactly when the true amount is
      below 2^63, and then no partial sum of the loop overflowed either. */
  lemma AmountIsExactBelowBound(items: seq<Item>)
    requires ValidLines(items)
    ensures Amount(items) == ExactAmount(items) <==> ExactAmount(items) < TWO_63
    ensures ExactAmount(items) < TWO_63 ==>
              forall k | 0 <= k <= |items| :: InInt64(ExactAmount(items[..k])) && Amount(items[..k]) == ExactAmount(items[..k])
  {
    AmountWrapsExactAmount(items);
    WrapIsIdentityInRange(ExactAmount(items));
    PartialSumsGrow(items, |items|);
    assert items[..|items|] == items;
    if ExactAmount(items) < TWO_63 {
      forall k | 0 <= k <= |items|
        ensures InInt64(ExactAmount(items[..k])) && Amount(items[..k]) == ExactAmount(items[..k])
      {
        PartialSumIsExact(items, k);
      }
    }
  }
}
