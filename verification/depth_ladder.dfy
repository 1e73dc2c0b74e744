/** The depth aggregation of the order-book view
    (src/components/market-pilot/OrderBookDisplay.tsx): the first rows of
    each side with running cumulative quantities, asks reversed for display,
    and the mid price. */
module DepthLadder {
  import opened Base
  import opened MarketTypes

  /** Rows shown per book side. */
  const MAX_ROWS: nat := 10

  /** Both display ladders of one snapshot. */
  datatype Ladders = Ladders(asks: seq<DisplayRow>, bids: seq<DisplayRow>)

  /** `total += parseFloat(quantity)`: a NaN on either side poisons the sum. */
  function AddQuantity(total: Option<real>, q: Option<real>): Option<real> {
    if total.Some? && q.Some? then Some(total.value + q.value) else None
  }

  /** Reference definition: the summed quantity of `levels`, added left to
      right, `((0 + q0) + q1) + ...`, by recursion on all but the last level. */
  function DepthOf(parse: Parser, levels: seq<Level>): Option<real>
    decreases |levels|
  {
    if levels == [] then Some(0.0)
    else AddQuantity(DepthOf(parse, levels[..|levels| - 1]), parse(levels[|levels| - 1].quantity))
  }

  /** The `map` over a side with a running accumulator `acc`, in input order. */
  function Accumulate(parse: Parser, levels: seq<Level>, acc: Option<real>): seq<DisplayRow>
    decreases |levels|
  {
    if levels == [] then []
    else
      var total := AddQuantity(acc, parse(levels[0].quantity));
      [DisplayRow(levels[0].price, levels[0].quantity, total)] + Accumulate(parse, levels[1..], total)
  }

  /** Starting the accumulator at the depth of `done`, row `i` of the rest
      carries the depth of `done` followed by the first `i + 1` rest levels. */
  lemma {:induction false} AccumulateIsPrefixDepth(parse: Parser, done: seq<Level>, rest: seq<Level>)
    ensures |Accumulate(parse, rest, DepthOf(parse, done))| == |rest|
    ensures forall i :: 0 <= i < |rest| ==>
      Accumulate(parse, rest, DepthOf(parse, done))[i]
        == DisplayRow(rest[i].price, rest[i].quantity, DepthOf(parse, done + rest[..i + 1]))
    decreases |rest|
  {
    if rest != [] {
      var done' := done + [rest[0]];
      assert done'[..|done'| - 1] == done;
      assert DepthOf(parse, done') == AddQuantity(DepthOf(parse, done), parse(rest[0].quantity));
      AccumulateIsPrefixDepth(parse, done', rest[1..]);
      var rows := Accumulate(parse, rest, DepthOf(parse, done));
      assert rows == [DisplayRow(rest[0].price, rest[0].quantity, DepthOf(parse, done'))]
        + Accumulate(parse, rest[1..], DepthOf(parse, done'));
      forall i | 0 <= i < |rest|
        ensures rows[i] == DisplayRow(rest[i].price, rest[i].quantity, DepthOf(parse, done + rest[..i + 1]))
      {
        if i == 0 {
          assert done + rest[..1] == done';
        } else {
          assert done' + rest[1..][..i] == done + rest[..i + 1];
        }
      }
    }
  }

  /** One side in best-first order: `slice(0, MAX_ROWS)` then the running
      total. Prices and quantities are copied through; row `i` carries the
      summed quantity of levels `0..i`. */
  function BestFirstLadder(parse: Parser, side: seq<Level>): (rows: seq<DisplayRow>)
    ensures |rows| == Min(|side|, MAX_ROWS)
    ensures forall i :: 0 <= i < |rows| ==>
      && rows[i].price == side[i].price
      && rows[i].quantity == side[i].quantity
      && rows[i].total == DepthOf(parse, side[..i + 1])
  {
    var top := side[..Min(|side|, MAX_ROWS)];
    AccumulateIsPrefixDepth(parse, [], top);
    assert forall k :: 0 < k <= |top| ==> [] + top[..k] == side[..k];
    Accumulate(parse, top, Some(0.0))
  }

  /** The ladders of the view. With no snapshot both are empty; bids are shown
      best first; asks are accumulated best first and then shown reversed, so
      displayed ask `i` is best-first level `n - 1 - i` with the depth of
      levels `0..n - 1 - i`. */
  function Aggregate(parse: Parser, data: Option<RawOrderBook>): (r: Ladders)
    ensures data.None? ==> r.asks == [] && r.bids == []
    ensures data.Some? ==> |r.bids| == Min(|data.value.bids|, MAX_ROWS)
    ensures data.Some? ==> forall i :: 0 <= i < |r.bids| ==>
      r.bids[i] == DisplayRow(data.value.bids[i].price, data.value.bids[i].quantity,
                              DepthOf(parse, data.value.bids[..i + 1]))
    ensures data.Some? ==> |r.asks| == Min(|data.value.asks|, MAX_ROWS)
    ensures data.Some? ==> forall i :: 0 <= i < |r.asks| ==>
      var k := |r.asks| - 1 - i;
      r.asks[i] == DisplayRow(data.value.asks[k].price, data.value.asks[k].quantity,
                              DepthOf(parse, data.value.asks[..k + 1]))
  {
    match data
    case None => Ladders([], [])
    case Some(book) => Ladders(Reverse(BestFirstLadder(parse, book.asks)), BestFirstLadder(parse, book.bids))
  }

  /** The mid price: present exactly when both sides are non-empty and both
      best prices parse, and then the average of the two best prices (so it
      lies between them whenever the book is not crossed). */
  function MidPrice(parse: Parser, data: Option<RawOrderBook>): (m: Option<real>)
    ensures m.Some? <==>
      && data.Some? && |data.value.asks| > 0 && |data.value.bids| > 0
      && parse(data.value.asks[0].price).Some? && parse(data.value.bids[0].price).Some?
    ensures m.Some? ==>
      m.value * 2.0 == parse(data.value.asks[0].price).value + parse(data.value.bids[0].price).value
    ensures m.Some? && parse(data.value.bids[0].price).value <= parse(data.value.asks[0].price).value ==>
      parse(data.value.bids[0].price).value <= m.value <= parse(data.value.asks[0].price).value
  {
    if data.Some? && |data.value.asks| > 0 && |data.value.bids| > 0 then
      match (parse(data.value.asks[0].price), parse(data.value.bids[0].price))
      case (Some(bestAsk), Some(bestBid)) => Some((bestAsk + bestBid) / 2.0)
      case _ => None
    else None
  }

  /** Every quantity among `levels` parses to a non-negative number. */
  predicate NonNegativeQuantities(parse: Parser, levels: seq<Level>) {
    forall i :: 0 <= i < |levels| ==> parse(levels[i].quantity).Some? && parse(levels[i].quantity).value >= 0.0
  }

  /** With non-negative quantities, depth is defined and grows with the prefix. */
  lemma {:induction false} DepthGrowsWithPrefix(parse: Parser, levels: seq<Level>, i: nat, j: nat)
    requires i <= j <= |levels|
    requires NonNegativeQuantities(parse, levels)
    ensures DepthOf(parse, levels[..i]).Some? && DepthOf(parse, levels[..j]).Some?
    ensures DepthOf(parse, levels[..i]).value <= DepthOf(parse, levels[..j]).value
    decreases j
  {
    if j == 0 {
      assert levels[..0] == [];
    } else {
      DepthGrowsWithPrefix(parse, levels, Min(i, j - 1), j - 1);
      assert levels[..j][..j - 1] == levels[..j - 1];
      assert levels[..j][j - 1] == levels[j - 1];
      assert DepthOf(parse, levels[..j])
        == AddQuantity(DepthOf(parse, levels[..j - 1]), parse(levels[j - 1].quantity));
    }
  }

  /** With non-negative quantities the totals of a ladder are defined and
      non-decreasing in best-first order. */
  lemma LadderTotalsNonDecreasing(parse: Parser, side: seq<Level>, i: nat, j: nat)
    requires NonNegativeQuantities(parse, side)
    requires i <= j < |BestFirstLadder(parse, side)|
    ensures BestFirstLadder(parse, side)[i].total.Some? && BestFirstLadder(parse, side)[j].total.Some?
    ensures BestFirstLadder(parse, side)[i].total.value <= BestFirstLadder(parse, side)[j].total.value
  {
    DepthGrowsWithPrefix(parse, side, i + 1, j + 1);
  }

  /** The displayed ask ladder ends with the best ask, whose total is its own
      quantity, and (with non-negative quantities) starts with the largest
      total. */
  lemma AskLadderEnds(parse: Parser, book: RawOrderBook)
    requires |book.asks| > 0
    ensures var asks := Aggregate(parse, Some(book)).asks;
      && |asks| > 0
      && asks[|asks| - 1].price == book.asks[0].price
      && asks[|asks| - 1].total == parse(book.asks[0].quantity)
    ensures NonNegativeQuantities(parse, book.asks) ==>
      var asks := Aggregate(parse, Some(book)).asks;
      && (forall i :: 0 <= i < |asks| ==> asks[i].total.Some?)
      && (forall i :: 0 <= i < |asks| ==> asks[i].total.value <= asks[0].total.value)
  {
    var asks := Aggregate(parse, Some(book)).asks;
    var n := |asks|;
    assert book.asks[..1][..0] == [];
    assert DepthOf(parse, book.asks[..1]) == AddQuantity(Some(0.0), parse(book.asks[0].quantity));
    if NonNegativeQuantities(parse, book.asks) {
      forall i | 0 <= i < n
        ensures asks[i].total.Some? && asks[0].total.Some?
        ensures asks[i].total.value <= asks[0].total.value
      {
        DepthGrowsWithPrefix(parse, book.asks, n - i, n);
      }
    }
  }

  /** The worked example: asks (100, 1), (101, 2) and bids (99, 3), (98, 1)
      give best-first ask totals 1, 3 shown as (101, 2, 3), (100, 1, 1), bid
      totals 3, 4, and mid price 99.5. */
  lemma WorkedExample(parse: Parser)
    requires parse("1") == Some(1.0) && parse("2") == Some(2.0) && parse("3") == Some(3.0)
    requires parse("100") == Some(100.0) && parse("99") == Some(99.0)
    ensures var book := RawOrderBook("t", "okx", "BTC-USDT-SWAP",
                                     [Level("100", "1"), Level("101", "2")],
                                     [Level("99", "3"), Level("98", "1")]);
      && Aggregate(parse, Some(book)).asks
           == [DisplayRow("101", "2", Some(3.0)), DisplayRow("100", "1", Some(1.0))]
      && Aggregate(parse, Some(book)).bids
           == [DisplayRow("99", "3", Some(3.0)), DisplayRow("98", "1", Some(4.0))]
      && MidPrice(parse, Some(book)) == Some(99.5)
  {
    var asks := [Level("100", "1"), Level("101", "2")];
    var bids := [Level("99", "3"), Level("98", "1")];
    var book := RawOrderBook("t", "okx", "BTC-USDT-SWAP", asks, bids);
    assert asks[..1] == [asks[0]] && asks[..2] == asks && asks[..2][..1] == [asks[0]];
    assert bids[..1] == [bids[0]] && bids[..2] == bids && bids[..2][..1] == [bids[0]];
    assert [asks[0]][..0] == [] && [bids[0]][..0] == [];
    assert DepthOf(parse, asks[..1]) == Some(1.0);
    assert DepthOf(parse, asks[..2]) == Some(3.0);
    assert DepthOf(parse, bids[..1]) == Some(3.0);
    assert DepthOf(parse, bids[..2]) == Some(4.0);
    var r := Aggregate(parse, Some(book));
    assert r.asks[0] == DisplayRow("101", "2", Some(3.0));
    assert r.asks[1] == DisplayRow("100", "1", Some(1.0));
  }
}
