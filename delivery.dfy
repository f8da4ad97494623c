/** The delivery performance dashboard (app_zeynep.py): the preprocessing
    that runs once at start-up. It derives two day columns on the orders table,
    sums item freight per order, left-joins reviews and freight onto the
    orders, bins waiting time and freight, and averages the review score per
    bin. Timestamps are whole seconds since an epoch; `None` is a missing
    timestamp (NaT), a missing score or a missing freight (NaN). */
module DeliveryDashboard {
  import opened Frame
  import opened LeftJoins
  import opened Binning

  const SecondsPerDay: int := 86400
  /** Lower bound of `clip(lower=5)` on both day columns. */
  const MinDays: int := 5

  const WaitEdges: seq<real> := [0.0, 5.0, 10.0, 20.0, 60.0]
  const WaitLabels: seq<string> := ["0–5 days", "6–10 days", "11–20 days", "20+ days"]
  const FreightEdges: seq<real> := [0.0, 10.0, 30.0, 100.0, 500.0]
  const FreightLabels: seq<string> := ["Low", "Medium", "High", "Very High"]

  /** A row of the orders table, with the three timestamp columns it uses. */
  datatype Order = Order(orderId: string, purchase: Option<int>, delivered: Option<int>, estimated: Option<int>)
  /** A row of the reviews table. */
  datatype Review = Review(orderId: string, reviewScore: real)
  /** A row of the order-items table. */
  datatype Item = Item(orderId: string, freightValue: real)
  /** A row of `items_agg`: the summed freight of one order. */
  datatype OrderFreight = OrderFreight(orderId: string, freightValue: real)
  /** An order with its derived columns `delay_vs_expected` and `wait_time`. */
  datatype OrderRow = OrderRow(order: Order, delayVsExpected: Option<int>, waitTime: Option<int>)
  /** A row of the joined table `df`. */
  datatype JoinedRow = JoinedRow(order: OrderRow, reviewScore: Option<real>, freightValue: Option<real>)

  // ---------------------------------------------------------------- day columns

  /** `(end - start).dt.days`: the whole number of days, rounded down. */
  function WholeDays(start: Option<int>, end: Option<int>): (d: Option<int>)
    ensures d.Some? <==> start.Some? && end.Some?
    ensures d.Some? ==> d.value * SecondsPerDay <= end.value - start.value < (d.value + 1) * SecondsPerDay
  {
    if start.Some? && end.Some? then Some((end.value - start.value) / SecondsPerDay) else None
  }

  /** `.clip(lower=5)`: a missing value stays missing. */
  function ClipLower(d: Option<int>): (c: Option<int>)
    ensures c.Some? <==> d.Some?
    ensures c.Some? ==> c.value >= MinDays
    ensures c.Some? && d.value >= MinDays ==> c.value == d.value
    ensures c.Some? && d.value < MinDays ==> c.value == MinDays
  {
    if d.Some? && d.value < MinDays then Some(MinDays) else d
  }

  /** Clipping twice is clipping once. */
  lemma ClipIdempotent(d: Option<int>)
    ensures ClipLower(ClipLower(d)) == ClipLower(d)
  {
  }

  /** One entry of a derived day column. */
  function ClippedDays(start: Option<int>, end: Option<int>): (c: Option<int>)
    ensures c.Some? <==> start.Some? && end.Some?
    ensures c.Some? ==> c.value >= MinDays
  {
    ClipLower(WholeDays(start, end))
  }

  /** The column `delay_vs_expected`: delivered minus estimated, clipped. */
  function DelayColumn(orders: seq<Order>): (c: seq<Option<int>>)
    ensures |c| == |orders|
    ensures forall i :: 0 <= i < |c| ==> c[i] == ClippedDays(orders[i].estimated, orders[i].delivered)
  {
    seq(|orders|, i requires 0 <= i < |orders| => ClippedDays(orders[i].estimated, orders[i].delivered))
  }

  /** The column `wait_time`: delivered minus purchased, clipped. */
  function WaitColumn(orders: seq<Order>): (c: seq<Option<int>>)
    ensures |c| == |orders|
    ensures forall i :: 0 <= i < |c| ==> c[i] == ClippedDays(orders[i].purchase, orders[i].delivered)
  {
    seq(|orders|, i requires 0 <= i < |orders| => ClippedDays(orders[i].purchase, orders[i].delivered))
  }

  /** The orders table, whose columns the preprocessing assigns in place. A
      derived column is `[]` until it is assigned. */
  class OrdersFrame {
    var orders: seq<Order>
    var delayVsExpected: seq<Option<int>>
    var waitTime: seq<Option<int>>

    /** Both derived columns are present. */
    predicate Derived()
      reads this
    {
      |delayVsExpected| == |orders| && |waitTime| == |orders|
    }

    constructor (orders: seq<Order>)
      ensures this.orders == orders && delayVsExpected == [] && waitTime == []
    {
      this.orders := orders;
      delayVsExpected := [];
      waitTime := [];
    }

    /** `orders["delay_vs_expected"] = ...` */
    method AssignDelayVsExpected()
      modifies this
      ensures delayVsExpected == DelayColumn(orders)
      ensures orders == old(orders) && waitTime == old(waitTime)
      ensures forall i :: 0 <= i < |delayVsExpected| && delayVsExpected[i].Some? ==> delayVsExpected[i].value >= MinDays
    {
      delayVsExpected := DelayColumn(orders);
    }

    /** `orders["wait_time"] = ...` */
    method AssignWaitTime()
      modifies this
      ensures waitTime == WaitColumn(orders)
      ensures orders == old(orders) && delayVsExpected == old(delayVsExpected)
      ensures forall i :: 0 <= i < |waitTime| && waitTime[i].Some? ==> waitTime[i].value >= MinDays
    {
      waitTime := WaitColumn(orders);
    }

    /** The table read row by row. */
    function Rows(): (rs: seq<OrderRow>)
      reads this
      requires Derived()
      ensures |rs| == |orders|
      ensures forall i :: 0 <= i < |rs| ==> rs[i] == OrderRow(orders[i], delayVsExpected[i], waitTime[i])
    {
      var os, delay, wait := orders, delayVsExpected, waitTime;
      seq(|os|, i requires 0 <= i < |os| => OrderRow(os[i], delay[i], wait[i]))
    }
  }

  /** The orders table once both day columns are assigned. */
  function OrderRows(orders: seq<Order>): (rs: seq<OrderRow>)
    ensures |rs| == |orders|
    ensures forall i :: 0 <= i < |rs| ==>
      rs[i].order == orders[i]
      && rs[i].delayVsExpected == ClippedDays(orders[i].estimated, orders[i].delivered)
      && rs[i].waitTime == ClippedDays(orders[i].purchase, orders[i].delivered)
  {
    var delay, wait := DelayColumn(orders), WaitColumn(orders);
    seq(|orders|, i requires 0 <= i < |orders| => OrderRow(orders[i], delay[i], wait[i]))
  }

  // ------------------------------------------------------------- items_agg

  /** The summed freight of the items of one order. */
  function FreightOf(items: seq<Item>, id: string): real
  {
    if |items| == 0 then 0.0
    else
      var n := |items| - 1;
      FreightOf(items[..n], id) + (if items[n].orderId == id then items[n].freightValue else 0.0)
  }

  predicate HasItems(items: seq<Item>, id: string)
  {
    exists k :: 0 <= k < |items| && items[k].orderId == id
  }

  lemma {:induction false} FreightOfAbsent(items: seq<Item>, id: string)
    requires !HasItems(items, id)
    ensures FreightOf(items, id) == 0.0
  {
    if |items| > 0 {
      var n := |items| - 1;
      assert forall k :: 0 <= k < n ==> items[..n][k] == items[k];
      FreightOfAbsent(items[..n], id);
    }
  }

  /** Position of the aggregated row of an order, if there is one. */
  function IndexOfOrder(agg: seq<OrderFreight>, id: string): (i: Option<nat>)
    ensures i.Some? ==> i.value < |agg| && agg[i.value].orderId == id
    ensures i.None? ==> forall j :: 0 <= j < |agg| ==> agg[j].orderId != id
  {
    if |agg| == 0 then None
    else if agg[|agg| - 1].orderId == id then Some(|agg| - 1)
    else IndexOfOrder(agg[..|agg| - 1], id)
  }

  function FreightKey(f: OrderFreight): string
  {
    f.orderId
  }

  /** What `items_agg` promises about the items it summarises: one row per
      order that has items, and that row holds the order's total freight. */
  predicate GroupedBy(agg: seq<OrderFreight>, items: seq<Item>)
  {
    UniqueKeys(agg, FreightKey)
    && (forall i :: 0 <= i < |agg| ==> HasItems(items, agg[i].orderId))
    && (forall k :: 0 <= k < |items| ==> IndexOfOrder(agg, items[k].orderId).Some?)
    && (forall i :: 0 <= i < |agg| ==> agg[i].freightValue == FreightOf(items, agg[i].orderId))
  }

  /** Adds one item to the running per-order totals: to its order's row, or as a new row. */
  function AddItem(agg: seq<OrderFreight>, it: Item): (r: seq<OrderFreight>)
    ensures |agg| <= |r| <= |agg| + 1
    ensures forall j :: 0 <= j < |agg| ==> r[j].orderId == agg[j].orderId
    ensures IndexOfOrder(r, it.orderId).Some?
  {
    match IndexOfOrder(agg, it.orderId)
    case Some(i) => agg[i := OrderFreight(it.orderId, agg[i].freightValue + it.freightValue)]
    case None => agg + [OrderFreight(it.orderId, it.freightValue)]
  }

  /** The row `at` of `AddItem(agg, it)` belongs to the item's order and has
      gained its freight; every other row is as before. */
  lemma AddItemShape(agg: seq<OrderFreight>, it: Item) returns (at: nat)
    ensures var agg' := AddItem(agg, it);
      at < |agg'| && |agg'| == (if at < |agg| then |agg| else |agg| + 1)
      && agg'[at].orderId == it.orderId
      && agg'[at].freightValue == (if at < |agg| then agg[at].freightValue else 0.0) + it.freightValue
      && (at < |agg| <==> IndexOfOrder(agg, it.orderId).Some?)
      && (forall j :: 0 <= j < |agg'| && j != at ==> j < |agg| && agg'[j] == agg[j])
  {
    at := if IndexOfOrder(agg, it.orderId).Some? then IndexOfOrder(agg, it.orderId).value else |agg|;
  }

  lemma FreightOfSnoc(items: seq<Item>, it: Item, id: string)
    ensures FreightOf(items + [it], id) == FreightOf(items, id) + (if it.orderId == id then it.freightValue else 0.0)
  {
    assert (items + [it])[..|items|] == items;
  }

  lemma HasItemsSnoc(items: seq<Item>, it: Item, id: string)
    ensures HasItems(items + [it], id) <==> HasItems(items, id) || it.orderId == id
  {
    var items' := items + [it];
    if HasItems(items, id) {
      var k :| 0 <= k < |items| && items[k].orderId == id;
      assert items'[k] == items[k];
    }
    if HasItems(items', id) && !HasItems(items, id) {
      var k :| 0 <= k < |items'| && items'[k].orderId == id;
      if k < |items| {
        assert items[k] == items'[k];
      }
    }
    assert items'[|items|] == it;
  }

  lemma AddItemKeepsUnique(agg: seq<OrderFreight>, it: Item)
    requires UniqueKeys(agg, FreightKey)
    ensures UniqueKeys(AddItem(agg, it), FreightKey)
  {
    var at := AddItemShape(agg, it);
  }

  lemma AddItemKeepsTotals(agg: seq<OrderFreight>, items: seq<Item>, it: Item)
    requires GroupedBy(agg, items)
    ensures forall i :: 0 <= i < |AddItem(agg, it)| ==>
      HasItems(items + [it], AddItem(agg, it)[i].orderId)
      && AddItem(agg, it)[i].freightValue == FreightOf(items + [it], AddItem(agg, it)[i].orderId)
  {
    var agg' := AddItem(agg, it);
    var at := AddItemShape(agg, it);
    if at == |agg| {
      FreightOfAbsent(items, it.orderId);
    }
    forall i | 0 <= i < |agg'|
      ensures HasItems(items + [it], agg'[i].orderId)
      ensures agg'[i].freightValue == FreightOf(items + [it], agg'[i].orderId)
    {
      HasItemsSnoc(items, it, agg'[i].orderId);
      FreightOfSnoc(items, it, agg'[i].orderId);
    }
  }

  lemma AddItemFindsEveryItem(agg: seq<OrderFreight>, items: seq<Item>, it: Item)
    requires forall k :: 0 <= k < |items| ==> IndexOfOrder(agg, items[k].orderId).Some?
    ensures forall k :: 0 <= k < |items + [it]| ==> IndexOfOrder(AddItem(agg, it), (items + [it])[k].orderId).Some?
  {
    var agg' := AddItem(agg, it);
    var items' := items + [it];
    var at := AddItemShape(agg, it);
    forall k | 0 <= k < |items'|
      ensures IndexOfOrder(agg', items'[k].orderId).Some?
    {
      if k < |items| {
        var j := IndexOfOrder(agg, items[k].orderId).value;
        assert agg'[j].orderId == items'[k].orderId;
      } else {
        assert agg'[at].orderId == items'[k].orderId;
      }
    }
  }

  /** Folding in one more item keeps `agg` the grouping of the items seen so far. */
  lemma AddItemKeepsGrouping(agg: seq<OrderFreight>, items: seq<Item>)
    requires |items| > 0
    requires GroupedBy(agg, items[..|items| - 1])
    ensures GroupedBy(AddItem(agg, items[|items| - 1]), items)
  {
    var init, it := items[..|items| - 1], items[|items| - 1];
    AddItemKeepsUnique(agg, it);
    AddItemKeepsTotals(agg, init, it);
    AddItemFindsEveryItem(agg, init, it);
    assert init + [it] == items;
  }

  /** `items.groupby("order_id", as_index=False).agg({"freight_value": "sum"})`:
      one row per order that has items, holding that order's total freight. */
  function GroupFreight(items: seq<Item>): (agg: seq<OrderFreight>)
    ensures GroupedBy(agg, items)
  {
    if |items| == 0 then []
    else
      var n := |items| - 1;
      var agg := GroupFreight(items[..n]);
      AddItemKeepsGrouping(agg, items);
      AddItem(agg, items[n])
  }

  function FreightColumn(agg: seq<OrderFreight>): (c: seq<real>)
    ensures |c| == |agg| && forall i :: 0 <= i < |agg| ==> c[i] == agg[i].freightValue
  {
    seq(|agg|, i requires 0 <= i < |agg| => agg[i].freightValue)
  }

  function ItemFreights(items: seq<Item>): (c: seq<real>)
    ensures |c| == |items| && forall i :: 0 <= i < |items| ==> c[i] == items[i].freightValue
  {
    seq(|items|, i requires 0 <= i < |items| => items[i].freightValue)
  }

  /** Grouping neither loses nor invents freight: the totals agree. */
  lemma {:induction false} GroupFreightKeepsTotal(items: seq<Item>)
    ensures Sum(FreightColumn(GroupFreight(items))) == Sum(ItemFreights(items))
  {
    if |items| > 0 {
      var n := |items| - 1;
      var init := items[..n];
      var agg := GroupFreight(init);
      var it := items[n];
      GroupFreightKeepsTotal(init);
      ItemFreightsSum(items);
      assert GroupFreight(items) == AddItem(agg, it);
      AddItemTotal(agg, it);
    }
  }

  lemma ItemFreightsSum(items: seq<Item>)
    requires |items| > 0
    ensures Sum(ItemFreights(items)) == Sum(ItemFreights(items[..|items| - 1])) + items[|items| - 1].freightValue
  {
    var n := |items| - 1;
    assert ItemFreights(items) == ItemFreights(items[..n]) + [items[n].freightValue];
    SumAppend(ItemFreights(items[..n]), [items[n].freightValue]);
  }

  lemma AddItemTotal(agg: seq<OrderFreight>, it: Item)
    ensures Sum(FreightColumn(AddItem(agg, it))) == Sum(FreightColumn(agg)) + it.freightValue
  {
    match IndexOfOrder(agg, it.orderId)
    case Some(i) =>
      var v := agg[i].freightValue + it.freightValue;
      assert FreightColumn(AddItem(agg, it)) == FreightColumn(agg)[i := v];
      SumUpdate(FreightColumn(agg), i, v);
    case None =>
      assert FreightColumn(AddItem(agg, it)) == FreightColumn(agg) + [it.freightValue];
      SumAppend(FreightColumn(agg), [it.freightValue]);
  }

  // ------------------------------------------------------------- the joins

  function OrderKey(r: OrderRow): string
  {
    r.order.orderId
  }

  function ReviewKey(r: Review): string
  {
    r.orderId
  }

  function ReviewedKey(p: (OrderRow, Option<Review>)): string
  {
    p.0.order.orderId
  }

  function Flatten(p: ((OrderRow, Option<Review>), Option<OrderFreight>)): JoinedRow
  {
    JoinedRow(
      p.0.0,
      if p.0.1.Some? then Some(p.0.1.value.reviewScore) else None,
      if p.1.Some? then Some(p.1.value.freightValue) else None)
  }

  /** `orders.merge(reviews, on="order_id", how="left")`. */
  function WithReviews(rows: seq<OrderRow>, reviews: seq<Review>): (j: seq<(OrderRow, Option<Review>)>)
    ensures |j| >= |rows|
    ensures forall i :: 0 <= i < |j| && j[i].1.Some? ==> j[i].1.value in reviews && j[i].1.value.orderId == j[i].0.order.orderId
  {
    LeftJoin(rows, OrderKey, reviews, ReviewKey)
  }

  /** `....merge(items_agg, on="order_id", how="left")`, as the joined table `df`. */
  function Merge(rows: seq<OrderRow>, reviews: seq<Review>, agg: seq<OrderFreight>): (df: seq<JoinedRow>)
    ensures |df| >= |rows|
  {
    var step := LeftJoin(WithReviews(rows, reviews), ReviewedKey, agg, FreightKey);
    seq(|step|, i requires 0 <= i < |step| => Flatten(step[i]))
  }

  /** Where a row of `df` gets its review score and freight from: a review and
      a freight row of the same order, or none exists when the value is missing. */
  lemma MergeRowSources(rows: seq<OrderRow>, reviews: seq<Review>, agg: seq<OrderFreight>, p: nat)
    requires p < |Merge(rows, reviews, agg)|
    ensures var row := Merge(rows, reviews, agg)[p];
      (row.reviewScore.Some? ==>
        exists r :: r in reviews && r.orderId == row.order.order.orderId && r.reviewScore == row.reviewScore.value)
      && (row.reviewScore.None? ==> forall r :: r in reviews ==> r.orderId != row.order.order.orderId)
      && (row.freightValue.Some? ==>
        exists f :: f in agg && f.orderId == row.order.order.orderId && f.freightValue == row.freightValue.value)
      && (row.freightValue.None? ==> forall f :: f in agg ==> f.orderId != row.order.order.orderId)
  {
    var first := WithReviews(rows, reviews);
    var pair := LeftJoin(first, ReviewedKey, agg, FreightKey)[p];
    assert Merge(rows, reviews, agg)[p] == Flatten(pair);
    LeftJoinRowsFromLeft(first, ReviewedKey, agg, FreightKey);
    ReviewSource(rows, reviews, pair.0);
    FreightSource(agg, pair);
  }

  lemma ReviewSource(rows: seq<OrderRow>, reviews: seq<Review>, x: (OrderRow, Option<Review>))
    requires x in WithReviews(rows, reviews)
    ensures x.1.Some? ==> x.1.value in reviews && x.1.value.orderId == x.0.order.orderId
    ensures x.1.None? ==> forall r :: r in reviews ==> r.orderId != x.0.order.orderId
  {
    var first := WithReviews(rows, reviews);
    var q :| 0 <= q < |first| && first[q] == x;
    if x.1.None? {
      forall r | r in reviews ensures r.orderId != x.0.order.orderId {
      }
    }
  }

  lemma FreightSource(agg: seq<OrderFreight>, pair: ((OrderRow, Option<Review>), Option<OrderFreight>))
    requires pair.1.None? ==> |Matches(agg, FreightKey, ReviewedKey(pair.0))| == 0
    ensures pair.1.None? ==> forall f :: f in agg ==> f.orderId != pair.0.0.order.orderId
  {
    if pair.1.None? {
      forall f | f in agg ensures f.orderId != pair.0.0.order.orderId {
      }
    }
  }

  /** The number of rows of `df` that belong to order `k`. */
  function RowsOfOrder(df: seq<JoinedRow>, k: string): nat
  {
    if |df| == 0 then 0
    else RowsOfOrder(df[..|df| - 1], k) + (if df[|df| - 1].order.order.orderId == k then 1 else 0)
  }

  lemma {:induction false} RowsOfOrderMatchesJoin(df: seq<JoinedRow>, j: seq<(OrderRow, Option<Review>)>, k: string)
    requires |df| == |j|
    requires forall i :: 0 <= i < |df| ==> df[i].order == j[i].0
    ensures RowsOfOrder(df, k) == JoinedKeyCount(j, OrderKey, k)
  {
    if |df| > 0 {
      var n := |df| - 1;
      RowsOfOrderMatchesJoin(df[..n], j[..n], k);
    }
  }

  /** Joining onto unique freight rows keeps the rows of the review join one for one. */
  lemma MergeFollowsReviewJoin(rows: seq<OrderRow>, reviews: seq<Review>, agg: seq<OrderFreight>)
    requires UniqueKeys(agg, FreightKey)
    ensures |Merge(rows, reviews, agg)| == |WithReviews(rows, reviews)|
    ensures forall i :: 0 <= i < |Merge(rows, reviews, agg)| ==>
      Merge(rows, reviews, agg)[i].order == WithReviews(rows, reviews)[i].0
    ensures forall i :: 0 <= i < |Merge(rows, reviews, agg)| ==>
      Merge(rows, reviews, agg)[i].reviewScore ==
        (if WithReviews(rows, reviews)[i].1.Some? then Some(WithReviews(rows, reviews)[i].1.value.reviewScore) else None)
  {
    LeftJoinUnique(WithReviews(rows, reviews), ReviewedKey, agg, FreightKey);
  }

  /** Each order of `orders` keeps all its rows in `df`: once when it has no
      review, once per review otherwise. */
  lemma MergeRowsPerOrder(rows: seq<OrderRow>, reviews: seq<Review>, agg: seq<OrderFreight>, k: string)
    requires UniqueKeys(agg, FreightKey)
    ensures RowsOfOrder(Merge(rows, reviews, agg), k)
         == KeyCount(rows, OrderKey, k) * (if |Matches(reviews, ReviewKey, k)| == 0 then 1 else |Matches(reviews, ReviewKey, k)|)
  {
    MergeFollowsReviewJoin(rows, reviews, agg);
    RowsOfOrderMatchesJoin(Merge(rows, reviews, agg), WithReviews(rows, reviews), k);
    LeftJoinKeyCount(rows, OrderKey, reviews, ReviewKey, k);
  }

  /** No order is dropped by the joins. */
  lemma MergeKeepsEveryOrder(rows: seq<OrderRow>, reviews: seq<Review>, agg: seq<OrderFreight>, i: nat)
    requires UniqueKeys(agg, FreightKey)
    requires i < |rows|
    ensures exists p :: 0 <= p < |Merge(rows, reviews, agg)| && Merge(rows, reviews, agg)[p].order == rows[i]
  {
    MergeFollowsReviewJoin(rows, reviews, agg);
    LeftJoinKeepsLeftRows(rows, OrderKey, reviews, ReviewKey, i);
  }

  /** The whole joined table `df` built from the three input tables. */
  function JoinedTable(orders: seq<Order>, reviews: seq<Review>, items: seq<Item>): (df: seq<JoinedRow>)
    ensures |df| >= |orders|
  {
    Merge(OrderRows(orders), reviews, GroupFreight(items))
  }

  /** In `df`, an order's freight is the total of its items, or missing when it has none. */
  lemma JoinedFreightIsItemTotal(orders: seq<Order>, reviews: seq<Review>, items: seq<Item>, p: nat)
    requires p < |JoinedTable(orders, reviews, items)|
    ensures JoinedTable(orders, reviews, items)[p].freightValue ==
      (var id := JoinedTable(orders, reviews, items)[p].order.order.orderId;
       if HasItems(items, id) then Some(FreightOf(items, id)) else None)
  {
    var df := JoinedTable(orders, reviews, items);
    var agg := GroupFreight(items);
    var id := df[p].order.order.orderId;
    MergeRowSources(OrderRows(orders), reviews, agg, p);
    assert HasItems(items, id) ==> df[p].freightValue.Some? by {
      if HasItems(items, id) {
        var k :| 0 <= k < |items| && items[k].orderId == id;
        var i := IndexOfOrder(agg, id).value;
        assert agg[i] in agg;
      }
    }
    if df[p].freightValue.Some? {
      var f :| f in agg && f.orderId == id && f.freightValue == df[p].freightValue.value;
      var j :| 0 <= j < |agg| && agg[j] == f;
    }
  }

  // ------------------------------------------------------------- binning

  /** The column `wait_time` of `df`, as numbers. */
  function WaitValues(df: seq<JoinedRow>): (c: seq<Option<real>>)
    ensures |c| == |df|
    ensures forall i :: 0 <= i < |df| ==>
      c[i] == if df[i].order.waitTime.Some? then Some(df[i].order.waitTime.value as real) else None
  {
    seq(|df|, i requires 0 <= i < |df| =>
      if df[i].order.waitTime.Some? then Some(df[i].order.waitTime.value as real) else None)
  }

  function FreightValues(df: seq<JoinedRow>): (c: seq<Option<real>>)
    ensures |c| == |df| && forall i :: 0 <= i < |df| ==> c[i] == df[i].freightValue
  {
    seq(|df|, i requires 0 <= i < |df| => df[i].freightValue)
  }

  function ReviewColumn(df: seq<JoinedRow>): (c: seq<Option<real>>)
    ensures |c| == |df| && forall i :: 0 <= i < |df| ==> c[i] == df[i].reviewScore
  {
    seq(|df|, i requires 0 <= i < |df| => df[i].reviewScore)
  }

  lemma EdgesIncrease()
    ensures StrictlyIncreasing(WaitEdges) && StrictlyIncreasing(FreightEdges)
  {
  }

  /** A delivered order's wait falls in "0–5 days" exactly when it took at most
      5 whole days, and gets a bin at all exactly when it took at most 60. */
  lemma WaitBinOfDeliveredOrder(o: Order)
    requires o.purchase.Some? && o.delivered.Some?
    ensures
      var raw := WholeDays(o.purchase, o.delivered).value;
      var bin := BinOf(WaitEdges, Some(ClippedDays(o.purchase, o.delivered).value as real));
      (bin == Some(0) <==> raw <= 5) && (bin.Some? <==> raw <= 60)
  {
    EdgesIncrease();
    var raw := WholeDays(o.purchase, o.delivered).value;
    var w := ClippedDays(o.purchase, o.delivered).value as real;
    if raw <= 60 {
      BinOfCovers(WaitEdges, w);
    }
    assert InBin(WaitEdges, 0, w) <==> raw <= 5;
  }

  /** The joined table `df`, whose bin columns the preprocessing assigns in
      place. A bin column is `[]` until it is assigned. */
  class JoinedFrame {
    var rows: seq<JoinedRow>
    var waitBin: seq<Option<nat>>
    var freightBin: seq<Option<nat>>

    constructor (rows: seq<JoinedRow>)
      ensures this.rows == rows && waitBin == [] && freightBin == []
    {
      this.rows := rows;
      waitBin := [];
      freightBin := [];
    }

    /** `df["wait_bin"] = pd.cut(df["wait_time"], bins=[0, 5, 10, 20, 60], ...)` */
    method AssignWaitBin()
      modifies this
      ensures waitBin == BinColumn(WaitEdges, WaitValues(rows))
      ensures rows == old(rows) && freightBin == old(freightBin)
    {
      EdgesIncrease();
      waitBin := BinColumn(WaitEdges, WaitValues(rows));
    }

    /** `df["freight_bin"] = pd.cut(df["freight_value"], bins=[0, 10, 30, 100, 500], ...)` */
    method AssignFreightBin()
      modifies this
      ensures freightBin == BinColumn(FreightEdges, FreightValues(rows))
      ensures rows == old(rows) && waitBin == old(waitBin)
    {
      EdgesIncrease();
      freightBin := BinColumn(FreightEdges, FreightValues(rows));
    }
  }

  // ------------------------------------------------------------- summaries

  /** A row of `wait_summary` or `freight_summary`. */
  datatype BinSummary = BinSummary(category: string, reviewScore: Option<real>)

  /** `df.groupby(bin, as_index=False).agg({"review_score": "mean"})`, one row per label in label order. */
  function Summarise(labels: seq<string>, bins: seq<Option<nat>>, scores: seq<Option<real>>): (s: seq<BinSummary>)
    requires |bins| == |scores|
    ensures |s| == |labels|
    ensures forall b :: 0 <= b < |labels| ==>
      s[b].category == labels[b] && s[b].reviewScore == Mean(ScoresInBin(bins, scores, b))
  {
    var m := GroupMean(bins, scores, |labels|);
    seq(|labels|, b requires 0 <= b < |labels| => BinSummary(labels[b], m[b]))
  }

  /** `wait_summary`: one row per wait category, in category order. */
  function WaitSummary(df: seq<JoinedRow>): (s: seq<BinSummary>)
    ensures |s| == |WaitLabels|
    ensures forall b :: 0 <= b < |s| ==> s[b].category == WaitLabels[b]
  {
    Summarise(WaitLabels, BinColumn(WaitEdges, WaitValues(df)), ReviewColumn(df))
  }

  /** `freight_summary`: one row per freight category, in category order. */
  function FreightSummary(df: seq<JoinedRow>): (s: seq<BinSummary>)
    ensures |s| == |FreightLabels|
    ensures forall b :: 0 <= b < |s| ==> s[b].category == FreightLabels[b]
  {
    Summarise(FreightLabels, BinColumn(FreightEdges, FreightValues(df)), ReviewColumn(df))
  }

  /** Each wait bin's score is the mean of the present review scores of exactly
      the rows whose wait time lies in that bin's interval. */
  lemma WaitSummaryMeans(df: seq<JoinedRow>, b: nat)
    requires b < |WaitLabels|
    ensures WaitSummary(df)[b].category == WaitLabels[b]
    ensures WaitSummary(df)[b].reviewScore == Mean(ScoresInInterval(WaitEdges, WaitValues(df), ReviewColumn(df), b))
  {
    EdgesIncrease();
    BinnedRowsAreIntervalRows(WaitEdges, WaitValues(df), ReviewColumn(df), b);
  }

  /** Each freight bin's score is the mean of the present review scores of
      exactly the rows whose freight lies in that bin's interval. */
  lemma FreightSummaryMeans(df: seq<JoinedRow>, b: nat)
    requires b < |FreightLabels|
    ensures FreightSummary(df)[b].category == FreightLabels[b]
    ensures FreightSummary(df)[b].reviewScore == Mean(ScoresInInterval(FreightEdges, FreightValues(df), ReviewColumn(df), b))
  {
    EdgesIncrease();
    BinnedRowsAreIntervalRows(FreightEdges, FreightValues(df), ReviewColumn(df), b);
  }

  /** Review scores between 1 and 5 give per-bin means between 1 and 5. */
  lemma SummaryScoresInRange(df: seq<JoinedRow>)
    requires forall i :: 0 <= i < |df| && df[i].reviewScore.Some? ==> 1.0 <= df[i].reviewScore.value <= 5.0
    ensures forall b :: 0 <= b < |WaitSummary(df)| && WaitSummary(df)[b].reviewScore.Some? ==>
      1.0 <= WaitSummary(df)[b].reviewScore.value <= 5.0
    ensures forall b :: 0 <= b < |FreightSummary(df)| && FreightSummary(df)[b].reviewScore.Some? ==>
      1.0 <= FreightSummary(df)[b].reviewScore.value <= 5.0
  {
    EdgesIncrease();
    GroupMeanBounded(BinColumn(WaitEdges, WaitValues(df)), ReviewColumn(df), |WaitLabels|, 1.0, 5.0);
    GroupMeanBounded(BinColumn(FreightEdges, FreightValues(df)), ReviewColumn(df), |FreightLabels|, 1.0, 5.0);
  }

  // ------------------------------------------------------------- the script

  /** The module-level preprocessing, statement by statement, from the three
      loaded tables to the two summaries the charts draw. */
  method Preprocess(orders: seq<Order>, reviews: seq<Review>, items: seq<Item>)
    returns (waitSummary: seq<BinSummary>, freightSummary: seq<BinSummary>)
    ensures waitSummary == WaitSummary(JoinedTable(orders, reviews, items))
    ensures freightSummary == FreightSummary(JoinedTable(orders, reviews, items))
  {
    var frame := new OrdersFrame(orders);
    frame.AssignDelayVsExpected();
    frame.AssignWaitTime();
    var itemsAgg := GroupFreight(items);
    assert frame.Rows() == OrderRows(orders);
    var df := new JoinedFrame(Merge(frame.Rows(), reviews, itemsAgg));
    df.AssignWaitBin();
    df.AssignFreightBin();
    waitSummary := Summarise(WaitLabels, df.waitBin, ReviewColumn(df.rows));
    freightSummary := Summarise(FreightLabels, df.freightBin, ReviewColumn(df.rows));
  }
}
