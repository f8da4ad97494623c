/** The seller performance dashboard (app_merve.py): the callback
    `update_dashboard`, which filters the seller table by state and by the
    "bad sellers" check box, computes the KPI cards and selects the ten worst
    sellers. The table is read once and never changed; every view is a new
    sequence derived from it. */
module SellerDashboard {
  import opened Frame

  /** Dropdown value meaning "no state filter". */
  const AllStates: string := "ALL"
  /** Check-box value that restricts the view to bad sellers. */
  const BadFlag: string := "bad"
  /** A seller is bad when its review score is below this. */
  const BadThreshold: real := 4.0
  /** Rows shown in the worst-sellers table. */
  const WorstCount: nat := 10

  /** One row of the seller table. */
  datatype Seller = Seller(
    sellerId: string,
    sellerState: string,
    reviewScore: real,
    waitTime: real,
    sales: real,
    delayToCarrier: real,
    nOrders: int)

  predicate IsBad(r: Seller)
  {
    r.reviewScore < BadThreshold
  }

  /** `df[df["seller_state"] == state]`. */
  function InState(rows: seq<Seller>, state: string): (r: seq<Seller>)
    ensures forall i :: 0 <= i < |r| ==> r[i].sellerState == state
    ensures forall x :: x in r <==> x in rows && x.sellerState == state
  {
    Filter(rows, (x: Seller) => x.sellerState == state)
  }

  /** The state filter: the sentinel keeps a copy of every row, any other value
      keeps exactly the rows of that state. */
  function ByState(df: seq<Seller>, selectedState: string): (r: seq<Seller>)
    ensures selectedState == AllStates ==> r == df
    ensures selectedState != AllStates ==>
      (forall x :: multiset(r)[x] == if x.sellerState == selectedState then multiset(df)[x] else 0)
  {
    if selectedState == AllStates then df
    else
      FilterMultiset(df, (x: Seller) => x.sellerState == selectedState);
      InState(df, selectedState)
  }

  /** The bad-seller filter, applied when the check box holds "bad". */
  function ByBadFlag(rows: seq<Seller>, badFilter: seq<string>): (r: seq<Seller>)
    ensures BadFlag !in badFilter ==> r == rows
    ensures BadFlag in badFilter ==>
      (forall x :: multiset(r)[x] == if IsBad(x) then multiset(rows)[x] else 0)
  {
    if BadFlag in badFilter then
      FilterMultiset(rows, IsBad);
      Filter(rows, IsBad)
    else rows
  }

  /** Whether a row belongs to the view selected by the two controls. */
  predicate Selected(x: Seller, selectedState: string, badFilter: seq<string>)
  {
    (selectedState == AllStates || x.sellerState == selectedState) && (BadFlag in badFilter ==> IsBad(x))
  }

  /** The rows the callback works on after both filters: every selected row,
      as often as it occurs in the table, and nothing else. */
  function Filtered(df: seq<Seller>, selectedState: string, badFilter: seq<string>): (r: seq<Seller>)
    ensures forall x :: multiset(r)[x] == if Selected(x, selectedState, badFilter) then multiset(df)[x] else 0
    ensures forall i :: 0 <= i < |r| ==> Selected(r[i], selectedState, badFilter)
  {
    var rows := ByBadFlag(ByState(df, selectedState), badFilter);
    assert forall i :: 0 <= i < |rows| ==> multiset(rows)[rows[i]] > 0;
    rows
  }

  /** A state appears in no row: its view is empty. */
  lemma UnknownStateIsEmpty(df: seq<Seller>, selectedState: string, badFilter: seq<string>)
    requires selectedState != AllStates
    requires forall i :: 0 <= i < |df| ==> df[i].sellerState != selectedState
    ensures Filtered(df, selectedState, badFilter) == []
  {
    FilterKeepsNone(df, (x: Seller) => x.sellerState == selectedState);
  }

  /** With the sentinel and the check box clear, the view is the whole table, in order. */
  lemma AllStatesKeepsTable(df: seq<Seller>, badFilter: seq<string>)
    requires BadFlag !in badFilter
    ensures Filtered(df, AllStates, badFilter) == df
  {
  }

  /** The state filter keeps table order: filtering a concatenation filters each part. */
  lemma InStateKeepsOrder(a: seq<Seller>, b: seq<Seller>, state: string)
    ensures InState(a + b, state) == InState(a, state) + InState(b, state)
  {
    FilterAppend(a, b, (x: Seller) => x.sellerState == state);
  }

  /** Number of rows of one state, counted one table row at a time. */
  function RowsOfState(rows: seq<Seller>, state: string): nat
  {
    if |rows| == 0 then 0
    else RowsOfState(rows[..|rows| - 1], state) + (if rows[|rows| - 1].sellerState == state then 1 else 0)
  }

  /** The seller count for a state equals the number of table rows of that state. */
  lemma {:induction false} StateCount(df: seq<Seller>, state: string)
    requires state != AllStates
    ensures |Filtered(df, state, [])| == RowsOfState(df, state)
  {
    if |df| > 0 {
      StateCount(df[..|df| - 1], state);
    }
  }

  /** Sum, over a list of states, of the multisets of their views. */
  function ViewsOfStates(df: seq<Seller>, states: seq<string>): multiset<Seller>
  {
    if |states| == 0 then multiset{}
    else ViewsOfStates(df, states[..|states| - 1]) + multiset(InState(df, states[|states| - 1]))
  }

  /** Filtering by each state of a list of distinct states that covers every
      row's state (the dropdown's options) gives back every row exactly once. */
  lemma StatesPartitionTable(df: seq<Seller>, states: seq<string>)
    requires forall i, j :: 0 <= i < j < |states| ==> states[i] != states[j]
    requires forall k :: 0 <= k < |df| ==> df[k].sellerState in states
    ensures ViewsOfStates(df, states) == multiset(df)
  {
    ViewsOfStatesCount(df, states);
    forall x ensures ViewsOfStates(df, states)[x] == multiset(df)[x] {
      if multiset(df)[x] > 0 {
        assert x in df;
      }
    }
  }

  lemma {:induction false} ViewsOfStatesCount(df: seq<Seller>, states: seq<string>)
    requires forall i, j :: 0 <= i < j < |states| ==> states[i] != states[j]
    ensures forall x :: ViewsOfStates(df, states)[x] == if x.sellerState in states then multiset(df)[x] else 0
  {
    if |states| > 0 {
      var init := states[..|states| - 1];
      var last := states[|states| - 1];
      ViewsOfStatesCount(df, init);
      FilterMultiset(df, (x: Seller) => x.sellerState == last);
      assert states == init + [last];
      assert last !in init;
    }
  }

  /** The KPI cards, unrounded; `None` where the library would show NaN. */
  datatype Kpis = Kpis(avgReview: Option<real>, avgWait: Option<real>, sellerCount: nat, badRatio: Option<real>)

  function ReviewScores(rows: seq<Seller>): (c: seq<real>)
    ensures |c| == |rows| && forall i :: 0 <= i < |rows| ==> c[i] == rows[i].reviewScore
  {
    seq(|rows|, i requires 0 <= i < |rows| => rows[i].reviewScore)
  }

  function WaitTimes(rows: seq<Seller>): (c: seq<real>)
    ensures |c| == |rows| && forall i :: 0 <= i < |rows| ==> c[i] == rows[i].waitTime
  {
    seq(|rows|, i requires 0 <= i < |rows| => rows[i].waitTime)
  }

  /** The boolean column `review_score < 4`, as the numbers 1 and 0 that its mean averages. */
  function BadMask(rows: seq<Seller>): (c: seq<real>)
    ensures |c| == |rows| && forall i :: 0 <= i < |rows| ==> c[i] == if IsBad(rows[i]) then 1.0 else 0.0
  {
    seq(|rows|, i requires 0 <= i < |rows| => if IsBad(rows[i]) then 1.0 else 0.0)
  }

  function ComputeKpis(rows: seq<Seller>): (k: Kpis)
    ensures k.sellerCount == |rows|
    ensures k.avgReview == Mean(ReviewScores(rows))
    ensures k.avgWait == Mean(WaitTimes(rows))
    ensures k.avgReview.Some? <==> |rows| > 0
    ensures k.avgWait.Some? <==> |rows| > 0
    ensures k.badRatio.Some? <==> |rows| > 0
  {
    var ratio := Mean(BadMask(rows));
    Kpis(
      Mean(ReviewScores(rows)),
      Mean(WaitTimes(rows)),
      |rows|,
      if ratio.Some? then Some(ratio.value * 100.0) else None)
  }

  lemma {:induction false} BadMaskSum(rows: seq<Seller>)
    ensures Sum(BadMask(rows)) == CountWhere(rows, IsBad) as real
  {
    if |rows| > 0 {
      var init := rows[..|rows| - 1];
      BadMaskSum(init);
      assert BadMask(rows) == BadMask(init) + [BadMask(rows)[|rows| - 1]];
      SumAppend(BadMask(init), [BadMask(rows)[|rows| - 1]]);
      assert [BadMask(rows)[|rows| - 1]][..0] == [];
    }
  }

  /** The bad-seller percentage is 100 times the share of bad rows, so it lies in [0, 100]. */
  lemma BadRatioIsShare(rows: seq<Seller>)
    requires |rows| > 0
    ensures ComputeKpis(rows).badRatio == Some((CountWhere(rows, IsBad) as real) / (|rows| as real) * 100.0)
    ensures 0.0 <= ComputeKpis(rows).badRatio.value <= 100.0
  {
    var mask := BadMask(rows);
    BadMaskSum(rows);
    MeanBounds(mask, 0.0, 1.0);
    assert Mean(mask).value == Sum(mask) / (|rows| as real);
  }

  lemma MeanOfAllOnes(xs: seq<real>)
    requires |xs| > 0
    requires Sum(xs) == |xs| as real
    ensures Mean(xs) == Some(1.0)
  {
    var n := |xs| as real;
    assert n / n == 1.0;
  }

  /** A non-empty view of bad rows only has a bad-seller percentage of 100. */
  lemma AllBadGivesFullRatio(rows: seq<Seller>)
    requires |rows| > 0
    requires forall i :: 0 <= i < |rows| ==> IsBad(rows[i])
    ensures ComputeKpis(rows).badRatio == Some(100.0)
  {
    FilterKeepsAll(rows, IsBad);
    BadMaskSum(rows);
    MeanOfAllOnes(BadMask(rows));
  }

  /** With the check box on, every remaining row is bad, so the percentage reads 100. */
  lemma BadFlagGivesFullRatio(df: seq<Seller>, selectedState: string, badFilter: seq<string>)
    requires BadFlag in badFilter
    requires |Filtered(df, selectedState, badFilter)| > 0
    ensures ComputeKpis(Filtered(df, selectedState, badFilter)).badRatio == Some(100.0)
  {
    AllBadGivesFullRatio(Filtered(df, selectedState, badFilter));
  }

  /** The average wait of a non-empty view lies between its shortest and longest wait. */
  lemma AvgWaitWithinWaits(rows: seq<Seller>)
    requires |rows| > 0
    ensures Minimum(WaitTimes(rows)) <= ComputeKpis(rows).avgWait.value <= Maximum(WaitTimes(rows))
  {
    MeanWithinExtremes(WaitTimes(rows));
  }

  /** The average review of a non-empty view lies between its lowest and highest score. */
  lemma AvgReviewWithinScores(rows: seq<Seller>)
    requires |rows| > 0
    ensures Minimum(ReviewScores(rows)) <= ComputeKpis(rows).avgReview.value <= Maximum(ReviewScores(rows))
  {
    MeanWithinExtremes(ReviewScores(rows));
  }

  predicate SortedByReview(s: seq<Seller>)
  {
    forall i, j :: 0 <= i < j < |s| ==> s[i].reviewScore <= s[j].reviewScore
  }

  function InsertByReview(x: Seller, s: seq<Seller>): (r: seq<Seller>)
    requires SortedByReview(s)
    ensures SortedByReview(r)
    ensures |r| == |s| + 1
    ensures multiset(r) == multiset(s) + multiset{x}
  {
    if |s| == 0 then [x]
    else if x.reviewScore <= s[0].reviewScore then [x] + s
    else
      var rest := InsertByReview(x, s[1..]);
      assert s == [s[0]] + s[1..];
      LowerBoundKept(rest, s[1..], x, s[0].reviewScore);
      [s[0]] + rest
  }

  /** A bound below every row of `t` and below `x` stays below every row of a
      sequence holding exactly the rows of `t` and `x`. */
  lemma LowerBoundKept(r: seq<Seller>, t: seq<Seller>, x: Seller, bound: real)
    requires multiset(r) == multiset(t) + multiset{x}
    requires forall j :: 0 <= j < |t| ==> bound <= t[j].reviewScore
    requires bound <= x.reviewScore
    ensures forall j :: 0 <= j < |r| ==> bound <= r[j].reviewScore
  {
    forall j | 0 <= j < |r|
      ensures bound <= r[j].reviewScore
    {
      assert r[j] in multiset(r);
      if r[j] != x {
        assert r[j] in multiset(t);
        assert r[j] in t;
      }
    }
  }

  /** `sort_values("review_score")`, ascending; tie order is not modelled. */
  function SortByReview(s: seq<Seller>): (r: seq<Seller>)
    ensures SortedByReview(r)
    ensures |r| == |s|
    ensures multiset(r) == multiset(s)
  {
    if |s| == 0 then []
    else
      assert s == [s[0]] + s[1..];
      InsertByReview(s[0], SortByReview(s[1..]))
  }

  function MinNat(a: nat, b: nat): nat
  {
    if a <= b then a else b
  }

  /** The worst-sellers table: bad rows of the view, ascending by review, first ten. */
  function WorstSellers(rows: seq<Seller>): (w: seq<Seller>)
    ensures |w| == MinNat(WorstCount, CountWhere(rows, IsBad))
    ensures forall i :: 0 <= i < |w| ==> IsBad(w[i])
    ensures SortedByReview(w)
    ensures multiset(w) <= multiset(Filter(rows, IsBad))
    ensures forall x, i :: x in multiset(Filter(rows, IsBad)) - multiset(w) && 0 <= i < |w| ==>
      w[i].reviewScore <= x.reviewScore
  {
    var bad := Filter(rows, IsBad);
    var sorted := SortByReview(bad);
    var k := MinNat(WorstCount, |bad|);
    SortedBadPrefix(bad, sorted, k);
    sorted[..k]
  }

  /** The first `k` rows of a sorting of bad rows are bad, ascending, and the
      `k` lowest-scored of them. */
  lemma SortedBadPrefix(bad: seq<Seller>, sorted: seq<Seller>, k: nat)
    requires forall i :: 0 <= i < |bad| ==> IsBad(bad[i])
    requires SortedByReview(sorted) && multiset(sorted) == multiset(bad)
    requires |sorted| == |bad| && k <= |bad|
    ensures |sorted[..k]| == k
    ensures forall i :: 0 <= i < k ==> IsBad(sorted[..k][i])
    ensures SortedByReview(sorted[..k])
    ensures multiset(sorted[..k]) <= multiset(bad)
    ensures forall x, i :: x in multiset(bad) - multiset(sorted[..k]) && 0 <= i < k ==>
      sorted[..k][i].reviewScore <= x.reviewScore
  {
    forall i | 0 <= i < k
      ensures IsBad(sorted[..k][i])
    {
      assert sorted[i] in multiset(bad);
    }
    SortedPrefixIsSmallest(sorted, k);
  }

  /** The first `k` rows of a sorted sequence are its `k` lowest-scored rows. */
  lemma SortedPrefixIsSmallest(s: seq<Seller>, k: nat)
    requires SortedByReview(s)
    requires k <= |s|
    ensures multiset(s[..k]) <= multiset(s)
    ensures forall x, i :: x in multiset(s) - multiset(s[..k]) && 0 <= i < k ==>
      s[..k][i].reviewScore <= x.reviewScore
  {
    var pre, post := s[..k], s[k..];
    assert s == pre + post;
    assert multiset(s) - multiset(pre) == multiset(post);
    forall x, i | x in multiset(s) - multiset(pre) && 0 <= i < k
      ensures pre[i].reviewScore <= x.reviewScore
    {
      assert x in post;
      var j :| 0 <= j < |post| && post[j] == x;
      assert pre[i] == s[i] && post[j] == s[k + j];
    }
  }

  /** Every worst-seller row is a row of the view, and none is listed more often than it occurs there. */
  lemma WorstSellersFromView(rows: seq<Seller>)
    ensures multiset(WorstSellers(rows)) <= multiset(rows)
  {
    FilterMultiset(rows, IsBad);
  }

  /** What the callback hands to the page: the KPI cards, the rows behind the
      three charts, and the records of the worst-sellers table. */
  datatype View = View(kpis: Kpis, chartRows: seq<Seller>, worstSellers: seq<Seller>)

  function UpdateDashboard(df: seq<Seller>, selectedState: string, badFilter: seq<string>): (v: View)
    ensures v.chartRows == Filtered(df, selectedState, badFilter)
    ensures v.kpis == ComputeKpis(v.chartRows)
    ensures v.worstSellers == WorstSellers(v.chartRows)
    ensures v.kpis.sellerCount == |v.chartRows|
    ensures |v.worstSellers| == MinNat(WorstCount, CountWhere(v.chartRows, IsBad))
    ensures forall i :: 0 <= i < |v.worstSellers| ==> IsBad(v.worstSellers[i])
    ensures SortedByReview(v.worstSellers)
    ensures multiset(v.worstSellers) <= multiset(v.chartRows)
    ensures forall x, i :: x in multiset(Filter(v.chartRows, IsBad)) - multiset(v.worstSellers) && 0 <= i < |v.worstSellers| ==>
      v.worstSellers[i].reviewScore <= x.reviewScore
  {
    var rows := Filtered(df, selectedState, badFilter);
    WorstSellersFromView(rows);
    View(ComputeKpis(rows), rows, WorstSellers(rows))
  }
}
