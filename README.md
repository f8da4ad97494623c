# Olist dashboards — a Dafny model of their table logic

The repository holds two small Dash dashboards over the Olist e-commerce data.
Most of each is layout and plotting. This project models the table
transformations behind the charts and proves properties about them.

- **Seller performance dashboard** (`app_merve.py`). Its callback
  `update_dashboard` filters the seller table by the state dropdown ("ALL"
  means no filter). It then optionally keeps only "bad" sellers, whose review
  score is below 4. From the filtered view it computes four KPI cards: average
  review, average wait, seller count and bad-seller percentage. It also selects
  the ten worst sellers: the bad rows, sorted ascending by review score, first
  ten. Module `SellerDashboard` (`sellers.dfy`) models this as pure functions
  over `seq<Seller>`, since the callback never changes the loaded table.
- **Delivery performance dashboard** (`app_zeynep.py`). Its start-up script
  runs these steps in order:
  - derives `delay_vs_expected` and `wait_time` on the orders table, as whole
    days clipped from below at 5;
  - sums item freight per order (`items_agg`);
  - left-joins reviews, then `items_agg`, onto the orders;
  - bins `wait_time` into `(0,5] (5,10] (10,20] (20,60]` and `freight_value`
    into `(0,10] (10,30] (30,100] (100,500]`, as `pd.cut` does;
  - averages the review score per bin.

  Module `DeliveryDashboard` (`delivery.dfy`) models this. The column
  assignments are methods of the classes `OrdersFrame` and `JoinedFrame`,
  which mutate their `seq` columns in place, as the script does. The group-by,
  the merges, the cut and the means are functions. `Preprocess` runs the steps
  in the script's order and is proved equal to the composed functions.

Three shared modules hold the library primitives:
- `Frame` (`frame.dfy`): boolean-mask filtering, sum, and a mean that is
  `None` on an empty column;
- `LeftJoins` (`left_join.dfy`): `merge(..., how="left")` on a string key;
- `Binning` (`binning.dfy`): `pd.cut` with fixed edges and a one-pass
  per-bin mean.

Conventions:
- Scores and freight are `real`: exact arithmetic stands in for floats.
- A NaN or NaT value is `None`.
- Timestamps are whole seconds since an epoch. `.dt.days` is the floor of
  the difference divided by 86400, which is what the library's day
  component gives for negative differences too.

Three facts about the code shape the contracts:
- `sort_values` does not use a stable sort by default, so the order of
  sellers with equal review scores in the worst-sellers table is not fixed.
  The model proves only that the result is sorted and is made of the
  lowest-scored bad rows.
- `pd.cut` excludes the lowest edge of its first interval, so a value of `0`
  gets no bin (`Binning.BinOfOutside`). For waits this cannot happen after the
  clip at 5. A zero freight gets no freight category.
- The "20+ days" label covers only waits of 21 to 60 days. Longer waits get no
  bin and drop out of the wait summary (`DeliveryDashboard.WaitBinOfDeliveredOrder`).

## Model

| member | source | states |
|---|---|---|
| Frame.Filter | app_merve.py:104 | the masked table keeps exactly the rows passing the mask, never grows, and every kept row passes |
| Frame.FilterMultiset | app_merve.py:104-107 | each passing row is kept as often as it occurs, each failing row never |
| Frame.FilterAppend | app_merve.py:104-107 | masking keeps table order: the mask of a concatenation is the concatenation of the masks |
| Frame.FilterKeepsAll | app_merve.py:113 | a mask every row passes returns the table unchanged |
| Frame.FilterKeepsNone | app_merve.py:104 | a mask no row passes returns the empty table |
| Frame.CountWhere | app_merve.py:113 | counts the rows passing a mask, at most the table size; that this count is what the mask's sum gives is `SellerDashboard.BadMaskSum` |
| Frame.SumAppend | app_zeynep.py:37 | a column sum splits over concatenation |
| Frame.SumUpdate | app_zeynep.py:37 | replacing one entry changes the sum by the difference |
| Frame.SumBounds | app_merve.py:110 | entries within [lo, hi] put the sum within [n·lo, n·hi] |
| Frame.Mean | app_merve.py:110-111 | the mean is defined exactly for a non-empty column, and n times the mean is the sum |
| Frame.MeanBounds | app_merve.py:110 | a mean of values in [lo, hi] lies in [lo, hi] |
| Frame.Minimum | app_merve.py:110 | the minimum is an entry and is at most every entry |
| Frame.Maximum | app_merve.py:110 | the maximum is an entry and is at least every entry |
| Frame.MeanWithinExtremes | app_merve.py:110 | the mean of a non-empty column lies between its minimum and maximum |
| SellerDashboard.ByState | app_merve.py:101-104 | "ALL" returns the table itself; any other state keeps exactly that state's rows, with their multiplicities |
| SellerDashboard.ByBadFlag | app_merve.py:106-107 | with "bad" checked only rows scoring below 4 remain, with their multiplicities; unchecked, the rows are unchanged |
| SellerDashboard.Filtered | app_merve.py:101-107 | the view holds every row selected by both controls, as often as it occurs in the table, and no other row |
| SellerDashboard.UnknownStateIsEmpty | app_merve.py:103-104 | a state that no row has gives an empty view |
| SellerDashboard.AllStatesKeepsTable | app_merve.py:101-102 | "ALL" with the check box clear gives the whole table in its order |
| SellerDashboard.InState | app_merve.py:104 | every kept row has the selected state, and a row is kept exactly when it is in the table with that state |
| SellerDashboard.InStateKeepsOrder | app_merve.py:104 | the state filter keeps table order |
| SellerDashboard.StateCount | app_merve.py:104-112 | the seller count for a state equals the number of table rows of that state |
| SellerDashboard.StatesPartitionTable | app_merve.py:35-104 | the views of all dropdown states together hold every table row exactly once |
| SellerDashboard.BadMask | app_merve.py:113 | the mask `review_score < 4` holds 1 for each bad row and 0 for each other row, in table order |
| SellerDashboard.ComputeKpis | app_merve.py:110-113 | the average review and average wait are the means of the view's review and wait columns, the seller count is the view's size, and the averages exist exactly when the view is non-empty |
| SellerDashboard.BadMaskSum | app_merve.py:113 | the sum of the `review_score < 4` mask is the number of bad rows |
| SellerDashboard.BadRatioIsShare | app_merve.py:113 | the bad-seller percentage is 100 times the share of bad rows and lies in [0, 100] |
| SellerDashboard.AllBadGivesFullRatio | app_merve.py:113 | a non-empty view of bad rows only reads 100 percent |
| SellerDashboard.BadFlagGivesFullRatio | app_merve.py:106-113 | with "bad" checked, a non-empty view reads 100 percent |
| SellerDashboard.AvgReviewWithinScores | app_merve.py:110 | the average review lies between the lowest and highest score of the view |
| SellerDashboard.AvgWaitWithinWaits | app_merve.py:111 | the average wait lies between the shortest and longest wait of the view |
| SellerDashboard.InsertByReview | app_merve.py:158 | inserting into an ascending sequence keeps it ascending and adds exactly that row |
| SellerDashboard.SortByReview | app_merve.py:158 | `sort_values("review_score")` is ascending and a permutation of its input |
| SellerDashboard.WorstSellers | app_merve.py:156-160 | the table has min(10, number of bad rows) rows, all bad, ascending, drawn from the bad rows without duplication, and none scores above a bad row left out |
| SellerDashboard.SortedBadPrefix | app_merve.py:157-159 | the first k rows of a sorting of the bad rows are bad, ascending, drawn from the bad rows, and the k lowest-scored of them |
| SellerDashboard.SortedPrefixIsSmallest | app_merve.py:158-159 | the first k rows of an ascending sequence score no higher than any row after them |
| SellerDashboard.WorstSellersFromView | app_merve.py:156-157 | every worst-seller row is a row of the view, listed no more often than it occurs there |
| SellerDashboard.UpdateDashboard | app_merve.py:99-168 | the charts show the filtered view; the KPIs are those of the view and the table is the worst sellers of the view: min(10, number of bad rows) bad rows, ascending, drawn from the view, none scoring above a bad row left out |
| LeftJoins.Matches | app_zeynep.py:45 | the matching right rows are exactly the right rows with the key |
| LeftJoins.JoinRow | app_zeynep.py:45 | one left row yields the row paired with each match in right-table order, or a single row with no right part when nothing matches |
| LeftJoins.LeftJoin | app_zeynep.py:45-46 | the join is at least as long as the left table; a present right part is a right row with the same key; a missing one means no right row has the key |
| LeftJoins.JoinedKeyCountAppend | app_zeynep.py:45-46 | row counts per key split over concatenation |
| LeftJoins.JoinedKeyCountConstant | app_zeynep.py:45 | the rows produced by one left row count only toward its own key |
| LeftJoins.MatchesMultiset | app_zeynep.py:45 | each right row is among the matches of its key as often as it occurs in the right table |
| LeftJoins.JoinRowMultiset | app_zeynep.py:45 | one left row yields each pairing with a right row of its key as often as that right row occurs, the unpaired row once when nothing matches, and nothing else |
| LeftJoins.LeftJoinPairCount | app_zeynep.py:45-46 | a left row and a right row of the same key occur together as often as the product of their multiplicities |
| LeftJoins.LeftJoinUnmatchedCount | app_zeynep.py:45-46 | a left row occurs unpaired once per occurrence exactly when no right row has its key, and never otherwise |
| LeftJoins.LeftJoinKeyCount | app_zeynep.py:45-46 | a key's output rows number its left rows times the number of its right rows, or times one when there are none |
| LeftJoins.LeftJoinKeepsLeftRows | app_zeynep.py:45-46 | every left row appears in the result |
| LeftJoins.LeftJoinRowsFromLeft | app_zeynep.py:45-46 | every output row carries a row of the left table |
| LeftJoins.UniqueKeysMatchAtMostOnce | app_zeynep.py:46 | a right table with distinct keys matches a key at most once |
| LeftJoins.LeftJoinUnique | app_zeynep.py:46 | joining onto distinct keys keeps the left rows one for one, each with a right part exactly when a match exists |
| Binning.FindBin | app_zeynep.py:50-60 | the scan returns an interval holding the value, and it is the only such interval from its start on |
| Binning.BinOf | app_zeynep.py:50-60 | a value gets bin i exactly when edge[i] < v <= edge[i+1]; a missing value gets none |
| Binning.BinColumn | app_zeynep.py:50-60 | `pd.cut` on a column bins each entry independently |
| Binning.FindBinCovers | app_zeynep.py:50-60 | a value above the first edge and at most the last finds a bin |
| Binning.BinOfCovers | app_zeynep.py:50-60 | every value in (edge[0], edge[last]] gets a bin |
| Binning.BinOfOutside | app_zeynep.py:50-60 | a missing value, or one at most the lowest edge or above the highest, gets no bin |
| Binning.BinOfMonotone | app_zeynep.py:50-60 | a larger value never gets an earlier bin |
| Binning.ScoresInBin | app_zeynep.py:62-72 | collects a bin's present scores, at most as many as the rows; that these are exactly the scores of the rows in the bin's interval is `Binning.BinnedRowsAreIntervalRows` |
| Binning.BinnedRowsAreIntervalRows | app_zeynep.py:50-72 | grouping by the binned column gathers exactly the rows whose value lies in that bin's interval |
| Binning.Accumulate | app_zeynep.py:62-72 | the one-pass totals hold, per bin, the sum and the count of the present scores of that bin's rows |
| Binning.GroupMean | app_zeynep.py:62-72 | each bin's mean is the mean of the present scores of its rows, missing when there are none |
| Binning.ScoresInBinBounded | app_zeynep.py:62-72 | a bin's scores lie within the bounds of all scores |
| Binning.GroupMeanBounded | app_zeynep.py:62-72 | scores within [lo, hi] give per-bin means within [lo, hi] |
| DeliveryDashboard.WholeDays | app_zeynep.py:24-32 | `.dt.days` is defined when both timestamps are, and is the floor of the difference in days |
| DeliveryDashboard.ClipLower | app_zeynep.py:27-32 | clipping keeps missing values missing, keeps values of at least 5, and raises smaller ones to 5 |
| DeliveryDashboard.ClipIdempotent | app_zeynep.py:27-32 | clipping twice is clipping once |
| DeliveryDashboard.ClippedDays | app_zeynep.py:24-32 | a derived day value is defined exactly when both dates are, and is then at least 5 |
| DeliveryDashboard.DelayColumn | app_zeynep.py:24-27 | `delay_vs_expected` is delivered minus estimated, in whole days, clipped |
| DeliveryDashboard.WaitColumn | app_zeynep.py:29-32 | `wait_time` is delivered minus purchased, in whole days, clipped |
| DeliveryDashboard.OrdersFrame.AssignDelayVsExpected | app_zeynep.py:24-27 | assigns the column, leaves the other columns alone, and every defined entry is at least 5 |
| DeliveryDashboard.OrdersFrame.AssignWaitTime | app_zeynep.py:29-32 | assigns the column, leaves the other columns alone, and every defined entry is at least 5 |
| DeliveryDashboard.OrdersFrame.Rows | app_zeynep.py:20-32 | the frame read row by row pairs each order with its two derived values |
| DeliveryDashboard.OrderRows | app_zeynep.py:20-32 | each order row carries its order and the two clipped day differences |
| DeliveryDashboard.FreightOfAbsent | app_zeynep.py:34-38 | an order without items has freight total 0 |
| DeliveryDashboard.IndexOfOrder | app_zeynep.py:34-38 | the lookup finds a row with the order id, or reports that none exists |
| DeliveryDashboard.AddItem | app_zeynep.py:34-38 | folding in an item keeps every existing row's order id in place, adds at most one row, and leaves a row for the item's order |
| DeliveryDashboard.AddItemShape | app_zeynep.py:34-38 | folding in an item changes only its order's row, which gains its freight, or appends a new row when the order had none |
| DeliveryDashboard.AddItemKeepsUnique | app_zeynep.py:34-38 | folding in an item keeps one row per order id |
| DeliveryDashboard.AddItemKeepsTotals | app_zeynep.py:34-38 | after folding in an item every row's order has items and the row holds their total freight |
| DeliveryDashboard.AddItemFindsEveryItem | app_zeynep.py:34-38 | after folding in an item every item seen so far has its order's row |
| DeliveryDashboard.FreightOfSnoc | app_zeynep.py:34-38 | one more item adds its freight to its own order's total only |
| DeliveryDashboard.HasItemsSnoc | app_zeynep.py:34-38 | one more item adds exactly its own order to the orders with items |
| DeliveryDashboard.AddItemKeepsGrouping | app_zeynep.py:34-38 | folding in one item keeps the per-order totals correct and one row per order |
| DeliveryDashboard.GroupFreight | app_zeynep.py:34-38 | `items_agg` has exactly one row per order id that occurs in the items, holding the sum of that order's item freights |
| DeliveryDashboard.GroupFreightKeepsTotal | app_zeynep.py:34-38 | the total freight of `items_agg` equals the total freight of the items |
| DeliveryDashboard.ItemFreightsSum | app_zeynep.py:37 | one more item adds its freight to the items' total |
| DeliveryDashboard.AddItemTotal | app_zeynep.py:37 | folding in one item adds its freight to the aggregated total |
| DeliveryDashboard.WithReviews | app_zeynep.py:45 | the review join is at least as long as the orders, and every attached review is a review of the same order |
| DeliveryDashboard.Merge | app_zeynep.py:43-47 | the joined table is at least as long as the orders table |
| DeliveryDashboard.JoinedTable | app_zeynep.py:43-47 | `df`, built from the three inputs, has at least one row per order |
| DeliveryDashboard.MergeRowSources | app_zeynep.py:43-47 | a present review score or freight comes from a review or freight row of the same order; a missing one means no such row exists |
| DeliveryDashboard.ReviewSource | app_zeynep.py:45 | a review attached by the first join belongs to the same order; a missing review means the order has none |
| DeliveryDashboard.FreightSource | app_zeynep.py:46 | an unmatched row of the second join has no freight row with its order id |
| DeliveryDashboard.RowsOfOrderMatchesJoin | app_zeynep.py:43-47 | counting a table's rows per order agrees with counting the join's rows per key |
| DeliveryDashboard.MergeFollowsReviewJoin | app_zeynep.py:46 | the freight join keeps the rows of the review join one for one, each with the score of the review attached there |
| DeliveryDashboard.MergeRowsPerOrder | app_zeynep.py:43-47 | an order appears once when it has no review, and once per review otherwise |
| DeliveryDashboard.MergeKeepsEveryOrder | app_zeynep.py:43-47 | no order is dropped by the joins |
| DeliveryDashboard.JoinedFreightIsItemTotal | app_zeynep.py:34-47 | a row's freight is its order's item total, or missing when the order has no items |
| DeliveryDashboard.EdgesIncrease | app_zeynep.py:52-58 | both edge lists are strictly increasing, as `pd.cut` requires |
| DeliveryDashboard.WaitBinOfDeliveredOrder | app_zeynep.py:27-54 | a delivered order falls in "0–5 days" exactly when its raw wait is at most 5 days, and gets a bin exactly when its raw wait is at most 60 days |
| DeliveryDashboard.WaitValues | app_zeynep.py:50-51 | the `wait_time` column of `df`, entry by entry, missing where the wait is missing |
| DeliveryDashboard.FreightValues | app_zeynep.py:56-57 | the `freight_value` column of `df`, entry by entry |
| DeliveryDashboard.ReviewColumn | app_zeynep.py:62-72 | the `review_score` column of `df`, entry by entry |
| DeliveryDashboard.JoinedFrame.AssignWaitBin | app_zeynep.py:50-54 | assigns `wait_bin` as the cut of `wait_time` and leaves the other columns alone |
| DeliveryDashboard.JoinedFrame.AssignFreightBin | app_zeynep.py:56-60 | assigns `freight_bin` as the cut of `freight_value` and leaves the other columns alone |
| DeliveryDashboard.Summarise | app_zeynep.py:62-72 | one summary row per label in label order, whose score is the mean of the present scores of that bin's rows |
| DeliveryDashboard.WaitSummary | app_zeynep.py:62-66 | `wait_summary` has one row per wait label, in label order |
| DeliveryDashboard.FreightSummary | app_zeynep.py:68-72 | `freight_summary` has one row per freight label, in label order |
| DeliveryDashboard.WaitSummaryMeans | app_zeynep.py:50-66 | each wait category's score is the mean review of exactly the rows whose wait lies in its interval |
| DeliveryDashboard.FreightSummaryMeans | app_zeynep.py:56-72 | each freight category's score is the mean review of exactly the rows whose freight lies in its interval |
| DeliveryDashboard.SummaryScoresInRange | app_zeynep.py:62-72 | review scores between 1 and 5 give per-category means between 1 and 5 |
| DeliveryDashboard.Preprocess | app_zeynep.py:20-72 | running the script's steps in order yields the two summaries of the joined table built from the three inputs |

## Left out

- Reading the CSV files (`app_merve.py:13`, `app_zeynep.py:13-15`): file I/O. The tables are parameters.
- Timestamp parsing with `pd.to_datetime` (`app_zeynep.py:20-22`): a foreign parser. Timestamps arrive as whole seconds or as missing; sub-second parts are not modelled.
- The Dash app, its layout, the callback decorator and `app.run` (`app_merve.py:8, 18-98, 173-174`; `app_zeynep.py:136-173`): UI and HTTP serving.
- The plotly figures (`app_merve.py:131-153`; `app_zeynep.py:83-130`): rendering only. The model keeps the rows the charts draw (`View.chartRows`, the two summaries).
- `round(..., 2)`, `round(..., 1)` and the KPI string formatting (`app_merve.py:110-113, 124-127`): floating-point rounding. The model keeps the exact means.
- NaN from the mean of an empty column is modelled as `None`, not as a float NaN.
- SellerDashboard.SortByReview: the order of equal review scores is not modelled, because `sort_values` does not promise a stable sort by default. The worst-sellers contract states sortedness, membership and minimality, not tie order.
- Summarise: it gives one row for every category, with `None` for an empty one. Whether pandas shows empty categories depends on the installed version's `observed` default. The model does not decide this.
- Summarise: the group keys are categorical, and pandas sorts categorical group keys in category order, which is the label order the model returns.
- GroupFreight: `items_agg` rows are in order of first appearance of each order id, not sorted by order id as `groupby` sorts string keys.
- `Review.reviewScore` and `Item.freightValue` are plain `real`. A missing review score or item freight, which the mean and the sum would skip, cannot be represented.
- Seller review scores and wait times are taken as present numbers. Missing values in the seller table, which the library's means would skip, are not modelled.
- Join keys are plain strings. A missing `order_id` and the library's special matching of missing keys are not modelled.
- Only the columns the logic reads are modelled. Other review and item columns carried through the joins are dropped.
