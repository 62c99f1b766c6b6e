# E-commerce dashboard: RFM and category summaries

This project is a Dafny model of the data path of the Streamlit sales dashboard
(`dashboard/dashboard.py`).

The dashboard works on a joined order dataset. Each row is one product line of one order. The data path has three steps:

- **Date filter.** `main_df` keeps the rows whose purchase timestamp lies between the two dates picked in the sidebar.
- **Two summaries of the filtered frame.**
  - `create_rfm_df` gives one Recency/Frequency/Monetary row per customer, sorted by frequency, largest first.
  - `create_bycategory_df` gives one row per product category: its product-line count and its revenue, sorted by revenue, largest first.
- **Seven selections.** Each chart draws five rows picked with `sort_values(...).head(5)`.

## Files

| File | Contents |
|---|---|
| `orders.dfy` (`Orders`) | The order line, whole-day arithmetic on timestamps, and price totals. |
| `ranking.dfy` (`Ranking`) | Sorting by a key in either direction (a permutation that is sorted), and taking the first `n` rows of such a sort. |
| `grouping.dfy` (`Grouping`) | `groupby(key).agg(...)` as a pass that builds a map from group key to accumulator. The pass also keeps the list of keys, which never holds a key twice. |
| `rfm.dfy` (`Rfm`) | The RFM summary. |
| `category.dfy` (`Category`) | The category summary. |
| `dashboard.dfy` (`Dashboard`) | The date filter, the two views built from it, and the seven selections. |
| `scenario.dfy` (`Scenario`) | A worked example with three lines, two customers and two categories. |

Each summary is defined twice:

- **As the source computes it:** a grouping pass, then the sort, then, for the RFM summary, the recency rewrite.
- **Per key, without grouping (the reference definition):**
  - The lines of one customer, or of one category, in input order.
  - The latest purchase among those lines, the set of their distinct order ids, and the sum of their prices.
  - The number of those lines that carry a product id.

The lemmas prove that the two definitions agree row by row. They also prove the per-view properties:

- one row per key;
- bounds on each column;
- the totals are conserved;
- the rows are ordered.

Representation:

- A timestamp is a whole number of seconds since the epoch.
- A date is a whole number of days since the epoch. `DayOf` is floor division by 86400, which matches `.dt.date` for naive timestamps.
- Prices are whole numbers in the smallest currency unit.
- `product_id_y` and `product_category_name_english` may be missing, so they are `Option`s. pandas' `count` and `groupby` skip missing values, and so does the model.

## Behaviour to note

- **End of the date range.** The filter compares timestamps with `str(start_date)` and `str(end_date)`. Each of these stands for midnight of its date. When the start date is before the end date, every purchase on the start date is kept. A purchase on the end date is kept only if it was made at exactly 00:00:00. This holds also when the range is one day, so a single-day range keeps only the purchases made at midnight. See `Dashboard.InRangeByDay`, `Dashboard.EndDateOnlyAtMidnight` and `Scenario.SampleRangeDropsEndDate`.
- **Start date after the end date.** `start_date > end_date` raises nothing; the filtered frame is simply empty (`Dashboard.InvertedRangeIsEmpty`).
- **Recency reference date.** Recency is measured from the latest purchase date of the frame that `create_rfm_df` is given. That frame is the filtered one, not the whole dataset (`Dashboard.RecencyAnchoredInRange`).
- **Rows without a category.** The category groupby drops them. There is no "unknown" bucket.
- **`total_order` may be 0.** It counts the non-missing product ids, so a category whose lines all lack a product id gets 0.
- **Ties.** Both summaries and all seven selections sort with pandas' default sort, which is not stable. The order of tied rows is therefore not fixed, and the model promises only sortedness and permutation.

## Model

| member | source | states |
|---|---|---|
| Orders.DayOfIsDayContaining | dashboard/dashboard.py:20-21 | `DayOf`, the model of `.dt.date`: the date of a timestamp is `d` exactly when the timestamp lies in `[Midnight(d), Midnight(d+1))`. |
| Orders.MidnightStartsItsDay | dashboard/dashboard.py:66-67 | `Midnight`, the timestamp a bare `str(date)` compares as: it lies on its own date and is the earliest timestamp of that date. |
| Orders.DayOfMonotone | dashboard/dashboard.py:20-22 | Taking the date preserves the order of timestamps. |
| Ranking.SortBy | dashboard/dashboard.py:16 | `sort_values` on one key, in either direction: the result is a permutation of the input (equal multisets) and is sorted by that key. |
| Ranking.Select | dashboard/dashboard.py:83 | `sort_values(...).head(n)`: the result has `min(n, len)` rows and is a sub-multiset of the input. It is sorted, and every row chosen comes no later in the order than every row left out. |
| Ranking.SumBySortBy | dashboard/dashboard.py:16 | Sorting does not change a column total. |
| Grouping.Put | dashboard/dashboard.py:12 | Storing a group's accumulator keeps the key list free of repeats and in step with the map, and updates exactly that key. |
| Grouping.Collect | dashboard/dashboard.py:12-15 | The groupby result has one row per group key, built from that key's accumulator, in key order. |
| Grouping.PutSum | dashboard/dashboard.py:15 | Updating one group changes a column total by exactly that group's change. |
| Rfm.LatestPurchase | dashboard/dashboard.py:13 | The `max` of a customer's timestamps is one of them and is at least every one of them. |
| Rfm.RecentDay | dashboard/dashboard.py:21 | The reference date is the date of some purchase in the frame, and no purchase in the frame has a later date. |
| Rfm.GroupByCustomer | dashboard/dashboard.py:12 | The grouping is well formed, and its keys are exactly the customers of the frame. |
| Rfm.GroupByCustomerSummarizes | dashboard/dashboard.py:12-15 | A customer's accumulator holds: the latest timestamp of that customer's lines, the set of their order ids, and the sum of their prices. |
| Rfm.AggregateSummarizes | dashboard/dashboard.py:12-15 | `Rfm.Aggregate`, the frame that `groupby(...).agg(...)` returns: no row occurs twice. Each row belongs to a customer of the frame, and its recency rewrite is that customer's reference row. |
| Rfm.RecencyInWholeDays | dashboard/dashboard.py:20-22 | `Rfm.ToRfm`, the rewrite of one row. It keeps customer, frequency and monetary. The recency it writes is the whole number of days from midnight of the last purchase date to midnight of the reference date. Recency is non-negative exactly when the last purchase was made before the end of the reference date. |
| Rfm.WithRecency | dashboard/dashboard.py:18-22 | The rewrite is applied to every row of the sorted frame: the number of rows and their order are kept, and row `i` becomes the rewrite of sorted row `i`. |
| Rfm.CreateRfm | dashboard/dashboard.py:16 | The RFM rows are ordered by frequency, largest first. |
| Rfm.RfmRowsAreExpected | dashboard/dashboard.py:11-24 | Every RFM row is the reference row of its customer: recency, in whole days, is the reference date minus the date of the customer's last purchase; frequency is the number of distinct order ids; monetary is the sum of prices. |
| Rfm.RfmOneRowPerCustomer | dashboard/dashboard.py:12 | There is exactly one row per customer of the frame, and no other rows. An empty frame gives an empty summary. |
| Rfm.OrderIdsBounds | dashboard/dashboard.py:14 | `nunique` of a non-empty list of lines is between 1 and the number of lines. |
| Rfm.RfmFrequencyBounds | dashboard/dashboard.py:14 | Every customer's frequency is at least 1 and at most that customer's number of lines. |
| Rfm.RfmRecencyNonNegative | dashboard/dashboard.py:20-22 | No recency is negative. |
| Rfm.LatestCustomerRecency | dashboard/dashboard.py:20-22 | The customer who made a purchase on the reference date has recency 0. |
| Rfm.RfmSomeRecencyZero | dashboard/dashboard.py:20-22 | Every non-empty frame gives some row with recency 0. |
| Rfm.RfmMonetaryConserved | dashboard/dashboard.py:15 | The monetary column sums to the total price of the frame. |
| Category.GroupByCategory | dashboard/dashboard.py:28 | The grouping is well formed, and its keys are exactly the categories present. Lines without a category are skipped. |
| Category.GroupByCategorySummarizes | dashboard/dashboard.py:28-30 | A category's accumulator holds the number of its lines that carry a product id and the sum of their prices. |
| Category.AggregateSummarizes | dashboard/dashboard.py:28-30 | `Category.Aggregate`, the frame that `groupby(...).agg(...)` returns: no row occurs twice. Each row belongs to a category present in the frame and is that category's reference row. |
| Category.CreateByCategory | dashboard/dashboard.py:31 | The category rows are ordered by revenue, largest first. |
| Category.ByCategoryRowsAreExpected | dashboard/dashboard.py:27-35 | Every category row is the reference row of its category: `total_order` is the count of its product ids, and `total_revenue` is the sum of its prices. |
| Category.ByCategoryOneRowPerCategory | dashboard/dashboard.py:28 | There is exactly one row per category present in the frame, and no other rows. |
| Category.ByCategoryRevenueConserved | dashboard/dashboard.py:30 | The revenue column sums to the total price of the lines that have a category. |
| Dashboard.FilterIsInRangeSubsequence | dashboard/dashboard.py:66-67 | `Dashboard.FilterByDate`, the mask that builds `main_df`: the filtered frame is the subsequence of the input, in input order, made of exactly the rows in range. |
| Dashboard.FilterMembers | dashboard/dashboard.py:66-67 | A row is in the filtered frame exactly when it is in the input and in range. |
| Dashboard.InRangeByDay | dashboard/dashboard.py:66-67 | `Dashboard.InRange`, the two comparisons of the mask: a timestamp is in range exactly when either its date is from the start date up to the day before the end date, or it is midnight of the end date and start ≤ end. |
| Dashboard.EndDateOnlyAtMidnight | dashboard/dashboard.py:67 | A purchase on the end date is kept only when it was made at 00:00:00. |
| Dashboard.InvertedRangeIsEmpty | dashboard/dashboard.py:66-67 | A start date after the end date gives an empty frame and no error. |
| Dashboard.NothingInRangeFiltersToEmpty | dashboard/dashboard.py:66-67 | A frame with no purchase in range filters to the empty frame. |
| Dashboard.BuildViewsKeys | dashboard/dashboard.py:66-70 | `Dashboard.BuildViews`, the filter followed by both summaries: the customers of the RFM view are exactly those with a purchase in range, and the categories of the category view are exactly those of some line in range. |
| Dashboard.EmptyRangeGivesEmptyViews | dashboard/dashboard.py:66-70 | A range without purchases gives two empty summaries. |
| Dashboard.RecencyAnchoredInRange | dashboard/dashboard.py:66-69 | Whenever the range holds a purchase, some customer of the RFM view has recency 0: recency is measured from the latest date inside the range. |
| Dashboard.BestCategoriesByOrders | dashboard/dashboard.py:83 | The five categories with the largest `total_order`. |
| Dashboard.WorstCategoriesByOrders | dashboard/dashboard.py:90 | The five categories with the smallest `total_order`. |
| Dashboard.BestCategoriesByRevenue | dashboard/dashboard.py:106 | The five categories with the largest `total_revenue`. |
| Dashboard.WorstCategoriesByRevenue | dashboard/dashboard.py:113 | The five categories with the smallest `total_revenue`. |
| Dashboard.MostRecentCustomers | dashboard/dashboard.py:144 | The five customers with the smallest recency. |
| Dashboard.MostFrequentCustomers | dashboard/dashboard.py:151 | The five customers with the largest frequency. |
| Dashboard.BiggestSpenders | dashboard/dashboard.py:158 | The five customers with the largest monetary value. |
| Scenario.SampleRfm | dashboard/dashboard.py:11-24 | Customer A (one order of two lines, 10 + 5, two days before the last purchase) gets recency 2, frequency 1 and monetary 15. Customer B gets recency 0, frequency 1 and monetary 20. |
| Scenario.SampleByCategory | dashboard/dashboard.py:27-35 | In the same example, category X gets two product lines and revenue 15, and category Y gets one product line and revenue 20. |
| Scenario.TwoCustomerRfm | dashboard/dashboard.py:11-24 | A frame with exactly two customers gives exactly their two reference rows, in one order or the other. |
| Scenario.SampleRfmView | dashboard/dashboard.py:11-24 | `create_rfm_df` of the example returns exactly the rows for A and B. Both have frequency 1, so either may come first. |
| Scenario.TwoCategoryView | dashboard/dashboard.py:27-35 | A frame with exactly two categories of different revenue gives their two reference rows, the larger revenue first. |
| Scenario.SampleByCategoryView | dashboard/dashboard.py:27-35 | `create_bycategory_df` of the example returns exactly Y (1 line, revenue 20) followed by X (2 lines, revenue 15). |
| Scenario.SampleRangeDropsEndDate | dashboard/dashboard.py:66-67 | A range ending on B's purchase date drops B's 01:00 purchase. A range ending one day later keeps it. |

In the rows for the seven selections, "the five ... with the largest/smallest" is short for `Ranking.IsSelection` with five rows, in that direction. `Ranking.Select` states the same property for any number of rows.

## Left out

- Loading `all_df.csv`, the sort by timestamp, `reset_index` and `to_datetime` (lines 40-48) are not modelled. The model starts from a sequence of parsed order lines.
- The Streamlit sidebar and the date picker (lines 51-63) are not modelled. The two dates are parameters of `Dashboard.BuildViews`.
- Plotting, colours, titles and layout are not modelled.
- The three averages, their rounding and the BRL currency formatting (lines 131-138) are not modelled. They are floating-point and locale formatting.
- Prices are whole numbers of the smallest currency unit. Floating-point sums are not modelled.
- `price_y`, `customer_unique_id`, `order_id` and the purchase timestamp are assumed to be present. Missing values in those columns are not modelled.
- Ranking.SortBy: the order of tied rows is left unspecified. pandas' default sort does not fix it, so no particular tie order is claimed.
- Ranking.Select: ties at the fifth place are unspecified in the same way. The selections are characterised by `IsSelection`, not by one fixed list.
- Rfm.CreateRfm: rows are not returned in pandas' lexicographic key order before the sort. That order only affects ties, and those are unspecified.
- Category.CreateByCategory: the same holds for the pre-sort row order.
- Rfm.RecentDay: on an empty frame it returns 0, where pandas gives a missing value (`NaN`, the `max` of an empty column of dates). No RFM row exists in that case, so the value is never used.
