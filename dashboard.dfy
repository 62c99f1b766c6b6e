/**
 * The data path of the dashboard script: the date-range mask that builds `main_df`, the two
 * summaries built from it, and the seven top/bottom-5 selections the charts draw.
 */
module Dashboard {
  import opened Orders
  import opened Ranking
  import opened Rfm
  import opened Category

  /**
   * The mask of `main_df`: the timestamp compared with `str(start_date)` and `str(end_date)`, each
   * of which stands for midnight of its date. The end date is therefore kept only at 00:00:00.
   */
  predicate InRange(ts: int, startDay: int, endDay: int)
  {
    Midnight(startDay) <= ts <= Midnight(endDay)
  }

  /** `all_df[(ts >= str(start_date)) & (ts <= str(end_date))]`. */
  function FilterByDate(rows: seq<OrderLine>, startDay: int, endDay: int): seq<OrderLine>
  {
    if rows == [] then []
    else (if InRange(rows[0].purchaseTs, startDay, endDay) then [rows[0]] else [])
         + FilterByDate(rows[1..], startDay, endDay)
  }

  /** `idx` lists, in increasing order, the positions of `s` that `r` was taken from. */
  ghost predicate PicksFrom<T>(r: seq<T>, s: seq<T>, idx: seq<nat>)
  {
    && |idx| == |r|
    && (forall k :: 0 <= k < |idx| ==> idx[k] < |s| && r[k] == s[idx[k]])
    && (forall k, m :: 0 <= k < m < |idx| ==> idx[k] < idx[m])
  }

  /** Every position moved one place to the right, for a sequence that gains a first element. */
  function Shift(idx: seq<nat>): (r: seq<nat>)
    ensures |r| == |idx|
    ensures forall k :: 0 <= k < |idx| ==> r[k] == idx[k] + 1
  {
    seq(|idx|, k requires 0 <= k < |idx| => idx[k] + 1)
  }

  /** The positions of the rows in range, in increasing order. */
  function InRangePositions(rows: seq<OrderLine>, startDay: int, endDay: int): seq<nat>
  {
    if rows == [] then []
    else
      var tail := Shift(InRangePositions(rows[1..], startDay, endDay));
      if InRange(rows[0].purchaseTs, startDay, endDay) then [0] + tail else tail
  }

  lemma PicksFromShift<T>(r: seq<T>, s: seq<T>, idx: seq<nat>, x: T)
    requires PicksFrom(r, s, idx)
    ensures PicksFrom(r, [x] + s, Shift(idx))
    ensures PicksFrom([x] + r, [x] + s, [0] + Shift(idx))
  {
  }

  /** The filtered frame is taken from the input at the in-range positions, in increasing order. */
  lemma {:induction false} FilterKeepsOrder(rows: seq<OrderLine>, startDay: int, endDay: int)
    ensures PicksFrom(FilterByDate(rows, startDay, endDay), rows, InRangePositions(rows, startDay, endDay))
  {
    if rows != [] {
      var rest := rows[1..];
      assert rows == [rows[0]] + rest;
      FilterKeepsOrder(rest, startDay, endDay);
      PicksFromShift(FilterByDate(rest, startDay, endDay), rest, InRangePositions(rest, startDay, endDay), rows[0]);
    }
  }

  /** A position is listed exactly when the row there is in range. */
  lemma {:induction false} InRangePositionsExact(rows: seq<OrderLine>, startDay: int, endDay: int)
    ensures forall j :: j in InRangePositions(rows, startDay, endDay) <==>
      0 <= j < |rows| && InRange(rows[j].purchaseTs, startDay, endDay)
  {
    if rows != [] {
      var rest := rows[1..];
      var tail := InRangePositions(rest, startDay, endDay);
      InRangePositionsExact(rest, startDay, endDay);
      forall j
        ensures j in Shift(tail) <==> 0 < j < |rows| && InRange(rows[j].purchaseTs, startDay, endDay)
      {
        if j in Shift(tail) {
          var k :| 0 <= k < |tail| && Shift(tail)[k] == j;
          assert tail[k] == j - 1 && tail[k] in tail;
          assert rows[j] == rest[j - 1];
        }
        if 0 < j < |rows| && InRange(rows[j].purchaseTs, startDay, endDay) {
          assert rows[j] == rest[j - 1];
          var k :| 0 <= k < |tail| && tail[k] == j - 1;
          assert Shift(tail)[k] == j;
        }
      }
    }
  }

  /**
   * The filtered frame is the subsequence of the input made of exactly the rows in range: it is
   * taken from increasing positions, every position it is taken from holds a row in range, and
   * every row in range is taken.
   */
  lemma FilterIsInRangeSubsequence(rows: seq<OrderLine>, startDay: int, endDay: int)
    ensures var idx := InRangePositions(rows, startDay, endDay);
      && PicksFrom(FilterByDate(rows, startDay, endDay), rows, idx)
      && (forall k :: 0 <= k < |idx| ==> InRange(rows[idx[k]].purchaseTs, startDay, endDay))
      && (forall j :: 0 <= j < |rows| && InRange(rows[j].purchaseTs, startDay, endDay) ==> j in idx)
  {
    FilterKeepsOrder(rows, startDay, endDay);
    InRangePositionsExact(rows, startDay, endDay);
    var idx := InRangePositions(rows, startDay, endDay);
    forall k | 0 <= k < |idx|
      ensures InRange(rows[idx[k]].purchaseTs, startDay, endDay)
    {
      assert idx[k] in idx;
    }
  }

  /** In date terms: the days from `startDay` up to the day before `endDay`, plus midnight of `endDay`. */
  lemma InRangeByDay(ts: int, startDay: int, endDay: int)
    ensures InRange(ts, startDay, endDay) <==>
      (startDay <= DayOf(ts) < endDay) || (startDay <= endDay && ts == Midnight(endDay))
  {
    DayOfIsDayContaining(ts, DayOf(ts));
    DayOfIsDayContaining(Midnight(endDay), endDay);
    DayOfIsDayContaining(Midnight(startDay), startDay);
    if InRange(ts, startDay, endDay) {
      DayOfMonotone(Midnight(startDay), ts);
      DayOfMonotone(ts, Midnight(endDay));
    }
    if startDay <= DayOf(ts) < endDay {
      assert Midnight(DayOf(ts) + 1) <= Midnight(endDay);
    }
  }

  /** A purchase on the end date after 00:00:00 is not in range, even when the range is that one date. */
  lemma EndDateOnlyAtMidnight(ts: int, startDay: int, endDay: int)
    requires startDay <= endDay && DayOf(ts) == endDay
    ensures InRange(ts, startDay, endDay) <==> ts == Midnight(endDay)
  {
    InRangeByDay(ts, startDay, endDay);
  }

  /** A start date after the end date raises nothing: the filtered frame is just empty. */
  lemma {:induction false} InvertedRangeIsEmpty(rows: seq<OrderLine>, startDay: int, endDay: int)
    requires startDay > endDay
    ensures FilterByDate(rows, startDay, endDay) == []
  {
    if rows != [] {
      assert Midnight(endDay) < Midnight(startDay);
      InvertedRangeIsEmpty(rows[1..], startDay, endDay);
    }
  }

  /** A row is in the filtered frame exactly when it is in the input and in range. */
  lemma {:induction false} FilterMembers(rows: seq<OrderLine>, startDay: int, endDay: int)
    ensures forall l :: l in FilterByDate(rows, startDay, endDay) <==> l in rows && InRange(l.purchaseTs, startDay, endDay)
  {
    if rows != [] {
      assert rows == [rows[0]] + rows[1..];
      FilterMembers(rows[1..], startDay, endDay);
    }
  }

  /** A frame with no purchase in range filters to the empty frame. */
  lemma {:induction false} NothingInRangeFiltersToEmpty(rows: seq<OrderLine>, startDay: int, endDay: int)
    requires forall l :: l in rows ==> !InRange(l.purchaseTs, startDay, endDay)
    ensures FilterByDate(rows, startDay, endDay) == []
  {
    if rows != [] {
      assert rows[0] in rows;
      NothingInRangeFiltersToEmpty(rows[1..], startDay, endDay);
    }
  }

  /** The two summary tables handed to the charts. */
  datatype Views = Views(rfm: seq<RfmRow>, byCategory: seq<CategoryRow>)

  /** Lines 66-70: filter, then build both summaries from the filtered frame. */
  function BuildViews(all: seq<OrderLine>, startDay: int, endDay: int): Views
  {
    var main := FilterByDate(all, startDay, endDay);
    Views(CreateRfm(main), CreateByCategory(main))
  }

  /**
   * The customers of the RFM view are exactly those with a purchase in range, and the categories
   * of the category view are exactly those of some line in range.
   */
  lemma BuildViewsKeys(all: seq<OrderLine>, startDay: int, endDay: int)
    ensures var v := BuildViews(all, startDay, endDay);
      && (forall c :: c in CustomerColumn(v.rfm) <==>
            exists l :: l in all && InRange(l.purchaseTs, startDay, endDay) && l.customerUniqueId == c)
      && (forall cat :: cat in CategoryColumn(v.byCategory) <==>
            exists l :: l in all && InRange(l.purchaseTs, startDay, endDay) && l.category == Some(cat))
  {
    var main := FilterByDate(all, startDay, endDay);
    FilterMembers(all, startDay, endDay);
    RfmOneRowPerCustomer(main);
    ByCategoryOneRowPerCategory(main);
    forall c
      ensures c in CustomerIds(main) <==>
        exists l :: l in all && InRange(l.purchaseTs, startDay, endDay) && l.customerUniqueId == c
    {
      if c in CustomerIds(main) {
        var l :| l in main && l.customerUniqueId == c;
        assert l in all && InRange(l.purchaseTs, startDay, endDay);
      }
      if exists l :: l in all && InRange(l.purchaseTs, startDay, endDay) && l.customerUniqueId == c {
        var l :| l in all && InRange(l.purchaseTs, startDay, endDay) && l.customerUniqueId == c;
        assert l in main;
      }
    }
    forall cat
      ensures cat in Categories(main) <==>
        exists l :: l in all && InRange(l.purchaseTs, startDay, endDay) && l.category == Some(cat)
    {
      if cat in Categories(main) {
        var l :| l in main && l.category.Some? && l.category.value == cat;
        assert l in all && InRange(l.purchaseTs, startDay, endDay);
      }
      if exists l :: l in all && InRange(l.purchaseTs, startDay, endDay) && l.category == Some(cat) {
        var l :| l in all && InRange(l.purchaseTs, startDay, endDay) && l.category == Some(cat);
        assert l in main;
      }
    }
  }

  /** A range with no purchase in it gives two empty summaries, not an error. */
  lemma {:induction false} EmptyRangeGivesEmptyViews(all: seq<OrderLine>, startDay: int, endDay: int)
    requires forall l :: l in all ==> !InRange(l.purchaseTs, startDay, endDay)
    ensures BuildViews(all, startDay, endDay) == Views([], [])
  {
    NothingInRangeFiltersToEmpty(all, startDay, endDay);
    var main := FilterByDate(all, startDay, endDay);
    RfmOneRowPerCustomer(main);
    ByCategoryOneRowPerCategory(main);
    assert Categories([]) == {};
  }

  /**
   * Recency is measured from the latest purchase date inside the range, not of the whole dataset:
   * whenever the range holds a purchase, some customer of the view has recency 0.
   */
  lemma RecencyAnchoredInRange(all: seq<OrderLine>, startDay: int, endDay: int, l: OrderLine)
    requires l in all && InRange(l.purchaseTs, startDay, endDay)
    ensures var r := BuildViews(all, startDay, endDay).rfm;
      exists i :: 0 <= i < |r| && r[i].recency == 0
  {
    FilterIsInRangeSubsequence(all, startDay, endDay);
    var idx := InRangePositions(all, startDay, endDay);
    var j :| 0 <= j < |all| && all[j] == l;
    assert j in idx;
    var k :| 0 <= k < |idx| && idx[k] == j;
    RfmSomeRecencyZero(FilterByDate(all, startDay, endDay));
  }

  // The top/bottom-5 selections the charts draw.

  const CHART_ROWS: nat := 5

  /** Line 83: the five categories with the most product lines. */
  function BestCategoriesByOrders(cats: seq<CategoryRow>): (top: seq<CategoryRow>)
    ensures IsSelection(cats, top, TotalOrder, false, CHART_ROWS)
  {
    Select(cats, TotalOrder, false, CHART_ROWS)
  }

  /** Line 90: the five categories with the fewest product lines. */
  function WorstCategoriesByOrders(cats: seq<CategoryRow>): (bottom: seq<CategoryRow>)
    ensures IsSelection(cats, bottom, TotalOrder, true, CHART_ROWS)
  {
    Select(cats, TotalOrder, true, CHART_ROWS)
  }

  /** Line 106: the five categories with the highest revenue. */
  function BestCategoriesByRevenue(cats: seq<CategoryRow>): (top: seq<CategoryRow>)
    ensures IsSelection(cats, top, TotalRevenue, false, CHART_ROWS)
  {
    Select(cats, TotalRevenue, false, CHART_ROWS)
  }

  /** Line 113: the five categories with the lowest revenue. */
  function WorstCategoriesByRevenue(cats: seq<CategoryRow>): (bottom: seq<CategoryRow>)
    ensures IsSelection(cats, bottom, TotalRevenue, true, CHART_ROWS)
  {
    Select(cats, TotalRevenue, true, CHART_ROWS)
  }

  /** Line 144: the five customers with the smallest recency. */
  function MostRecentCustomers(rfm: seq<RfmRow>): (top: seq<RfmRow>)
    ensures IsSelection(rfm, top, Recency, true, CHART_ROWS)
  {
    Select(rfm, Recency, true, CHART_ROWS)
  }

  /** Line 151: the five customers with the most distinct orders. */
  function MostFrequentCustomers(rfm: seq<RfmRow>): (top: seq<RfmRow>)
    ensures IsSelection(rfm, top, Frequency, false, CHART_ROWS)
  {
    Select(rfm, Frequency, false, CHART_ROWS)
  }

  /** Line 158: the five customers who spent the most. */
  function BiggestSpenders(rfm: seq<RfmRow>): (top: seq<RfmRow>)
    ensures IsSelection(rfm, top, Monetary, false, CHART_ROWS)
  {
    Select(rfm, Monetary, false, CHART_ROWS)
  }
}
