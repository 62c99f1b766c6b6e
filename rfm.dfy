/**
 * `create_rfm_df`: one Recency/Frequency/Monetary row per customer of the frame it is given,
 * ordered by frequency, largest first.
 */
module Rfm {
  import opened Orders
  import opened Ranking
  import opened Grouping

  /** A customer's row as `groupby('customer_unique_id').agg(...)` leaves it, before the recency rewrite. */
  datatype CustomerAgg = CustomerAgg(customerUniqueId: string, lastPurchase: int, frequency: nat, monetary: int)

  /** A row of the RFM summary; `recency` is in whole days. */
  datatype RfmRow = RfmRow(customerUniqueId: string, recency: int, frequency: nat, monetary: int)

  /** What the grouping pass keeps per customer: the latest timestamp, the order ids seen, the price total. */
  datatype CustomerAcc = CustomerAcc(lastPurchase: int, orderIds: set<string>, monetary: int)

  // Reference definitions: what the source computes, stated per customer without a grouping pass.

  function CustomerIds(rows: seq<OrderLine>): set<string>
  {
    set l | l in rows :: l.customerUniqueId
  }

  /** The lines of one customer, in input order. */
  function LinesOf(rows: seq<OrderLine>, c: string): seq<OrderLine>
  {
    if rows == [] then []
    else (if rows[0].customerUniqueId == c then [rows[0]] else []) + LinesOf(rows[1..], c)
  }

  /** The lines of a customer are the input's lines with that customer id, and no more of them. */
  lemma {:induction false} LinesOfMembers(rows: seq<OrderLine>, c: string)
    ensures forall l :: l in LinesOf(rows, c) <==> l in rows && l.customerUniqueId == c
    ensures |LinesOf(rows, c)| <= |rows|
  {
    if rows != [] {
      assert rows == [rows[0]] + rows[1..];
      LinesOfMembers(rows[1..], c);
    }
  }

  /** The distinct order ids among some lines (`'order_id': 'nunique'` counts these). */
  function OrderIds(lines: seq<OrderLine>): set<string>
  {
    set l | l in lines :: l.orderId
  }

  /** The latest purchase timestamp among some lines (`'order_purchase_timestamp': 'max'`). */
  function LatestPurchase(lines: seq<OrderLine>): (t: int)
    requires lines != []
    ensures exists l :: l in lines && l.purchaseTs == t
    ensures forall l :: l in lines ==> l.purchaseTs <= t
  {
    if |lines| == 1 then lines[0].purchaseTs
    else
      assert lines == [lines[0]] + lines[1..];
      Max(lines[0].purchaseTs, LatestPurchase(lines[1..]))
  }

  /**
   * The reference date of recency: the latest purchase date of the frame (`.dt.date.max()`).
   * On an empty frame pandas gives no date; the value then is never used, since there are no rows.
   */
  function RecentDay(rows: seq<OrderLine>): (d: int)
    ensures rows != [] ==> exists l :: l in rows && DayOf(l.purchaseTs) == d
    ensures forall l :: l in rows ==> DayOf(l.purchaseTs) <= d
  {
    if rows == [] then 0
    else if |rows| == 1 then DayOf(rows[0].purchaseTs)
    else
      assert rows == [rows[0]] + rows[1..];
      Max(DayOf(rows[0].purchaseTs), RecentDay(rows[1..]))
  }

  /** The accumulator a customer's lines should leave behind. */
  function Summarize(lines: seq<OrderLine>): CustomerAcc
    requires lines != []
  {
    CustomerAcc(LatestPurchase(lines), OrderIds(lines), PriceSum(lines))
  }

  // The grouping pass.

  function Open(x: OrderLine): CustomerAcc
  {
    CustomerAcc(x.purchaseTs, {x.orderId}, x.price)
  }

  function Absorb(a: CustomerAcc, x: OrderLine): CustomerAcc
  {
    CustomerAcc(Max(x.purchaseTs, a.lastPurchase), {x.orderId} + a.orderIds, x.price + a.monetary)
  }

  /** `df.groupby('customer_unique_id')`: one group per customer that has a line. */
  function GroupByCustomer(rows: seq<OrderLine>): (g: Groups<CustomerAcc>)
    ensures WellFormed(g)
    ensures g.accs.Keys == CustomerIds(rows)
  {
    if rows == [] then Empty()
    else
      var g := GroupByCustomer(rows[1..]);
      var x := rows[0];
      var c := x.customerUniqueId;
      assert rows == [x] + rows[1..];
      Put(g, c, if c in g.accs then Absorb(g.accs[c], x) else Open(x))
  }

  lemma CustomerIdsCons(x: OrderLine, rest: seq<OrderLine>)
    ensures CustomerIds([x] + rest) == {x.customerUniqueId} + CustomerIds(rest)
  {
    assert forall l :: l in [x] + rest <==> l == x || l in rest;
  }

  lemma OrderIdsCons(x: OrderLine, lines: seq<OrderLine>)
    ensures OrderIds([x] + lines) == {x.orderId} + OrderIds(lines)
  {
    assert forall l :: l in [x] + lines <==> l == x || l in lines;
  }

  lemma LinesOfCons(x: OrderLine, rest: seq<OrderLine>, c: string)
    ensures LinesOf([x] + rest, c) == (if x.customerUniqueId == c then [x] else []) + LinesOf(rest, c)
  {
    assert ([x] + rest)[1..] == rest;
  }

  lemma LinesOfAbsent(rows: seq<OrderLine>, c: string)
    requires c !in CustomerIds(rows)
    ensures LinesOf(rows, c) == []
  {
    LinesOfMembers(rows, c);
  }

  /** Absorbing a line into a customer's accumulator gives the accumulator of the longer list of lines. */
  lemma AbsorbSummarizes(x: OrderLine, lines: seq<OrderLine>)
    requires lines != []
    ensures Summarize([x] + lines) == Absorb(Summarize(lines), x)
  {
    assert ([x] + lines)[1..] == lines;
    OrderIdsCons(x, lines);
  }

  lemma OpenSummarizes(x: OrderLine)
    ensures Summarize([x]) == Open(x)
  {
    OrderIdsCons(x, []);
    assert PriceSum([x]) == x.price;
  }

  /** The grouping pass leaves, for every customer, the accumulator of exactly that customer's lines. */
  lemma {:induction false} GroupByCustomerSummarizes(rows: seq<OrderLine>, c: string)
    requires c in CustomerIds(rows)
    ensures LinesOf(rows, c) != []
    ensures GroupByCustomer(rows).accs[c] == Summarize(LinesOf(rows, c))
  {
    var x, rest := rows[0], rows[1..];
    assert rows == [x] + rest;
    var g := GroupByCustomer(rest);
    CustomerIdsCons(x, rest);
    LinesOfCons(x, rest, c);
    if x.customerUniqueId != c {
      GroupByCustomerSummarizes(rest, c);
      assert GroupByCustomer(rows).accs[c] == g.accs[c];
      assert LinesOf(rows, c) == LinesOf(rest, c);
      assert GroupByCustomer(rows).accs[c] == Summarize(LinesOf(rows, c));
    } else if c in CustomerIds(rest) {
      GroupByCustomerSummarizes(rest, c);
      AbsorbSummarizes(x, LinesOf(rest, c));
      assert GroupByCustomer(rows) == Put(g, c, Absorb(g.accs[c], x));
      assert LinesOf(rows, c) == [x] + LinesOf(rest, c);
      assert GroupByCustomer(rows).accs[c] == Summarize(LinesOf(rows, c));
    } else {
      LinesOfAbsent(rest, c);
      OpenSummarizes(x);
      assert LinesOf(rows, c) == [x];
      assert GroupByCustomer(rows) == Put(g, c, Open(x));
      assert GroupByCustomer(rows).accs[c] == Summarize(LinesOf(rows, c));
    }
  }

  function ToCustomerAgg(c: string, a: CustomerAcc): CustomerAgg
  {
    CustomerAgg(c, a.lastPurchase, |a.orderIds|, a.monetary)
  }

  /** The frame `groupby(...).agg(...)` returns, in group order (lines 12-15). */
  function Aggregate(rows: seq<OrderLine>): seq<CustomerAgg>
  {
    Rows(GroupByCustomer(rows), ToCustomerAgg)
  }

  function AggFrequency(a: CustomerAgg): int
  {
    a.frequency
  }

  /** The recency rewrite of one row: days from the customer's last purchase date to the reference date. */
  function ToRfm(a: CustomerAgg, recentDay: int): RfmRow
  {
    RfmRow(a.customerUniqueId, recentDay - DayOf(a.lastPurchase), a.frequency, a.monetary)
  }

  /**
   * The recency rewrite keeps customer, frequency and monetary. The recency it writes is the whole
   * number of days from midnight of the last purchase date to midnight of the reference date. It is
   * non-negative exactly when the last purchase was made before the end of the reference date.
   */
  lemma RecencyInWholeDays(a: CustomerAgg, recentDay: int)
    ensures var r := ToRfm(a, recentDay);
      && r.customerUniqueId == a.customerUniqueId && r.frequency == a.frequency && r.monetary == a.monetary
      && Midnight(DayOf(a.lastPurchase)) + r.recency * SECONDS_PER_DAY == Midnight(recentDay)
      && (r.recency >= 0 <==> a.lastPurchase < Midnight(recentDay + 1))
  {
    DayOfIsDayContaining(a.lastPurchase, DayOf(a.lastPurchase));
    if DayOf(a.lastPurchase) > recentDay {
      assert Midnight(recentDay + 1) <= Midnight(DayOf(a.lastPurchase));
    }
  }

  /** Lines 18-22, applied row by row to the sorted frame. */
  function WithRecency(aggs: seq<CustomerAgg>, recentDay: int): (r: seq<RfmRow>)
    ensures |r| == |aggs|
    ensures forall i :: 0 <= i < |aggs| ==> r[i] == ToRfm(aggs[i], recentDay)
  {
    if aggs == [] then [] else [ToRfm(aggs[0], recentDay)] + WithRecency(aggs[1..], recentDay)
  }

  /** `create_rfm_df(df)`. */
  function CreateRfm(rows: seq<OrderLine>): (r: seq<RfmRow>)
    ensures forall i, j :: 0 <= i < j < |r| ==> r[i].frequency >= r[j].frequency
  {
    var sorted := SortBy(Aggregate(rows), AggFrequency, false);
    assert forall i, j :: 0 <= i < j < |sorted| ==> InOrder(AggFrequency, false, sorted[i], sorted[j]);
    WithRecency(sorted, RecentDay(rows))
  }

  // What the summary says about each customer.

  /** The row the source promises for customer `c` of the frame `rows`. */
  function ExpectedRow(rows: seq<OrderLine>, c: string): RfmRow
    requires c in CustomerIds(rows)
  {
    var l :| l in rows && l.customerUniqueId == c;
    LinesOfMembers(rows, c);
    assert l in LinesOf(rows, c);
    var lines := LinesOf(rows, c);
    RfmRow(c, RecentDay(rows) - DayOf(LatestPurchase(lines)), |OrderIds(lines)|, PriceSum(lines))
  }

  function Recency(r: RfmRow): int
  {
    r.recency
  }

  function Frequency(r: RfmRow): int
  {
    r.frequency
  }

  function Monetary(r: RfmRow): int
  {
    r.monetary
  }

  /** Every row of the grouped frame is the one its customer's lines determine, and no customer repeats. */
  lemma AggregateSummarizes(rows: seq<OrderLine>)
    ensures Distinct(Aggregate(rows))
    ensures forall i :: 0 <= i < |Aggregate(rows)| ==>
      var a := Aggregate(rows)[i];
      && a.customerUniqueId in CustomerIds(rows)
      && ToRfm(a, RecentDay(rows)) == ExpectedRow(rows, a.customerUniqueId)
  {
    var g := GroupByCustomer(rows);
    var aggs := Aggregate(rows);
    forall i | 0 <= i < |aggs|
      ensures aggs[i].customerUniqueId == g.keys[i] && g.keys[i] in CustomerIds(rows)
      ensures ToRfm(aggs[i], RecentDay(rows)) == ExpectedRow(rows, g.keys[i])
    {
      GroupByCustomerSummarizes(rows, g.keys[i]);
    }
  }

  /** Each row of the RFM summary holds its customer's recency, number of distinct orders and price total. */
  lemma RfmRowsAreExpected(rows: seq<OrderLine>)
    ensures var r := CreateRfm(rows);
      forall i :: 0 <= i < |r| ==>
        r[i].customerUniqueId in CustomerIds(rows) && r[i] == ExpectedRow(rows, r[i].customerUniqueId)
  {
    var aggs := Aggregate(rows);
    var sorted := SortBy(aggs, AggFrequency, false);
    var r := CreateRfm(rows);
    AggregateSummarizes(rows);
    forall i | 0 <= i < |r|
      ensures r[i].customerUniqueId in CustomerIds(rows) && r[i] == ExpectedRow(rows, r[i].customerUniqueId)
    {
      assert r[i] == ToRfm(sorted[i], RecentDay(rows));
      assert sorted[i] in multiset(aggs);
      var k :| 0 <= k < |aggs| && aggs[k] == sorted[i];
    }
  }

  /** The customer ids of the RFM summary, in row order. */
  function CustomerColumn(r: seq<RfmRow>): (ids: seq<string>)
    ensures |ids| == |r|
    ensures forall i :: 0 <= i < |r| ==> ids[i] == r[i].customerUniqueId
  {
    if r == [] then [] else [r[0].customerUniqueId] + CustomerColumn(r[1..])
  }

  /** Where a row of the sorted frame came from in the grouping's key list. */
  lemma SortedRowOrigin(rows: seq<OrderLine>, i: nat) returns (k: nat)
    requires i < |SortBy(Aggregate(rows), AggFrequency, false)|
    ensures k < |GroupByCustomer(rows).keys|
    ensures SortBy(Aggregate(rows), AggFrequency, false)[i] == Aggregate(rows)[k]
    ensures Aggregate(rows)[k].customerUniqueId == GroupByCustomer(rows).keys[k]
  {
    k := UnsortedRowOf(Aggregate(rows), i);
  }

  lemma UnsortedRowOf(aggs: seq<CustomerAgg>, i: nat) returns (k: nat)
    requires i < |SortBy(aggs, AggFrequency, false)|
    ensures k < |aggs| && SortBy(aggs, AggFrequency, false)[i] == aggs[k]
  {
    var sorted := SortBy(aggs, AggFrequency, false);
    assert sorted[i] in multiset(aggs);
    k :| 0 <= k < |aggs| && aggs[k] == sorted[i];
  }

  /** No customer has two rows in the RFM summary. */
  lemma RfmCustomersDistinct(rows: seq<OrderLine>)
    ensures Distinct(CustomerColumn(CreateRfm(rows)))
  {
    var g := GroupByCustomer(rows);
    var aggs := Aggregate(rows);
    var sorted := SortBy(aggs, AggFrequency, false);
    var r := CreateRfm(rows);
    var ids := CustomerColumn(r);
    AggregateSummarizes(rows);
    DistinctPermutation(aggs, sorted);
    forall i, j | 0 <= i < j < |ids|
      ensures ids[i] != ids[j]
    {
      var k := SortedRowOrigin(rows, i);
      var m := SortedRowOrigin(rows, j);
      assert ids[i] == g.keys[k] && ids[j] == g.keys[m];
      assert sorted[i] != sorted[j];
    }
  }

  lemma AggregateRowOf(rows: seq<OrderLine>, c: string) returns (k: nat)
    requires c in CustomerIds(rows)
    ensures k < |Aggregate(rows)| && Aggregate(rows)[k].customerUniqueId == c
  {
    var g := GroupByCustomer(rows);
    assert c in g.accs;
    k :| 0 <= k < |g.keys| && g.keys[k] == c;
  }

  lemma CustomerHasRow(rows: seq<OrderLine>, c: string)
    requires c in CustomerIds(rows)
    ensures c in CustomerColumn(CreateRfm(rows))
  {
    var k := AggregateRowOf(rows, c);
    var i := SortedRowOf(Aggregate(rows), k);
    assert CustomerColumn(CreateRfm(rows))[i] == SortBy(Aggregate(rows), AggFrequency, false)[i].customerUniqueId;
  }

  lemma SortedRowOf(aggs: seq<CustomerAgg>, k: nat) returns (i: nat)
    requires k < |aggs|
    ensures i < |aggs| && SortBy(aggs, AggFrequency, false)[i] == aggs[k]
  {
    var sorted := SortBy(aggs, AggFrequency, false);
    assert aggs[k] in multiset(sorted);
    i :| 0 <= i < |sorted| && sorted[i] == aggs[k];
  }

  lemma RowHasCustomer(rows: seq<OrderLine>, c: string)
    requires c in CustomerColumn(CreateRfm(rows))
    ensures c in CustomerIds(rows)
  {
    var g := GroupByCustomer(rows);
    var sorted := SortBy(Aggregate(rows), AggFrequency, false);
    var r := CreateRfm(rows);
    var ids := CustomerColumn(r);
    var i :| 0 <= i < |ids| && ids[i] == c;
    assert r[i] == ToRfm(sorted[i], RecentDay(rows));
    var k := SortedRowOrigin(rows, i);
    assert c == g.keys[k];
    assert g.keys[k] in g.accs;
  }

  /**
   * The RFM summary has exactly one row per distinct customer of its input; an empty input gives
   * an empty summary.
   */
  lemma RfmOneRowPerCustomer(rows: seq<OrderLine>)
    ensures var r := CreateRfm(rows);
      && |r| == |CustomerIds(rows)|
      && Distinct(CustomerColumn(r))
      && (forall c :: c in CustomerIds(rows) <==> c in CustomerColumn(r))
      && (rows == [] ==> r == [])
  {
    RfmCustomersDistinct(rows);
    RfmCustomersExact(rows);
    RfmRowCount(rows);
    if rows == [] {
      assert CustomerIds(rows) == {};
    }
  }

  lemma RfmCustomersExact(rows: seq<OrderLine>)
    ensures forall c :: c in CustomerIds(rows) <==> c in CustomerColumn(CreateRfm(rows))
  {
    forall c
      ensures c in CustomerIds(rows) <==> c in CustomerColumn(CreateRfm(rows))
    {
      if c in CustomerIds(rows) {
        CustomerHasRow(rows, c);
      }
      if c in CustomerColumn(CreateRfm(rows)) {
        RowHasCustomer(rows, c);
      }
    }
  }

  lemma RfmRowCount(rows: seq<OrderLine>)
    ensures |CreateRfm(rows)| == |CustomerIds(rows)|
  {
    var g := GroupByCustomer(rows);
    DistinctCardinality(g.keys);
    assert (set k | k in g.keys) == g.accs.Keys;
    assert |CreateRfm(rows)| == |Aggregate(rows)| == |g.keys|;
  }

  /** A customer's distinct orders are at least one and at most that customer's line count. */
  lemma {:induction false} OrderIdsBounds(lines: seq<OrderLine>)
    ensures |OrderIds(lines)| <= |lines|
    ensures lines != [] ==> |OrderIds(lines)| >= 1
  {
    if lines != [] {
      assert lines == [lines[0]] + lines[1..];
      OrderIdsCons(lines[0], lines[1..]);
      OrderIdsBounds(lines[1..]);
      assert lines[0].orderId in OrderIds(lines);
    }
  }

  /** Frequency counts distinct orders: at least one, at most the customer's number of lines. */
  lemma RfmFrequencyBounds(rows: seq<OrderLine>)
    ensures var r := CreateRfm(rows);
      forall i :: 0 <= i < |r| ==> 1 <= r[i].frequency <= |LinesOf(rows, r[i].customerUniqueId)|
  {
    var r := CreateRfm(rows);
    RfmRowsAreExpected(rows);
    forall i | 0 <= i < |r|
      ensures 1 <= r[i].frequency <= |LinesOf(rows, r[i].customerUniqueId)|
    {
      var c := r[i].customerUniqueId;
      CustomerHasLines(rows, c);
      OrderIdsBounds(LinesOf(rows, c));
    }
  }

  lemma CustomerHasLines(rows: seq<OrderLine>, c: string)
    requires c in CustomerIds(rows)
    ensures LinesOf(rows, c) != []
    ensures forall l :: l in LinesOf(rows, c) ==> l in rows
  {
    var l :| l in rows && l.customerUniqueId == c;
    LinesOfMembers(rows, c);
    assert l in LinesOf(rows, c);
  }

  /** Recency is never negative: no customer bought after the frame's latest purchase date. */
  lemma RfmRecencyNonNegative(rows: seq<OrderLine>)
    ensures var r := CreateRfm(rows);
      forall i :: 0 <= i < |r| ==> r[i].recency >= 0
  {
    var r := CreateRfm(rows);
    RfmRowsAreExpected(rows);
    forall i | 0 <= i < |r|
      ensures r[i].recency >= 0
    {
      var c := r[i].customerUniqueId;
      CustomerHasLines(rows, c);
      var lines := LinesOf(rows, c);
      var l :| l in lines && l.purchaseTs == LatestPurchase(lines);
      assert DayOf(l.purchaseTs) <= RecentDay(rows);
    }
  }

  /** The customer who bought on the frame's latest purchase date is 0 days from it. */
  lemma LatestCustomerRecency(rows: seq<OrderLine>, latest: OrderLine)
    requires latest in rows && DayOf(latest.purchaseTs) == RecentDay(rows)
    ensures latest.customerUniqueId in CustomerIds(rows)
    ensures ExpectedRow(rows, latest.customerUniqueId).recency == 0
  {
    var c := latest.customerUniqueId;
    LinesOfMembers(rows, c);
    var lines := LinesOf(rows, c);
    assert latest in lines;
    var l :| l in lines && l.purchaseTs == LatestPurchase(lines);
    DayOfMonotone(latest.purchaseTs, LatestPurchase(lines));
    assert DayOf(l.purchaseTs) <= RecentDay(rows);
  }

  /** In a non-empty frame, the customer with the frame's latest purchase date has recency 0. */
  lemma RfmSomeRecencyZero(rows: seq<OrderLine>)
    requires rows != []
    ensures var r := CreateRfm(rows);
      exists i :: 0 <= i < |r| && r[i].recency == 0
  {
    var r := CreateRfm(rows);
    var latest :| latest in rows && DayOf(latest.purchaseTs) == RecentDay(rows);
    var c := latest.customerUniqueId;
    LatestCustomerRecency(rows, latest);
    RfmOneRowPerCustomer(rows);
    var i :| 0 <= i < |r| && CustomerColumn(r)[i] == c;
    RfmRowsAreExpected(rows);
    assert r[i] == ExpectedRow(rows, c);
  }

  function AggMonetary(a: CustomerAgg): int
  {
    a.monetary
  }

  lemma {:induction false} WithRecencyKeepsMonetary(aggs: seq<CustomerAgg>, recentDay: int)
    ensures SumBy(WithRecency(aggs, recentDay), Monetary) == SumBy(aggs, AggMonetary)
  {
    if aggs != [] {
      WithRecencyKeepsMonetary(aggs[1..], recentDay);
      assert WithRecency(aggs, recentDay)[1..] == WithRecency(aggs[1..], recentDay);
    }
  }

  /** The grouped frame's monetary column adds up to the frame's total `price_y`. */
  lemma {:induction false} AggregateMonetaryConserved(rows: seq<OrderLine>)
    ensures SumBy(Aggregate(rows), AggMonetary) == PriceSum(rows)
  {
    if rows != [] {
      var x, rest := rows[0], rows[1..];
      var g := GroupByCustomer(rest);
      var c := x.customerUniqueId;
      var v := if c in g.accs then Absorb(g.accs[c], x) else Open(x);
      AggregateMonetaryConserved(rest);
      PutSum(g, c, v, ToCustomerAgg, AggMonetary);
      assert GroupByCustomer(rows) == Put(g, c, v);
    }
  }

  /** Conservation: the monetary values of all customers add up to the total `price_y` of the frame. */
  lemma RfmMonetaryConserved(rows: seq<OrderLine>)
    ensures SumBy(CreateRfm(rows), Monetary) == PriceSum(rows)
  {
    var sorted := SortBy(Aggregate(rows), AggFrequency, false);
    WithRecencyKeepsMonetary(sorted, RecentDay(rows));
    SumBySortBy(Aggregate(rows), AggFrequency, false, AggMonetary);
    AggregateMonetaryConserved(rows);
  }
}
