/**
 * A worked example: three product lines, two customers, two categories. The expected summaries
 * follow from the reference definitions; the range example shows the end date kept only at midnight.
 */
module Scenario {
  import opened Orders
  import opened Ranking
  import opened Rfm
  import opened Category
  import opened Dashboard

  /** 2024-01-01 as a day number since the epoch. */
  const JAN1: int := 19723

  /** One line of a one-product order, bought at 01:00 on `day`. */
  function Line(c: string, o: string, cat: string, price: int, day: int): OrderLine
  {
    OrderLine(c, o, Midnight(day) + 3600, Some("p"), Some(cat), price)
  }

  /** Customer A buys one order of two lines in category X; B buys one line in Y two days later. */
  function Sample(): seq<OrderLine>
  {
    [Line("A", "1", "X", 10, JAN1), Line("A", "1", "X", 5, JAN1), Line("B", "2", "Y", 20, JAN1 + 2)]
  }

  /** A: recency 2, one order, 15 spent; B: recency 0, one order, 20 spent. */
  lemma SampleRfm()
    ensures Rfm.CustomerIds(Sample()) == {"A", "B"}
    ensures Rfm.ExpectedRow(Sample(), "A") == RfmRow("A", 2, 1, 15)
    ensures Rfm.ExpectedRow(Sample(), "B") == RfmRow("B", 0, 1, 20)
  {
    SampleCustomers();
    SampleRecentDay();
    SampleRowA();
    SampleRowB();
  }

  lemma SampleCustomers()
    ensures Rfm.CustomerIds(Sample()) == {"A", "B"}
  {
    var s := Sample();
    assert s[0] in s && s[2] in s;
  }

  lemma SampleRecentDay()
    ensures RecentDay(Sample()) == JAN1 + 2
  {
    var s := Sample();
    assert s[2] in s;
  }

  lemma SampleRowA()
    requires "A" in Rfm.CustomerIds(Sample()) && RecentDay(Sample()) == JAN1 + 2
    ensures Rfm.ExpectedRow(Sample(), "A") == RfmRow("A", 2, 1, 15)
  {
    var s := Sample();
    assert LinesOf(s, "A") == [s[0], s[1]];
    assert OrderIds([s[0], s[1]]) == {"1"};
  }

  lemma SampleRowB()
    requires "B" in Rfm.CustomerIds(Sample()) && RecentDay(Sample()) == JAN1 + 2
    ensures Rfm.ExpectedRow(Sample(), "B") == RfmRow("B", 0, 1, 20)
  {
    var s := Sample();
    assert LinesOf(s, "B") == [s[2]];
    assert OrderIds([s[2]]) == {"2"};
  }

  /** X: two product lines, revenue 15; Y: one product line, revenue 20. */
  lemma SampleByCategory()
    ensures Categories(Sample()) == {"X", "Y"}
    ensures Category.ExpectedRow(Sample(), "X") == CategoryRow("X", 2, 15)
    ensures Category.ExpectedRow(Sample(), "Y") == CategoryRow("Y", 1, 20)
  {
    var s := Sample();
    assert s[0] in s && s[2] in s;
    assert LinesIn(s, "X") == [s[0], s[1]];
    assert LinesIn(s, "Y") == [s[2]];
  }

  /** A frame with two customers gives exactly their two reference rows, in some order. */
  lemma TwoCustomerRfm(rows: seq<OrderLine>, a: RfmRow, b: RfmRow)
    requires a.customerUniqueId != b.customerUniqueId
    requires Rfm.CustomerIds(rows) == {a.customerUniqueId, b.customerUniqueId}
    requires Rfm.ExpectedRow(rows, a.customerUniqueId) == a && Rfm.ExpectedRow(rows, b.customerUniqueId) == b
    ensures CreateRfm(rows) == [a, b] || CreateRfm(rows) == [b, a]
  {
    var r := TwoCustomerFacts(rows, a, b);
    TwoRows(r, a, b);
  }

  lemma TwoCustomerFacts(rows: seq<OrderLine>, a: RfmRow, b: RfmRow) returns (r: seq<RfmRow>)
    requires a.customerUniqueId != b.customerUniqueId
    requires Rfm.CustomerIds(rows) == {a.customerUniqueId, b.customerUniqueId}
    requires Rfm.ExpectedRow(rows, a.customerUniqueId) == a && Rfm.ExpectedRow(rows, b.customerUniqueId) == b
    ensures r == CreateRfm(rows)
    ensures |r| == 2 && r[0] != r[1] && forall i :: 0 <= i < |r| ==> r[i] == a || r[i] == b
  {
    r := CreateRfm(rows);
    TwoCustomerCount(rows, a, b);
    TwoCustomerMembers(rows, a, b);
    RfmRowsDiffer(rows);
  }

  lemma TwoCustomerCount(rows: seq<OrderLine>, a: RfmRow, b: RfmRow)
    requires a.customerUniqueId != b.customerUniqueId
    requires Rfm.CustomerIds(rows) == {a.customerUniqueId, b.customerUniqueId}
    ensures |CreateRfm(rows)| == 2
  {
    RfmOneRowPerCustomer(rows);
    assert |{a.customerUniqueId, b.customerUniqueId}| == 2;
  }

  lemma TwoCustomerMembers(rows: seq<OrderLine>, a: RfmRow, b: RfmRow)
    requires Rfm.CustomerIds(rows) == {a.customerUniqueId, b.customerUniqueId}
    requires Rfm.ExpectedRow(rows, a.customerUniqueId) == a && Rfm.ExpectedRow(rows, b.customerUniqueId) == b
    ensures forall i :: 0 <= i < |CreateRfm(rows)| ==> CreateRfm(rows)[i] == a || CreateRfm(rows)[i] == b
  {
    RfmRowsAreExpected(rows);
  }

  lemma RfmRowsDiffer(rows: seq<OrderLine>)
    requires |CreateRfm(rows)| == 2
    ensures CreateRfm(rows)[0] != CreateRfm(rows)[1]
  {
    RfmOneRowPerCustomer(rows);
    assert CustomerColumn(CreateRfm(rows))[0] != CustomerColumn(CreateRfm(rows))[1];
  }

  /** Two different rows, each of them `a` or `b`, are `a` and `b` in one order or the other. */
  lemma TwoRows(r: seq<RfmRow>, a: RfmRow, b: RfmRow)
    requires |r| == 2 && r[0] != r[1]
    requires forall i :: 0 <= i < |r| ==> r[i] == a || r[i] == b
    ensures r == [a, b] || r == [b, a]
  {
  }

  /**
   * The RFM summary of the example holds exactly the two rows above. Both customers have frequency
   * 1, so the sort may put either first.
   */
  lemma SampleRfmView()
    ensures var r := CreateRfm(Sample());
      r == [RfmRow("A", 2, 1, 15), RfmRow("B", 0, 1, 20)] || r == [RfmRow("B", 0, 1, 20), RfmRow("A", 2, 1, 15)]
  {
    SampleRfm();
    TwoCustomerRfm(Sample(), RfmRow("A", 2, 1, 15), RfmRow("B", 0, 1, 20));
  }

  /** A frame with two categories gives their two reference rows, the larger revenue first. */
  lemma TwoCategoryView(rows: seq<OrderLine>, hi: CategoryRow, lo: CategoryRow)
    requires hi.category != lo.category && hi.totalRevenue > lo.totalRevenue
    requires Categories(rows) == {hi.category, lo.category}
    requires Category.ExpectedRow(rows, hi.category) == hi && Category.ExpectedRow(rows, lo.category) == lo
    ensures CreateByCategory(rows) == [hi, lo]
  {
    var r := TwoCategoryFacts(rows, hi, lo);
    TwoRowsByRevenue(r, hi, lo);
  }

  lemma TwoCategoryFacts(rows: seq<OrderLine>, hi: CategoryRow, lo: CategoryRow) returns (r: seq<CategoryRow>)
    requires hi.category != lo.category
    requires Categories(rows) == {hi.category, lo.category}
    requires Category.ExpectedRow(rows, hi.category) == hi && Category.ExpectedRow(rows, lo.category) == lo
    ensures r == CreateByCategory(rows)
    ensures |r| == 2 && r[0] != r[1] && r[0].totalRevenue >= r[1].totalRevenue
    ensures forall i :: 0 <= i < |r| ==> r[i] == hi || r[i] == lo
  {
    r := CreateByCategory(rows);
    TwoCategoryCount(rows, hi, lo);
    TwoCategoryMembers(rows, hi, lo);
    CategoryRowsDiffer(rows);
  }

  lemma TwoCategoryCount(rows: seq<OrderLine>, hi: CategoryRow, lo: CategoryRow)
    requires hi.category != lo.category
    requires Categories(rows) == {hi.category, lo.category}
    ensures |CreateByCategory(rows)| == 2
  {
    ByCategoryOneRowPerCategory(rows);
    assert |{hi.category, lo.category}| == 2;
  }

  lemma TwoCategoryMembers(rows: seq<OrderLine>, hi: CategoryRow, lo: CategoryRow)
    requires Categories(rows) == {hi.category, lo.category}
    requires Category.ExpectedRow(rows, hi.category) == hi && Category.ExpectedRow(rows, lo.category) == lo
    ensures forall i :: 0 <= i < |CreateByCategory(rows)| ==>
      CreateByCategory(rows)[i] == hi || CreateByCategory(rows)[i] == lo
  {
    ByCategoryRowsAreExpected(rows);
  }

  lemma CategoryRowsDiffer(rows: seq<OrderLine>)
    requires |CreateByCategory(rows)| == 2
    ensures CreateByCategory(rows)[0] != CreateByCategory(rows)[1]
  {
    ByCategoryOneRowPerCategory(rows);
    assert CategoryColumn(CreateByCategory(rows))[0] != CategoryColumn(CreateByCategory(rows))[1];
  }

  /** Two different rows, each of them `hi` or `lo`, in non-increasing revenue, are `hi` then `lo`. */
  lemma TwoRowsByRevenue(r: seq<CategoryRow>, hi: CategoryRow, lo: CategoryRow)
    requires hi.totalRevenue > lo.totalRevenue
    requires |r| == 2 && r[0] != r[1] && r[0].totalRevenue >= r[1].totalRevenue
    requires forall i :: 0 <= i < |r| ==> r[i] == hi || r[i] == lo
    ensures r == [hi, lo]
  {
  }

  /** The category summary of the example holds exactly the two rows above, Y (revenue 20) first. */
  lemma SampleByCategoryView()
    ensures CreateByCategory(Sample()) == [CategoryRow("Y", 1, 20), CategoryRow("X", 2, 15)]
  {
    SampleByCategory();
    TwoCategoryView(Sample(), CategoryRow("Y", 1, 20), CategoryRow("X", 2, 15));
  }

  /** The range ending on B's purchase date drops B's purchase, made after midnight of that date. */
  lemma SampleRangeDropsEndDate()
    ensures FilterByDate(Sample(), JAN1, JAN1 + 2) == Sample()[..2]
    ensures FilterByDate(Sample(), JAN1, JAN1 + 3) == Sample()
  {
    var s := Sample();
    assert s[1..][1..][1..] == [];
    assert !InRange(s[2].purchaseTs, JAN1, JAN1 + 2);
    assert FilterByDate(s[1..][1..], JAN1, JAN1 + 2) == [];
    assert FilterByDate(s[1..][1..], JAN1, JAN1 + 3) == [s[2]];
  }
}
