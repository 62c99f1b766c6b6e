/**
 * `create_bycategory_df`: one row per product category of the frame it is given, with the number
 * of product lines and the revenue, ordered by revenue, largest first.
 */
module Category {
  import opened Orders
  import opened Ranking
  import opened Grouping

  /** A row of the category summary. */
  datatype CategoryRow = CategoryRow(category: string, totalOrder: nat, totalRevenue: int)

  /** What the grouping pass keeps per category: the non-missing product ids counted, the price total. */
  datatype CategoryAcc = CategoryAcc(products: nat, revenue: int)

  // Reference definitions: what the source computes, stated per category without a grouping pass.

  /** The categories named by some line; lines without a category belong to none (pandas drops that key). */
  function Categories(rows: seq<OrderLine>): set<string>
  {
    set l | l in rows && l.category.Some? :: l.category.value
  }

  /** The lines of one category, in input order. */
  function LinesIn(rows: seq<OrderLine>, cat: string): seq<OrderLine>
  {
    if rows == [] then []
    else (if rows[0].category == Some(cat) then [rows[0]] else []) + LinesIn(rows[1..], cat)
  }

  /** The lines that name a category at all. */
  function Categorized(rows: seq<OrderLine>): seq<OrderLine>
  {
    if rows == [] then []
    else (if rows[0].category.Some? then [rows[0]] else []) + Categorized(rows[1..])
  }

  /** `'product_id_y': 'count'`: the lines whose product id is present. */
  function ProductCount(lines: seq<OrderLine>): nat
  {
    if lines == [] then 0
    else (if lines[0].productId.Some? then 1 else 0) + ProductCount(lines[1..])
  }

  /** The accumulator a category's lines should leave behind. */
  function Summarize(lines: seq<OrderLine>): CategoryAcc
  {
    CategoryAcc(ProductCount(lines), PriceSum(lines))
  }

  lemma {:induction false} LinesInMembers(rows: seq<OrderLine>, cat: string)
    ensures forall l :: l in LinesIn(rows, cat) <==> l in rows && l.category == Some(cat)
    ensures |LinesIn(rows, cat)| <= |rows|
  {
    if rows != [] {
      assert rows == [rows[0]] + rows[1..];
      LinesInMembers(rows[1..], cat);
    }
  }

  lemma CategoriesCons(x: OrderLine, rest: seq<OrderLine>)
    ensures Categories([x] + rest) == (if x.category.Some? then {x.category.value} else {}) + Categories(rest)
  {
    assert forall l :: l in [x] + rest <==> l == x || l in rest;
  }

  lemma LinesInCons(x: OrderLine, rest: seq<OrderLine>, cat: string)
    ensures LinesIn([x] + rest, cat) == (if x.category == Some(cat) then [x] else []) + LinesIn(rest, cat)
  {
    assert ([x] + rest)[1..] == rest;
  }

  lemma LinesInAbsent(rows: seq<OrderLine>, cat: string)
    requires cat !in Categories(rows)
    ensures LinesIn(rows, cat) == []
  {
    LinesInMembers(rows, cat);
  }

  // The grouping pass.

  function ProductFlag(x: OrderLine): nat
  {
    if x.productId.Some? then 1 else 0
  }

  function Open(x: OrderLine): CategoryAcc
  {
    CategoryAcc(ProductFlag(x), x.price)
  }

  function Absorb(a: CategoryAcc, x: OrderLine): CategoryAcc
  {
    CategoryAcc(ProductFlag(x) + a.products, x.price + a.revenue)
  }

  /** `df.groupby('product_category_name_english')`: one group per category some line names. */
  function GroupByCategory(rows: seq<OrderLine>): (g: Groups<CategoryAcc>)
    ensures WellFormed(g)
    ensures g.accs.Keys == Categories(rows)
  {
    if rows == [] then Empty()
    else
      var g := GroupByCategory(rows[1..]);
      var x := rows[0];
      assert rows == [x] + rows[1..];
      CategoriesCons(x, rows[1..]);
      match x.category
      case None => g
      case Some(cat) => Put(g, cat, if cat in g.accs then Absorb(g.accs[cat], x) else Open(x))
  }

  lemma AbsorbSummarizes(x: OrderLine, lines: seq<OrderLine>)
    ensures Summarize([x] + lines) == Absorb(Summarize(lines), x)
  {
    assert ([x] + lines)[1..] == lines;
  }

  lemma OpenSummarizes(x: OrderLine)
    ensures Summarize([x]) == Open(x)
  {
    assert PriceSum([x]) == x.price;
    assert ProductCount([x]) == ProductFlag(x);
  }

  /** The grouping pass leaves, for every category, the accumulator of exactly that category's lines. */
  lemma {:induction false} GroupByCategorySummarizes(rows: seq<OrderLine>, cat: string)
    requires cat in Categories(rows)
    ensures LinesIn(rows, cat) != []
    ensures GroupByCategory(rows).accs[cat] == Summarize(LinesIn(rows, cat))
  {
    var x, rest := rows[0], rows[1..];
    assert rows == [x] + rest;
    var g := GroupByCategory(rest);
    CategoriesCons(x, rest);
    LinesInCons(x, rest, cat);
    if x.category != Some(cat) {
      GroupByCategorySummarizes(rest, cat);
      assert GroupByCategory(rows).accs[cat] == g.accs[cat];
      assert LinesIn(rows, cat) == LinesIn(rest, cat);
      assert GroupByCategory(rows).accs[cat] == Summarize(LinesIn(rows, cat));
    } else if cat in Categories(rest) {
      GroupByCategorySummarizes(rest, cat);
      AbsorbSummarizes(x, LinesIn(rest, cat));
      assert GroupByCategory(rows) == Put(g, cat, Absorb(g.accs[cat], x));
      assert LinesIn(rows, cat) == [x] + LinesIn(rest, cat);
      assert GroupByCategory(rows).accs[cat] == Summarize(LinesIn(rows, cat));
    } else {
      LinesInAbsent(rest, cat);
      OpenSummarizes(x);
      assert LinesIn(rows, cat) == [x];
      assert GroupByCategory(rows) == Put(g, cat, Open(x));
      assert GroupByCategory(rows).accs[cat] == Summarize(LinesIn(rows, cat));
    }
  }

  function ToCategoryRow(cat: string, a: CategoryAcc): CategoryRow
  {
    CategoryRow(cat, a.products, a.revenue)
  }

  /** The frame `groupby(...).agg(...)` returns, in group order (lines 28-30, renamed at 33). */
  function Aggregate(rows: seq<OrderLine>): seq<CategoryRow>
  {
    Rows(GroupByCategory(rows), ToCategoryRow)
  }

  function TotalOrder(r: CategoryRow): int
  {
    r.totalOrder
  }

  function TotalRevenue(r: CategoryRow): int
  {
    r.totalRevenue
  }

  /** `create_bycategory_df(df)`. */
  function CreateByCategory(rows: seq<OrderLine>): (r: seq<CategoryRow>)
    ensures forall i, j :: 0 <= i < j < |r| ==> r[i].totalRevenue >= r[j].totalRevenue
  {
    var sorted := SortBy(Aggregate(rows), TotalRevenue, false);
    assert forall i, j :: 0 <= i < j < |sorted| ==> InOrder(TotalRevenue, false, sorted[i], sorted[j]);
    sorted
  }

  // What the summary says about each category.

  /** The row the source promises for category `cat` of the frame `rows`. */
  function ExpectedRow(rows: seq<OrderLine>, cat: string): CategoryRow
  {
    var lines := LinesIn(rows, cat);
    CategoryRow(cat, ProductCount(lines), PriceSum(lines))
  }

  /** The category names of the summary, in row order. */
  function CategoryColumn(r: seq<CategoryRow>): (names: seq<string>)
    ensures |names| == |r|
    ensures forall i :: 0 <= i < |r| ==> names[i] == r[i].category
  {
    if r == [] then [] else [r[0].category] + CategoryColumn(r[1..])
  }

  /** Every row of the grouped frame is the one its category's lines determine, and no category repeats. */
  lemma AggregateSummarizes(rows: seq<OrderLine>)
    ensures Distinct(Aggregate(rows))
    ensures forall i :: 0 <= i < |Aggregate(rows)| ==>
      var a := Aggregate(rows)[i];
      a.category in Categories(rows) && a == ExpectedRow(rows, a.category)
  {
    var g := GroupByCategory(rows);
    var aggs := Aggregate(rows);
    forall i | 0 <= i < |aggs|
      ensures aggs[i].category == g.keys[i] && g.keys[i] in Categories(rows)
      ensures aggs[i] == ExpectedRow(rows, g.keys[i])
    {
      GroupByCategorySummarizes(rows, g.keys[i]);
    }
  }

  lemma SortedRowOf(aggs: seq<CategoryRow>, k: nat) returns (i: nat)
    requires k < |aggs|
    ensures i < |aggs| && SortBy(aggs, TotalRevenue, false)[i] == aggs[k]
  {
    var sorted := SortBy(aggs, TotalRevenue, false);
    assert aggs[k] in multiset(sorted);
    i :| 0 <= i < |sorted| && sorted[i] == aggs[k];
  }

  lemma AggregateRowOf(rows: seq<OrderLine>, cat: string) returns (k: nat)
    requires cat in Categories(rows)
    ensures k < |Aggregate(rows)| && Aggregate(rows)[k].category == cat
  {
    var g := GroupByCategory(rows);
    assert cat in g.accs;
    k :| 0 <= k < |g.keys| && g.keys[k] == cat;
  }

  /** Each row of the category summary is its category's line count with a product id and its revenue. */
  lemma ByCategoryRowsAreExpected(rows: seq<OrderLine>)
    ensures var r := CreateByCategory(rows);
      forall i :: 0 <= i < |r| ==> r[i].category in Categories(rows) && r[i] == ExpectedRow(rows, r[i].category)
  {
    var aggs := Aggregate(rows);
    var r := CreateByCategory(rows);
    AggregateSummarizes(rows);
    forall i | 0 <= i < |r|
      ensures r[i].category in Categories(rows) && r[i] == ExpectedRow(rows, r[i].category)
    {
      assert r[i] in multiset(aggs);
      var k :| 0 <= k < |aggs| && aggs[k] == r[i];
    }
  }

  /** No category has two rows in the summary. */
  lemma ByCategoryDistinct(rows: seq<OrderLine>)
    ensures Distinct(CategoryColumn(CreateByCategory(rows)))
  {
    var r := CreateByCategory(rows);
    var names := CategoryColumn(r);
    AggregateSummarizes(rows);
    DistinctPermutation(Aggregate(rows), r);
    ByCategoryRowsAreExpected(rows);
    forall i, j | 0 <= i < j < |names|
      ensures names[i] != names[j]
    {
      assert r[i] != r[j];
    }
  }

  lemma CategoryHasRow(rows: seq<OrderLine>, cat: string)
    requires cat in Categories(rows)
    ensures cat in CategoryColumn(CreateByCategory(rows))
  {
    var k := AggregateRowOf(rows, cat);
    var i := SortedRowOf(Aggregate(rows), k);
    assert CategoryColumn(CreateByCategory(rows))[i] == cat;
  }

  /**
   * The category summary has exactly one row per distinct category named in its input; lines
   * without a category make no row.
   */
  lemma ByCategoryOneRowPerCategory(rows: seq<OrderLine>)
    ensures var r := CreateByCategory(rows);
      && |r| == |Categories(rows)|
      && Distinct(CategoryColumn(r))
      && (forall cat :: cat in Categories(rows) <==> cat in CategoryColumn(r))
  {
    ByCategoryDistinct(rows);
    ByCategoryCategoriesExact(rows);
    ByCategoryRowCount(rows);
  }

  lemma ByCategoryCategoriesExact(rows: seq<OrderLine>)
    ensures forall cat :: cat in Categories(rows) <==> cat in CategoryColumn(CreateByCategory(rows))
  {
    ByCategoryRowsAreExpected(rows);
    forall cat
      ensures cat in Categories(rows) <==> cat in CategoryColumn(CreateByCategory(rows))
    {
      if cat in Categories(rows) {
        CategoryHasRow(rows, cat);
      }
    }
  }

  lemma ByCategoryRowCount(rows: seq<OrderLine>)
    ensures |CreateByCategory(rows)| == |Categories(rows)|
  {
    var g := GroupByCategory(rows);
    DistinctCardinality(g.keys);
    assert (set k | k in g.keys) == g.accs.Keys;
    assert |CreateByCategory(rows)| == |Aggregate(rows)| == |g.keys|;
  }

  /** The grouped frame's revenue column adds up to the `price_y` total of the lines that name a category. */
  lemma {:induction false} AggregateRevenueConserved(rows: seq<OrderLine>)
    ensures SumBy(Aggregate(rows), TotalRevenue) == PriceSum(Categorized(rows))
  {
    if rows != [] {
      var x, rest := rows[0], rows[1..];
      var g := GroupByCategory(rest);
      AggregateRevenueConserved(rest);
      match x.category
      case None =>
        assert GroupByCategory(rows) == g;
        assert Categorized(rows) == Categorized(rest);
      case Some(cat) =>
        var v := if cat in g.accs then Absorb(g.accs[cat], x) else Open(x);
        PutSum(g, cat, v, ToCategoryRow, TotalRevenue);
        assert GroupByCategory(rows) == Put(g, cat, v);
        assert Categorized(rows) == [x] + Categorized(rest);
        assert ([x] + Categorized(rest))[1..] == Categorized(rest);
    }
  }

  /** Conservation: the revenue of all categories adds up to the `price_y` total of the lines that name one. */
  lemma ByCategoryRevenueConserved(rows: seq<OrderLine>)
    ensures SumBy(CreateByCategory(rows), TotalRevenue) == PriceSum(Categorized(rows))
  {
    SumBySortBy(Aggregate(rows), TotalRevenue, false, TotalRevenue);
    AggregateRevenueConserved(rows);
  }
}
