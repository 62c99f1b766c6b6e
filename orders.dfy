/** The order-line records the dashboard works on, and the date arithmetic on their timestamps. */
module Orders {

  datatype Option<+T> = None | Some(value: T)

  /** Timestamps are naive seconds since the epoch; a date is a whole number of days since the epoch. */
  const SECONDS_PER_DAY: int := 86400

  /** The calendar date of a timestamp (pandas `.dt.date`): floor division, also before the epoch. */
  function DayOf(ts: int): int
  {
    ts / SECONDS_PER_DAY
  }

  /** The timestamp of 00:00:00 on a date: what a bare `YYYY-MM-DD` string compares as against a timestamp. */
  function Midnight(day: int): int
  {
    day * SECONDS_PER_DAY
  }

  /** A timestamp lies on day `d` exactly when it is in [Midnight(d), Midnight(d + 1)). */
  lemma DayOfIsDayContaining(ts: int, d: int)
    ensures DayOf(ts) == d <==> Midnight(d) <= ts < Midnight(d + 1)
  {
    var q, r := ts / SECONDS_PER_DAY, ts % SECONDS_PER_DAY;
    assert ts == q * SECONDS_PER_DAY + r && 0 <= r < SECONDS_PER_DAY;
  }

  /** Midnight of a date lies on that date and is its earliest timestamp. */
  lemma MidnightStartsItsDay(d: int)
    ensures DayOf(Midnight(d)) == d
    ensures forall ts :: DayOf(ts) == d ==> Midnight(d) <= ts
  {
    DayOfIsDayContaining(Midnight(d), d);
    forall ts | DayOf(ts) == d
      ensures Midnight(d) <= ts
    {
      DayOfIsDayContaining(ts, d);
    }
  }

  /** Taking the date never reverses the order of two timestamps. */
  lemma DayOfMonotone(a: int, b: int)
    requires a <= b
    ensures DayOf(a) <= DayOf(b)
  {
    DayOfIsDayContaining(a, DayOf(a));
    DayOfIsDayContaining(b, DayOf(b));
  }

  /**
   * One row of the joined order dataset: one product line of one order.
   * `productId` is `product_id_y` and `category` is `product_category_name_english`; both may be
   * missing after the join. `price` is `price_y`, in the smallest currency unit.
   */
  datatype OrderLine = OrderLine(
    customerUniqueId: string,
    orderId: string,
    purchaseTs: int,
    productId: Option<string>,
    category: Option<string>,
    price: int)

  function Max(a: int, b: int): int
  {
    if a < b then b else a
  }

  /** The sum of `price_y` over some lines. */
  function PriceSum(lines: seq<OrderLine>): int
  {
    if lines == [] then 0 else lines[0].price + PriceSum(lines[1..])
  }
}
