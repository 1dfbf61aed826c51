/** The retail insight dashboard: the line items of
    `omnichannel_retail_line_items.csv` with a derived line total, and what
    the dashboard computes from the items of the chosen locations (the
    revenue and sales indicators of the last two months, the most frequent
    (gender, category) pairs, the weekly revenue and the table of the latest
    sales). */
module RetailInsight {
  import opened Wrappers
  import opened Orders
  import opened Seqs
  import opened Grouping
  import opened Calendar
  import opened Dropdown

  // ---------------------------------------------------------------------
  // Line items and the load step
  // ---------------------------------------------------------------------

  /** One line item, holding the nine selected columns and the derived
      `Total_price`. A missing value (NaN) is `None`; `date` is the day number
      of `Transaction_Date` (its `dt.date`), `month` the `Month` column. A
      column that does not exist yet is `None` in every row. */
  datatype LineItem = LineItem(
    customerId: Option<int>,
    gender: Option<string>,
    location: Option<string>,
    category: Option<string>,
    quantity: int,
    avgPrice: real,
    date: int,
    month: int,
    discountPct: real,
    totalPrice: Option<real>)

  /** `df[[...]]`: the selection keeps the nine named columns, so no line
      total exists yet. */
  function SelectColumns(items: seq<LineItem>): (r: seq<LineItem>)
    ensures |r| == |items|
    ensures forall i | 0 <= i < |r| :: r[i] == items[i].(totalPrice := None)
  {
    if items == [] then [] else [items[0].(totalPrice := None)] + SelectColumns(items[1..])
  }

  /** `fillna(0).astype(int)` on one customer identifier. */
  function FillCustomerId(x: LineItem): LineItem {
    x.(customerId := Some(x.customerId.GetOr(0)))
  }

  function FillCustomerIds(items: seq<LineItem>): (r: seq<LineItem>)
    ensures |r| == |items|
    ensures forall i | 0 <= i < |r| :: r[i] == FillCustomerId(items[i])
  {
    if items == [] then [] else [FillCustomerId(items[0])] + FillCustomerIds(items[1..])
  }

  /** The `Total_price` of one item. */
  function PriceItem(x: LineItem): LineItem {
    x.(totalPrice := Some(LineTotal(x.quantity, x.avgPrice, x.discountPct)))
  }

  function PriceItems(items: seq<LineItem>): (r: seq<LineItem>)
    ensures |r| == |items|
    ensures forall i | 0 <= i < |r| :: r[i] == PriceItem(items[i])
  {
    if items == [] then [] else [PriceItem(items[0])] + PriceItems(items[1..])
  }

  /** After the load step every item has an identifier (0 where it was
      missing, unchanged otherwise) and its line total, and no other column
      has changed. */
  lemma LoadedItemsSpec(items: seq<LineItem>)
    ensures var r := PriceItems(FillCustomerIds(items));
      && |r| == |items|
      && forall i | 0 <= i < |r| ::
        && r[i].customerId == Some(if items[i].customerId.Some? then items[i].customerId.value else 0)
        && r[i].totalPrice == Some(LineTotal(items[i].quantity, items[i].avgPrice, items[i].discountPct))
        && r[i].(customerId := items[i].customerId, totalPrice := items[i].totalPrice) == items[i]
  {
  }

  // ---------------------------------------------------------------------
  // The line total
  // ---------------------------------------------------------------------

  /** Rounding to the nearest integer, ties to the even one, as numpy's
      `round` does. */
  function RoundHalfEven(x: real): (n: int)
    ensures -0.5 <= n as real - x <= 0.5
  {
    var f := x.Floor;
    var frac := x - f as real;
    if frac < 0.5 then f
    else if frac > 0.5 then f + 1
    else if f % 2 == 0 then f
    else f + 1
  }

  /** An integer rounds to itself. */
  lemma RoundHalfEvenOfInteger(k: int)
    ensures RoundHalfEven(k as real) == k
  {
  }

  /** `Series.round(3)`, on exact numbers. */
  function RoundThousandths(x: real): (r: real)
    ensures -0.0005 <= r - x <= 0.0005
  {
    RoundHalfEven(x * 1000.0) as real / 1000.0
  }

  /** A number with at most three decimals is left as it is. */
  lemma RoundThousandthsExact(k: int)
    ensures RoundThousandths(k as real / 1000.0) == k as real / 1000.0
  {
    assert (k as real / 1000.0) * 1000.0 == k as real;
    RoundHalfEvenOfInteger(k);
  }

  /** `(1 - Discount_pct / 100).round(3)`: the share of the price paid. */
  function DiscountFactor(pct: real): real {
    RoundThousandths(1.0 - pct / 100.0)
  }

  /** `Quantity * Avg_Price * (1 - Discount_pct / 100).round(3)`: only the
      discount factor is rounded. */
  function LineTotal(quantity: int, avgPrice: real, pct: real): real {
    quantity as real * avgPrice * DiscountFactor(pct)
  }

  /** A discount given in tenths of a percent is applied exactly, so the line
      total is the discounted price with no rounding. */
  lemma DiscountFactorExact(tenths: int)
    ensures DiscountFactor(tenths as real / 10.0) == 1.0 - (tenths as real / 10.0) / 100.0
  {
    var k := 1000 - tenths;
    assert 1.0 - (tenths as real / 10.0) / 100.0 == k as real / 1000.0;
    RoundThousandthsExact(k);
  }

  /** No discount charges the full price; a 100 % discount charges nothing. */
  lemma LineTotalBounds(quantity: int, avgPrice: real)
    ensures LineTotal(quantity, avgPrice, 0.0) == quantity as real * avgPrice
    ensures LineTotal(quantity, avgPrice, 100.0) == 0.0
  {
    DiscountFactorExact(0);
    DiscountFactorExact(1000);
  }

  /** The rounding moves the discount factor by at most half a thousandth. */
  lemma DiscountFactorError(pct: real)
    ensures -0.0005 <= DiscountFactor(pct) - (1.0 - pct / 100.0) <= 0.0005
  {
  }

  // ---------------------------------------------------------------------
  // Revenue: `calculer_chiffre_affaire`
  // ---------------------------------------------------------------------

  /** A line total as `sum()` reads it: a missing one counts as nothing. */
  function PriceOf(x: LineItem): real {
    x.totalPrice.GetOr(0.0)
  }

  /** `data["Total_price"].sum()`. */
  function Revenue(items: seq<LineItem>): real {
    SumBy(items, PriceOf)
  }

  /** No items make no revenue, and the revenue of two tables put together
      is the sum of their revenues. */
  lemma RevenueAdditive(a: seq<LineItem>, b: seq<LineItem>)
    ensures Revenue([]) == 0.0
    ensures Revenue(a + b) == Revenue(a) + Revenue(b)
  {
    SumByConcat(a, b, PriceOf);
  }

  /** Splitting the items by any condition `p` and its complement `q`
      splits the revenue. */
  lemma RevenueSplit(items: seq<LineItem>, p: LineItem -> bool, q: LineItem -> bool)
    requires forall x :: q(x) == !p(x)
    ensures Revenue(items) == Revenue(Filter(items, p)) + Revenue(Filter(items, q))
  {
    SumBySplit(items, PriceOf, p, q);
  }

  // ---------------------------------------------------------------------
  // The month indicators: `indicateur_du_mois`
  // ---------------------------------------------------------------------

  /** `current_month - 1 if current_month > 1 else 12`. */
  function PreviousMonth(m: int): (p: int)
    ensures 1 <= m <= 12 ==> 1 <= p <= 12 && (p == 12 <==> m == 1)
  {
    if m > 1 then m - 1 else 12
  }

  /** The month after `m`, December wrapping to January. */
  function NextMonth(m: int): int {
    m % 12 + 1
  }

  /** On the twelve months, the previous month and the next month undo each
      other. */
  lemma PreviousMonthInverse(m: int)
    requires 1 <= m <= 12
    ensures NextMonth(PreviousMonth(m)) == m
    ensures PreviousMonth(NextMonth(m)) == m
  {
  }

  /** The row mask of the indicators: the current or the previous month. */
  predicate InTwoMonths(current: int, x: LineItem) {
    x.month == current || x.month == PreviousMonth(current)
  }

  function MonthOf(x: LineItem): Option<int> {
    Some(x.month)
  }

  /** The items of month `m`. */
  function ItemsOfMonth(items: seq<LineItem>, m: int): seq<LineItem> {
    Filter(items, (x: LineItem) => x.month == m)
  }

  /** The items of the two months. */
  function TwoMonths(items: seq<LineItem>, current: int): seq<LineItem> {
    Filter(items, (x: LineItem) => InTwoMonths(current, x))
  }

  /** Within the two months, the group of either month is that month's items. */
  lemma {:induction false} MonthGroup(items: seq<LineItem>, current: int, m: int)
    requires m == current || m == PreviousMonth(current)
    ensures Group(TwoMonths(items, current), MonthOf, m) == ItemsOfMonth(items, m)
  {
    if items != [] {
      var x, t := items[0], TwoMonths(items[1..], current);
      MonthGroup(items[1..], current, m);
      if InTwoMonths(current, x) {
        assert TwoMonths(items, current) == [x] + t;
        assert ([x] + t)[1..] == t;
      } else {
        assert TwoMonths(items, current) == t;
      }
    }
  }

  /** `value_counts().sort_index()` of the month over the two months. */
  function MonthCounts(items: seq<LineItem>, current: int): seq<Tally<int>> {
    SortedCounts(TwoMonths(items, current), MonthOf, IntLe)
  }

  /** `groupby("Month").apply(calculer_chiffre_affaire)` over the two months. */
  function MonthRevenues(items: seq<LineItem>, current: int): seq<Bucket<int>> {
    SortedTotals(TwoMonths(items, current), MonthOf, IntLe, PriceOf)
  }

  /** Each tally of the count indicator is for the current or the previous
      month and holds the number of items of that month, at least one. */
  lemma MonthCountsKeys(items: seq<LineItem>, current: int)
    ensures var r := MonthCounts(items, current);
      forall i | 0 <= i < |r| ::
        && (r[i].key == current || r[i].key == PreviousMonth(current))
        && r[i].count == |ItemsOfMonth(items, r[i].key)|
        && r[i].count >= 1
  {
    var t := TwoMonths(items, current);
    var r := MonthCounts(items, current);
    forall i | 0 <= i < |r|
      ensures r[i].key == current || r[i].key == PreviousMonth(current)
      ensures r[i].count == |ItemsOfMonth(items, r[i].key)|
    {
      var g := Group(t, MonthOf, r[i].key);
      assert g[0] in g;
      MonthGroup(items, current, r[i].key);
    }
  }

  /** The tallies come in increasing month order, at most one per month. */
  lemma MonthCountsOrdered(items: seq<LineItem>, current: int)
    ensures var r := MonthCounts(items, current);
      forall i, j | 0 <= i < j < |r| :: r[i].key < r[j].key
  {
    IntLeIsTotalOrder();
    SortedCountsOrdered(TwoMonths(items, current), MonthOf, IntLe);
  }

  /** Months in increasing order, each the current or the previous one,
      are at most two. */
  lemma AtMostTwoMonths(ks: seq<int>, current: int)
    requires forall i, j | 0 <= i < j < |ks| :: ks[i] < ks[j]
    requires forall i | 0 <= i < |ks| :: ks[i] == current || ks[i] == PreviousMonth(current)
    ensures |ks| <= 2
  {
    NoDupWithin(ks, {current, PreviousMonth(current)});
  }

  /** The count indicator holds at most two tallies, one for each month that
      has items, and they add up to the number of items of the two months. */
  lemma MonthCountsCover(items: seq<LineItem>, current: int)
    ensures var r := MonthCounts(items, current);
      && |r| <= 2
      && (forall x | x in TwoMonths(items, current) :: exists i :: 0 <= i < |r| && r[i].key == x.month)
      && TallySum(r) == |TwoMonths(items, current)|
  {
    MonthCountsAtMostTwo(items, current);
    KeyedAll(TwoMonths(items, current), MonthOf);
  }

  lemma MonthCountsAtMostTwo(items: seq<LineItem>, current: int)
    ensures |MonthCounts(items, current)| <= 2
  {
    var ks := TallyKeys(MonthCounts(items, current));
    MonthCountsKeys(items, current);
    MonthCountsOrdered(items, current);
    AtMostTwoMonths(ks, current);
  }

  /** Each bucket of the revenue indicator is for the current or the
      previous month, which has items. */
  lemma MonthRevenuesMonths(items: seq<LineItem>, current: int)
    ensures var r := MonthRevenues(items, current);
      forall i | 0 <= i < |r| ::
        && (r[i].key == current || r[i].key == PreviousMonth(current))
        && ItemsOfMonth(items, r[i].key) != []
  {
    var t := TwoMonths(items, current);
    var r := MonthRevenues(items, current);
    forall i | 0 <= i < |r|
      ensures r[i].key == current || r[i].key == PreviousMonth(current)
      ensures ItemsOfMonth(items, r[i].key) != []
    {
      var g := Group(t, MonthOf, r[i].key);
      assert g[0] in g;
      MonthGroup(items, current, r[i].key);
    }
  }

  /** Each bucket of the revenue indicator is for the current or the
      previous month, which has items, and holds that month's revenue. */
  lemma MonthRevenuesKeys(items: seq<LineItem>, current: int)
    ensures var r := MonthRevenues(items, current);
      forall i | 0 <= i < |r| ::
        && (r[i].key == current || r[i].key == PreviousMonth(current))
        && r[i].total == Revenue(ItemsOfMonth(items, r[i].key))
        && ItemsOfMonth(items, r[i].key) != []
  {
    var t := TwoMonths(items, current);
    var r := MonthRevenues(items, current);
    forall i | 0 <= i < |r|
      ensures r[i].key == current || r[i].key == PreviousMonth(current)
      ensures r[i].total == Revenue(ItemsOfMonth(items, r[i].key))
      ensures ItemsOfMonth(items, r[i].key) != []
    {
      var g := Group(t, MonthOf, r[i].key);
      assert g[0] in g;
      MonthGroup(items, current, r[i].key);
    }
  }

  /** The buckets come in increasing month order, at most one per month. */
  lemma MonthRevenuesOrdered(items: seq<LineItem>, current: int)
    ensures var r := MonthRevenues(items, current);
      forall i, j | 0 <= i < j < |r| :: r[i].key < r[j].key
  {
    IntLeIsTotalOrder();
    SortedTotalsOrdered(TwoMonths(items, current), MonthOf, IntLe, PriceOf);
  }

  /** The revenue indicator holds at most two buckets, one for each month
      that has items, and they add up to the revenue of the two months. */
  lemma MonthRevenuesCover(items: seq<LineItem>, current: int)
    ensures var r := MonthRevenues(items, current);
      && |r| <= 2
      && (forall x | x in TwoMonths(items, current) :: exists i :: 0 <= i < |r| && r[i].key == x.month)
      && BucketSum(r) == Revenue(TwoMonths(items, current))
  {
    MonthRevenuesAtMostTwo(items, current);
    KeyedAll(TwoMonths(items, current), MonthOf);
  }

  lemma MonthRevenuesAtMostTwo(items: seq<LineItem>, current: int)
    ensures |MonthRevenues(items, current)| <= 2
  {
    var ks := BucketKeys(MonthRevenues(items, current));
    MonthRevenuesMonths(items, current);
    MonthRevenuesOrdered(items, current);
    AtMostTwoMonths(ks, current);
  }

  /** `calendar.month_name` in the default locale; entry 0 is empty. */
  const MonthNames: seq<string> := ["", "January", "February", "March", "April", "May", "June",
    "July", "August", "September", "October", "November", "December"]

  /** `calendar.month_abbr` in the default locale; entry 0 is empty. */
  const MonthAbbrs: seq<string> := ["", "Jan", "Feb", "Mar", "Apr", "May", "Jun",
    "Jul", "Aug", "Sep", "Oct", "Nov", "Dec"]

  /** `month_abbr[i] if abbr else month_name[i]`: Python indexing of a
      13-entry list, a negative index counting from the end; `None` where
      Python raises `IndexError`. */
  function MonthLabel(i: int, abbr: bool): (r: Option<string>)
    ensures r.Some? <==> -13 <= i < 13
    ensures 1 <= i <= 12 ==> r == Some(if abbr then MonthAbbrs[i] else MonthNames[i])
  {
    var names := if abbr then MonthAbbrs else MonthNames;
    if 0 <= i < 13 then Some(names[i])
    else if -13 <= i < 0 then Some(names[13 + i])
    else None
  }

  /** One entry of an indicator series: its index label and its value. */
  datatype Entry<V> = Entry(caption: string, value: V)

  /** `resultat.index = [...]` on the count series: `None` when a month has
      no name. */
  function LabelCounts(t: seq<Tally<int>>, abbr: bool): (r: Option<seq<Entry<nat>>>)
    ensures r.Some? <==> forall i | 0 <= i < |t| :: MonthLabel(t[i].key, abbr).Some?
    ensures r.Some? ==> |r.value| == |t|
    ensures r.Some? ==> forall i | 0 <= i < |t| :: r.value[i] == Entry(MonthLabel(t[i].key, abbr).value, t[i].count)
  {
    if t == [] then Some([])
    else
      var head := MonthLabel(t[0].key, abbr);
      var tail := LabelCounts(t[1..], abbr);
      if head.Some? && tail.Some? then Some([Entry(head.value, t[0].count)] + tail.value) else None
  }

  /** `resultat.index = [...]` on the revenue series. */
  function LabelTotals(b: seq<Bucket<int>>, abbr: bool): (r: Option<seq<Entry<real>>>)
    ensures r.Some? <==> forall i | 0 <= i < |b| :: MonthLabel(b[i].key, abbr).Some?
    ensures r.Some? ==> |r.value| == |b|
    ensures r.Some? ==> forall i | 0 <= i < |b| :: r.value[i] == Entry(MonthLabel(b[i].key, abbr).value, b[i].total)
  {
    if b == [] then Some([])
    else
      var head := MonthLabel(b[0].key, abbr);
      var tail := LabelTotals(b[1..], abbr);
      if head.Some? && tail.Some? then Some([Entry(head.value, b[0].total)] + tail.value) else None
  }

  /** `indicateur_du_mois(data, current_month, freq=True, abbr)`. */
  function CountIndicator(items: seq<LineItem>, current: int, abbr: bool): Option<seq<Entry<nat>>> {
    LabelCounts(MonthCounts(items, current), abbr)
  }

  /** `indicateur_du_mois(data, current_month, freq=False, abbr)`. */
  function RevenueIndicator(items: seq<LineItem>, current: int, abbr: bool): Option<seq<Entry<real>>> {
    LabelTotals(MonthRevenues(items, current), abbr)
  }

  /** For a month from 1 to 12 both indicators are defined: their months are
      the current and the previous one, which have names. */
  lemma IndicatorsDefined(items: seq<LineItem>, current: int, abbr: bool)
    requires 1 <= current <= 12
    ensures CountIndicator(items, current, abbr).Some?
    ensures RevenueIndicator(items, current, abbr).Some?
  {
    MonthCountsKeys(items, current);
    MonthRevenuesMonths(items, current);
  }

  /** A `go.Indicator` with a delta: the value at position 1, the reference
      at position 0 and the label at position 1 as title. */
  datatype Delta<V> = Delta(title: string, value: V, reference: V)

  /** `df_plot[1]`, `df_plot[0]`, `df_plot.index[1]`: `None` where a series
      with fewer than two entries raises `IndexError`. */
  function DeltaFigure<V>(e: seq<Entry<V>>): (r: Option<Delta<V>>)
    ensures r.Some? <==> |e| >= 2
  {
    if |e| >= 2 then Some(Delta(e[1].caption, e[1].value, e[0].value)) else None
  }

  /** `plot_vente_mois(data)`: the default month (December) and full names. */
  function SalesFigure(items: seq<LineItem>): Option<Delta<nat>> {
    var e := CountIndicator(items, 12, false);
    if e.Some? then DeltaFigure(e.value) else None
  }

  /** `plot_chiffre_affaire_mois(data)`. */
  function RevenueFigure(items: seq<LineItem>): Option<Delta<real>> {
    var e := RevenueIndicator(items, 12, false);
    if e.Some? then DeltaFigure(e.value) else None
  }

  /** Increasing months, each November or December and present only when
      that month has items, and covering every month that has: both months
      have items exactly when there are two entries, November first. */
  lemma NovemberDecember(ks: seq<int>, nov: bool, dec: bool)
    requires forall i | 0 <= i < |ks| :: (ks[i] == 11 && nov) || (ks[i] == 12 && dec)
    requires forall i, j | 0 <= i < j < |ks| :: ks[i] < ks[j]
    requires nov ==> 11 in ks
    requires dec ==> 12 in ks
    ensures |ks| >= 2 <==> nov && dec
    ensures nov && dec ==> ks == [11, 12]
  {
    NoDupWithin(ks, (if nov then {11} else {}) + (if dec then {12} else {}));
  }

  /** The months of the count indicator for December: November or December,
      each present only when it has items, in increasing order. */
  lemma LateMonthCountKeys(items: seq<LineItem>)
    ensures var r := MonthCounts(items, 12);
      && (forall i | 0 <= i < |r| ::
            && ((r[i].key == 11 && ItemsOfMonth(items, 11) != []) || (r[i].key == 12 && ItemsOfMonth(items, 12) != []))
            && r[i].count == |ItemsOfMonth(items, r[i].key)|)
      && (forall i, j | 0 <= i < j < |r| :: r[i].key < r[j].key)
  {
    MonthCountsKeys(items, 12);
    MonthCountsOrdered(items, 12);
  }

  /** Every month of the two with items has its tally. */
  lemma LateMonthCountCover(items: seq<LineItem>)
    ensures var r := MonthCounts(items, 12);
      && (ItemsOfMonth(items, 11) != [] ==> 11 in TallyKeys(r))
      && (ItemsOfMonth(items, 12) != [] ==> 12 in TallyKeys(r))
  {
    LateMonthCountPresent(items, 11);
    LateMonthCountPresent(items, 12);
  }

  lemma LateMonthCountPresent(items: seq<LineItem>, m: int)
    requires m == 11 || m == 12
    ensures ItemsOfMonth(items, m) != [] ==> m in TallyKeys(MonthCounts(items, 12))
  {
    if ItemsOfMonth(items, m) != [] {
      var x := ItemsOfMonth(items, m)[0];
      LateMonthSelected(items, m);
      CountsCoverKey(TwoMonths(items, 12), MonthOf, IntLe, x);
    }
  }

  /** The months of the revenue indicator for December: November or
      December, each present only when it has items, in increasing order. */
  lemma LateMonthRevenueKeys(items: seq<LineItem>)
    ensures var r := MonthRevenues(items, 12);
      && (forall i | 0 <= i < |r| ::
            (r[i].key == 11 && ItemsOfMonth(items, 11) != []) || (r[i].key == 12 && ItemsOfMonth(items, 12) != []))
      && (forall i, j | 0 <= i < j < |r| :: r[i].key < r[j].key)
  {
    MonthRevenuesMonths(items, 12);
    MonthRevenuesOrdered(items, 12);
  }

  /** Every month of the two with items has its bucket. */
  lemma LateMonthRevenueCover(items: seq<LineItem>)
    ensures var r := MonthRevenues(items, 12);
      && (ItemsOfMonth(items, 11) != [] ==> 11 in BucketKeys(r))
      && (ItemsOfMonth(items, 12) != [] ==> 12 in BucketKeys(r))
  {
    LateMonthRevenuePresent(items, 11);
    LateMonthRevenuePresent(items, 12);
  }

  lemma LateMonthRevenuePresent(items: seq<LineItem>, m: int)
    requires m == 11 || m == 12
    ensures ItemsOfMonth(items, m) != [] ==> m in BucketKeys(MonthRevenues(items, 12))
  {
    if ItemsOfMonth(items, m) != [] {
      var x := ItemsOfMonth(items, m)[0];
      LateMonthSelected(items, m);
      TotalsCoverKey(TwoMonths(items, 12), MonthOf, IntLe, PriceOf, x);
    }
  }

  /** A month with items has one in the two-month selection. */
  lemma LateMonthSelected(items: seq<LineItem>, m: int)
    requires m == 11 || m == 12
    ensures ItemsOfMonth(items, m) != [] ==>
      var x := ItemsOfMonth(items, m)[0]; x in TwoMonths(items, 12) && x.month == m
  {
    if ItemsOfMonth(items, m) != [] {
      assert ItemsOfMonth(items, m)[0] in ItemsOfMonth(items, m);
    }
  }

  /** The December months of the count indicator, as a key sequence. */
  lemma LateMonthCountMonths(items: seq<LineItem>)
    ensures var ks := TallyKeys(MonthCounts(items, 12));
      && (|ks| >= 2 <==> ItemsOfMonth(items, 11) != [] && ItemsOfMonth(items, 12) != [])
      && (ItemsOfMonth(items, 11) != [] && ItemsOfMonth(items, 12) != [] ==> ks == [11, 12])
  {
    LateMonthCountKeySeq(items);
    LateMonthCountCover(items);
    NovemberDecember(TallyKeys(MonthCounts(items, 12)), ItemsOfMonth(items, 11) != [], ItemsOfMonth(items, 12) != []);
  }

  /** The months of the count indicator as a key sequence. */
  lemma LateMonthCountKeySeq(items: seq<LineItem>)
    ensures var ks := TallyKeys(MonthCounts(items, 12));
      && (forall i | 0 <= i < |ks| ::
            (ks[i] == 11 && ItemsOfMonth(items, 11) != []) || (ks[i] == 12 && ItemsOfMonth(items, 12) != []))
      && (forall i, j | 0 <= i < j < |ks| :: ks[i] < ks[j])
  {
    LateMonthCountKeys(items);
  }

  /** The December months of the revenue indicator, as a key sequence. */
  lemma LateMonthRevenueMonths(items: seq<LineItem>)
    ensures var ks := BucketKeys(MonthRevenues(items, 12));
      && (|ks| >= 2 <==> ItemsOfMonth(items, 11) != [] && ItemsOfMonth(items, 12) != [])
      && (ItemsOfMonth(items, 11) != [] && ItemsOfMonth(items, 12) != [] ==> ks == [11, 12])
  {
    LateMonthRevenueKeySeq(items);
    LateMonthRevenueCover(items);
    NovemberDecember(BucketKeys(MonthRevenues(items, 12)), ItemsOfMonth(items, 11) != [], ItemsOfMonth(items, 12) != []);
  }

  /** The months of the revenue indicator as a key sequence. */
  lemma LateMonthRevenueKeySeq(items: seq<LineItem>)
    ensures var ks := BucketKeys(MonthRevenues(items, 12));
      && (forall i | 0 <= i < |ks| ::
            (ks[i] == 11 && ItemsOfMonth(items, 11) != []) || (ks[i] == 12 && ItemsOfMonth(items, 12) != []))
      && (forall i, j | 0 <= i < j < |ks| :: ks[i] < ks[j])
  {
    LateMonthRevenueKeys(items);
  }

  /** The full names of November and December. */
  lemma LateMonthNames()
    ensures MonthLabel(11, false) == Some("November")
    ensures MonthLabel(12, false) == Some("December")
  {
  }

  /** The sales figure exists exactly when both November and December have
      items; it then shows December's number of items against November's. */
  lemma SalesFigureSpec(items: seq<LineItem>)
    ensures SalesFigure(items).Some? <==> ItemsOfMonth(items, 11) != [] && ItemsOfMonth(items, 12) != []
    ensures SalesFigure(items).Some? ==>
      SalesFigure(items).value == Delta("December", |ItemsOfMonth(items, 12)|, |ItemsOfMonth(items, 11)|)
  {
    var r := MonthCounts(items, 12);
    IndicatorsDefined(items, 12, false);
    LateMonthCountMonths(items);
    if ItemsOfMonth(items, 11) != [] && ItemsOfMonth(items, 12) != [] {
      LateMonthCountKeys(items);
      LateMonthNames();
      assert r[0].key == 11 && r[1].key == 12;
    }
  }

  /** The revenue figure exists exactly when both November and December have
      items; it then shows December's revenue against November's. */
  lemma RevenueFigureSpec(items: seq<LineItem>)
    ensures RevenueFigure(items).Some? <==> ItemsOfMonth(items, 11) != [] && ItemsOfMonth(items, 12) != []
    ensures RevenueFigure(items).Some? ==>
      RevenueFigure(items).value == Delta("December", Revenue(ItemsOfMonth(items, 12)), Revenue(ItemsOfMonth(items, 11)))
  {
    var r := MonthRevenues(items, 12);
    IndicatorsDefined(items, 12, false);
    LateMonthRevenueMonths(items);
    if ItemsOfMonth(items, 11) != [] && ItemsOfMonth(items, 12) != [] {
      LateMonthRevenueKeys(items);
      MonthRevenuesKeys(items, 12);
      LateMonthNames();
      assert r[0].key == 11 && r[1].key == 12;
    }
  }

  // ---------------------------------------------------------------------
  // The most frequent sales: `frequence_meilleure_vente`
  // ---------------------------------------------------------------------

  /** A row key of the cross table: gender and product category. */
  datatype Pair = Pair(gender: string, category: string)

  /** The cross-table key of an item; missing when either part is. */
  function PairOf(x: LineItem): (k: Option<Pair>)
    ensures k.Some? <==> x.gender.Some? && x.category.Some?
  {
    if x.gender.Some? && x.category.Some? then Some(Pair(x.gender.value, x.category.value)) else None
  }

  /** Lexicographic order on (gender, category), the order of the cross table. */
  predicate PairLe(a: Pair, b: Pair) {
    || (a.gender != b.gender && StrLe(a.gender, b.gender))
    || (a.gender == b.gender && StrLe(a.category, b.category))
  }

  lemma PairLeIsTotalOrder()
    ensures TotalOrder(PairLe)
  {
    StrLeIsTotalOrder();
  }

  /** `pd.crosstab([Gender, Product_Category], ..., aggfunc=len)`: one tally
      per (gender, category) pair present, in (gender, category) order. */
  function PairCounts(items: seq<LineItem>): seq<Tally<Pair>> {
    SortedCounts(items, PairOf, PairLe)
  }

  /** The cross table has one tally per (gender, category) pair present in
      the items, counting the items of that pair, in strictly increasing
      (gender, category) order. */
  lemma PairCountsSpec(items: seq<LineItem>)
    ensures var c := PairCounts(items);
      && (forall i | 0 <= i < |c| :: c[i].count == |Group(items, PairOf, c[i].key)| && c[i].count >= 1)
      && (forall x | x in items && x.gender.Some? && x.category.Some? ::
            exists i :: 0 <= i < |c| && c[i].key == Pair(x.gender.value, x.category.value))
      && (forall i, j | 0 <= i < j < |c| :: PairLe(c[i].key, c[j].key) && c[i].key != c[j].key)
  {
    PairLeIsTotalOrder();
    SortedCountsOrdered(items, PairOf, PairLe);
  }

  /** The tallies of gender `g`, in their order. */
  function OfGender(c: seq<Tally<Pair>>, g: string): seq<Tally<Pair>> {
    Filter(c, (t: Tally<Pair>) => t.key.gender == g)
  }

  /** The gender of every tally, in order. */
  function TallyGenders(c: seq<Tally<Pair>>): (r: seq<string>)
    ensures |r| == |c|
    ensures forall i | 0 <= i < |c| :: r[i] == c[i].key.gender
  {
    if c == [] then [] else [c[0].key.gender] + TallyGenders(c[1..])
  }

  /** The groups of `groupby(["Sexe"])`, in sorted order. */
  function Genders(c: seq<Tally<Pair>>): seq<string> {
    SortedUnique(TallyGenders(c), StrLe)
  }

  predicate CountAscending(a: Tally<Pair>, b: Tally<Pair>) {
    a.count <= b.count
  }

  predicate CountDescending(a: Tally<Pair>, b: Tally<Pair>) {
    a.count >= b.count
  }

  /** The order of `sort_values("Total vente", ascending=asc)`. */
  function CountOrder(asc: bool): (Tally<Pair>, Tally<Pair>) -> bool {
    if asc then CountAscending else CountDescending
  }

  lemma CountOrderIsTotalPreorder(asc: bool)
    ensures TotalPreorder(CountOrder(asc))
  {
  }

  /** One gender's part of the result:
      `x.sort_values("Total vente", ascending=asc).iloc[:top, :]`. */
  function GenderBlock(c: seq<Tally<Pair>>, g: string, top: int, asc: bool): seq<Tally<Pair>> {
    PyPrefix(SortBy(OfGender(c, g), CountOrder(asc)), top)
  }

  /** The blocks of the genders `gs`, one after the other. */
  function Blocks(c: seq<Tally<Pair>>, gs: seq<string>, top: int, asc: bool): seq<Tally<Pair>> {
    if gs == [] then [] else GenderBlock(c, gs[0], top, asc) + Blocks(c, gs[1..], top, asc)
  }

  /** `frequence_meilleure_vente(data, top, ascending)`. */
  function TopSales(items: seq<LineItem>, top: int, asc: bool): seq<Tally<Pair>> {
    var c := PairCounts(items);
    Blocks(c, Genders(c), top, asc)
  }

  /** A gender's block holds tallies of that gender, as many as `iloc[:top]`
      keeps, in the requested count order; a tally of that gender left out
      never comes before, in that order, one that is kept. */
  lemma GenderBlockSpec(c: seq<Tally<Pair>>, g: string, top: int, asc: bool)
    ensures var b, o := GenderBlock(c, g, top, asc), OfGender(c, g);
      && (forall t | t in b :: t in o)
      && multiset(b) <= multiset(o)
      && |b| == (if top >= 0 then Min(top, |o|) else Max(|o| + top, 0))
      && SortedBy(b, CountOrder(asc))
      && (forall t, q | t in o && t !in b && q in b :: CountOrder(asc)(q, t))
  {
    var o := OfGender(c, g);
    var s := SortBy(o, CountOrder(asc));
    var b := GenderBlock(c, g, top, asc);
    CountOrderIsTotalPreorder(asc);
    SortBySorted(o, CountOrder(asc));
    SortByMembers(o, CountOrder(asc));
    assert |s| == |o| by { assert |multiset(s)| == |multiset(o)|; }
    SortedPrefix(s, CountOrder(asc), |b|);
    PrefixMultiset(s, |b|);
  }

  /** The tallies of gender `g` among the blocks of distinct genders `gs`
      are `g`'s block when `g` is one of them, and none otherwise. */
  lemma {:induction false} BlocksOfGender(c: seq<Tally<Pair>>, gs: seq<string>, g: string, top: int, asc: bool)
    requires NoDup(gs)
    ensures OfGender(Blocks(c, gs, top, asc), g) == if g in gs then GenderBlock(c, g, top, asc) else []
  {
    if gs != [] {
      var h := gs[0];
      var b := GenderBlock(c, h, top, asc);
      var p := (t: Tally<Pair>) => t.key.gender == g;
      GenderBlockSpec(c, h, top, asc);
      FilterConcat(b, Blocks(c, gs[1..], top, asc), p);
      assert NoDup(gs[1..]);
      BlocksOfGender(c, gs[1..], g, top, asc);
      if h == g {
        FilterKeepsAll(b, p);
        assert g !in gs[1..];
      } else {
        FilterNone(b, p);
      }
    }
  }

  /** Every tally in the blocks is one of the cross table's tallies. */
  lemma {:induction false} BlocksMembers(c: seq<Tally<Pair>>, gs: seq<string>, top: int, asc: bool)
    ensures forall t | t in Blocks(c, gs, top, asc) :: t in c
  {
    if gs != [] {
      GenderBlockSpec(c, gs[0], top, asc);
      BlocksMembers(c, gs[1..], top, asc);
    }
  }

  /** A gender that no tally has owns an empty block. */
  lemma AbsentGenderBlock(c: seq<Tally<Pair>>, g: string, top: int, asc: bool)
    requires g !in Genders(c)
    ensures GenderBlock(c, g, top, asc) == []
  {
    var p := (t: Tally<Pair>) => t.key.gender == g;
    forall t | t in c ensures !p(t) {
      var i :| 0 <= i < |c| && c[i] == t;
      assert TallyGenders(c)[i] == t.key.gender;
    }
    FilterNone(c, p);
    var s := SortBy(OfGender(c, g), CountOrder(asc));
    assert |multiset(s)| == 0;
  }

  /** The rows of gender `g` in the result of `frequence_meilleure_vente`
      are that gender's block: its tallies sorted by count and cut at `top`. */
  lemma TopSalesOfGender(items: seq<LineItem>, g: string, top: int, asc: bool)
    ensures OfGender(TopSales(items, top, asc), g) == GenderBlock(PairCounts(items), g, top, asc)
  {
    var c := PairCounts(items);
    BlocksOfGender(c, Genders(c), g, top, asc);
    if g !in Genders(c) {
      AbsentGenderBlock(c, g, top, asc);
    }
  }

  /** Each row of the result counts the items of its (gender, category)
      pair, and is at least one. */
  lemma TopSalesCounts(items: seq<LineItem>, top: int, asc: bool)
    ensures forall t | t in TopSales(items, top, asc) ::
      t.count == |Group(items, PairOf, t.key)| && t.count >= 1
  {
    var c := PairCounts(items);
    BlocksMembers(c, Genders(c), top, asc);
    forall t | t in TopSales(items, top, asc)
      ensures t.count == |Group(items, PairOf, t.key)| && t.count >= 1
    {
      var i :| 0 <= i < |c| && c[i] == t;
    }
  }

  /** For each gender: at most `top` rows (for a non-negative `top`), as many
      as its pairs allow; sorted by count in the requested direction; and no
      pair of that gender left out has a better count than one that is kept. */
  lemma TopSalesSpec(items: seq<LineItem>, g: string, top: int, asc: bool)
    ensures var b, o := OfGender(TopSales(items, top, asc), g), OfGender(PairCounts(items), g);
      && multiset(b) <= multiset(o)
      && |b| == (if top >= 0 then Min(top, |o|) else Max(|o| + top, 0))
      && SortedBy(b, CountOrder(asc))
      && (forall t, q | t in o && t !in b && q in b :: CountOrder(asc)(q, t))
  {
    TopSalesOfGender(items, g, top, asc);
    GenderBlockSpec(PairCounts(items), g, top, asc);
  }

  // ---------------------------------------------------------------------
  // Weekly revenue: `groupby(pd.Grouper(key="Transaction_Date", freq="W"))`
  // ---------------------------------------------------------------------

  /** One point of the weekly series: the Sunday closing the week and the
      revenue of the items of that week. */
  datatype WeekTotal = WeekTotal(weekEnd: int, revenue: real)

  /** The mask of the items whose week ends on day `e`. */
  function InWeekOf(e: int): LineItem -> bool {
    (x: LineItem) => WeekEnd(x.date) == e
  }

  /** The mask of the items whose week ends in the `n` weeks closing from Sunday `a` on. */
  function InWeeks(a: int, n: int): LineItem -> bool {
    (x: LineItem) => a <= WeekEnd(x.date) < a + 7 * n
  }

  /** The items whose week ends on day `e`. */
  function WeekItems(items: seq<LineItem>, e: int): seq<LineItem> {
    Filter(items, InWeekOf(e))
  }

  /** The `n` consecutive weekly bins from the week ending on `start`. */
  function WeekSeries(items: seq<LineItem>, start: int, n: nat): (r: seq<WeekTotal>)
    ensures |r| == n
    ensures forall i | 0 <= i < n ::
      r[i] == WeekTotal(start + 7 * i, Revenue(WeekItems(items, start + 7 * i)))
  {
    if n == 0 then []
    else WeekSeries(items, start, n - 1) + [WeekTotal(start + 7 * (n - 1), Revenue(WeekItems(items, start + 7 * (n - 1))))]
  }

  /** The total of a weekly series, point by point. */
  function SeriesSum(r: seq<WeekTotal>): real {
    if r == [] then 0.0 else SeriesSum(r[..|r| - 1]) + r[|r| - 1].revenue
  }

  /** The earliest transaction day. */
  function FirstDay(items: seq<LineItem>): (d: int)
    requires items != []
    ensures forall x | x in items :: d <= x.date
    ensures exists i :: 0 <= i < |items| && items[i].date == d
  {
    if |items| == 1 then items[0].date else Min(items[0].date, FirstDay(items[1..]))
  }

  /** The latest transaction day. */
  function LastDay(items: seq<LineItem>): (d: int)
    requires items != []
    ensures forall x | x in items :: x.date <= d
    ensures exists i :: 0 <= i < |items| && items[i].date == d
  {
    if |items| == 1 then items[0].date else Max(items[0].date, LastDay(items[1..]))
  }

  /** The number of weeks, ending on Sundays, from the week of day `first`
      to the week of day `last`. */
  function WeekCount(first: int, last: int): int {
    (WeekEnd(last) - WeekEnd(first)) / 7 + 1
  }

  /** Every weekly bin from the first transaction's week to the last one's,
      empty weeks included with a zero revenue. */
  function WeeklyBuckets(items: seq<LineItem>): seq<WeekTotal> {
    if items == [] then []
    else
      var n := WeekCount(FirstDay(items), LastDay(items));
      WeekSeries(items, WeekEnd(FirstDay(items)), if n >= 0 then n else 0)
  }

  /** The series that `plot_evolution_chiffre_affaire` draws: every weekly
      bin except the last one (`[:-1]`). */
  function WeeklyRevenue(items: seq<LineItem>): seq<WeekTotal> {
    PyPrefix(WeeklyBuckets(items), -1)
  }

  /** The week of the first transaction opens the bins and the week of the
      last one closes them; there is at least one bin. */
  lemma WeekCountSpec(items: seq<LineItem>)
    requires items != []
    ensures var a, b := WeekEnd(FirstDay(items)), WeekEnd(LastDay(items));
      && WeekCount(FirstDay(items), LastDay(items)) >= 1
      && a + 7 * (WeekCount(FirstDay(items), LastDay(items)) - 1) == b
  {
    WeekEndMonotone(FirstDay(items), LastDay(items));
    SundaysApart(WeekEnd(FirstDay(items)), WeekEnd(LastDay(items)));
  }

  /** The mask of the items whose week ends before day `e`. */
  function WeekBefore(e: int): LineItem -> bool {
    (x: LineItem) => WeekEnd(x.date) < e
  }

  /** The mask of the items whose week ends on day `e` or later. */
  function WeekFrom(e: int): LineItem -> bool {
    (x: LineItem) => WeekEnd(x.date) >= e
  }

  /** Of the `n + 1` weeks from Sunday `a`, those closing before `a + 7n` are the first `n`. */
  lemma EarlierWeeks(items: seq<LineItem>, a: int, n: nat)
    ensures Filter(Filter(items, InWeeks(a, n + 1)), WeekBefore(a + 7 * n)) == Filter(items, InWeeks(a, n))
  {
    FilterOfFilter(items, InWeeks(a, n + 1), WeekBefore(a + 7 * n), InWeeks(a, n));
  }

  /** Of the `n + 1` weeks from Sunday `a`, the rest is the week closing on `a + 7n`. */
  lemma LastOfWeeks(items: seq<LineItem>, a: int, n: nat)
    requires IsoWeekday(a) == 7
    ensures Filter(Filter(items, InWeeks(a, n + 1)), WeekFrom(a + 7 * n)) == WeekItems(items, a + 7 * n)
  {
    SundayStep(a, n);
    forall x: LineItem
      ensures WeekEnd(x.date) == a + 7 * n
        <==> a <= WeekEnd(x.date) < a + 7 * (n + 1) && WeekEnd(x.date) >= a + 7 * n
    {
      if a + 7 * n <= WeekEnd(x.date) < a + 7 * (n + 1) {
        OneSundayPerWeek(a + 7 * n, WeekEnd(x.date));
      }
    }
    FilterOfFilter(items, InWeeks(a, n + 1), WeekFrom(a + 7 * n), InWeekOf(a + 7 * n));
  }

  /** The revenue of the `n + 1` weeks from Sunday `a` is that of the first
      `n` weeks plus that of the week closing on `a + 7n`. */
  lemma InWeeksStep(items: seq<LineItem>, a: int, n: nat)
    requires IsoWeekday(a) == 7
    ensures Revenue(Filter(items, InWeeks(a, n + 1)))
      == Revenue(Filter(items, InWeeks(a, n))) + Revenue(WeekItems(items, a + 7 * n))
  {
    SumBySplit(Filter(items, InWeeks(a, n + 1)), PriceOf, WeekBefore(a + 7 * n), WeekFrom(a + 7 * n));
    EarlierWeeks(items, a, n);
    LastOfWeeks(items, a, n);
  }

  /** The bins of the `n` weeks from Sunday `a` add up to the revenue of the
      items falling in those weeks. */
  lemma {:induction false} WeekSeriesSum(items: seq<LineItem>, a: int, n: nat)
    requires IsoWeekday(a) == 7
    ensures SeriesSum(WeekSeries(items, a, n)) == Revenue(Filter(items, InWeeks(a, n)))
  {
    if n == 0 {
      FilterNone(items, InWeeks(a, 0));
    } else {
      var r := WeekSeries(items, a, n);
      assert r[..n - 1] == WeekSeries(items, a, n - 1);
      WeekSeriesSum(items, a, n - 1);
      InWeeksStep(items, a, n - 1);
    }
  }

  /** The weekly bins run from the week of the first transaction to the
      week of the last one, one per week; there is none without items. */
  lemma WeeklyBucketsEnds(items: seq<LineItem>)
    ensures var r := WeeklyBuckets(items);
      && (items == [] ==> r == [])
      && (items != [] ==>
            && |r| == WeekCount(FirstDay(items), LastDay(items)) >= 1
            && r[0].weekEnd == WeekEnd(FirstDay(items))
            && r[|r| - 1].weekEnd == WeekEnd(LastDay(items)))
  {
    if items != [] {
      WeekCountSpec(items);
    }
  }

  /** The bins of a series from a Sunday all close on Sundays. */
  lemma SeriesSundays(items: seq<LineItem>, a: int, n: nat)
    requires IsoWeekday(a) == 7
    ensures forall i | 0 <= i < n :: IsoWeekday(WeekSeries(items, a, n)[i].weekEnd) == 7
  {
    forall i | 0 <= i < n ensures IsoWeekday(a + 7 * i) == 7 {
      SundayStep(a, i);
    }
  }

  /** Each weekly bin closes on a Sunday. */
  lemma WeeklyBucketsSundays(items: seq<LineItem>)
    ensures var r := WeeklyBuckets(items);
      forall i | 0 <= i < |r| :: IsoWeekday(r[i].weekEnd) == 7
  {
    if items != [] {
      var n := WeekCount(FirstDay(items), LastDay(items));
      SeriesSundays(items, WeekEnd(FirstDay(items)), if n >= 0 then n else 0);
    }
  }

  /** Each weekly bin closes seven days after the previous one and holds the
      revenue of the items of its week. */
  lemma WeeklyBucketsPoints(items: seq<LineItem>)
    ensures var r := WeeklyBuckets(items);
      && (forall i | 0 <= i < |r| :: r[i].revenue == Revenue(WeekItems(items, r[i].weekEnd)))
      && (forall i | 0 <= i < |r| - 1 :: r[i + 1].weekEnd == r[i].weekEnd + 7)
  {
    if items != [] {
      var n := WeekCount(FirstDay(items), LastDay(items));
      var m: nat := if n >= 0 then n else 0;
      assert WeeklyBuckets(items) == WeekSeries(items, WeekEnd(FirstDay(items)), m);
      WeekSeriesPoints(items, WeekEnd(FirstDay(items)), m);
    }
  }

  /** Each point of a series holds its week's revenue, a week after the previous point. */
  lemma WeekSeriesPoints(items: seq<LineItem>, start: int, n: nat)
    ensures var r := WeekSeries(items, start, n);
      && (forall i | 0 <= i < n :: r[i].revenue == Revenue(WeekItems(items, r[i].weekEnd)))
      && (forall i | 0 <= i < n - 1 :: r[i + 1].weekEnd == r[i].weekEnd + 7)
  {
    var r := WeekSeries(items, start, n);
    forall i | 0 <= i < n - 1
      ensures r[i + 1].weekEnd == r[i].weekEnd + 7
    {
      assert start + 7 * (i + 1) == start + 7 * i + 7;
    }
  }

  /** Every item falls in the weeks from the first transaction's to the last one's. */
  lemma ItemsInWeeks(items: seq<LineItem>)
    requires items != []
    ensures forall x | x in items ::
      InWeeks(WeekEnd(FirstDay(items)), WeekCount(FirstDay(items), LastDay(items)))(x)
  {
    WeekCountSpec(items);
    forall x | x in items
      ensures WeekEnd(FirstDay(items)) <= WeekEnd(x.date) <= WeekEnd(LastDay(items))
    {
      WeekEndMonotone(FirstDay(items), x.date);
      WeekEndMonotone(x.date, LastDay(items));
    }
  }

  /** The weekly bins add up to the revenue of all the items: every item
      falls in exactly one of them. */
  lemma WeeklyBucketsSum(items: seq<LineItem>)
    ensures SeriesSum(WeeklyBuckets(items)) == Revenue(items)
  {
    if items != [] {
      var a := WeekEnd(FirstDay(items));
      var n := WeekCount(FirstDay(items), LastDay(items));
      WeeklyBucketsEnds(items);
      WeekSeriesSum(items, a, n);
      ItemsInWeeks(items);
      FilterKeepsAll(items, InWeeks(a, n));
    }
  }

  /** The drawn series is the weekly bins without the last one, which is the
      week of the latest transaction: one point fewer than the number of
      weeks, and its points with that last week's revenue add up to the
      revenue of all the items. */
  lemma WeeklyRevenueSpec(items: seq<LineItem>)
    ensures var r, w := WeeklyRevenue(items), WeeklyBuckets(items);
      && |r| == (if items == [] then 0 else WeekCount(FirstDay(items), LastDay(items)) - 1)
      && r == w[..|r|]
      && (items != [] ==>
            SeriesSum(r) + Revenue(WeekItems(items, WeekEnd(LastDay(items)))) == Revenue(items))
  {
    var w := WeeklyBuckets(items);
    WeeklyBucketsEnds(items);
    WeeklyBucketsSum(items);
    if items != [] {
      WeeklyBucketsPoints(items);
      assert w == w[..|w| - 1] + [w[|w| - 1]];
    }
  }

  // ---------------------------------------------------------------------
  // The table of the latest sales
  // ---------------------------------------------------------------------

  /** One row of the table: the seven columns of `colonnes`. */
  datatype TableRow = TableRow(
    date: int,
    gender: Option<string>,
    location: Option<string>,
    category: Option<string>,
    quantity: int,
    avgPrice: real,
    discountPct: real)

  /** `df_filtre[colonnes]` on one item. */
  function Project(x: LineItem): TableRow {
    TableRow(x.date, x.gender, x.location, x.category, x.quantity, x.avgPrice, x.discountPct)
  }

  function Projections(items: seq<LineItem>): (r: seq<TableRow>)
    ensures |r| == |items|
    ensures forall i | 0 <= i < |r| :: r[i] == Project(items[i])
  {
    if items == [] then [] else [Project(items[0])] + Projections(items[1..])
  }

  /** The order of `sort_values(by="Date", ascending=False)`. */
  predicate DateDesc(a: TableRow, b: TableRow) {
    a.date >= b.date
  }

  lemma DateDescIsTotalPreorder()
    ensures TotalPreorder(DateDesc)
  {
  }

  /** `df_filtre[colonnes].sort_values(by="Date", ascending=False).head(100)`. */
  function SalesTable(items: seq<LineItem>): seq<TableRow> {
    PyPrefix(SortBy(Projections(items), DateDesc), 100)
  }

  /** The sorted projections are the projections, each as often. */
  lemma SortedProjections(items: seq<LineItem>)
    ensures var p := Projections(items);
      && multiset(SortBy(p, DateDesc)) == multiset(p)
      && |SortBy(p, DateDesc)| == |p|
      && SortedBy(SortBy(p, DateDesc), DateDesc)
  {
    var p := Projections(items);
    DateDescIsTotalPreorder();
    SortBySorted(p, DateDesc);
    assert |multiset(SortBy(p, DateDesc))| == |multiset(p)|;
  }

  /** The table holds a hundred rows, or every item when there are fewer;
      its rows are latest first, and no row left out is later than one kept. */
  lemma SalesTableSpec(items: seq<LineItem>)
    ensures var t, p := SalesTable(items), Projections(items);
      && |t| == Min(100, |items|)
      && SortedBy(t, DateDesc)
      && (forall r, q | r in p && r !in t && q in t :: r.date <= q.date)
  {
    var p := Projections(items);
    var s := SortBy(p, DateDesc);
    SortedProjections(items);
    SortByMembers(p, DateDesc);
    SortedPrefix(s, DateDesc, |SalesTable(items)|);
  }

  /** The rows of the table are rows of the projected items, each at most
      as often as there. */
  lemma SalesTableSubset(items: seq<LineItem>)
    ensures multiset(SalesTable(items)) <= multiset(Projections(items))
  {
    var s := SortBy(Projections(items), DateDesc);
    var t := SalesTable(items);
    PrefixMultiset(s, |t|);
  }

  /** Every row of the table is the projection of one of the items. */
  lemma SalesTableRows(items: seq<LineItem>)
    ensures forall r | r in SalesTable(items) :: exists i :: 0 <= i < |items| && r == Project(items[i])
  {
    SalesTableSubset(items);
    forall r | r in SalesTable(items)
      ensures exists i :: 0 <= i < |items| && r == Project(items[i])
    {
      assert r in multiset(Projections(items));
      var i :| 0 <= i < |items| && Projections(items)[i] == r;
    }
  }

  // ---------------------------------------------------------------------
  // The location filter of `update_graphs`
  // ---------------------------------------------------------------------

  /** `isin(locations)` on one item: a missing location is in no selection. */
  predicate AtLocations(locations: seq<string>, x: LineItem) {
    x.location.Some? && x.location.value in locations
  }

  /** `if locations: df_filtre = df_filtre[df_filtre["Location"].isin(locations)]`:
      a missing or empty selection keeps every item, and there is no
      sentinel value. */
  function SelectLocations(items: seq<LineItem>, locations: Option<seq<string>>): seq<LineItem> {
    if locations.Some? && locations.value != [] then Filter(items, (x: LineItem) => AtLocations(locations.value, x))
    else items
  }

  /** With no selection every item is kept; otherwise exactly the items
      whose location is selected are. */
  lemma SelectLocationsSpec(items: seq<LineItem>, locations: Option<seq<string>>)
    ensures locations.None? || locations.value == [] ==> SelectLocations(items, locations) == items
    ensures locations.Some? && locations.value != [] ==>
      forall x :: x in SelectLocations(items, locations) <==> x in items && AtLocations(locations.value, x)
  {
  }

  /** The column of locations. */
  function LocationColumn(items: seq<LineItem>): (r: seq<Option<string>>)
    ensures |r| == |items|
    ensures forall i | 0 <= i < |r| :: r[i] == items[i].location
  {
    if items == [] then [] else [items[0].location] + LocationColumn(items[1..])
  }

  /** The options of the `filtre-location` drop-down. */
  function LocationOptions(items: seq<LineItem>): seq<Choice> {
    Options("Toutes les zones", LocationColumn(items))
  }

  /** As written, the drop-down's first option, "Toutes les zones", sends
      the value `"all"`, which no location equals: choosing it selects no
      item. */
  lemma AllZonesSelectsNothing(items: seq<LineItem>)
    requires forall x | x in items :: x.location != Some(AllValue)
    ensures LocationOptions(items)[0] == Choice("Toutes les zones", AllValue)
    ensures SelectLocations(items, Some([LocationOptions(items)[0].value])) == []
  {
    OptionsSpec("Toutes les zones", LocationColumn(items));
    FilterNone(items, (x: LineItem) => AtLocations([AllValue], x));
  }

  /** As written, choosing "Toutes les zones" makes the callback fail: with
      no item selected, neither indicator has a position 1. */
  lemma AllZonesFailsCallback(items: seq<LineItem>)
    requires forall x | x in items :: x.location != Some(AllValue)
    ensures Dashboard(SelectLocations(items, Some([AllValue]))).revenue == None
    ensures Dashboard(SelectLocations(items, Some([AllValue]))).sales == None
  {
    FilterNone(items, (x: LineItem) => AtLocations([AllValue], x));
    assert SelectLocations(items, Some([AllValue])) == [];
    EmptySelectionFails();
  }

  /** With no item selected, neither indicator has a position 1. */
  lemma EmptySelectionFails()
    ensures Dashboard([]).revenue == None && Dashboard([]).sales == None
  {
    RevenueFigureSpec([]);
    SalesFigureSpec([]);
  }

  /** A selection that restricts the items: not missing, not empty, and not
      the lone sentinel. */
  predicate RestrictsLocations(locations: Option<seq<string>>) {
    locations.Some? && locations.value != [] && locations.value != [AllValue]
  }

  /** The location filter with the sentinel honoured, as the supermarket
      dashboard's filters do: the lone `"all"` keeps every item. */
  function SelectLocationsOrAll(items: seq<LineItem>, locations: Option<seq<string>>): seq<LineItem> {
    if RestrictsLocations(locations) then SelectLocations(items, locations) else items
  }

  /** The sentinel keeps every item; any other selection filters as
      `update_graphs` does. */
  lemma SelectLocationsOrAllSpec(items: seq<LineItem>, locations: Option<seq<string>>)
    ensures SelectLocationsOrAll(items, Some([AllValue])) == items
    ensures locations != Some([AllValue]) ==>
      SelectLocationsOrAll(items, locations) == SelectLocations(items, locations)
  {
  }

  /** With the sentinel honoured, choosing any single option of the
      drop-down keeps some item, as long as there are items. */
  lemma EveryOptionSelects(items: seq<LineItem>, i: int)
    requires items != []
    requires 0 <= i < |LocationOptions(items)|
    ensures SelectLocationsOrAll(items, Some([LocationOptions(items)[i].value])) != []
  {
    var v := LocationOptions(items)[i].value;
    if i > 0 && v != AllValue {
      OptionValueInColumn("Toutes les zones", LocationColumn(items), i);
      var j :| 0 <= j < |items| && LocationColumn(items)[j] == Some(v);
      assert items[j] in items && AtLocations([v], items[j]);
    }
  }

  // ---------------------------------------------------------------------
  // The load step and the dashboard callback
  // ---------------------------------------------------------------------

  /** What `update_graphs` returns: the revenue and sales indicators, the
      frequency bars, the weekly revenue line and the table records. A
      missing indicator is where `df_plot[1]` raises: the callback then
      fails and no output is updated. */
  datatype RetailView = RetailView(
    revenue: Option<Delta<real>>,
    sales: Option<Delta<nat>>,
    topSales: seq<Tally<Pair>>,
    weekly: seq<WeekTotal>,
    table: seq<TableRow>)

  /** Every output of `update_graphs`, from the selected items. The bar chart
      asks for `ascending=True`. */
  function Dashboard(items: seq<LineItem>): RetailView {
    RetailView(RevenueFigure(items), SalesFigure(items), TopSales(items, 10, true),
      WeeklyRevenue(items), SalesTable(items))
  }

  /** The module-level `df` of the dashboard. */
  class RetailFrame {
    var items: seq<LineItem>

    /** `pd.read_csv(...)` followed by the column selection. */
    constructor (read: seq<LineItem>)
      ensures items == SelectColumns(read)
    {
      items := SelectColumns(read);
    }

    /** `df["CustomerID"] = df["CustomerID"].fillna(0).astype(int)`. */
    method FillMissingIds()
      modifies this
      ensures items == FillCustomerIds(old(items))
    {
      items := FillCustomerIds(items);
    }

    /** `df["Total_price"] = ...`. */
    method AddTotalPrice()
      modifies this
      ensures items == PriceItems(old(items))
    {
      items := PriceItems(items);
    }

    /** The cleaning step, in the order of the module. */
    method Load()
      modifies this
      ensures items == PriceItems(FillCustomerIds(old(items)))
      ensures |items| == |old(items)|
      ensures forall x | x in items :: x.customerId.Some? && x.totalPrice.Some?
    {
      FillMissingIds();
      AddTotalPrice();
    }

    /** `update_graphs`: every output is computed from the selected copy of
        the items, and the frame is left as it is. */
    method UpdateGraphs(locations: Option<seq<string>>) returns (view: RetailView)
      ensures view == Dashboard(SelectLocations(items, locations))
    {
      var selected := SelectLocations(items, locations);
      view := Dashboard(selected);
    }

    /** The callback with the "all" sentinel honoured: the lone `"all"`
        keeps every item. */
    method UpdateGraphsAllZones(locations: Option<seq<string>>) returns (view: RetailView)
      ensures view == Dashboard(SelectLocationsOrAll(items, locations))
    {
      var selected := SelectLocationsOrAll(items, locations);
      view := Dashboard(selected);
    }
  }
}
