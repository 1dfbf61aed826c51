/** The supermarket sales dashboard: the table loaded from
    `supermarket_sales.csv` with French column names and French category
    values, the gender and city filters, and what the dashboard computes from
    the filtered rows (total amount, number of purchases, the city-gender
    histogram order, the product-line shares and the weekly amounts per city). */
module SupermarketSales {
  import opened Wrappers
  import opened Orders
  import opened Seqs
  import opened Grouping
  import opened Calendar
  import opened Decimal
  import opened Dropdown

  // ---------------------------------------------------------------------
  // Loading: French column names and French category values
  // ---------------------------------------------------------------------

  /** The dictionary `colonnes`, entry by entry: each column name of the
      file with its French name. */
  const ColumnLabels: seq<(string, string)> := [
    ("Invoice ID", "ID Facture"),
    ("Branch", "Succursale"),
    ("City", "Ville"),
    ("Customer type", "Type de client"),
    ("Gender", "Genre"),
    ("Product line", "Ligne de produit"),
    ("Unit price", "Prix unitaire"),
    ("Quantity", "Quantité"),
    ("Tax 5%", "Taxe 5%"),
    ("Total", "Montant total"),
    ("Date", "Date"),
    ("Time", "Heure"),
    ("Payment", "Paiement"),
    ("cogs", "Coût des marchandises vendues"),
    ("gross margin percentage", "Pourcentage de marge brute"),
    ("gross income", "Revenu brut"),
    ("Rating", "Note")
  ]

  const CustomerTypeLabels: map<string, string> := map["Member" := "Membre", "Normal" := "Normal"]

  const GenderLabels: map<string, string> := map["Female" := "Femme", "Male" := "Homme"]

  const ProductLineLabels: map<string, string> := map[
    "Health and beauty" := "Santé et beauté",
    "Electronic accessories" := "Accessoires électroniques",
    "Home and lifestyle" := "Maison et style de vie",
    "Sports and travel" := "Sport et voyage",
    "Food and beverages" := "Alimentation et boissons",
    "Fashion accessories" := "Accessoires de mode"
  ]

  const PaymentLabels: map<string, string> := map[
    "Ewallet" := "Portefeuille électronique",
    "Cash" := "Espèces",
    "Credit card" := "Carte de crédit"
  ]

  /** No two names are given the same French name. */
  ghost predicate Injective(m: map<string, string>) {
    forall a, b | a in m && b in m && a != b :: m[a] != m[b]
  }

  /** The dictionary names each column once and gives no two columns the
      same French name. */
  lemma ColumnLabelsInjective()
    ensures forall i, j | 0 <= i < j < |ColumnLabels| :: ColumnLabels[i].0 != ColumnLabels[j].0
    ensures forall i, j | 0 <= i < j < |ColumnLabels| :: ColumnLabels[i].1 != ColumnLabels[j].1
  {
  }

  lemma CustomerTypeLabelsInjective()
    ensures Injective(CustomerTypeLabels)
  {
  }

  lemma GenderLabelsInjective()
    ensures Injective(GenderLabels)
  {
  }

  lemma ProductLineLabelsInjective()
    ensures Injective(ProductLineLabels)
  {
  }

  lemma PaymentLabelsInjective()
    ensures Injective(PaymentLabels)
  {
  }

  /** The French name the entries give column `h`: the first entry for
      `h`, or `None` when no entry names it. */
  function LabelIn(entries: seq<(string, string)>, h: string): (r: Option<string>)
    ensures r.None? <==> forall i | 0 <= i < |entries| :: entries[i].0 != h
    ensures r.Some? ==> exists i :: 0 <= i < |entries| && entries[i] == (h, r.value)
  {
    if entries == [] then None
    else if entries[0].0 == h then Some(entries[0].1)
    else LabelIn(entries[1..], h)
  }

  /** A column the dictionary names. */
  predicate KnownColumn(h: string) {
    exists i :: 0 <= i < |ColumnLabels| && ColumnLabels[i].0 == h
  }

  /** `df.rename(columns=colonnes)` on one column name: a column the
      dictionary names takes its French name, any other keeps its name. */
  function RenameHeader(h: string): (r: string)
    ensures forall i | 0 <= i < |ColumnLabels| && ColumnLabels[i].0 == h :: r == ColumnLabels[i].1
    ensures !KnownColumn(h) ==> r == h
  {
    ColumnLabelsInjective();
    LabelIn(ColumnLabels, h).GetOr(h)
  }

  function RenameHeaders(hs: seq<string>): (r: seq<string>)
    ensures |r| == |hs|
    ensures forall i | 0 <= i < |hs| :: r[i] == RenameHeader(hs[i])
  {
    if hs == [] then [] else [RenameHeader(hs[0])] + RenameHeaders(hs[1..])
  }

  /** Renaming distinct columns the dictionary names keeps them distinct,
      and every new name is a French name of the dictionary. */
  lemma RenameKeepsColumnsDistinct(hs: seq<string>)
    requires NoDup(hs)
    requires forall h | h in hs :: KnownColumn(h)
    ensures NoDup(RenameHeaders(hs))
    ensures forall h | h in RenameHeaders(hs) :: exists i :: 0 <= i < |ColumnLabels| && ColumnLabels[i].1 == h
  {
    ColumnLabelsInjective();
    var r := RenameHeaders(hs);
    forall k | 0 <= k < |r|
      ensures exists i :: 0 <= i < |ColumnLabels| && ColumnLabels[i].0 == hs[k] && ColumnLabels[i].1 == r[k]
    {
      assert hs[k] in hs;
    }
  }

  /** `Series.map(d)`: a value `d` knows becomes its image, any other value
      (and a missing one) becomes missing. */
  function Translate(m: map<string, string>, v: Option<string>): (r: Option<string>)
    ensures r.Some? <==> v.Some? && v.value in m
    ensures r.Some? ==> r.value in m.Values
  {
    if v.Some? && v.value in m then Some(m[v.value]) else None
  }

  /** Translating by an injective map never merges two known values. */
  lemma TranslateInjective(m: map<string, string>, a: Option<string>, b: Option<string>)
    requires Injective(m)
    requires Translate(m, a).Some? && Translate(m, a) == Translate(m, b)
    ensures a == b
  {
  }

  /** One sale, holding the columns the dashboard reads. A missing value (NaN)
      is `None`; `date` is a day number. */
  datatype Sale = Sale(
    invoiceId: Option<string>,
    city: Option<string>,
    customerType: Option<string>,
    gender: Option<string>,
    productLine: Option<string>,
    payment: Option<string>,
    total: real,
    date: int)

  /** The four category columns of one sale put into French. */
  function TranslateSale(s: Sale): Sale {
    s.(customerType := Translate(CustomerTypeLabels, s.customerType),
       gender := Translate(GenderLabels, s.gender),
       productLine := Translate(ProductLineLabels, s.productLine),
       payment := Translate(PaymentLabels, s.payment))
  }

  function TranslateSales(rows: seq<Sale>): (r: seq<Sale>)
    ensures |r| == |rows|
    ensures forall i | 0 <= i < |rows| :: r[i] == TranslateSale(rows[i])
  {
    if rows == [] then [] else [TranslateSale(rows[0])] + TranslateSales(rows[1..])
  }

  /** After translation every category value is a French label or missing,
      and the other columns are untouched. */
  lemma TranslateSalesSpec(rows: seq<Sale>)
    ensures var r := TranslateSales(rows);
      forall i | 0 <= i < |r| ::
        && (r[i].customerType.None? || r[i].customerType.value in CustomerTypeLabels.Values)
        && (r[i].gender.None? || r[i].gender.value in GenderLabels.Values)
        && (r[i].productLine.None? || r[i].productLine.value in ProductLineLabels.Values)
        && (r[i].payment.None? || r[i].payment.value in PaymentLabels.Values)
        && r[i].invoiceId == rows[i].invoiceId && r[i].city == rows[i].city
        && r[i].total == rows[i].total && r[i].date == rows[i].date
  {
  }

  /** The module-level table `df`: its column names and its rows. */
  class SalesFrame {
    var headers: seq<string>
    var rows: seq<Sale>

    /** `pd.read_csv`: the file's column names and rows, as read. */
    constructor (headers: seq<string>, rows: seq<Sale>)
      ensures this.headers == headers && this.rows == rows
    {
      this.headers := headers;
      this.rows := rows;
    }

    /** `df.rename(columns=colonnes, inplace=True)`. */
    method RenameColumns()
      modifies this
      ensures headers == RenameHeaders(old(headers))
      ensures rows == old(rows)
    {
      headers := RenameHeaders(headers);
    }

    /** The four `df[col] = df[col].map(...)` assignments. */
    method TranslateCategories()
      modifies this
      ensures rows == TranslateSales(old(rows))
      ensures headers == old(headers)
    {
      rows := TranslateSales(rows);
    }

    /** The load step, in the order of the module: rename, then translate. */
    method Load()
      modifies this
      ensures headers == RenameHeaders(old(headers))
      ensures rows == TranslateSales(old(rows))
    {
      RenameColumns();
      TranslateCategories();
    }

    /** `update_dashboard`: every output is computed from a filtered copy,
        and the table itself is left as it is (the method modifies nothing). */
    method UpdateDashboard(genre: Option<seq<string>>, ville: Option<seq<string>>) returns (view: SalesView)
      ensures view == Dashboard(FilterSales(rows, genre, ville))
      ensures view.weekly == WeeklySeries(FilterSales(rows, genre, ville))
    {
      var filtered := FilterSales(rows, genre, ville);
      view := Dashboard(filtered);
    }
  }

  // ---------------------------------------------------------------------
  // The gender and city filters of `update_dashboard`
  // ---------------------------------------------------------------------

  /** `isin(sel)` on one cell: a missing value is in no selection. */
  predicate IsIn(v: Option<string>, sel: seq<string>) {
    v.Some? && v.value in sel
  }

  /** `if sel and sel != ["all"]`: a missing or empty selection, or the lone
      sentinel, selects every row. */
  predicate Restricts(sel: Option<seq<string>>) {
    sel.Some? && sel.value != [] && sel.value != [AllValue]
  }

  predicate GenderIn(sel: seq<string>, s: Sale) {
    IsIn(s.gender, sel)
  }

  predicate CityIn(sel: seq<string>, s: Sale) {
    IsIn(s.city, sel)
  }

  function ByGender(rows: seq<Sale>, genre: Option<seq<string>>): seq<Sale> {
    if Restricts(genre) then Filter(rows, s => GenderIn(genre.value, s)) else rows
  }

  function ByCity(rows: seq<Sale>, ville: Option<seq<string>>): seq<Sale> {
    if Restricts(ville) then Filter(rows, s => CityIn(ville.value, s)) else rows
  }

  /** The two filters of `update_dashboard`, gender first. */
  function FilterSales(rows: seq<Sale>, genre: Option<seq<string>>, ville: Option<seq<string>>): seq<Sale> {
    ByCity(ByGender(rows, genre), ville)
  }

  /** A row passes when each restricting selection holds its value. */
  predicate Selected(genre: Option<seq<string>>, ville: Option<seq<string>>, s: Sale) {
    && (Restricts(genre) ==> GenderIn(genre.value, s))
    && (Restricts(ville) ==> CityIn(ville.value, s))
  }

  /** The filtered table is the order-preserving selection of exactly the
      rows that pass both filters; with no restricting selection it is the
      whole table. */
  lemma FilterSalesSpec(rows: seq<Sale>, genre: Option<seq<string>>, ville: Option<seq<string>>)
    ensures FilterSales(rows, genre, ville) == Filter(rows, s => Selected(genre, ville, s))
    ensures !Restricts(genre) && !Restricts(ville) ==> FilterSales(rows, genre, ville) == rows
  {
    var sel := s => Selected(genre, ville, s);
    if Restricts(genre) && Restricts(ville) {
      FilterOfFilter(rows, s => GenderIn(genre.value, s), s => CityIn(ville.value, s), sel);
    } else if Restricts(genre) {
      FilterOfFilter(rows, s => GenderIn(genre.value, s), s => true, sel);
      FilterKeepsAll(Filter(rows, s => GenderIn(genre.value, s)), s => true);
    } else if Restricts(ville) {
      FilterOfFilter(rows, s => true, s => CityIn(ville.value, s), sel);
      FilterKeepsAll(rows, s => true);
    } else {
      FilterKeepsAll(rows, sel);
    }
  }

  // ---------------------------------------------------------------------
  // Indicators
  // ---------------------------------------------------------------------

  function SaleTotal(s: Sale): real {
    s.total
  }

  /** `data['Montant total'].sum()`. */
  function TotalAmount(rows: seq<Sale>): real {
    SumBy(rows, SaleTotal)
  }

  function InvoiceOf(s: Sale): Option<string> {
    s.invoiceId
  }

  /** `data['ID Facture'].nunique()`: missing identifiers are not counted. */
  function PurchaseCount(rows: seq<Sale>): nat {
    |Distinct(KeysOf(rows, InvoiceOf))|
  }

  /** The number of purchases is the number of distinct invoice identifiers;
      it is at most the number of rows, 0 for no rows, and at least 1 when
      some row has an identifier. */
  lemma PurchaseCountSpec(rows: seq<Sale>)
    ensures PurchaseCount(rows) == |set s | s in rows && s.invoiceId.Some? :: s.invoiceId.value|
    ensures PurchaseCount(rows) <= |rows|
    ensures rows == [] ==> PurchaseCount(rows) == 0
    ensures (exists s :: s in rows && s.invoiceId.Some?) ==> PurchaseCount(rows) >= 1
  {
    var ids := KeysOf(rows, InvoiceOf);
    DistinctCardinality(ids);
    assert (set x | x in ids) == (set s | s in rows && s.invoiceId.Some? :: s.invoiceId.value);
    if s :| s in rows && s.invoiceId.Some? {
      assert s.invoiceId.value in Distinct(ids);
    }
  }

  /** `afficher_nombre_total_achats`: the count with thousands separators. */
  function PurchaseCountText(rows: seq<Sale>): string {
    FormatInteger(PurchaseCount(rows))
  }

  /** The displayed count reads back as the count's digits, grouped by threes. */
  lemma PurchaseCountTextSpec(rows: seq<Sale>)
    ensures WithoutSpaces(PurchaseCountText(rows)) == Digits(PurchaseCount(rows))
    ensures ThousandsGrouped(PurchaseCountText(rows))
  {
    FormatIntegerSpec(PurchaseCount(rows));
  }

  // ---------------------------------------------------------------------
  // Histogram: rows in order of the `Ville_Genre` label
  // ---------------------------------------------------------------------

  /** `data["Ville"] + " - " + data["Genre"]`: missing when either part is. */
  function CityGender(s: Sale): (r: Option<string>)
    ensures r.Some? <==> s.city.Some? && s.gender.Some?
  {
    if s.city.Some? && s.gender.Some? then Some(s.city.value + " - " + s.gender.value) else None
  }

  predicate CityGenderLe(a: Sale, b: Sale) {
    OptStrLe(CityGender(a), CityGender(b))
  }

  lemma CityGenderLeIsTotalPreorder()
    ensures TotalPreorder(CityGenderLe)
  {
    OptStrLeIsTotalOrder();
  }

  /** `data.sort_values(by="Ville_Genre")`. */
  function HistogramRows(rows: seq<Sale>): seq<Sale> {
    SortBy(rows, CityGenderLe)
  }

  /** The histogram gets the same rows, ordered by label with missing labels last. */
  lemma HistogramRowsSpec(rows: seq<Sale>)
    ensures multiset(HistogramRows(rows)) == multiset(rows)
    ensures SortedBy(HistogramRows(rows), CityGenderLe)
  {
    CityGenderLeIsTotalPreorder();
    SortBySorted(rows, CityGenderLe);
  }

  // ---------------------------------------------------------------------
  // Product-line shares
  // ---------------------------------------------------------------------

  function ProductLineOf(s: Sale): Option<string> {
    s.productLine
  }

  /** `data.groupby("Ligne de produit").size()`: one tally per product line
      present (see `SortedCounts` for what each tally holds). */
  function CategoryCounts(rows: seq<Sale>): seq<Tally<string>> {
    SortedCounts(rows, ProductLineOf, StrLe)
  }

  /** The tallies come in strictly increasing order of product line. */
  lemma CategoryCountsOrdered(rows: seq<Sale>)
    ensures var r := CategoryCounts(rows);
      forall i, j | 0 <= i < j < |r| :: StrLe(r[i].key, r[j].key) && r[i].key != r[j].key
  {
    StrLeIsTotalOrder();
    SortedCountsOrdered(rows, ProductLineOf, StrLe);
  }

  /** The tallies add up to at most the number of rows, and to exactly that
      number when every row has a product line. */
  lemma CategoryCountsSum(rows: seq<Sale>)
    ensures TallySum(CategoryCounts(rows)) <= |rows|
    ensures (forall s | s in rows :: s.productLine.Some?) ==> TallySum(CategoryCounts(rows)) == |rows|
  {
    if forall s | s in rows :: s.productLine.Some? {
      KeyedAll(rows, ProductLineOf);
    }
  }

  function RealSum(xs: seq<real>): real {
    if xs == [] then 0.0 else xs[0] + RealSum(xs[1..])
  }

  /** `df["Nombre"] / df["Nombre"].sum()` for the tallies `c`. */
  function Shares(c: seq<Tally<string>>, total: nat): (r: seq<real>)
    requires total > 0
    ensures |r| == |c|
  {
    if c == [] then [] else [c[0].count as real / total as real] + Shares(c[1..], total)
  }

  /** The share of each product line: its count over the number of counted rows. */
  function CategoryShares(rows: seq<Sale>): seq<real> {
    var c := CategoryCounts(rows);
    if TallySum(c) == 0 then [] else Shares(c, TallySum(c))
  }

  lemma {:induction false} SharesSum(c: seq<Tally<string>>, total: nat)
    requires total > 0
    ensures RealSum(Shares(c, total)) == TallySum(c) as real / total as real
  {
    if c != [] {
      SharesSum(c[1..], total);
    }
  }

  lemma RealDivSelf(x: real)
    requires x > 0.0
    ensures x / x == 1.0
  {
  }

  /** The shares add up to 1 whenever some row has a product line. */
  lemma CategorySharesSum(rows: seq<Sale>)
    requires exists s :: s in rows && s.productLine.Some?
    ensures RealSum(CategoryShares(rows)) == 1.0
  {
    var c := CategoryCounts(rows);
    var t := TallySum(c);
    var s :| s in rows && s.productLine.Some?;
    assert t > 0 by {
      assert s in Keyed(rows, ProductLineOf);
    }
    assert CategoryShares(rows) == Shares(c, t);
    SharesSum(c, t);
    RealDivSelf(t as real);
  }

  // ---------------------------------------------------------------------
  // Weekly amounts per city
  // ---------------------------------------------------------------------

  /** A group key of the weekly chart: ISO year, ISO week and city. */
  datatype WeekCity = WeekCity(year: int, week: int, city: string)

  /** The key of a sale; missing when its city is. */
  function WeekCityOf(s: Sale): (k: Option<WeekCity>)
    ensures k.Some? <==> s.city.Some?
    ensures k.Some? ==> 1 <= k.value.week <= 53
  {
    if s.city.None? then None
    else
      var w := IsoWeekOf(s.date);
      Some(WeekCity(w.year, w.week, s.city.value))
  }

  /** Lexicographic order on (year, week, city). */
  predicate WeekCityLe(a: WeekCity, b: WeekCity) {
    || a.year < b.year
    || (a.year == b.year && a.week < b.week)
    || (a.year == b.year && a.week == b.week && StrLe(a.city, b.city))
  }

  lemma WeekCityLeIsTotalOrder()
    ensures TotalOrder(WeekCityLe)
  {
    StrLeIsTotalOrder();
  }

  /** `groupby(["Annee", "Semaine", "Ville"])["Montant total"].sum()`: one
      bucket per key present (see `SortedTotals` for what each bucket holds). */
  function WeeklyTotals(rows: seq<Sale>): seq<Bucket<WeekCity>> {
    SortedTotals(rows, WeekCityOf, WeekCityLe, SaleTotal)
  }

  /** The buckets come in strictly increasing (year, week, city) order. */
  lemma WeeklyTotalsOrdered(rows: seq<Sale>)
    ensures var r := WeeklyTotals(rows);
      forall i, j | 0 <= i < j < |r| :: WeekCityLe(r[i].key, r[j].key) && r[i].key != r[j].key
  {
    WeekCityLeIsTotalOrder();
    SortedTotalsOrdered(rows, WeekCityOf, WeekCityLe, SaleTotal);
  }

  /** When every row has a city, the buckets add up to the total amount. */
  lemma WeeklyTotalsSum(rows: seq<Sale>)
    requires forall s | s in rows :: s.city.Some?
    ensures BucketSum(WeeklyTotals(rows)) == TotalAmount(rows)
  {
    KeyedAll(rows, WeekCityOf);
  }

  /** `"S" + week + "-" + year`, the x-axis label of a week. */
  function WeekLabel(year: int, week: int): string {
    "S" + IntToString(week) + "-" + IntToString(year)
  }

  /** The position of the first `'-'` of `x`, or `|x|` when there is none. */
  function DashIndex(x: string): (n: nat)
    ensures n <= |x|
  {
    if x == [] || x[0] == '-' then 0 else 1 + DashIndex(x[1..])
  }

  /** After a run of digits, the first dash is the one that ends the run. */
  lemma {:induction false} DashIndexAfterDigits(a: string, b: string)
    requires AllDigits(a)
    ensures DashIndex(a + "-" + b) == |a|
  {
    if a != [] {
      assert (a + "-" + b)[1..] == a[1..] + "-" + b;
      DashIndexAfterDigits(a[1..], b);
    }
  }

  /** Two weeks with non-negative numbers never share a label. */
  lemma WeekLabelInjective(y1: int, w1: nat, y2: int, w2: nat)
    ensures WeekLabel(y1, w1) == WeekLabel(y2, w2) ==> y1 == y2 && w1 == w2
  {
    var a1, a2 := IntToString(w1), IntToString(w2);
    var b1, b2 := IntToString(y1), IntToString(y2);
    if WeekLabel(y1, w1) == WeekLabel(y2, w2) {
      assert a1 + "-" + b1 == WeekLabel(y1, w1)[1..];
      assert a2 + "-" + b2 == WeekLabel(y2, w2)[1..];
      SplitAfterDigits(a1, b1, a2, b2);
      IntToStringInjective(w1, w2);
      IntToStringInjective(y1, y2);
    }
  }

  /** A run of digits, a dash and a rest: the first dash separates the two
      parts, so equal strings have equal parts. */
  lemma SplitAfterDigits(a1: string, b1: string, a2: string, b2: string)
    requires AllDigits(a1) && AllDigits(a2)
    requires a1 + "-" + b1 == a2 + "-" + b2
    ensures a1 == a2 && b1 == b2
  {
    var l := a1 + "-" + b1;
    DashIndexAfterDigits(a1, b1);
    DashIndexAfterDigits(a2, b2);
    assert a1 == l[..|a1|] == a2;
    assert b1 == l[|a1| + 1..] == b2;
  }

  /** A point of the weekly line chart. */
  datatype WeeklyPoint = WeeklyPoint(weekLabel: string, city: string, total: real)

  function WeeklyPoints(buckets: seq<Bucket<WeekCity>>): (r: seq<WeeklyPoint>)
    ensures |r| == |buckets|
    ensures forall i | 0 <= i < |r| ::
      r[i] == WeeklyPoint(WeekLabel(buckets[i].key.year, buckets[i].key.week), buckets[i].key.city, buckets[i].total)
  {
    if buckets == [] then []
    else
      var k := buckets[0].key;
      [WeeklyPoint(WeekLabel(k.year, k.week), k.city, buckets[0].total)] + WeeklyPoints(buckets[1..])
  }

  /** `evolution_montant_total_achats`: the labelled weekly amounts. */
  function WeeklySeries(rows: seq<Sale>): seq<WeeklyPoint> {
    WeeklyPoints(WeeklyTotals(rows))
  }

  /** Every bucket's week is an ISO week number, 1 to 53. */
  lemma WeeklyTotalsWeeks(rows: seq<Sale>)
    ensures var r := WeeklyTotals(rows);
      forall i | 0 <= i < |r| :: 1 <= r[i].key.week <= 53
  {
    var r := WeeklyTotals(rows);
    forall i | 0 <= i < |r| ensures 1 <= r[i].key.week <= 53 {
      var g := Group(rows, WeekCityOf, r[i].key);
      assert g[0] in g;
    }
  }

  /** Within one city the chart's points carry distinct week labels. */
  lemma WeeklySeriesLabelsDistinct(rows: seq<Sale>)
    ensures var r := WeeklySeries(rows);
      forall i, j | 0 <= i < j < |r| && r[i].city == r[j].city :: r[i].weekLabel != r[j].weekLabel
  {
    var b := WeeklyTotals(rows);
    var r := WeeklySeries(rows);
    WeeklyTotalsWeeks(rows);
    WeeklyTotalsOrdered(rows);
    forall i, j | 0 <= i < j < |r| && r[i].city == r[j].city
      ensures r[i].weekLabel != r[j].weekLabel
    {
      var ki, kj := b[i].key, b[j].key;
      WeekLabelInjective(ki.year, ki.week, kj.year, kj.week);
    }
  }

  // ---------------------------------------------------------------------
  // What `update_dashboard` returns, and the drop-down options
  // ---------------------------------------------------------------------

  /** The data behind the five outputs: the amount (shown by `format_decimal`,
      not modelled), the purchase-count text, the histogram rows, the
      product-line tallies with their shares, and the weekly series. */
  datatype SalesView = SalesView(
    totalAmount: real,
    purchaseCount: string,
    histogram: seq<Sale>,
    categories: seq<Tally<string>>,
    shares: seq<real>,
    weekly: seq<WeeklyPoint>)

  function Dashboard(rows: seq<Sale>): SalesView {
    SalesView(TotalAmount(rows), PurchaseCountText(rows), HistogramRows(rows),
              CategoryCounts(rows), CategoryShares(rows), WeeklySeries(rows))
  }

  function GenderColumn(rows: seq<Sale>): (r: seq<Option<string>>)
    ensures |r| == |rows|
    ensures forall i | 0 <= i < |rows| :: r[i] == rows[i].gender
  {
    if rows == [] then [] else [rows[0].gender] + GenderColumn(rows[1..])
  }

  function CityColumn(rows: seq<Sale>): (r: seq<Option<string>>)
    ensures |r| == |rows|
    ensures forall i | 0 <= i < |rows| :: r[i] == rows[i].city
  {
    if rows == [] then [] else [rows[0].city] + CityColumn(rows[1..])
  }

  /** `options_genre`. */
  function GenderOptions(rows: seq<Sale>): seq<Choice> {
    Options("Tous les genres", GenderColumn(rows))
  }

  /** `options_ville`. */
  function CityOptions(rows: seq<Sale>): seq<Choice> {
    Options("Toutes les villes", CityColumn(rows))
  }

  /** Choosing any gender offered by the drop-down, the filter keeps exactly
      the rows of that gender (unless that gender is spelt like the sentinel,
      which translated genders never are). */
  lemma GenderOptionSelects(rows: seq<Sale>, i: int)
    requires 1 <= i < |GenderOptions(rows)|
    requires GenderOptions(rows)[i].value != AllValue
    ensures var g := GenderOptions(rows)[i].value;
      && (exists s :: s in rows && s.gender == Some(g))
      && forall s | s in rows :: s in FilterSales(rows, Some([g]), None) <==> s.gender == Some(g)
  {
    var g := GenderOptions(rows)[i].value;
    var col := GenderColumn(rows);
    OptionValueInColumn("Tous les genres", col, i);
    var k :| 0 <= k < |col| && col[k] == Some(g);
    assert rows[k].gender == Some(g);
    FilterSalesSpec(rows, Some([g]), None);
  }
}
