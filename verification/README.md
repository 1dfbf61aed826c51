# Two sales dashboards, modelled in Dafny

This project models the computations behind two Dash dashboards.

**The supermarket sales dashboard.** It loads a table of sales. It renames the columns into French and translates four category columns through fixed maps. The gender and city drop-downs each offer an "all" entry and one entry per value present. The filter keeps the rows of the selected genders, then of the selected cities. A missing selection, an empty one or the lone `"all"` keeps every row. From the filtered rows the dashboard computes:

- the total amount;
- the number of distinct invoices, written with spaces between groups of three digits (`format_entier`);
- the rows ordered by their "city - gender" label for the histogram;
- the number of sales per product line and each line's share;
- the amount per (ISO year, ISO week, city), labelled `S<week>-<year>`.

**The retail insight dashboard.** It loads line items. A missing customer identifier becomes 0. Each item gets a line total: quantity × average price × the discount factor `1 - discount/100`, rounded to three decimals. The revenue of a set of items is the sum of their line totals. From the items of the selected locations the dashboard computes:

- the number of items and the revenue of December against November;
- per gender, the (gender, category) pairs sorted by number of items and cut at ten;
- the revenue of every week ending on a Sunday, from the first transaction's week to the last one's, without the last week;
- the hundred latest sales, in seven columns.

The bar chart asks for ascending order, so it keeps each gender's ten *least* frequent pairs.

Dates are day numbers (day 0 is 1970-01-01). Prices are exact reals. A missing cell is `None`. The calendar module gives the ISO 8601 week date (ISO 8601:2004, section 4.1.4) and the Sunday that closes a week. The two load steps change the module-level table in place, so they are the classes `SalesFrame` and `RetailFrame`. Everything else is functions over sequences of rows, with lemmas.

Modules:

- `Wrappers`, `Orders`, `Seqs`, `Grouping`, `Calendar`, `Decimal`, `Dropdown`: the pandas and Python operations the dashboards use, namely `isin` masks, `unique`, `sort_values`, `groupby`/`value_counts`/`crosstab`, `sum`, slicing, `str` and the `,` format of integers, dates, and option lists.
- `SupermarketSales` and `RetailInsight`: the two dashboards.

Where the general description of these dashboards and the code differ, the model follows the code:

- The retail location filter has no "all" sentinel; see Findings.
- `sort_values` does not promise a stable order, so no order among equal counts or equal dates is stated.

## Model

| member | source | states |
|---|---|---|
| SupermarketSales.ColumnLabelsInjective | supermarket_sales_dashboard/supermarket_sales_dashboard.py:28-46 | the dictionary names no column twice and gives no two columns the same French name |
| SupermarketSales.LabelIn | supermarket_sales_dashboard/supermarket_sales_dashboard.py:47 | the lookup finds nothing exactly when no entry names the column, and otherwise returns the French name of an entry for it |
| SupermarketSales.CustomerTypeLabelsInjective | supermarket_sales_dashboard/supermarket_sales_dashboard.py:51 | the customer-type map gives distinct labels |
| SupermarketSales.GenderLabelsInjective | supermarket_sales_dashboard/supermarket_sales_dashboard.py:53 | the gender map gives distinct labels |
| SupermarketSales.ProductLineLabelsInjective | supermarket_sales_dashboard/supermarket_sales_dashboard.py:55-62 | the product-line map gives distinct labels |
| SupermarketSales.PaymentLabelsInjective | supermarket_sales_dashboard/supermarket_sales_dashboard.py:64-68 | the payment map gives distinct labels |
| SupermarketSales.RenameHeader | supermarket_sales_dashboard/supermarket_sales_dashboard.py:47 | a known column takes its French name; an unknown one keeps its name |
| SupermarketSales.RenameKeepsColumnsDistinct | supermarket_sales_dashboard/supermarket_sales_dashboard.py:47 | renaming distinct known columns keeps them distinct, and every new name is a French name |
| SupermarketSales.Translate | supermarket_sales_dashboard/supermarket_sales_dashboard.py:70-73 | `Series.map`: defined exactly for values the map knows, and then a label of the map; missing otherwise |
| SupermarketSales.TranslateInjective | supermarket_sales_dashboard/supermarket_sales_dashboard.py:70-73 | translation by an injective map never merges two values |
| SupermarketSales.TranslateSalesSpec | supermarket_sales_dashboard/supermarket_sales_dashboard.py:70-73 | after translation every category cell is a French label or missing; invoice, city, total and date are unchanged |
| SupermarketSales.SalesFrame.constructor | supermarket_sales_dashboard/supermarket_sales_dashboard.py:20 | the frame holds the file's columns and rows |
| SupermarketSales.SalesFrame.RenameColumns | supermarket_sales_dashboard/supermarket_sales_dashboard.py:47 | in-place rename: the headers become their French names; the rows are unchanged |
| SupermarketSales.SalesFrame.TranslateCategories | supermarket_sales_dashboard/supermarket_sales_dashboard.py:70-73 | in-place map of the four category columns; the headers are unchanged |
| SupermarketSales.SalesFrame.Load | supermarket_sales_dashboard/supermarket_sales_dashboard.py:47-73 | the load step is the rename followed by the translation |
| SupermarketSales.SalesFrame.UpdateDashboard | supermarket_sales_dashboard/supermarket_sales_dashboard.py:625-655 | every output is computed from the filtered copy; the frame is not modified |
| SupermarketSales.FilterSalesSpec | supermarket_sales_dashboard/supermarket_sales_dashboard.py:627-633 | the two filters keep exactly the rows passing both selections, in table order; with no restricting selection (missing, empty or `["all"]`) all rows are kept |
| SupermarketSales.PurchaseCountSpec | supermarket_sales_dashboard/supermarket_sales_dashboard.py:104-106 | `nunique` is the number of distinct present invoice identifiers; at most the row count; 0 for no rows; at least 1 when some row has one |
| SupermarketSales.PurchaseCountTextSpec | supermarket_sales_dashboard/supermarket_sales_dashboard.py:104-106 | the displayed count without its spaces is the count's digits, and the digits are grouped by threes from the right |
| Decimal.FormatIntegerSpec | supermarket_sales_dashboard/supermarket_sales_dashboard.py:92-93 | `format_entier(x)` without spaces is `str(x)`; after the sign the digits come in a first group of 1-3 and then groups of exactly 3 |
| Decimal.FormatIntegerExample | supermarket_sales_dashboard/supermarket_sales_dashboard.py:92-93 | `format_entier(1234)` is `"1 234"` |
| Decimal.DigitsRoundTrip | supermarket_sales_dashboard/supermarket_sales_dashboard.py:239 | reading back the decimal digits of `n` gives `n` |
| Decimal.IntToStringInjective | supermarket_sales_dashboard/supermarket_sales_dashboard.py:239 | distinct integers print differently |
| SupermarketSales.CityGender | supermarket_sales_dashboard/supermarket_sales_dashboard.py:114 | the `Ville_Genre` label exists exactly when city and gender both do |
| SupermarketSales.HistogramRowsSpec | supermarket_sales_dashboard/supermarket_sales_dashboard.py:113-115 | the histogram gets the same rows, each as often, sorted by label with missing labels last |
| Grouping.SortedCounts | supermarket_sales_dashboard/supermarket_sales_dashboard.py:169 | `groupby().size()`: one tally per present key, each the size of its group and at least 1, distinct keys, adding up to the number of keyed rows |
| SupermarketSales.CategoryCountsOrdered | supermarket_sales_dashboard/supermarket_sales_dashboard.py:169 | the product-line tallies are in strictly increasing product-line order |
| SupermarketSales.CategoryCountsSum | supermarket_sales_dashboard/supermarket_sales_dashboard.py:169 | the tallies add up to at most the row count, and to exactly it when every row has a product line |
| SupermarketSales.CategorySharesSum | supermarket_sales_dashboard/supermarket_sales_dashboard.py:170 | when some row has a product line, the shares (each count over the total) add up to 1 |
| Calendar.IsoWeekOfJanuaryFourth | supermarket_sales_dashboard/supermarket_sales_dashboard.py:224 | January 4 is always in ISO week 1 of its own year |
| Calendar.IsoWeekOfNextWeek | supermarket_sales_dashboard/supermarket_sales_dashboard.py:224-227 | seven days later is the next ISO week, the same year or week 1 of the next |
| SupermarketSales.WeekCityOf | supermarket_sales_dashboard/supermarket_sales_dashboard.py:224-227 | the (ISO year, ISO week, city) key exists exactly when the city does, with a week from 1 to 53 |
| Grouping.SortedTotals | supermarket_sales_dashboard/supermarket_sales_dashboard.py:230-235 | `groupby().sum()`: one bucket per present key holding its group's sum, distinct keys, every keyed row covered, adding up to the keyed rows' sum |
| SupermarketSales.WeeklyTotalsOrdered | supermarket_sales_dashboard/supermarket_sales_dashboard.py:230-235 | the buckets are in strictly increasing (year, week, city) order |
| SupermarketSales.WeeklyTotalsSum | supermarket_sales_dashboard/supermarket_sales_dashboard.py:230-235 | the buckets add up to the total amount |
| SupermarketSales.WeeklyTotalsWeeks | supermarket_sales_dashboard/supermarket_sales_dashboard.py:224 | every bucket's week is from 1 to 53 |
| SupermarketSales.WeekLabelInjective | supermarket_sales_dashboard/supermarket_sales_dashboard.py:238-240 | `"S" + week + "-" + year` determines the week and the year |
| SupermarketSales.WeeklySeriesLabelsDistinct | supermarket_sales_dashboard/supermarket_sales_dashboard.py:238-240 | within one city the chart's points have distinct week labels |
| Dropdown.OptionsSpec | supermarket_sales_dashboard/supermarket_sales_dashboard.py:283-289 | the options are the "all" entry, then each present value once, labelled by itself, in increasing order |
| SupermarketSales.GenderOptionSelects | supermarket_sales_dashboard/supermarket_sales_dashboard.py:283-285 | an offered gender occurs in the table, and choosing it keeps exactly that gender's rows |
| RetailInsight.SelectColumns | retail_insight_dashboard/retail_insight_dashboard.py:37-49 | the column selection keeps every item, with no line total yet |
| RetailInsight.FillCustomerIds | retail_insight_dashboard/retail_insight_dashboard.py:66 | `fillna(0)` on each identifier, item by item |
| RetailInsight.LoadedItemsSpec | retail_insight_dashboard/retail_insight_dashboard.py:66-71 | after loading, every identifier is present (0 where missing), every item has its line total, and nothing else changes |
| RetailInsight.RetailFrame.constructor | retail_insight_dashboard/retail_insight_dashboard.py:37-49 | the frame holds the selected columns of the file's items |
| RetailInsight.RetailFrame.FillMissingIds | retail_insight_dashboard/retail_insight_dashboard.py:66 | in-place `fillna(0)` of the identifiers |
| RetailInsight.RetailFrame.AddTotalPrice | retail_insight_dashboard/retail_insight_dashboard.py:69-71 | in-place assignment of the line totals |
| RetailInsight.RetailFrame.Load | retail_insight_dashboard/retail_insight_dashboard.py:66-71 | after the load step every item has an identifier and a line total, and the item count is unchanged |
| RetailInsight.RoundHalfEven | retail_insight_dashboard/retail_insight_dashboard.py:70 | rounding moves a number by at most one half |
| RetailInsight.RoundThousandths | retail_insight_dashboard/retail_insight_dashboard.py:70 | `round(3)` moves a number by at most half a thousandth |
| RetailInsight.RoundThousandthsExact | retail_insight_dashboard/retail_insight_dashboard.py:70 | a number with three decimals is unchanged by `round(3)` |
| RetailInsight.DiscountFactorExact | retail_insight_dashboard/retail_insight_dashboard.py:70 | a discount in tenths of a percent gives exactly `1 - discount/100` |
| RetailInsight.DiscountFactorError | retail_insight_dashboard/retail_insight_dashboard.py:70 | the rounded factor is within half a thousandth of `1 - discount/100` |
| RetailInsight.LineTotalBounds | retail_insight_dashboard/retail_insight_dashboard.py:69-71 | no discount gives quantity × price; a 100 % discount gives 0 |
| RetailInsight.RevenueAdditive | retail_insight_dashboard/retail_insight_dashboard.py:81-82 | no items make no revenue; revenue is additive over concatenation |
| RetailInsight.RevenueSplit | retail_insight_dashboard/retail_insight_dashboard.py:81-82 | splitting the items by a condition and its complement splits the revenue |
| RetailInsight.PreviousMonth | retail_insight_dashboard/retail_insight_dashboard.py:108 | for a month 1-12 the previous month is 1-12, and is 12 exactly for January |
| RetailInsight.PreviousMonthInverse | retail_insight_dashboard/retail_insight_dashboard.py:108 | previous and next month undo each other on 1-12 |
| RetailInsight.MonthGroup | retail_insight_dashboard/retail_insight_dashboard.py:109-111 | within the two months, either month's group is that month's items |
| RetailInsight.MonthCountsKeys | retail_insight_dashboard/retail_insight_dashboard.py:109-112 | each count is for the current or the previous month and is that month's item count, at least 1 |
| RetailInsight.MonthCountsOrdered | retail_insight_dashboard/retail_insight_dashboard.py:113-114 | `sort_index`: the counts are in strictly increasing month order |
| RetailInsight.MonthCountsCover | retail_insight_dashboard/retail_insight_dashboard.py:109-112 | at most two counts; every month with items has one; they add up to the items of the two months |
| RetailInsight.MonthRevenuesKeys | retail_insight_dashboard/retail_insight_dashboard.py:119-123 | each revenue is for the current or the previous month, which has items, and is that month's revenue |
| RetailInsight.MonthRevenuesOrdered | retail_insight_dashboard/retail_insight_dashboard.py:119-123 | the revenues are in strictly increasing month order |
| RetailInsight.MonthRevenuesCover | retail_insight_dashboard/retail_insight_dashboard.py:119-123 | at most two revenues; every month with items has one; they add up to the revenue of the two months |
| RetailInsight.MonthLabel | retail_insight_dashboard/retail_insight_dashboard.py:115-117 | the month name exists exactly for Python's valid indices of the 13-entry list, and is the month's name for 1-12 |
| RetailInsight.LabelCounts | retail_insight_dashboard/retail_insight_dashboard.py:115-117 | relabelling keeps every count in place and fails exactly when some month has no name |
| RetailInsight.LabelTotals | retail_insight_dashboard/retail_insight_dashboard.py:124-126 | relabelling keeps every revenue in place and fails exactly when some month has no name |
| RetailInsight.IndicatorsDefined | retail_insight_dashboard/retail_insight_dashboard.py:107-128 | for a current month 1-12 both indicators are defined |
| RetailInsight.DeltaFigure | retail_insight_dashboard/retail_insight_dashboard.py:165-170 | the indicator figure exists exactly when the series has two entries (else `IndexError`) |
| RetailInsight.SalesFigureSpec | retail_insight_dashboard/retail_insight_dashboard.py:177-188 | the sales figure exists exactly when November and December both have items, and shows December's item count against November's |
| RetailInsight.RevenueFigureSpec | retail_insight_dashboard/retail_insight_dashboard.py:162-173 | the revenue figure exists exactly when November and December both have items, and shows December's revenue against November's |
| RetailInsight.PairOf | retail_insight_dashboard/retail_insight_dashboard.py:87-88 | an item has a (gender, category) key exactly when both are present |
| RetailInsight.PairCountsSpec | retail_insight_dashboard/retail_insight_dashboard.py:87-95 | the cross table has one count per present pair, equal to that pair's item count and at least 1, in strictly increasing (gender, category) order |
| RetailInsight.GenderBlockSpec | retail_insight_dashboard/retail_insight_dashboard.py:96-101 | one gender's block holds that gender's pairs, each at most as often as in the cross table, `iloc[:top]` many, sorted by count in the requested direction, and no pair left out beats a kept one |
| RetailInsight.BlocksOfGender | retail_insight_dashboard/retail_insight_dashboard.py:96-99 | in the concatenated blocks of distinct genders, a gender's rows are exactly its block |
| RetailInsight.BlocksMembers | retail_insight_dashboard/retail_insight_dashboard.py:96-101 | every row of the result is a row of the cross table |
| RetailInsight.AbsentGenderBlock | retail_insight_dashboard/retail_insight_dashboard.py:96-101 | a gender with no pair has an empty block |
| RetailInsight.TopSalesOfGender | retail_insight_dashboard/retail_insight_dashboard.py:85-104 | each gender's rows in the result are its pairs sorted by count and cut at `top` |
| RetailInsight.TopSalesCounts | retail_insight_dashboard/retail_insight_dashboard.py:87-95 | every row's count is the number of items of its pair, at least 1 |
| RetailInsight.TopSalesSpec | retail_insight_dashboard/retail_insight_dashboard.py:96-101 | per gender: rows taken from that gender's pairs, each at most as often as there, `iloc[:top]` many, sorted by count in the requested direction, and no dropped pair beats a kept one |
| Calendar.WeekEnd | retail_insight_dashboard/retail_insight_dashboard.py:147 | the weekly bin of a day closes on the first Sunday on or after it |
| Calendar.WeekEndMonotone | retail_insight_dashboard/retail_insight_dashboard.py:147 | later days fall in the same or later weeks |
| Calendar.OneSundayPerWeek | retail_insight_dashboard/retail_insight_dashboard.py:147 | a weekly bin closes on exactly one Sunday |
| RetailInsight.WeekSeries | retail_insight_dashboard/retail_insight_dashboard.py:147-148 | `n` consecutive weekly bins, the i-th closing `7i` days after the first and holding its week's revenue |
| RetailInsight.FirstDay | retail_insight_dashboard/retail_insight_dashboard.py:147 | the earliest transaction day |
| RetailInsight.LastDay | retail_insight_dashboard/retail_insight_dashboard.py:147 | the latest transaction day |
| RetailInsight.WeekCountSpec | retail_insight_dashboard/retail_insight_dashboard.py:147 | at least one bin, and the last one closes on the last transaction's Sunday |
| RetailInsight.InWeeksStep | retail_insight_dashboard/retail_insight_dashboard.py:147-148 | the revenue of `n + 1` weeks is that of the first `n` plus that of the last week |
| RetailInsight.WeekSeriesSum | retail_insight_dashboard/retail_insight_dashboard.py:147-148 | the bins of `n` weeks add up to the revenue of the items in those weeks |
| RetailInsight.WeeklyBucketsEnds | retail_insight_dashboard/retail_insight_dashboard.py:147 | the bins run from the first transaction's week to the last one's, one per week, and there are none for no items |
| RetailInsight.WeeklyBucketsSundays | retail_insight_dashboard/retail_insight_dashboard.py:147 | every bin closes on a Sunday |
| RetailInsight.WeeklyBucketsPoints | retail_insight_dashboard/retail_insight_dashboard.py:147-148 | each bin closes seven days after the previous one and holds its week's revenue, zero for an empty week |
| RetailInsight.ItemsInWeeks | retail_insight_dashboard/retail_insight_dashboard.py:147 | every item falls within the bins |
| RetailInsight.WeeklyBucketsSum | retail_insight_dashboard/retail_insight_dashboard.py:147-148 | the bins add up to the revenue of all the items |
| RetailInsight.WeeklyRevenueSpec | retail_insight_dashboard/retail_insight_dashboard.py:147-149 | `[:-1]`: one point fewer than the number of weeks, the bins in order; the dropped point is the last transaction's week, and with it the points add up to the total revenue |
| RetailInsight.Projections | retail_insight_dashboard/retail_insight_dashboard.py:401 | `df_filtre[colonnes]`: each item projected onto the seven columns, in order |
| RetailInsight.SalesTableSpec | retail_insight_dashboard/retail_insight_dashboard.py:400-404 | the table has `min(100, items)` rows, latest date first, and no row left out is later than a kept one |
| RetailInsight.SalesTableSubset | retail_insight_dashboard/retail_insight_dashboard.py:400-404 | the table's rows are projected items, each at most as often as in the selection |
| RetailInsight.SalesTableRows | retail_insight_dashboard/retail_insight_dashboard.py:401 | every row of the table is the projection of an item |
| RetailInsight.SelectLocationsSpec | retail_insight_dashboard/retail_insight_dashboard.py:393-394 | a missing or empty selection keeps every item; otherwise exactly the items whose location is selected are kept, and a missing location matches nothing |
| RetailInsight.LocationColumn | retail_insight_dashboard/retail_insight_dashboard.py:236 | the location column, item by item |
| Dropdown.OptionValueInColumn | retail_insight_dashboard/retail_insight_dashboard.py:233-237 | every option after the first is a value present in the column |
| RetailInsight.AllZonesSelectsNothing | retail_insight_dashboard/retail_insight_dashboard.py:233 | as written, the first option sends `"all"`, and selecting it keeps no item |
| RetailInsight.EmptySelectionFails | retail_insight_dashboard/retail_insight_dashboard.py:160-167 | with no item selected, neither indicator has a position 1 (`df_plot[1]` raises) |
| RetailInsight.AllZonesFailsCallback | retail_insight_dashboard/retail_insight_dashboard.py:393-397 | as written, selecting `["all"]` leaves both indicators without a position 1, so the callback raises |
| RetailInsight.SelectLocationsOrAllSpec | retail_insight_dashboard/retail_insight_dashboard.py:393-394 | with the sentinel honoured, `["all"]` keeps every item and any other selection filters as written |
| RetailInsight.EveryOptionSelects | retail_insight_dashboard/retail_insight_dashboard.py:233-237 | with the sentinel honoured, each single option keeps some item when there are items |
| RetailInsight.RetailFrame.UpdateGraphs | retail_insight_dashboard/retail_insight_dashboard.py:389-407 | every output is computed from the copy of the items the location filter keeps, as written (no sentinel); the frame is not modified |
| RetailInsight.RetailFrame.UpdateGraphsAllZones | retail_insight_dashboard/retail_insight_dashboard.py:389-407 | the same callback with the lone `"all"` keeping every item |

## Left out

- The Dash application, its layout and its callback wiring: no computation.
- The Plotly figures: bins, colours, titles and axes. The model keeps what they are built from.
- Reading the CSV files and parsing dates. Rows are given, and a date is its day number. The time of day of `Transaction_Date` plays no part, because weekly bins and `dt.date` depend on the day only.
- Floating point. Prices, totals and shares are exact reals, and `round(3)` is exact rounding half to even.
- `format_decimal` and the percentage text of the product-line chart: floating-point formatting.
- Missing values in numeric columns (quantity, price, discount, month, amount). They are taken to be present.
- The order among equal keys in `sort_values`. pandas' default sort is not stable, so no contract states an order among equal counts or equal dates.
- `calendar.month_name` in other locales. The model uses the English names.
- The MultiIndex layout of `frequence_meilleure_vente`'s result and the records format of `to_dict("records")`. The model keeps the rows: the pair with its count, and the seven table columns.
- The column titles of the sales table (`c.replace("_", " ").title()`): display only.
- SupermarketSales.WeeklyTotalsSum: stated for tables where every row has a city. Rows without a city fall in no bucket, as in `groupby`, and the lemma does not say what they add up to.
- RetailInsight.SalesFigureSpec and RetailInsight.RevenueFigureSpec are stated for the month the figures use (December). For `current_month` 1, ascending month order would put December (the previous month) at position 1. The model's `MonthCounts` covers that case, but no figure lemma is stated for it.
- The total amount of the supermarket dashboard is kept as an exact sum. Its text is `format_decimal`, which is left out above.

## Findings

| source | as written | input that shows it | evidently intended | confidence | as-written member | corrected member |
|---|---|---|---|---|---|---|
| retail_insight_dashboard/retail_insight_dashboard.py:393-394 | the location filter has no sentinel, yet the drop-down's first option, "Toutes les zones" (line 233), sends the value `"all"` | items located in "California" and "Chicago" with the selection `["all"]`: no item is kept, so `df_plot[1]` raises at line 167 and the callback updates no output | the lone `"all"` keeps every item, as the supermarket dashboard's filters (supermarket_sales_dashboard.py lines 629-633) do | high; not executed | RetailInsight.AllZonesSelectsNothing | RetailInsight.EveryOptionSelects |

`RetailInsight.SelectLocationsOrAll` is the corrected filter. `RetailFrame.UpdateGraphs` models the callback as written; `RetailFrame.UpdateGraphsAllZones` is the callback with the corrected filter. `RetailInsight.AllZonesFailsCallback` shows that, as written, both indicators are missing after choosing "Toutes les zones".
