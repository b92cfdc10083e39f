# SalesAnalyzer in Dafny

A model of the decisions in `SalesAnalyzer`, a batch report over an in-memory list of sales. Each sale has a product name, an integer quantity and a `yyyy-MM-dd` date. The model covers three steps:

- **Aggregation**: the loop in `main`, which builds three tallies in one pass. They are `totalSalesPerProduct` (product to quantity), `totalSalesPerMonth` (month to quantity) and `salesByMonth` (month to product to quantity).
- **Best-seller selection**: `printBestSellingPerMonth` walks the months January to December. It skips months without sales and, for each month that has sales, picks the entry that `Collections.max` chooses by value.
- **Trend analysis**: `analyzeProductTrends` filters the sales by a case-insensitive product name, or keeps all of them for a null target. It sums the kept sales per month in calendar order. Every month after the first present month is then compared with the previous present month: the change, its percentage and a trend word.

Modules, one file each:

- `Wrappers`: `Option` (a null) and `Result` (a thrown exception).
- `Dates`: `Month`, the `yyyy-MM-dd` month parser, and the calendar-order list of the months in a map.
- `Tallies`: `Map.merge(..., Integer::sum)` and the sum of a tally's values.
- `Sales`: the `Sale` record. Also the three tallies written as folds over the input (one step per sale), reference definitions by filtered sums, and the lemmas that connect the two.
- `Aggregation`: the loop of `main` as a method, plus `Collections.max` and the best-seller walk.
- `Trends`: the two loops of `analyzeProductTrends` as methods, the trend word, the percentage, the header, and a position-by-position reference definition of the trend lines.
- `Analyzer`: the sequence of decisions in `main` after loading.
- `Scenarios`: worked examples on a three-sale input.

Each loop of the source is a method. Its loop invariant ties the partial state to the fold over the prefix of the input seen so far, and its postcondition ties the result to the specification function. The lemmas state what those functions mean.

Three behaviours of the code a reader might not expect:

- The trend words are `" Increase"`, `" Decrease"` and `"-> No Change"`, with exactly this spacing, not the bare words.
- `LocalDate.parse` with the default SMART resolver accepts day 01..31 in every month (February 30 is clamped to the end of February). Such dates are not rejected.
- `analyzeProductTrends` parses the dates of the sales it keeps, and only those. A bad date on another product does not stop the trend analysis. In `main` it cannot arise anyway, because the aggregation parses every date first (`AnalyzeSales`).

## Model

| member | source | states |
|---|---|---|
| `Dates.ParseMonth` | src/main/java/org/example/SalesAnalyzer.java:38-39 | A date parses iff it has the shape `dddd-dd-dd`, its year is at least 1, its month is 1..12 and its day is 1..31. The month returned is the month field. |
| `Dates.ParseFormatDate` | src/main/java/org/example/SalesAnalyzer.java:33-39 | A zero-padded date with year 1..9999 and day 1..31 parses to the month it was written with. A month field outside 1..12 (such as 13) is rejected. |
| `Dates.ParsedIsFormatted` | src/main/java/org/example/SalesAnalyzer.java:33-39 | Every accepted text is exactly the formatted text of its year, month and day fields. No sign, extra character or other separator is accepted. |
| `Dates.PresentMonthsBeforeExactly` | src/main/java/org/example/SalesAnalyzer.java:55-57 | Walking the months in enum order lists exactly the months present in a map that lie below the bound. The list is strictly increasing. |
| `Dates.PresentMonths` | src/main/java/org/example/SalesAnalyzer.java:80-94 | The `TreeMap` entry order: every listed month is a key, and the months are strictly increasing. |
| `Dates.PresentMonthsComplete` | src/main/java/org/example/SalesAnalyzer.java:80-94 | Every month that is a key of the map is listed. |
| `Tallies.Merge` | src/main/java/org/example/SalesAnalyzer.java:36 | `merge(key, q, Integer::sum)` adds exactly one key. That key's value becomes its old value (0 if absent) plus `q`, and every other entry is unchanged. |
| `Tallies.SumValuesMerge` | src/main/java/org/example/SalesAnalyzer.java:36-44 | A merge raises the sum of the tally's values by exactly the merged quantity. |
| `Sales.CharsEqualIgnoreCase` | src/main/java/org/example/SalesAnalyzer.java:83 | The per-character rule of `equalsIgnoreCase` (equal, or equal upper cases, or equal lower cases of the upper cases) holds iff the two characters have the same lower case. |
| `Sales.EqualsIgnoreCase` | src/main/java/org/example/SalesAnalyzer.java:83 | `s.equalsIgnoreCase(t)` holds iff both names have the same length and the same lower case at every position. |
| `Sales.EqualsIgnoreCaseIsLoweredEquality` | src/main/java/org/example/SalesAnalyzer.java:83 | `equalsIgnoreCase` holds iff the lower-cased names are equal, so the filter is an equivalence. |
| `Sales.Matches` | src/main/java/org/example/SalesAnalyzer.java:83-85 | A sale is kept iff the target is null or its product name equals the target once both are lower-cased. |
| `Sales.FilterIgnoresCase` | src/main/java/org/example/SalesAnalyzer.java:83-89 | Two targets that are equal ignoring case give the same monthly totals, and the same sales must have parseable dates. |
| `Sales.ProductTotalsAt` | src/main/java/org/example/SalesAnalyzer.java:35-36 | A product has a total iff some sale has that exact (case-sensitive) name. The total is the sum of that product's quantities. |
| `Sales.MonthlyTotalsAt` | src/main/java/org/example/SalesAnalyzer.java:82-90 | A month has a total iff some kept sale (all sales when the target is null) falls in it. The total is the sum of the kept sales in that month. |
| `Sales.MonthProductTotalsAt` | src/main/java/org/example/SalesAnalyzer.java:40-44 | `salesByMonth` and `totalSalesPerMonth` have the same months. A month's inner tally has a product iff that product sold in that month, with the sum of those sales. |
| `Sales.TotalsConserveQuantity` | src/main/java/org/example/SalesAnalyzer.java:35-45 | The product totals and the month totals each add up to the sum of all quantities. |
| `Sales.ProductsPartitionMonth` | src/main/java/org/example/SalesAnalyzer.java:40-44 | Every inner tally of `salesByMonth` is non-empty, and its values add up to that month's total. |
| `Sales.MonthProductStep` | src/main/java/org/example/SalesAnalyzer.java:42-44 | The first sale of a month creates that month's inner tally holding just this sale. A later sale keeps every existing entry and adds its quantity under its product. Other months are untouched. |
| `Aggregation.Aggregate` | src/main/java/org/example/SalesAnalyzer.java:35-45 | Fails on exactly the first sale whose date does not parse, and names it. Otherwise it returns the three tallies of the whole input. |
| `Aggregation.MaxByValue` | src/main/java/org/example/SalesAnalyzer.java:59-60 | Models `Collections.max` by value over the given iteration order. The chosen key has the largest value, and no earlier key in that order has a value that large (the first maximum wins). |
| `Aggregation.BestSellingPerMonth` | src/main/java/org/example/SalesAnalyzer.java:53-63 | One line per month that has a tally, January first, and none for the other months. Each line is the first maximum of that month under its iteration order, with that product's total. |
| `Trends.Label` | src/main/java/org/example/SalesAnalyzer.java:103 | `" Increase"` iff the change is > 0, `" Decrease"` iff < 0, `"-> No Change"` iff == 0. |
| `Trends.Percent` | src/main/java/org/example/SalesAnalyzer.java:102 | 0 when the previous total is 0. Otherwise the percentage times the previous total equals 100 times the change. |
| `Trends.Header` | src/main/java/org/example/SalesAnalyzer.java:92 | The header is `"\nSales Trend for "`, then the target (or "All Products" for a null target), then `":"`. |
| `Trends.HeaderDeterminesSubject` | src/main/java/org/example/SalesAnalyzer.java:92 | Two headers are equal iff they name the same subject. |
| `Trends.AllProductsHeader` | src/main/java/org/example/SalesAnalyzer.java:92 | A target prints the same header as a null target iff it is null or the name "All Products". |
| `Trends.TrendShape` | src/main/java/org/example/SalesAnalyzer.java:93-106 | There is one line per present month, in calendar order, carrying that month's total. The first line has no change. Every later line has change = its total minus the previous line's total, with that change's percentage and trend word. |
| `Trends.TrendCoversMonths` | src/main/java/org/example/SalesAnalyzer.java:80-94 | A month has a trend line iff it has a total, and the lines go in strictly increasing month order. |
| `Trends.TrendSkipsAbsentMonths` | src/main/java/org/example/SalesAnalyzer.java:94-106 | No month strictly between two consecutive lines has a total. So `previous` is the nearest earlier present month, and absent months are not counted as 0. |
| `Trends.MonthlyTotalsOf` | src/main/java/org/example/SalesAnalyzer.java:82-90 | Fails on exactly the first kept sale whose date does not parse. Otherwise it returns the monthly totals of the kept sales. |
| `Trends.TrendLines` | src/main/java/org/example/SalesAnalyzer.java:93-107 | The loop that carries `previous` (null before the first month) produces exactly the reference trend lines. |
| `Trends.AnalyzeProductTrends` | src/main/java/org/example/SalesAnalyzer.java:77-108 | Fails on the first kept sale with a bad date. Otherwise it returns the header for the target and the trend lines of the filtered monthly totals. |
| `Analyzer.IterationOrder` | src/main/java/org/example/SalesAnalyzer.java:59 | An iteration order of a `HashMap`'s entries: each key exactly once, in an order the model leaves open. |
| `Analyzer.BestSellers` | src/main/java/org/example/SalesAnalyzer.java:49-63 | For any iteration orders, one line per month with sales, in calendar order. Each line names a product of that month with the month's largest total. |
| `Analyzer.AnalyzeSales` | src/main/java/org/example/SalesAnalyzer.java:35-50 | The run fails iff some date does not parse, and names the first such sale. Otherwise it returns the tallies, the best sellers and the "Mouse" trend, which can no longer fail. |
| `Scenarios.SampleDates` | src/main/java/org/example/SalesAnalyzer.java:38-39 | The sample's three dates parse to January, February and January. |
| `Scenarios.ThreeSalesProductTotals` | src/main/java/org/example/SalesAnalyzer.java:35-36 | For any two distinct names and any dates, selling `first` 5 then 3 and `second` 10 gives product totals `first` 8, `second` 10. |
| `Scenarios.ThreeSalesMonthTotals` | src/main/java/org/example/SalesAnalyzer.java:38-40 | For any names and any dates in January, February, January, the same three sales give month totals January 15, February 3. |
| `Scenarios.ThreeSalesMonthProducts` | src/main/java/org/example/SalesAnalyzer.java:42-44 | For distinct names and those months, January splits into `first` 5 and `second` 10, and February holds `first` 3. |
| `Scenarios.SampleGroupings` | src/main/java/org/example/SalesAnalyzer.java:35-45 | On the sample: Widget 8 and Gadget 10; January 15 and February 3; January split into Widget 5 and Gadget 10, February into Widget 3. |
| `Scenarios.SampleBestSellerJanuary` | src/main/java/org/example/SalesAnalyzer.java:59 | January's best seller is Gadget, whatever the iteration order. |
| `Scenarios.SampleBestSellerFebruary` | src/main/java/org/example/SalesAnalyzer.java:59-60 | February's best seller is Widget, its only product, with 3 units. |
| `Scenarios.ThreeSalesFiltered` | src/main/java/org/example/SalesAnalyzer.java:82-90 | A target equal to `first` ignoring case, and not to `second`, keeps `first`'s two sales: January 5, February 3. |
| `Scenarios.SampleWidgetTotals` | src/main/java/org/example/SalesAnalyzer.java:82-90 | The target "widget" keeps both Widget sales, whatever the case: January 5, February 3. |
| `Scenarios.JanuaryFebruary` | src/main/java/org/example/SalesAnalyzer.java:94 | The entry order of {January: 5, February: 3} is January, then February. |
| `Scenarios.SampleWidgetTrend` | src/main/java/org/example/SalesAnalyzer.java:93-106 | Widget trend: January 5 with no change, then February 3 with change -2, -40 percent, `" Decrease"`. |
| `Scenarios.JanuaryFebruaryTrend` | src/main/java/org/example/SalesAnalyzer.java:93-106 | The trend of {January: 5, February: 3}: January without a change, then February with change -2, -40 percent, `" Decrease"`. |
| `Scenarios.MonthThirteenRejected` | src/main/java/org/example/SalesAnalyzer.java:38 | `"2024-13-01"` does not parse, so a run over that sale fails. |
| `Scenarios.ThreeSalesUnmatched` | src/main/java/org/example/SalesAnalyzer.java:82-94 | A target matching neither name keeps no sale, whatever the dates (none is parsed). There are no month totals and no trend lines. |
| `Scenarios.AbsentProductHasNoTrend` | src/main/java/org/example/SalesAnalyzer.java:82-106 | A product absent from the data has no monthly totals and no trend lines. |

## Left out

- Loading the sales from `sample_sales_data.json` with Jackson (lines 23-27) is I/O through a foreign library. The model starts from the list of sales.
- All printing is left out: the two `forEach` printers (lines 65-75), and the text of the best-seller and trend lines, including month names and `%+d` / `%.2f` formatting (lines 54, 61, 92, 99, 104). The model returns each line as a value instead. The header is kept as a string.
- `printTotalPerProductPerMonth` and `printTotalSalesPerMonth` only print in `HashMap` order, so they have no model beyond the tallies themselves.
- `Trends.Percent` is exact rational arithmetic. The source computes a `double`, so its rounding and the two-decimal printing are not modelled.
- All quantities and sums are unbounded integers. `Integer::sum` and `current - previous` wrap around at 32 bits in the source, and that overflow is not modelled.
- `Dates.ParseMonth` accepts only the plain four-digit year. The pattern `yyyy` also accepts a `+`-signed year of more than four digits, and the model rejects that form.
- `Sales.EqualsIgnoreCase` applies ASCII case mapping only. Java's `Character.toUpperCase` / `toLowerCase` also fold non-ASCII letters.
- `HashMap` iteration order is left open. `MaxByValue` and `BestSellingPerMonth` take it as a parameter, and `IterationOrder` chooses it arbitrarily.
- The inner `HashMap` of `salesByMonth` is updated in place in the source. The model replaces it with the updated value, so aliasing is not modelled (nothing else refers to that map).
- `Aggregation.MaxByValue`: requires a non-empty entry list. `Collections.max` throws `NoSuchElementException` on an empty one, but `salesByMonth` never holds an empty tally (`ProductsPartitionMonth`).
- `Aggregation.BestSellingPerMonth`: requires every inner tally to be non-empty, for the same reason.
- Null product names, null dates and a null list (a `NullPointerException` in the source) are not modelled. Every `Sale` field has a value.
