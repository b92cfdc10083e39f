/** The one-pass aggregation loop of `main` and the best-seller selection of
    `printBestSellingPerMonth`. */
module Aggregation {
  import opened Wrappers
  import opened Dates
  import opened Tallies
  import opened Sales

  /** `totalSalesPerProduct`, `totalSalesPerMonth` and `salesByMonth`. */
  datatype Aggregates = Aggregates(
    perProduct: map<string, int>,
    perMonth: map<Month, int>,
    byMonth: map<Month, map<string, int>>)

  /** The loop of `main` over all sales: merge the quantity into the product's total,
      parse the date (a failure ends the run), merge into the month's total, create
      the month's inner tally if absent and merge into it. */
  method Aggregate(sales: seq<Sale>) returns (r: Result<Aggregates, DateError>)
    ensures r.Success? ==>
      && DatedWhere(sales, None)
      && r.value == Aggregates(ProductTotals(sales), MonthlyTotals(sales, None), MonthProductTotals(sales))
    ensures r.Failure? ==> IsFirstBadDate(sales, None, r.error)
  {
    var perProduct: map<string, int> := map[];
    var perMonth: map<Month, int> := map[];
    var byMonth: map<Month, map<string, int>> := map[];
    for i := 0 to |sales|
      invariant DatedWhere(sales[..i], None)
      invariant perProduct == ProductTotals(sales[..i])
      invariant perMonth == MonthlyTotals(sales[..i], None)
      invariant byMonth == MonthProductTotals(sales[..i])
    {
      var sale := sales[i];
      assert Init(sales[..i + 1]) == sales[..i] && Last(sales[..i + 1]) == sale;
      perProduct := Merge(perProduct, sale.productName, sale.quantity);
      var parsed := ParseMonth(sale.saleDate);
      if parsed.None? {
        return Failure(MalformedDate(i, sale.saleDate));
      }
      var month := parsed.value;
      DatedExtend(sales, None, i);
      perMonth := Merge(perMonth, month, sale.quantity);
      if month !in byMonth {
        byMonth := byMonth[month := map[]];
      }
      var productSales := byMonth[month];
      byMonth := byMonth[month := Merge(productSales, sale.productName, sale.quantity)];
    }
    assert sales[..|sales|] == sales;
    return Success(Aggregates(perProduct, perMonth, byMonth));
  }

  /** `order` lists the keys of `m`: an iteration order of a `HashMap`, which the
      model leaves unspecified. */
  predicate Enumerates(order: seq<string>, m: map<string, int>) {
    && (forall i :: 0 <= i < |order| ==> order[i] in m)
    && (forall k :: k in m ==> k in order)
  }

  lemma NonEmptyEnumeration(order: seq<string>, m: map<string, int>)
    requires Enumerates(order, m) && m != map[]
    ensures order != []
  {
    var k :| k in m.Keys;
    assert k in order;
  }

  /** `best` has the largest value in `m`, and no key before it in `order` has a
      value as large. */
  predicate IsFirstMax(m: map<string, int>, order: seq<string>, best: string)
    requires Enumerates(order, m)
  {
    && best in m
    && (forall k :: k in m ==> m[k] <= m[best])
    && exists j :: 0 <= j < |order| && order[j] == best && forall i :: 0 <= i < j ==> m[order[i]] < m[best]
  }

  /** `Collections.max(m.entrySet(), comparingByValue()).getKey()` over the entries
      in `order`: the first entry is the candidate, and a later entry replaces it
      only when its value is strictly greater. */
  method MaxByValue(m: map<string, int>, order: seq<string>) returns (best: string)
    requires Enumerates(order, m) && order != []
    ensures IsFirstMax(m, order, best)
  {
    best := order[0];
    ghost var at := 0;
    for i := 1 to |order|
      invariant 0 <= at < i && order[at] == best
      invariant forall j :: 0 <= j < i ==> m[order[j]] <= m[best]
      invariant forall j :: 0 <= j < at ==> m[order[j]] < m[best]
    {
      if m[order[i]] > m[best] {
        best, at := order[i], i;
      }
    }
  }

  /** One line of the best-seller report: `month: product (units units)`. */
  datatype BestSeller = BestSeller(month: Month, product: string, units: int)

  /** `line` reports a month of `byMonth` with its first best-selling product
      under that month's iteration order, and that product's total. */
  predicate ReportsBestSeller(byMonth: map<Month, map<string, int>>, orders: map<Month, seq<string>>, line: BestSeller) {
    && line.month in byMonth && line.month in orders
    && Enumerates(orders[line.month], byMonth[line.month])
    && IsFirstMax(byMonth[line.month], orders[line.month], line.product)
    && line.units == byMonth[line.month][line.product]
  }

  /** The loop of `printBestSellingPerMonth` over `Month.values()`: a month without
      an inner tally is skipped; otherwise its best-selling product is chosen by
      `MaxByValue` over that tally's iteration order `orders[month]`. */
  method BestSellingPerMonth(byMonth: map<Month, map<string, int>>, orders: map<Month, seq<string>>)
    returns (best: seq<BestSeller>)
    requires forall m :: m in byMonth ==> m in orders && Enumerates(orders[m], byMonth[m]) && byMonth[m] != map[]
    ensures |best| == |PresentMonths(byMonth)|
    ensures forall i :: 0 <= i < |best| ==>
      best[i].month == PresentMonths(byMonth)[i] && ReportsBestSeller(byMonth, orders, best[i])
  {
    best := [];
    ghost var visited: seq<Month> := [];
    for month := 1 to 13
      invariant |visited| == |best|
      invariant visited == PresentMonthsBefore(byMonth, month)
      invariant forall i :: 0 <= i < |best| ==> best[i].month == visited[i] && ReportsBestSeller(byMonth, orders, best[i])
    {
      if month in byMonth {
        var productSales := byMonth[month];
        NonEmptyEnumeration(orders[month], productSales);
        var bestProduct := MaxByValue(productSales, orders[month]);
        var maxSales := productSales[bestProduct];
        best := best + [BestSeller(month, bestProduct, maxSales)];
        visited := visited + [month];
      }
    }
  }
}
