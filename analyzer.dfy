/** `main` once the sales are loaded: aggregate, pick the best sellers, then the
    trend of the fixed target "Mouse". */
module Analyzer {
  import opened Wrappers
  import opened Dates
  import opened Sales
  import opened Aggregation
  import opened Trends

  /** The product whose trend `main` reports. */
  const TrendTarget := "Mouse"

  datatype SalesReport = SalesReport(aggregates: Aggregates, bestSellers: seq<BestSeller>, trend: TrendReport)

  /** An iteration order of a `HashMap`'s keys: each key once, in an order the
      model leaves open (each step takes any key not yet visited). */
  method IterationOrder(m: map<string, int>) returns (order: seq<string>)
    ensures Enumerates(order, m)
    ensures forall i, j :: 0 <= i < j < |order| ==> order[i] != order[j]
  {
    order := [];
    var rest := m.Keys;
    while rest != {}
      invariant rest <= m.Keys
      invariant forall i :: 0 <= i < |order| ==> order[i] in m && order[i] !in rest
      invariant forall k :: k in m ==> k in rest || k in order
      invariant forall i, j :: 0 <= i < j < |order| ==> order[i] != order[j]
      decreases rest
    {
      var k :| k in rest;
      order := order + [k];
      rest := rest - {k};
    }
  }

  /** `printBestSellingPerMonth(salesByMonth)` over whatever iteration orders the
      inner tallies have: every month with a non-empty tally, January first, with a
      product of the largest total. */
  method BestSellers(byMonth: map<Month, map<string, int>>) returns (best: seq<BestSeller>)
    requires forall m :: m in byMonth ==> byMonth[m] != map[]
    ensures |best| == |PresentMonths(byMonth)|
    ensures forall i :: 0 <= i < |best| ==> best[i].month == PresentMonths(byMonth)[i] && IsBestSeller(byMonth, best[i])
  {
    var orders: map<Month, seq<string>> := map[];
    for month := 1 to 13
      invariant forall m :: m in byMonth && m < month ==> m in orders && Enumerates(orders[m], byMonth[m])
    {
      if month in byMonth {
        var order := IterationOrder(byMonth[month]);
        orders := orders[month := order];
      }
    }
    best := BestSellingPerMonth(byMonth, orders);
  }

  /** `line` names a product of its month's tally with that month's largest total. */
  predicate IsBestSeller(byMonth: map<Month, map<string, int>>, line: BestSeller) {
    && line.month in byMonth && line.product in byMonth[line.month]
    && line.units == byMonth[line.month][line.product]
    && forall p :: p in byMonth[line.month] ==> byMonth[line.month][p] <= line.units
  }

  /** The decisions of `main`: the run fails on the first sale whose date does not
      parse; otherwise it holds the three groupings, the best seller of every month
      with sales (in calendar order), and the trend of "Mouse", which can no longer
      fail since every date has parsed. */
  method AnalyzeSales(sales: seq<Sale>) returns (r: Result<SalesReport, DateError>)
    ensures r.Success? <==> DatedWhere(sales, None)
    ensures r.Failure? ==> IsFirstBadDate(sales, None, r.error)
    ensures r.Success? ==>
      && r.value.aggregates == Aggregates(ProductTotals(sales), MonthlyTotals(sales, None), MonthProductTotals(sales))
      && r.value.trend == TrendReport(Header(Some(TrendTarget)), Trend(MonthlyTotals(sales, Some(TrendTarget))))
      && |r.value.bestSellers| == |PresentMonths(MonthProductTotals(sales))|
      && forall i :: 0 <= i < |r.value.bestSellers| ==>
           && r.value.bestSellers[i].month == PresentMonths(MonthProductTotals(sales))[i]
           && IsBestSeller(MonthProductTotals(sales), r.value.bestSellers[i])
  {
    var aggregated := Aggregate(sales);
    if aggregated.Failure? {
      return Failure(aggregated.error);
    }
    ProductsPartitionMonth(sales);
    var best := BestSellers(aggregated.value.byMonth);
    var trend := AnalyzeProductTrends(sales, Some(TrendTarget));
    DatedUnfiltered(sales, Some(TrendTarget));
    NoBadDate(sales, Some(TrendTarget));
    assert trend.Success?;
    return Success(SalesReport(aggregated.value, best, trend.value));
  }
}
