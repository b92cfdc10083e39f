/** Worked examples on a three-sale input: two "Widget" sales (January and
    February) and one "Gadget" sale (January). */
module Scenarios {
  import opened Wrappers
  import opened Dates
  import opened Tallies
  import opened Sales
  import opened Aggregation
  import opened Trends

  /** Three sales with their names and dates left open: `first` sells 5 then 3
      units, `second` sells 10. */
  function ThreeSales(first: string, second: string, d1: string, d2: string, d3: string): seq<Sale> {
    [Sale(first, 5, d1), Sale(first, 3, d2), Sale(second, 10, d3)]
  }

  /** The dates of `ThreeSales` fall in January, February and January. */
  predicate JanFebJan(d1: string, d2: string, d3: string) {
    ParseMonth(d1) == Some(1) && ParseMonth(d2) == Some(2) && ParseMonth(d3) == Some(1)
  }

  function Sample(): seq<Sale> {
    ThreeSales("Widget", "Gadget", "2024-01-10", "2024-02-05", "2024-01-15")
  }

  lemma SampleDates()
    ensures ParseMonth("2024-01-10") == Some(1)
    ensures ParseMonth("2024-02-05") == Some(2)
    ensures ParseMonth("2024-01-15") == Some(1)
  {
    assert FormatDate(2024, 1, 10) == "2024-01-10";
    assert FormatDate(2024, 2, 5) == "2024-02-05";
    assert FormatDate(2024, 1, 15) == "2024-01-15";
    ParseFormatDate(2024, 1, 10);
    ParseFormatDate(2024, 2, 5);
    ParseFormatDate(2024, 1, 15);
  }

  /** Product totals of `ThreeSales`: `first` 8 and `second` 10, whatever the dates. */
  lemma ThreeSalesProductTotals(first: string, second: string, d1: string, d2: string, d3: string)
    requires first != second
    ensures ProductTotals(ThreeSales(first, second, d1, d2, d3)) == map[first := 8, second := 10]
  {
    var s := ThreeSales(first, second, d1, d2, d3);
    assert Init(s) == s[..2] && Init(s[..2]) == s[..1] && Init(s[..1]) == [];
    assert ProductTotals(s[..1]) == map[first := 5];
    assert ProductTotals(s[..2]) == map[first := 8];
  }

  /** Month totals of `ThreeSales`: January 15 and February 3. */
  lemma ThreeSalesMonthTotals(first: string, second: string, d1: string, d2: string, d3: string)
    requires JanFebJan(d1, d2, d3)
    ensures DatedWhere(ThreeSales(first, second, d1, d2, d3), None)
    ensures MonthlyTotals(ThreeSales(first, second, d1, d2, d3), None) == map[1 := 15, 2 := 3]
  {
    var s := ThreeSales(first, second, d1, d2, d3);
    assert Init(s) == s[..2] && Init(s[..2]) == s[..1] && Init(s[..1]) == [];
    assert DatedWhere(s[..1], None) && DatedWhere(s[..2], None) && DatedWhere(s, None);
    assert MonthlyTotals(s[..1], None) == map[1 := 5];
    assert MonthlyTotals(s[..2], None) == map[1 := 5, 2 := 3];
  }

  /** Month-by-product totals of `ThreeSales`: January split into `first` 5 and
      `second` 10, February all `first` (3). */
  lemma ThreeSalesMonthProducts(first: string, second: string, d1: string, d2: string, d3: string)
    requires first != second && JanFebJan(d1, d2, d3)
    ensures DatedWhere(ThreeSales(first, second, d1, d2, d3), None)
    ensures MonthProductTotals(ThreeSales(first, second, d1, d2, d3))
         == map[1 := map[first := 5, second := 10], 2 := map[first := 3]]
  {
    var s := ThreeSales(first, second, d1, d2, d3);
    assert Init(s) == s[..2] && Init(s[..2]) == s[..1] && Init(s[..1]) == [];
    assert DatedWhere(s[..1], None) && DatedWhere(s[..2], None) && DatedWhere(s, None);
    assert MonthProductTotals(s[..1]) == map[1 := map[first := 5]];
    assert MonthProductTotals(s[..2]) == map[1 := map[first := 5], 2 := map[first := 3]];
  }

  /** The sample's groupings: Widget 8 and Gadget 10; January 15 and February 3;
      January split into Widget 5 and Gadget 10, February all Widget. */
  lemma SampleGroupings()
    ensures DatedWhere(Sample(), None)
    ensures ProductTotals(Sample()) == map["Widget" := 8, "Gadget" := 10]
    ensures MonthlyTotals(Sample(), None) == map[1 := 15, 2 := 3]
    ensures MonthProductTotals(Sample()) == map[1 := map["Widget" := 5, "Gadget" := 10], 2 := map["Widget" := 3]]
  {
    SampleDates();
    assert "Widget"[0] != "Gadget"[0];
    ThreeSalesProductTotals("Widget", "Gadget", "2024-01-10", "2024-02-05", "2024-01-15");
    ThreeSalesMonthTotals("Widget", "Gadget", "2024-01-10", "2024-02-05", "2024-01-15");
    ThreeSalesMonthProducts("Widget", "Gadget", "2024-01-10", "2024-02-05", "2024-01-15");
  }

  /** January's best seller is Gadget (10 units), whatever the iteration order. */
  lemma SampleBestSellerJanuary(order: seq<string>, best: string)
    requires Enumerates(order, map["Widget" := 5, "Gadget" := 10])
    requires IsFirstMax(map["Widget" := 5, "Gadget" := 10], order, best)
    ensures best == "Gadget"
  {
    assert "Widget"[0] != "Gadget"[0];
  }

  /** February's best seller is Widget, its only product, with 3 units. */
  lemma SampleBestSellerFebruary(order: seq<string>, best: string)
    requires Enumerates(order, map["Widget" := 3])
    requires IsFirstMax(map["Widget" := 3], order, best)
    ensures best == "Widget" && map["Widget" := 3][best] == 3
  {
  }

  /** A target matching `first` but not `second` keeps the two sales of `first`:
      January 5 and February 3. */
  lemma ThreeSalesFiltered(first: string, second: string, target: string, d1: string, d2: string, d3: string)
    requires EqualsIgnoreCase(first, target) && !EqualsIgnoreCase(second, target)
    requires JanFebJan(d1, d2, d3)
    ensures DatedWhere(ThreeSales(first, second, d1, d2, d3), Some(target))
    ensures MonthlyTotals(ThreeSales(first, second, d1, d2, d3), Some(target)) == map[1 := 5, 2 := 3]
  {
    var s, t := ThreeSales(first, second, d1, d2, d3), Some(target);
    assert Matches(s[0], t) && Matches(s[1], t) && !Matches(s[2], t);
    assert Init(s) == s[..2] && Init(s[..2]) == s[..1] && Init(s[..1]) == [];
    assert DatedWhere(s[..1], t) && DatedWhere(s[..2], t) && DatedWhere(s, t);
    assert MonthlyTotals(s[..1], t) == map[1 := 5];
    assert MonthlyTotals(s[..2], t) == map[1 := 5, 2 := 3];
  }

  /** Filtering the sample on "widget" (any case) keeps the two Widget sales:
      January 5 and February 3. */
  lemma SampleWidgetTotals()
    ensures DatedWhere(Sample(), Some("widget"))
    ensures MonthlyTotals(Sample(), Some("widget")) == map[1 := 5, 2 := 3]
  {
    SampleDates();
    assert "Gadget"[0] == 'G' && "widget"[0] == 'w' && !CharsEqualIgnoreCase('G', 'w');
    assert EqualsIgnoreCase("Widget", "widget") && !EqualsIgnoreCase("Gadget", "widget");
    ThreeSalesFiltered("Widget", "Gadget", "widget", "2024-01-10", "2024-02-05", "2024-01-15");
  }

  /** January and February, in that order, are the months of {January: 5, February: 3}. */
  lemma JanuaryFebruary()
    ensures PresentMonths(map[1 := 5, 2 := 3]) == [1, 2]
  {
    var monthly := map[1 := 5, 2 := 3];
    assert PresentMonthsBefore(monthly, 3) == [1, 2];
    assert PresentMonthsBefore(monthly, 7) == [1, 2];
    assert PresentMonthsBefore(monthly, 13) == [1, 2];
  }

  /** The trend of the Widget sales: January 5 units with no change, then February
      3 units, a change of -2 (-40 percent), " Decrease". */
  lemma SampleWidgetTrend()
    ensures DatedWhere(Sample(), Some("widget"))
    ensures Trend(MonthlyTotals(Sample(), Some("widget")))
         == [TrendLine(1, 5, None), TrendLine(2, 3, Some(Delta(-2, -40.0, " Decrease")))]
  {
    SampleWidgetTotals();
    JanuaryFebruaryTrend();
  }

  /** The trend of {January: 5, February: 3}: February falls by 2 units, 40 percent. */
  lemma JanuaryFebruaryTrend()
    ensures Trend(map[1 := 5, 2 := 3])
         == [TrendLine(1, 5, None), TrendLine(2, 3, Some(Delta(-2, -40.0, " Decrease")))]
  {
    JanuaryFebruary();
  }

  /** Month 13 does not parse, so a run over such a sale stops at it. */
  lemma MonthThirteenRejected()
    ensures ParseMonth("2024-13-01") == None
    ensures !DatedWhere([Sale("Widget", 1, "2024-13-01")], None)
  {
    assert FormatDate(2024, 13, 1) == "2024-13-01";
    ParseFormatDate(2024, 13, 1);
    var sales := [Sale("Widget", 1, "2024-13-01")];
    assert Matches(sales[0], None) && ParseMonth(sales[0].saleDate).None?;
  }

  /** A product absent from the data gets no month and so no trend line. */
  lemma AbsentProductHasNoTrend()
    ensures DatedWhere(Sample(), Some("Gizmo"))
    ensures MonthlyTotals(Sample(), Some("Gizmo")) == map[]
    ensures Trend(MonthlyTotals(Sample(), Some("Gizmo"))) == []
  {
    assert !CharsEqualIgnoreCase('W', 'G') && !CharsEqualIgnoreCase('a', 'i');
    assert !EqualsIgnoreCase("Widget", "Gizmo") && !EqualsIgnoreCase("Gadget", "Gizmo");
    ThreeSalesUnmatched("Widget", "Gadget", "Gizmo", "2024-01-10", "2024-02-05", "2024-01-15");
  }

  /** A target matching neither product keeps no sale, whatever the dates: no month
      total and no trend line. */
  lemma ThreeSalesUnmatched(first: string, second: string, target: string, d1: string, d2: string, d3: string)
    requires !EqualsIgnoreCase(first, target) && !EqualsIgnoreCase(second, target)
    ensures DatedWhere(ThreeSales(first, second, d1, d2, d3), Some(target))
    ensures MonthlyTotals(ThreeSales(first, second, d1, d2, d3), Some(target)) == map[]
    ensures Trend(map[]) == []
  {
    var s, t := ThreeSales(first, second, d1, d2, d3), Some(target);
    assert !Matches(s[0], t) && !Matches(s[1], t) && !Matches(s[2], t);
    assert Init(s) == s[..2] && Init(s[..2]) == s[..1] && Init(s[..1]) == [];
    assert DatedWhere(s[..1], t) && DatedWhere(s[..2], t) && DatedWhere(s, t);
    assert MonthlyTotals(s[..1], t) == map[];
    assert MonthlyTotals(s[..2], t) == map[];
  }
}
