/** `analyzeProductTrends`: per-month totals of the sales of one product (ignoring
    case) or of all products, then month-over-month changes in calendar order. */
module Trends {
  import opened Wrappers
  import opened Dates
  import opened Sales

  /** The trend word of a change, with the exact spacing of the report. */
  function Label(change: int): (word: string)
    ensures word == " Increase" <==> change > 0
    ensures word == " Decrease" <==> change < 0
    ensures word == "-> No Change" <==> change == 0
  {
    if change > 0 then " Increase" else if change < 0 then " Decrease" else "-> No Change"
  }

  /** The percentage change relative to `previous`, and 0 when `previous` is 0
      (computed exactly: the source uses a double). */
  function Percent(change: int, previous: int): (percent: real)
    ensures previous == 0 ==> percent == 0.0
    ensures previous != 0 ==> percent * previous as real == change as real * 100.0
  {
    if previous == 0 then 0.0 else (change as real * 100.0) / previous as real
  }

  /** What the header line names: the target, or "All Products" without one. */
  function Subject(target: Option<string>): string {
    if target.Some? then target.value else "All Products"
  }

  /** The header line printed before the trend lines: the target between
      "\nSales Trend for " and ':', or "All Products" for a null target. */
  function Header(target: Option<string>): (header: string)
    ensures |header| == |Subject(target)| + 18
    ensures header[..17] == "\nSales Trend for " && header[|header| - 1] == ':'
    ensures header[17..|header| - 1] == (if target.Some? then target.value else "All Products")
  {
    "\nSales Trend for " + Subject(target) + ":"
  }

  /** The header tells the subject of the report: two headers are equal exactly
      when they name the same subject. */
  lemma HeaderDeterminesSubject(t1: Option<string>, t2: Option<string>)
    ensures Header(t1) == Header(t2) <==> Subject(t1) == Subject(t2)
  {
    if Header(t1) == Header(t2) {
      var h := Header(t1);
      assert Subject(t1) == h[17..|h| - 1];
      assert Subject(t2) == Header(t2)[17..|Header(t2)| - 1];
    }
  }

  /** A null target and the target "All Products" print the same header, and no
      other target does. */
  lemma AllProductsHeader(target: Option<string>)
    ensures Header(target) == Header(None) <==> target == None || target == Some("All Products")
  {
    HeaderDeterminesSubject(target, None);
  }

  datatype Delta = Delta(change: int, percent: real, trend: string)

  /** One trend line: `month: units units`, followed by the change to the previous
      present month for every month but the first. */
  datatype TrendLine = TrendLine(month: Month, units: int, delta: Option<Delta>)

  datatype TrendReport = TrendReport(header: string, lines: seq<TrendLine>)

  /** The trend of a month total `current` against the previous present month's
      total `previous`. */
  function DeltaOf(current: int, previous: int): Delta {
    Delta(current - previous, Percent(current - previous, previous), Label(current - previous))
  }

  /** The trend lines of `monthly`, defined position by position: the i-th present
      month in calendar order is compared with the (i-1)-th. */
  function Trend(monthly: map<Month, int>): seq<TrendLine> {
    var months := PresentMonths(monthly);
    seq(|months|, i requires 0 <= i < |months| => LineAt(monthly, months, i))
  }

  /** One line per present month, in calendar order, each with that month's total.
      The first carries no change; every later one carries the change from the line
      before it (the nearest earlier present month), its percentage and its word. */
  lemma TrendShape(monthly: map<Month, int>)
    ensures |Trend(monthly)| == |PresentMonths(monthly)|
    ensures forall i :: 0 <= i < |Trend(monthly)| ==>
      && Trend(monthly)[i].month == PresentMonths(monthly)[i]
      && Trend(monthly)[i].month in monthly
      && Trend(monthly)[i].units == monthly[Trend(monthly)[i].month]
    ensures Trend(monthly) != [] ==> Trend(monthly)[0].delta.None?
    ensures forall i :: 0 < i < |Trend(monthly)| ==> TrendStep(Trend(monthly)[i - 1], Trend(monthly)[i])
  {
    TrendMonthsAndUnits(monthly);
    TrendSteps(monthly);
  }

  /** The i-th line is the i-th present month with its total; the first has no change. */
  lemma TrendMonthsAndUnits(monthly: map<Month, int>)
    ensures forall i :: 0 <= i < |Trend(monthly)| ==>
      && Trend(monthly)[i].month == PresentMonths(monthly)[i]
      && Trend(monthly)[i].month in monthly
      && Trend(monthly)[i].units == monthly[Trend(monthly)[i].month]
    ensures Trend(monthly) != [] ==> Trend(monthly)[0].delta.None?
  {
    var lines, months := Trend(monthly), PresentMonths(monthly);
    forall i | 0 <= i < |lines|
      ensures lines[i].month == months[i] && lines[i].month in monthly
      ensures lines[i].units == monthly[lines[i].month]
    {
      assert lines[i] == LineAt(monthly, months, i);
    }
    if lines != [] {
      assert lines[0] == LineAt(monthly, months, 0);
    }
  }

  /** Every line after the first steps from the line before it. */
  lemma TrendSteps(monthly: map<Month, int>)
    ensures forall i :: 0 < i < |Trend(monthly)| ==> TrendStep(Trend(monthly)[i - 1], Trend(monthly)[i])
  {
    var lines, months := Trend(monthly), PresentMonths(monthly);
    forall i | 0 < i < |lines|
      ensures TrendStep(lines[i - 1], lines[i])
    {
      assert lines[i] == LineAt(monthly, months, i) && lines[i - 1] == LineAt(monthly, months, i - 1);
      LineAtStep(monthly, months, i);
    }
  }

  /** Each line after the first steps from the line before it. */
  lemma LineAtStep(monthly: map<Month, int>, months: seq<Month>, i: int)
    requires 0 < i < |months| && forall j :: 0 <= j < |months| ==> months[j] in monthly
    ensures TrendStep(LineAt(monthly, months, i - 1), LineAt(monthly, months, i))
  {
  }

  /** `line` compares its month with the line before it: the change in units, its
      percentage of the earlier total, and the trend word of the change. */
  predicate TrendStep(before: TrendLine, line: TrendLine) {
    && line.delta.Some?
    && line.delta.value.change == line.units - before.units
    && line.delta.value.percent == Percent(line.delta.value.change, before.units)
    && line.delta.value.trend == Label(line.delta.value.change)
  }

  /** The line of the i-th of `months`: no change for the first, otherwise the
      change from the month listed just before it. */
  function LineAt(monthly: map<Month, int>, months: seq<Month>, i: int): TrendLine
    requires 0 <= i < |months| && forall j :: 0 <= j < |months| ==> months[j] in monthly
  {
    TrendLine(months[i], monthly[months[i]],
              if i == 0 then None else Some(DeltaOf(monthly[months[i]], monthly[months[i - 1]])))
  }

  /** Every month with a total gets a line, and the lines go in calendar order. */
  lemma TrendCoversMonths(monthly: map<Month, int>, m: Month)
    ensures m in monthly <==> exists i :: 0 <= i < |Trend(monthly)| && Trend(monthly)[i].month == m
    ensures forall i, j :: 0 <= i < j < |Trend(monthly)| ==> Trend(monthly)[i].month < Trend(monthly)[j].month
  {
    TrendShape(monthly);
    if m in monthly {
      PresentMonthsComplete(monthly, m);
    }
  }

  /** Absent months are skipped, not counted as 0: no month strictly between two
      consecutive trend lines has a total. */
  lemma TrendSkipsAbsentMonths(monthly: map<Month, int>, i: int, m: Month)
    requires 0 < i < |Trend(monthly)|
    requires Trend(monthly)[i - 1].month < m < Trend(monthly)[i].month
    ensures m !in monthly
  {
    TrendShape(monthly);
    if m in monthly {
      PresentMonthsComplete(monthly, m);
    }
  }

  /** The first loop of `analyzeProductTrends`: skip the sales the target does not
      match, parse the date of the others (a failure ends the analysis) and merge
      their quantities into the month totals. */
  method MonthlyTotalsOf(sales: seq<Sale>, target: Option<string>) returns (r: Result<map<Month, int>, DateError>)
    ensures r.Success? ==> DatedWhere(sales, target) && r.value == MonthlyTotals(sales, target)
    ensures r.Failure? ==> IsFirstBadDate(sales, target, r.error)
  {
    var monthlyTotals: map<Month, int> := map[];
    for i := 0 to |sales|
      invariant DatedWhere(sales[..i], target)
      invariant monthlyTotals == MonthlyTotals(sales[..i], target)
    {
      var sale := sales[i];
      assert Init(sales[..i + 1]) == sales[..i] && Last(sales[..i + 1]) == sale;
      if target == None || EqualsIgnoreCase(sale.productName, target.value) {
        var parsed := ParseMonth(sale.saleDate);
        if parsed.None? {
          return Failure(MalformedDate(i, sale.saleDate));
        }
        monthlyTotals := Tallies.Merge(monthlyTotals, parsed.value, sale.quantity);
      }
      DatedExtend(sales, target, i);
    }
    assert sales[..|sales|] == sales;
    return Success(monthlyTotals);
  }

  /** The second loop of `analyzeProductTrends`: walk the month totals in calendar
      order carrying the previous month's total (none before the first). */
  method TrendLines(monthly: map<Month, int>) returns (lines: seq<TrendLine>)
    ensures lines == Trend(monthly)
  {
    var entries := PresentMonths(monthly);
    lines := [];
    var previous: Option<int> := None;
    for i := 0 to |entries|
      invariant lines == Trend(monthly)[..i]
      invariant previous == if i == 0 then None else Some(monthly[entries[i - 1]])
    {
      var month := entries[i];
      var current := monthly[month];
      var line;
      if previous.None? {
        line := TrendLine(month, current, None);
      } else {
        var change := current - previous.value;
        var percent := Percent(change, previous.value);
        var trend := Label(change);
        line := TrendLine(month, current, Some(Delta(change, percent, trend)));
      }
      assert line == LineAt(monthly, entries, i);
      TrendPrefix(monthly, i);
      lines := lines + [line];
      previous := Some(current);
    }
    assert Trend(monthly)[..|entries|] == Trend(monthly);
  }

  /** The trend lines up to position `i` extend those before it by the line of the
      i-th present month. */
  lemma TrendPrefix(monthly: map<Month, int>, i: nat)
    requires i < |PresentMonths(monthly)|
    ensures Trend(monthly)[..i + 1] == Trend(monthly)[..i] + [LineAt(monthly, PresentMonths(monthly), i)]
  {
    assert Trend(monthly)[i] == LineAt(monthly, PresentMonths(monthly), i);
  }

  /** `analyzeProductTrends(sales, targetProduct)`, with None for a null target. */
  method AnalyzeProductTrends(sales: seq<Sale>, target: Option<string>) returns (r: Result<TrendReport, DateError>)
    ensures r.Success? ==>
      && DatedWhere(sales, target)
      && r.value == TrendReport(Header(target), Trend(MonthlyTotals(sales, target)))
    ensures r.Failure? ==> IsFirstBadDate(sales, target, r.error)
  {
    var totals := MonthlyTotalsOf(sales, target);
    if totals.Failure? {
      return Failure(totals.error);
    }
    var lines := TrendLines(totals.value);
    return Success(TrendReport(Header(target), lines));
  }
}
