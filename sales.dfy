/** Sale records and the three groupings the analyzer builds from them, written as
    folds over the input list (one step per sale, in list order), with reference
    definitions by filtered sums to state what each grouping holds. */
module Sales {
  import opened Wrappers
  import opened Dates
  import opened Tallies

  /** One input record: `productName`, `quantity`, `saleDate` (text `yyyy-MM-dd`). */
  datatype Sale = Sale(productName: string, quantity: int, saleDate: string)

  /** The error that stops a run: the date of the sale at `index` does not parse. */
  datatype DateError = MalformedDate(index: nat, text: string)

  // ---------------------------------------------------------------------------
  // Case-insensitive comparison of product names (`String.equalsIgnoreCase`)

  function ToUpper(c: char): char {
    if 'a' <= c <= 'z' then (c as int - 32) as char else c
  }

  function ToLower(c: char): char {
    if 'A' <= c <= 'Z' then (c as int + 32) as char else c
  }

  /** Two characters match when they are equal, when their upper cases are equal,
      or when the lower cases of their upper cases are equal. */
  predicate CharsEqualIgnoreCase(a: char, b: char): (same: bool)
    ensures same <==> ToLower(a) == ToLower(b)
  {
    a == b || ToUpper(a) == ToUpper(b) || ToLower(ToUpper(a)) == ToLower(ToUpper(b))
  }

  /** `s.equalsIgnoreCase(t)`: same length and matching characters position by position. */
  predicate EqualsIgnoreCase(s: string, t: string): (same: bool)
    ensures same <==> |s| == |t| && forall i :: 0 <= i < |s| ==> ToLower(s[i]) == ToLower(t[i])
  {
    |s| == |t| && forall i :: 0 <= i < |s| ==> CharsEqualIgnoreCase(s[i], t[i])
  }

  function Lowered(s: string): (r: string)
    ensures |r| == |s| && forall i :: 0 <= i < |s| ==> r[i] == ToLower(s[i])
  {
    seq(|s|, i requires 0 <= i < |s| => ToLower(s[i]))
  }

  /** Ignoring case is comparing lower-cased names; hence it is an equivalence. */
  lemma EqualsIgnoreCaseIsLoweredEquality(s: string, t: string)
    ensures EqualsIgnoreCase(s, t) <==> Lowered(s) == Lowered(t)
  {
    if Lowered(s) == Lowered(t) {
      forall i | 0 <= i < |s|
        ensures CharsEqualIgnoreCase(s[i], t[i])
      {
        assert Lowered(s)[i] == Lowered(t)[i];
      }
    }
  }

  // ---------------------------------------------------------------------------
  // Which sales take part

  /** The trend filter: a null target (None) keeps every sale, a target keeps the
      sales whose name equals it ignoring case. */
  predicate Matches(sale: Sale, target: Option<string>): (keep: bool)
    ensures keep <==> target.None? || Lowered(sale.productName) == Lowered(target.value)
  {
    if target.None? then true
    else
      EqualsIgnoreCaseIsLoweredEquality(sale.productName, target.value);
      EqualsIgnoreCase(sale.productName, target.value)
  }

  /** Every sale that passes the filter has a date that parses. */
  predicate DatedWhere(sales: seq<Sale>, target: Option<string>) {
    forall i :: 0 <= i < |sales| && Matches(sales[i], target) ==> ParseMonth(sales[i].saleDate).Some?
  }

  /** When every date parses, the dates of the sales any filter keeps parse. */
  lemma DatedUnfiltered(sales: seq<Sale>, target: Option<string>)
    requires DatedWhere(sales, None)
    ensures DatedWhere(sales, target)
  {
  }

  /** `error` names the first sale that passes the filter and whose date does not parse. */
  predicate IsFirstBadDate(sales: seq<Sale>, target: Option<string>, error: DateError) {
    && error.index < |sales|
    && Matches(sales[error.index], target)
    && ParseMonth(sales[error.index].saleDate).None?
    && error.text == sales[error.index].saleDate
    && DatedWhere(sales[..error.index], target)
  }

  /** Extending a prefix by one sale keeps the dates parsing when that sale's does. */
  lemma DatedExtend(sales: seq<Sale>, target: Option<string>, n: nat)
    requires n < |sales| && DatedWhere(sales[..n], target)
    requires Matches(sales[n], target) ==> ParseMonth(sales[n].saleDate).Some?
    ensures DatedWhere(sales[..n + 1], target)
  {
    forall i | 0 <= i < n + 1
      ensures sales[..n + 1][i] == (if i < n then sales[..n][i] else sales[n])
    {
    }
  }

  /** When the filtered dates all parse, no sale is a first bad date. */
  lemma NoBadDate(sales: seq<Sale>, target: Option<string>)
    requires DatedWhere(sales, target)
    ensures forall error :: !IsFirstBadDate(sales, target, error)
  {
  }

  function Init(sales: seq<Sale>): seq<Sale>
    requires sales != []
  {
    sales[..|sales| - 1]
  }

  function Last(sales: seq<Sale>): Sale
    requires sales != []
  {
    sales[|sales| - 1]
  }

  // ---------------------------------------------------------------------------
  // Reference definitions: filtered sums over the input

  function ForProduct(p: string): Sale -> bool {
    (sale: Sale) => sale.productName == p
  }

  function InMonth(target: Option<string>, m: Month): Sale -> bool {
    (sale: Sale) => Matches(sale, target) && ParseMonth(sale.saleDate) == Some(m)
  }

  function InCell(m: Month, p: string): Sale -> bool {
    (sale: Sale) => ParseMonth(sale.saleDate) == Some(m) && sale.productName == p
  }

  /** Some sale satisfies `keep`. */
  predicate Any(sales: seq<Sale>, keep: Sale -> bool) {
    exists i :: 0 <= i < |sales| && keep(sales[i])
  }

  /** The sum of the quantities of the sales that satisfy `keep`. */
  function QuantityWhere(sales: seq<Sale>, keep: Sale -> bool): int {
    if sales == [] then 0
    else QuantityWhere(Init(sales), keep) + (if keep(Last(sales)) then Last(sales).quantity else 0)
  }

  /** The sum of all quantities. */
  function TotalQuantity(sales: seq<Sale>): int {
    if sales == [] then 0 else TotalQuantity(Init(sales)) + Last(sales).quantity
  }

  lemma AnySnoc(sales: seq<Sale>, keep: Sale -> bool)
    requires sales != []
    ensures Any(sales, keep) <==> Any(Init(sales), keep) || keep(Last(sales))
  {
    if Any(sales, keep) && !keep(Last(sales)) {
      var i :| 0 <= i < |sales| && keep(sales[i]);
      assert Init(sales)[i] == sales[i];
    }
    if Any(Init(sales), keep) {
      var i :| 0 <= i < |Init(sales)| && keep(Init(sales)[i]);
      assert sales[i] == Init(sales)[i];
    }
  }

  /** Nothing satisfies `keep`, so nothing is added up. */
  lemma {:induction false} QuantityWhereNone(sales: seq<Sale>, keep: Sale -> bool)
    requires !Any(sales, keep)
    ensures QuantityWhere(sales, keep) == 0
  {
    if sales != [] {
      AnySnoc(sales, keep);
      QuantityWhereNone(Init(sales), keep);
    }
  }

  // ---------------------------------------------------------------------------
  // The groupings, one sale at a time

  /** `totalSalesPerProduct` after the loop over `sales`. */
  function ProductTotals(sales: seq<Sale>): map<string, int> {
    if sales == [] then map[]
    else Merge(ProductTotals(Init(sales)), Last(sales).productName, Last(sales).quantity)
  }

  /** The per-month totals of the sales that pass the filter: `totalSalesPerMonth`
      of the main loop (with the None filter) and `monthlyTotals` of the trend
      analysis. */
  function MonthlyTotals(sales: seq<Sale>, target: Option<string>): map<Month, int>
    requires DatedWhere(sales, target)
  {
    if sales == [] then map[]
    else
      assert DatedWhere(Init(sales), target) by {
        forall i | 0 <= i < |Init(sales)| ensures Init(sales)[i] == sales[i] { }
      }
      var prior := MonthlyTotals(Init(sales), target);
      if Matches(Last(sales), target)
      then Merge(prior, ParseMonth(Last(sales).saleDate).value, Last(sales).quantity)
      else prior
  }

  /** `salesByMonth` after the loop: the inner tally of a month is created empty
      (`putIfAbsent`) on the month's first sale, then merged into. */
  function MonthProductTotals(sales: seq<Sale>): map<Month, map<string, int>>
    requires DatedWhere(sales, None)
  {
    if sales == [] then map[]
    else
      assert DatedWhere(Init(sales), None) by {
        forall i | 0 <= i < |Init(sales)| ensures Init(sales)[i] == sales[i] { }
      }
      var prior := MonthProductTotals(Init(sales));
      var m := ParseMonth(Last(sales).saleDate).value;
      var inner := if m in prior then prior[m] else map[];
      prior[m := Merge(inner, Last(sales).productName, Last(sales).quantity)]
  }

  // ---------------------------------------------------------------------------
  // What the groupings hold

  /** A product has a total iff it was sold, and its total is the sum of its sales. */
  lemma {:induction false} ProductTotalsAt(sales: seq<Sale>, p: string)
    ensures p in ProductTotals(sales) <==> Any(sales, ForProduct(p))
    ensures p in ProductTotals(sales) ==> ProductTotals(sales)[p] == QuantityWhere(sales, ForProduct(p))
  {
    if sales != [] {
      ProductTotalsAt(Init(sales), p);
      AnySnoc(sales, ForProduct(p));
      if p !in ProductTotals(Init(sales)) {
        QuantityWhereNone(Init(sales), ForProduct(p));
      }
    }
  }

  /** A month has a total iff some sale passing the filter falls in it, and its
      total is the sum of those sales' quantities. */
  lemma {:induction false} MonthlyTotalsAt(sales: seq<Sale>, target: Option<string>, m: Month)
    requires DatedWhere(sales, target)
    ensures m in MonthlyTotals(sales, target) <==> Any(sales, InMonth(target, m))
    ensures m in MonthlyTotals(sales, target) ==> MonthlyTotals(sales, target)[m] == QuantityWhere(sales, InMonth(target, m))
  {
    if sales != [] {
      assert DatedWhere(Init(sales), target) by {
        forall i | 0 <= i < |Init(sales)| ensures Init(sales)[i] == sales[i] { }
      }
      MonthlyTotalsAt(Init(sales), target, m);
      AnySnoc(sales, InMonth(target, m));
      if m !in MonthlyTotals(Init(sales), target) {
        QuantityWhereNone(Init(sales), InMonth(target, m));
      }
    }
  }

  /** `salesByMonth` has the same months as `totalSalesPerMonth`; the inner tally of
      a month has a product iff that product sold in that month, with the sum of
      those sales. */
  lemma {:induction false} MonthProductTotalsAt(sales: seq<Sale>, m: Month, p: string)
    requires DatedWhere(sales, None)
    ensures m in MonthProductTotals(sales) <==> m in MonthlyTotals(sales, None)
    ensures m in MonthProductTotals(sales) ==>
      && (p in MonthProductTotals(sales)[m] <==> Any(sales, InCell(m, p)))
      && (p in MonthProductTotals(sales)[m] ==> MonthProductTotals(sales)[m][p] == QuantityWhere(sales, InCell(m, p)))
  {
    if sales != [] {
      assert DatedWhere(Init(sales), None) by {
        forall i | 0 <= i < |Init(sales)| ensures Init(sales)[i] == sales[i] { }
      }
      MonthProductTotalsAt(Init(sales), m, p);
      AnySnoc(sales, InCell(m, p));
      var prior := MonthProductTotals(Init(sales));
      if m !in prior {
        MonthlyTotalsAt(Init(sales), None, m);
      }
      if m !in prior || p !in prior[m] {
        QuantityWhereNone(Init(sales), InCell(m, p));
      }
    }
  }

  /** Sum conservation: the product totals and the month totals each add up to the
      sum of all quantities. */
  lemma {:induction false} TotalsConserveQuantity(sales: seq<Sale>)
    requires DatedWhere(sales, None)
    ensures SumValues(ProductTotals(sales)) == TotalQuantity(sales)
    ensures SumValues(MonthlyTotals(sales, None)) == TotalQuantity(sales)
  {
    if sales != [] {
      assert DatedWhere(Init(sales), None) by {
        forall i | 0 <= i < |Init(sales)| ensures Init(sales)[i] == sales[i] { }
      }
      TotalsConserveQuantity(Init(sales));
      SumValuesMerge(ProductTotals(Init(sales)), Last(sales).productName, Last(sales).quantity);
      SumValuesMerge(MonthlyTotals(Init(sales), None), ParseMonth(Last(sales).saleDate).value, Last(sales).quantity);
    }
  }

  /** Partition: every inner tally of `salesByMonth` is non-empty and its values add
      up to the month's entry in `totalSalesPerMonth`. */
  lemma {:induction false} ProductsPartitionMonth(sales: seq<Sale>)
    requires DatedWhere(sales, None)
    ensures MonthProductTotals(sales).Keys == MonthlyTotals(sales, None).Keys
    ensures forall m :: m in MonthProductTotals(sales) ==>
      MonthProductTotals(sales)[m] != map[] && SumValues(MonthProductTotals(sales)[m]) == MonthlyTotals(sales, None)[m]
  {
    if sales != [] {
      assert DatedWhere(Init(sales), None) by {
        forall i | 0 <= i < |Init(sales)| ensures Init(sales)[i] == sales[i] { }
      }
      ProductsPartitionMonth(Init(sales));
      var prior, after := MonthProductTotals(Init(sales)), MonthProductTotals(sales);
      var priorTotals, totals := MonthlyTotals(Init(sales), None), MonthlyTotals(sales, None);
      var m := ParseMonth(Last(sales).saleDate).value;
      var inner := if m in prior then prior[m] else map[];
      assert after == prior[m := Merge(inner, Last(sales).productName, Last(sales).quantity)];
      assert totals == Merge(priorTotals, m, Last(sales).quantity);
      SumValuesMerge(inner, Last(sales).productName, Last(sales).quantity);
      forall k | k in after
        ensures after[k] != map[] && SumValues(after[k]) == totals[k]
      {
        if k == m {
          assert Last(sales).productName in after[k];
        } else {
          assert after[k] == prior[k];
        }
      }
    }
  }

  /** One more sale in month `m` (`putIfAbsent` then `merge`): the inner tally of
      `m` is created holding just this sale when `m` had none, and otherwise keeps
      every entry it had, with the sale's quantity added under its product; other
      months are untouched. */
  lemma MonthProductStep(sales: seq<Sale>, sale: Sale)
    requires DatedWhere(sales + [sale], None)
    ensures DatedWhere(sales, None) && ParseMonth(sale.saleDate).Some?
    ensures var m, before, after := ParseMonth(sale.saleDate).value, MonthProductTotals(sales), MonthProductTotals(sales + [sale]);
      && after.Keys == before.Keys + {m}
      && (forall k :: k in before && k != m ==> after[k] == before[k])
      && (m !in before ==> after[m] == map[sale.productName := sale.quantity])
      && (m in before ==>
           && after[m].Keys == before[m].Keys + {sale.productName}
           && (forall p :: p in before[m] && p != sale.productName ==> after[m][p] == before[m][p])
           && after[m][sale.productName] == (if sale.productName in before[m] then before[m][sale.productName] else 0) + sale.quantity)
  {
    assert Init(sales + [sale]) == sales;
    assert (sales + [sale])[|sales|] == sale;
    assert DatedWhere(sales, None) by {
      forall i | 0 <= i < |sales| ensures sales[i] == (sales + [sale])[i] { }
    }
  }

  /** The trend filter depends on the target only up to case. */
  lemma {:induction false} FilterIgnoresCase(sales: seq<Sale>, t1: string, t2: string)
    requires EqualsIgnoreCase(t1, t2)
    requires DatedWhere(sales, Some(t1))
    ensures DatedWhere(sales, Some(t2))
    ensures MonthlyTotals(sales, Some(t1)) == MonthlyTotals(sales, Some(t2))
  {
    forall sale: Sale
      ensures Matches(sale, Some(t1)) <==> Matches(sale, Some(t2))
    {
      EqualsIgnoreCaseIsLoweredEquality(sale.productName, t1);
      EqualsIgnoreCaseIsLoweredEquality(sale.productName, t2);
      EqualsIgnoreCaseIsLoweredEquality(t1, t2);
    }
    if sales != [] {
      assert DatedWhere(Init(sales), Some(t1)) by {
        forall i | 0 <= i < |Init(sales)| ensures Init(sales)[i] == sales[i] { }
      }
      FilterIgnoresCase(Init(sales), t1, t2);
    }
  }
}
