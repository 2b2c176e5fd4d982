/** The admin sales page: the method filter, the totals over what it shows, the
    export rows and the icon per payment method. */
module Sales {
  import opened Base
  import opened Text
  import opened DataContext
  import CashierPOS

  /** A sale is shown under `filter` when the filter is 'all' or equals its method
      lower-cased. */
  predicate Shown(s: Sale, filter: string)
  {
    filter == "all" || Lower(s.paymentMethod) == filter
  }

  function ShownFor(filter: string): Sale -> bool
  {
    (s: Sale) => Shown(s, filter)
  }

  /** `filteredSales` */
  function FilteredSales(sales: seq<Sale>, filter: string): (r: seq<Sale>)
    ensures filter == "all" ==> r == sales
    ensures forall s :: s in r <==> s in sales && (filter == "all" || Lower(s.paymentMethod) == filter)
    ensures |r| <= |sales|
  {
    FilterMembers(sales, ShownFor(filter));
    if filter == "all" then FilterAll(sales, ShownFor(filter)); Filter(sales, ShownFor(filter))
    else Filter(sales, ShownFor(filter))
  }

  /** The filter keeps order: the sales recorded later are listed after the earlier ones. */
  lemma FilteredAppend(a: seq<Sale>, b: seq<Sale>, filter: string)
    ensures FilteredSales(a + b, filter) == FilteredSales(a, filter) + FilteredSales(b, filter)
  {
    FilterAppend(a, b, ShownFor(filter));
  }

  /** `totalSales` and `totalTransactions` */
  function Totals(sales: seq<Sale>, filter: string): (r: (int, nat))
    ensures r.1 == |FilteredSales(sales, filter)|
    ensures filter == "all" ==> r == (Sum(sales, CashierPOS.SaleTotal), |sales|)
  {
    var shown := FilteredSales(sales, filter);
    (Sum(shown, CashierPOS.SaleTotal), |shown|)
  }

  function HiddenFor(filter: string): Sale -> bool
  {
    (s: Sale) => !Shown(s, filter)
  }

  /** What one filter shows and what it hides add up to all the sales. */
  lemma ShownAndHidden(sales: seq<Sale>, filter: string)
    ensures Sum(sales, CashierPOS.SaleTotal)
         == Totals(sales, filter).0 + Sum(Filter(sales, HiddenFor(filter)), CashierPOS.SaleTotal)
    ensures |sales| == Totals(sales, filter).1 + Count(sales, HiddenFor(filter))
  {
    SumPartition(sales, ShownFor(filter), HiddenFor(filter), CashierPOS.SaleTotal);
    CountPartition(sales, ShownFor(filter), HiddenFor(filter));
  }

  /** One row of the exported report. */
  datatype ExportRow = ExportRow(reference: string, cashier: string, paymentMethod: string, total: int, date: string)

  function RowOf(s: Sale): ExportRow
  {
    ExportRow(s.ref, s.cashier, s.paymentMethod, s.total, s.date)
  }

  /** `exportData` */
  function ExportData(sales: seq<Sale>, filter: string): (rows: seq<ExportRow>)
    ensures |rows| == Totals(sales, filter).1
    ensures forall k :: 0 <= k < |rows| ==> rows[k] == RowOf(FilteredSales(sales, filter)[k])
  {
    var shown := FilteredSales(sales, filter);
    seq(|shown|, k requires 0 <= k < |shown| => RowOf(shown[k]))
  }

  function RowTotal(row: ExportRow): int
  {
    row.total
  }

  /** The report's totals column adds up to the Total Sales card. */
  lemma ExportTotalsAgree(sales: seq<Sale>, filter: string)
    ensures Sum(ExportData(sales, filter), RowTotal) == Totals(sales, filter).0
  {
    RowsSum(FilteredSales(sales, filter));
  }

  lemma {:induction false} RowsSum(shown: seq<Sale>)
    ensures Sum(seq(|shown|, k requires 0 <= k < |shown| => RowOf(shown[k])), RowTotal)
         == Sum(shown, CashierPOS.SaleTotal)
  {
    if shown != [] {
      var init := shown[..|shown| - 1];
      RowsSum(init);
      var rows := seq(|shown|, k requires 0 <= k < |shown| => RowOf(shown[k]));
      assert rows[..|rows| - 1] == seq(|init|, k requires 0 <= k < |init| => RowOf(init[k]));
    }
  }

  /** The icons `getMethodIcon` chooses between. */
  datatype MethodIcon = PhoneIcon | CashIcon | BlueCardIcon | PlainCardIcon

  function IconFor(paymentMethod: string): (r: MethodIcon)
    ensures r == PhoneIcon <==> Lower(paymentMethod) == "m-pesa"
    ensures r == CashIcon <==> Lower(paymentMethod) == "cash"
    ensures r == BlueCardIcon <==> Lower(paymentMethod) == "card"
  {
    var m := Lower(paymentMethod);
    if m == "m-pesa" then PhoneIcon
    else if m == "cash" then CashIcon
    else if m == "card" then BlueCardIcon
    else PlainCardIcon
  }

  /** The choice ignores case. */
  lemma IconIgnoresCase(paymentMethod: string)
    ensures IconFor(Lower(paymentMethod)) == IconFor(paymentMethod)
  {
    LowerIdempotent(paymentMethod);
  }
}
