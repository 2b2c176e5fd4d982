/** The admin dashboard: the day's figures, low stock and pending credit counts, the
    per-method and per-cashier totals, each cashier's activity, the recent activity
    list, the one-unit stock buttons and the code generator. */
module Dashboard {
  import opened Base
  import opened Tally
  import opened DataContext
  import CreditRoutes
  import CashierPOS
  import Inventory

  /** The dashboard's "today" is the fixed date of the seeded sales. */
  const FixedToday := "2023-10-01"

  /** `todaySales` and `todayOrders` */
  function TodayFigures(sales: seq<Sale>): (r: (int, nat))
    ensures r.1 == Count(sales, CashierPOS.DateIs(FixedToday))
    ensures r.0 == Sum(Filter(sales, CashierPOS.DateIs(FixedToday)), CashierPOS.SaleTotal)
  {
    var day := Filter(sales, CashierPOS.DateIs(FixedToday));
    (Sum(day, CashierPOS.SaleTotal), |day|)
  }

  /** The dashboard's two headline figures are the point-of-sale screen's total and
      transaction count for the same day. */
  lemma TodayFiguresAgree(sales: seq<Sale>)
    ensures TodayFigures(sales)
            == (CashierPOS.TodayStats(sales, FixedToday).totalSales,
                CashierPOS.TodayStats(sales, FixedToday).transactionCount)
  {
  }

  function IsLowStockRowFor(): Product -> bool
  {
    (p: Product) => Inventory.IsLowStockRow(p)
  }

  /** `lowStock`: the products under 25 units. */
  function LowStockCount(ps: seq<Product>): (n: nat)
    ensures n <= |ps|
    ensures n == |ps| <==> forall p :: p in ps ==> p.stock < 25
  {
    CountAllIff(ps, IsLowStockRowFor());
    Count(ps, IsLowStockRowFor())
  }

  /** A filter keeps its whole input exactly when every element passes. */
  lemma CountAllIff<T>(xs: seq<T>, p: T -> bool)
    ensures |Filter(xs, p)| <= |xs|
    ensures |Filter(xs, p)| == |xs| <==> forall x :: x in xs ==> p(x)
  {
    FilterMembers(xs, p);
    if forall x :: x in xs ==> p(x) {
      FilterAll(xs, p);
    } else {
      var x :| x in xs && !p(x);
      LengthDropsWhenRejected(xs, p, x);
    }
  }

  /** A filter that rejects some element is shorter than its input. */
  lemma {:induction false} LengthDropsWhenRejected<T>(xs: seq<T>, p: T -> bool, x: T)
    requires x in xs && !p(x)
    ensures |Filter(xs, p)| < |xs|
  {
    var init, last := xs[..|xs| - 1], xs[|xs| - 1];
    FilterMembers(init, p);
    assert xs == init + [last];
    if last != x {
      LengthDropsWhenRejected(init, p, x);
    }
  }

  function IsPending(): CreditRoutes.CreditRequest -> bool
  {
    (r: CreditRoutes.CreditRequest) => r.status == CreditRoutes.Pending
  }

  /** The pending list, in order. */
  function PendingList(reqs: seq<CreditRoutes.CreditRequest>): (r: seq<CreditRoutes.CreditRequest>)
    ensures forall q :: q in r <==> q in reqs && q.status == CreditRoutes.Pending
  {
    FilterMembers(reqs, IsPending());
    Filter(reqs, IsPending())
  }

  /** `pendingCredits`: the badge counts what the pending list shows. */
  function PendingCredits(reqs: seq<CreditRoutes.CreditRequest>): (n: nat)
    ensures n == |PendingList(reqs)|
    ensures n == 0 <==> forall q :: q in reqs ==> q.status != CreditRoutes.Pending
  {
    var l := PendingList(reqs);
    if l != [] then assert l[0] in l; |l| else |l|
  }

  function SaleMethod(s: Sale): string
  {
    s.paymentMethod
  }

  function SaleCashier(s: Sale): string
  {
    s.cashier
  }

  /** `salesByMethod` and `salesByCashier`: each adds up to all sales, one entry per
      method or cashier that occurs. */
  lemma ByMethodAndCashier(sales: seq<Sale>, m: string, c: string)
    ensures Total(SumsBy(sales, SaleMethod, CashierPOS.SaleTotal)) == Sum(sales, CashierPOS.SaleTotal)
    ensures Total(SumsBy(sales, SaleCashier, CashierPOS.SaleTotal)) == Sum(sales, CashierPOS.SaleTotal)
    ensures DistinctKeys(SumsBy(sales, SaleMethod, CashierPOS.SaleTotal))
    ensures DistinctKeys(SumsBy(sales, SaleCashier, CashierPOS.SaleTotal))
    ensures m in KeysOf(SumsBy(sales, SaleMethod, CashierPOS.SaleTotal)) <==>
            exists i :: 0 <= i < |sales| && sales[i].paymentMethod == m
    ensures Get(SumsBy(sales, SaleCashier, CashierPOS.SaleTotal), c)
            == Sum(Filter(sales, KeyIs(SaleCashier, c)), CashierPOS.SaleTotal)
  {
    SumsByTotal(sales, SaleMethod, CashierPOS.SaleTotal);
    SumsByTotal(sales, SaleCashier, CashierPOS.SaleTotal);
    SumsByKeys(sales, SaleMethod, CashierPOS.SaleTotal, m);
    SumsByGet(sales, SaleCashier, CashierPOS.SaleTotal, c);
  }

  // ----- cashier activity -----

  /** One cashier's summary: orders, total and a count per payment method. */
  datatype Activity = Activity(name: string, orders: int, total: int, methods: Dict<string>)

  function NameIs(c: string): Activity -> bool
  {
    (a: Activity) => a.name == c
  }

  function One(s: Sale): int
  {
    1
  }

  /** One step of the `cashierActivity` reduce: create the cashier's entry when it
      is missing, then count the sale, add its total and count its method. */
  function Record(acc: seq<Activity>, s: Sale): seq<Activity>
  {
    var i := FirstIndex(acc, NameIs(s.cashier));
    if i < 0 then acc + [Activity(s.cashier, 1, s.total, Add([], s.paymentMethod, 1))]
    else acc[i := acc[i].(orders := acc[i].orders + 1, total := acc[i].total + s.total,
                          methods := Add(acc[i].methods, s.paymentMethod, 1))]
  }

  /** `cashierActivity`, its entries in the order the cashiers first sold. */
  function CashierActivity(sales: seq<Sale>): seq<Activity>
  {
    if sales == [] then [] else Record(CashierActivity(sales[..|sales| - 1]), sales[|sales| - 1])
  }

  lemma {:induction false} SameNamesSameIndex(a: seq<Activity>, b: seq<Activity>, c: string)
    requires |a| == |b| && forall j :: 0 <= j < |a| ==> a[j].name == b[j].name
    ensures FirstIndex(a, NameIs(c)) == FirstIndex(b, NameIs(c))
  {
    if a != [] {
      SameNamesSameIndex(a[1..], b[1..], c);
    }
  }

  /** Looking a cashier up after one step: only the sale's own cashier changes. */
  lemma RecordLookup(acc: seq<Activity>, s: Sale, c: string)
    ensures Find(Record(acc, s), NameIs(c)) ==
      if s.cashier != c then Find(acc, NameIs(c))
      else match Find(acc, NameIs(c))
        case None => Some(Activity(c, 1, s.total, Add([], s.paymentMethod, 1)))
        case Some(a) => Some(a.(orders := a.orders + 1, total := a.total + s.total,
                                methods := Add(a.methods, s.paymentMethod, 1)))
  {
    var i := FirstIndex(acc, NameIs(s.cashier));
    var r := Record(acc, s);
    if i < 0 {
      var e := Activity(s.cashier, 1, s.total, Add([], s.paymentMethod, 1));
      FirstIndexAppend(acc, [e], NameIs(c));
      assert r == acc + [e];
      if s.cashier == c {
        assert FirstIndex([e], NameIs(c)) == 0;
      } else {
        assert FirstIndex([e], NameIs(c)) < 0 by {
          assert !NameIs(c)([e][0]);
        }
      }
    } else {
      SameNamesSameIndex(acc, r, c);
    }
  }

  function CashierIs(c: string): Sale -> bool
  {
    (s: Sale) => s.cashier == c
  }

  /** A cashier's entry holds exactly their sales: its orders are how many they made,
      its total what those came to, its method counts the per-method count of those
      sales; a cashier without sales has no entry. */
  lemma {:induction false} ActivityOfCashier(sales: seq<Sale>, c: string)
    ensures var mine := Filter(sales, CashierIs(c));
      Find(CashierActivity(sales), NameIs(c)) ==
        if mine == [] then None
        else Some(Activity(c, |mine|, Sum(mine, CashierPOS.SaleTotal), SumsBy(mine, SaleMethod, One)))
  {
    if sales != [] {
      var init, s := sales[..|sales| - 1], sales[|sales| - 1];
      ActivityOfCashier(init, c);
      assert CashierActivity(sales) == Record(CashierActivity(init), s);
      RecordLookup(CashierActivity(init), s, c);
      var prev := Filter(init, CashierIs(c));
      if s.cashier == c {
        var mine := prev + [s];
        assert Filter(sales, CashierIs(c)) == mine;
        assert mine[..|mine| - 1] == prev;
        assert Sum(mine, CashierPOS.SaleTotal) == Sum(prev, CashierPOS.SaleTotal) + s.total;
        assert SumsBy(mine, SaleMethod, One) == Add(SumsBy(prev, SaleMethod, One), s.paymentMethod, 1);
      } else {
        assert Filter(sales, CashierIs(c)) == prev;
      }
    }
  }

  /** Each cashier's per-method counts add up to their orders. */
  lemma MethodCountsAddUp(sales: seq<Sale>, c: string)
    requires Find(CashierActivity(sales), NameIs(c)).Some?
    ensures var a := Find(CashierActivity(sales), NameIs(c)).value;
            Total(a.methods) == a.orders && a.orders >= 1
  {
    ActivityOfCashier(sales, c);
    var mine := Filter(sales, CashierIs(c));
    SumsByTotal(mine, SaleMethod, One);
    SumConst(mine, One, 1);
  }

  // ----- recent activity -----

  /** `activityLogs.slice().reverse().slice(0, 10)` */
  function RecentLogs(logs: seq<LogEntry>): (r: seq<LogEntry>)
    ensures |r| == if |logs| < 10 then |logs| else 10
    ensures forall k :: 0 <= k < |r| ==> r[k] == logs[|logs| - 1 - k]
  {
    var n := if |logs| < 10 then |logs| else 10;
    seq(n, k requires 0 <= k < n => logs[|logs| - 1 - k])
  }

  /** `log.cashier || log.user`: who a log line names. */
  function Actor(log: LogEntry): Option<string>
  {
    if log.cashier.Some? && log.cashier.value != "" then log.cashier else log.user
  }

  /** `log.amount && ...`: the amount is shown when present and not 0. */
  predicate ShowsAmount(log: LogEntry)
  {
    log.amount.Some? && log.amount.value != 0
  }

  /** What the recent-activity rows show for the logs the store writes: a sale
      names its cashier (nobody when the name is empty), every other line its
      user, and no written line shows an amount; only the seeded lines carry one. */
  lemma LogColumns(id: int, action: Action, name: string, timestamp: string)
    ensures Actor(LogEntry(id, action, Some(name), None, timestamp, None)) == (if name == "" then None else Some(name))
    ensures Actor(LogEntry(id, action, None, Some(name), timestamp, None)) == Some(name)
    ensures Actor(AdminLog(id, action, timestamp)) == Some("Admin")
    ensures !ShowsAmount(LogEntry(id, action, Some(name), None, timestamp, None))
    ensures !ShowsAmount(LogEntry(id, action, None, Some(name), timestamp, None))
    ensures forall k :: 0 <= k < |SeedLogs()| ==> (ShowsAmount(SeedLogs()[k]) <==> SeedLogs()[k].amount.Some?)
  {
  }

  // ----- stock buttons -----

  /** `Math.ceil(p.weight || 1)`: the units the + and − buttons move. */
  function UnitQty(weight: real): (u: int)
    ensures weight == 0.0 ==> u == 1
    ensures weight != 0.0 ==> u as real >= weight && (u as real) - 1.0 < weight
  {
    var w := if weight == 0.0 then 1.0 else weight;
    -((-w).Floor)
  }

  /** + then − on a product with units of a positive weight returns its stock to
      where it was; − alone never takes it below zero. */
  lemma PlusThenMinus(ps: seq<Product>, productId: int, weight: real)
    requires StockNonNegative(ps) && weight > 0.0
    ensures AdjustStock(AdjustStock(ps, productId, UnitQty(weight)), productId, -UnitQty(weight)) == ps
    ensures StockNonNegative(AdjustStock(ps, productId, -UnitQty(weight)))
  {
    var u := UnitQty(weight);
    var up := AdjustStock(ps, productId, u);
    var back := AdjustStock(up, productId, -u);
    assert |back| == |ps|;
    forall j | 0 <= j < |ps| ensures back[j] == ps[j] {
    }
    ClampedStockNonNegative(ps, productId, -u, 0);
  }

  /** The Generate button: the typed cashier name, or 'Any' when the field is empty,
      with the store's default lifetime. */
  method GenerateFromDashboard(store: DataStore, nameInput: string, code: string, now: int, logId: int,
                               timestamp: string) returns (rec: CodeRecord)
    requires IsLocalCode(code)
    modifies store`verificationCodes, store`activityLogs
    ensures rec.cashier == if nameInput != "" then nameInput else "Any"
    ensures rec.code == code && !rec.used && rec.expiresAt == now + 30 * 60000
    ensures store.verificationCodes == [rec] + old(store.verificationCodes)
    ensures store.activityLogs == old(store.activityLogs) + [AdminLog(logId, CodeGenerated, timestamp)]
  {
    var cashier := if nameInput != "" then nameInput else "Any";
    rec := store.GenerateVerificationCode(Some(cashier), None, code, now, logId, timestamp);
  }
}
