/** The cashier's own sales page in its "today" view: which sales are the cashier's,
    the figures over them, the payment-method chart, the sales per hour, the five
    best-selling products and the shift history. */
module CashierMySales {
  import opened Base
  import opened Text
  import opened Tally
  import opened Sorting
  import opened DataContext
  import CashierPOS

  /** In the "today" view a sale is the user's when it has the selected date and the
      user's name as cashier; without a signed-in user (`user?.name` undefined) no sale
      matches. */
  predicate IsMine(s: Sale, selectedDate: string, userName: Option<string>)
  {
    s.date == selectedDate && userName.Some? && s.cashier == userName.value
  }

  function IsMineFor(selectedDate: string, userName: Option<string>): Sale -> bool
  {
    (s: Sale) => IsMine(s, selectedDate, userName)
  }

  function MySales(sales: seq<Sale>, selectedDate: string, userName: Option<string>): (r: seq<Sale>)
    ensures forall s :: s in r <==> s in sales && IsMine(s, selectedDate, userName)
    ensures |r| <= |sales|
  {
    FilterMembers(sales, IsMineFor(selectedDate, userName));
    Filter(sales, IsMineFor(selectedDate, userName))
  }

  /** Nobody signed in: the list is empty. */
  lemma NoUserNoSales(sales: seq<Sale>, selectedDate: string)
    ensures MySales(sales, selectedDate, None) == []
  {
    FilterNone(sales, IsMineFor(selectedDate, None));
  }

  datatype MyStats = MyStats(totalSales: int, transactionCount: nat, averageTransaction: real,
                             cashSales: int, mpesaSales: int, cardSales: int)

  function SaleMethod(s: Sale): string
  {
    s.paymentMethod
  }

  /** The sum over the sales paid exactly `m`. */
  function MethodSum(xs: seq<Sale>, m: string): int
  {
    Sum(Filter(xs, KeyIs(SaleMethod, m)), CashierPOS.SaleTotal)
  }

  /** `stats` */
  function Stats(mine: seq<Sale>): (r: MyStats)
    ensures r.transactionCount == |mine|
    ensures r.transactionCount > 0 ==> r.averageTransaction * (|mine| as real) == r.totalSales as real
    ensures r.transactionCount == 0 ==> r.averageTransaction == 0.0
  {
    var total := Sum(mine, CashierPOS.SaleTotal);
    MyStats(total, |mine|, if |mine| > 0 then (total as real) / (|mine| as real) else 0.0,
            MethodSum(mine, "Cash"), MethodSum(mine, "M-Pesa"), MethodSum(mine, "Card"))
  }

  /** Each method figure is that method's entry in the per-method totals, which add up
      to the overall total. */
  lemma MethodFiguresAreTotals(mine: seq<Sale>)
    ensures Stats(mine).cashSales == Get(SumsBy(mine, SaleMethod, CashierPOS.SaleTotal), "Cash")
    ensures Stats(mine).mpesaSales == Get(SumsBy(mine, SaleMethod, CashierPOS.SaleTotal), "M-Pesa")
    ensures Stats(mine).cardSales == Get(SumsBy(mine, SaleMethod, CashierPOS.SaleTotal), "Card")
    ensures Total(SumsBy(mine, SaleMethod, CashierPOS.SaleTotal)) == Stats(mine).totalSales
  {
    SumsByGet(mine, SaleMethod, CashierPOS.SaleTotal, "Cash");
    SumsByGet(mine, SaleMethod, CashierPOS.SaleTotal, "M-Pesa");
    SumsByGet(mine, SaleMethod, CashierPOS.SaleTotal, "Card");
    SumsByTotal(mine, SaleMethod, CashierPOS.SaleTotal);
  }

  function PositiveValue(e: (string, int)): bool
  {
    e.1 > 0
  }

  /** `paymentMethodData`: Cash, M-PESA and Card in that order, keeping only the
      methods with a positive sum. */
  function PaymentMethodData(st: MyStats): (r: seq<(string, int)>)
    ensures forall e :: e in r <==> e in [("Cash", st.cashSales), ("M-PESA", st.mpesaSales), ("Card", st.cardSales)]
                                    && e.1 > 0
    ensures |r| <= 3
  {
    var all := [("Cash", st.cashSales), ("M-PESA", st.mpesaSales), ("Card", st.cardSales)];
    FilterMembers(all, PositiveValue);
    assert forall e :: e in Filter(all, PositiveValue) <==> e in all && e.1 > 0 by {
      forall e ensures e in Filter(all, PositiveValue) <==> e in all && e.1 > 0 {
        assert PositiveValue(e) <==> e.1 > 0;
      }
    }
    Filter(all, PositiveValue)
  }

  // ----- sales by hour -----

  /** `s.split(':')[0]` */
  function BeforeColon(s: string): (r: string)
    ensures r <= s && ':' !in r
    ensures |r| < |s| ==> s[|r|] == ':'
  {
    if s == [] || s[0] == ':' then [] else [s[0]] + BeforeColon(s[1..])
  }

  /** `parseInt(sale.time.split(':')[0])`; None stands for NaN. */
  function HourOf(s: Sale): Option<int>
  {
    ParseInt(BeforeColon(s.time))
  }

  predicate HasHour(s: Sale)
  {
    HourOf(s).Some?
  }

  function Hour(s: Sale): int
    requires HasHour(s)
  {
    HourOf(s).value
  }

  function HourKey(s: Sale): int
  {
    match HourOf(s)
    case Some(h) => h
    case None => 0
  }

  function HourRank(e: (int, int)): int
  {
    e.0
  }

  /** `${hour}:00`, the chart label of an hour. */
  function HourLabel(h: int): string
  {
    IntToString(h) + ":00"
  }

  /** The sort compares `parseInt` of the labels; that reads back each hour, so
      ordering by the labels is ordering by the hours, as `HourRank` does. */
  lemma HourLabelReadsBack(h: int)
    ensures ParseInt(HourLabel(h)) == Some(h)
  {
    ParseIntBeforeStop(h, ":00");
  }

  /** `salesByHour`: the sales whose hour parses, summed per hour, ascending by hour. */
  method SalesByHour(mine: seq<Sale>) returns (hours: seq<(int, int)>)
    ensures hours == SortBy(SumsBy(Filter(mine, HasHour), HourKey, CashierPOS.SaleTotal), HourRank)
  {
    var timed := Filter(mine, HasHour);
    var hourly := TallyLoop(timed, HourKey, CashierPOS.SaleTotal);
    hours := SortBy(hourly, HourRank);
  }

  function TimedSales(mine: seq<Sale>): seq<Sale>
  {
    Filter(mine, HasHour)
  }

  function HourlyTotals(mine: seq<Sale>): seq<(int, int)>
  {
    SortBy(SumsBy(TimedSales(mine), HourKey, CashierPOS.SaleTotal), HourRank)
  }

  /** The hourly chart has one bar per hour that occurs, in strictly ascending order,
      the bars adding up to all the timed sales. */
  lemma SalesByHourFacts(mine: seq<Sale>, h: int)
    ensures var hours := HourlyTotals(mine);
            && (forall i, j :: 0 <= i < j < |hours| ==> hours[i].0 < hours[j].0)
            && (h in KeysOf(hours) <==> exists i :: 0 <= i < |mine| && HourOf(mine[i]) == Some(h))
            && Total(hours) == Sum(TimedSales(mine), CashierPOS.SaleTotal)
  {
    var d := SumsBy(TimedSales(mine), HourKey, CashierPOS.SaleTotal);
    var hours := HourlyTotals(mine);
    SumsByTotal(TimedSales(mine), HourKey, CashierPOS.SaleTotal);
    PermutationKeepsKeys(d, hours);
    PermutationKeepsTotal(d, hours);
    AscendingDistinctIsStrict(d, hours);
    HourKeys(mine, h);
  }

  /** Each bar's total is the sum of the sales in that hour. */
  lemma HourTotal(mine: seq<Sale>, i: int)
    requires 0 <= i < |HourlyTotals(mine)|
    ensures var e := HourlyTotals(mine)[i];
            e.1 == Sum(Filter(TimedSales(mine), KeyIs(HourKey, e.0)), CashierPOS.SaleTotal)
  {
    var d := SumsBy(TimedSales(mine), HourKey, CashierPOS.SaleTotal);
    var e := HourlyTotals(mine)[i];
    SumsByTotal(TimedSales(mine), HourKey, CashierPOS.SaleTotal);
    SumsByGet(TimedSales(mine), HourKey, CashierPOS.SaleTotal, e.0);
    assert e in multiset(d);
    var a :| 0 <= a < |d| && d[a] == e;
    assert IndexOfKey(d, e.0) == a;
  }

  lemma HourKeys(mine: seq<Sale>, h: int)
    ensures h in KeysOf(SumsBy(TimedSales(mine), HourKey, CashierPOS.SaleTotal)) <==>
            exists i :: 0 <= i < |mine| && HourOf(mine[i]) == Some(h)
  {
    var timed := TimedSales(mine);
    SumsByKeys(timed, HourKey, CashierPOS.SaleTotal, h);
    FilterMembers(mine, HasHour);
    if exists i :: 0 <= i < |mine| && HourOf(mine[i]) == Some(h) {
      var i :| 0 <= i < |mine| && HourOf(mine[i]) == Some(h);
      HourKeyOfTimed(mine, timed, mine[i], h);
    }
    if exists k :: 0 <= k < |timed| && HourKey(timed[k]) == h {
      var k :| 0 <= k < |timed| && HourKey(timed[k]) == h;
      TimedHourInMine(mine, timed, k, h);
    }
  }

  lemma HourKeyOfTimed(mine: seq<Sale>, timed: seq<Sale>, s: Sale, h: int)
    requires forall x :: x in timed <==> x in mine && HasHour(x)
    requires s in mine && HourOf(s) == Some(h)
    ensures exists k :: 0 <= k < |timed| && HourKey(timed[k]) == h
  {
    assert s in timed;
    var k :| 0 <= k < |timed| && timed[k] == s;
    assert HourKey(timed[k]) == h;
  }

  lemma TimedHourInMine(mine: seq<Sale>, timed: seq<Sale>, k: int, h: int)
    requires forall x :: x in timed <==> x in mine && HasHour(x)
    requires 0 <= k < |timed| && HourKey(timed[k]) == h
    ensures exists i :: 0 <= i < |mine| && HourOf(mine[i]) == Some(h)
  {
    var s := timed[k];
    assert s in timed;
    assert s in mine && HasHour(s);
    var i :| 0 <= i < |mine| && mine[i] == s;
    assert HourOf(mine[i]) == Some(h);
  }

  /** A permutation of a dictionary with distinct keys, sorted by key, is strictly
      ascending. */
  lemma AscendingDistinctIsStrict(d: Dict<int>, p: Dict<int>)
    requires multiset(d) == multiset(p) && DistinctKeys(d) && SortedBy(p, HourRank)
    ensures forall i, j :: 0 <= i < j < |p| ==> p[i].0 < p[j].0
  {
    forall i, j | 0 <= i < j < |p| ensures p[i].0 < p[j].0 {
      assert HourRank(p[i]) <= HourRank(p[j]);
      DistinctAfterPermutation(d, p, i, j);
    }
  }

  lemma PermutationKeepsKeys<K>(d: Dict<K>, p: Dict<K>)
    requires multiset(d) == multiset(p)
    ensures forall k :: k in KeysOf(d) <==> k in KeysOf(p)
  {
    forall k ensures k in KeysOf(d) <==> k in KeysOf(p) {
      if k in KeysOf(d) {
        var i :| 0 <= i < |d| && d[i].0 == k;
        assert d[i] in multiset(p);
        var j :| 0 <= j < |p| && p[j] == d[i];
        assert KeysOf(p)[j] == k;
      }
      if k in KeysOf(p) {
        var j :| 0 <= j < |p| && p[j].0 == k;
        assert p[j] in multiset(d);
        var i :| 0 <= i < |d| && d[i] == p[j];
        assert KeysOf(d)[i] == k;
      }
    }
  }

  lemma {:induction false} PermutationKeepsTotal<K>(d: Dict<K>, p: Dict<K>)
    requires multiset(d) == multiset(p)
    ensures Total(d) == Total(p)
    decreases |d|
  {
    if d != [] {
      var last := d[|d| - 1];
      assert last in multiset(p);
      var j :| 0 <= j < |p| && p[j] == last;
      var rest := p[..j] + p[j + 1..];
      assert p == p[..j] + [p[j]] + p[j + 1..];
      assert d == d[..|d| - 1] + [last];
      assert multiset(d) == multiset(d[..|d| - 1]) + multiset{last};
      assert multiset(p) == multiset(p[..j]) + multiset{p[j]} + multiset(p[j + 1..]);
      assert multiset(rest) == multiset(p[..j]) + multiset(p[j + 1..]);
      var before, after := multiset(d[..|d| - 1]), multiset(rest);
      assert before + multiset{last} == after + multiset{last};
      assert before == (before + multiset{last}) - multiset{last};
      assert before == after;
      PermutationKeepsTotal(d[..|d| - 1], rest);
      TotalRemove(p, j);
    }
  }

  lemma {:induction false} TotalRemove<K>(p: Dict<K>, j: int)
    requires 0 <= j < |p|
    ensures Total(p) == Total(p[..j] + p[j + 1..]) + p[j].1
    decreases |p|
  {
    if j < |p| - 1 {
      var q := p[..|p| - 1];
      TotalRemove(q, j);
      assert q[..j] + q[j + 1..] == (p[..j] + p[j + 1..])[..|p| - 2];
    } else {
      assert p[..j] + p[j + 1..] == p[..|p| - 1];
    }
  }

  lemma DistinctAfterPermutation<K>(d: Dict<K>, p: Dict<K>, i: int, j: int)
    requires multiset(d) == multiset(p) && DistinctKeys(d)
    requires 0 <= i < j < |p|
    ensures p[i].0 != p[j].0
  {
    assert p[i] in multiset(d) && p[j] in multiset(d);
    var a :| 0 <= a < |d| && d[a] == p[i];
    var b :| 0 <= b < |d| && d[b] == p[j];
    if a == b {
      // the same entry twice in p would occur twice in d
      assert multiset(p)[p[i]] >= 2 by {
        assert p[i] == p[j];
        assert p == p[..i] + [p[i]] + p[i + 1..j] + [p[j]] + p[j + 1..];
      }
      CountOnce(d, a);
      assert false;
    }
  }

  /** With distinct keys an entry occurs once. */
  lemma CountOnce<K>(d: Dict<K>, a: int)
    requires DistinctKeys(d) && 0 <= a < |d|
    ensures multiset(d)[d[a]] == 1
  {
    assert d == d[..a] + [d[a]] + d[a + 1..];
    forall k | 0 <= k < |d| && k != a ensures d[k] != d[a] {
      assert d[k].0 != d[a].0;
    }
    assert d[a] !in d[..a];
    assert d[a] !in d[a + 1..];
    assert multiset(d) == multiset(d[..a]) + multiset{d[a]} + multiset(d[a + 1..]);
  }

  // ----- top products -----

  function ItemName(item: CartItem): string
  {
    item.product.name
  }

  function ItemQuantity(item: CartItem): int
  {
    item.quantity
  }

  /** Every line item of the sales, sale by sale. */
  function ItemsOf(sales: seq<Sale>): seq<CartItem>
  {
    if sales == [] then [] else ItemsOf(sales[..|sales| - 1]) + sales[|sales| - 1].items
  }

  function QuantityRank(e: (string, int)): int
  {
    -e.1
  }

  /** The quantities sold per product name, biggest first, ties in first-sold order. */
  function RankedProducts(mine: seq<Sale>): seq<(string, int)>
  {
    SortBy(SumsBy(ItemsOf(mine), ItemName, ItemQuantity), QuantityRank)
  }

  lemma SumsByStep<T, K>(xs: seq<T>, x: T, key: T -> K, val: T -> int)
    ensures SumsBy(xs + [x], key, val) == Add(SumsBy(xs, key, val), key(x), val(x))
  {
    assert (xs + [x])[..|xs|] == xs;
  }

  /** `topProducts`: the nested `forEach` fills the per-name totals, then the
      sort and the first five. */
  lemma ItemsOfStep(mine: seq<Sale>, i: int)
    requires 0 <= i < |mine|
    ensures ItemsOf(mine[..i + 1]) == ItemsOf(mine[..i]) + mine[i].items
  {
    assert mine[..i + 1][..i] == mine[..i];
  }

  lemma AppendPrefixStep<T>(a: seq<T>, b: seq<T>, k: int)
    requires 0 <= k < |b|
    ensures a + b[..k + 1] == (a + b[..k]) + [b[k]]
  {
  }

  method TopProducts(mine: seq<Sale>) returns (top: seq<(string, int)>)
    ensures top == Take(RankedProducts(mine), 5)
  {
    var productSales: Dict<string> := [];
    var i := 0;
    while i < |mine|
      invariant 0 <= i <= |mine|
      invariant productSales == SumsBy(ItemsOf(mine[..i]), ItemName, ItemQuantity)
    {
      var items := mine[i].items;
      ghost var before := ItemsOf(mine[..i]);
      var k := 0;
      assert before + items[..0] == before;
      while k < |items|
        invariant 0 <= k <= |items|
        invariant productSales == SumsBy(before + items[..k], ItemName, ItemQuantity)
      {
        SumsByStep(before + items[..k], items[k], ItemName, ItemQuantity);
        AppendPrefixStep(before, items, k);
        productSales := Add(productSales, items[k].product.name, items[k].quantity);
        k := k + 1;
      }
      assert items[..k] == items;
      ItemsOfStep(mine, i);
      i := i + 1;
    }
    assert mine[..i] == mine;
    top := Take(SortBy(productSales, QuantityRank), 5);
  }

  /** The ranked list names each product once. */
  lemma RankedDistinct(mine: seq<Sale>)
    ensures var ranked := RankedProducts(mine);
            forall i, j :: 0 <= i < j < |ranked| ==> ranked[i].0 != ranked[j].0
  {
    var d := SumsBy(ItemsOf(mine), ItemName, ItemQuantity);
    var ranked := RankedProducts(mine);
    SumsByTotal(ItemsOf(mine), ItemName, ItemQuantity);
    forall i, j | 0 <= i < j < |ranked| ensures ranked[i].0 != ranked[j].0 {
      DistinctAfterPermutation(d, ranked, i, j);
    }
  }

  /** Each ranked quantity is the total sold under its name. */
  lemma RankedQuantity(mine: seq<Sale>, name: string)
    ensures var ranked := RankedProducts(mine);
            forall i :: 0 <= i < |ranked| && ranked[i].0 == name ==>
              ranked[i].1 == Sum(Filter(ItemsOf(mine), KeyIs(ItemName, name)), ItemQuantity)
  {
    var d := SumsBy(ItemsOf(mine), ItemName, ItemQuantity);
    var ranked := RankedProducts(mine);
    SumsByTotal(ItemsOf(mine), ItemName, ItemQuantity);
    SumsByGet(ItemsOf(mine), ItemName, ItemQuantity, name);
    forall i | 0 <= i < |ranked| && ranked[i].0 == name
      ensures ranked[i].1 == Sum(Filter(ItemsOf(mine), KeyIs(ItemName, name)), ItemQuantity)
    {
      assert ranked[i] in multiset(d);
      var a :| 0 <= a < |d| && d[a] == ranked[i];
      assert IndexOfKey(d, name) == a;
    }
  }

  /** The top list: at most five names, each once, biggest quantity first, every
      shown quantity the total sold under that name, and nothing left off the list
      sold more than something on it. */
  lemma TopProductsFacts(mine: seq<Sale>, name: string)
    ensures var ranked := RankedProducts(mine);
            var top := Take(ranked, 5);
            && |top| <= 5
            && (forall i, j :: 0 <= i < j < |top| ==> top[i].1 >= top[j].1 && top[i].0 != top[j].0)
            && (forall i, j :: 0 <= i < |top| <= j < |ranked| ==> ranked[j].1 <= top[i].1)
            && (forall i :: 0 <= i < |ranked| && ranked[i].0 == name ==>
                  ranked[i].1 == Sum(Filter(ItemsOf(mine), KeyIs(ItemName, name)), ItemQuantity))
  {
    var ranked := RankedProducts(mine);
    var top := Take(ranked, 5);
    RankedDistinct(mine);
    RankedQuantity(mine, name);
    assert SortedBy(ranked, QuantityRank);
    assert forall i :: 0 <= i < |top| ==> top[i] == ranked[i];
  }

  /** Shift records carry no cashier, so `shift.cashier === user?.name` holds for
      every shift when nobody is signed in and for none otherwise. */
  function MyShifts(shifts: seq<Shift>, userName: Option<string>): (r: seq<Shift>)
    ensures userName.None? ==> r == shifts
    ensures userName.Some? ==> r == []
  {
    if userName.None? then shifts else []
  }
}
