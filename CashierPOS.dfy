/** The cashier's point-of-sale screen: the cart total, today's figures, the combo
    cost and profit shown on a product, the low-stock alerts and the guards in front
    of adding to the cart, checking out and asking for credit. */
module CashierPOS {
  import opened Base
  import opened Text
  import opened DataContext
  import Cart

  /** `item.price * item.quantity`; the price is the one the line was added with. */
  function LineTotal(item: CartItem): int
  {
    item.product.price * item.quantity
  }

  /** `calculateTotal` */
  function CartTotal(cart: seq<CartItem>): int
  {
    Sum(cart, LineTotal)
  }

  /** Adding `quantity` of a product raises the total by that many units at the price
      of the product's line: the existing line's price when there is one, else the
      product's own. */
  lemma AddToCartTotal(cart: seq<CartItem>, product: Product, quantity: int)
    requires DistinctItems(cart)
    ensures var i := FirstIndex(cart, ItemIs(product.id));
            CartTotal(AddToCartItems(cart, product, quantity))
            == CartTotal(cart) + (if i >= 0 then cart[i].product.price else product.price) * quantity
  {
    var i := FirstIndex(cart, ItemIs(product.id));
    var r := AddToCartItems(cart, product, quantity);
    if i >= 0 {
      var line := cart[i].(quantity := cart[i].quantity + quantity);
      assert r == cart[i := line];
      SumUpdate(cart, i, line, LineTotal);
      assert LineTotal(line) == LineTotal(cart[i]) + cart[i].product.price * quantity;
    } else {
      SumAppend(cart, [CartItem(product, quantity)], LineTotal);
    }
  }

  /** Products that raise a low-stock alert: some left, but five or fewer. */
  predicate LowStock(p: Product)
  {
    p.stock <= 5 && p.stock > 0
  }

  function LowStockProducts(ps: seq<Product>): (r: seq<Product>)
    ensures forall p :: p in r <==> p in ps && 0 < p.stock <= 5
    ensures |r| <= |ps|
  {
    FilterMembers(ps, LowStock);
    Filter(ps, LowStock)
  }

  function LowStockMessage(p: Product): string
    requires p.stock > 0
  {
    "Low stock alert: " + p.name + " (" + NatToString(p.stock) + " remaining)"
  }

  function LowStockAlerts(ps: seq<Product>, now: int): (r: seq<Notification>)
    requires forall p :: p in ps ==> p.stock > 0
    ensures |r| == |ps|
    ensures forall k :: 0 <= k < |r| ==> r[k] == Notification(now, "warning", LowStockMessage(ps[k]), false)
  {
    seq(|ps|, k requires 0 <= k < |ps| => Notification(now, "warning", LowStockMessage(ps[k]), false))
  }

  /** The figures of the day `today` (`YYYY-MM-DD`). */
  datatype DayStats = DayStats(totalSales: int, transactionCount: nat, cashSales: int, mpesaSales: int,
                               averageTransaction: real)

  function DateIs(day: string): Sale -> bool
  {
    (s: Sale) => s.date == day
  }

  function MethodIs(m: string): Sale -> bool
  {
    (s: Sale) => s.paymentMethod == m
  }

  function SaleTotal(s: Sale): int
  {
    s.total
  }

  /** `getTodayStats`: the day's sales counted and summed; cash and M-Pesa figures
      select the methods written exactly 'Cash' and 'M-Pesa'; the average is the
      total over the count, or 0 without sales. */
  function TodayStats(sales: seq<Sale>, today: string): (r: DayStats)
    ensures r.transactionCount == Count(sales, DateIs(today))
    ensures r.totalSales == Sum(Filter(sales, DateIs(today)), SaleTotal)
    ensures r.cashSales == Sum(Filter(Filter(sales, DateIs(today)), MethodIs("Cash")), SaleTotal)
    ensures r.mpesaSales == Sum(Filter(Filter(sales, DateIs(today)), MethodIs("M-Pesa")), SaleTotal)
    ensures r.transactionCount > 0 ==> r.averageTransaction * (r.transactionCount as real) == r.totalSales as real
    ensures r.transactionCount == 0 ==> r.averageTransaction == 0.0 && r.totalSales == 0
  {
    var day := Filter(sales, DateIs(today));
    var total := Sum(day, SaleTotal);
    if |day| == 0 then DayStats(total, 0, 0, 0, 0.0)
    else DayStats(total, |day|, Sum(Filter(day, MethodIs("Cash")), SaleTotal),
                  Sum(Filter(day, MethodIs("M-Pesa")), SaleTotal), (total as real) / (|day| as real))
  }

  /** A sale of another day changes none of today's figures. */
  lemma OtherDayIgnored(sales: seq<Sale>, s: Sale, today: string)
    requires s.date != today
    ensures TodayStats(sales + [s], today) == TodayStats(sales, today)
  {
    assert (sales + [s])[..|sales|] == sales;
  }

  /** Neither cash nor M-Pesa: the sales the day's two method figures leave out. */
  function OtherMethod(s: Sale): bool
  {
    s.paymentMethod != "Cash" && s.paymentMethod != "M-Pesa"
  }

  /** Every sale of a list falls under exactly one of cash, M-Pesa and the rest. */
  lemma {:induction false} ThreeWaySplit(xs: seq<Sale>)
    ensures Sum(xs, SaleTotal) == Sum(Filter(xs, MethodIs("Cash")), SaleTotal)
      + Sum(Filter(xs, MethodIs("M-Pesa")), SaleTotal) + Sum(Filter(xs, OtherMethod), SaleTotal)
  {
    if xs != [] {
      var init, last := xs[..|xs| - 1], xs[|xs| - 1];
      ThreeWaySplit(init);
      SumAppend(Filter(init, MethodIs("Cash")), [last], SaleTotal);
      SumAppend(Filter(init, MethodIs("M-Pesa")), [last], SaleTotal);
      SumAppend(Filter(init, OtherMethod), [last], SaleTotal);
    }
  }

  lemma {:induction false} SumNonNegative(xs: seq<Sale>)
    requires forall s :: s in xs ==> s.total >= 0
    ensures Sum(xs, SaleTotal) >= 0
  {
    if xs != [] {
      SumNonNegative(xs[..|xs| - 1]);
    }
  }

  /** The day's total is its cash figure, its M-Pesa figure and the sales paid any
      other way; with no negative totals, cash and M-Pesa never exceed the total. */
  lemma CashAndMpesaWithinTotal(sales: seq<Sale>, today: string)
    ensures var r := TodayStats(sales, today);
            var day := Filter(sales, DateIs(today));
            r.totalSales == r.cashSales + r.mpesaSales + Sum(Filter(day, OtherMethod), SaleTotal)
    ensures (forall s :: s in sales ==> s.total >= 0) ==>
            TodayStats(sales, today).cashSales + TodayStats(sales, today).mpesaSales
            <= TodayStats(sales, today).totalSales
  {
    var day := Filter(sales, DateIs(today));
    ThreeWaySplit(day);
    FilterMembers(sales, DateIs(today));
    FilterMembers(day, OtherMethod);
    if forall s :: s in sales ==> s.total >= 0 {
      SumNonNegative(Filter(day, OtherMethod));
    }
  }

  /** The cost a combo's components add up to and the profit at the combo's price;
      the percentage margin is floating point and not part of this model. */
  datatype ComboFigures = ComboFigures(cost: int, profit: int)

  function ProductIdIs(id: int): Product -> bool
  {
    (p: Product) => p.id == id
  }

  function ComboFor(productId: int): Combo -> bool
  {
    (c: Combo) => c.productId == productId
  }

  /** A component's cost: the base product's cost times `comp.qty`, or nothing when
      the base product is not listed. */
  function ComponentCost(products: seq<Product>): Component -> int
  {
    (comp: Component) =>
      match Find(products, ProductIdIs(comp.productId))
      case Some(p) => p.cost * comp.qty
      case None => 0
  }

  /** `getComboProfit`: null unless a combo is built on this product. */
  function ComboProfit(combos: seq<Combo>, products: seq<Product>, product: Product): (r: Option<ComboFigures>)
    ensures r.None? <==> forall c :: c in combos ==> c.productId != product.id
    ensures r.Some? ==>
      var c := combos[FirstIndex(combos, ComboFor(product.id))];
      r.value.cost == Sum(c.components, ComponentCost(products))
      && r.value.profit + r.value.cost == product.price
  {
    match Find(combos, ComboFor(product.id))
    case None => None
    case Some(c) =>
      var cost := Sum(c.components, ComponentCost(products));
      Some(ComboFigures(cost, product.price - cost))
  }

  /** Components whose base product is missing add nothing to a combo's cost. */
  lemma MissingComponentFree(products: seq<Product>, comps: seq<Component>, comp: Component)
    requires forall p :: p in products ==> p.id != comp.productId
    ensures Sum(comps + [comp], ComponentCost(products)) == Sum(comps, ComponentCost(products))
  {
    assert (comps + [comp])[..|comps|] == comps;
    assert Find(products, ProductIdIs(comp.productId)).None?;
  }

  /** The screen's own state. */
  class CashierScreen {
    var showPaymentModal: bool
    var showReceiptModal: bool
    var showCreditModal: bool
    var currentSale: Option<Sale>
    var customerName: string
    var showStats: bool

    constructor ()
      ensures !showPaymentModal && !showReceiptModal && !showCreditModal
      ensures currentSale.None? && customerName == "" && !showStats
    {
      showPaymentModal, showReceiptModal, showCreditModal := false, false, false;
      currentSale, customerName, showStats := None, "", false;
    }

    /** The low-stock effect: one warning per product with 0 < stock <= 5, in
        product order. */
    method RaiseLowStockAlerts(store: DataStore, now: int)
      modifies store`notifications
      ensures store.notifications == old(store.notifications) + LowStockAlerts(LowStockProducts(store.products), now)
    {
      var low := LowStockProducts(store.products);
      ghost var before := store.notifications;
      var k := 0;
      while k < |low|
        invariant 0 <= k <= |low|
        invariant store.notifications == before + LowStockAlerts(low[..k], now)
      {
        assert low[k] in low;
        store.AddNotification("warning", LowStockMessage(low[k]), now);
        assert LowStockAlerts(low[..k + 1], now) == LowStockAlerts(low[..k], now) + [LowStockAlerts(low[..k + 1], now)[k]];
        k := k + 1;
      }
      assert low[..k] == low;
    }

    /** `handleAddToCart`: an out-of-stock product only raises a warning; any other
        goes into the cart once. */
    method HandleAddToCart(store: DataStore, product: Product, now: int)
      requires store.Valid()
      modifies store`cart, store`notifications
      ensures store.Valid()
      ensures product.stock <= 0 ==>
        store.cart == old(store.cart)
        && store.notifications == old(store.notifications)
             + [Notification(now, "warning", product.name + " is out of stock", false)]
      ensures product.stock > 0 ==>
        store.cart == AddToCartItems(old(store.cart), product, 1)
        && store.notifications == old(store.notifications)
    {
      if product.stock <= 0 {
        store.AddNotification("warning", product.name + " is out of stock", now);
        return;
      }
      store.AddToCart(product, 1);
    }

    /** `handleCheckout`: payment opens only when the cart panel's checkout button is
        enabled, i.e. for a non-empty cart. */
    method HandleCheckout(store: DataStore)
      modifies this`showPaymentModal
      ensures showPaymentModal == (old(showPaymentModal) || !Cart.CheckoutDisabled(store.cart))
    {
      if |store.cart| == 0 {
        return;
      }
      showPaymentModal := true;
    }

    /** `handlePaymentComplete`: keep the sale for the receipt, swap the payment
        dialog for the receipt and announce the sale. `amountText` is the total as
        `toLocaleString` prints it. */
    method HandlePaymentComplete(store: DataStore, sale: Sale, amountText: string, now: int)
      modifies this`currentSale, this`showPaymentModal, this`showReceiptModal, store`notifications
      ensures currentSale == Some(sale) && !showPaymentModal && showReceiptModal
      ensures store.notifications == old(store.notifications)
        + [Notification(now, "success", "Sale completed - " + sale.ref + " (KES " + amountText + ")", false)]
    {
      currentSale := Some(sale);
      showPaymentModal := false;
      showReceiptModal := true;
      store.AddNotification("success", "Sale completed - " + sale.ref + " (KES " + amountText + ")", now);
    }

    /** `handleCreditRequest`: the credit dialog opens only for a customer name that
        is not blank. */
    method HandleCreditRequest()
      modifies this`showCreditModal
      ensures showCreditModal == (old(showCreditModal) || Trim(customerName) != "")
    {
      TrimEmptyIffBlank(customerName);
      if IsBlank(customerName) {
        return;
      }
      showCreditModal := true;
    }
  }
}
