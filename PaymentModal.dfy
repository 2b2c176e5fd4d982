/** The payment dialog of the cashier screen: a single payment or a list of split
    payments, the change and balance derived from them, and the completion step that
    records the sale, takes the sold quantities off the stock and empties the cart. */
module PaymentModal {
  import opened Base
  import opened Text
  import opened DataContext

  /** One row of the split list: `{ method, amount }`, the amount as typed. */
  datatype SplitPayment = SplitPayment(payMethod: string, amount: string)

  datatype SplitField = MethodField | AmountField

  datatype PaymentOutcome = Insufficient | Settled(sale: Sale)

  /** `parseFloat(payment.amount) || 0` */
  function SplitAmount(p: SplitPayment): int
  {
    AmountOrZero(p.amount)
  }

  /** `calculateSplitTotal`: the typed amounts added up, unreadable ones as 0. */
  function SplitTotal(splits: seq<SplitPayment>): int
  {
    Sum(splits, SplitAmount)
  }

  /** What has been paid: the split total in split mode, else the single amount. */
  function Paid(isSplit: bool, splits: seq<SplitPayment>, amountPaid: string): int
  {
    if isSplit then SplitTotal(splits) else AmountOrZero(amountPaid)
  }

  /** `calculateChange` and `calculateBalance` for a paid amount: change is what is
      paid over the total, balance what is still owed. At most one is positive and
      their difference is the overpayment. */
  function Settlement(paid: int, total: int): (r: (int, int))
    ensures r.0 >= 0 && r.1 >= 0
    ensures r.0 == 0 || r.1 == 0
    ensures r.0 - r.1 == paid - total
  {
    (Max0(paid - total), Max0(total - paid))
  }

  /** The split total of a list with one more row is the old total plus that row. */
  lemma SplitTotalAppend(splits: seq<SplitPayment>, p: SplitPayment)
    ensures SplitTotal(splits + [p]) == SplitTotal(splits) + SplitAmount(p)
  {
    assert (splits + [p])[..|splits|] == splits;
  }

  /** `xs.filter((_, i) => i !== index)` */
  function RemoveAt<T>(xs: seq<T>, index: int): (r: seq<T>)
    ensures 0 <= index < |xs| ==> r == xs[..index] + xs[index + 1..]
    ensures !(0 <= index < |xs|) ==> r == xs
  {
    if xs == [] then []
    else
      var init := xs[..|xs| - 1];
      var rest := RemoveAt(init, index);
      if index == |xs| - 1 then rest
      else
        assert 0 <= index < |init| ==> rest + [xs[|xs| - 1]] == xs[..index] + xs[index + 1..];
        rest + [xs[|xs| - 1]]
  }

  /** The invoice reference: `INV-` and the last six digits of the clock reading. */
  function InvoiceRef(now: nat): (r: string)
    ensures 4 <= |r| <= 10 && r[..4] == "INV-"
  {
    var digits := NatToString(now);
    "INV-" + if |digits| <= 6 then digits else digits[|digits| - 6..]
  }

  function ProductIs(id: int): Product -> bool
  {
    (p: Product) => p.id == id
  }

  /** The stock after the completion loop: for each cart line, in order, whose product
      is in the product list the dialog was rendered with, `adjustProductStock(id, -quantity)`. */
  function StockAfterSale(ps: seq<Product>, snapshot: seq<Product>, cart: seq<CartItem>): seq<Product>
  {
    if cart == [] then ps
    else
      var rest := StockAfterSale(ps, snapshot, cart[..|cart| - 1]);
      var item := cart[|cart| - 1];
      if FirstIndex(snapshot, ProductIs(item.product.id)) >= 0 then AdjustStock(rest, item.product.id, -item.quantity)
      else rest
  }

  /** The log lines the completion loop adds, one per adjusted line. */
  function SaleLogs(snapshot: seq<Product>, cart: seq<CartItem>, now: int, timestamp: string): seq<LogEntry>
  {
    if cart == [] then []
    else
      var rest := SaleLogs(snapshot, cart[..|cart| - 1], now, timestamp);
      var item := cart[|cart| - 1];
      if FirstIndex(snapshot, ProductIs(item.product.id)) >= 0 then
        rest + [LogEntry(now, StockAction(-item.quantity), None, Some("POS Sale"), timestamp, None)]
      else rest
  }

  /** A product as a completed sale leaves it: with a cart line for it and listed
      in `snapshot`, its stock drops by that line's quantity, not below zero. */
  function SoldProduct(p: Product, snapshot: seq<Product>, cart: seq<CartItem>): Product
  {
    var k := FirstIndex(cart, ItemIs(p.id));
    if k >= 0 && FirstIndex(snapshot, ProductIs(p.id)) >= 0 then p.(stock := Max0(p.stock - cart[k].quantity))
    else p
  }

  /** What a completed sale does to one product: with one line per product in the
      cart, the product's stock drops by that line's quantity, not below zero, when it
      was listed; every other product keeps its stock. */
  lemma {:induction false} SaleStockEffect(ps: seq<Product>, snapshot: seq<Product>, cart: seq<CartItem>, i: int)
    requires DistinctItems(cart) && 0 <= i < |ps|
    ensures |StockAfterSale(ps, snapshot, cart)| == |ps|
    ensures StockAfterSale(ps, snapshot, cart)[i] == SoldProduct(ps[i], snapshot, cart)
  {
    StockAfterSaleLength(ps, snapshot, cart);
    if cart != [] {
      var init, last := cart[..|cart| - 1], cart[|cart| - 1];
      var id := ps[i].id;
      assert DistinctItems(init);
      SaleStockEffect(ps, snapshot, init, i);
      var rest := StockAfterSale(ps, snapshot, init);
      assert rest[i] == SoldProduct(ps[i], snapshot, init);
      FirstIndexAppend(init, [last], ItemIs(id));
      assert cart == init + [last];
      if last.product.id == id {
        LastLineOnly(cart, id);
        assert FirstIndex(cart, ItemIs(id)) == |init|;
        assert rest[i] == ps[i];
      } else {
        assert FirstIndex([last], ItemIs(id)) == -1;
        assert FirstIndex(cart, ItemIs(id)) == FirstIndex(init, ItemIs(id));
      }
    }
  }

  /** With one line per product, the product of the last line has no earlier line. */
  lemma LastLineOnly(cart: seq<CartItem>, id: int)
    requires DistinctItems(cart) && cart != [] && cart[|cart| - 1].product.id == id
    ensures FirstIndex(cart[..|cart| - 1], ItemIs(id)) == -1
  {
    var init := cart[..|cart| - 1];
    forall j | 0 <= j < |init| ensures !ItemIs(id)(init[j]) {
      assert cart[j] == init[j];
    }
  }

  lemma {:induction false} StockAfterSaleLength(ps: seq<Product>, snapshot: seq<Product>, cart: seq<CartItem>)
    ensures |StockAfterSale(ps, snapshot, cart)| == |ps|
  {
    if cart != [] {
      StockAfterSaleLength(ps, snapshot, cart[..|cart| - 1]);
    }
  }

  /** A sale from this dialog records the payment method's id ('cash', 'mpesa', ...)
      or 'Split Payment', never 'Cash' or 'M-Pesa', which the seeded sales use and the
      cashier's daily cash and M-Pesa figures select. */
  lemma RecordedMethodIsId(paymentMethod: string, isSplit: bool)
    requires paymentMethod in ["cash", "mpesa", "card", "bank"]
    ensures var m := if isSplit then "Split Payment" else paymentMethod;
            m != "Cash" && m != "M-Pesa"
  {
  }

  /** The completion loop on its own: each cart line, in order, whose product is in
      `snapshot` takes its quantity off the stock through `adjustProductStock`. */
  method DeductSoldStock(store: DataStore, snapshot: seq<Product>, cart: seq<CartItem>, now: int, timestamp: string)
    requires store.Valid()
    modifies store`products, store`activityLogs
    ensures store.Valid()
    ensures store.products == StockAfterSale(old(store.products), snapshot, cart)
    ensures store.activityLogs == old(store.activityLogs) + SaleLogs(snapshot, cart, now, timestamp)
  {
    var i := 0;
    while i < |cart|
      invariant 0 <= i <= |cart|
      invariant store.Valid()
      invariant store.products == StockAfterSale(old(store.products), snapshot, cart[..i])
      invariant store.activityLogs == old(store.activityLogs) + SaleLogs(snapshot, cart[..i], now, timestamp)
    {
      var item := cart[i];
      assert cart[..i + 1][..i] == cart[..i];
      if FirstIndex(snapshot, ProductIs(item.product.id)) >= 0 {
        store.AdjustProductStock(item.product.id, -item.quantity, "POS Sale", now, timestamp);
      }
      i := i + 1;
    }
    assert cart[..|cart|] == cart;
  }

  class PaymentModal {
    var paymentMethod: string
    var amountPaid: string
    var splitPayments: seq<SplitPayment>
    var isSplitPayment: bool
    var loading: bool

    constructor ()
      ensures paymentMethod == "cash" && amountPaid == "" && splitPayments == []
      ensures !isSplitPayment && !loading
    {
      paymentMethod, amountPaid, splitPayments := "cash", "", [];
      isSplitPayment, loading := false, false;
    }

    function CalculateSplitTotal(): int
      reads this
    {
      SplitTotal(splitPayments)
    }

    function CalculateChange(total: int): int
      reads this
    {
      Settlement(Paid(isSplitPayment, splitPayments, amountPaid), total).0
    }

    function CalculateBalance(total: int): int
      reads this
    {
      Settlement(Paid(isSplitPayment, splitPayments, amountPaid), total).1
    }

    /** The Complete button is disabled while something is owed or a payment runs. */
    function CompleteDisabled(total: int): (r: bool)
      reads this
      ensures !r <==> !loading && Paid(isSplitPayment, splitPayments, amountPaid) >= total
    {
      CalculateBalance(total) > 0 || loading
    }

    method SelectMethod(id: string)
      modifies this`paymentMethod
      ensures paymentMethod == id
    {
      paymentMethod := id;
    }

    method SetSplitMode(split: bool)
      modifies this`isSplitPayment
      ensures isSplitPayment == split
    {
      isSplitPayment := split;
    }

    method EnterAmount(s: string)
      modifies this`amountPaid
      ensures amountPaid == s
    {
      amountPaid := s;
    }

    /** `handleAddSplitPayment`: one more row, cash with no amount yet. */
    method AddSplitPayment()
      modifies this`splitPayments
      ensures splitPayments == old(splitPayments) + [SplitPayment("cash", "")]
      ensures CalculateSplitTotal() == old(CalculateSplitTotal())
    {
      SplitTotalAppend(splitPayments, SplitPayment("cash", ""));
      assert AmountOrZero("") == 0;
      splitPayments := splitPayments + [SplitPayment("cash", "")];
    }

    /** `handleSplitPaymentChange`: the row at `index` gets the new method or amount. */
    method ChangeSplitPayment(index: int, field: SplitField, value: string)
      requires 0 <= index < |splitPayments|
      modifies this`splitPayments
      ensures |splitPayments| == |old(splitPayments)|
      ensures splitPayments == old(splitPayments)[index :=
        match field
        case MethodField => old(splitPayments)[index].(payMethod := value)
        case AmountField => old(splitPayments)[index].(amount := value)]
    {
      var row := splitPayments[index];
      var updated := match field
        case MethodField => row.(payMethod := value)
        case AmountField => row.(amount := value);
      splitPayments := splitPayments[index := updated];
    }

    /** `handleRemoveSplitPayment`: exactly the row at `index` goes. */
    method RemoveSplitPayment(index: int)
      modifies this`splitPayments
      ensures splitPayments == RemoveAt(old(splitPayments), index)
      ensures 0 <= index < |old(splitPayments)| ==>
        |splitPayments| == |old(splitPayments)| - 1
        && forall j :: 0 <= j < |splitPayments| ==>
             splitPayments[j] == old(splitPayments)[if j < index then j else j + 1]
    {
      splitPayments := RemoveAt(splitPayments, index);
    }

    /** The sufficient-payment path of `handlePayment`: record the sale, take
        its lines off the stock, empty the cart and reset the form. */
    method CompleteSale(store: DataStore, sale: Sale, now: nat, timestamp: string)
      requires store.Valid()
      modifies this, store`sales, store`products, store`activityLogs, store`cart
      ensures store.Valid()
      ensures store.sales == old(store.sales) + [sale.(id := now)]
      ensures store.products == StockAfterSale(old(store.products), old(store.products), sale.items)
      ensures store.activityLogs == old(store.activityLogs)
                + [LogEntry(now, SaleProcessed, Some(sale.cashier), None, timestamp, None)]
                + SaleLogs(old(store.products), sale.items, now, timestamp)
      ensures store.cart == []
      ensures paymentMethod == "cash" && amountPaid == "" && splitPayments == [] && !isSplitPayment
      ensures !loading
    {
      loading := true;
      store.AddSale(sale, now, timestamp);
      DeductSoldStock(store, store.products, sale.items, now, timestamp);
      store.ClearCart();
      amountPaid, splitPayments, isSplitPayment, paymentMethod := "", [], false, "cash";
      loading := false;
    }

    /** `handlePayment`. With a balance owed nothing happens. Otherwise one sale is
        recorded with the total and the change, each cart line whose product exists
        takes its quantity off the stock, the cart is emptied and the form goes back to
        a single cash payment. `cart` and `total` are what the cashier screen passes in. */
    method HandlePayment(store: DataStore, total: int, cart: seq<CartItem>, now: nat, date: string,
                         time: string, timestamp: string) returns (outcome: PaymentOutcome)
      requires store.Valid()
      modifies this, store`sales, store`products, store`activityLogs, store`cart
      ensures store.Valid()
      ensures old(CalculateBalance(total)) > 0 ==>
        outcome == Insufficient
        && store.sales == old(store.sales) && store.products == old(store.products)
        && store.cart == old(store.cart) && store.activityLogs == old(store.activityLogs)
        && paymentMethod == old(paymentMethod) && amountPaid == old(amountPaid)
        && splitPayments == old(splitPayments) && isSplitPayment == old(isSplitPayment)
        && loading == old(loading)
      ensures old(CalculateBalance(total)) <= 0 ==>
        && outcome == Settled(Sale(0, InvoiceRef(now), total,
                                     if old(isSplitPayment) then "Split Payment" else old(paymentMethod),
                                     "John Doe", date, time, cart, Some(old(CalculateChange(total)))))
        && store.sales == old(store.sales) + [outcome.sale.(id := now)]
        && store.products == StockAfterSale(old(store.products), old(store.products), cart)
        && store.activityLogs == old(store.activityLogs)
             + [LogEntry(now, SaleProcessed, Some("John Doe"), None, timestamp, None)]
             + SaleLogs(old(store.products), cart, now, timestamp)
        && store.cart == []
        && paymentMethod == "cash" && amountPaid == "" && splitPayments == [] && !isSplitPayment
        && !loading
    {
      if CalculateBalance(total) > 0 {
        return Insufficient;
      }
      var sale := Sale(0, InvoiceRef(now), total, if isSplitPayment then "Split Payment" else paymentMethod,
                       "John Doe", date, time, cart, Some(CalculateChange(total)));
      CompleteSale(store, sale, now, timestamp);
      outcome := Settled(sale);
    }
  }
}
