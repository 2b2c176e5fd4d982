/** The client-side store of the point-of-sale app: products, combos, sales, cart,
    notifications, shifts, expenses, the cashier's profile, the activity log and the
    locally minted verification codes. Every operation replaces one or two of these
    with a map, filter or spread of the old value; the clock (`Date.now()`, ISO
    timestamps) and `Math.random()` are passed in. */
module DataContext {
  import opened Base
  import opened Text

  // ----- entities -----

  datatype Product = Product(
    id: int, name: string, price: int, stock: int, weight: real, cost: int, category: string)

  datatype Component = Component(productId: int, qty: int)

  /** A combo product described by the base products it is made of. */
  datatype Combo = Combo(id: int, name: string, productId: int, components: seq<Component>)

  /** `{ ...product, quantity }` */
  datatype CartItem = CartItem(product: Product, quantity: int)

  datatype Sale = Sale(
    id: int, ref: string, total: int, paymentMethod: string, cashier: string, date: string, time: string,
    items: seq<CartItem>, change: Option<int>)

  datatype Notification = Notification(id: int, kind: string, message: string, read: bool)

  datatype ShiftStatus = Active | Completed

  datatype Closing = Closing(endTime: string, closingCash: Option<int>, closingMpesa: Option<int>)

  /** A shift; the opening and closing figures come from parseFloat, so None stands for NaN. */
  datatype Shift = Shift(id: int, startTime: string, openingFloat: Option<int>, status: ShiftStatus,
                         closing: Option<Closing>)

  /** The fields an expense form supplies. */
  datatype ExpenseFields = ExpenseFields(category: string, date: string, amount: int, mode: string,
                                         description: string)

  datatype Expense = Expense(id: int, fields: ExpenseFields, timestamp: string)

  /** A locally minted code: `{ id, code, cashier, createdAt, expiresAt, used }` */
  datatype CodeRecord = CodeRecord(id: int, code: string, cashier: string, createdAt: int,
                                   expiresAt: int, used: bool)

  datatype Action =
    | Seeded(text: string)
    | SaleProcessed
    | StockAdded(units: nat)
    | StockRemoved(units: nat)
    | StockSet(newStock: int)
    | CodeGenerated
    | CodeRevoked
    | CodeUsed
    | ShiftStarted(openingFloat: Option<int>)
    | ShiftEnded(cash: Option<int>, mpesa: Option<int>)
    | ExpenseRecorded(category: string, amount: int)
    | ExpenseDeleted
    | ExpenseUpdated(category: string, amount: int)

  /** An activity-log entry; sales name a `cashier`, everything else a `user`. */
  datatype LogEntry = LogEntry(id: int, action: Action, cashier: Option<string>, user: Option<string>,
                               timestamp: string, amount: Option<int>)

  function Max0(x: int): (r: int)
    ensures r >= 0 && r >= x && (r == x || r == 0)
  {
    if x > 0 then x else 0
  }

  // ----- products and stock -----

  /** The three ways the store changes a stock figure. */
  datatype StockChange =
    | AddClamped(delta: int)     // adjustProductStock: Math.max(0, stock + delta)
    | SetClamped(newStock: int)  // setProductStock: Math.max(0, newStock)
    | Subtract(quantity: int)    // updateProductStock: stock - quantity

  function NewStock(change: StockChange, stock: int): int
  {
    match change
    case AddClamped(delta) => Max0(stock + delta)
    case SetClamped(n) => Max0(n)
    case Subtract(q) => stock - q
  }

  /** Every product with id `productId` gets its new stock; the rest are untouched. */
  function MapStock(ps: seq<Product>, productId: int, change: StockChange): (r: seq<Product>)
    ensures |r| == |ps|
    ensures forall i :: 0 <= i < |ps| ==>
      r[i] == if ps[i].id == productId then ps[i].(stock := NewStock(change, ps[i].stock)) else ps[i]
  {
    seq(|ps|, i requires 0 <= i < |ps| =>
      if ps[i].id == productId then ps[i].(stock := NewStock(change, ps[i].stock)) else ps[i])
  }

  /** `adjustProductStock`: `Math.max(0, stock + delta)` on the matching products. */
  function AdjustStock(ps: seq<Product>, productId: int, delta: int): seq<Product>
  {
    MapStock(ps, productId, AddClamped(delta))
  }

  predicate StockNonNegative(ps: seq<Product>)
  {
    forall i :: 0 <= i < |ps| ==> ps[i].stock >= 0
  }

  /** Adjusting and setting never leave a negative stock behind; updateProductStock
      does when the quantity exceeds the stock. */
  lemma ClampedStockNonNegative(ps: seq<Product>, productId: int, delta: int, newStock: int)
    requires StockNonNegative(ps)
    ensures StockNonNegative(AdjustStock(ps, productId, delta))
    ensures StockNonNegative(MapStock(ps, productId, SetClamped(newStock)))
    ensures forall i :: 0 <= i < |ps| && ps[i].id == productId ==>
      MapStock(ps, productId, Subtract(ps[i].stock + 1))[i].stock < 0
  {
  }

  /** On non-negative stock: two additions make one, adding zero changes nothing, and
      removing at least the whole stock stops at zero. */
  lemma AdjustStockCompose(ps: seq<Product>, productId: int, a: int, b: int)
    requires StockNonNegative(ps) && a >= 0 && b >= 0
    ensures AdjustStock(AdjustStock(ps, productId, a), productId, b) == AdjustStock(ps, productId, a + b)
    ensures AdjustStock(ps, productId, 0) == ps
    ensures forall i :: 0 <= i < |ps| && ps[i].id == productId && ps[i].stock <= a ==>
      AdjustStock(ps, productId, -a)[i].stock == 0
  {
    var l, r := AdjustStock(AdjustStock(ps, productId, a), productId, b), AdjustStock(ps, productId, a + b);
    assert forall i :: 0 <= i < |ps| ==> l[i] == r[i];
    assert forall i :: 0 <= i < |ps| ==> AdjustStock(ps, productId, 0)[i] == ps[i];
  }

  // ----- verification codes -----

  /** Six characters from `ABCDEFGHIJKLMNOPQRSTUVWXYZ0123456789`. */
  predicate IsLocalCode(code: string)
  {
    |code| == 6 && forall i :: 0 <= i < |code| ==> IsUpper(code[i]) || IsDigit(code[i])
  }

  datatype LocalVerdict = Accepted | NotFound | AlreadyUsed | Expired

  function CodeIs(code: string): CodeRecord -> bool
  {
    (c: CodeRecord) => c.code == code
  }

  function IdIsNot(id: int): CodeRecord -> bool
  {
    (c: CodeRecord) => c.id != id
  }

  /** The record `generateVerificationCode` builds (TTL in minutes). */
  function NewCodeRecord(code: string, cashier: string, now: int, ttlMinutes: int): CodeRecord
  {
    CodeRecord(now, code, cashier, now, now + ttlMinutes * 60 * 1000, false)
  }

  /** `verifyLocalCode`'s answer: the FIRST record with the code decides, and the
      checks come in the order not_found, used, expired. */
  function LocalVerify(codes: seq<CodeRecord>, code: string, now: int): (v: LocalVerdict)
    ensures v == NotFound <==> forall j :: 0 <= j < |codes| ==> codes[j].code != code
    ensures v == AlreadyUsed <==> exists j :: 0 <= j < |codes| && codes[j].code == code && codes[j].used
                                      && forall k :: 0 <= k < j ==> codes[k].code != code
    ensures v == Expired ==> now > codes[FirstIndex(codes, CodeIs(code))].expiresAt
    ensures v == Accepted <==> exists j :: 0 <= j < |codes| && codes[j].code == code && !codes[j].used
                                       && now <= codes[j].expiresAt
                                       && forall k :: 0 <= k < j ==> codes[k].code != code
  {
    var i := FirstIndex(codes, CodeIs(code));
    if i < 0 then NotFound
    else if codes[i].used then AlreadyUsed
    else if now > codes[i].expiresAt then Expired
    else Accepted
  }

  /** Every record with the code is marked used. */
  function MarkUsed(codes: seq<CodeRecord>, code: string): (r: seq<CodeRecord>)
    ensures |r| == |codes|
    ensures forall j :: 0 <= j < |codes| ==>
      r[j] == if codes[j].code == code then codes[j].(used := true) else codes[j]
  {
    seq(|codes|, j requires 0 <= j < |codes| => if codes[j].code == code then codes[j].(used := true) else codes[j])
  }

  /** A code is single-use: once it has verified, verifying it again says 'used',
      at any time. */
  lemma VerifyTwice(codes: seq<CodeRecord>, code: string, now: int, later: int)
    requires LocalVerify(codes, code, now) == Accepted
    ensures LocalVerify(MarkUsed(codes, code), code, later) == AlreadyUsed
  {
    var r := MarkUsed(codes, code);
    var i := FirstIndex(codes, CodeIs(code));
    assert r[i].code == code && r[i].used;
    assert forall k :: 0 <= k < i ==> r[k].code != code;
  }

  /** A freshly generated code verifies from its creation up to and including its
      expiry instant, even when an older record carries the same code. */
  lemma GenerateThenVerify(codes: seq<CodeRecord>, code: string, cashier: string, now: int,
                           ttlMinutes: nat, t: int)
    requires now <= t <= now + ttlMinutes * 60 * 1000
    ensures LocalVerify([NewCodeRecord(code, cashier, now, ttlMinutes)] + codes, code, t) == Accepted
  {
    var all := [NewCodeRecord(code, cashier, now, ttlMinutes)] + codes;
    assert all[0].code == code;
  }

  /** `revokeVerificationCode`: the records with that id go, the rest stay in order. */
  lemma RevokeFacts(codes: seq<CodeRecord>, id: int)
    ensures forall c :: c in Filter(codes, IdIsNot(id)) <==> c in codes && c.id != id
    ensures |Filter(codes, IdIsNot(id))| <= |codes|
  {
    FilterMembers(codes, IdIsNot(id));
  }

  // ----- cart -----

  function ItemIs(productId: int): CartItem -> bool
  {
    (item: CartItem) => item.product.id == productId
  }

  function ItemIsNot(productId: int): CartItem -> bool
  {
    (item: CartItem) => item.product.id != productId
  }

  function InCart(item: CartItem): bool
  {
    item.quantity > 0
  }

  /** `addToCart`: raise the quantity of the product's line, or append a new line. */
  function AddToCartItems(cart: seq<CartItem>, product: Product, quantity: int): (r: seq<CartItem>)
    ensures FirstIndex(cart, ItemIs(product.id)) < 0 ==> r == cart + [CartItem(product, quantity)]
    ensures FirstIndex(cart, ItemIs(product.id)) >= 0 ==>
      |r| == |cart| && forall j :: 0 <= j < |cart| ==>
        r[j] == if cart[j].product.id == product.id then cart[j].(quantity := cart[j].quantity + quantity) else cart[j]
  {
    if FirstIndex(cart, ItemIs(product.id)) >= 0 then
      seq(|cart|, j requires 0 <= j < |cart| =>
        if cart[j].product.id == product.id then cart[j].(quantity := cart[j].quantity + quantity) else cart[j])
    else cart + [CartItem(product, quantity)]
  }

  /** `updateCartItem`: clamp the line's quantity at 0, then drop every empty line. */
  function UpdateCartItems(cart: seq<CartItem>, productId: int, quantity: int): seq<CartItem>
  {
    var clamped := seq(|cart|, j requires 0 <= j < |cart| =>
      if cart[j].product.id == productId then cart[j].(quantity := Max0(quantity)) else cart[j]);
    Filter(clamped, InCart)
  }

  /** `removeFromCart` */
  function RemoveFromCartItems(cart: seq<CartItem>, productId: int): seq<CartItem>
  {
    Filter(cart, ItemIsNot(productId))
  }

  predicate DistinctItems(cart: seq<CartItem>)
  {
    forall i, j :: 0 <= i < j < |cart| ==> cart[i].product.id != cart[j].product.id
  }

  /** Adding never duplicates a line: the cart keeps one line per product. */
  lemma AddToCartDistinct(cart: seq<CartItem>, product: Product, quantity: int)
    requires DistinctItems(cart)
    ensures DistinctItems(AddToCartItems(cart, product, quantity))
    ensures exists j :: 0 <= j < |AddToCartItems(cart, product, quantity)|
                        && AddToCartItems(cart, product, quantity)[j].product.id == product.id
  {
    var r := AddToCartItems(cart, product, quantity);
    var i := FirstIndex(cart, ItemIs(product.id));
    if i >= 0 {
      assert r[i].product.id == product.id;
    } else {
      assert r[|cart|].product.id == product.id;
    }
  }

  /** A filter keeps distinct ids distinct. */
  lemma {:induction false} FilterDistinct(cart: seq<CartItem>, p: CartItem -> bool)
    requires DistinctItems(cart)
    ensures DistinctItems(Filter(cart, p))
  {
    if cart != [] {
      var init, last := cart[..|cart| - 1], cart[|cart| - 1];
      FilterDistinct(init, p);
      FilterMembers(init, p);
      if p(last) {
        var f := Filter(init, p);
        forall i | 0 <= i < |f| ensures f[i].product.id != last.product.id {
          assert f[i] in init;
        }
      }
    }
  }

  /** Updating and removing keep one line per product and leave no line with a
      quantity below 1; the removed product has no line left. */
  lemma CartEditsFacts(cart: seq<CartItem>, productId: int, quantity: int)
    requires DistinctItems(cart)
    ensures DistinctItems(UpdateCartItems(cart, productId, quantity))
    ensures forall it :: it in UpdateCartItems(cart, productId, quantity) ==> it.quantity > 0
    ensures DistinctItems(RemoveFromCartItems(cart, productId))
    ensures forall it :: it in RemoveFromCartItems(cart, productId) <==> it in cart && it.product.id != productId
  {
    var clamped := seq(|cart|, j requires 0 <= j < |cart| =>
      if cart[j].product.id == productId then cart[j].(quantity := Max0(quantity)) else cart[j]);
    FilterDistinct(clamped, InCart);
    FilterMembers(clamped, InCart);
    FilterDistinct(cart, ItemIsNot(productId));
    FilterMembers(cart, ItemIsNot(productId));
  }

  // ----- expenses -----

  function ExpenseIsNot(id: int): Expense -> bool
  {
    (e: Expense) => e.id != id
  }

  /** `editExpense`: `{ ...e, ...updates }` on the expenses with that id. */
  function EditExpenses(es: seq<Expense>, id: int, updates: ExpenseFields): (r: seq<Expense>)
    ensures |r| == |es|
    ensures forall j :: 0 <= j < |es| ==> r[j].id == es[j].id && r[j].timestamp == es[j].timestamp
    ensures forall j :: 0 <= j < |es| ==> r[j].fields == if es[j].id == id then updates else es[j].fields
  {
    seq(|es|, j requires 0 <= j < |es| => if es[j].id == id then es[j].(fields := updates) else es[j])
  }

  /** Deleting removes exactly the expenses with that id; editing the survivors' ids
      never touches a deleted one. */
  lemma DeleteExpenseFacts(es: seq<Expense>, id: int)
    ensures forall e :: e in Filter(es, ExpenseIsNot(id)) <==> e in es && e.id != id
  {
    FilterMembers(es, ExpenseIsNot(id));
  }

  // ----- the profile -----

  /** `{ ...prev, ...updates }`: the updated keys take the new values, the rest stay. */
  function MergeProfile(prev: map<string, string>, updates: map<string, string>): (r: map<string, string>)
    ensures r.Keys == prev.Keys + updates.Keys
    ensures forall k :: k in updates ==> r[k] == updates[k]
    ensures forall k :: k in prev && k !in updates ==> r[k] == prev[k]
  {
    prev + updates
  }

  // ----- the seed -----

  function SeedProducts(): seq<Product>
  {
    [ Product(1, "Tilapia", 350, 50, 1.0, 250, "Fish"),
      Product(2, "Sardines", 150, 20, 0.5, 100, "Fish"),
      Product(3, "Catfish", 400, 30, 1.5, 300, "Fish"),
      Product(4, "Fish Fillet Combo", 500, 15, 2.0, 350, "Combo"),
      Product(5, "Salmon", 600, 8, 1.2, 450, "Fish"),
      Product(6, "Tuna", 550, 12, 1.3, 400, "Fish"),
      Product(7, "Chips", 100, 60, 0.25, 50, "Side"),
      Product(8, "Salad", 80, 35, 0.3, 40, "Side") ]
  }

  function SeedCombos(): seq<Combo>
  {
    [ Combo(1, "Fish Fillet Combo", 4, [Component(1, 1), Component(2, 1)]) ]
  }

  function SeedSales(): seq<Sale>
  {
    [ Sale(1, "INV-1421", 1250, "M-Pesa", "John Doe", "2023-10-01", "10:30", [], None),
      Sale(2, "INV-1422", 850, "Cash", "Jane Smith", "2023-10-01", "11:15", [], None),
      Sale(3, "INV-1423", 1499, "Card", "John Doe", "2023-10-01", "12:00", [], None),
      Sale(4, "INV-1424", 2100, "M-Pesa", "Jane Smith", "2023-10-01", "13:45", [], None),
      Sale(5, "INV-1425", 750, "Cash", "John Doe", "2023-10-01", "14:20", [], None),
      Sale(6, "INV-1426", 1800, "Card", "Jane Smith", "2023-10-01", "15:30", [], None) ]
  }

  function SeedExpenses(): seq<Expense>
  {
    [ Expense(1, ExpenseFields("Utilities", "2023-10-01", 2500, "Cash", "Electricity bill"), "2023-10-01 09:00"),
      Expense(2, ExpenseFields("Wages", "2023-10-01", 15000, "Bank Transfer", "Staff salaries"), "2023-10-01 10:00"),
      Expense(3, ExpenseFields("Tokens", "2023-10-01", 5000, "M-Pesa", "Shop tokens"), "2023-10-01 11:00") ]
  }

  function SeedProfile(): map<string, string>
  {
    map["name" := "John Doe", "username" := "johndoe", "email" := "john@example.com", "theme" := "light"]
  }

  function SeedLogs(): seq<LogEntry>
  {
    [ LogEntry(1, Seeded("Sale processed - INV-1426"), Some("Jane Smith"), None, "2023-10-01 15:30", Some(1800)),
      LogEntry(2, Seeded("Sale processed - INV-1425"), Some("John Doe"), None, "2023-10-01 14:20", Some(750)),
      LogEntry(3, Seeded("Credit request submitted"), Some("John Doe"), None, "2023-10-01 15:00", Some(1500)),
      LogEntry(4, Seeded("Sale processed - INV-1424"), Some("Jane Smith"), None, "2023-10-01 13:45", Some(2100)),
      LogEntry(5, Seeded("Stock added - Tilapia 20kg"), None, Some("Admin"), "2023-10-01 09:00", None),
      LogEntry(6, Seeded("Credit request submitted"), Some("Jane Smith"), None, "2023-10-01 14:30", Some(2000)) ]
  }

  function AdminLog(id: int, action: Action, timestamp: string): LogEntry
  {
    LogEntry(id, action, None, Some("Admin"), timestamp, None)
  }

  /** The log line of an adjustment: added for a non-negative delta, removed otherwise. */
  function StockAction(delta: int): (a: Action)
    ensures delta >= 0 <==> a.StockAdded?
    ensures a.StockAdded? ==> a.units == delta
    ensures a.StockRemoved? ==> a.units == -delta
  {
    if delta >= 0 then StockAdded(delta) else StockRemoved(-delta)
  }

  /** Active shift invariant: the current shift is open, the recorded ones are closed. */
  predicate ShiftsWellFormed(current: Option<Shift>, shifts: seq<Shift>)
  {
    (current.Some? ==> current.value.status == Active && current.value.closing.None?)
    && forall j :: 0 <= j < |shifts| ==> shifts[j].status == Completed && shifts[j].closing.Some?
  }

  class DataStore {
    var products: seq<Product>
    var combos: seq<Combo>
    var sales: seq<Sale>
    var cart: seq<CartItem>
    var notifications: seq<Notification>
    var currentShift: Option<Shift>
    var shifts: seq<Shift>
    var expenses: seq<Expense>
    var cashierProfile: map<string, string>
    var activityLogs: seq<LogEntry>
    var verificationCodes: seq<CodeRecord>

    /** What every store operation keeps: one cart line per product and a well-formed
        shift record. Stock is not part of it: `updateProductStock` subtracts without a
        floor, so non-negative stock is stated per operation instead. */
    predicate Valid()
      reads this
    {
      DistinctItems(cart) && ShiftsWellFormed(currentShift, shifts)
    }

    constructor ()
      ensures Valid() && StockNonNegative(products)
      ensures products == SeedProducts() && combos == SeedCombos() && sales == SeedSales()
      ensures cart == [] && notifications == [] && currentShift.None? && shifts == []
      ensures expenses == SeedExpenses() && cashierProfile == SeedProfile()
      ensures activityLogs == SeedLogs() && verificationCodes == []
    {
      products, combos, sales := SeedProducts(), SeedCombos(), SeedSales();
      cart, notifications, currentShift, shifts := [], [], None, [];
      expenses, cashierProfile := SeedExpenses(), SeedProfile();
      activityLogs, verificationCodes := SeedLogs(), [];
    }

    /** `addSale`: the sale gets the clock's id and is logged under its cashier. */
    method AddSale(sale: Sale, now: int, timestamp: string)
      modifies this`sales, this`activityLogs
      ensures sales == old(sales) + [sale.(id := now)]
      ensures activityLogs == old(activityLogs) + [LogEntry(now, SaleProcessed, Some(sale.cashier), None, timestamp, None)]
    {
      sales := sales + [sale.(id := now)];
      activityLogs := activityLogs + [LogEntry(now, SaleProcessed, Some(sale.cashier), None, timestamp, None)];
    }

    /** `updateProductStock`: subtracts without a floor and logs nothing. */
    method UpdateProductStock(productId: int, quantity: int)
      requires Valid()
      modifies this`products
      ensures Valid()
      ensures products == MapStock(old(products), productId, Subtract(quantity))
      ensures StockNonNegative(old(products))
              && (forall i :: 0 <= i < |old(products)| && old(products)[i].id == productId ==>
                    old(products)[i].stock >= quantity)
              ==> StockNonNegative(products)
    {
      products := MapStock(products, productId, Subtract(quantity));
    }

    /** `adjustProductStock`: add `delta` to the matching products, never below zero. */
    method AdjustProductStock(productId: int, delta: int, actor: string, now: int, timestamp: string)
      requires Valid()
      modifies this`products, this`activityLogs
      ensures Valid()
      ensures products == AdjustStock(old(products), productId, delta)
      ensures StockNonNegative(old(products)) ==> StockNonNegative(products)
      ensures activityLogs == old(activityLogs) + [LogEntry(now, StockAction(delta), None, Some(actor), timestamp, None)]
    {
      if StockNonNegative(products) {
        ClampedStockNonNegative(products, productId, delta, 0);
      }
      products := AdjustStock(products, productId, delta);
      activityLogs := activityLogs + [LogEntry(now, StockAction(delta), None, Some(actor), timestamp, None)];
    }

    /** `setProductStock`: set the matching products' stock, never below zero. */
    method SetProductStock(productId: int, newStock: int, actor: string, now: int, timestamp: string)
      requires Valid()
      modifies this`products, this`activityLogs
      ensures Valid()
      ensures products == MapStock(old(products), productId, SetClamped(newStock))
      ensures StockNonNegative(old(products)) ==> StockNonNegative(products)
      ensures activityLogs == old(activityLogs) + [LogEntry(now, StockSet(newStock), None, Some(actor), timestamp, None)]
    {
      if StockNonNegative(products) {
        ClampedStockNonNegative(products, productId, 0, newStock);
      }
      products := MapStock(products, productId, SetClamped(newStock));
      activityLogs := activityLogs + [LogEntry(now, StockSet(newStock), None, Some(actor), timestamp, None)];
    }

    /** `generateVerificationCode(cashierName = 'Any', ttlMinutes = 30)`: `code` is the six
        random characters; the record goes to the front of the list. */
    method GenerateVerificationCode(cashierName: Option<string>, ttlMinutes: Option<int>, code: string,
                                    now: int, logId: int, timestamp: string) returns (rec: CodeRecord)
      requires IsLocalCode(code)
      modifies this`verificationCodes, this`activityLogs
      ensures rec.code == code && IsLocalCode(rec.code) && !rec.used
      ensures rec.id == now && rec.createdAt == now
      ensures rec.cashier == (if cashierName.Some? then cashierName.value else "Any")
      ensures rec.expiresAt == now + (if ttlMinutes.Some? then ttlMinutes.value else 30) * 60000
      ensures verificationCodes == [rec] + old(verificationCodes)
      ensures activityLogs == old(activityLogs) + [AdminLog(logId, CodeGenerated, timestamp)]
    {
      var cashier := if cashierName.Some? then cashierName.value else "Any";
      var ttl := if ttlMinutes.Some? then ttlMinutes.value else 30;
      rec := NewCodeRecord(code, cashier, now, ttl);
      verificationCodes := [rec] + verificationCodes;
      activityLogs := activityLogs + [AdminLog(logId, CodeGenerated, timestamp)];
    }

    /** `revokeVerificationCode` */
    method RevokeVerificationCode(id: int, logId: int, timestamp: string)
      modifies this`verificationCodes, this`activityLogs
      ensures verificationCodes == Filter(old(verificationCodes), IdIsNot(id))
      ensures forall c :: c in verificationCodes <==> c in old(verificationCodes) && c.id != id
      ensures activityLogs == old(activityLogs) + [AdminLog(logId, CodeRevoked, timestamp)]
    {
      RevokeFacts(verificationCodes, id);
      verificationCodes := Filter(verificationCodes, IdIsNot(id));
      activityLogs := activityLogs + [AdminLog(logId, CodeRevoked, timestamp)];
    }

    /** `verifyLocalCode`: a failure changes nothing; a success marks every record with
        the code used and logs under the record's cashier (or 'Unknown' when empty). */
    method VerifyLocalCode(code: string, now: int, logId: int, timestamp: string) returns (v: LocalVerdict)
      modifies this`verificationCodes, this`activityLogs
      ensures v == LocalVerify(old(verificationCodes), code, now)
      ensures v != Accepted ==> verificationCodes == old(verificationCodes) && activityLogs == old(activityLogs)
      ensures v == Accepted ==> verificationCodes == MarkUsed(old(verificationCodes), code)
      ensures v == Accepted ==>
        var rec := old(verificationCodes)[FirstIndex(old(verificationCodes), CodeIs(code))];
        activityLogs == old(activityLogs) +
          [LogEntry(logId, CodeUsed, None, Some(if rec.cashier != "" then rec.cashier else "Unknown"), timestamp, None)]
    {
      var i := FirstIndex(verificationCodes, CodeIs(code));
      if i < 0 {
        return NotFound;
      }
      var rec := verificationCodes[i];
      if rec.used {
        return AlreadyUsed;
      }
      if now > rec.expiresAt {
        return Expired;
      }
      verificationCodes := MarkUsed(verificationCodes, code);
      var user := if rec.cashier != "" then rec.cashier else "Unknown";
      activityLogs := activityLogs + [LogEntry(logId, CodeUsed, None, Some(user), timestamp, None)];
      v := Accepted;
    }

    /** `addToCart(product, quantity = 1)` */
    method AddToCart(product: Product, quantity: int)
      requires Valid()
      modifies this`cart
      ensures Valid()
      ensures cart == AddToCartItems(old(cart), product, quantity)
    {
      AddToCartDistinct(cart, product, quantity);
      cart := AddToCartItems(cart, product, quantity);
    }

    /** `removeFromCart` */
    method RemoveFromCart(productId: int)
      requires Valid()
      modifies this`cart
      ensures Valid()
      ensures cart == RemoveFromCartItems(old(cart), productId)
    {
      CartEditsFacts(cart, productId, 0);
      cart := RemoveFromCartItems(cart, productId);
    }

    /** `updateCartItem` */
    method UpdateCartItem(productId: int, quantity: int)
      requires Valid()
      modifies this`cart
      ensures Valid()
      ensures cart == UpdateCartItems(old(cart), productId, quantity)
      ensures forall it :: it in cart ==> it.quantity > 0
    {
      CartEditsFacts(cart, productId, quantity);
      cart := UpdateCartItems(cart, productId, quantity);
    }

    /** `clearCart` */
    method ClearCart()
      requires Valid()
      modifies this`cart
      ensures Valid() && cart == []
    {
      cart := [];
    }

    /** `addNotification`: appended with the clock's id and unread; the three-second
        auto-removal timer is not part of this model. */
    method AddNotification(kind: string, message: string, now: int)
      modifies this`notifications
      ensures notifications == old(notifications) + [Notification(now, kind, message, false)]
    {
      notifications := notifications + [Notification(now, kind, message, false)];
    }

    /** `startShift`: a new active shift replaces any current one. */
    method StartShift(openingFloat: Option<int>, now: int, startTime: string, logId: int, timestamp: string)
      requires Valid()
      modifies this`currentShift, this`activityLogs
      ensures Valid()
      ensures currentShift == Some(Shift(now, startTime, openingFloat, Active, None))
      ensures activityLogs == old(activityLogs) +
        [LogEntry(logId, ShiftStarted(openingFloat), None, Some(ProfileName(cashierProfile)), timestamp, None)]
    {
      currentShift := Some(Shift(now, startTime, openingFloat, Active, None));
      activityLogs := activityLogs +
        [LogEntry(logId, ShiftStarted(openingFloat), None, Some(ProfileName(cashierProfile)), timestamp, None)];
    }

    /** `endShift`: with a current shift, record it as completed with the closing
        figures and clear it; without one, do nothing. */
    method EndShift(closingCash: Option<int>, closingMpesa: Option<int>, endTime: string, logId: int, timestamp: string)
      requires Valid()
      modifies this`currentShift, this`shifts, this`activityLogs
      ensures Valid()
      ensures old(currentShift).None? ==>
        currentShift.None? && shifts == old(shifts) && activityLogs == old(activityLogs)
      ensures old(currentShift).Some? ==>
        && currentShift.None?
        && shifts == old(shifts) + [old(currentShift).value.(status := Completed,
                                      closing := Some(Closing(endTime, closingCash, closingMpesa)))]
        && activityLogs == old(activityLogs) +
             [LogEntry(logId, ShiftEnded(closingCash, closingMpesa), None, Some(ProfileName(cashierProfile)), timestamp, None)]
    {
      if currentShift.Some? {
        var record := currentShift.value.(status := Completed, closing := Some(Closing(endTime, closingCash, closingMpesa)));
        shifts := shifts + [record];
        currentShift := None;
        activityLogs := activityLogs +
          [LogEntry(logId, ShiftEnded(closingCash, closingMpesa), None, Some(ProfileName(cashierProfile)), timestamp, None)];
      }
    }

    /** `updateCashierProfile` */
    method UpdateCashierProfile(updates: map<string, string>)
      modifies this`cashierProfile
      ensures cashierProfile == MergeProfile(old(cashierProfile), updates)
    {
      cashierProfile := cashierProfile + updates;
    }

    /** `addExpense`: appended with the clock's id and timestamp. */
    method AddExpense(fields: ExpenseFields, now: int, timestamp: string, logId: int) returns (e: Expense)
      modifies this`expenses, this`activityLogs
      ensures e == Expense(now, fields, timestamp)
      ensures expenses == old(expenses) + [e]
      ensures activityLogs == old(activityLogs) + [AdminLog(logId, ExpenseRecorded(fields.category, fields.amount), timestamp)]
    {
      e := Expense(now, fields, timestamp);
      expenses := expenses + [e];
      activityLogs := activityLogs + [AdminLog(logId, ExpenseRecorded(fields.category, fields.amount), timestamp)];
    }

    /** `deleteExpense` */
    method DeleteExpense(id: int, logId: int, timestamp: string)
      modifies this`expenses, this`activityLogs
      ensures expenses == Filter(old(expenses), ExpenseIsNot(id))
      ensures forall e :: e in expenses <==> e in old(expenses) && e.id != id
      ensures activityLogs == old(activityLogs) + [AdminLog(logId, ExpenseDeleted, timestamp)]
    {
      DeleteExpenseFacts(expenses, id);
      expenses := Filter(expenses, ExpenseIsNot(id));
      activityLogs := activityLogs + [AdminLog(logId, ExpenseDeleted, timestamp)];
    }

    /** `editExpense` */
    method EditExpense(id: int, updates: ExpenseFields, logId: int, timestamp: string)
      modifies this`expenses, this`activityLogs
      ensures expenses == EditExpenses(old(expenses), id, updates)
      ensures activityLogs == old(activityLogs) +
        [AdminLog(logId, ExpenseUpdated(if updates.category != "" then updates.category else "Unknown", updates.amount), timestamp)]
    {
      expenses := EditExpenses(expenses, id, updates);
      activityLogs := activityLogs +
        [AdminLog(logId, ExpenseUpdated(if updates.category != "" then updates.category else "Unknown", updates.amount), timestamp)];
    }
  }

  /** `cashierProfile.name` */
  function ProfileName(profile: map<string, string>): string
  {
    if "name" in profile then profile["name"] else "undefined"
  }
}
