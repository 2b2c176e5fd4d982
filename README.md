# POS, credit approval and clinic dashboards — a Dafny model

This project models the logic of three small web apps that share one repository.

- **The Express credit route** (`kiill/mysite/backend/routes/credit.js`) keeps two in-memory collections: the credit requests and a per-customer history. Cashiers submit requests. An admin approves them, which mints a verification code, or rejects them. The cashier then verifies the code for the customer.
- **The POS client store** (`src/context/DataContext.jsx`) holds products, combos, sales, the cart, notifications, shifts, expenses, the cashier profile, activity logs and locally minted verification codes. Local codes expire and can be used once.
- **The POS screens** use that store:
  - cashier screens: `CashierPOS`, `Cart`, `ProductGrid`, `PaymentModal`, `CreditRequestModal`, `ShiftManagement`, `NotificationBell`, `CashierSettings` and `CashierMySales`;
  - admin screens: `Inventory`, `Expenses`, `Dashboard`, `Sales` and `CreditApproval`;
  - authentication: the `AuthContext`, the `VerifyCode` and `Register` pages, and the route guards.
- **The clinic dashboards** (`medbeta`): doctor, pharmacist, lab and patient pages, the staff `LoginForm` and the `PrivateRoute` guard.

Each source file becomes one Dafny module, in the source's own form:

- A store, dialog or page whose handlers replace state fields becomes a `class` with those fields. Its methods' post-states are given by pure functions.
- A filter, reduce or decision becomes a `function` with a named result.
- The properties the screens rely on are `lemma`s.

Four shared modules carry the JavaScript idioms the screens use:

- `Base`: `Option`, `filter`, sum and count, `find`/`findIndex`.
- `Text`: ASCII `toLowerCase`/`toUpperCase`, `trim`, `includes`/`startsWith`, `parseInt`/`parseFloat` and number rendering.
- `Tally`: a JavaScript object used as an insertion-ordered dictionary of sums.
- `Sorting`: a stable sort by an integer rank, and `slice(0, n)`.

Conventions:

- Money is an `int` number of shillings.
- Clock readings, random codes, confirmation dialogs and network replies are method parameters.
- Every `parseInt`/`parseFloat` result is an `Option<int>`, where `None` stands for `NaN`.

## Model

| member | source | states |
|---|---|---|
| CreditRoutes.SeedInvariant | kiill/mysite/backend/routes/credit.js:5-15 | the seeded requests and history satisfy the store invariant: each customer's history is exactly the projection of that customer's requests, in order, and every approved code has at most 6 characters, each from 0-9A-Z (the shape `Math.random().toString(36).substr(2, 6)` produces) |
| CreditRoutes.Submit | kiill/mysite/backend/routes/credit.js:23-49 | POST appends exactly one request; the customer's history gains one entry, and the list is created empty first if it is absent; every other customer's history is unchanged |
| CreditRoutes.SubmitPreserves | kiill/mysite/backend/routes/credit.js:36-47 | appending a pending request with a null code keeps the store invariant |
| CreditRoutes.CreditRouter.PostRequest | kiill/mysite/backend/routes/credit.js:23-49 | no validation; the reply is always 201 carrying the new pending request with a null code; the new state is `Submit` of the old one and the invariant holds |
| CreditRoutes.SetEntryStatus | kiill/mysite/backend/routes/credit.js:62-64 | only the first history entry with the id changes status; every other entry and the length are kept |
| CreditRoutes.Decide | kiill/mysite/backend/routes/credit.js:52-83 | an id that `parseInt` (decimal, or hexadecimal after `0x`) cannot read or that no request has gives 404 and changes nothing; otherwise the first request with that id gets the new status (and the new code on approve) without a status check, and its history entry follows |
| CreditRoutes.DecidePreserves | kiill/mysite/backend/routes/credit.js:59-80 | approve (with a well-formed code) and reject keep the invariant, so the history lookup always finds its list |
| CreditRoutes.HistoryOfUpdate | kiill/mysite/backend/routes/credit.js:59-64 | updating the first request with an id updates exactly the matching entry of its customer's history projection |
| CreditRoutes.ApproveThenVerify | kiill/mysite/backend/routes/credit.js:59-94 | right after an approval, the new code verifies for that request's customer |
| CreditRoutes.RejectKeepsCode | kiill/mysite/backend/routes/credit.js:76 | rejecting leaves the request's old verification code in place |
| CreditRoutes.VerifyResult | kiill/mysite/backend/routes/credit.js:86-94 | valid iff some request has the customer, the code and status approved |
| CreditRoutes.VerifyNullCode | kiill/mysite/backend/routes/credit.js:86-94 | a missing code never verifies, because stored approved codes are never null |
| CreditRoutes.CreditRouter.Verify | kiill/mysite/backend/routes/credit.js:86-94 | verify changes no state (so a code verifies any number of times) and answers valid iff a matching approved request exists |
| CreditRoutes.CreditRouter.CustomerHistory | kiill/mysite/backend/routes/credit.js:97-100 | the reply is the customer's requests' entries in insertion order, [] for an unknown customer |
| CreditRoutes.HistoryOfAbsent | kiill/mysite/backend/routes/credit.js:97-100 | a customer with no requests has an empty history |
| CreditRoutes.CreditRouter.ApproveRequest | kiill/mysite/backend/routes/credit.js:52-68 | the new state and reply are `Decide` with an approval carrying the minted code; the invariant is kept |
| CreditRoutes.CreditRouter.RejectRequest | kiill/mysite/backend/routes/credit.js:71-83 | the new state and reply are `Decide` with a rejection; the invariant is kept |
| CreditRoutes.CreditRouter.ListRequests | kiill/mysite/backend/routes/credit.js:18-20 | GET returns the stored requests unchanged |
| CreditRoutes.CreditRouter.constructor | kiill/mysite/backend/routes/credit.js:5-15 | the router starts from the seed, which satisfies the invariant |
| DataContext.Max0 | src/context/DataContext.jsx:177 | `Math.max(0, x)`: never negative, at least x, and equal to x or 0 |
| DataContext.MapStock | src/context/DataContext.jsx:94-187 | only products with the id change stock (subtract, clamped add, clamped set); every other product and the order are kept |
| DataContext.ClampedStockNonNegative | src/context/DataContext.jsx:176-187 | adjust and set keep every stock non-negative; adjust gives max(0, stock + delta) on the matching product |
| DataContext.AdjustStockCompose | src/context/DataContext.jsx:176-177 | two non-negative adjustments compose into one; adjusting by 0 changes nothing on a non-negative catalogue |
| DataContext.StockAction | src/context/DataContext.jsx:180 | the log says "added" iff delta >= 0, with the absolute value of delta |
| DataContext.DataStore.UpdateProductStock | src/context/DataContext.jsx:94-98 | subtracts the quantity from the matching products without clamping and keeps the store invariant (duplicate-free cart, well-formed shifts); stock stays non-negative when every matching product holds at least the quantity |
| DataContext.DataStore.AdjustProductStock | src/context/DataContext.jsx:176-184 | clamped adjustment of the matching product plus one stock log |
| DataContext.DataStore.SetProductStock | src/context/DataContext.jsx:186-194 | clamped set of the matching product plus one stock log |
| DataContext.LocalVerify | src/context/DataContext.jsx:213-217 | not_found iff no record has the code; used iff the first match is used; expired only when now is past its expiry; accepted iff the first match is unused and not expired, so exactly at expiresAt it is still valid |
| DataContext.MarkUsed | src/context/DataContext.jsx:218 | every record with the code becomes used; the rest are unchanged |
| DataContext.VerifyTwice | src/context/DataContext.jsx:213-220 | a code that verified once reports used on any later verify |
| DataContext.GenerateThenVerify | src/context/DataContext.jsx:197-220 | a freshly generated code verifies at any time up to its expiry |
| DataContext.RevokeFacts | src/context/DataContext.jsx:207-209 | revoke keeps exactly the records with another id |
| DataContext.DataStore.GenerateVerificationCode | src/context/DataContext.jsx:197-204 | the record has the 6-character code, used false, cashier defaulting to "Any", expiresAt = now + ttl·60000 with ttl defaulting to 30, and goes to the front of the list |
| DataContext.DataStore.RevokeVerificationCode | src/context/DataContext.jsx:207-210 | removes exactly the records with the id, order of the rest kept, and logs once |
| DataContext.DataStore.VerifyLocalCode | src/context/DataContext.jsx:213-221 | the verdict is `LocalVerify`; failures change nothing; success marks the code used and logs once |
| DataContext.AddToCartItems | src/context/DataContext.jsx:224-232 | an existing line is incremented in place; otherwise one new line is appended |
| DataContext.AddToCartDistinct | src/context/DataContext.jsx:224-232 | adding keeps product ids unique in the cart, and the product then has a line |
| DataContext.CartEditsFacts | src/context/DataContext.jsx:234-240 | update clamps and drops lines with quantity <= 0; remove keeps exactly the other products; both keep ids unique |
| DataContext.DataStore.AddToCart | src/context/DataContext.jsx:224-232 | the cart becomes `AddToCartItems` of the old cart and stays duplicate-free |
| DataContext.DataStore.RemoveFromCart | src/context/DataContext.jsx:234-236 | removes the product's line |
| DataContext.DataStore.UpdateCartItem | src/context/DataContext.jsx:238-240 | every remaining line has a positive quantity |
| DataContext.DataStore.ClearCart | src/context/DataContext.jsx:242-244 | the cart is empty |
| DataContext.DataStore.AddNotification | src/context/DataContext.jsx:246-249 | appends one unread notification with the clock's id |
| DataContext.DataStore.StartShift | src/context/DataContext.jsx:257-274 | always replaces the current shift with a new active one and logs the start |
| DataContext.DataStore.EndShift | src/context/DataContext.jsx:276-297 | with a current shift: appends it as completed with the closing figures and clears it; without one: nothing changes |
| DataContext.DataStore.AddSale | src/context/DataContext.jsx:84-92 | appends the sale with the clock's id and one "sale processed" log |
| DataContext.MergeProfile | src/context/DataContext.jsx:300-302 | `{...prev, ...updates}`: the keys are the union and updated keys win |
| DataContext.DataStore.UpdateCashierProfile | src/context/DataContext.jsx:300-302 | the profile becomes the merge of the old profile and the updates |
| DataContext.EditExpenses | src/context/DataContext.jsx:331-332 | only the expense with the id takes the new fields; ids, timestamps and the rest are kept |
| DataContext.DeleteExpenseFacts | src/context/DataContext.jsx:321-322 | delete keeps exactly the expenses with another id |
| DataContext.DataStore.AddExpense | src/context/DataContext.jsx:305-319 | appends one expense with the clock's id and returns it, with one log |
| DataContext.DataStore.DeleteExpense | src/context/DataContext.jsx:321-329 | removes exactly the expenses with the id, with one log |
| DataContext.DataStore.EditExpense | src/context/DataContext.jsx:331-339 | the list becomes `EditExpenses` of the old list, with one log |
| DataContext.DataStore.constructor | src/context/DataContext.jsx:7-68 | the store starts from the seed data with an empty cart, no shift and no codes |
| PaymentModal.Settlement | kiill/mysite/src/cashier/PaymentModal.jsx:38-52 | change = max(0, paid − total) and balance = max(0, total − paid): both non-negative, never both positive, and change − balance = paid − total |
| PaymentModal.SplitTotalAppend | kiill/mysite/src/cashier/PaymentModal.jsx:34-36 | the split total is additive, with an unparsable amount counting 0 |
| PaymentModal.RemoveAt | kiill/mysite/src/cashier/PaymentModal.jsx:30-32 | removes exactly the entry at the index and keeps the others in order |
| PaymentModal.PaymentModal.AddSplitPayment | kiill/mysite/src/cashier/PaymentModal.jsx:20-22 | appends a blank cash entry, which leaves the split total unchanged |
| PaymentModal.PaymentModal.ChangeSplitPayment | kiill/mysite/src/cashier/PaymentModal.jsx:24-28 | only the chosen field of the chosen entry changes |
| PaymentModal.PaymentModal.RemoveSplitPayment | kiill/mysite/src/cashier/PaymentModal.jsx:30-32 | the list loses exactly that entry |
| PaymentModal.PaymentModal.SelectMethod | kiill/mysite/src/cashier/PaymentModal.jsx:183 | the chosen method id is stored |
| PaymentModal.PaymentModal.SetSplitMode | kiill/mysite/src/cashier/PaymentModal.jsx:156-163 | the split flag is stored |
| PaymentModal.PaymentModal.EnterAmount | kiill/mysite/src/cashier/PaymentModal.jsx:207 | the typed amount is stored |
| PaymentModal.PaymentModal.constructor | kiill/mysite/src/cashier/PaymentModal.jsx:9-16 | the form starts on cash, no amount, no split entries |
| PaymentModal.InvoiceRef | kiill/mysite/src/cashier/PaymentModal.jsx:63 | the reference is "INV-" followed by at most the last 6 digits of the clock |
| PaymentModal.SaleStockEffect | kiill/mysite/src/cashier/PaymentModal.jsx:80-86 | after a sale, each product matched by a cart line has its stock reduced by that line's quantity (clamped at 0); other products keep theirs |
| PaymentModal.RecordedMethodIsId | kiill/mysite/src/cashier/PaymentModal.jsx:66-77 | the recorded method is "Split Payment" in split mode and the chosen id otherwise |
| PaymentModal.DeductSoldStock | kiill/mysite/src/cashier/PaymentModal.jsx:80-86 | the stock loop's result equals `StockAfterSale`, one stock log per matched line |
| PaymentModal.PaymentModal.CompleteDisabled | kiill/mysite/src/cashier/PaymentModal.jsx:349 | Complete is enabled iff nothing is loading and the amount paid (cash or split sum) covers the total |
| PaymentModal.PaymentModal.HandlePayment | kiill/mysite/src/cashier/PaymentModal.jsx:54-101 | with a positive balance no sale is recorded and the cart and stock are untouched; otherwise exactly one sale with the total and change, the stock is deducted, the cart is cleared and the form resets to one cash payment |
| CashierPOS.AddToCartTotal | kiill/mysite/src/cashier/CashierPOS.jsx:70-72 | the cart total (`CartTotal`, Σ price × quantity) grows by exactly price × quantity when a product is added |
| CashierPOS.LowStockProducts | kiill/mysite/src/cashier/CashierPOS.jsx:23-30 | alerts are raised exactly for products with 0 < stock <= 5 |
| CashierPOS.LowStockAlerts | kiill/mysite/src/cashier/CashierPOS.jsx:25-28 | one unread warning per low product, in order |
| CashierPOS.CashierScreen.RaiseLowStockAlerts | kiill/mysite/src/cashier/CashierPOS.jsx:23-30 | the store's notifications gain exactly those warnings |
| CashierPOS.TodayStats | kiill/mysite/src/cashier/CashierPOS.jsx:74-88 | the count is that of sales dated today; the total, cash and M-Pesa figures are the sums of today's sales, of today's cash sales and of today's M-Pesa sales; average × count = total, and the average is 0 with no sales |
| CashierPOS.OtherDayIgnored | kiill/mysite/src/cashier/CashierPOS.jsx:75 | a sale from another day changes none of today's figures |
| CashierPOS.CashAndMpesaWithinTotal | kiill/mysite/src/cashier/CashierPOS.jsx:74-88 | with non-negative totals, cash + M-Pesa never exceed the day's total |
| CashierPOS.ThreeWaySplit | kiill/mysite/src/cashier/CashierPOS.jsx:78-80 | the total splits exactly into cash, M-Pesa and all other methods |
| CashierPOS.ComboProfit | kiill/mysite/src/cashier/CashierPOS.jsx:92-105 | null iff no combo references the product; otherwise cost = Σ component cost × qty and profit = price − cost |
| CashierPOS.MissingComponentFree | kiill/mysite/src/cashier/CashierPOS.jsx:97-99 | a component whose product is missing adds nothing to the cost |
| CashierPOS.CashierScreen.HandleAddToCart | kiill/mysite/src/cashier/CashierPOS.jsx:33-42 | stock <= 0 only raises a warning and leaves the cart alone; otherwise the product is added once |
| CashierPOS.CashierScreen.HandleCheckout | kiill/mysite/src/cashier/CashierPOS.jsx:44-50 | payment opens iff the cart's Checkout button is enabled, i.e. for a non-empty cart |
| CashierPOS.CashierScreen.HandlePaymentComplete | kiill/mysite/src/cashier/CashierPOS.jsx:52-60 | the sale becomes current, payment closes and the receipt opens |
| CashierPOS.CashierScreen.HandleCreditRequest | kiill/mysite/src/cashier/CashierPOS.jsx:62-68 | the credit dialog opens only for a non-blank trimmed customer name |
| CashierPOS.CashierScreen.constructor | kiill/mysite/src/cashier/CashierPOS.jsx:9-21 | all dialogs closed, no current sale, empty customer name |
| Cart.QuantityChange | kiill/mysite/src/cashier/Cart.jsx:7-12 | a new quantity below 1 removes the line; otherwise it is passed through unchanged |
| Cart.ButtonRequests | kiill/mysite/src/cashier/Cart.jsx:68-87 | − asks for quantity − 1 (a removal at 1), + for quantity + 1 |
| Cart.RemoveRequestEffect | kiill/mysite/src/cashier/Cart.jsx:7-9 | decrementing a line of 1 removes it from the cart |
| Cart.CheckoutAfterEdits | src/context/DataContext.jsx:224-236 | adding a product always enables checkout; removing a product disables it iff every line was that product |
| Cart.CheckoutDisabled | kiill/mysite/src/cashier/Cart.jsx:104-124 | checkout is disabled iff the line count is 0 |
| ProductGrid.Dedup | kiill/mysite/src/cashier/ProductGrid.jsx:12-15 | `new Set`: each value once, the same members, first-appearance order |
| ProductGrid.DedupPrefix | kiill/mysite/src/cashier/ProductGrid.jsx:12-15 | the categories of a prefix of the catalogue come first, in the same order |
| ProductGrid.CategoryTabs | kiill/mysite/src/cashier/ProductGrid.jsx:12-15 | "All" first, then each product category exactly once |
| ProductGrid.FilteredProducts | kiill/mysite/src/cashier/ProductGrid.jsx:17-23 | keeps, in order, products whose lower-cased name includes the lower-cased term and whose category matches or the selection is "All" |
| ProductGrid.EmptySearchKeepsAll | kiill/mysite/src/cashier/ProductGrid.jsx:17-23 | an empty term on "All" keeps every product |
| ProductGrid.StockStatus | kiill/mysite/src/cashier/ProductGrid.jsx:25-29 | <= 5 is LOW STOCK, 6..10 is LOW, otherwise IN STOCK, each shown by its badge text (`StockText`) |
| ProductGrid.ComboCardProfit | kiill/mysite/src/cashier/ProductGrid.jsx:164-167 | only combo cards show a profit, and it is price − cost |
| ProductGrid.BarcodeLookup | kiill/mysite/src/cashier/ProductGrid.jsx:35-38 | the first product whose id string equals the input or whose name includes it case-insensitively |
| ProductGrid.ScanById | kiill/mysite/src/cashier/ProductGrid.jsx:36 | scanning a product's id always finds a product, at or before it |
| ProductGrid.ProductGridState.ScanTimerFired | kiill/mysite/src/cashier/ProductGrid.jsx:32-46 | a found product is added and the input cleared, and an out-of-stock one adds exactly one warning notification naming it; otherwise nothing changes |
| ProductGrid.ProductGridState.constructor | kiill/mysite/src/cashier/ProductGrid.jsx:7-10 | empty search on "All", not scanning |
| Inventory.QtyOrOne | kiill/mysite/src/admin/Inventory.jsx:63 | `qty \|\| 1`: never 0, and any non-zero qty is kept |
| Inventory.ComputedCost | kiill/mysite/src/admin/Inventory.jsx:60-66 | a product without a combo costs its own cost; a combo costs Σ (base cost or 0) × (qty or 1) |
| Inventory.BreakdownRows | kiill/mysite/src/admin/Inventory.jsx:10-20 | one row per component, in order |
| Inventory.BreakdownSumsToCost | kiill/mysite/src/admin/Inventory.jsx:13-65 | the breakdown rows sum to the combo's computed cost |
| Inventory.ComboCostsAgree | kiill/mysite/src/admin/Inventory.jsx:61-66 | with no zero quantities, the inventory cost and the POS combo cost agree |
| Inventory.ZeroQuantityDiffers | kiill/mysite/src/admin/Inventory.jsx:63 | a zero quantity counts once in the inventory and not at all at the POS |
| Inventory.ProfitMargin | kiill/mysite/src/admin/Inventory.jsx:68 | no margin when the price is 0; otherwise margin × price = (price − cost) × 100 |
| Inventory.ToggleExpanded | kiill/mysite/src/admin/Inventory.jsx:77 | clicking the open combo closes it; any other opens that one |
| Expenses.FormOf | kiill/mysite/src/admin/Expenses.jsx:22-31 | opening for edit pre-fills every field from the expense |
| Expenses.ExpensesPage.OpenModal | kiill/mysite/src/admin/Expenses.jsx:20-41 | edit pre-fills and records the id; add resets to a blank form with mode Cash and no id |
| Expenses.ExpensesPage.HandleSubmit | kiill/mysite/src/admin/Expenses.jsx:43-70 | a missing category or amount changes nothing; otherwise exactly one of edit (when an id is set) or add, each appending its one log with the category and parsed amount, then the form resets |
| Expenses.ExpensesPage.HandleDelete | kiill/mysite/src/admin/Expenses.jsx:72-76 | only a confirmed delete changes anything: it keeps, in order, exactly the expenses with other ids and appends one ExpenseDeleted log entry |
| Expenses.ExpensesPage.constructor | kiill/mysite/src/admin/Expenses.jsx:9-18 | closed dialog, blank form, no id |
| Expenses.ByCategoryFacts | kiill/mysite/src/admin/Expenses.jsx:78-82 | one key per category that occurs, each holding its category's sum, and together adding up to the total (`TotalExpenses`) |
| Expenses.HighestCategory | kiill/mysite/src/admin/Expenses.jsx:115-117 | "N/A" with no expenses; otherwise a category with the largest total, and no earlier category ties it |
| Dashboard.TodayFiguresAgree | kiill/mysite/src/admin/Dashboard.jsx:10-11 | the dashboard's sales and orders for the fixed date 2023-10-01 are the POS day total and transaction count (`CashierPOS.TodayStats`) for that date |
| Dashboard.LowStockCount | kiill/mysite/src/admin/Dashboard.jsx:12 | the count of products with stock < 25; it equals the catalogue size iff all are below 25 |
| Dashboard.PendingList | kiill/mysite/src/admin/Dashboard.jsx:149 | exactly the pending requests are listed |
| Dashboard.PendingCredits | kiill/mysite/src/admin/Dashboard.jsx:13 | the badge equals the pending list's length, 0 iff none is pending |
| Dashboard.ByMethodAndCashier | kiill/mysite/src/admin/Dashboard.jsx:16-27 | per-method and per-cashier sums each add up to the sales total, with one key per value that occurs |
| Dashboard.ActivityOfCashier | kiill/mysite/src/admin/Dashboard.jsx:30-38 | a cashier's orders are their sale count and their total is their sales' sum |
| Dashboard.MethodCountsAddUp | kiill/mysite/src/admin/Dashboard.jsx:30-38 | a cashier's per-method counts add up to their orders |
| Dashboard.RecentLogs | kiill/mysite/src/admin/Dashboard.jsx:119 | at most 10 logs, the last appended first |
| Dashboard.LogColumns | kiill/mysite/src/admin/Dashboard.jsx:119-124 | a row shows (`Actor`) the cashier when it is non-empty, else the user; by `ShowsAmount`, lines the store writes show no amount, seeded lines show theirs |
| Dashboard.UnitQty | kiill/mysite/src/admin/Dashboard.jsx:193-201 | `Math.ceil(weight \|\| 1)` |
| Dashboard.PlusThenMinus | kiill/mysite/src/admin/Dashboard.jsx:193-202 | + then − restores the catalogue, and − never makes stock negative |
| Dashboard.GenerateFromDashboard | kiill/mysite/src/admin/Dashboard.jsx:233-240 | the cashier defaults to "Any" when the name box is empty; a 30-minute code goes to the front, and exactly one admin "code generated" log is appended |
| CashierMySales.MySales | src/cashier/CashierMySales.jsx:16-22 | in today mode a sale is included iff it is dated the selected day and its cashier is the user's name |
| CashierMySales.NoUserNoSales | src/cashier/CashierMySales.jsx:18-22 | without a user nothing is included |
| CashierMySales.Stats | src/cashier/CashierMySales.jsx:36-50 | the count is the number of sales; average × count = total, and the average is 0 with none |
| CashierMySales.MethodFiguresAreTotals | src/cashier/CashierMySales.jsx:38-40 | the Cash, M-Pesa and Card sums are the per-method sums of exactly those names, and the per-method sums add up to the total |
| CashierMySales.PaymentMethodData | src/cashier/CashierMySales.jsx:53-57 | keeps exactly the methods with a positive sum, at most three |
| CashierMySales.BeforeColon | src/cashier/CashierMySales.jsx:63 | `split(':')[0]`: the prefix before the first colon |
| CashierMySales.SalesByHour | src/cashier/CashierMySales.jsx:60-74 | the forEach loop produces the per-hour sums of the timed sales, sorted by hour |
| CashierMySales.HourLabelReadsBack | src/cashier/CashierMySales.jsx:71-73 | `parseInt` of a label `${hour}:00` is the hour, so the comparator's order is the hours' order |
| CashierMySales.SalesByHourFacts | src/cashier/CashierMySales.jsx:60-74 | strictly ascending hours, an hour appears iff some sale has it, and the sums add up to the timed sales' total |
| CashierMySales.HourTotal | src/cashier/CashierMySales.jsx:64-66 | each hour's entry holds the sum of that hour's sales |
| CashierMySales.HourKeys | src/cashier/CashierMySales.jsx:62-66 | an hour is a key iff some timed sale has that hour |
| CashierMySales.PermutationKeepsTotal | src/cashier/CashierMySales.jsx:72-73 | sorting the entries keeps their total |
| CashierMySales.AscendingDistinctIsStrict | src/cashier/CashierMySales.jsx:72-73 | distinct hours sorted ascending are strictly ascending |
| CashierMySales.TopProducts | src/cashier/CashierMySales.jsx:77-92 | the nested loops produce the first five of the per-name quantity sums sorted descending |
| CashierMySales.TopProductsFacts | src/cashier/CashierMySales.jsx:77-92 | at most 5 distinct names in descending quantity; no left-out name outsells a kept one; each quantity is that name's summed quantity |
| CashierMySales.MyShifts | src/cashier/CashierMySales.jsx:95 | shifts carry no cashier, so a named user gets none (and with no user, `undefined === undefined` keeps all) |
| Sales.FilteredSales | src/admin/Sales.jsx:10-13 | "all" keeps every sale; otherwise exactly the sales whose lower-cased method equals the filter |
| Sales.FilteredAppend | src/admin/Sales.jsx:10-13 | the filter keeps order |
| Sales.Totals | src/admin/Sales.jsx:15-16 | the count is the filtered count; with "all" the figures are the overall ones |
| Sales.ShownAndHidden | src/admin/Sales.jsx:10-16 | shown plus hidden sums and counts give the overall figures |
| Sales.ExportData | src/admin/Sales.jsx:31-39 | one row per filtered sale, in order |
| Sales.ExportTotalsAgree | src/admin/Sales.jsx:15-39 | the exported totals sum to the shown total |
| Sales.IconFor | src/admin/Sales.jsx:18-29 | the icon is chosen on the lower-cased method, with a default for others |
| Sales.IconIgnoresCase | src/admin/Sales.jsx:18-29 | lower-casing the method first changes nothing |
| CreditApproval.StatusName | kiill/mysite/src/admin/CreditApproval.jsx:11-14 | the status strings are pending, approved and rejected |
| CreditApproval.StatusNameInjective | kiill/mysite/src/admin/CreditApproval.jsx:11-14 | distinct statuses have distinct names |
| CreditApproval.FilteredRequests | kiill/mysite/src/admin/CreditApproval.jsx:11-14 | "all" shows every request; otherwise exactly those whose status equals the filter |
| CreditApproval.FilteredAppend | kiill/mysite/src/admin/CreditApproval.jsx:11-14 | the filter keeps order |
| CreditApproval.UnknownFilterShowsNothing | kiill/mysite/src/admin/CreditApproval.jsx:11-14 | any other filter value shows nothing |
| CreditApproval.ShownCode | kiill/mysite/src/admin/CreditApproval.jsx:120 | the code shows iff the request is approved and has a code |
| CreditApproval.PendingViewFacts | kiill/mysite/src/admin/CreditApproval.jsx:120-210 | the pending view shows decision buttons (`ShowsDecisionButtons`) and no code; the rejected view shows neither |
| CreditApproval.ToggleCustomer | kiill/mysite/src/admin/CreditApproval.jsx:140 | clicking the selected customer deselects; any other selects it |
| CreditApproval.PanelFor | kiill/mysite/src/admin/CreditApproval.jsx:143-170 | the panel is open iff its customer is selected, and lists the history only when it is non-empty |
| CreditApproval.HistoryAlwaysEmpty | kiill/mysite/src/admin/CreditApproval.jsx:6-151 | the page never loads a history, so an open panel always shows the empty message |
| CreditRequestModal.CodeInput | kiill/mysite/src/cashier/CreditRequestModal.jsx:213-215 | the typed code is upper-cased and cut to 6 characters |
| CreditRequestModal.SubmittableCode | kiill/mysite/src/cashier/CreditRequestModal.jsx:213-268 | a code of length 6 is the first six typed characters, upper-cased |
| CreditRequestModal.CreditRequestDialog.constructor | kiill/mysite/src/cashier/CreditRequestModal.jsx:7-15 | step request, empty amount and reason, cashier "John Doe", no code, no result |
| CreditRequestModal.CreditRequestDialog.EditCode | kiill/mysite/src/cashier/CreditRequestModal.jsx:213-215 | the stored code is `CodeInput` of the typed text, and Verify is then enabled iff not loading and at least 6 characters were typed |
| CreditRequestModal.CreditRequestDialog.VerifyDisabled | kiill/mysite/src/cashier/CreditRequestModal.jsx:268 | Verify is enabled iff the code has 6 characters and nothing is loading |
| CreditRequestModal.CreditRequestDialog.SubmitRequest | kiill/mysite/src/cashier/CreditRequestModal.jsx:17-32 | sends the customer name and `parseInt` of the amount, and moves to verify when the server accepts |
| CreditRequestModal.CreditRequestDialog.VerifyAnswered | kiill/mysite/src/cashier/CreditRequestModal.jsx:34-57 | the result is stored (a failed call counts as invalid), and a close is scheduled only for a valid one |
| CreditRequestModal.CreditRequestDialog.CloseAfterApproval | kiill/mysite/src/cashier/CreditRequestModal.jsx:42-49 | after a valid result the dialog resets to its fresh state |
| CreditRequestModal.CreditRequestDialog.Close | kiill/mysite/src/cashier/CreditRequestModal.jsx:59-65 | closing resets step, form, code and result |
| CreditRequestModal.CreditRequestDialog.Back | kiill/mysite/src/cashier/CreditRequestModal.jsx:258 | Back returns to the request step and keeps the typed code |
| CreditRequestModal.CreditRequestDialog.Banner | kiill/mysite/src/cashier/CreditRequestModal.jsx:230-249 | no banner without a result; the approval text iff the result is valid |
| CreditRequestModal.CreditRequestDialog.EditAmount | kiill/mysite/src/cashier/CreditRequestModal.jsx:137 | the typed amount is stored |
| CreditRequestModal.CreditRequestDialog.EditReason | kiill/mysite/src/cashier/CreditRequestModal.jsx:155 | the typed reason is stored |
| ShiftManagement.JsRem | kiill/mysite/src/cashier/components/ShiftManagement.jsx:34 | JavaScript `%`: the sign follows the dividend and the magnitude is \|a\| mod b |
| ShiftManagement.Duration | kiill/mysite/src/cashier/components/ShiftManagement.jsx:28-35 | no current shift gives 0h 0m |
| ShiftManagement.DurationParts | kiill/mysite/src/cashier/components/ShiftManagement.jsx:32-34 | for a non-negative difference the minutes are 0..59 and hours·60 + minutes = ⌊diff / 60000⌋ |
| ShiftManagement.DurationText | kiill/mysite/src/cashier/components/ShiftManagement.jsx:29-35 | the zero duration reads "0h 0m" |
| ShiftManagement.ShiftPanel.HandleStartShift | kiill/mysite/src/cashier/components/ShiftManagement.jsx:13-18 | starts a shift with the parsed opening float, appends exactly its one start log, clears the input and shows the active panel (`ShowsActive`) |
| ShiftManagement.ShiftPanel.HandleEndShift | kiill/mysite/src/cashier/components/ShiftManagement.jsx:20-26 | with a current shift, ends it with both parsed closing figures and appends exactly its one end log; without one the shifts and logs are unchanged; both inputs are cleared and the active panel goes |
| ShiftManagement.ShiftPanel.constructor | kiill/mysite/src/cashier/components/ShiftManagement.jsx:7-11 | both dialogs closed, all inputs empty |
| NotificationBell.UnreadCount | kiill/mysite/src/cashier/components/NotificationBell.jsx:8 | the number of unread notifications; 0 iff all are read; unread + read = all |
| NotificationBell.AddRaisesCount | kiill/mysite/src/cashier/components/NotificationBell.jsx:8 | a new notification raises the count by one |
| NotificationBell.Badge | kiill/mysite/src/cashier/components/NotificationBell.jsx:44-60 | hidden at 0, "9+" iff above 9, otherwise the count's digits |
| NotificationBell.IconFor | kiill/mysite/src/cashier/components/NotificationBell.jsx:10-19 | success and warning icons by type, info otherwise |
| NotificationBell.ClickRequest | kiill/mysite/src/cashier/components/NotificationBell.jsx:21-25 | a click asks to mark read iff the notification is unread |
| CashierSettings.ProfileUpdates | kiill/mysite/src/cashier/CashierSettings.jsx:19-23 | the save sends only name, username and email |
| CashierSettings.ProfileSaveKeepsOthers | kiill/mysite/src/cashier/CashierSettings.jsx:19-23 | every other profile key survives a save |
| CashierSettings.NextTheme | kiill/mysite/src/cashier/CashierSettings.jsx:41-42 | light goes to dark; anything else goes to light |
| CashierSettings.ToggleTwice | kiill/mysite/src/cashier/CashierSettings.jsx:40-43 | toggling twice restores a light or dark theme |
| CashierSettings.SettingsForm.constructor | kiill/mysite/src/cashier/CashierSettings.jsx:7-15 | the form starts from the profile, empty passwords, no message |
| CashierSettings.SettingsForm.HandleProfileUpdate | kiill/mysite/src/cashier/CashierSettings.jsx:17-26 | merges the three fields into the profile and shows success |
| CashierSettings.SettingsForm.HandlePasswordChange | kiill/mysite/src/cashier/CashierSettings.jsx:28-38 | a mismatch shows an error and clears nothing; a match shows success and clears exactly the three password fields |
| CashierSettings.SettingsForm.HandleThemeToggle | kiill/mysite/src/cashier/CashierSettings.jsx:40-43 | the stored theme becomes `NextTheme` of the old one |
| AuthContext.OrDefault | src/context/AuthContext.jsx:11-26 | `x \|\| fallback` on strings |
| AuthContext.PasswordRole | src/context/AuthContext.jsx:10 | admin iff the first character is D, cashier iff it is C (case-sensitive), guest otherwise |
| AuthContext.LoginProfile | src/context/AuthContext.jsx:8-14 | nothing for a missing or empty password; otherwise name (default "User"), role and an empty avatar |
| AuthContext.ExpectedPrefix | src/context/AuthContext.jsx:19 | D for admin, C for every other role |
| AuthContext.CodeProfile | src/context/AuthContext.jsx:16-34 | an empty code throws; null iff the upper-cased first character is not the expected prefix; otherwise the profile with the role and the code |
| AuthContext.CodePrefixDecides | src/context/AuthContext.jsx:18-23 | for a non-empty code, success depends only on the prefix and the role |
| AuthContext.Merged | src/context/AuthContext.jsx:38 | updates win over the current user (or over {}) and other keys survive |
| AuthContext.AuthProvider.Login | src/context/AuthContext.jsx:8-14 | the user changes only when a profile is returned |
| AuthContext.AuthProvider.VerifyCode | src/context/AuthContext.jsx:16-34 | the user changes only on success |
| AuthContext.AuthProvider.Logout | src/context/AuthContext.jsx:36 | the user becomes null |
| AuthContext.AuthProvider.UpdateProfile | src/context/AuthContext.jsx:38 | the user becomes the merge |
| AuthContext.AuthProvider.constructor | src/context/AuthContext.jsx:6 | no user |
| VerifyCodePage.PrefixRole | src/pages/VerifyCode.jsx:39 | D maps to admin, C to cashier |
| VerifyCodePage.PageNeverFailsVerification | src/pages/VerifyCode.jsx:30-50 | the role derived from an accepted prefix is one that `verifyCode` accepts |
| VerifyCodePage.HandleSubmit | src/pages/VerifyCode.jsx:14-55 | no user data goes to /login; a blank code or a bad prefix sets an error without calling `verifyCode`; otherwise navigation to /admin or /cashier, never the failure message |
| Register.EmailPatternIff | src/pages/Register.jsx:21 | the email regex holds iff the text splits into non-empty local part, domain and suffix without spaces or @ |
| Register.HandleSubmit | src/pages/Register.jsx:11-37 | any blank field gives the fill-in error; a bad email the email error; success carries the trimmed name and email and the untrimmed password |
| Register.RegisterThenVerify | src/pages/Register.jsx:28-36 | registered data with an accepted code reaches a dashboard on the verify page |
| Register.AcceptedEmailIsTrimmed | src/pages/Register.jsx:21-30 | an email the regex accepts is unchanged by trim |
| AppRoutes.HomeFor | src/routes/App.jsx:35 | /admin iff the role is admin, /cashier otherwise |
| AppRoutes.Guard | src/routes/App.jsx:32-39 | a null user goes to /login; the page renders iff there is no required role or it matches; otherwise redirect home |
| AppRoutes.GuardSettles | src/routes/App.jsx:32-82 | an admin or cashier redirected from one area lands where their own guard renders |
| AppRoutes.OtherRolesLoop | src/routes/App.jsx:35-75 | any other role is sent to /cashier even by the /cashier guard |
| AppRoutes.PublicAuthPage | src/routes/App.jsx:52-53 | /login and /register render only without a user and otherwise redirect by role |
| AppRoutes.CatchAll | src/routes/App.jsx:42-85 | a path renders a page iff some route of the table matches it as React Router v6 matches (ignoring case, any number of trailing '/'); every other path goes to / |
| AppRoutes.RouteKeyMatches | src/routes/App.jsx:42-85 | for a route written as "/" or without a trailing '/', the router's match holds iff the path's lower-cased key without trailing slashes is that route |
| AppRoutes.CatchAllIgnoresCaseAndTrailingSlash | src/routes/App.jsx:42-85 | appending a '/' to a non-empty path or upper-casing it never changes whether the catch-all redirects |
| AppRoutes.CatchAllExamples | src/routes/App.jsx:42-85 | "/about/" and "/Admin" render their routes; "/nowhere" goes to / |
| DoctorsDashboard.SetStatus | medbeta/src/pages/DoctorsDashboard.jsx:42-47 | only the appointment with the id takes the action as status |
| DoctorsDashboard.AppointmentsCount | medbeta/src/pages/DoctorsDashboard.jsx:101 | the number of confirmed appointments on the date |
| DoctorsDashboard.ConfirmCounts | medbeta/src/pages/DoctorsDashboard.jsx:42-101 | confirming one unconfirmed appointment raises its date's count by one and leaves other dates alone |
| DoctorsDashboard.ConsultationBlankIff | medbeta/src/pages/DoctorsDashboard.jsx:57-58 | a consultation is rejected iff notes, lab orders and prescriptions are all blank after trim |
| DoctorsDashboard.RecordPatient | medbeta/src/pages/DoctorsDashboard.jsx:62 | the patient defaults to "New Patient" without a selected booking |
| DoctorsDashboard.RequestAlert | medbeta/src/pages/DoctorsDashboard.jsx:72-80 | a blank lab order or prescription gives that button's reminder and only then; otherwise the alert is that button's heading ("Lab request sent:" or "Pharmacist request sent:" and a newline) followed by the text as typed |
| DoctorsDashboard.FilteredRecords | medbeta/src/pages/DoctorsDashboard.jsx:92-98 | a blank query lists local then remote records; otherwise those whose lower-cased patient or notes includes the trimmed lower-cased query |
| DoctorsDashboard.CalendarDate | medbeta/src/pages/DoctorsDashboard.jsx:282-283 | "2025-10-" and the day in two zero-padded digits |
| DoctorsDashboard.CalendarDatesDistinct | medbeta/src/pages/DoctorsDashboard.jsx:282-283 | different days give different labels |
| DoctorsDashboard.DoctorDashboard.HandleAppointmentAction | medbeta/src/pages/DoctorsDashboard.jsx:42-47 | the list becomes `SetStatus`, the modal closes, and the alert names the patient |
| DoctorsDashboard.DoctorDashboard.HandleSaveRecord | medbeta/src/pages/DoctorsDashboard.jsx:57-68 | a blank consultation changes nothing; otherwise exactly one record is prepended and the three fields are cleared |
| DoctorsDashboard.DoctorDashboard.FetchRemoteRecords | medbeta/src/pages/DoctorsDashboard.jsx:84-89 | a non-blank key replaces the remote records with the fixed list; a blank key changes nothing |
| DoctorsDashboard.DoctorDashboard.constructor | medbeta/src/pages/DoctorsDashboard.jsx:8-40 | the seeded appointments and empty records and fields |
| PharmacistDashboard.MarkDone | medbeta/src/pages/PharmacistDashboard.jsx:44-50 | only the prescription with the id becomes Done, with the current pharmacist |
| PharmacistDashboard.Queue | medbeta/src/pages/PharmacistDashboard.jsx:123 | exactly the pending prescriptions |
| PharmacistDashboard.MarkDoneLeavesQueue | medbeta/src/pages/PharmacistDashboard.jsx:44-123 | after marking, the queue is the old queue without that id |
| PharmacistDashboard.HistoryLabel | medbeta/src/pages/PharmacistDashboard.jsx:143-146 | "Unassigned" without a pharmacist |
| PharmacistDashboard.MarkDoneLabel | medbeta/src/pages/PharmacistDashboard.jsx:44-146 | a marked prescription carries the pharmacist's name and leaves the queue |
| PharmacistDashboard.NextTheme | medbeta/src/pages/PharmacistDashboard.jsx:42 | blue goes to black; anything else goes to blue |
| PharmacistDashboard.PharmacistPage.HandleLogin | medbeta/src/pages/PharmacistDashboard.jsx:25-29 | a blank trimmed name is refused; otherwise the untrimmed name and logged in |
| PharmacistDashboard.PharmacistPage.HandleLogout | medbeta/src/pages/PharmacistDashboard.jsx:35-40 | clears the login, name input, picture and pharmacist |
| PharmacistDashboard.PharmacistPage.ToggleTheme | medbeta/src/pages/PharmacistDashboard.jsx:42 | the theme becomes `NextTheme` of the old one |
| PharmacistDashboard.PharmacistPage.HandleMarkDone | medbeta/src/pages/PharmacistDashboard.jsx:44-50 | the list becomes `MarkDone` with the current name |
| PharmacistDashboard.PharmacistPage.constructor | medbeta/src/pages/PharmacistDashboard.jsx:8-23 | logged out, blue theme, the seeded prescriptions |
| LabDashboard.Complete | medbeta/src/pages/LabDashboard.jsx:60-64 | only requests with the id become Completed |
| LabDashboard.CompleteTwice | medbeta/src/pages/LabDashboard.jsx:60-155 | completing is idempotent and removes the Complete button (`ShowsComplete`) from that request |
| LabDashboard.PatientName | medbeta/src/pages/LabDashboard.jsx:66 | the first match's name, or undefined iff no patient has the id |
| LabDashboard.DoctorName | medbeta/src/pages/LabDashboard.jsx:67 | the first match's name, or undefined iff no doctor has the id |
| LabDashboard.LabPage.HandleLogin | medbeta/src/pages/LabDashboard.jsx:38-42 | a blank trimmed name is refused; otherwise the trimmed name and logged in |
| LabDashboard.LabPage.HandleLogout | medbeta/src/pages/LabDashboard.jsx:44-47 | clears the login, the technician fields and the name input |
| LabDashboard.LabPage.CompleteTest | medbeta/src/pages/LabDashboard.jsx:60-64 | the list becomes `Complete` of the old one |
| LabDashboard.LabPage.constructor | medbeta/src/pages/LabDashboard.jsx:7-35 | logged out, with the seeded test requests |
| PatientDashboard.FilteredDoctors | medbeta/src/pages/PatientDashboard.jsx:130-135 | empty unless a known hospital is selected; otherwise its doctors whose lower-cased name+specialty includes the lower-cased term |
| PatientDashboard.EmptySearchListsAll | medbeta/src/pages/PatientDashboard.jsx:130-135 | an empty term lists every doctor of the hospital |
| PatientDashboard.SearchIgnoresCase | medbeta/src/pages/PatientDashboard.jsx:133 | lower-casing the term first changes nothing |
| PatientDashboard.LastVisit | medbeta/src/pages/PatientDashboard.jsx:185 | null iff there are no appointments, else the first appointment of the list (the latest booking, since bookings are prepended) |
| PatientDashboard.Booked | medbeta/src/pages/PatientDashboard.jsx:149-157 | exactly one appointment with the doctor's name and specialty, the hospital and the date goes in front of the old list |
| PatientDashboard.BookingIsLastVisit | medbeta/src/pages/PatientDashboard.jsx:157-185 | a booking becomes the last visit and every earlier one is kept |
| PatientDashboard.PatientPage.BookAppointment | medbeta/src/pages/PatientDashboard.jsx:148-164 | the list becomes `Booked`, and the modal closes with no selection |
| PatientDashboard.PatientPage.SelectHospital | medbeta/src/pages/PatientDashboard.jsx:301-304 | a new hospital clears the selected doctor |
| PatientDashboard.PatientPage.OpenBook | medbeta/src/pages/PatientDashboard.jsx:167-170 | the doctor is selected with its hospital and the modal opens |
| PatientDashboard.PatientPage.CancelBooking | medbeta/src/pages/PatientDashboard.jsx:405-408 | cancel closes the modal and clears the selection |
| PatientDashboard.PatientPage.constructor | medbeta/src/pages/PatientDashboard.jsx:33-41 | no hospital, no term, no selection, the stored appointments |
| LoginForm.HandleLogin | medbeta/src/components/LoginForm.jsx:10-21 | an empty id or name is refused first; otherwise it navigates iff the lower-cased id starts with `role[0]`, storing role and name and going to `/${role}-dashboard`; an empty role throws in the alert |
| LoginForm.RolePrefix | medbeta/src/components/LoginForm.jsx:14 | `startsWith(role[0])` searches for the role's first character, or for the text "undefined" on an empty role |
| LoginForm.DashboardPath | medbeta/src/components/LoginForm.jsx:20 | "/" + role + "-dashboard" |
| LoginForm.PrefixEitherCase | medbeta/src/components/LoginForm.jsx:14 | for a lower-case role, an id passes iff its first letter is the role's first letter in either case |
| LoginForm.UpperRoleNeverLogsIn | medbeta/src/components/LoginForm.jsx:14 | a role starting with a capital letter admits no id |
| PrivateRoute.Guard | medbeta/src/routes/PrivateRoute.jsx:10-19 | no stored role goes to /auth; a different role goes to /; an equal role renders; exactly one holds |
| PrivateRoute.LoginOpensOwnDashboard | medbeta/src/components/LoginForm.jsx:18-20 | the role stored by a successful login opens its own guard and no other |
| Tally.TallyLoop | kiill/mysite/src/admin/Dashboard.jsx:16-27 | the accumulator loop builds the per-key sums: their total is the sum of the values and no key repeats |
| Tally.HighestKey | kiill/mysite/src/admin/Expenses.jsx:115-117 | none for an empty dictionary; otherwise the first key with the largest value |
| Sorting.SortBy | src/cashier/CashierMySales.jsx:73-90 | `sort` by a rank: same length, same elements, sorted |
| Sorting.SortByStable | src/cashier/CashierMySales.jsx:73-90 | entries of equal rank keep their order |
| Sorting.Take | src/cashier/CashierMySales.jsx:91 | `slice(0, n)`: a prefix of length min(n, size) |
| Text.IntToString | kiill/mysite/src/cashier/ProductGrid.jsx:36 | `toString` of an integer parses back to it |
| Text.ParseIntOfHex | kiill/mysite/backend/routes/credit.js:54 | `parseInt` without a radix reads `0x` followed by hexadecimal digits in base 16 |
| Text.ParseIntBeforeStop | src/cashier/CashierMySales.jsx:73 | `parseInt` stops at the first character that is not a digit, so a rendered integer followed by such text reads back the integer |
| Text.ParseAmount | kiill/mysite/src/admin/Expenses.jsx:53 | `parseFloat`: no value iff there is no mantissa digit; otherwise the whole part of the exact decimal value, exponent included |
| Text.AmountComparison | kiill/mysite/src/cashier/PaymentModal.jsx:42-50 | comparing the rounded-down amount with a whole number agrees with comparing the exact amount |
| Text.ParseAmountExponent | kiill/mysite/src/cashier/components/ShiftManagement.jsx:15 | digits `e` digits parses to the mantissa times the power of ten |
| Text.TrimEmptyIffBlank | medbeta/src/pages/LabDashboard.jsx:39 | `trim()` is empty iff the text is all whitespace |
| Text.ContainsIff | kiill/mysite/src/cashier/ProductGrid.jsx:19 | `includes` holds iff the text occurs at some position |

## Left out

- Network calls in the client store are I/O and are not modelled: fetching requests, and adding, approving, rejecting, verifying and reading history. The server side is modelled from the credit route instead. Express status codes other than 201 and 404 are not modelled.
- The credit dialog's network answers are parameters: whether the request was accepted, and the verify reply.
- The POS screens' own `DataContext` (`kiill/mysite/src/context/DataContext.jsx`) is not part of this model. Those screens are modelled against the `src` store.
- `updateCartQuantity`, `markNotificationRead` and `clearNotifications` are not provided by the store shown. The screens' requests are modelled (`Cart.QuantityChange`, `NotificationBell.ClickRequest`, `NotificationBell.ShowsClearAll`), but not their effect.
- Timers are not modelled: notification auto-removal after 3 seconds, the dialog's 2-second close delay (`CloseAfterApproval` is the reset it runs), message resets, and the barcode debounce (`ScanTimerFired` is what the timer runs).
- Randomness and clocks are parameters. Minted codes are any 6-character A-Z0-9 text, with no uniqueness. Each operation takes one clock reading, so all logs of one payment share it.
- localStorage, FileReader and `createObjectURL` are not modelled. The clinic pages start from their seed values, or from given stored appointments.
- Date parsing, `toISOString`, `toLocaleString` and `toDateString` are not modelled. Start and end times arrive as milliseconds or as text.
- Week and month filters of the sales history and the expense tracker's date filters are not modelled. Only the "today" mode is.
- Floating point is not modelled. Amounts are whole shillings: `parseFloat` reads the exact decimal value (fraction and exponent included) and the model rounds it down, with `NaN` as `None`. A comparison of such an amount with a whole number agrees with the exact one (`Text.AmountComparison`). The `toFixed` percentage margins and the kilogram rounding of the dashboard are left out.
- Text.ParseAmount: `Infinity`, overflow such as `1e400` and double-precision rounding are not modelled; the exact decimal value is rounded down.
- PaymentModal.PaymentModal.HandlePayment: each split amount is rounded down before the amounts are summed, and the recorded change loses its fraction.
- Expenses.ExpensesPage.HandleSubmit: an amount that does not parse gives `UnreadableAmount` and stores nothing. The source would store `NaN`.
- CashierMySales.SalesByHour: sales whose time yields no hour are left out. The source would bucket them under `NaN`.
- JavaScript objects used as dictionaries keep insertion order in the model. The engine lists integer-like keys first: the hours of `salesByHour` are such keys, and the model's order is still the source's because the source then sorts by hour (src/cashier/CashierMySales.jsx:73); the other dictionaries are keyed by names.
- CreditRoutes.Submit: a customer named after an `Object.prototype` member (`toString`, `constructor`, `valueOf`, `hasOwnProperty`, `__proto__`) finds an inherited value instead of a missing list; the source then stores the request, fails on `push` and answers 500 with no history entry. The model treats every name as absent at first.
- CreditRoutes.CreditRouter.PostRequest: for those prototype-member names the model answers 201 where the source answers 500 after storing the request.
- CreditRoutes.Decide: for a request whose customer has such a name the source changes the status (and code) and then fails on the history lookup with a 500; the model also updates the history and answers 200.
- CreditRoutes.CreditRouter.ApproveRequest: the same prototype-member case as `Decide`.
- CreditRoutes.CreditRouter.RejectRequest: the same prototype-member case as `Decide`.
- CreditRoutes.CreditRouter.CustomerHistory: for a prototype-member name with no requests the source answers with the inherited member, not `[]`.
- DataContext.DataStore.constructor: the profile is a map of text fields, so the seeded `profilePicture: null` is absent from it rather than null.
- AppRoutes.CatchAll: percent-encoded characters in the location are not decoded before matching, and the path is taken as given (no base name).
- Case mapping (`toLowerCase`/`toUpperCase`) is ASCII only; `trim` removes the full ECMAScript whitespace and line-terminator set.
- Rendering, charts, the map, PDF export, printing, clipboard, and `alert`/`confirm`/`prompt` are not modelled. A confirmation is a parameter.
- PatientDashboard settings (next of kin, password, picture) are left out: they only write localStorage.
- AdminDashboard, OTPVerification, PatientAuth, the layouts and the static pages are not modelled. They hold no logic beyond fetches, timers or storage writes.
