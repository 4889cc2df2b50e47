# Inventory and transaction engine of the web-kasir till

A Dafny model of the engine inside the web-kasir point-of-sale page (`app.js`). The page keeps one in-memory
database `db`, which holds three things: the product catalog, the transaction log and the sale cart. Its event
handlers are listed below. Saving, deleting, moving stock and paying change this database only after the
Firestore store has accepted the change. Scanning and removing a cart line never call the store. The handlers are:

- saving and deleting products;
- receiving (IN) and issuing (OUT) stock;
- scanning a code into the cart, and removing a cart line;
- paying, which sends the transaction and the new stock figures to the store as one batch.

The dashboard is derived from the same state:

- today's transactions, their count and takings;
- the five best sellers of the day;
- the reorder list;
- a date filter over the log.

Amounts print in the `rupiah` format.

Modules, one per part of the engine:

| module | file | what it holds |
|---|---|---|
| `Basics` | basics.dfy | `Option`, the outcome of a handler (`Ok` or `Fail(reason)`), and an order-keeping `Filter` (the model of `Array.prototype.filter`) with its lemmas |
| `Money` | money.dfy | decimal digits of a number, dot grouping, `Rupiah`, and a reader that inverts it |
| `Catalog` | catalog.dfy | products, lookup by code, save, delete, the reorder list, total stock |
| `Ledger` | ledger.dfy | stock movements (`handleStockUpdate`) and series of them |
| `Cart` | cart.dfy | cart lines and their totals, scan, line removal |
| `Sales` | sales.dfy | checkout: the transaction, the commit batch, the local stock update after the commit |
| `Dashboard` | dashboard.dfy | today's transactions, `salesCount`, the stable ranking, the best-seller list |
| `History` | history.dfy | the date-range filter of the transaction history |
| `Engine` | engine.dfy | class `Till`: the database, with one method per handler |

Every handler is first written as a function from the old state to the new one. Each handler that can fail
returns an `Update`, which pairs the outcome with the new state. The store's answer is a parameter of the
handlers that call the store. Removing a cart line cannot fail and returns the new cart alone, and a scan
never calls the store. All properties are proved about these functions. The class
`Engine.Till` then performs each handler imperatively on its fields, as `app.js` does. Each method's `ensures`
says that its outcome and new state are exactly what the function gives. Each method also keeps the
database invariant `Valid()`:

- product codes are unique;
- cart keys are unique;
- every logged total equals the sum over its items.

Outside effects become parameters:

- `stored` / `committed` is whether the Firestore write, delete or batch commit succeeded;
- `confirmed` is the answer to `confirm(...)`;
- `stamp` is `Date.now()`;
- `date` is `new Date().toISOString()`;
- `today` is its first ten characters.

The model keeps these behaviours of the code:

- Checkout does not compare the cart with the stock again. A stock issue between scan and payment can
  therefore drive a stock negative (`Sales.CheckoutAfterIssueOversells`). A checkout keeps stock non-negative
  exactly when every line still fits its product's stock. `Sales.CheckoutKeepsNonNegative` proves one
  direction, and `Sales.CheckoutOversells` proves that any line beyond its stock leaves a negative stock.
- Deleting a code that the catalog does not hold is not an error.
- Saving does not check the stock, so a negative stock can be saved.
- An edit whose product is missing from the local catalog still reports success and changes nothing locally.
- A line already in the cart keeps the price copied when it was created, even if the product's price has
  been edited since.
- The insert path's duplicate check asks the store whether the document exists. The model asks the local
  catalog instead.

## Model

| member | source | states |
|---|---|---|
| Basics.Filter | app.js:68 | `Array.prototype.filter`, used for today's transactions, the reorder list, deletion and the date filter; never longer than its input. `Basics.FilterMembers` proves it keeps exactly the elements that pass, and `Basics.FilterAppend` that it keeps their order |
| Money.Digits | app.js:14 | `n.toString()` of a non-negative integer is a non-empty string of decimal digits with no leading zero |
| Money.ValueOfDigits | app.js:14 | reading the digits back gives the number |
| Money.UngroupGroup | app.js:14 | the dot grouping only inserts separators: removing them gives back the digits |
| Money.Group | app.js:14 | the dot grouping `replace(/\B(?=(\d{3})+(?!\d))/g, '.')`; its properties are proved by `Money.UngroupGroup` and `Money.GroupLayout` |
| Money.GroupLayout | app.js:14 | the grouped string has one dot per three digits, placed exactly at positive multiples of four from the end, and digits everywhere else |
| Money.Rupiah | app.js:14 | `rupiah(n)`: `"Rp "`, a minus sign for a negative amount, then the grouped digits of its magnitude; `Money.RupiahRoundTrip` proves that it loses no information |
| Money.RupiahRoundTrip | app.js:14 | `rupiah(n)` is readable: `ParseRupiah(Rupiah(n)) == Some(n)` for every integer, sign included |
| Catalog.FindIndex | app.js:270 | `db.products.find` returns the first product with the code, and nothing exactly when no product has it |
| Catalog.Save | app.js:249-294 | rejects a missing code or name, or a price ≤ 0, with no change, and never checks the stock; an insert whose code exists is rejected with no change; success exactly when valid, stored and not a duplicate insert; an insert appends the product; an edit keeps every code in place; a failed store write changes nothing |
| Catalog.SaveEdit | app.js:268-272 | an edit overwrites name, price and stock of the product with the edited code and leaves every other product as it was |
| Catalog.SaveKeepsUnique | app.js:273-282 | saving never creates a duplicate code |
| Catalog.Delete | app.js:311-323 | nothing happens without confirmation or when the store delete fails; otherwise the result holds exactly the catalog's products with another code |
| Catalog.DeleteAt | app.js:315 | deleting the product at position i of a duplicate-free catalog gives `ps[..i] + ps[i+1..]`: the others keep their order |
| Catalog.DeleteAbsent | app.js:315 | deleting a code the catalog does not hold changes nothing |
| Catalog.DeleteKeepsUnique | app.js:315 | deleting keeps codes unique |
| Catalog.ReorderList | app.js:100 | the reorder list holds exactly the products with stock ≤ `REORDER_LEVEL` (5) |
| Catalog.ReorderListAppend | app.js:100 | the reorder list keeps catalog order |
| Catalog.TotalStock | app.js:71 | the dashboard's `reduce` over the stock; `Catalog.TotalStockSet` and `Ledger.MoveTotalStock` prove how it moves |
| Catalog.TotalStockSet | app.js:71 | changing one stock moves the total stock by the difference |
| Ledger.Move | app.js:326-352 | checks run in the source's order: unknown code, then quantity ≤ 0, then an OUT beyond the stock, then the store write; any failure changes nothing; on success only the found product's stock changes, to stock + qty (IN) or stock − qty (OUT) |
| Ledger.MoveKeepsNonNegative | app.js:334-339 | a movement never makes a non-negative catalog negative |
| Ledger.MoveTotalStock | app.js:334-343 | an accepted IN adds qty to the total stock and an accepted OUT subtracts it |
| Ledger.ReplayKeepsNonNegative | app.js:326-352 | no series of receipts and issues drives any stock below zero |
| Ledger.ReplayKeepsCodes | app.js:326-352 | movements never add, remove or reorder products |
| Cart.LineIndex | app.js:364 | `db.cart[code]` finds the line under that key, and nothing exactly when there is none |
| Cart.QtyOf | app.js:365 | `cartItem ? cartItem.qty : 0`; `Cart.ScanCounts`, `Cart.RemoveLineKeepsOthers` and `Sales.ApplySaleStock` state its changes |
| Cart.Scan | app.js:357-374 | a blank code does nothing; an unknown code is refused; refused when the cart already holds the whole stock; otherwise a line's qty goes up by one with the other lines untouched, or a line with qty 1 copying code, name and price is appended; failures change nothing |
| Cart.ScanCounts | app.js:364-371 | an accepted scan adds exactly one unit of the code, never beyond the stock, leaves every other code's quantity alone and keeps keys unique |
| Cart.ScanTotal | app.js:367-371 | an accepted scan adds one unit price to the cart total: that of the existing line, or the product's for a new line |
| Cart.ScanKeepsFit | app.js:364-365 | scanning keeps every line within its product's stock |
| Cart.RemoveLine | app.js:379-384 | after `delete db.cart[code]` the key is absent and exactly the other lines remain |
| Cart.RemoveAbsentLine | app.js:381 | removing an absent key is a no-op |
| Cart.RemoveLineIdempotent | app.js:381 | removing a line twice is removing it once |
| Cart.RemoveLineAt | app.js:381 | in a cart with unique keys, removing the key of line j gives `cart[..j] + cart[j+1..]`: the other lines keep their order |
| Cart.RemoveLineKeepsOthers | app.js:381 | removing one key keeps the others' quantities and the keys unique |
| Cart.TotalAppend | app.js:389 | the cart total is additive over concatenation |
| Cart.Total | app.js:389 | the pay handler's `reduce` of price × qty over the cart; `Cart.TotalAppend` and `Cart.ScanTotal` prove how it adds up |
| Sales.TxIdInjective | app.js:390 | distinct clock readings give distinct transaction ids `'TX' + Date.now()` |
| Sales.TxId | app.js:390 | `'TX' + Date.now()`; `Sales.TxIdInjective` proves distinct stamps give distinct ids |
| Sales.WriteFor | app.js:408-412 | the batch entry of one line: the product's stock minus the line's qty, or none when the product is gone; `Sales.WriteForElsewhere` proves it ignores other lines' deductions |
| Sales.Batch | app.js:406-413 | the stock updates of the batch in cart order; `Sales.BuildBatch` computes it and `Sales.BatchMatchesSale` relates it to the local update |
| Sales.BuildBatch | app.js:406-413 | the batch loop emits, in cart order, one stock write per line whose product exists, with the product's stock minus the line's qty |
| Sales.DeductSold | app.js:418-421 | the loop after the commit lowers the stock of each line's product in cart order, skipping lines whose product is gone |
| Sales.Deduct | app.js:420 | `product.stock -= db.cart[code].qty` for one line, skipping a missing product; `Sales.DeductElsewhere` proves it touches only that product |
| Sales.ApplySale | app.js:418-421 | the local stock update after the commit; `Sales.DeductSold` computes it and `Sales.ApplySaleStock` proves its effect on each product |
| Sales.BatchMatchesSale | app.js:401-421 | the store after applying the batch holds exactly the catalog the local update produces |
| Sales.ApplySaleStock | app.js:418-421 | each product's stock drops by exactly its cart quantity, and nothing else about any product changes |
| Sales.ApplySaleNonNegative | app.js:418-421 | a non-negative catalog, with every line within its product's stock, stays non-negative after the local update |
| Sales.ApplySaleNeedsFit | app.js:418-421 | the converse: if the local update leaves no stock negative, every line was within its product's stock |
| Sales.Checkout | app.js:386-434 | an empty cart does nothing, and neither does a dismissed confirmation; a failed commit leaves products, log and cart unchanged; success exactly when non-empty, confirmed and committed, and then the transaction (id, date, items = cart, total = Σ price·qty) is appended to the end of the log, the stock drops by the local update and the cart is emptied |
| Sales.CheckoutEffect | app.js:386-434 | after a successful checkout each product's stock is down by its cart quantity, the new transaction's total is the sum over its items, and the stored catalog equals the local one |
| Sales.CheckoutKeepsNonNegative | app.js:386-434 | a checkout of a cart that fits the stock keeps every stock non-negative |
| Sales.CheckoutOversells | app.js:386-434 | checkout does not re-check the stock, so a successful payment of a cart with a line beyond its product's stock always leaves a negative stock |
| Sales.TwoScansScenario | app.js:357-434 | with A at 3500 and 2 in stock, two scans pass and a third is refused; payment records 7000, leaves A at 0 and empties the cart; a failed commit changes nothing |
| Sales.CheckoutAfterIssueOversells | app.js:406-421 | the batch and the local update take cart quantities from stock without a check, so a stock issue between the scans and the payment lets the payment drive the stock to −1 |
| Dashboard.OnDay | app.js:68 | the test `t.date && t.date.startsWith(today)`; `Dashboard.TodayTxs` states which transactions pass it |
| Dashboard.SalesTotal | app.js:73 | the `reduce` over today's totals; `Dashboard.TodayAppend` and `Dashboard.CheckoutRaisesTodaySales` prove how it moves |
| Dashboard.TodayTxs | app.js:67-68 | today's transactions are exactly those whose date is present and starts with today's prefix |
| Dashboard.TodayAppend | app.js:67-73 | logging a transaction dated today adds one to the count and its total to the takings, in log order; one dated otherwise changes neither |
| Dashboard.CheckoutRaisesTodaySales | app.js:72-73 | a successful checkout dated today raises the count by one and the takings by the cart total |
| Dashboard.Tally | app.js:75-80 | the accumulation loop computes `salesCount` |
| Dashboard.Bump | app.js:78 | adding an item's qty to `salesCount[code]`, which starts at 0 for a new code; `Dashboard.BumpQty` and `Dashboard.BumpCodes` state its effect |
| Dashboard.CountItems | app.js:77-79 | the inner loop over one transaction's items; `Dashboard.CountItemsQty` proves it adds each item's units to its code |
| Dashboard.CountTxs | app.js:76-80 | the outer loop over today's transactions; `Dashboard.CountTxsQty` proves it adds the units of every transaction |
| Dashboard.SalesCount | app.js:75-80 | `salesCount` built from an empty object; `Dashboard.Tally` computes it and `Dashboard.SalesCountCorrect` proves its contents |
| Dashboard.BumpQty | app.js:78 | one accumulation step adds qty to that code's entry and changes no other |
| Dashboard.BumpCodes | app.js:78 | an existing key keeps its place, and a new key goes to the end |
| Dashboard.SalesCountCorrect | app.js:75-80 | `salesCount` holds exactly the units sold per code, with keys distinct, exactly the codes sold, in order of first appearance |
| Dashboard.Insert | app.js:82 | placing one entry before the first with no greater quantity; `Dashboard.InsertPermutes`, `Dashboard.InsertSorted` and `Dashboard.InsertTied` state its properties |
| Dashboard.Rank | app.js:81-82 | the stable sort `sort(([, a], [, b]) => b - a)` of the entries; `Dashboard.RankSorted` and `Dashboard.RankStable` state its properties |
| Dashboard.Take | app.js:83 | `slice(0, 5)`: the first min(n, length) entries, so the whole list when it is no longer than n and exactly n entries otherwise |
| Dashboard.Resolve | app.js:90-96 | shows each entry whose product exists under its catalog name, never longer than the entries; `Dashboard.ResolveAppend` proves it keeps the entries' order, and `Dashboard.ResolveSound`, `Dashboard.ResolveComplete` and `Dashboard.ResolveSorted` state the rest |
| Dashboard.ResolveAppend | app.js:90-96 | the join goes entry by entry: joining `a + b` gives the join of `a` followed by the join of `b`, so the shown lines keep the entries' order |
| Dashboard.ResolveTied | app.js:90-96 | the shown lines with `q` units are exactly the join of the entries with quantity `q` |
| Dashboard.TopSellers | app.js:75-96 | the best-seller list of the day; `Dashboard.TopSellersShape`, `Dashboard.TopSellersAreTop`, `Dashboard.TopSellersComplete` and `Dashboard.TopSellersKeepTieOrder` state its properties |
| Dashboard.RankSorted | app.js:81-82 | the ranking is sorted by descending quantity and is a permutation of the entries |
| Dashboard.RankStable | app.js:81-82 | the ranking is stable: entries of equal quantity keep their order |
| Dashboard.TopSellersShape | app.js:75-97 | at most five lines, by descending units, each a product still in the catalog under its catalog name, with the units sold today |
| Dashboard.TopSellersAreTop | app.js:81-83 | no shown line sold fewer units than a ranked entry left past the first five |
| Dashboard.TopSellersComplete | app.js:83-96 | each of the first five ranked entries whose product still exists is shown, with its units |
| Dashboard.TopSellersKeepTieOrder | app.js:81-96 | best sellers with equal units are shown in the order their codes first appear in `salesCount`: the lines shown with `q` units are a prefix of the join of `salesCount`'s entries with quantity `q` |
| Dashboard.TwoSalesScenario | app.js:75-97 | sales `{A: 3}` and `{A: 2, B: 1}` today give the list A with 5 units, then B with 1 |
| History.LexLe | app.js:442 | JavaScript's string `<=`, character by character with a prefix first; the three lemmas below prove it a total order |
| History.Day | app.js:441 | `date.slice(0, 10)`: the first ten characters of the date, or all of a shorter one |
| History.LexLeAntisymmetric | app.js:442 | string `<=` both ways means equal |
| History.LexLeTransitive | app.js:442 | string `<=` is transitive |
| History.LexLeTotal | app.js:442 | any two strings are ordered by `<=` |
| History.DateRange | app.js:436-445 | an empty bound shows the whole log; otherwise exactly the transactions with from ≤ `date.slice(0, 10)` ≤ to |
| History.DateRangeAppend | app.js:440-443 | the filter keeps log order |
| History.DateRangeWiden | app.js:440-443 | widening the range never loses a transaction |
| History.TodayIsOneDayRange | app.js:67-68 | for a ten-character day, today's transactions are the range from that day to itself (the filter of app.js:439-443) |
| Engine.Till.constructor | app.js:5-9 | the database starts with no products, no transactions and an empty cart, and is valid |
| Engine.Till.SaveProduct | app.js:249-294 | performs the save handler on the catalog as `Catalog.Save` specifies, leaves log and cart alone, keeps `Valid()` |
| Engine.Till.DeleteProduct | app.js:311-323 | performs the delete handler as `Catalog.Delete` specifies, keeps `Valid()` |
| Engine.Till.UpdateStock | app.js:326-352 | performs `handleStockUpdate` as `Ledger.Move` specifies, keeps `Valid()` |
| Engine.Till.ScanCode | app.js:357-374 | performs the scan handler on the cart as `Cart.Scan` specifies, keeps `Valid()` |
| Engine.Till.RemoveCartLine | app.js:379-384 | removes the line as `Cart.RemoveLine` specifies, keeps `Valid()` |
| Engine.Till.Pay | app.js:386-434 | performs the pay handler on the whole database as `Sales.Checkout` specifies; returns the stock updates of the batch it sent (without the transaction's own `batch.set`), which turn the old catalog into the new one on success; keeps `Valid()` |

## Left out

- DOM rendering, modals, navigation, toasts and the button disabling are presentation only. This covers the
  receipt, the cart view and the tables.
- The login gate with its fixed credentials, the greeting by hour, and the print and export windows are left
  out. None of them touches the engine's state.
- Firestore is not modelled. Every call is reduced to a success flag passed in, and loading the data at
  start-up is not modelled. So a `Till` starts empty and the log starts with consistent totals.
- The audit-log lines appended after a stock movement are display bookkeeping.
- Asynchronous suspension, and what happens on a second click while a request is in flight, are left out.
  The model takes one handler at a time to completion.
- Form parsing is not modelled. `trim()`, `parseInt(...) || 0` and the date inputs' format are taken as
  already applied. The model receives codes, names and whole-number amounts.
- Cart keys, and the items of a transaction, keep insertion order in the model. JavaScript moves
  integer-like keys (such as "12") to the front, so the tie order of the best sellers and the order of the
  batch differ from the model for such codes.
- Items read back from the store may come in another key order. That is not modelled.
- Strings are sequences of characters. JavaScript compares UTF-16 code units, which differs only outside
  the Basic Multilingual Plane, never for ISO dates.
- Cart.LineIndex, Cart.Scan and Dashboard.Bump: do not model codes that are names of `Object.prototype`
  properties (`constructor`, `toString`, `__proto__`). For such a code, `db.cart[code]` (app.js:364) finds the
  inherited object even in an empty cart. The stock check then compares against `undefined` and passes, `qty++`
  writes to that inherited object, and no line is added. The model appends a line. `salesCount[code] || 0`
  (app.js:78) is affected the same way. The model treats a cart and `salesCount` as plain key-value tables.
- History.DateRange: does not model a transaction without a `date` field. The model reads a missing date as
  the empty string, so `History.DateRange` leaves such a transaction out of a bounded range, and the dashboard
  skips it (app.js:68) as the code does. In the code, `t.date.slice` (app.js:441) throws a `TypeError` for it,
  and the filtered list is never shown.
- Money.Digits: does not model the exponent notation `toString` uses from 1e21 up. Numbers are unbounded
  integers without floating-point rounding.
- The dashboard's product count (`db.products.length`) is the catalog's length and needs no model of its own.
- The empty-list messages of the dashboard lists are display text.
