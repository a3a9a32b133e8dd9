# stregsystemet purchase core in Dafny

A model of the purchase core of *stregsystemet*, the kiosk where members of
a student association buy drinks and snacks on credit:

- **Ledger** (`ledger.dfy`): `PayTransaction`/`GetTransaction` that
  accumulate an amount and report a signed change, and a `Member` whose
  balance `fulfill`, `rollback` and `make_payment` update. `fulfill`
  refuses a debit the balance cannot cover with `StregForbudError`.
- **Catalog** (`catalog.dfy`): products, the sales recorded against them,
  `Product.is_active` (switched on, not past the deactivation time, not
  sold out since the start date) and the admin "activated" list filter.
- **Store** (`store.dfy`): the Sale and Payment tables and the one-shot
  `save`/`delete` rules of `Sale` and `Payment`.
- **Orders** (`orders.dfy`): `Order.from_products`, which groups a product
  list like `Counter`; `Order.total`; and `Order.execute`, which checks
  every item's stock, then the member's funds, and only then makes a
  single debit of the total and records one Sale per unit.
- **Quickbuy parser** (`quickbuy.dfy`, over `text.dfy`): `username
  id[:qty] ...` into a username and one product id per unit, or a
  `QuickBuyError` holding the line split at the malformed item.
- **Display** (`display.dfy`): `price_display` and `active_str`.
- **Views** (`views.py`, in `views.dfy`): the dispatch of the quickbuy line
  in `sale`, the error pointer and message, the product filter of
  `quicksale` and `menu_sale`, the all-or-nothing lookup loop of
  `quicksale`, the mapping of both order errors to the stregforbud page,
  and `_multibuy_hint`.
- **Admin** (`admin.py`, in `admin.dfy`):
  `toggle_active_selected_products` and `SaleListAdmin.get_total`.
- **Scenarios** (`scenarios.dfy`): the cases of `stregsystem/tests.py`
  replayed on the model, each with the asserted outcome as its contract.
  Where a test checks how a mocked `fulfill` or `make_payment` was called,
  the scenario returns the ghost log described below and its contract
  states that log.

The behaviour of the engine (`models.py`, `parser.py`) is reconstructed
from what `stregsystem/tests.py` asserts, and each operation's contract
states those assertions. Where the
tests leave a choice open, the model makes one and says so below.

The database is a `Database` object holding the Sale and Payment rows in
sequences. The product table is a map from primary key to product, and
the member table is a sequence. Time is an integer parameter (`now`).
Amounts are integers in øre.

Where a test replaces `fulfill` or `make_payment` with a mock to see how
it was called, the model keeps ghost logs instead. `Member.fulfilled` records
the kind and amount of every transaction applied, and `Member.paid` records
every payment amount. "Called once with `PayTransaction(20)`" becomes
"`fulfilled` grew by exactly `(Pay, 20)`". "Not called" becomes "`fulfilled`
is unchanged".

## Model

| member | source | states |
|---|---|---|
| Ledger.Transaction.Add | stregsystem/tests.py:444-456 | `add` accumulates its argument into the amount |
| Ledger.Transaction.Change | stregsystem/tests.py:440-456 | a pay transaction changes a balance by minus its amount, a get transaction by plus it |
| Ledger.Member.CanFulfill | stregsystem/tests.py:821-839 | a pay transaction is covered exactly when its amount is at most the balance; a get transaction exactly when the balance plus its amount is not negative |
| Ledger.Member.Fulfill | stregsystem/tests.py:792-810 | debits exactly when the balance covers the transaction (the new balance is then non-negative); otherwise fails with `StregForbudError` and leaves the balance and the call log unchanged |
| Ledger.Member.Rollback | stregsystem/tests.py:812-819 | subtracts the transaction's change without any check |
| Ledger.Member.MakePayment | stregsystem/tests.py:841-857 | adds the signed amount and logs the call |
| Catalog.SoldSince | stregsystem/tests.py:659-685 | the count of sales of the product on or after its start date; zero exactly when no sale counts |
| Catalog.SoldSinceAppend | stregsystem/tests.py:519-553 | stock counts add up over appended sales |
| Catalog.IsActive | stregsystem/tests.py:631-731 | false whenever `active` is false; otherwise true exactly when the deactivation time has not come and fewer sales than `quantity` count since the start date |
| Catalog.ActivatedFilter | stregsystem/tests.py:1085-1238 | "Yes" keeps exactly the products that are active, "No" exactly the others |
| Catalog.ActivatedFilterPartitions | stregsystem/tests.py:1085-1238 | the two choices together hold every product exactly once |
| Display.PriceDisplay | stregsystem/tests.py:47-61 | the shown price ends in " kr." |
| Display.PriceDisplayReadsBack | stregsystem/tests.py:46-60 | reading a shown price back gives the amount in øre: kroner and two decimals |
| Display.PriceDisplayNone | stregsystem/tests.py:47-49 | no amount shows as zero |
| Display.ActiveStr | stregsystem/tests.py:63-69 | "+" exactly for true, "-" exactly for false |
| Text.Strip | stregsystem/views.py:58 | the stripped line is empty exactly when the input is all whitespace, and is otherwise the input without its leading and trailing whitespace |
| Text.ParseNat | stregsystem/tests.py:1335-1353 | a product id or quantity is read exactly when it is a non-empty run of digits |
| Text.NatToStringRoundTrip | stregsystem/tests.py:1287-1325 | a number written in decimal reads back as itself |
| QuickBuy.ParseItems | stregsystem/tests.py:1279-1353 | the items are accepted exactly when every whitespace-separated token of the rest is a well-formed item, and then give those tokens' units in order; a failure splits the consumed text and the rest exactly at a non-blank item |
| QuickBuy.Parse | stregsystem/tests.py:1279-1353 | a line is accepted exactly when it starts with a non-blank character and every token after the first is a well-formed item; the username is then the whole first token and the ids are the units of the other tokens; a failure splits the whole line in two |
| QuickBuy.ParseItem | stregsystem/tests.py:1287-1353 | a token is accepted exactly when it is all digits, or digits, its first ':', and digits; every unit it stands for is the id before the colon |
| QuickBuy.ParseItemText | stregsystem/tests.py:1317-1333 | an item `id` stands for one unit, `id:q` for q units (none for 0) |
| QuickBuy.ParseColonItem | stregsystem/tests.py:1317-1333 | a token `id:q` with numeric id and quantity stands for q copies of id |
| QuickBuy.ParseUsernameAlone | stregsystem/tests.py:1279-1285 | a line holding only a username parses to that username and no ids |
| QuickBuy.ParseItemsRender | stregsystem/tests.py:1287-1333 | well-formed items parse to all their units in order |
| QuickBuy.ParseRender | stregsystem/tests.py:1279-1333 | a username followed by well-formed items parses to that username and those units |
| QuickBuy.ParseItemsFailsAt | stregsystem/tests.py:1335-1353 | after well-formed items, the first malformed item fails the parse at its first character |
| QuickBuy.ParseFailsAt | stregsystem/tests.py:1335-1353 | a whole line with a malformed item fails, split where that item begins |
| Store.WithoutSale | stregsystem/tests.py:778-788 | deleting a row keeps every row with another id and drops the rows with that id |
| Store.WithoutSaleValid | stregsystem/tests.py:778-788 | deleting keeps the ids increasing and below the next id |
| Store.WithoutSaleUndoesSave | stregsystem/tests.py:778-788 | deleting a just-saved sale restores the table |
| Store.WithoutPayment | stregsystem/tests.py:601-612 | deleting a payment keeps every row with another id and drops the rows with that id |
| Store.WithoutPaymentValid | stregsystem/tests.py:601-612 | deleting keeps the payment ids valid |
| Store.WithoutPaymentUndoesSave | stregsystem/tests.py:601-612 | deleting a just-saved payment restores the table |
| Store.Sale.Save | stregsystem/tests.py:746-766 | the first save assigns a fresh id and inserts the row; a second save fails with `RuntimeError` and changes nothing |
| Store.Sale.Delete | stregsystem/tests.py:768-788 | deleting an unsaved sale fails with `RuntimeError`; deleting a saved one removes its row and clears the id |
| Store.Payment.Save | stregsystem/tests.py:577-599 | the first save calls `make_payment(amount)` once and inserts the row; saving again changes nothing |
| Store.Payment.Delete | stregsystem/tests.py:601-622 | deleting a saved payment calls `make_payment(-amount)` once; deleting an unsaved one fails with `AssertionError` and changes nothing |
| Orders.TallyCount | stregsystem/tests.py:470-479 | adding one product to the items raises that product's count by one and no other |
| Orders.Group | stregsystem/tests.py:470-479 | never more items than products, and no items exactly for no products |
| Orders.GroupCounts | stregsystem/tests.py:470-479 | grouping gives one item per product, with count equal to its number of occurrences, each count positive, each product from the list |
| Orders.CountOfDistinct | stregsystem/tests.py:470-479 | with one item per product, an item's count is all the units of that product |
| Orders.GroupTotal | stregsystem/tests.py:481-495 | the grouped order costs the sum of the listed products' prices |
| Orders.ItemsTotalBounds | stregsystem/tests.py:481-495 | with no negative price, every line's price times count is non-negative and at most the total |
| Orders.Order.Total | stregsystem/tests.py:481-495 | `total()`: with no negative price, every line's price times count is non-negative and part of the total |
| Orders.ItemsTotalAppend | stregsystem/tests.py:481-495 | an order's total adds up over its items |
| Orders.SoldSinceUnitSales | stregsystem/tests.py:519-553 | the sales an order records count toward a product's stock exactly as many as the units ordered, when on or after its start date |
| Orders.ExecuteNeverOversells | stregsystem/tests.py:519-553 | an order with one item per product that passes the stock check never sells past a quantity |
| Orders.Order.AddItem | stregsystem/tests.py:481-495 | `order.items.add` appends the item |
| Orders.Order.FromProducts | stregsystem/tests.py:470-479 | the new order's items are the grouped products |
| Orders.Order.CheckStock | stregsystem/tests.py:519-553 | true exactly when every item is sellable: its product is still active at `now` and has stock left for its count |
| Orders.SellableIff | stregsystem/tests.py:519-553 | an item is sellable exactly when its product is switched on, its deactivation time lies after `now`, and the sales since its start date plus the count stay within the quantity with at least one unit left |
| Orders.Order.TotalTransaction | stregsystem/tests.py:497-517 | builds a pay transaction of the order's total |
| Orders.Order.RecordSales | stregsystem/tests.py:497-517 | saves one sale per unit ordered, at the product's price and the current time, after the existing rows, which stay as they were; the payment table and its next id are untouched |
| Orders.Order.RecordUnits | stregsystem/tests.py:497-517 | saves one sale per unit of a single item after the existing rows, which stay as they were, and keeps the sale table well-formed; the payment table and its next id are untouched |
| Orders.Order.Execute | stregsystem/tests.py:497-567 | `NoMoreInventoryError` exactly when an item is not sellable (its product inactive, past its deactivation time or sold out, or too little stock for the count); else `StregForbudError` exactly when the balance is below the total; on either error nothing changes and `fulfill` is not called; otherwise one `fulfill` of `PayTransaction(total)` and one sale per unit, appended after the existing rows; the payment table is never touched |
| Views.ErrorPointer | stregsystem/views.py:69 | a '~' under every accepted character, then '^' under the failure |
| Views.ErrorMessage | stregsystem/views.py:70 | `max(0, n - 4)` spaces followed by "Fejl her", for n accepted characters: "Fejl" ends right before the caret column, or starts flush left when fewer than four characters were accepted |
| Views.CaretMarksFailure | stregsystem/views.py:65-72 | the caret falls under the first, non-blank character of the rejected text |
| Views.ActiveIsEligibleInItsRooms | stregsystem/views.py:109-110 | for an active product the view filter reduces to the room condition |
| Views.Products | stregsystem/views.py:108-111 | one product per typed id, in order |
| Views.Eligible | stregsystem/views.py:109-110 | an eligible product is active and sold in the room; every active, unexpired product of the room is eligible; an expired one passes only when its deadline is exactly now, and an active product of the room whose deadline is exactly now does pass |
| Views.DeadlineEligibleButRefused | stregsystem/views.py:109-110 | at its deactivation instant an active product of the room passes the view filter, yet `execute` refuses it |
| Views.Resolve | stregsystem/views.py:106-113 | the lookup loop succeeds exactly when every id names an eligible product, and then yields them in order |
| Views.ProductsConsistent | stregsystem/views.py:108-111 | looked-up products with the same id are the same product |
| Views.ProductsOccurrences | stregsystem/views.py:108-119 | each product occurs as often as its id was typed |
| Views.QuickBuyOrder | stregsystem/views.py:106-122 | the quickbuy order has one item per product, counting how often its id was typed, and costs the sum of their prices |
| Views.FindMember | stregsystem/views.py:74-77 | finds an active member with that username, and finds none exactly when there is none |
| Views.MultibuyHint | stregsystem/views.py:85-97 | a hint means two recent sales of the member with different timestamps |
| Views.MultibuyHintIff | stregsystem/views.py:85-97 | the hint is given exactly when two recent sales of the member have different timestamps |
| Views.HintAfterPurchase | stregsystem/views.py:85-97 | right after a purchase, the hint is given exactly when the member also bought at another time in the last minute |
| Views.Dispatch | stregsystem/views.py:58-82 | blank line to the index, parse error to the error page, unknown or inactive username to "user not found", bare username to the menu, username with ids to `quicksale` |
| Views.QuickSale | stregsystem/views.py:100-136 | a missing product shows the menu and changes nothing; an order with an unsellable item (inactive, expired or out of stock at `execute`'s re-check) or an unaffordable one shows the stregforbud page and changes nothing; otherwise the total is debited once, the sales appended after the existing rows, and the hint shown only for a single id; the payment table is never touched |
| Views.MenuSale | stregsystem/views.py:171-197 | from a table keyed by product id: no eligible product: the menu, nothing bought; the stregforbud page, nothing changed, exactly when the product is not sellable at `execute`'s re-check or not affordable; otherwise one unit debited and recorded after the existing rows, and the menu shows it; the payment table is never touched |
| Views.Sale | stregsystem/views.py:53-82 | renders what the dispatch chose; only a quickbuy with products changes anything, and then exactly as `quicksale` does for the dispatched member and ids: the menu exactly when an id is not eligible, the stregforbud page exactly when an item is not sellable or funds fall short, otherwise one debit of the price sum and one sale per unit; other members are unchanged; existing sale rows and the payment table are never touched |
| Admin.ToggleSelection | stregsystem/admin.py:38-41 | selected products get `active` negated and no deactivation date; everything else is unchanged |
| Admin.ToggleActiveSelected | stregsystem/admin.py:34-41 | the loop leaves the array equal to the toggled selection |
| Admin.ToggleTwice | stregsystem/admin.py:39-40 | toggling twice restores every `active` flag and leaves the selection without deactivation dates |
| Admin.ToggleReactivates | stregsystem/admin.py:38-41 | toggling an inactive product that is not sold out makes it active, whatever its old deactivation date |
| Admin.GetTotal | stregsystem/admin.py:29-30 | no total when the list has no sales; otherwise the sum of its sales' prices |
| Admin.GetTotalAdd | stregsystem/admin.py:29-30 | a new sale changes a list's total exactly when it is on that list, by its price |
| Scenarios.TransactionChanges | stregsystem/tests.py:440-456 | pay 100 and pay 90 plus 10 both change by -100; get likewise by +100 |
| Scenarios.FulfillAffordable | stregsystem/tests.py:792-799 | 100 paying 10 leaves 90 |
| Scenarios.FulfillNoMoney | stregsystem/tests.py:801-810 | 2 paying 10 fails with `StregForbudError` and stays 2 |
| Scenarios.RollbackCredits | stregsystem/tests.py:812-819 | rolling back 10 on 2 gives 12 |
| Scenarios.CanFulfillExamples | stregsystem/tests.py:821-839 | 10 covers 10; 2 does not |
| Scenarios.MakePaymentExamples | stregsystem/tests.py:841-857 | paying 10 into 100 gives 110, paying -10 gives 90 |
| Scenarios.OrderFromRepeatedProduct | stregsystem/tests.py:470-479 | the same product twice groups into one item counting 2 |
| Scenarios.OrderTotals | stregsystem/tests.py:481-495 | one unit at 10 totals 10, two total 20 |
| Scenarios.ExecuteSingleTransaction | stregsystem/tests.py:508-517 | two units at 10 are debited once, by 20: the returned log of `fulfill` calls is exactly `[(Pay, 20)]` |
| Scenarios.ExecuteNoneRemaining | stregsystem/tests.py:519-533 | 1 of 1 sold: `NoMoreInventoryError`, balance unchanged |
| Scenarios.ExecuteTooFewRemaining | stregsystem/tests.py:537-551 | 1 of 2 sold, 2 wanted: `NoMoreInventoryError`, balance unchanged |
| Scenarios.ExecuteNoMoney | stregsystem/tests.py:555-565 | an unaffordable order fails with `StregForbudError`, records nothing and returns an empty `fulfill` log |
| Scenarios.PaymentSaveTwice | stregsystem/tests.py:577-599 | saving a payment of 100 credits 100 once; saving it again credits nothing: the returned log of credits is exactly `[100]` |
| Scenarios.PaymentDelete | stregsystem/tests.py:601-622 | deleting a saved payment debits its amount again (returned credit log `[100, -100]`); deleting an unsaved one fails with `AssertionError` |
| Scenarios.SaleSaveAndDelete | stregsystem/tests.py:746-788 | save gives an id, re-save and deleting unsaved fail with `RuntimeError`, delete clears the id |
| Scenarios.IsActiveExamples | stregsystem/tests.py:631-731 | the nine `is_active` cases of the product tests |
| Scenarios.PriceDisplayZero | stregsystem/tests.py:46-52 | None and 0 both show "0.00 kr." |
| Scenarios.PriceDisplayOne | stregsystem/tests.py:54-56 | 1 shows "0.01 kr." |
| Scenarios.PriceDisplayHundred | stregsystem/tests.py:58-60 | 100 shows "1.00 kr." |
| Scenarios.ActiveStrExamples | stregsystem/tests.py:63-69 | true shows "+", false "-" |
| Scenarios.ParseUsernameOnly | stregsystem/tests.py:1279-1285 | "test" parses to no ids |
| Scenarios.ParseSingle | stregsystem/tests.py:1287-1295 | "test 42" parses to [42] |
| Scenarios.ParseMulti | stregsystem/tests.py:1297-1305 | "test 42 1337" parses to [42, 1337] |
| Scenarios.ParseRepeated | stregsystem/tests.py:1307-1315 | "test 42 42" keeps both |
| Scenarios.ParseQuantifier | stregsystem/tests.py:1317-1325 | "test 42:2 1337:3" parses to two 42s and three 1337s |
| Scenarios.ParseZeroQuantifier | stregsystem/tests.py:1327-1333 | "test 42:0" parses to no ids |
| Scenarios.RejectNegativeQuantifier | stregsystem/tests.py:1335-1338 | "42:-1" fails |
| Scenarios.RejectMissingQuantifier | stregsystem/tests.py:1340-1343 | "42:" fails |
| Scenarios.RejectLetterQuantifier | stregsystem/tests.py:1345-1348 | "42:a" fails |
| Scenarios.RejectLetterId | stregsystem/tests.py:1350-1353 | "a:2" fails |
| Scenarios.RejectLetterItem | stregsystem/tests.py:75-81 | "jokke a" fails |
| Scenarios.DispatchBlank | stregsystem/tests.py:181-187 | an empty line shows the index |
| Scenarios.DispatchUsernameOnly | stregsystem/tests.py:173-179 | "jokke" opens jokke's menu |
| Scenarios.DispatchUnknownUser | stregsystem/tests.py:209-218 | "notinthere" shows "user not found" |
| Scenarios.DispatchMalformed | stregsystem/tests.py:75-81 | "jokke a" shows the parse error page |
| Scenarios.DispatchQuickSale | stregsystem/tests.py:85-102 | "jokke 1" buys product 1 for jokke |
| Scenarios.QuickSaleSuccess | stregsystem/tests.py:85-102 | the sale page lists product 1 and its cost 900; the returned `fulfill` log is exactly `[(Pay, 900)]` |
| Scenarios.QuickSaleWrongProduct | stregsystem/tests.py:120-129 | an unknown id shows the menu, nothing debited |
| Scenarios.QuickSaleNotInRoom | stregsystem/tests.py:280-296 | a product of another room shows the menu, nothing debited |
| Scenarios.QuickSaleOutOfStock | stregsystem/tests.py:259-278 | a sold-out product does not show the sale page, and the balance is unchanged |
| Scenarios.MenuSaleNoMoney | stregsystem/tests.py:131-143 | an unaffordable menu sale shows the stregforbud page and the returned `fulfill` log is empty |
| Scenarios.MenuSaleSuccess | stregsystem/tests.py:145-158 | a menu sale shows the menu with the product bought; the returned `fulfill` log is exactly `[(Pay, 900)]` |

## Left out

- Alcohol promille and `ballmer_peak` (floating-point arithmetic over timestamps), and the promille values `quicksale` and `usermenu` compute.
- `usermenu` itself: the `UserMenu` page stands for a call to it with the member, the product bought and the hint. Its `has_stregforbud` check is not part of this model.
- Rendering, templates, the news lookup, the product list of the index page, `get_object_or_404` for the room, URL routing and deployment.
- The ORM, database transactions and concurrency: the tables are in-memory sequences and a map, and a lookup that matches several rows is not modelled.
- `menu_sale` looks the member up by primary key, twice. The model passes the member in, so an unknown or inactive member id (an uncaught error in the view) is not modelled.
- `usermenu` reads the clock a second time for its hint; the model uses the same `now` as the purchase.
- Timestamps are whole seconds on one integer clock. `start_date` is a date and is modelled as the instant its day begins.
- The `bought` counter and the room-fixture tests depend on fixture data that is not part of this model.
- Views.QuickSale: the products given to the sale page are the looked-up list; the template's status line is not modelled.
- Orders.Order.RecordSales: the tests do not say how a Sale row is priced or stamped; the model records one row per unit at the product's price, stamped with the purchase time.
- Orders.Order.Execute: the order of the two checks (the `is_active` and stock re-check first, then funds) and the use of `can_fulfill` before `fulfill` follow the tests; the behaviour of `bought` counters is not modelled.
- Store.Sale.Delete: the tests only check the id; the model does not credit the member back.
- QuickBuy.Parse: the tests only check that a malformed line fails. The exact `parsed_part`/`failed_part` split is this model's choice: the text before the failing item, and the text from it on.
- Text.Strip, Text.Tokens and QuickBuy.Parse: whitespace is space, tab, newline and carriage return only. Python's `strip()` and `split()` also treat vertical tab, form feed and the Unicode spaces as whitespace; those are not modelled.
- Display.PriceDisplay: the tests cover only non-negative amounts; the model shows a negative amount with a leading '-'.
- Catalog.IsActive: the tests use deadlines an hour away. The model treats a product as expired from its deactivation instant on. At that instant the view filter (`deactivate_date >= now`) still lets the product through, and `execute`'s re-check then refuses it, so the stregforbud page is shown.
- Admin.ToggleActiveSelected: the queryset is modelled as a selection of ids over an array of products, and `save()` as the in-place update.
- Admin.GetTotal: prices are integers; the database's decimal type is not modelled.
- Transactions compare equal by kind and amount. The log in `Member.fulfilled` records exactly that pair.
