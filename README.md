# bestbuy inventory model

A Dafny model of the in-memory inventory of the bestbuy shop. It covers two parts.

- **Products** (`products.dfy`, module `Products`). A product has a name, a price and a variant tag: `Standard`, `NonStocked` or `Limited(maximum)`. It also owns a quantity and an active flag, which the setters and `buy` update in place. `Products.Product` is a class with those two mutable fields.
  - Pure step functions (`NewState`, `SetQuantityStep`, `StockedBuy`, `BuyStep`) say what each operation does to the mutable part.
  - Every method is proved against its step function.
  - Lemmas about the step functions state the error order, the effects and the variant rules.
  - A Python constructor that raises `ValueError` becomes a static factory method returning `Result<Product>`.
- **Store** (`store.dfy`, module `Stores`). A store holds an ordered list of product references. `Stores.Store` keeps it as a `seq<Product>` field.
  - `add_product`, `remove_product`, `get_total_quantity` and `get_all_products` are proved against the sequence functions `Insert`, `RemoveFirst`, `TotalQuantity` and `ActiveOf`.
  - `order` is proved against `OrderFrom`. `OrderFrom` runs the lines of a shopping list in turn over a map from each named product to its state (quantity and active flag). A line first passes the store's own stock pre-check and then the product's `buy`. The first failure ends the order, and what earlier lines did stays done.

Errors are one datatype, `InvalidArgument | Inactive | OutOfStock | LimitExceeded`, in place of Python's exception classes. A non-stocked product must hold quantity 0 and a limited product must have a positive cap. This invariant is `Product.Valid()`. Construction establishes it, and every mutating method keeps it.

Two behaviours of the code are modelled as written:

- The code does not keep "quantity 0 implies inactive". A product constructed with quantity 0 starts active (products.py:19), and `activate()` sets the flag whatever the quantity (products.py:37-39). Only `set_quantity(0)` and a `buy` that empties the stock deactivate a product. The model follows the code.
- `order` checks `quantity > product.quantity` before calling `buy` (store.py:41). A non-stocked product always holds 0, so that check refuses any positive amount of it. Its own `buy` refuses any other amount. `NonStockedNeverOrdered` states the consequence: an order that names a non-stocked product never succeeds.

## Model

| member | source | states |
|---|---|---|
| Products.StripLeft | products.py:10 | the result is a suffix of the name, does not start with whitespace, and everything it dropped is whitespace (`str.lstrip`) |
| Products.StripRight | products.py:10 | the result is a prefix, does not end with whitespace, and everything it dropped is whitespace (`str.rstrip`) |
| Products.BlankIffAllSpace | products.py:10 | `not name.strip()` holds exactly when every character of the name is whitespace, the empty name included |
| Products.NewStateOutcome | products.py:9-19 | construction succeeds iff the name has a non-whitespace character, price >= 0 and quantity >= 0; the product then holds that quantity and is active, even at quantity 0 |
| Products.NewLimitedStateOutcome | products.py:92-96 | a limited product is created iff the base checks pass and the cap is at least 1; it starts with the given quantity, active |
| Products.SetQuantityEffect | products.py:25-31 | a negative value fails with InvalidArgument and changes nothing; otherwise quantity becomes q, and active becomes false at 0 and is otherwise kept, so it is never re-activated |
| Products.NonStockedSetQuantityIgnored | products.py:71-73 | the non-stocked set_quantity succeeds for every value and leaves quantity and active as they were |
| Products.StandardBuyErrors | products.py:50-57 | standard buy fails with InvalidArgument iff n <= 0, Inactive iff n > 0 on an inactive product, OutOfStock iff n > 0, active and n > quantity; it succeeds otherwise; every failure leaves the state unchanged |
| Products.StandardBuySuccess | products.py:58-62 | a successful buy leaves quantity - n, returns price * n, and leaves the product active exactly when stock remains |
| Products.NonStockedBuy | products.py:75-82 | the non-stocked buy fails only for n <= 0 or an inactive product, returns price * n otherwise, and never changes quantity or active |
| Products.LimitedBuy | products.py:98-102 | n above the cap fails with LimitExceeded before any other check and changes nothing; otherwise the limited buy is exactly the standard buy |
| Products.BuyStepEffect | products.py:50-62 | for every variant: a failed buy changes nothing, quantity never grows, an inactive product is never re-activated, success means n > 0 and a charge of price * n, and the variant's invariant is kept |
| Products.ProductTestOutcomes | test_product.py:20-51 | an empty name and a negative price are refused; buying the last unit deactivates; buying 3 at price 200 from 10 returns 600 and leaves 7; buying 6 of 5 is out of stock |
| Products.Product.Init | products.py:16-19 | the new object holds the given name, price, variant and state |
| Products.Product.New | products.py:9-19 | returns a fresh, valid standard product exactly when construction succeeds, with its name, price and starting state; InvalidArgument otherwise |
| Products.Product.NewNonStocked | products.py:68-69 | returns a fresh, valid non-stocked product with quantity 0, active, exactly when the base checks pass for quantity 0 |
| Products.Product.NewLimited | products.py:92-96 | returns a fresh, valid limited product with the given cap exactly when the base checks pass and the cap is positive |
| Products.Product.GetQuantity | products.py:21-23 | returns the current quantity |
| Products.Product.IsActive | products.py:33-35 | returns the current active flag |
| Products.Product.SetQuantity | products.py:25-31 | outcome and new state are the set_quantity step of the old state, ignored for the non-stocked variant (products.py:71-73); the invariant is kept |
| Products.Product.Activate | products.py:37-39 | the product is active afterwards, its quantity is unchanged, and a valid product stays valid |
| Products.Product.Deactivate | products.py:41-43 | the product is inactive afterwards, its quantity is unchanged, and a valid product stays valid |
| Products.Product.BuyStocked | products.py:50-62 | outcome and new state are the standard buy of the old state; the invariant is kept |
| Products.Product.Buy | products.py:50-62 | outcome and new state are the buy of the product's variant (also products.py:75-82 and 98-102) applied to the old state; the invariant is kept |
| Stores.InsertEffect | store.py:8-11 | add_product appends p exactly when it is active and not yet listed; p is listed afterwards iff it was listed or is active; a list without duplicates keeps none |
| Stores.FirstIndex | store.py:15-16 | the index of the first occurrence of a listed product |
| Stores.RemoveFirstEffect | store.py:13-16 | removal leaves a list without p unchanged, and otherwise drops exactly the first occurrence, keeping the order of the rest |
| Stores.RemoveFirstMembers | store.py:13-16 | the members after removal are the members before, minus one copy of p |
| Stores.RemoveFirstDistinct | store.py:13-16 | on a list without duplicates, p is gone after removal and no duplicates appear |
| Stores.TotalQuantityAppend | store.py:18-23 | the stock total of a concatenation is the sum of the totals of its parts |
| Stores.TotalAfterInsert | store.py:8-11 | add_product raises the total by p's quantity exactly when it appends p; adding a valid non-stocked product never changes the total |
| Stores.TotalAfterRemove | store.py:13-16 | remove_product lowers the total by p's quantity when p was listed, and not otherwise |
| Stores.ActiveOfAppend | store.py:25-31 | filtering a concatenation filters each part and keeps them in order |
| Stores.ActiveOfMembers | store.py:25-31 | the listing holds exactly the active members, is no longer than the list, and filtering it again changes nothing |
| Stores.LineStepEffect | store.py:41-44 | a failed order line changes nothing; a successful one had a positive amount, charges price * amount, takes the amount off a stocked product and leaves a non-stocked one untouched |
| Stores.OrderFrame | store.py:39-45 | an order keeps the set of products it tracks and changes only the products its lines name |
| Stores.OrderLineStep | store.py:40-44 | a failing line decides the order's outcome and state; a successful line hands its state and running total to the remaining lines |
| Stores.OrderSequential | store.py:39-45 | ordering a concatenated list is ordering the first part and then, only if that succeeded, the second from the stock it left |
| Stores.OrderTotal | store.py:39-45 | a successful order had a positive amount on every line and returns the sum of price * amount over the lines |
| Stores.OrderStockDrawn | store.py:39-45 | an order never changes a non-stocked product; a successful order takes from each stocked product the sum of the amounts its lines asked for, so a product listed twice is drawn down twice |
| Stores.OrderStopsAtFirstFailure | store.py:40-44 | a failed order failed at some line k: the lines before k succeeded, line k failed with the order's error, and the final state is the state those earlier lines left (no rollback, nothing after k touched) |
| Stores.NonStockedNeverOrdered | store.py:41 | when non-stocked products hold 0, a successful order names no non-stocked product |
| Stores.OrderWalkThrough | store.py:39-45 | price 200 with 10 in stock: ordering 3 charges 600 and leaves 7 (still active), after which ordering 8 is out of stock and changes nothing |
| Stores.Store.constructor | store.py:5-6 | the store holds the given list |
| Stores.Store.AddProduct | store.py:8-11 | the list afterwards is Insert of the old list, p and p's active flag |
| Stores.Store.RemoveProduct | store.py:13-16 | the list afterwards is RemoveFirst of the old list and p |
| Stores.Store.GetTotalQuantity | store.py:18-23 | returns TotalQuantity of the list and changes nothing |
| Stores.Store.GetAllProducts | store.py:25-31 | returns ActiveOf of the list and changes nothing |
| Stores.Store.ProcessLine | store.py:41-44 | one loop iteration: outcome and the product's new state are LineStep of its old state; of the tracked products only this one changes, and none on failure |
| Stores.Store.Order | store.py:33-45 | the result and the new states of all named products are OrderFrom of their states before the call; every named product stays valid |

## Left out

- Promotions. `SecondHalfPrice`, `Buy2Get1Free`, `PercentageDiscount` and `set_promotion` appear only in main.py and are not defined in products.py, whose `buy` charges plain price * quantity.
- main.py, the interactive menu, is not part of this model. Neither are the demo `main()` functions and the module-level sample list (products.py:109-125, store.py:48-62). All of these are input/output glue.
- `show()` on each variant (products.py:45-48, 84-86, 104-106): display text only.
- Float prices: price is a `nat`, so totals are exact integers.
- The `isinstance` checks on name, price, quantity and cap: Dafny's types make them vacuous. Python's bool-as-int corner is not modelled.
- Exception classes and messages. `ValueError`, `Exception` and `RuntimeError` collapse into the four error kinds. Both the store's pre-check and `buy`'s own stock check report OutOfStock.
- Stores.Store.constructor: keeps its own copy of the list. Python's store shares the caller's list object, so later appends are visible to the caller; the model does not capture that aliasing.
- Stores.Store.Order: requires every named product to satisfy `Product.Valid()`, the variant invariant that every factory method establishes and every method keeps. The Python code does not check it.
- Products.Product.Buy: requires `Valid()`, the object invariant that the factory methods establish. `Init` alone does not establish it.
- Products.Product.SetQuantity: requires `Valid()` for the same reason.
- Products.Product.BuyStocked: requires `Valid()` and a stocked variant, because it models the base-class `buy` that only the standard and limited variants reach.
