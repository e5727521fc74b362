# Shop backend: cart, checkout, orders and catalogue

This project models the request handlers of a small shop backend, a FastAPI
service over an SQL database. It covers the cart and order routes
(`add_to_cart`, `get_cart`, `delete_cart_item`, `checkout`, `get_my_orders`)
and the product routes (`create_product`, `list_products`,
`list_my_products`, `update_product`, `delete_product`).

The database session is the class `Api.Store`. It holds the four tables
(products, cart items, orders, order items) as maps from primary key to
record. Each table also has its own autoincrement counter. Every handler is a
method of the store. Its `modifies` clause names the tables it may write, and
its `ensures` clauses state the new tables in full, the error cases, and what
the caller reads back.

The files:

- `entities.dfy` holds the records and the handlers' error outcomes.
- `tables.dfy` holds `select … where …` as `Select`: the rows of a table that
  satisfy a condition, in key order. Its characterisation `Selected` is proved
  to have exactly one answer. The laws for insert, delete and overwrite are
  also here.
- `catalog.dfy` holds the product request bodies and the partial update
  performed by `sqlmodel_update`.
- `ordering.dfy` holds the specification of checkout:
  - the demand each product faces;
  - the sequential stock check, proved equivalent to "total demand fits the
    stock";
  - the stock left afterwards, the order total and the order items;
  - the three loops of the handler, as methods proved against these
    functions.
- `api.dfy` holds the store, the handlers, and the database invariant
  `Consistent`. The invariant says:
  - every key lies below its counter;
  - every cart line asks for at least one unit;
  - every order item names a stored order;
  - every order's `total_price` is the sum of `unit_price × quantity` over
    its items.
- `scenarios.dfy` holds two concrete checkouts: a two-line cart that
  succeeds, and the same cart with one product sold out. Each is worked
  twice: once on the specification functions, and once through the store's
  handlers on a fresh database (create two products, add two cart lines,
  check out).

Checkout is modelled as one all-or-nothing step. `CheckoutTables` works on
copies of the tables, as the handler works on the objects of its session.
`Store.Checkout` writes the copies back in one `Commit`, and only on success.
A failed checkout therefore leaves every table and counter as it was
(`Store.Checkout`'s error ensures).

In these places the model follows the code where another reading would be
natural:

- `add_to_cart` raises one 400 error for both a missing product and a bad
  quantity (orders.py:13-14). Separate errors for the two cases would be the
  natural reading; the model has one, as the code does.
- `update_product` may set `stock` (products.py:48-49), so checkout is not
  the only operation that changes stock.
- Checkout's second loop reads the product again to price each item
  (orders.py:67-72). It does not reuse a snapshot. `OrderLinesSamePrices`
  shows this gives the same prices, because checkout changes only stock.
- The stock check of a line sees the stock that earlier lines of the same
  cart already took (orders.py:54-58). It does not see the stock as it was
  before checkout. `SequentialCheck` proves the two readings agree when every
  line asks for at least one unit.

## Model

| member | source | states |
|---|---|---|
| Tables.Select | backend/app/api/routes/orders.py:30 | the query answer holds exactly the rows of the table whose key is below the counter and whose record meets the condition, each with its stored record, in ascending key order |
| Tables.SelectedIsSelect | backend/app/api/routes/orders.py:30 | any sequence with those three properties is the query answer, so a handler's `Selected` contract fixes its result completely |
| Tables.SelectAgree | backend/app/api/routes/orders.py:30 | two tables that agree on every key below the bound give the same answer |
| Tables.SelectInsert | backend/app/api/routes/orders.py:16-22 | storing a record at a fresh key appends it to every query that keeps it and leaves every other query's answer unchanged |
| Tables.SelectRemove | backend/app/api/routes/orders.py:39 | deleting a key removes exactly that key's row from every query's answer |
| Tables.SelectPut | backend/app/api/routes/products.py:48-51 | overwriting a key with a kept record replaces that key's row in the answer, and only that row |
| Tables.SelectNarrower | backend/app/api/routes/products.py:34 | a stricter condition answers a subset of the rows |
| Catalog.ApplyUpdate | backend/app/api/routes/products.py:48-49 | each field present in the patch takes the patch's value, each absent field keeps its old value, and the owner never changes |
| Catalog.ApplyUpdateLaws | backend/app/api/routes/products.py:48-49 | an empty patch changes nothing; applying the same patch twice is the same as applying it once |
| Ordering.OrderLines | backend/app/api/routes/orders.py:66-74 | one order item per cart line, in line order, carrying the order id, the line's product and quantity, and the product's price |
| Ordering.Reserve | backend/app/api/routes/orders.py:53-59 | the checking loop succeeds exactly when every product exists with stock for all the lines naming it. On success it returns the stock with every line's quantity taken and the sum of price × quantity. On failure it names the product of the first failing line, which is gone or short |
| Ordering.AddOrderItems | backend/app/api/routes/orders.py:66-74 | the second loop stores one item per line at consecutive fresh keys, keeps every existing item, and stores nothing else |
| Ordering.RemoveLines | backend/app/api/routes/orders.py:77-78 | the third loop deletes exactly the checked-out lines from the cart and leaves every other line as it was |
| Ordering.SequentialCheck | backend/app/api/routes/orders.py:54-58 | the line-by-line check, which sees the stock earlier lines took, passes on every line if and only if each product's total demand fits its stock |
| Ordering.FirstFailureIsShortage | backend/app/api/routes/orders.py:55-56 | the product a failed checkout names is missing, or the cart asks for more of it than is in stock |
| Ordering.FirstFailureUnique | backend/app/api/routes/orders.py:53-56 | the loop stops at one line, so at most one product is the first failure, and a failed checkout names exactly one product |
| Ordering.StockStaysNonNegative | backend/app/api/routes/orders.py:55-58 | after a checkout that passes the check, every sold product's stock is at least 0, and a table whose stock was all non-negative stays so |
| Ordering.OrderLinesSamePrices | backend/app/api/routes/orders.py:67-72 | pricing the items after the stock is taken gives the same items as pricing them before |
| Ordering.OrderTotalMatches | backend/app/api/routes/orders.py:57-72 | the sum of unit_price × quantity over the order items equals the total the checking loop adds up |
| Ordering.OrderSumSkip | backend/app/api/routes/orders.py:66-74 | items of other orders add nothing to an order's sum |
| Ordering.OrderSumRun | backend/app/api/routes/orders.py:66-74 | a run of an order's items at consecutive keys adds its own total to that order's sum |
| Ordering.PlaceOrderKeepsTotals | backend/app/api/routes/orders.py:61-74 | adding an order with its items at fresh keys keeps every order's total equal to the sum over its stored items, the new order's included |
| Ordering.DemandPermutation | backend/app/api/routes/orders.py:54-58 | reordering the cart lines leaves every product's total demand unchanged |
| Ordering.TotalPermutation | backend/app/api/routes/orders.py:57 | reordering the cart lines leaves the order total unchanged |
| Ordering.OrderIndependent | backend/app/api/routes/orders.py:46-59 | the cart query promises no order, and any reordering of its lines gives the same answer to "can this cart be fulfilled", the same total and the same stock afterwards |
| Ordering.Place | backend/app/api/routes/orders.py:53-78 | the three loops succeed exactly when the cart can be fulfilled. On success they return: the stock with the demand taken; the total; the items recorded for the order; the cart without the lines; consistent totals for every order; non-negative stock for the sold products |
| Api.ListingsGrow | backend/app/api/routes/products.py:18-21 | a new product is appended to the full listing and to its owner's listing, and every other retailer's listing is unchanged |
| Api.CartLines | backend/app/api/routes/orders.py:46 | the checkout's cart query returns exactly the caller's cart lines, in key order |
| Api.CheckoutTables | backend/app/api/routes/orders.py:45-80 | on the session's copies of the tables: an empty cart fails with EmptyCart; an unfulfillable one fails naming the first short product. Otherwise the order is added at the fresh key with the caller and the total, the stock drops by the demand, one item per line is recorded, only the caller's lines leave the cart, and the database invariant holds afterwards |
| Api.Store.GetCart | backend/app/api/routes/orders.py:28-31 | exactly the caller's cart items, each with its stored record, in key order |
| Api.Store.AddToCart | backend/app/api/routes/orders.py:11-24 | a missing product or a quantity below 1 gives one error and no change. Otherwise exactly one line is stored under the fresh key for the caller, with the product and quantity given; it is appended to the caller's cart listing, and every other user's cart is unchanged |
| Api.Store.DeleteCartItem | backend/app/api/routes/orders.py:35-41 | a missing item and someone else's item give the same error and no change. Otherwise exactly that item is removed, from the table and from the caller's cart listing |
| Api.Store.GetMyOrders | backend/app/api/routes/orders.py:85-87 | exactly the caller's orders, each with its stored record, in key order |
| Api.Store.Commit | backend/app/api/routes/orders.py:80 | the session's copies of the tables and counters become the database; it accepts only copies that keep the database invariant, so the invariant holds after it |
| Api.Store.Checkout | backend/app/api/routes/orders.py:45-81 | reads the caller's cart. An empty cart, or a missing or short product, fails and changes nothing. Otherwise: one order is created for the caller with total Σ price × quantity; each product's stock drops by exactly the units asked of it; one item per line records its quantity and the product's price; the order's total equals the sum over its items; existing orders and items are untouched; the caller's cart is empty and other users' lines are untouched; sold stock stays ≥ 0; the database invariant is kept |
| Api.Store.CreateProduct | backend/app/api/routes/products.py:11-22 | a caller who is not a retailer gets NotRetailer and nothing is created. Otherwise exactly one product is stored under the fresh key with the body's fields, owned by the caller; it is appended to the full listing and to the caller's, and every other retailer's listing is unchanged |
| Api.Store.ListProducts | backend/app/api/routes/products.py:26-27 | every stored product, each with its record, in key order |
| Api.Store.ListMyProducts | backend/app/api/routes/products.py:31-34 | a caller who is not a retailer gets NotRetailer. Otherwise the answer is exactly the caller's products, in key order, all of them in the full listing |
| Api.Store.UpdateProduct | backend/app/api/routes/products.py:38-53 | a missing product and someone else's give the same ProductNotFound and no change. Otherwise only that product changes, to the patched record; it stays the caller's, and in the caller's listing only its row changes |
| Api.Store.DeleteProduct | backend/app/api/routes/products.py:57-68 | a missing product and someone else's give the same ProductNotFound and no change. Otherwise exactly that product is removed, from the table and from the full listing |
| Scenarios.BothInStock | backend/app/api/routes/orders.py:53-74 | a cart of 2 × A at 1000 and 1 × B at 500, both in stock, passes the check with total 2500. A's stock drops by 2 and B's by 1, and the two items add up to 2500 |
| Scenarios.BothInStockOnStore | backend/app/api/routes/orders.py:45-81 | on a fresh database where retailer 7 created A (1000, stock 5) and B (500, stock 3) and shopper 8 added 2 × A and 1 × B, checkout returns order 0 for 2500. A's stock becomes 3 and B's 2. Order items 0 and 1 hold (order 0, A, 2, 1000) and (order 0, B, 1, 500), no other item exists, and the cart is empty |
| Scenarios.SecondLineShortOnStore | backend/app/api/routes/orders.py:45-59 | the same session with B created at stock 0: checkout fails with OutOfStock(B), and the products, the cart, the orders and the order items are as before |
| Scenarios.SecondLineShort | backend/app/api/routes/orders.py:53-56 | with B at stock 0 the same cart cannot be fulfilled, the first failing line names B, after A's line has passed, and B is the only product a failure can name |

## Left out

- Authentication: passwords, tokens and the `CurrentUser` dependency are not
  modelled. A handler receives the caller as a value with an id and a
  retailer flag.
- HTTP status codes and detail strings are not modelled. Each raised error
  is one variant of `Error`.
- Checkout commits twice (orders.py:63 and orders.py:80). Between the two
  commits the order exists without its items. The model performs the work as
  one step, which gives the same final state when the database does not fail
  between the commits.
- Concurrency: the model is sequential. Two simultaneous checkouts racing for
  the last units, and transaction isolation, are not modelled.
- Store failures during a commit, and the rollback they force, are not
  modelled.
- `created_at` of an order is not modelled, because it comes from the clock.
- Prices are whole numbers (cents) of unbounded size. The source's numeric
  type for prices is not part of this model, so float rounding is not
  modelled.
- orders.py:56 dereferences `product.name` when the product is missing. That
  crash aborts the request before any commit. The model reports it as
  `OutOfStock` with the missing id and changes nothing.
- Query order: every query answers in ascending key order. SQL without
  `ORDER BY` (orders.py:30, orders.py:46, orders.py:86, products.py:27,
  products.py:34) promises no order, so the model fixes one the source
  leaves open. Two results of checkout follow from this choice. The first is
  which product a failed checkout names, since that is the first failing
  line in key order. The second is which order-item key holds which line.
  With both products of a cart {10: A×1, 11: B×1} at stock 0 the model names
  A; the source may name either. Whether checkout succeeds, its total and
  the stock it leaves do not depend on line order: `OrderIndependent` proves
  that any reordering of the lines gives the same answers.
- The request bodies `ProductCreate` and `ProductUpdate` are not defined in
  the source files modelled here (backend/app/models.py lacks them). Their
  fields are taken from the product record: name, description, price, stock
  and image.
- `update_product` takes a field sent explicitly as `null` as a value to
  store. The model only knows "set" and "not set", so it does not model
  storing `null`.
- No validation of price or stock is visible in the handlers modelled (the
  request bodies are not part of this model), and the model assumes none, so
  negative values can be stored. "Stock ≥ 0" is therefore not a database invariant.
  The model proves that checkout never drives the stock of a sold product
  below 0, and that it keeps a table whose stock is all non-negative that
  way.
- Foreign keys are not modelled. Deleting a product leaves the cart lines and
  order items that name it. A later checkout of such a line fails as above.
- Response shaping (`ProductPublic`, `CartItemPublic`, `OrderPublic`) is not
  modelled. Handlers return whole rows.
