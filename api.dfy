/**
 The request handlers of the cart, checkout, order and product routes, as
 methods and functions of one `Store`: the database session with its four
 tables and one fresh-key counter per table (the tables' autoincrement).
 */
module Api {
  import opened Entities
  import opened Tables
  import opened Catalog
  import opened Ordering

  /** The `where` conditions of the handlers' queries. */
  function OwnedBy(userId: int): CartItem -> bool {
    (c: CartItem) => c.userId == userId
  }

  function PlacedBy(userId: int): Order -> bool {
    (o: Order) => o.userId == userId
  }

  function ListedBy(retailerId: int): Product -> bool {
    (p: Product) => p.retailerId == retailerId
  }

  function AnyProduct(): Product -> bool {
    (p: Product) => true
  }

  /** The database invariant: keys lie below their table's counter, every
      cart line asks for at least one unit, every order item names a stored
      order, and every order's total is the sum over its items. */
  ghost predicate Consistent(
    products: map<int, Product>, cart: map<int, CartItem>, orders: map<int, Order>,
    orderItems: map<int, OrderItem>,
    nextProductId: nat, nextCartItemId: nat, nextOrderId: nat, nextOrderItemId: nat)
  {
    && (forall id | id in products :: 0 <= id < nextProductId)
    && (forall id | id in cart :: 0 <= id < nextCartItemId && cart[id].quantity >= 1)
    && (forall id | id in orders :: 0 <= id < nextOrderId)
    && (forall id | id in orderItems :: 0 <= id < nextOrderItemId && orderItems[id].orderId in orders)
    && (forall oid | oid in orders ::
          orders[oid].totalPrice == OrderSum(orderItems, oid, nextOrderItemId))
  }

  /** A product stored under the fresh key `id` is appended to the full
      listing and to its owner's, and leaves every other retailer's alone. */
  lemma ListingsGrow(products: map<int, Product>, id: nat, product: Product)
    requires forall k | k in products :: k < id
    ensures Select(products[id := product], AnyProduct(), id + 1) == Select(products, AnyProduct(), id) + [Row(id, product)]
    ensures Select(products[id := product], ListedBy(product.retailerId), id + 1) ==
            Select(products, ListedBy(product.retailerId), id) + [Row(id, product)]
    ensures forall u | u != product.retailerId ::
              Select(products[id := product], ListedBy(u), id + 1) == Select(products, ListedBy(u), id)
  {
    SelectInsert(products, AnyProduct(), id, product);
    SelectInsert(products, ListedBy(product.retailerId), id, product);
    forall u | u != product.retailerId
      ensures Select(products[id := product], ListedBy(u), id + 1) == Select(products, ListedBy(u), id)
    {
      SelectInsert(products, ListedBy(u), id, product);
    }
  }

  /** The cart query: the lines of `userId` among the cart's keys below `bound`,
      in key order. */
  method CartLines(cart: map<int, CartItem>, userId: int, bound: nat) returns (lines: seq<Line>)
    ensures Selected(lines, cart, OwnedBy(userId), bound)
    ensures forall id | 0 <= id < bound && id in cart && cart[id].userId == userId :: Row(id, cart[id]) in lines
  {
    lines := Select(cart, OwnedBy(userId), bound);
  }

  /** What a successful checkout writes back: the new order, and the tables
      and counters it changed. */
  datatype Committed = Committed(
    order: Row<Order>,
    products: map<int, Product>,
    cart: map<int, CartItem>,
    orders: map<int, Order>,
    orderItems: map<int, OrderItem>,
    nextOrderId: nat,
    nextOrderItemId: nat)

  /** The checkout handler on the session's copies of the tables: read the
      caller's cart, refuse an empty one, then reserve, record and clear
      (`Place`), and add the order under the fresh key `oid`. */
  method CheckoutTables(
    user: User, products: map<int, Product>, cart: map<int, CartItem>,
    orders: map<int, Order>, orderItems: map<int, OrderItem>,
    productBound: nat, cartBound: nat, oid: nat, base: nat)
    returns (lines: seq<Line>, r: Result<Committed>)
    requires Consistent(products, cart, orders, orderItems, productBound, cartBound, oid, base)
    ensures Selected(lines, cart, OwnedBy(user.id), cartBound)
    ensures r.Ok? <==> lines != [] && CanFulfil(products, lines)
    ensures r.Err? ==>
      if lines == [] then r.error == EmptyCart
      else
        && r.error.OutOfStock?
        && FirstFailure(products, lines, r.error.productId)
        && (r.error.productId !in products ||
            Demand(lines, r.error.productId) > products[r.error.productId].stock)
    ensures r.Ok? ==>
      var c := r.value;
      && c.order == Row(oid, Order(user.id, Total(products, lines)))
      && oid !in orders
      && c.orders == orders[oid := c.order.val]
      && c.nextOrderId == oid + 1
      && c.products == Deduct(products, lines)
      && c.nextOrderItemId == base + |lines|
      && (forall k :: k in c.orderItems <==> k in orderItems || base <= k < c.nextOrderItemId)
      && (forall k | k in orderItems :: c.orderItems[k] == orderItems[k])
      && Recorded(c.orderItems, base, oid, lines, products)
      && (forall id :: id in c.cart <==> id in cart && cart[id].userId != user.id)
      && (forall id | id in c.cart :: c.cart[id] == cart[id])
      && Consistent(c.products, c.cart, c.orders, c.orderItems, productBound, cartBound, c.nextOrderId, c.nextOrderItemId)
      && (forall i | 0 <= i < |lines| :: c.products[lines[i].val.productId].stock >= 0)
      && (StockNonNegative(products) ==> StockNonNegative(c.products))
  {
    lines := CartLines(cart, user.id, cartBound);
    assert Positive(lines);
    if lines == [] {
      return lines, Err(EmptyCart);
    }
    var placed := Place(products, cart, orders, orderItems, base, oid, lines);
    if placed.Err? {
      return lines, Err(placed.error);
    }
    var p := placed.value;
    var order := Order(user.id, p.total);
    forall id ensures id in p.cart <==> id in cart && cart[id].userId != user.id {
      if id in cart && cart[id].userId == user.id {
        assert Row(id, cart[id]) in lines;
      }
    }
    r := Ok(Committed(Row(oid, order), p.products, p.cart, orders[oid := order], p.orderItems, oid + 1, p.nextOrderItemId));
  }

  class Store {
    var products: map<int, Product>
    var cart: map<int, CartItem>
    var orders: map<int, Order>
    var orderItems: map<int, OrderItem>
    var nextProductId: nat
    var nextCartItemId: nat
    var nextOrderId: nat
    var nextOrderItemId: nat

    /** The database invariant, on the current tables and counters. */
    ghost predicate Valid()
      reads this
    {
      Consistent(products, cart, orders, orderItems, nextProductId, nextCartItemId, nextOrderId, nextOrderItemId)
    }

    /** An empty database. */
    constructor ()
      ensures Valid()
      ensures products == map[] && cart == map[] && orders == map[] && orderItems == map[]
      ensures nextProductId == 0 && nextCartItemId == 0 && nextOrderId == 0 && nextOrderItemId == 0
    {
      products, cart, orders, orderItems := map[], map[], map[], map[];
      nextProductId, nextCartItemId, nextOrderId, nextOrderItemId := 0, 0, 0, 0;
    }

    // ----- cart (orders.py) -----

    /** The caller's cart as the cart query sees it. */
    function CartOf(userId: int): seq<Row<CartItem>>
      reads this
    {
      Select(cart, OwnedBy(userId), nextCartItemId)
    }

    /** GET /cart: exactly the caller's cart items, in key order. */
    method GetCart(userId: int) returns (lines: seq<Row<CartItem>>)
      requires Valid()
      ensures Selected(lines, cart, OwnedBy(userId), nextCartItemId)
      ensures forall id | id in cart && cart[id].userId == userId :: Row(id, cart[id]) in lines
    {
      lines := CartLines(cart, userId, nextCartItemId);
    }

    /** POST /cart: refuses a missing product or a quantity below 1 with one
        error and no change; otherwise inserts exactly one line for the caller
        under a fresh key. No stock is checked here. */
    method AddToCart(user: User, productId: int, quantity: int) returns (r: Result<Row<CartItem>>)
      requires Valid()
      modifies this`cart, this`nextCartItemId
      ensures Valid()
      ensures r.Err? <==> productId !in products || quantity < 1
      ensures r.Err? ==> r.error == InvalidProductOrQuantity && cart == old(cart) && nextCartItemId == old(nextCartItemId)
      ensures r.Ok? ==>
        && r.value == Row(old(nextCartItemId), CartItem(user.id, productId, quantity))
        && old(nextCartItemId) !in old(cart)
        && cart == old(cart)[r.value.id := r.value.val]
        && nextCartItemId == old(nextCartItemId) + 1
      ensures r.Ok? ==> CartOf(user.id) == old(CartOf(user.id)) + [r.value]
      ensures forall u | u != user.id :: CartOf(u) == old(CartOf(u))
    {
      if productId !in products || quantity < 1 {
        return Err(InvalidProductOrQuantity);
      }
      var id := nextCartItemId;
      var item := CartItem(user.id, productId, quantity);
      ghost var before := cart;
      cart := cart[id := item];
      nextCartItemId := nextCartItemId + 1;
      r := Ok(Row(id, item));
      SelectInsert(before, OwnedBy(user.id), id, item);
      forall u | u != user.id ensures CartOf(u) == old(CartOf(u)) {
        SelectInsert(before, OwnedBy(u), id, item);
      }
    }

    /** DELETE /cart/{id}: the same error, and no change, whether the item is
        missing or belongs to someone else; otherwise removes that one item. */
    method DeleteCartItem(user: User, itemId: int) returns (r: Outcome)
      requires Valid()
      modifies this`cart
      ensures Valid()
      ensures r.Failed? <==> itemId !in old(cart) || old(cart)[itemId].userId != user.id
      ensures r.Failed? ==> r.error == ItemNotFound && cart == old(cart)
      ensures r.Done? ==> cart == old(cart) - {itemId}
      ensures r.Done? ==> forall row :: row in CartOf(user.id) <==> row in old(CartOf(user.id)) && row.id != itemId
    {
      if itemId !in cart || cart[itemId].userId != user.id {
        return Failed(ItemNotFound);
      }
      cart := cart - {itemId};
      r := Done;
      SelectRemove(old(cart), OwnedBy(user.id), nextCartItemId, itemId);
    }

    // ----- checkout and orders (orders.py) -----

    /** The caller's orders as the order query sees them. */
    function OrdersOf(userId: int): seq<Row<Order>>
      reads this
    {
      Select(orders, PlacedBy(userId), nextOrderId)
    }

    /** GET /orders: exactly the caller's orders, in key order. */
    method GetMyOrders(userId: int) returns (rows: seq<Row<Order>>)
      requires Valid()
      ensures Selected(rows, orders, PlacedBy(userId), nextOrderId)
      ensures forall id | id in orders && orders[id].userId == userId :: Row(id, orders[id]) in rows
    {
      rows := OrdersOf(userId);
    }

    /** The session's commit: the checkout's copies of the tables and counters
        become the database, which they may only do when they keep its invariant. */
    method Commit(
      products': map<int, Product>, cart': map<int, CartItem>, orders': map<int, Order>,
      orderItems': map<int, OrderItem>, nextOrderId': nat, nextOrderItemId': nat)
      requires Consistent(products', cart', orders', orderItems', nextProductId, nextCartItemId, nextOrderId', nextOrderItemId')
      modifies this`products, this`cart, this`orders, this`orderItems, this`nextOrderId, this`nextOrderItemId
      ensures Valid()
      ensures products == products' && cart == cart' && orders == orders'
      ensures orderItems == orderItems' && nextOrderId == nextOrderId' && nextOrderItemId == nextOrderItemId'
    {
      products, cart, orders, orderItems, nextOrderId, nextOrderItemId :=
        products', cart', orders', orderItems', nextOrderId', nextOrderItemId';
    }

    /** POST /checkout, as one all-or-nothing step. An empty cart, or a line
        whose product is gone or short of stock (checked line by line against
        the stock the earlier lines left), fails and changes nothing. Otherwise
        every product's stock drops by the units the lines ask of it, one order
        is created whose total is the sum of price times quantity, one order
        item per line records the line's quantity and the product's price, and
        the caller's cart, and only the caller's, is emptied. */
    method Checkout(user: User) returns (r: Result<Row<Order>>, ghost lines: seq<Line>)
      requires Valid()
      modifies this`products, this`cart, this`orders, this`orderItems, this`nextOrderId, this`nextOrderItemId
      ensures Valid()
      ensures Selected(lines, old(cart), OwnedBy(user.id), old(nextCartItemId))
      ensures r.Ok? <==> lines != [] && CanFulfil(old(products), lines)
      ensures r.Err? ==>
        if lines == [] then r.error == EmptyCart
        else
          && r.error.OutOfStock?
          && FirstFailure(old(products), lines, r.error.productId)
          && (r.error.productId !in old(products) ||
              Demand(lines, r.error.productId) > old(products)[r.error.productId].stock)
      ensures r.Err? ==>
        && products == old(products) && cart == old(cart) && orders == old(orders)
        && orderItems == old(orderItems) && nextOrderId == old(nextOrderId)
        && nextOrderItemId == old(nextOrderItemId)
      ensures r.Ok? ==>
        var oid := old(nextOrderId);
        var base := old(nextOrderItemId);
        && r.value == Row(oid, Order(user.id, Total(old(products), lines)))
        && oid !in old(orders)
        && orders == old(orders)[oid := r.value.val]
        && nextOrderId == oid + 1
        && products == Deduct(old(products), lines)
        && nextOrderItemId == base + |lines|
        && (forall k :: k in orderItems <==> k in old(orderItems) || base <= k < nextOrderItemId)
        && (forall k | k in old(orderItems) :: orderItems[k] == old(orderItems)[k])
        && Recorded(orderItems, base, oid, lines, old(products))
        && (forall id :: id in cart <==> id in old(cart) && old(cart)[id].userId != user.id)
        && (forall id | id in cart :: cart[id] == old(cart)[id])
        && Selected([], cart, OwnedBy(user.id), nextCartItemId)
      ensures r.Ok? ==> r.value.val.totalPrice == OrderSum(orderItems, r.value.id, nextOrderItemId)
      ensures r.Ok? ==> forall i | 0 <= i < |lines| :: products[lines[i].val.productId].stock >= 0
      ensures StockNonNegative(old(products)) ==> StockNonNegative(products)
    {
      var cartLines, placed := CheckoutTables(
        user, products, cart, orders, orderItems, nextProductId, nextCartItemId, nextOrderId, nextOrderItemId);
      lines := cartLines;
      if placed.Err? {
        return Err(placed.error), lines;
      }
      var p := placed.value;
      Commit(p.products, p.cart, p.orders, p.orderItems, p.nextOrderId, p.nextOrderItemId);
      r := Ok(p.order);
    }

    // ----- products (products.py) -----

    /** Every product, as the listing query sees it. */
    function AllProducts(): seq<Row<Product>>
      reads this
    {
      Select(products, AnyProduct(), nextProductId)
    }

    /** The products of one retailer, as the retailer's listing query sees them. */
    function ProductsOf(retailerId: int): seq<Row<Product>>
      reads this
    {
      Select(products, ListedBy(retailerId), nextProductId)
    }

    /** POST /products/add-product: refused, with no change, unless the caller
        is a retailer; otherwise stores the body's fields, owned by the caller,
        under a fresh key. */
    method CreateProduct(user: User, body: ProductCreate) returns (r: Result<Row<Product>>)
      requires Valid()
      modifies this`products, this`nextProductId
      ensures Valid()
      ensures r.Err? <==> !user.isRetailer
      ensures r.Err? ==> r.error == NotRetailer && products == old(products) && nextProductId == old(nextProductId)
      ensures r.Ok? ==>
        && r.value == Row(old(nextProductId),
             Product(body.name, body.description, body.price, body.stock, body.image, user.id))
        && old(nextProductId) !in old(products)
        && products == old(products)[r.value.id := r.value.val]
        && nextProductId == old(nextProductId) + 1
      ensures r.Ok? ==> AllProducts() == old(AllProducts()) + [r.value]
      ensures r.Ok? ==> ProductsOf(user.id) == old(ProductsOf(user.id)) + [r.value]
      ensures forall u | u != user.id :: ProductsOf(u) == old(ProductsOf(u))
    {
      if !user.isRetailer {
        return Err(NotRetailer);
      }
      var id := nextProductId;
      var product := Product(body.name, body.description, body.price, body.stock, body.image, user.id);
      ghost var before := products;
      products := products[id := product];
      nextProductId := nextProductId + 1;
      r := Ok(Row(id, product));
      ListingsGrow(before, id, product);
    }

    /** GET /products/all: every product, in key order. */
    method ListProducts() returns (rows: seq<Row<Product>>)
      requires Valid()
      ensures Selected(rows, products, AnyProduct(), nextProductId)
      ensures forall id | id in products :: Row(id, products[id]) in rows
    {
      rows := AllProducts();
    }

    /** GET /products/me: refused unless the caller is a retailer; otherwise
        exactly the caller's products, in key order, which are among those
        of the full listing. */
    method ListMyProducts(user: User) returns (r: Result<seq<Row<Product>>>)
      requires Valid()
      ensures r.Err? <==> !user.isRetailer
      ensures r.Err? ==> r.error == NotRetailer
      ensures r.Ok? ==> Selected(r.value, products, ListedBy(user.id), nextProductId)
      ensures r.Ok? ==> forall id | id in products && products[id].retailerId == user.id :: Row(id, products[id]) in r.value
      ensures r.Ok? ==> forall row | row in r.value :: row in AllProducts()
    {
      if !user.isRetailer {
        return Err(NotRetailer);
      }
      SelectNarrower(products, AnyProduct(), ListedBy(user.id), nextProductId);
      r := Ok(ProductsOf(user.id));
    }

    /** PATCH /products/{id}: the same error, and no change, whether the product
        is missing or someone else's; otherwise applies the patch to that one
        product, which stays the caller's and takes its new place in their listing. */
    method UpdateProduct(user: User, productId: int, patch: ProductUpdate) returns (r: Result<Row<Product>>)
      requires Valid()
      modifies this`products
      ensures Valid()
      ensures r.Err? <==> !Owns(old(products), productId, user.id)
      ensures r.Err? ==> r.error == ProductNotFound && products == old(products)
      ensures r.Ok? ==>
        && r.value == Row(productId, ApplyUpdate(old(products)[productId], patch))
        && products == old(products)[productId := r.value.val]
        && Owns(products, productId, user.id)
      ensures r.Ok? ==> forall row :: row in ProductsOf(user.id) <==>
        (row in old(ProductsOf(user.id)) && row.id != productId) || row == r.value
    {
      if productId !in products || products[productId].retailerId != user.id {
        return Err(ProductNotFound);
      }
      var updated := ApplyUpdate(products[productId], patch);
      products := products[productId := updated];
      r := Ok(Row(productId, updated));
      SelectPut(old(products), ListedBy(user.id), nextProductId, productId, updated);
    }

    /** DELETE /products/{id}: the same error, and no change, whether the product
        is missing or someone else's; otherwise removes that one product.
        Cart lines and order items that name it stay. */
    method DeleteProduct(user: User, productId: int) returns (r: Outcome)
      requires Valid()
      modifies this`products
      ensures Valid()
      ensures r.Failed? <==> !Owns(old(products), productId, user.id)
      ensures r.Failed? ==> r.error == ProductNotFound && products == old(products)
      ensures r.Done? ==> products == old(products) - {productId}
      ensures r.Done? ==> forall row :: row in AllProducts() <==> row in old(AllProducts()) && row.id != productId
    {
      if productId !in products || products[productId].retailerId != user.id {
        return Failed(ProductNotFound);
      }
      products := products - {productId};
      r := Done;
      SelectRemove(old(products), AnyProduct(), nextProductId, productId);
    }
  }
}
