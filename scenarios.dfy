/**
 Two concrete checkouts: a cart with two units of A at 10.00 and one of B at
 5.00 (prices in cents), once with both in stock and once with B sold out.
 First on the specification functions, then driven through the store's
 handlers on a fresh database.
 */
module Scenarios {
  import opened Entities
  import opened Tables
  import opened Ordering
  import opened Catalog
  import opened Api

  /** Product keys as a fresh database hands them out. */
  const A := 0
  const B := 1

  function Catalogue(stockB: int): map<int, Product> {
    map[A := Product("", "", 1000, 5, "", 7), B := Product("", "", 500, stockB, "", 7)]
  }

  function TwoLines(userId: int): seq<Line> {
    [Row(0, CartItem(userId, A, 2)), Row(1, CartItem(userId, B, 1))]
  }

  /** Both in stock: the checkout goes through, costs 25.00, takes two units of
      A and one of B, and its two items add up to the same 25.00. */
  lemma BothInStock(userId: int, orderId: int)
    ensures CanFulfil(Catalogue(3), TwoLines(userId))
    ensures Total(Catalogue(3), TwoLines(userId)) == 2500
    ensures Deduct(Catalogue(3), TwoLines(userId))[A].stock == 3
    ensures Deduct(Catalogue(3), TwoLines(userId))[B].stock == 2
    ensures |OrderLines(orderId, TwoLines(userId), Catalogue(3))| == 2
    ensures ItemsTotal(OrderLines(orderId, TwoLines(userId), Catalogue(3))) == 2500
  {
    var lines := TwoLines(userId);
    assert lines[..1][..0] == [];
    assert Demand(lines[..1], A) == 2 && Demand(lines[..1], B) == 0;
    assert Total(Catalogue(3), lines[..1]) == 2000;
    OrderTotalMatches(orderId, lines, Catalogue(3));
  }

  /** B out of stock: the checkout fails naming B, which the sequential check
      reaches after A's line has passed. */
  lemma SecondLineShort(userId: int)
    ensures !CanFulfil(Catalogue(0), TwoLines(userId))
    ensures FirstFailure(Catalogue(0), TwoLines(userId), B)
    ensures forall pid | FirstFailure(Catalogue(0), TwoLines(userId), pid) :: pid == B
  {
    var lines := TwoLines(userId);
    assert lines[..1][..0] == [];
    assert lines[..0] == [];
    assert Demand(lines[..1], B) == 0;
    assert !LineFails(Catalogue(0), lines, 0);
    assert LineFails(Catalogue(0), lines, 1);
    forall pid | FirstFailure(Catalogue(0), lines, pid) ensures pid == B {
      FirstFailureUnique(Catalogue(0), lines, pid, B);
    }
  }

  /** A fresh database in which retailer 7 adds A (stock 5) and B. */
  method Stocked(stockB: int) returns (s: Store)
    ensures fresh(s) && s.Valid()
    ensures s.products == Catalogue(stockB)
    ensures s.cart == map[] && s.nextCartItemId == 0
    ensures s.orders == map[] && s.orderItems == map[] && s.nextOrderId == 0 && s.nextOrderItemId == 0
  {
    s := new Store();
    var retailer := User(7, true);
    var a := s.CreateProduct(retailer, ProductCreate("", "", 1000, 5, ""));
    var b := s.CreateProduct(retailer, ProductCreate("", "", 500, stockB, ""));
  }

  /** Then shopper 8 puts two units of A and one of B in the cart. */
  method Shop(stockB: int) returns (s: Store, shopper: User)
    ensures fresh(s) && s.Valid()
    ensures shopper == User(8, false)
    ensures s.products == Catalogue(stockB)
    ensures s.cart == map[0 := CartItem(8, A, 2), 1 := CartItem(8, B, 1)] && s.nextCartItemId == 2
    ensures s.CartOf(8) == TwoLines(8)
    ensures s.orders == map[] && s.orderItems == map[] && s.nextOrderId == 0 && s.nextOrderItemId == 0
  {
    s := Stocked(stockB);
    shopper := User(8, false);
    assert s.CartOf(8) == [];
    var first := s.AddToCart(shopper, A, 2);
    var second := s.AddToCart(shopper, B, 1);
  }

  /** The items a checkout of `TwoLines` records from key 0 on for order 0. */
  lemma TwoItems(items: map<int, OrderItem>)
    requires Recorded(items, 0, 0, TwoLines(8), Catalogue(3))
    ensures items[0] == OrderItem(0, A, 2, 1000) && items[1] == OrderItem(0, B, 1, 500)
  {
    assert ItemFor(0, TwoLines(8)[0], Catalogue(3)) == OrderItem(0, A, 2, 1000);
    assert ItemFor(0, TwoLines(8)[1], Catalogue(3)) == OrderItem(0, B, 1, 500);
  }

  /** A cart that held only shopper 8's lines is empty once they are taken. */
  lemma Cleared(before: map<int, CartItem>, after: map<int, CartItem>)
    requires before == map[0 := CartItem(8, A, 2), 1 := CartItem(8, B, 1)]
    requires forall id :: id in after <==> id in before && before[id].userId != 8
    ensures after == map[]
  {
    forall id ensures id !in after {
      if id in before {
        assert before[id].userId == 8;
      }
    }
  }

  /** Both in stock, on the store: order 0 for 25.00, A's stock down to 3 and
      B's to 2, two order items at the products' prices, and an empty cart. */
  method BothInStockOnStore() returns (s: Store, r: Result<Row<Order>>)
    ensures fresh(s) && s.Valid()
    ensures r == Ok(Row(0, Order(8, 2500)))
    ensures A in s.products && B in s.products
    ensures s.products[A].stock == 3 && s.products[B].stock == 2
    ensures forall k :: k in s.orderItems <==> k == 0 || k == 1
    ensures s.orderItems[0] == OrderItem(0, A, 2, 1000) && s.orderItems[1] == OrderItem(0, B, 1, 500)
    ensures s.cart == map[]
  {
    var shopper;
    s, shopper := Shop(3);
    ghost var cart0 := s.cart;
    ghost var lines;
    r, lines := s.Checkout(shopper);
    SelectedIsSelect(lines, cart0, OwnedBy(8), 2);
    assert lines == TwoLines(8);
    BothInStock(8, 0);
    TwoItems(s.orderItems);
    Cleared(cart0, s.cart);
  }

  /** B sold out, on the store: the checkout names B and nothing changes. */
  method SecondLineShortOnStore() returns (s: Store, r: Result<Row<Order>>)
    ensures fresh(s) && s.Valid()
    ensures r == Err(OutOfStock(B))
    ensures s.products == Catalogue(0)
    ensures s.cart == map[0 := CartItem(8, A, 2), 1 := CartItem(8, B, 1)]
    ensures s.orders == map[] && s.orderItems == map[]
  {
    var shopper;
    s, shopper := Shop(0);
    ghost var cart0 := s.cart;
    ghost var lines;
    r, lines := s.Checkout(shopper);
    SelectedIsSelect(lines, cart0, OwnedBy(8), 2);
    assert lines == TwoLines(8);
    SecondLineShort(8);
  }
}
