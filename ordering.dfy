/**
 The specification of checkout: what a caller's cart lines demand of the
 product table, what they cost, the stock left afterwards and the order items
 they become; and the relation between an order and its stored items.
 */
module Ordering {
  import opened Entities
  import opened Tables

  /** A cart line as checkout reads it: the cart item's id and record. */
  type Line = Row<CartItem>

  /** Every line asks for at least one unit (add_to_cart refuses anything less). */
  ghost predicate Positive(lines: seq<Line>) {
    forall i | 0 <= i < |lines| :: lines[i].val.quantity >= 1
  }

  /** Units of product `pid` that the lines ask for, over all lines naming it. */
  function Demand(lines: seq<Line>, pid: int): int
  {
    if lines == [] then 0
    else
      var last := lines[|lines| - 1].val;
      Demand(lines[..|lines| - 1], pid) + (if last.productId == pid then last.quantity else 0)
  }

  /** The price checkout reads for `pid` (0 for a product that is gone; such a line never gets priced). */
  function Price(products: map<int, Product>, pid: int): int {
    if pid in products then products[pid].price else 0
  }

  /** Sum of price times quantity over the lines. */
  function Total(products: map<int, Product>, lines: seq<Line>): int
  {
    if lines == [] then 0
    else
      var last := lines[|lines| - 1].val;
      Total(products, lines[..|lines| - 1]) + Price(products, last.productId) * last.quantity
  }

  /** The sequential check of line `i`: its product is gone, or the stock left
      after the earlier lines cannot cover it. */
  predicate LineFails(products: map<int, Product>, lines: seq<Line>, i: int)
    requires 0 <= i < |lines|
  {
    var item := lines[i].val;
    item.productId !in products ||
    products[item.productId].stock - Demand(lines[..i], item.productId) < item.quantity
  }

  /** Line `i` is the first whose check fails, and `pid` is its product. */
  ghost predicate FirstFailure(products: map<int, Product>, lines: seq<Line>, pid: int) {
    exists i | 0 <= i < |lines| ::
      lines[i].val.productId == pid && LineFails(products, lines, i) &&
      forall j | 0 <= j < i :: !LineFails(products, lines, j)
  }

  /** Every product the lines name exists and has stock for all the lines naming it. */
  predicate CanFulfil(products: map<int, Product>, lines: seq<Line>) {
    forall i | 0 <= i < |lines| ::
      var pid := lines[i].val.productId;
      pid in products && Demand(lines, pid) <= products[pid].stock
  }

  /** The product table once every line's quantity is taken from stock. */
  function Deduct(products: map<int, Product>, lines: seq<Line>): map<int, Product>
  {
    map pid | pid in products :: products[pid].(stock := products[pid].stock - Demand(lines, pid))
  }

  ghost predicate StockNonNegative(products: map<int, Product>) {
    forall pid | pid in products :: products[pid].stock >= 0
  }

  /** The order item checkout writes for one line. */
  function ItemFor(orderId: int, line: Line, products: map<int, Product>): OrderItem {
    OrderItem(orderId, line.val.productId, line.val.quantity, Price(products, line.val.productId))
  }

  /** One order item per line, in line order. */
  function OrderLines(orderId: int, lines: seq<Line>, products: map<int, Product>): (items: seq<OrderItem>)
    ensures |items| == |lines|
    ensures forall k {:trigger items[k]} | 0 <= k < |lines| ::
      items[k].orderId == orderId && items[k].productId == lines[k].val.productId &&
      items[k].quantity == lines[k].val.quantity && items[k].unitPrice == Price(products, lines[k].val.productId)
  {
    seq(|lines|, k requires 0 <= k < |lines| => ItemFor(orderId, lines[k], products))
  }

  /** Sum of unit price times quantity over order items. */
  function ItemsTotal(items: seq<OrderItem>): int
  {
    if items == [] then 0
    else
      var last := items[|items| - 1];
      ItemsTotal(items[..|items| - 1]) + last.unitPrice * last.quantity
  }

  /** Sum of unit price times quantity over the items of order `orderId` stored
      in `table` under a key in [0, bound). */
  function OrderSum(table: map<int, OrderItem>, orderId: int, bound: nat): int
  {
    if bound == 0 then 0
    else
      var k := bound - 1;
      OrderSum(table, orderId, k) +
        (if k in table && table[k].orderId == orderId then table[k].unitPrice * table[k].quantity else 0)
  }

  /** What the checking loop leaves in the session: the decremented products and the total. */
  datatype Reservation = Reservation(stock: map<int, Product>, total: int)

  /** The first loop of checkout, on the session's copy of the product table:
      line by line, fail on a product that is gone or short of the stock the
      earlier lines left, otherwise add price times quantity to the total and
      take the quantity from stock. */
  method Reserve(products: map<int, Product>, lines: seq<Line>) returns (r: Result<Reservation>)
    requires Positive(lines)
    ensures r.Ok? <==> CanFulfil(products, lines)
    ensures r.Ok? ==> r.value == Reservation(Deduct(products, lines), Total(products, lines))
    ensures r.Err? ==>
      && r.error.OutOfStock?
      && FirstFailure(products, lines, r.error.productId)
      && (r.error.productId !in products || Demand(lines, r.error.productId) > products[r.error.productId].stock)
  {
    var working := products;
    var total := 0;
    var i := 0;
    while i < |lines|
      invariant 0 <= i <= |lines|
      invariant working == Deduct(products, lines[..i])
      invariant total == Total(products, lines[..i])
      invariant forall j | 0 <= j < i :: !LineFails(products, lines, j)
    {
      var item := lines[i].val;
      if item.productId !in working || working[item.productId].stock < item.quantity {
        assert LineFails(products, lines, i);
        SequentialCheck(products, lines);
        assert FirstFailure(products, lines, item.productId);
        FirstFailureIsShortage(products, lines, item.productId);
        return Err(OutOfStock(item.productId));
      }
      DeductStep(products, lines, i);
      TotalStep(products, lines, i);
      total := total + working[item.productId].price * item.quantity;
      working := working[item.productId := working[item.productId].(stock := working[item.productId].stock - item.quantity)];
      i := i + 1;
    }
    assert lines[..|lines|] == lines;
    SequentialCheck(products, lines);
    r := Ok(Reservation(working, total));
  }

  /** The second loop of checkout: one order item per line, stored at fresh
      consecutive keys from `next`, carrying the line's product and quantity
      and the product's current price. */
  method AddOrderItems(items: map<int, OrderItem>, next: nat, oid: int, lines: seq<Line>, products: map<int, Product>)
    returns (after: map<int, OrderItem>, next': nat)
    requires forall k | k in items :: k < next
    requires forall j | 0 <= j < |lines| :: lines[j].val.productId in products
    ensures next' == next + |lines|
    ensures forall k :: k in after <==> k in items || next <= k < next'
    ensures forall k | k in items :: after[k] == items[k]
    ensures forall k | next <= k < next' :: after[k] == OrderLines(oid, lines, products)[k - next]
  {
    ghost var placed := OrderLines(oid, lines, products);
    after, next' := items, next;
    var i := 0;
    while i < |lines|
      invariant 0 <= i <= |lines|
      invariant next' == next + i
      invariant forall k :: k in after <==> k in items || next <= k < next'
      invariant forall k | k in items :: after[k] == items[k]
      invariant forall k | next <= k < next' :: after[k] == placed[k - next]
    {
      var item := lines[i].val;
      after := after[next' := OrderItem(oid, item.productId, item.quantity, products[item.productId].price)];
      next' := next' + 1;
      i := i + 1;
    }
  }

  /** The third loop of checkout: delete every line from the cart. */
  method RemoveLines(cart: map<int, CartItem>, lines: seq<Line>) returns (rest: map<int, CartItem>)
    ensures forall id :: id in rest <==> id in cart && forall j | 0 <= j < |lines| :: lines[j].id != id
    ensures forall id | id in rest :: rest[id] == cart[id]
  {
    rest := cart;
    var i := 0;
    while i < |lines|
      invariant 0 <= i <= |lines|
      invariant forall id :: id in rest <==> id in cart && forall j | 0 <= j < i :: lines[j].id != id
      invariant forall id | id in rest :: rest[id] == cart[id]
    {
      rest := rest - {lines[i].id};
      i := i + 1;
    }
  }

  // ----- demand -----

  /** Quantities are positive, so a longer prefix never demands less. */
  lemma {:induction false} DemandGrows(lines: seq<Line>, pid: int, i: nat, j: nat)
    requires Positive(lines)
    requires i <= j <= |lines|
    ensures Demand(lines[..i], pid) <= Demand(lines[..j], pid)
  {
    if i < j {
      DemandGrows(lines, pid, i, j - 1);
      assert lines[..j][..j - 1] == lines[..j - 1];
    }
  }

  /** A product that no line names is not asked for. */
  lemma {:induction false} DemandUnnamed(lines: seq<Line>, pid: int)
    requires forall i | 0 <= i < |lines| :: lines[i].val.productId != pid
    ensures Demand(lines, pid) == 0
  {
    if lines != [] {
      DemandUnnamed(lines[..|lines| - 1], pid);
    }
  }

  /** Lines that passed the sequential check have, together, demanded no more than the stock. */
  lemma {:induction false} PassedPrefix(products: map<int, Product>, lines: seq<Line>, n: nat)
    requires n <= |lines|
    requires forall i | 0 <= i < n :: !LineFails(products, lines, i)
    ensures forall i | 0 <= i < n ::
      lines[i].val.productId in products &&
      Demand(lines[..n], lines[i].val.productId) <= products[lines[i].val.productId].stock
  {
    if n > 0 {
      PassedPrefix(products, lines, n - 1);
      assert lines[..n][..n - 1] == lines[..n - 1];
      assert !LineFails(products, lines, n - 1);
      forall i | 0 <= i < n
        ensures Demand(lines[..n], lines[i].val.productId) <= products[lines[i].val.productId].stock
      {
        var pid := lines[i].val.productId;
        assert Demand(lines[..n], pid) == Demand(lines[..n - 1], pid) +
          (if lines[n - 1].val.productId == pid then lines[n - 1].val.quantity else 0);
      }
    }
  }

  /** The line-by-line check, which sees the stock already taken by earlier lines,
      passes on every line exactly when the aggregate demand fits the stock. */
  lemma SequentialCheck(products: map<int, Product>, lines: seq<Line>)
    requires Positive(lines)
    ensures (forall i | 0 <= i < |lines| :: !LineFails(products, lines, i)) <==> CanFulfil(products, lines)
  {
    assert lines[..|lines|] == lines;
    if forall i | 0 <= i < |lines| :: !LineFails(products, lines, i) {
      PassedPrefix(products, lines, |lines|);
    }
    if CanFulfil(products, lines) {
      forall i | 0 <= i < |lines| ensures !LineFails(products, lines, i) {
        DemandGrows(lines, lines[i].val.productId, i + 1, |lines|);
        assert lines[..i + 1][..i] == lines[..i];
      }
    }
  }

  /** The product a failing checkout names is short: gone, or asked for beyond its stock. */
  lemma FirstFailureIsShortage(products: map<int, Product>, lines: seq<Line>, pid: int)
    requires Positive(lines)
    requires FirstFailure(products, lines, pid)
    ensures pid !in products || Demand(lines, pid) > products[pid].stock
  {
    var i :| 0 <= i < |lines| && lines[i].val.productId == pid && LineFails(products, lines, i);
    DemandGrows(lines, pid, i + 1, |lines|);
    assert lines[..i + 1][..i] == lines[..i];
    assert lines[..|lines|] == lines;
  }

  /** Only one product can be the first failing line's, so a failed checkout names one product. */
  lemma FirstFailureUnique(products: map<int, Product>, lines: seq<Line>, a: int, b: int)
    requires FirstFailure(products, lines, a) && FirstFailure(products, lines, b)
    ensures a == b
  {
    var i :| 0 <= i < |lines| && lines[i].val.productId == a && LineFails(products, lines, i) &&
      forall j | 0 <= j < i :: !LineFails(products, lines, j);
    var k :| 0 <= k < |lines| && lines[k].val.productId == b && LineFails(products, lines, k) &&
      forall j | 0 <= j < k :: !LineFails(products, lines, j);
    assert i == k;
  }

  // ----- checkout -----

  /** The order items at keys `base` to `base + |lines| - 1` are the lines' items, one per line. */
  ghost predicate Recorded(
    items: map<int, OrderItem>, base: nat, oid: int, lines: seq<Line>, products: map<int, Product>)
  {
    forall k | base <= k < base + |lines| :: k in items && items[k] == ItemFor(oid, lines[k - base], products)
  }

  /** What checkout writes back: the product table with stock taken, the
      order's total, the order item table with one item per line from key
      `base` on, the next free order item key, and the cart without the lines. */
  datatype Placed = Placed(
    products: map<int, Product>,
    total: int,
    orderItems: map<int, OrderItem>,
    nextOrderItemId: nat,
    cart: map<int, CartItem>)

  /** The three loops of checkout, between reading the cart and the final
      commit, on the session's copies of the tables: reserve stock and total
      the lines, record one order item per line for order `oid`, and delete
      the lines from the cart. A failed reservation writes nothing. */
  method Place(
    products: map<int, Product>, cart: map<int, CartItem>,
    orders: map<int, Order>, orderItems: map<int, OrderItem>, base: nat,
    oid: int, lines: seq<Line>)
    returns (r: Result<Placed>)
    requires Positive(lines)
    requires forall k | k in orderItems :: 0 <= k < base && orderItems[k].orderId < oid
    requires oid !in orders
    requires forall o | o in orders :: orders[o].totalPrice == OrderSum(orderItems, o, base)
    ensures r.Ok? <==> CanFulfil(products, lines)
    ensures r.Err? ==>
      && r.error.OutOfStock?
      && FirstFailure(products, lines, r.error.productId)
      && (r.error.productId !in products || Demand(lines, r.error.productId) > products[r.error.productId].stock)
    ensures r.Ok? ==>
      var p := r.value;
      && p.products == Deduct(products, lines)
      && p.total == Total(products, lines)
      && p.nextOrderItemId == base + |lines|
      && (forall k :: k in p.orderItems <==> k in orderItems || base <= k < p.nextOrderItemId)
      && (forall k | k in orderItems :: p.orderItems[k] == orderItems[k])
      && Recorded(p.orderItems, base, oid, lines, products)
      && (forall id :: id in p.cart <==> id in cart && forall j | 0 <= j < |lines| :: lines[j].id != id)
      && (forall id | id in p.cart :: p.cart[id] == cart[id])
      && p.total == OrderSum(p.orderItems, oid, p.nextOrderItemId)
      && (forall o | o in orders :: orders[o].totalPrice == OrderSum(p.orderItems, o, p.nextOrderItemId))
      && (forall i | 0 <= i < |lines| :: p.products[lines[i].val.productId].stock >= 0)
      && (StockNonNegative(products) ==> StockNonNegative(p.products))
  {
    var reserved := Reserve(products, lines);
    if reserved.Err? {
      return Err(reserved.error);
    }
    var stock := reserved.value.stock;
    var items, next := AddOrderItems(orderItems, base, oid, lines, stock);
    var rest := RemoveLines(cart, lines);
    StockStaysNonNegative(products, lines);
    OrderLinesSamePrices(oid, lines, products, stock);
    OrderTotalMatches(oid, lines, products);
    PlaceOrderKeepsTotals(orders, orderItems, base, oid, Order(0, reserved.value.total),
                          OrderLines(oid, lines, stock), items);
    r := Ok(Placed(stock, reserved.value.total, items, next, rest));
  }

  // ----- line order -----

  lemma {:induction false} DemandAppend(a: seq<Line>, b: seq<Line>, pid: int)
    ensures Demand(a + b, pid) == Demand(a, pid) + Demand(b, pid)
  {
    if b == [] {
      assert a + b == a;
    } else {
      assert (a + b)[..|a + b| - 1] == a + b[..|b| - 1];
      DemandAppend(a, b[..|b| - 1], pid);
    }
  }

  lemma {:induction false} TotalAppend(products: map<int, Product>, a: seq<Line>, b: seq<Line>)
    ensures Total(products, a + b) == Total(products, a) + Total(products, b)
  {
    if b == [] {
      assert a + b == a;
    } else {
      assert (a + b)[..|a + b| - 1] == a + b[..|b| - 1];
      TotalAppend(products, a, b[..|b| - 1]);
    }
  }

  /** Taking the last element off `l1` and its match at `j` off a permutation
      `l2` leaves permutations. */
  lemma RemoveMatching<T>(l1: seq<T>, l2: seq<T>, j: nat)
    requires multiset(l1) == multiset(l2)
    requires |l1| > 0 && j < |l2| && l2[j] == l1[|l1| - 1]
    ensures multiset(l1[..|l1| - 1]) == multiset(l2[..j] + l2[j + 1..])
  {
    var x, init, before, after := l1[|l1| - 1], l1[..|l1| - 1], l2[..j], l2[j + 1..];
    assert l1 == init + [x];
    assert multiset(l1) == multiset(init) + multiset{x};
    assert l2 == before + [x] + after;
    assert multiset(l2) == multiset(before) + multiset{x} + multiset(after);
    assert multiset(before + after) == multiset(before) + multiset(after);
    forall y ensures multiset(init)[y] == multiset(before + after)[y] {
      assert multiset(l1)[y] == multiset(l2)[y];
    }
  }

  /** The demand on every product does not depend on the order of the lines. */
  lemma {:induction false} DemandPermutation(l1: seq<Line>, l2: seq<Line>, pid: int)
    requires multiset(l1) == multiset(l2)
    ensures Demand(l1, pid) == Demand(l2, pid)
    decreases |l1|
  {
    assert |l1| == |multiset(l1)| == |multiset(l2)| == |l2|;
    if l1 != [] {
      var x, init := l1[|l1| - 1], l1[..|l1| - 1];
      assert l1 == init + [x];
      assert x in multiset(l2);
      var j :| 0 <= j < |l2| && l2[j] == x;
      var before, after := l2[..j], l2[j + 1..];
      assert l2 == before + [x] + after;
      RemoveMatching(l1, l2, j);
      DemandPermutation(init, before + after, pid);
      assert [x][..0] == [];
      DemandAppend(init, [x], pid);
      DemandAppend(before, after, pid);
      DemandAppend(before, [x], pid);
      DemandAppend(before + [x], after, pid);
    }
  }

  /** Nor does the total. */
  lemma {:induction false} TotalPermutation(products: map<int, Product>, l1: seq<Line>, l2: seq<Line>)
    requires multiset(l1) == multiset(l2)
    ensures Total(products, l1) == Total(products, l2)
    decreases |l1|
  {
    assert |l1| == |multiset(l1)| == |multiset(l2)| == |l2|;
    if l1 != [] {
      var x, init := l1[|l1| - 1], l1[..|l1| - 1];
      assert l1 == init + [x];
      assert x in multiset(l2);
      var j :| 0 <= j < |l2| && l2[j] == x;
      var before, after := l2[..j], l2[j + 1..];
      assert l2 == before + [x] + after;
      RemoveMatching(l1, l2, j);
      TotalPermutation(products, init, before + after);
      assert [x][..0] == [];
      TotalAppend(products, init, [x]);
      TotalAppend(products, before, after);
      TotalAppend(products, before, [x]);
      TotalAppend(products, before + [x], after);
    }
  }

  /** So whether checkout succeeds, its total and the stock it leaves are the
      same for every order in which the query may return the cart's lines. */
  lemma OrderIndependent(products: map<int, Product>, l1: seq<Line>, l2: seq<Line>)
    requires multiset(l1) == multiset(l2)
    ensures CanFulfil(products, l1) <==> CanFulfil(products, l2)
    ensures Total(products, l1) == Total(products, l2)
    ensures Deduct(products, l1) == Deduct(products, l2)
  {
    forall pid ensures Demand(l1, pid) == Demand(l2, pid) {
      DemandPermutation(l1, l2, pid);
    }
    TotalPermutation(products, l1, l2);
    if CanFulfil(products, l1) {
      forall i | 0 <= i < |l2| ensures l2[i].val.productId in products && Demand(l2, l2[i].val.productId) <= products[l2[i].val.productId].stock {
        assert l2[i] in multiset(l1);
        var k :| 0 <= k < |l1| && l1[k] == l2[i];
      }
    }
    if CanFulfil(products, l2) {
      forall i | 0 <= i < |l1| ensures l1[i].val.productId in products && Demand(l1, l1[i].val.productId) <= products[l1[i].val.productId].stock {
        assert l1[i] in multiset(l2);
        var k :| 0 <= k < |l2| && l2[k] == l1[i];
      }
    }
  }

  // ----- stock -----

  /** Taking one more line from stock is one more decrement of its product. */
  lemma DeductStep(products: map<int, Product>, lines: seq<Line>, i: nat)
    requires i < |lines|
    requires lines[i].val.productId in products
    ensures var pid := lines[i].val.productId; var before := Deduct(products, lines[..i]);
      Deduct(products, lines[..i + 1]) ==
      before[pid := before[pid].(stock := before[pid].stock - lines[i].val.quantity)]
  {
    assert lines[..i + 1][..i] == lines[..i];
  }

  /** Checkout never drives stock below zero: every product it sells keeps stock
      at least 0, and a table whose stock was all non-negative stays so. */
  lemma StockStaysNonNegative(products: map<int, Product>, lines: seq<Line>)
    requires CanFulfil(products, lines)
    ensures forall i | 0 <= i < |lines| :: Deduct(products, lines)[lines[i].val.productId].stock >= 0
    ensures StockNonNegative(products) ==> StockNonNegative(Deduct(products, lines))
  {
    if StockNonNegative(products) {
      forall pid | pid in products ensures Deduct(products, lines)[pid].stock >= 0 {
        if forall i | 0 <= i < |lines| :: lines[i].val.productId != pid {
          DemandUnnamed(lines, pid);
        }
      }
    }
  }

  // ----- totals -----

  lemma TotalStep(products: map<int, Product>, lines: seq<Line>, i: nat)
    requires i < |lines|
    ensures Total(products, lines[..i + 1]) ==
            Total(products, lines[..i]) + Price(products, lines[i].val.productId) * lines[i].val.quantity
  {
    assert lines[..i + 1][..i] == lines[..i];
  }

  /** Order items depend on the product table only through prices, which
      taking stock does not change. */
  lemma {:induction false} OrderLinesSamePrices(oid: int, lines: seq<Line>, products: map<int, Product>, stock: map<int, Product>)
    requires stock == Deduct(products, lines)
    ensures OrderLines(oid, lines, stock) == OrderLines(oid, lines, products)
  {
    var a, b := OrderLines(oid, lines, stock), OrderLines(oid, lines, products);
    assert forall k | 0 <= k < |lines| :: a[k] == b[k];
  }

  /** The order's total is the sum of unit price times quantity over its items. */
  lemma {:induction false} OrderTotalMatches(orderId: int, lines: seq<Line>, products: map<int, Product>)
    ensures ItemsTotal(OrderLines(orderId, lines, products)) == Total(products, lines)
  {
    if lines != [] {
      var init := lines[..|lines| - 1];
      var items := OrderLines(orderId, lines, products);
      assert items[..|items| - 1] == OrderLines(orderId, init, products);
      OrderTotalMatches(orderId, init, products);
    }
  }

  // ----- items of an order -----

  /** Two tables that agree below `bound` give every order the same sum. */
  lemma {:induction false} OrderSumAgree(t1: map<int, OrderItem>, t2: map<int, OrderItem>, orderId: int, bound: nat)
    requires forall k | 0 <= k < bound :: (k in t1 <==> k in t2)
    requires forall k | 0 <= k < bound && k in t1 :: t1[k] == t2[k]
    ensures OrderSum(t1, orderId, bound) == OrderSum(t2, orderId, bound)
  {
    if bound > 0 {
      OrderSumAgree(t1, t2, orderId, bound - 1);
    }
  }

  /** Keys in [lo, hi) that belong to other orders add nothing to this order's sum. */
  lemma {:induction false} OrderSumSkip(table: map<int, OrderItem>, orderId: int, lo: nat, hi: nat)
    requires lo <= hi
    requires forall k | lo <= k < hi && k in table :: table[k].orderId != orderId
    ensures OrderSum(table, orderId, hi) == OrderSum(table, orderId, lo)
  {
    if lo < hi {
      OrderSumSkip(table, orderId, lo, hi - 1);
    }
  }

  /** A run of items of this order stored at consecutive keys from `base` adds
      its own total to the order's sum. */
  lemma {:induction false} OrderSumRun(table: map<int, OrderItem>, orderId: int, base: nat, items: seq<OrderItem>)
    requires forall k | base <= k < base + |items| :: k in table && table[k] == items[k - base]
    requires forall j | 0 <= j < |items| :: items[j].orderId == orderId
    ensures OrderSum(table, orderId, base + |items|) == OrderSum(table, orderId, base) + ItemsTotal(items)
  {
    if items != [] {
      var init := items[..|items| - 1];
      OrderSumRun(table, orderId, base, init);
    }
  }

  /** Adding one order, together with its items stored at fresh consecutive
      keys, keeps every order's total equal to the sum over its items. */
  lemma PlaceOrderKeepsTotals(
    orders: map<int, Order>, items: map<int, OrderItem>, base: nat,
    oid: int, order: Order, placed: seq<OrderItem>, after: map<int, OrderItem>)
    requires forall k | k in items :: 0 <= k < base && items[k].orderId < oid
    requires oid !in orders
    requires forall o | o in orders :: orders[o].totalPrice == OrderSum(items, o, base)
    requires order.totalPrice == ItemsTotal(placed)
    requires forall j | 0 <= j < |placed| :: placed[j].orderId == oid
    requires forall k :: k in after <==> k in items || base <= k < base + |placed|
    requires forall k | k in items :: after[k] == items[k]
    requires forall k | base <= k < base + |placed| :: after[k] == placed[k - base]
    ensures order.totalPrice == OrderSum(after, oid, base + |placed|)
    ensures forall o | o in orders :: orders[o].totalPrice == OrderSum(after, o, base + |placed|)
  {
    OrderSumRun(after, oid, base, placed);
    OrderSumAgree(after, items, oid, base);
    OrderSumSkip(items, oid, 0, base);
    forall o | o in orders
      ensures orders[o].totalPrice == OrderSum(after, o, base + |placed|)
    {
      OrderSumSkip(after, o, base, base + |placed|);
      OrderSumAgree(after, items, o, base);
    }
  }
}
