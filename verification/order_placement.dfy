/** The order-placement transaction of the order controller (`processPayment`),
    stated as a function from the store before the call to the reply and the
    store after it. The class `OrderController.Database` runs the same steps
    one statement at a time and is proved to agree with `PlaceOrder`. */
module OrderPlacement {
  import opened Wrappers

  type ProductId = string

  /** A row of the `products` table, as far as the transaction reads or writes it. */
  datatype Product = Product(name: string, price: real, stock: int)

  /** One requested line: `{ productId, quantity }`. The source checks neither sign nor size of `quantity`. */
  datatype LineItem = LineItem(productId: ProductId, quantity: int)

  /** A row of the `orders` table. `orderStatus`, `currentStatus` and `completionDate` are left to
      their column defaults (None) by the insert and written by the status updates. */
  datatype Order = Order(
    orderId: int,
    customerId: int,
    totalAmount: real,
    paymentMethod: string,
    amountPaid: real,
    paymentStatus: string,
    orderDate: int,
    orderStatus: Option<string>,
    currentStatus: Option<string>,
    completionDate: Option<int>)

  /** A row of the `order_items` table; `unitPrice` is the product's price when the order was placed. */
  datatype OrderItem = OrderItem(orderId: int, productId: ProductId, quantity: int, unitPrice: real)

  /** The 201 reply: the new order id, the amount charged, the method and the total. */
  datatype Receipt = Receipt(orderId: int, amountPaid: real, paymentMethod: string, totalAmount: real)

  /** 404 customer, 404 product, 400 stock (message carries name and available stock), 500 storage error. */
  datatype OrderError =
    | CustomerNotFound
    | ProductNotFound(productId: ProductId)
    | InsufficientStock(productId: ProductId, name: string, available: int)
    | PersistenceFailure

  /** The tables the transaction touches; `nextOrderId` is the `orders` auto-increment counter. */
  datatype Store = Store(
    customers: set<int>,
    products: map<ProductId, Product>,
    orders: seq<Order>,
    orderItems: seq<OrderItem>,
    nextOrderId: int)

  /** The share of the total charged up front for an `advance` payment. */
  const AdvanceRate: real := 0.3

  /** Auto-increment ids are fresh: every stored order and item row uses an id below the counter,
      and order ids are distinct (the primary key). */
  ghost predicate WellFormed(s: Store)
  {
    && (forall i :: 0 <= i < |s.orders| ==> s.orders[i].orderId < s.nextOrderId)
    && (forall i :: 0 <= i < |s.orderItems| ==> s.orderItems[i].orderId < s.nextOrderId)
    && (forall i, j :: 0 <= i < j < |s.orders| ==> s.orders[i].orderId != s.orders[j].orderId)
  }

  // ---------------------------------------------------------------------------
  // Step 2: checking the lines

  /** The verdict on one line, against the stock read before any decrement. */
  function LineError(products: map<ProductId, Product>, item: LineItem): Option<OrderError>
  {
    if item.productId !in products then Some(ProductNotFound(item.productId))
    else if products[item.productId].stock < item.quantity then
      Some(InsufficientStock(item.productId, products[item.productId].name, products[item.productId].stock))
    else None
  }

  ghost predicate LinesOk(products: map<ProductId, Product>, items: seq<LineItem>)
  {
    forall k :: 0 <= k < |items| ==> LineError(products, items[k]) == None
  }

  ghost predicate AllKnown(products: map<ProductId, Product>, items: seq<LineItem>)
  {
    forall k :: 0 <= k < |items| ==> items[k].productId in products
  }

  /** The error of the first line, in input order, that fails its check. */
  function FirstFailure(products: map<ProductId, Product>, items: seq<LineItem>): Option<OrderError>
  {
    if |items| == 0 then None
    else if LineError(products, items[0]).Some? then LineError(products, items[0])
    else FirstFailure(products, items[1..])
  }

  /** No line fails exactly when every line passes. */
  lemma {:induction false} FirstFailureNone(products: map<ProductId, Product>, items: seq<LineItem>)
    ensures FirstFailure(products, items) == None <==> LinesOk(products, items)
  {
    if |items| > 0 {
      FirstFailureNone(products, items[1..]);
      assert forall k :: 1 <= k < |items| ==> items[k] == items[1..][k - 1];
    }
  }

  /** When lines `0 .. k-1` pass and line `k` fails, the reply is line `k`'s error. */
  lemma {:induction false} FirstFailureAt(products: map<ProductId, Product>, items: seq<LineItem>, k: nat)
    requires k < |items|
    requires LinesOk(products, items[..k])
    requires LineError(products, items[k]).Some?
    ensures FirstFailure(products, items) == LineError(products, items[k])
  {
    if k > 0 {
      assert items[..k][0] == items[0];
      assert items[1..][..k - 1] == items[..k][1..];
      FirstFailureAt(products, items[1..], k - 1);
    }
  }

  lemma LinesOkKnown(products: map<ProductId, Product>, items: seq<LineItem>)
    requires LinesOk(products, items)
    ensures AllKnown(products, items)
  {
    forall k | 0 <= k < |items| ensures items[k].productId in products {
      assert LineError(products, items[k]) == None;
    }
  }

  // ---------------------------------------------------------------------------
  // Steps 3-7: totals, rows and stock

  /** The running sum `totalAmount += price * quantity`, with the prices in the product table. */
  function Total(products: map<ProductId, Product>, items: seq<LineItem>): real
    requires AllKnown(products, items)
  {
    if |items| == 0 then 0.0
    else
      var last := items[|items| - 1];
      Total(products, items[..|items| - 1]) + products[last.productId].price * (last.quantity as real)
  }

  /** `advance` is charged `AdvanceRate` of the total; every other method string is charged in full. */
  function AmountToPay(total: real, paymentMethod: string): (paid: real)
    ensures paymentMethod == "advance" ==> paid == total * AdvanceRate
    ensures paymentMethod != "advance" ==> paid == total
  {
    if paymentMethod == "advance" then total * AdvanceRate else total
  }

  /** The bulk-inserted `order_items` rows: one per line, in input order, priced from the product table. */
  function ItemRows(orderId: int, products: map<ProductId, Product>, items: seq<LineItem>): (rows: seq<OrderItem>)
    requires AllKnown(products, items)
    ensures |rows| == |items|
  {
    seq(|items|, k requires 0 <= k < |items| =>
      OrderItem(orderId, items[k].productId, items[k].quantity, products[items[k].productId].price))
  }

  /** `UPDATE products SET stock = stock - quantity WHERE product_id = id` for one line. */
  function DecrementOne(products: map<ProductId, Product>, item: LineItem): map<ProductId, Product>
  {
    if item.productId in products then
      products[item.productId := products[item.productId].(stock := products[item.productId].stock - item.quantity)]
    else products
  }

  /** The stock updates of all lines, applied in input order. */
  function Decrement(products: map<ProductId, Product>, items: seq<LineItem>): map<ProductId, Product>
  {
    if |items| == 0 then products
    else DecrementOne(Decrement(products, items[..|items| - 1]), items[|items| - 1])
  }

  /** The total quantity requested of product `id` over all lines. */
  function QuantityOf(items: seq<LineItem>, id: ProductId): int
  {
    if |items| == 0 then 0
    else QuantityOf(items[..|items| - 1], id) + (if items[|items| - 1].productId == id then items[|items| - 1].quantity else 0)
  }

  function NewOrder(s: Store, customerId: int, items: seq<LineItem>, paymentMethod: string, now: int): Order
    requires AllKnown(s.products, items)
  {
    var total := Total(s.products, items);
    Order(s.nextOrderId, customerId, total, paymentMethod, AmountToPay(total, paymentMethod), "paid", now, None, None, None)
  }

  /** The number of writes the transaction issues: the order insert, the item insert and one update per line.
      `failingWrite == Some(k)` with `k` below this count makes write `k` fail. */
  function WriteCount(items: seq<LineItem>): nat
  {
    |items| + 2
  }

  /** `processPayment`: the reply and the store after the call. Every failure leaves the store as it was. */
  function PlaceOrder(s: Store, customerId: int, items: seq<LineItem>, paymentMethod: string, now: int,
                      failingWrite: Option<nat>): (out: (Result<Receipt, OrderError>, Store))
    ensures out.0.Failure? ==> out.1 == s
    ensures customerId !in s.customers ==> out.0 == Failure(CustomerNotFound)
    ensures customerId in s.customers && FirstFailure(s.products, items).Some? ==>
              out.0 == Failure(FirstFailure(s.products, items).value)
    ensures out.0.Success? ==>
              && customerId in s.customers
              && LinesOk(s.products, items)
              && out.1.customers == s.customers
              && out.1.products.Keys == s.products.Keys
              && out.0.value.orderId == s.nextOrderId
              && |out.1.orders| == |s.orders| + 1
              && out.1.orders[..|s.orders|] == s.orders
              && out.1.orders[|s.orders|].orderId == out.0.value.orderId
              && out.1.orders[|s.orders|].customerId == customerId
              && out.1.orders[|s.orders|].totalAmount == out.0.value.totalAmount
              && out.1.orders[|s.orders|].amountPaid == out.0.value.amountPaid
              && out.1.orders[|s.orders|].paymentMethod == paymentMethod == out.0.value.paymentMethod
              && out.1.orders[|s.orders|].paymentStatus == "paid"
              && |out.1.orderItems| == |s.orderItems| + |items|
              && out.1.orderItems[..|s.orderItems|] == s.orderItems
  {
    if customerId !in s.customers then (Failure(CustomerNotFound), s)
    else
      var failure := FirstFailure(s.products, items);
      if failure.Some? then (Failure(failure.value), s)
      else if failingWrite.Some? && failingWrite.value < WriteCount(items) then (Failure(PersistenceFailure), s)
      else
        FirstFailureNone(s.products, items);
        LinesOkKnown(s.products, items);
        var order := NewOrder(s, customerId, items, paymentMethod, now);
        var s' := s.(
          orders := s.orders + [order],
          orderItems := s.orderItems + ItemRows(order.orderId, s.products, items),
          products := Decrement(s.products, items),
          nextOrderId := s.nextOrderId + 1);
        DecrementKeys(s.products, items);
        assert s'.orderItems[..|s.orderItems|] == s.orderItems;
        assert s'.orders[..|s.orders|] == s.orders;
        (Success(Receipt(order.orderId, order.amountPaid, paymentMethod, order.totalAmount)), s')
  }

  /** The outcome of `PlaceOrder` once the customer and every line have passed and no write fails. */
  lemma PlaceOrderCommits(s: Store, customerId: int, items: seq<LineItem>, paymentMethod: string, now: int,
                          failingWrite: Option<nat>)
    requires customerId in s.customers
    requires FirstFailure(s.products, items) == None
    requires failingWrite.None? || failingWrite.value >= WriteCount(items)
    ensures AllKnown(s.products, items)
    ensures var order := NewOrder(s, customerId, items, paymentMethod, now);
            PlaceOrder(s, customerId, items, paymentMethod, now, failingWrite)
            == (Success(Receipt(order.orderId, order.amountPaid, paymentMethod, order.totalAmount)),
                s.(orders := s.orders + [order],
                   orderItems := s.orderItems + ItemRows(order.orderId, s.products, items),
                   products := Decrement(s.products, items),
                   nextOrderId := s.nextOrderId + 1))
  {
    FirstFailureNone(s.products, items);
    LinesOkKnown(s.products, items);
  }

  /** A write that fails after the checks passed rolls the whole transaction back. */
  lemma PlaceOrderWriteFails(s: Store, customerId: int, items: seq<LineItem>, paymentMethod: string, now: int,
                             failingWrite: Option<nat>)
    requires customerId in s.customers
    requires FirstFailure(s.products, items) == None
    requires failingWrite.Some? && failingWrite.value < WriteCount(items)
    ensures PlaceOrder(s, customerId, items, paymentMethod, now, failingWrite) == (Failure(PersistenceFailure), s)
  {
  }

  // ---------------------------------------------------------------------------
  // What a successful placement did

  lemma {:induction false} DecrementKeys(products: map<ProductId, Product>, items: seq<LineItem>)
    ensures Decrement(products, items).Keys == products.Keys
  {
    if |items| > 0 {
      DecrementKeys(products, items[..|items| - 1]);
    }
  }

  /** Each product's stock drops by the total quantity of its lines; name and price are untouched. */
  lemma {:induction false} DecrementStock(products: map<ProductId, Product>, items: seq<LineItem>)
    ensures Decrement(products, items).Keys == products.Keys
    ensures forall id :: id in products ==>
              Decrement(products, items)[id] == products[id].(stock := products[id].stock - QuantityOf(items, id))
  {
    DecrementKeys(products, items);
    if |items| > 0 {
      DecrementStock(products, items[..|items| - 1]);
    }
  }

  /** With distinct product ids, the quantity requested of a line's product is that line's quantity. */
  lemma {:induction false} QuantityOfDistinct(items: seq<LineItem>, k: nat)
    requires k < |items|
    requires forall i, j :: 0 <= i < j < |items| ==> items[i].productId != items[j].productId
    ensures QuantityOf(items, items[k].productId) == items[k].quantity
  {
    var n := |items| - 1;
    if k < n {
      QuantityOfDistinct(items[..n], k);
    } else {
      QuantityOfAbsent(items[..n], items[k].productId);
    }
  }

  lemma {:induction false} QuantityOfAbsent(items: seq<LineItem>, id: ProductId)
    requires forall i :: 0 <= i < |items| ==> items[i].productId != id
    ensures QuantityOf(items, id) == 0
  {
    if |items| > 0 {
      QuantityOfAbsent(items[..|items| - 1], id);
    }
  }

  /** Each new item row copies its line and the product's price at placement time. */
  lemma PlacedItems(s: Store, customerId: int, items: seq<LineItem>, paymentMethod: string, now: int,
                    failingWrite: Option<nat>)
    requires PlaceOrder(s, customerId, items, paymentMethod, now, failingWrite).0.Success?
    ensures var out := PlaceOrder(s, customerId, items, paymentMethod, now, failingWrite);
            forall k :: 0 <= k < |items| ==>
              && items[k].productId in s.products
              && out.1.orderItems[|s.orderItems| + k]
                 == OrderItem(out.0.value.orderId, items[k].productId, items[k].quantity, s.products[items[k].productId].price)
  {
    LinesOkKnown(s.products, items);
  }

  /** The stock of every product drops by the quantity ordered of it, and only the stock changes. */
  lemma PlacedStock(s: Store, customerId: int, items: seq<LineItem>, paymentMethod: string, now: int,
                    failingWrite: Option<nat>)
    requires PlaceOrder(s, customerId, items, paymentMethod, now, failingWrite).0.Success?
    ensures var p' := PlaceOrder(s, customerId, items, paymentMethod, now, failingWrite).1.products;
            && p'.Keys == s.products.Keys
            && forall id :: id in s.products ==>
                 p'[id] == s.products[id].(stock := s.products[id].stock - QuantityOf(items, id))
  {
    DecrementStock(s.products, items);
  }

  /** With distinct product ids, a successful order leaves no ordered product with negative stock. */
  lemma PlacedStockNonNegative(s: Store, customerId: int, items: seq<LineItem>, paymentMethod: string, now: int,
                               failingWrite: Option<nat>)
    requires forall i, j :: 0 <= i < j < |items| ==> items[i].productId != items[j].productId
    requires PlaceOrder(s, customerId, items, paymentMethod, now, failingWrite).0.Success?
    ensures var p' := PlaceOrder(s, customerId, items, paymentMethod, now, failingWrite).1.products;
            forall k :: 0 <= k < |items| ==> items[k].productId in p' && p'[items[k].productId].stock >= 0
  {
    DecrementStock(s.products, items);
    forall k | 0 <= k < |items|
      ensures items[k].productId in s.products && s.products[items[k].productId].stock >= QuantityOf(items, items[k].productId)
    {
      assert LineError(s.products, items[k]) == None;
      QuantityOfDistinct(items, k);
    }
  }

  /** A well-formed store stays well-formed: the new order id is fresh and the counter moves past it. */
  lemma PlacePreservesWellFormed(s: Store, customerId: int, items: seq<LineItem>, paymentMethod: string, now: int,
                                 failingWrite: Option<nat>)
    requires WellFormed(s)
    ensures WellFormed(PlaceOrder(s, customerId, items, paymentMethod, now, failingWrite).1)
  {
    var out := PlaceOrder(s, customerId, items, paymentMethod, now, failingWrite);
    if out.0.Success? {
      LinesOkKnown(s.products, items);
      assert out.1.orderItems == s.orderItems + ItemRows(s.nextOrderId, s.products, items);
    }
  }

  // ---------------------------------------------------------------------------
  // Repeated product lines

  /** The stock check compares every line with the stock read before the order, so two lines of one
      product that each fit pass together even when their sum does not: here stock 5 ends at -1. */
  lemma DuplicateLinesOverdraw()
    ensures var s := Store({1}, map["P" := Product("Cake", 10.0, 5)], [], [], 1);
            var out := PlaceOrder(s, 1, [LineItem("P", 3), LineItem("P", 3)], "full", 0, None);
            out.0.Success? && out.1.products["P"].stock == -1
  {
    var s := Store({1}, map["P" := Product("Cake", 10.0, 5)], [], [], 1);
    var items := [LineItem("P", 3), LineItem("P", 3)];
    assert FirstFailure(s.products, items[1..]) == None;
    assert FirstFailure(s.products, items) == None;
    assert items[..1][..0] == [];
    assert QuantityOf(items[..1], "P") == 3;
    assert QuantityOf(items, "P") == 6;
    PlacedStock(s, 1, items, "full", 0, None);
  }

  /** The evidently intended check of the last line: against the stock left after the earlier
      lines of the same product in this request. */
  function CumulativeLineError(products: map<ProductId, Product>, items: seq<LineItem>): Option<OrderError>
    requires |items| > 0
  {
    var last := items[|items| - 1];
    if last.productId !in products then Some(ProductNotFound(last.productId))
    else if products[last.productId].stock < QuantityOf(items, last.productId) then
      Some(InsufficientStock(last.productId, products[last.productId].name,
                             products[last.productId].stock - QuantityOf(items[..|items| - 1], last.productId)))
    else None
  }

  /** The first line, in input order, whose cumulative check fails. */
  function FirstCumulativeFailure(products: map<ProductId, Product>, items: seq<LineItem>): Option<OrderError>
  {
    if |items| == 0 then None
    else if FirstCumulativeFailure(products, items[..|items| - 1]).Some? then
      FirstCumulativeFailure(products, items[..|items| - 1])
    else CumulativeLineError(products, items)
  }

  /** When the cumulative check passes, no product is asked for more than its stock in total. */
  lemma {:induction false} CumulativeCheckCoversTotals(products: map<ProductId, Product>, items: seq<LineItem>)
    requires FirstCumulativeFailure(products, items) == None
    ensures forall k :: 0 <= k < |items| ==>
              items[k].productId in products && QuantityOf(items, items[k].productId) <= products[items[k].productId].stock
  {
    if |items| > 0 {
      var n := |items| - 1;
      CumulativeCheckCoversTotals(products, items[..n]);
      forall k | 0 <= k < |items|
        ensures items[k].productId in products && QuantityOf(items, items[k].productId) <= products[items[k].productId].stock
      {
        if k < n && items[k].productId != items[n].productId {
          assert items[..n][k] == items[k];
        }
      }
    }
  }

  /** `processPayment` with the cumulative stock check in front of the per-line one. */
  function PlaceOrderCorrected(s: Store, customerId: int, items: seq<LineItem>, paymentMethod: string, now: int,
                               failingWrite: Option<nat>): (out: (Result<Receipt, OrderError>, Store))
    ensures out.0.Failure? ==> out.1 == s
  {
    if customerId !in s.customers then (Failure(CustomerNotFound), s)
    else if FirstCumulativeFailure(s.products, items).Some? then (Failure(FirstCumulativeFailure(s.products, items).value), s)
    else PlaceOrder(s, customerId, items, paymentMethod, now, failingWrite)
  }

  /** With the cumulative check, a successful order leaves no ordered product with negative stock,
      whether or not its lines repeat a product. */
  lemma CorrectedPlacementKeepsStock(s: Store, customerId: int, items: seq<LineItem>, paymentMethod: string, now: int,
                                     failingWrite: Option<nat>)
    requires PlaceOrderCorrected(s, customerId, items, paymentMethod, now, failingWrite).0.Success?
    ensures var p' := PlaceOrderCorrected(s, customerId, items, paymentMethod, now, failingWrite).1.products;
            forall k :: 0 <= k < |items| ==> items[k].productId in p' && p'[items[k].productId].stock >= 0
  {
    CumulativeCheckCoversTotals(s.products, items);
    PlacedStock(s, customerId, items, paymentMethod, now, failingWrite);
  }
}
