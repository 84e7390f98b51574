/** The order controller: the order listing (`getAllOrders`), the status and payment
    updates on `orders` and `custom_orders`, and the `Database` whose methods run
    these handlers, and `processPayment`, statement by statement. */
module OrderController {
  import opened Wrappers
  import opened Sequences
  import opened OrderPlacement

  // ---------------------------------------------------------------------------
  // getAllOrders: balance and subtotals

  /** The balance still due: `total - paid` for `advance` orders and 0 for every other method. */
  function Balance(o: Order): real
  {
    if o.paymentMethod == "advance" then o.totalAmount - o.amountPaid else 0.0
  }

  /** `payment_complete: balance <= 0`. */
  predicate PaymentComplete(o: Order)
  {
    Balance(o) <= 0.0
  }

  function Subtotal(item: OrderItem): real
  {
    (item.quantity as real) * item.unitPrice
  }

  /** The sum of the item rows' subtotals. */
  function SubtotalSum(rows: seq<OrderItem>): real
  {
    if |rows| == 0 then 0.0 else SubtotalSum(rows[..|rows| - 1]) + Subtotal(rows[|rows| - 1])
  }

  /** `SELECT * FROM order_items WHERE order_id = ?`. */
  function ItemsOf(rows: seq<OrderItem>, orderId: int): seq<OrderItem>
  {
    Filter(rows, (item: OrderItem) => item.orderId == orderId)
  }

  datatype ItemView = ItemView(productId: ProductId, quantity: int, unitPrice: real, subtotal: real)

  /** One element of the `getAllOrders` reply (customer contact details are not modelled). */
  datatype OrderView = OrderView(
    orderId: int,
    orderDate: int,
    currentStatus: Option<string>,
    customerId: int,
    totalAmount: real,
    paymentStatus: string,
    paymentMethod: string,
    amountPaid: real,
    balance: real,
    paymentComplete: bool,
    items: seq<ItemView>,
    itemsCount: nat)

  /** One element of the `getAllOrders` reply: the order's fields, the balance still due, and one
      item per item row of the order with its subtotal. */
  function ViewOf(o: Order, rows: seq<OrderItem>): (v: OrderView)
    ensures v.orderId == o.orderId && v.customerId == o.customerId && v.orderDate == o.orderDate
    ensures v.currentStatus == o.currentStatus
    ensures v.totalAmount == o.totalAmount && v.amountPaid == o.amountPaid
    ensures v.paymentStatus == o.paymentStatus && v.paymentMethod == o.paymentMethod
    ensures v.balance == (if o.paymentMethod == "advance" then o.totalAmount - o.amountPaid else 0.0)
    ensures v.itemsCount == |v.items| == |ItemsOf(rows, o.orderId)|
    ensures forall k :: 0 <= k < |v.items| ==> v.items[k].subtotal == Subtotal(ItemsOf(rows, o.orderId)[k])
    ensures v.paymentComplete <==> v.balance <= 0.0
    ensures forall k :: 0 <= k < |v.items| ==>
              var row := ItemsOf(rows, o.orderId)[k];
              && row.orderId == o.orderId
              && v.items[k].productId == row.productId && v.items[k].quantity == row.quantity
              && v.items[k].unitPrice == row.unitPrice
  {
    var mine := ItemsOf(rows, o.orderId);
    assert forall k :: 0 <= k < |mine| ==> mine[k].orderId == o.orderId by {
      forall k | 0 <= k < |mine| ensures mine[k].orderId == o.orderId {
        assert mine[k] in mine;
      }
    }
    var items := seq(|mine|, k requires 0 <= k < |mine| =>
      ItemView(mine[k].productId, mine[k].quantity, mine[k].unitPrice, Subtotal(mine[k])));
    OrderView(o.orderId, o.orderDate, o.currentStatus, o.customerId, o.totalAmount, o.paymentStatus,
              o.paymentMethod, o.amountPaid, Balance(o), PaymentComplete(o), items, |items|)
  }

  /** `ORDER BY o.order_date DESC`. */
  predicate NewestFirst(a: Order, b: Order)
  {
    a.orderDate >= b.orderDate
  }

  lemma NewestFirstIsPreorder()
    ensures TotalPreorder(NewestFirst)
  {
  }

  /** The orders whose customer exists (the inner join), newest first. */
  function JoinedNewestFirst(customers: set<int>, orders: seq<Order>): (r: seq<Order>)
    ensures multiset(r) == multiset(Filter(orders, (o: Order) => o.customerId in customers))
    ensures forall o :: o in r <==> o in orders && o.customerId in customers
    ensures forall i, j :: 0 <= i < j < |r| ==> r[i].orderDate >= r[j].orderDate
  {
    var joined := Filter(orders, (o: Order) => o.customerId in customers);
    NewestFirstIsPreorder();
    var sorted := Sort(joined, NewestFirst);
    assert forall o :: o in sorted <==> o in joined by {
      forall o ensures o in sorted <==> o in joined {
        assert o in sorted <==> o in multiset(sorted);
        assert o in joined <==> o in multiset(joined);
      }
    }
    sorted
  }

  /** `getAllOrders`: one view for each order whose customer exists, and for no other order,
      newest first. */
  function AllOrderViews(customers: set<int>, orders: seq<Order>, rows: seq<OrderItem>): (views: seq<OrderView>)
    ensures |views| == |Filter(orders, (o: Order) => o.customerId in customers)|
    ensures forall o :: o in orders && o.customerId in customers ==> ViewOf(o, rows) in views
    ensures forall k :: 0 <= k < |views| ==> views[k].customerId in customers
    ensures forall k :: 0 <= k < |views| ==> exists o :: o in orders && views[k] == ViewOf(o, rows)
    ensures forall i, j :: 0 <= i < j < |views| ==> views[i].orderDate >= views[j].orderDate
  {
    var sorted := JoinedNewestFirst(customers, orders);
    var views := seq(|sorted|, k requires 0 <= k < |sorted| => ViewOf(sorted[k], rows));
    ViewsOfJoined(customers, orders, rows, sorted, views);
    views
  }

  lemma ViewsOfJoined(customers: set<int>, orders: seq<Order>, rows: seq<OrderItem>,
                      sorted: seq<Order>, views: seq<OrderView>)
    requires sorted == JoinedNewestFirst(customers, orders)
    requires |views| == |sorted| && forall k :: 0 <= k < |sorted| ==> views[k] == ViewOf(sorted[k], rows)
    ensures |views| == |Filter(orders, (o: Order) => o.customerId in customers)|
    ensures forall o :: o in orders && o.customerId in customers ==> ViewOf(o, rows) in views
    ensures forall k :: 0 <= k < |views| ==> views[k].customerId in customers
    ensures forall k :: 0 <= k < |views| ==> exists o :: o in orders && views[k] == ViewOf(o, rows)
    ensures forall i, j :: 0 <= i < j < |views| ==> views[i].orderDate >= views[j].orderDate
  {
    var joined := Filter(orders, (o: Order) => o.customerId in customers);
    assert |multiset(sorted)| == |multiset(joined)|;
    forall o | o in orders && o.customerId in customers ensures ViewOf(o, rows) in views {
      assert o in sorted;
      var k :| 0 <= k < |sorted| && sorted[k] == o;
      assert views[k] == ViewOf(o, rows);
    }
    forall k | 0 <= k < |views| ensures views[k].customerId in customers {
      assert sorted[k] in sorted;
      assert views[k].customerId == sorted[k].customerId;
    }
    forall k | 0 <= k < |views| ensures exists o :: o in orders && views[k] == ViewOf(o, rows) {
      assert sorted[k] in sorted;
    }
    forall i, j | 0 <= i < j < |views| ensures views[i].orderDate >= views[j].orderDate {
      assert views[i].orderDate == sorted[i].orderDate && views[j].orderDate == sorted[j].orderDate;
    }
  }

  lemma {:induction false} SubtotalSumOfRows(orderId: int, products: map<ProductId, Product>, items: seq<LineItem>)
    requires AllKnown(products, items)
    ensures SubtotalSum(ItemRows(orderId, products, items)) == Total(products, items)
  {
    if |items| > 0 {
      var n := |items| - 1;
      assert ItemRows(orderId, products, items)[..n] == ItemRows(orderId, products, items[..n]);
      SubtotalSumOfRows(orderId, products, items[..n]);
    }
  }

  /** Appending rows under a fresh order id: that id's items are exactly the appended rows. */
  lemma {:induction false} ItemsOfFresh(old_rows: seq<OrderItem>, rows: seq<OrderItem>, id: int)
    requires forall i :: 0 <= i < |old_rows| ==> old_rows[i].orderId < id
    requires forall i :: 0 <= i < |rows| ==> rows[i].orderId == id
    ensures ItemsOf(old_rows + rows, id) == rows
  {
    var p := (item: OrderItem) => item.orderId == id;
    FilterAppend(old_rows, rows, p);
    FilterNone(old_rows, p);
    FilterAll(rows, p);
  }

  /** The listing of an order just placed: exactly its item rows, whose subtotals add up to its total,
      and a balance of 70% of the total for `advance` and 0 otherwise. */
  lemma PlacedOrderView(s: Store, customerId: int, items: seq<LineItem>, paymentMethod: string, now: int,
                        failingWrite: Option<nat>)
    requires WellFormed(s)
    requires PlaceOrder(s, customerId, items, paymentMethod, now, failingWrite).0.Success?
    ensures var out := PlaceOrder(s, customerId, items, paymentMethod, now, failingWrite);
            var o := out.1.orders[|s.orders|];
            && AllKnown(s.products, items)
            && ItemsOf(out.1.orderItems, o.orderId) == ItemRows(o.orderId, s.products, items)
            && SubtotalSum(ItemsOf(out.1.orderItems, o.orderId)) == o.totalAmount
            && o.amountPaid == AmountToPay(o.totalAmount, paymentMethod)
            && Balance(o) == (if paymentMethod == "advance" then o.totalAmount * (1.0 - AdvanceRate) else 0.0)
            && (PaymentComplete(o) <==> paymentMethod != "advance" || o.totalAmount <= 0.0)
  {
    var out := PlaceOrder(s, customerId, items, paymentMethod, now, failingWrite);
    LinesOkKnown(s.products, items);
    var id := s.nextOrderId;
    var o := NewOrder(s, customerId, items, paymentMethod, now);
    assert out.1.orders[|s.orders|] == o;
    var rows := ItemRows(id, s.products, items);
    assert out.1.orderItems == s.orderItems + rows;
    ItemsOfFresh(s.orderItems, rows, id);
    SubtotalSumOfRows(id, s.products, items);
  }

  // ---------------------------------------------------------------------------
  // updateNewOrderStatus

  const AllowedOrderStatuses: seq<string> := ["ready", "20min", "30min", "45min", "60min"]
  const AllowedCurrentStatuses: seq<string> := ["processing", "completed", "pending", "ready to pickup", "cancelled"]

  /** The request body `{ order_id, order_status, current_status }`; a missing field is None. */
  datatype StatusRequest = StatusRequest(orderId: Option<int>, orderStatus: Option<string>, currentStatus: Option<string>)

  datatype StatusError =
    | OrderIdRequired
    | StatusRequired
    | InvalidOrderStatus
    | InvalidCurrentStatus
    | OrderNotFound

  /** The checks made before the order is looked up, in the source's order. */
  function CheckStatusRequest(req: StatusRequest): (e: Option<StatusError>)
    ensures e == None <==>
              && IntGiven(req.orderId)
              && (TextGiven(req.orderStatus) || TextGiven(req.currentStatus))
              && (TextGiven(req.orderStatus) ==> req.orderStatus.value in AllowedOrderStatuses)
              && (TextGiven(req.currentStatus) ==> req.currentStatus.value in AllowedCurrentStatuses)
    ensures !IntGiven(req.orderId) ==> e == Some(OrderIdRequired)
  {
    if !IntGiven(req.orderId) then Some(OrderIdRequired)
    else if !TextGiven(req.orderStatus) && !TextGiven(req.currentStatus) then Some(StatusRequired)
    else if TextGiven(req.orderStatus) && req.orderStatus.value !in AllowedOrderStatuses then Some(InvalidOrderStatus)
    else if TextGiven(req.currentStatus) && req.currentStatus.value !in AllowedCurrentStatuses then Some(InvalidCurrentStatus)
    else None
  }

  /** One entry of `updateFields`. */
  datatype Assignment =
    | SetOrderStatus(status: string)
    | SetCurrentStatus(status: string)
    | SetCompletionDateNow
    | SetPaymentRefunded

  /** The `updateFields` list the handler builds for the order `current` it looked up. */
  function UpdateFields(req: StatusRequest, current: Order): seq<Assignment>
  {
    (if TextGiven(req.orderStatus) then [SetOrderStatus(req.orderStatus.value)] else [])
    + (if TextGiven(req.currentStatus) then
         [SetCurrentStatus(req.currentStatus.value)]
         + (if req.currentStatus.value == "completed" then [SetCompletionDateNow]
            else if req.currentStatus.value == "cancelled" && current.paymentStatus == "paid" then [SetPaymentRefunded]
            else [])
       else [])
  }

  function Assign(o: Order, a: Assignment, now: int): Order
  {
    match a
    case SetOrderStatus(s) => o.(orderStatus := Some(s))
    case SetCurrentStatus(s) => o.(currentStatus := Some(s))
    case SetCompletionDateNow => o.(completionDate := Some(now))
    case SetPaymentRefunded => o.(paymentStatus := "refunded")
  }

  /** `UPDATE orders SET <fields>` on one row, the fields applied in list order. */
  function AssignAll(o: Order, fields: seq<Assignment>, now: int): (r: Order)
    ensures r.orderId == o.orderId
    decreases |fields|
  {
    if |fields| == 0 then o else AssignAll(Assign(o, fields[0], now), fields[1..], now)
  }

  /** The fields written for `current_status` alone. */
  lemma CurrentStatusFields(o: Order, req: StatusRequest, current: Order, now: int)
    requires TextGiven(req.currentStatus)
    ensures var f := UpdateFields(req.(orderStatus := None), current);
            var o' := AssignAll(o, f, now);
            && o'.currentStatus == req.currentStatus
            && o'.completionDate == (if req.currentStatus == Some("completed") then Some(now) else o.completionDate)
            && o'.paymentStatus ==
                 (if req.currentStatus == Some("cancelled") && current.paymentStatus == "paid" then "refunded"
                  else o.paymentStatus)
            && o'.(currentStatus := o.currentStatus, completionDate := o.completionDate, paymentStatus := o.paymentStatus) == o
  {
    var cs := req.currentStatus.value;
    var f := UpdateFields(req.(orderStatus := None), current);
    var o1 := Assign(o, SetCurrentStatus(cs), now);
    if cs == "completed" {
      assert f == [SetCurrentStatus(cs), SetCompletionDateNow];
      assert f[1..] == [SetCompletionDateNow];
      assert f[1..][1..] == [];
      assert AssignAll(o1, f[1..], now) == Assign(o1, SetCompletionDateNow, now);
    } else if cs == "cancelled" && current.paymentStatus == "paid" {
      assert f == [SetCurrentStatus(cs), SetPaymentRefunded];
      assert f[1..] == [SetPaymentRefunded];
      assert f[1..][1..] == [];
      assert AssignAll(o1, f[1..], now) == Assign(o1, SetPaymentRefunded, now);
    } else {
      assert f == [SetCurrentStatus(cs)];
      assert AssignAll(o, f, now) == o1;
    }
  }

  /** Only the requested fields change: the order status and the current status when given, the
      completion date when the order is completed, and the payment status when a paid order is
      cancelled. */
  lemma UpdateChangesOnlyRequested(o: Order, req: StatusRequest, current: Order, now: int)
    ensures var o' := AssignAll(o, UpdateFields(req, current), now);
            && o'.orderStatus == (if TextGiven(req.orderStatus) then req.orderStatus else o.orderStatus)
            && o'.currentStatus == (if TextGiven(req.currentStatus) then req.currentStatus else o.currentStatus)
            && o'.completionDate == (if req.currentStatus == Some("completed") then Some(now) else o.completionDate)
            && o'.paymentStatus ==
                 (if req.currentStatus == Some("cancelled") && current.paymentStatus == "paid" then "refunded"
                  else o.paymentStatus)
            && o'.(orderStatus := o.orderStatus, currentStatus := o.currentStatus,
                   completionDate := o.completionDate, paymentStatus := o.paymentStatus) == o
  {
    var f := UpdateFields(req, current);
    var g := UpdateFields(req.(orderStatus := None), current);
    var o1 := if TextGiven(req.orderStatus) then o.(orderStatus := req.orderStatus) else o;
    if TextGiven(req.orderStatus) {
      assert f == [SetOrderStatus(req.orderStatus.value)] + g;
      assert f[1..] == g;
    } else {
      assert f == g;
    }
    assert AssignAll(o, f, now) == AssignAll(o1, g, now);
    if TextGiven(req.currentStatus) {
      CurrentStatusFields(o1, req, current, now);
    } else {
      assert g == [];
    }
  }

  /** `UPDATE orders SET <fields> WHERE order_id = id`: every matching row is updated. */
  function UpdateWhere(orders: seq<Order>, id: int, fields: seq<Assignment>, now: int): (r: seq<Order>)
    ensures |r| == |orders|
    ensures forall i :: 0 <= i < |orders| ==>
              r[i] == if orders[i].orderId == id then AssignAll(orders[i], fields, now) else orders[i]
    ensures forall i :: 0 <= i < |orders| ==> r[i].orderId == orders[i].orderId
  {
    seq(|orders|, i requires 0 <= i < |orders| =>
      if orders[i].orderId == id then AssignAll(orders[i], fields, now) else orders[i])
  }

  function HasId(id: int): Order -> bool
  {
    (o: Order) => o.orderId == id
  }

  /** `updateNewOrderStatus`: the reply (the updated order) and the orders table afterwards. */
  function NewOrderStatusUpdate(orders: seq<Order>, req: StatusRequest, now: int): (out: (Result<Order, StatusError>, seq<Order>))
    ensures out.0.Failure? ==> out.1 == orders
    ensures CheckStatusRequest(req).Some? ==> out.0 == Failure(CheckStatusRequest(req).value)
    ensures CheckStatusRequest(req) == None ==>
              (out.0 == Failure(OrderNotFound) <==> forall i :: 0 <= i < |orders| ==> orders[i].orderId != req.orderId.value)
    ensures CheckStatusRequest(req) == None ==>
              (out.0.Success? <==> exists i :: 0 <= i < |orders| && orders[i].orderId == req.orderId.value)
    ensures out.0.Success? ==>
              var id := req.orderId.value;
              var k := FirstIndex(orders, HasId(id));
              && 0 <= k < |orders|
              && out.1 == UpdateWhere(orders, id, UpdateFields(req, orders[k]), now)
              && out.0.value == out.1[k]
              && out.0.value.orderId == id
  {
    match CheckStatusRequest(req)
    case Some(e) => (Failure(e), orders)
    case None =>
      var id := req.orderId.value;
      var k := FirstIndex(orders, HasId(id));
      if k < 0 then (Failure(OrderNotFound), orders)
      else
        var updated := UpdateWhere(orders, id, UpdateFields(req, orders[k]), now);
        (Success(updated[k]), updated)
  }

  /** A successful `updateNewOrderStatus` changes, in every row with the order id, only the given
      statuses, the completion date of a completed order and the payment status of a cancelled paid
      order (paid as the order read before the update was); every other row is untouched. */
  lemma StatusUpdateChangesOnlyRequested(orders: seq<Order>, req: StatusRequest, now: int)
    requires NewOrderStatusUpdate(orders, req, now).0.Success?
    ensures var out := NewOrderStatusUpdate(orders, req, now).1;
            var id := req.orderId.value;
            var current := orders[FirstIndex(orders, HasId(id))];
            && |out| == |orders|
            && (forall i :: 0 <= i < |orders| && orders[i].orderId != id ==> out[i] == orders[i])
            && (forall i :: 0 <= i < |orders| && orders[i].orderId == id ==>
                  && out[i].orderStatus == (if TextGiven(req.orderStatus) then req.orderStatus else orders[i].orderStatus)
                  && out[i].currentStatus == (if TextGiven(req.currentStatus) then req.currentStatus else orders[i].currentStatus)
                  && out[i].completionDate ==
                       (if req.currentStatus == Some("completed") then Some(now) else orders[i].completionDate)
                  && out[i].paymentStatus ==
                       (if req.currentStatus == Some("cancelled") && current.paymentStatus == "paid" then "refunded"
                        else orders[i].paymentStatus)
                  && out[i].(orderStatus := orders[i].orderStatus, currentStatus := orders[i].currentStatus,
                             completionDate := orders[i].completionDate, paymentStatus := orders[i].paymentStatus)
                     == orders[i])
  {
    var id := req.orderId.value;
    var current := orders[FirstIndex(orders, HasId(id))];
    forall i | 0 <= i < |orders| && orders[i].orderId == id
      ensures var o' := AssignAll(orders[i], UpdateFields(req, current), now);
              && o'.orderStatus == (if TextGiven(req.orderStatus) then req.orderStatus else orders[i].orderStatus)
              && o'.currentStatus == (if TextGiven(req.currentStatus) then req.currentStatus else orders[i].currentStatus)
              && o'.completionDate == (if req.currentStatus == Some("completed") then Some(now) else orders[i].completionDate)
              && o'.paymentStatus ==
                   (if req.currentStatus == Some("cancelled") && current.paymentStatus == "paid" then "refunded"
                    else orders[i].paymentStatus)
              && o'.(orderStatus := orders[i].orderStatus, currentStatus := orders[i].currentStatus,
                     completionDate := orders[i].completionDate, paymentStatus := orders[i].paymentStatus) == orders[i]
    {
      UpdateChangesOnlyRequested(orders[i], req, current, now);
    }
  }

  // ---------------------------------------------------------------------------
  // updateAmountPaid

  /** `{ orderId, amount_paid }`; `amount` is None when `isNaN(amount_paid)`. */
  datatype PaymentRequest = PaymentRequest(orderId: Option<int>, amount: Option<real>)

  datatype PaymentError = InvalidInput | PaymentOrderNotFound | AmountOutOfRange(totalAmount: real)

  /** `UPDATE orders SET amount_paid = ?, payment_status = 'paid' WHERE order_id = ?`: the rows with
      the id now record the amount as paid, rows without it are untouched, and no row changes in any
      other field. */
  function PayWhere(orders: seq<Order>, id: int, amount: real): (r: seq<Order>)
    ensures |r| == |orders|
    ensures forall i :: 0 <= i < |orders| && orders[i].orderId != id ==> r[i] == orders[i]
    ensures forall i :: 0 <= i < |orders| && orders[i].orderId == id ==> r[i].amountPaid == amount && r[i].paymentStatus == "paid"
    ensures forall i :: 0 <= i < |orders| ==>
              r[i].(amountPaid := orders[i].amountPaid, paymentStatus := orders[i].paymentStatus) == orders[i]
  {
    seq(|orders|, i requires 0 <= i < |orders| =>
      if orders[i].orderId == id then orders[i].(amountPaid := amount, paymentStatus := "paid") else orders[i])
  }

  /** `updateAmountPaid`: the updated order with its items, and the orders table afterwards. */
  function AmountPaidUpdate(orders: seq<Order>, rows: seq<OrderItem>, req: PaymentRequest)
    : (out: (Result<(Order, seq<OrderItem>), PaymentError>, seq<Order>))
    ensures out.0.Failure? ==> out.1 == orders
    ensures !IntGiven(req.orderId) || req.amount.None? ==> out.0 == Failure(InvalidInput)
    ensures IntGiven(req.orderId) && req.amount.Some? ==>
              (out.0 == Failure(PaymentOrderNotFound) <==> forall i :: 0 <= i < |orders| ==> orders[i].orderId != req.orderId.value)
    ensures out.0.Success? ==> out.0.value.0.orderId == req.orderId.value && out.0.value.0 in out.1
    ensures IntGiven(req.orderId) && req.amount.Some? && FirstIndex(orders, HasId(req.orderId.value)) >= 0 ==>
              var total := orders[FirstIndex(orders, HasId(req.orderId.value))].totalAmount;
              && (out.0.Success? <==> 0.0 <= req.amount.value <= total)
              && (out.0.Failure? ==> out.0 == Failure(AmountOutOfRange(total)))
    ensures out.0.Success? ==>
              && |out.1| == |orders|
              && var o := out.0.value.0;
                 o.amountPaid == req.amount.value && o.paymentStatus == "paid"
                 && 0.0 <= o.amountPaid <= o.totalAmount
                 && out.0.value.1 == ItemsOf(rows, o.orderId)
  {
    if !IntGiven(req.orderId) || req.amount.None? then (Failure(InvalidInput), orders)
    else
      var id := req.orderId.value;
      var k := FirstIndex(orders, HasId(id));
      if k < 0 then (Failure(PaymentOrderNotFound), orders)
      else
        var total := orders[k].totalAmount;
        var amount := req.amount.value;
        if amount < 0.0 || amount > total then (Failure(AmountOutOfRange(total)), orders)
        else
          var updated := PayWhere(orders, id, amount);
          (Success((updated[k], ItemsOf(rows, id))), updated)
  }

  /** A payment out of range, or for a missing order, changes nothing; an accepted one changes only
      the amount paid and the payment status of the matching rows. */
  lemma AmountPaidUpdateFrame(orders: seq<Order>, rows: seq<OrderItem>, req: PaymentRequest)
    ensures var out := AmountPaidUpdate(orders, rows, req);
            && (req.amount.Some? && IntGiven(req.orderId) &&
                (exists i :: 0 <= i < |orders| && orders[i].orderId == req.orderId.value) &&
                out.0.Failure? ==>
                  && FirstIndex(orders, HasId(req.orderId.value)) >= 0
                  && var total := orders[FirstIndex(orders, HasId(req.orderId.value))].totalAmount;
                     out.0 == Failure(AmountOutOfRange(total))
                     && (req.amount.value < 0.0 || req.amount.value > total))
            && (req.amount.Some? && IntGiven(req.orderId) &&
                (exists i :: 0 <= i < |orders| && orders[i].orderId == req.orderId.value) &&
                (forall i :: 0 <= i < |orders| && orders[i].orderId == req.orderId.value ==>
                   0.0 <= req.amount.value <= orders[i].totalAmount) ==>
                  out.0.Success?)
            && (out.0.Success? ==>
                  forall i :: 0 <= i < |orders| ==>
                    out.1[i] == if orders[i].orderId == req.orderId.value
                                then orders[i].(amountPaid := req.amount.value, paymentStatus := "paid")
                                else orders[i])
  {
  }

  // ---------------------------------------------------------------------------
  // updateOrderStatus (custom orders)

  datatype CustomOrder = CustomOrder(orderId: int, customerId: int, description: string, quantity: int,
                                     status: string, specialNotes: Option<string>)

  const CustomOrderStatuses: seq<string> := ["pending", "in_progress", "completed", "cancelled"]

  datatype CustomStatusError = IdAndStatusRequired | InvalidStatus | CustomOrderNotFound

  /** `updateOrderStatus`: the custom orders table afterwards, or the error. */
  function CustomStatusUpdate(rows: seq<CustomOrder>, orderId: Option<int>, status: Option<string>)
    : (out: (Result<(), CustomStatusError>, seq<CustomOrder>))
    ensures out.0.Failure? ==> out.1 == rows
    ensures out.0.Success? <==>
              && IntGiven(orderId) && TextGiven(status) && status.value in CustomOrderStatuses
              && exists i :: 0 <= i < |rows| && rows[i].orderId == orderId.value
    ensures out.0.Success? ==>
              |out.1| == |rows|
              && forall i :: 0 <= i < |rows| ==>
                   out.1[i] == if rows[i].orderId == orderId.value then rows[i].(status := status.value) else rows[i]
  {
    if !IntGiven(orderId) || !TextGiven(status) then (Failure(IdAndStatusRequired), rows)
    else if status.value !in CustomOrderStatuses then (Failure(InvalidStatus), rows)
    else
      var id := orderId.value;
      if forall i :: 0 <= i < |rows| ==> rows[i].orderId != id then (Failure(CustomOrderNotFound), rows)
      else
        (Success(()), seq(|rows|, i requires 0 <= i < |rows| =>
                            if rows[i].orderId == id then rows[i].(status := status.value) else rows[i]))
  }

  // ---------------------------------------------------------------------------
  // The database the handlers share

  /** Step 2 of `processPayment`: the lines are checked in input order against the product rows
      read under lock, and the total is accumulated as the loop goes. */
  method ValidateLines(products: map<ProductId, Product>, items: seq<LineItem>)
    returns (failure: Option<OrderError>, totalAmount: real)
    ensures failure == FirstFailure(products, items)
    ensures failure == None ==> AllKnown(products, items) && totalAmount == Total(products, items)
  {
    totalAmount := 0.0;
    var i := 0;
    while i < |items|
      invariant 0 <= i <= |items|
      invariant LinesOk(products, items[..i])
      invariant AllKnown(products, items[..i])
      invariant totalAmount == Total(products, items[..i])
    {
      var item := items[i];
      if item.productId !in products {
        FirstFailureAt(products, items, i);
        return Some(ProductNotFound(item.productId)), totalAmount;
      }
      var product := products[item.productId];
      if product.stock < item.quantity {
        FirstFailureAt(products, items, i);
        return Some(InsufficientStock(item.productId, product.name, product.stock)), totalAmount;
      }
      totalAmount := totalAmount + product.price * (item.quantity as real);
      assert items[..i + 1][..i] == items[..i];
      i := i + 1;
    }
    assert items[..i] == items;
    FirstFailureNone(products, items);
    failure := None;
  }

  class Database {
    var customers: set<int>
    var products: map<ProductId, Product>
    var orders: seq<Order>
    var orderItems: seq<OrderItem>
    var nextOrderId: int
    var customOrders: seq<CustomOrder>

    /** The tables `processPayment` works on. */
    function State(): Store
      reads this
    {
      Store(customers, products, orders, orderItems, nextOrderId)
    }

    ghost predicate Valid()
      reads this
    {
      WellFormed(State())
    }

    constructor (customers: set<int>, products: map<ProductId, Product>, customOrders: seq<CustomOrder>)
      ensures Valid()
      ensures State() == Store(customers, products, [], [], 1)
      ensures this.customOrders == customOrders
    {
      this.customers := customers;
      this.products := products;
      this.orders := [];
      this.orderItems := [];
      this.nextOrderId := 1;
      this.customOrders := customOrders;
    }

    /** `connection.rollback()`: the transaction's writes are undone. */
    method RollBack(saved: Store)
      requires saved.customers == customers
      modifies this
      ensures State() == saved
      ensures customOrders == old(customOrders)
    {
      products, orders, orderItems, nextOrderId := saved.products, saved.orders, saved.orderItems, saved.nextOrderId;
    }

    /** Step 6 of `processPayment`: one stock update per line, in input order. Write `2 + j`
        is the update for line `j`; when it is the rejected one, the transaction rolls back. */
    method UpdateStocks(saved: Store, items: seq<LineItem>, failingWrite: Option<nat>) returns (ok: bool)
      requires customers == saved.customers && products == saved.products
      requires failingWrite.None? || failingWrite.value >= 2
      modifies this
      ensures customOrders == old(customOrders)
      ensures ok <==> failingWrite.None? || failingWrite.value >= WriteCount(items)
      ensures ok ==> State() == old(State()).(products := Decrement(saved.products, items))
      ensures !ok ==> State() == saved
    {
      var j := 0;
      while j < |items|
        invariant 0 <= j <= |items|
        invariant customers == saved.customers
        invariant products == Decrement(saved.products, items[..j])
        invariant orders == old(orders) && orderItems == old(orderItems) && nextOrderId == old(nextOrderId)
        invariant customOrders == old(customOrders)
        invariant failingWrite.None? || failingWrite.value >= 2 + j
      {
        if failingWrite == Some(2 + j) {
          RollBack(saved);
          return false;
        }
        var item := items[j];
        if item.productId in products {
          products := products[item.productId := products[item.productId].(stock := products[item.productId].stock - item.quantity)];
        }
        assert items[..j + 1][..j] == items[..j];
        j := j + 1;
      }
      assert items[..j] == items;
      return true;
    }

    /** `processPayment`: write `failingWrite` (if any) is the one the database rejects. */
    method ProcessPayment(customerId: int, items: seq<LineItem>, paymentMethod: string, now: int,
                          failingWrite: Option<nat>) returns (r: Result<Receipt, OrderError>)
      requires Valid()
      modifies this
      ensures Valid()
      ensures (r, State()) == PlaceOrder(old(State()), customerId, items, paymentMethod, now, failingWrite)
      ensures customOrders == old(customOrders)
    {
      PlacePreservesWellFormed(State(), customerId, items, paymentMethod, now, failingWrite);
      var saved := State();

      // An unknown customer: nothing has been written yet.
      if customerId !in customers {
        return Failure(CustomerNotFound);
      }

      // The first failing line decides the reply; on success the total is `Total(products, items)`.
      var failure, totalAmount := ValidateLines(products, items);
      if failure.Some? {
        return Failure(failure.value);
      }

      var amountToPay := if paymentMethod == "advance" then totalAmount * AdvanceRate else totalAmount;

      // Write 0, the order row: `saved` is still the state, so the failure leaves it unchanged.
      if failingWrite == Some(0) {
        PlaceOrderWriteFails(saved, customerId, items, paymentMethod, now, failingWrite);
        return Failure(PersistenceFailure);
      }
      var orderId := nextOrderId;
      var order := Order(orderId, customerId, totalAmount, paymentMethod, amountToPay, "paid", now, None, None, None);
      assert order == NewOrder(saved, customerId, items, paymentMethod, now);
      orders := orders + [order];
      nextOrderId := nextOrderId + 1;

      // Write 1, the item rows, priced from the products as they were before any stock update.
      if failingWrite == Some(1) {
        RollBack(saved);
        PlaceOrderWriteFails(saved, customerId, items, paymentMethod, now, failingWrite);
        return Failure(PersistenceFailure);
      }
      orderItems := orderItems + ItemRows(orderId, products, items);

      // Writes 2 .. |items| + 1, the stock updates; a rejected one has already rolled back to `saved`.
      var stored := UpdateStocks(saved, items, failingWrite);
      if !stored {
        PlaceOrderWriteFails(saved, customerId, items, paymentMethod, now, failingWrite);
        return Failure(PersistenceFailure);
      }
      PlaceOrderCommits(saved, customerId, items, paymentMethod, now, failingWrite);

      // Every write was accepted: the state is the one `PlaceOrderCommits` describes.
      return Success(Receipt(orderId, amountToPay, paymentMethod, totalAmount));
    }

    /** `updateNewOrderStatus`: validates, looks the order up, builds `updateFields` and runs the update. */
    method UpdateNewOrderStatus(req: StatusRequest, now: int) returns (r: Result<Order, StatusError>)
      requires Valid()
      modifies this
      ensures Valid()
      ensures (r, orders) == NewOrderStatusUpdate(old(orders), req, now)
      ensures customers == old(customers) && products == old(products) && orderItems == old(orderItems)
      ensures nextOrderId == old(nextOrderId) && customOrders == old(customOrders)
    {
      var invalid := CheckStatusRequest(req);
      if invalid.Some? {
        return Failure(invalid.value);
      }
      var id := req.orderId.value;

      // `k` is the first row with the id, the one the handler reads as `currentOrder`.
      var k := FirstIndex(orders, HasId(id));
      if k < 0 {
        return Failure(OrderNotFound);
      }
      var currentOrder := orders[k];

      // The fields are collected in the order `UpdateFields` lists them.
      var updateFields: seq<Assignment> := [];
      if TextGiven(req.orderStatus) {
        updateFields := updateFields + [SetOrderStatus(req.orderStatus.value)];
      }
      if TextGiven(req.currentStatus) {
        updateFields := updateFields + [SetCurrentStatus(req.currentStatus.value)];
        if req.currentStatus.value == "completed" {
          updateFields := updateFields + [SetCompletionDateNow];
        } else if req.currentStatus.value == "cancelled" && currentOrder.paymentStatus == "paid" {
          updateFields := updateFields + [SetPaymentRefunded];
        }
      }
      assert updateFields == UpdateFields(req, currentOrder);

      // Every row with the id is updated; the reply is row `k` as read back.
      orders := UpdateWhere(orders, id, updateFields, now);
      r := Success(orders[k]);
    }

    /** `updateAmountPaid`: the amount must lie in `[0, total]`; the payment status becomes `paid`. */
    method UpdateAmountPaid(req: PaymentRequest) returns (r: Result<(Order, seq<OrderItem>), PaymentError>)
      requires Valid()
      modifies this
      ensures Valid()
      ensures (r, orders) == AmountPaidUpdate(old(orders), orderItems, req)
      ensures customers == old(customers) && products == old(products) && orderItems == old(orderItems)
      ensures nextOrderId == old(nextOrderId) && customOrders == old(customOrders)
    {
      if !IntGiven(req.orderId) || req.amount.None? {
        return Failure(InvalidInput);
      }
      var id := req.orderId.value;
      var k := FirstIndex(orders, HasId(id));
      if k < 0 {
        return Failure(PaymentOrderNotFound);
      }
      var totalAmount := orders[k].totalAmount;
      var newAmountPaid := req.amount.value;
      if newAmountPaid < 0.0 || newAmountPaid > totalAmount {
        return Failure(AmountOutOfRange(totalAmount));
      }
      orders := PayWhere(orders, id, newAmountPaid);
      r := Success((orders[k], ItemsOf(orderItems, id)));
    }

    /** `updateOrderStatus` on `custom_orders`; not found when no row has the id. */
    method UpdateOrderStatus(orderId: Option<int>, status: Option<string>) returns (r: Result<(), CustomStatusError>)
      modifies this
      ensures (r, customOrders) == CustomStatusUpdate(old(customOrders), orderId, status)
      ensures State() == old(State())
    {
      var out := CustomStatusUpdate(customOrders, orderId, status);
      r := out.0;
      customOrders := out.1;
    }
  }
}
