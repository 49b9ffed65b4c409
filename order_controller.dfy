/** The order lifecycle: creating an order from the caller's cart (price snapshot,
    stock decrements, the delivery-fee rule, a pending order, cart deleted), the
    payment confirmation, the admin's accept/reject decision (a rejection puts the
    stock back), the rider assignment and the rider's delivery updates.

    Each decision about one order record is a function of the stored orders and
    the request; the controller methods apply it to the store in place, run the
    stock loops, and hand back the arguments of the status notification they make.
    The payment provider's answer, the mail transport's outcome, the generated
    order id and the payment reference are inputs. */
module OrderController {
  import opened Common
  import opened OrderSchema
  import opened Store
  import opened StockLedger
  import EmailService
  import StatusMessages

  /** The `deliveryFee` field of the request body: absent, a number, or any other
      JSON value (a string or null passes the presence test and never equals a fee). */
  datatype FeeField = Undefined | Number(n: int) | NotANumber

  /** What the call to Paystack's verification endpoint yields: a successful
      transaction, an answer that is not a success, or a failed request (which
      lands in the handler's catch). */
  datatype Paystack = Success | Declined | Unreachable

  // ---------------------------------------------------------------------------
  // The delivery fee rule and the price snapshot of order creation

  /** `expectedDeliveryFee`: nothing for an empty subtotal, 1500 for express,
      500 for a timeframe delivery under 5000, and nothing otherwise. */
  function ExpectedFee(subtotal: int, deliveryOption: string): (fee: int)
    ensures subtotal <= 0 ==> fee == 0
    ensures subtotal > 0 && deliveryOption == "express" ==> fee == 1500
    ensures subtotal > 0 && deliveryOption == "timeframe" ==> fee == (if subtotal < 5000 then 500 else 0)
    ensures deliveryOption != "express" && deliveryOption != "timeframe" ==> fee == 0
  {
    if subtotal > 0 then
      if deliveryOption == "express" then 1500
      else if deliveryOption == "timeframe" && subtotal < 5000 then 500
      else 0
    else 0
  }

  /** Express is never cheaper than any other option, a timeframe delivery is free
      from a subtotal of 5000 on, and no order pays more than 1500. */
  lemma ExpectedFeeOrdering(subtotal: int, deliveryOption: string)
    ensures 0 <= ExpectedFee(subtotal, deliveryOption) <= ExpectedFee(subtotal, "express") <= 1500
    ensures subtotal >= 5000 ==> ExpectedFee(subtotal, deliveryOption) == 0 || deliveryOption == "express"
  {
  }

  /** The cart of the user; no cart reads as an empty one (`!cart || cart.items.length === 0`). */
  function CartOf(carts: map<UserId, seq<CartItem>>, userId: UserId): seq<CartItem>
  {
    if userId in carts then carts[userId] else []
  }

  /** Every line's product still exists; otherwise `populate` leaves the line's
      product null and reading its price throws. */
  predicate AllPresent(products: map<ProductId, Product>, items: seq<CartItem>)
  {
    forall i :: 0 <= i < |items| ==> items[i].productId in products
  }

  /** The order lines: each cart line with the product's current price. */
  function Snapshot(products: map<ProductId, Product>, items: seq<CartItem>): (lines: seq<LineItem>)
    requires AllPresent(products, items)
    ensures |lines| == |items|
    ensures forall i :: 0 <= i < |items| ==>
      lines[i] == LineItem(items[i].productId, items[i].quantity, products[items[i].productId].price)
  {
    if items == [] then []
    else [LineItem(items[0].productId, items[0].quantity, products[items[0].productId].price)]
         + Snapshot(products, items[1..])
  }

  /** The sum of price times quantity over the lines. */
  function Subtotal(lines: seq<LineItem>): int
  {
    if lines == [] then 0 else lines[0].price * lines[0].quantity + Subtotal(lines[1..])
  }

  lemma {:induction false} SubtotalAppend(lines: seq<LineItem>, x: LineItem)
    ensures Subtotal(lines + [x]) == Subtotal(lines) + x.price * x.quantity
  {
    if lines == [] {
      assert lines + [x] == [x];
    } else {
      assert (lines + [x])[1..] == lines[1..] + [x];
      SubtotalAppend(lines[1..], x);
    }
  }

  /** The snapshot holds of each product exactly the quantity the cart asks of it. */
  lemma {:induction false} SnapshotQty(products: map<ProductId, Product>, items: seq<CartItem>, pid: ProductId)
    requires AllPresent(products, items)
    ensures LineQtyOf(Snapshot(products, items), pid) == QtyOf(items, pid)
  {
    if items != [] {
      var lines := Snapshot(products, items);
      assert lines[1..] == Snapshot(products, items[1..]);
      SnapshotQty(products, items[1..], pid);
    }
  }

  /** The subtotal loop (`total += price * quantity` inside the map over the cart). */
  method PriceCart(products: map<ProductId, Product>, items: seq<CartItem>) returns (lines: seq<LineItem>, total: int)
    requires AllPresent(products, items)
    ensures lines == Snapshot(products, items)
    ensures total == Subtotal(lines)
  {
    lines, total := [], 0;
    var i := 0;
    while i < |items|
      invariant 0 <= i <= |items|
      invariant lines == Snapshot(products, items[..i])
      invariant total == Subtotal(lines)
    {
      var item := items[i];
      var price := products[item.productId].price;
      var line := LineItem(item.productId, item.quantity, price);
      SubtotalAppend(lines, line);
      total := total + price * item.quantity;
      lines := lines + [line];
      i := i + 1;
      assert lines == Snapshot(products, items[..i]);
    }
    assert items[..i] == items;
  }

  // ---------------------------------------------------------------------------
  // The stock loops

  /** The stock loop of order creation: check and decrement each line's product
      in turn; the first line that cannot be served stops the loop, and the
      decrements already saved stay. The answer is the name for the reply. */
  method ReserveStock(db: Database, items: seq<CartItem>) returns (short: Option<string>)
    modifies db
    ensures db.products == Reserve(old(db.products), items).products
    ensures short.None? <==> Reserve(old(db.products), items).Reserved?
    ensures short.Some? ==> short.value == Reserve(old(db.products), items).name
    ensures db.carts == old(db.carts) && db.orders == old(db.orders) && db.users == old(db.users)
  {
    var i := 0;
    while i < |items|
      invariant 0 <= i <= |items|
      invariant Reserve(db.products, items[i..]) == Reserve(old(db.products), items)
      invariant db.carts == old(db.carts) && db.orders == old(db.orders) && db.users == old(db.users)
    {
      var item := items[i];
      assert items[i..][0] == item && items[i..][1..] == items[i + 1..];
      if !(item.productId in db.products && db.products[item.productId].stock >= item.quantity) {
        return Some(ShortName(db.products, item.productId));
      }
      var product := db.products[item.productId];
      db.products := db.products[item.productId := product.(stock := product.stock - item.quantity)];
      i := i + 1;
    }
    assert items[i..] == [];
    return None;
  }

  /** The restock loop of a rejection: each line's quantity goes back to its
      product, when the product still exists. */
  method RestockLines(db: Database, lines: seq<LineItem>)
    modifies db
    ensures db.products == Restock(old(db.products), lines)
    ensures db.carts == old(db.carts) && db.orders == old(db.orders) && db.users == old(db.users)
  {
    var i := 0;
    while i < |lines|
      invariant 0 <= i <= |lines|
      invariant Restock(db.products, lines[i..]) == Restock(old(db.products), lines)
      invariant db.carts == old(db.carts) && db.orders == old(db.orders) && db.users == old(db.users)
    {
      var line := lines[i];
      assert lines[i..][0] == line && lines[i..][1..] == lines[i + 1..];
      if line.productId in db.products {
        var product := db.products[line.productId];
        db.products := db.products[line.productId := product.(stock := product.stock + line.quantity)];
      }
      i := i + 1;
    }
    assert lines[i..] == [];
  }

  /** Rejecting a freshly created order gives back exactly what its creation took:
      restocking the snapshot lines after reserving the cart restores the catalog. */
  lemma CreateThenRejectRestores(products: map<ProductId, Product>, items: seq<CartItem>)
    requires AllPresent(products, items)
    requires Reserve(products, items).Reserved?
    ensures Restock(Reserve(products, items).products, Snapshot(products, items)) == products
  {
    var reserved := Reserve(products, items).products;
    var lines := Snapshot(products, items);
    ReserveKeepsCatalog(products, items);
    ReservedStock(products, items);
    RestockStock(reserved, lines);
    var back := Restock(reserved, lines);
    forall id | id in products ensures back[id] == products[id] {
      SnapshotQty(products, items, id);
    }
  }

  // ---------------------------------------------------------------------------
  // createOrder

  /** The presence test of createOrder: a caller, the six customer fields it names,
      and a delivery fee that is not `undefined`. */
  predicate FieldsPresent(userId: UserId, info: CustomerInfo, deliveryFee: FeeField)
  {
    && userId != ""
    && info.name != "" && info.email != "" && info.phone != ""
    && info.deliveryOption != "" && info.pickupLocation != "" && info.estimatedDelivery != ""
    && !deliveryFee.Undefined?
  }

  /** The order createOrder saves: the price snapshot, the fee, their total, the
      pending status and no rider yet. */
  function PlacedOrder(userId: UserId, lines: seq<LineItem>, info: CustomerInfo, fee: int,
                       prescriptionUrl: string, paymentReference: string): Order
  {
    Order(userId, lines, info, fee, prescriptionUrl, Subtotal(lines) + fee, Pending, paymentReference, None, None, None)
  }

  /** `createOrder`. The refusals come in the source's order: missing fields,
      empty cart, a line whose product is gone (the subtotal step throws), a line
      short of stock (earlier decrements stay), a fee other than the rule's (every
      decrement stays), and an order the schema refuses at save (a customer field
      the presence test does not look at, or a value outside an enumeration: the
      save throws, 500, every decrement stays). Only a full pass saves a pending
      order with the price snapshot and total, and deletes the cart. */
  method CreateOrder(db: Database, userId: UserId, info: CustomerInfo, deliveryFee: FeeField,
                     prescriptionUrl: string, paymentReference: string, newId: OrderId)
    returns (r: Result<Order, Failure>)
    requires newId !in db.orders
    modifies db
    ensures !FieldsPresent(userId, info, deliveryFee) ==>
      r == Err(Failure(400, "All required fields must be provided"))
    ensures FieldsPresent(userId, info, deliveryFee) && CartOf(old(db.carts), userId) == [] ==>
      r == Err(Failure(400, "Cart is empty"))
    ensures FieldsPresent(userId, info, deliveryFee) && CartOf(old(db.carts), userId) != []
            && !AllPresent(old(db.products), CartOf(old(db.carts), userId)) ==>
      r == Err(Failure(500, "Server error"))
    ensures r.Err? && !(FieldsPresent(userId, info, deliveryFee) && CartOf(old(db.carts), userId) != []
                        && AllPresent(old(db.products), CartOf(old(db.carts), userId))) ==>
      db.products == old(db.products)
    ensures FieldsPresent(userId, info, deliveryFee) && CartOf(old(db.carts), userId) != []
            && AllPresent(old(db.products), CartOf(old(db.carts), userId)) ==>
      var cart := CartOf(old(db.carts), userId);
      var reservation := Reserve(old(db.products), cart);
      var subtotal := Subtotal(Snapshot(old(db.products), cart));
      && db.products == reservation.products
      && (reservation.Short? ==> r == Err(Failure(400, "Insufficient stock for " + reservation.name)))
      && (reservation.Reserved? && deliveryFee != Number(ExpectedFee(subtotal, info.deliveryOption)) ==>
            r == Err(Failure(400, "Invalid delivery fee")))
      && (reservation.Reserved? && deliveryFee == Number(ExpectedFee(subtotal, info.deliveryOption)) ==>
            var order := PlacedOrder(userId, Snapshot(old(db.products), cart), info,
                                     ExpectedFee(subtotal, info.deliveryOption), prescriptionUrl, paymentReference);
            if SchemaValid(order) then r.Ok? else r == Err(Failure(500, "Server error")))
    ensures r.Ok? ==>
      var cart := old(db.carts)[userId];
      var lines := Snapshot(old(db.products), cart);
      var fee := ExpectedFee(Subtotal(lines), info.deliveryOption);
      && r.value == PlacedOrder(userId, lines, info, fee, prescriptionUrl, paymentReference)
      && SchemaValid(r.value)
      && db.orders == old(db.orders)[newId := r.value]
      && db.carts == old(db.carts) - {userId}
      && forall id :: id in old(db.products) ==>
           id in db.products && db.products[id].stock == old(db.products)[id].stock - QtyOf(cart, id)
    ensures r.Err? ==> db.orders == old(db.orders) && db.carts == old(db.carts)
    ensures StockNonNegative(old(db.products)) ==> StockNonNegative(db.products)
    ensures db.users == old(db.users)
  {
    if !FieldsPresent(userId, info, deliveryFee) {
      return Err(Failure(400, "All required fields must be provided"));
    }
    if userId !in db.carts || db.carts[userId] == [] {
      return Err(Failure(400, "Cart is empty"));
    }
    var cart := db.carts[userId];
    if !AllPresent(db.products, cart) {
      return Err(Failure(500, "Server error"));
    }
    var lines, total := PriceCart(db.products, cart);
    ghost var before := db.products;
    if StockNonNegative(before) {
      ReserveKeepsStockNonNegative(before, cart);
    }
    var short := ReserveStock(db, cart);
    if short.Some? {
      return Err(Failure(400, "Insufficient stock for " + short.value));
    }
    ReservedStock(before, cart);
    var expected := ExpectedFee(total, info.deliveryOption);
    if deliveryFee != Number(expected) {
      return Err(Failure(400, "Invalid delivery fee"));
    }
    var order := PlacedOrder(userId, lines, info, deliveryFee.n, prescriptionUrl, paymentReference);
    if !SchemaValid(order) {
      return Err(Failure(500, "Server error"));
    }
    db.orders := db.orders[newId := order];
    db.carts := db.carts - {userId};
    return Ok(order);
  }

  /** An order built by createOrder from a well-formed cart meets the schema exactly
      when the customer fields createOrder does not look at are right too: address,
      city and state present, and the delivery option and pickup location among the
      enumerated values. Its pending status is the schema's default. */
  lemma CreatedOrderSchemaValid(products: map<ProductId, Product>, cart: seq<CartItem>, userId: UserId,
                                info: CustomerInfo, fee: int, prescriptionUrl: string, paymentReference: string)
    requires AllPresent(products, cart) && CartWellFormed(cart)
    requires FieldsPresent(userId, info, Number(fee))
    ensures
      var lines := Snapshot(products, cart);
      var order := PlacedOrder(userId, lines, info, fee, prescriptionUrl, paymentReference);
      && order.status == DefaultStatus
      && (SchemaValid(order) <==>
            info.address != "" && info.city != "" && info.state != ""
            && info.deliveryOption in DeliveryOptions && info.pickupLocation in PickupLocations)
  {
    var lines := Snapshot(products, cart);
    assert forall i :: 0 <= i < |lines| ==> LineItemValid(lines[i]);
  }

  // ---------------------------------------------------------------------------
  // The decisions about one stored order

  /** `verifyPayment` up to the update: both fields present, the secret key
      configured, Paystack reporting success, and the order found; then the order
      becomes processing with the given reference, whatever its status was. */
  function Payment(orders: map<OrderId, Order>, reference: string, orderId: OrderId,
                   secretConfigured: bool, paystack: Paystack): (r: Result<Order, Failure>)
    ensures r.Ok? <==> reference != "" && orderId != "" && secretConfigured && paystack == Success && orderId in orders
    ensures r.Ok? ==> r.value == orders[orderId].(status := Processing, paymentReference := reference)
    ensures reference == "" || orderId == "" ==> r == Err(Failure(400, "Reference and orderId are required"))
    ensures reference != "" && orderId != "" && !secretConfigured ==>
      r == Err(Failure(500, "Server configuration error: Missing Paystack secret key"))
    ensures reference != "" && orderId != "" && secretConfigured && paystack.Unreachable? ==>
      r == Err(Failure(500, "Server error"))
    ensures reference != "" && orderId != "" && secretConfigured && paystack == Declined ==>
      r == Err(Failure(400, "Payment verification failed"))
    ensures reference != "" && orderId != "" && secretConfigured && paystack == Success && orderId !in orders ==>
      r == Err(Failure(400, "Order not found"))
  {
    if reference == "" || orderId == "" then Err(Failure(400, "Reference and orderId are required"))
    else if !secretConfigured then Err(Failure(500, "Server configuration error: Missing Paystack secret key"))
    else if paystack.Unreachable? then Err(Failure(500, "Server error"))
    else if paystack.Declined? then Err(Failure(400, "Payment verification failed"))
    else if orderId !in orders then Err(Failure(400, "Order not found"))
    else Ok(orders[orderId].(status := Processing, paymentReference := reference))
  }

  /** `updateOrderStatus` up to the save: a valid action, the order found, an admin
      caller; then the status becomes accepted or rejected from any prior status. */
  function Decision(orders: map<OrderId, Order>, orderId: OrderId, action: string, callerRole: string)
    : (r: Result<Order, Failure>)
    ensures r.Ok? <==> (action == "accept" || action == "reject") && orderId in orders && callerRole == "admin"
    ensures r.Ok? ==> r.value == orders[orderId].(status := if action == "accept" then Accepted else Rejected)
    ensures action != "accept" && action != "reject" ==> r == Err(Failure(400, "Invalid action"))
    ensures (action == "accept" || action == "reject") && orderId !in orders ==> r == Err(Failure(404, "Order not found"))
    ensures (action == "accept" || action == "reject") && orderId in orders && callerRole != "admin" ==>
      r == Err(Failure(403, "Unauthorized: Only admins can modify orders"))
  {
    if action != "accept" && action != "reject" then Err(Failure(400, "Invalid action"))
    else if orderId !in orders then Err(Failure(404, "Order not found"))
    else if callerRole != "admin" then Err(Failure(403, "Unauthorized: Only admins can modify orders"))
    else Ok(orders[orderId].(status := if action == "accept" then Accepted else Rejected))
  }

  /** The user with this id exists and has the rider role. */
  predicate IsRider(users: seq<User>, riderId: UserId)
  {
    match FindById(users, riderId)
    case None => false
    case Some(k) => users[k].role == "rider"
  }

  /** `assignOrder` up to the save: the order found and an admin caller; a given
      rider id must name a rider, whose id and name are then recorded; no rider id
      leaves the order as it is. */
  function Assignment(orders: map<OrderId, Order>, users: seq<User>, orderId: OrderId,
                      callerRole: string, riderId: UserId): (r: Result<Order, Failure>)
    ensures r.Ok? <==> orderId in orders && callerRole == "admin" && (riderId == "" || IsRider(users, riderId))
    ensures r.Ok? && riderId == "" ==> r.value == orders[orderId]
    ensures r.Ok? && riderId != "" ==>
      exists k :: 0 <= k < |users| && users[k].id == riderId && users[k].role == "rider" &&
        r.value == orders[orderId].(rider := Some(riderId), riderName := Some(users[k].name))
    ensures orderId !in orders ==> r == Err(Failure(404, "Order not found"))
    ensures orderId in orders && callerRole != "admin" ==> r == Err(Failure(403, "Unauthorized: Only admins can assign orders"))
    ensures orderId in orders && callerRole == "admin" && riderId != "" && !IsRider(users, riderId) ==>
      r == Err(Failure(400, "Invalid rider"))
  {
    if orderId !in orders then Err(Failure(404, "Order not found"))
    else if callerRole != "admin" then Err(Failure(403, "Unauthorized: Only admins can assign orders"))
    else if riderId == "" then Ok(orders[orderId])
    else
      match FindById(users, riderId)
      case None => Err(Failure(400, "Invalid rider"))
      case Some(k) =>
        if users[k].role != "rider" then Err(Failure(400, "Invalid rider"))
        else Ok(orders[orderId].(rider := Some(riderId), riderName := Some(users[k].name)))
  }

  /** The two delivery values a rider may send. */
  function ParseDeliveryStatus(value: string): (d: Option<DeliveryStatus>)
    ensures d.Some? <==> value == "en_route" || value == "delivered"
    ensures d.Some? ==> DeliveryStatusName(d.value) == value
  {
    if value == "en_route" then Some(EnRoute)
    else if value == "delivered" then Some(Delivered)
    else None
  }

  /** Every delivery value is read back from its own name. */
  lemma ParseDeliveryStatusName(d: DeliveryStatus)
    ensures ParseDeliveryStatus(DeliveryStatusName(d)) == Some(d)
  {
  }

  /** `updateDeliveryStatus` up to the save: a valid value, the order found, an
      assigned rider who is the caller (an order with no rider throws, giving 500),
      and an order not yet delivered; then the value is set whatever the order's
      status. A caller other than the rider is refused before the delivered check. */
  function DeliveryUpdate(orders: map<OrderId, Order>, orderId: OrderId, value: string, riderId: UserId)
    : (r: Result<Order, Failure>)
    ensures r.Ok? <==>
      ParseDeliveryStatus(value).Some? && orderId in orders
      && orders[orderId].rider == Some(riderId) && orders[orderId].deliveryStatus != Some(Delivered)
    ensures r.Ok? ==> r.value == orders[orderId].(deliveryStatus := ParseDeliveryStatus(value))
    ensures ParseDeliveryStatus(value).None? ==> r == Err(Failure(400, "Invalid delivery status"))
    ensures ParseDeliveryStatus(value).Some? && orderId !in orders ==> r == Err(Failure(404, "Order not found"))
    ensures ParseDeliveryStatus(value).Some? && orderId in orders && orders[orderId].rider.None? ==>
      r == Err(Failure(500, "Server error"))
    ensures ParseDeliveryStatus(value).Some? && orderId in orders
            && orders[orderId].rider.Some? && orders[orderId].rider.value != riderId ==>
      r == Err(Failure(403, "Unauthorized to modify this order"))
    ensures ParseDeliveryStatus(value).Some? && orderId in orders && orders[orderId].rider == Some(riderId)
            && orders[orderId].deliveryStatus == Some(Delivered) ==>
      r == Err(Failure(400, "Order already delivered"))
  {
    match ParseDeliveryStatus(value)
    case None => Err(Failure(400, "Invalid delivery status"))
    case Some(d) =>
      if orderId !in orders then Err(Failure(404, "Order not found"))
      else
        var order := orders[orderId];
        match order.rider
        case None => Err(Failure(500, "Server error"))
        case Some(holder) =>
          if holder != riderId then Err(Failure(403, "Unauthorized to modify this order"))
          else if order.deliveryStatus == Some(Delivered) then Err(Failure(400, "Order already delivered"))
          else Ok(order.(deliveryStatus := Some(d)))
  }

  /** The delivery values are not tied to the order status: the assigned rider can
      mark a pending order, never paid nor accepted, delivered in one step. */
  lemma PendingCanBeDelivered(orders: map<OrderId, Order>, orderId: OrderId, riderId: UserId)
    requires orderId in orders && orders[orderId].status == Pending
    requires orders[orderId].rider == Some(riderId) && orders[orderId].deliveryStatus == None
    ensures DeliveryUpdate(orders, orderId, "delivered", riderId) == Ok(orders[orderId].(deliveryStatus := Some(Delivered)))
    ensures DeliveryUpdate(orders, orderId, "delivered", riderId).value.status == Pending
  {
  }

  // ---------------------------------------------------------------------------
  // The lifecycle as a sequence of requests

  /** One request of the order lifecycle after creation. */
  datatype Request =
    | Pay(reference: string, orderId: OrderId, secretConfigured: bool, paystack: Paystack)
    | Decide(orderId: OrderId, action: string, callerRole: string)
    | Assign(orderId: OrderId, callerRole: string, riderId: UserId)
    | Deliver(orderId: OrderId, value: string, riderId: UserId)

  function Outcome(orders: map<OrderId, Order>, users: seq<User>, req: Request): Result<Order, Failure>
  {
    match req
    case Pay(reference, orderId, secretConfigured, paystack) => Payment(orders, reference, orderId, secretConfigured, paystack)
    case Decide(orderId, action, callerRole) => Decision(orders, orderId, action, callerRole)
    case Assign(orderId, callerRole, riderId) => Assignment(orders, users, orderId, callerRole, riderId)
    case Deliver(orderId, value, riderId) => DeliveryUpdate(orders, orderId, value, riderId)
  }

  /** The stored orders after one request: the request's order is replaced on
      success; a refusal changes nothing. */
  function Apply(orders: map<OrderId, Order>, users: seq<User>, req: Request): (next: map<OrderId, Order>)
    ensures next.Keys == orders.Keys
    ensures forall id :: id in orders && id != req.orderId ==> next[id] == orders[id]
  {
    match Outcome(orders, users, req)
    case Ok(order) => orders[req.orderId := order]
    case Err(_) => orders
  }

  function Run(orders: map<OrderId, Order>, users: seq<User>, reqs: seq<Request>): map<OrderId, Order>
  {
    if reqs == [] then orders else Run(Apply(orders, users, reqs[0]), users, reqs[1..])
  }

  /** Delivered is final: after any sequence of payments, decisions, assignments
      and delivery updates, an order that was delivered still exists and is still
      delivered. */
  lemma {:induction false} DeliveredIsFinal(orders: map<OrderId, Order>, users: seq<User>, reqs: seq<Request>, id: OrderId)
    requires id in orders && orders[id].deliveryStatus == Some(Delivered)
    ensures id in Run(orders, users, reqs) && Run(orders, users, reqs)[id].deliveryStatus == Some(Delivered)
  {
    if reqs != [] {
      var next := Apply(orders, users, reqs[0]);
      assert next[id].deliveryStatus == Some(Delivered);
      DeliveredIsFinal(next, users, reqs[1..], id);
    }
  }

  /** No request of the lifecycle creates or removes an order. */
  lemma {:induction false} RunKeepsOrders(orders: map<OrderId, Order>, users: seq<User>, reqs: seq<Request>)
    ensures Run(orders, users, reqs).Keys == orders.Keys
  {
    if reqs != [] {
      RunKeepsOrders(Apply(orders, users, reqs[0]), users, reqs[1..]);
    }
  }

  // ---------------------------------------------------------------------------
  // Notifications and the controller methods

  const RejectInfo: string := "Please contact customer service for more information."

  /** `order._id.toString().slice(-6)`: the last six characters, or the whole id
      when it is shorter. */
  function ShortOrderId(id: OrderId): (s: string)
    ensures |s| == if |id| < 6 then |id| else 6
    ensures s == id[|id| - |s|..]
  {
    if |id| <= 6 then id else id[|id| - 6..]
  }

  /** The arguments of one `sendOrderNotification` call: the order's customer, the
      shortened id, the status text and the extra line. */
  datatype Notice = Notice(email: string, customerName: string, orderId: string, status: string, additionalInfo: string)

  function NoticeFor(order: Order, orderId: OrderId, status: string, additionalInfo: string): Notice
  {
    Notice(order.customerInfo.email, order.customerInfo.name, ShortOrderId(orderId), status, additionalInfo)
  }

  /** `sendOrderNotification`: the status mail to the order's customer; a failed
      send yields None (null) and never fails the operation that asked for it. */
  function SendNotice(n: Notice, transportError: Option<string>): (sent: Option<EmailService.Mail>)
    ensures sent.Some? <==> EmailService.MatchesEmailRegex(n.email) && transportError.None?
    ensures sent.Some? ==> sent.value.to == n.email && sent.value.subject == EmailService.Subject(n.orderId)
    ensures sent.Some? ==>
      sent.value.text == StatusMessages.StatusMessage(n.customerName, n.orderId, n.status, n.additionalInfo)
  {
    EmailService.SendOrderStatusUpdate(n.email, n.customerName, n.orderId, n.status, n.additionalInfo, transportError)
  }

  /** Every status mail names the order by the last six characters of its id. */
  lemma SentNoticeNamesOrder(order: Order, orderId: OrderId, status: string, additionalInfo: string)
    requires EmailService.MatchesEmailRegex(order.customerInfo.email)
    ensures SendNotice(NoticeFor(order, orderId, status, additionalInfo), None).Some?
    ensures Contains(SendNotice(NoticeFor(order, orderId, status, additionalInfo), None).value.text,
                     "#" + ShortOrderId(orderId))
  {
    StatusMessages.StatusMessageNamesOrder(order.customerInfo.name, ShortOrderId(orderId), status, additionalInfo);
  }

  /** `verifyPayment`: on success the order is stored as processing with the
      reference and the processing mail goes out. */
  method VerifyPayment(db: Database, reference: string, orderId: OrderId, secretConfigured: bool,
                       paystack: Paystack)
    returns (r: Result<Order, Failure>, notice: Option<Notice>)
    modifies db
    ensures r == Payment(old(db.orders), reference, orderId, secretConfigured, paystack)
    ensures r.Ok? ==> db.orders == old(db.orders)[orderId := r.value]
    ensures r.Ok? ==> notice == Some(NoticeFor(r.value, orderId, "processing", ""))
    ensures r.Err? ==> db.orders == old(db.orders) && notice == None
    ensures db.products == old(db.products) && db.carts == old(db.carts) && db.users == old(db.users)
  {
    notice := None;
    if reference == "" || orderId == "" {
      return Err(Failure(400, "Reference and orderId are required")), notice;
    }
    if !secretConfigured {
      return Err(Failure(500, "Server configuration error: Missing Paystack secret key")), notice;
    }
    if paystack == Unreachable {
      return Err(Failure(500, "Server error")), notice;
    }
    if paystack == Declined {
      return Err(Failure(400, "Payment verification failed")), notice;
    }
    if orderId !in db.orders {
      return Err(Failure(400, "Order not found")), notice;
    }
    var order := db.orders[orderId].(status := Processing, paymentReference := reference);
    db.orders := db.orders[orderId := order];
    notice := Some(NoticeFor(order, orderId, StatusName(Processing), ""));
    r := Ok(order);
  }

  /** `updateOrderStatus`: on success the order is stored accepted or rejected; a
      rejection first adds every line back to stock (on every call), an acceptance
      touches no stock; then the status mail goes out. */
  method UpdateOrderStatus(db: Database, orderId: OrderId, action: string, callerRole: string)
    returns (r: Result<Order, Failure>, notice: Option<Notice>)
    modifies db
    ensures r == Decision(old(db.orders), orderId, action, callerRole)
    ensures r.Ok? ==> db.orders == old(db.orders)[orderId := r.value]
    ensures r.Ok? && action == "reject" ==> db.products == Restock(old(db.products), old(db.orders)[orderId].items)
    ensures !(r.Ok? && action == "reject") ==> db.products == old(db.products)
    ensures r.Ok? ==> notice == Some(NoticeFor(r.value, orderId, StatusName(r.value.status),
                                               if action == "reject" then RejectInfo else ""))
    ensures r.Err? ==> db.orders == old(db.orders) && notice == None
    ensures db.carts == old(db.carts) && db.users == old(db.users)
  {
    notice := None;
    if action != "accept" && action != "reject" {
      return Err(Failure(400, "Invalid action")), notice;
    }
    if orderId !in db.orders {
      return Err(Failure(404, "Order not found")), notice;
    }
    if callerRole != "admin" {
      return Err(Failure(403, "Unauthorized: Only admins can modify orders")), notice;
    }
    var order := db.orders[orderId];
    order := order.(status := if action == "accept" then Accepted else Rejected);
    var additionalInfo := "";
    if action == "reject" {
      additionalInfo := RejectInfo;
      RestockLines(db, order.items);
    }
    db.orders := db.orders[orderId := order];
    notice := Some(NoticeFor(order, orderId, StatusName(order.status), additionalInfo));
    r := Ok(order);
  }

  /** `assignOrder`: on success the order is stored with the rider's id and name,
      or as it was when no rider id is given. */
  method AssignOrder(db: Database, orderId: OrderId, callerRole: string, riderId: UserId)
    returns (r: Result<Order, Failure>)
    modifies db
    ensures r == Assignment(old(db.orders), old(db.users), orderId, callerRole, riderId)
    ensures r.Ok? ==> db.orders == old(db.orders)[orderId := r.value]
    ensures r.Err? ==> db.orders == old(db.orders)
    ensures db.products == old(db.products) && db.carts == old(db.carts) && db.users == old(db.users)
  {
    if orderId !in db.orders {
      return Err(Failure(404, "Order not found"));
    }
    if callerRole != "admin" {
      return Err(Failure(403, "Unauthorized: Only admins can assign orders"));
    }
    var order := db.orders[orderId];
    if riderId != "" {
      var found := FindById(db.users, riderId);
      if found.None? || db.users[found.value].role != "rider" {
        return Err(Failure(400, "Invalid rider"));
      }
      order := order.(rider := Some(riderId), riderName := Some(db.users[found.value].name));
    }
    db.orders := db.orders[orderId := order];
    r := Ok(order);
  }

  /** `updateDeliveryStatus`: on success the order is stored with the new delivery
      value and the matching status mail goes out. */
  method UpdateDeliveryStatus(db: Database, orderId: OrderId, value: string, riderId: UserId)
    returns (r: Result<Order, Failure>, notice: Option<Notice>)
    modifies db
    ensures r == DeliveryUpdate(old(db.orders), orderId, value, riderId)
    ensures r.Ok? ==> db.orders == old(db.orders)[orderId := r.value]
    ensures r.Ok? ==> notice == Some(NoticeFor(r.value, orderId, value, ""))
    ensures r.Err? ==> db.orders == old(db.orders) && notice == None
    ensures db.products == old(db.products) && db.carts == old(db.carts) && db.users == old(db.users)
  {
    notice := None;
    if value != "en_route" && value != "delivered" {
      return Err(Failure(400, "Invalid delivery status")), notice;
    }
    if orderId !in db.orders {
      return Err(Failure(404, "Order not found")), notice;
    }
    var order := db.orders[orderId];
    if order.rider.None? {
      return Err(Failure(500, "Server error")), notice;
    }
    if order.rider.value != riderId {
      return Err(Failure(403, "Unauthorized to modify this order")), notice;
    }
    if order.deliveryStatus == Some(Delivered) {
      return Err(Failure(400, "Order already delivered")), notice;
    }
    order := order.(deliveryStatus := ParseDeliveryStatus(value));
    db.orders := db.orders[orderId := order];
    notice := Some(NoticeFor(order, orderId, value, ""));
    r := Ok(order);
  }
}
