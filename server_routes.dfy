/** The Express handlers for orders, payments, the gateway webhook, the admin
    status update and the cart and wishlist rows. Each handler is a method on the
    `Database`; the payment gateway, HMAC-SHA256, the clock and the database's own
    constraint checks are parameters. */
module ServerRoutes {
  import opened Js
  import opened ServerDb
  import Hmac

  /** One entry of the request's `items`. */
  datatype OrderLine = OrderLine(productId: string, quantity: int, price: int, size: Option<string>, color: Option<string>)

  /** The options passed to `razorpay.orders.create`. */
  datatype GatewayRequest = GatewayRequest(
    amount: int, currency: string, receipt: string, paymentCapture: Option<int>, notesUserId: Option<string>)

  datatype GatewayOrder = GatewayOrder(id: string, amount: int, currency: string)

  datatype GatewayResult = GatewayCreated(order: GatewayOrder) | GatewayFailed(message: string)

  /** The payment gateway's order creation: any outcome for any request. */
  type Gateway = GatewayRequest -> GatewayResult

  /** Whether the database refuses an `order_items` row (an unknown product, a
      missing column value): decided by the schema, which is not modelled. */
  type ItemCheck = OrderLine -> bool

  /** A JSON reply: 200 with a body, 400 with an error, or 500 with the thrown
      error's message (None where that message comes from a library). */
  datatype Reply<T> = Ok(body: T) | BadRequest(error: string) | ServerError(message: Option<string>)

  datatype Ack = Success | SuccessWithMessage(message: string) | StatusOk

  datatype CreatedOrder = CreatedOrder(order: Order, gatewayOrder: GatewayOrder)

  // ---------------------------------------------------------------------
  // Order creation
  // ---------------------------------------------------------------------

  function ItemRow(id: nat, orderId: nat, l: OrderLine): OrderItem {
    OrderItem(id, orderId, l.productId, l.quantity, l.price, l.size, l.color)
  }

  /** The `order_items` rows for `lines`, numbered from `firstId`. */
  function ItemRows(orderId: nat, lines: seq<OrderLine>, firstId: nat): (rows: map<nat, OrderItem>)
    ensures forall i :: i in rows <==> firstId <= i < firstId + |lines|
    ensures forall i :: i in rows ==> rows[i].id == i && rows[i].orderId == orderId
  {
    if lines == [] then map[]
    else
      var rows := ItemRows(orderId, lines[..|lines| - 1], firstId);
      var id := firstId + |lines| - 1;
      rows[id := ItemRow(id, orderId, lines[|lines| - 1])]
  }

  /** The row for line `k` carries that line's product, quantity, price, size and colour. */
  lemma {:induction false} ItemRowsContent(orderId: nat, lines: seq<OrderLine>, firstId: nat, k: nat)
    requires k < |lines|
    ensures ItemRows(orderId, lines, firstId)[firstId + k] == ItemRow(firstId + k, orderId, lines[k])
  {
    if k < |lines| - 1 {
      var prefix := lines[..|lines| - 1];
      ItemRowsContent(orderId, prefix, firstId, k);
    }
  }

  /** One more line adds one more row, under the next id. */
  lemma ItemRowsStep(orderId: nat, items: seq<OrderLine>, k: nat, firstId: nat, base: map<nat, OrderItem>, id: nat)
    requires k < |items| && id == firstId + k
    ensures base + ItemRows(orderId, items[..k + 1], firstId)
         == (base + ItemRows(orderId, items[..k], firstId))[id := ItemRow(id, orderId, items[k])]
  {
    assert items[..k + 1][..k] == items[..k];
    var a := base + ItemRows(orderId, items[..k + 1], firstId);
    var b := (base + ItemRows(orderId, items[..k], firstId))[firstId + k := ItemRow(firstId + k, orderId, items[k])];
    assert a.Keys == b.Keys;
  }

  /** The index of the first line the database refuses, or `|lines|` if none. */
  function FirstRejected(lines: seq<OrderLine>, rejected: ItemCheck): (k: nat)
    ensures k <= |lines|
    ensures forall i :: 0 <= i < k ==> !rejected(lines[i])
    ensures k < |lines| ==> rejected(lines[k])
  {
    if lines == [] then 0
    else if rejected(lines[0]) then 0
    else 1 + FirstRejected(lines[1..], rejected)
  }

  /** `INSERT INTO order_items ... VALUES (...)` for one line, under the next item id. */
  method InsertItem(db: Database, orderId: nat, line: OrderLine)
    requires db.Valid() && orderId in db.orders
    modifies db
    ensures db.Valid()
    ensures db.orderItems == old(db.orderItems)[old(db.nextItemId) := ItemRow(old(db.nextItemId), orderId, line)]
    ensures db.nextItemId == old(db.nextItemId) + 1
    ensures db.orders == old(db.orders) && db.cartItems == old(db.cartItems) && db.wishlist == old(db.wishlist)
    ensures db.nextOrderId == old(db.nextOrderId) && db.nextCartId == old(db.nextCartId)
  {
    db.orderItems := db.orderItems[db.nextItemId := ItemRow(db.nextItemId, orderId, line)];
    db.nextItemId := db.nextItemId + 1;
  }

  /** A line that is accepted, before the first refused one, moves that bound no further. */
  lemma FirstRejectedNext(lines: seq<OrderLine>, rejected: ItemCheck, k: nat)
    requires k < |lines| && k <= FirstRejected(lines, rejected) && !rejected(lines[k])
    ensures k + 1 <= FirstRejected(lines, rejected)
  {
  }

  /** The `for (const item of items)` loop: insert one row per line until the
      database refuses one. Returns how many rows went in. */
  method InsertItems(db: Database, orderId: nat, items: seq<OrderLine>, rejected: ItemCheck) returns (k: nat)
    requires db.Valid() && orderId in db.orders
    modifies db
    ensures db.Valid()
    ensures k == FirstRejected(items, rejected)
    ensures db.orderItems == old(db.orderItems) + ItemRows(orderId, items[..k], old(db.nextItemId))
    ensures db.nextItemId == old(db.nextItemId) + k
    ensures db.orders == old(db.orders) && db.cartItems == old(db.cartItems) && db.wishlist == old(db.wishlist)
    ensures db.nextOrderId == old(db.nextOrderId) && db.nextCartId == old(db.nextCartId)
  {
    k := 0;
    while k < |items|
      invariant k <= FirstRejected(items, rejected)
      invariant db.Valid()
      invariant db.nextItemId == old(db.nextItemId) + k
      invariant db.orderItems == old(db.orderItems) + ItemRows(orderId, items[..k], old(db.nextItemId))
      invariant db.orders == old(db.orders) && db.cartItems == old(db.cartItems) && db.wishlist == old(db.wishlist)
      invariant db.nextOrderId == old(db.nextOrderId) && db.nextCartId == old(db.nextCartId)
    {
      if rejected(items[k]) {
        return;
      }
      FirstRejectedNext(items, rejected, k);
      ItemRowsStep(orderId, items, k, old(db.nextItemId), old(db.orderItems), db.nextItemId);
      InsertItem(db, orderId, items[k]);
      k := k + 1;
    }
  }

  /** `INSERT INTO orders ... RETURNING *`: a new `pending` order under the next id. */
  method InsertOrder(db: Database, userId: string, total: int, address: string, gatewayOrderId: Option<string>)
    returns (order: Order)
    requires db.Valid()
    modifies db
    ensures db.Valid()
    ensures order == NewOrder(old(db.nextOrderId), userId, total, address, gatewayOrderId)
    ensures old(db.nextOrderId) !in old(db.orders) && db.orders == old(db.orders)[order.id := order]
    ensures db.nextOrderId == old(db.nextOrderId) + 1
    ensures db.orderItems == old(db.orderItems) && db.cartItems == old(db.cartItems) && db.wishlist == old(db.wishlist)
    ensures db.nextItemId == old(db.nextItemId) && db.nextCartId == old(db.nextCartId)
  {
    order := NewOrder(db.nextOrderId, userId, total, address, gatewayOrderId);
    db.orders := db.orders[order.id := order];
    db.nextOrderId := db.nextOrderId + 1;
  }

  /** ROLLBACK: the order tables return to their state at BEGIN; the id sequences
      keep their advanced values. */
  method Rollback(db: Database, orders: map<nat, Order>, orderItems: map<nat, OrderItem>, ghost orderId: nat, ghost itemId: nat)
    requires db.Valid()
    requires TablesValid(orders, orderItems, db.cartItems, db.wishlist, orderId, itemId, db.nextCartId)
    requires orderId <= db.nextOrderId && itemId <= db.nextItemId
    modifies db
    ensures db.Valid()
    ensures db.orders == orders && db.orderItems == orderItems
    ensures db.cartItems == old(db.cartItems) && db.wishlist == old(db.wishlist)
    ensures db.nextOrderId == old(db.nextOrderId) && db.nextItemId == old(db.nextItemId) && db.nextCartId == old(db.nextCartId)
  {
    TablesValidLaterIds(orders, orderItems, db.cartItems, db.wishlist, orderId, itemId, db.nextCartId,
                        db.nextOrderId, db.nextItemId, db.nextCartId);
    db.orders, db.orderItems := orders, orderItems;
  }

  /** `UPDATE orders SET razorpay_order_id = $1 WHERE id = $2` */
  method SetGatewayOrderId(db: Database, id: nat, gatewayOrderId: string)
    requires db.Valid()
    modifies db
    ensures db.Valid()
    ensures db.orders == if id in old(db.orders)
                         then old(db.orders)[id := old(db.orders)[id].(razorpayOrderId := Some(gatewayOrderId))]
                         else old(db.orders)
    ensures db.orderItems == old(db.orderItems) && db.cartItems == old(db.cartItems) && db.wishlist == old(db.wishlist)
    ensures db.nextOrderId == old(db.nextOrderId) && db.nextItemId == old(db.nextItemId) && db.nextCartId == old(db.nextCartId)
  {
    if id in db.orders {
      db.orders := db.orders[id := db.orders[id].(razorpayOrderId := Some(gatewayOrderId))];
    }
  }

  /** What `/api/orders/create` asks the gateway for. */
  function CreateRequest(total: int, orderId: nat): GatewayRequest {
    GatewayRequest(total, "INR", "receipt_" + NatToString(orderId), None, None)
  }

  /** The prefix of the 500 message when the gateway refuses to create an order. */
  const GatewayFailurePrefix: string := "Razorpay order creation failed: "

  /** What the order tables look like after a route, and its reply. */
  datatype Outcome = Outcome(reply: Reply<CreatedOrder>, orders: map<nat, Order>, orderItems: map<nat, OrderItem>)

  /** The result of `/api/orders/create` on tables `orders` and `orderItems` whose
      next ids are `orderId` and `firstItemId`. */
  function CreateOutcome(orders: map<nat, Order>, orderItems: map<nat, OrderItem>, orderId: nat, firstItemId: nat,
                         userId: string, items: seq<OrderLine>, total: int, address: string,
                         gateway: Gateway, rejected: ItemCheck): Outcome
  {
    if FirstRejected(items, rejected) < |items| then Outcome(ServerError(None), orders, orderItems)
    else
      match gateway(CreateRequest(total, orderId))
      case GatewayFailed(m) => Outcome(ServerError(Some(GatewayFailurePrefix + m)), orders, orderItems)
      case GatewayCreated(g) => CreatedOutcome(orders, orderItems, orderId, firstItemId, userId, items, total, address, g)
  }

  /** The committed result: the order as first inserted in the reply, the order
      with its gateway id in the table, and one item row per line. */
  function CreatedOutcome(orders: map<nat, Order>, orderItems: map<nat, OrderItem>, orderId: nat, firstItemId: nat,
                          userId: string, items: seq<OrderLine>, total: int, address: string, g: GatewayOrder): Outcome
  {
    Outcome(Ok(CreatedOrder(NewOrder(orderId, userId, total, address, None), g)),
            orders[orderId := NewOrder(orderId, userId, total, address, Some(g.id))],
            orderItems + ItemRows(orderId, items, firstItemId))
  }

  /** All or nothing, first half: a failed creation leaves both tables as they were. */
  lemma CreateFailureKeepsTables(orders: map<nat, Order>, orderItems: map<nat, OrderItem>, orderId: nat, firstItemId: nat,
                                 userId: string, items: seq<OrderLine>, total: int, address: string,
                                 gateway: Gateway, rejected: ItemCheck)
    ensures var out := CreateOutcome(orders, orderItems, orderId, firstItemId, userId, items, total, address, gateway, rejected);
            !out.reply.Ok? ==> out.orders == orders && out.orderItems == orderItems
  {
  }

  /** `ItemRows` holds one row per line. */
  lemma {:induction false} ItemRowsCount(orderId: nat, lines: seq<OrderLine>, firstId: nat)
    ensures |ItemRows(orderId, lines, firstId).Keys| == |lines|
  {
    if lines != [] {
      var prefix := lines[..|lines| - 1];
      ItemRowsCount(orderId, prefix, firstId);
      var id := firstId + |lines| - 1;
      assert ItemRows(orderId, lines, firstId).Keys == ItemRows(orderId, prefix, firstId).Keys + {id};
    }
  }

  /** The route answers 200 exactly when every line is accepted and the gateway
      creates its order. */
  lemma CreateSucceedsIff(orders: map<nat, Order>, orderItems: map<nat, OrderItem>, orderId: nat, firstItemId: nat,
                          userId: string, items: seq<OrderLine>, total: int, address: string,
                          gateway: Gateway, rejected: ItemCheck)
    ensures CreateOutcome(orders, orderItems, orderId, firstItemId, userId, items, total, address, gateway, rejected).reply.Ok?
        <==> FirstRejected(items, rejected) == |items| && gateway(CreateRequest(total, orderId)).GatewayCreated?
  {
  }

  /** A successful creation commits `CreatedOutcome`. */
  lemma CreateOutcomeOnSuccess(orders: map<nat, Order>, orderItems: map<nat, OrderItem>, orderId: nat, firstItemId: nat,
                               userId: string, items: seq<OrderLine>, total: int, address: string,
                               gateway: Gateway, rejected: ItemCheck)
    requires CreateOutcome(orders, orderItems, orderId, firstItemId, userId, items, total, address, gateway, rejected).reply.Ok?
    ensures gateway(CreateRequest(total, orderId)).GatewayCreated?
    ensures CreateOutcome(orders, orderItems, orderId, firstItemId, userId, items, total, address, gateway, rejected)
         == CreatedOutcome(orders, orderItems, orderId, firstItemId, userId, items, total, address,
                           gateway(CreateRequest(total, orderId)).order)
  {
  }

  /** All or nothing, second half (orders): a successful creation answers with the
      order as first inserted and adds exactly that one order, `pending` and carrying
      the gateway order id; no other order changes. */
  lemma CreateSuccessOrders(orders: map<nat, Order>, orderItems: map<nat, OrderItem>, orderId: nat, firstItemId: nat,
                            userId: string, items: seq<OrderLine>, total: int, address: string, g: GatewayOrder)
    ensures var out := CreatedOutcome(orders, orderItems, orderId, firstItemId, userId, items, total, address, g);
        && out.reply == Ok(CreatedOrder(NewOrder(orderId, userId, total, address, None), g))
        && orderId in out.orders && out.orders == orders[orderId := out.orders[orderId]]
        && out.orders[orderId].status == "pending"
        && out.orders[orderId].razorpayOrderId == Some(g.id)
  {
  }

  /** All or nothing, second half (existing items): a successful creation keeps
      every existing item row as it was. */
  lemma CreateSuccessKeepsItems(orders: map<nat, Order>, orderItems: map<nat, OrderItem>, orderId: nat, firstItemId: nat,
                                userId: string, items: seq<OrderLine>, total: int, address: string, g: GatewayOrder)
    requires forall i :: i in orderItems ==> i < firstItemId
    ensures var out := CreatedOutcome(orders, orderItems, orderId, firstItemId, userId, items, total, address, g);
        && orderItems.Keys <= out.orderItems.Keys
        && (forall i :: i in orderItems ==> out.orderItems[i] == orderItems[i])
  {
    var rows := ItemRows(orderId, items, firstItemId);
    forall i | i in orderItems
      ensures i in orderItems + rows && (orderItems + rows)[i] == orderItems[i]
    {
      assert i !in rows;
    }
  }

  /** All or nothing, second half (new items): a successful creation adds one item
      row per line, each pointing at the new order. */
  lemma CreateSuccessNewItems(orders: map<nat, Order>, orderItems: map<nat, OrderItem>, orderId: nat, firstItemId: nat,
                              userId: string, items: seq<OrderLine>, total: int, address: string, g: GatewayOrder)
    requires forall i :: i in orderItems ==> i < firstItemId
    ensures var out := CreatedOutcome(orders, orderItems, orderId, firstItemId, userId, items, total, address, g);
        && |out.orderItems.Keys - orderItems.Keys| == |items|
        && (forall i :: i in out.orderItems.Keys - orderItems.Keys ==> out.orderItems[i].orderId == orderId)
  {
    var rows := ItemRows(orderId, items, firstItemId);
    assert (orderItems + rows).Keys - orderItems.Keys == rows.Keys;
    ItemRowsCount(orderId, items, firstItemId);
  }

  /** Each line of a successful creation is stored as its own row. */
  lemma CreateSuccessRowOfLine(orders: map<nat, Order>, orderItems: map<nat, OrderItem>, orderId: nat, firstItemId: nat,
                               userId: string, items: seq<OrderLine>, total: int, address: string, g: GatewayOrder, k: nat)
    requires k < |items|
    ensures CreatedOutcome(orders, orderItems, orderId, firstItemId, userId, items, total, address, g)
              .orderItems[firstItemId + k] == ItemRow(firstItemId + k, orderId, items[k])
  {
    ItemRowsContent(orderId, items, firstItemId, k);
  }

  /** The reply's order is the row as first inserted: it does not yet carry the
      gateway order id, which only the stored row has. */
  lemma CreateReplyOmitsGatewayId(orders: map<nat, Order>, orderItems: map<nat, OrderItem>, orderId: nat, firstItemId: nat,
                                  userId: string, items: seq<OrderLine>, total: int, address: string,
                                  gateway: Gateway, rejected: ItemCheck, reply: CreatedOrder)
    requires CreateOutcome(orders, orderItems, orderId, firstItemId, userId, items, total, address, gateway, rejected).reply
          == Ok(reply)
    ensures reply.order.razorpayOrderId.None?
    ensures CreateOutcome(orders, orderItems, orderId, firstItemId, userId, items, total, address, gateway, rejected).orders[orderId]
         == reply.order.(razorpayOrderId := Some(reply.gatewayOrder.id))
  {
  }

  /** `POST /api/orders/create`: in one transaction, insert a `pending` order, insert
      its items one by one, create the gateway order and store its id on the order.
      Any failure rolls the transaction back and answers 500. The reply carries the
      order row as first inserted, before the gateway id was stored. */
  method CreateOrder(db: Database, userId: string, items: seq<OrderLine>, total: int, address: string,
                     gateway: Gateway, rejected: ItemCheck)
    returns (r: Reply<CreatedOrder>)
    requires db.Valid()
    modifies db
    ensures db.Valid()
    ensures db.cartItems == old(db.cartItems) && db.wishlist == old(db.wishlist)
    ensures Outcome(r, db.orders, db.orderItems)
         == CreateOutcome(old(db.orders), old(db.orderItems), old(db.nextOrderId), old(db.nextItemId),
                          userId, items, total, address, gateway, rejected)
  {
    // BEGIN
    var savedOrders, savedItems := db.orders, db.orderItems;
    ghost var savedItemId := db.nextItemId;
    var order := InsertOrder(db, userId, total, address, None);
    var k := InsertItems(db, order.id, items, rejected);
    r := FinishCreate(db, savedOrders, savedItems, savedItemId, order, items, k, total, gateway, rejected);
  }

  /** The rest of `/api/orders/create` once the item loop has stopped after `k`
      lines: ROLLBACK if a line was refused or the gateway fails, otherwise store
      the gateway order id and COMMIT. */
  method FinishCreate(db: Database, savedOrders: map<nat, Order>, savedItems: map<nat, OrderItem>, ghost savedItemId: nat,
                      order: Order, items: seq<OrderLine>, k: nat, total: int, gateway: Gateway, rejected: ItemCheck)
    returns (r: Reply<CreatedOrder>)
    requires db.Valid()
    requires TablesValid(savedOrders, savedItems, db.cartItems, db.wishlist, order.id, savedItemId, db.nextCartId)
    requires order.id < db.nextOrderId && savedItemId <= db.nextItemId
    requires order == NewOrder(order.id, order.userId, order.total, order.shippingAddress, None) && order.total == total
    requires order.id !in savedOrders && db.orders == savedOrders[order.id := order]
    requires k == FirstRejected(items, rejected)
    requires db.orderItems == savedItems + ItemRows(order.id, items[..k], savedItemId)
    modifies db
    ensures db.Valid()
    ensures db.cartItems == old(db.cartItems) && db.wishlist == old(db.wishlist)
    ensures Outcome(r, db.orders, db.orderItems)
         == CreateOutcome(savedOrders, savedItems, order.id, savedItemId,
                          order.userId, items, total, order.shippingAddress, gateway, rejected)
  {
    if k < |items| {
      Rollback(db, savedOrders, savedItems, order.id, savedItemId);
      return ServerError(None);
    }
    assert items[..k] == items;

    var result := gateway(CreateRequest(total, order.id));
    if result.GatewayFailed? {
      Rollback(db, savedOrders, savedItems, order.id, savedItemId);
      return ServerError(Some(GatewayFailurePrefix + result.message));
    }

    ghost var stored := NewOrder(order.id, order.userId, total, order.shippingAddress, Some(result.order.id));
    SetGatewayOrderId(db, order.id, result.order.id);
    assert db.orders == savedOrders[order.id := stored];
    // COMMIT
    r := Ok(CreatedOrder(order, result.order));
  }

  /** What the older `/api/orders` asks the gateway for. */
  function LegacyRequest(total: int, userId: string, now: int): GatewayRequest {
    GatewayRequest(total, "INR", "order_" + IntToString(now), Some(1), Some(userId))
  }

  /** `POST /api/orders`: the older route, without a transaction. It creates the
      gateway order first, then inserts the order with the gateway id, then the items
      one by one; a refused item answers 500 but leaves the order and the items
      before it in place. Unlike the transactional route, this one stores
      `JSON.stringify(shipping_address)`: `address` is that serialized text. */
  method CreateOrderLegacy(db: Database, userId: string, items: seq<OrderLine>, total: int, address: string,
                           now: int, gateway: Gateway, rejected: ItemCheck)
    returns (r: Reply<CreatedOrder>)
    requires db.Valid()
    modifies db
    ensures db.Valid()
    ensures db.cartItems == old(db.cartItems) && db.wishlist == old(db.wishlist)
    ensures var g := gateway(LegacyRequest(total, userId, now));
            && (g.GatewayFailed? ==>
                 r == ServerError(Some(g.message))
                 && db.orders == old(db.orders) && db.orderItems == old(db.orderItems))
            && (g.GatewayCreated? ==>
                 var id := old(db.nextOrderId);
                 var order := NewOrder(id, userId, total, address, Some(g.order.id));
                 var k := FirstRejected(items, rejected);
                 && db.orders == old(db.orders)[id := order]
                 && db.orderItems == old(db.orderItems) + ItemRows(id, items[..k], old(db.nextItemId))
                 && (r.Ok? <==> k == |items|)
                 && (k < |items| ==> r == ServerError(None))
                 && (r.Ok? ==> r.body == CreatedOrder(order, g.order)))
  {
    var result := gateway(LegacyRequest(total, userId, now));
    if result.GatewayFailed? {
      return ServerError(Some(result.message));
    }
    var order := InsertOrder(db, userId, total, address, Some(result.order.id));

    var k := InsertItems(db, order.id, items, rejected);
    if k < |items| {
      return ServerError(None);
    }
    r := Ok(CreatedOrder(order, GatewayOrder(result.order.id, result.order.amount, result.order.currency)));
  }

  // ---------------------------------------------------------------------
  // Payment verification
  // ---------------------------------------------------------------------

  /** The body of a verification request; absent fields are None. */
  datatype VerifyBody = VerifyBody(
    orderId: Option<nat>, paymentId: Option<string>, gatewayOrderId: Option<string>, signature: Option<string>)

  /** The signature expected for the ids in a request. */
  function SignatureFor(mac: Hmac.Mac, secret: string, b: VerifyBody): string {
    Hmac.ExpectedSignature(mac, secret, JsText(b.gatewayOrderId), JsText(b.paymentId))
  }

  /** The submitted signature equals the expected one (an absent signature never does). */
  predicate SignatureAccepted(mac: Hmac.Mac, secret: string, b: VerifyBody) {
    b.signature == Some(SignatureFor(mac, secret, b))
  }

  /** `POST /api/orders/verify`: with a matching signature, the order named by
      `order_id` becomes `processing` with the payment id; otherwise 400 and no
      write. The stored gateway order id is never consulted. Without a key secret
      `createHmac` throws and the reply is 500. */
  method VerifyOrder(db: Database, mac: Hmac.Mac, secret: Option<string>, b: VerifyBody) returns (r: Reply<Ack>)
    modifies db
    ensures db.orderItems == old(db.orderItems) && db.cartItems == old(db.cartItems)
    ensures db.wishlist == old(db.wishlist) && db.nextOrderId == old(db.nextOrderId)
    ensures db.nextItemId == old(db.nextItemId) && db.nextCartId == old(db.nextCartId)
    ensures secret.None? ==> r == ServerError(None) && db.orders == old(db.orders)
    ensures secret.Some? ==>
      if SignatureAccepted(mac, secret.value, b) then
        r == Ok(Success) && db.orders == MarkProcessing(old(db.orders), b.orderId, PaymentWrite(Some(b.paymentId), None, None))
      else
        r == BadRequest("Invalid signature") && db.orders == old(db.orders)
  {
    if secret.None? {
      return ServerError(None);
    }
    var expected := SignatureFor(mac, secret.value, b);
    if b.signature == Some(expected) {
      db.orders := MarkProcessing(db.orders, b.orderId, PaymentWrite(Some(b.paymentId), None, None));
      r := Ok(Success);
    } else {
      r := BadRequest("Invalid signature");
    }
  }

  /** `POST /api/orders/verify-payment`: the same gate; a match also stores the signature. */
  method VerifyPayment(db: Database, mac: Hmac.Mac, secret: Option<string>, b: VerifyBody) returns (r: Reply<Ack>)
    modifies db
    ensures db.orderItems == old(db.orderItems) && db.cartItems == old(db.cartItems)
    ensures db.wishlist == old(db.wishlist) && db.nextOrderId == old(db.nextOrderId)
    ensures db.nextItemId == old(db.nextItemId) && db.nextCartId == old(db.nextCartId)
    ensures secret.None? ==> r == ServerError(None) && db.orders == old(db.orders)
    ensures secret.Some? ==>
      if SignatureAccepted(mac, secret.value, b) then
        r == Ok(SuccessWithMessage("Payment verified successfully"))
        && db.orders == MarkProcessing(old(db.orders), b.orderId, PaymentWrite(Some(b.paymentId), Some(b.signature), None))
      else
        r == BadRequest("Invalid signature") && db.orders == old(db.orders)
  {
    if secret.None? {
      return ServerError(None);
    }
    var expectedSign := SignatureFor(mac, secret.value, b);
    if b.signature == Some(expectedSign) {
      db.orders := MarkProcessing(db.orders, b.orderId, PaymentWrite(Some(b.paymentId), Some(b.signature), None));
      r := Ok(SuccessWithMessage("Payment verified successfully"));
    } else {
      r := BadRequest("Invalid signature");
    }
  }

  /** A signature computed for some gateway order marks whichever order the request
      names: nothing ties `order_id` to `razorpay_order_id`. */
  lemma VerifyDoesNotBindOrder(orders: map<nat, Order>, mac: Hmac.Mac, secret: string, b: VerifyBody, id: nat)
    requires id in orders && b.orderId == Some(id) && SignatureAccepted(mac, secret, b)
    requires orders[id].razorpayOrderId != b.gatewayOrderId
    ensures MarkProcessing(orders, b.orderId, PaymentWrite(Some(b.paymentId), None, None))[id].status == "processing"
    ensures MarkProcessing(orders, b.orderId, PaymentWrite(Some(b.paymentId), Some(b.signature), None))[id].status == "processing"
  {
  }

  // ---------------------------------------------------------------------
  // Gateway webhook
  // ---------------------------------------------------------------------

  /** Where `req.body.payload.payment.entity` leads: the path breaks before the
      entity (reading it throws), the entity is absent, or it is present with its
      `order_id`. */
  datatype EntityPath = PathBroken | NoEntity | Entity(orderId: Option<string>)

  /** `serializedBody` is `JSON.stringify(req.body)`. */
  datatype WebhookRequest = WebhookRequest(
    serializedBody: string, event: Option<string>, entity: EntityPath, signatureHeader: Option<string>)

  /** The status each handled event writes. */
  function EventStatus(event: Option<string>): (s: Option<string>)
    ensures s.Some? <==> event in {Some("payment.captured"), Some("payment.failed"), Some("payment.authorized")}
    ensures event == Some("payment.captured") ==> s == Some("processing")
    ensures event == Some("payment.failed") ==> s == Some("failed")
    ensures event == Some("payment.authorized") ==> s == Some("authorized")
  {
    match event
    case Some("payment.captured") => Some("processing")
    case Some("payment.failed") => Some("failed")
    case Some("payment.authorized") => Some("authorized")
    case _ => None
  }

  /** The webhook's signature check: skipped when the secret is empty or absent. */
  predicate WebhookSignatureRejected(mac: Hmac.Mac, secret: Option<string>, req: WebhookRequest) {
    StringTruthy(secret) && req.signatureHeader != Some(Hmac.HmacHex(mac, secret.value, req.serializedBody))
  }

  /** `POST /api/webhooks/razorpay` */
  method Webhook(db: Database, mac: Hmac.Mac, secret: Option<string>, req: WebhookRequest) returns (r: Reply<Ack>)
    modifies db
    ensures db.orderItems == old(db.orderItems) && db.cartItems == old(db.cartItems)
    ensures db.wishlist == old(db.wishlist) && db.nextOrderId == old(db.nextOrderId)
    ensures db.nextItemId == old(db.nextItemId) && db.nextCartId == old(db.nextCartId)
    ensures WebhookSignatureRejected(mac, secret, req) ==>
      r == BadRequest("Invalid webhook signature") && db.orders == old(db.orders)
    ensures !WebhookSignatureRejected(mac, secret, req) ==>
      if req.entity.PathBroken? || (EventStatus(req.event).Some? && req.entity.NoEntity?) then
        r == ServerError(None) && db.orders == old(db.orders)
      else
        && r == Ok(StatusOk)
        && db.orders == if EventStatus(req.event).Some?
                        then SetStatusByGatewayOrder(old(db.orders), req.entity.orderId, EventStatus(req.event).value)
                        else old(db.orders)
  {
    if StringTruthy(secret) {
      var expectedSignature := Hmac.HmacHex(mac, secret.value, req.serializedBody);
      if req.signatureHeader != Some(expectedSignature) {
        return BadRequest("Invalid webhook signature");
      }
    }
    if req.entity.PathBroken? {
      return ServerError(None);
    }
    var status := EventStatus(req.event);
    if status.Some? {
      if req.entity.NoEntity? {
        return ServerError(None);
      }
      db.orders := SetStatusByGatewayOrder(db.orders, req.entity.orderId, status.value);
    }
    r := Ok(StatusOk);
  }

  // ---------------------------------------------------------------------
  // Admin status update
  // ---------------------------------------------------------------------

  /** `PUT /api/admin/orders/:id/status`: runs the statement `AdminStatusQuery`
      builds and replies with the updated row, or with nothing when no order has
      that id. */
  method AdminUpdateStatus(db: Database, id: nat, status: string, trackingNumber: Option<string>,
                           trackingUrl: Option<string>, now: int)
    returns (r: Reply<Option<Order>>)
    modifies db
    ensures db.orderItems == old(db.orderItems) && db.cartItems == old(db.cartItems)
    ensures db.wishlist == old(db.wishlist) && db.nextOrderId == old(db.nextOrderId)
    ensures db.nextItemId == old(db.nextItemId) && db.nextCartId == old(db.nextCartId)
    ensures db.orders == AdminSetStatus(old(db.orders), id, status, trackingNumber, trackingUrl, now)
    ensures r == Ok(if id in db.orders then Some(db.orders[id]) else None)
  {
    db.orders := AdminSetStatus(db.orders, id, status, trackingNumber, trackingUrl, now);
    r := Ok(if id in db.orders then Some(db.orders[id]) else None);
  }

  // ---------------------------------------------------------------------
  // Cart and wishlist rows
  // ---------------------------------------------------------------------

  /** `POST /api/cart`: always a new row; the server does not merge duplicates. */
  method AddCartRow(db: Database, userId: string, productId: string, quantity: int,
                    size: Option<string>, color: Option<string>)
    returns (row: CartRow)
    requires db.Valid()
    modifies db
    ensures db.Valid()
    ensures row == CartRow(old(db.nextCartId), userId, productId, quantity, size, color)
    ensures old(db.nextCartId) !in old(db.cartItems) && db.cartItems == old(db.cartItems)[row.id := row]
    ensures db.orders == old(db.orders) && db.orderItems == old(db.orderItems) && db.wishlist == old(db.wishlist)
  {
    row := CartRow(db.nextCartId, userId, productId, quantity, size, color);
    db.cartItems := db.cartItems[row.id := row];
    db.nextCartId := db.nextCartId + 1;
  }

  /** `PUT /api/cart/:id`: replies with the updated row, or nothing when the row is
      not the caller's. */
  method UpdateCartRow(db: Database, userId: string, id: nat, quantity: int) returns (r: Option<CartRow>)
    requires db.Valid()
    modifies db
    ensures db.Valid()
    ensures (db.cartItems, r) == UpdateCartQuantity(old(db.cartItems), id, userId, quantity)
    ensures db.orders == old(db.orders) && db.orderItems == old(db.orderItems) && db.wishlist == old(db.wishlist)
  {
    var result := UpdateCartQuantity(db.cartItems, id, userId, quantity);
    db.cartItems := result.0;
    r := result.1;
  }

  /** `DELETE /api/cart/:id` */
  method DeleteCartItem(db: Database, userId: string, id: nat)
    requires db.Valid()
    modifies db
    ensures db.Valid()
    ensures db.cartItems == DeleteCartRow(old(db.cartItems), id, userId)
    ensures db.orders == old(db.orders) && db.orderItems == old(db.orderItems) && db.wishlist == old(db.wishlist)
  {
    db.cartItems := DeleteCartRow(db.cartItems, id, userId);
  }

  /** `POST /api/wishlist` */
  method AddToWishlist(db: Database, userId: string, productId: string)
    requires db.Valid()
    modifies db
    ensures db.Valid()
    ensures db.wishlist == WishlistInsert(old(db.wishlist), WishRow(userId, productId))
    ensures db.orders == old(db.orders) && db.orderItems == old(db.orderItems) && db.cartItems == old(db.cartItems)
  {
    db.wishlist := WishlistInsert(db.wishlist, WishRow(userId, productId));
  }

  /** `DELETE /api/wishlist/:productId` */
  method RemoveFromWishlist(db: Database, userId: string, productId: string)
    requires db.Valid()
    modifies db
    ensures db.Valid()
    ensures db.wishlist == WishlistDelete(old(db.wishlist), WishRow(userId, productId))
    ensures db.orders == old(db.orders) && db.orderItems == old(db.orderItems) && db.cartItems == old(db.cartItems)
  {
    db.wishlist := WishlistDelete(db.wishlist, WishRow(userId, productId));
  }
}
