/** The server's PostgreSQL tables and the effect of each statement the order,
    cart and wishlist routes issue. Tables are maps from row id to row; each
    statement's effect is a function from the old table to the new one, so its
    properties (which rows change, idempotence, ownership) are lemmas about
    values, and the route handlers apply them to the `Database` object. */
module ServerDb {
  import opened Js

  datatype Order = Order(
    id: nat, userId: string, total: int, status: string, shippingAddress: string,
    razorpayOrderId: Option<string>, razorpayPaymentId: Option<string>,
    razorpaySignature: Option<string>, trackingNumber: Option<string>,
    trackingUrl: Option<string>, updatedAt: Option<int>, shippedAt: Option<int>)

  /** A row of `order_items`. */
  datatype OrderItem = OrderItem(
    id: nat, orderId: nat, productId: string, quantity: int, price: int,
    size: Option<string>, color: Option<string>)

  /** A row of `cart_items`. */
  datatype CartRow = CartRow(
    id: nat, userId: string, productId: string, quantity: int,
    size: Option<string>, color: Option<string>)

  /** A row of `wishlist`, unique on (user, product). */
  datatype WishRow = WishRow(userId: string, productId: string)

  /** A freshly inserted order: `pending`, no gateway data, no tracking. */
  function NewOrder(id: nat, userId: string, total: int, address: string, gatewayOrderId: Option<string>): (o: Order)
    ensures o.id == id && o.status == "pending" && o.razorpayOrderId == gatewayOrderId
    ensures o.razorpayPaymentId.None? && o.razorpaySignature.None? && o.shippedAt.None?
  {
    Order(id, userId, total, "pending", address, gatewayOrderId, None, None, None, None, None, None)
  }

  class Database {
    var orders: map<nat, Order>
    var orderItems: map<nat, OrderItem>
    var cartItems: map<nat, CartRow>
    var wishlist: seq<WishRow>
    /** The next values of the id sequences; a sequence is never rolled back. */
    var nextOrderId: nat
    var nextItemId: nat
    var nextCartId: nat

    predicate Valid()
      reads this
    {
      TablesValid(orders, orderItems, cartItems, wishlist, nextOrderId, nextItemId, nextCartId)
    }

    constructor ()
      ensures Valid()
      ensures orders == map[] && orderItems == map[] && cartItems == map[] && wishlist == []
    {
      orders, orderItems, cartItems, wishlist := map[], map[], map[], [];
      nextOrderId, nextItemId, nextCartId := 0, 0, 0;
    }
  }

  /** Rows are stored under their own ids, ids come from the sequences, every
      order item belongs to an existing order, and wishlist pairs are unique. */
  predicate TablesValid(orders: map<nat, Order>, orderItems: map<nat, OrderItem>, cartItems: map<nat, CartRow>,
                        wishlist: seq<WishRow>, nextOrderId: nat, nextItemId: nat, nextCartId: nat) {
    && (forall id :: id in orders ==> id < nextOrderId && orders[id].id == id)
    && (forall id :: id in orderItems ==> id < nextItemId && orderItems[id].id == id
                                           && orderItems[id].orderId in orders)
    && (forall id :: id in cartItems ==> id < nextCartId && cartItems[id].id == id)
    && WishlistUnique(wishlist)
  }

  /** Advancing the sequences keeps valid tables valid. */
  lemma TablesValidLaterIds(orders: map<nat, Order>, orderItems: map<nat, OrderItem>, cartItems: map<nat, CartRow>,
                            wishlist: seq<WishRow>, o1: nat, i1: nat, c1: nat, o2: nat, i2: nat, c2: nat)
    requires TablesValid(orders, orderItems, cartItems, wishlist, o1, i1, c1)
    requires o1 <= o2 && i1 <= i2 && c1 <= c2
    ensures TablesValid(orders, orderItems, cartItems, wishlist, o2, i2, c2)
  {
  }

  predicate WishlistUnique(w: seq<WishRow>) {
    forall i, j :: 0 <= i < j < |w| ==> w[i] != w[j]
  }

  // ---------------------------------------------------------------------
  // Order status writes
  // ---------------------------------------------------------------------

  /** `WHERE razorpay_order_id = $2`: an absent id is NULL and matches no row. */
  predicate GatewayMatch(o: Order, gatewayOrderId: Option<string>) {
    gatewayOrderId.Some? && o.razorpayOrderId == gatewayOrderId
  }

  /** `UPDATE orders SET status = $1 WHERE razorpay_order_id = $2` */
  function SetStatusByGatewayOrder(orders: map<nat, Order>, gatewayOrderId: Option<string>, status: string)
    : (r: map<nat, Order>)
    ensures r.Keys == orders.Keys
    ensures forall id :: id in r ==> r[id] == orders[id].(status := r[id].status)
    ensures forall id :: id in r && GatewayMatch(orders[id], gatewayOrderId) ==> r[id].status == status
    ensures forall id :: id in r && !GatewayMatch(orders[id], gatewayOrderId) ==> r[id] == orders[id]
  {
    map id | id in orders ::
      if GatewayMatch(orders[id], gatewayOrderId) then orders[id].(status := status) else orders[id]
  }

  /** Replaying a status write changes nothing more. */
  lemma SetStatusIdempotent(orders: map<nat, Order>, g: Option<string>, status: string)
    ensures SetStatusByGatewayOrder(SetStatusByGatewayOrder(orders, g, status), g, status)
         == SetStatusByGatewayOrder(orders, g, status)
  {
  }

  /** There is no transition guard: the later of two writes wins whatever the
      earlier one, or the stored status, was. A `payment.failed` after a
      `payment.captured` turns a `processing` order back to `failed`. */
  lemma SetStatusLastWins(orders: map<nat, Order>, g: Option<string>, s1: string, s2: string)
    ensures SetStatusByGatewayOrder(SetStatusByGatewayOrder(orders, g, s1), g, s2)
         == SetStatusByGatewayOrder(orders, g, s2)
  {
    var a := SetStatusByGatewayOrder(SetStatusByGatewayOrder(orders, g, s1), g, s2);
    var b := SetStatusByGatewayOrder(orders, g, s2);
    forall id | id in orders ensures a[id] == b[id] {
      assert GatewayMatch(SetStatusByGatewayOrder(orders, g, s1)[id], g) == GatewayMatch(orders[id], g);
    }
  }

  /** The fields a payment verification writes. `None` marks a column the route
      leaves out of its SET list; `Some(v)` writes `v` (which may be NULL). */
  datatype PaymentWrite = PaymentWrite(
    paymentId: Option<Option<string>>, signature: Option<Option<string>>,
    gatewayOrderId: Option<Option<string>>)

  function Written(old_: Option<string>, w: Option<Option<string>>): Option<string> {
    if w.Some? then w.value else old_
  }

  /** `UPDATE orders SET status = 'processing', ... WHERE id = $n`; an absent id matches
      no row. */
  function MarkProcessing(orders: map<nat, Order>, orderId: Option<nat>, w: PaymentWrite): (r: map<nat, Order>)
    ensures r.Keys == orders.Keys
    ensures forall id :: id in r && orderId != Some(id) ==> r[id] == orders[id]
    ensures orderId.Some? && orderId.value in orders ==>
      var o := orders[orderId.value];
      r[orderId.value] == o.(status := "processing",
                             razorpayPaymentId := Written(o.razorpayPaymentId, w.paymentId),
                             razorpaySignature := Written(o.razorpaySignature, w.signature),
                             razorpayOrderId := Written(o.razorpayOrderId, w.gatewayOrderId))
  {
    if orderId.Some? && orderId.value in orders then
      var o := orders[orderId.value];
      orders[orderId.value := o.(status := "processing",
                                 razorpayPaymentId := Written(o.razorpayPaymentId, w.paymentId),
                                 razorpaySignature := Written(o.razorpaySignature, w.signature),
                                 razorpayOrderId := Written(o.razorpayOrderId, w.gatewayOrderId))]
    else orders
  }

  /** The update never reads the stored gateway order id: an order whose stored
      `razorpay_order_id` differs from the one in the request is marked paid all the
      same, with the same result as if the ids agreed. */
  lemma MarkProcessingIgnoresStoredGatewayId(orders: map<nat, Order>, id: nat, w: PaymentWrite, stored: Option<string>)
    requires id in orders && w.gatewayOrderId.None?
    ensures MarkProcessing(orders[id := orders[id].(razorpayOrderId := stored)], Some(id), w)[id]
         == MarkProcessing(orders, Some(id), w)[id].(razorpayOrderId := stored)
    ensures MarkProcessing(orders[id := orders[id].(razorpayOrderId := stored)], Some(id), w)[id].status == "processing"
  {
  }

  /** Verifying twice with the same request leaves what one verification left. */
  lemma MarkProcessingIdempotent(orders: map<nat, Order>, orderId: Option<nat>, w: PaymentWrite)
    ensures MarkProcessing(MarkProcessing(orders, orderId, w), orderId, w) == MarkProcessing(orders, orderId, w)
  {
  }

  /** `UPDATE orders SET status = $1, updated_at = now()[, tracking_number = ..]
      [, tracking_url = ..][, shipped_at = now()] WHERE id = $n`, as the admin
      status query binds it. */
  function AdminSetStatus(orders: map<nat, Order>, id: nat, status: string,
                          trackingNumber: Option<string>, trackingUrl: Option<string>, now: int)
    : (r: map<nat, Order>)
    ensures r.Keys == orders.Keys
    ensures forall j :: j in r && j != id ==> r[j] == orders[j]
    ensures id in orders ==>
      && r[id].status == status && r[id].updatedAt == Some(now)
      && r[id].trackingNumber == (if StringTruthy(trackingNumber) then trackingNumber else orders[id].trackingNumber)
      && r[id].trackingUrl == (if StringTruthy(trackingUrl) then trackingUrl else orders[id].trackingUrl)
      && r[id].shippedAt == (if status == "shipped" then Some(now) else orders[id].shippedAt)
      && r[id] == orders[id].(status := r[id].status, updatedAt := r[id].updatedAt,
                              trackingNumber := r[id].trackingNumber, trackingUrl := r[id].trackingUrl,
                              shippedAt := r[id].shippedAt)
  {
    if id in orders then
      var o := orders[id];
      orders[id := o.(status := status, updatedAt := Some(now),
                      trackingNumber := if StringTruthy(trackingNumber) then trackingNumber else o.trackingNumber,
                      trackingUrl := if StringTruthy(trackingUrl) then trackingUrl else o.trackingUrl,
                      shippedAt := if status == "shipped" then Some(now) else o.shippedAt)]
    else orders
  }

  /** Repeating an admin update gives what the later one alone would give. */
  lemma AdminSetStatusIdempotent(orders: map<nat, Order>, id: nat, status: string,
                                 tn: Option<string>, tu: Option<string>, t1: int, t2: int)
    ensures AdminSetStatus(AdminSetStatus(orders, id, status, tn, tu, t1), id, status, tn, tu, t2)
         == AdminSetStatus(orders, id, status, tn, tu, t2)
  {
  }

  /** The admin can write any status over any status, including moving a
      `delivered` order back to `pending`. */
  lemma AdminSetStatusUnguarded(orders: map<nat, Order>, id: nat, status: string,
                                tn: Option<string>, tu: Option<string>, now: int)
    requires id in orders
    ensures AdminSetStatus(orders, id, status, tn, tu, now)[id].status == status
  {
  }

  // ---------------------------------------------------------------------
  // Cart and wishlist statements
  // ---------------------------------------------------------------------

  /** `UPDATE cart_items SET quantity = $1 WHERE id = $2 AND user_id = $3 RETURNING *` */
  function UpdateCartQuantity(cart: map<nat, CartRow>, id: nat, userId: string, quantity: int)
    : (r: (map<nat, CartRow>, Option<CartRow>))
    ensures r.0.Keys == cart.Keys
    ensures r.1.Some? <==> id in cart && cart[id].userId == userId
    ensures r.1.Some? ==> r.1.value == cart[id].(quantity := quantity) && r.0[id] == r.1.value
    ensures forall j :: j in cart && (j != id || cart[j].userId != userId) ==> r.0[j] == cart[j]
  {
    if id in cart && cart[id].userId == userId then
      var row := cart[id].(quantity := quantity);
      (cart[id := row], Some(row))
    else (cart, None)
  }

  /** `DELETE FROM cart_items WHERE id = $1 AND user_id = $2` */
  function DeleteCartRow(cart: map<nat, CartRow>, id: nat, userId: string): (r: map<nat, CartRow>)
    ensures r.Keys == if id in cart && cart[id].userId == userId then cart.Keys - {id} else cart.Keys
    ensures forall j :: j in r ==> r[j] == cart[j]
  {
    if id in cart && cart[id].userId == userId then cart - {id} else cart
  }

  /** Cart statements on behalf of one user never touch another user's rows. */
  lemma CartWritesKeepOthersRows(cart: map<nat, CartRow>, id: nat, userId: string, quantity: int, j: nat)
    requires j in cart && cart[j].userId != userId
    ensures j in UpdateCartQuantity(cart, id, userId, quantity).0
    ensures UpdateCartQuantity(cart, id, userId, quantity).0[j] == cart[j]
    ensures j in DeleteCartRow(cart, id, userId) && DeleteCartRow(cart, id, userId)[j] == cart[j]
  {
  }

  /** `INSERT INTO wishlist (user_id, product_id) VALUES ($1, $2)
      ON CONFLICT (user_id, product_id) DO NOTHING` */
  function WishlistInsert(w: seq<WishRow>, row: WishRow): (r: seq<WishRow>)
    requires WishlistUnique(w)
    ensures WishlistUnique(r)
    ensures row in r && forall x :: x in r <==> x in w || x == row
    ensures row in w ==> r == w
  {
    if row in w then w else w + [row]
  }

  /** Inserting a pair twice is inserting it once. */
  lemma WishlistInsertIdempotent(w: seq<WishRow>, row: WishRow)
    requires WishlistUnique(w)
    ensures WishlistInsert(WishlistInsert(w, row), row) == WishlistInsert(w, row)
  {
  }

  /** `DELETE FROM wishlist WHERE user_id = $1 AND product_id = $2` */
  function WishlistDelete(w: seq<WishRow>, row: WishRow): (r: seq<WishRow>)
    ensures forall x :: x in r <==> x in w && x != row
    ensures WishlistUnique(w) ==> WishlistUnique(r)
  {
    if w == [] then []
    else if w[0] == row then WishlistDelete(w[1..], row)
    else
      var rest := WishlistDelete(w[1..], row);
      assert WishlistUnique(w) ==> WishlistUnique(w[1..]) && w[0] !in rest by {
        if WishlistUnique(w) {
          forall k | 0 <= k < |w[1..]| ensures w[1..][k] != w[0] {
            assert w[1..][k] == w[k + 1];
          }
        }
      }
      [w[0]] + rest
  }
}
