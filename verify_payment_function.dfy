/** The `verify-razorpay-payment` edge function: the same signature gate as the
    server's verify routes, followed by one update of the `orders` table through
    the Supabase client. The body, the secret from the environment and the outcome
    of the database call are inputs; HMAC-SHA256 is the `Mac` oracle. */
module VerifyPaymentFunction {
  import opened Js
  import opened ServerDb
  import opened ServerRoutes
  import Hmac

  /** A CORS preflight, or a POST whose body is the parsed JSON object (`None` when
      `req.json()` rejects or the body cannot be destructured). */
  datatype Request = Preflight | Post(body: Option<VerifyBody>)

  /** `new Response('ok')`, `{ success: true }`, or `{ error: message }` where the
      message is the function's own or (`None`) one raised by a library. */
  datatype ResponseBody = PlainOk | SuccessJson | ErrorJson(message: Option<string>)

  datatype Response = Response(status: nat, body: ResponseBody)

  const PlaceholderSecret: string := "placeholder_secret"
  const InvalidSignature: string := "Invalid signature"

  /** `Deno.env.get('RAZORPAY_KEY_SECRET') || 'placeholder_secret'` */
  function Secret(env: Option<string>): (s: string)
    ensures StringTruthy(env) ==> s == env.value
    ensures !StringTruthy(env) ==> s == PlaceholderSecret
  {
    StringOr(env, PlaceholderSecret)
  }

  /** A field of the update object: an undefined field is left out of the JSON the
      client sends, so the column keeps its value. */
  function FieldWrite(v: Option<string>): (w: Option<Option<string>>)
    ensures w.Some? <==> v.Some?
    ensures w.Some? ==> w.value == v
  {
    if v.Some? then Some(v) else None
  }

  /** `{ status: 'processing', razorpay_payment_id, razorpay_signature, razorpay_order_id }` */
  function UpdateOf(b: VerifyBody): PaymentWrite {
    PaymentWrite(FieldWrite(b.paymentId), FieldWrite(b.signature), FieldWrite(b.gatewayOrderId))
  }

  /** The handler. `dbFails` is the `error` the update returns. */
  method Handle(db: Database, mac: Hmac.Mac, env: Option<string>, req: Request, dbFails: bool)
    returns (resp: Response)
    modifies db
    ensures db.orderItems == old(db.orderItems) && db.cartItems == old(db.cartItems)
    ensures db.wishlist == old(db.wishlist) && db.nextOrderId == old(db.nextOrderId)
    ensures db.nextItemId == old(db.nextItemId) && db.nextCartId == old(db.nextCartId)
    ensures req.Preflight? ==> resp == Response(200, PlainOk) && db.orders == old(db.orders)
    ensures req.Post? && req.body.None? ==> resp == Response(400, ErrorJson(None)) && db.orders == old(db.orders)
    ensures req.Post? && req.body.Some? ==>
      var b := req.body.value;
      if !SignatureAccepted(mac, Secret(env), b) then
        resp == Response(400, ErrorJson(Some(InvalidSignature))) && db.orders == old(db.orders)
      else if dbFails then
        resp == Response(400, ErrorJson(None)) && db.orders == old(db.orders)
      else
        resp == Response(200, SuccessJson) && db.orders == MarkProcessing(old(db.orders), b.orderId, UpdateOf(b))
  {
    if req.Preflight? {
      return Response(200, PlainOk);
    }
    if req.body.None? {
      return Response(400, ErrorJson(None));
    }
    var b := req.body.value;
    var secret := Secret(env);
    var generated := SignatureFor(mac, secret, b);
    if b.signature != Some(generated) {
      // thrown before the client is created: no database call
      return Response(400, ErrorJson(Some(InvalidSignature)));
    }
    if dbFails {
      return Response(400, ErrorJson(None));
    }
    db.orders := MarkProcessing(db.orders, b.orderId, UpdateOf(b));
    resp := Response(200, SuccessJson);
  }

  /** A successful verification stores every id the request carried, on the order
      it names, and marks it `processing`. */
  lemma UpdateStoresRequestIds(orders: map<nat, Order>, b: VerifyBody, id: nat)
    requires b.orderId == Some(id) && id in orders
    ensures var o := MarkProcessing(orders, b.orderId, UpdateOf(b))[id];
      && o.status == "processing"
      && (b.paymentId.Some? ==> o.razorpayPaymentId == b.paymentId)
      && (b.signature.Some? ==> o.razorpaySignature == b.signature)
      && (b.gatewayOrderId.Some? ==> o.razorpayOrderId == b.gatewayOrderId)
      && (b.gatewayOrderId.None? ==> o.razorpayOrderId == orders[id].razorpayOrderId)
  {
  }

  /** Only lowercase hex of even length can pass the gate: the function compares
      against `hmac_sha256`'s hex output, so an uppercase signature is always refused. */
  lemma AcceptedSignatureIsLowerHex(mac: Hmac.Mac, env: Option<string>, b: VerifyBody)
    requires SignatureAccepted(mac, Secret(env), b)
    ensures |b.signature.value| % 2 == 0
    ensures forall i :: 0 <= i < |b.signature.value| ==> Hmac.IsLowerHexDigit(b.signature.value[i])
  {
    var secret := Secret(env);
    Hmac.HexEncodeLength(mac(secret, Hmac.SignedMessage(JsText(b.gatewayOrderId), JsText(b.paymentId))));
  }

  /** With no secret configured, the gate still runs, under the fixed placeholder
      key: anyone who knows it can produce accepted signatures. */
  lemma PlaceholderKeyWhenUnset(mac: Hmac.Mac, b: VerifyBody)
    ensures SignatureAccepted(mac, Secret(None), b)
        <==> b.signature == Some(Hmac.ExpectedSignature(mac, PlaceholderSecret, JsText(b.gatewayOrderId), JsText(b.paymentId)))
    ensures Secret(Some("")) == Secret(None)
  {
  }
}
