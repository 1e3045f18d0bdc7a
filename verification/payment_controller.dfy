/**
 * The payment endpoints (backend/controllers/paymentController.js): the
 * guards in front of a Stripe payment intent and the webhook's dispatch over
 * the event kinds it knows.
 *
 * Stripe is an oracle: creating an intent is a function from the request to
 * a client secret (None when Stripe fails), and signature verification is
 * done before the model starts, giving either the event or the error message.
 * A guard that sets `res.status(code)` and throws is answered by the error
 * middleware with that code and the thrown message.
 */
module PaymentController {
  import opened Wrappers
  import opened ProductModel
  import opened OrderModel
  import opened Store

  /** What is sent to `stripe.paymentIntents.create`. Amounts are in cents. */
  datatype IntentRequest = IntentRequest(
    amount: int, currency: string, orderId: OrderId, userId: UserId, description: string)

  /** The JSON answer: `amount` reads `order.totalAmount`, a field orders do not have. */
  datatype IntentResponse = IntentResponse(clientSecret: string, orderId: OrderId, amount: Option<int>)

  /** The template literal `${order.orderNumber}`. */
  function OrderNumberText(o: Order): string
  {
    if o.orderNumber.Some? then o.orderNumber.value else "undefined"
  }

  /** The intent for an order: its total in cents (Stripe's smallest unit), for the order and the paying user. */
  function IntentFor(o: Order, caller: UserId): (req: IntentRequest)
    ensures req.amount == o.totalPrice && req.currency == "usd"
    ensures req.orderId == o.id && req.userId == caller
  {
    IntentRequest(o.totalPrice, "usd", o.id, caller, "Payment for order " + OrderNumberText(o))
  }

  /**
   * `createPaymentIntent`: 404 for an unknown order, 403 unless the caller owns
   * it (admins included), 400 if it is already paid; only then is Stripe asked.
   */
  function CreatePaymentIntent(orders: map<OrderId, Order>, orderId: OrderId, caller: UserId,
                               stripe: IntentRequest -> Option<string>): (r: Reply<IntentResponse>)
  {
    if orderId !in orders then Failure(404, "Order not found")
    else
      var o := orders[orderId];
      if o.user != caller then Failure(403, "Not authorized to access this order")
      else if o.isPaid then Failure(400, "Order is already paid")
      else
        match stripe(IntentFor(o, caller))
        case None => Thrown("Stripe error")
        case Some(secret) => Success(200, IntentResponse(secret, o.id, None))
  }

  /**
   * The guards come in this order, each one answered without contacting
   * Stripe; past them, the answer carries Stripe's client secret for the
   * intent built from this order, and never an amount.
   */
  lemma CreatePaymentIntentContract(orders: map<OrderId, Order>, orderId: OrderId, caller: UserId,
                                    stripe: IntentRequest -> Option<string>)
    ensures var r := CreatePaymentIntent(orders, orderId, caller, stripe);
      && (orderId !in orders ==> r == Failure(404, "Order not found"))
      && (orderId in orders && orders[orderId].user != caller ==>
            r == Failure(403, "Not authorized to access this order"))
      && (orderId in orders && orders[orderId].user == caller && orders[orderId].isPaid ==>
            r == Failure(400, "Order is already paid"))
      && (r.Success? <==>
            && orderId in orders && orders[orderId].user == caller && !orders[orderId].isPaid
            && stripe(IntentFor(orders[orderId], caller)).Some?)
      && (r.Success? ==>
            r.body == IntentResponse(stripe(IntentFor(orders[orderId], caller)).value, orders[orderId].id, None))
  {
  }

  /** Only the owner may pay: an admin who does not own the order is refused. */
  lemma NoAdminBypassForPayment(orders: map<OrderId, Order>, orderId: OrderId, admin: User,
                                stripe: IntentRequest -> Option<string>)
    requires admin.role == AdminRole
    requires orderId in orders && orders[orderId].user != admin.id
    ensures CreatePaymentIntent(orders, orderId, admin.id, stripe) == Failure(403, "Not authorized to access this order")
  {
  }

  // ----- Webhook ------------------------------------------------------------------

  /** The payment intent carried by an event: its id, status, metadata.orderId and receipt e-mail. */
  datatype Intent = Intent(id: string, status: string, orderId: OrderId, receiptEmail: Option<string>)

  datatype Event =
    | PaymentIntentSucceeded(intent: Intent)
    | PaymentIntentFailed(intent: Intent)
    | ChargeSucceeded(chargeId: string)
    | ChargeFailed(chargeId: string)
    | Unhandled(eventType: string)

  /** The outcome of `stripe.webhooks.constructEvent` on the raw body and signature. */
  datatype Verification = Verified(event: Event) | Rejected(message: string)

  /** What `handlePaymentSuccess` writes on the order: paid now, by Stripe, and processing. */
  function PaidByStripe(o: Order, intent: Intent, now: Time, nowIso: string): (r: Order)
    ensures r.isPaid && r.paidAt == Some(now) && r.paymentMethod == StripeCard && r.status == Processing
    ensures r.paymentResult == Some(PaymentResult(intent.id, intent.status, nowIso, intent.receiptEmail))
  {
    o.(isPaid := true, paidAt := Some(now), paymentMethod := StripeCard,
       paymentResult := Some(PaymentResult(intent.id, intent.status, nowIso, intent.receiptEmail)),
       status := Processing)
  }

  /** The success handler agrees with the document's own `markAsPaid`, plus the method and the status. */
  lemma PaidByStripeIsMarkAsPaid(o: Order, intent: Intent, now: Time, nowIso: string)
    ensures PaidByStripe(o, intent, now, nowIso)
         == MarkAsPaid(o, Some(PaymentResult(intent.id, intent.status, nowIso, intent.receiptEmail)), now)
              .(paymentMethod := StripeCard, status := Processing)
    ensures OrderSchemaValid(o) ==> OrderSchemaValid(PaidByStripe(o, intent, now, nowIso))
  {
  }

  /** What `handlePaymentFailure` writes: a status outside the schema's enum, and the intent's result. */
  function MarkedFailed(o: Order, intent: Intent, nowIso: string): (r: Order)
    ensures r.status == Unlisted("payment_failed") && !OrderSchemaValid(r)
    ensures r.paymentResult == Some(PaymentResult(intent.id, intent.status, nowIso, None))
  {
    o.(status := Unlisted("payment_failed"), paymentResult := Some(PaymentResult(intent.id, intent.status, nowIso, None)))
  }

  /**
   * `handleWebhook`: an unverifiable request is answered 400 and touches
   * nothing. A verified event is dispatched on its kind and then answered
   * `{received: true}`: a succeeded intent marks its order paid, a failed
   * intent's save is rejected by the status enum (the error escapes to the
   * error middleware and nothing is stored), charges and unknown kinds only log.
   */
  method HandleWebhook(db: Database, v: Verification, now: Time, nowIso: string) returns (r: Reply<bool>)
    requires db.Valid()
    modifies db
    ensures db.Valid()
    ensures db.products == old(db.products)
    ensures v.Rejected? ==> r == Failure(400, "Webhook Error: " + v.message) && db.orders == old(db.orders)
    ensures v.Verified? && v.event.PaymentIntentSucceeded? ==>
      var id := v.event.intent.orderId;
      && r == Success(200, true)
      && (id in old(db.orders) ==>
            db.orders == old(db.orders)[id := PaidByStripe(old(db.orders)[id], v.event.intent, now, nowIso)])
      && (id !in old(db.orders) ==> db.orders == old(db.orders))
    ensures v.Verified? && v.event.PaymentIntentFailed? ==>
      && db.orders == old(db.orders)
      && (v.event.intent.orderId in old(db.orders) ==> r.Thrown?)
      && (v.event.intent.orderId !in old(db.orders) ==> r == Success(200, true))
    ensures v.Verified? && !v.event.PaymentIntentSucceeded? && !v.event.PaymentIntentFailed? ==>
      r == Success(200, true) && db.orders == old(db.orders)
  {
    if v.Rejected? {
      return Failure(400, "Webhook Error: " + v.message);
    }
    match v.event {
      case PaymentIntentSucceeded(intent) =>
        var id := intent.orderId;
        if id in db.orders {
          var order := PaidByStripe(db.orders[id], intent, now, nowIso);
          PaidByStripeIsMarkAsPaid(db.orders[id], intent, now, nowIso);
          if |order.items| > 0 {
            ComputeTotalsKeepsConsistent(order);
          }
          order := ComputeTotals(order);
          StoreOrder(db.orders, order);
          db.orders := db.orders[id := order];
        }
      case PaymentIntentFailed(intent) =>
        var id := intent.orderId;
        if id in db.orders {
          var order := MarkedFailed(db.orders[id], intent, nowIso);
          // The save validates before writing, and the status is not in the enum.
          assert !OrderSchemaValid(order);
          return Thrown("order validation failed");
        }
      case ChargeSucceeded(_) =>
      case ChargeFailed(_) =>
      case Unhandled(_) =>
    }
    r := Success(200, true);
  }
}
