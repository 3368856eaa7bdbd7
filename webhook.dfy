/** The payment webhook (`POST /stripe-webhook`): a transition on the order
    and tier tables driven by one verified provider event. A completed checkout
    upserts the order row keyed by the checkout session id and adds the
    quantity to the tier's sold count; a refunded charge sets the order's status
    and refunded amount and releases tickets back to the tier, never below
    zero; every other event is acknowledged without change.

    `Reconcile` states the transition on values; `Store.HandleWebhook` performs
    it step by step on the store's fields, as the route does. Amounts are in
    integer cents. */
module Webhook {
  import opened Common
  import opened Validation

  /** An order row. `orderNumber` is assigned by the database on insert. */
  datatype Order = Order(
    eventId: string,
    tierId: string,
    sessionId: string,
    paymentIntentId: Option<string>,
    customerEmail: Option<string>,
    customerName: Option<string>,
    quantity: int,
    amountPaid: nat,
    status: OrderStatus,
    refundedAmount: nat,
    orderNumber: nat)

  /** The checkout session of a `checkout.session.completed` event; the
      `metadata` fields the checkout routes attached are `eventId`, `tierId`
      and `quantity` (already parsed as a number). */
  datatype Session = Session(
    id: string,
    paymentIntent: Option<string>,
    eventId: Option<string>,
    tierId: Option<string>,
    quantity: Option<int>,
    detailsEmail: Option<string>,
    customerEmail: Option<string>,
    customerName: Option<string>,
    amountTotal: nat)

  /** The charge of a `charge.refunded` event; `amountRefunded` is cumulative. */
  datatype Charge = Charge(paymentIntent: string, amountRefunded: nat)

  datatype Event =
    | CheckoutCompleted(session: Session)
    | ChargeRefunded(charge: Charge)
    | Unhandled(kind: string)

  /** One inbound call: whether the route is configured, the signature header,
      whether the signature verifies against the payload, and the event. */
  datatype Delivery = Delivery(configured: bool, signature: Option<string>, signatureValid: bool, event: Event)

  datatype Reply = Reply(status: int, body: string)

  /** The two tables the route writes, and the next order number the database
      would assign. */
  datatype Ledger = Ledger(orders: map<string, Order>, tiers: map<string, Tier>, nextOrderNumber: nat)

  datatype Outcome = Outcome(ledger: Ledger, reply: Reply)

  /** Which database writes land. `orderOk`: the upsert of a completed
      checkout, or the status update of a refund. `tierOk`: the sold-count
      increment (the RPC or its fallback), or the refund's read and update of
      the tier row. The route does not look at these errors and replies as if
      every write landed. */
  datatype Writes = Writes(orderOk: bool, tierOk: bool)

  const AllWritesLand := Writes(true, true)

  const Acknowledged := Reply(200, "OK")

  /** `parseInt(metadata.quantity || '1')`. */
  function SessionQuantity(s: Session): int {
    if s.quantity.Some? then s.quantity.value else 1
  }

  /** `customer_details.email || customer_email`. */
  function SessionEmail(s: Session): Option<string> {
    if Present(s.detailsEmail) then s.detailsEmail else s.customerEmail
  }

  /** The row the upsert leaves for `s.id`: the upserted columns come from the
      session; on conflict the existing row keeps its order number and its
      refunded amount, which are not among them. */
  function UpsertedRow(orders: map<string, Order>, nextOrderNumber: nat, s: Session): Order
    requires Present(s.eventId) && Present(s.tierId)
  {
    var number := if s.id in orders then orders[s.id].orderNumber else nextOrderNumber;
    var refunded := if s.id in orders then orders[s.id].refundedAmount else 0;
    Order(s.eventId.value, s.tierId.value, s.id, s.paymentIntent, SessionEmail(s), s.customerName,
          SessionQuantity(s), s.amountTotal, Completed, refunded, number)
  }

  /** `sold_count + qty` on the tier, when the tier exists. */
  function AddSold(tiers: map<string, Tier>, tierId: string, qty: int): map<string, Tier> {
    if tierId in tiers then tiers[tierId := tiers[tierId].(soldCount := tiers[tierId].soldCount + qty)]
    else tiers
  }

  function Max(a: int, b: int): int {
    if a >= b then a else b
  }

  /** `max(0, sold_count - n)` on the tier, when `n > 0` and the tier exists. */
  function ReleaseSold(tiers: map<string, Tier>, tierId: string, n: int): map<string, Tier> {
    if n > 0 && tierId in tiers then
      tiers[tierId := tiers[tierId].(soldCount := Max(0, tiers[tierId].soldCount - n))]
    else tiers
  }

  /** The orders whose payment intent is `pi`. */
  function OrdersWithIntent(orders: map<string, Order>, pi: string): set<string> {
    set k | k in orders && orders[k].paymentIntentId == Some(pi)
  }

  lemma SingletonMember<T>(s: set<T>, a: T, b: T)
    requires |s| == 1 && a in s && b in s
    ensures a == b
  {
    if a != b {
      assert {a, b} <= s;
      assert |{a, b}| == 2;
      SubsetCard({a, b}, s);
    }
  }

  lemma SubsetCard<T>(a: set<T>, b: set<T>)
    requires a <= b
    ensures |a| <= |b|
  {
    assert b == a + (b - a);
  }

  /** `.eq('stripe_payment_intent_id', pi).single()`: the order when exactly one
      row matches; none when zero or several do. */
  ghost function FindByIntent(orders: map<string, Order>, pi: string): (r: Option<string>)
    ensures r.Some? ==> r.value in orders && orders[r.value].paymentIntentId == Some(pi)
    ensures r.Some? <==> |OrdersWithIntent(orders, pi)| == 1
  {
    var matching := OrdersWithIntent(orders, pi);
    if |matching| == 1 then
      var k :| k in matching; Some(k)
    else None
  }

  /** The `checkout.session.completed` branch. */
  ghost function CompleteCheckout(l: Ledger, s: Session, w: Writes): (o: Outcome)
    ensures o.reply.status in {200, 400}
    ensures o.reply.status == 400 ==> o.ledger == l
    ensures o.ledger.orders.Keys <= l.orders.Keys + {s.id} && o.ledger.tiers.Keys == l.tiers.Keys
  {
    if !Present(s.eventId) || !Present(s.tierId) then Outcome(l, Reply(400, "Missing metadata"))
    else
      var orders := if w.orderOk then l.orders[s.id := UpsertedRow(l.orders, l.nextOrderNumber, s)] else l.orders;
      var next := if w.orderOk && s.id !in l.orders then l.nextOrderNumber + 1 else l.nextOrderNumber;
      var tiers := if w.tierOk then AddSold(l.tiers, s.tierId.value, SessionQuantity(s)) else l.tiers;
      Outcome(Ledger(orders, tiers, next), Acknowledged)
  }

  /** The `charge.refunded` branch. */
  ghost function RefundCharge(l: Ledger, c: Charge, w: Writes): (o: Outcome)
    ensures o.reply.status in {200, 404}
    ensures o.reply.status == 404 ==> o.ledger == l
    ensures o.ledger.orders.Keys == l.orders.Keys && o.ledger.tiers.Keys == l.tiers.Keys
    ensures o.ledger.nextOrderNumber == l.nextOrderNumber
  {
    match FindByIntent(l.orders, c.paymentIntent)
    case None => Outcome(l, Reply(404, "Order not found"))
    case Some(k) =>
      var order := l.orders[k];
      var isFull := c.amountRefunded >= order.amountPaid;
      var tickets := CalculateTicketsToReturn(c.amountRefunded, order.amountPaid, order.quantity, isFull);
      var orders := if w.orderOk then
                      l.orders[k := order.(status := CalculateRefundStatus(c.amountRefunded, order.amountPaid),
                                           refundedAmount := c.amountRefunded)]
                    else l.orders;
      var tiers := if w.tierOk then ReleaseSold(l.tiers, order.tierId, tickets) else l.tiers;
      Outcome(Ledger(orders, tiers, l.nextOrderNumber), Acknowledged)
  }

  /** The whole route on one delivery; `w` says which of its writes land. */
  ghost function Reconcile(l: Ledger, d: Delivery, w: Writes): (o: Outcome)
    ensures o.reply.status in {200, 400, 404, 500}
    ensures o.reply.status != 200 ==> o.ledger == l
    ensures o.ledger.tiers.Keys == l.tiers.Keys
  {
    if !d.configured then Outcome(l, Reply(500, "Webhook not configured"))
    else if !Present(d.signature) then Outcome(l, Reply(400, "Missing signature"))
    else if !d.signatureValid then Outcome(l, Reply(400, "Invalid signature"))
    else match d.event
      case CheckoutCompleted(s) => CompleteCheckout(l, s, w)
      case ChargeRefunded(c) => RefundCharge(l, c, w)
      case Unhandled(_) => Outcome(l, Acknowledged)
  }

  /** A delivery that gets past configuration and signature checks. */
  predicate Authentic(d: Delivery) {
    d.configured && Present(d.signature) && d.signatureValid
  }

  // ---------------------------------------------------------------------------
  // The store the route writes.

  class Store {
    var orders: map<string, Order>
    var tiers: map<string, Tier>
    var nextOrderNumber: nat

    function Snapshot(): Ledger
      reads this
    {
      Ledger(orders, tiers, nextOrderNumber)
    }

    constructor (tiers: map<string, Tier>)
      ensures Snapshot() == Ledger(map[], tiers, 1)
    {
      this.orders := map[];
      this.tiers := tiers;
      this.nextOrderNumber := 1;
    }

    method HandleWebhook(d: Delivery, w: Writes) returns (reply: Reply)
      modifies this
      ensures Outcome(Snapshot(), reply) == Reconcile(old(Snapshot()), d, w)
    {
      if !d.configured {
        return Reply(500, "Webhook not configured");
      }
      if !Present(d.signature) {
        return Reply(400, "Missing signature");
      }
      if !d.signatureValid {
        return Reply(400, "Invalid signature");
      }
      match d.event
      case CheckoutCompleted(s) =>
        reply := HandleCompleted(s, w);
      case ChargeRefunded(c) =>
        reply := HandleRefund(c, w);
      case Unhandled(_) =>
        reply := Acknowledged;
    }

    method HandleCompleted(s: Session, w: Writes) returns (reply: Reply)
      modifies this
      ensures Outcome(Snapshot(), reply) == CompleteCheckout(old(Snapshot()), s, w)
    {
      if !Present(s.eventId) || !Present(s.tierId) {
        return Reply(400, "Missing metadata");
      }
      var tierId := s.tierId.value;
      var quantity := SessionQuantity(s);
      // Upsert the order on its session id.
      if w.orderOk {
        var row := UpsertedRow(orders, nextOrderNumber, s);
        if s.id !in orders {
          nextOrderNumber := nextOrderNumber + 1;
        }
        orders := orders[s.id := row];
      }
      // Increment sold_count (the increment RPC or its read-modify-write fallback).
      if w.tierOk && tierId in tiers {
        var tier := tiers[tierId];
        tiers := tiers[tierId := tier.(soldCount := tier.soldCount + quantity)];
      }
      // The confirmation email changes nothing and cannot change the reply.
      reply := Acknowledged;
    }

    method HandleRefund(c: Charge, w: Writes) returns (reply: Reply)
      modifies this
      ensures Outcome(Snapshot(), reply) == RefundCharge(old(Snapshot()), c, w)
    {
      var matching := set k | k in orders && orders[k].paymentIntentId == Some(c.paymentIntent);
      if |matching| != 1 {
        return Reply(404, "Order not found");
      }
      var key :| key in matching;
      SingletonMember(matching, key, FindByIntent(orders, c.paymentIntent).value);
      var order := orders[key];
      var isFull := c.amountRefunded >= order.amountPaid;
      var newStatus := if isFull then Refunded else PartiallyRefunded;
      var tickets := CalculateTicketsToReturn(c.amountRefunded, order.amountPaid, order.quantity, isFull);
      if w.orderOk {
        orders := orders[key := order.(status := newStatus, refundedAmount := c.amountRefunded)];
      }
      if tickets > 0 && w.tierOk && order.tierId in tiers {
        var tier := tiers[order.tierId];
        tiers := tiers[order.tierId := tier.(soldCount := Max(0, tier.soldCount - tickets))];
      }
      reply := Acknowledged;
    }
  }

  // ---------------------------------------------------------------------------
  // Properties of the transition.

  /** Without configuration the route answers 500; without a signature, or
      with one that does not verify, 400. Neither table changes. */
  lemma RejectedDeliveryChangesNothing(l: Ledger, d: Delivery, w: Writes)
    requires !Authentic(d)
    ensures Reconcile(l, d, w).ledger == l
    ensures Reconcile(l, d, w).reply.status == if d.configured then 400 else 500
  {
  }

  /** A completed checkout without event or tier metadata is refused with 400
      and writes nothing. */
  lemma MissingMetadataChangesNothing(l: Ledger, d: Delivery, w: Writes)
    requires Authentic(d) && d.event.CheckoutCompleted?
    requires !Present(d.event.session.eventId) || !Present(d.event.session.tierId)
    ensures Reconcile(l, d, w) == Outcome(l, Reply(400, "Missing metadata"))
  {
  }

  /** A completed checkout leaves exactly one order row for its session, with
      status "completed" and the session's data; every other row is as it was,
      and an existing row keeps its order number. */
  lemma CompletedUpsertsOneOrder(l: Ledger, d: Delivery, w: Writes)
    requires Authentic(d) && d.event.CheckoutCompleted?
    requires Present(d.event.session.eventId) && Present(d.event.session.tierId)
    requires w.orderOk
    ensures var s := d.event.session;
            var l' := Reconcile(l, d, w).ledger;
            && Reconcile(l, d, w).reply == Acknowledged
            && l'.orders.Keys == l.orders.Keys + {s.id}
            && l'.orders[s.id].status == Completed
            && l'.orders[s.id].sessionId == s.id
            && l'.orders[s.id].tierId == s.tierId.value
            && l'.orders[s.id].quantity == SessionQuantity(s)
            && l'.orders[s.id].amountPaid == s.amountTotal
            && (forall k :: k in l.orders && k != s.id ==> l'.orders[k] == l.orders[k])
            && (s.id in l.orders ==> l'.orders[s.id].orderNumber == l.orders[s.id].orderNumber
                                     && l'.nextOrderNumber == l.nextOrderNumber)
            && (s.id !in l.orders ==> l'.orders[s.id].orderNumber == l.nextOrderNumber
                                      && l'.nextOrderNumber == l.nextOrderNumber + 1)
  {
  }

  /** Every completed delivery whose sold-count write lands adds its quantity
      to its tier's sold count, whether or not the order write succeeded; no
      other tier changes, and the tier's stock cap is not consulted. */
  lemma CompletedAddsQuantity(l: Ledger, d: Delivery, w: Writes)
    requires Authentic(d) && d.event.CheckoutCompleted?
    requires Present(d.event.session.eventId) && Present(d.event.session.tierId)
    requires w.tierOk
    ensures var s := d.event.session;
            var t := s.tierId.value;
            var l' := Reconcile(l, d, w).ledger;
            && l'.tiers.Keys == l.tiers.Keys
            && (t in l.tiers ==> l'.tiers[t] == l.tiers[t].(soldCount := l.tiers[t].soldCount + SessionQuantity(s)))
            && (forall k :: k in l.tiers && k != t ==> l'.tiers[k] == l.tiers[k])
  {
  }

  /** Delivering the same completed event twice leaves the same order table as
      delivering it once, but counts the tickets twice: the stock increment is
      not idempotent. */
  lemma DuplicateCompletedDelivery(l: Ledger, d: Delivery)
    requires Authentic(d) && d.event.CheckoutCompleted?
    requires Present(d.event.session.eventId) && Present(d.event.session.tierId)
    requires d.event.session.tierId.value in l.tiers
    ensures var once := Reconcile(l, d, AllWritesLand).ledger;
            var twice := Reconcile(once, d, AllWritesLand).ledger;
            var s := d.event.session;
            var t := s.tierId.value;
            && twice.orders == once.orders
            && twice.nextOrderNumber == once.nextOrderNumber
            && twice.tiers[t].soldCount == l.tiers[t].soldCount + 2 * SessionQuantity(s)
  {
    var s := d.event.session;
    var once := Reconcile(l, d, AllWritesLand).ledger;
    assert s.id in once.orders;
    assert UpsertedRow(once.orders, once.nextOrderNumber, s) == once.orders[s.id];
  }

  /** A refund whose payment intent matches no order (or several) is answered
      404 and changes nothing. */
  lemma RefundOfUnknownOrder(l: Ledger, d: Delivery, w: Writes)
    requires Authentic(d) && d.event.ChargeRefunded?
    requires |OrdersWithIntent(l.orders, d.event.charge.paymentIntent)| != 1
    ensures Reconcile(l, d, w) == Outcome(l, Reply(404, "Order not found"))
  {
  }

  /** A refund of a known order sets its status to "refunded" exactly when the
      cumulative refunded amount reaches the amount paid, and stores that
      amount (it does not add to the previous one); nothing else in the order
      table changes. */
  lemma RefundUpdatesOrder(l: Ledger, d: Delivery, w: Writes, k: string)
    requires Authentic(d) && d.event.ChargeRefunded? && w.orderOk
    requires k in OrdersWithIntent(l.orders, d.event.charge.paymentIntent)
    requires |OrdersWithIntent(l.orders, d.event.charge.paymentIntent)| == 1
    ensures var c := d.event.charge;
            var l' := Reconcile(l, d, w).ledger;
            && Reconcile(l, d, w).reply == Acknowledged
            && l'.orders.Keys == l.orders.Keys
            && (l'.orders[k].status == Refunded <==> c.amountRefunded >= l.orders[k].amountPaid)
            && (l'.orders[k].status == PartiallyRefunded <==> c.amountRefunded < l.orders[k].amountPaid)
            && l'.orders[k].refundedAmount == c.amountRefunded
            && l'.orders[k] == l.orders[k].(status := l'.orders[k].status, refundedAmount := c.amountRefunded)
            && (forall j :: j in l.orders && j != k ==> l'.orders[j] == l.orders[j])
  {
    SingletonMember(OrdersWithIntent(l.orders, d.event.charge.paymentIntent), k,
                    FindByIntent(l.orders, d.event.charge.paymentIntent).value);
  }

  /** A refund of a known order releases `CalculateTicketsToReturn` tickets to
      the order's tier, clamping its sold count at zero; when that number is
      zero the tier is left as it was. A full refund releases the whole order,
      a partial one at most the order's quantity. */
  lemma RefundReleasesTickets(l: Ledger, d: Delivery, w: Writes, k: string)
    requires Authentic(d) && d.event.ChargeRefunded? && w.tierOk
    requires k in OrdersWithIntent(l.orders, d.event.charge.paymentIntent)
    requires |OrdersWithIntent(l.orders, d.event.charge.paymentIntent)| == 1
    requires l.orders[k].tierId in l.tiers
    ensures var c := d.event.charge;
            var order := l.orders[k];
            var full := c.amountRefunded >= order.amountPaid;
            var n := CalculateTicketsToReturn(c.amountRefunded, order.amountPaid, order.quantity, full);
            var l' := Reconcile(l, d, w).ledger;
            var t := order.tierId;
            && l'.tiers.Keys == l.tiers.Keys
            && l'.tiers[t].soldCount == (if n > 0 then Max(0, l.tiers[t].soldCount - n) else l.tiers[t].soldCount)
            && (full ==> n == order.quantity)
            && (!full && order.quantity >= 0 ==> 0 <= n <= order.quantity)
            && (forall j :: j in l.tiers && j != t ==> l'.tiers[j] == l.tiers[j])
  {
    var c := d.event.charge;
    var order := l.orders[k];
    SingletonMember(OrdersWithIntent(l.orders, c.paymentIntent), k, FindByIntent(l.orders, c.paymentIntent).value);
    if c.amountRefunded < order.amountPaid && order.quantity >= 0 {
      PartialRefundBounds(c.amountRefunded, order.amountPaid, order.quantity);
    }
  }

  /** A write that fails leaves its table as it was, and the reply is the one
      the route gives when every write lands: the route never reports a failed
      write. */
  lemma FailedWritesStillAcknowledged(l: Ledger, d: Delivery, w: Writes)
    ensures var l' := Reconcile(l, d, w).ledger;
            && Reconcile(l, d, w).reply == Reconcile(l, d, AllWritesLand).reply
            && (!w.orderOk ==> l'.orders == l.orders && l'.nextOrderNumber == l.nextOrderNumber)
            && (!w.tierOk ==> l'.tiers == l.tiers)
  {
  }

  /** Any other event type is acknowledged with 200 and changes nothing. */
  lemma UnhandledEventIsNoop(l: Ledger, d: Delivery, w: Writes)
    requires Authentic(d) && d.event.Unhandled?
    ensures Reconcile(l, d, w) == Outcome(l, Acknowledged)
  {
  }

  /** No sold count is negative. */
  ghost predicate SoldCountsNonNegative(l: Ledger) {
    forall t :: t in l.tiers ==> l.tiers[t].soldCount >= 0
  }

  /** The route keeps every sold count non-negative, provided the checkout
      metadata does not carry a negative quantity (the route does not check). */
  lemma ReconcileKeepsSoldCountsNonNegative(l: Ledger, d: Delivery, w: Writes)
    requires SoldCountsNonNegative(l)
    requires d.event.CheckoutCompleted? ==> SessionQuantity(d.event.session) >= 0
    ensures SoldCountsNonNegative(Reconcile(l, d, w).ledger)
  {
  }

  /** Refunds are not netted against what earlier refunds of the same order
      released: a partial refund followed by one that completes it releases the
      partial share and then the whole quantity again. */
  lemma RefundsReleaseCumulatively(l: Ledger, d1: Delivery, d2: Delivery, k: string)
    requires Authentic(d1) && d1.event.ChargeRefunded?
    requires Authentic(d2) && d2.event.ChargeRefunded?
    requires d1.event.charge.paymentIntent == d2.event.charge.paymentIntent
    requires OrdersWithIntent(l.orders, d1.event.charge.paymentIntent) == {k}
    requires l.orders[k].tierId in l.tiers
    requires d1.event.charge.amountRefunded < l.orders[k].amountPaid <= d2.event.charge.amountRefunded
    requires l.orders[k].quantity > 0
    ensures var order := l.orders[k];
            var first := CalculateTicketsToReturn(d1.event.charge.amountRefunded, order.amountPaid, order.quantity, false);
            var after := Reconcile(Reconcile(l, d1, AllWritesLand).ledger, d2, AllWritesLand).ledger;
            var t := order.tierId;
            l.tiers[t].soldCount >= first + order.quantity ==>
              after.tiers[t].soldCount == l.tiers[t].soldCount - first - order.quantity
  {
    var pi := d1.event.charge.paymentIntent;
    var order := l.orders[k];
    SingletonMember(OrdersWithIntent(l.orders, pi), k, FindByIntent(l.orders, pi).value);
    var mid := Reconcile(l, d1, AllWritesLand).ledger;
    assert OrdersWithIntent(mid.orders, pi) == {k} by {
      assert forall j :: j in mid.orders ==> j in l.orders && mid.orders[j].paymentIntentId == l.orders[j].paymentIntentId;
    }
    SingletonMember(OrdersWithIntent(mid.orders, pi), k, FindByIntent(mid.orders, pi).value);
    PartialRefundBounds(d1.event.charge.amountRefunded, order.amountPaid, order.quantity);
  }
}
