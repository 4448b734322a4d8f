/** The order routes: the client turns a final offer it was sent into an
    order, which then moves through payment, delivery, finalisation and
    archiving; an early order may be deleted by an administrator. */
module Orders {
  import opened Wrappers
  import opened Domain
  import opened Store

  /** The checks of POST /api/orders, in the handler's order. */
  function CreateCheck(d: Db, actor: Actor, offerId: Id): (r: Outcome)
    ensures r == Ok <==>
      && actor.role == Client
      && offerId in d.offers
      && d.offers[offerId].rfqId in d.rfqs
      && d.rfqs[d.offers[offerId].rfqId].clientId == actor.userId
      && d.offers[offerId].status == FinalConfirmed
      && d.rfqs[d.offers[offerId].rfqId].status == SentToClient
      && !HasOrder(d.orders, offerId)
  {
    if actor.role != Client then Forbidden
    else if offerId !in d.offers then NotFound
    else if d.offers[offerId].rfqId !in d.rfqs then Internal
    else if d.rfqs[d.offers[offerId].rfqId].clientId != actor.userId then Forbidden
    else if d.offers[offerId].status != FinalConfirmed then BadRequest(InvalidState)
    else if d.rfqs[d.offers[offerId].rfqId].status != SentToClient then BadRequest(InvalidState)
    else if HasOrder(d.orders, offerId) then BadRequest(Duplicate)
    else Ok
  }

  /** POST /api/orders: a locked order at the offer's price and terms; the RFQ
      closes and the offer is accepted. */
  method Create(s: Store, actor: Actor, offerId: Id, now: int) returns (r: Outcome, id: Id)
    requires s.Valid()
    modifies s
    ensures s.Valid()
    ensures LocksKept(old(s.offers), s.offers)
    ensures r == CreateCheck(old(s.Snap()), actor, offerId)
    ensures r != Ok ==> unchanged(s)
    ensures r == Ok ==>
      var d := old(s.Snap());
      var offer := d.offers[offerId];
      && id == d.nextId
      && s.Snap() == d.(
           orders := d.orders[id := Order(offer.rfqId, offerId, actor.userId, offer.supplierId, offer.price, offer.terms,
                                          Created, true, PayPending, ShipPending, now, None, None)],
           rfqs := d.rfqs[offer.rfqId := d.rfqs[offer.rfqId].(status := Closed)],
           offers := d.offers[offerId := offer.(status := Accepted)],
           nextId := id + 1)
  {
    id := 0;
    r := CreateCheck(s.Snap(), actor, offerId);
    if r != Ok {
      return;
    }
    var offer := s.offers[offerId];
    id := s.NewId();
    s.orders := s.orders[id := Order(offer.rfqId, offerId, actor.userId, offer.supplierId, offer.price, offer.terms,
                                     Created, true, PayPending, ShipPending, now, None, None)];
    s.rfqs := s.rfqs[offer.rfqId := s.rfqs[offer.rfqId].(status := Closed)];
    s.offers := s.offers[offerId := offer.(status := Accepted)];
  }

  /** The where-clause of GET /api/orders. */
  predicate OrderListed(actor: Actor, o: Order) {
    match actor.role
    case Client => o.clientId == actor.userId
    case Supplier => o.supplierId == actor.userId
    case Admin => true
  }

  /** GET /api/orders, as the set of orders returned. */
  function ListOrders(d: Db, actor: Actor): (r: set<Id>)
    ensures r <= d.orders.Keys
    ensures actor.role == Admin ==> r == d.orders.Keys
    ensures actor.role == Client ==> forall k :: k in d.orders ==> (k in r <==> d.orders[k].clientId == actor.userId)
    ensures actor.role == Supplier ==> forall k :: k in d.orders ==> (k in r <==> d.orders[k].supplierId == actor.userId)
  {
    set k | k in d.orders && OrderListed(actor, d.orders[k])
  }

  /** GET /api/orders/:id: an administrator or either party of the order. */
  function ViewCheck(d: Db, actor: Actor, id: Id): (r: Outcome)
    ensures r == Ok <==>
      id in d.orders
      && (actor.role == Admin || actor.userId == d.orders[id].clientId || actor.userId == d.orders[id].supplierId)
    ensures r != Ok ==> r == NotFound || r == Forbidden
  {
    if id !in d.orders then NotFound
    else if actor.role != Admin && actor.userId != d.orders[id].clientId && actor.userId != d.orders[id].supplierId then Forbidden
    else Ok
  }

  /** The payment states the payment route accepts. */
  function ParsePayment(text: string): (r: Option<PaymentStatus>)
    ensures r.Some? ==> r.value != PayPending
  {
    if text == "initiated" then Some(PayInitiated)
    else if text == "confirmed" then Some(PayConfirmed)
    else None
  }

  function PaymentName(p: PaymentStatus): string {
    match p
    case PayPending => "pending"
    case PayInitiated => "initiated"
    case PayConfirmed => "confirmed"
  }

  /** The route accepts exactly the names of the two states after pending. */
  lemma ParsePaymentName(p: PaymentStatus)
    ensures ParsePayment(PaymentName(p)) == if p == PayPending then None else Some(p)
  {
  }

  /** The checks of PATCH /api/orders/:id/payment, in the handler's order. */
  function PaymentCheck(d: Db, actor: Actor, id: Id, text: string): (r: Outcome)
    ensures r == Ok <==> actor.role == Admin && ParsePayment(text).Some? && id in d.orders
  {
    if actor.role != Admin then Forbidden
    else if ParsePayment(text).None? then BadRequest(InvalidInput)
    else if id !in d.orders then NotFound
    else Ok
  }

  /** PATCH /api/orders/:id/payment: records the payment state and moves the
      order to the matching status, whatever its status was; confirming locks it. */
  method UpdatePayment(s: Store, actor: Actor, id: Id, text: string) returns (r: Outcome)
    requires s.Valid()
    modifies s
    ensures s.Valid()
    ensures LocksKept(old(s.offers), s.offers)
    ensures r == PaymentCheck(old(s.Snap()), actor, id, text)
    ensures r != Ok ==> unchanged(s)
    ensures r == Ok ==>
      var d := old(s.Snap());
      var o := d.orders[id];
      var p := ParsePayment(text).value;
      s.Snap() == d.(orders := d.orders[id := o.(
        payment := p,
        status := if p == PayInitiated then PaymentInitiated else PaymentConfirmed,
        isLocked := if p == PayConfirmed then true else o.isLocked)])
  {
    r := PaymentCheck(s.Snap(), actor, id, text);
    if r != Ok {
      return;
    }
    var o := s.orders[id];
    var p := ParsePayment(text).value;
    var status := if p == PayInitiated then PaymentInitiated else if p == PayConfirmed then PaymentConfirmed else o.status;
    s.orders := s.orders[id := o.(payment := p, status := status, isLocked := if p == PayConfirmed then true else o.isLocked)];
  }

  /** The delivery states the delivery route accepts. */
  function ParseDelivery(text: string): (r: Option<DeliveryStatus>)
    ensures r.Some? ==> r.value != ShipPending
  {
    if text == "in_progress" then Some(ShipInProgress)
    else if text == "delivered" then Some(ShipDelivered)
    else if text == "received" then Some(ShipReceived)
    else None
  }

  function DeliveryName(s: DeliveryStatus): string {
    match s
    case ShipPending => "pending"
    case ShipInProgress => "in_progress"
    case ShipDelivered => "delivered"
    case ShipReceived => "received"
  }

  lemma ParseDeliveryName(s: DeliveryStatus)
    ensures ParseDelivery(DeliveryName(s)) == if s == ShipPending then None else Some(s)
  {
  }

  /** The order status a delivery state moves the order to. */
  function DeliveryOrderStatus(s: DeliveryStatus, current: OrderStatus): OrderStatus {
    match s
    case ShipInProgress => DeliveryInProgress
    case ShipDelivered => Delivered
    case ShipReceived => Received
    case ShipPending => current
  }

  /** Who may set a delivery state: receipt is confirmed by an administrator or
      the order's client, the other states by an administrator or its supplier. */
  predicate MaySetDelivery(actor: Actor, o: Order, s: DeliveryStatus) {
    actor.role == Admin
    || (s == ShipReceived && actor.userId == o.clientId)
    || (s != ShipReceived && actor.userId == o.supplierId)
  }

  /** The checks of PATCH /api/orders/:id/delivery, in the handler's order. */
  function DeliveryCheck(d: Db, actor: Actor, id: Id, text: string): (r: Outcome)
    ensures r == Ok <==>
      ParseDelivery(text).Some? && id in d.orders && MaySetDelivery(actor, d.orders[id], ParseDelivery(text).value)
    ensures r == Forbidden ==> actor.role != Admin
  {
    if ParseDelivery(text).None? then BadRequest(InvalidInput)
    else if id !in d.orders then NotFound
    else
      var o := d.orders[id];
      var ds := ParseDelivery(text).value;
      var isAdmin := actor.role == Admin;
      if ds == ShipReceived && !isAdmin && actor.userId != o.clientId then Forbidden
      else if (ds == ShipInProgress || ds == ShipDelivered) && !isAdmin && actor.userId != o.supplierId then Forbidden
      else Ok
  }

  /** PATCH /api/orders/:id/delivery: records the delivery state and moves the
      order to the matching status, whatever its status was. */
  method UpdateDelivery(s: Store, actor: Actor, id: Id, text: string) returns (r: Outcome)
    requires s.Valid()
    modifies s
    ensures s.Valid()
    ensures LocksKept(old(s.offers), s.offers)
    ensures r == DeliveryCheck(old(s.Snap()), actor, id, text)
    ensures r != Ok ==> unchanged(s)
    ensures r == Ok ==>
      var d := old(s.Snap());
      var o := d.orders[id];
      var ds := ParseDelivery(text).value;
      s.Snap() == d.(orders := d.orders[id := o.(delivery := ds, status := DeliveryOrderStatus(ds, o.status))])
  {
    r := DeliveryCheck(s.Snap(), actor, id, text);
    if r != Ok {
      return;
    }
    var o := s.orders[id];
    var ds := ParseDelivery(text).value;
    s.orders := s.orders[id := o.(delivery := ds, status := DeliveryOrderStatus(ds, o.status))];
  }

  /** The checks of the finalize and archive routes: an administrator, an
      existing order, and the one status the step starts from. */
  function StepCheck(d: Db, actor: Actor, id: Id, from: OrderStatus): (r: Outcome)
    ensures r == Ok <==> actor.role == Admin && id in d.orders && d.orders[id].status == from
  {
    if actor.role != Admin then Forbidden
    else if id !in d.orders then NotFound
    else if d.orders[id].status != from then BadRequest(InvalidState)
    else Ok
  }

  /** PATCH /api/orders/:id/finalize: a received order becomes finalized and locked. */
  method Finalize(s: Store, actor: Actor, id: Id, now: int) returns (r: Outcome)
    requires s.Valid()
    modifies s
    ensures s.Valid()
    ensures LocksKept(old(s.offers), s.offers)
    ensures r == StepCheck(old(s.Snap()), actor, id, Received)
    ensures r != Ok ==> unchanged(s)
    ensures r == Ok ==>
      var d := old(s.Snap());
      s.Snap() == d.(orders := d.orders[id := d.orders[id].(status := Finalized, finalizedAt := Some(now), isLocked := true)])
  {
    r := StepCheck(s.Snap(), actor, id, Received);
    if r != Ok {
      return;
    }
    s.orders := s.orders[id := s.orders[id].(status := Finalized, finalizedAt := Some(now), isLocked := true)];
  }

  /** PATCH /api/orders/:id/archive: a finalized order becomes archived and locked. */
  method Archive(s: Store, actor: Actor, id: Id, now: int) returns (r: Outcome)
    requires s.Valid()
    modifies s
    ensures s.Valid()
    ensures LocksKept(old(s.offers), s.offers)
    ensures r == StepCheck(old(s.Snap()), actor, id, Finalized)
    ensures r != Ok ==> unchanged(s)
    ensures r == Ok ==>
      var d := old(s.Snap());
      s.Snap() == d.(orders := d.orders[id := d.orders[id].(status := Archived, archivedAt := Some(now), isLocked := true)])
  {
    r := StepCheck(s.Snap(), actor, id, Finalized);
    if r != Ok {
      return;
    }
    s.orders := s.orders[id := s.orders[id].(status := Archived, archivedAt := Some(now), isLocked := true)];
  }

  /** Orders that may still be deleted: before payment confirmation. */
  predicate Deletable(o: Order) {
    o.status == Created || o.status == PaymentInitiated
  }

  /** The checks of DELETE /api/orders/:id, in the handler's order. */
  function DeleteCheck(d: Db, actor: Actor, id: Id): (r: Outcome)
    ensures r == Ok <==>
      actor.role == Admin && id in d.orders && Deletable(d.orders[id])
      && d.orders[id].rfqId in d.rfqs && d.orders[id].offerId in d.offers
    ensures actor.role == Admin && id in d.orders && !Deletable(d.orders[id]) ==> r == BadRequest(InvalidState)
  {
    if actor.role != Admin then Forbidden
    else if id !in d.orders then NotFound
    else if !Deletable(d.orders[id]) then BadRequest(InvalidState)
    else if d.orders[id].rfqId !in d.rfqs || d.orders[id].offerId !in d.offers then Internal
    else Ok
  }

  /** DELETE /api/orders/:id: a closed RFQ goes back to `sent_to_client`, the
      offer is unlocked (its status stays `accepted`), and the order is removed.
      This is the only route that clears an offer's lock. */
  method Delete(s: Store, actor: Actor, id: Id) returns (r: Outcome)
    requires s.Valid()
    modifies s
    ensures s.Valid()
    ensures r == DeleteCheck(old(s.Snap()), actor, id)
    ensures r != Ok ==> unchanged(s)
    ensures r == Ok ==>
      var d := old(s.Snap());
      var o := d.orders[id];
      var rfq := d.rfqs[o.rfqId];
      s.Snap() == d.(
        rfqs := if rfq.status == Closed then d.rfqs[o.rfqId := rfq.(status := SentToClient)] else d.rfqs,
        offers := d.offers[o.offerId := d.offers[o.offerId].(isLocked := false)],
        orders := d.orders - {id})
  {
    r := DeleteCheck(s.Snap(), actor, id);
    if r != Ok {
      return;
    }
    var o := s.orders[id];
    var rfq := s.rfqs[o.rfqId];
    if rfq.status == Closed {
      s.rfqs := s.rfqs[o.rfqId := rfq.(status := SentToClient)];
    }
    s.offers := s.offers[o.offerId := s.offers[o.offerId].(isLocked := false)];
    s.orders := s.orders - {id};
  }
}
