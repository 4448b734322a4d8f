/** The offer routes: suppliers offer on open RFQs, offers are listed by role,
    and may be withdrawn (deleted) or rejected by the client once final. */
module Offers {
  import opened Wrappers
  import opened Domain
  import opened Store

  /** Request body of POST /api/offers. */
  predicate OfferValid(price: real, deliveryTime: string, description: string, terms: string) {
    price > 0.0 && |deliveryTime| >= 3 && |description| >= 10 && |terms| >= 10
  }

  /** An RFQ takes offers while published or already holding offers. */
  predicate OpenForOffers(r: Rfq) {
    r.status == Published || r.status == OffersReceived
  }

  /** The checks of POST /api/offers, in the handler's order. */
  function SubmitCheck(d: Db, actor: Actor, rfqId: Id, price: real, deliveryTime: string,
                       description: string, terms: string): (r: Outcome)
    ensures r == Ok <==>
      && actor.role == Supplier
      && OfferValid(price, deliveryTime, description, terms)
      && rfqId in d.rfqs
      && OpenForOffers(d.rfqs[rfqId])
      && !HasOfferFrom(d.offers, rfqId, actor.userId)
    ensures r == Ok ==> actor.role == Supplier
  {
    if actor.role != Supplier then Forbidden
    else if !OfferValid(price, deliveryTime, description, terms) then BadRequest(InvalidInput)
    else if rfqId !in d.rfqs then NotFound
    else if !OpenForOffers(d.rfqs[rfqId]) then BadRequest(InvalidState)
    else if HasOfferFrom(d.offers, rfqId, actor.userId) then BadRequest(Duplicate)
    else Ok
  }

  /** POST /api/offers: the offer is stored as submitted and unlocked; the
      RFQ's first offer moves it from `published` to `offers_received`. */
  method Submit(s: Store, actor: Actor, rfqId: Id, price: real, deliveryTime: string,
                description: string, terms: string, now: int) returns (r: Outcome, oid: Id)
    requires s.Valid()
    modifies s
    ensures s.Valid()
    ensures LocksKept(old(s.offers), s.offers)
    ensures r == SubmitCheck(old(s.Snap()), actor, rfqId, price, deliveryTime, description, terms)
    ensures r != Ok ==> unchanged(s)
    ensures r == Ok ==>
      var d := old(s.Snap());
      var rfq := d.rfqs[rfqId];
      && oid == d.nextId
      && s.Snap() == d.(
           offers := d.offers[oid := Offer(rfqId, actor.userId, price, deliveryTime, description, terms, Submitted, false, now)],
           rfqs := if rfq.status == Published then d.rfqs[rfqId := rfq.(status := OffersReceived)] else d.rfqs,
           nextId := oid + 1)
  {
    oid := 0;
    r := SubmitCheck(s.Snap(), actor, rfqId, price, deliveryTime, description, terms);
    if r != Ok {
      return;
    }
    var rfq := s.rfqs[rfqId];
    oid := s.NewId();
    s.offers := s.offers[oid := Offer(rfqId, actor.userId, price, deliveryTime, description, terms, Submitted, false, now)];
    if rfq.status == Published {
      s.rfqs := s.rfqs[rfqId := rfq.(status := OffersReceived)];
    }
  }

  /** The where-clause of GET /api/offers: a supplier sees its own offers, a
      client the offers on its RFQs, an administrator every offer. */
  predicate OfferListed(d: Db, actor: Actor, oid: Id)
    requires oid in d.offers
  {
    match actor.role
    case Supplier => d.offers[oid].supplierId == actor.userId
    case Client => d.offers[oid].rfqId in d.rfqs && d.rfqs[d.offers[oid].rfqId].clientId == actor.userId
    case Admin => true
  }

  /** GET /api/offers, as the set of offers returned. */
  function ListOffers(d: Db, actor: Actor): (r: set<Id>)
    ensures r <= d.offers.Keys
    ensures actor.role == Admin ==> r == d.offers.Keys
    ensures actor.role == Supplier ==> forall k :: k in r <==> k in d.offers && d.offers[k].supplierId == actor.userId
    ensures actor.role == Client ==> forall k :: k in d.offers ==>
      (k in r <==> d.offers[k].rfqId in d.rfqs && d.rfqs[d.offers[k].rfqId].clientId == actor.userId)
  {
    set k | k in d.offers && OfferListed(d, actor, k)
  }

  /** GET /api/offers/rfq/:rfqId: a client must own the RFQ; a supplier sees
      only its own offer on it; the owner and administrators see all of them. */
  function OffersForRfq(d: Db, actor: Actor, rfqId: Id): (res: (Outcome, set<Id>))
    ensures res.0 == Ok <==> rfqId in d.rfqs && (actor.role == Client ==> d.rfqs[rfqId].clientId == actor.userId)
    ensures res.0 != Ok ==> res.1 == {}
    ensures forall k :: k in res.1 ==> k in d.offers && d.offers[k].rfqId == rfqId
    ensures actor.role == Supplier ==> forall k :: k in res.1 ==> d.offers[k].supplierId == actor.userId
    ensures res.0 == Ok && actor.role != Supplier ==> forall k :: k in d.offers && d.offers[k].rfqId == rfqId ==> k in res.1
    ensures res.0 == Ok && actor.role == Supplier ==>
      forall k :: k in d.offers && d.offers[k].rfqId == rfqId && d.offers[k].supplierId == actor.userId ==> k in res.1
  {
    if rfqId !in d.rfqs then (NotFound, {})
    else if actor.role == Client && d.rfqs[rfqId].clientId != actor.userId then (Forbidden, {})
    else if actor.role == Supplier then
      (Ok, set k | k in d.offers && d.offers[k].rfqId == rfqId && d.offers[k].supplierId == actor.userId)
    else (Ok, set k | k in d.offers && d.offers[k].rfqId == rfqId)
  }

  /** Offers that must not be deleted whatever their lock. */
  predicate Committed(o: Offer) {
    o.status == InNegotiation || o.status == FinalConfirmed || o.status == Accepted
  }

  /** The checks of DELETE /api/offers/:id, in the handler's order. */
  function DeleteCheck(d: Db, actor: Actor, oid: Id): (r: Outcome)
    ensures r == Ok <==>
      && oid in d.offers
      && actor.role != Client
      && (actor.role == Supplier ==> d.offers[oid].supplierId == actor.userId)
      && !d.offers[oid].isLocked
      && !Committed(d.offers[oid])
  {
    if oid !in d.offers then NotFound
    else if actor.role == Supplier && d.offers[oid].supplierId != actor.userId then Forbidden
    else if actor.role == Client then Forbidden
    else if d.offers[oid].isLocked then BadRequest(Locked)
    else if Committed(d.offers[oid]) then BadRequest(InvalidState)
    else Ok
  }

  /** DELETE /api/offers/:id removes the offer row and nothing else. */
  method Delete(s: Store, actor: Actor, oid: Id) returns (r: Outcome)
    requires s.Valid()
    modifies s
    ensures s.Valid()
    ensures LocksKept(old(s.offers), s.offers)
    ensures r == DeleteCheck(old(s.Snap()), actor, oid)
    ensures r != Ok ==> unchanged(s)
    ensures r == Ok ==> s.Snap() == old(s.Snap()).(offers := old(s.offers) - {oid})
  {
    r := DeleteCheck(s.Snap(), actor, oid);
    if r != Ok {
      return;
    }
    s.offers := s.offers - {oid};
  }

  /** The checks of PATCH /api/offers/:id/reject, in the handler's order. */
  function ClientRejectCheck(d: Db, actor: Actor, oid: Id): (r: Outcome)
    ensures r == Ok <==>
      && oid in d.offers
      && actor.role == Client
      && d.offers[oid].rfqId in d.rfqs
      && d.rfqs[d.offers[oid].rfqId].clientId == actor.userId
      && d.offers[oid].status == FinalConfirmed
      && d.rfqs[d.offers[oid].rfqId].status == SentToClient
  {
    if oid !in d.offers then NotFound
    else if actor.role != Client then Forbidden
    else if d.offers[oid].rfqId !in d.rfqs then Internal
    else if d.rfqs[d.offers[oid].rfqId].clientId != actor.userId then Forbidden
    else if d.offers[oid].status != FinalConfirmed then BadRequest(InvalidState)
    else if d.rfqs[d.offers[oid].rfqId].status != SentToClient then BadRequest(InvalidState)
    else Ok
  }

  /** PATCH /api/offers/:id/reject: the client turns down the final offer; the
      offer is rejected and the RFQ goes back to `negotiation`. The reason in
      the request is not stored. */
  method ClientReject(s: Store, actor: Actor, oid: Id) returns (r: Outcome)
    requires s.Valid()
    modifies s
    ensures s.Valid()
    ensures LocksKept(old(s.offers), s.offers)
    ensures r == ClientRejectCheck(old(s.Snap()), actor, oid)
    ensures r != Ok ==> unchanged(s)
    ensures r == Ok ==>
      var d := old(s.Snap());
      var offer := d.offers[oid];
      s.Snap() == d.(
        offers := d.offers[oid := offer.(status := Rejected)],
        rfqs := d.rfqs[offer.rfqId := d.rfqs[offer.rfqId].(status := Negotiating)])
  {
    r := ClientRejectCheck(s.Snap(), actor, oid);
    if r != Ok {
      return;
    }
    var offer := s.offers[oid];
    s.offers := s.offers[oid := offer.(status := Rejected)];
    s.rfqs := s.rfqs[offer.rfqId := s.rfqs[offer.rfqId].(status := Negotiating)];
  }
}
