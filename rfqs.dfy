/** The RFQ routes: clients create draft requests, administrators publish
    them and send the final offer to the client; who sees which RFQ depends
    on the role. */
module Rfqs {
  import opened Wrappers
  import opened Domain
  import opened Store

  /** Request body of POST /api/rfqs. `deadline` is the parsed ISO date-time,
      `None` when the text is not one. */
  predicate RfqValid(title: string, description: string, requirements: string,
                     deadline: Option<int>, budget: Option<real>) {
    |title| >= 3 && |description| >= 10 && |requirements| >= 10 && deadline.Some?
    && (budget.Some? ==> budget.value > 0.0)
  }

  /** The checks of POST /api/rfqs. */
  function CreateCheck(actor: Actor, title: string, description: string, requirements: string,
                       deadline: Option<int>, budget: Option<real>): (r: Outcome)
    ensures r == Ok <==> actor.role == Client && RfqValid(title, description, requirements, deadline, budget)
    ensures r != Ok ==> r == Forbidden || r == BadRequest(InvalidInput)
  {
    if actor.role != Client then Forbidden
    else if !RfqValid(title, description, requirements, deadline, budget) then BadRequest(InvalidInput)
    else Ok
  }

  /** A freshly created request: a draft owned by the caller, not yet seen by the gatekeeper. */
  function NewRfq(clientId: Id, title: string, description: string, requirements: string,
                  deadline: int, budget: Option<real>, now: int): Rfq {
    Rfq(clientId, title, description, requirements, deadline, budget, Draft, Unset, None, None, [], None, now, None)
  }

  /** POST /api/rfqs: stores a draft RFQ owned by the caller. */
  method Create(s: Store, actor: Actor, title: string, description: string, requirements: string,
                deadline: Option<int>, budget: Option<real>, now: int) returns (r: Outcome, id: Id)
    requires s.Valid()
    modifies s
    ensures s.Valid()
    ensures LocksKept(old(s.offers), s.offers)
    ensures r == CreateCheck(actor, title, description, requirements, deadline, budget)
    ensures r != Ok ==> unchanged(s)
    ensures r == Ok ==>
      var d := old(s.Snap());
      && id == d.nextId
      && s.Snap() == d.(
           rfqs := d.rfqs[id := NewRfq(actor.userId, title, description, requirements, deadline.value, budget, now)],
           nextId := id + 1)
  {
    id := 0;
    r := CreateCheck(actor, title, description, requirements, deadline, budget);
    if r != Ok {
      return;
    }
    id := s.NewId();
    s.rfqs := s.rfqs[id := NewRfq(actor.userId, title, description, requirements, deadline.value, budget, now)];
  }

  /** The statuses in which suppliers see an RFQ. */
  predicate OpenToSuppliers(status: RfqStatus) {
    status == Published || status == OffersReceived || status == Negotiating
  }

  /** The where-clause of GET /api/rfqs: a client sees its own RFQs, a
      supplier the open ones, an administrator all but the auto-rejected ones. */
  predicate RfqListed(actor: Actor, r: Rfq) {
    match actor.role
    case Client => r.clientId == actor.userId
    case Supplier => OpenToSuppliers(r.status)
    case Admin => r.gatekeeperStatus != Decided(AutoRejected)
  }

  /** GET /api/rfqs, as the set of RFQs returned. */
  function ListRfqs(d: Db, actor: Actor): (r: set<Id>)
    ensures r <= d.rfqs.Keys
    ensures actor.role == Supplier ==> forall k :: k in r ==> d.rfqs[k].status != Draft && d.rfqs[k].status != Closed
    ensures actor.role == Supplier ==> forall k :: k in d.rfqs ==> (k in r <==> OpenToSuppliers(d.rfqs[k].status))
    ensures actor.role == Admin ==> forall k :: k in d.rfqs ==> (k in r <==> d.rfqs[k].gatekeeperStatus != Decided(AutoRejected))
    ensures actor.role == Client ==> forall k :: k in d.rfqs ==> (k in r <==> d.rfqs[k].clientId == actor.userId)
  {
    set k | k in d.rfqs && RfqListed(actor, d.rfqs[k])
  }

  /** The checks of GET /api/rfqs/:id, in the handler's order. */
  function ViewCheck(d: Db, actor: Actor, id: Id): (r: Outcome)
    ensures r == Ok <==>
      id in d.rfqs
      && (actor.role == Client ==> d.rfqs[id].clientId == actor.userId)
      && (actor.role == Supplier ==> OpenToSuppliers(d.rfqs[id].status))
    ensures id in d.rfqs && actor.role == Supplier && d.rfqs[id].status == Draft ==> r == Forbidden
  {
    if id !in d.rfqs then NotFound
    else if actor.role == Client && d.rfqs[id].clientId != actor.userId then Forbidden
    else if actor.role == Supplier && !OpenToSuppliers(d.rfqs[id].status) then Forbidden
    else Ok
  }

  /** An RFQ made public at `now`; its gatekeeper column is kept. */
  function MarkPublished(r: Rfq, now: int): Rfq {
    r.(status := Published, publishedAt := Some(now))
  }

  /** An RFQ made public at `now` and marked approved by the gatekeeper. */
  function MarkApproved(r: Rfq, now: int): Rfq {
    MarkPublished(r, now).(gatekeeperStatus := Decided(AutoApproved))
  }

  /** The checks of PATCH /api/rfqs/:id/publish, in the handler's order. */
  function PublishCheck(d: Db, actor: Actor, id: Id): (r: Outcome)
    ensures r == Ok <==> actor.role == Admin && id in d.rfqs && d.rfqs[id].status == Draft
  {
    if actor.role != Admin then Forbidden
    else if id !in d.rfqs then NotFound
    else if d.rfqs[id].status != Draft then BadRequest(InvalidState)
    else Ok
  }

  /** PATCH /api/rfqs/:id/publish: a draft becomes published. */
  method Publish(s: Store, actor: Actor, id: Id, now: int) returns (r: Outcome)
    requires s.Valid()
    modifies s
    ensures s.Valid()
    ensures LocksKept(old(s.offers), s.offers)
    ensures r == PublishCheck(old(s.Snap()), actor, id)
    ensures r != Ok ==> unchanged(s)
    ensures r == Ok ==> s.Snap() == old(s.Snap()).(rfqs := old(s.rfqs)[id := MarkPublished(old(s.rfqs)[id], now)])
  {
    r := PublishCheck(s.Snap(), actor, id);
    if r != Ok {
      return;
    }
    s.rfqs := s.rfqs[id := MarkPublished(s.rfqs[id], now)];
  }

  /** The checks of PATCH /api/rfqs/:id/send-to-client, in the handler's order.
      `offerId` is `None` when the request names no offer. The RFQ's own
      status is not checked. */
  function SendToClientCheck(d: Db, actor: Actor, id: Id, offerId: Option<Id>): (r: Outcome)
    ensures r == Ok <==>
      && actor.role == Admin
      && id in d.rfqs
      && offerId.Some?
      && offerId.value in d.offers
      && d.offers[offerId.value].rfqId == id
      && d.offers[offerId.value].status == FinalConfirmed
  {
    if actor.role != Admin then Forbidden
    else if id !in d.rfqs then NotFound
    else if offerId.None? then Internal
    else if offerId.value !in d.offers || d.offers[offerId.value].rfqId != id then BadRequest(Mismatch)
    else if d.offers[offerId.value].status != FinalConfirmed then BadRequest(InvalidState)
    else Ok
  }

  /** PATCH /api/rfqs/:id/send-to-client: the RFQ becomes `sent_to_client`. */
  method SendToClient(s: Store, actor: Actor, id: Id, offerId: Option<Id>) returns (r: Outcome)
    requires s.Valid()
    modifies s
    ensures s.Valid()
    ensures LocksKept(old(s.offers), s.offers)
    ensures r == SendToClientCheck(old(s.Snap()), actor, id, offerId)
    ensures r != Ok ==> unchanged(s)
    ensures r == Ok ==> s.Snap() == old(s.Snap()).(rfqs := old(s.rfqs)[id := old(s.rfqs)[id].(status := SentToClient)])
  {
    r := SendToClientCheck(s.Snap(), actor, id, offerId);
    if r != Ok {
      return;
    }
    s.rfqs := s.rfqs[id := s.rfqs[id].(status := SentToClient)];
  }

  /** The checks of DELETE /api/rfqs/:id, in the handler's order. */
  function DeleteCheck(d: Db, actor: Actor, id: Id): (r: Outcome)
    ensures r == Ok <==>
      && id in d.rfqs
      && actor.role != Supplier
      && (actor.role == Client ==> d.rfqs[id].clientId == actor.userId)
      && d.rfqs[id].status == Draft
  {
    if id !in d.rfqs then NotFound
    else if actor.role == Client && d.rfqs[id].clientId != actor.userId then Forbidden
    else if actor.role == Supplier then Forbidden
    else if d.rfqs[id].status != Draft then BadRequest(InvalidState)
    else Ok
  }

  /** DELETE /api/rfqs/:id removes a draft RFQ and nothing else. */
  method Delete(s: Store, actor: Actor, id: Id) returns (r: Outcome)
    requires s.Valid()
    modifies s
    ensures s.Valid()
    ensures LocksKept(old(s.offers), s.offers)
    ensures r == DeleteCheck(old(s.Snap()), actor, id)
    ensures r != Ok ==> unchanged(s)
    ensures r == Ok ==> s.Snap() == old(s.Snap()).(rfqs := old(s.rfqs) - {id})
  {
    r := DeleteCheck(s.Snap(), actor, id);
    if r != Ok {
      return;
    }
    s.rfqs := s.rfqs - {id};
  }
}
