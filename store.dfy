/** The database: one table per entity. A `Store` is the mutable database the
    route handlers update; `Db` is its value at one moment, so that a handler's
    contract can say what the database becomes. */
module Store {
  import opened Wrappers
  import opened Domain

  /** A negotiation has at most three rounds. */
  const MaxRounds := 3

  datatype Db = Db(
    rfqs: map<Id, Rfq>,
    offers: map<Id, Offer>,
    negotiations: map<Id, Negotiation>,
    messages: seq<Message>,
    orders: map<Id, Order>,
    users: map<Id, User>,
    logs: seq<GateLog>,
    nextId: nat)

  /** Every identifier in use is below `nextId`, so `nextId` is fresh. */
  predicate IdsBelow(d: Db) {
    && (forall id :: id in d.rfqs ==> id < d.nextId)
    && (forall id :: id in d.offers ==> id < d.nextId)
    && (forall id :: id in d.negotiations ==> id < d.nextId)
    && (forall id :: id in d.orders ==> id < d.nextId)
    && (forall id :: id in d.users ==> id < d.nextId)
  }

  /** The offer has a negotiation in progress. */
  predicate HasActive(negs: map<Id, Negotiation>, offerId: Id) {
    exists k :: k in negs && negs[k].offerId == offerId && negs[k].status == Active
  }

  /** At most one active negotiation per offer. */
  predicate OneActivePerOffer(negs: map<Id, Negotiation>) {
    forall a, b ::
      (a in negs && b in negs && negs[a].status == Active && negs[b].status == Active
       && negs[a].offerId == negs[b].offerId) ==> a == b
  }

  /** Every negotiation's round counter is between 1 and the limit. */
  predicate RoundsBounded(negs: map<Id, Negotiation>) {
    forall k :: k in negs ==> 1 <= negs[k].rounds <= MaxRounds
  }

  /** Every message belongs to an existing negotiation and carries a round
      number the negotiation has reached. */
  predicate MessagesWithinRounds(msgs: seq<Message>, negs: map<Id, Negotiation>) {
    forall i :: 0 <= i < |msgs| ==>
      msgs[i].negotiationId in negs
      && 1 <= msgs[i].roundNumber <= negs[msgs[i].negotiationId].rounds
  }

  /** The offer already has an order. */
  predicate HasOrder(orders: map<Id, Order>, offerId: Id) {
    exists k :: k in orders && orders[k].offerId == offerId
  }

  /** At most one order per offer. */
  predicate OneOrderPerOffer(orders: map<Id, Order>) {
    forall a, b :: a in orders && b in orders && orders[a].offerId == orders[b].offerId ==> a == b
  }

  /** Orders are created locked and never unlocked. */
  predicate OrdersLocked(orders: map<Id, Order>) {
    forall k :: k in orders ==> orders[k].isLocked
  }

  /** The supplier has already submitted an offer on the RFQ. */
  predicate HasOfferFrom(offers: map<Id, Offer>, rfqId: Id, supplierId: Id) {
    exists k :: k in offers && offers[k].rfqId == rfqId && offers[k].supplierId == supplierId
  }

  /** At most one offer per supplier and RFQ. */
  predicate OneOfferPerSupplier(offers: map<Id, Offer>) {
    forall a, b ::
      (a in offers && b in offers && offers[a].rfqId == offers[b].rfqId
       && offers[a].supplierId == offers[b].supplierId) ==> a == b
  }

  predicate UsernameTaken(users: map<Id, User>, name: string) {
    exists k :: k in users && users[k].username == name
  }

  predicate EmailTaken(users: map<Id, User>, email: string) {
    exists k :: k in users && users[k].email == email
  }

  /** Usernames and e-mail addresses are unique. */
  predicate UniqueUsers(users: map<Id, User>) {
    && (forall a, b :: a in users && b in users && users[a].username == users[b].username ==> a == b)
    && (forall a, b :: a in users && b in users && users[a].email == users[b].email ==> a == b)
  }

  /** The invariant every handler preserves. */
  predicate Inv(d: Db) {
    && IdsBelow(d)
    && OneActivePerOffer(d.negotiations)
    && RoundsBounded(d.negotiations)
    && MessagesWithinRounds(d.messages, d.negotiations)
    && OneOrderPerOffer(d.orders)
    && OrdersLocked(d.orders)
    && OneOfferPerSupplier(d.offers)
    && UniqueUsers(d.users)
  }

  /** No offer that was locked is unlocked (offer rows may be removed). */
  predicate LocksKept(before: map<Id, Offer>, after: map<Id, Offer>) {
    forall k :: k in before && k in after && before[k].isLocked ==> after[k].isLocked
  }

  /** Writing a locked offer, or any offer over an unlocked one, keeps the locks. */
  lemma LocksKeptByWrite(before: map<Id, Offer>, k: Id, o: Offer)
    requires o.isLocked || k !in before || !before[k].isLocked
    ensures LocksKept(before, before[k := o])
  {
  }

  /** Offers edited in place: the same rows, each still on the same RFQ from
      the same supplier. */
  predicate SameOfferRows(before: map<Id, Offer>, after: map<Id, Offer>) {
    && after.Keys == before.Keys
    && forall k :: k in after ==> after[k].rfqId == before[k].rfqId && after[k].supplierId == before[k].supplierId
  }

  /** Opening a negotiation under the fresh identifier at round 1, on an
      offer without an active one, with a round-1 message, keeps the
      invariant. */
  lemma OpenKeepsInv(d: Db, n: Negotiation, m: Message, o: Offer, rid: Id, r: Rfq)
    requires Inv(d) && n.offerId in d.offers && !HasActive(d.negotiations, n.offerId) && n.rounds == 1
    requires m.negotiationId == d.nextId && m.roundNumber == 1
    requires o.rfqId == d.offers[n.offerId].rfqId && o.supplierId == d.offers[n.offerId].supplierId
    requires rid in d.rfqs
    ensures Inv(d.(negotiations := d.negotiations[d.nextId := n], messages := d.messages + [m],
                   offers := d.offers[n.offerId := o], rfqs := d.rfqs[rid := r], nextId := d.nextId + 1))
  {
    var negs := d.negotiations[d.nextId := n];
    var msgs := d.messages + [m];
    forall i | 0 <= i < |msgs|
      ensures msgs[i].negotiationId in negs && 1 <= msgs[i].roundNumber <= negs[msgs[i].negotiationId].rounds
    {
      if i < |d.messages| {
        assert msgs[i] == d.messages[i];
      }
    }
  }

  /** Updating negotiation `nid` in place (same offer, no fewer rounds, not
      re-activated), appending messages at rounds it has reached and editing
      offers in place keeps the invariant. */
  lemma TouchKeepsInv(d: Db, nid: Id, n: Negotiation, extra: seq<Message>, offers: map<Id, Offer>)
    requires Inv(d) && nid in d.negotiations
    requires n.offerId == d.negotiations[nid].offerId
    requires d.negotiations[nid].rounds <= n.rounds <= MaxRounds
    requires n.status == Active ==> d.negotiations[nid].status == Active
    requires forall i :: 0 <= i < |extra| ==> extra[i].negotiationId == nid && 1 <= extra[i].roundNumber <= n.rounds
    requires SameOfferRows(d.offers, offers)
    ensures Inv(d.(negotiations := d.negotiations[nid := n], messages := d.messages + extra, offers := offers))
  {
    var negs := d.negotiations[nid := n];
    var msgs := d.messages + extra;
    forall i | 0 <= i < |msgs|
      ensures msgs[i].negotiationId in negs && 1 <= msgs[i].roundNumber <= negs[msgs[i].negotiationId].rounds
    {
      if i < |d.messages| {
        assert msgs[i] == d.messages[i];
      } else {
        assert msgs[i] == extra[i - |d.messages|];
      }
    }
  }

  class Store {
    var rfqs: map<Id, Rfq>
    var offers: map<Id, Offer>
    var negotiations: map<Id, Negotiation>
    var messages: seq<Message>
    var orders: map<Id, Order>
    var users: map<Id, User>
    var logs: seq<GateLog>
    var nextId: nat

    function Snap(): Db
      reads this
    {
      Db(rfqs, offers, negotiations, messages, orders, users, logs, nextId)
    }

    ghost predicate Valid()
      reads this
    {
      Inv(Snap())
    }

    constructor ()
      ensures Snap() == Db(map[], map[], map[], [], map[], map[], [], 0)
      ensures Valid()
    {
      rfqs, offers, negotiations, messages := map[], map[], map[], [];
      orders, users, logs, nextId := map[], map[], [], 0;
    }

    /** Hands out a fresh identifier. */
    method NewId() returns (id: Id)
      modifies this
      ensures id == old(nextId)
      ensures Snap() == old(Snap()).(nextId := id + 1)
    {
      id := nextId;
      nextId := nextId + 1;
    }
  }
}
