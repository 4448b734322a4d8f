/** The Telegram bot's button handlers. A button carries callback data
    `action:id`; the action picks one of eight handlers. The offer handlers
    repeat, in shorter form, what the HTTP routes do: accept creates the order
    at once, with no status checks. */
module Bot {
  import opened Wrappers
  import opened Domain
  import opened Store
  import Text
  import Rfqs
  import Negotiations

  datatype Action =
    | PublishRfq | RejectRfq | Negotiate | Details
    | AcceptOffer | RejectOffer | StartOfferNegotiation | ViewOfferDetails

  /** The action word on the button. */
  function ActionName(a: Action): (r: string)
    ensures r != [] && ':' !in r
  {
    match a
    case PublishRfq => "publish"
    case RejectRfq => "reject"
    case Negotiate => "negotiate"
    case Details => "details"
    case AcceptOffer => "accept_offer"
    case RejectOffer => "reject_offer"
    case StartOfferNegotiation => "start_offer_negotiation"
    case ViewOfferDetails => "view_offer_details"
  }

  /** The switch of the callback handler; any other word selects no handler. */
  function ParseAction(w: string): Option<Action> {
    if w == "publish" then Some(PublishRfq)
    else if w == "reject" then Some(RejectRfq)
    else if w == "negotiate" then Some(Negotiate)
    else if w == "details" then Some(Details)
    else if w == "accept_offer" then Some(AcceptOffer)
    else if w == "reject_offer" then Some(RejectOffer)
    else if w == "start_offer_negotiation" then Some(StartOfferNegotiation)
    else if w == "view_offer_details" then Some(ViewOfferDetails)
    else None
  }

  /** Every action is recognised from its own word, and no two share a word. */
  lemma ParseActionName(a: Action)
    ensures ParseAction(ActionName(a)) == Some(a)
  {
  }

  /** `const [action, id] = data.split(':')`: the first piece and, when
      there is one, the second; further pieces are ignored. */
  function ParseCallback(data: string): (r: (Option<Action>, Option<string>))
    ensures r.1.Some? ==> ':' !in r.1.value
  {
    var parts := Text.Split(data, ':');
    (ParseAction(parts[0]), if |parts| >= 2 then Some(parts[1]) else None)
  }

  /** The callback data of a button. */
  function Encode(a: Action, id: Id): string {
    ActionName(a) + ":" + Text.NatText(id)
  }

  /** Row identifiers are written in canonical decimal; any other text names no row. */
  function IdOf(t: string): (r: Option<Id>)
    ensures r.Some? ==> Text.NatText(r.value) == t
  {
    match Text.ParseNat(t)
    case Some(n) => if Text.NatText(n) == t then Some(n) else None
    case None => None
  }

  lemma IdOfText(id: Id)
    ensures IdOf(Text.NatText(id)) == Some(id)
  {
    Text.ParseNatText(id);
  }

  /** A button's data is read back as the action and row it was made for. */
  lemma CallbackRoundTrip(a: Action, id: Id)
    ensures ParseCallback(Encode(a, id)).0 == Some(a)
    ensures ParseCallback(Encode(a, id)).1 == Some(Text.NatText(id))
    ensures IdOf(ParseCallback(Encode(a, id)).1.value) == Some(id)
    ensures TargetOf(Encode(a, id)) == Some(id)
  {
    var w := ActionName(a);
    var t := Text.NatText(id);
    assert Encode(a, id) == w + [':'] + t;
    assert ':' !in t;
    Text.SplitAfterFirst(w, t, ':');
    Text.SplitNoSep(t, ':');
    ParseActionName(a);
    IdOfText(id);
  }

  /** The handlePublishRFQ check: the RFQ must exist. */
  function RfqCheck(d: Db, id: Id): (r: Outcome)
    ensures r == Ok <==> id in d.rfqs
    ensures r != Ok ==> r == NotFound
  {
    if id !in d.rfqs then NotFound else Ok
  }

  /** The database after handlePublishRFQ. */
  function AfterPublish(d: Db, id: Id, now: int): Db
    requires id in d.rfqs
  {
    d.(rfqs := d.rfqs[id := Rfqs.MarkApproved(d.rfqs[id], now)])
  }

  /** handlePublishRFQ: the RFQ is published and marked approved, whatever its status. */
  method HandlePublishRfq(s: Store, id: Id, now: int) returns (r: Outcome)
    requires s.Valid()
    modifies s
    ensures s.Valid()
    ensures LocksKept(old(s.offers), s.offers)
    ensures r == RfqCheck(old(s.Snap()), id)
    ensures r != Ok ==> unchanged(s)
    ensures r == Ok ==> s.Snap() == AfterPublish(old(s.Snap()), id, now)
  {
    r := RfqCheck(s.Snap(), id);
    if r != Ok {
      return;
    }
    s.rfqs := s.rfqs[id := Rfqs.MarkApproved(s.rfqs[id], now)];
  }

  /** The database after handleRejectRFQ. */
  function AfterRejectRfq(d: Db, id: Id): Db
    requires id in d.rfqs
  {
    d.(rfqs := d.rfqs[id := d.rfqs[id].(gatekeeperStatus := Decided(AutoRejected))])
  }

  /** handleRejectRFQ: only the gatekeeper column changes; the RFQ stays in its status. */
  method HandleRejectRfq(s: Store, id: Id) returns (r: Outcome)
    requires s.Valid()
    modifies s
    ensures s.Valid()
    ensures LocksKept(old(s.offers), s.offers)
    ensures r == RfqCheck(old(s.Snap()), id)
    ensures r != Ok ==> unchanged(s)
    ensures r == Ok ==> s.Snap() == AfterRejectRfq(old(s.Snap()), id)
  {
    r := RfqCheck(s.Snap(), id);
    if r != Ok {
      return;
    }
    s.rfqs := s.rfqs[id := s.rfqs[id].(gatekeeperStatus := Decided(AutoRejected))];
  }

  /** The active negotiation of an offer, unique by the store's invariant. */
  function ActiveOf(negs: map<Id, Negotiation>, offerId: Id): (r: Option<Id>)
    requires OneActivePerOffer(negs)
    ensures r.None? <==> !HasActive(negs, offerId)
    ensures r.Some? ==> r.value in negs && negs[r.value].offerId == offerId && negs[r.value].status == Active
  {
    if HasActive(negs, offerId) then
      var k :| k in negs && negs[k].offerId == offerId && negs[k].status == Active;
      Some(k)
    else None
  }

  /** The terms handleAcceptOffer settles on: those of the newest message in
      the offer's active negotiation, falling back to the offer's own. */
  function AcceptTerms(d: Db, offerId: Id): (t: Negotiations.Terms)
    requires OneActivePerOffer(d.negotiations) && offerId in d.offers
    ensures !HasActive(d.negotiations, offerId) ==> t == Negotiations.OfferTerms(d.offers[offerId])
  {
    match ActiveOf(d.negotiations, offerId)
    case None => Negotiations.OfferTerms(d.offers[offerId])
    case Some(k) => Negotiations.CurrentTerms(Negotiations.MessagesOf(d.messages, k), Negotiations.OfferTerms(d.offers[offerId]))
  }

  /** A negotiated price of zero or an empty delivery text does not replace the offer's. */
  lemma AcceptTermsFallBack(d: Db, offerId: Id, k: Id)
    requires OneActivePerOffer(d.negotiations) && offerId in d.offers
    requires k in d.negotiations && d.negotiations[k].offerId == offerId && d.negotiations[k].status == Active
    requires var thread := Negotiations.MessagesOf(d.messages, k);
      thread != [] && !TruthyReal(thread[|thread| - 1].proposedPrice)
    ensures AcceptTerms(d, offerId).price == d.offers[offerId].price
  {
    assert ActiveOf(d.negotiations, offerId) == Some(k);
  }

  /** The checks of handleAcceptOffer: no offer or RFQ status is looked at. */
  function AcceptCheck(d: Db, offerId: Id): (r: Outcome)
    ensures r == Ok <==> offerId in d.offers && !HasOrder(d.orders, offerId) && d.offers[offerId].rfqId in d.rfqs
    ensures offerId in d.offers && HasOrder(d.orders, offerId) ==> r == BadRequest(Duplicate)
  {
    if offerId !in d.offers then NotFound
    else if HasOrder(d.orders, offerId) then BadRequest(Duplicate)
    else if d.offers[offerId].rfqId !in d.rfqs then Internal
    else Ok
  }

  /** The offer as handleAcceptOffer leaves it. */
  function AcceptedOffer(o: Offer, t: Negotiations.Terms): Offer {
    o.(status := Accepted, isLocked := true, price := t.price, deliveryTime := t.deliveryTime)
  }

  /** The order handleAcceptOffer creates on behalf of the RFQ's client. */
  function BotOrder(d: Db, offerId: Id, t: Negotiations.Terms, now: int): Order
    requires offerId in d.offers && d.offers[offerId].rfqId in d.rfqs
  {
    var o := d.offers[offerId];
    Order(o.rfqId, offerId, d.rfqs[o.rfqId].clientId, o.supplierId, t.price, o.terms,
          Created, true, PayPending, ShipPending, now, None, None)
  }

  /** The negotiations after handleAcceptOffer: the active one, if any, is completed. */
  function CompleteActive(negs: map<Id, Negotiation>, offerId: Id, now: int): (r: map<Id, Negotiation>)
    requires OneActivePerOffer(negs)
    ensures r.Keys == negs.Keys
    ensures forall k :: k in negs ==> r[k].rounds == negs[k].rounds && r[k].offerId == negs[k].offerId
    ensures forall k :: k in negs && negs[k].offerId != offerId ==> r[k] == negs[k]
    ensures !HasActive(r, offerId)
  {
    match ActiveOf(negs, offerId)
    case None => negs
    case Some(k) => negs[k := negs[k].(status := Completed, completedAt := Some(now))]
  }

  /** The database after handleAcceptOffer; the new order takes the next id. */
  function AfterAccept(d: Db, offerId: Id, now: int): Db
    requires OneActivePerOffer(d.negotiations) && AcceptCheck(d, offerId) == Ok
  {
    var offer := d.offers[offerId];
    var t := AcceptTerms(d, offerId);
    d.(offers := d.offers[offerId := AcceptedOffer(offer, t)],
       orders := d.orders[d.nextId := BotOrder(d, offerId, t, now)],
       rfqs := d.rfqs[offer.rfqId := d.rfqs[offer.rfqId].(status := Closed)],
       negotiations := CompleteActive(d.negotiations, offerId, now),
       nextId := d.nextId + 1)
  }

  /** handleAcceptOffer: the offer is accepted and locked at the settled
      terms, an order is created at that price, the RFQ is closed and the
      active negotiation, if any, completed. */
  method HandleAcceptOffer(s: Store, offerId: Id, now: int) returns (r: Outcome, orderId: Id)
    requires s.Valid()
    modifies s
    ensures s.Valid()
    ensures LocksKept(old(s.offers), s.offers)
    ensures r == AcceptCheck(old(s.Snap()), offerId)
    ensures r != Ok ==> unchanged(s)
    ensures r == Ok ==> orderId == old(s.nextId) && s.Snap() == AfterAccept(old(s.Snap()), offerId, now)
  {
    orderId := 0;
    var d := s.Snap();
    r := AcceptCheck(d, offerId);
    if r != Ok {
      return;
    }
    var offer := s.offers[offerId];
    var t := AcceptTerms(d, offerId);
    ghost var after := AfterAccept(d, offerId, now);
    AcceptKeepsInv(d, offerId, t, now);
    s.offers := s.offers[offerId := AcceptedOffer(offer, t)];
    orderId := s.NewId();
    s.orders := s.orders[orderId := BotOrder(d, offerId, t, now)];
    s.rfqs := s.rfqs[offer.rfqId := s.rfqs[offer.rfqId].(status := Closed)];
    s.negotiations := CompleteActive(s.negotiations, offerId, now);
    assert s.Snap() == after;
  }

  /** Accepting an offer keeps the database invariant. */
  lemma AcceptKeepsInv(d: Db, offerId: Id, t: Negotiations.Terms, now: int)
    requires Inv(d) && AcceptCheck(d, offerId) == Ok
    ensures var offer := d.offers[offerId];
      Inv(d.(
        offers := d.offers[offerId := AcceptedOffer(offer, t)],
        orders := d.orders[d.nextId := BotOrder(d, offerId, t, now)],
        rfqs := d.rfqs[offer.rfqId := d.rfqs[offer.rfqId].(status := Closed)],
        negotiations := CompleteActive(d.negotiations, offerId, now),
        nextId := d.nextId + 1))
  {
    var negs := CompleteActive(d.negotiations, offerId, now);
    assert MessagesWithinRounds(d.messages, negs) by {
      forall i | 0 <= i < |d.messages|
        ensures d.messages[i].negotiationId in negs
          && 1 <= d.messages[i].roundNumber <= negs[d.messages[i].negotiationId].rounds
      {
      }
    }
    assert OneActivePerOffer(negs);
    var orders := d.orders[d.nextId := BotOrder(d, offerId, t, now)];
    assert OneOrderPerOffer(orders);
  }

  /** An offer accepted through the bot can end up with an order whatever
      its status, a locked offer still under negotiation included. */
  lemma AcceptIgnoresStatus(d: Db, offerId: Id)
    requires offerId in d.offers && d.offers[offerId].rfqId in d.rfqs && !HasOrder(d.orders, offerId)
    ensures AcceptCheck(d, offerId) == Ok
  {
  }

  /** The check of handleRejectOffer. */
  function OfferCheck(d: Db, offerId: Id): (r: Outcome)
    ensures r == Ok <==> offerId in d.offers
    ensures r != Ok ==> r == NotFound
  {
    if offerId !in d.offers then NotFound else Ok
  }

  /** The database after handleRejectOffer. */
  function AfterRejectOffer(d: Db, offerId: Id): Db
    requires offerId in d.offers
  {
    d.(offers := d.offers[offerId := d.offers[offerId].(status := Rejected)])
  }

  /** handleRejectOffer: the offer is rejected, whatever its status; a
      negotiation on it is left as it was. */
  method HandleRejectOffer(s: Store, offerId: Id) returns (r: Outcome)
    requires s.Valid()
    modifies s
    ensures s.Valid()
    ensures LocksKept(old(s.offers), s.offers)
    ensures r == OfferCheck(old(s.Snap()), offerId)
    ensures r != Ok ==> unchanged(s)
    ensures r == Ok ==> s.Snap() == AfterRejectOffer(old(s.Snap()), offerId)
  {
    r := OfferCheck(s.Snap(), offerId);
    if r != Ok {
      return;
    }
    s.offers := s.offers[offerId := s.offers[offerId].(status := Rejected)];
  }

  /** Some administrator account exists. */
  predicate HasAdmin(users: map<Id, User>) {
    exists k :: k in users && users[k].role == Admin
  }

  /** The checks of handleStartOfferNegotiation, in its order; unlike the
      HTTP route it looks at neither the offer's lock nor its status. */
  function StartCheck(d: Db, offerId: Id): (r: Outcome)
    ensures r == Ok <==>
      offerId in d.offers && HasAdmin(d.users) && !HasActive(d.negotiations, offerId) && d.offers[offerId].rfqId in d.rfqs
    ensures offerId in d.offers && HasAdmin(d.users) && HasActive(d.negotiations, offerId) ==> r == BadRequest(Duplicate)
  {
    if offerId !in d.offers then NotFound
    else if !HasAdmin(d.users) then NotFound
    else if HasActive(d.negotiations, offerId) then BadRequest(Duplicate)
    else if d.offers[offerId].rfqId !in d.rfqs then Internal
    else Ok
  }

  /** The first message of a negotiation opened from Telegram. */
  const OpeningText := "Negociere inițiată din Telegram. Te rog să răspunzi cu o contraofertă."

  /** The database after handleStartOfferNegotiation run for administrator
      `adminId`; the negotiation takes the next id. */
  function AfterStart(d: Db, offerId: Id, adminId: Id, now: int): Db
    requires offerId in d.offers && d.offers[offerId].rfqId in d.rfqs
  {
    var offer := d.offers[offerId];
    d.(negotiations := d.negotiations[d.nextId := Negotiation(offerId, offer.rfqId, adminId, offer.supplierId, 1, Active, now, None)],
       messages := d.messages + [Message(d.nextId, adminId, Admin, 1, OpeningText, None, None, now)],
       offers := d.offers[offerId := offer.(status := InNegotiation)],
       rfqs := d.rfqs[offer.rfqId := d.rfqs[offer.rfqId].(status := Negotiating)],
       nextId := d.nextId + 1)
  }

  /** handleStartOfferNegotiation: opens a negotiation at round 1 on behalf of
      some administrator, with the fixed first message, and moves the offer to
      `in_negotiation` and its RFQ to `negotiation`. */
  method HandleStartOfferNegotiation(s: Store, offerId: Id, now: int) returns (r: Outcome, nid: Id, adminId: Id)
    requires s.Valid()
    modifies s
    ensures s.Valid()
    ensures LocksKept(old(s.offers), s.offers)
    ensures r == StartCheck(old(s.Snap()), offerId)
    ensures r != Ok ==> unchanged(s)
    ensures r == Ok ==>
      && adminId in old(s.users) && old(s.users)[adminId].role == Admin
      && nid == old(s.nextId)
      && s.Snap() == AfterStart(old(s.Snap()), offerId, adminId, now)
  {
    nid, adminId := 0, 0;
    r := StartCheck(s.Snap(), offerId);
    if r != Ok {
      return;
    }
    adminId :| adminId in s.users && s.users[adminId].role == Admin;
    var offer := s.offers[offerId];
    ghost var d := s.Snap();
    nid := s.NewId();
    var n := Negotiation(offerId, offer.rfqId, adminId, offer.supplierId, 1, Active, now, None);
    var m := Message(nid, adminId, Admin, 1, OpeningText, None, None, now);
    var o := offer.(status := InNegotiation);
    var q := s.rfqs[offer.rfqId].(status := Negotiating);
    s.negotiations := s.negotiations[nid := n];
    s.messages := s.messages + [m];
    s.offers := s.offers[offerId := o];
    s.rfqs := s.rfqs[offer.rfqId := q];
    assert s.Snap() == d.(negotiations := d.negotiations[d.nextId := n], messages := d.messages + [m],
                          offers := d.offers[offerId := o], rfqs := d.rfqs[offer.rfqId := q], nextId := d.nextId + 1);
    OpenKeepsInv(d, n, m, o, offer.rfqId, q);
  }

  /** The bot opens a negotiation on a locked offer that the HTTP route refuses. */
  lemma StartIgnoresLock(d: Db, actor: Actor, offerId: Id, text: string, price: Option<real>)
    requires actor.role == Admin && Negotiations.OpeningValid(text, price)
    requires offerId in d.offers && d.offers[offerId].isLocked && d.offers[offerId].rfqId in d.rfqs
    requires HasAdmin(d.users) && !HasActive(d.negotiations, offerId)
    ensures StartCheck(d, offerId) == Ok
    ensures Negotiations.StartCheck(d, actor, offerId, text, price) == BadRequest(Locked)
  {
  }

  /** The row the callback data names, when its second piece is an id. */
  function TargetOf(data: string): Option<Id> {
    var idText := ParseCallback(data).1;
    if idText.Some? then IdOf(idText.value) else None
  }

  /** The callback handler: parses the data and runs the handler its action
      names. `handled` is false when the action is unknown, and then nothing
      changes; so does every read-only action. A missing id is a failed
      lookup (`Internal`), an id text naming no row a missing row. Each
      writing action on a named row has exactly its handler's outcome and
      effect. */
  method Dispatch(s: Store, data: string, now: int) returns (handled: bool, r: Outcome)
    requires s.Valid()
    modifies s
    ensures s.Valid()
    ensures LocksKept(old(s.offers), s.offers)
    ensures handled <==> ParseCallback(data).0.Some?
    ensures !handled ==> unchanged(s)
    ensures handled && ParseCallback(data).0.value in {Negotiate, Details, ViewOfferDetails} ==> unchanged(s)
    ensures TargetOf(data).None? ==> unchanged(s)
    ensures r != Ok ==> unchanged(s)
    ensures ParseCallback(data).0 == Some(ViewOfferDetails) && TargetOf(data).Some? ==>
      r == OfferCheck(old(s.Snap()), TargetOf(data).value)
    ensures ParseCallback(data).0 == Some(PublishRfq) && TargetOf(data).Some? ==>
      var id := TargetOf(data).value;
      r == RfqCheck(old(s.Snap()), id) && (r == Ok ==> s.Snap() == AfterPublish(old(s.Snap()), id, now))
    ensures ParseCallback(data).0 == Some(RejectRfq) && TargetOf(data).Some? ==>
      var id := TargetOf(data).value;
      r == RfqCheck(old(s.Snap()), id) && (r == Ok ==> s.Snap() == AfterRejectRfq(old(s.Snap()), id))
    ensures ParseCallback(data).0 == Some(AcceptOffer) && TargetOf(data).Some? ==>
      var id := TargetOf(data).value;
      r == AcceptCheck(old(s.Snap()), id) && (r == Ok ==> s.Snap() == AfterAccept(old(s.Snap()), id, now))
    ensures ParseCallback(data).0 == Some(RejectOffer) && TargetOf(data).Some? ==>
      var id := TargetOf(data).value;
      r == OfferCheck(old(s.Snap()), id) && (r == Ok ==> s.Snap() == AfterRejectOffer(old(s.Snap()), id))
    ensures ParseCallback(data).0 == Some(StartOfferNegotiation) && TargetOf(data).Some? ==>
      var id := TargetOf(data).value;
      r == StartCheck(old(s.Snap()), id)
      && (r == Ok ==> exists a :: a in old(s.users) && old(s.users)[a].role == Admin
                                 && s.Snap() == AfterStart(old(s.Snap()), id, a, now))
  {
    var (action, idText) := ParseCallback(data);
    handled := action.Some?;
    r := Ok;
    if !handled || action.value in {Negotiate, Details, ViewOfferDetails} {
      if handled && action.value == ViewOfferDetails {
        r := if idText.None? then Internal
             else if IdOf(idText.value).None? then NotFound
             else OfferCheck(s.Snap(), IdOf(idText.value).value);
      }
      return;
    }
    if idText.None? {
      r := Internal;
      return;
    }
    var id := IdOf(idText.value);
    if id.None? {
      r := NotFound;
      return;
    }
    match action.value {
      case PublishRfq => r := HandlePublishRfq(s, id.value, now);
      case RejectRfq => r := HandleRejectRfq(s, id.value);
      case AcceptOffer => var orderId; r, orderId := HandleAcceptOffer(s, id.value, now);
      case RejectOffer => r := HandleRejectOffer(s, id.value);
      case StartOfferNegotiation => var nid, adminId; r, nid, adminId := HandleStartOfferNegotiation(s, id.value, now);
    }
  }
}
