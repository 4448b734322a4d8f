/** The negotiation routes: an administrator opens a negotiation on an offer,
    the administrator and the supplier exchange messages for at most three
    rounds, and the supplier accepts (the offer becomes final and locked) or
    rejects; the administrator may cancel. */
module Negotiations {
  import opened Wrappers
  import opened Domain
  import opened Store
  import Seqs

  /** The price and delivery time an offer stands at. */
  datatype Terms = Terms(price: real, deliveryTime: string)

  function OfferTerms(o: Offer): Terms {
    Terms(o.price, o.deliveryTime)
  }

  /** The messages of negotiation `nid`, oldest first. */
  function MessagesOf(msgs: seq<Message>, nid: Id): (r: seq<Message>)
    ensures |r| <= |msgs|
    ensures forall k :: 0 <= k < |r| ==> r[k].negotiationId == nid
    ensures forall m :: m in r <==> m in msgs && m.negotiationId == nid
  {
    if msgs == [] then []
    else
      var last := msgs[|msgs| - 1];
      assert msgs == msgs[..|msgs| - 1] + [last];
      MessagesOf(msgs[..|msgs| - 1], nid) + (if last.negotiationId == nid then [last] else [])
  }

  /** Whether a message belongs to negotiation `nid`. */
  function InThread(nid: Id): Message -> bool {
    (m: Message) => m.negotiationId == nid
  }

  /** The thread is the message log filtered by negotiation (`where:
      { negotiationId }`): every message of the negotiation and no other. */
  lemma {:induction false} MessagesOfIsFilter(msgs: seq<Message>, nid: Id)
    ensures MessagesOf(msgs, nid) == Seqs.Filter(msgs, InThread(nid))
  {
    if msgs != [] {
      var init, last := msgs[..|msgs| - 1], msgs[|msgs| - 1];
      MessagesOfIsFilter(init, nid);
      assert msgs == init + [last];
      Seqs.FilterSnoc(init, last, InThread(nid));
      assert InThread(nid)(last) == (last.negotiationId == nid);
    }
  }

  /** The thread keeps the order of the log (`orderBy: createdAt asc`, with
      the log in creation order). */
  lemma ThreadKeepsOrder(msgs: seq<Message>, nid: Id)
    ensures Seqs.IsSubsequence(MessagesOf(msgs, nid), msgs)
  {
    MessagesOfIsFilter(msgs, nid);
    Seqs.FilterIsSubsequence(msgs, InThread(nid));
  }

  /** Appending a message extends the thread it belongs to and no other. */
  lemma MessagesOfAppend(msgs: seq<Message>, m: Message, nid: Id)
    ensures MessagesOf(msgs + [m], nid) == MessagesOf(msgs, nid) + (if m.negotiationId == nid then [m] else [])
  {
    assert (msgs + [m])[..|msgs|] == msgs;
  }

  /** The terms in force after a thread: the latest message's proposal, each
      part falling back to `base` when that message proposes none (JavaScript `||`). */
  function CurrentTerms(thread: seq<Message>, base: Terms): Terms {
    if thread == [] then base
    else
      var m := thread[|thread| - 1];
      Terms(OrReal(m.proposedPrice, base.price), OrText(m.proposedDeliveryTime, base.deliveryTime))
  }

  /** Only the latest message counts: earlier proposals are not carried forward. */
  lemma CurrentTermsLatest(thread: seq<Message>, m: Message, base: Terms)
    ensures CurrentTerms(thread + [m], base) == CurrentTerms([m], base)
    ensures CurrentTerms([m], base).price == (if TruthyReal(m.proposedPrice) then m.proposedPrice.value else base.price)
    ensures CurrentTerms([m], base).deliveryTime
         == (if TruthyText(m.proposedDeliveryTime) then m.proposedDeliveryTime.value else base.deliveryTime)
  {
  }

  /** Re-applying the thread to the terms it produced changes nothing. */
  lemma CurrentTermsIdempotent(thread: seq<Message>, base: Terms)
    ensures CurrentTerms(thread, CurrentTerms(thread, base)) == CurrentTerms(thread, base)
  {
  }

  /** When the supplier accepts with message `m`, the terms written to the offer
      are the current terms of the thread that now ends with `m`. */
  lemma AcceptedTermsAreCurrent(msgs: seq<Message>, m: Message, nid: Id, base: Terms)
    requires m.negotiationId == nid
    ensures CurrentTerms(MessagesOf(msgs + [m], nid), base)
         == Terms(OrReal(m.proposedPrice, base.price), OrText(m.proposedDeliveryTime, base.deliveryTime))
  {
    MessagesOfAppend(msgs, m, nid);
  }

  /** Request body of POST /api/negotiations: a message of at least ten
      characters and, if given, a positive price. */
  predicate OpeningValid(text: string, price: Option<real>) {
    |text| >= 10 && (price.Some? ==> price.value > 0.0)
  }

  /** Request body of the two reply routes: a non-empty message and, if given, a positive price. */
  predicate ReplyValid(text: string, price: Option<real>) {
    |text| >= 1 && (price.Some? ==> price.value > 0.0)
  }

  /** The checks of POST /api/negotiations, in the handler's order. */
  function StartCheck(d: Db, actor: Actor, offerId: Id, text: string, price: Option<real>): (r: Outcome)
    ensures r == Ok <==>
      && actor.role == Admin
      && OpeningValid(text, price)
      && offerId in d.offers
      && !d.offers[offerId].isLocked
      && d.offers[offerId].status != Rejected && d.offers[offerId].status != Withdrawn
      && !HasActive(d.negotiations, offerId)
      && d.offers[offerId].rfqId in d.rfqs
    ensures actor.role == Admin && OpeningValid(text, price) && offerId in d.offers && d.offers[offerId].isLocked
      ==> r == BadRequest(Locked)
    ensures (actor.role == Admin && OpeningValid(text, price) && offerId in d.offers
             && HasActive(d.negotiations, offerId)) ==> r.BadRequest?
  {
    if actor.role != Admin then Forbidden
    else if !OpeningValid(text, price) then BadRequest(InvalidInput)
    else if offerId !in d.offers then NotFound
    else if d.offers[offerId].isLocked then BadRequest(Locked)
    else if d.offers[offerId].status == Rejected || d.offers[offerId].status == Withdrawn then BadRequest(InvalidState)
    else if HasActive(d.negotiations, offerId) then BadRequest(Duplicate)
    else if d.offers[offerId].rfqId !in d.rfqs then Internal
    else Ok
  }

  /** POST /api/negotiations: opens negotiation `nid` on the offer at round 1
      with the administrator's first message, and moves the offer to
      `in_negotiation` and its RFQ to `negotiation`. */
  method Start(s: Store, actor: Actor, offerId: Id, text: string, price: Option<real>,
               delivery: Option<string>, now: int) returns (r: Outcome, nid: Id)
    requires s.Valid()
    modifies s
    ensures s.Valid()
    ensures LocksKept(old(s.offers), s.offers)
    ensures r == StartCheck(old(s.Snap()), actor, offerId, text, price)
    ensures r != Ok ==> unchanged(s)
    ensures r == Ok ==>
      var d := old(s.Snap());
      var offer := d.offers[offerId];
      && nid == d.nextId
      && s.Snap() == d.(
           negotiations := d.negotiations[nid := Negotiation(offerId, offer.rfqId, actor.userId, offer.supplierId, 1, Active, now, None)],
           messages := d.messages + [Message(nid, actor.userId, Admin, 1, text, price, delivery, now)],
           offers := d.offers[offerId := offer.(status := InNegotiation)],
           rfqs := d.rfqs[offer.rfqId := d.rfqs[offer.rfqId].(status := Negotiating)],
           nextId := nid + 1)
  {
    nid := 0;
    r := StartCheck(s.Snap(), actor, offerId, text, price);
    if r != Ok {
      return;
    }
    var offer := s.offers[offerId];
    ghost var d := s.Snap();
    nid := s.NewId();
    var n := Negotiation(offerId, offer.rfqId, actor.userId, offer.supplierId, 1, Active, now, None);
    var m := Message(nid, actor.userId, Admin, 1, text, price, delivery, now);
    var o := offer.(status := InNegotiation);
    var q := s.rfqs[offer.rfqId].(status := Negotiating);
    s.negotiations := s.negotiations[nid := n];
    s.messages := s.messages + [m];
    s.offers := s.offers[offerId := o];
    s.rfqs := s.rfqs[offer.rfqId := q];
    assert s.Snap() == d.(negotiations := d.negotiations[d.nextId := n], messages := d.messages + [m],
                          offers := d.offers[offerId := o], rfqs := d.rfqs[offer.rfqId := q], nextId := d.nextId + 1);
    OpenKeepsInv(d, n, m, o, offer.rfqId, q);
  }

  /** Who may read a negotiation: an administrator, its supplier, or the client owning its RFQ. */
  predicate MayView(actor: Actor, n: Negotiation, rfqClientId: Id) {
    actor.role == Admin || actor.userId == n.supplierId || actor.userId == rfqClientId
  }

  /** The checks of GET /api/negotiations/:id. */
  function ViewCheck(d: Db, actor: Actor, nid: Id): (r: Outcome)
    ensures r == Ok <==>
      nid in d.negotiations && d.negotiations[nid].rfqId in d.rfqs
      && MayView(actor, d.negotiations[nid], d.rfqs[d.negotiations[nid].rfqId].clientId)
    ensures r == NotFound <==> nid !in d.negotiations
  {
    if nid !in d.negotiations then NotFound
    else if d.negotiations[nid].rfqId !in d.rfqs then Internal
    else if !MayView(actor, d.negotiations[nid], d.rfqs[d.negotiations[nid].rfqId].clientId) then Forbidden
    else Ok
  }

  /** GET /api/negotiations/offer/:offerId: some negotiation of the offer, in
      whatever status, chosen by the database. */
  method FindByOffer(s: Store, actor: Actor, offerId: Id) returns (r: Outcome, nid: Id)
    ensures r == NotFound <==> forall k :: k in s.negotiations ==> s.negotiations[k].offerId != offerId
    ensures r != NotFound ==> nid in s.negotiations && s.negotiations[nid].offerId == offerId
    ensures r != NotFound ==> r == ViewCheck(s.Snap(), actor, nid)
  {
    nid := 0;
    if k :| k in s.negotiations && s.negotiations[k].offerId == offerId {
      nid := k;
      r := ViewCheck(s.Snap(), actor, nid);
    } else {
      r := NotFound;
    }
  }

  /** The checks of POST /api/negotiations/:id/respond, in the handler's order. */
  function RespondCheck(d: Db, actor: Actor, nid: Id, text: string, price: Option<real>, acceptFinal: bool): (r: Outcome)
    ensures r == Ok <==>
      && actor.role == Supplier
      && ReplyValid(text, price)
      && nid in d.negotiations
      && d.negotiations[nid].supplierId == actor.userId
      && d.negotiations[nid].status == Active
      && (acceptFinal || d.negotiations[nid].rounds < MaxRounds)
      && (acceptFinal ==> d.negotiations[nid].offerId in d.offers)
    ensures r == BadRequest(RoundLimit) ==> !acceptFinal
  {
    if actor.role != Supplier then Forbidden
    else if !ReplyValid(text, price) then BadRequest(InvalidInput)
    else if nid !in d.negotiations then NotFound
    else if d.negotiations[nid].supplierId != actor.userId then Forbidden
    else if d.negotiations[nid].status != Active then BadRequest(InvalidState)
    else if !acceptFinal && d.negotiations[nid].rounds >= MaxRounds then BadRequest(RoundLimit)
    else if acceptFinal && d.negotiations[nid].offerId !in d.offers then Internal
    else Ok
  }

  /** POST /api/negotiations/:id/respond: the supplier's message is recorded at
      the current round. Accepting completes the negotiation and makes the
      offer final and locked at the thread's current terms; otherwise the
      round counter advances. */
  method Respond(s: Store, actor: Actor, nid: Id, text: string, price: Option<real>,
                 delivery: Option<string>, acceptFinal: bool, now: int) returns (r: Outcome)
    requires s.Valid()
    modifies s
    ensures s.Valid()
    ensures LocksKept(old(s.offers), s.offers)
    ensures r == RespondCheck(old(s.Snap()), actor, nid, text, price, acceptFinal)
    ensures r != Ok ==> unchanged(s)
    ensures r == Ok ==>
      var d := old(s.Snap());
      var n := d.negotiations[nid];
      var msg := Message(nid, actor.userId, Supplier, n.rounds, text, price, delivery, now);
      && s.messages == d.messages + [msg]
      && (acceptFinal ==>
            var offer := d.offers[n.offerId];
            var t := CurrentTerms(MessagesOf(s.messages, nid), OfferTerms(offer));
            s.Snap() == d.(
              messages := s.messages,
              negotiations := d.negotiations[nid := n.(status := Completed, completedAt := Some(now))],
              offers := d.offers[n.offerId := offer.(status := FinalConfirmed, isLocked := true,
                                                     price := t.price, deliveryTime := t.deliveryTime)]))
      && (!acceptFinal ==>
            s.Snap() == d.(
              messages := s.messages,
              negotiations := d.negotiations[nid := n.(rounds := n.rounds + 1)]))
  {
    r := RespondCheck(s.Snap(), actor, nid, text, price, acceptFinal);
    if r != Ok {
      return;
    }
    var n := s.negotiations[nid];
    var msg := Message(nid, actor.userId, Supplier, n.rounds, text, price, delivery, now);
    ghost var d := s.Snap();
    if acceptFinal {
      var offer := s.offers[n.offerId];
      var n' := n.(status := Completed, completedAt := Some(now));
      var offers := s.offers[n.offerId := offer.(status := FinalConfirmed, isLocked := true,
                                                 price := OrReal(price, offer.price),
                                                 deliveryTime := OrText(delivery, offer.deliveryTime))];
      TouchKeepsInv(d, nid, n', [msg], offers);
      LocksKeptByWrite(d.offers, n.offerId, offers[n.offerId]);
      s.messages := s.messages + [msg];
      s.negotiations := s.negotiations[nid := n'];
      s.offers := offers;
      AcceptedTermsAreCurrent(d.messages, msg, nid, OfferTerms(offer));
      assert s.Snap() == d.(negotiations := d.negotiations[nid := n'], messages := d.messages + [msg], offers := offers);
    } else {
      var n' := n.(rounds := n.rounds + 1);
      TouchKeepsInv(d, nid, n', [msg], d.offers);
      s.messages := s.messages + [msg];
      s.negotiations := s.negotiations[nid := n'];
      assert s.Snap() == d.(negotiations := d.negotiations[nid := n'], messages := d.messages + [msg], offers := d.offers);
    }
  }

  /** The checks of POST /api/negotiations/:id/admin-respond, in the handler's order. */
  function AdminRespondCheck(d: Db, actor: Actor, nid: Id, text: string, price: Option<real>): (r: Outcome)
    ensures r == Ok <==>
      && actor.role == Admin
      && ReplyValid(text, price)
      && nid in d.negotiations
      && d.negotiations[nid].status == Active
      && d.negotiations[nid].rounds < MaxRounds
  {
    if actor.role != Admin then Forbidden
    else if !ReplyValid(text, price) then BadRequest(InvalidInput)
    else if nid !in d.negotiations then NotFound
    else if d.negotiations[nid].status != Active then BadRequest(InvalidState)
    else if d.negotiations[nid].rounds >= MaxRounds then BadRequest(RoundLimit)
    else Ok
  }

  /** POST /api/negotiations/:id/admin-respond: the administrator's counter-proposal
      opens the next round. */
  method AdminRespond(s: Store, actor: Actor, nid: Id, text: string, price: Option<real>,
                      delivery: Option<string>, now: int) returns (r: Outcome)
    requires s.Valid()
    modifies s
    ensures s.Valid()
    ensures LocksKept(old(s.offers), s.offers)
    ensures r == AdminRespondCheck(old(s.Snap()), actor, nid, text, price)
    ensures r != Ok ==> unchanged(s)
    ensures r == Ok ==>
      var d := old(s.Snap());
      var n := d.negotiations[nid];
      s.Snap() == d.(
        messages := d.messages + [Message(nid, actor.userId, Admin, n.rounds + 1, text, price, delivery, now)],
        negotiations := d.negotiations[nid := n.(rounds := n.rounds + 1)])
  {
    r := AdminRespondCheck(s.Snap(), actor, nid, text, price);
    if r != Ok {
      return;
    }
    var n := s.negotiations[nid];
    s.messages := s.messages + [Message(nid, actor.userId, Admin, n.rounds + 1, text, price, delivery, now)];
    s.negotiations := s.negotiations[nid := n.(rounds := n.rounds + 1)];
  }

  /** The checks of PATCH /api/negotiations/:id/cancel, in the handler's order. */
  function CancelCheck(d: Db, actor: Actor, nid: Id): (r: Outcome)
    ensures r == Ok <==>
      actor.role == Admin && nid in d.negotiations && d.negotiations[nid].status == Active
      && d.negotiations[nid].offerId in d.offers
  {
    if actor.role != Admin then Forbidden
    else if nid !in d.negotiations then NotFound
    else if d.negotiations[nid].status != Active then BadRequest(InvalidState)
    else if d.negotiations[nid].offerId !in d.offers then Internal
    else Ok
  }

  /** PATCH /api/negotiations/:id/cancel: the negotiation is cancelled (its
      completion time is left as it was) and the offer returns to `under_review`. */
  method Cancel(s: Store, actor: Actor, nid: Id) returns (r: Outcome)
    requires s.Valid()
    modifies s
    ensures s.Valid()
    ensures LocksKept(old(s.offers), s.offers)
    ensures r == CancelCheck(old(s.Snap()), actor, nid)
    ensures r != Ok ==> unchanged(s)
    ensures r == Ok ==>
      var d := old(s.Snap());
      var n := d.negotiations[nid];
      s.Snap() == d.(
        negotiations := d.negotiations[nid := n.(status := Cancelled)],
        offers := d.offers[n.offerId := d.offers[n.offerId].(status := UnderReview)])
  {
    r := CancelCheck(s.Snap(), actor, nid);
    if r != Ok {
      return;
    }
    var n := s.negotiations[nid];
    s.negotiations := s.negotiations[nid := n.(status := Cancelled)];
    s.offers := s.offers[n.offerId := s.offers[n.offerId].(status := UnderReview)];
  }

  /** The checks of POST /api/negotiations/:id/reject, in the handler's order. */
  function RejectCheck(d: Db, actor: Actor, nid: Id): (r: Outcome)
    ensures r == Ok <==>
      && actor.role == Supplier
      && nid in d.negotiations
      && d.negotiations[nid].supplierId == actor.userId
      && d.negotiations[nid].status == Active
      && d.negotiations[nid].offerId in d.offers
  {
    if actor.role != Supplier then Forbidden
    else if nid !in d.negotiations then NotFound
    else if d.negotiations[nid].supplierId != actor.userId then Forbidden
    else if d.negotiations[nid].status != Active then BadRequest(InvalidState)
    else if d.negotiations[nid].offerId !in d.offers then Internal
    else Ok
  }

  /** POST /api/negotiations/:id/reject: an optional closing message at the
      current round, then the negotiation is cancelled with a completion time
      and the offer is rejected. */
  method Reject(s: Store, actor: Actor, nid: Id, text: Option<string>, now: int) returns (r: Outcome)
    requires s.Valid()
    modifies s
    ensures s.Valid()
    ensures LocksKept(old(s.offers), s.offers)
    ensures r == RejectCheck(old(s.Snap()), actor, nid)
    ensures r != Ok ==> unchanged(s)
    ensures r == Ok ==>
      var d := old(s.Snap());
      var n := d.negotiations[nid];
      s.Snap() == d.(
        messages := d.messages
          + (if TruthyText(text) then [Message(nid, actor.userId, Supplier, n.rounds, text.value, None, None, now)] else []),
        negotiations := d.negotiations[nid := n.(status := Cancelled, completedAt := Some(now))],
        offers := d.offers[n.offerId := d.offers[n.offerId].(status := Rejected)])
  {
    r := RejectCheck(s.Snap(), actor, nid);
    if r != Ok {
      return;
    }
    var n := s.negotiations[nid];
    ghost var d := s.Snap();
    var extra := if TruthyText(text) then [Message(nid, actor.userId, Supplier, n.rounds, text.value, None, None, now)] else [];
    var n' := n.(status := Cancelled, completedAt := Some(now));
    var offers := s.offers[n.offerId := s.offers[n.offerId].(status := Rejected)];
    TouchKeepsInv(d, nid, n', extra, offers);
    if TruthyText(text) {
      s.messages := s.messages + [Message(nid, actor.userId, Supplier, n.rounds, text.value, None, None, now)];
    }
    s.negotiations := s.negotiations[nid := n'];
    s.offers := offers;
    assert s.Snap() == d.(negotiations := d.negotiations[nid := n'], messages := d.messages + extra, offers := offers);
  }
}
