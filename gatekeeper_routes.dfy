/** The administrator's gatekeeper routes: statistics over the gatekeeper's
    decisions, the lists of rejected and high-risk RFQs and of log entries,
    manual re-evaluation and deletion of rejected RFQs, and the action
    endpoint behind the Telegram buttons. */
module GatekeeperRoutes {
  import opened Wrappers
  import opened Domain
  import opened Store
  import Seqs
  import Rfqs
  import Filters
  import Service

  /** The RFQs carrying gatekeeper status `g`. */
  function WithGate(rfqs: map<Id, Rfq>, g: GateStatus): (r: set<Id>)
    ensures forall k :: k in r <==> k in rfqs && rfqs[k].gatekeeperStatus == g
  {
    set k | k in rfqs && rfqs[k].gatekeeperStatus == g
  }

  /** Not yet seen by the gatekeeper: no status or `pending`. */
  predicate Undecided(g: GateStatus) {
    g == Unset || g == Pending
  }

  function UndecidedRfqs(rfqs: map<Id, Rfq>): (r: set<Id>)
    ensures forall k :: k in r <==> k in rfqs && Undecided(rfqs[k].gatekeeperStatus)
  {
    set k | k in rfqs && Undecided(rfqs[k].gatekeeperStatus)
  }

  /** The RFQs created at or after `since`. */
  function CreatedSince(rfqs: map<Id, Rfq>, since: int): (r: map<Id, Rfq>)
    ensures r.Keys <= rfqs.Keys
    ensures forall k :: k in r <==> k in rfqs && rfqs[k].createdAt >= since
    ensures forall k :: k in r ==> r[k] == rfqs[k]
  {
    map k | k in rfqs && rfqs[k].createdAt >= since :: rfqs[k]
  }

  datatype Buckets = Buckets(total: nat, approved: nat, rejected: nat, flagged: nat)

  datatype Stats = Stats(overall: Buckets, pending: nat, lastDay: Buckets)

  function Bucket(rfqs: map<Id, Rfq>): Buckets {
    Buckets(|rfqs|, |WithGate(rfqs, Decided(AutoApproved))|, |WithGate(rfqs, Decided(AutoRejected))|,
            |WithGate(rfqs, Decided(FlaggedHighRisk))|)
  }

  /** GET /api/poc/gatekeeper/stats. `since` is the instant one calendar day
      before the request. */
  function GetStats(d: Db, actor: Actor, since: int): (res: (Outcome, Option<Stats>))
    ensures res.0 == Ok <==> actor.role == Admin
    ensures res.0 == Ok <==> res.1.Some?
  {
    if actor.role != Admin then (Forbidden, None)
    else (Ok, Some(Stats(Bucket(d.rfqs), |UndecidedRfqs(d.rfqs)|, Bucket(CreatedSince(d.rfqs, since)))))
  }

  /** The four buckets of the overall statistics are disjoint, so together
      they count no more RFQs than there are. */
  lemma {:induction false} BucketsWithinTotal(rfqs: map<Id, Rfq>)
    ensures var b := Bucket(rfqs);
      b.approved + b.rejected + b.flagged + |UndecidedRfqs(rfqs)| <= b.total
  {
    var a := WithGate(rfqs, Decided(AutoApproved));
    var r := WithGate(rfqs, Decided(AutoRejected));
    var f := WithGate(rfqs, Decided(FlaggedHighRisk));
    var p := UndecidedRfqs(rfqs);
    assert a * r == {} && (a + r) * f == {} && (a + r + f) * p == {};
    assert |a + r| == |a| + |r|;
    assert |a + r + f| == |a + r| + |f|;
    assert |a + r + f + p| == |a + r + f| + |p|;
    Seqs.SubsetCard(a + r + f + p, rfqs.Keys);
  }

  /** Each count of the last day is at most the overall one. */
  lemma LastDayWithinOverall(rfqs: map<Id, Rfq>, since: int)
    ensures var day := Bucket(CreatedSince(rfqs, since));
      var all := Bucket(rfqs);
      day.total <= all.total && day.approved <= all.approved
      && day.rejected <= all.rejected && day.flagged <= all.flagged
  {
    var recent := CreatedSince(rfqs, since);
    Seqs.SubsetCard(recent.Keys, rfqs.Keys);
    Seqs.SubsetCard(WithGate(recent, Decided(AutoApproved)), WithGate(rfqs, Decided(AutoApproved)));
    Seqs.SubsetCard(WithGate(recent, Decided(AutoRejected)), WithGate(rfqs, Decided(AutoRejected)));
    Seqs.SubsetCard(WithGate(recent, Decided(FlaggedHighRisk)), WithGate(rfqs, Decided(FlaggedHighRisk)));
  }

  /** GET /api/poc/gatekeeper/auto-rejected and /high-risk: the RFQs the
      gatekeeper rejected, respectively flagged. */
  function ListDecided(d: Db, actor: Actor, decision: Decision): (res: (Outcome, set<Id>))
    ensures res.0 == Ok <==> actor.role == Admin
    ensures res.0 == Ok ==> forall k :: k in res.1 <==> k in d.rfqs && d.rfqs[k].gatekeeperStatus == Decided(decision)
    ensures res.0 != Ok ==> res.1 == {}
  {
    if actor.role != Admin then (Forbidden, {}) else (Ok, WithGate(d.rfqs, Decided(decision)))
  }

  /** GET /api/poc/gatekeeper/logs: the hundred newest log entries, newest first. */
  function RecentLogs(d: Db, actor: Actor): (res: (Outcome, seq<GateLog>))
    ensures res.0 == Ok <==> actor.role == Admin
    ensures |res.1| <= 100
    ensures Seqs.SortedDesc(res.1, (l: GateLog) => l.processedAt as real)
    ensures multiset(res.1) <= multiset(d.logs)
    ensures res.0 == Ok ==> |res.1| == if |d.logs| < 100 then |d.logs| else 100
    ensures res.0 == Ok && |d.logs| <= 100 ==> multiset(res.1) == multiset(d.logs)
    ensures res.0 == Ok ==> forall x :: x in d.logs && x !in res.1 ==>
              forall k :: 0 <= k < |res.1| ==> x.processedAt <= res.1[k].processedAt
  {
    if actor.role != Admin then (Forbidden, [])
    else
      var key := (l: GateLog) => l.processedAt as real;
      var r := Seqs.TopN(d.logs, 100, key);
      (Ok, r)
  }

  /** The checks of re-evaluate: the RFQ must exist; its status is not looked at. */
  function ReEvaluateCheck(d: Db, actor: Actor, id: Id): (r: Outcome)
    ensures r == Ok <==> actor.role == Admin && id in d.rfqs
  {
    if actor.role != Admin then Forbidden
    else if id !in d.rfqs then NotFound
    else Ok
  }

  /** POST /api/poc/gatekeeper/re-evaluate/:rfqId: the RFQ is published and
      marked approved, whatever it was. */
  method ReEvaluate(s: Store, actor: Actor, id: Id, now: int) returns (r: Outcome)
    requires s.Valid()
    modifies s
    ensures s.Valid()
    ensures LocksKept(old(s.offers), s.offers)
    ensures r == ReEvaluateCheck(old(s.Snap()), actor, id)
    ensures r != Ok ==> unchanged(s)
    ensures r == Ok ==> s.Snap() == old(s.Snap()).(rfqs := old(s.rfqs)[id := Rfqs.MarkApproved(old(s.rfqs)[id], now)])
  {
    r := ReEvaluateCheck(s.Snap(), actor, id);
    if r != Ok {
      return;
    }
    s.rfqs := s.rfqs[id := Rfqs.MarkApproved(s.rfqs[id], now)];
  }

  /** The checks of delete-rejected, in the handler's order. */
  function DeleteRejectedCheck(d: Db, actor: Actor, id: Id): (r: Outcome)
    ensures r == Ok <==> actor.role == Admin && id in d.rfqs && d.rfqs[id].gatekeeperStatus == Decided(AutoRejected)
    ensures actor.role == Admin && id in d.rfqs && d.rfqs[id].gatekeeperStatus != Decided(AutoRejected)
      ==> r == BadRequest(InvalidState)
  {
    if actor.role != Admin then Forbidden
    else if id !in d.rfqs then NotFound
    else if d.rfqs[id].gatekeeperStatus != Decided(AutoRejected) then BadRequest(InvalidState)
    else Ok
  }

  /** DELETE /api/poc/gatekeeper/delete-rejected/:rfqId removes an auto-rejected RFQ. */
  method DeleteRejected(s: Store, actor: Actor, id: Id) returns (r: Outcome)
    requires s.Valid()
    modifies s
    ensures s.Valid()
    ensures LocksKept(old(s.offers), s.offers)
    ensures r == DeleteRejectedCheck(old(s.Snap()), actor, id)
    ensures r != Ok ==> unchanged(s)
    ensures r == Ok ==> s.Snap() == old(s.Snap()).(rfqs := old(s.rfqs) - {id})
  {
    r := DeleteRejectedCheck(s.Snap(), actor, id);
    if r != Ok {
      return;
    }
    s.rfqs := s.rfqs - {id};
  }

  /** POST /api/poc/gatekeeper/process/:rfqId: runs the gatekeeper on one
      RFQ; a missing RFQ makes the service throw, answered with 500. */
  method Process(s: Store, actor: Actor, id: Id, sups: seq<Filters.SupplierRow>, now: int) returns (r: Outcome)
    requires s.Valid() && Service.SupplierRowsOf(s.users, sups)
    modifies s
    ensures s.Valid()
    ensures LocksKept(old(s.offers), s.offers)
    ensures r == Ok <==> actor.role == Admin && id in old(s.rfqs)
    ensures actor.role == Admin && id !in old(s.rfqs) ==> r == Internal
    ensures r != Ok ==> unchanged(s)
    ensures r == Ok ==> s.Snap() == Service.AfterProcess(old(s.Snap()), id, sups, now)
  {
    if actor.role != Admin {
      r := Forbidden;
      return;
    }
    r := Service.ProcessManually(s, id, sups, now);
  }

  datatype TelegramAction = Publish | Reject | Negotiate

  /** The action names the endpoint accepts. */
  function ParseTelegramAction(w: string): (r: Option<TelegramAction>)
    ensures r.Some? <==> w == "publish" || w == "reject" || w == "negotiate"
  {
    if w == "publish" then Some(Publish)
    else if w == "reject" then Some(Reject)
    else if w == "negotiate" then Some(Negotiate)
    else None
  }

  /** The checks of POST /api/poc/telegram-action. `rfqId` is `None` when
      the body's identifier is not well formed. */
  function ActionCheck(d: Db, actor: Actor, action: string, rfqId: Option<Id>): (r: Outcome)
    ensures r == Ok <==>
      actor.role == Admin && ParseTelegramAction(action).Some? && rfqId.Some? && rfqId.value in d.rfqs
  {
    if actor.role != Admin then Forbidden
    else if ParseTelegramAction(action).None? || rfqId.None? then BadRequest(InvalidInput)
    else if rfqId.value !in d.rfqs then NotFound
    else Ok
  }

  /** The RFQ after a Telegram action: `publish` publishes it but leaves the
      gatekeeper status, `reject` sets only the gatekeeper status, and
      `negotiate` is a placeholder that changes nothing. */
  function AfterAction(r: Rfq, action: TelegramAction, now: int): (r': Rfq)
    ensures action == Negotiate ==> r' == r
    ensures action == Reject ==> r'.status == r.status && r'.gatekeeperStatus == Decided(AutoRejected)
    ensures action == Publish ==> r'.status == Published && r'.gatekeeperStatus == r.gatekeeperStatus
  {
    match action
    case Publish => Rfqs.MarkPublished(r, now)
    case Reject => r.(gatekeeperStatus := Decided(AutoRejected))
    case Negotiate => r
  }

  /** POST /api/poc/telegram-action. */
  method Action(s: Store, actor: Actor, action: string, rfqId: Option<Id>, now: int) returns (r: Outcome)
    requires s.Valid()
    modifies s
    ensures s.Valid()
    ensures LocksKept(old(s.offers), s.offers)
    ensures r == ActionCheck(old(s.Snap()), actor, action, rfqId)
    ensures r != Ok ==> unchanged(s)
    ensures r == Ok ==>
      var id := rfqId.value;
      s.Snap() == old(s.Snap()).(rfqs := old(s.rfqs)[id := AfterAction(old(s.rfqs)[id], ParseTelegramAction(action).value, now)])
  {
    r := ActionCheck(s.Snap(), actor, action, rfqId);
    if r != Ok {
      return;
    }
    var id := rfqId.value;
    s.rfqs := s.rfqs[id := AfterAction(s.rfqs[id], ParseTelegramAction(action).value, now)];
  }
}
