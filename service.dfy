/** The gatekeeper service: while running it polls for draft RFQs the
    gatekeeper has not yet seen, decides each one, records the decision on
    the RFQ and in the log, and notifies the administrator; once a day it
    purges RFQs rejected more than a week ago. */
module Service {
  import opened Wrappers
  import opened Domain
  import opened Store
  import Filters

  /** The service's module state: whether it runs, and whether polling is scheduled. */
  class GatekeeperService {
    var running: bool
    var polling: bool

    constructor ()
      ensures !running && !polling
    {
      running, polling := false, false;
    }

    /** `startGatekeeperService`: a second start is a no-op, and so is a start
        without the bot's credentials (`configured`). */
    method Start(configured: bool)
      modifies this
      ensures old(running) || !configured ==> running == old(running) && polling == old(polling)
      ensures !old(running) && configured ==> running && polling
    {
      if running {
        return;
      }
      if !configured {
        return;
      }
      polling := true;
      running := true;
    }

    /** `stopGatekeeperService`. */
    method Stop()
      modifies this
      ensures !running && !polling
    {
      polling := false;
      running := false;
    }
  }

  /** Starting twice leaves the service as the first start left it. */
  method StartTwice(g: GatekeeperService, configured: bool)
    modifies g
    ensures g.running == (old(g.running) || configured)
    ensures g.polling == (if old(g.running) || !configured then old(g.polling) else true)
  {
    g.Start(configured);
    var running, polling := g.running, g.polling;
    g.Start(configured);
    assert g.running == running && g.polling == polling;
  }

  /** An RFQ the poll picks up: a draft the gatekeeper has no decision for. */
  predicate Eligible(r: Rfq) {
    r.status == Draft && (r.gatekeeperStatus == Unset || r.gatekeeperStatus == Pending)
  }

  /** The rows one poll reads: at most ten distinct eligible RFQs, all of them
      when there are fewer; the database picks which. */
  predicate IsBatch(d: Db, batch: seq<Id>) {
    && |batch| <= 10
    && (forall i, j :: 0 <= i < j < |batch| ==> batch[i] != batch[j])
    && (forall i :: 0 <= i < |batch| ==> batch[i] in d.rfqs && Eligible(d.rfqs[batch[i]]))
    && (|batch| < 10 ==> forall k :: k in d.rfqs && Eligible(d.rfqs[k]) ==> k in batch)
  }

  /** The supplier rows `processRFQ` reads: one per supplier account, in
      whatever order the database returns them. */
  predicate SupplierRowsOf(users: map<Id, User>, sups: seq<Filters.SupplierRow>) {
    && (forall i, j :: 0 <= i < j < |sups| ==> sups[i].id != sups[j].id)
    && (forall i :: 0 <= i < |sups| ==>
          && sups[i].id in users && users[sups[i].id].role == Supplier
          && sups[i].categoryExpertise == users[sups[i].id].profile.categoryExpertise
          && sups[i].reputationScore == users[sups[i].id].profile.reputationScore)
    && (forall k :: k in users && users[k].role == Supplier ==> exists i :: 0 <= i < |sups| && sups[i].id == k)
  }

  /** The RFQ after the gatekeeper's decision; the explanatory text is not modelled. */
  function Decided(r: Rfq, v: Filters.Verdict, suggested: seq<Id>, now: int): (r': Rfq)
    ensures r'.gatekeeperStatus == GateStatus.Decided(v.decision) && r'.riskLevel == Some(v.riskLevel)
    ensures r'.aiConfidenceScore == Some(v.aiScore) && r'.autoProcessedAt == Some(now)
    ensures r'.status == r.status && r'.clientId == r.clientId && r'.budget == r.budget
  {
    r.(gatekeeperStatus := GateStatus.Decided(v.decision), riskLevel := Some(v.riskLevel),
       autoProcessedAt := Some(now), aiConfidenceScore := Some(v.aiScore), suggestedSuppliers := suggested)
  }

  /** The verdict on RFQ `id` and the suppliers suggested for it. */
  function VerdictOn(d: Db, id: Id): Filters.Verdict
    requires id in d.rfqs && d.rfqs[id].clientId in d.users
  {
    Filters.Evaluate(d.rfqs[id].budget, d.users[d.rfqs[id].clientId].profile)
  }

  function SuggestedFor(d: Db, id: Id, sups: seq<Filters.SupplierRow>): seq<Id>
    requires id in d.rfqs && d.rfqs[id].clientId in d.users
  {
    Filters.SuggestSuppliers(OrText(d.users[d.rfqs[id].clientId].profile.categoryExpertise, ""), sups)
  }

  /** Given the rows of the supplier accounts, every supplier suggested for an
      RFQ is a supplier account. */
  lemma SuggestedAreSuppliers(d: Db, id: Id, sups: seq<Filters.SupplierRow>)
    requires id in d.rfqs && d.rfqs[id].clientId in d.users
    requires SupplierRowsOf(d.users, sups)
    ensures forall k :: k in SuggestedFor(d, id, sups) ==> k in d.users && d.users[k].role == Supplier
  {
    var r := SuggestedFor(d, id, sups);
    forall k | k in r ensures k in d.users && d.users[k].role == Supplier {
      var i :| 0 <= i < |r| && r[i] == k;
      var row :| row in sups && row.id == r[i] && Filters.Matches(Filters.Keywords(OrText(d.users[d.rfqs[id].clientId].profile.categoryExpertise, "")), row);
      var j :| 0 <= j < |sups| && sups[j] == row;
    }
  }

  /** The database after `processRFQ` on RFQ `id`. */
  function AfterProcess(d: Db, id: Id, sups: seq<Filters.SupplierRow>, now: int): (d': Db)
    requires id in d.rfqs
    ensures d'.rfqs.Keys == d.rfqs.Keys && d'.users == d.users
  {
    var r := d.rfqs[id];
    if r.clientId !in d.users then d
    else
      var client := d.users[r.clientId].profile;
      var v := VerdictOn(d, id);
      var entry := GateLog(id, v.decision, v.aiScore, v.riskLevel, client.reputationScore, r.budget, now);
      d.(rfqs := d.rfqs[id := Decided(r, v, SuggestedFor(d, id, sups), now)], logs := d.logs + [entry])
  }

  /** With its client present, the decision is written to the RFQ and one
      log entry carrying it is appended; without one, the evaluation fails
      and nothing is written. No other RFQ and no other table changes. */
  lemma ProcessEffect(d: Db, id: Id, sups: seq<Filters.SupplierRow>, now: int)
    requires id in d.rfqs
    ensures var d' := AfterProcess(d, id, sups, now);
      && (forall k :: k in d.rfqs && k != id ==> d'.rfqs[k] == d.rfqs[k])
      && d'.offers == d.offers && d'.orders == d.orders
      && d'.negotiations == d.negotiations && d'.messages == d.messages && d'.nextId == d.nextId
      && d'.rfqs[id].clientId == d.rfqs[id].clientId
      && (d.rfqs[id].clientId !in d.users ==> d' == d)
      && (d.rfqs[id].clientId in d.users ==>
        && d'.rfqs[id].gatekeeperStatus == GateStatus.Decided(VerdictOn(d, id).decision)
        && |d'.logs| == |d.logs| + 1
        && d'.logs[..|d.logs|] == d.logs
        && d'.logs[|d.logs|].rfqId == id
        && d'.logs[|d.logs|].decision == VerdictOn(d, id).decision)
  {
    var d' := AfterProcess(d, id, sups, now);
    if d.rfqs[id].clientId in d.users {
      assert d'.logs[..|d.logs|] == d.logs;
    }
  }

  /** Which Telegram message goes to the administrator. */
  datatype Notification = NormalNote | HighValueNote | HighRiskNote | RejectedNote

  /** `sendTelegramNotification`, sent only when the verdict asks for it. */
  function NotificationFor(v: Filters.Verdict): (n: Option<Notification>)
    ensures n.None? <==> !v.notifyAdmin
    ensures n == Some(HighValueNote) <==> v.notifyAdmin && v.decision == AutoApproved && v.riskLevel == HighValue
    ensures n == Some(NormalNote) <==> v.notifyAdmin && v.decision == AutoApproved && v.riskLevel != HighValue
    ensures n == Some(HighRiskNote) <==> v.notifyAdmin && v.decision == FlaggedHighRisk
    ensures n == Some(RejectedNote) <==> v.notifyAdmin && v.decision == AutoRejected
  {
    if !v.notifyAdmin then None
    else match v.decision
      case AutoApproved => if v.riskLevel == HighValue then Some(HighValueNote) else Some(NormalNote)
      case FlaggedHighRisk => Some(HighRiskNote)
      case AutoRejected => Some(RejectedNote)
  }

  /** The administrator hears of every RFQ except those below the minimum
      value, and of high-value ones exactly when a trusted client asks for
      more than the high-value threshold. */
  lemma NotifiedUnlessLowValue(budget: Option<real>, p: Profile)
    ensures NotificationFor(Filters.Evaluate(budget, p)).None? <==> Filters.RfqValue(budget) < Filters.MinRfqValue
    ensures NotificationFor(Filters.Evaluate(budget, p)) == Some(HighValueNote) <==>
      Filters.RfqValue(budget) > Filters.HighValueThreshold && Filters.Reputation(p) >= Filters.MinReputation
  {
  }

  /** `processRFQ`: decides RFQ `id`, records the decision and says which
      notification, if any, is sent. */
  method ProcessRfq(s: Store, id: Id, sups: seq<Filters.SupplierRow>, now: int) returns (note: Option<Notification>)
    requires s.Valid() && id in s.rfqs && SupplierRowsOf(s.users, sups)
    modifies s
    ensures s.Valid()
    ensures LocksKept(old(s.offers), s.offers)
    ensures s.Snap() == AfterProcess(old(s.Snap()), id, sups, now)
    ensures old(s.rfqs[id].clientId) in old(s.users) ==>
      forall k :: k in s.rfqs[id].suggestedSuppliers ==> k in s.users && s.users[k].role == Supplier
    ensures note.Some? ==> old(s.rfqs[id].clientId) in old(s.users)
    ensures old(s.rfqs[id].clientId) in old(s.users) ==> note == NotificationFor(VerdictOn(old(s.Snap()), id))
  {
    var r := s.rfqs[id];
    if r.clientId !in s.users {
      note := None;
      return;
    }
    var d := s.Snap();
    SuggestedAreSuppliers(d, id, sups);
    var client := s.users[r.clientId].profile;
    var v := Filters.Evaluate(r.budget, client);
    var suggested := Filters.SuggestSuppliers(OrText(client.categoryExpertise, ""), sups);
    s.rfqs := s.rfqs[id := Decided(r, v, suggested, now)];
    s.logs := s.logs + [GateLog(id, v.decision, v.aiScore, v.riskLevel, client.reputationScore, r.budget, now)];
    note := NotificationFor(v);
  }

  /** The database after processing a batch in order; `clock[i]` is the time
      at which its `i`-th RFQ is processed. */
  function AfterBatch(d: Db, batch: seq<Id>, sups: seq<Filters.SupplierRow>, clock: seq<int>): (d': Db)
    requires |clock| == |batch|
    requires forall i :: 0 <= i < |batch| ==> batch[i] in d.rfqs
    ensures d'.rfqs.Keys == d.rfqs.Keys && d'.users == d.users
    decreases |batch|
  {
    if batch == [] then d
    else
      var n := |batch| - 1;
      var before := AfterBatch(d, batch[..n], sups, clock[..n]);
      AfterProcess(before, batch[n], sups, clock[n])
  }

  /** Processing a batch touches only the batch's RFQs and adds one log
      entry per RFQ whose client exists. */
  lemma {:induction false} AfterBatchFrame(d: Db, batch: seq<Id>, sups: seq<Filters.SupplierRow>, clock: seq<int>)
    requires |clock| == |batch|
    requires forall i :: 0 <= i < |batch| ==> batch[i] in d.rfqs
    ensures var d' := AfterBatch(d, batch, sups, clock);
      && (forall k :: k in d.rfqs && k !in batch ==> d'.rfqs[k] == d.rfqs[k])
      && |d.logs| <= |d'.logs| <= |d.logs| + |batch|
      && d'.logs[..|d.logs|] == d.logs
      && d'.offers == d.offers && d'.orders == d.orders && d'.negotiations == d.negotiations
    decreases |batch|
  {
    if batch != [] {
      var n := |batch| - 1;
      AfterBatchFrame(d, batch[..n], sups, clock[..n]);
      var before := AfterBatch(d, batch[..n], sups, clock[..n]);
      ProcessEffect(before, batch[n], sups, clock[n]);
      forall k | k in d.rfqs && k !in batch ensures AfterBatch(d, batch, sups, clock).rfqs[k] == d.rfqs[k] {
        assert k !in batch[..n];
        assert k != batch[n];
      }
      var after := AfterBatch(d, batch, sups, clock);
      assert after.logs[..|d.logs|] == before.logs[..|d.logs|] by {
        assert after.logs[..|before.logs|] == before.logs;
        assert |before.logs| >= |d.logs|;
      }
    }
  }

  /** After a batch, every RFQ of it whose client exists carries a gatekeeper
      decision: none is left undecided. */
  lemma {:induction false} AfterBatchDecides(d: Db, batch: seq<Id>, sups: seq<Filters.SupplierRow>, clock: seq<int>, k: Id)
    requires |clock| == |batch|
    requires forall i :: 0 <= i < |batch| ==> batch[i] in d.rfqs
    requires k in batch && d.rfqs[k].clientId in d.users
    ensures AfterBatch(d, batch, sups, clock).rfqs[k].gatekeeperStatus.Decided?
    decreases |batch|
  {
    var n := |batch| - 1;
    var before := AfterBatch(d, batch[..n], sups, clock[..n]);
    AfterBatchClients(d, batch[..n], sups, clock[..n]);
    ProcessEffect(before, batch[n], sups, clock[n]);
    if batch[n] == k {
    } else {
      assert k in batch[..n];
      AfterBatchDecides(d, batch[..n], sups, clock[..n], k);
      assert before.rfqs[k].gatekeeperStatus.Decided?;
    }
  }

  /** Processing never changes an RFQ's client. */
  lemma {:induction false} AfterBatchClients(d: Db, batch: seq<Id>, sups: seq<Filters.SupplierRow>, clock: seq<int>)
    requires |clock| == |batch|
    requires forall i :: 0 <= i < |batch| ==> batch[i] in d.rfqs
    ensures forall k :: k in d.rfqs ==> AfterBatch(d, batch, sups, clock).rfqs[k].clientId == d.rfqs[k].clientId
    decreases |batch|
  {
    if batch != [] {
      var n := |batch| - 1;
      AfterBatchClients(d, batch[..n], sups, clock[..n]);
      ProcessEffect(AfterBatch(d, batch[..n], sups, clock[..n]), batch[n], sups, clock[n]);
    }
  }

  /** `checkForNewRFQs`: the polled batch is processed. */
  method CheckForNewRfqs(s: Store, batch: seq<Id>, sups: seq<Filters.SupplierRow>, clock: seq<int>)
    requires s.Valid() && IsBatch(s.Snap(), batch) && |clock| == |batch| && SupplierRowsOf(s.users, sups)
    modifies s
    ensures s.Valid()
    ensures LocksKept(old(s.offers), s.offers)
    ensures s.Snap() == AfterBatch(old(s.Snap()), batch, sups, clock)
  {
    ProcessInOrder(s, batch, sups, clock);
  }

  /** The loop of `checkForNewRFQs`: the RFQs of the batch are processed one
      at a time, in order. */
  method ProcessInOrder(s: Store, batch: seq<Id>, sups: seq<Filters.SupplierRow>, clock: seq<int>)
    requires s.Valid() && |clock| == |batch| && SupplierRowsOf(s.users, sups)
    requires forall i :: 0 <= i < |batch| ==> batch[i] in s.rfqs
    modifies s
    ensures s.Valid()
    ensures LocksKept(old(s.offers), s.offers)
    ensures s.Snap() == AfterBatch(old(s.Snap()), batch, sups, clock)
  {
    ghost var d := s.Snap();
    var i := 0;
    while i < |batch|
      invariant 0 <= i <= |batch|
      invariant s.Valid()
      invariant s.Snap() == AfterBatch(d, batch[..i], sups, clock[..i])
      invariant s.users == d.users
      invariant s.offers == d.offers
    {
      ghost var next := AfterBatch(d, batch[..i + 1], sups, clock[..i + 1]);
      AfterBatchStep(d, batch, sups, clock, i);
      var note := ProcessRfq(s, batch[i], sups, clock[i]);
      assert s.Snap() == next;
      i := i + 1;
    }
    assert batch[..i] == batch;
    assert clock[..i] == clock;
  }

  /** One more iteration of the loop is one more RFQ processed. */
  lemma AfterBatchStep(d: Db, batch: seq<Id>, sups: seq<Filters.SupplierRow>, clock: seq<int>, i: nat)
    requires |clock| == |batch| && i < |batch|
    requires forall j :: 0 <= j < |batch| ==> batch[j] in d.rfqs
    ensures batch[i] in AfterBatch(d, batch[..i], sups, clock[..i]).rfqs
    ensures AfterBatch(d, batch[..i + 1], sups, clock[..i + 1])
         == AfterProcess(AfterBatch(d, batch[..i], sups, clock[..i]), batch[i], sups, clock[i])
  {
    assert batch[..i + 1][..i] == batch[..i];
    assert clock[..i + 1][..i] == clock[..i];
  }

  /** An RFQ the purge removes: rejected by the gatekeeper and processed
      before `cutoff`; one never processed is kept. */
  predicate Stale(r: Rfq, cutoff: int) {
    r.gatekeeperStatus == GateStatus.Decided(AutoRejected) && r.autoProcessedAt.Some? && r.autoProcessedAt.value < cutoff
  }

  /** `deleteOldRejectedRFQs`: `cutoff` is the instant seven calendar days
      before now. */
  method PurgeOldRejected(s: Store, cutoff: int) returns (count: nat)
    requires s.Valid()
    modifies s
    ensures s.Valid()
    ensures LocksKept(old(s.offers), s.offers)
    ensures forall k :: k in s.rfqs <==> k in old(s.rfqs) && !Stale(old(s.rfqs)[k], cutoff)
    ensures forall k :: k in s.rfqs ==> s.rfqs[k] == old(s.rfqs)[k]
    ensures s.Snap() == old(s.Snap()).(rfqs := s.rfqs)
    ensures count == |old(s.rfqs)| - |s.rfqs|
  {
    var kept := map k | k in s.rfqs && !Stale(s.rfqs[k], cutoff) :: s.rfqs[k];
    var removed := set k | k in s.rfqs && Stale(s.rfqs[k], cutoff);
    assert s.rfqs.Keys == kept.Keys + removed && kept.Keys * removed == {};
    count := |removed|;
    s.rfqs := kept;
  }

  /** `processRFQManually`: a missing RFQ is an error; any other RFQ is
      processed, whatever its status. */
  method ProcessManually(s: Store, id: Id, sups: seq<Filters.SupplierRow>, now: int) returns (r: Outcome)
    requires s.Valid() && SupplierRowsOf(s.users, sups)
    modifies s
    ensures s.Valid()
    ensures LocksKept(old(s.offers), s.offers)
    ensures r == Ok <==> id in old(s.rfqs)
    ensures r != Ok ==> r == Internal && unchanged(s)
    ensures r == Ok ==> s.Snap() == AfterProcess(old(s.Snap()), id, sups, now)
  {
    if id !in s.rfqs {
      r := Internal;
      return;
    }
    var note := ProcessRfq(s, id, sups, now);
    r := Ok;
  }
}
