/** The mock "AI" around the gatekeeper: badges on a client's profile, the
    daily counts of gatekeeper statuses, and the colour of a risk level. */
module Score {
  import opened Wrappers
  import opened Domain
  import Seqs

  /** The badges, in the order they are listed. */
  datatype Badge = Premium | HighVolume | LongPartner | TopRevenue | HighSuccess | RisingStar | CreditWatch

  function Rank(b: Badge): (r: nat)
    ensures r < 7
  {
    match b
    case Premium => 0
    case HighVolume => 1
    case LongPartner => 2
    case TopRevenue => 3
    case HighSuccess => 4
    case RisingStar => 5
    case CreditWatch => 6
  }

  function Label(b: Badge): string {
    match b
    case Premium => "🏆 Client Premium"
    case HighVolume => "📈 Volum Mare"
    case LongPartner => "⭐ Partener Vechi"
    case TopRevenue => "💰 Top Venituri"
    case HighSuccess => "✅ Rată Succes 90%+"
    case RisingStar => "🚀 Rising Star"
    case CreditWatch => "⚠️ Credit Watch"
  }

  /** At least 90% of the client's finished RFQs completed. */
  predicate HighSuccessRate(p: Profile) {
    var completed := OrInt(p.completedRFQs, 0);
    var total := completed + OrInt(p.rejectedRFQs, 0);
    total > 0 && completed as real / total as real * 100.0 >= 90.0
  }

  /** When a profile earns a badge. */
  predicate Earns(p: Profile, b: Badge) {
    match b
    case Premium => TruthyReal(p.reputationScore) && p.reputationScore.value >= 4.8
    case HighVolume => TruthyInt(p.completedRFQs) && p.completedRFQs.value > 50
    case LongPartner => TruthyReal(p.companyAge) && p.companyAge.value > 15.0
    case TopRevenue => TruthyReal(p.annualRevenue) && p.annualRevenue.value > 10000000.0
    case HighSuccess => HighSuccessRate(p)
    case RisingStar =>
      TruthyReal(p.companyAge) && p.companyAge.value <= 3.0
      && TruthyReal(p.reputationScore) && p.reputationScore.value >= 4.0
    case CreditWatch => TruthyReal(p.reputationScore) && p.reputationScore.value < 3.5
  }

  /** The badge of rank `n`. */
  function BadgeAt(n: nat): (b: Badge)
    requires n < 7
    ensures Rank(b) == n
  {
    [Premium, HighVolume, LongPartner, TopRevenue, HighSuccess, RisingStar, CreditWatch][n]
  }

  /** The earned badges ranked below `n`, in rank order. */
  function EarnedBelow(p: Profile, n: nat): seq<Badge>
    requires n <= 7
  {
    if n == 0 then [] else EarnedBelow(p, n - 1) + (if Earns(p, BadgeAt(n - 1)) then [BadgeAt(n - 1)] else [])
  }

  /** The list below `n` holds exactly the earned badges ranked below `n`,
      with strictly increasing ranks. */
  lemma {:induction false} EarnedBelowSpec(p: Profile, n: nat)
    requires n <= 7
    ensures forall b :: b in EarnedBelow(p, n) <==> Earns(p, b) && Rank(b) < n
    ensures forall i :: 0 <= i < |EarnedBelow(p, n)| ==> Rank(EarnedBelow(p, n)[i]) < n
    ensures forall i, j :: 0 <= i < j < |EarnedBelow(p, n)| ==> Rank(EarnedBelow(p, n)[i]) < Rank(EarnedBelow(p, n)[j])
  {
    if n > 0 {
      EarnedBelowSpec(p, n - 1);
      forall b ensures b in EarnedBelow(p, n) <==> Earns(p, b) && Rank(b) < n {
        if Rank(b) == n - 1 {
          assert b == BadgeAt(n - 1);
        }
      }
    }
  }

  /** `generateClientBadges`: exactly the badges the profile earns, each once,
      in the fixed order. */
  method ClientBadges(p: Profile) returns (badges: seq<Badge>)
    ensures forall b :: b in badges <==> Earns(p, b)
    ensures forall i, j :: 0 <= i < j < |badges| ==> Rank(badges[i]) < Rank(badges[j])
  {
    badges := [];
    if TruthyReal(p.reputationScore) && p.reputationScore.value >= 4.8 {
      badges := badges + [Premium];
    }
    assert badges == EarnedBelow(p, 1);
    if TruthyInt(p.completedRFQs) && p.completedRFQs.value > 50 {
      badges := badges + [HighVolume];
    }
    assert badges == EarnedBelow(p, 2);
    if TruthyReal(p.companyAge) && p.companyAge.value > 15.0 {
      badges := badges + [LongPartner];
    }
    assert badges == EarnedBelow(p, 3);
    if TruthyReal(p.annualRevenue) && p.annualRevenue.value > 10000000.0 {
      badges := badges + [TopRevenue];
    }
    assert badges == EarnedBelow(p, 4);
    var completed := OrInt(p.completedRFQs, 0);
    var rejected := OrInt(p.rejectedRFQs, 0);
    var total := completed + rejected;
    if total > 0 {
      var successRate := completed as real / total as real * 100.0;
      if successRate >= 90.0 {
        badges := badges + [HighSuccess];
      }
    }
    assert badges == EarnedBelow(p, 5);
    if TruthyReal(p.companyAge) && p.companyAge.value <= 3.0
       && TruthyReal(p.reputationScore) && p.reputationScore.value >= 4.0 {
      badges := badges + [RisingStar];
    }
    assert badges == EarnedBelow(p, 6);
    if TruthyReal(p.reputationScore) && p.reputationScore.value < 3.5 {
      badges := badges + [CreditWatch];
    }
    assert badges == EarnedBelow(p, 7);
    AllEarned(p, badges);
  }

  lemma AllEarned(p: Profile, badges: seq<Badge>)
    requires badges == EarnedBelow(p, 7)
    ensures forall b :: b in badges <==> Earns(p, b)
    ensures forall i, j :: 0 <= i < j < |badges| ==> Rank(badges[i]) < Rank(badges[j])
  {
    EarnedBelowSpec(p, 7);
  }

  /** "Client Premium" and "Credit Watch" exclude each other, and so do
      "Partener Vechi" and "Rising Star". */
  lemma BadgesExclusive(p: Profile)
    ensures !(Earns(p, Premium) && Earns(p, CreditWatch))
    ensures !(Earns(p, LongPartner) && Earns(p, RisingStar))
  {
  }

  /** `generateDailyStats`, over the gatekeeper status texts of some RFQs. */
  datatype DailyStats = DailyStats(total: nat, autoApproved: nat, autoRejected: nat, flaggedHighRisk: nat, pending: nat)

  predicate IsApproved(g: Option<string>) { g == Some("auto_approved") }
  predicate IsRejected(g: Option<string>) { g == Some("auto_rejected") }
  predicate IsFlagged(g: Option<string>) { g == Some("flagged_high_risk") }
  /** No status (null or empty) or `pending`. */
  predicate IsPending(g: Option<string>) { !TruthyText(g) || g == Some("pending") }

  function DailyStatsOf(statuses: seq<Option<string>>): (r: DailyStats)
    ensures r.total == |statuses|
    ensures r.autoApproved + r.autoRejected + r.flaggedHighRisk + r.pending <= r.total
    ensures r.autoApproved == |Seqs.Filter(statuses, IsApproved)|
    ensures r.autoRejected == |Seqs.Filter(statuses, IsRejected)|
    ensures r.flaggedHighRisk == |Seqs.Filter(statuses, IsFlagged)|
    ensures r.pending == |Seqs.Filter(statuses, IsPending)|
  {
    DisjointCounts(statuses);
    Seqs.CountIsFilterLength(statuses, IsApproved);
    Seqs.CountIsFilterLength(statuses, IsRejected);
    Seqs.CountIsFilterLength(statuses, IsFlagged);
    Seqs.CountIsFilterLength(statuses, IsPending);
    DailyStats(|statuses|, Seqs.Count(statuses, IsApproved), Seqs.Count(statuses, IsRejected),
               Seqs.Count(statuses, IsFlagged), Seqs.Count(statuses, IsPending))
  }

  /** The four statuses counted are disjoint, so the counts add up to at most the total. */
  lemma {:induction false} DisjointCounts(statuses: seq<Option<string>>)
    ensures Seqs.Count(statuses, IsApproved) + Seqs.Count(statuses, IsRejected)
          + Seqs.Count(statuses, IsFlagged) + Seqs.Count(statuses, IsPending) <= |statuses|
  {
    if statuses != [] {
      DisjointCounts(statuses[1..]);
    }
  }

  /** `getRiskIndicators`: the emoji and colour for a risk level. */
  function RiskIndicators(level: string): (r: (string, string))
    ensures r.1 == "red" <==> level == "high_risk"
    ensures r.1 == "yellow" <==> level == "high_value"
    ensures r.1 == "green" <==> level != "high_risk" && level != "high_value"
  {
    if level == "high_risk" then ("🔴", "red")
    else if level == "high_value" then ("🟡", "yellow")
    else ("🟢", "green")
  }
}
