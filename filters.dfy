/** The gatekeeper's eligibility rules: the decision on a new RFQ from its
    budget and its client's profile, the suppliers to suggest for a category,
    and a client's trust score. */
module Filters {
  import opened Wrappers
  import opened Domain
  import Text
  import Seqs

  /** The thresholds, at their default values. */
  const MinRfqValue := 100000.0
  const HighValueThreshold := 2000000.0
  const MinReputation := 4.0
  const MinFinancialScore := 70.0
  const MinCompletedRfqs := 3

  /** The gatekeeper's decision; the explanatory text is not modelled. */
  datatype Verdict = Verdict(decision: Decision, riskLevel: RiskLevel, aiScore: int, notifyAdmin: bool)

  /** The figures the rules read; a missing or zero figure counts as 0. */
  function RfqValue(budget: Option<real>): real { OrReal(budget, 0.0) }
  function Reputation(p: Profile): real { OrReal(p.reputationScore, 0.0) }
  function Financial(p: Profile): real { OrReal(p.financialScore, 0.0) }
  function Completed(p: Profile): int { OrInt(p.completedRFQs, 0) }

  /** `evaluateRFQ`: the first matching rule decides. */
  function Evaluate(budget: Option<real>, p: Profile): (v: Verdict)
    ensures v.riskLevel == HighRisk <==> v.decision == FlaggedHighRisk
    ensures v.riskLevel == HighValue ==> v.decision == AutoApproved
    ensures v.decision == FlaggedHighRisk <==> RfqValue(budget) > HighValueThreshold && Reputation(p) < MinReputation
    ensures v.decision == AutoApproved <==>
      && RfqValue(budget) >= MinRfqValue
      && (Reputation(p) >= MinReputation
          || (RfqValue(budget) <= HighValueThreshold && Financial(p) >= MinFinancialScore && Completed(p) >= MinCompletedRfqs))
    ensures !v.notifyAdmin <==> RfqValue(budget) < MinRfqValue
    ensures 75 <= v.aiScore <= 95
  {
    var value := RfqValue(budget);
    var reputation := Reputation(p);
    if value < MinRfqValue then Verdict(AutoRejected, Normal, 95, false)
    else if value > HighValueThreshold && reputation < MinReputation then Verdict(FlaggedHighRisk, HighRisk, 88, true)
    else if value > HighValueThreshold && reputation >= MinReputation then Verdict(AutoApproved, HighValue, 92, true)
    else
      var goodReputation := reputation >= MinReputation;
      var goodFinancial := Financial(p) >= MinFinancialScore;
      var hasHistory := Completed(p) >= MinCompletedRfqs;
      if goodReputation || (goodFinancial && hasHistory) then Verdict(AutoApproved, Normal, 90, true)
      else if !hasHistory then Verdict(AutoRejected, Normal, 75, true)
      else Verdict(AutoRejected, Normal, 80, true)
  }

  /** A below-minimum budget is rejected quietly whatever the client's profile. */
  lemma LowValueRejected(budget: Option<real>, p: Profile)
    requires RfqValue(budget) < MinRfqValue
    ensures Evaluate(budget, p) == Verdict(AutoRejected, Normal, 95, false)
  {
  }

  /** A missing budget counts as zero and is therefore rejected. */
  lemma NoBudgetRejected(p: Profile)
    ensures Evaluate(None, p).decision == AutoRejected && !Evaluate(None, p).notifyAdmin
  {
  }

  /** A gatekeeper's row for a supplier. */
  datatype SupplierRow = SupplierRow(id: Id, categoryExpertise: Option<string>, reputationScore: Option<real>)

  /** The comma-separated categories of a text, lower-cased and trimmed. */
  function Keywords(text: string): (r: seq<string>)
    ensures |r| >= 1
  {
    Seqs.Map(Text.Split(Text.ToLower(text), ','), Text.Trim)
  }

  /** Some category of the supplier contains some keyword of the RFQ. */
  predicate Matches(keywords: seq<string>, s: SupplierRow) {
    && TruthyText(s.categoryExpertise)
    && var cats := Keywords(s.categoryExpertise.value);
       exists i, j :: 0 <= i < |keywords| && 0 <= j < |cats| && Text.Contains(cats[j], keywords[i])
  }

  /** The filter test of `suggestSuppliers` for an RFQ category. */
  function MatchesCategory(category: string): SupplierRow -> bool {
    (s: SupplierRow) => Matches(Keywords(category), s)
  }

  function RankKey(s: SupplierRow): real { OrReal(s.reputationScore, 0.0) }

  /** The rows `suggestSuppliers` picks: at most three matching suppliers,
      best reputation first, ties in input order; no rows for an empty
      category. */
  function SuggestedRows(category: string, sups: seq<SupplierRow>): (r: seq<SupplierRow>)
    ensures category == "" ==> r == []
    ensures |r| <= 3
    ensures Seqs.SortedDesc(r, RankKey)
    ensures forall k :: 0 <= k < |r| ==> r[k] in sups && Matches(Keywords(category), r[k])
    ensures multiset(r) <= multiset(sups)
    ensures category != "" ==>
      var matched := Seqs.Filter(sups, MatchesCategory(category));
      |r| == if |matched| < 3 then |matched| else 3
    ensures category != "" && |r| < 3 ==> forall x :: x in sups && Matches(Keywords(category), x) ==> x in r
    ensures category != "" ==> forall x :: x in sups && Matches(Keywords(category), x) && x !in r ==>
              forall k :: 0 <= k < |r| ==> RankKey(x) <= RankKey(r[k])
  {
    if category == "" then []
    else
      var kws := Keywords(category);
      var p := MatchesCategory(category);
      var matched := Seqs.Filter(sups, p);
      var r := Seqs.TopN(matched, 3, RankKey);
      forall k | 0 <= k < |r| ensures r[k] in sups && Matches(kws, r[k]) {
        assert r[k] in multiset(r);
        Seqs.FilterMembers(sups, p, r[k]);
      }
      forall x | x in sups && Matches(kws, x)
        ensures x in matched
      {
        Seqs.FilterMembers(sups, p, x);
      }
      KeptWhenShort(matched, r, 3);
      r
  }

  /** Suppliers with the same reputation keep their input order: those suggested
      are the first matching ones of that reputation. */
  lemma SuggestedTiesInOrder(category: string, sups: seq<SupplierRow>, v: real)
    requires category != ""
    ensures Seqs.Filter(SuggestedRows(category, sups), Seqs.KeyIs(RankKey, v))
         <= Seqs.Filter(Seqs.Filter(sups, MatchesCategory(category)), Seqs.KeyIs(RankKey, v))
  {
    Seqs.TopNStable(Seqs.Filter(sups, MatchesCategory(category)), 3, RankKey, v);
  }

  /** A selection of fewer than `n` elements out of a list, made by keeping
      up to `n` of them, kept them all. */
  lemma KeptWhenShort<T>(matched: seq<T>, r: seq<T>, n: int)
    requires multiset(r) <= multiset(matched) && (|r| < n ==> |r| == |matched|)
    ensures |r| < n ==> forall x :: x in matched ==> x in r
  {
    if |r| < n {
      var c := multiset(matched) - multiset(r);
      assert multiset(matched) == multiset(r) + c;
      assert |c| == 0;
      forall x | x in matched ensures x in r {
        assert x in multiset(matched);
      }
    }
  }

  /** `suggestSuppliers`: the ids of the suggested rows, in order. */
  function SuggestSuppliers(category: string, sups: seq<SupplierRow>): (r: seq<Id>)
    ensures category == "" ==> r == []
    ensures |r| <= 3
    ensures forall k :: 0 <= k < |r| ==> exists s :: s in sups && s.id == r[k] && Matches(Keywords(category), s)
    ensures |r| == |SuggestedRows(category, sups)|
    ensures forall k :: 0 <= k < |r| ==> r[k] == SuggestedRows(category, sups)[k].id
  {
    var rows := SuggestedRows(category, sups);
    var r := Seqs.Map(rows, (s: SupplierRow) => s.id);
    forall k | 0 <= k < |r| ensures exists s :: s in sups && s.id == r[k] && Matches(Keywords(category), s) {
      var s := rows[k];
      assert s in sups && s.id == r[k] && Matches(Keywords(category), s);
    }
    r
  }

  /** An empty keyword, as left by a doubled or trailing comma, matches every
      supplier that has some expertise. */
  lemma EmptyKeywordMatchesAll(category: string, s: SupplierRow)
    requires "" in Keywords(category) && TruthyText(s.categoryExpertise)
    ensures Matches(Keywords(category), s)
  {
    var kws := Keywords(category);
    var cats := Keywords(s.categoryExpertise.value);
    var i :| 0 <= i < |kws| && kws[i] == "";
    Text.ContainsEmpty(cats[0]);
    assert Text.Contains(cats[0], kws[i]);
  }

  /** `Math.round`: halves go up. */
  function Round(x: real): int {
    (x + 0.5).Floor
  }

  function Clamp(x: real, lo: real, hi: real): real {
    if x < lo then lo else if x > hi then hi else x
  }

  /** The points the trust score adds up, as a reference for the method. */
  function TrustPoints(p: Profile): real {
    var completed := OrInt(p.completedRFQs, 0);
    var total := completed + OrInt(p.rejectedRFQs, 0);
    50.0
    + (if TruthyReal(p.reputationScore) then p.reputationScore.value / 5.0 * 30.0 else 0.0)
    + (if TruthyReal(p.financialScore) then p.financialScore.value / 100.0 * 25.0 else 0.0)
    + (if total > 0 then completed as real / total as real * 20.0 else 0.0)
    + (if TruthyReal(p.companyAge) then (if p.companyAge.value / 10.0 < 1.0 then p.companyAge.value / 10.0 else 1.0) * 15.0 else 0.0)
    + (if TruthyReal(p.annualRevenue) && p.annualRevenue.value > 1000000.0 then 10.0 else 0.0)
  }

  /** `calculateClientTrustScore`: 50 base points plus up to 30 for
      reputation, 25 for financial score, 20 for success rate, 15 for company
      age and 10 for revenue, clamped to [0, 100] and rounded. */
  method TrustScore(p: Profile) returns (score: int)
    ensures score == Round(Clamp(TrustPoints(p), 0.0, 100.0))
    ensures 0 <= score <= 100
  {
    var s := 50.0;
    if TruthyReal(p.reputationScore) {
      s := s + p.reputationScore.value / 5.0 * 30.0;
    }
    if TruthyReal(p.financialScore) {
      s := s + p.financialScore.value / 100.0 * 25.0;
    }
    var completed := OrInt(p.completedRFQs, 0);
    var rejected := OrInt(p.rejectedRFQs, 0);
    var total := completed + rejected;
    if total > 0 {
      var successRate := completed as real / total as real;
      s := s + successRate * 20.0;
    }
    if TruthyReal(p.companyAge) {
      var age := p.companyAge.value / 10.0;
      s := s + (if age < 1.0 then age else 1.0) * 15.0;
    }
    if TruthyReal(p.annualRevenue) && p.annualRevenue.value > 1000000.0 {
      s := s + 10.0;
    }
    score := Round(Clamp(s, 0.0, 100.0));
  }

  /** A client with an empty profile scores the 50 base points. */
  lemma EmptyProfileTrust()
    ensures Round(Clamp(TrustPoints(EmptyProfile), 0.0, 100.0)) == 50
  {
  }
}
