/** The supplier map: searching the suppliers by material and location,
    ranking them by orders won, estimating a delivery time from a distance,
    and the summary figures and recommendation shown beside the map. */
module SupplierMap {
  import opened Wrappers
  import Text
  import Seqs
  import Filters

  datatype Supplier = Supplier(
    id: string,
    name: string,
    city: string,
    county: string,
    ordersWon: int,
    successRate: real,
    reputationScore: real,
    specialties: seq<string>,
    distance: Option<real>)

  /** A search term counts when it is not blank. */
  predicate Given(term: string) {
    Text.Trim(term) != ""
  }

  /** Some specialty or the name contains the lower-cased term; the term
      itself is not trimmed. */
  predicate MatchesMaterial(s: Supplier, term: string) {
    || (exists k :: 0 <= k < |s.specialties| && Text.Contains(Text.ToLower(s.specialties[k]), Text.ToLower(term)))
    || Text.Contains(Text.ToLower(s.name), Text.ToLower(term))
  }

  /** The city or the county contains the lower-cased term. */
  predicate MatchesLocation(s: Supplier, term: string) {
    Text.Contains(Text.ToLower(s.city), Text.ToLower(term)) || Text.Contains(Text.ToLower(s.county), Text.ToLower(term))
  }

  /** A supplier passes the filters that were given. */
  predicate Keeps(s: Supplier, material: string, location: string) {
    (!Given(material) || MatchesMaterial(s, material)) && (!Given(location) || MatchesLocation(s, location))
  }

  /** The suppliers the two filters leave. */
  function Matching(all: seq<Supplier>, material: string, location: string): seq<Supplier> {
    var byMaterial := if Given(material) then Seqs.Filter(all, (s: Supplier) => MatchesMaterial(s, material)) else all;
    if Given(location) then Seqs.Filter(byMaterial, (s: Supplier) => MatchesLocation(s, location)) else byMaterial
  }

  /** The search keeps exactly the suppliers that pass the given filters, in
      their original order; blank terms keep the whole catalogue. */
  lemma MatchingSpec(all: seq<Supplier>, material: string, location: string)
    ensures Seqs.IsSubsequence(Matching(all, material, location), all)
    ensures forall x :: x in Matching(all, material, location) <==> x in all && Keeps(x, material, location)
    ensures !Given(material) && !Given(location) ==> Matching(all, material, location) == all
  {
    var pm := (s: Supplier) => MatchesMaterial(s, material);
    var pl := (s: Supplier) => MatchesLocation(s, location);
    var byMaterial := if Given(material) then Seqs.Filter(all, pm) else all;
    var r := Matching(all, material, location);
    assert r == if Given(location) then Seqs.Filter(byMaterial, pl) else byMaterial;
    Seqs.SubsequenceRefl(all);
    Seqs.SubsequenceRefl(byMaterial);
    if Given(material) {
      Seqs.FilterIsSubsequence(all, pm);
    }
    if Given(location) {
      Seqs.FilterIsSubsequence(byMaterial, pl);
    }
    Seqs.SubsequenceTrans(r, byMaterial, all);
    forall x ensures x in r <==> x in all && Keeps(x, material, location) {
      if Given(material) {
        Seqs.FilterMembers(all, pm, x);
      }
      if Given(location) {
        Seqs.FilterMembers(byMaterial, pl, x);
      }
    }
  }

  /** The suppliers with their distance from the search's reference point. */
  function WithDistances(s: seq<Supplier>, distanceFrom: Supplier -> real): (r: seq<Supplier>)
    ensures |r| == |s|
    ensures forall k :: 0 <= k < |s| ==> r[k] == s[k].(distance := Some(distanceFrom(s[k])))
  {
    Seqs.Map(s, (x: Supplier) => x.(distance := Some(distanceFrom(x))))
  }

  /** `searchSuppliers`: filters the catalogue by material, then by
      location, then records each result's distance. `distanceFrom` is the
      great-circle distance from the reference point, which is the searched
      location's coordinates when known and the centre of the country
      otherwise. */
  method Search(all: seq<Supplier>, material: string, location: string, distanceFrom: Supplier -> real)
    returns (results: seq<Supplier>)
    ensures results == WithDistances(Matching(all, material, location), distanceFrom)
  {
    results := all;
    if Given(material) {
      results := Seqs.Filter(results, (s: Supplier) => MatchesMaterial(s, material));
    }
    if Given(location) {
      results := Seqs.Filter(results, (s: Supplier) => MatchesLocation(s, location));
    }
    results := WithDistances(results, distanceFrom);
  }

  function OrdersWonKey(s: Supplier): real {
    s.ordersWon as real
  }

  /** `getTopSuppliers`: the `limit` suppliers with most orders won, ties in
      input order; the input is left as it was. */
  function TopSuppliers(suppliers: seq<Supplier>, limit: int): (r: seq<Supplier>)
    ensures limit >= 0 ==> |r| == if limit <= |suppliers| then limit else |suppliers|
    ensures Seqs.SortedDesc(r, OrdersWonKey)
    ensures multiset(r) <= multiset(suppliers)
    ensures forall x :: x in suppliers && x !in r ==> forall k :: 0 <= k < |r| ==> x.ordersWon <= r[k].ordersWon
  {
    Seqs.TopN(suppliers, limit, OrdersWonKey)
  }

  /** Suppliers with the same number of orders won keep their input order:
      those kept are the first ones of that count. */
  lemma TopSuppliersTiesInOrder(suppliers: seq<Supplier>, limit: int, v: real)
    ensures Seqs.Filter(TopSuppliers(suppliers, limit), Seqs.KeyIs(OrdersWonKey, v))
         <= Seqs.Filter(suppliers, Seqs.KeyIs(OrdersWonKey, v))
  {
    Seqs.TopNStable(suppliers, limit, OrdersWonKey, v);
  }

  /** One day, plus one per full hundred kilometres. */
  function DeliveryDays(distanceKm: real): int {
    1 + (distanceKm / 100.0).Floor
  }

  /** `estimateDeliveryTime`. */
  function EstimateDeliveryTime(distanceKm: real): string {
    var totalDays := DeliveryDays(distanceKm);
    if totalDays == 1 then "1 zi"
    else if totalDays < 7 then Text.IntText(totalDays) + " zile"
    else
      var weeks := totalDays / 7;
      Text.IntText(weeks) + " " + (if weeks == 1 then "săptămână" else "săptămâni")
  }

  /** A longer distance never gives fewer days. */
  lemma DeliveryDaysMonotone(a: real, b: real)
    requires a <= b
    ensures DeliveryDays(a) <= DeliveryDays(b)
  {
    assert a / 100.0 <= b / 100.0;
  }

  /** For a distance that is not negative, the estimate opens with the number
      of days, or of whole weeks from seven days on, followed by a space. */
  lemma EstimateLeadingNumber(distanceKm: real)
    requires distanceKm >= 0.0
    ensures var days := DeliveryDays(distanceKm);
      var parts := Text.Split(EstimateDeliveryTime(distanceKm), ' ');
      |parts| == 2 && Text.ParseNat(parts[0]) == Some(if days < 7 then days else days / 7)
  {
    var days := DeliveryDays(distanceKm);
    assert days >= 1;
    var n: nat := if days < 7 then days else days / 7;
    var word := if days == 1 then "zi" else if days < 7 then "zile" else if n == 1 then "săptămână" else "săptămâni";
    EstimateForm(distanceKm, n, word);
    NumberThenWord(n, word);
  }

  /** The estimate is a number, a space and a unit. */
  lemma EstimateForm(distanceKm: real, n: nat, word: string)
    requires distanceKm >= 0.0
    requires n == if DeliveryDays(distanceKm) < 7 then DeliveryDays(distanceKm) else DeliveryDays(distanceKm) / 7
    requires word == if DeliveryDays(distanceKm) == 1 then "zi" else if DeliveryDays(distanceKm) < 7 then "zile"
                     else if n == 1 then "săptămână" else "săptămâni"
    ensures ' ' !in word
    ensures EstimateDeliveryTime(distanceKm) == Text.NatText(n) + [' '] + word
  {
    if DeliveryDays(distanceKm) == 1 {
      assert Text.NatText(1) == "1";
    }
  }

  /** A number followed by a space and a word without spaces splits into the
      two, and the first reads back as the number. */
  lemma NumberThenWord(n: nat, word: string)
    requires ' ' !in word
    ensures var parts := Text.Split(Text.NatText(n) + [' '] + word, ' ');
      |parts| == 2 && Text.ParseNat(parts[0]) == Some(n)
  {
    assert ' ' !in Text.NatText(n);
    Text.SplitAfterFirst(Text.NatText(n), word, ' ');
    Text.SplitNoSep(word, ' ');
    Text.ParseNatText(n);
  }

  /** The distance shown for a supplier: the one the search recorded, else
      the distance from the centre of the country. */
  function DistanceOf(s: Supplier, fromDefault: Supplier -> real): real {
    if s.distance.Some? then s.distance.value else fromDefault(s)
  }

  datatype MapStats = MapStats(totalSuppliers: nat, averageDistance: int, topReputationScore: real, averageSuccessRate: int)

  function MaxReputation(s: seq<Supplier>): real
    requires s != []
  {
    if |s| == 1 then s[0].reputationScore
    else
      var rest := MaxReputation(s[1..]);
      if s[0].reputationScore >= rest then s[0].reputationScore else rest
  }

  /** `Math.max` over the reputations: an upper bound that some supplier reaches. */
  lemma {:induction false} MaxReputationSpec(s: seq<Supplier>)
    requires s != []
    ensures forall k :: 0 <= k < |s| ==> s[k].reputationScore <= MaxReputation(s)
    ensures exists k :: 0 <= k < |s| && s[k].reputationScore == MaxReputation(s)
  {
    if |s| > 1 {
      MaxReputationSpec(s[1..]);
      assert forall k :: 1 <= k < |s| ==> s[k] == s[1..][k - 1];
      if MaxReputation(s) != s[0].reputationScore {
        var k :| 0 <= k < |s[1..]| && s[1..][k].reputationScore == MaxReputation(s[1..]);
        assert s[k + 1].reputationScore == MaxReputation(s);
      } else {
        assert s[0].reputationScore == MaxReputation(s);
      }
    } else {
      assert s[0].reputationScore == MaxReputation(s);
    }
  }

  function SumDistances(s: seq<Supplier>, fromDefault: Supplier -> real): real {
    if s == [] then 0.0 else DistanceOf(s[0], fromDefault) + SumDistances(s[1..], fromDefault)
  }

  function SumSuccessRates(s: seq<Supplier>): real {
    if s == [] then 0.0 else s[0].successRate + SumSuccessRates(s[1..])
  }

  /** `calculateStats`: all zeros for no suppliers; otherwise the count, the
      rounded mean distance, the best reputation and the rounded mean
      success rate. */
  function CalculateStats(suppliers: seq<Supplier>, fromDefault: Supplier -> real): (r: MapStats)
    ensures suppliers == [] ==> r == MapStats(0, 0, 0.0, 0)
    ensures r.totalSuppliers == |suppliers|
    ensures suppliers != [] ==>
      && (forall k :: 0 <= k < |suppliers| ==> suppliers[k].reputationScore <= r.topReputationScore)
      && (exists k :: 0 <= k < |suppliers| && suppliers[k].reputationScore == r.topReputationScore)
  {
    if suppliers == [] then MapStats(0, 0, 0.0, 0)
    else
      MaxReputationSpec(suppliers);
      var n := |suppliers| as real;
      MapStats(|suppliers|, Filters.Round(SumDistances(suppliers, fromDefault) / n), MaxReputation(suppliers),
               Filters.Round(SumSuccessRates(suppliers) / n))
  }

  /** A supplier with its distance and recommendation score. */
  datatype Scored = Scored(supplier: Supplier, aiScore: real)

  function ScoreKey(s: Scored): real {
    s.aiScore
  }

  /** 40% reputation (out of 5), 30% success rate (out of 100) and 30%
      proximity, which falls from 1 at the client to 0 at 500 km. */
  function ScoredOf(s: Supplier, fromDefault: Supplier -> real): Scored {
    var d := DistanceOf(s, fromDefault);
    var proximity := if 1.0 - d / 500.0 > 0.0 then 1.0 - d / 500.0 else 0.0;
    Scored(s.(distance := Some(d)), s.reputationScore / 5.0 * 0.4 + s.successRate / 100.0 * 0.3 + proximity * 0.3)
  }

  /** `getAIRecommendation`: no recommendation for no suppliers; otherwise
      a supplier with the highest score. */
  function Recommend(suppliers: seq<Supplier>, fromDefault: Supplier -> real): (r: Option<Scored>)
    ensures r.None? <==> suppliers == []
    ensures r.Some? ==> exists k :: 0 <= k < |suppliers| && r.value == ScoredOf(suppliers[k], fromDefault)
    ensures r.Some? ==> forall k :: 0 <= k < |suppliers| ==> ScoredOf(suppliers[k], fromDefault).aiScore <= r.value.aiScore
  {
    if suppliers == [] then None
    else
      var scored := Seqs.Map(suppliers, (s: Supplier) => ScoredOf(s, fromDefault));
      var sorted := Seqs.SortDesc(scored, ScoreKey);
      BestFirst(scored, sorted);
      Some(sorted[0])
  }

  /** The head of a descending rearrangement is an element with the top key. */
  lemma BestFirst(scored: seq<Scored>, sorted: seq<Scored>)
    requires scored != [] && multiset(sorted) == multiset(scored) && Seqs.SortedDesc(sorted, ScoreKey)
    ensures |sorted| == |scored|
    ensures sorted[0] in scored
    ensures forall k :: 0 <= k < |scored| ==> scored[k].aiScore <= sorted[0].aiScore
  {
    assert |sorted| == |multiset(sorted)| == |multiset(scored)| == |scored|;
    assert sorted[0] in multiset(sorted);
    forall k | 0 <= k < |scored| ensures scored[k].aiScore <= sorted[0].aiScore {
      assert scored[k] in multiset(sorted);
      var j :| 0 <= j < |sorted| && sorted[j] == scored[k];
      if j > 0 {
        assert ScoreKey(sorted[0]) >= ScoreKey(sorted[j]);
      }
    }
  }
}
