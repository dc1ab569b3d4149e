/**
 * The backend's shortlist scoring (backend/services/shortlist_service.py): each
 * candidate gets a cost score from its savings, a quality score from its approval,
 * certifications and responsiveness, and an integrated score weighting the two
 * 60/40; the shortlist lists every candidate by integrated score, best first, and
 * numbers them from 1.
 */
module ShortlistService {
  import opened Numeric
  import Sorting
  import Lookup

  /** What `create_shortlist` reads of each supplier record. */
  datatype Candidate = Candidate(
    id: int,
    name: string,
    savingsPercentage: real,
    qualityApproved: bool,
    certifications: seq<string>,
    responseReceived: bool)

  /** The recommendation tiers, best first (the wording of each is not modelled). */
  datatype Recommendation =
    | HighlyRecommended
    | Recommended
    | ConditionallyRecommended
    | NotRecommendedLimitedValue
    | NotRecommendedBelowStandards

  /** One shortlist row; scores are rounded to two places. */
  datatype RankedSupplier = RankedSupplier(
    rank: int,
    supplierId: int,
    supplierName: string,
    integratedScore: real,
    costScore: real,
    qualityScore: real,
    recommendation: Recommendation)

  /**
   * `_calculate_cost_score`: 50 for no savings, 100 from 20% savings on, linear in
   * between.
   */
  function CostScore(savingsPercentage: real): (c: real)
    ensures 50.0 <= c <= 100.0
    ensures savingsPercentage <= 0.0 ==> c == 50.0
    ensures savingsPercentage >= 20.0 ==> c == 100.0
  {
    if savingsPercentage <= 0.0 then 50.0
    else if savingsPercentage >= 20.0 then 100.0
    else 50.0 + savingsPercentage / 20.0 * 50.0
  }

  /** More savings never lower the cost score. */
  lemma CostScoreMonotone(s: real, t: real)
    requires s <= t
    ensures CostScore(s) <= CostScore(t)
  {
  }

  /**
   * `_calculate_quality_score`: 70 when approved (20 otherwise), 5 per
   * certification up to 20, and 10 for a response. An approved candidate always
   * outscores one that is not.
   */
  function QualityScore(c: Candidate): (q: real)
    ensures 20.0 <= q <= 100.0
    ensures c.qualityApproved ==> q >= 70.0
    ensures !c.qualityApproved ==> q <= 50.0
  {
    var approval := if c.qualityApproved then 70 else 20;
    var certs := if |c.certifications| > 0 then Lookup.Min(|c.certifications| * 5, 20) else 0;
    var engagement := if c.responseReceived then 10 else 0;
    var score := approval + certs + engagement;
    if score as real <= 100.0 then score as real else 100.0
  }

  /** The 60/40 weighting of cost and quality. */
  function IntegratedScore(c: Candidate): (s: real)
    ensures 38.0 <= s <= 100.0
  {
    CostScore(c.savingsPercentage) * 0.6 + QualityScore(c) * 0.4
  }

  /** `_generate_recommendation`: the tier for an (unrounded) integrated score. */
  function Tier(score: real): Recommendation {
    if score >= 85.0 then HighlyRecommended
    else if score >= 70.0 then Recommended
    else if score >= 55.0 then ConditionallyRecommended
    else if score >= 40.0 then NotRecommendedLimitedValue
    else NotRecommendedBelowStandards
  }

  /** Tiers from best (4) to worst (0). */
  function TierLevel(r: Recommendation): nat {
    match r
    case HighlyRecommended => 4
    case Recommended => 3
    case ConditionallyRecommended => 2
    case NotRecommendedLimitedValue => 1
    case NotRecommendedBelowStandards => 0
  }

  /** A higher score never gets a worse tier, and each tier is a band of scores. */
  lemma TierBands(s: real, t: real)
    requires s <= t
    ensures TierLevel(Tier(s)) <= TierLevel(Tier(t))
    ensures TierLevel(Tier(s)) == 4 <==> s >= 85.0
    ensures TierLevel(Tier(s)) == 0 <==> s < 40.0
  {
  }

  /** The row for one candidate, still unranked. */
  function EntryFor(c: Candidate): (e: RankedSupplier)
    ensures e.rank == 0 && e.supplierId == c.id
    ensures e.recommendation == Tier(IntegratedScore(c))
    ensures 37.995 <= e.integratedScore <= 100.005
  {
    var cost := CostScore(c.savingsPercentage);
    var quality := QualityScore(c);
    var integrated := IntegratedScore(c);
    RankedSupplier(0, c.id, c.name, Round2(integrated), Round2(cost), Round2(quality), Tier(integrated))
  }

  /**
   * The tier is taken from the unrounded score: a candidate shown with an
   * integrated score of 85.00 can still be only "recommended".
   */
  lemma DisplayedScoreCanHideTier()
    ensures var c := Candidate(1, "S", 74.98 / 7.5, true, ["A", "B", "C", "D"], true);
      EntryFor(c).integratedScore == 85.0 && EntryFor(c).recommendation == Recommended
  {
    var c := Candidate(1, "S", 74.98 / 7.5, true, ["A", "B", "C", "D"], true);
    assert QualityScore(c) == 100.0;
    assert IntegratedScore(c) == 84.996;
    assert (84.996 * 100.0 + 0.5).Floor == 8500;
  }

  function Entries(cs: seq<Candidate>): (es: seq<RankedSupplier>)
    ensures |es| == |cs|
    ensures forall i :: 0 <= i < |cs| ==> es[i] == EntryFor(cs[i])
  {
    Sorting.Map(cs, EntryFor)
  }

  /** The key the shortlist is sorted on: the rounded integrated score. */
  function ScoreKey(e: RankedSupplier): real {
    e.integratedScore
  }

  function Unranked(s: seq<RankedSupplier>): (r: seq<RankedSupplier>)
    ensures |r| == |s|
    ensures forall i :: 0 <= i < |s| ==> r[i] == s[i].(rank := 0)
  {
    Sorting.Map(s, (e: RankedSupplier) => e.(rank := 0))
  }

  function SupplierIdOf(e: RankedSupplier): int {
    e.supplierId
  }

  function CandidateIdOf(c: Candidate): int {
    c.id
  }

  /**
   * `create_shortlist`: one row per candidate, sorted by rounded integrated score
   * (best first, ties in input order), then ranked 1, 2, ... in that order.
   */
  method CreateShortlist(suppliers: seq<Candidate>) returns (shortlist: seq<RankedSupplier>)
    ensures |shortlist| == |suppliers|
    ensures Sorting.SortedDesc(shortlist, ScoreKey)
    ensures forall i :: 0 <= i < |shortlist| ==> shortlist[i].rank == i + 1
    ensures multiset(Unranked(shortlist)) == multiset(Entries(suppliers))
    ensures multiset(Sorting.Map(shortlist, SupplierIdOf)) == multiset(Sorting.Map(suppliers, CandidateIdOf))
  {
    var entries: seq<RankedSupplier> := [];
    var i := 0;
    while i < |suppliers|
      invariant 0 <= i <= |suppliers|
      invariant entries == Entries(suppliers[..i])
    {
      EntriesSnoc(suppliers, i);
      entries := entries + [EntryFor(suppliers[i])];
      i := i + 1;
    }
    assert suppliers[..i] == suppliers;
    var sorted := Sorting.SortDesc(entries, ScoreKey);
    shortlist := AssignRanks(sorted);
    RankingKeepsRows(suppliers, sorted, shortlist);
    ShortlistIdsFollow(suppliers, shortlist);
  }

  /** The `rank = i + 1` loop of `create_shortlist`: numbers the rows in order from 1. */
  method AssignRanks(sorted: seq<RankedSupplier>) returns (shortlist: seq<RankedSupplier>)
    ensures |shortlist| == |sorted|
    ensures forall k :: 0 <= k < |sorted| ==> shortlist[k] == sorted[k].(rank := k + 1)
  {
    shortlist := sorted;
    var idx := 0;
    while idx < |shortlist|
      invariant 0 <= idx <= |shortlist| == |sorted|
      invariant forall k :: 0 <= k < idx ==> shortlist[k] == sorted[k].(rank := k + 1)
      invariant forall k :: idx <= k < |shortlist| ==> shortlist[k] == sorted[k]
    {
      shortlist := shortlist[idx := shortlist[idx].(rank := idx + 1)];
      idx := idx + 1;
    }
  }

  lemma EntriesSnoc(cs: seq<Candidate>, i: nat)
    requires i < |cs|
    ensures Entries(cs[..i + 1]) == Entries(cs[..i]) + [EntryFor(cs[i])]
  {
  }

  /** Numbering the sorted rows changes nothing but their ranks. */
  lemma RankingKeepsRows(suppliers: seq<Candidate>, sorted: seq<RankedSupplier>, shortlist: seq<RankedSupplier>)
    requires sorted == Sorting.SortDesc(Entries(suppliers), ScoreKey)
    requires |shortlist| == |sorted|
    requires forall k :: 0 <= k < |sorted| ==> shortlist[k] == sorted[k].(rank := k + 1)
    ensures Sorting.SortedDesc(shortlist, ScoreKey)
    ensures multiset(Unranked(shortlist)) == multiset(Entries(suppliers))
  {
    forall k | 0 <= k < |sorted|
      ensures sorted[k].rank == 0
    {
      assert sorted[k] in multiset(Entries(suppliers));
    }
    assert Unranked(shortlist) == sorted;
  }

  /** The ids of the rows are the ids of the candidates, each as often. */
  lemma ShortlistIdsFollow(suppliers: seq<Candidate>, shortlist: seq<RankedSupplier>)
    requires multiset(Unranked(shortlist)) == multiset(Entries(suppliers))
    ensures multiset(Sorting.Map(shortlist, SupplierIdOf)) == multiset(Sorting.Map(suppliers, CandidateIdOf))
  {
    Sorting.MapPermutation(Unranked(shortlist), Entries(suppliers), SupplierIdOf);
    assert Sorting.Map(Unranked(shortlist), SupplierIdOf) == Sorting.Map(shortlist, SupplierIdOf);
    assert Sorting.Map(Entries(suppliers), SupplierIdOf) == Sorting.Map(suppliers, CandidateIdOf);
  }
}
