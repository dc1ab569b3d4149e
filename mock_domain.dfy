/**
 * The record-level steps of the browser workflow engine (frontend/src/api/mockApi.ts):
 * what each handler makes of one requirement or one supplier, apart from the
 * lookups and the counters, which belong to the store.
 */
module MockDomain {
  import opened Wrappers
  import opened MockTypes
  import opened Numeric
  import opened Sorting
  import opened Text
  import Lookup

  const DefaultAddress: string := "Main Warehouse, New York, NY"

  /** `Number(v) || d`: a NaN (`None`) or zero falls back to `d`. */
  function NumberOr(v: Option<real>, d: real): (r: real)
    ensures r == d || (v.Some? && r == v.value && r != 0.0)
    ensures d != 0.0 ==> r != 0.0
  {
    if v.Some? && v.value != 0.0 then v.value else d
  }

  /** `v || d` on a text field: absent or empty falls back to `d`. */
  function TextOr(v: Option<string>, d: string): (r: string)
    ensures r == d || (v.Some? && r == v.value && r != "")
    ensures d != "" ==> r != ""
  {
    if v.Some? && v.value != "" then v.value else d
  }

  // ---------------------------------------------------------------- samples

  /**
   * `generateSample`. `draw` is what `Math.random()` returned. What the numbers are
   * is stated by GeneratedSampleFigures.
   */
  function GenerateSample(id: int, requirementQuantity: real, multiplier: real, draw: real): (s: Sample)
    requires 0.0 <= draw < 1.0
    ensures s.id == id
    ensures s.quantity >= 1.0 && s.pricePerUnit >= 120.0 && s.priceQuoted >= 120.0
    ensures s.deliveryAddress == DefaultAddress
    ensures s.qualityApproved.None? && s.qualityNotes.None? && s.qualityReviewedBy.None? && s.qualityReviewedAt.None?
  {
    var rounded := JsMathRound(requirementQuantity * multiplier);
    var quantity := if rounded < 1 then 1 else rounded;
    var perUnit := 120 + JsMathRound(draw * 25.0);
    Round2Integer(quantity * perUnit);
    Sample(id, quantity as real, Round2((quantity * perUnit) as real), perUnit as real, DefaultAddress,
           None, None, None, None)
  }

  /**
   * A generated sample is a whole number of units, at least one and otherwise the
   * requirement's quantity times the multiplier rounded; its unit price is a whole
   * number from 120 to 145; the quote is exactly their product.
   */
  lemma GeneratedSampleFigures(id: int, requirementQuantity: real, multiplier: real, draw: real)
    requires 0.0 <= draw < 1.0
    ensures var s := GenerateSample(id, requirementQuantity, multiplier, draw);
      && s.quantity == s.quantity.Floor as real
      && (requirementQuantity * multiplier >= 0.5 ==>
            requirementQuantity * multiplier - 0.5 < s.quantity <= requirementQuantity * multiplier + 0.5)
      && 120.0 <= s.pricePerUnit <= 145.0 && s.pricePerUnit == s.pricePerUnit.Floor as real
      && s.priceQuoted == s.quantity * s.pricePerUnit
  {
    var rounded := JsMathRound(requirementQuantity * multiplier);
    var quantity := if rounded < 1 then 1 else rounded;
    var perUnit := 120 + JsMathRound(draw * 25.0);
    Round2Integer(quantity * perUnit);
  }

  /**
   * The sample `createSample` records: a generated one at a tenth of the requirement's
   * quantity, overridden by the quantity, quote and address the caller gave. Neither
   * its quantity nor its quote is ever zero.
   */
  function RecordedSample(id: int, requirementQuantity: real, draw: real, body: Body): (s: Sample)
    requires 0.0 <= draw < 1.0
    ensures s.id == id
    ensures s.quantity != 0.0 && s.priceQuoted != 0.0
    ensures s.deliveryAddress == TextOr(body.address, DefaultAddress) && s.deliveryAddress != ""
    ensures s.qualityApproved.None? && s.qualityReviewedAt.None?
  {
    var generated := GenerateSample(id, requirementQuantity, 0.1, draw);
    var quantity := NumberOr(body.quantity, generated.quantity);
    var quoted := NumberOr(body.priceQuoted, generated.priceQuoted);
    var perUnit := if quantity > 0.0 then Round2(quoted / quantity) else generated.pricePerUnit;
    generated.(quantity := quantity, priceQuoted := quoted, pricePerUnit := perUnit,
               deliveryAddress := TextOr(body.address, DefaultAddress))
  }

  /**
   * The caller's non-zero quantity and quote win over the generated ones, and for a
   * positive quantity the unit price is the quote per unit to the cent.
   */
  lemma RecordedSampleFigures(id: int, requirementQuantity: real, draw: real, body: Body)
    requires 0.0 <= draw < 1.0
    ensures var s := RecordedSample(id, requirementQuantity, draw, body);
      && (body.quantity.Some? && body.quantity.value != 0.0 ==> s.quantity == body.quantity.value)
      && (body.priceQuoted.Some? && body.priceQuoted.value != 0.0 ==> s.priceQuoted == body.priceQuoted.value)
      && (s.quantity > 0.0 ==> s.priceQuoted / s.quantity - 0.005 <= s.pricePerUnit <= s.priceQuoted / s.quantity + 0.005)
  {
  }

  // --------------------------------------------------------------- scouting

  /** `pickTemplates`: the first three canned profiles. */
  function PickTemplates(): (ts: seq<SupplierTemplate>)
    ensures |ts| == 3
    ensures forall i :: 0 <= i < 3 ==> ts[i] == SupplierTemplates[i]
  {
    SupplierTemplates[..3]
  }

  const ScoutStatusSequence: seq<SupplierStatus> := [Discovered, Contacted, SampleRequested]

  /** The sample a scouted supplier starts with: only the first gets one. */
  function ScoutSample(index: nat, sampleId: int, requirementQuantity: real, draw: real): (s: Option<Sample>)
    requires 0.0 <= draw < 1.0
    ensures s.Some? <==> index == 0
  {
    if index == 0 then Some(GenerateSample(sampleId, requirementQuantity, 0.12, draw)) else None
  }

  /**
   * The status of the `index`-th scouted supplier: the base status from the
   * sequence (the last one for every index from 2 on), overridden for the first two.
   */
  function ScoutStatus(index: nat): SupplierStatus {
    if index == 0 then SampleReceived
    else if index == 1 then SampleRequested
    else ScoutStatusSequence[Lookup.Min(index, 2)]
  }

  /** The notes of a supplier before the first two get their own. */
  function BaseNotes(isSelected: bool): string {
    if isSelected then "Auto-contacted via AI outreach. Awaiting supplier response."
    else "Supplier discovered. Pending outreach."
  }

  function ScoutNotes(index: nat): string {
    if index == 0 then "Sample received automatically. Awaiting quality review."
    else if index == 1 then "Sampling requested automatically. Awaiting delivery confirmation."
    else BaseNotes(index < 2)
  }

  /**
   * The supplier scouting creates from the `index`-th template: the first two are
   * selected for outreach; the first gets a sample at once, the second a sample request.
   */
  function ScoutedSupplier(index: nat, template: SupplierTemplate, id: int, requirementId: int,
                           sample: Option<Sample>): Supplier
  {
    Supplier(
      id, requirementId, template.name, ScoutStatus(index), Some(true), index < 2,
      template.experienceYears, template.qualityRating, template.deliveryReliability,
      template.priceCompetitiveness, template.overallScore, template.certifications, "Email",
      ScoutNotes(index), if index == 0 then sample else None, None, [])
  }

  /** The suppliers made from `templates`, numbered from `firstId`, in template order. */
  function ScoutedFrom(templates: seq<SupplierTemplate>, firstId: int, requirementId: int, sampleId: int,
                       requirementQuantity: real, draw: real): (ss: seq<Supplier>)
    requires 0.0 <= draw < 1.0
    ensures |ss| == |templates|
  {
    if templates == [] then []
    else
      var n := |templates| - 1;
      ScoutedFrom(templates[..n], firstId, requirementId, sampleId, requirementQuantity, draw)
      + [ScoutedSupplier(n, templates[n], firstId + n, requirementId, ScoutSample(n, sampleId, requirementQuantity, draw))]
  }

  /** The `i`-th supplier made from `templates` comes from the `i`-th template. */
  lemma {:induction false} ScoutedFromAt(templates: seq<SupplierTemplate>, firstId: int, requirementId: int,
                                         sampleId: int, requirementQuantity: real, draw: real, i: nat)
    requires 0.0 <= draw < 1.0 && i < |templates|
    ensures ScoutedFrom(templates, firstId, requirementId, sampleId, requirementQuantity, draw)[i] ==
              ScoutedSupplier(i, templates[i], firstId + i, requirementId, ScoutSample(i, sampleId, requirementQuantity, draw))
  {
    var n := |templates| - 1;
    var prefix := ScoutedFrom(templates[..n], firstId, requirementId, sampleId, requirementQuantity, draw);
    var last := ScoutedSupplier(n, templates[n], firstId + n, requirementId,
                                ScoutSample(n, sampleId, requirementQuantity, draw));
    assert ScoutedFrom(templates, firstId, requirementId, sampleId, requirementQuantity, draw) == prefix + [last];
    if i < n {
      ScoutedFromAt(templates[..n], firstId, requirementId, sampleId, requirementQuantity, draw, i);
      assert templates[..n][i] == templates[i];
      assert (prefix + [last])[i] == prefix[i];
    } else {
      assert (prefix + [last])[i] == last;
    }
  }

  /** Scouting one more template appends the supplier made from it. */
  lemma ScoutedFromSnoc(templates: seq<SupplierTemplate>, firstId: int, requirementId: int,
                        sampleId: int, requirementQuantity: real, draw: real, index: nat)
    requires 0.0 <= draw < 1.0 && index < |templates|
    ensures ScoutedFrom(templates[..index + 1], firstId, requirementId, sampleId, requirementQuantity, draw) ==
              ScoutedFrom(templates[..index], firstId, requirementId, sampleId, requirementQuantity, draw)
              + [ScoutedSupplier(index, templates[index], firstId + index, requirementId,
                                 ScoutSample(index, sampleId, requirementQuantity, draw))]
  {
    assert templates[..index + 1][..index] == templates[..index];
    assert templates[..index + 1][index] == templates[index];
  }

  /** The suppliers `startScouting` creates, numbered from `firstId`. */
  function ScoutedSuppliers(firstId: int, requirementId: int, sampleId: int,
                            requirementQuantity: real, draw: real): (ss: seq<Supplier>)
    requires 0.0 <= draw < 1.0
    ensures |ss| == 3
  {
    ScoutedFrom(PickTemplates(), firstId, requirementId, sampleId, requirementQuantity, draw)
  }

  /** What a scouted supplier is, whatever its template. */
  lemma ScoutedSupplierFacts(index: nat, template: SupplierTemplate, id: int, requirementId: int, sample: Option<Sample>)
    ensures ScoutedSupplier(index, template, id, requirementId, sample).id == id
    ensures ScoutedSupplier(index, template, id, requirementId, sample).requirementId == requirementId
    ensures ScoutedSupplier(index, template, id, requirementId, sample).status ==
              if index == 0 then SampleReceived else SampleRequested
    ensures ScoutedSupplier(index, template, id, requirementId, sample).selectedForOutreach == (index < 2)
    ensures ScoutedSupplier(index, template, id, requirementId, sample).sample ==
              if index == 0 then sample else None
    ensures ScoutedSupplier(index, template, id, requirementId, sample).availabilityScope == Some(true)
    ensures ScoutedSupplier(index, template, id, requirementId, sample).costAnalysis.None?
  {
  }

  /**
   * What scouting leaves behind: three suppliers with consecutive fresh ids, all
   * of this requirement; the first two selected; statuses sample received, sample
   * requested and (through the last entry of the status sequence) sample requested
   * again; exactly one sample, on the first, carrying the reserved sample id.
   */
  lemma ScoutingOutcome(firstId: int, requirementId: int, sampleId: int, requirementQuantity: real, draw: real)
    requires 0.0 <= draw < 1.0
    ensures var ss := ScoutedSuppliers(firstId, requirementId, sampleId, requirementQuantity, draw);
      && (forall i :: 0 <= i < 3 ==> ss[i].id == firstId + i && ss[i].requirementId == requirementId)
      && (forall i :: 0 <= i < 3 ==> ss[i].availabilityScope == Some(true) && ss[i].costAnalysis.None?)
      && ss[0].selectedForOutreach && ss[1].selectedForOutreach && !ss[2].selectedForOutreach
      && ss[0].status == SampleReceived && ss[1].status == SampleRequested && ss[2].status == SampleRequested
      && ss[0].sample.Some? && ss[0].sample.value.id == sampleId
      && ss[1].sample.None? && ss[2].sample.None?
  {
    var ts := PickTemplates();
    var ss := ScoutedSuppliers(firstId, requirementId, sampleId, requirementQuantity, draw);
    forall i | 0 <= i < 3
      ensures ss[i] == ScoutedSupplier(i, ts[i], firstId + i, requirementId, ScoutSample(i, sampleId, requirementQuantity, draw))
    {
      ScoutedFromAt(ts, firstId, requirementId, sampleId, requirementQuantity, draw, i);
    }
    ScoutedSupplierFacts(0, ts[0], firstId, requirementId, ScoutSample(0, sampleId, requirementQuantity, draw));
    ScoutedSupplierFacts(1, ts[1], firstId + 1, requirementId, None);
    ScoutedSupplierFacts(2, ts[2], firstId + 2, requirementId, None);
  }

  /** The statuses counted as "responded" right after scouting. */
  predicate RespondedAfterScouting(s: SupplierStatus) {
    s in {SampleRequested, SampleReceived, QualityApproved, CostAnalyzed,
          SupplierStatus.Shortlisted, SupplierStatus.Onboarding}
  }

  /** The statuses counted as "responded" when scouting is asked for again. */
  predicate RespondedWhenRescouted(s: SupplierStatus) {
    s == Responded || RespondedAfterScouting(s)
  }

  /** The ids of the suppliers selected for outreach, in order. */
  function SelectedIds(ss: seq<Supplier>): (ids: seq<int>)
    ensures |ids| <= |ss|
    ensures forall i :: 0 <= i < |ss| && ss[i].selectedForOutreach ==> ss[i].id in ids
  {
    if ss == [] then []
    else (if ss[0].selectedForOutreach then [ss[0].id] else []) + SelectedIds(ss[1..])
  }

  function OutreachResultOf(s: Supplier, responded: SupplierStatus -> bool): OutreachResult {
    OutreachResult(s.id, s.name, responded(s.status), s.sample.Some?, s.sample, s.status, s.contactMethod)
  }

  /** The outreach report over the selected suppliers, one entry per selected id. */
  function OutreachResults(ss: seq<Supplier>, responded: SupplierStatus -> bool): (rs: seq<OutreachResult>)
    ensures |rs| == |SelectedIds(ss)|
    ensures forall k :: 0 <= k < |rs| ==> rs[k].id == SelectedIds(ss)[k]
  {
    if ss == [] then []
    else (if ss[0].selectedForOutreach then [OutreachResultOf(ss[0], responded)] else [])
         + OutreachResults(ss[1..], responded)
  }

  function Summaries(ss: seq<Supplier>): (r: seq<SupplierSummary>)
    ensures |r| == |ss|
    ensures forall i :: 0 <= i < |ss| ==> r[i].id == ss[i].id && r[i].status == ss[i].status
  {
    seq(|ss|, i requires 0 <= i < |ss| => SupplierSummary(ss[i].id, ss[i].name, ss[i].status))
  }

  /**
   * Fresh scouting reports two suppliers selected, both responded (the first with a
   * sample ordered, the second without one).
   */
  lemma {:induction false} FreshScoutingReport(firstId: int, requirementId: int, sampleId: int,
                                               requirementQuantity: real, draw: real)
    requires 0.0 <= draw < 1.0
    ensures var ss := ScoutedSuppliers(firstId, requirementId, sampleId, requirementQuantity, draw);
      var rs := OutreachResults(ss, RespondedAfterScouting);
      && SelectedIds(ss) == [firstId, firstId + 1]
      && |rs| == 2 && rs[0].responded && rs[1].responded
      && rs[0].sampleOrdered && !rs[1].sampleOrdered
  {
    var ss := ScoutedSuppliers(firstId, requirementId, sampleId, requirementQuantity, draw);
    ScoutingOutcome(firstId, requirementId, sampleId, requirementQuantity, draw);
    assert ss == [ss[0], ss[1], ss[2]];
    assert ss[1..] == [ss[1], ss[2]];
    assert ss[2..] == [ss[2]];
    assert ss[3..] == [];
    assert ss[2..][1..] == ss[3..] && ss[1..][1..] == ss[2..];
    assert SelectedIds(ss[2..]) == [];
    assert SelectedIds(ss[1..]) == [ss[1].id];
    assert OutreachResults(ss[2..], RespondedAfterScouting) == [];
    assert OutreachResults(ss[1..], RespondedAfterScouting) == [OutreachResultOf(ss[1], RespondedAfterScouting)];
  }

  // ---------------------------------------------------------- quality review

  /**
   * The cost analysis an approved sample gets: four times the quote as the current
   * cost, eight per cent of it saved. A zero quote would make the percentage NaN;
   * the model reports 0 there.
   */
  function ApprovedCostAnalysis(priceQuoted: real): (ca: CostAnalysisRecord)
    ensures ca.meetsExpectations
    ensures ca.currentSupplierCost - 0.005 <= 4.0 * priceQuoted <= ca.currentSupplierCost + 0.005
    ensures ca.totalCost - 0.005 <= 3.68 * priceQuoted <= ca.totalCost + 0.005
    ensures ca.savings - 0.005 <= 0.32 * priceQuoted <= ca.savings + 0.005
  {
    var baseCost := priceQuoted * 4.0;
    var savings := baseCost * 0.08;
    CostAnalysisRecord(
      Round2(baseCost - savings),
      Round2(savings),
      if baseCost == 0.0 then 0.0 else Round1(savings / baseCost * 100.0),
      true,
      Round2(baseCost))
  }

  /**
   * Every approved sample with a non-zero quote reports eight per cent savings, and
   * for a non-negative quote the analysed total never exceeds the current cost.
   */
  lemma ApprovedSavingsAreEightPercent(priceQuoted: real)
    ensures priceQuoted != 0.0 ==> ApprovedCostAnalysis(priceQuoted).savingsPercentage == 8.0
    ensures priceQuoted >= 0.0 ==>
              var ca := ApprovedCostAnalysis(priceQuoted);
              ca.totalCost <= ca.currentSupplierCost && ca.savings >= 0.0
  {
    var baseCost := priceQuoted * 4.0;
    var savings := baseCost * 0.08;
    if priceQuoted >= 0.0 {
      Round2Monotone(baseCost - savings, baseCost);
      Round2Monotone(0.0, savings);
      Round2Integer(0);
    }
    if baseCost != 0.0 {
      assert savings / baseCost * 100.0 == 8.0;
      Round1Tenths(80);
    }
  }

  /** The outcomes and notes of the two simulated rounds. */
  const PartialSuccess: string := "partial_success"
  const Success: string := "success"
  const RevisedOfferNote: string := "Supplier acknowledged savings targets and submitted revised offer."
  const AgreedNote: string := "Negotiation successful. Final cost meets savings expectations."

  /**
   * The two negotiation rounds recorded with an approved sample: an opening offer
   * above the analysed total and a closing one at it, each against a lower target.
   */
  function SimulatedRounds(ca: CostAnalysisRecord): (its: seq<NegotiationIteration>)
    ensures |its| == 2
    ensures its[0].iterationNumber == 1 && its[1].iterationNumber == 2
    ensures its[1].proposedCost == ca.totalCost && its[1].outcome == Success
    ensures its[0].outcome == PartialSuccess
    ensures its[1].proposedCost < its[0].proposedCost
    ensures forall i :: 0 <= i < 2 ==> its[i].targetCost < its[i].proposedCost
  {
    var t := ca.totalCost;
    [ NegotiationIteration(1, Round2(t + 150.0), Round2(t - 200.0), PartialSuccess, RevisedOfferNote),
      NegotiationIteration(2, t, Round2(t - 100.0), Success, AgreedNote) ]
  }

  const DefaultReviewer: string := "Quality Reviewer"

  /** The sample after review: the verdict, the notes and the reviewer recorded. */
  function ReviewedSample(s: Sample, body: Body, reviewedAt: Timestamp): (r: Sample)
    ensures r.id == s.id && r.priceQuoted == s.priceQuoted && r.quantity == s.quantity
    ensures r.qualityApproved == Some(body.qualityApproved)
    ensures r.qualityNotes == Some(TextOr(body.qualityNotes, ""))
    ensures r.qualityReviewedBy.Some? && r.qualityReviewedBy.value != ""
    ensures r.qualityReviewedAt == Some(reviewedAt)
  {
    s.(qualityApproved := Some(body.qualityApproved),
       qualityNotes := Some(TextOr(body.qualityNotes, "")),
       qualityReviewedBy := Some(TextOr(body.reviewedBy, DefaultReviewer)),
       qualityReviewedAt := Some(reviewedAt))
  }

  /**
   * The supplier after review: approved, it is cost-analysed with two negotiation
   * rounds; rejected, it loses any analysis and rounds.
   */
  function ReviewedSupplier(s: Supplier, body: Body, reviewedAt: Timestamp): (r: Supplier)
    requires s.sample.Some?
    ensures r.id == s.id && r.sample == Some(ReviewedSample(s.sample.value, body, reviewedAt))
    ensures body.qualityApproved ==>
              && r.status == CostAnalyzed
              && r.costAnalysis == Some(ApprovedCostAnalysis(s.sample.value.priceQuoted))
              && r.negotiationIterations == SimulatedRounds(r.costAnalysis.value)
    ensures !body.qualityApproved ==>
              r.status == QualityRejected && r.costAnalysis.None? && r.negotiationIterations == []
  {
    var sample := ReviewedSample(s.sample.value, body, reviewedAt);
    if body.qualityApproved then
      var ca := ApprovedCostAnalysis(sample.priceQuoted);
      s.(sample := Some(sample), status := CostAnalyzed, costAnalysis := Some(ca),
         negotiationIterations := SimulatedRounds(ca))
    else
      s.(sample := Some(sample), status := QualityRejected, costAnalysis := None,
         negotiationIterations := [])
  }

  function ReviewStatus(approved: bool): RequirementStatus {
    if approved then RequirementStatus.CostAnalysis else RequirementStatus.Rejected
  }

  // -------------------------------------------------------------- shortlist

  /** A supplier the shortlist may take: cost-analysed and at that stage or later. */
  predicate Eligible(s: Supplier) {
    s.costAnalysis.Some? && s.status in {CostAnalyzed, SupplierStatus.Shortlisted, SupplierStatus.Onboarding}
  }

  /** The sort key `cost_analysis?.total_cost ?? 0`. */
  function TotalCostKey(s: Supplier): real {
    if s.costAnalysis.Some? then s.costAnalysis.value.totalCost else 0.0
  }

  function SavingsPercentageOr0(s: Supplier): real {
    if s.costAnalysis.Some? then s.costAnalysis.value.savingsPercentage else 0.0
  }

  /** The eligible suppliers, the highest total cost first, ties in list order. */
  function Candidates(ss: seq<Supplier>): seq<Supplier> {
    SortDesc(Lookup.Filter(ss, Eligible), TotalCostKey)
  }

  const TopRecommendation: string := "Recommended for onboarding. Strong performance across quality and savings."
  const BackupRecommendation: string := "Suitable for consideration as a backup supplier."

  function EntryFor(s: Supplier, index: nat, createdAt: Timestamp): (e: ShortlistEntry)
    ensures e.supplierId == s.id && e.rank == index + 1 && e.createdAt == createdAt
    ensures e.recommendation == if index == 0 then TopRecommendation else BackupRecommendation
    ensures e.costScore - 0.05 <= SavingsPercentageOr0(s) + 70.0 <= e.costScore + 0.05
    ensures e.qualityScore - 0.05 <= s.qualityRating * 20.0 <= e.qualityScore + 0.05
    ensures e.integratedScore - 0.05 <= s.overallScore + SavingsPercentageOr0(s) / 2.0 <= e.integratedScore + 0.05
  {
    var pct := SavingsPercentageOr0(s);
    ShortlistEntry(
      s.id, index + 1,
      Round1(s.overallScore + pct / 2.0),
      Round1(pct + 70.0),
      Round1(s.qualityRating * 20.0),
      if index == 0 then TopRecommendation else BackupRecommendation,
      createdAt)
  }

  /** The entries `ensureShortlist` would build: the first three candidates, ranked. */
  function ShortlistEntries(cands: seq<Supplier>, clock: Clock): (es: seq<ShortlistEntry>)
    ensures |es| == Lookup.Min(3, |cands|)
    ensures forall i :: 0 <= i < |es| ==> es[i] == EntryFor(cands[i], i, clock(i))
  {
    seq(Lookup.Min(3, |cands|), i requires 0 <= i < Lookup.Min(3, |cands|) => EntryFor(cands[i], i, clock(i)))
  }

  /** The entries a shortlist request adds: none when the requirement has a shortlist. */
  function NewShortlist(req: Requirement, clock: Clock): seq<ShortlistEntry> {
    if |req.shortlist| > 0 then [] else ShortlistEntries(Candidates(req.suppliers), clock)
  }

  /**
   * `createShortlist` on one requirement: the shortlist is built if there is none,
   * the status becomes shortlisted whatever was found, and the clock is read once
   * per new entry and once more for the update time.
   */
  function ShortlistedRequirement(req: Requirement, clock: Clock): (r: Requirement)
    ensures r.status == RequirementStatus.Shortlisted
    ensures r.suppliers == req.suppliers && r.id == req.id
    ensures |req.shortlist| > 0 ==> r.shortlist == req.shortlist
  {
    var added := NewShortlist(req, clock);
    req.(shortlist := if |req.shortlist| > 0 then req.shortlist else added,
         status := RequirementStatus.Shortlisted,
         updatedAt := clock(|added|))
  }

  /** Every candidate is an eligible supplier of the list. */
  lemma CandidateIsEligible(ss: seq<Supplier>, i: nat)
    requires i < |Candidates(ss)|
    ensures Candidates(ss)[i] in ss && Eligible(Candidates(ss)[i])
  {
    var k := Sorting.SortedEntryIsInput(Lookup.Filter(ss, Eligible), TotalCostKey, i);
  }

  /** Every eligible supplier of the list is a candidate. */
  lemma EligibleIsCandidate(ss: seq<Supplier>, s: Supplier) returns (j: nat)
    requires s in ss && Eligible(s)
    ensures j < |Candidates(ss)| && Candidates(ss)[j] == s
  {
    var filtered := Lookup.Filter(ss, Eligible);
    var k :| 0 <= k < |ss| && ss[k] == s;
    assert s in filtered;
    var f :| 0 <= f < |filtered| && filtered[f] == s;
    j := Sorting.InputEntryIsSorted(filtered, TotalCostKey, f);
  }

  /** The first `n` candidates are eligible suppliers of the list, and no eligible supplier left out costs more. */
  lemma {:induction false} LeadingCandidates(ss: seq<Supplier>, n: nat)
    requires n <= |Candidates(ss)|
    ensures forall i :: 0 <= i < n ==> Candidates(ss)[i] in ss && Eligible(Candidates(ss)[i])
    ensures forall s, i :: s in ss && Eligible(s) && s !in Candidates(ss)[..n] && 0 <= i < n ==>
              TotalCostKey(s) <= TotalCostKey(Candidates(ss)[i])
  {
    var cands := Candidates(ss);
    forall i | 0 <= i < n ensures cands[i] in ss && Eligible(cands[i]) {
      CandidateIsEligible(ss, i);
    }
    forall s, i | s in ss && Eligible(s) && s !in cands[..n] && 0 <= i < n
      ensures TotalCostKey(s) <= TotalCostKey(cands[i])
    {
      forall t | 0 <= t < n ensures cands[t] != s {
        assert cands[t] == cands[..n][t] && cands[..n][t] in cands[..n];
      }
      var j := EligibleIsCandidate(ss, s);
    }
  }

  /**
   * A built shortlist holds the leading candidates: at most three, ranked from 1,
   * one per candidate in candidate order, the first recommended for onboarding.
   */
  lemma {:induction false} ShortlistIsTopByTotalCost(req: Requirement, clock: Clock)
    requires req.shortlist == []
    ensures var es := ShortlistedRequirement(req, clock).shortlist;
      var cands := Candidates(req.suppliers);
      && |cands| == |Lookup.Filter(req.suppliers, Eligible)|
      && |es| == Lookup.Min(3, |cands|)
      && (forall i :: 0 <= i < |es| ==> es[i].rank == i + 1 && es[i].supplierId == cands[i].id)
      && (|es| > 0 ==> es[0].recommendation == TopRecommendation)
  {
    var es := ShortlistedRequirement(req, clock).shortlist;
    assert es == ShortlistEntries(Candidates(req.suppliers), clock);
  }

  /**
   * The suppliers a built shortlist takes are eligible suppliers of the
   * requirement in descending total cost, and no eligible supplier left out has a
   * higher total cost than any that was taken.
   */
  lemma {:induction false} ShortlistTakesCostliest(req: Requirement, clock: Clock)
    requires req.shortlist == []
    ensures var n := |ShortlistedRequirement(req, clock).shortlist|;
      var cands := Candidates(req.suppliers);
      && n <= |cands|
      && (forall i :: 0 <= i < n ==> cands[i] in req.suppliers && Eligible(cands[i]))
      && (forall i, j :: 0 <= i < j < n ==> TotalCostKey(cands[i]) >= TotalCostKey(cands[j]))
      && (forall s, i :: s in req.suppliers && Eligible(s) && s !in cands[..n] && 0 <= i < n ==>
            TotalCostKey(s) <= TotalCostKey(cands[i]))
  {
    ShortlistIsTopByTotalCost(req, clock);
    LeadingCandidates(req.suppliers, |ShortlistedRequirement(req, clock).shortlist|);
  }

  /** Asking twice for a shortlist gives the same shortlist as asking once. */
  lemma {:induction false} ShortlistSettles(req: Requirement, clock1: Clock, clock2: Clock)
    ensures var once := ShortlistedRequirement(req, clock1);
      ShortlistedRequirement(once, clock2).shortlist == once.shortlist
  {
    var once := ShortlistedRequirement(req, clock1);
    if |req.shortlist| == 0 && |once.shortlist| == 0 {
      assert Candidates(once.suppliers) == Candidates(req.suppliers);
      assert |Candidates(req.suppliers)| == 0;
    }
  }

  // ------------------------------------------------------------- onboarding

  const OnboardingNote: string := "Onboarding initiated | Risk: Low | Timeline: 2 weeks"

  /** The notes after onboarding: the onboarding line appended after any earlier notes. */
  function OnboardedNotes(notes: string): (r: string)
    ensures |r| > |notes| && |r| >= |OnboardingNote|
    ensures notes != "" ==> |r| >= |notes| + 3
    ensures r[|r| - |OnboardingNote|..] == OnboardingNote
    ensures notes != "" ==> r[..|notes| + 3] == notes + " | "
    ensures notes == "" ==> r == OnboardingNote
  {
    if notes != "" then notes + " | " + OnboardingNote else OnboardingNote
  }

  function OnboardedSupplier(s: Supplier): (r: Supplier)
    ensures r.status == SupplierStatus.Onboarding && r.notes == OnboardedNotes(s.notes)
    ensures r.(status := s.status, notes := s.notes) == s
  {
    s.(status := SupplierStatus.Onboarding, notes := OnboardedNotes(s.notes))
  }

  /** Onboarding is not idempotent: every call appends to the notes once more. */
  lemma OnboardingAppendsEachTime(s: Supplier)
    ensures |OnboardedSupplier(OnboardedSupplier(s)).notes| > |OnboardedSupplier(s).notes|
    ensures OnboardedSupplier(OnboardedSupplier(s)) != OnboardedSupplier(s)
  {
  }

  // ------------------------------------------------------------ requirements

  /** The requirement `createRequirement` stores under `id`. */
  function NewRequirement(id: int, body: Body, now: Timestamp): (r: Requirement)
    ensures r.id == id && r.status == RequirementStatus.Scouting
    ensures r.createdAt == now && r.updatedAt == now
    ensures r.suppliers == [] && r.shortlist == []
    ensures r.quantity == NumberOr(body.quantity, 0.0)
    ensures r.requiredCertifications == if body.requiredCertifications.Some? then body.requiredCertifications.value else []
  {
    Requirement(id, body.title, body.description, body.category, NumberOr(body.quantity, 0.0), body.unit,
                if body.requiredCertifications.Some? then body.requiredCertifications.value else [],
                RequirementStatus.Scouting, now, now, [], [])
  }

  function RequirementSummaryOf(r: Requirement): RequirementSummary {
    RequirementSummary(r.id, r.title, r.status, r.createdAt)
  }

  /** Sort key of the requirement list: the id. */
  function IdKey(r: Requirement): real {
    r.id as real
  }

  /**
   * `supplier.id === supplierId` on some supplier of the requirement. The id is
   * compared as a number, so an id with a fractional part matches nobody.
   */
  function SupplierIndex(req: Requirement, supplierId: real): (r: Option<nat>)
    ensures r.Some? ==> r.value < |req.suppliers| && req.suppliers[r.value].id as real == supplierId
    ensures r.Some? ==> forall i :: 0 <= i < r.value ==> req.suppliers[i].id as real != supplierId
    ensures r.None? ==> forall i :: 0 <= i < |req.suppliers| ==> req.suppliers[i].id as real != supplierId
  {
    Lookup.FindIndex(req.suppliers, (s: Supplier) => s.id as real == supplierId)
  }

  predicate HasSupplier(req: Requirement, supplierId: real) {
    SupplierIndex(req, supplierId).Some?
  }

  /** `supplier.sample?.id === sampleId` on some supplier of the requirement. */
  function SampleOwnerIndex(req: Requirement, sampleId: int): (r: Option<nat>)
    ensures r.Some? ==> r.value < |req.suppliers| && req.suppliers[r.value].sample.Some?
                        && req.suppliers[r.value].sample.value.id == sampleId
    ensures r.Some? ==> forall i :: 0 <= i < r.value ==>
                          req.suppliers[i].sample.None? || req.suppliers[i].sample.value.id != sampleId
    ensures r.None? ==> forall i :: 0 <= i < |req.suppliers| ==>
                          req.suppliers[i].sample.None? || req.suppliers[i].sample.value.id != sampleId
  {
    Lookup.FindIndex(req.suppliers, (s: Supplier) => s.sample.Some? && s.sample.value.id == sampleId)
  }

  predicate HasSample(req: Requirement, sampleId: int) {
    SampleOwnerIndex(req, sampleId).Some?
  }
}
