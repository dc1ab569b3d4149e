/**
 * The workflow rules of the backend's request handlers (backend/main.py) that do
 * not depend on the database: the bounded negotiation loop and the cost-analysis
 * figures recomputed after it, the pricing of an automatic sample order, the
 * price per unit shown for a sample, and the guards that turn a missing or
 * unready record into an HTTP error. The backend's status enums have the same
 * values as the browser engine's, so their datatypes are shared.
 */
module BackendWorkflow {
  import opened Wrappers
  import opened Numeric
  import opened MockTypes
  import opened Negotiation
  import CostAnalysis
  import ScoutingAgent

  /** An `HTTPException`: status code and detail. */
  datatype HttpError = HttpError(status: int, detail: string)

  // ------------------------------------------------------- negotiation rounds

  const MaxIterations: nat := 3

  /** One round as `perform_negotiation_iterations` records it. */
  datatype Round = Round(iteration: nat, proposedCost: real, targetCost: real, strategy: Strategy, outcome: Outcome)

  /** The loop stops after a round that succeeded or whose (rounded) cost reached the target. */
  predicate Stops(r: Round) {
    r.outcome == Success || r.proposedCost <= r.targetCost
  }

  /** The cost round `k` starts from: the initial cost, then the previous round's result. */
  function StartOf(initialCost: real, rounds: seq<Round>, k: nat): real
    requires k <= |rounds|
  {
    if k == 0 then initialCost else rounds[k - 1].proposedCost
  }

  /** Round number `iteration`: one negotiation from `currentCost` towards `targetCost`. */
  function RoundFrom(iteration: nat, supplierId: int, supplierName: string, currentCost: real,
                     targetCost: real, draw: NegotiationDraw): (r: Round)
    requires currentCost != 0.0 && ValidDraw(draw)
  {
    var result := Negotiate(supplierId, supplierName, currentCost, targetCost, None, draw);
    Round(iteration, result.negotiatedCost, targetCost, result.strategy, result.outcome)
  }

  /**
   * Every round in `rounds` is the negotiation its position, start cost and draw
   * call for (stated on the last round, the rest by recursion).
   */
  predicate RoundsFollow(supplierId: int, supplierName: string, initialCost: real,
                         draws: seq<NegotiationDraw>, rounds: seq<Round>)
    decreases |rounds|
  {
    && |rounds| <= |draws|
    && (rounds == [] ||
        var n := |rounds| - 1;
        && RoundsFollow(supplierId, supplierName, initialCost, draws, rounds[..n])
        && StartOf(initialCost, rounds, n) != 0.0
        && ValidDraw(draws[n])
        && rounds[n] == RoundFrom(n + 1, supplierId, supplierName, StartOf(initialCost, rounds, n),
                                  initialCost * 0.9, draws[n]))
  }

  /** Round `k` of rounds that follow is the negotiation for its position. */
  lemma {:induction false} RoundAt(supplierId: int, supplierName: string, initialCost: real,
                                   draws: seq<NegotiationDraw>, rounds: seq<Round>, k: nat)
    requires RoundsFollow(supplierId, supplierName, initialCost, draws, rounds)
    requires k < |rounds|
    ensures k < |draws| && ValidDraw(draws[k]) && StartOf(initialCost, rounds, k) != 0.0
    ensures rounds[k] == RoundFrom(k + 1, supplierId, supplierName, StartOf(initialCost, rounds, k),
                                   initialCost * 0.9, draws[k])
  {
    var n := |rounds| - 1;
    if k < n {
      var prefix := rounds[..n];
      RoundAt(supplierId, supplierName, initialCost, draws, prefix, k);
      assert prefix[k] == rounds[k];
      assert StartOf(initialCost, prefix, k) == StartOf(initialCost, rounds, k);
    }
  }

  /**
   * The log `perform_negotiation_iterations` returns: one to three rounds, each
   * chained from the last, every round but the last one that did not stop the
   * loop, and the last one either stopping it or the third.
   */
  predicate NegotiationLog(supplierId: int, supplierName: string, initialCost: real,
                           draws: seq<NegotiationDraw>, rounds: seq<Round>)
  {
    && 1 <= |rounds| <= MaxIterations
    && RoundsFollow(supplierId, supplierName, initialCost, draws, rounds)
    && (forall k :: 0 <= k < |rounds| - 1 ==> !Stops(rounds[k]))
    && (|rounds| < MaxIterations ==> Stops(rounds[|rounds| - 1]))
  }

  /**
   * The initial costs the negotiation loop is modelled from: any positive cost, and
   * a negative one (left by a negative quote) of -1 or below, whose rounds cannot
   * round it to zero within three iterations.
   */
  predicate NegotiableCost(initialCost: real) {
    initialCost > 0.0 || initialCost <= -1.0
  }

  /**
   * `perform_negotiation_iterations`: negotiates towards 90% of the initial cost,
   * each round starting from the cost the previous one reached, and stops after
   * the first round that succeeds or reaches the target, or after the third.
   */
  method PerformNegotiationIterations(supplierId: int, supplierName: string, initialCost: real,
                                      draws: seq<NegotiationDraw>)
    returns (rounds: seq<Round>)
    requires NegotiableCost(initialCost)
    requires |draws| >= MaxIterations && forall i :: 0 <= i < |draws| ==> ValidDraw(draws[i])
    ensures NegotiationLog(supplierId, supplierName, initialCost, draws, rounds)
  {
    rounds := [];
    var currentCost := initialCost;
    var targetCost := initialCost * 0.9;
    var iterationNum := 1;
    while iterationNum <= MaxIterations
      invariant 1 <= iterationNum <= MaxIterations + 1
      invariant |rounds| == iterationNum - 1
      invariant currentCost == StartOf(initialCost, rounds, |rounds|)
      invariant initialCost > 0.0 ==> currentCost > 0.0
      invariant initialCost < 0.0 ==> currentCost <= 0.2 * (iterationNum as real) - 1.2
      invariant RoundsFollow(supplierId, supplierName, initialCost, draws, rounds)
      invariant forall k :: 0 <= k < |rounds| ==> !Stops(rounds[k])
    {
      var round := RoundFrom(iterationNum, supplierId, supplierName, currentCost, targetCost, draws[iterationNum - 1]);
      AppendRound(supplierId, supplierName, initialCost, draws, rounds, round);
      ContinuedCostBound(initialCost, currentCost, draws[iterationNum - 1].reduction, iterationNum);
      rounds := rounds + [round];
      currentCost := round.proposedCost;
      if Stops(round) {
        break;
      }
      iterationNum := iterationNum + 1;
    }
  }

  /**
   * A round that does not stop the loop keeps the next start away from zero: a
   * positive cost stays above the positive target, and a cost of -1 or below moves
   * towards zero by at most 15% and half a cent per round.
   */
  lemma ContinuedCostBound(initialCost: real, currentCost: real, reduction: real, iterationNum: nat)
    requires NegotiableCost(initialCost) && 1 <= iterationNum <= MaxIterations
    requires initialCost < 0.0 ==> currentCost <= 0.2 * (iterationNum as real) - 1.2
    requires 0.05 <= reduction <= 0.15
    ensures var next := SimulateNegotiation(currentCost, initialCost * 0.9, reduction).newCost;
      && (initialCost > 0.0 && next > initialCost * 0.9 ==> next > 0.0)
      && (initialCost < 0.0 ==> next <= 0.2 * ((iterationNum + 1) as real) - 1.2)
  {
  }

  /** Appending the round that follows keeps the rounds following. */
  lemma AppendRound(supplierId: int, supplierName: string, initialCost: real,
                    draws: seq<NegotiationDraw>, rounds: seq<Round>, round: Round)
    requires RoundsFollow(supplierId, supplierName, initialCost, draws, rounds)
    requires |rounds| < |draws| && ValidDraw(draws[|rounds|])
    requires StartOf(initialCost, rounds, |rounds|) != 0.0
    requires round == RoundFrom(|rounds| + 1, supplierId, supplierName, StartOf(initialCost, rounds, |rounds|),
                                initialCost * 0.9, draws[|rounds|])
    ensures RoundsFollow(supplierId, supplierName, initialCost, draws, rounds + [round])
  {
    var next := rounds + [round];
    assert next[..|rounds|] == rounds;
    assert StartOf(initialCost, next, |rounds|) == StartOf(initialCost, rounds, |rounds|);
  }

  /**
   * The log is determined by its inputs: whatever way it is produced, the rounds
   * are the same.
   */
  lemma {:induction false} NegotiationLogUnique(supplierId: int, supplierName: string, initialCost: real,
                                                draws: seq<NegotiationDraw>, a: seq<Round>, b: seq<Round>)
    requires NegotiationLog(supplierId, supplierName, initialCost, draws, a)
    requires NegotiationLog(supplierId, supplierName, initialCost, draws, b)
    ensures a == b
  {
    var m := if |a| < |b| then |a| else |b|;
    var k := 0;
    while k < m
      invariant 0 <= k <= m
      invariant a[..k] == b[..k]
    {
      SameRoundAt(supplierId, supplierName, initialCost, draws, a, b, k);
      assert a[..k + 1] == a[..k] + [a[k]] && b[..k + 1] == b[..k] + [b[k]];
      k := k + 1;
    }
    assert a[m - 1] == b[m - 1];
    assert |a| == |b|;
    assert a == a[..m] && b == b[..m];
  }

  /** Two following logs that agree before round `k` agree on round `k`. */
  lemma SameRoundAt(supplierId: int, supplierName: string, initialCost: real,
                    draws: seq<NegotiationDraw>, a: seq<Round>, b: seq<Round>, k: nat)
    requires RoundsFollow(supplierId, supplierName, initialCost, draws, a)
    requires RoundsFollow(supplierId, supplierName, initialCost, draws, b)
    requires k < |a| && k < |b| && a[..k] == b[..k]
    ensures a[k] == b[k]
  {
    RoundAt(supplierId, supplierName, initialCost, draws, a, k);
    RoundAt(supplierId, supplierName, initialCost, draws, b, k);
    if k > 0 {
      assert a[k - 1] == a[..k][k - 1] == b[..k][k - 1] == b[k - 1];
    }
    assert StartOf(initialCost, a, k) == StartOf(initialCost, b, k);
  }

  /**
   * What the log promises: rounds numbered 1, 2, ...; the target is 90% of the
   * initial cost throughout; every round before the last stayed above it; and, for
   * a positive initial cost, from the second round on the cost never rises.
   */
  lemma NegotiationLogFacts(supplierId: int, supplierName: string, initialCost: real,
                            draws: seq<NegotiationDraw>, rounds: seq<Round>)
    requires NegotiationLog(supplierId, supplierName, initialCost, draws, rounds)
    ensures forall k :: 0 <= k < |rounds| ==> rounds[k].iteration == k + 1
    ensures forall k :: 0 <= k < |rounds| ==> rounds[k].targetCost == initialCost * 0.9
    ensures forall k :: 0 <= k < |rounds| - 1 ==> rounds[k].proposedCost > initialCost * 0.9
    ensures initialCost > 0.0 ==>
              forall k :: 1 <= k < |rounds| ==> rounds[k].proposedCost <= rounds[k - 1].proposedCost
  {
    forall k | 0 <= k < |rounds|
      ensures rounds[k].iteration == k + 1 && rounds[k].targetCost == initialCost * 0.9
    {
      RoundAt(supplierId, supplierName, initialCost, draws, rounds, k);
    }
    forall k | 1 <= k < |rounds| && initialCost > 0.0
      ensures rounds[k].proposedCost <= rounds[k - 1].proposedCost
    {
      RoundAt(supplierId, supplierName, initialCost, draws, rounds, k - 1);
      RoundAt(supplierId, supplierName, initialCost, draws, rounds, k);
      var prior := StartOf(initialCost, rounds, k - 1);
      assert prior > 0.0 by {
        if k >= 2 {
          assert !Stops(rounds[k - 2]);
        }
      }
      assert rounds[k - 1].proposedCost == SimulateNegotiation(prior, initialCost * 0.9, draws[k - 1].reduction).newCost;
      StepAfterStepNeverRises(prior, initialCost * 0.9, draws[k - 1].reduction, draws[k].reduction);
    }
  }

  // ------------------------------------------------- after the negotiation

  /** The cost-analysis figures recomputed from the final negotiated cost. */
  datatype Figures = Figures(totalCost: real, savings: real, savingsPercentage: real, meetsExpectations: bool)

  /**
   * The update after negotiation: the final cost becomes the total, the savings and
   * their percentage are recomputed against the current-supplier cost, and the
   * expectations are met when the percentage is at least 5, that is, when the final
   * cost is at most 95% of a positive current-supplier cost.
   */
  function NegotiatedFigures(currentSupplierCost: real, finalCost: real): (f: Figures)
    ensures f.totalCost == finalCost && f.savings == currentSupplierCost - finalCost
    ensures f.savingsPercentage == CostAnalysis.SavingsPercentage(f.savings, currentSupplierCost)
    ensures f.meetsExpectations <==> currentSupplierCost > 0.0 && finalCost <= 0.95 * currentSupplierCost
  {
    var savings := currentSupplierCost - finalCost;
    var pct := CostAnalysis.SavingsPercentage(savings, currentSupplierCost);
    CostAnalysis.SavingsPercentageFivePercent(savings, currentSupplierCost);
    Figures(finalCost, savings, pct, pct >= 5.0)
  }

  /** The stored cost analysis of one supplier, whose fields the handlers assign. */
  class AnalysisRow {
    var proposedCost: real
    var totalCost: real
    var currentSupplierCost: real
    var savings: real
    var savingsPercentage: real
    var meetsExpectations: bool

    constructor (proposed: real, total: real, currentSupplier: real, saved: real, percentage: real, meets: bool)
      ensures proposedCost == proposed && totalCost == total && currentSupplierCost == currentSupplier
      ensures savings == saved && savingsPercentage == percentage && meetsExpectations == meets
    {
      proposedCost := proposed;
      totalCost := total;
      currentSupplierCost := currentSupplier;
      savings := saved;
      savingsPercentage := percentage;
      meetsExpectations := meets;
    }

    function Current(): Figures
      reads this
    {
      Figures(totalCost, savings, savingsPercentage, meetsExpectations)
    }

    /** The field-by-field update with the final negotiated cost. */
    method ApplyNegotiatedCost(finalCost: real)
      modifies this
      ensures proposedCost == finalCost
      ensures currentSupplierCost == old(currentSupplierCost)
      ensures Current() == NegotiatedFigures(old(currentSupplierCost), finalCost)
    {
      proposedCost := finalCost;
      totalCost := finalCost;
      savings := currentSupplierCost - finalCost;
      savingsPercentage := if currentSupplierCost > 0.0 then savings / currentSupplierCost * 100.0 else 0.0;
      meetsExpectations := savingsPercentage >= 5.0;
    }
  }

  /**
   * After the automatic cost analysis: a supplier whose savings meet expectations
   * is shortlisted at once; otherwise it is negotiated for, the analysis updated
   * with the final cost, and the supplier shortlisted only if the update meets
   * expectations (else it stays cost-analyzed).
   */
  method SettleAutomaticAnalysis(row: AnalysisRow, supplierId: int, supplierName: string,
                                 draws: seq<NegotiationDraw>)
    returns (status: SupplierStatus, rounds: seq<Round>)
    requires !row.meetsExpectations ==> NegotiableCost(row.totalCost)
    requires |draws| >= MaxIterations && forall i :: 0 <= i < |draws| ==> ValidDraw(draws[i])
    modifies row
    ensures old(row.meetsExpectations) ==>
              status == SupplierStatus.Shortlisted && rounds == [] && row.Current() == old(row.Current())
    ensures !old(row.meetsExpectations) ==>
              && NegotiationLog(supplierId, supplierName, old(row.totalCost), draws, rounds)
              && row.Current() == NegotiatedFigures(old(row.currentSupplierCost), rounds[|rounds| - 1].proposedCost)
              && (status == if row.meetsExpectations then SupplierStatus.Shortlisted else SupplierStatus.CostAnalyzed)
  {
    if row.meetsExpectations {
      return SupplierStatus.Shortlisted, [];
    }
    rounds := PerformNegotiationIterations(supplierId, supplierName, row.totalCost, draws);
    var finalCost := rounds[|rounds| - 1].proposedCost;
    row.ApplyNegotiatedCost(finalCost);
    status := if row.meetsExpectations then SupplierStatus.Shortlisted else SupplierStatus.CostAnalyzed;
  }

  /**
   * The negotiation endpoint: negotiates from the stored total, updates the
   * analysis, and shortlists both the supplier and its requirement whatever the
   * outcome; the final cost is the last round's.
   */
  method NegotiateEndpoint(row: AnalysisRow, supplierId: int, supplierName: string,
                           draws: seq<NegotiationDraw>)
    returns (supplierStatus: SupplierStatus, requirementStatus: RequirementStatus,
             rounds: seq<Round>, finalCost: real)
    requires NegotiableCost(row.totalCost)
    requires |draws| >= MaxIterations && forall i :: 0 <= i < |draws| ==> ValidDraw(draws[i])
    modifies row
    ensures NegotiationLog(supplierId, supplierName, old(row.totalCost), draws, rounds)
    ensures finalCost == rounds[|rounds| - 1].proposedCost
    ensures row.Current() == NegotiatedFigures(old(row.currentSupplierCost), finalCost)
    ensures supplierStatus == SupplierStatus.Shortlisted && requirementStatus == RequirementStatus.Shortlisted
  {
    rounds := PerformNegotiationIterations(supplierId, supplierName, row.totalCost, draws);
    finalCost := rounds[|rounds| - 1].proposedCost;
    row.ApplyNegotiatedCost(finalCost);
    supplierStatus := SupplierStatus.Shortlisted;
    requirementStatus := RequirementStatus.Shortlisted;
  }

  // ------------------------------------------------------------ sample pricing

  /** `auto_place_sample_order`: 100 a unit, up to 30% more the less competitive the supplier. */
  function AutoPricePerUnit(priceCompetitiveness: real): (ppu: real)
    ensures 0.0 <= priceCompetitiveness <= 100.0 ==> 100.0 <= ppu <= 130.0
    ensures ppu == 130.0 - 0.3 * priceCompetitiveness
  {
    var priceFactor := (100.0 - priceCompetitiveness) / 100.0;
    100.0 * (1.0 + priceFactor * 0.3)
  }

  /** A more competitive supplier never quotes a higher unit price. */
  lemma AutoPriceFallsWithCompetitiveness(p: real, q: real)
    requires p <= q
    ensures AutoPricePerUnit(q) <= AutoPricePerUnit(p)
  {
  }

  datatype SamplePricing = SamplePricing(quantity: real, pricePerUnit: real, priceQuoted: real)

  /**
   * The automatic sample order: 10% to 20% of the requirement's quantity, rounded
   * to two places, quoted at the unit price above and rounded to cents.
   */
  function AutoSamplePricing(requirementQuantity: real, priceCompetitiveness: real, draw: real)
    : (s: SamplePricing)
    requires 0.10 <= draw <= 0.20
    ensures requirementQuantity >= 0.0 ==>
              0.1 * requirementQuantity - 0.005 <= s.quantity <= 0.2 * requirementQuantity + 0.005
    ensures s.pricePerUnit == AutoPricePerUnit(priceCompetitiveness)
    ensures s.quantity * s.pricePerUnit - 0.005 <= s.priceQuoted <= s.quantity * s.pricePerUnit + 0.005
  {
    var sampleQuantity := Round2(requirementQuantity * draw);
    SampleShare(requirementQuantity, draw);
    var ppu := AutoPricePerUnit(priceCompetitiveness);
    SamplePricing(sampleQuantity, ppu, Round2(sampleQuantity * ppu))
  }

  lemma SampleShare(q: real, draw: real)
    requires 0.10 <= draw <= 0.20
    ensures q >= 0.0 ==> 0.1 * q - 0.005 <= Round2(q * draw) <= 0.2 * q + 0.005
  {
    if q >= 0.0 {
      ProductNonNegative(q, draw - 0.1);
      ProductNonNegative(q, 0.2 - draw);
      assert q * (draw - 0.1) == q * draw - 0.1 * q;
      assert q * (0.2 - draw) == 0.2 * q - q * draw;
      assert q * draw - 0.005 <= Round2(q * draw) <= q * draw + 0.005;
    }
  }

  lemma ProductNonNegative(a: real, b: real)
    requires 0.0 <= a && 0.0 <= b
    ensures 0.0 <= a * b
  {
  }

  /** The unit price `get_requirement` shows: quote over quantity to cents, 0 without a quantity. */
  function DisplayedPricePerUnit(priceQuoted: real, quantity: real): (p: real)
    ensures quantity <= 0.0 ==> p == 0.0
    ensures quantity > 0.0 ==> priceQuoted / quantity - 0.005 <= p <= priceQuoted / quantity + 0.005
  {
    if quantity > 0.0 then Round2(priceQuoted / quantity) else 0.0
  }

  /** A whole-cent unit price is shown back exactly when the quote is quantity times it. */
  lemma DisplayedPriceRecoversUnitPrice(quantity: real, pricePerUnit: real)
    requires quantity > 0.0
    requires Round2(pricePerUnit) == pricePerUnit
    ensures DisplayedPricePerUnit(quantity * pricePerUnit, quantity) == pricePerUnit
  {
    QuotientOfProduct(quantity, pricePerUnit);
  }

  lemma QuotientOfProduct(quantity: real, v: real)
    requires quantity > 0.0
    ensures (quantity * v) / quantity == v
  {
    var x := (quantity * v) / quantity;
    assert x * quantity == v * quantity;
    assert (x - v) * quantity == 0.0;
  }

  // -------------------------------------------------------------------- guards

  /**
   * The guard of the cost-analysis endpoint: 404 for an unknown supplier, 400 unless
   * its quality was approved; no error exactly for an approved supplier.
   */
  function CostAnalysisGuard(supplier: Option<SupplierStatus>): (e: Option<HttpError>)
    ensures e.None? <==> supplier == Some(SupplierStatus.QualityApproved)
    ensures supplier.None? ==> e == Some(HttpError(404, "Supplier not found"))
    ensures supplier.Some? && e.Some? ==> e == Some(HttpError(400, "Supplier must be quality approved first"))
  {
    if supplier.None? then Some(HttpError(404, "Supplier not found"))
    else if supplier.value != SupplierStatus.QualityApproved then
      Some(HttpError(400, "Supplier must be quality approved first"))
    else None
  }

  /** The status a scouted supplier is stored with. */
  function ScoutedStatus(available: bool): (s: SupplierStatus)
    ensures s == SupplierStatus.Discovered <==> available
    ensures s == SupplierStatus.Rejected <==> !available
  {
    if available then SupplierStatus.Discovered else SupplierStatus.Rejected
  }

  /** Since every supplier is taken to be in scope, every scouted supplier is stored as discovered. */
  lemma ScoutedSuppliersAreDiscovered(supplierName: string, requirementDescription: string)
    ensures ScoutedStatus(ScoutingAgent.CheckAvailabilityScope(supplierName, requirementDescription))
            == SupplierStatus.Discovered
  {
  }

  /** `get_requirement`: the stored requirement, or 404 when there is none with the id. */
  function GetRequirement<R>(requirements: map<int, R>, id: int): (r: Result<R, HttpError>)
    ensures r.Ok? <==> id in requirements
    ensures r.Ok? ==> r.value == requirements[id]
    ensures r.Err? ==> r.error == HttpError(404, "Requirement not found")
  {
    if id in requirements then Ok(requirements[id]) else Err(HttpError(404, "Requirement not found"))
  }
}
