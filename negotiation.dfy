/**
 * The backend's negotiation agent (backend/agents/negotiation_agent.py): one
 * negotiation step takes a cost and a target, picks a market scenario and a
 * strategy template, and lowers the cost by a random 5% to 15%; the step succeeds
 * when the lowered cost reaches the target.
 */
module Negotiation {
  import opened Wrappers
  import opened Numeric

  /** The market conditions a strategy is written for. */
  datatype MarketScenario = MarketScenario(
    marketTrend: string,
    supplyAvailability: string,
    competitorPricing: string,
    demandLevel: string,
    economicIndicators: string)

  /** `_get_market_scenario`: the three scenarios one is drawn from. */
  const Scenarios: seq<MarketScenario> := [
    MarketScenario("stable", "good", "competitive", "moderate", "favorable"),
    MarketScenario("declining", "excellent", "aggressive", "low", "favorable"),
    MarketScenario("stable", "moderate", "moderate", "moderate", "stable")
  ]

  /** The random draws of one negotiation: a scenario, a strategy template and a reduction. */
  datatype NegotiationDraw = NegotiationDraw(scenarioIndex: nat, templateIndex: nat, reduction: real)

  /** `random.choice` over three scenarios and two templates; `random.uniform(0.05, 0.15)`. */
  predicate ValidDraw(d: NegotiationDraw) {
    d.scenarioIndex < |Scenarios| && d.templateIndex < 2 && 0.05 <= d.reduction <= 0.15
  }

  /** The scenario a negotiation uses: the one supplied, else the drawn one. */
  function ScenarioFor(given: Option<MarketScenario>, index: nat): (s: MarketScenario)
    requires index < |Scenarios|
    ensures given.Some? ==> s == given.value
    ensures given.None? ==> s in Scenarios
  {
    if given.Some? then given.value else Scenarios[index]
  }

  /** A strategy: which of the two templates, for which scenario, aiming at which reduction. */
  datatype Strategy = Strategy(template: nat, scenario: MarketScenario, savingsNeeded: real)

  /**
   * `_develop_strategy`: the savings needed are the gap to the target as a
   * percentage of the current cost, which must not be 0 (the division raises).
   */
  function DevelopStrategy(currentCost: real, targetCost: real, scenario: MarketScenario, template: nat)
    : (s: Strategy)
    requires currentCost != 0.0
    requires template < 2
    ensures s.template == template && s.scenario == scenario
    ensures s.savingsNeeded * currentCost == (currentCost - targetCost) * 100.0
    ensures currentCost > 0.0 ==> (s.savingsNeeded >= 0.0 <==> targetCost <= currentCost)
  {
    var needed := (currentCost - targetCost) / currentCost * 100.0;
    NeededSign(currentCost, targetCost, needed);
    Strategy(template, scenario, needed)
  }

  lemma NeededSign(currentCost: real, targetCost: real, needed: real)
    requires currentCost != 0.0
    requires needed == (currentCost - targetCost) / currentCost * 100.0
    ensures needed * currentCost == (currentCost - targetCost) * 100.0
    ensures currentCost > 0.0 ==> (needed >= 0.0 <==> targetCost <= currentCost)
  {
    var q := (currentCost - targetCost) / currentCost;
    assert q * currentCost == currentCost - targetCost;
    if currentCost > 0.0 {
      assert q >= 0.0 <==> q * currentCost >= 0.0;
    }
  }

  datatype Outcome = Success | PartialSuccess

  /** What `_simulate_negotiation` reports (the notes are prose and left out). */
  datatype StepResult = StepResult(newCost: real, outcome: Outcome, reductionPercentage: real)

  /**
   * `_simulate_negotiation`: the cost drops by the fraction `reduction`; the target
   * is met when the unrounded new cost reaches it, and the new cost is reported
   * rounded to cents.
   */
  function SimulateNegotiation(currentCost: real, targetCost: real, reduction: real): (r: StepResult)
    requires 0.05 <= reduction <= 0.15
    ensures r.outcome == Success <==> currentCost * (1.0 - reduction) <= targetCost
    ensures 5.0 <= r.reductionPercentage <= 15.0
    ensures currentCost >= 0.0 ==>
              0.85 * currentCost - 0.005 <= r.newCost <= 0.95 * currentCost + 0.005
    ensures currentCost < 0.0 ==>
              0.95 * currentCost - 0.005 <= r.newCost <= 0.85 * currentCost + 0.005
    ensures r.outcome == Success ==> r.newCost <= targetCost + 0.005
  {
    var newCost := currentCost * (1.0 - reduction);
    StepBounds(currentCost, reduction);
    Round2Monotone(500.0 / 100.0, reduction * 100.0);
    Round2Monotone(reduction * 100.0, 1500.0 / 100.0);
    Round2Cents(500);
    Round2Cents(1500);
    StepResult(Round2(newCost), if newCost <= targetCost then Success else PartialSuccess,
               Round2(reduction * 100.0))
  }

  lemma StepBounds(currentCost: real, reduction: real)
    requires 0.05 <= reduction <= 0.15
    ensures currentCost >= 0.0 ==>
              0.85 * currentCost <= currentCost * (1.0 - reduction) <= 0.95 * currentCost
    ensures currentCost >= 0.0 ==>
              0.85 * currentCost - 0.005 <= Round2(currentCost * (1.0 - reduction)) <= 0.95 * currentCost + 0.005
    ensures currentCost < 0.0 ==>
              0.95 * currentCost - 0.005 <= Round2(currentCost * (1.0 - reduction)) <= 0.85 * currentCost + 0.005
  {
    var x := currentCost * (1.0 - reduction);
    if currentCost >= 0.0 {
      assert x == currentCost - currentCost * reduction;
      assert 0.05 * currentCost <= currentCost * reduction <= 0.15 * currentCost;
      assert 0.85 * currentCost <= x <= 0.95 * currentCost;
      assert x - 0.005 <= Round2(x) <= x + 0.005;
    } else {
      var d := -currentCost;
      assert 0.05 * d <= d * reduction <= 0.15 * d;
      assert x == (d * reduction) - d;
      assert 0.95 * currentCost <= x <= 0.85 * currentCost;
      assert x - 0.005 <= Round2(x) <= x + 0.005;
    }
  }

  /**
   * The outcome is judged before rounding: a cost that rounds onto the target can
   * still be only a partial success.
   */
  lemma RoundedCostCanReachTargetOnPartialSuccess()
    ensures var r := SimulateNegotiation(90.004 / 0.9, 90.0, 0.1);
      r.newCost <= 90.0 && r.outcome == PartialSuccess
  {
    assert (90.004 / 0.9) * (1.0 - 0.1) == 90.004;
    assert (90.004 * 100.0 + 0.5).Floor == 9000;
  }

  /** A cost already in whole cents never goes up in a negotiation step. */
  lemma CentsNeverRise(currentCost: real, targetCost: real, reduction: real)
    requires 0.05 <= reduction <= 0.15
    requires currentCost >= 0.0 && Round2(currentCost) == currentCost
    ensures SimulateNegotiation(currentCost, targetCost, reduction).newCost <= currentCost
  {
    StepBounds(currentCost, reduction);
    Round2Monotone(currentCost * (1.0 - reduction), currentCost);
  }

  /** A step from the cost a previous step reported never raises it. */
  lemma StepAfterStepNeverRises(currentCost: real, targetCost: real, first: real, second: real)
    requires 0.05 <= first <= 0.15 && 0.05 <= second <= 0.15
    requires currentCost >= 0.0
    ensures var reached := SimulateNegotiation(currentCost, targetCost, first).newCost;
      SimulateNegotiation(reached, targetCost, second).newCost <= reached
  {
    var reached := SimulateNegotiation(currentCost, targetCost, first).newCost;
    Round2Idempotent(currentCost * (1.0 - first));
    CentsNeverRise(reached, targetCost, second);
  }

  /** What `negotiate` returns (the notes and the timestamp are left out). */
  datatype NegotiationResult = NegotiationResult(
    supplierId: int,
    supplierName: string,
    originalCost: real,
    targetCost: real,
    negotiatedCost: real,
    strategy: Strategy,
    outcome: Outcome)

  /**
   * `negotiate`: chooses the scenario (unless given) and the strategy, runs one
   * step, and reports the original and target costs unchanged beside the rounded
   * negotiated cost.
   */
  function Negotiate(supplierId: int, supplierName: string, currentCost: real, targetCost: real,
                     scenario: Option<MarketScenario>, draw: NegotiationDraw): (r: NegotiationResult)
    requires currentCost != 0.0
    requires ValidDraw(draw)
    ensures r.supplierId == supplierId && r.supplierName == supplierName
    ensures r.originalCost == currentCost && r.targetCost == targetCost
    ensures var step := SimulateNegotiation(currentCost, targetCost, draw.reduction);
      r.negotiatedCost == step.newCost && r.outcome == step.outcome
    ensures r.strategy == DevelopStrategy(currentCost, targetCost, ScenarioFor(scenario, draw.scenarioIndex),
                                          draw.templateIndex)
  {
    var strategy := DevelopStrategy(currentCost, targetCost, ScenarioFor(scenario, draw.scenarioIndex),
                                    draw.templateIndex);
    var step := SimulateNegotiation(currentCost, targetCost, draw.reduction);
    NegotiationResult(supplierId, supplierName, currentCost, targetCost, step.newCost, strategy, step.outcome)
  }
}
