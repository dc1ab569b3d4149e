/**
 * The backend's cost analysis (backend/services/cost_analysis.py): the total cost
 * of an offer is its price times the quantity plus a transportation cost chosen by
 * location; it is compared with the cheapest built-in current supplier, and the
 * savings meet expectations when they are at least 5% of that cost.
 */
module CostAnalysis {
  import opened Wrappers
  import opened Numeric
  import opened Text

  // ------------------------------------------------------- current suppliers

  /** A current supplier: unit base cost and unit transportation cost. */
  datatype CurrentSupplier = CurrentSupplier(name: string, baseCost: real, transportationCost: real)

  const CurrentSuppliers: seq<CurrentSupplier> := [
    CurrentSupplier("Current Supplier A", 1000.0, 150.0),
    CurrentSupplier("Current Supplier B", 950.0, 180.0)
  ]

  /** What buying `quantity` from `s` costs. */
  function CurrentCost(s: CurrentSupplier, quantity: real): real {
    (s.baseCost + s.transportationCost) * quantity
  }

  /** `_compare_with_current_suppliers`: the least current cost for the quantity. */
  function BestCurrentCost(suppliers: seq<CurrentSupplier>, quantity: real): (best: real)
    requires |suppliers| > 0
    ensures forall i :: 0 <= i < |suppliers| ==> best <= CurrentCost(suppliers[i], quantity)
    ensures exists i :: 0 <= i < |suppliers| && best == CurrentCost(suppliers[i], quantity)
  {
    if |suppliers| == 1 then CurrentCost(suppliers[0], quantity)
    else
      var rest := BestCurrentCost(suppliers[1..], quantity);
      var first := CurrentCost(suppliers[0], quantity);
      assert forall i :: 1 <= i < |suppliers| ==> suppliers[i] == suppliers[1..][i - 1];
      if first <= rest then first else rest
  }

  /** With the built-in data the best current cost is 1130 a unit (1150 for a negative quantity). */
  lemma BuiltInBestCost(quantity: real)
    ensures quantity >= 0.0 ==> BestCurrentCost(CurrentSuppliers, quantity) == 1130.0 * quantity
    ensures quantity < 0.0 ==> BestCurrentCost(CurrentSuppliers, quantity) == 1150.0 * quantity
  {
    assert CurrentSuppliers[1..] == [CurrentSupplier("Current Supplier B", 950.0, 180.0)];
  }

  // ---------------------------------------------------------- transportation

  /** One row of the base transportation costs, in the order they are tried. */
  datatype Lane = Lane(location: string, cost: real)

  const Lanes: seq<Lane> := [
    Lane("New York", 150.0), Lane("Los Angeles", 200.0), Lane("Chicago", 175.0), Lane("Unknown", 200.0)
  ]

  const DefaultBaseCost: real := 200.0

  /** The lane's location occurs, ignoring case, in the delivery address or the supplier's location. */
  predicate LaneMatches(lane: Lane, supplierLocation: string, deliveryAddress: string) {
    Contains(Lower(deliveryAddress), Lower(lane.location)) || Contains(Lower(supplierLocation), Lower(lane.location))
  }

  /**
   * The cost of the first matching lane, or the default when none matches
   * (FirstMatchAt and NoMatchIsDefault below).
   */
  function FirstMatchCost(lanes: seq<Lane>, supplierLocation: string, deliveryAddress: string): real {
    if lanes == [] then DefaultBaseCost
    else if LaneMatches(lanes[0], supplierLocation, deliveryAddress) then lanes[0].cost
    else FirstMatchCost(lanes[1..], supplierLocation, deliveryAddress)
  }

  /** The base is the default or the cost of one of the lanes. */
  lemma {:induction false} FirstMatchCostIsListed(lanes: seq<Lane>, supplierLocation: string, deliveryAddress: string)
    ensures var base := FirstMatchCost(lanes, supplierLocation, deliveryAddress);
      base == DefaultBaseCost || exists i :: 0 <= i < |lanes| && base == lanes[i].cost
  {
    if lanes != [] && !LaneMatches(lanes[0], supplierLocation, deliveryAddress) {
      FirstMatchCostIsListed(lanes[1..], supplierLocation, deliveryAddress);
      var base := FirstMatchCost(lanes, supplierLocation, deliveryAddress);
      if base != DefaultBaseCost {
        var i :| 0 <= i < |lanes[1..]| && base == lanes[1..][i].cost;
        assert base == lanes[i + 1].cost;
      }
    }
  }

  /** The base transportation cost is one of the three tabulated amounts. */
  lemma BaseCostIsTabulated(supplierLocation: string, deliveryAddress: string)
    ensures var base := FirstMatchCost(Lanes, supplierLocation, deliveryAddress);
      base == 150.0 || base == 175.0 || base == 200.0
  {
    FirstMatchCostIsListed(Lanes, supplierLocation, deliveryAddress);
  }

  /** When lane `i` is the first that matches, its cost is the base. */
  lemma {:induction false} FirstMatchAt(lanes: seq<Lane>, i: nat, supplierLocation: string, deliveryAddress: string)
    requires i < |lanes| && LaneMatches(lanes[i], supplierLocation, deliveryAddress)
    requires forall j :: 0 <= j < i ==> !LaneMatches(lanes[j], supplierLocation, deliveryAddress)
    ensures FirstMatchCost(lanes, supplierLocation, deliveryAddress) == lanes[i].cost
  {
    if i > 0 {
      assert !LaneMatches(lanes[0], supplierLocation, deliveryAddress);
      FirstMatchAt(lanes[1..], i - 1, supplierLocation, deliveryAddress);
    }
  }

  /** When no lane matches, the base is the default. */
  lemma {:induction false} NoMatchIsDefault(lanes: seq<Lane>, supplierLocation: string, deliveryAddress: string)
    requires forall j :: 0 <= j < |lanes| ==> !LaneMatches(lanes[j], supplierLocation, deliveryAddress)
    ensures FirstMatchCost(lanes, supplierLocation, deliveryAddress) == DefaultBaseCost
  {
    if lanes != [] {
      assert !LaneMatches(lanes[0], supplierLocation, deliveryAddress);
      NoMatchIsDefault(lanes[1..], supplierLocation, deliveryAddress);
    }
  }

  /**
   * The lane lookup of `_calculate_transportation_cost` over the table `lanes`: the
   * first lane, in table order, whose location occurs in either text sets the base.
   */
  method BaseTransportationCost(lanes: seq<Lane>, supplierLocation: string, deliveryAddress: string)
    returns (baseCost: real)
    ensures baseCost == FirstMatchCost(lanes, supplierLocation, deliveryAddress)
  {
    var address := Lower(deliveryAddress);
    var location := Lower(supplierLocation);
    var index := 0;
    while index < |lanes|
      invariant 0 <= index <= |lanes|
      invariant forall j :: 0 <= j < index ==> !LaneMatches(lanes[j], supplierLocation, deliveryAddress)
    {
      var key := Lower(lanes[index].location);
      if Contains(address, key) || Contains(location, key) {
        FirstMatchAt(lanes, index, supplierLocation, deliveryAddress);
        return lanes[index].cost;
      }
      index := index + 1;
    }
    NoMatchIsDefault(lanes, supplierLocation, deliveryAddress);
    baseCost := DefaultBaseCost;
  }

  /** The base cost the built-in lane table gives for the two texts: one of the three tabulated amounts. */
  function TableBaseCost(supplierLocation: string, deliveryAddress: string): (base: real)
    ensures base == 150.0 || base == 175.0 || base == 200.0
  {
    BaseCostIsTabulated(supplierLocation, deliveryAddress);
    FirstMatchCost(Lanes, supplierLocation, deliveryAddress)
  }

  /** `_calculate_transportation_cost`: the base scaled by the random variation, rounded to cents. */
  method TransportationCost(supplierLocation: string, deliveryAddress: string, variation: real)
    returns (cost: real)
    ensures cost == Round2(TableBaseCost(supplierLocation, deliveryAddress) * variation)
  {
    var baseCost := BaseTransportationCost(Lanes, supplierLocation, deliveryAddress);
    assert baseCost * variation == TableBaseCost(supplierLocation, deliveryAddress) * variation;
    cost := Round2(baseCost * variation);
  }

  /** Whatever the texts and the variation, the transportation cost lies between 120 and 240. */
  lemma TransportationCostRange(supplierLocation: string, deliveryAddress: string, variation: real)
    requires 0.8 <= variation <= 1.2
    ensures 120.0 <= Round2(TableBaseCost(supplierLocation, deliveryAddress) * variation) <= 240.0
  {
    var base := TableBaseCost(supplierLocation, deliveryAddress);
    ScaledBaseRange(base, variation);
    RoundedRange(base * variation);
    assert base * variation == TableBaseCost(supplierLocation, deliveryAddress) * variation;
  }

  /** Rounding to cents keeps a value within [120, 240]. */
  lemma RoundedRange(x: real)
    requires 120.0 <= x <= 240.0
    ensures 120.0 <= Round2(x) <= 240.0
  {
    Round2Monotone(120.0, x);
    Round2Monotone(x, 240.0);
    Round2Cents(12000);
    Round2Cents(24000);
  }

  /** A tabulated base scaled by a variation in [0.8, 1.2] lies between 120 and 240. */
  lemma ScaledBaseRange(base: real, variation: real)
    requires base == 150.0 || base == 175.0 || base == 200.0
    requires 0.8 <= variation <= 1.2
    ensures 120.0 <= base * variation <= 240.0
  {
    if base == 150.0 {
      assert base * variation == 150.0 * variation;
    } else if base == 175.0 {
      assert base * variation == 175.0 * variation;
    } else {
      assert base * variation == 200.0 * variation;
    }
  }

  // ----------------------------------------------------------------- verdict

  /** The four branches of `_evaluate_savings_expectations`. */
  datatype Verdict = Excellent | Good | Minimal | Negative

  function Evaluate(savingsPercentage: real): (v: Verdict) {
    if savingsPercentage >= 10.0 then Excellent
    else if savingsPercentage >= 5.0 then Good
    else if savingsPercentage >= 0.0 then Minimal
    else Negative
  }

  predicate Meets(v: Verdict) {
    v.Excellent? || v.Good?
  }

  /** Across the four branches, expectations are met exactly from 5% savings on. */
  lemma MeetsIffFivePercent(savingsPercentage: real)
    ensures Meets(Evaluate(savingsPercentage)) <==> savingsPercentage >= 5.0
  {
  }

  // ---------------------------------------------------------------- analysis

  /** The figures `analyze_cost` reports. */
  datatype CostReport = CostReport(
    proposedPrice: real,
    quantity: real,
    baseCost: real,
    transportationCost: real,
    totalCost: real,
    currentSupplierCost: real,
    savings: real,
    savingsPercentage: real,
    verdict: Verdict,
    meetsExpectations: bool,
    notesRecommend: bool)

  /** Savings as a percentage of the best current cost; 0 when that cost is not positive. */
  function SavingsPercentage(savings: real, best: real): real {
    if best > 0.0 then savings / best * 100.0 else 0.0
  }

  lemma SavingsPercentageFivePercent(savings: real, best: real)
    ensures SavingsPercentage(savings, best) >= 5.0 <==> best > 0.0 && savings >= 0.05 * best
  {
    if best > 0.0 {
      var p := savings / best;
      assert p * best == savings;
      assert p * 100.0 >= 5.0 <==> p >= 0.05;
      assert p >= 0.05 <==> p * best >= 0.05 * best;
    }
  }

  /** The report for an offer once the transportation cost is known. */
  function Report(proposedPrice: real, quantity: real, transportationCost: real): (r: CostReport)
    ensures r.baseCost == proposedPrice * quantity
    ensures r.totalCost == r.baseCost + transportationCost
    ensures r.currentSupplierCost == BestCurrentCost(CurrentSuppliers, quantity)
    ensures r.savings == r.currentSupplierCost - r.totalCost
    ensures r.meetsExpectations <==> r.currentSupplierCost > 0.0 && r.savings >= 0.05 * r.currentSupplierCost
    ensures r.notesRecommend == r.meetsExpectations
  {
    var baseCost := proposedPrice * quantity;
    var totalCost := baseCost + transportationCost;
    var best := BestCurrentCost(CurrentSuppliers, quantity);
    var savings := best - totalCost;
    var pct := SavingsPercentage(savings, best);
    var verdict := Evaluate(pct);
    MeetsIffFivePercent(pct);
    SavingsPercentageFivePercent(savings, best);
    CostReport(proposedPrice, quantity, baseCost, transportationCost, totalCost, best, savings,
               Round2(pct), verdict, Meets(verdict), pct >= 5.0)
  }

  /** The reported (rounded) percentage is at least 5 whenever expectations are met. */
  lemma ReportedPercentageWhenMet(proposedPrice: real, quantity: real, transportationCost: real)
    ensures Report(proposedPrice, quantity, transportationCost).meetsExpectations
            ==> Report(proposedPrice, quantity, transportationCost).savingsPercentage >= 5.0
  {
    var r := Report(proposedPrice, quantity, transportationCost);
    var pct := SavingsPercentage(r.savings, r.currentSupplierCost);
    if r.meetsExpectations {
      MeetsIffFivePercent(pct);
      Round2Monotone(5.0, pct);
      Round2Cents(500);
    }
  }

  /** The supplier's location, "Unknown" when the record has none. */
  function LocationOrDefault(supplierLocation: Option<string>): string {
    if supplierLocation.Some? then supplierLocation.value else "Unknown"
  }

  /** The delivery address, "Main Warehouse" when absent or empty. */
  function AddressOrDefault(deliveryAddress: Option<string>): string {
    if deliveryAddress.Some? && deliveryAddress.value != "" then deliveryAddress.value else "Main Warehouse"
  }

  /**
   * `analyze_cost`: the supplier's location defaults to "Unknown" and an absent or
   * empty delivery address to "Main Warehouse"; the transportation cost is drawn for
   * those texts, and for a variation from [0.8, 1.2] adds 120 to 240 to the base cost.
   */
  method AnalyzeCost(supplierLocation: Option<string>, proposedPrice: real, quantity: real,
                     deliveryAddress: Option<string>, variation: real)
    returns (r: CostReport)
    ensures r.transportationCost
         == Round2(TableBaseCost(LocationOrDefault(supplierLocation), AddressOrDefault(deliveryAddress)) * variation)
    ensures r == Report(proposedPrice, quantity, r.transportationCost)
    ensures 0.8 <= variation <= 1.2 ==> r.baseCost + 120.0 <= r.totalCost <= r.baseCost + 240.0
  {
    var transportation := TransportationCost(LocationOrDefault(supplierLocation), AddressOrDefault(deliveryAddress),
                                             variation);
    if 0.8 <= variation <= 1.2 {
      TransportationCostRange(LocationOrDefault(supplierLocation), AddressOrDefault(deliveryAddress), variation);
    }
    r := Report(proposedPrice, quantity, transportation);
  }

  /**
   * What a report promises: with the built-in current suppliers the comparison cost
   * is 1130 a unit, and expectations are met exactly when the unrounded percentage
   * is at least 5.
   */
  lemma ReportFigures(proposedPrice: real, quantity: real, transportationCost: real)
    ensures var r := Report(proposedPrice, quantity, transportationCost);
      && (quantity >= 0.0 ==> r.currentSupplierCost == 1130.0 * quantity)
      && (r.meetsExpectations <==> SavingsPercentage(r.savings, r.currentSupplierCost) >= 5.0)
  {
    var r := Report(proposedPrice, quantity, transportationCost);
    BuiltInBestCost(quantity);
    SavingsPercentageFivePercent(r.savings, r.currentSupplierCost);
  }
}
