/**
 * The store object of the browser workflow engine (the `MockState` the handlers of
 * frontend/src/api/mockApi.ts receive and mutate in place): three id counters and
 * the requirements record. Each handler is a method that changes the store exactly
 * as the transition of the same name in module MockHandlers says, and keeps the
 * store valid when it was valid.
 */
module MockStore {
  import opened Wrappers
  import opened MockTypes
  import opened MockDomain
  import MockHandlers

  class MockState {
    var nextRequirementId: int
    var nextSupplierId: int
    var nextSampleId: int
    var requirements: map<int, Requirement>

    /** The store as a value: what `clone` copies and `JSON.stringify` writes. */
    function Value(): StateValue
      reads this
    {
      StateValue(nextRequirementId, nextSupplierId, nextSampleId, requirements)
    }

    predicate Valid()
      reads this
    {
      MockHandlers.ValidValue(Value())
    }

    /** A store holding a copy of `v`. */
    constructor FromValue(v: StateValue)
      ensures Value() == v
    {
      nextRequirementId := v.nextRequirementId;
      nextSupplierId := v.nextSupplierId;
      nextSampleId := v.nextSampleId;
      requirements := v.requirements;
    }

    /** `createRequirement`: takes the next requirement id (`state.nextRequirementId++`). */
    method CreateRequirement(body: Body, clock: Clock) returns (r: Result<Response, ApiError>)
      modifies this
      ensures MockHandlers.Outcome(Value(), r) == MockHandlers.CreateRequirement(old(Value()), body, clock)
      ensures old(Valid()) ==> Valid()
    {
      var id := nextRequirementId;
      nextRequirementId := nextRequirementId + 1;
      requirements := requirements[id := NewRequirement(id, body, clock(0))];
      r := Ok(RequirementCreated(id, RequirementStatus.Scouting, MockHandlers.CreatedMessage));
    }

    /**
     * One step of the `templates.map(...)` of `startScouting`: the supplier made
     * from the `index`-th template takes the next supplier id, and the first also
     * takes the next sample id.
     */
    method ScoutOne(index: nat, template: SupplierTemplate, requirementId: int,
                    requirementQuantity: real, draw: real)
      returns (supplier: Supplier)
      requires 0.0 <= draw < 1.0
      modifies this
      ensures supplier == ScoutedSupplier(index, template, old(nextSupplierId), requirementId,
                                          ScoutSample(index, old(nextSampleId), requirementQuantity, draw))
      ensures nextSupplierId == old(nextSupplierId) + 1
      ensures nextSampleId == if index == 0 then old(nextSampleId) + 1 else old(nextSampleId)
      ensures requirements == old(requirements) && nextRequirementId == old(nextRequirementId)
    {
      var supplierId := nextSupplierId;
      nextSupplierId := nextSupplierId + 1;
      var sample := ScoutSample(index, nextSampleId, requirementQuantity, draw);
      if index == 0 {
        nextSampleId := nextSampleId + 1;
      }
      supplier := ScoutedSupplier(index, template, supplierId, requirementId, sample);
    }

    /** The `templates.map(...)` of `startScouting`, one template after the other. */
    method MakeScoutedSuppliers(templates: seq<SupplierTemplate>, requirementId: int,
                                requirementQuantity: real, draw: real)
      returns (created: seq<Supplier>)
      requires 0.0 <= draw < 1.0
      modifies this
      ensures created == ScoutedFrom(templates, old(nextSupplierId), requirementId, old(nextSampleId),
                                     requirementQuantity, draw)
      ensures nextSupplierId == old(nextSupplierId) + |templates|
      ensures nextSampleId == if templates == [] then old(nextSampleId) else old(nextSampleId) + 1
      ensures requirements == old(requirements) && nextRequirementId == old(nextRequirementId)
    {
      ghost var firstId := nextSupplierId;
      ghost var sampleId := nextSampleId;
      created := [];
      var index := 0;
      while index < |templates|
        invariant 0 <= index <= |templates|
        invariant nextSupplierId == firstId + index
        invariant nextSampleId == if index == 0 then sampleId else sampleId + 1
        invariant created == ScoutedFrom(templates[..index], firstId, requirementId, sampleId, requirementQuantity, draw)
        invariant requirements == old(requirements) && nextRequirementId == old(nextRequirementId)
      {
        ghost var sampleBefore := nextSampleId;
        var supplier := ScoutOne(index, templates[index], requirementId, requirementQuantity, draw);
        assert ScoutSample(index, sampleBefore, requirementQuantity, draw)
            == ScoutSample(index, sampleId, requirementQuantity, draw);
        ScoutedFromSnoc(templates, firstId, requirementId, sampleId, requirementQuantity, draw, index);
        created := created + [supplier];
        index := index + 1;
      }
      assert templates[..index] == templates;
    }

    /** `startScouting`: scouts a requirement that has no suppliers yet. */
    method StartScouting(id: int, draw: real, clock: Clock) returns (r: Result<Response, ApiError>)
      requires 0.0 <= draw < 1.0
      modifies this
      ensures MockHandlers.Outcome(Value(), r) == MockHandlers.StartScouting(old(Value()), id, draw, clock)
      ensures old(Valid()) ==> Valid()
    {
      ghost var before := Value();
      if id !in requirements {
        return Err(ApiError(404, "Requirement not found"));
      }
      var req := requirements[id];
      if |req.suppliers| > 0 {
        return Ok(MockHandlers.RescoutReport(id, req));
      }
      ghost var firstId := nextSupplierId;
      ghost var sampleId := nextSampleId;
      var created := MakeScoutedSuppliers(PickTemplates(), id, req.quantity, draw);
      var scouted := req.(suppliers := created, status := RequirementStatus.Sampling, updatedAt := clock(0));
      assert scouted == MockHandlers.ScoutedRequirement(req, id, firstId, sampleId, draw, clock);
      requirements := requirements[id := scouted];
      r := Ok(MockHandlers.FreshScoutReport(id, created));
      MockHandlers.StartScoutingFresh(before, id, draw, clock);
      assert nextSupplierId == firstId + 3 && nextSampleId == sampleId + 1;
      assert requirements == before.requirements[id := scouted];
      if MockHandlers.ValidValue(before) {
        MockHandlers.StartScoutingKeepsValid(before, id, draw, clock);
      }
    }

    /** `createSample`: the new sample takes the next sample id. */
    method CreateSample(body: Body, draw: real, clock: Clock) returns (r: Result<Response, ApiError>)
      requires 0.0 <= draw < 1.0
      modifies this
      ensures MockHandlers.Outcome(Value(), r) == MockHandlers.CreateSample(old(Value()), body, draw, clock)
      ensures old(Valid()) ==> Valid()
    {
      ghost var before := Value();
      if body.supplierId.None? || body.supplierId.value == 0.0 {
        return Err(ApiError(400, "supplier_id is required"));
      }
      var supplierId := body.supplierId.value;
      var found := MockHandlers.RequirementWithSupplier(Value(), supplierId);
      if found.None? {
        return Err(ApiError(404, "Supplier not found for requirement"));
      }
      MockHandlers.CreateSampleFound(before, body, draw, clock);
      var k := found.value;
      var req := requirements[k];
      var i := MockHandlers.FindSupplier(req, supplierId).value;
      var sampleId := nextSampleId;
      nextSampleId := nextSampleId + 1;
      var sample := RecordedSample(sampleId, req.quantity, draw, body);
      requirements := requirements[k := MockHandlers.SampledRequirement(req, i, sample, clock(0))];
      r := Ok(SampleRecorded(sampleId, MockHandlers.SampleRecordedMessage, SampleReceived));
      if MockHandlers.ValidValue(before) {
        MockHandlers.CreateSampleKeepsValid(before, body, draw, clock);
      }
    }

    /** `reviewQuality`: records the verdict on the supplier holding the sample. */
    method ReviewQuality(sampleId: int, body: Body, clock: Clock) returns (r: Result<Response, ApiError>)
      modifies this
      ensures MockHandlers.Outcome(Value(), r) == MockHandlers.ReviewQuality(old(Value()), sampleId, body, clock)
      ensures old(Valid()) ==> Valid()
    {
      ghost var before := Value();
      var found := MockHandlers.RequirementWithSample(Value(), sampleId);
      if found.None? {
        return Err(ApiError(404, "Sample not found"));
      }
      var k := found.value;
      var req := requirements[k];
      var i := SampleOwnerIndex(req, sampleId).value;
      requirements := requirements[k := MockHandlers.ReviewedRequirement(req, i, body, clock)];
      var approved := body.qualityApproved;
      r := Ok(QualityReviewed(sampleId, approved, ReviewedSupplier(req.suppliers[i], body, clock(0)).status,
                              ReviewStatus(approved), approved,
                              if approved then MockHandlers.ApprovedMessage else MockHandlers.RejectedMessage));
      MockHandlers.ReviewQualityFound(before, sampleId, body, clock);
      assert Value() == before.(requirements := requirements);
    }

    /** `createShortlist`. */
    method CreateShortlist(id: int, clock: Clock) returns (r: Result<Response, ApiError>)
      modifies this
      ensures MockHandlers.Outcome(Value(), r) == MockHandlers.CreateShortlist(old(Value()), id, clock)
      ensures old(Valid()) ==> Valid()
    {
      ghost var before := Value();
      if id !in requirements {
        return Err(ApiError(404, "Requirement not found"));
      }
      var shortlisted := ShortlistedRequirement(requirements[id], clock);
      requirements := requirements[id := shortlisted];
      r := Ok(ShortlistCreated(id, shortlisted.shortlist, shortlisted.status, MockHandlers.ShortlistMessage));
      if MockHandlers.ValidValue(before) {
        MockHandlers.CreateShortlistKeepsValid(before, id, clock);
      }
    }

    /** `onboardSupplier`. */
    method OnboardSupplier(supplierId: int, clock: Clock) returns (r: Result<Response, ApiError>)
      modifies this
      ensures MockHandlers.Outcome(Value(), r) == MockHandlers.OnboardSupplier(old(Value()), supplierId, clock)
      ensures old(Valid()) ==> Valid()
    {
      ghost var before := Value();
      var found := MockHandlers.RequirementWithSupplier(Value(), supplierId as real);
      if found.None? {
        return Err(ApiError(404, "Supplier not found"));
      }
      var k := found.value;
      var req := requirements[k];
      var i := MockHandlers.FindSupplier(req, supplierId as real).value;
      requirements := requirements[k := MockHandlers.OnboardedRequirement(req, i, clock(0))];
      r := Ok(OnboardingStarted(supplierId, RequirementStatus.Onboarding, MockHandlers.OnboardingMessage));
      assert MockHandlers.OnboardSupplier(before, supplierId, clock) == MockHandlers.Outcome(Value(), r);
      if MockHandlers.ValidValue(before) {
        MockHandlers.OnboardSupplierKeepsValid(before, supplierId, clock);
      }
    }
  }
}
