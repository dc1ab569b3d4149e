/**
 * The request handlers of the browser workflow engine (`mockHandlers` in
 * frontend/src/api/mockApi.ts) as transitions of the store's value: each takes the
 * state and the request, and gives the new state and the answer or the thrown error.
 * The mutable store (module MockStore) is proved to perform exactly these.
 */
module MockHandlers {
  import opened Wrappers
  import opened MockTypes
  import opened MockDomain
  import opened Text
  import Lookup
  import Sorting

  /** The state after a handler ran, and its answer or the error it threw. */
  datatype Outcome = Outcome(state: StateValue, result: Result<Response, ApiError>)

  // ------------------------------------------------------------- invariant

  predicate SupplierFits(s: Supplier, key: int, nextSupplierId: int, nextSampleId: int) {
    && s.requirementId == key
    && 1 <= s.id < nextSupplierId
    && (s.sample.Some? ==> 1 <= s.sample.value.id < nextSampleId)
  }

  predicate RequirementFits(key: int, r: Requirement, nextSupplierId: int, nextSampleId: int) {
    && r.id == key
    && forall i :: 0 <= i < |r.suppliers| ==> SupplierFits(r.suppliers[i], key, nextSupplierId, nextSampleId)
  }

  /**
   * What the handlers keep true of a state they built: every requirement is stored
   * under its own id, its suppliers point back to it, and every id handed out is
   * below the counter it came from, so the next one is unused.
   */
  predicate ValidValue(v: StateValue) {
    && 1 <= v.nextRequirementId && 1 <= v.nextSupplierId && 1 <= v.nextSampleId
    && forall k :: k in v.requirements ==>
         1 <= k < v.nextRequirementId
         && RequirementFits(k, v.requirements[k], v.nextSupplierId, v.nextSampleId)
  }

  lemma EmptyStateIsValid()
    ensures ValidValue(EmptyState())
  {
  }

  /** Raising the counters keeps a requirement within them. */
  lemma FitsWithLargerCounters(k: int, r: Requirement, ns: int, nsa: int, ns': int, nsa': int)
    requires RequirementFits(k, r, ns, nsa) && ns <= ns' && nsa <= nsa'
    ensures RequirementFits(k, r, ns', nsa')
  {
    forall i | 0 <= i < |r.suppliers| ensures SupplierFits(r.suppliers[i], k, ns', nsa') {
      assert SupplierFits(r.suppliers[i], k, ns, nsa);
    }
  }

  /** In a valid state the next ids are unused. */
  lemma {:induction false} NextIdsAreUnused(v: StateValue)
    requires ValidValue(v)
    ensures v.nextRequirementId !in v.requirements
    ensures forall k, i :: k in v.requirements && 0 <= i < |v.requirements[k].suppliers| ==>
              v.requirements[k].suppliers[i].id != v.nextSupplierId
    ensures forall k, i :: (k in v.requirements && 0 <= i < |v.requirements[k].suppliers|
                             && v.requirements[k].suppliers[i].sample.Some?) ==>
              v.requirements[k].suppliers[i].sample.value.id != v.nextSampleId
  {
    forall k, i | k in v.requirements && 0 <= i < |v.requirements[k].suppliers|
      ensures SupplierFits(v.requirements[k].suppliers[i], k, v.nextSupplierId, v.nextSampleId)
    {
      assert RequirementFits(k, v.requirements[k], v.nextSupplierId, v.nextSampleId);
    }
  }

  // ---------------------------------------------------------------- lookups

  /** `findRequirement`: the requirement stored under `id`, or a 404. */
  function FindRequirement(reqs: map<int, Requirement>, id: int): (r: Result<Requirement, ApiError>)
    ensures r.Ok? <==> id in reqs
    ensures r.Ok? ==> r.value == reqs[id]
    ensures r.Err? ==> r.error == ApiError(404, "Requirement not found")
  {
    if id in reqs then Ok(reqs[id]) else Err(ApiError(404, "Requirement not found"))
  }

  /** `findSupplier`: the position of the first supplier with that id, or a 404. */
  function FindSupplier(req: Requirement, supplierId: real): (r: Result<nat, ApiError>)
    ensures r.Ok? <==> exists i :: 0 <= i < |req.suppliers| && req.suppliers[i].id as real == supplierId
    ensures r.Ok? ==> r.value < |req.suppliers| && req.suppliers[r.value].id as real == supplierId
    ensures r.Err? ==> r.error == ApiError(404, "Supplier not found")
  {
    match SupplierIndex(req, supplierId)
    case None => Err(ApiError(404, "Supplier not found"))
    case Some(i) => Ok(i)
  }

  /** `Object.values(requirements).find(...)` for the requirement holding that supplier. */
  function RequirementWithSupplier(v: StateValue, supplierId: real): (r: Option<int>)
    ensures r.Some? ==> r.value in v.requirements && HasSupplier(v.requirements[r.value], supplierId)
    ensures r.None? ==> forall k :: k in v.requirements ==> !HasSupplier(v.requirements[k], supplierId)
  {
    Lookup.FirstKeyWhere(v.requirements, (r: Requirement) => HasSupplier(r, supplierId))
  }

  /** `Object.values(requirements).find(...)` for the requirement holding that sample. */
  function RequirementWithSample(v: StateValue, sampleId: int): (r: Option<int>)
    ensures r.Some? ==> r.value in v.requirements && HasSample(v.requirements[r.value], sampleId)
    ensures r.None? ==> forall k :: k in v.requirements ==> !HasSample(v.requirements[k], sampleId)
  {
    Lookup.FirstKeyWhere(v.requirements, (r: Requirement) => HasSample(r, sampleId))
  }

  // --------------------------------------------------------------- handlers

  /** `listRequirements`: every requirement, summarised, the highest id first. */
  function ListRequirements(v: StateValue): (items: seq<RequirementSummary>)
    ensures |items| == |v.requirements|
    ensures forall i, j :: 0 <= i < j < |items| ==> items[i].id >= items[j].id
  {
    var vs := Sorting.SortDesc(Lookup.ValuesInKeyOrder(v.requirements), IdKey);
    Sorting.Map(vs, RequirementSummaryOf)
  }

  /** Each listed item summarises the requirement stored under its id. */
  lemma {:induction false} ListedItemsAreStored(v: StateValue, i: nat)
    requires ValidValue(v) && i < |ListRequirements(v)|
    ensures var item := ListRequirements(v)[i];
      item.id in v.requirements && item == RequirementSummaryOf(v.requirements[item.id])
  {
    var m := v.requirements;
    var vs := Sorting.SortDesc(Lookup.ValuesInKeyOrder(m), IdKey);
    assert ListRequirements(v) == Sorting.Map(vs, RequirementSummaryOf);
    var k := SortedValueIsStored(m, i);
    assert RequirementFits(k, m[k], v.nextSupplierId, v.nextSampleId);
  }

  /** Each of the requirements sorted by id is stored under some key. */
  lemma SortedValueIsStored(m: map<int, Requirement>, i: nat) returns (k: int)
    requires i < |Sorting.SortDesc(Lookup.ValuesInKeyOrder(m), IdKey)|
    ensures k in m && Sorting.SortDesc(Lookup.ValuesInKeyOrder(m), IdKey)[i] == m[k]
  {
    var ks := Lookup.KeysAscending(m.Keys);
    var j := Sorting.SortedEntryIsInput(Lookup.ValuesInKeyOrder(m), IdKey, i);
    assert ks[j] in ks;
    k := ks[j];
  }

  /** Every stored requirement is listed. */
  lemma {:induction false} StoredRequirementsAreListed(v: StateValue, k: int) returns (i: nat)
    requires ValidValue(v) && k in v.requirements
    ensures i < |ListRequirements(v)| && ListRequirements(v)[i].id == k
  {
    var m := v.requirements;
    var vs := Sorting.SortDesc(Lookup.ValuesInKeyOrder(m), IdKey);
    i := StoredValueIsSorted(m, k);
    assert m[k].id == k by {
      assert RequirementFits(k, m[k], v.nextSupplierId, v.nextSampleId);
    }
    assert ListRequirements(v) == Sorting.Map(vs, RequirementSummaryOf);
  }

  /** Every stored requirement is among the requirements sorted by id. */
  lemma StoredValueIsSorted(m: map<int, Requirement>, k: int) returns (i: nat)
    requires k in m
    ensures i < |Sorting.SortDesc(Lookup.ValuesInKeyOrder(m), IdKey)|
    ensures Sorting.SortDesc(Lookup.ValuesInKeyOrder(m), IdKey)[i] == m[k]
  {
    var ks := Lookup.KeysAscending(m.Keys);
    assert k in ks;
    var j :| 0 <= j < |ks| && ks[j] == k;
    i := Sorting.InputEntryIsSorted(Lookup.ValuesInKeyOrder(m), IdKey, j);
  }

  /** `getRequirement`: the stored requirement, or a 404. */
  function GetRequirement(v: StateValue, id: int): (r: Result<Response, ApiError>)
    ensures r.Ok? <==> id in v.requirements
    ensures r.Ok? ==> r.value == RequirementDetail(v.requirements[id])
    ensures r.Err? ==> r.error.status == 404
  {
    match FindRequirement(v.requirements, id)
    case Err(e) => Err(e)
    case Ok(req) => Ok(RequirementDetail(req))
  }

  const CreatedMessage: string := "Requirement created locally. AI workflow will use simulated data."

  /**
   * `createRequirement`: a new requirement in status scouting, stored under the next
   * requirement id. In a valid state nothing stored before is touched.
   */
  function CreateRequirement(v: StateValue, body: Body, clock: Clock): (o: Outcome)
    ensures o.result == Ok(RequirementCreated(v.nextRequirementId, RequirementStatus.Scouting, CreatedMessage))
    ensures o.state.nextRequirementId == v.nextRequirementId + 1
    ensures v.nextRequirementId in o.state.requirements
    ensures o.state.requirements[v.nextRequirementId] == NewRequirement(v.nextRequirementId, body, clock(0))
    ensures ValidValue(v) ==> ValidValue(o.state)
    ensures ValidValue(v) ==> o.state.requirements.Keys == v.requirements.Keys + {v.nextRequirementId}
                              && forall k :: k in v.requirements ==> o.state.requirements[k] == v.requirements[k]
  {
    var id := v.nextRequirementId;
    var state := v.(nextRequirementId := id + 1,
                    requirements := v.requirements[id := NewRequirement(id, body, clock(0))]);
    if ValidValue(v) then
      NextIdsAreUnused(v);
      Outcome(state, Ok(RequirementCreated(id, RequirementStatus.Scouting, CreatedMessage)))
    else
      Outcome(state, Ok(RequirementCreated(id, RequirementStatus.Scouting, CreatedMessage)))
  }

  /** The report `startScouting` gives for suppliers that were already scouted. */
  function RescoutReport(id: int, req: Requirement): Response {
    var selected := SelectedIds(req.suppliers);
    ScoutingReport(id, |req.suppliers|, Summaries(req.suppliers), selected,
                   OutreachResults(req.suppliers, RespondedWhenRescouted), req.status,
                   "Suppliers already scouted.", |selected|)
  }

  /** The report `startScouting` gives for suppliers it has just created. */
  function FreshScoutReport(id: int, ss: seq<Supplier>): Response {
    var selected := SelectedIds(ss);
    ScoutingReport(id, |ss|, Summaries(ss), selected, OutreachResults(ss, RespondedAfterScouting),
                   RequirementStatus.Sampling,
                   "Scouting complete. Automatically selected " + NatToString(|selected|)
                   + " supplier(s) for outreach.", |selected|)
  }

  /** The requirement after fresh scouting, its suppliers numbered from `firstId`. */
  function ScoutedRequirement(req: Requirement, id: int, firstId: int, sampleId: int, draw: real,
                              clock: Clock): Requirement
    requires 0.0 <= draw < 1.0
  {
    req.(suppliers := ScoutedSuppliers(firstId, id, sampleId, req.quantity, draw),
         status := RequirementStatus.Sampling, updatedAt := clock(0))
  }

  /**
   * `startScouting`: a requirement with suppliers is reported as it stands; one
   * without gets three scouted suppliers and moves to sampling.
   */
  function StartScouting(v: StateValue, id: int, draw: real, clock: Clock): (o: Outcome)
    requires 0.0 <= draw < 1.0
    ensures o.result.Err? <==> id !in v.requirements
    ensures o.result.Err? ==> o.result.error == ApiError(404, "Requirement not found")
    ensures o.result.Err? || |v.requirements[id].suppliers| > 0 ==> o.state == v
    ensures o.result.Ok? && |v.requirements[id].suppliers| == 0 ==>
              && o.state.nextSupplierId == v.nextSupplierId + 3
              && o.state.nextSampleId == v.nextSampleId + 1
              && o.state.nextRequirementId == v.nextRequirementId
              && o.state.requirements == v.requirements[id := ScoutedRequirement(
                   v.requirements[id], id, v.nextSupplierId, v.nextSampleId, draw, clock)]
  {
    match FindRequirement(v.requirements, id)
    case Err(e) => Outcome(v, Err(e))
    case Ok(req) =>
      if |req.suppliers| > 0 then Outcome(v, Ok(RescoutReport(id, req)))
      else
        var scouted := ScoutedRequirement(req, id, v.nextSupplierId, v.nextSampleId, draw, clock);
        Outcome(v.(nextSupplierId := v.nextSupplierId + 3, nextSampleId := v.nextSampleId + 1,
                   requirements := v.requirements[id := scouted]),
                Ok(FreshScoutReport(id, scouted.suppliers)))
  }

  /** How `startScouting` proceeds on a requirement without suppliers. */
  lemma StartScoutingFresh(v: StateValue, id: int, draw: real, clock: Clock)
    requires 0.0 <= draw < 1.0 && id in v.requirements && |v.requirements[id].suppliers| == 0
    ensures var scouted := ScoutedRequirement(v.requirements[id], id, v.nextSupplierId, v.nextSampleId, draw, clock);
      StartScouting(v, id, draw, clock) ==
        Outcome(v.(nextSupplierId := v.nextSupplierId + 3, nextSampleId := v.nextSampleId + 1,
                   requirements := v.requirements[id := scouted]),
                Ok(FreshScoutReport(id, scouted.suppliers)))
  {
  }

  /** The scouted suppliers of a requirement fit below the raised counters. */
  lemma ScoutedRequirementFits(req: Requirement, id: int, firstId: int, sampleId: int, draw: real, clock: Clock)
    requires 0.0 <= draw < 1.0 && req.id == id && 1 <= firstId && 1 <= sampleId
    ensures RequirementFits(id, ScoutedRequirement(req, id, firstId, sampleId, draw, clock), firstId + 3, sampleId + 1)
  {
    var r := ScoutedRequirement(req, id, firstId, sampleId, draw, clock);
    ScoutingOutcome(firstId, id, sampleId, req.quantity, draw);
    forall i | 0 <= i < |r.suppliers| ensures SupplierFits(r.suppliers[i], id, firstId + 3, sampleId + 1) {
    }
  }

  /** Scouting keeps the state valid: the three new ids and the sample id are fresh. */
  lemma {:induction false} StartScoutingKeepsValid(v: StateValue, id: int, draw: real, clock: Clock)
    requires ValidValue(v) && 0.0 <= draw < 1.0
    ensures ValidValue(StartScouting(v, id, draw, clock).state)
  {
    var o := StartScouting(v, id, draw, clock);
    if o.state != v {
      var w := o.state;
      assert RequirementFits(id, v.requirements[id], v.nextSupplierId, v.nextSampleId);
      ScoutedRequirementFits(v.requirements[id], id, v.nextSupplierId, v.nextSampleId, draw, clock);
      forall k | k in w.requirements
        ensures 1 <= k < w.nextRequirementId && RequirementFits(k, w.requirements[k], w.nextSupplierId, w.nextSampleId)
      {
        if k != id {
          FitsWithLargerCounters(k, v.requirements[k], v.nextSupplierId, v.nextSampleId, w.nextSupplierId, w.nextSampleId);
        }
      }
    }
  }

  /**
   * Scouting twice is scouting once: the second request finds the suppliers of the
   * first and changes nothing.
   */
  lemma {:induction false} ScoutingSettles(v: StateValue, id: int, draw1: real, draw2: real, clock1: Clock, clock2: Clock)
    requires 0.0 <= draw1 < 1.0 && 0.0 <= draw2 < 1.0
    ensures var once := StartScouting(v, id, draw1, clock1).state;
      StartScouting(once, id, draw2, clock2).state == once
  {
    var once := StartScouting(v, id, draw1, clock1).state;
    if id in v.requirements && |v.requirements[id].suppliers| == 0 {
      assert |once.requirements[id].suppliers| == 3;
    }
  }

  /** Fresh scouting reports the two suppliers it selected, both as responded. */
  lemma {:induction false} FreshScoutingSelectsTwo(v: StateValue, id: int, draw: real, clock: Clock)
    requires 0.0 <= draw < 1.0 && id in v.requirements && v.requirements[id].suppliers == []
    ensures var r := StartScouting(v, id, draw, clock).result;
      && r.Ok? && r.value.ScoutingReport?
      && r.value.autoSelected == [v.nextSupplierId, v.nextSupplierId + 1]
      && r.value.autoContacted == 2 && r.value.suppliersFound == 3
      && |r.value.outreachResults| == 2
      && r.value.outreachResults[0].responded && r.value.outreachResults[1].responded
  {
    FreshScoutingReport(v.nextSupplierId, id, v.nextSampleId, v.requirements[id].quantity, draw);
  }

  const SampleRecordedMessage: string := "Sample recorded locally. Proceed to quality review."

  /** The requirement after a sample was recorded for its `i`-th supplier. */
  const SampleReceivedNotes: string := "Sample received and ready for quality review."

  function SampledRequirement(req: Requirement, i: nat, sample: Sample, now: Timestamp): Requirement
    requires i < |req.suppliers|
  {
    var supplier := req.suppliers[i].(sample := Some(sample), status := SampleReceived,
                                      notes := SampleReceivedNotes);
    req.(suppliers := req.suppliers[i := supplier], status := RequirementStatus.QualityReview, updatedAt := now)
  }

  /**
   * `createSample`: a 400 without a usable supplier id, a 404 when no requirement has
   * that supplier, and otherwise a new sample, under the next sample id, on the first
   * supplier with that id in the first requirement that has one.
   */
  function CreateSample(v: StateValue, body: Body, draw: real, clock: Clock): (o: Outcome)
    requires 0.0 <= draw < 1.0
    ensures o.result.Err? ==> o.state == v
    ensures (body.supplierId.None? || body.supplierId.value == 0.0) <==> o.result == Err(ApiError(400, "supplier_id is required"))
    ensures o.result.Err? && o.result.error.status == 404 <==>
              && body.supplierId.Some? && body.supplierId.value != 0.0
              && forall k :: k in v.requirements ==> !HasSupplier(v.requirements[k], body.supplierId.value)
    ensures o.result.Ok? ==> o.result.value == SampleRecorded(v.nextSampleId, SampleRecordedMessage, SampleReceived)
                             && o.state.nextSampleId == v.nextSampleId + 1
  {
    if body.supplierId.None? || body.supplierId.value == 0.0 then
      Outcome(v, Err(ApiError(400, "supplier_id is required")))
    else
      var supplierId := body.supplierId.value;
      match RequirementWithSupplier(v, supplierId)
      case None => Outcome(v, Err(ApiError(404, "Supplier not found for requirement")))
      case Some(k) =>
        var req := v.requirements[k];
        var i := FindSupplier(req, supplierId).value;
        var sample := RecordedSample(v.nextSampleId, req.quantity, draw, body);
        Outcome(v.(nextSampleId := v.nextSampleId + 1,
                   requirements := v.requirements[k := SampledRequirement(req, i, sample, clock(0))]),
                Ok(SampleRecorded(v.nextSampleId, SampleRecordedMessage, SampleReceived)))
  }

  /** How `createSample` proceeds once the supplier was found. */
  lemma CreateSampleFound(v: StateValue, body: Body, draw: real, clock: Clock)
    requires 0.0 <= draw < 1.0
    requires body.supplierId.Some? && body.supplierId.value != 0.0
    requires RequirementWithSupplier(v, body.supplierId.value).Some?
    ensures var k := RequirementWithSupplier(v, body.supplierId.value).value;
      var req := v.requirements[k];
      var i := FindSupplier(req, body.supplierId.value).value;
      CreateSample(v, body, draw, clock) ==
        Outcome(v.(nextSampleId := v.nextSampleId + 1,
                   requirements := v.requirements[k := SampledRequirement(
                     req, i, RecordedSample(v.nextSampleId, req.quantity, draw, body), clock(0))]),
                Ok(SampleRecorded(v.nextSampleId, SampleRecordedMessage, SampleReceived)))
  {
  }

  /** A state change that rewrites supplier `i` of requirement `k` keeps validity if the new supplier fits. */
  lemma {:induction false} ReplacingSupplierKeepsValid(v: StateValue, w: StateValue, k: int, i: nat, req': Requirement)
    requires ValidValue(v) && k in v.requirements && i < |v.requirements[k].suppliers|
    requires w.nextRequirementId == v.nextRequirementId
    requires w.nextSupplierId == v.nextSupplierId && w.nextSampleId >= v.nextSampleId
    requires w.requirements == v.requirements[k := req']
    requires req'.id == k && |req'.suppliers| == |v.requirements[k].suppliers|
    requires forall j :: 0 <= j < |req'.suppliers| && j != i ==> req'.suppliers[j] == v.requirements[k].suppliers[j]
    requires SupplierFits(req'.suppliers[i], k, w.nextSupplierId, w.nextSampleId)
    ensures ValidValue(w)
  {
    forall key | key in w.requirements
      ensures 1 <= key < w.nextRequirementId && RequirementFits(key, w.requirements[key], w.nextSupplierId, w.nextSampleId)
    {
      assert RequirementFits(key, v.requirements[key], v.nextSupplierId, v.nextSampleId);
      FitsWithLargerCounters(key, v.requirements[key], v.nextSupplierId, v.nextSampleId, w.nextSupplierId, w.nextSampleId);
    }
  }

  lemma {:induction false} CreateSampleKeepsValid(v: StateValue, body: Body, draw: real, clock: Clock)
    requires ValidValue(v) && 0.0 <= draw < 1.0
    ensures ValidValue(CreateSample(v, body, draw, clock).state)
  {
    var o := CreateSample(v, body, draw, clock);
    if o.result.Ok? {
      var supplierId := body.supplierId.value;
      var k := RequirementWithSupplier(v, supplierId).value;
      var req := v.requirements[k];
      var i := FindSupplier(req, supplierId).value;
      var sample := RecordedSample(v.nextSampleId, req.quantity, draw, body);
      var req' := SampledRequirement(req, i, sample, clock(0));
      assert RequirementFits(k, req, v.nextSupplierId, v.nextSampleId);
      assert SupplierFits(req.suppliers[i], k, v.nextSupplierId, v.nextSampleId);
      ReplacingSupplierKeepsValid(v, o.state, k, i, req');
    }
  }

  /**
   * What a recorded sample changes: the first supplier with the id, in the
   * lowest-keyed requirement holding it, gets the new sample under the next sample
   * id, status sample_received and the review note (the rest kept); that
   * requirement moves to quality review at the clock's first reading; every other
   * supplier and requirement, and the other two counters, stay as they were.
   */
  lemma {:induction false} CreateSampleRecords(v: StateValue, body: Body, draw: real, clock: Clock)
    requires 0.0 <= draw < 1.0
    requires CreateSample(v, body, draw, clock).result.Ok?
    ensures body.supplierId.Some? && body.supplierId.value != 0.0
    ensures RequirementWithSupplier(v, body.supplierId.value).Some?
    ensures var sid := body.supplierId.value;
      var k := RequirementWithSupplier(v, sid).value;
      var r0 := v.requirements[k];
      var w := CreateSample(v, body, draw, clock).state;
      && (forall j :: j in v.requirements && j < k ==> !HasSupplier(v.requirements[j], sid))
      && w.nextRequirementId == v.nextRequirementId && w.nextSupplierId == v.nextSupplierId
      && w.nextSampleId == v.nextSampleId + 1
      && w.requirements.Keys == v.requirements.Keys
      && (forall j :: j in v.requirements && j != k ==> w.requirements[j] == v.requirements[j])
      && w.requirements[k].status == RequirementStatus.QualityReview && w.requirements[k].updatedAt == clock(0)
      && w.requirements[k].(suppliers := r0.suppliers, status := r0.status, updatedAt := r0.updatedAt) == r0
      && |w.requirements[k].suppliers| == |r0.suppliers|
      && exists i :: 0 <= i < |r0.suppliers| && r0.suppliers[i].id as real == sid
           && (forall j :: 0 <= j < i ==> r0.suppliers[j].id as real != sid)
           && (forall j :: 0 <= j < |r0.suppliers| && j != i ==> w.requirements[k].suppliers[j] == r0.suppliers[j])
           && w.requirements[k].suppliers[i].status == SampleReceived
           && w.requirements[k].suppliers[i].notes == SampleReceivedNotes
           && w.requirements[k].suppliers[i].sample == Some(RecordedSample(v.nextSampleId, r0.quantity, draw, body))
           && w.requirements[k].suppliers[i].(sample := r0.suppliers[i].sample, status := r0.suppliers[i].status,
                                              notes := r0.suppliers[i].notes) == r0.suppliers[i]
  {
    var sid := body.supplierId.value;
    var k := RequirementWithSupplier(v, sid).value;
    var i := SupplierIndex(v.requirements[k], sid).value;
    assert FindSupplier(v.requirements[k], sid) == Ok(i);
  }

  const ApprovedMessage: string := "Quality review saved. Cost analysis and negotiation simulated automatically."
  const RejectedMessage: string := "Quality review saved. Supplier rejected."

  /** The requirement after the sample of its `i`-th supplier was reviewed. */
  function ReviewedRequirement(req: Requirement, i: nat, body: Body, clock: Clock): Requirement
    requires i < |req.suppliers| && req.suppliers[i].sample.Some?
  {
    req.(suppliers := req.suppliers[i := ReviewedSupplier(req.suppliers[i], body, clock(0))],
         status := ReviewStatus(body.qualityApproved), updatedAt := clock(1))
  }

  /**
   * `reviewQuality`: a 404 when no supplier holds that sample; otherwise the verdict
   * is recorded and the supplier and its requirement move on (approved: cost
   * analysis; rejected: both rejected).
   */
  function ReviewQuality(v: StateValue, sampleId: int, body: Body, clock: Clock): (o: Outcome)
    ensures o.result.Err? ==> o.state == v && o.result.error == ApiError(404, "Sample not found")
    ensures o.result.Err? <==> forall k :: k in v.requirements ==> !HasSample(v.requirements[k], sampleId)
    ensures o.result.Ok? ==>
              && o.result.value.QualityReviewed?
              && o.result.value.qualityApproved == body.qualityApproved
              && o.result.value.requirementStatus == ReviewStatus(body.qualityApproved)
              && o.result.value.supplierStatus == (if body.qualityApproved then CostAnalyzed else QualityRejected)
              && o.state.nextSampleId == v.nextSampleId && o.state.nextSupplierId == v.nextSupplierId
              && o.state.nextRequirementId == v.nextRequirementId
  {
    match RequirementWithSample(v, sampleId)
    case None => Outcome(v, Err(ApiError(404, "Sample not found")))
    case Some(k) =>
      var req := v.requirements[k];
      var i := SampleOwnerIndex(req, sampleId).value;
      var req' := ReviewedRequirement(req, i, body, clock);
      Outcome(v.(requirements := v.requirements[k := req']),
              Ok(QualityReviewed(sampleId, body.qualityApproved,
                                 ReviewedSupplier(req.suppliers[i], body, clock(0)).status,
                                 ReviewStatus(body.qualityApproved),
                                 body.qualityApproved,
                                 if body.qualityApproved then ApprovedMessage else RejectedMessage)))
  }

  /** How `reviewQuality` proceeds once a supplier holding the sample was found. */
  lemma ReviewQualityFound(v: StateValue, sampleId: int, body: Body, clock: Clock)
    requires RequirementWithSample(v, sampleId).Some?
    ensures var k := RequirementWithSample(v, sampleId).value;
      var req := v.requirements[k];
      var i := SampleOwnerIndex(req, sampleId).value;
      var w := v.(requirements := v.requirements[k := ReviewedRequirement(req, i, body, clock)]);
      && ReviewQuality(v, sampleId, body, clock) ==
           Outcome(w, Ok(QualityReviewed(sampleId, body.qualityApproved,
                                         ReviewedSupplier(req.suppliers[i], body, clock(0)).status,
                                         ReviewStatus(body.qualityApproved), body.qualityApproved,
                                         if body.qualityApproved then ApprovedMessage else RejectedMessage)))
      && (ValidValue(v) ==> ValidValue(w))
  {
    if ValidValue(v) {
      ReviewQualityKeepsValid(v, sampleId, body, clock);
    }
  }

  lemma {:induction false} ReviewQualityKeepsValid(v: StateValue, sampleId: int, body: Body, clock: Clock)
    requires ValidValue(v)
    ensures ValidValue(ReviewQuality(v, sampleId, body, clock).state)
  {
    var o := ReviewQuality(v, sampleId, body, clock);
    if o.result.Ok? {
      var k := RequirementWithSample(v, sampleId).value;
      var req := v.requirements[k];
      var i := SampleOwnerIndex(req, sampleId).value;
      assert RequirementFits(k, req, v.nextSupplierId, v.nextSampleId);
      assert SupplierFits(req.suppliers[i], k, v.nextSupplierId, v.nextSampleId);
      ReplacingSupplierKeepsValid(v, o.state, k, i, ReviewedRequirement(req, i, body, clock));
    }
  }

  /**
   * What a quality review changes: the first supplier holding the sample, in the
   * lowest-keyed requirement holding it, becomes `ReviewedSupplier` of itself with
   * the verdict at the clock's first reading; that requirement takes the status the
   * verdict calls for at the second reading; every other supplier and requirement,
   * and all three counters, stay as they were.
   */
  lemma {:induction false} ReviewQualityRecords(v: StateValue, sampleId: int, body: Body, clock: Clock)
    requires ReviewQuality(v, sampleId, body, clock).result.Ok?
    ensures RequirementWithSample(v, sampleId).Some?
    ensures var k := RequirementWithSample(v, sampleId).value;
      var r0 := v.requirements[k];
      var w := ReviewQuality(v, sampleId, body, clock).state;
      && (forall j :: j in v.requirements && j < k ==> !HasSample(v.requirements[j], sampleId))
      && w.nextRequirementId == v.nextRequirementId && w.nextSupplierId == v.nextSupplierId
      && w.nextSampleId == v.nextSampleId
      && w.requirements.Keys == v.requirements.Keys
      && (forall j :: j in v.requirements && j != k ==> w.requirements[j] == v.requirements[j])
      && w.requirements[k].status == ReviewStatus(body.qualityApproved) && w.requirements[k].updatedAt == clock(1)
      && w.requirements[k].(suppliers := r0.suppliers, status := r0.status, updatedAt := r0.updatedAt) == r0
      && |w.requirements[k].suppliers| == |r0.suppliers|
      && exists i :: 0 <= i < |r0.suppliers| && r0.suppliers[i].sample.Some? && r0.suppliers[i].sample.value.id == sampleId
           && (forall j :: 0 <= j < i ==> r0.suppliers[j].sample.None? || r0.suppliers[j].sample.value.id != sampleId)
           && (forall j :: 0 <= j < |r0.suppliers| && j != i ==> w.requirements[k].suppliers[j] == r0.suppliers[j])
           && w.requirements[k].suppliers[i] == ReviewedSupplier(r0.suppliers[i], body, clock(0))
  {
    var k := RequirementWithSample(v, sampleId).value;
    var i := SampleOwnerIndex(v.requirements[k], sampleId).value;
    var r1 := ReviewedRequirement(v.requirements[k], i, body, clock);
    assert ReviewQuality(v, sampleId, body, clock).state.requirements == v.requirements[k := r1];
  }

  const ShortlistMessage: string := "Shortlist generated using simulated AI scoring."

  /** `createShortlist`: a 404 for an unknown requirement, else the shortlist, built if missing. */
  function CreateShortlist(v: StateValue, id: int, clock: Clock): (o: Outcome)
    ensures o.result.Err? <==> id !in v.requirements
    ensures o.result.Err? ==> o.state == v && o.result.error.status == 404
    ensures o.result.Ok? ==>
              && o.state == v.(requirements := v.requirements[id := ShortlistedRequirement(v.requirements[id], clock)])
              && o.result.value == ShortlistCreated(id, o.state.requirements[id].shortlist,
                                                    RequirementStatus.Shortlisted, ShortlistMessage)
  {
    match FindRequirement(v.requirements, id)
    case Err(e) => Outcome(v, Err(e))
    case Ok(req) =>
      var req' := ShortlistedRequirement(req, clock);
      Outcome(v.(requirements := v.requirements[id := req']),
              Ok(ShortlistCreated(id, req'.shortlist, req'.status, ShortlistMessage)))
  }

  lemma {:induction false} CreateShortlistKeepsValid(v: StateValue, id: int, clock: Clock)
    requires ValidValue(v)
    ensures ValidValue(CreateShortlist(v, id, clock).state)
  {
    var w := CreateShortlist(v, id, clock).state;
    forall key | key in w.requirements
      ensures 1 <= key < w.nextRequirementId && RequirementFits(key, w.requirements[key], w.nextSupplierId, w.nextSampleId)
    {
      assert RequirementFits(key, v.requirements[key], v.nextSupplierId, v.nextSampleId);
    }
  }

  const OnboardingMessage: string := "Onboarding simulated. Supplier moved to SRM handoff stage."

  /** The requirement after its `i`-th supplier started onboarding. */
  function OnboardedRequirement(req: Requirement, i: nat, now: Timestamp): Requirement
    requires i < |req.suppliers|
  {
    req.(suppliers := req.suppliers[i := OnboardedSupplier(req.suppliers[i])],
         status := RequirementStatus.Onboarding, updatedAt := now)
  }

  /** `onboardSupplier`: a 404 when no requirement has that supplier, else onboarding starts. */
  function OnboardSupplier(v: StateValue, supplierId: int, clock: Clock): (o: Outcome)
    ensures o.result.Err? ==> o.state == v && o.result.error == ApiError(404, "Supplier not found")
    ensures o.result.Err? <==> forall k :: k in v.requirements ==> !HasSupplier(v.requirements[k], supplierId as real)
    ensures o.result.Ok? ==>
              o.result.value == OnboardingStarted(supplierId, RequirementStatus.Onboarding, OnboardingMessage)
              && o.state.nextSupplierId == v.nextSupplierId && o.state.nextSampleId == v.nextSampleId
              && o.state.nextRequirementId == v.nextRequirementId
  {
    match RequirementWithSupplier(v, supplierId as real)
    case None => Outcome(v, Err(ApiError(404, "Supplier not found")))
    case Some(k) =>
      var req := v.requirements[k];
      var i := FindSupplier(req, supplierId as real).value;
      Outcome(v.(requirements := v.requirements[k := OnboardedRequirement(req, i, clock(0))]),
              Ok(OnboardingStarted(supplierId, RequirementStatus.Onboarding, OnboardingMessage)))
  }

  lemma {:induction false} OnboardSupplierKeepsValid(v: StateValue, supplierId: int, clock: Clock)
    requires ValidValue(v)
    ensures ValidValue(OnboardSupplier(v, supplierId, clock).state)
  {
    var o := OnboardSupplier(v, supplierId, clock);
    if o.result.Ok? {
      var k := RequirementWithSupplier(v, supplierId as real).value;
      var req := v.requirements[k];
      var i := FindSupplier(req, supplierId as real).value;
      assert RequirementFits(k, req, v.nextSupplierId, v.nextSampleId);
      assert SupplierFits(req.suppliers[i], k, v.nextSupplierId, v.nextSampleId);
      ReplacingSupplierKeepsValid(v, o.state, k, i, OnboardedRequirement(req, i, clock(0)));
    }
  }

  /**
   * What onboarding changes: the first supplier with the id, in the lowest-keyed
   * requirement holding it, becomes `OnboardedSupplier` of itself (status
   * onboarding, the note appended); that requirement moves to onboarding at the
   * clock's first reading; every other supplier and requirement, and all three
   * counters, stay as they were.
   */
  lemma {:induction false} OnboardSupplierRecords(v: StateValue, supplierId: int, clock: Clock)
    requires OnboardSupplier(v, supplierId, clock).result.Ok?
    ensures RequirementWithSupplier(v, supplierId as real).Some?
    ensures var k := RequirementWithSupplier(v, supplierId as real).value;
      var r0 := v.requirements[k];
      var w := OnboardSupplier(v, supplierId, clock).state;
      && (forall j :: j in v.requirements && j < k ==> !HasSupplier(v.requirements[j], supplierId as real))
      && w.nextRequirementId == v.nextRequirementId && w.nextSupplierId == v.nextSupplierId
      && w.nextSampleId == v.nextSampleId
      && w.requirements.Keys == v.requirements.Keys
      && (forall j :: j in v.requirements && j != k ==> w.requirements[j] == v.requirements[j])
      && w.requirements[k].status == RequirementStatus.Onboarding && w.requirements[k].updatedAt == clock(0)
      && w.requirements[k].(suppliers := r0.suppliers, status := r0.status, updatedAt := r0.updatedAt) == r0
      && |w.requirements[k].suppliers| == |r0.suppliers|
      && exists i :: 0 <= i < |r0.suppliers| && r0.suppliers[i].id == supplierId
           && (forall j :: 0 <= j < i ==> r0.suppliers[j].id != supplierId)
           && (forall j :: 0 <= j < |r0.suppliers| && j != i ==> w.requirements[k].suppliers[j] == r0.suppliers[j])
           && w.requirements[k].suppliers[i] == OnboardedSupplier(r0.suppliers[i])
  {
    var k := RequirementWithSupplier(v, supplierId as real).value;
    var i := SupplierIndex(v.requirements[k], supplierId as real).value;
    assert FindSupplier(v.requirements[k], supplierId as real) == Ok(i);
  }
}
