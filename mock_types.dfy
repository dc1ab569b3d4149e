/**
 * The records of the browser-side workflow engine (frontend/src/api/mockApi.ts):
 * requirements own their suppliers and shortlist, suppliers own an optional sample,
 * an optional cost analysis and their negotiation rounds.
 */
module MockTypes {
  import opened Wrappers

  /** An ISO-8601 timestamp, treated as an opaque value. */
  type Timestamp = string

  /** The k-th reading of the wall clock during one request. */
  type Clock = nat -> Timestamp

  /**
   * The requirement statuses. The declared union omits `Rejected`, but the quality
   * review assigns it all the same, so the model has it.
   */
  datatype RequirementStatus =
    | Draft | Scouting | Outreach | Sampling | QualityReview | CostAnalysis
    | Negotiation | Shortlisted | Onboarding | Completed | Rejected

  datatype SupplierStatus =
    | Discovered | Contacted | Responded | SampleRequested | SampleReceived
    | QualityApproved | QualityRejected | CostAnalyzed | Negotiating | Shortlisted
    | Rejected | Onboarding

  datatype Sample = Sample(
    id: int,
    quantity: real,
    priceQuoted: real,
    pricePerUnit: real,
    deliveryAddress: string,
    qualityApproved: Option<bool>,
    qualityNotes: Option<string>,
    qualityReviewedBy: Option<string>,
    qualityReviewedAt: Option<Timestamp>)

  datatype CostAnalysisRecord = CostAnalysisRecord(
    totalCost: real,
    savings: real,
    savingsPercentage: real,
    meetsExpectations: bool,
    currentSupplierCost: real)

  datatype NegotiationIteration = NegotiationIteration(
    iterationNumber: int,
    proposedCost: real,
    targetCost: real,
    outcome: string,
    notes: string)

  datatype Supplier = Supplier(
    id: int,
    requirementId: int,
    name: string,
    status: SupplierStatus,
    availabilityScope: Option<bool>,
    selectedForOutreach: bool,
    experienceYears: real,
    qualityRating: real,
    deliveryReliability: real,
    priceCompetitiveness: real,
    overallScore: real,
    certifications: seq<string>,
    contactMethod: string,
    notes: string,
    sample: Option<Sample>,
    costAnalysis: Option<CostAnalysisRecord>,
    negotiationIterations: seq<NegotiationIteration>)

  datatype ShortlistEntry = ShortlistEntry(
    supplierId: int,
    rank: int,
    integratedScore: real,
    costScore: real,
    qualityScore: real,
    recommendation: string,
    createdAt: Timestamp)

  datatype Requirement = Requirement(
    id: int,
    title: string,
    description: string,
    category: string,
    quantity: real,
    unit: string,
    requiredCertifications: seq<string>,
    status: RequirementStatus,
    createdAt: Timestamp,
    updatedAt: Timestamp,
    suppliers: seq<Supplier>,
    shortlist: seq<ShortlistEntry>)

  /** The whole store as a value: what is cloned, saved and loaded. */
  datatype StateValue = StateValue(
    nextRequirementId: int,
    nextSupplierId: int,
    nextSampleId: int,
    requirements: map<int, Requirement>)

  /** `createEmptyState`. */
  function EmptyState(): (v: StateValue)
    ensures v.requirements == map[]
    ensures v.nextRequirementId == 1 && v.nextSupplierId == 1 && v.nextSampleId == 1
  {
    StateValue(1, 1, 1, map[])
  }

  /** One of the canned supplier profiles scouting draws from. */
  datatype SupplierTemplate = SupplierTemplate(
    name: string,
    experienceYears: real,
    qualityRating: real,
    deliveryReliability: real,
    priceCompetitiveness: real,
    overallScore: real,
    certifications: seq<string>)

  const SupplierTemplates: seq<SupplierTemplate> := [
    SupplierTemplate("Global Office Supplies", 12.0, 4.6, 96.0, 84.0, 88.0, ["ISO 9001", "ISO 14001"]),
    SupplierTemplate("Precision Manufacturing Group", 9.0, 4.4, 92.0, 81.0, 85.0, ["ISO 9001", "RoHS"]),
    SupplierTemplate("Eco Logistics Partners", 8.0, 4.2, 88.0, 78.0, 80.0, ["ISO 14001"]),
    SupplierTemplate("Prime Industrial Networks", 14.0, 4.7, 97.0, 83.0, 90.0, ["ISO 9001", "Six Sigma"])
  ]

  /**
   * A request body, as the handlers read it. A numeric field holds what `Number(...)`
   * made of it, `None` standing for NaN (absent or non-numeric); a text field that the
   * handlers test for truthiness is `None` when absent.
   */
  datatype Body = Body(
    title: string,
    description: string,
    category: string,
    unit: string,
    quantity: Option<real>,
    requiredCertifications: Option<seq<string>>,
    supplierId: Option<real>,
    address: Option<string>,
    priceQuoted: Option<real>,
    qualityApproved: bool,
    qualityNotes: Option<string>,
    reviewedBy: Option<string>)

  datatype RequirementSummary = RequirementSummary(
    id: int, title: string, status: RequirementStatus, createdAt: Timestamp)

  datatype SupplierSummary = SupplierSummary(id: int, name: string, status: SupplierStatus)

  datatype OutreachResult = OutreachResult(
    id: int,
    name: string,
    responded: bool,
    sampleOrdered: bool,
    sampleDetails: Option<Sample>,
    status: SupplierStatus,
    contactMethod: string)

  /** The `data` member of each handler's answer. */
  datatype Response =
    | RequirementList(items: seq<RequirementSummary>)
    | RequirementCreated(id: int, status: RequirementStatus, message: string)
    | RequirementDetail(requirement: Requirement)
    | ScoutingReport(
        requirementId: int,
        suppliersFound: int,
        suppliers: seq<SupplierSummary>,
        autoSelected: seq<int>,
        outreachResults: seq<OutreachResult>,
        status: RequirementStatus,
        message: string,
        autoContacted: int)
    | SampleRecorded(sampleId: int, message: string, supplierStatus: SupplierStatus)
    | QualityReviewed(
        sampleId: int,
        qualityApproved: bool,
        supplierStatus: SupplierStatus,
        requirementStatus: RequirementStatus,
        autoAnalyzed: bool,
        message: string)
    | ShortlistCreated(
        requirementId: int, shortlist: seq<ShortlistEntry>, status: RequirementStatus, message: string)
    | OnboardingStarted(supplierId: int, status: RequirementStatus, message: string)

  /** A thrown error carrying an HTTP-like status. */
  datatype ApiError = ApiError(status: int, message: string)
}
