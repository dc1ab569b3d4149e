# Procurement workflow: the browser engine and the backend's rules

ProcurementDemo walks a purchase requirement through a supplier workflow:
scouting, outreach, sampling, quality review, cost analysis, negotiation,
shortlisting and onboarding. This project models two parts of it in Dafny and
proves properties of each.

The first part is the workflow engine that runs in the browser
(`frontend/src/api/mockApi.ts`). It keeps a store of requirements, each with its
suppliers, their samples, cost analyses, negotiation rounds and a shortlist, plus
three id counters. `mockRequest` loads the store, routes the request by method and
path to one of eight handlers, and saves the store whatever the outcome. In a
browser the store is also persisted as JSON in local storage. The model has three
layers:

- `MockHandlers`: each handler as a function from a store value to the new store
  and the response or error.
- `MockStore.MockState`: a class whose fields are the store. Each handler is a
  method that mutates the store in place, proved equal to its function.
- `MockApi.MockServer`: a class holding `memoryState` and the storage entry, with
  `loadState`, `saveState` and `mockRequest`.

The main invariant is `MockHandlers.ValidValue`. It says every requirement sits
under its own id, its suppliers point back to it, and every id handed out is below
its counter. Every handler and every request preserves it, so the next id a
counter hands out is never in use.

The second part is the rules of the Python backend, each in its own module:

- `ShortlistService`: shortlist scoring, ranking and tiers.
- `CostAnalysis`: cost analysis and transportation lanes.
- `Negotiation`: one negotiation step.
- `ScoutingAgent`: category pools, random selection and the certification merge.
- `SupplierMetrics`: supplier metrics and ranking.
- `OutreachAgent`: choice of the contact channel.
- `BackendWorkflow`: the parts of `backend/main.py` that do not touch the
  database. These are the bounded negotiation loop, the cost-analysis row updated
  after it, the pricing of an automatic sample order, the unit price shown for a
  sample, and the 404/400 guards.

Money and scores are exact reals. Rounding to two places or one place rounds half
away from zero (`Numeric.Round2`, `Numeric.Round1`). Randomness, clocks and
storage faults are parameters of the operations that use them:

- a draw in [0, 1);
- a `Clock` giving the k-th `nowIso()` reading;
- flags saying whether a storage read or write fails.

Some behaviours of the code may look unintended; the model follows the code:

- The third scouted supplier ends `sample_requested`, not `discovered`
  (mockApi.ts:332-333 with the `index === 1` branch at 360-363).
- `createShortlist` sets `shortlisted` even when no supplier qualifies
  (mockApi.ts:513).
- The browser shortlist takes the three *highest* total costs (mockApi.ts:233).
- Re-scouting leaves `updated_at` untouched (mockApi.ts:300-327).
- Onboarding twice appends the note twice (mockApi.ts:536-537).
- Quality rejection sets the requirement to `rejected`, although the declared
  status union lacks that value (mockApi.ts:489).
- The backend's savings percentage is taken against the best current cost
  (cost_analysis.py:47).

## Model

| member | source | states |
|---|---|---|
| MockTypes.EmptyState | frontend/src/api/mockApi.ts:111-116 | the empty store: no requirements, all three counters at 1 |
| MockHandlers.EmptyStateIsValid | frontend/src/api/mockApi.ts:111-118 | the initial store satisfies the store invariant |
| MockHandlers.FitsWithLargerCounters | frontend/src/api/mockApi.ts:266 | a requirement that fits under some counters still fits once they have grown |
| MockHandlers.NextIdsAreUnused | frontend/src/api/mockApi.ts:266 | in a valid store the next requirement, supplier and sample ids are used by no record |
| MockHandlers.FindRequirement | frontend/src/api/mockApi.ts:213-219 | the stored requirement exactly when the id is a key, else 404 "Requirement not found" |
| MockHandlers.FindSupplier | frontend/src/api/mockApi.ts:221-227 | found exactly when some supplier has the id, at an index holding it; else 404 "Supplier not found" |
| MockDomain.SupplierIndex | frontend/src/api/mockApi.ts:222 | the first supplier index with the id, or none when no supplier has it |
| MockDomain.SampleOwnerIndex | frontend/src/api/mockApi.ts:447 | the first supplier whose sample has the id, or none when no sample has it |
| MockHandlers.RequirementWithSupplier | frontend/src/api/mockApi.ts:409-411 | a requirement holding the supplier, or none only when no requirement holds it |
| MockHandlers.RequirementWithSample | frontend/src/api/mockApi.ts:440-442 | a requirement holding the sample, or none only when no requirement holds it |
| MockHandlers.ListRequirements | frontend/src/api/mockApi.ts:253-263 | one summary per stored requirement, ids in descending order |
| MockHandlers.ListedItemsAreStored | frontend/src/api/mockApi.ts:254-261 | every listed item is the summary of the stored requirement with its id |
| MockHandlers.StoredRequirementsAreListed | frontend/src/api/mockApi.ts:254-261 | every stored requirement appears in the list |
| MockHandlers.GetRequirement | frontend/src/api/mockApi.ts:292-295 | the stored record exactly when the id is stored, else a 404 |
| MockDomain.NumberOr | frontend/src/api/mockApi.ts:273 | `Number(x) \|\| d`: the given non-zero number, else the default |
| MockDomain.TextOr | frontend/src/api/mockApi.ts:422 | `x \|\| d`: the given non-empty text, else the default |
| MockDomain.NewRequirement | frontend/src/api/mockApi.ts:268-281 | a new requirement is scouting, has no suppliers or shortlist, and is created and updated at the same instant |
| MockHandlers.CreateRequirement | frontend/src/api/mockApi.ts:265-290 | takes the next requirement id, stores the new requirement under it, changes no other requirement and keeps the store valid |
| MockStore.MockState.CreateRequirement | frontend/src/api/mockApi.ts:265-290 | the in-place handler leaves the store and answer that `MockHandlers.CreateRequirement` gives |
| MockDomain.GenerateSample | frontend/src/api/mockApi.ts:190-205 | a sample of at least one unit at 120-145 a unit, delivered to the main warehouse, not yet reviewed |
| MockDomain.GeneratedSampleFigures | frontend/src/api/mockApi.ts:191-193 | a whole number of units, the rounded share of the requirement when that is at least a half; a whole unit price within 120-145; the quote exactly their product |
| MockDomain.RecordedSample | frontend/src/api/mockApi.ts:417-422 | a recorded sample has non-zero quantity and quote, and the given address or the default |
| MockDomain.RecordedSampleFigures | frontend/src/api/mockApi.ts:419-421 | the caller's non-zero quantity and quote win, and for a positive quantity the unit price is the quote per unit to the cent |
| MockDomain.PickTemplates | frontend/src/api/mockApi.ts:188 | the first three supplier templates, in catalogue order |
| MockDomain.ScoutSample | frontend/src/api/mockApi.ts:356-358 | only the first scouted supplier gets a sample |
| MockDomain.ScoutedFrom | frontend/src/api/mockApi.ts:330-366 | one supplier per template, numbered from the first free id |
| MockDomain.ScoutedFromAt | frontend/src/api/mockApi.ts:330-366 | the i-th scouted supplier is built from the i-th template with id first + i |
| MockDomain.ScoutedSuppliers | frontend/src/api/mockApi.ts:329-366 | fresh scouting creates three suppliers |
| MockDomain.ScoutedSupplierFacts | frontend/src/api/mockApi.ts:331-364 | statuses sample_received, sample_requested, sample_requested; the first two selected for outreach; in scope; no cost analysis |
| MockDomain.ScoutingOutcome | frontend/src/api/mockApi.ts:329-366 | the three suppliers take consecutive ids, and only the first holds a sample, with the next sample id |
| MockDomain.SelectedIds | frontend/src/api/mockApi.ts:372 | the ids of the suppliers selected for outreach |
| MockDomain.OutreachResults | frontend/src/api/mockApi.ts:373-383 | one outreach result per selected supplier, in the same order |
| MockDomain.Summaries | frontend/src/api/mockApi.ts:389-393 | one id/name/status summary per supplier |
| MockDomain.FreshScoutingReport | frontend/src/api/mockApi.ts:372-399 | after fresh scouting the first two suppliers are auto-selected and both count as responded |
| MockHandlers.StartScouting | frontend/src/api/mockApi.ts:297-401 | 404 for an unknown requirement; a requirement that already has suppliers is left unchanged; otherwise three suppliers and one sample id are taken and the requirement moves to sampling |
| MockHandlers.StartScoutingKeepsValid | frontend/src/api/mockApi.ts:297-401 | scouting keeps the store valid |
| MockHandlers.ScoutingSettles | frontend/src/api/mockApi.ts:300-327 | scouting a second time changes nothing, `updated_at` included |
| MockHandlers.FreshScoutingSelectsTwo | frontend/src/api/mockApi.ts:372-398 | fresh scouting reports three found, the first two ids auto-selected and contacted, both responded |
| MockStore.MockState.MakeScoutedSuppliers | frontend/src/api/mockApi.ts:330-366 | the loop takes one supplier id per template and one sample id for the first, and builds exactly `ScoutedFrom` |
| MockStore.MockState.StartScouting | frontend/src/api/mockApi.ts:297-401 | the in-place handler matches `MockHandlers.StartScouting` and keeps the store valid |
| MockHandlers.CreateSample | frontend/src/api/mockApi.ts:403-437 | 400 exactly when the supplier id is missing or 0; 404 exactly when no requirement holds the supplier; errors change nothing; success takes the next sample id |
| MockHandlers.ReplacingSupplierKeepsValid | frontend/src/api/mockApi.ts:423-428 | replacing one supplier by one that fits the counters keeps the store valid |
| MockHandlers.CreateSampleKeepsValid | frontend/src/api/mockApi.ts:403-437 | recording a sample keeps the store valid |
| MockHandlers.CreateSampleRecords | frontend/src/api/mockApi.ts:409-428 | on success, the first supplier with the id in the first requirement holding it gets the new sample under the next sample id, status sample_received and the review note, its other fields kept; that requirement moves to quality review; every other supplier and requirement and the other counters are unchanged |
| MockStore.MockState.CreateSample | frontend/src/api/mockApi.ts:403-437 | the in-place handler matches `MockHandlers.CreateSample` and keeps the store valid |
| MockDomain.ReviewedSample | frontend/src/api/mockApi.ts:452-455 | the verdict, the notes (default empty), a non-empty reviewer and the review time are recorded; the sample's figures are unchanged |
| MockDomain.ApprovedCostAnalysis | frontend/src/api/mockApi.ts:461-469 | the current cost is four times the quote, the total 92% of it and the savings 8%, each to the cent; expectations met |
| MockDomain.ApprovedSavingsAreEightPercent | frontend/src/api/mockApi.ts:461-469 | the savings percentage is 8.0, and for a non-negative quote the total never exceeds the current cost |
| MockDomain.SimulatedRounds | frontend/src/api/mockApi.ts:471-486 | two rounds: a partial success, then a success at the total cost and lower than the first; each proposes above its target |
| MockDomain.ReviewedSupplier | frontend/src/api/mockApi.ts:452-492 | approval gives cost_analyzed with the analysis and rounds above; rejection gives quality_rejected with neither |
| MockHandlers.ReviewQuality | frontend/src/api/mockApi.ts:439-508 | 404 "Sample not found" exactly when no supplier holds the sample, with nothing changed; otherwise the verdict and the statuses reported follow the verdict; no counter moves |
| MockHandlers.ReviewQualityKeepsValid | frontend/src/api/mockApi.ts:439-508 | a quality review keeps the store valid |
| MockHandlers.ReviewQualityRecords | frontend/src/api/mockApi.ts:439-495 | on success, the first supplier holding the sample in the first requirement holding it becomes the reviewed supplier (verdict recorded; analysis and rounds, or rejection); that requirement takes cost_analysis or rejected by the verdict; every other supplier and requirement and all counters are unchanged |
| MockStore.MockState.ReviewQuality | frontend/src/api/mockApi.ts:439-508 | the in-place handler matches `MockHandlers.ReviewQuality` and keeps the store valid |
| MockDomain.EntryFor | frontend/src/api/mockApi.ts:237-246 | a shortlist row ranked index + 1, with scores from savings, quality rating and overall score to one place, and the top/backup recommendation |
| MockDomain.ShortlistEntries | frontend/src/api/mockApi.ts:237-247 | at most three rows, one per leading candidate |
| MockDomain.ShortlistedRequirement | frontend/src/api/mockApi.ts:229-250 | the requirement becomes shortlisted whatever the candidates; an existing shortlist is kept |
| MockDomain.CandidateIsEligible | frontend/src/api/mockApi.ts:231-232 | every candidate is a supplier with a cost analysis in cost_analyzed, shortlisted or onboarding |
| MockDomain.EligibleIsCandidate | frontend/src/api/mockApi.ts:231-232 | every such supplier is a candidate |
| MockDomain.LeadingCandidates | frontend/src/api/mockApi.ts:229-233 | the first n candidates are eligible suppliers of the list, and no eligible supplier outside them costs more than any of them |
| MockDomain.ShortlistIsTopByTotalCost | frontend/src/api/mockApi.ts:228-250 | a new shortlist has one row per leading candidate, at most three, ranked 1, 2, 3 with the candidates' ids, the first recommended for onboarding |
| MockDomain.ShortlistTakesCostliest | frontend/src/api/mockApi.ts:228-250 | the suppliers a new shortlist takes are eligible suppliers of the requirement in descending total cost, and no eligible supplier left out costs more than one taken |
| MockDomain.ShortlistSettles | frontend/src/api/mockApi.ts:230 | shortlisting twice leaves the shortlist as the first call built it |
| MockHandlers.CreateShortlist | frontend/src/api/mockApi.ts:510-524 | 404 for an unknown requirement with nothing changed; otherwise only that requirement changes, to its shortlisted form, and the response carries its shortlist |
| MockHandlers.CreateShortlistKeepsValid | frontend/src/api/mockApi.ts:510-524 | shortlisting keeps the store valid |
| MockStore.MockState.CreateShortlist | frontend/src/api/mockApi.ts:510-524 | the in-place handler matches `MockHandlers.CreateShortlist` and keeps the store valid |
| MockDomain.OnboardedNotes | frontend/src/api/mockApi.ts:536-537 | the old notes, then " \| " when they were non-empty, then the onboarding note |
| MockDomain.OnboardedSupplier | frontend/src/api/mockApi.ts:535-537 | the supplier moves to onboarding with the note appended; nothing else changes |
| MockDomain.OnboardingAppendsEachTime | frontend/src/api/mockApi.ts:536-537 | onboarding is not idempotent: a second call grows the notes again |
| MockHandlers.OnboardSupplier | frontend/src/api/mockApi.ts:526-548 | 404 "Supplier not found" exactly when no requirement holds the supplier, with nothing changed; otherwise the response reports the supplier onboarding; no counter moves |
| MockHandlers.OnboardSupplierKeepsValid | frontend/src/api/mockApi.ts:526-548 | onboarding keeps the store valid |
| MockHandlers.OnboardSupplierRecords | frontend/src/api/mockApi.ts:526-540 | on success, the first supplier with the id in the first requirement holding it becomes onboarding with the onboarding note appended; that requirement moves to onboarding; every other supplier and requirement and all counters are unchanged |
| MockStore.MockState.OnboardSupplier | frontend/src/api/mockApi.ts:526-548 | the in-place handler matches `MockHandlers.OnboardSupplier` and keeps the store valid |
| MockApi.MatchId | frontend/src/api/mockApi.ts:551-555 | a match has the prefix and the suffix around at least one character |
| MockApi.MatchIdOfDigits | frontend/src/api/mockApi.ts:551-555 | prefix, digits, suffix matches with the digits' decimal value |
| MockApi.MatchIdOnlyDigits | frontend/src/api/mockApi.ts:551-555 | whatever matches is prefix, digits, suffix, and the id is the digits' value |
| MockApi.PrefixMismatch | frontend/src/api/mockApi.ts:551-555 | a path that differs from the prefix does not match |
| MockApi.SuffixMismatch | frontend/src/api/mockApi.ts:551-555 | a path that differs from the suffix does not match |
| MockApi.GetRequirementLine | frontend/src/api/mockApi.ts:573-579 | GET /requirements/{id} reaches getRequirement with that id |
| MockApi.ScoutLine | frontend/src/api/mockApi.ts:581-587 | POST /requirements/{id}/scout reaches startScouting with that id |
| MockApi.ReviewLine | frontend/src/api/mockApi.ts:595-601 | POST /samples/{id}/quality-review reaches reviewQuality with that id |
| MockApi.ShortlistLine | frontend/src/api/mockApi.ts:603-609 | POST /requirements/{id}/shortlist reaches createShortlist with that id |
| MockApi.OnboardLine | frontend/src/api/mockApi.ts:611-617 | POST /suppliers/{id}/onboard reaches onboardSupplier with that id |
| MockApi.RouteOfRequestLine | frontend/src/api/mockApi.ts:561-617 | each endpoint's own request line is routed back to that endpoint |
| MockApi.RoutedMethods | frontend/src/api/mockApi.ts:561-617 | only the methods get and post reach a handler |
| MockApi.NotImplemented | frontend/src/api/mockApi.ts:619-622 | a 501 whose message names the upper-cased method and the path |
| MockApi.UnroutedIsNotImplemented | frontend/src/api/mockApi.ts:619-622 | an unrouted request leaves the store alone and fails with 501 |
| MockApi.ServeKeepsValid | frontend/src/api/mockApi.ts:557-627 | whatever the request, serving keeps a valid store valid |
| MockApi.HandleKeepsValid | frontend/src/api/mockApi.ts:561-616 | each of the eight handlers, and the 501 branch, keeps a valid store valid |
| MockApi.FailedRequestChangesNothing | frontend/src/api/mockApi.ts:557-627 | a request that fails leaves the store as loaded |
| MockApi.GetRequestsOnlyRead | frontend/src/api/mockApi.ts:561-579 | a GET never changes the store |
| MockApi.Restore | frontend/src/api/mockApi.ts:126-129 | members missing from the stored object take the empty store's values |
| MockApi.Serialize | frontend/src/api/mockApi.ts:143 | a saved store has all four members |
| MockApi.RestoreSerialize | frontend/src/api/mockApi.ts:126-143 | restoring a saved store gives it back |
| MockApi.RestoreNothing | frontend/src/api/mockApi.ts:126-129 | restoring an object with no members gives the empty store |
| MockApi.Loaded | frontend/src/api/mockApi.ts:120-137 | outside a browser the memory; nothing stored gives the memory; a failed read or parse gives the empty store; else the restored store |
| MockApi.SavedStoreLoadsBack | frontend/src/api/mockApi.ts:120-147 | a store saved to working storage loads back unchanged |
| MockApi.LoadedIsValid | frontend/src/api/mockApi.ts:120-137 | loading from a valid memory and storage gives a valid store |
| MockApi.Saved | frontend/src/api/mockApi.ts:139-147 | in a browser whose write works, the entry restores to the saved store; otherwise it is unchanged |
| MockApi.RequestKeepsValid | frontend/src/api/mockApi.ts:557-627 | a request keeps memory and storage valid |
| MockApi.StorageMirrorsMemory | frontend/src/api/mockApi.ts:557-627 | in a browser whose storage works, storage restores to the memory after every request |
| MockApi.MockServer.constructor | frontend/src/api/mockApi.ts:118 | memory starts as the empty store |
| MockApi.MockServer.LoadState | frontend/src/api/mockApi.ts:120-137 | a fresh store object holding the loaded value; memory follows it; storage is untouched |
| MockApi.MockServer.SaveState | frontend/src/api/mockApi.ts:139-147 | memory takes the store's value, and storage the saved entry |
| MockApi.MockServer.Dispatch | frontend/src/api/mockApi.ts:561-622 | the store and answer are those of the handler the route names |
| MockApi.MockServer.RunHandler | frontend/src/api/mockApi.ts:561-622 | running the handler a route names in place changes the store and answers exactly as `Handle` says |
| MockApi.MockServer.MockRequest | frontend/src/api/mockApi.ts:557-627 | load, dispatch and save give exactly the `Request` outcome, on success and failure alike, and keep memory and storage valid |
| ShortlistService.CostScore | backend/services/shortlist_service.py:52-65 | 50 for no savings, 100 from 20% on, always between 50 and 100 |
| ShortlistService.CostScoreMonotone | backend/services/shortlist_service.py:52-65 | more savings never lower the cost score |
| ShortlistService.QualityScore | backend/services/shortlist_service.py:67-86 | between 20 and 100; at least 70 when approved, at most 50 when not |
| ShortlistService.IntegratedScore | backend/services/shortlist_service.py:29 | the 60/40 weighting lies between 38 and 100 |
| ShortlistService.TierBands | backend/services/shortlist_service.py:93-103 | a higher score never gets a worse tier; the top tier is exactly 85 and up, the bottom below 40 |
| ShortlistService.EntryFor | backend/services/shortlist_service.py:27-41 | a row with rank 0, the supplier's id and the tier of the unrounded score |
| ShortlistService.DisplayedScoreCanHideTier | backend/services/shortlist_service.py:31-37 | a row can show 85.00 yet be only "recommended", as the tier uses the unrounded score |
| ShortlistService.Entries | backend/services/shortlist_service.py:26-41 | one row per candidate, in order |
| ShortlistService.CreateShortlist | backend/services/shortlist_service.py:17-50 | the rows sorted by descending rounded score, ranked 1..n, a permutation of the candidates' rows, with the candidates' ids each as often |
| ShortlistService.AssignRanks | backend/services/shortlist_service.py:46-48 | row k keeps everything but its rank, which becomes k + 1 |
| ShortlistService.RankingKeepsRows | backend/services/shortlist_service.py:43-48 | numbering the sorted rows keeps them sorted and changes nothing but the ranks |
| ShortlistService.ShortlistIdsFollow | backend/services/shortlist_service.py:33-50 | the shortlist's ids are the candidates' ids, each as often |
| Sorting.SortDesc | backend/services/shortlist_service.py:44 | a stable descending sort: sorted by the key and a permutation of the input |
| Sorting.SortDescStable | backend/services/supplier_metrics.py:51 | rows with equal keys keep their input order |
| CostAnalysis.BestCurrentCost | backend/services/cost_analysis.py:99-104 | the minimum over the current suppliers: no larger than any and equal to one |
| CostAnalysis.BuiltInBestCost | backend/services/cost_analysis.py:22-25 | with the two built-in suppliers the best cost is 1130 a unit (1150 for a negative quantity) |
| CostAnalysis.FirstMatchCostIsListed | backend/services/cost_analysis.py:88-93 | the base is the default 200 or the cost of one of the lanes |
| CostAnalysis.FirstMatchAt | backend/services/cost_analysis.py:88-93 | the cost of the first lane that matches |
| CostAnalysis.NoMatchIsDefault | backend/services/cost_analysis.py:89 | no matching lane gives the default 200 |
| CostAnalysis.BaseCostIsTabulated | backend/services/cost_analysis.py:81-93 | the base cost is one of 150, 175 and 200 |
| CostAnalysis.TableBaseCost | backend/services/cost_analysis.py:81-93 | the base the built-in lane table gives is one of 150, 175 and 200 |
| CostAnalysis.BaseTransportationCost | backend/services/cost_analysis.py:88-93 | the loop returns the first matching lane's cost, else the default |
| CostAnalysis.TransportationCost | backend/services/cost_analysis.py:76-97 | the base cost times the variation, to the cent |
| CostAnalysis.TransportationCostRange | backend/services/cost_analysis.py:95-97 | for a variation in [0.8, 1.2] the transportation cost lies within 120-240 |
| CostAnalysis.ScaledBaseRange | backend/services/cost_analysis.py:80-97 | each tabulated base scaled by a variation in [0.8, 1.2] lies within 120-240 |
| CostAnalysis.MeetsIffFivePercent | backend/services/cost_analysis.py:112-133 | expectations are met exactly from 5% savings on |
| CostAnalysis.SavingsPercentageFivePercent | backend/services/cost_analysis.py:47 | the percentage reaches 5 exactly when the best cost is positive and the savings are 5% of it |
| CostAnalysis.Report | backend/services/cost_analysis.py:41-69 | base, total, current cost and savings as defined; met exactly when savings reach 5% of a positive current cost |
| CostAnalysis.ReportedPercentageWhenMet | backend/services/cost_analysis.py:68-69 | the reported, rounded percentage is at least 5 whenever expectations are met |
| CostAnalysis.AnalyzeCost | backend/services/cost_analysis.py:27-74 | the report for the transportation cost drawn with location "Unknown" and address "Main Warehouse" by default; for a variation in [0.8, 1.2] the total exceeds the base cost by 120 to 240 |
| CostAnalysis.ReportFigures | backend/services/cost_analysis.py:44-52 | the comparison cost is 1130 a unit, and met agrees with the unrounded percentage |
| Negotiation.ScenarioFor | backend/agents/negotiation_agent.py:25-26 | the given scenario, else one of the three built-in ones |
| Negotiation.DevelopStrategy | backend/agents/negotiation_agent.py:48-89 | the savings needed are the gap as a percentage of the cost, non-negative exactly when the target is not above a positive cost |
| Negotiation.NeededSign | backend/agents/negotiation_agent.py:51 | the sign of the savings needed follows the target |
| Negotiation.SimulateNegotiation | backend/agents/negotiation_agent.py:91-113 | success exactly when the unrounded cost reaches the target; the reported cost is 85-95% of the old one, negative or not, to the cent, and the reduction 5-15% |
| Negotiation.StepBounds | backend/agents/negotiation_agent.py:95-96 | a 5-15% reduction leaves 85-95% of the cost, negative or not |
| Negotiation.RoundedCostCanReachTargetOnPartialSuccess | backend/agents/negotiation_agent.py:96-109 | a cost that rounds onto the target can still be a partial success |
| Negotiation.CentsNeverRise | backend/agents/negotiation_agent.py:96-109 | a step never raises a cost already in whole cents |
| Negotiation.StepAfterStepNeverRises | backend/agents/negotiation_agent.py:96-109 | a step from a reported cost never raises it |
| Negotiation.Negotiate | backend/agents/negotiation_agent.py:17-46 | the supplier, original and target costs are passed through; the negotiated cost and outcome are those of the simulated step, and the strategy is the one developed for the given or drawn scenario |
| BackendWorkflow.PerformNegotiationIterations | backend/main.py:560-604 | one to three rounds, each from the cost the previous one reached, targeting 90% of the initial cost, stopping exactly after the first success or reached target |
| BackendWorkflow.RoundAt | backend/main.py:567-598 | each logged round is the negotiation from the cost before it |
| BackendWorkflow.AppendRound | backend/main.py:590-598 | a round negotiated from the last reached cost extends the log |
| BackendWorkflow.NegotiationLogUnique | backend/main.py:560-604 | the draws determine the log |
| BackendWorkflow.NegotiationLogFacts | backend/main.py:564-602 | rounds numbered from 1, all targeting 90%, all but the last above it; for a positive initial cost, costs never rising |
| BackendWorkflow.NegotiatedFigures | backend/main.py:480-484 | the total becomes the final cost, savings are recomputed, met exactly when the final cost is at most 95% of a positive current cost |
| BackendWorkflow.AnalysisRow.constructor | backend/main.py:451-462 | a stored analysis with the given figures |
| BackendWorkflow.AnalysisRow.ApplyNegotiatedCost | backend/main.py:700-704 | the row's figures become `NegotiatedFigures` of its current-supplier cost and the final cost |
| BackendWorkflow.SettleAutomaticAnalysis | backend/main.py:465-489 | a met analysis is shortlisted untouched; otherwise negotiated, updated, and shortlisted only if it now meets expectations |
| BackendWorkflow.NegotiateEndpoint | backend/main.py:689-707 | negotiates from the stored total, updates the row with the last round's cost, and shortlists supplier and requirement |
| BackendWorkflow.AutoPricePerUnit | backend/main.py:291-293 | 130 minus 0.3 per competitiveness point, so within 100-130 |
| BackendWorkflow.AutoPriceFallsWithCompetitiveness | backend/main.py:291-293 | a more competitive supplier never quotes more a unit |
| BackendWorkflow.AutoSamplePricing | backend/main.py:288-294 | 10-20% of the requirement quantity, quoted at the unit price to the cent |
| BackendWorkflow.SampleShare | backend/main.py:288 | the rounded sample quantity lies within 10-20% of the requirement's |
| BackendWorkflow.DisplayedPricePerUnit | backend/main.py:889 | the quote over the quantity to the cent, and 0 without a positive quantity |
| BackendWorkflow.DisplayedPriceRecoversUnitPrice | backend/main.py:889 | a whole-cent unit price is shown back exactly from quantity times it |
| BackendWorkflow.CostAnalysisGuard | backend/main.py:612-616 | no error exactly for a quality-approved supplier; 404 for none, 400 otherwise |
| BackendWorkflow.ScoutedStatus | backend/main.py:158 | discovered exactly when available, rejected exactly when not |
| BackendWorkflow.ScoutedSuppliersAreDiscovered | backend/main.py:141-158 | every scouted supplier is stored as discovered |
| BackendWorkflow.GetRequirement | backend/main.py:848-853 | the stored requirement exactly when the id is stored, else 404 "Requirement not found" |
| ScoutingAgent.CategoryOf | backend/agents/scouting_agent.py:155-163 | office/supplies, then material/raw, then service, by substring of the lower-cased category; office supplies by default |
| ScoutingAgent.CategoryIgnoresCase | backend/agents/scouting_agent.py:155 | the category does not depend on letter case |
| ScoutingAgent.PoolSizes | backend/agents/scouting_agent.py:65-152 | the pools hold 5, 3 and 2 templates |
| ScoutingAgent.MergedProperties | backend/agents/scouting_agent.py:172-179 | the merge keeps the existing list as a prefix, contains every required certification, and adds only missing ones, once each |
| ScoutingAgent.MergeCertifications | backend/agents/scouting_agent.py:175-179 | the loop builds exactly that merge |
| ScoutingAgent.GenerateSuppliersForCategory | backend/agents/scouting_agent.py:62-181 | a ValueError exactly when the pool has fewer than 3 templates, else 3-5 drawn templates with the certifications merged |
| ScoutingAgent.ServicesCannotBeScouted | backend/agents/scouting_agent.py:165-168 | the services pool is too small for `randint(3, 2)` |
| ScoutingAgent.DistinctPicksDistinctNames | backend/agents/scouting_agent.py:169 | distinct picks give suppliers with distinct names |
| ScoutingAgent.CheckAvailabilityScope | backend/agents/scouting_agent.py:54-60 | every supplier is in scope |
| ScoutingAgent.CertsText | backend/agents/scouting_agent.py:32 | "industry standards" when nothing is required |
| ScoutingAgent.CertsTextNamesEach | backend/agents/scouting_agent.py:32 | the email names every required certification |
| SupplierMetrics.ExperienceTerm | backend/services/supplier_metrics.py:38 | the experience term lies within 0-100 |
| SupplierMetrics.OverallScore | backend/services/supplier_metrics.py:34-39 | for ratings in range the weighted score lies within 0-100 |
| SupplierMetrics.ExperienceCapped | backend/services/supplier_metrics.py:38 | experience beyond 25 years counts as 25 |
| SupplierMetrics.OverallScoreMonotone | backend/services/supplier_metrics.py:34-39 | better ratings never lower the score |
| SupplierMetrics.CalculateMetrics | backend/services/supplier_metrics.py:13-47 | ratings within their drawn ranges, and the overall score is their weighted score to one place, within 61.5-98.2 |
| SupplierMetrics.RoundedWithin | backend/services/supplier_metrics.py:25-31 | rounding to one place keeps a value inside bounds given in tenths |
| SupplierMetrics.OverallBounds | backend/services/supplier_metrics.py:34-46 | the weighted score's extremes are 61.5 and 98.15, shown as 98.2 |
| SupplierMetrics.RankSuppliers | backend/services/supplier_metrics.py:49-51 | sorted by descending overall score (0 when missing) and a permutation of the input |
| SupplierMetrics.RankSuppliersStable | backend/services/supplier_metrics.py:51 | suppliers with equal scores keep their order |
| OutreachAgent.ChannelFor | backend/agents/outreach_agent.py:25-30 | phone exactly when asked and a phone is known; else email exactly when an email is known; else social media |
| OutreachAgent.HandleSupplierContact | backend/agents/outreach_agent.py:17-69 | the contact record's kind follows the channel; an email always gets one of the four responses; a call is answered and interested |
| OutreachAgent.ManageSamplingFollowups | backend/agents/outreach_agent.py:161-179 | a follow-up is always sent, with quantity, address and price inquiries |
| Numeric.Round2 | backend/services/cost_analysis.py:97 | rounding to cents moves a value by at most half a cent |
| Numeric.Round1 | backend/services/supplier_metrics.py:46 | rounding to tenths moves a value by at most 0.05 |
| Numeric.JsMathRound | frontend/src/api/mockApi.ts:191-192 | `Math.round`: the nearest integer, halves upward |
| Numeric.Round2Monotone | backend/services/cost_analysis.py:97 | rounding to cents preserves order |
| Numeric.Round2Idempotent | backend/agents/negotiation_agent.py:109 | rounding a rounded cost again changes nothing |
| Text.Lower | backend/agents/scouting_agent.py:155 | `str.lower` on ASCII, character by character |
| Text.Join | backend/agents/scouting_agent.py:32 | `", ".join` of no part is empty, of one part that part |
| Text.JoinContainsEachPart | backend/agents/scouting_agent.py:32 | the joined text contains every part |
| Text.NatToString | frontend/src/api/mockApi.ts:397 | decimal digits of a count |
| Text.DigitsValueOfNatToString | frontend/src/api/mockApi.ts:397 | the digits read back as the count |

## Left out

- Persistence mechanics are not modelled: JSON text, `structuredClone` and `localStorage` itself. The stored entry is a value that is either absent, unparseable or a parsed object. A storage fault is a flag.
- Outside a browser, and in a browser with nothing stored, `loadState` returns `memoryState` itself rather than a copy. The model hands the handler a copy. The outcome is the same, because `saveState` runs after every request, and every modelled error is raised before the handler changes anything.
- Nested records are replaced by value. The model does not capture in-place aliasing between a requirement, its suppliers and their samples.
- `Object.values` order is modelled as ascending integer keys, which is how JavaScript orders integer-like keys.
- `Math.random()`, `random.uniform`, `random.randint`, `random.sample` and `random.choice` become draw parameters, each restricted to the range it can take. Clock readings become a `Clock` parameter. `datetime.utcnow()` becomes a timestamp parameter.
- Numbers are exact reals, not IEEE doubles. `toFixed` and Python's `round` are modelled as rounding half away from zero on the exact value. Python rounds half to even on the binary value, so results can differ at exact halves.
- Fixed texts are not modelled: analysis notes, negotiation notes, emails, call scripts, engagement strategies, follow-up content and recommendation sentences. The shortlist models only the recommendation tier.
- The database is not modelled: FastAPI routing, SQLAlchemy sessions and queries, commits and the shortlist rows saved after the automatic analysis. Of the backend handlers, only the logic that needs no database is modelled: the negotiation loop, the analysis updates, sample pricing, the displayed unit price and the guards.
- Not part of this model: the React pages, `client.ts`, `mockApiClient` (logging and method lower-casing), and the backend's other endpoints and models.
- BackendWorkflow.PerformNegotiationIterations: requires a positive initial cost or one of -1 or below. A negative `price_quoted` is accepted and can leave a negative total. Rounds move a negative cost towards zero; a total between -1 and 0 can round to zero in a round that does not stop the loop, and the next round's strategy then raises ZeroDivisionError. That error, and a zero total, are not modelled.
- BackendWorkflow.NegotiationLogFacts: the costs are promised never to rise only for a positive initial cost. For a negative one each round moves the cost towards zero.
- A request with no body at all is not modelled: a body is a record of optional fields. Without one, `createRequirement` takes the next requirement id and then fails reading the title, and the store saved after the error keeps the advanced counter.
- Text.Lower: lower-cases the ASCII letters only, where Python's `str.lower` maps every Unicode letter.
- Text.Upper: upper-cases the ASCII letters only, where JavaScript's `toUpperCase` maps every Unicode letter.
- Negotiation.DevelopStrategy: requires a non-zero cost, where the source would raise ZeroDivisionError.
- CostAnalysis.AnalyzeCost: a supplier record whose `location` is present but None is not modelled. The Python `.get` default does not apply to it, and `.lower()` would raise.
- The backend's status enums share the browser engine's datatypes, which have the same values. The backend has no `onboarding` supplier status, and the shared type keeps it.
- MockDomain.ApprovedCostAnalysis: for a zero quote the source's percentage is NaN, which the model reports as 0.
- ScoutingAgent.GenerateSuppliersForCategory: the services pool has only two templates, so `randint(3, 2)` raises ValueError. This is modelled as an error result.
