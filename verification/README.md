# Verification of the API scanner's state machines

This project models the parts of the scanner that keep state while a server they do not control answers, and proves
what those parts promise for every such server. To verify: `dafny verify dfyconfig.toml`.

- **Fuzz run engine** (`Fuzz*.dfy`, `Json.dfy`). A planner promises a request budget; a worklist then grows while it is
  consumed, gates object-ID probes on a qualified baseline, blocks origins, and runs workflows against the same budget
  and circuit. The server is any function from the number of requests sent to a reply. The theorems say what is never
  sent and, in terms of the record alone, exactly what is.
- **Assessment execution lease** (`Lease.dfy`, `LeaseProgress.dfy`, `LeaseStore.dfy`). Clients acquire, renew, release
  and write under a lease. Runs are sequences of atomic transactions of any owners at any times. The theorems say who
  is kept out, and exactly when a request succeeds.
- **Write and read-back index** (`Readback.dfy`) and **de-duplication** (`Records.dfy`, `Loading.dfy`,
  `LoadedCopies.dfy`, `LoadedOthers.dfy`, `Unions.dfy`, `Loader.dfy`, `Merging.dfy`). Fast code against the plain
  meaning: a relation, and which copies of an observation are kept. That a load keeps the largest number of copies of
  any file holds for records without identifiers and fails where records with and without identifiers share a content;
  the exact condition is proved.
- **Discovery** (`CrawlModel.dfy`, `CrawlRun.dfy`, `CrawlOrigins.dfy`, `CrawlReach.dfy`, `CrawlLimits.dfy`,
  `Crawler.dfy`, `WildcardFilter.dfy`, `WorkerPool.dfy`) and the **origin circuit** (`TargetCircuit.dfy`). A bounded
  crawler, its stop limits, its post-filter, the pool that runs it for many targets, and the breaker for request plans.
- **Mutation planning** (`MutationPlan.dfy`, `MutationRequests.dfy`, `Mutations.dfy`) and **JSON paths**
  (`JsonPath.dfy`, `JsonSearch.dfy`, `PathText.dfy`). What a request carries is said by reading it back.
- **Check digits** (`CheckDigits.dfy`). IBAN (ISO 13616-1, with MOD 97-10 of ISO/IEC 7064) and Luhn (Annex B of
  ISO/IEC 7812-1).

Code that updates an object in place is a class whose methods are proved to do what functions on values say; the
theorems are about those functions, over whole runs. Where the program ranges over a map, the model draws the keys in
any order, so its results hold for every order.

## Model

| member | source | states |
|---|---|---|
| FuzzWorklist.PlannerSoundness | pkg/fuzz/runner.go:188-237 | For every server, a run sends at most the forecast's requests and at most the limit; when the forecast fits, no run reports the limit as hit, guided retries and workflow steps included |
| FuzzWorklist.WorklistTheorem | pkg/fuzz/runner.go:407-460 | The growing list stays within the limit, appended probes are new requests, and sent, isolated and ungated probes add up to the probes visited |
| FuzzWorklist.TurnAddsAtMostOneRetry | pkg/fuzz/runner.go:534-564 | One turn appends nothing, or one retry one level deeper whose request no earlier probe has, and handles exactly one probe |
| FuzzWorklist.TurnKeepsBound | pkg/fuzz/runner.go:534-564 | What is on the list plus what its unvisited probes may still add never grows, so a forecast that fits is never overrun |
| FuzzWorklist.PhaseKeepsWorklist | pkg/fuzz/runner.go:407-434 | The same over a whole probe phase, for every server |
| FuzzWorklist.FirstPhaseWithinForecast | pkg/fuzz/runner.go:188-237 | The probe phase leaves room for every workflow step that the forecast counts |
| FuzzWorklist.WorkflowsWithinBudget | pkg/fuzz/workflow.go:185-231 | Workflows send at most their counted steps, and run against what is left of the limit |
| FuzzSends.SendsExactly | pkg/fuzz/runner.go:407-460 | Exactly what is sent: in the probe phase of every run each visited probe of the final list has a place in the record, and is sent there if and only if the record before that place does not block its origin, where that matters, and the latest baseline it needs qualified; every other probe leaves the record as it is and is counted by its reason; the phase goes on to the end of the list unless pacing is canceled before a probe that is due, or the last reply ends the run |
| FuzzSends.TurnExactly | pkg/fuzz/runner.go:407-434 | What one turn does, in terms of the record |
| FuzzRepairs.RepairsExactly | pkg/fuzz/runner.go:534-564 | Exactly the retries: for every reply that offers a repair, while depth and circuit allow another, the repaired request is on the list unless the list is full; every further probe of the list is such a retry, with the URL and body of the repair; hints that lead nowhere are counted once for each probe they started from |
| FuzzWorkflows.WorkflowsExactly | pkg/fuzz/workflow.go:185-328 | Exactly the workflows: one after the other until one is aborted or ends the run, each is a walk through its steps with the variables learned so far, sent unless the limit, a blocked origin or cancellation prevents it; it goes on exactly after a reply that is verified and whose captures succeed; the steps left out are counted |
| FuzzPlans.PlansAreTheProduct | pkg/fuzz/runner.go:343-393 | The plans of an operation are exactly its cases, each for every identity in order, with the request of the case and the baseline of its operation and identity |
| FuzzPlans.EveryCaseIsPlanned | pkg/fuzz/runner.go:323-393 | Every case of every operation that may be sent is planned for every identity |
| FuzzPlans.EveryPlanIsCase | pkg/fuzz/runner.go:323-393 | And nothing else is planned |
| FuzzSmooth.SmoothRunSendsAll | pkg/fuzz/runner.go:188-277 | The forecast is tight: where it fits without the reserve, a run in which nothing goes wrong sends every planned probe in order, object-ID probes included, and then as many workflow steps as were counted, and leaves out exactly what the forecast says is not permitted |
| FuzzSmooth.AllFounded | pkg/fuzz/runner.go:343-393 | In every plan the baseline of an object-ID probe comes before it, with the same key |
| FuzzSafety.NothingUnsafe | pkg/fuzz/runner.go:323-341 | No run sends a state-changing request, retries and workflow steps included, unless the risk is accepted |
| FuzzGate.BaselineGating | pkg/fuzz/runner.go:505-516 | Every sent probe that needs a valid baseline comes after a baseline of its method, baseline URL and identity, and the latest such baseline qualified |
| FuzzGate.VerdictHasPlace | pkg/fuzz/runner.go:505-516 | The latest verdict for a key is that of a baseline in the record after which there is no other for the key |
| FuzzGate.TurnKeepsGate | pkg/fuzz/runner.go:436-460 | One turn keeps the gate in agreement with the record; a guided retry never changes a verdict |
| FuzzTally.SummaryConserves | pkg/fuzz/runner.go:807-823 | In every run the summary counts each class as the record of replies has it; failures, classes and the replies with a status below 200, which have no class, add up to the requests |
| FuzzTally.GuidedExactly | pkg/fuzz/runner.go:518-532 | In every run the retries counted are those of the record, and the successes those whose reply brought data after a failure |
| FuzzIsolation.OriginIsolation | pkg/fuzz/runner.go:411-415 | With the option to go on, no blocked origin gets another request, open origins have fewer than three failures in a row, and blocked origins are counted once; without it a rate limit is the last reply |
| FuzzIsolation.BlockedExactlyWhen | pkg/fuzz/runner.go:462-495 | An origin is blocked if and only if the record holds a rate limit from it, or three attributable failures with no reply between them that ends the streak |
| FuzzIsolation.StreakBlocks | pkg/fuzz/runner.go:480-495 | Three failures in a row block an origin |
| FuzzIsolation.StepKeepsCircuit | pkg/fuzz/workflow.go:282-328 | Workflow steps obey and feed the same circuit as probes |
| FuzzPlanner.Plan | pkg/fuzz/runner.go:188-237 | Accumulates exactly the forecast of the plannable operations, and fails exactly when one cannot be planned |
| FuzzPlanner.BuildProbePlans | pkg/fuzz/runner.go:323-341 | Builds the operations' probes in order up to the limit and says whether it cut them |
| FuzzPlanner.PlanOperationProbes | pkg/fuzz/runner.go:343-393 | Plans the baseline and the mutations of one operation for each identity, or the prefix of them that fits |
| FuzzPlanner.BuildIsPrefix | pkg/fuzz/runner.go:323-341 | What a run starts with is exactly the prefix of what the planner counted |
| FuzzPlanner.WorkflowUnsafeSteps | pkg/fuzz/workflow.go:272-280 | Counts the state-changing steps |
| FuzzModel.NormalizeOptions | pkg/fuzz/runner.go:566-601 | Fills in the defaults, and refuses exactly numbers outside their limits |
| FuzzModel.NormalizeIdentities | pkg/fuzz/runner.go:603-626 | Accepts exactly identities with distinct names that are not blank and headers that have a name and no line break, in every order of ranging over the headers; without any there is an anonymous one |
| FuzzModel.NamesAreGood | pkg/fuzz/runner.go:603-626 | Accepted identities have distinct names, none of them blank |
| FuzzModel.ValidateWorkflow | pkg/fuzz/workflow.go:98-108 | Accepts exactly named workflows with steps that are all acceptable and name known identities |
| FuzzModel.Normalize | pkg/fuzz/runner.go:243-252 | Accepts exactly options within the limits, with good identities and with workflows that fit them; what is accepted satisfies what the theorems need |
| Json.SubstantiveLeafCount | pkg/fuzz/runner.go:1308-1339 | In every order of ranging over objects, the count is the number of substantive leaves capped at the limit |
| Json.ExplicitFailureEnvelope | pkg/fuzz/runner.go:1272-1297 | Finds a failure envelope if and only if some field of the object says so, in every order |
| Json.LooksLikeObjectData | pkg/fuzz/runner.go:1252-1270 | Two or more substantive leaves and no failure envelope, for success replies |
| Json.FieldLeavesAnyOrder | pkg/fuzz/runner.go:1308-1339 | The leaves of an object do not depend on the order of its keys |
| FuzzEngine.CheckQualifies | pkg/fuzz/runner.go:751-753 | A baseline qualifies exactly for an error-free success reply with object data |
| FuzzEngine.CheckApplicationFailure | pkg/fuzz/runner.go:755-765 | Decides the application failure that guided retries start from |
| FuzzEngine.CheckSuccessfulData | pkg/fuzz/runner.go:767-779 | Decides the success that a guided retry is credited with |
| FuzzEngine.Run.constructor | pkg/fuzz/runner.go:395-405 | The worklist starts with the plans and their fingerprints |
| FuzzEngine.Run.TakeTurn | pkg/fuzz/runner.go:407-434 | Skips a probe of a blocked origin or without a valid baseline, and sends any other |
| FuzzEngine.Run.ExecutePlannedProbe | pkg/fuzz/runner.go:436-460 | Sends one probe, records it, feeds the circuit, and schedules a retry only if the run goes on |
| FuzzEngine.Run.ObserveReply | pkg/fuzz/runner.go:462-495 | Updates the circuit as the record of replies says |
| FuzzEngine.Run.RecordTransportResult | pkg/fuzz/runner.go:480-495 | Counts consecutive failures of the origin and blocks it at the third |
| FuzzEngine.Run.BlockOrigin | pkg/fuzz/runner.go:468-478 | Blocks the origin of the URL, if it has one |
| FuzzEngine.Run.RecordBaseline | pkg/fuzz/runner.go:505-516 | Stores the verdict of a baseline under its key |
| FuzzEngine.Run.RecordGuidedResult | pkg/fuzz/runner.go:518-532 | Counts guided retries and their successes |
| FuzzEngine.Run.ScheduleGuidedRetry | pkg/fuzz/runner.go:534-564 | Appends a new request once, or notes an unresolved hint once for its root |
| FuzzEngine.Run.UpdateSummary | pkg/fuzz/runner.go:807-823 | Counts the request, and counts it as a failure or in the class of its status; statuses below 200 have no class |
| FuzzEngine.Run.ExecuteProbePlans | pkg/fuzz/runner.go:407-434 | The loop over the growing list ends, and does what the phase function says |
| FuzzEngine.Run.ExecuteStep | pkg/fuzz/workflow.go:282-328 | Sends a step within the limit and judges it, or stops |
| FuzzEngine.Run.RecordBlockedWorkflowSteps | pkg/fuzz/workflow.go:257-270 | Counts the steps that a blocked origin leaves out |
| FuzzEngine.Run.ExecuteWorkflow | pkg/fuzz/workflow.go:233-255 | Runs the steps until one ends the workflow |
| FuzzEngine.Run.ExecuteWorkflows | pkg/fuzz/workflow.go:185-231 | Runs the workflows until one ends the run |
| FuzzEngine.RunFuzz | pkg/fuzz/runner.go:239-277 | The whole run in place is the run that the theorems are about |
| Lease.Fencing | pkg/store/assessment_lease.go:105-133 | Over every interleaving, an owner that released its lease or was replaced never succeeds again |
| Lease.WritesFormBlocks | pkg/store/assessment_lease.go:105-133 | The successful writes of an assessment form one contiguous block for each owner |
| Lease.NoOtherOwnerBeforeDeadline | pkg/store/assessment_lease.go:14-50 | With a clock that does not go back, no other owner gets anything before the deadline of an idle grant |
| Lease.GrantStands | pkg/store/assessment_lease.go:14-50 | A grant stands until an acquisition at or after its deadline |
| Lease.LostForGood | pkg/store/assessment_lease.go:52-103 | A lost lease is lost for good |
| Lease.FailuresLeaveNoTrace | pkg/store/assessment_lease.go:135-182 | All or nothing, over every run: leaving out the requests that fail gives a run in which every request succeeds and which ends with the same tables |
| Lease.OnlyForward | pkg/store/assessment_lease_publication.go:87-137 | Over every run, attempts, nodes and assessments only move forward: a row that is running stays as it is until it is finished, however often it is started again, and a finished row never changes |
| Lease.RestartResumes | pkg/store/assessment_lease_publication.go:39-85 | A node that somebody started and nobody finished, whatever happened in between, may be started again exactly by the live holder of its assessment's lease, and is then as it was when first started |
| Lease.EndedByHolder | pkg/store/assessment_lease_publication.go:87-137 | An attempt, node or assessment that a run brings to its end was ended by a write of the owner that held the lease of its assessment then |
| LeaseProgress.TakeOverExactly | pkg/store/assessment_lease.go:14-50 | After a grant until d with nothing about the assessment successful since, the next acquisition, by whomever, succeeds if and only if it comes at d or later, and is then a grant of its own |
| LeaseProgress.FreeAfterRelease | pkg/store/assessment_lease.go:83-103 | After a successful release with nothing successful since, an acquisition succeeds at any time |
| LeaseProgress.FreeAtFirst | pkg/store/assessment_lease.go:14-50 | A lease that nobody ever had is free |
| LeaseProgress.HolderSucceeds | pkg/store/assessment_lease.go:52-103 | The holder renews exactly before its deadline, and may release at any time |
| LeaseProgress.HolderFinishes | pkg/store/assessment_lease.go:135-182 | The holder finishes a row exactly before its deadline, if the row is of its assessment and may be finished; the row has the reported status then |
| LeaseProgress.HolderStarts | pkg/store/assessment_lease_publication.go:39-85 | The holder starts a waiting node of its assessment exactly before its deadline; nothing else about the nodes changes |
| LeaseProgress.HolderPublishes | pkg/store/assessment_lease_publication.go:234-258 | The holder publishes exactly before its deadline, what is valid and was not published yet |
| LeaseStore.Store.AcquireLease | pkg/store/assessment_lease.go:14-50 | Grants the lease exactly when nobody holds it or it has expired |
| LeaseStore.Store.RenewLease | pkg/store/assessment_lease.go:52-81 | Extends the lease of the owner that holds it and has not let it expire |
| LeaseStore.Store.ReleaseLease | pkg/store/assessment_lease.go:83-103 | Deletes the lease of this owner, expired or not |
| LeaseStore.Store.RenewInTransaction | pkg/store/assessment_lease.go:105-133 | The fence: succeeds exactly for the live holder, and renews |
| LeaseStore.Store.FinishAttemptWithLease | pkg/store/assessment_lease.go:135-182 | Finishes a running attempt under the fence, or rolls everything back |
| LeaseStore.Store.StartNodeWithLease | pkg/store/assessment_lease_publication.go:39-85 | Starts a pending or running node under the fence, or rolls everything back |
| LeaseStore.Store.FinishNodeWithLease | pkg/store/assessment_lease_publication.go:25-37 | Finishes a node under the fence, or rolls everything back |
| LeaseStore.Store.FinishAssessmentWithLease | pkg/store/assessment_lease_publication.go:12-23 | Finishes an assessment under the fence, or rolls everything back |
| LeaseStore.Store.PublishWithLease | pkg/store/assessment_lease_publication.go:234-258 | Inserts a row under the fence, or rolls everything back |
| Readback.PersistentReadbackGroups | pkg/report/evidence_analysis.go:16-81 | Index i is in the group of object k if and only if i belongs to a pair of an eligible write and a later eligible read of k, of one origin, related, with a shared stable field |
| Readback.EndpointAncestors | pkg/report/evidence_analysis.go:83-97 | Lists exactly the ancestors, cutting one segment at a time |
| Readback.PrefixIsAncestor | pkg/report/analyze.go:290-311 | Every path that the prefix test accepts is among the ancestors, repeated slashes included |
| Readback.RelatedIsFiled | pkg/report/analyze.go:290-325 | A related write's path is among the places its read is filed under |
| Readback.RelatedExactly | pkg/report/analyze.go:290-311 | A write and a read are related if and only if the write's segments come first among the read's and neither path is empty |
| Readback.SharesStableField | pkg/report/evidence_analysis.go:206-217 | In every order of ranging, finds a shared telling field if and only if there is one |
| Readback.BuildIndex | pkg/report/evidence_analysis.go:16-47 | Files every eligible read under each of its places, in order |
| LoadedCopies.LoadKeepsThePlaces | pkg/report/load.go:696-723 | For every content, a load keeps the observations without identifiers whose number some file gives one of its records: its place among all records of the content in the file, those with identifiers included |
| LoadedCopies.FileKeysOfPlaces | pkg/report/load.go:711-718 | The same for the keys of one file |
| LoadedCopies.PlacesCounted | pkg/report/load.go:711-718 | A file's records without identifiers have distinct numbers, up to the number of all its records of the content |
| LoadedCopies.MaximumExactly | pkg/report/load.go:696-723 | A load keeps at least as many observations of a content without identifiers as any single file has, and the largest number of any file if and only if one file has them at every place where any file does; never more than a file has in all |
| LoadedCopies.MixedRecordsKeepMore | pkg/report/load.go:711-718 | The plain maximum fails on mixed records: two files have one record without identifiers each, one of them after a record with an identifier, and both are kept |
| LoadedCopies.LoadKeepsTheMaximum | pkg/report/load.go:696-723 | The special case of a content of which no record has identifiers: a load keeps the copies 1, 2, ... up to the largest number in any single file, and no others |
| Loading.LoadKeepsEveryKey | pkg/report/load.go:696-723 | A completed load keeps exactly one observation for every key some file gives one of its records: the first record with it in the first such file |
| Loading.LoadConserves | pkg/report/load.go:747-793 | The raw count is the sum of the files' counts, within the limit, and at least what is kept: duplicates need no clamping |
| Loading.FileAddsItsKeys | pkg/report/load.go:696-723 | One file adds its keys and nothing else, and never replaces an observation of an earlier file |
| LoadedOthers.LoadsExactly | pkg/report/load.go:747-754 | A load succeeds if and only if every record is acceptable and no more are counted than the limit; the raw count is the number of records that are not passed over |
| LoadedOthers.LastIsKept | pkg/report/load.go:684-745 | A completed load keeps the last page of each URL and status, the last failure of each source and error and the last finding of each key, and nothing that no record gives |
| LoadedOthers.VersionIsKept | pkg/report/load.go:671-682 | And of each URL the first discovery that has a version, or the last if none has |
| Loader.FileLoader.CountRecord | pkg/report/load.go:747-754 | Counts for the batch and for the file, and then compares with the limit |
| Loader.FileLoader.AddTarget | pkg/report/load.go:660-669 | Counts and keeps a target; blank ones are passed over |
| Loader.FileLoader.AddDiscovery | pkg/report/load.go:671-682 | Keeps a discovery over one without a version |
| Loader.FileLoader.AddInteresting | pkg/report/load.go:684-694 | Keeps the last observation of a URL and status |
| Loader.FileLoader.AddOperation | pkg/report/load.go:696-723 | Numbers the occurrence in its file, and keeps the first observation under its key |
| Loader.FileLoader.AddFailure | pkg/report/load.go:725-734 | Rejects an incomplete failure before it is counted |
| Loader.FileLoader.AddImportedFinding | pkg/report/load.go:736-745 | Rejects a finding without severity or title before it is counted |
| Loader.FileLoader.Parse | pkg/report/load.go:235-252 | Adds the records of one file until one ends the load |
| Loader.FileLoader.Finish | pkg/report/load.go:756-793 | Lists what is kept, each once, with the duplicates as raw minus kept |
| Loader.LoadFiles | pkg/report/load.go:49-91 | Succeeds exactly when every file loads; then raw equals entries plus duplicates |
| Records.ListOf | pkg/report/load.go:795-811 | A map's values, each once, in whatever order |
| Merging.MergeDatasets | pkg/report/store.go:192-268 | Gathers every list by key, with raw counts summed and duplicates as the difference |
| Merging.MergeKeepsTheNumbers | pkg/report/store.go:227-232 | For every content, merging keeps the observations without identifiers whose number some dataset has |
| Merging.MergeMaximumExactly | pkg/report/store.go:227-232 | Merging keeps at least as many observations of a content without identifiers as any dataset has, and the largest number of any dataset if and only if one dataset has all numbers that any has |
| Merging.LoadedHasPlaces | pkg/report/load.go:696-723 | The numbers of a loaded dataset are those its files give their records without identifiers |
| Merging.MixedDatasetsKeepMore | pkg/report/store.go:227-232 | Loaded apart, two files of mixed records give datasets with one observation without identifiers each, and merging keeps both |
| Merging.MergeTakesTheMaximum | pkg/report/store.go:227-232 | The special case of numbers without gaps: merging keeps the copies 1, 2, ... up to the largest number in any dataset |
| Merging.LoadedHasCopies | pkg/report/load.go:696-723 | The numbers of a loaded dataset have no gaps for a content of which no record has identifiers |
| Merging.MergeOfLoads | pkg/report/store.go:192-268 | Loading two groups of files apart and merging keeps the keys that loading them together keeps. Under each key loading keeps the first record; merging keeps that of the first group, unless the second group has one that comes before it |
| Merging.MergeWithItself | pkg/report/store.go:192-268 | Merging a dataset with itself keeps exactly its observations, unchanged |
| Merging.EarliestIsKept | pkg/report/store.go:296-316 | Under the key of any observation of any dataset merging keeps one that is no later; one without a time never wins over one with a time |
| Merging.KeptIsObserved | pkg/report/store.go:227-232 | What is kept is an observation of some dataset, unchanged |
| Merging.MergeConserves | pkg/report/store.go:265-266 | Where no dataset lists more than it counted, the merged one does not either: nothing is clamped |
| MutationRequests.RangeIsCovered | pkg/apitest/operations.go:301-439 | When a plan with a range is made, then for every identifier of path, query or body and every number a request of the plan carries it, wherever it can be sent and whatever the limit: the path segment, query key or body key holds the number, and site, other segments, other keys and the other parts are those of the operation |
| MutationRequests.RangeIsAll | pkg/apitest/operations.go:371-439 | And nothing else is made for the range: each of its requests carries one of its numbers at one identifier |
| MutationRequests.RangeIsRead | pkg/apitest/operations.go:371-439 | Where parsing undoes rendering of URLs, queries and bodies, a server that parses the request reads the number at the identifier and everything else unchanged |
| MutationRequests.SegmentReplaced | pkg/apitest/operations.go:377-392 | Rewriting one segment and joining them again changes that segment only |
| MutationRequests.VerboseErrorsAreProbed | pkg/apitest/operations.go:354-369 | A plan with room left provokes verbose errors |
| MutationPlan.RangeCountExact | pkg/apitest/operations.go:441-460 | The count that the limit is checked against is the number of requests the range makes |
| MutationPlan.PositionsExactly | pkg/apitest/operations.go:377-415 | The positions are exactly the identifier segments of the path and the identifier keys of the query and the body |
| MutationPlan.SpecialsAreComplete | pkg/apitest/operations.go:319-322 | With special characters a plan is the whole unlimited list, or refused |
| MutationPlan.DistinctFacts | pkg/apitest/operations.go:342-352 | No request is kept twice, every one that fits is kept, and nothing else is |
| MutationPlan.DistinctIsPrefix | pkg/apitest/operations.go:342-352 | Generating more never changes what is kept of what came before |
| MutationPlan.ValidatedExactly | pkg/apitest/operations.go:325-328 | Writing a range out and parsing it accepts exactly ranges in order, not negative, of at most 1000 numbers |
| Mutations.MutationCollector.Add | pkg/apitest/operations.go:342-352 | The collector holds the first `limit` of what an unlimited collector would hold |
| Mutations.MutationCollector.EnsureVerboseProbe | pkg/apitest/operations.go:354-369 | After the probe too, the collector holds the first `limit` of the unlimited list |
| Mutations.NumericRangeMutations | pkg/apitest/operations.go:371-439 | Makes the requests of every position and number, in order |
| Mutations.NumericRangeAt | pkg/apitest/operations.go:377-392 | Makes the requests of one position, from the start of the range to its end |
| Mutations.CountIdentifiers | pkg/apitest/operations.go:444-457 | Counts identifier keys in any order |
| Mutations.NumericRangeMutationCount | pkg/apitest/operations.go:441-460 | The width of the range times the number of positions |
| Mutations.MutationsFor | pkg/apitest/operations.go:287-323 | The bounded collection returns exactly the outcome defined on the unlimited list, with the same errors |
| Numerals.AtoiOfItoa | pkg/apitest/operations.go:325-328 | Reading a written 64-bit number gives it back |
| CrawlRun.ScanIsSafe | pkg/brute/brute.go:395-441 | For every server and every cancellation the scan ends; fetched URLs are distinct, within the maximum and at most three references deep; no limit was reached before the last fetch; it ends canceled, stopped by the last fetch, or complete |
| CrawlRun.FetchGood | pkg/brute/brute.go:447-515 | A fetch keeps the queue sound, the trace distinct and everything known accounted for |
| CrawlRun.DrainStep | pkg/brute/brute.go:424-435 | Each URL taken off the queue is untested, and fetching it uses up one of the URLs that are allowed |
| CrawlRun.DrainGood | pkg/brute/brute.go:424-435 | The queue is worked through to its end, or the scan ends |
| CrawlRun.RoundGood | pkg/brute/brute.go:406-439 | After a candidate all earlier ones are tested and the queue is empty, or the scan is settled |
| CrawlRun.AllKnownTested | pkg/brute/brute.go:406-439 | When the candidates run out, every URL that ever became known was fetched |
| CrawlReach.NothingIsMissed | pkg/brute/brute.go:502-515 | Whatever the server answers and however the scan ends: every reference that is not too deep of an interesting page, and every variation of a specification's path, is known at the end, or the scan knows as many URLs as it may |
| CrawlReach.EverythingIsFetched | pkg/brute/brute.go:406-439 | So a scan that comes to its end without a specification and below the maximum has fetched every candidate and everything that its pages lead to |
| CrawlReach.SkipsExactly | pkg/brute/brute.go:688-718 | The skipped references are counted exactly: those the pages themselves left out, those that are too deep, and those that are not known at the end |
| CrawlModel.FollowedSound | pkg/brute/brute.go:664-718 | References and variations keep the queue without duplicates, disjoint from the tested URLs and within the maximum |
| CrawlModel.QueueSound | pkg/brute/brute.go:705-718 | One URL more keeps the same |
| CrawlOrigins.EveryFetchIsExplained | pkg/brute/brute.go:447-515 | Every fetched URL is a candidate, or an earlier page of the scan references it one step deeper or has it as a variation of its path at the same depth |
| CrawlOrigins.FollowedQueued | pkg/brute/brute.go:664-718 | What a page adds to the queue is what it leads to, and what was queued keeps its place |
| CrawlLimits.StopsExactly | pkg/brute/brute.go:564-625 | A scan stops if and only if the last three fetches failed, a rate limit was seen, three unavailable pages of one shape came in a row, or, past the priority candidates, three challenges did |
| CrawlLimits.CountersExactly | pkg/brute/brute.go:584-625 | The running counters are the lengths of the streaks of pages |
| CrawlLimits.FlagsExactly | pkg/brute/brute.go:584-625 | Each flag says whether its pattern ever occurred |
| Crawler.TallyConserves | pkg/brute/brute.go:651-662 | Errors, classes and the fetches with a status below 200, which have no class, add up to the fetches |
| Crawler.TallyExactly | pkg/brute/brute.go:651-662 | Each counter is the number of the pages it is for |
| Crawler.FindsInTrace | pkg/brute/brute.go:502-514 | Items and fingerprints stay in lockstep with distinct URLs that were fetched, and matches and items together are no more than fetches |
| Crawler.FindsExactly | pkg/brute/brute.go:502-514 | Exactly the specifications among the fetched pages are matches, and exactly the interesting pages are items |
| Crawler.MatchesAreSpecs | pkg/brute/brute.go:436-438 | There is a match exactly when a page held a specification |
| Crawler.ScanState.constructor | pkg/brute/brute.go:395-405 | The candidates are known and nothing is tested |
| Crawler.ScanState.QueueCandidate | pkg/brute/brute.go:705-718 | Queues a URL that is neither tested nor queued, if the maximum allows |
| Crawler.ScanState.QueueReferences | pkg/brute/brute.go:688-694 | Queues references up to depth three and counts the skipped ones |
| Crawler.ScanState.QueueVariations | pkg/brute/brute.go:696-703 | Queues only genuinely new variations |
| Crawler.ScanState.AddSpec | pkg/brute/brute.go:664-686 | Records a specification once and queues its variations |
| Crawler.ScanState.RecordChallengeLimit | pkg/brute/brute.go:584-593 | Counts challenges in a row, and trips past the priority candidates |
| Crawler.ScanState.RecordResponseLimit | pkg/brute/brute.go:595-625 | Counts unavailable pages of one shape in a row, and trips on a rate limit |
| Crawler.ScanState.HandlePage | pkg/brute/brute.go:464-515 | Updates queue, limits, finds and counters as the page says; the guard on interesting pages never bites |
| Crawler.ScanState.ProcessCandidate | pkg/brute/brute.go:447-515 | Fetches a URL once, or passes over a tested one |
| Crawler.ScanState.ScanLimitReached | pkg/brute/brute.go:564-582 | Says whether a limit was reached, and drops the queue then |
| Crawler.ScanState.DrainQueue | pkg/brute/brute.go:424-435 | The inner loop ends, and does what the model says |
| Crawler.ScanState.TryCandidate | pkg/brute/brute.go:406-439 | One round of the outer loop |
| Crawler.ScanState.TryCandidates | pkg/brute/brute.go:406-439 | The outer loop ends, and with it the whole scan, as the model says |
| Crawler.ScanState.FilterWildcardResponses | pkg/brute/brute.go:537-562 | Filters the interesting pages and leaves the matches alone |
| Crawler.FindAllDefinitionFiles | pkg/brute/brute.go:395-441 | The scan in place ends as the model says, with every specification and every interesting page of its trace |
| WildcardFilter.FilterWildcards | pkg/brute/brute.go:537-562 | Exactly the catch-all pages go; kept plus filtered equals recorded; the flag says whether any went |
| WildcardFilter.KeptExactly | pkg/brute/brute.go:547-558 | An item stays if and only if fewer than five pages have its content and fewer than eight its shape |
| WildcardFilter.FewAreKept | pkg/brute/brute.go:538-540 | Leaving early changes nothing |
| WildcardFilter.CountCopies | pkg/brute/brute.go:541-546 | Counts contents and shapes |
| WorkerPool.UncanceledBatch | pkg/brute/brute.go:78-124 | For every interleaving of an uncanceled batch, each target is scanned exactly once, and its own report and failure are at its place |
| WorkerPool.CanceledBatch | pkg/brute/brute.go:102-114 | The scanned targets are a prefix of the batch, and the entries after it are untouched |
| WorkerPool.OutcomeIsDetermined | pkg/brute/brute.go:78-124 | Two uncanceled runs of a batch report the same |
| WorkerPool.RunsKeepValid | pkg/brute/brute.go:78-111 | Every step of every run keeps targets handed out in order and results at their place |
| WorkerPool.RunsAreBounded | pkg/brute/brute.go:78-111 | Every run is finite |
| WorkerPool.NeverStuck | pkg/brute/brute.go:78-111 | While the batch is not over, the dispatcher or a worker can go on |
| WorkerPool.Summarize | pkg/brute/brute.go:112-124 | Complete, partial with its failures, or interrupted |
| WorkerPool.FailuresExactly | pkg/brute/brute.go:115-120 | A failure is listed exactly when its target's scan failed |
| WorkerPool.FailuresInOrder | pkg/brute/brute.go:115-120 | The failures are in input order |
| TargetCircuit.VerdictIsOwn | pkg/scanner/request.go:58-90 | Whether a plan is sent depends only on the earlier plans and responses of its own origin |
| TargetCircuit.BlockedForGood | pkg/scanner/request.go:58-90 | Blocking is permanent |
| TargetCircuit.BlockedExactlyWhen | pkg/scanner/request.go:70-90 | An origin is blocked if and only if its own responses hold a rate-limit signal, or three target failures with no sent response between them |
| TargetCircuit.BlockedHasCause | pkg/scanner/request.go:70-90 | The stored reason is one that the origin's own responses give: a rate limit among them, or three failures with no sent response between them |
| TargetCircuit.ExecutePlans | pkg/scanner/request.go:203-228 | On a circuit that remembers whatever plans came before: each plan is sent or skipped as the whole history says, each origin is remembered as its own responses make it, and what is sent and what is newly skipped add up to the plans that had their turn |
| TargetCircuit.ExecuteSources | internal/cli/automate.go:77-200 | All specifications of a batch on one circuit: each has all its turns, is refused by the circuit, or stops short for a cause; the gaps report what the whole history makes of each blocked origin; sent plus what the gaps report as skipped equals all plans that had their turn |
| TargetCircuit.ExecuteSource | internal/cli/automate.go:158-200 | Asks the circuit for the specification itself, and then for each of its plans |
| TargetCircuit.GapsAddUp | pkg/scanner/request.go:92-105 | What the gaps list as skipped adds up to all that was skipped |
| TargetCircuit.TakeTurn | pkg/scanner/request.go:203-228 | Asks the circuit, and lets it observe a response |
| TargetCircuit.Circuit.Allow | pkg/scanner/request.go:58-68 | Refuses and counts plans of a blocked origin |
| TargetCircuit.Circuit.Observe | pkg/scanner/request.go:70-90 | Blocks on a rate limit or on the third failure in a row |
| TargetCircuit.Circuit.CoverageGaps | pkg/scanner/request.go:92-105 | One gap for each blocked origin, in the order of the origins, with its reason and its skipped plans |
| JsonPath.ChangedExactly | pkg/fuzz/guided.go:413-455 | A change is reported if and only if the indices are in range and the path does not read as the value yet |
| JsonPath.SetThenGet | pkg/fuzz/guided.go:413-455 | After a change the path reads as the value |
| JsonPath.SetAgain | pkg/fuzz/guided.go:413-455 | Setting the same value again changes nothing |
| JsonPath.SetKeepsTheRest | pkg/fuzz/guided.go:413-455 | What was there along a path that parts at a key or an index is still there |
| JsonPath.SetJSONPath | pkg/fuzz/guided.go:413-455 | In every order of ranging over objects the change is the one for the keys that come up; where no object on the path has two matching keys there is one change only |
| JsonPath.SetField | pkg/fuzz/guided.go:420-434 | The object case, under whichever matching key comes up |
| JsonPath.SetItem | pkg/fuzz/guided.go:435-454 | The array case, filled up to the index |
| JsonPath.MatchingObjectKey | pkg/fuzz/guided.go:466-473 | Returns a matching key if there is one, and else the key asked for |
| JsonPath.ReadsBackExactly | pkg/fuzz/guided.go:466-473 | Every value is sure to be read back, whatever the order of ranging, if and only if the object has at most one matching key |
| JsonPath.AmbiguousKeys | pkg/fuzz/guided.go:466-473 | With the keys a and A, a value written under one may not be read back |
| JsonPath.ClearIsOneWay | pkg/fuzz/guided.go:413-455 | Where no object on the path has two matching keys, every order of ranging makes the same change |
| JsonPath.ChangedVia | pkg/fuzz/guided.go:413-455 | Whichever keys come up, a change is reported if and only if the indices are in range and the path does not read as the value under those keys |
| JsonPath.PathReadsBackExactly | pkg/fuzz/guided.go:413-473 | Along a whole path, every change is sure to be read back, whatever the orders of ranging when writing and reading, if and only if no object on the path has two matching keys or an index is out of range |
| JsonSearch.FindExactly | pkg/fuzz/guided.go:576-600 | A path is found if and only if some object entry satisfies the matcher, and the path found leads to one |
| JsonSearch.FindsTheFirst | pkg/fuzz/guided.go:576-600 | The path that is found is the first in the order of sorted keys, entries before what is inside them |
| PathText.RoundTrip | pkg/fuzz/guided.go:475-509 | Reading a written well-formed path gives it back |
| PathText.ReportedRoundTrip | pkg/fuzz/guided.go:475-509 | A written well-formed path is read as it is, bare or after a dollar sign, a dollar sign and a dot, or a dot, and with white space around all of it |
| PathText.ParsedReadable | pkg/fuzz/guided.go:475-509 | Whatever the text, every name that is read is not empty and has no opening bracket, dot or space, and every index is one that can be written |
| PathText.DisplayIsInjective | pkg/fuzz/guided.go:631-647 | Different well-formed paths are written differently |
| PathText.DisplayPath | pkg/fuzz/guided.go:631-647 | The loop writes the parts with dots before names and brackets around indices |
| PathText.ParseASPNetPath | pkg/fuzz/guided.go:475-509 | The loop reads parts until the text ends, or gives up with no path at all |
| PathText.DeduplicateInstructions | pkg/fuzz/guided.go:602-614 | Keeps the first instruction for each location and written path |
| PathText.WrittenAlikeExactly | pkg/fuzz/guided.go:631-647 | Any two paths are written alike if and only if they have the same pieces: names cut at their dots, with each index attached to what is before it |
| PathText.FirstsExactlyApart | pkg/fuzz/guided.go:602-614 | For any paths, the first instruction of each place is kept if and only if no two different paths of one location have the same pieces; else fewer are kept than there are places |
| PathText.DottedNameDrops | pkg/fuzz/guided.go:602-614 | The paths a.b, of one name, and a, b are written alike, and the second instruction is dropped |
| PathText.FirstsExactly | pkg/fuzz/guided.go:602-614 | The special case of well-formed paths: an instruction is kept exactly when no earlier one has its location and its path |
| CheckDigits.ValidIBAN | pkg/evidence/pii.go:173-192 | Accepts exactly 15 to 34 digits and letters whose rearranged, expanded number leaves remainder 1 modulo 97 |
| CheckDigits.LeavesOne | pkg/evidence/pii.go:178-191 | The loop keeps the remainder of the number read so far |
| CheckDigits.IBANCatchesSubstitution | pkg/evidence/pii.go:173-192 | No two accepted strings differ in one digit for a digit or one letter for a letter |
| CheckDigits.RawIBANCatchesSubstitution | pkg/evidence/pii.go:173-192 | The same for the strings as found, with spaces and small letters |
| CheckDigits.IBANCatchesTransposition | pkg/evidence/pii.go:173-192 | Swapping any two neighbouring different digits of an accepted string makes it rejected |
| CheckDigits.IBANCompletes | pkg/evidence/pii.go:173-192 | Two check digits complete a country code and an account exactly if they agree modulo 97 with 98 less the remainder of the rest, as ISO 7064 computes them |
| CheckDigits.CheckDigitsComeLast | pkg/evidence/pii.go:178-191 | In the number that is divided the check digits come last, behind the account and the country code |
| CheckDigits.ValidLuhn | pkg/evidence/pii.go:238-256 | Accepts exactly digits with a positive Luhn sum that ten divides |
| CheckDigits.LuhnFromTheRight | pkg/evidence/pii.go:245-255 | The sum that the loop computes from the left doubles every second digit counted from the right |
| CheckDigits.LuhnCompletes | pkg/evidence/pii.go:238-256 | Exactly one digit completes a number: what its sum, with the last digit doubled, lacks to a multiple of ten |
| CheckDigits.LuhnCatchesSubstitution | pkg/evidence/pii.go:238-256 | Changing one digit of an accepted number makes it rejected |
| CheckDigits.LuhnCatchesTransposition | pkg/evidence/pii.go:238-256 | Swapping two neighbouring different digits is accepted if and only if they are 0 and 9 |

## Left out

- Network and transport, the SQLite driver and schema, files, the command line, and all rendering: replies, tables,
  parsed records and parsed URLs are inputs of the model.
- Overflow of 64-bit counters: counters are unbounded integers; only parsed numbers have their 64-bit bounds.
- Text outside ASCII: trimming, case folding and case mapping are modelled for ASCII.
- Digests of bodies: the bodies themselves stand for them, as if no two bodies had the same digest.
- String keys joined with separators are tuples, as if no part contained the separator.
- The repair decision of a guided retry and the mutations of an operation are given by oracles in the fuzz engine;
  planning one operation's mutations is modelled on its own in Mutations.
- FuzzEngine.Run.RecordGuidedResult: the finding that reports a success is left out; it does not steer the run.
- FuzzEngine.Run.ScheduleGuidedRetry: the note on the recorded probe is left out; it does not steer the run.
- FuzzEngine.Run.ExecuteStep: the finding on a step that is not verified is left out; it does not steer the run.
- Progress snapshots, the length of pacing delays and the headers of requests in the fuzz run: they do not steer it.
- FuzzModel.ValidateWorkflow: whether a step is well formed by itself is given with the step.
- The order in which several placeholders are replaced in a workflow step: the replaced step is given.
- Lease.Fencing: owner names are fresh by assumption, as the program draws them at random.
- Each leased transaction reads the clock once; foreign keys are a parameter; store operations without a lease are
  not modelled.
- Readback.PersistentReadbackGroups: the eligibility of an operation and which fields tell objects apart are given;
  the final sort of the groups is left out.
- Loader.FileLoader.Finish: the lists are in any order; their sort is left out. The parsers of the file formats are
  given as the records they yield, and the per-target scan summaries are left out.
- Loader.LoadFiles: reading the files, and the limits on their number and their bytes, are left out.
- Loader.FileLoader.AddOperation: the default of the origin label is left out; it is not part of any key.
- Merging.MergeDatasets: of the summed counters only the raw count is kept, and the final sort is left out.
- Records.ListOf: the values are in any order; their sort is left out.
- Mutations.NumericRangeMutations: the requests are gathered before they go to the collector, where the program hands
  over each as it is made; the generators do not look at the collector. The three loops share one loop over
  positions.
- Mutations.MutationsFor: the path, query, body and character generators are given as the lists they make.
- Crawler.FindAllDefinitionFiles: parsing of specifications, challenge detection, extraction of references and
  generation of variations are given with each page; console output and redaction are left out.
- WorkerPool.UncanceledBatch: the checks of the targets and of the number of workers before the batch starts are
  left out.
- JsonPath.SetJSONPath: the change is made on values, so sharing between the old and the new value is not captured.
- TargetCircuit.ExecutePlans: retries inside the execution of one plan are part of its response; a missing circuit is
  ruled out by the types.
- TargetCircuit.ExecuteSources: what a specification contains is given with it, and the list of failed specifications
  is left out.
- HTTP parameter serialization, header policies, redaction, pattern detectors and keyword heuristics: stateless code
  that would only add easy members.
