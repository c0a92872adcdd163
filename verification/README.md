# Verification of the NashDom to Bitrix24 synchronisation

A Dafny model of the parts of this repository whose correctness depends on several components at once, and proofs about
it. To check the project, run `dafny verify dfyconfig.toml`.

**The sync plan pipeline.** `SyncPlanTransformer` is a compiler: it turns extracted objects, developers and company
groups, with an index of what the CRM already holds, into an ordered plan of commands whose fields may be bound to the
results of earlier commands. `SyncPlanValidator` is the plan's type checker and `SyncPlanExecutor` its interpreter, with
three-valued outcomes and blocking of dependents. The CRM is an arbitrary function from operation ids to responses; an
item or requisite that is created carries a positive id, an address carries none. The files are `Transformer`,
`Indexing`, `OrderIndependence`, `Selection`, `PlanValidator`, `CompiledPlans`, `PlannedCommands`, `PlanExecutor`,
`Execution`, `ExecutionGuarantees`, `LeadCompleteness`, `SentCommands`, `Resume`, `ResumeIndexes`, `ResumePlan`,
`ResumedRuns`, `RecordedEntities` and `RepeatedLoads`; `Contracts`, `Json`, `OperationIds`, `Text`, `Sorting`, `Unique`
and `Wrappers` hold what they share. Operation ids are the real strings, so that their uniqueness is proved and not
assumed.

**Its input side.** `SourceValidator`, `Readings` and `CrmLoaders` model the checks on extracted data and the loaders of
the CRM context; `Totality` shows that together they establish all the transformer checks but one. `Counterexamples`
holds a concrete input for each expected property that fails.

**The artifact codec.** `Codec`, `CodecRoundTrips` and `ArtifactStore`: schemas, values and JSON, a schema-directed
encoder and decoder, and the store that decodes what it encoded before it writes. `StoredRecords`, `StoredExtracts`,
`StoredContexts`, `StoredPlans` and `StoredReports` are the four models as they are stored.

**The gateway.** `Dispatcher` is the protocol of one worker, a bounded queue and cancellable submitters as a transition
system; `GatewayDispatcher` holds the objects that take its steps in place. `Limits` and `RequestExecutor` are the rate
limiter, the cooldown registry and the attempt loop over a clock that only moves forward.

**Three smaller parts.** `Forests`, `PlanTree` and `CompiledTrees` are the visual tree of a plan, `Settings` the merge
of the settings files, `BulkDevelopers` the collection of developers from an untrusted paginated interface.

## What the proofs show

- A compiled plan holds exactly the operations of what is to be created, and each carries, field by field, what the
  extracted data, the context and the settings say (`PlannedCommands.PlanMeaning`). It always passes its validator,
  never gets its executor stuck, and does not depend on the order in which sources list their records.
- An accepted plan can get the executor stuck exactly when one of its bindings takes an id from an address operation,
  which the validator does not check (`Counterexamples.AcceptedPlanGetsStuck` is such a plan). The transformer never
  emits one.
- Whatever fails, only dependents of it are affected, and a lead that succeeds is complete, also in a load that was
  aborted later. Results say what the CRM answered, and a lead carries the ids the CRM returned for its own company and
  group (`SentCommands`).
- Running again after any load, returned or aborted, plans exactly what the CRM does not show as done, and that plan is
  sound again, after any number of loads (`RepeatedLoads`). The CRM shows a developer as done through its requisite.
  This loses one thing and repeats another:
  - An address that failed after its requisite succeeded is never tried again (`ResumePlan.PlannedAgainUnlessRecorded`),
    and a lead that waited for it is created by the next run without it (`ResumedRuns.ResumedLeadWaitsForNothing`). One
    refused address is enough, in every plan that creates a developer (`ResumedRuns.RefusedAddressIsDropped`); for a
    concrete one see `Counterexamples.AddressStaysMissing`.
  - A company that was created while its requisite failed is created again, and nothing else is ever created twice
    (`ResumePlan.OnlyCompaniesAreCreatedTwice`, and over any number of loads `RepeatedLoads.CreatedOnce`). One refused
    requisite is enough (`ResumedRuns.RefusedRequisiteRepeatsCompany`); for a concrete one see
    `Counterexamples.CompanyIsCreatedTwice`.
- On validated input the transformer fails exactly when two developers of new objects share an INN; nothing before it
  checks that (`Counterexamples.SharedInnFails`).
- Every CRM context, plan and load report can be stored, and extracted data exactly if it meets the conditions of its
  data classes; each comes back as itself and as nothing else.
- A submitter is told what executing its own job produced, unless it was itself cancelled
  (`Dispatcher.SubmitterGetsItsOutcome`).
- Once a request has hit the operation limit with a reset time ahead, no later request of its method is sent before that
  time, however many requests there are (`RequestExecutor.ExecuteAll`).
- The bulk collection keeps a developer's first record in its registry and the latest in its result. Two records that
  compare equal in Python may still differ (`1` and `true`), so the two maps agree up to that comparison.

The README of `apps/nashdom_sync` (lines 139-140) says that CRM records without a source id and repeated source ids are
errors. The code skips records with an empty source id and, for leads, keeps the first of repeated ones
(`providers/crm_provider/provider.py:504-522`); the model follows the code.

A CRM context is assumed to be well formed where the code does not check it: entity type ids positive and pairwise
distinct, field names non-blank and pairwise distinct within an entity, preset id, address type ids and existing CRM ids
positive (`Contracts.WellFormedContext`). The theorems that need this say so.

## Model

| member | source | states |
|---|---|---|
| Indexing.IndexMeaning | apps/nashdom_sync/src/nashdom_sync/transform/transformer.py:28-36 | building an index fails exactly on a repeated key, and otherwise holds exactly the given entries |
| Transformer.BuildIndex | apps/nashdom_sync/src/nashdom_sync/transform/transformer.py:28-36 | the loop that fills the dictionary refuses the first repeated key and otherwise ends in the index whose meaning IndexMeaning gives |
| Transformer.BuildIndexes | apps/nashdom_sync/src/nashdom_sync/transform/transformer.py:72-82 | the six indexes are built from their own lists, and the first failure ends the transformation |
| Selection.NewObjectsMeaning | apps/nashdom_sync/src/nashdom_sync/transform/transformer.py:84-92 | the new objects are those without a lead, each once, ascending by id; a repeated object id fails |
| Selection.RequiredDevelopersMeaning | apps/nashdom_sync/src/nashdom_sync/transform/transformer.py:94-106 | the required developers are exactly the owners of the new objects, ascending; it fails exactly on an unknown owner or a repeated INN |
| Selection.ScanMeaning | apps/nashdom_sync/src/nashdom_sync/transform/transformer.py:108-133 | the scan of objects succeeds exactly when every object's group agrees with its developer's and with the other objects of that developer |
| Selection.RequiredGroupsMeaning | apps/nashdom_sync/src/nashdom_sync/transform/transformer.py:108-133 | the required groups are exactly those of the new objects, ascending; it fails exactly on an inconsistency or an unknown group |
| Transformer.CollectGroups | apps/nashdom_sync/src/nashdom_sync/transform/transformer.py:108-133 | the loop with its dictionary and set computes the groups RequiredGroupsMeaning describes |
| Transformer.BuildGroupOperations | apps/nashdom_sync/src/nashdom_sync/transform/transformer.py:135-160 | one operation for each required group the CRM does not have, in order |
| Transformer.BuildDeveloperOperations | apps/nashdom_sync/src/nashdom_sync/transform/transformer.py:162-239 | company, requisite and two addresses, in this order, for each required developer whose INN the CRM does not have; PlanMeaning says what each holds |
| Transformer.BuildLeadOperations | apps/nashdom_sync/src/nashdom_sync/transform/transformer.py:241-302 | one lead for each new object, its references filled in or bound to the operations that create them; PlanMeaning says what each holds |
| Transformer.TransformPlan | apps/nashdom_sync/src/nashdom_sync/transform/transformer.py:52-70 | the whole compiler in place computes the plan, or the failure, of the specification function that all theorems are about |
| PlannedCommands.PlanMeaning | apps/nashdom_sync/src/nashdom_sync/transform/transformer.py:52-302 | the plan holds exactly the operations of what is to be created: a lead of each object without one, each group of such an object that the CRM does not have, and company, requisite and both addresses of each owner of such an object whose INN it does not have; every field, binding and dependency of each is given in terms of the data, the context and the settings |
| OperationIds.RenderInjective | apps/nashdom_sync/src/nashdom_sync/transform/transformer.py:141-301 | no two planned entities share an operation id, whatever their kinds and numbers |
| OrderIndependence.TransformIgnoresOrder | apps/nashdom_sync/src/nashdom_sync/transform/transformer.py:52-133 | permuting objects, developers, groups, existing CRM entries or managers gives the identical plan or the identical failure |
| PlanValidator.ValidateOperationIds | apps/nashdom_sync/src/nashdom_sync/transform/validator.py:45-50 | accepts exactly when ids are non-blank and pairwise distinct |
| PlanValidator.ValidateCommands | apps/nashdom_sync/src/nashdom_sync/transform/validator.py:52-116 | accepts exactly when every command has its entity's required fields and exactly one source for each reference |
| PlanValidator.ValidateBindings | apps/nashdom_sync/src/nashdom_sync/transform/validator.py:118-161 | accepts exactly when bindings name known producers of the type their field demands, with no field bound twice |
| PlanValidator.ValidateDependencies | apps/nashdom_sync/src/nashdom_sync/transform/validator.py:163-171 | accepts exactly when dependencies are known and not repeated |
| PlanValidator.ValidateExecutionOrder | apps/nashdom_sync/src/nashdom_sync/transform/validator.py:173-183 | accepts exactly when every source and dependency stands earlier in the plan |
| PlanValidator.Validate | apps/nashdom_sync/src/nashdom_sync/transform/validator.py:37-43 | the five passes together accept exactly the well-typed plans |
| CompiledPlans.DraftOrdered | apps/nashdom_sync/src/nashdom_sync/transform/transformer.py:52-70 | in a compiled plan everything an operation refers to stands before it |
| CompiledPlans.DraftAscends | apps/nashdom_sync/src/nashdom_sync/transform/transformer.py:52-70 | groups, then developer blocks, then leads, each ascending by source id, so that a plan is determined by what it contains |
| CompiledPlans.CompiledPlanAccepted | apps/nashdom_sync/src/nashdom_sync/transform/validator.py:37-183 | every plan compiled for a well-formed context is accepted by all five passes, and takes no id from an address operation |
| PlanExecutor.DirectDependenciesMeaning | apps/nashdom_sync/src/nashdom_sync/load/executor.py:34-39 | the direct dependencies of an operation are its declared ones and the sources of its bindings |
| PlanExecutor.BlockersMeaning | apps/nashdom_sync/src/nashdom_sync/load/executor.py:45-49 | the blockers are exactly the direct dependencies that did not succeed |
| PlanExecutor.ResolveBindings | apps/nashdom_sync/src/nashdom_sync/load/binding_resolver.py:19-53 | the loop that writes bound ids resolves a command, or fails with the error of the first binding that has no id |
| PlanExecutor.SyncPlanExecutor.Execute | apps/nashdom_sync/src/nashdom_sync/load/executor.py:26-91 | the loop over the plan sends the commands and returns the results of the run the theorems describe, or its first error |
| SentCommands.RunTellsOutcomes | apps/nashdom_sync/src/nashdom_sync/load/executor.py:26-91 | in any run, aborted or not, an operation that was sent and has a result reports exactly the answer of the CRM, with its id unless it is an address, and one that was not sent is blocked; every command sent is the planned one with each bound field holding the id the CRM returned for the source, after everything the operation needs had been created |
| SentCommands.StoppedMeaning | apps/nashdom_sync/src/nashdom_sync/load/executor.py:32-54 | a load stops at the first operation that repeats an id, depends on something without a result, takes an id from a success that has none, or whose sending the gateway fails, and the error names it and the first such dependency; the error about a source that did not succeed never occurs |
| Execution.RunMeaning | apps/nashdom_sync/src/nashdom_sync/load/executor.py:26-91 | a run that returns is described without its loop: each result is determined by the results of its direct dependencies and the CRM's answer |
| ExecutionGuarantees.SentExactlyWhenAncestorsSucceed | apps/nashdom_sync/src/nashdom_sync/load/executor.py:28-79 | a command is sent exactly once if all its transitive dependencies succeeded and never otherwise; it is blocked exactly in the other case |
| ExecutionGuarantees.ResultsLineUp | apps/nashdom_sync/src/nashdom_sync/load/executor.py:50-91 | results line up one to one with the plan, and `blocked_by` lists, each once and in their order, exactly the direct dependencies that did not succeed |
| ExecutionGuarantees.FailuresStayInTheirCone | apps/nashdom_sync/src/nashdom_sync/load/executor.py:27-91 | if the CRM answers differently only for some operations, everything that does not transitively depend on them has the same result wherever both runs have one, and the same commands in the same order; a run aborted earlier has a prefix of them |
| ExecutionGuarantees.AcceptedPlanStuckExactlyOnAddressSource | apps/nashdom_sync/src/nashdom_sync/load/executor.py:32-54 | an accepted plan can raise an executor invariant error under some CRM behaviour if and only if a binding takes an id from an address operation |
| Counterexamples.AcceptedPlanGetsStuck | apps/nashdom_sync/src/nashdom_sync/transform/validator.py:118-161 | a plan of two operations that all five passes accept and that gets stuck: a group takes the id of an address |
| Execution.CompletedPrefix | apps/nashdom_sync/src/nashdom_sync/load/executor.py:26-91 | the results of an aborted run are those of the operations completed before it, and the step that aborted it recorded nothing |
| LeadCompleteness.CompiledPlanNeverStuck | apps/nashdom_sync/src/nashdom_sync/load/binding_resolver.py:18-53 | executing a compiled plan raises no invariant error whatever the CRM answers |
| LeadCompleteness.SuccessfulLeadIsComplete | apps/nashdom_sync/src/nashdom_sync/transform/transformer.py:186-300 | in any load, also one aborted later, the command of a successful lead carried the id of its own developer's company and of its own group, after the company, requisite and both addresses of a new developer had succeeded |
| SentCommands.SentLeadMeaning | apps/nashdom_sync/src/nashdom_sync/transform/transformer.py:241-302 | every lead sent in any load describes its own object in every field and carries the id of its own company and group: the one the CRM had, or the one the CRM returned earlier in this load, and then after the requisite and both addresses were created |
| Resume.SucceededWasPlanned | apps/nashdom_sync/src/nashdom_sync/load/executor.py:62-80 | only planned operations succeed, and a successful one that creates an entity carries its id |
| RecordedEntities.AfterLoadMeaning | apps/nashdom_sync/src/nashdom_sync/load/executor.py:62-80 | the next run finds, besides what the CRM had, exactly the leads and groups the load created and the companies whose requisites it created too, each with the id the CRM returned |
| ResumePlan.ResumePlansExactlyTheRest | apps/nashdom_sync/src/nashdom_sync/transform/transformer.py:52-302 | after any load, returned or aborted, with what succeeded recorded, the next plan is exactly the part of the first one the CRM does not show as done, in the same order: its group and developer operations are the very same, and each lead is the one made with the owners the first run knew or recorded |
| ResumePlan.PlannedAgainUnlessRecorded | apps/nashdom_sync/src/nashdom_sync/transform/transformer.py:162-239 | after any load, an operation is planned again if and only if it was planned and the operation that records it did not succeed: itself for a group or lead, the requisite for a developer's operations |
| ResumePlan.OnlyCompaniesAreCreatedTwice | apps/nashdom_sync/src/nashdom_sync/transform/transformer.py:162-239 | after any load, what succeeded is planned again if and only if it is a company whose requisite did not succeed |
| ResumePlan.FullSuccessLeavesNothing | apps/nashdom_sync/src/nashdom_sync/transform/transformer.py:52-70 | if everything succeeded the next plan is empty |
| ResumedRuns.AfterLoadIsWellFormed | apps/nashdom_sync/src/nashdom_sync/load/executor.py:62-80 | recording what any load created keeps a context well formed |
| ResumedRuns.NextPlanIsSound | apps/nashdom_sync/src/nashdom_sync/transform/transformer.py:52-70 | after any load the next plan is accepted by the validator and cannot get the executor stuck |
| ResumedRuns.ResumedLeadWaitsForNothing | apps/nashdom_sync/src/nashdom_sync/transform/transformer.py:241-302 | a lead that did not succeed although its developer's requisite did is created by the next run with the recorded company's id, with no dependency and no binding for its company |
| ResumedRuns.ResumedLeadMeaning | apps/nashdom_sync/src/nashdom_sync/transform/transformer.py:241-302 | a resumed lead carries the id of a group the first run recorded and no longer refers to the operations of recorded owners; with no owner recorded it is the same operation as before |
| ResumedRuns.WaitingLeadIsTheSame | apps/nashdom_sync/src/nashdom_sync/transform/transformer.py:241-302 | a lead whose owners are still missing stands in the next plan as the very operation of the first plan |
| ResumedRuns.RefusedAddressIsDropped | apps/nashdom_sync/src/nashdom_sync/transform/transformer.py:162-302 | in every plan that creates a developer, refusing just its actual address makes the next plan leave the address out and create the developer's leads without waiting for it |
| Counterexamples.AddressStaysMissing | apps/nashdom_sync/src/nashdom_sync/transform/transformer.py:162-302 | a concrete load of one building after which the refused address of its developer is not tried again |
| ResumedRuns.RefusedRequisiteRepeatsCompany | apps/nashdom_sync/src/nashdom_sync/transform/transformer.py:162-239 | in every plan that creates a developer, refusing just its requisite makes the next plan create the company a second time |
| Counterexamples.CompanyIsCreatedTwice | apps/nashdom_sync/src/nashdom_sync/transform/transformer.py:162-239 | a concrete load of one building after which the company of its developer is created again |
| RepeatedLoads.EveryPlanIsSound | apps/nashdom_sync/src/nashdom_sync/transform/transformer.py:52-70 | after any number of loads, whatever the CRM answered in each, the context is well formed and the next plan exists, is accepted and cannot get stuck |
| RepeatedLoads.PlannedUntilRecorded | apps/nashdom_sync/src/nashdom_sync/transform/transformer.py:52-302 | after any number of loads an operation is planned if and only if the first plan had it and no load recorded it |
| RepeatedLoads.CreatedOnce | apps/nashdom_sync/src/nashdom_sync/load/executor.py:62-80 | over any number of loads nothing succeeds twice, except a company while no load has created its requisite |
| RepeatedLoads.NothingLeftForEver | apps/nashdom_sync/src/nashdom_sync/transform/transformer.py:52-70 | once a load has succeeded throughout, every later plan is empty |
| SourceValidator.CollectIds | apps/nashdom_sync/src/nashdom_sync/extract/validator.py:58-66 | the two growing sets end as all ids and the repeated ids |
| SourceValidator.ValidateIds | apps/nashdom_sync/src/nashdom_sync/extract/validator.py:52-84 | accepts exactly when each expected id occurs once and nothing else does, and names exactly the repeated, unexpected or missing ids otherwise |
| SourceValidator.ValidateObjects | apps/nashdom_sync/src/nashdom_sync/extract/validator.py:14-50 | accepts exactly when object ids are distinct and the objects' regions are exactly the requested ones |
| SourceValidator.ValidateGroupConsistency | apps/nashdom_sync/src/nashdom_sync/extract/validator.py:126-166 | accepts exactly when objects of a developer agree on a group and with the developer, and names genuine conflicts otherwise |
| CrmLoaders.LoadSourceIdPairs | apps/nashdom_sync/src/nashdom_sync/providers/crm_provider/provider.py:482-526 | the loop over CRM records computes the pairs the next four rows describe, or the first error |
| CrmLoaders.PairsMeaning | apps/nashdom_sync/src/nashdom_sync/providers/crm_provider/provider.py:482-526 | loading fails exactly on a record without a readable id, or with a source id that is neither readable nor blank, or, where duplicates are not allowed, when two records link to one source id; a pair is loaded if and only if it is the source id and the id of the first record that links to that source id |
| CrmLoaders.PairsKeys | apps/nashdom_sync/src/nashdom_sync/providers/crm_provider/provider.py:482-526 | the pairs have distinct source ids, exactly those some record links to |
| CrmLoaders.PairsAreFirst | apps/nashdom_sync/src/nashdom_sync/providers/crm_provider/provider.py:513-525 | each pair is the first record that links to its source id |
| CrmLoaders.PairsRefuseDuplicates | apps/nashdom_sync/src/nashdom_sync/providers/crm_provider/provider.py:513-522 | where duplicates are not allowed, success means no two records link to one source id |
| Readings.IdReading | apps/nashdom_sync/src/nashdom_sync/providers/crm_provider/provider.py:342-359 | a value is read as an id n exactly if it is the positive integer n, a numeral of n with or without leading zeros, or, for source ids, such a numeral with an empty fraction or the float n below 2 to the power 53 |
| Readings.StripReading | apps/nashdom_sync/src/nashdom_sync/providers/crm_provider/provider.py:475-477 | a text is stripped to what stands between the spaces around it |
| CrmLoaders.LoadExistingRequisites | apps/nashdom_sync/src/nashdom_sync/providers/crm_provider/provider.py:457-480 | the loop computes the requisites the next row describes, or the first error |
| CrmLoaders.RequisitesMeaning | apps/nashdom_sync/src/nashdom_sync/providers/crm_provider/provider.py:457-480 | loading fails exactly if some record is malformed; otherwise a requisite is loaded if and only if some record of the owner type has its id in ID, its company in ENTITY_ID and its INN between spaces in RQ_INN |
| CrmLoaders.CollectCompanyIds | apps/nashdom_sync/src/nashdom_sync/providers/crm_provider/provider.py:431-438 | exactly the ids that some company record has, or an error exactly if some record has no valid id |
| CrmLoaders.MatchCompanies | apps/nashdom_sync/src/nashdom_sync/providers/crm_provider/provider.py:441-453 | fails exactly when one INN belongs to two existing companies, and otherwise maps each INN of an existing company to it |
| CrmLoaders.LoadExistingDevelopers | apps/nashdom_sync/src/nashdom_sync/providers/crm_provider/provider.py:429-455 | fails exactly on a malformed record or when one INN belongs to two existing companies; otherwise a developer is loaded if and only if some company record has its id and some requisite record of the owner type gives that company its INN |
| CrmLoaders.BuildManagers | apps/nashdom_sync/src/nashdom_sync/providers/crm_provider/provider.py:528-541 | succeeds exactly when every configured name is known, and resolves each distinct name once |
| Totality.TransformTotalOnValidatedInput | apps/nashdom_sync/src/nashdom_sync/transform/transformer.py:52-133 | on validated data and a context loaded for the same settings the transformation succeeds if and only if the developers of new objects have distinct INNs |
| Counterexamples.SharedInnFails | apps/nashdom_sync/src/nashdom_sync/transform/transformer.py:94-106 | two buildings whose developers share an INN: every check on the data passes, the context is loaded, and the transformer reports a duplicate key |
| Codec.ParseInvertsFormat | apps/nashdom_sync/src/nashdom_sync/run_artifacts/serialization.py:67-118 | parsing the ISO form of a date gives the date |
| Codec.FormatInvertsParse | apps/nashdom_sync/src/nashdom_sync/run_artifacts/serialization.py:67-118 | only that form parses: the full-date of section 5.6 of RFC 3339 |
| Codec.ParsesExactlyDays | apps/nashdom_sync/src/nashdom_sync/run_artifacts/serialization.py:67-118 | a text parses as a day if and only if it is the ISO form of that day of the calendar, leap years included |
| CodecRoundTrips.DecodeInvertsEncode | apps/nashdom_sync/src/nashdom_sync/run_artifacts/serialization.py:37-118 | every value of a schema's type encodes, and decoding gives it back |
| CodecRoundTrips.EncodeInvertsDecode | apps/nashdom_sync/src/nashdom_sync/run_artifacts/serialization.py:37-118 | whatever decodes has the schema's type and encodes to the same JSON |
| ArtifactStore.StoredModelsRoundTrip | apps/nashdom_sync/src/nashdom_sync/run_artifacts/store.py:62-84 | both hold for the schemas of the four stored models |
| ArtifactStore.RunArtifactStore.Save | apps/nashdom_sync/src/nashdom_sync/run_artifacts/store.py:115-124 | writes exactly the values the guard admits, leaves the other files alone, and keeps every saved file holding a document that gives back an equal value |
| ArtifactStore.RunArtifactStore.Load | apps/nashdom_sync/src/nashdom_sync/run_artifacts/store.py:126-130 | loads a value if and only if the file is the envelope of the encoding of that value of the declared type; what was saved under the name comes back equal |
| ArtifactStore.StorableMeaning | apps/nashdom_sync/src/nashdom_sync/run_artifacts/store.py:115-121 | the guard of a save holds if and only if some value of the declared type has the same encoding and is equal in Python |
| ArtifactStore.EqualsMeaning | apps/nashdom_sync/src/nashdom_sync/run_artifacts/store.py:115-121 | two values are equal for the guard if and only if they are the same number, the same text, the same date, or hold equal parts in the same arrangement |
| ArtifactStore.OpenMeaning | apps/nashdom_sync/src/nashdom_sync/run_artifacts/reader.py:16-29 | a document opens as a value if and only if it is the envelope of the encoding of that value of the declared type |
| ArtifactStore.WellTypedIsStored | apps/nashdom_sync/src/nashdom_sync/run_artifacts/store.py:115-130 | a well-typed value of a stored model is always saved and loaded back identical |
| StoredPlans.PlanTyped | apps/nashdom_sync/src/nashdom_sync/contracts/transform.py:8-43 | every sync plan, as a value of its dataclasses, is of the stored model's type |
| StoredPlans.StoredPlanIsThePlan | apps/nashdom_sync/src/nashdom_sync/run_artifacts/store.py:74-78 | every plan can be saved, and what is loaded back is that plan and no other |
| StoredPlans.CommandEncoded | apps/nashdom_sync/src/nashdom_sync/run_artifacts/serialization.py:37-60 | a command is stored as its payload under the tag of its kind |
| StoredExtracts.ExtractStorable | apps/nashdom_sync/src/nashdom_sync/contracts/extract.py:48-177 | extracted data can be saved if and only if it meets the conditions of its data classes: no blank text, and every commissioning period a quarter that contains its exact date |
| StoredExtracts.StoredExtractIsTheExtract | apps/nashdom_sync/src/nashdom_sync/run_artifacts/store.py:62-66 | such data, once saved, is loaded back as itself and as no other |
| StoredContexts.StoredContextIsTheContext | apps/nashdom_sync/src/nashdom_sync/run_artifacts/store.py:68-72 | every CRM context can be saved, and what is loaded back is that context and no other |
| StoredReports.StoredReportIsTheReport | apps/nashdom_sync/src/nashdom_sync/run_artifacts/store.py:80-84 | every load report, whatever its statuses, can be saved, and what is loaded back is that report and no other |
| Dispatcher.StepKeepsInvariant | services/bitrix_gateway/src/bitrix_gateway/dispatch/dispatcher.py:38-181 | every atomic segment of submitters and worker keeps the invariant on queue, worker, futures and replies |
| Dispatcher.SafeUnderEveryInterleaving | services/bitrix_gateway/src/bitrix_gateway/dispatch/dispatcher.py:54-181 | in every reachable state: the queue is within its bound, at most one job executes, jobs start at most once and in acceptance order, an answer comes only from the submitter's own job, and a rejected submission leaves nothing pending |
| Dispatcher.CancelledInQueueNeverStarts | services/bitrix_gateway/src/bitrix_gateway/dispatch/dispatcher.py:98-109 | no continuation of a run starts a job that was cancelled while queued |
| Dispatcher.WorkerCanStep | services/bitrix_gateway/src/bitrix_gateway/dispatch/dispatcher.py:86-144 | a waiting submitter's job is queued or executing, and the worker has a step to take |
| Dispatcher.EveryStepApproaches | services/bitrix_gateway/src/bitrix_gateway/dispatch/dispatcher.py:86-144 | no event moves a waiting job away from its outcome, and every worker step brings it nearer |
| Dispatcher.NoLostSubmitter | services/bitrix_gateway/src/bitrix_gateway/dispatch/dispatcher.py:38-144 | after at most twice the queue bound plus one worker steps every accepted submitter's future is done, whatever cancellations and submissions interleave |
| Dispatcher.RepliesMeaning | services/bitrix_gateway/src/bitrix_gateway/dispatch/dispatcher.py:38-181 | in every reachable state the finished executions are the started jobs in order with what the executor produced for them, and a submitter that returned was told what executing its own job produced, or of its own cancellation exactly if there was one |
| Dispatcher.SubmitterGetsItsOutcome | services/bitrix_gateway/src/bitrix_gateway/dispatch/dispatcher.py:38-181 | a submitter that is not cancelled has returned with what executing its job produced, or returns with it as soon as it wakes, after at most twice the queue bound plus one worker steps |
| GatewayDispatcher.InMemoryJobQueue.Enqueue | services/bitrix_gateway/src/bitrix_gateway/dispatch/queue.py:43-49 | appends within the bound, and otherwise reports a full queue and changes nothing |
| GatewayDispatcher.InMemoryJobQueue.Dequeue | services/bitrix_gateway/src/bitrix_gateway/dispatch/queue.py:51-54 | takes the earliest job |
| GatewayDispatcher.RequestDispatcher.Submit | services/bitrix_gateway/src/bitrix_gateway/dispatch/dispatcher.py:46-81 | registering, enqueueing and, when the queue is full, withdrawing the registration take exactly the submit transition |
| GatewayDispatcher.RequestDispatcher.Wake | services/bitrix_gateway/src/bitrix_gateway/dispatch/dispatcher.py:79-81 | the resumed submitter gets its outcome or its cancellation and its pending entry is gone |
| GatewayDispatcher.RequestDispatcher.Cancel | services/bitrix_gateway/src/bitrix_gateway/dispatch/dispatcher.py:79-81 | cancelling the task that awaits a future cancels the future unless it is done, and leaves the pending entry to the submitter |
| GatewayDispatcher.RequestDispatcher.Dequeue | services/bitrix_gateway/src/bitrix_gateway/dispatch/dispatcher.py:86-109 | the worker takes the next job and starts it unless its future is gone or done |
| GatewayDispatcher.RequestDispatcher.Finish | services/bitrix_gateway/src/bitrix_gateway/dispatch/dispatcher.py:111-181 | the outcome completes the job's own future if it is still registered and not done, and nothing else changes |
| Limits.RateLimiter.WaitTurn | services/bitrix_gateway/src/bitrix_gateway/limits/rate_limiter.py:27-42 | each recorded start is at least the interval after the one before |
| Limits.WindowSpansIntervals | services/bitrix_gateway/src/bitrix_gateway/limits/rate_limiter.py:27-42 | any n consecutive starts span at least n - 1 intervals |
| Limits.MethodCooldownRegistry.WaitTurn | services/bitrix_gateway/src/bitrix_gateway/limits/cooldowns.py:17-39 | waiting ends, and then every deadline ever set for the method has passed, removed ones included; other methods' deadlines are untouched |
| Limits.MethodCooldownRegistry.SetCooldown | services/bitrix_gateway/src/bitrix_gateway/limits/cooldowns.py:41-62 | a deadline is set or extended and never shortened; zero changes nothing and a negative duration is refused |
| Limits.BitrixApiLimitController.WaitTurn | services/bitrix_gateway/src/bitrix_gateway/limits/controller.py:16-20 | over the whole run no request is admitted before a cooldown deadline set for its method earlier |
| RequestExecutor.ExecutionIsDecidedByTheLastAttempt | services/bitrix_gateway/src/bitrix_gateway/execution/executor.py:67-232 | for every script of outcomes the final RuntimeError is not reached, all outcomes before the last were retryable, NEVER means one attempt; the result is SUCCESS exactly for a 2xx response without an error code and UNKNOWN exactly if a request that must not be repeated ended uncertain, and it carries the body of a success and otherwise the error code and message of the last outcome |
| RequestExecutor.OnlyTheFirstAttemptsMatter | services/bitrix_gateway/src/bitrix_gateway/execution/executor.py:67-173 | the result depends only on the outcomes of the attempts made |
| RequestExecutor.LatestResetIsRemembered | services/bitrix_gateway/src/bitrix_gateway/execution/executor.py:280-288 | what is remembered for a method is the latest reset time it reported, and other methods' are untouched |
| RequestExecutor.RequestExecutor.ApplyMethodCooldown | services/bitrix_gateway/src/bitrix_gateway/execution/executor.py:290-309 | a reset time ahead of the wall clock becomes a cooldown of the remaining length, any other leaves the limits alone |
| RequestExecutor.RequestExecutor.Send | services/bitrix_gateway/src/bitrix_gateway/execution/executor.py:75-100 | an attempt is admitted for its own method, sent once at the recorded start, and its reset time remembered |
| RequestExecutor.RequestExecutor.MakeAttempt | services/bitrix_gateway/src/bitrix_gateway/execution/executor.py:67-171 | one turn of the loop: one admission and one transport call, then the conclusion of its outcome, or none when the request is tried again |
| RequestExecutor.RequestExecutor.Execute | services/bitrix_gateway/src/bitrix_gateway/execution/executor.py:52-173 | transport calls, limit waits and the attempt count agree, the result is that of the attempt loop's specification, attempts are at least the retry delay apart, earlier admissions, cooldowns and starts are kept, and an exceeded operation limit leaves a cooldown that outlasts the latest reset time |
| RequestExecutor.NoAdmissionBeforeReset | services/bitrix_gateway/src/bitrix_gateway/execution/executor.py:290-309 | a cooldown that follows an operation limit keeps every later admission of the method in a log that respects deadlines from coming before the reset time |
| RequestExecutor.RequestExecutor.ExecuteAll | services/bitrix_gateway/src/bitrix_gateway/dispatch/dispatcher.py:83-120 | any number of requests, one after the other: each is the attempt loop on the outcomes from its own first call on with its attempts at least the retry delay apart, and after an operation limit with a reset time ahead no later request of that method sends anything before that time |
| Forests.EachPlacedNodeOnce | apps/nashdom_sync/src/nashdom_sync/transform/debug.py:132-139 | rendering a layered forest ends and shows every placed node exactly once |
| Forests.LinesNest | apps/nashdom_sync/src/nashdom_sync/transform/debug.py:132-139 | every line but a root stands under the line of its parent, and all lines between belong to what is below that parent |
| PlanTree.Tree.Place | apps/nashdom_sync/src/nashdom_sync/transform/debug.py:58-61 | a node is placed once and for all, and the forest stays a forest with children deeper than parents |
| PlanTree.Tree.FindOwner | apps/nashdom_sync/src/nashdom_sync/transform/debug.py:71-89 | the owner is the bound producer of the right kind, or the node of a positive CRM id, made at most once |
| PlanTree.Tree.CompanySlot | apps/nashdom_sync/src/nashdom_sync/transform/debug.py:91-104 | a group shows a company as itself, or as a reference when it already stands elsewhere, once per group |
| PlanTree.Tree.Build | apps/nashdom_sync/src/nashdom_sync/transform/debug.py:106-129 | the result is an acyclic forest in which every operation stands: requisites and addresses under their owners, leads under their company's slot in their group |
| PlanTree.FormatTree | apps/nashdom_sync/src/nashdom_sync/transform/debug.py:132-157 | with unique ids and pairwise distinct company, group and lead types the rendering shows each planned operation's node exactly once, no node twice and no operation the plan does not have; nodes stand where Build puts them, each line under that of its parent |
| CompiledTrees.CompiledTree | apps/nashdom_sync/src/nashdom_sync/transform/debug.py:106-129 | in the tree of a compiled plan a created company has its requisite under it and both addresses under that, and every new lead stands in its own group, under its own company or under the group's reference to it |
| Settings.MergesIffNoConflict | apps/nashdom_sync/src/nashdom_sync/providers/settings_provider/provider.py:171-196 | two tables merge if and only if no path is bound in both other than as a table in both |
| Settings.MergedLookup | apps/nashdom_sync/src/nashdom_sync/providers/settings_provider/provider.py:171-196 | every path of the merge looks up to its owner's value |
| Settings.MergedLeaves | apps/nashdom_sync/src/nashdom_sync/providers/settings_provider/provider.py:171-196 | the merge has the leaves of both tables and no other |
| Settings.MergeAssociates | apps/nashdom_sync/src/nashdom_sync/providers/settings_provider/provider.py:62-71 | merging is associative wherever it succeeds |
| Settings.MergeIgnoresOrderAndGrouping | apps/nashdom_sync/src/nashdom_sync/providers/settings_provider/provider.py:56-71 | success and result depend only on which sources are merged, not on their order or grouping |
| Settings.MergeOfSources | apps/nashdom_sync/src/nashdom_sync/providers/settings_provider/provider.py:56-71 | any number of sources merge if and only if no path overlaps in two of them, and the leaves of the result are their leaves |
| Settings.MergeSettings | apps/nashdom_sync/src/nashdom_sync/providers/settings_provider/provider.py:171-196 | the recursive loop over the copied table computes the merge, or reports a genuinely conflicting path |
| Settings.MergeSources | apps/nashdom_sync/src/nashdom_sync/providers/settings_provider/provider.py:56-71 | the chain of four merges computes the merge of the five files, or reports a path bound in two of them |
| BulkDevelopers.RequestedIsRestrictedRegistry | apps/nashdom_sync/src/nashdom_sync/extract/nashdom/client.py:438-452 | the requested developers are always the registry restricted to the requested ids |
| BulkDevelopers.ConsistentMeaning | apps/nashdom_sync/src/nashdom_sync/extract/nashdom/client.py:438-452 | records are consistent if and only if each names its developer in devId and those of one developer are equal part by part, numbers and booleans as numbers |
| BulkDevelopers.TakePage | apps/nashdom_sync/src/nashdom_sync/extract/nashdom/client.py:438-452 | a page is taken in exactly when no developer ends up with two different records, and it is known whether it added one |
| BulkDevelopers.CollectBulkDevelopers | apps/nashdom_sync/src/nashdom_sync/extract/nashdom/client.py:422-463 | collection ends at the first page that leaves no reason to go on, and fails exactly if a page up to there is wrong |
| BulkDevelopers.CollectionIsDetermined | apps/nashdom_sync/src/nashdom_sync/extract/nashdom/client.py:430-463 | for any server there is only one page to stop at, so what is collected, and whether it is, depends on the server alone |
| BulkDevelopers.ReadMissing | apps/nashdom_sync/src/nashdom_sync/extract/nashdom/client.py:289-291 | the fallback reads exactly the missing developers and fails exactly if one has no record of its own |
| BulkDevelopers.GetDevelopers | apps/nashdom_sync/src/nashdom_sync/extract/nashdom/client.py:281-304 | the result is exactly the requested developers, ascending by id, each from its bulk record or its own page |

## Left out

- Selenium, browser scripts, HTTP clients, the web service and process wiring: page fetches, transport calls and CRM writes are arbitrary functions or parameters.
- Logging, statistics, durations, error texts and their redaction.
- JSON text, temporary files, fsync and rename: JSON documents are stored and read back faithfully. The run manifest and its timestamps are not modelled.
- TOML parsing, path resolution, region selection and pydantic validation of settings.
- Normalisation of raw NashDom fields and resolution of CRM field titles. The developer normaliser is an arbitrary function that keeps the id.
- Manager names: `_resolve_manager` and its name normalisation are an arbitrary directory from names to employees.
- The pipeline's stage sequence, the browser session retries, `get_objects` and `get_company_groups`.
- The death of the gateway's worker and shutdown: progress is claimed while the worker is alive. The limits and the executor are used by that one worker only, so no other task runs while they wait.
- The ValueError the gateway's constructors raise for a non-positive queue bound, interval or attempt count, or a negative retry delay: these are preconditions of the constructors.
- Floating-point rounding: times and JSON floats are reals, and NaN and infinities do not occur.
- What a write of unknown outcome left in the CRM: the next run is taken to find exactly what succeeded, and "created" above means that.
- The line drawing and the labels of the plan tree: lines are represented by the nodes they show.
- Which conflicting path a settings merge reports first: tables are taken in any order.
- BulkDevelopers.CollectBulkDevelopers: termination assumes that the server draws its records from finitely many developer ids, which the code relies on without checking.
- PlanTree.FormatTree: needs unique operation ids and pairwise distinct company, group and lead type ids, which compiled plans for well-formed contexts have.
- Datetimes and enums whose values are not strings, both of which `encode` accepts: the codec's values stand for the rest of what it accepts, and `VOther` for what it refuses. No stored model has either. Comparing an enum with its text, as the store's guard does here, is right for the two `str` enums that are stored.
