/** The next run after a load: its context is well formed, its plan sound, and its leads refer to what was recorded. */
module ResumedRuns {
  import opened Wrappers
  import opened Json
  import opened Contracts
  import opened OperationIds
  import opened Transformer
  import opened Selection
  import opened PlanValidator
  import opened PlanExecutor
  import opened CompiledPlans
  import opened Execution
  import opened ExecutionGuarantees
  import opened LeadCompleteness
  import opened Resume
  import opened ResumeIndexes
  import opened ResumePlan

  // ----- the next context is well formed -----

  ghost predicate PositiveIds(results: Results) {
    forall id <- results :: results[id].crmId.Some? ==> results[id].crmId.value > 0
  }

  lemma {:induction false} RunsRecordPositiveIds(oracle: Oracle, ops: seq<PlannedOperation>)
    ensures PositiveIds(RunPlan(oracle, ops).results)
  {
    if ops != [] {
      RunsRecordPositiveIds(oracle, ops[..|ops| - 1]);
    }
  }

  lemma {:induction false} ConfirmedPositive<K>(candidates: seq<Candidate<K>>, results: Results)
    requires PositiveIds(results)
    ensures forall i :: 0 <= i < |ConfirmedEntries(candidates, results)| ==>
              ConfirmedEntries(candidates, results)[i].1 > 0
  {
    var found := seq(|candidates|, i requires 0 <= i < |candidates| => EntryOf(candidates[i], results));
    forall i | 0 <= i < |ConfirmedEntries(candidates, results)|
      ensures ConfirmedEntries(candidates, results)[i].1 > 0
    {
      var k := KeptFrom(found, i);
      assert found[k] == EntryOf(candidates[k], results);
    }
  }

  /** Recording what a load created keeps a context well formed. */
  lemma {:induction false} AfterLoadIsWellFormed(context: CrmContext, extract: ExtractResult, oracle: Oracle,
      ops: seq<PlannedOperation>)
    requires WellFormedContext(context)
    ensures WellFormedContext(AfterLoad(context, extract, RunPlan(oracle, ops).results))
  {
    var results := RunPlan(oracle, ops).results;
    RunsRecordPositiveIds(oracle, ops);
    ConfirmedPositive(LeadCandidates(extract.objects), results);
    ConfirmedPositive(DeveloperCandidates(extract.developers), results);
    ConfirmedPositive(GroupCandidates(extract.companyGroups), results);
  }

  /** So the next plan is accepted by the validator, and executing it never gets stuck. */
  lemma {:induction false} NextPlanIsSound(extract: ExtractResult, context: CrmContext, settings: RegionSettings,
      oracle: Oracle)
    requires WellFormedContext(context) && Transform(extract, context, settings).Ok?
    ensures var results := RunPlan(oracle, Transform(extract, context, settings).value).results;
            var second := Transform(extract, AfterLoad(context, extract, results), settings);
            second.Ok? && Accepted(context.structure, second.value) && NeverStuck(second.value)
  {
    var plan := Transform(extract, context, settings).value;
    var after := AfterLoad(context, extract, RunPlan(oracle, plan).results);
    AfterLoadIsWellFormed(context, extract, oracle, plan);
    ResumePlansExactlyTheRest(extract, context, settings, oracle);
    CompiledPlanAccepted(extract, after, settings);
    CompiledPlanNeverStuck(extract, after, settings);
  }

  // ----- the leads of the next plan -----

  /** A lead of a developer the CRM already has: nothing to wait for, and the company's id filled in. */
  ghost predicate RefersToRecorded(op: PlannedOperation, f: LeadFields, company: int) {
    && op.dependencies == []
    && Get(op.command.fields, f.companyId) == Some(JInt(company))
    && forall k :: 0 <= k < |op.bindings| ==> op.bindings[k].field == f.companyGroupBitrixId != f.companyId
  }

  lemma {:induction false} LeadOfKnownCompany(o: ExtractedObject, developer: ExtractedDeveloper, indexes: Indexes,
      context: CrmContext, settings: RegionSettings)
    requires ManagersKnown(settings, indexes) && WellFormedContext(context) && !NeedsCompany(developer, indexes)
    ensures RefersToRecorded(LeadOperation(o, developer, indexes, context, settings),
                             context.structure.entityFields.lead, indexes.inns[developer.inn])
  {
    LeadNamesDiffer(context.structure.entityFields.lead);
    LeadPayloadMeaning(o, developer, indexes, context, settings);
  }

  lemma {:induction false} PlannedLeadRefers(o: ExtractedObject, d: ExtractedDeveloper, indexes: Indexes,
      context: CrmContext, settings: RegionSettings, company: int)
    requires ManagersKnown(settings, indexes) && WellFormedContext(context) && Plannable(LeadItem(o), indexes)
    requires indexes.developers[o.developerId] == d && !NeedsCompany(d, indexes) && indexes.inns[d.inn] == company
    ensures RefersToRecorded(OperationOf(LeadItem(o), indexes, context, settings), context.structure.entityFields.lead,
                             company)
  {
    LeadOfKnownCompany(o, d, indexes, context, settings);
  }

  /** Neither the company nor the group of the object was recorded. */
  ghost predicate NoOwnerRecorded(o: ExtractedObject, d: ExtractedDeveloper, results: Results) {
    && RecordedCompany(d, results).None?
    && (o.companyGroupId.Some? ==> RecordedGroup(o.companyGroupId.value, results).None?)
  }

  /** What the owners recorded mean for a resumed lead: nothing refers to their operations any more. */
  lemma {:induction false} ResumedLeadMeaning(op: PlannedOperation, o: ExtractedObject, indexes: Indexes,
      context: CrmContext, settings: RegionSettings, results: Results)
    requires ManagersKnown(settings, indexes) && LeadWithOwners(op, o, indexes, context, settings, results)
    ensures var d, f := indexes.developers[o.developerId], context.structure.entityFields.lead;
            && (NoOwnerRecorded(o, d, results) ==> op == LeadOperation(o, d, indexes, context, settings))
            && (RecordedCompany(d, results).Some? ==>
                  op.dependencies == [] && Render(Company(d.id)) !in BindingSources(op.bindings))
            && (o.companyGroupId.Some? && RecordedGroup(o.companyGroupId.value, results).Some? ==>
                  && Render(Group(o.companyGroupId.value)) !in BindingSources(op.bindings)
                  && Get(op.command.fields, f.companyGroupBitrixId)
                     == Some(JInt(RecordedGroup(o.companyGroupId.value, results).value)))
  {
    var d := indexes.developers[o.developerId];
    if NoOwnerRecorded(o, d, results) {
      assert WithOwners(indexes, o, d, results) == indexes;
    }
    if o.companyGroupId.Some? && Render(Company(d.id)) == Render(Group(o.companyGroupId.value)) {
      RenderInjective(Company(d.id), Group(o.companyGroupId.value));
    }
  }

  /** A lead left for the next run whose owners are still missing is planned as the very same operation. */
  lemma {:induction false} WaitingLeadIsTheSame(extract: ExtractResult, context: CrmContext, settings: RegionSettings,
      oracle: Oracle, i: nat)
    requires Transform(extract, context, settings).Ok?
    requires var draft := Prepare(extract, context, settings).value;
             var results := RunPlan(oracle, Transform(extract, context, settings).value).results;
             var left := Unfinished(Items(draft), results);
             && i < |left| && left[i].LeadItem? && left[i].object_.developerId in draft.indexes.developers
             && NoOwnerRecorded(left[i].object_, draft.indexes.developers[left[i].object_.developerId], results)
    ensures var plan := Transform(extract, context, settings).value;
            var second := Transform(extract, AfterLoad(context, extract, RunPlan(oracle, plan).results), settings);
            second.Ok? && i < |second.value| && second.value[i] in plan
  {
    var plan, draft := Transform(extract, context, settings).value, Prepare(extract, context, settings).value;
    var results := RunPlan(oracle, plan).results;
    var left := Unfinished(Items(draft), results);
    ResumePlansExactlyTheRest(extract, context, settings, oracle);
    var second := Transform(extract, AfterLoad(context, extract, results), settings).value;
    PreparedIsPlannable(extract, context, settings);
    WaitingLeadInPlan(draft, plan, left[i].object_, context, settings, results, second[i], i);
  }

  lemma {:induction false} WaitingLeadInPlan(draft: Draft, plan: seq<PlannedOperation>, o: ExtractedObject,
      context: CrmContext, settings: RegionSettings, results: Results, op: PlannedOperation, i: nat)
    requires ManagersKnown(settings, draft.indexes) && AllPlannable(Items(draft), draft.indexes)
    requires plan == Operations(Items(draft), draft.indexes, context, settings)
    requires i < |Unfinished(Items(draft), results)| && Unfinished(Items(draft), results)[i] == LeadItem(o)
    requires LeadWithOwners(op, o, draft.indexes, context, settings, results)
    requires NoOwnerRecorded(o, draft.indexes.developers[o.developerId], results)
    ensures op in plan
  {
    ResumedLeadMeaning(op, o, draft.indexes, context, settings, results);
    UnfinishedMeaning(Items(draft), results);
    assert LeadItem(o) in Unfinished(Items(draft), results);
    var k :| 0 <= k < |Items(draft)| && Items(draft)[k] == LeadItem(o);
    OperationOfLead(o, draft.indexes, context, settings);
    assert plan[k] == op;
  }

  /** The selection of the next run holds an object whose lead did not succeed, and the same developers. */
  lemma {:induction false} SelectedAgain(draft: Draft, next: Draft, extract: ExtractResult, results: Results,
      o: ExtractedObject, d: ExtractedDeveloper)
    requires Selected(draft, extract) && SelectsAgain(next, draft, extract, results)
    requires o in draft.objects && !Succeeded(results, Render(Lead(o.id))) && d in extract.developers
    ensures o in next.objects && d.id in next.indexes.developers && next.indexes.developers[d.id] == d
  {
  }

  /** The lead of the next draft, over values: what the second plan holds for an object not loaded yet. */
  lemma {:induction false} ResumedLead(extract: ExtractResult, context: CrmContext, settings: RegionSettings,
      oracle: Oracle, draft: Draft, plan: seq<PlannedOperation>, run: Run, next: Draft, after: CrmContext,
      second: seq<PlannedOperation>, o: ExtractedObject, d: ExtractedDeveloper) returns (i: nat)
    requires Selected(draft, extract) && Loaded(draft, context, settings, oracle, plan, run)
    requires after == AfterLoad(context, extract, run.results) && WellFormedContext(after)
    requires SelectsAgain(next, draft, extract, run.results) && IndexAll(extract, after) == Ok(next.indexes)
    requires ManagersKnown(settings, next.indexes) && AllPlannable(Items(next), next.indexes)
    requires second == Operations(Items(next), next.indexes, after, settings)
    requires o in draft.objects && d in extract.developers && d.id == o.developerId
    requires Succeeded(run.results, Render(Requisite(d.id))) && !Succeeded(run.results, Render(Lead(o.id)))
    ensures i < |second| && second[i].id == Render(Lead(o.id))
    ensures Render(Company(d.id)) in run.results && run.results[Render(Company(d.id))].crmId.Some?
    ensures RefersToRecorded(second[i], context.structure.entityFields.lead,
                             run.results[Render(Company(d.id))].crmId.value)
  {
    SelectedAgain(draft, next, extract, run.results, o, d);
    i := OperationOfObject(next, second, o, after, settings);
    NextKnowsCompany(extract, context, settings, oracle, draft, plan, run, next.indexes, d);
    PlannedLeadRefers(o, d, next.indexes, after, settings, next.indexes.inns[d.inn]);
  }

  /** The draft and the plan of the next run. */
  lemma {:induction false} SecondPlanDrafted(extract: ExtractResult, context: CrmContext, settings: RegionSettings,
      oracle: Oracle, results: Results) returns (next: Draft, second: seq<PlannedOperation>)
    requires Transform(extract, context, settings).Ok?
    requires RunPlan(oracle, Transform(extract, context, settings).value).results == results
    ensures var after := AfterLoad(context, extract, results);
            && Transform(extract, after, settings) == Ok(second) && IndexAll(extract, after) == Ok(next.indexes)
            && ManagersKnown(settings, next.indexes) && AllPlannable(Items(next), next.indexes)
            && second == Operations(Items(next), next.indexes, after, settings)
    ensures SelectsAgain(next, Prepare(extract, context, settings).value, extract, results)
  {
    var after := AfterLoad(context, extract, results);
    SecondDraft(extract, context, settings, oracle, results);
    PreparedIsPlannable(extract, after, settings);
    PreparedIndexAll(extract, after, settings);
    next, second := Prepare(extract, after, settings).value, Transform(extract, after, settings).value;
  }

  /**
   * A lead that did not succeed although its developer's requisite did is created by the next run with the id of the
   * recorded company, and waits for nothing of that developer: neither address is looked at again.
   */
  lemma {:induction false} ResumedLeadWaitsForNothing(extract: ExtractResult, context: CrmContext,
      settings: RegionSettings, oracle: Oracle, o: ExtractedObject, d: ExtractedDeveloper) returns (i: nat)
    requires WellFormedContext(context) && Transform(extract, context, settings).Ok?
    requires o in Prepare(extract, context, settings).value.objects && d in extract.developers && d.id == o.developerId
    requires var results := RunPlan(oracle, Transform(extract, context, settings).value).results;
             Succeeded(results, Render(Requisite(d.id))) && !Succeeded(results, Render(Lead(o.id)))
    ensures var results := RunPlan(oracle, Transform(extract, context, settings).value).results;
            var second := Transform(extract, AfterLoad(context, extract, results), settings);
            && second.Ok? && i < |second.value| && second.value[i].id == Render(Lead(o.id))
            && Render(Company(d.id)) in results && results[Render(Company(d.id))].crmId.Some?
            && RefersToRecorded(second.value[i], context.structure.entityFields.lead,
                                results[Render(Company(d.id))].crmId.value)
  {
    var plan, draft := Transform(extract, context, settings).value, Prepare(extract, context, settings).value;
    var run := Completed(oracle, plan);
    var after := AfterLoad(context, extract, run.results);
    AfterLoadIsWellFormed(context, extract, oracle, plan);
    var next, second := SecondPlanDrafted(extract, context, settings, oracle, run.results);
    LoadedByPlan(extract, context, settings, oracle);
    PreparedSelects(extract, context, settings);
    i := ResumedLead(extract, context, settings, oracle, draft, plan, run, next, after, second, o, d);
  }

  // ----- one refused address -----

  /** A CRM that refuses one operation and creates everything else. */
  function Refusing(id: string): Oracle {
    (other: string) => if other == id then RequestFailed else Created(1)
  }

  lemma {:induction false} ItemUnblocked(item: PlanItem, indexes: Indexes, context: CrmContext,
      settings: RegionSettings, results: Results)
    requires ManagersKnown(settings, indexes) && Plannable(item, indexes)
    requires forall key :: key in BindingKeys(item, indexes) + DependencyKeys(item, indexes) ==>
               Succeeded(results, Render(key))
    ensures Unblocked(OperationOf(item, indexes, context, settings), results)
  {
    OperationReferences(item, indexes, context, settings);
    ReferencesSucceeded(OperationOf(item, indexes, context, settings), BindingKeys(item, indexes),
                        DependencyKeys(item, indexes), results);
  }

  lemma {:induction false} AnsweredIfUnblocked(oracle: Oracle, ops: seq<PlannedOperation>, run: Run, i: nat)
    requires Describes(oracle, ops, run) && i < |ops| && Unblocked(ops[i], run.results)
    requires !oracle(ops[i].id).GatewayError?
    ensures ops[i].id in run.results && run.results[ops[i].id] == ResultOf(ops[i], oracle(ops[i].id))
  {
    assert Settled(oracle, ops[i], run.results);
  }

  /** An item whose references succeeded gets what the CRM answers. */
  lemma {:induction false} AnsweredByOracle(draft: Draft, context: CrmContext, settings: RegionSettings, oracle: Oracle,
      plan: seq<PlannedOperation>, run: Run, item: PlanItem)
    requires Loaded(draft, context, settings, oracle, plan, run) && |run.order| == |plan|
    requires Planned(item, draft) && Plannable(item, draft.indexes) && !oracle(Render(Key(item))).GatewayError?
    requires forall key :: key in BindingKeys(item, draft.indexes) + DependencyKeys(item, draft.indexes) ==>
               Succeeded(run.results, Render(key))
    ensures Render(Key(item)) in run.results
    ensures run.results[Render(Key(item))]
            == ResultOf(OperationOf(item, draft.indexes, context, settings), oracle(Render(Key(item))))
  {
    var i := PositionOf(draft, item);
    ItemUnblocked(item, draft.indexes, context, settings, run.results);
    assert plan[..|run.order|] == plan;
    AnsweredIfUnblocked(oracle, plan, run, i);
  }

  lemma {:induction false} ReferencesSucceeded(op: PlannedOperation, sources: seq<OperationKey>,
      dependencies: seq<OperationKey>, results: Results)
    requires |op.bindings| == |sources| && |op.dependencies| == |dependencies|
    requires forall k :: 0 <= k < |sources| ==> op.bindings[k].source == Render(sources[k])
    requires forall k :: 0 <= k < |dependencies| ==> op.dependencies[k] == Render(dependencies[k])
    requires forall key :: key in sources + dependencies ==> Succeeded(results, Render(key))
    ensures Unblocked(op, results)
  {
    DirectDependenciesMeaning(op);
    BlockersMeaning(DirectDependencies(op), results);
    var blockers := Blockers(DirectDependencies(op), results);
    assert blockers == [] || blockers[0] in blockers;
    forall d | d in DirectDependencies(op)
      ensures Succeeded(results, d)
    {
      if d in op.dependencies {
        var k :| 0 <= k < |op.dependencies| && op.dependencies[k] == d;
        assert dependencies[k] in sources + dependencies;
      } else {
        var k :| 0 <= k < |op.bindings| && BindingSources(op.bindings)[k] == d;
        assert sources[k] in sources + dependencies;
      }
    }
  }

  lemma {:induction false} RefusesOnly(key: OperationKey, other: OperationKey)
    ensures Refusing(Render(key))(Render(key)) == RequestFailed
    ensures other != key ==> Refusing(Render(key))(Render(other)) == Created(1)
  {
    if Render(other) == Render(key) {
      RenderInjective(other, key);
    }
  }

  lemma {:induction false} RequisiteSucceeds(draft: Draft, context: CrmContext, settings: RegionSettings,
      oracle: Oracle, plan: seq<PlannedOperation>, run: Run, d: ExtractedDeveloper)
    requires Loaded(draft, context, settings, oracle, plan, run)
    requires oracle(Render(Company(d.id))).Created? && oracle(Render(Requisite(d.id))).Created?
    requires |run.order| == |plan| && d in draft.developers && NeedsCompany(d, draft.indexes)
    ensures Succeeded(run.results, Render(Requisite(d.id)))
  {
    AnsweredByOracle(draft, context, settings, oracle, plan, run, CompanyItem(d));
    AnsweredByOracle(draft, context, settings, oracle, plan, run, RequisiteItem(d));
  }

  /** If only the actual address of a planned developer is refused, its requisite succeeds and the address fails. */
  lemma {:induction false} OnlyAddressFails(draft: Draft, context: CrmContext, settings: RegionSettings, oracle: Oracle,
      plan: seq<PlannedOperation>, run: Run, d: ExtractedDeveloper)
    requires Loaded(draft, context, settings, oracle, plan, run)
    requires oracle(Render(Company(d.id))).Created? && oracle(Render(Requisite(d.id))).Created?
    requires oracle(Render(ActualAddress(d.id))).RequestFailed?
    requires |run.order| == |plan| && d in draft.developers && NeedsCompany(d, draft.indexes)
    ensures Succeeded(run.results, Render(Requisite(d.id)))
    ensures Render(ActualAddress(d.id)) in run.results && run.results[Render(ActualAddress(d.id))].status == Failed
  {
    RequisiteSucceeds(draft, context, settings, oracle, plan, run, d);
    AnsweredByOracle(draft, context, settings, oracle, plan, run, ActualAddressItem(d));
  }

  /** A lead whose developer the plan creates does not succeed without the developer's actual address. */
  lemma {:induction false} LeadNeedsAddress(draft: Draft, context: CrmContext, settings: RegionSettings, oracle: Oracle,
      plan: seq<PlannedOperation>, run: Run, o: ExtractedObject, d: ExtractedDeveloper)
    requires Loaded(draft, context, settings, oracle, plan, run)
    requires o in draft.objects && Plannable(LeadItem(o), draft.indexes)
    requires draft.indexes.developers[o.developerId] == d && NeedsCompany(d, draft.indexes)
    requires Succeeded(run.results, Render(Lead(o.id)))
    ensures Succeeded(run.results, Render(ActualAddress(d.id)))
  {
    assert DependencyKeys(LeadItem(o), draft.indexes)[1] == ActualAddress(d.id);
    SuccessNeedsReferences(draft, context, settings, oracle, plan, run, LeadItem(o), ActualAddress(d.id));
  }

  /** A plan that never gets stuck runs to its end if the CRM answers every request. */
  lemma {:induction false} AnsweredPlanCompletes(ops: seq<PlannedOperation>, id: string)
    requires NeverStuck(ops)
    ensures |Completed(Refusing(id), ops).order| == |ops|
  {
    AnsweringCrmNeverAborts(Refusing(id), ops);
    CompletedPrefix(Refusing(id), ops);
  }

  /** The object is planned, and so is the creation of its developer. */
  ghost predicate CreatesDeveloperOf(draft: Draft, o: ExtractedObject) {
    && o in draft.objects && o.developerId in draft.indexes.developers
    && NeedsCompany(draft.indexes.developers[o.developerId], draft.indexes)
  }

  /** The first run over values, if the CRM refuses just the actual address. */
  lemma {:induction false} RefusedAddress(extract: ExtractResult, context: CrmContext, settings: RegionSettings,
      draft: Draft, plan: seq<PlannedOperation>, run: Run, o: ExtractedObject, d: ExtractedDeveloper)
    requires Selected(draft, extract) && CreatesDeveloperOf(draft, o) && d == draft.indexes.developers[o.developerId]
    requires Loaded(draft, context, settings, Refusing(Render(ActualAddress(o.developerId))), plan, run)
    requires |run.order| == |plan|
    ensures d in extract.developers && d.id == o.developerId && Succeeded(run.results, Render(Requisite(d.id)))
    ensures var address := Render(ActualAddress(o.developerId));
            address in run.results && run.results[address].status == Failed
    ensures !Succeeded(run.results, Render(Lead(o.id)))
  {
    assert d.id in DeveloperIds(draft.objects);
    var oracle := Refusing(Render(ActualAddress(d.id)));
    RefusesOnly(ActualAddress(d.id), Company(d.id));
    RefusesOnly(ActualAddress(d.id), Requisite(d.id));
    OnlyAddressFails(draft, context, settings, oracle, plan, run, d);
    if Succeeded(run.results, Render(Lead(o.id))) {
      LeadNeedsAddress(draft, context, settings, oracle, plan, run, o, d);
    }
  }

  /** The first run, if the CRM refuses just the actual address of a developer it creates. */
  lemma {:induction false} FirstRunRefused(extract: ExtractResult, context: CrmContext, settings: RegionSettings,
      o: ExtractedObject) returns (d: ExtractedDeveloper)
    requires WellFormedContext(context) && Transform(extract, context, settings).Ok?
    requires CreatesDeveloperOf(Prepare(extract, context, settings).value, o)
    ensures var address := Render(ActualAddress(o.developerId));
            var results := RunPlan(Refusing(address), Transform(extract, context, settings).value).results;
            && d in extract.developers && d.id == o.developerId && Succeeded(results, Render(Requisite(d.id)))
            && address in results && results[address].status == Failed && !Succeeded(results, Render(Lead(o.id)))
  {
    var draft, plan := Prepare(extract, context, settings).value, Transform(extract, context, settings).value;
    var oracle := Refusing(Render(ActualAddress(o.developerId)));
    d := draft.indexes.developers[o.developerId];
    PreparedSelects(extract, context, settings);
    LoadedByPlan(extract, context, settings, oracle);
    CompiledPlanNeverStuck(extract, context, settings);
    AnsweredPlanCompletes(plan, Render(ActualAddress(o.developerId)));
    RefusedAddress(extract, context, settings, draft, plan, Completed(oracle, plan), o, d);
  }

  /** What records an address is its requisite. */
  lemma {:induction false} RecordedAddressIsNotPlanned(extract: ExtractResult, context: CrmContext,
      settings: RegionSettings, oracle: Oracle, developer: nat)
    requires Transform(extract, context, settings).Ok?
    requires Succeeded(RunPlan(oracle, Transform(extract, context, settings).value).results,
                       Render(Requisite(developer)))
    ensures var results := RunPlan(oracle, Transform(extract, context, settings).value).results;
            var second := Transform(extract, AfterLoad(context, extract, results), settings);
            second.Ok? && Render(ActualAddress(developer)) !in Ids(second.value)
  {
    PlannedAgainUnlessRecorded(extract, context, settings, oracle, ActualAddress(developer));
  }

  /**
   * Whenever a plan creates a developer, refusing just its actual address is enough to lose it: the next plan does
   * not try the address again, and creates the object's lead without waiting for it.
   */
  lemma {:induction false} RefusedAddressIsDropped(extract: ExtractResult, context: CrmContext,
      settings: RegionSettings, o: ExtractedObject) returns (i: nat)
    requires WellFormedContext(context) && Transform(extract, context, settings).Ok?
    requires CreatesDeveloperOf(Prepare(extract, context, settings).value, o)
    ensures var address := Render(ActualAddress(o.developerId));
            var results := RunPlan(Refusing(address), Transform(extract, context, settings).value).results;
            var second := Transform(extract, AfterLoad(context, extract, results), settings);
            && address in results && results[address].status == Failed
            && second.Ok? && address !in Ids(second.value)
            && i < |second.value| && second.value[i].id == Render(Lead(o.id)) && second.value[i].dependencies == []
  {
    var oracle := Refusing(Render(ActualAddress(o.developerId)));
    var d := FirstRunRefused(extract, context, settings, o);
    RecordedAddressIsNotPlanned(extract, context, settings, oracle, o.developerId);
    assert o in Prepare(extract, context, settings).value.objects;
    i := ResumedLeadWaitsForNothing(extract, context, settings, oracle, o, d);
  }

  // ----- one refused requisite -----

  /** If only the requisite of a planned developer is refused, its company is created and left without it. */
  lemma {:induction false} CompanyWithoutRequisite(draft: Draft, context: CrmContext, settings: RegionSettings,
      oracle: Oracle, plan: seq<PlannedOperation>, run: Run, d: ExtractedDeveloper)
    requires Loaded(draft, context, settings, oracle, plan, run)
    requires oracle(Render(Company(d.id))).Created? && oracle(Render(Requisite(d.id))).RequestFailed?
    requires |run.order| == |plan| && d in draft.developers && NeedsCompany(d, draft.indexes)
    ensures Succeeded(run.results, Render(Company(d.id))) && !Succeeded(run.results, Render(Requisite(d.id)))
  {
    AnsweredByOracle(draft, context, settings, oracle, plan, run, CompanyItem(d));
    AnsweredByOracle(draft, context, settings, oracle, plan, run, RequisiteItem(d));
  }

  /** The developer is selected, and the plan creates it. */
  ghost predicate Creates(draft: Draft, d: ExtractedDeveloper) {
    d in draft.developers && NeedsCompany(d, draft.indexes)
  }

  lemma {:induction false} RequisiteRefused(extract: ExtractResult, context: CrmContext, settings: RegionSettings,
      d: ExtractedDeveloper)
    requires WellFormedContext(context) && Transform(extract, context, settings).Ok?
    requires Creates(Prepare(extract, context, settings).value, d)
    ensures var plan := Transform(extract, context, settings).value;
            var results := RunPlan(Refusing(Render(Requisite(d.id))), plan).results;
            Succeeded(results, Render(Company(d.id))) && !Succeeded(results, Render(Requisite(d.id)))
  {
    var draft, plan := Prepare(extract, context, settings).value, Transform(extract, context, settings).value;
    var oracle := Refusing(Render(Requisite(d.id)));
    LoadedByPlan(extract, context, settings, oracle);
    CompiledPlanNeverStuck(extract, context, settings);
    AnsweredPlanCompletes(plan, Render(Requisite(d.id)));
    RefusesOnly(Requisite(d.id), Company(d.id));
    CompanyWithoutRequisite(draft, context, settings, oracle, plan, Completed(oracle, plan), d);
  }

  /**
   * Whenever a plan creates a developer, refusing just its requisite is enough for its company to be created twice:
   * the first load creates it, and the next plan creates it again.
   */
  lemma {:induction false} RefusedRequisiteRepeatsCompany(extract: ExtractResult, context: CrmContext,
      settings: RegionSettings, d: ExtractedDeveloper)
    requires WellFormedContext(context) && Transform(extract, context, settings).Ok?
    requires Creates(Prepare(extract, context, settings).value, d)
    ensures var plan := Transform(extract, context, settings).value;
            var results := RunPlan(Refusing(Render(Requisite(d.id))), plan).results;
            var second := Transform(extract, AfterLoad(context, extract, results), settings);
            && Succeeded(results, Render(Company(d.id)))
            && second.Ok? && Render(Company(d.id)) in Ids(second.value)
  {
    RequisiteRefused(extract, context, settings, d);
    OnlyCompaniesAreCreatedTwice(extract, context, settings, Refusing(Render(Requisite(d.id))), Company(d.id));
  }
}
