/** What a loaded plan has put into the CRM: a created lead always refers to its own company and group. */
module LeadCompleteness {
  import opened Wrappers
  import opened Json
  import opened Contracts
  import opened OperationIds
  import opened Transformer
  import opened Selection
  import opened PlanExecutor
  import opened CompiledPlans
  import opened Execution
  import opened ExecutionGuarantees

  /** Executing a compiled plan raises no executor invariant error, whatever the CRM answers. */
  lemma {:induction false} CompiledPlanNeverStuck(extract: ExtractResult, context: CrmContext, settings: RegionSettings)
    requires WellFormedContext(context) && Transform(extract, context, settings).Ok?
    ensures NeverStuck(Transform(extract, context, settings).value)
  {
    CompiledPlanAccepted(extract, context, settings);
    AcceptedPlanStuckExactlyOnAddressSource(context.structure, Transform(extract, context, settings).value);
  }

  // ----- where a command stands in the transcript -----

  /** The commands sent before operation `i`, then operation `i`'s own. */
  lemma {:induction false} SentSplits(ops: seq<PlannedOperation>, results: Results, i: nat)
    requires i < |ops|
    ensures SentBy(ops[..i], results) + SentFor(ops[i], results) <= SentBy(ops, results)
  {
    if i == |ops| - 1 {
    } else {
      var head := ops[..|ops| - 1];
      SentSplits(head, results, i);
      assert head[..i] == ops[..i] && head[i] == ops[i];
    }
  }

  ghost predicate SentWithin(sent: seq<SentCommand>, n: nat, id: string)
    requires n <= |sent|
  {
    exists q :: 0 <= q < n && sent[q].operationId == id
  }

  /** The commands of the unblocked operations before operation `i` stand before position `p`. */
  ghost predicate EarlierSent(ops: seq<PlannedOperation>, results: Results, i: nat, sent: seq<SentCommand>, p: nat)
    requires i <= |ops| && p <= |sent|
  {
    forall j :: 0 <= j < i && Unblocked(ops[j], results) && Resolve(ops[j], results).Ok? ==>
                  SentWithin(sent, p, ops[j].id)
  }

  /** An unblocked operation's command stands after the commands of the operations before it. */
  lemma {:induction false} SentAfterEarlier(ops: seq<PlannedOperation>, results: Results, i: nat) returns (p: nat)
    requires i < |ops| && Unblocked(ops[i], results) && Resolve(ops[i], results).Ok?
    ensures p < |SentBy(ops, results)|
    ensures SentBy(ops, results)[p] == SentCommand(ops[i].id, Resolve(ops[i], results).value)
    ensures EarlierSent(ops, results, i, SentBy(ops, results), p)
  {
    SentSplits(ops, results, i);
    var sent := SentBy(ops, results);
    p := |SentBy(ops[..i], results)|;
    assert sent[p] == (SentBy(ops[..i], results) + SentFor(ops[i], results))[p];
    forall j | 0 <= j < i && Unblocked(ops[j], results) && Resolve(ops[j], results).Ok?
      ensures SentWithin(sent, p, ops[j].id)
    {
      SentSplits(ops[..i], results, j);
      assert ops[..i][..j] == ops[..j] && ops[..i][j] == ops[j];
      var q := |SentBy(ops[..j], results)|;
      assert (SentBy(ops[..j], results) + SentFor(ops[j], results))[q].operationId == ops[j].id;
      assert SentBy(ops[..i], results)[q].operationId == ops[j].id;
      assert sent[q] == (SentBy(ops[..i], results) + SentFor(ops[i], results))[q];
    }
  }

  // ----- what resolution writes -----

  lemma {:induction false} ResolvedFields(op: PlannedOperation, n: nat, results: Results, name: string)
    requires n <= |op.bindings| && ResolveFields(op, n, results).Ok?
    requires forall a, b :: 0 <= a < b < |op.bindings| ==> op.bindings[a].field != op.bindings[b].field
    ensures forall k :: 0 <= k < n && op.bindings[k].field == name ==>
              && BoundId(op, op.bindings[k], results).Ok?
              && Get(ResolveFields(op, n, results).value, name)
                 == Some(JInt(BoundId(op, op.bindings[k], results).value))
    ensures (forall k :: 0 <= k < n ==> op.bindings[k].field != name) ==>
              Get(ResolveFields(op, n, results).value, name) == Get(op.command.fields, name)
  {
    if n > 0 {
      ResolvedFields(op, n - 1, results, name);
    }
  }

  /** A resolved reference: the id the source operation returned, and that operation succeeded. */
  ghost predicate RefersToCreated(fields: Fields, name: string, results: Results, key: OperationKey) {
    && Succeeded(results, Render(key))
    && results[Render(key)].crmId.Some?
    && Get(fields, name) == Some(JInt(results[Render(key)].crmId.value))
  }

  /** The reference fields of the command a lead sends. */
  ghost predicate LeadRefersToOwners(command: CrmCommand, o: ExtractedObject, developer: ExtractedDeveloper,
      indexes: Indexes, structure: CrmStructure, results: Results)
  {
    var f := structure.entityFields.lead;
    && command.AddItem? && command.entityTypeId == structure.entityTypes.lead
    && (if NeedsCompany(developer, indexes)
        then RefersToCreated(command.fields, f.companyId, results, Company(developer.id))
        else Get(command.fields, f.companyId) == Some(JInt(indexes.inns[developer.inn])))
    && (if NeedsGroup(o, indexes)
        then RefersToCreated(command.fields, f.companyGroupBitrixId, results, Group(o.companyGroupId.value))
        else Get(command.fields, f.companyGroupBitrixId) == GroupReference(o, indexes))
  }

  lemma {:induction false} LeadResolves(o: ExtractedObject, developer: ExtractedDeveloper, indexes: Indexes,
      context: CrmContext, settings: RegionSettings, results: Results)
    requires ManagersKnown(settings, indexes) && WellFormedContext(context)
    requires Resolve(LeadOperation(o, developer, indexes, context, settings), results).Ok?
    ensures LeadRefersToOwners(Resolve(LeadOperation(o, developer, indexes, context, settings), results).value,
                               o, developer, indexes, context.structure, results)
  {
    var f := context.structure.entityFields.lead;
    var op := LeadOperation(o, developer, indexes, context, settings);
    LeadNamesDiffer(f);
    LeadPayloadMeaning(o, developer, indexes, context, settings);
    ResolvedFields(op, |op.bindings|, results, f.companyId);
    ResolvedFields(op, |op.bindings|, results, f.companyGroupBitrixId);
    if NeedsCompany(developer, indexes) {
      assert op.bindings[0] == RuntimeBinding(f.companyId, Render(Company(developer.id)));
    }
    if NeedsGroup(o, indexes) {
      assert op.bindings[|op.bindings| - 1]
             == RuntimeBinding(f.companyGroupBitrixId, Render(Group(o.companyGroupId.value)));
    }
  }

  // ----- the theorem -----

  /** The operations that must have been carried out before a lead of this developer and object. */
  ghost function Prerequisites(o: ExtractedObject, developer: ExtractedDeveloper, indexes: Indexes): set<OperationKey> {
    (if NeedsCompany(developer, indexes)
     then {Company(developer.id), Requisite(developer.id), ActualAddress(developer.id), LegalAddress(developer.id)}
     else {})
    + (if NeedsGroup(o, indexes) then {Group(o.companyGroupId.value)} else {})
  }

  /** Position `p` of the transcript is the complete lead of `o`, after everything it rests on. */
  ghost predicate CompleteLeadAt(run: Run, p: nat, o: ExtractedObject, developer: ExtractedDeveloper, indexes: Indexes,
      structure: CrmStructure)
  {
    && p < |run.sent|
    && run.sent[p].operationId == Render(Lead(o.id))
    && LeadRefersToOwners(run.sent[p].command, o, developer, indexes, structure, run.results)
    && forall key :: key in Prerequisites(o, developer, indexes) ==>
         Succeeded(run.results, Render(key)) && SentWithin(run.sent, p, Render(key))
  }

  lemma {:induction false} PrerequisiteSent(oracle: Oracle, ops: seq<PlannedOperation>, run: Run, i: nat, p: nat,
      source: string)
    requires Describes(oracle, ops, run) && i < |ops| && Unblocked(ops[i], run.results) && p <= |run.sent|
    requires EarlierSent(ops, run.results, i, run.sent, p)
    requires
      || source in ops[i].dependencies
      || exists k :: 0 <= k < |ops[i].bindings| && ops[i].bindings[k].source == source
    ensures Succeeded(run.results, source) && SentWithin(run.sent, p, source)
  {
    ReferencedSucceeded(oracle, ops, run, i, source);
    var j := EarlierOperation(ops, run, i, source);
    SucceededWasSent(oracle, ops, run, j);
  }

  lemma {:induction false} PrerequisitesReferenced(o: ExtractedObject, indexes: Indexes, context: CrmContext,
      settings: RegionSettings, key: OperationKey)
    requires ManagersKnown(settings, indexes) && Plannable(LeadItem(o), indexes)
    requires key in Prerequisites(o, indexes.developers[o.developerId], indexes)
    ensures var op := LeadOperation(o, indexes.developers[o.developerId], indexes, context, settings);
            || Render(key) in op.dependencies
            || exists k :: 0 <= k < |op.bindings| && op.bindings[k].source == Render(key)
  {
    var developer := indexes.developers[o.developerId];
    var op := LeadOperation(o, developer, indexes, context, settings);
    match key
    case Company(_) => assert op.bindings[0].source == Render(key);
    case Group(_) => assert op.bindings[|op.bindings| - 1].source == Render(key);
    case Requisite(_) => assert op.dependencies[0] == Render(key);
    case ActualAddress(_) => assert op.dependencies[1] == Render(key);
    case LegalAddress(_) => assert op.dependencies[2] == Render(key);
  }

  lemma {:induction false} PrerequisitesSent(oracle: Oracle, ops: seq<PlannedOperation>, run: Run, i: nat, p: nat,
      o: ExtractedObject, indexes: Indexes, context: CrmContext, settings: RegionSettings)
    requires ManagersKnown(settings, indexes) && Plannable(LeadItem(o), indexes)
    requires Describes(oracle, ops, run) && i < |ops| && Unblocked(ops[i], run.results) && p <= |run.sent|
    requires ops[i] == LeadOperation(o, indexes.developers[o.developerId], indexes, context, settings)
    requires EarlierSent(ops, run.results, i, run.sent, p)
    ensures forall key :: key in Prerequisites(o, indexes.developers[o.developerId], indexes) ==>
              Succeeded(run.results, Render(key)) && SentWithin(run.sent, p, Render(key))
  {
    forall key | key in Prerequisites(o, indexes.developers[o.developerId], indexes)
      ensures Succeeded(run.results, Render(key)) && SentWithin(run.sent, p, Render(key))
    {
      PrerequisitesReferenced(o, indexes, context, settings, key);
      PrerequisiteSent(oracle, ops, run, i, p, Render(key));
    }
  }

  lemma {:induction false} LeadAtPositionIsComplete(oracle: Oracle, ops: seq<PlannedOperation>, run: Run, i: nat,
      o: ExtractedObject, indexes: Indexes, context: CrmContext, settings: RegionSettings) returns (p: nat)
    requires WellFormedContext(context) && ManagersKnown(settings, indexes) && Plannable(LeadItem(o), indexes)
    requires Describes(oracle, ops, run) && i < |ops| && Succeeded(run.results, ops[i].id)
    requires ops[i] == LeadOperation(o, indexes.developers[o.developerId], indexes, context, settings)
    ensures CompleteLeadAt(run, p, o, indexes.developers[o.developerId], indexes, context.structure)
  {
    var developer := indexes.developers[o.developerId];
    SucceededWasSent(oracle, ops, run, i);
    p := SentAfterEarlier(ops, run.results, i);
    LeadResolves(o, developer, indexes, context, settings, run.results);
    PrerequisitesSent(oracle, ops, run, i, p, o, indexes, context, settings);
  }

  lemma {:induction false} OperationOfLead(o: ExtractedObject, indexes: Indexes, context: CrmContext,
      settings: RegionSettings)
    requires ManagersKnown(settings, indexes) && Plannable(LeadItem(o), indexes)
    ensures OperationOf(LeadItem(o), indexes, context, settings)
            == LeadOperation(o, indexes.developers[o.developerId], indexes, context, settings)
  {
  }

  lemma {:induction false} LeadPosition(draft: Draft, o: ExtractedObject) returns (i: nat)
    requires o in draft.objects
    ensures i < |Items(draft)| && Items(draft)[i] == LeadItem(o)
  {
    var at :| 0 <= at < |draft.objects| && draft.objects[at] == o;
    i := |Items(draft)| - |draft.objects| + at;
  }

  /** Where the lead of a drafted object stands in the plan. */
  lemma {:induction false} OperationOfObject(draft: Draft, plan: seq<PlannedOperation>, o: ExtractedObject,
      context: CrmContext, settings: RegionSettings) returns (i: nat)
    requires ManagersKnown(settings, draft.indexes) && AllPlannable(Items(draft), draft.indexes)
    requires plan == Operations(Items(draft), draft.indexes, context, settings) && o in draft.objects
    ensures Plannable(LeadItem(o), draft.indexes) && i < |plan| && plan[i].id == Render(Lead(o.id))
    ensures plan[i] == OperationOf(LeadItem(o), draft.indexes, context, settings)
  {
    i := LeadPosition(draft, o);
    assert Plannable(Items(draft)[i], draft.indexes);
  }

  lemma {:induction false} StaysComplete(done: Run, run: Run, p: nat, o: ExtractedObject, developer: ExtractedDeveloper,
      indexes: Indexes, structure: CrmStructure)
    requires CompleteLeadAt(done, p, o, developer, indexes, structure)
    requires done.results == run.results && done.sent <= run.sent
    ensures CompleteLeadAt(run, p, o, developer, indexes, structure)
  {
    assert run.sent[p] == done.sent[p];
    forall key | key in Prerequisites(o, developer, indexes)
      ensures SentWithin(run.sent, p, Render(key))
    {
      assert SentWithin(done.sent, p, Render(key));
      var q :| 0 <= q < p && done.sent[q].operationId == Render(key);
      assert run.sent[q].operationId == Render(key);
    }
  }

  /** A lead with a result stands among the completed operations of a compiled plan. */
  lemma {:induction false} LeadCompleted(draft: Draft, context: CrmContext, settings: RegionSettings, oracle: Oracle,
      plan: seq<PlannedOperation>, done: Run, o: ExtractedObject) returns (i: nat)
    requires ManagersKnown(settings, draft.indexes) && AllPlannable(Items(draft), draft.indexes)
    requires plan == Operations(Items(draft), draft.indexes, context, settings) && AscendingItems(Items(draft))
    requires |done.order| <= |plan| && Describes(oracle, plan[..|done.order|], done)
    requires o in draft.objects && Render(Lead(o.id)) in done.results
    ensures i < |done.order| && Plannable(LeadItem(o), draft.indexes)
    ensures plan[i] == OperationOf(LeadItem(o), draft.indexes, context, settings)
  {
    i := OperationOfObject(draft, plan, o, context, settings);
    OperationsUnique(Items(draft), draft.indexes, context, settings);
    ResultMeansCompleted(oracle, plan, done, i);
  }

  /** The transcript holds a complete lead of the object, for the extracted developer the object names. */
  ghost predicate OwnLeadComplete(run: Run, o: ExtractedObject, indexes: Indexes, extract: ExtractResult,
      structure: CrmStructure)
  {
    && o.developerId in indexes.developers && indexes.developers[o.developerId] in extract.developers
    && indexes.developers[o.developerId].id == o.developerId
    && exists p :: CompleteLeadAt(run, p, o, indexes.developers[o.developerId], indexes, structure)
  }

  /** A lead of a draft that succeeded is complete. */
  lemma {:induction false} DraftedLeadIsComplete(draft: Draft, context: CrmContext, settings: RegionSettings,
      oracle: Oracle, plan: seq<PlannedOperation>, extract: ExtractResult, o: ExtractedObject)
    requires WellFormedContext(context) && IndexesExtract(draft.indexes, extract)
    requires ManagersKnown(settings, draft.indexes) && AllPlannable(Items(draft), draft.indexes)
    requires plan == Operations(Items(draft), draft.indexes, context, settings) && AscendingItems(Items(draft))
    requires o in draft.objects && Succeeded(RunPlan(oracle, plan).results, Render(Lead(o.id)))
    ensures OwnLeadComplete(RunPlan(oracle, plan), o, draft.indexes, extract, context.structure)
  {
    var done := Completed(oracle, plan);
    var i := LeadCompleted(draft, context, settings, oracle, plan, done, o);
    OperationOfLead(o, draft.indexes, context, settings);
    var p := LeadAtPositionIsComplete(oracle, plan[..|done.order|], done, i, o, draft.indexes, context, settings);
    StaysComplete(done, RunPlan(oracle, plan), p, o, draft.indexes.developers[o.developerId], draft.indexes,
                  context.structure);
  }

  lemma {:induction false} PreparedAscends(extract: ExtractResult, context: CrmContext, settings: RegionSettings)
    requires Prepare(extract, context, settings).Ok?
    ensures AscendingItems(Items(Prepare(extract, context, settings).value))
  {
    PreparedSelects(extract, context, settings);
    DraftAscends(Prepare(extract, context, settings).value);
  }

  /**
   * Whenever the lead of an object ends in success, also in a load aborted later, its command was sent after the
   * successful creation of everything it rests on, and carried the id of its own developer's company and of its
   * own group.
   */
  lemma {:induction false} SuccessfulLeadIsComplete(extract: ExtractResult, context: CrmContext,
      settings: RegionSettings, oracle: Oracle, o: ExtractedObject)
    requires WellFormedContext(context) && Transform(extract, context, settings).Ok?
    requires o in Prepare(extract, context, settings).value.objects
    requires Succeeded(RunPlan(oracle, Transform(extract, context, settings).value).results, Render(Lead(o.id)))
    ensures var run := RunPlan(oracle, Transform(extract, context, settings).value);
            var indexes := Prepare(extract, context, settings).value.indexes;
            OwnLeadComplete(run, o, indexes, extract, context.structure)
  {
    var draft := Prepare(extract, context, settings).value;
    PreparedIsPlannable(extract, context, settings);
    PreparedAscends(extract, context, settings);
    PreparedIndexes(extract, context, settings);
    var plan := Transform(extract, context, settings).value;
    DraftedLeadIsComplete(draft, context, settings, oracle, plan, extract, o);
  }

  lemma {:induction false} ReferencedSucceeded(oracle: Oracle, ops: seq<PlannedOperation>, run: Run, i: nat,
      source: string)
    requires Describes(oracle, ops, run) && i < |ops| && Unblocked(ops[i], run.results)
    requires
      || source in ops[i].dependencies
      || exists k :: 0 <= k < |ops[i].bindings| && ops[i].bindings[k].source == source
    ensures Succeeded(run.results, source) && source in DirectDependencies(ops[i])
  {
    assert forall k :: 0 <= k < |ops[i].bindings| ==> BindingSources(ops[i].bindings)[k] == ops[i].bindings[k].source;
    DirectDependenciesMeaning(ops[i]);
    BlockersMeaning(DirectDependencies(ops[i]), run.results);
  }

  lemma {:induction false} EarlierOperation(ops: seq<PlannedOperation>, run: Run, i: nat, source: string)
    returns (j: nat)
    requires DependenciesEarlier(ops) && i < |ops| && source in DirectDependencies(ops[i])
    ensures j < i && ops[j].id == source
  {
    assert source in Ids(ops[..i]);
    j :| 0 <= j < i && ops[..i][j].id == source;
  }

  lemma {:induction false} SucceededWasSent(oracle: Oracle, ops: seq<PlannedOperation>, run: Run, j: nat)
    requires Describes(oracle, ops, run) && j < |ops| && Succeeded(run.results, ops[j].id)
    ensures Unblocked(ops[j], run.results) && Resolve(ops[j], run.results).Ok?
  {
    assert Settled(oracle, ops[j], run.results);
  }
}
