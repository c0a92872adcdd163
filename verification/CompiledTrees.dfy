/** The tree of a compiled plan, in terms of the extracted data and the context. */
module CompiledTrees {
  import opened Wrappers
  import opened Text
  import opened Json
  import opened Contracts
  import opened PlanValidator
  import opened Transformer
  import opened CompiledPlans
  import opened PlannedCommands
  import opened PlanTree

  /** The node of a company: its operation if the plan creates it, else the company the CRM has. */
  ghost predicate IsCompanyNode(node: Node, d: ExtractedDeveloper, context: CrmContext) {
    if CompanyKnown(context, d.inn)
    then node.Existing? && node.kind == CompanyKind && IsCompany(Some(JInt(node.crmId)), d.inn, context)
    else node == Own("company:" + Decimal(d.id))
  }

  ghost predicate IsGroupNode(node: Node, o: ExtractedObject, context: CrmContext) {
    match o.companyGroupId
    case None => node == Ungrouped
    case Some(group) =>
      if GroupKnown(context, group)
      then node.Existing? && node.kind == GroupKind && IsGroup(Some(JInt(node.crmId)), group, context)
      else node == Own("group:" + Decimal(group))
  }

  /** A created company has its requisite under it, and the requisite both addresses. */
  ghost predicate BranchOfDeveloper(parents: Parents, d: ExtractedDeveloper) {
    var id := Decimal(d.id);
    && StandsUnder(parents, Own("requisite:" + id), Own("company:" + id))
    && StandsUnder(parents, Own("address:" + id + ":actual"), Own("requisite:" + id))
    && StandsUnder(parents, Own("address:" + id + ":legal"), Own("requisite:" + id))
  }

  /** The lead stands in the group, under the company or under the group's reference to it. */
  ghost predicate InGroup(parents: Parents, lead: Node, company: Node, group: Node) {
    || (StandsUnder(parents, lead, company) && StandsUnder(parents, company, group))
    || (StandsUnder(parents, lead, Reference(group, company)) && StandsUnder(parents, Reference(group, company), group))
  }

  ghost predicate LeadInTree(parents: Parents, o: ExtractedObject, extract: ExtractResult, context: CrmContext) {
    exists d, company, group ::
      && d in extract.developers && d.id == o.developerId
      && IsCompanyNode(company, d, context) && IsGroupNode(group, o, context)
      && InGroup(parents, Own("lead:" + Decimal(o.id)), company, group)
  }

  // ----- owners -----

  lemma {:induction false} CompanyOf(byId: map<string, PlannedOperation>, op: PlannedOperation, o: ExtractedObject,
      d: ExtractedDeveloper, context: CrmContext)
    requires DistinctNames(LeadNames(context.structure.entityFields.lead))
    requires forall e <- context.existing.developers :: e.crmId > 0
    requires BindsOwners(op.bindings, o, d, context) && RefersToCompany(op, d, context)
    requires !CompanyKnown(context, d.inn) ==>
               var id := "company:" + Decimal(d.id);
               id in byId && IsKind(context.structure.entityTypes, byId[id], CompanyKind)
    ensures LeadCompany(byId, context.structure, op).Some?
    ensures IsCompanyNode(LeadCompany(byId, context.structure, op).value, d, context)
  {
    var f := context.structure.entityFields.lead;
    LeadNamesDiffer(f);
    if CompanyKnown(context, d.inn) {
      var i :| 0 <= i < |context.existing.developers| && context.existing.developers[i].inn == d.inn
               && Get(op.command.fields, f.companyId) == Some(JInt(context.existing.developers[i].crmId));
      assert context.existing.developers[i] in context.existing.developers;
      assert forall k :: 0 <= k < |op.bindings| ==> op.bindings[k].field != f.companyId;
      NoSource(op.bindings, f.companyId);
    }
  }

  lemma {:induction false} NoSource(bindings: seq<RuntimeBinding>, name: string)
    requires forall k :: 0 <= k < |bindings| ==> bindings[k].field != name
    ensures FirstSource(bindings, name) == None
  {
    if bindings != [] {
      NoSource(bindings[1..], name);
    }
  }

  lemma {:induction false} GroupSource(bindings: seq<RuntimeBinding>, o: ExtractedObject, d: ExtractedDeveloper,
      context: CrmContext)
    requires DistinctNames(LeadNames(context.structure.entityFields.lead)) && BindsOwners(bindings, o, d, context)
    ensures FirstSource(bindings, context.structure.entityFields.lead.companyGroupBitrixId)
            == if o.companyGroupId.Some? && !GroupKnown(context, o.companyGroupId.value)
               then Some("group:" + Decimal(o.companyGroupId.value)) else None
  {
    LeadNamesDiffer(context.structure.entityFields.lead);
  }

  lemma {:induction false} GroupOf(byId: map<string, PlannedOperation>, op: PlannedOperation, o: ExtractedObject,
      d: ExtractedDeveloper, context: CrmContext)
    requires DistinctNames(LeadNames(context.structure.entityFields.lead))
    requires forall e <- context.existing.companyGroups :: e.crmId > 0
    requires BindsOwners(op.bindings, o, d, context) && RefersToGroup(op, o, context)
    requires o.companyGroupId.Some? && !GroupKnown(context, o.companyGroupId.value) ==>
               var id := "group:" + Decimal(o.companyGroupId.value);
               id in byId && IsKind(context.structure.entityTypes, byId[id], GroupKind)
    ensures IsGroupNode(LeadGroup(byId, context.structure, op), o, context)
  {
    var f := context.structure.entityFields.lead;
    GroupSource(op.bindings, o, d, context);
    if o.companyGroupId.Some? && GroupKnown(context, o.companyGroupId.value) {
      var groups := context.existing.companyGroups;
      var i :| 0 <= i < |groups| && groups[i].sourceId == o.companyGroupId.value
               && Get(op.command.fields, f.companyGroupBitrixId) == Some(JInt(groups[i].crmId));
      assert groups[i] in groups;
    }
  }

  // ----- where the operations of a plan stand -----

  ghost predicate Placed(parents: Parents, plan: seq<PlannedOperation>, structure: CrmStructure, op: PlannedOperation) {
    BranchPlaced(parents, ById(plan), structure, op) && LeadPlaced(parents, ById(plan), structure, op)
  }

  /** The validator has seen that a bound producer exists and creates what the field refers to. */
  lemma {:induction false} ProducerIndexed(structure: CrmStructure, plan: seq<PlannedOperation>, op: PlannedOperation,
      k: nat)
    requires Accepted(structure, plan) && op in plan && k < |op.bindings|
    ensures op.bindings[k].source in ById(plan)
    ensures SourceTyped(structure, op, op.bindings[k].field, ById(plan)[op.bindings[k].source])
  {
    ByIdMeaning(plan);
    var i :| 0 <= i < |plan| && plan[i] == op;
    assert OperationBindingsAccepted(structure, plan, plan[i]);
    assert BindingAccepted(structure, plan, op, k);
  }

  lemma {:induction false} RequisiteStands(parents: Parents, plan: seq<PlannedOperation>, op: PlannedOperation,
      d: ExtractedDeveloper, context: CrmContext)
    requires Accepted(context.structure, plan) && op in plan && IsRequisiteOperation(op, d, context)
    requires Placed(parents, plan, context.structure, op)
    ensures StandsUnder(parents, Own("requisite:" + Decimal(d.id)), Own("company:" + Decimal(d.id)))
  {
    ProducerIndexed(context.structure, plan, op, 0);
  }

  lemma {:induction false} AddressStands(parents: Parents, plan: seq<PlannedOperation>, op: PlannedOperation,
      kind: string, typeId: int, text: string, d: ExtractedDeveloper, context: CrmContext)
    requires Accepted(context.structure, plan) && op in plan
    requires IsAddressOperation(op, kind, typeId, text, d, context) && Placed(parents, plan, context.structure, op)
    ensures StandsUnder(parents, Own("address:" + Decimal(d.id) + ":" + kind), Own("requisite:" + Decimal(d.id)))
  {
    ProducerIndexed(context.structure, plan, op, 0);
  }

  /** The producers a lead binds are a company and a group. */
  lemma {:induction false} LeadProducers(plan: seq<PlannedOperation>, op: PlannedOperation, o: ExtractedObject,
      d: ExtractedDeveloper, context: CrmContext)
    requires Accepted(context.structure, plan) && op in plan && BindsOwners(op.bindings, o, d, context)
    requires CreatesItem(op, context.structure.entityTypes.lead)
    requires DistinctNames(LeadNames(context.structure.entityFields.lead))
    ensures !CompanyKnown(context, d.inn) ==>
              var id := "company:" + Decimal(d.id);
              id in ById(plan) && IsKind(context.structure.entityTypes, ById(plan)[id], CompanyKind)
    ensures o.companyGroupId.Some? && !GroupKnown(context, o.companyGroupId.value) ==>
              var id := "group:" + Decimal(o.companyGroupId.value);
              id in ById(plan) && IsKind(context.structure.entityTypes, ById(plan)[id], GroupKind)
  {
    LeadNamesDiffer(context.structure.entityFields.lead);
    if !CompanyKnown(context, d.inn) {
      ProducerIndexed(context.structure, plan, op, 0);
    }
    if o.companyGroupId.Some? && !GroupKnown(context, o.companyGroupId.value) {
      ProducerIndexed(context.structure, plan, op, |op.bindings| - 1);
    }
  }

  lemma {:induction false} LeadOwners(plan: seq<PlannedOperation>, op: PlannedOperation, o: ExtractedObject,
      d: ExtractedDeveloper, context: CrmContext, settings: RegionSettings)
    requires WellFormedContext(context) && Accepted(context.structure, plan) && op in plan
    requires IsLeadOperation(op, o, d, context, settings)
    ensures LeadCompany(ById(plan), context.structure, op).Some?
    ensures IsCompanyNode(LeadCompany(ById(plan), context.structure, op).value, d, context)
    ensures IsGroupNode(LeadGroup(ById(plan), context.structure, op), o, context)
  {
    LeadProducers(plan, op, o, d, context);
    CompanyOf(ById(plan), op, o, d, context);
    GroupOf(ById(plan), op, o, d, context);
  }

  lemma {:induction false} PlacedInGroup(parents: Parents, byId: map<string, PlannedOperation>, structure: CrmStructure,
      op: PlannedOperation)
    requires LeadPlaced(parents, byId, structure, op) && CreatesItem(op, structure.entityTypes.lead)
    requires LeadCompany(byId, structure, op).Some?
    ensures InGroup(parents, Own(op.id), LeadCompany(byId, structure, op).value, LeadGroup(byId, structure, op))
  {
  }

  lemma {:induction false} LeadStands(parents: Parents, plan: seq<PlannedOperation>, op: PlannedOperation,
      o: ExtractedObject, extract: ExtractResult, context: CrmContext, settings: RegionSettings)
    requires WellFormedContext(context) && Accepted(context.structure, plan) && op in plan
    requires IsLeadOfObject(op, o, extract, context, settings) && Placed(parents, plan, context.structure, op)
    ensures LeadInTree(parents, o, extract, context)
  {
    var d :| d in extract.developers && d.id == o.developerId && IsLeadOperation(op, o, d, context, settings);
    LeadOwners(plan, op, o, d, context, settings);
    PlacedInGroup(parents, ById(plan), context.structure, op);
  }

  // ----- the theorem -----

  /** The operation of what is to be created, among those of the plan. */
  lemma {:induction false} OperationFor(item: PlanItem, plan: seq<PlannedOperation>, extract: ExtractResult,
      context: CrmContext, settings: RegionSettings) returns (op: PlannedOperation)
    requires CreatesAll(plan, extract, context, settings) && ToCreate(item, extract, context)
    ensures op in plan && IsOperationOf(op, item, extract, context, settings)
  {
    assert IsMet(item, plan, extract, context, settings);
    op :| op in plan && IsOperationOf(op, item, extract, context, settings);
  }

  lemma {:induction false} DeveloperStands(parents: Parents, plan: seq<PlannedOperation>, extract: ExtractResult,
      context: CrmContext, settings: RegionSettings, d: ExtractedDeveloper)
    requires CreatesAll(plan, extract, context, settings) && Accepted(context.structure, plan)
    requires forall op <- plan :: Placed(parents, plan, context.structure, op)
    requires IsCreated(d, extract, context)
    ensures BranchOfDeveloper(parents, d)
  {
    var id, types := Decimal(d.id), context.references.addressTypes;
    assert StandsUnder(parents, Own("requisite:" + id), Own("company:" + id)) by {
      var op := OperationFor(RequisiteItem(d), plan, extract, context, settings);
      RequisiteStands(parents, plan, op, d, context);
    }
    assert StandsUnder(parents, Own("address:" + id + ":" + "actual"), Own("requisite:" + id)) by {
      var op := OperationFor(ActualAddressItem(d), plan, extract, context, settings);
      AddressStands(parents, plan, op, "actual", types.actual, d.factAddress, d, context);
    }
    assert StandsUnder(parents, Own("address:" + id + ":" + "legal"), Own("requisite:" + id)) by {
      var op := OperationFor(LegalAddressItem(d), plan, extract, context, settings);
      AddressStands(parents, plan, op, "legal", types.legal, d.legalAddress, d, context);
    }
    assert "address:" + id + ":actual" == "address:" + id + ":" + "actual";
    assert "address:" + id + ":legal" == "address:" + id + ":" + "legal";
  }

  /**
   * In the tree of a compiled plan every created company has its requisite under it and both addresses under that,
   * and every new lead stands in its own group: under its own company, or under the group's reference to it.
   */
  lemma {:induction false} CompiledTree(parents: Parents, extract: ExtractResult, context: CrmContext,
      settings: RegionSettings)
    requires WellFormedContext(context) && Transform(extract, context, settings).Ok?
    requires var plan := Transform(extract, context, settings).value;
             forall op <- plan :: Placed(parents, plan, context.structure, op)
    ensures forall d :: IsCreated(d, extract, context) ==> BranchOfDeveloper(parents, d)
    ensures forall o :: IsNew(o, extract, context) ==> LeadInTree(parents, o, extract, context)
  {
    var plan := Transform(extract, context, settings).value;
    PlanMeaning(extract, context, settings);
    CompiledPlanAccepted(extract, context, settings);
    forall d | IsCreated(d, extract, context)
      ensures BranchOfDeveloper(parents, d)
    {
      DeveloperStands(parents, plan, extract, context, settings, d);
    }
    forall o | IsNew(o, extract, context)
      ensures LeadInTree(parents, o, extract, context)
    {
      var op := OperationFor(LeadItem(o), plan, extract, context, settings);
      LeadStands(parents, plan, op, o, extract, context, settings);
    }
  }
}
