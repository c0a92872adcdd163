/** Every plan the transformer builds for a well-formed context is accepted by the validator. */
module CompiledPlans {
  import opened Wrappers
  import opened Text
  import opened Json
  import opened Contracts
  import opened OperationIds
  import opened Transformer
  import opened Indexing
  import opened Selection
  import opened PlanValidator

  // ----- what an item refers to -----

  /** The operations an item's bindings take ids from. */
  function BindingKeys(item: PlanItem, indexes: Indexes): seq<OperationKey>
    requires Plannable(item, indexes)
  {
    match item
    case GroupItem(_) => []
    case CompanyItem(_) => []
    case RequisiteItem(d) => [Company(d.id)]
    case ActualAddressItem(d) => [Requisite(d.id)]
    case LegalAddressItem(d) => [Requisite(d.id)]
    case LeadItem(o) =>
      var developer := indexes.developers[o.developerId];
      (if NeedsCompany(developer, indexes) then [Company(developer.id)] else [])
      + (if NeedsGroup(o, indexes) then [Group(o.companyGroupId.value)] else [])
  }

  /** The operations an item waits for without using their result. */
  function DependencyKeys(item: PlanItem, indexes: Indexes): seq<OperationKey>
    requires Plannable(item, indexes)
  {
    if item.LeadItem? && NeedsCompany(indexes.developers[item.object_.developerId], indexes) then
      var d := indexes.developers[item.object_.developerId].id;
      [Requisite(d), ActualAddress(d), LegalAddress(d)]
    else []
  }

  lemma {:induction false} OperationReferences(item: PlanItem, indexes: Indexes, context: CrmContext,
      settings: RegionSettings)
    requires ManagersKnown(settings, indexes) && Plannable(item, indexes)
    ensures var op := OperationOf(item, indexes, context, settings);
            && |op.bindings| == |BindingKeys(item, indexes)|
            && (forall k :: 0 <= k < |op.bindings| ==> op.bindings[k].source == Render(BindingKeys(item, indexes)[k]))
            && |op.dependencies| == |DependencyKeys(item, indexes)|
            && (forall k :: 0 <= k < |op.dependencies| ==>
                  op.dependencies[k] == Render(DependencyKeys(item, indexes)[k]))
  {
  }

  // ----- items stand in order and are distinct -----

  ghost predicate Stands(key: OperationKey, items: seq<PlanItem>) {
    exists j :: 0 <= j < |items| && Key(items[j]) == key
  }

  ghost predicate ItemsOrdered(items: seq<PlanItem>, indexes: Indexes)
    requires AllPlannable(items, indexes)
  {
    forall i :: 0 <= i < |items| ==> ReferencesStand(items[i], items[..i], indexes)
  }

  lemma {:induction false} StandsIfMember(item: PlanItem, items: seq<PlanItem>)
    requires item in items
    ensures Stands(Key(item), items)
  {
  }

  /** The references of an item all stand among `earlier`. */
  ghost predicate ReferencesStand(item: PlanItem, earlier: seq<PlanItem>, indexes: Indexes)
    requires Plannable(item, indexes)
  {
    forall key :: key in BindingKeys(item, indexes) + DependencyKeys(item, indexes) ==> Stands(key, earlier)
  }

  lemma {:induction false} OrderedConcat(a: seq<PlanItem>, b: seq<PlanItem>, indexes: Indexes)
    requires AllPlannable(a + b, indexes) && AllPlannable(a, indexes) && ItemsOrdered(a, indexes)
    requires AllPlannable(b, indexes)
    requires forall i :: 0 <= i < |b| ==> ReferencesStand(b[i], a + b[..i], indexes)
    ensures ItemsOrdered(a + b, indexes)
  {
    forall i | 0 <= i < |a + b|
      ensures ReferencesStand((a + b)[i], (a + b)[..i], indexes)
    {
      if i < |a| {
        assert (a + b)[..i] == a[..i];
      } else {
        assert (a + b)[..i] == a + b[..i - |a|];
        assert (a + b)[i] == b[i - |a|];
      }
    }
  }

  // Groups, then developers, then leads; ascending source ids within a phase; a developer's four operations in turn.

  function Phase(key: OperationKey): nat {
    if key.Group? then 0 else if key.Lead? then 2 else 1
  }

  function Turn(key: OperationKey): nat {
    match key
    case Requisite(_) => 1
    case ActualAddress(_) => 2
    case LegalAddress(_) => 3
    case _ => 0
  }

  predicate Before(a: OperationKey, b: OperationKey) {
    || Phase(a) < Phase(b)
    || (Phase(a) == Phase(b) && Number(a) < Number(b))
    || (Phase(a) == Phase(b) && Number(a) == Number(b) && Turn(a) < Turn(b))
  }

  ghost predicate AscendingItems(items: seq<PlanItem>) {
    forall i, j :: 0 <= i < j < |items| ==> Before(Key(items[i]), Key(items[j]))
  }

  lemma {:induction false} AscendingConcat(a: seq<PlanItem>, b: seq<PlanItem>)
    requires AscendingItems(a) && AscendingItems(b)
    requires forall x, y :: x in a && y in b ==> Before(Key(x), Key(y))
    ensures AscendingItems(a + b)
  {
  }

  lemma {:induction false} GroupItemsAscend(groups: seq<ExtractedCompanyGroup>, indexes: Indexes)
    requires AscendingGroups(groups)
    ensures AscendingItems(GroupItems(groups, indexes))
  {
    if groups != [] {
      var head, last := groups[..|groups| - 1], groups[|groups| - 1];
      GroupItemsAscend(head, indexes);
      GroupItemsAreGroups(head, indexes);
      if last.id !in indexes.existingGroups {
        AscendingConcat(GroupItems(head, indexes), [GroupItem(last)]);
      }
    }
  }

  lemma {:induction false} BlockAscends(d: ExtractedDeveloper)
    ensures AscendingItems(DeveloperBlock(d))
    ensures forall item :: item in DeveloperBlock(d) ==> Phase(Key(item)) == 1 && Number(Key(item)) == d.id
  {
  }

  lemma {:induction false} DeveloperItemsAscend(developers: seq<ExtractedDeveloper>, indexes: Indexes)
    requires AscendingDevelopers(developers)
    ensures AscendingItems(DeveloperItems(developers, indexes))
  {
    if developers != [] {
      var head, last := developers[..|developers| - 1], developers[|developers| - 1];
      DeveloperItemsAscend(head, indexes);
      DeveloperItemsAreBlocks(head, indexes);
      assert forall d :: d in head ==> d.id < last.id;
      if NeedsCompany(last, indexes) {
        BlockAscends(last);
        AscendingConcat(DeveloperItems(head, indexes), DeveloperBlock(last));
      }
    }
  }

  lemma {:induction false} BlockReferencesStand(before: seq<PlanItem>, d: ExtractedDeveloper, i: nat, indexes: Indexes)
    requires i < 4
    ensures ReferencesStand(DeveloperBlock(d)[i], before + DeveloperBlock(d)[..i], indexes)
  {
    var block := DeveloperBlock(d);
    var earlier := before + block[..i];
    if i > 0 {
      assert earlier[|before|] == block[0] == CompanyItem(d);
    }
    if i > 1 {
      assert earlier[|before| + 1] == block[1] == RequisiteItem(d);
    }
  }

  lemma {:induction false} DeveloperItemsOrdered(developers: seq<ExtractedDeveloper>, indexes: Indexes)
    ensures AllPlannable(DeveloperItems(developers, indexes), indexes)
    ensures ItemsOrdered(DeveloperItems(developers, indexes), indexes)
  {
    if developers != [] {
      var head, last := developers[..|developers| - 1], developers[|developers| - 1];
      var before := DeveloperItems(head, indexes);
      DeveloperItemsOrdered(head, indexes);
      if NeedsCompany(last, indexes) {
        forall i | 0 <= i < |DeveloperBlock(last)|
          ensures ReferencesStand(DeveloperBlock(last)[i], before + DeveloperBlock(last)[..i], indexes)
        {
          BlockReferencesStand(before, last, i, indexes);
        }
        OrderedConcat(before, DeveloperBlock(last), indexes);
      } else {
        assert DeveloperItems(developers, indexes) == before;
      }
    }
  }

  lemma {:induction false} StandsAfter(items: seq<PlanItem>, prefix: seq<PlanItem>, indexes: Indexes)
    requires AllPlannable(items, indexes) && ItemsOrdered(items, indexes)
    ensures forall i :: 0 <= i < |items| ==> ReferencesStand(items[i], prefix + items[..i], indexes)
  {
    forall i, key | 0 <= i < |items| && key in BindingKeys(items[i], indexes) + DependencyKeys(items[i], indexes)
      ensures Stands(key, prefix + items[..i])
    {
      assert ReferencesStand(items[i], items[..i], indexes);
      var j :| 0 <= j < |items[..i]| && Key(items[..i][j]) == key;
      assert (prefix + items[..i])[|prefix| + j] == items[..i][j];
    }
  }

  lemma {:induction false} GroupItemsOrdered(groups: seq<ExtractedCompanyGroup>, indexes: Indexes)
    ensures AllPlannable(GroupItems(groups, indexes), indexes)
    ensures ItemsOrdered(GroupItems(groups, indexes), indexes)
  {
    var gs := GroupItems(groups, indexes);
    GroupItemsAreGroups(groups, indexes);
    assert forall i :: 0 <= i < |gs| ==> gs[i] in gs;
  }

  lemma {:induction false} LeadReferencesStand(draft: Draft, o: ExtractedObject, more: seq<PlanItem>)
    requires Covers(draft) && o in draft.objects && Plannable(LeadItem(o), draft.indexes)
    ensures ReferencesStand(LeadItem(o), GroupItems(draft.groups, draft.indexes)
                                         + DeveloperItems(draft.developers, draft.indexes) + more, draft.indexes)
  {
    var indexes := draft.indexes;
    var owners := GroupItems(draft.groups, indexes) + DeveloperItems(draft.developers, indexes);
    GroupItemsAreGroups(draft.groups, indexes);
    DeveloperItemsAreBlocks(draft.developers, indexes);
    var developer := indexes.developers[o.developerId];
    forall key | key in BindingKeys(LeadItem(o), indexes) + DependencyKeys(LeadItem(o), indexes)
      ensures Stands(key, owners + more)
    {
      var item := match key
        case Group(_) => GroupItem(indexes.groups[o.companyGroupId.value])
        case Company(_) => CompanyItem(developer)
        case Requisite(_) => RequisiteItem(developer)
        case ActualAddress(_) => ActualAddressItem(developer)
        case _ => LegalAddressItem(developer);
      assert item in owners + more;
      StandsIfMember(item, owners + more);
    }
  }

  /** Groups first, then each developer's block, then the leads: every reference points backwards. */
  lemma {:induction false} DraftOrdered(draft: Draft)
    requires Covers(draft) && AllPlannable(Items(draft), draft.indexes)
    ensures ItemsOrdered(Items(draft), draft.indexes)
  {
    var indexes := draft.indexes;
    var gs, ds := GroupItems(draft.groups, indexes), DeveloperItems(draft.developers, indexes);
    var ls := LeadItems(draft.objects);
    GroupItemsOrdered(draft.groups, indexes);
    DeveloperItemsOrdered(draft.developers, indexes);
    StandsAfter(ds, gs, indexes);
    OrderedConcat(gs, ds, indexes);
    LeadsPlannable(draft);
    forall i | 0 <= i < |ls|
      ensures ReferencesStand(ls[i], gs + ds + ls[..i], indexes)
    {
      LeadReferencesStand(draft, draft.objects[i], ls[..i]);
    }
    OrderedConcat(gs + ds, ls, indexes);
  }

  lemma {:induction false} LeadItemsAscend(objects: seq<ExtractedObject>)
    requires AscendingObjects(objects)
    ensures AscendingItems(LeadItems(objects))
  {
  }

  /** The plan is sorted by phase, source id and turn. */
  lemma {:induction false} DraftAscends(draft: Draft)
    requires AscendingGroups(draft.groups) && AscendingDevelopers(draft.developers) && AscendingObjects(draft.objects)
    ensures AscendingItems(Items(draft))
  {
    var gs, ds := GroupItems(draft.groups, draft.indexes), DeveloperItems(draft.developers, draft.indexes);
    var ls := LeadItems(draft.objects);
    GroupItemsAscend(draft.groups, draft.indexes);
    GroupItemsAreGroups(draft.groups, draft.indexes);
    DeveloperItemsAscend(draft.developers, draft.indexes);
    DeveloperItemsAreBlocks(draft.developers, draft.indexes);
    LeadItemsAscend(draft.objects);
    assert forall x :: x in gs ==> Phase(Key(x)) == 0;
    assert forall y :: y in ds ==> Phase(Key(y)) == 1;
    assert forall z :: z in ls ==> Phase(Key(z)) == 2;
    AscendingConcat(gs, ds);
    assert forall x :: x in gs + ds ==> x in gs || x in ds;
    AscendingConcat(gs + ds, ls);
  }

  // ----- single commands -----

  function BaseNames(f: LeadFields): set<string> {
    {f.sourceBuildingId, f.title, f.address, f.publicationDate, f.commissioningPeriod, f.buildingType, f.sourceId,
     f.assignedById}
  }

  lemma {:induction false} LeadNamesDiffer(f: LeadFields)
    requires DistinctNames(LeadNames(f))
    ensures forall name :: name in LeadNames(f) ==> HasText(name)
    ensures f.companyId != f.companyGroupBitrixId
    ensures f.companyId !in BaseNames(f) && f.companyGroupBitrixId !in BaseNames(f)
  {
    var n := LeadNames(f);
    assert n[0] == f.sourceBuildingId && n[1] == f.address && n[2] == f.publicationDate && n[3] == f.buildingType;
    assert n[4] == f.commissioningPeriod && n[5] == f.companyGroupBitrixId && n[6] == f.title;
    assert n[7] == f.assignedById && n[8] == f.companyId && n[9] == f.sourceId;
  }

  lemma {:induction false} BasePayloadKeys(o: ExtractedObject, indexes: Indexes, context: CrmContext,
      settings: RegionSettings)
    requires ManagersKnown(settings, indexes)
    ensures var f := context.structure.entityFields.lead;
            LeadBasePayload(o, indexes, context, settings).Keys == BaseNames(f)
  {
  }

  /** The reference fields of a lead: literal exactly when the owner already exists in the CRM. */
  lemma {:induction false} LeadPayloadMeaning(o: ExtractedObject, developer: ExtractedDeveloper, indexes: Indexes,
      context: CrmContext, settings: RegionSettings)
    requires ManagersKnown(settings, indexes) && WellFormedContext(context)
    ensures var f := context.structure.entityFields.lead;
            var payload := LeadPayload(o, developer, indexes, context, settings);
            && (forall name :: name in payload ==> HasText(name))
            && Get(payload, f.companyId) == KnownReference(developer.inn, indexes.inns)
            && Get(payload, f.companyGroupBitrixId) == GroupReference(o, indexes)
  {
    var f := context.structure.entityFields.lead;
    LeadNamesDiffer(f);
    BasePayloadKeys(o, indexes, context, settings);
    var base := LeadBasePayload(o, indexes, context, settings);
    assert forall name :: name in base.Keys ==> name in LeadNames(f);
    assert f.companyId in LeadNames(f) && f.companyGroupBitrixId in LeadNames(f);
    WithReferenceMeaning(base, f.companyId, KnownReference(developer.inn, indexes.inns));
    var owned := WithReference(base, f.companyId, KnownReference(developer.inn, indexes.inns));
    WithReferenceMeaning(owned, f.companyGroupBitrixId, GroupReference(o, indexes));
  }

  lemma {:induction false} WithReferenceMeaning(payload: Fields, field: string, reference: Option<Json>)
    requires field !in payload
    ensures Get(WithReference(payload, field, reference), field) == reference
    ensures forall name :: name != field ==> Get(WithReference(payload, field, reference), name) == Get(payload, name)
    ensures WithReference(payload, field, reference).Keys <= payload.Keys + {field}
  {
  }

  /** The existing ids an index hands out are positive, as in a well-formed context. */
  ghost predicate PositiveReferences(indexes: Indexes) {
    && (forall k :: k in indexes.inns ==> indexes.inns[k] > 0)
    && (forall k :: k in indexes.existingGroups ==> indexes.existingGroups[k] > 0)
  }

  lemma {:induction false} CountBindingsConcat(a: seq<RuntimeBinding>, b: seq<RuntimeBinding>, field: string)
    ensures CountBindings(a + b, field) == CountBindings(a, field) + CountBindings(b, field)
  {
    if a == [] {
      assert a + b == b;
    } else {
      CountBindingsConcat(a[1..], b, field);
      assert (a + b)[1..] == a[1..] + b;
    }
  }

  lemma {:induction false} LeadBindingCounts(o: ExtractedObject, developer: ExtractedDeveloper, indexes: Indexes,
      context: CrmContext)
    requires WellFormedContext(context)
    ensures var f, bindings := context.structure.entityFields.lead, LeadBindings(o, developer, indexes, context);
            && CountBindings(bindings, f.companyId) == (if NeedsCompany(developer, indexes) then 1 else 0)
            && CountBindings(bindings, f.companyGroupBitrixId) == (if NeedsGroup(o, indexes) then 1 else 0)
            && (BindsField(bindings, f.companyGroupBitrixId) ==> NeedsGroup(o, indexes))
  {
    var f := context.structure.entityFields.lead;
    LeadNamesDiffer(f);
    var company :=
      if NeedsCompany(developer, indexes) then [RuntimeBinding(f.companyId, Render(Company(developer.id)))] else [];
    var group := if NeedsGroup(o, indexes)
                 then [RuntimeBinding(f.companyGroupBitrixId, Render(Group(o.companyGroupId.value)))] else [];
    assert LeadBindings(o, developer, indexes, context) == company + group;
    CountBindingsConcat(company, group, f.companyId);
    CountBindingsConcat(company, group, f.companyGroupBitrixId);
  }

  lemma {:induction false} LeadAccepted(o: ExtractedObject, indexes: Indexes, context: CrmContext,
      settings: RegionSettings)
    requires ManagersKnown(settings, indexes) && WellFormedContext(context) && PositiveReferences(indexes)
    requires Plannable(LeadItem(o), indexes)
    ensures CommandAccepted(context.structure, OperationOf(LeadItem(o), indexes, context, settings))
  {
    var developer := indexes.developers[o.developerId];
    var op := OperationOf(LeadItem(o), indexes, context, settings);
    LeadPayloadMeaning(o, developer, indexes, context, settings);
    LeadBindingCounts(o, developer, indexes, context);
    LeadCommandAccepted(op, developer, o, indexes, context);
  }

  lemma {:induction false} LeadCommandAccepted(op: PlannedOperation, developer: ExtractedDeveloper, o: ExtractedObject,
      indexes: Indexes, context: CrmContext)
    requires WellFormedContext(context) && PositiveReferences(indexes)
    requires op.command.AddItem? && op.command.entityTypeId == context.structure.entityTypes.lead
    requires forall name :: name in op.command.fields ==> HasText(name)
    requires var f := context.structure.entityFields.lead;
             && Get(op.command.fields, f.companyId) == KnownReference(developer.inn, indexes.inns)
             && Get(op.command.fields, f.companyGroupBitrixId) == GroupReference(o, indexes)
             && CountBindings(op.bindings, f.companyId) == (if NeedsCompany(developer, indexes) then 1 else 0)
             && CountBindings(op.bindings, f.companyGroupBitrixId) == (if NeedsGroup(o, indexes) then 1 else 0)
             && (BindsField(op.bindings, f.companyGroupBitrixId) ==> NeedsGroup(o, indexes))
    ensures CommandAccepted(context.structure, op)
  {
    NoBindingToCount(op.bindings, context.structure.entityFields.lead.companyId);
    NoBindingToCount(op.bindings, context.structure.entityFields.lead.companyGroupBitrixId);
  }

  lemma {:induction false} GroupAccepted(g: ExtractedCompanyGroup, indexes: Indexes, context: CrmContext,
      settings: RegionSettings)
    requires ManagersKnown(settings, indexes) && WellFormedContext(context)
    ensures CommandAccepted(context.structure, GroupOperation(g, indexes, context, settings))
  {
    var f := context.structure.entityFields.companyGroup;
    var names := [f.sourceCompanyGroupId, f.title, f.sourceId, f.assignedById];
    assert forall name :: name in GroupOperation(g, indexes, context, settings).command.fields ==> name in names;
    assert DistinctNames(names);
  }

  lemma {:induction false} CompanyAccepted(d: ExtractedDeveloper, indexes: Indexes, context: CrmContext,
      settings: RegionSettings)
    requires ManagersKnown(settings, indexes) && WellFormedContext(context)
    ensures CommandAccepted(context.structure, CompanyOperation(d, indexes, context, settings))
  {
    var f := context.structure.entityFields.developer;
    var names := [f.contactName, f.title, f.assignedById, f.companyType, f.industry, f.multifield];
    assert forall name :: name in CompanyOperation(d, indexes, context, settings).command.fields ==> name in names;
    assert DistinctNames(names);
  }

  lemma {:induction false} RequisitePayloadMeaning(d: ExtractedDeveloper, context: CrmContext)
    requires WellFormedContext(context)
    ensures var f, payload := context.structure.entityFields.requisite, RequisitePayload(d, context);
            && (forall name :: name in payload ==> HasText(name))
            && f.entityIdToBind !in payload
            && Get(payload, f.entityTypeId) == Some(JInt(context.structure.entityTypes.company))
            && Get(payload, f.presetId) == Some(JInt(context.references.organizationRequisitePresetId))
  {
    var f := context.structure.entityFields.requisite;
    RequisiteNamesDiffer(f);
    assert RequisitePayload(d, context).Keys == {f.entityTypeId, f.presetId} + DetailNames(f);
    assert forall name :: name in RequisitePayload(d, context) ==> name in RequisiteNames(f);
  }

  function DetailNames(f: RequisiteFields): set<string> {
    {f.cardName, f.detailsName, f.fullName, f.inn, f.kpp, f.ogrn}
  }

  lemma {:induction false} RequisiteNamesDiffer(f: RequisiteFields)
    requires DistinctNames(RequisiteNames(f))
    ensures forall name :: name in RequisiteNames(f) ==> HasText(name)
    ensures f.entityTypeId != f.presetId && f.entityIdToBind != f.entityTypeId && f.entityIdToBind != f.presetId
    ensures f.entityTypeId !in DetailNames(f) && f.presetId !in DetailNames(f) && f.entityIdToBind !in DetailNames(f)
  {
    var n := RequisiteNames(f);
    assert n[0] == f.entityTypeId && n[1] == f.entityIdToBind && n[2] == f.presetId && n[3] == f.cardName;
    assert n[4] == f.detailsName && n[5] == f.fullName && n[6] == f.inn && n[7] == f.kpp && n[8] == f.ogrn;
  }

  lemma {:induction false} AddressPayloadMeaning(typeId: int, text: string, context: CrmContext)
    requires WellFormedContext(context)
    ensures var f, payload := context.structure.entityFields.address, AddressPayload(typeId, text, context);
            && (forall name :: name in payload ==> HasText(name))
            && f.entityIdToBind !in payload
            && Get(payload, f.addressTypeId) == Some(JInt(typeId))
            && Get(payload, f.entityTypeIdToBind) == Some(JInt(context.structure.entityTypes.requisite))
  {
    var f := context.structure.entityFields.address;
    var n := AddressNames(f);
    assert n[0] == f.addressTypeId && n[1] == f.entityTypeIdToBind && n[2] == f.entityIdToBind && n[3] == f.address;
    assert DistinctNames(n);
    assert forall name :: name in AddressPayload(typeId, text, context) ==> name in n;
  }

  lemma {:induction false} CommandOfItemAccepted(item: PlanItem, indexes: Indexes, context: CrmContext,
      settings: RegionSettings)
    requires ManagersKnown(settings, indexes) && WellFormedContext(context) && PositiveReferences(indexes)
    requires Plannable(item, indexes)
    ensures CommandAccepted(context.structure, OperationOf(item, indexes, context, settings))
  {
    var types := context.references.addressTypes;
    match item
    case GroupItem(g) => GroupAccepted(g, indexes, context, settings);
    case CompanyItem(d) => CompanyAccepted(d, indexes, context, settings);
    case RequisiteItem(d) => RequisiteAccepted(d, context);
    case ActualAddressItem(d) => AddressAccepted(Render(Key(item)), types.actual, d.factAddress, d, context);
    case LegalAddressItem(d) => AddressAccepted(Render(Key(item)), types.legal, d.legalAddress, d, context);
    case LeadItem(o) => LeadAccepted(o, indexes, context, settings);
  }

  lemma {:induction false} RequisiteAccepted(d: ExtractedDeveloper, context: CrmContext)
    requires WellFormedContext(context)
    ensures CommandAccepted(context.structure, RequisiteOperation(d, context))
  {
    RequisitePayloadMeaning(d, context);
    assert RequisiteOperation(d, context).bindings[1..] == [];
  }

  lemma {:induction false} AddressAccepted(id: string, typeId: int, text: string, d: ExtractedDeveloper,
      context: CrmContext)
    requires WellFormedContext(context) && typeId > 0
    ensures CommandAccepted(context.structure, AddressOperation(id, typeId, text, d, context))
  {
    AddressPayloadMeaning(typeId, text, context);
    assert AddressOperation(id, typeId, text, d, context).bindings[1..] == [];
  }

  // ----- bindings, dependencies and order of a whole plan -----

  /** What one binding of an item must satisfy, given the operation it refers to. */
  lemma {:induction false} BindingOfItemTyped(item: PlanItem, k: nat, producer: PlanItem, indexes: Indexes,
      context: CrmContext, settings: RegionSettings)
    requires ManagersKnown(settings, indexes) && WellFormedContext(context)
    requires Plannable(item, indexes) && Plannable(producer, indexes)
    requires k < |BindingKeys(item, indexes)| && Key(producer) == BindingKeys(item, indexes)[k]
    ensures var op := OperationOf(item, indexes, context, settings);
            && k < |op.bindings|
            && SourceTyped(context.structure, op, op.bindings[k].field,
                           OperationOf(producer, indexes, context, settings))
            && !OperationOf(producer, indexes, context, settings).command.AddAddress?
  {
    OperationReferences(item, indexes, context, settings);
    if item.LeadItem? {
      LeadNamesDiffer(context.structure.entityFields.lead);
    }
  }

  lemma {:induction false} BindingFieldsDistinct(item: PlanItem, indexes: Indexes, context: CrmContext,
      settings: RegionSettings)
    requires ManagersKnown(settings, indexes) && WellFormedContext(context) && Plannable(item, indexes)
    ensures var op := OperationOf(item, indexes, context, settings);
            forall k :: 0 <= k < |op.bindings| ==>
              && HasText(op.bindings[k].field)
              && op.bindings[k].field !in op.command.fields
              && forall m :: 0 <= m < k ==> op.bindings[m].field != op.bindings[k].field
  {
    var fields := context.structure.entityFields;
    match item
    case GroupItem(_) =>
    case CompanyItem(_) =>
    case RequisiteItem(d) =>
      RequisitePayloadMeaning(d, context);
      assert RequisiteNames(fields.requisite)[1] == fields.requisite.entityIdToBind;
    case ActualAddressItem(d) =>
      AddressPayloadMeaning(context.references.addressTypes.actual, d.factAddress, context);
      assert AddressNames(fields.address)[2] == fields.address.entityIdToBind;
    case LegalAddressItem(d) =>
      AddressPayloadMeaning(context.references.addressTypes.legal, d.legalAddress, context);
      assert AddressNames(fields.address)[2] == fields.address.entityIdToBind;
    case LeadItem(o) =>
      LeadBindingFields(o, indexes.developers[o.developerId], indexes, context, settings);
  }

  lemma {:induction false} LeadBindingFields(o: ExtractedObject, developer: ExtractedDeveloper, indexes: Indexes,
      context: CrmContext, settings: RegionSettings)
    requires ManagersKnown(settings, indexes) && WellFormedContext(context)
    ensures var bindings := LeadBindings(o, developer, indexes, context);
            forall k :: 0 <= k < |bindings| ==>
              && HasText(bindings[k].field)
              && bindings[k].field !in LeadPayload(o, developer, indexes, context, settings)
              && forall m :: 0 <= m < k ==> bindings[m].field != bindings[k].field
  {
    var f := context.structure.entityFields.lead;
    LeadNamesDiffer(f);
    LeadPayloadMeaning(o, developer, indexes, context, settings);
    assert f.companyId == LeadNames(f)[8] && f.companyGroupBitrixId == LeadNames(f)[5];
  }

  lemma {:induction false} OperationsUnique(items: seq<PlanItem>, indexes: Indexes, context: CrmContext,
      settings: RegionSettings)
    requires ManagersKnown(settings, indexes) && AllPlannable(items, indexes) && AscendingItems(items)
    ensures UniqueIds(Operations(items, indexes, context, settings))
  {
    var ops := Operations(items, indexes, context, settings);
    forall i | 0 <= i < |ops|
      ensures HasText(ops[i].id)
    {
      RenderHasText(Key(items[i]));
    }
    forall i, j | 0 <= i < j < |ops|
      ensures ops[i].id != ops[j].id
    {
      if ops[i].id == ops[j].id {
        RenderInjective(Key(items[i]), Key(items[j]));
      }
    }
  }

  /** A key standing among the first `n` items is the id of one of the first `n` operations. */
  lemma {:induction false} StandingIsEarlier(key: OperationKey, items: seq<PlanItem>, n: nat, indexes: Indexes,
      context: CrmContext, settings: RegionSettings)
    requires ManagersKnown(settings, indexes) && AllPlannable(items, indexes) && n <= |items|
    requires Stands(key, items[..n])
    ensures Render(key) in Ids(Operations(items, indexes, context, settings)[..n])
    ensures Render(key) in Ids(Operations(items, indexes, context, settings))
  {
    var ops := Operations(items, indexes, context, settings);
    var j :| 0 <= j < n && Key(items[..n][j]) == key;
    assert ops[..n][j].id == Render(key) && ops[j].id == Render(key);
  }

  lemma {:induction false} OperationsOrdered(items: seq<PlanItem>, indexes: Indexes, context: CrmContext,
      settings: RegionSettings)
    requires ManagersKnown(settings, indexes) && AllPlannable(items, indexes) && ItemsOrdered(items, indexes)
    ensures Ordered(Operations(items, indexes, context, settings))
  {
    var ops := Operations(items, indexes, context, settings);
    forall i, source | 0 <= i < |ops| && source in Sources(ops[i])
      ensures source in Ids(ops[..i])
    {
      OperationReferences(items[i], indexes, context, settings);
      var keys := BindingKeys(items[i], indexes) + DependencyKeys(items[i], indexes);
      var k :| 0 <= k < |Sources(ops[i])| && Sources(ops[i])[k] == source;
      assert source == Render(keys[k]);
      assert keys[k] in keys && ReferencesStand(items[i], items[..i], indexes);
      StandingIsEarlier(keys[k], items, i, indexes, context, settings);
    }
  }

  /** Each binding's producer stands earlier, has the right kind and is never an address. */
  lemma {:induction false} ProducerStands(items: seq<PlanItem>, i: nat, k: nat, indexes: Indexes, context: CrmContext,
      settings: RegionSettings) returns (j: nat)
    requires ManagersKnown(settings, indexes) && WellFormedContext(context)
    requires AllPlannable(items, indexes) && ItemsOrdered(items, indexes)
    requires i < |items| && k < |OperationOf(items[i], indexes, context, settings).bindings|
    ensures var ops := Operations(items, indexes, context, settings);
            && j < i && ops[j].id == ops[i].bindings[k].source
            && SourceTyped(context.structure, ops[i], ops[i].bindings[k].field, ops[j])
            && !ops[j].command.AddAddress?
  {
    OperationReferences(items[i], indexes, context, settings);
    var keys := BindingKeys(items[i], indexes);
    assert keys[k] in keys + DependencyKeys(items[i], indexes) && ReferencesStand(items[i], items[..i], indexes);
    j :| 0 <= j < |items[..i]| && Key(items[..i][j]) == keys[k];
    BindingOfItemTyped(items[i], k, items[j], indexes, context, settings);
  }

  lemma {:induction false} OperationsBindingsAccepted(items: seq<PlanItem>, indexes: Indexes, context: CrmContext,
      settings: RegionSettings)
    requires ManagersKnown(settings, indexes) && WellFormedContext(context)
    requires AllPlannable(items, indexes) && ItemsOrdered(items, indexes)
    ensures BindingsAccepted(context.structure, Operations(items, indexes, context, settings))
  {
    var ops := Operations(items, indexes, context, settings);
    forall i, k | 0 <= i < |ops| && 0 <= k < |ops[i].bindings|
      ensures BindingAccepted(context.structure, ops, ops[i], k)
    {
      BindingFieldsDistinct(items[i], indexes, context, settings);
      var j := ProducerStands(items, i, k, indexes, context, settings);
      RenderHasText(Key(items[j]));
    }
  }

  lemma {:induction false} DependencyKeysDistinct(item: PlanItem, indexes: Indexes)
    requires Plannable(item, indexes)
    ensures var keys := DependencyKeys(item, indexes);
            forall k :: 0 <= k < |keys| ==> keys[k] != Key(item) && forall m :: 0 <= m < k ==> keys[m] != keys[k]
  {
  }

  lemma {:induction false} DependencyAccepted(items: seq<PlanItem>, i: nat, k: nat, indexes: Indexes,
      context: CrmContext, settings: RegionSettings)
    requires ManagersKnown(settings, indexes) && AllPlannable(items, indexes) && ItemsOrdered(items, indexes)
    requires i < |items| && k < |OperationOf(items[i], indexes, context, settings).dependencies|
    ensures var ops := Operations(items, indexes, context, settings);
            && HasText(ops[i].dependencies[k]) && ops[i].dependencies[k] in Ids(ops)
            && ops[i].dependencies[k] != ops[i].id && ops[i].dependencies[k] !in ops[i].dependencies[..k]
  {
    OperationReferences(items[i], indexes, context, settings);
    DependencyKeysDistinct(items[i], indexes);
    var keys := DependencyKeys(items[i], indexes);
    RenderHasText(keys[k]);
    assert keys[k] in BindingKeys(items[i], indexes) + keys && ReferencesStand(items[i], items[..i], indexes);
    StandingIsEarlier(keys[k], items, i, indexes, context, settings);
    if Render(keys[k]) == Render(Key(items[i])) {
      RenderInjective(keys[k], Key(items[i]));
    }
    forall m | 0 <= m < k
      ensures Render(keys[m]) != Render(keys[k])
    {
      if Render(keys[m]) == Render(keys[k]) {
        RenderInjective(keys[m], keys[k]);
      }
    }
  }

  lemma {:induction false} OperationsDependenciesAccepted(items: seq<PlanItem>, indexes: Indexes, context: CrmContext,
      settings: RegionSettings)
    requires ManagersKnown(settings, indexes) && AllPlannable(items, indexes) && ItemsOrdered(items, indexes)
    ensures AllDependenciesAccepted(Operations(items, indexes, context, settings))
  {
    var ops := Operations(items, indexes, context, settings);
    forall i | 0 <= i < |ops|
      ensures DependenciesAccepted(Ids(ops), ops[i])
    {
      forall k | 0 <= k < |ops[i].dependencies|
        ensures HasText(ops[i].dependencies[k]) && ops[i].dependencies[k] in Ids(ops)
        ensures ops[i].dependencies[k] != ops[i].id && ops[i].dependencies[k] !in ops[i].dependencies[..k]
      {
        DependencyAccepted(items, i, k, indexes, context, settings);
      }
    }
  }

  lemma {:induction false} IndexedValuesPositive<K>(entries: seq<(K, int)>, m: map<K, int>)
    requires IndexOf(entries) == Ok(m)
    requires forall i :: 0 <= i < |entries| ==> entries[i].1 > 0
    ensures forall k :: k in m ==> m[k] > 0
  {
    IndexMeaning(entries);
    forall k | k in m
      ensures m[k] > 0
    {
      var i :| 0 <= i < |entries| && entries[i].0 == k;
    }
  }

  lemma {:induction false} PreparedReferencesPositive(extract: ExtractResult, context: CrmContext,
      settings: RegionSettings)
    requires WellFormedContext(context) && Prepare(extract, context, settings).Ok?
    ensures PositiveReferences(Prepare(extract, context, settings).value.indexes)
  {
    PreparedIndexAll(extract, context, settings);
    IndexTables(extract, context);
    IndexedReferencesPositive(context, Prepare(extract, context, settings).value.indexes);
  }

  lemma {:induction false} IndexedReferencesPositive(context: CrmContext, indexes: Indexes)
    requires WellFormedContext(context)
    requires IndexOf(ExistingDeveloperEntries(context.existing.developers)) == Ok(indexes.inns)
    requires IndexOf(ExistingGroupEntries(context.existing.companyGroups)) == Ok(indexes.existingGroups)
    ensures PositiveReferences(indexes)
  {
    var existing := context.existing;
    assert forall i :: 0 <= i < |existing.developers| ==> existing.developers[i] in existing.developers;
    assert forall i :: 0 <= i < |existing.companyGroups| ==> existing.companyGroups[i] in existing.companyGroups;
    IndexedValuesPositive(ExistingDeveloperEntries(existing.developers), indexes.inns);
    IndexedValuesPositive(ExistingGroupEntries(existing.companyGroups), indexes.existingGroups);
  }

  /** No binding takes an id from an address operation, which never has one. */
  ghost predicate NoAddressSource(ops: seq<PlannedOperation>) {
    forall i, k, j |
      0 <= i < |ops| && 0 <= k < |ops[i].bindings| && 0 <= j < |ops| && ops[j].id == ops[i].bindings[k].source
      :: !ops[j].command.AddAddress?
  }

  lemma {:induction false} OperationsTakeNoAddress(items: seq<PlanItem>, indexes: Indexes, context: CrmContext,
      settings: RegionSettings)
    requires ManagersKnown(settings, indexes) && WellFormedContext(context)
    requires AllPlannable(items, indexes) && ItemsOrdered(items, indexes)
    requires UniqueIds(Operations(items, indexes, context, settings))
    ensures NoAddressSource(Operations(items, indexes, context, settings))
  {
    var ops := Operations(items, indexes, context, settings);
    forall i, k, j | 0 <= i < |ops| && 0 <= k < |ops[i].bindings| && 0 <= j < |ops|
                     && ops[j].id == ops[i].bindings[k].source
      ensures !ops[j].command.AddAddress?
    {
      var p := ProducerStands(items, i, k, indexes, context, settings);
      assert p == j by {
        assert ops[p].id == ops[j].id;
      }
    }
  }

  /** The compiler is type-safe: whatever it emits for a well-formed context, all five passes accept. */
  lemma {:induction false} CompiledPlanAccepted(extract: ExtractResult, context: CrmContext, settings: RegionSettings)
    requires WellFormedContext(context) && Transform(extract, context, settings).Ok?
    ensures Accepted(context.structure, Transform(extract, context, settings).value)
    ensures NoAddressSource(Transform(extract, context, settings).value)
  {
    var draft := Prepare(extract, context, settings).value;
    var items := Items(draft);
    PreparedIsPlannable(extract, context, settings);
    PreparedSelects(extract, context, settings);
    SelectedCovers(draft, extract);
    DraftOrdered(draft);
    DraftAscends(draft);
    PreparedReferencesPositive(extract, context, settings);
    OperationsUnique(items, draft.indexes, context, settings);
    forall i | 0 <= i < |items|
      ensures CommandAccepted(context.structure, OperationOf(items[i], draft.indexes, context, settings))
    {
      CommandOfItemAccepted(items[i], draft.indexes, context, settings);
    }
    OperationsBindingsAccepted(items, draft.indexes, context, settings);
    OperationsDependenciesAccepted(items, draft.indexes, context, settings);
    OperationsOrdered(items, draft.indexes, context, settings);
    OperationsTakeNoAddress(items, draft.indexes, context, settings);
  }
}
