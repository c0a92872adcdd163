/**
 * SyncPlanTransformer: compiles extracted data and the CRM index into an ordered plan.
 *
 * The loops of the source are methods, each proved equal to a function below; the properties of a
 * compiled plan are proved about those functions.
 */
module Transformer {
  import opened Wrappers
  import opened Text
  import opened Json
  import opened Contracts
  import opened OperationIds
  import opened Sorting

  datatype TransformError =
    | DuplicateKey
    | MissingDeveloper
    | GroupMismatch
    | ConflictingGroups
    | MissingGroup
    | NoDefaultManager
    | NoRegionManager

  datatype Indexes = Indexes(
    developers: map<int, ExtractedDeveloper>, groups: map<int, ExtractedCompanyGroup>, leads: map<int, int>,
    inns: map<string, int>, existingGroups: map<int, int>, managers: map<string, int>)

  // ----- indexing -----

  /** The dictionary of the entries, refused as soon as a key repeats. */
  function IndexOf<K(==), V>(entries: seq<(K, V)>): Result<map<K, V>, TransformError> {
    if entries == [] then Ok(map[])
    else
      var last := entries[|entries| - 1];
      var head :- IndexOf(entries[..|entries| - 1]);
      if last.0 in head then Err(DuplicateKey) else Ok(head[last.0 := last.1])
  }

  method BuildIndex<K(==), V>(entries: seq<(K, V)>) returns (result: Result<map<K, V>, TransformError>)
    ensures result == IndexOf(entries)
  {
    var index: map<K, V> := map[];
    for i := 0 to |entries|
      invariant IndexOf(entries[..i]) == Ok(index)
    {
      assert entries[..i + 1][..i] == entries[..i];
      if entries[i].0 in index {
        FirstDuplicateFails(entries, i + 1);
        return Err(DuplicateKey);
      }
      index := index[entries[i].0 := entries[i].1];
    }
    assert entries[..|entries|] == entries;
    result := Ok(index);
  }

  lemma {:induction false} FirstDuplicateFails<K, V>(entries: seq<(K, V)>, n: nat)
    requires n <= |entries| && IndexOf(entries[..n]) == Err(DuplicateKey)
    ensures IndexOf(entries) == Err(DuplicateKey)
    decreases |entries| - n
  {
    if n == |entries| {
      assert entries[..n] == entries;
    } else {
      assert entries[..n + 1][..n] == entries[..n];
      FirstDuplicateFails(entries, n + 1);
    }
  }

  function DeveloperEntries(xs: seq<ExtractedDeveloper>): seq<(int, ExtractedDeveloper)> {
    seq(|xs|, i requires 0 <= i < |xs| => (xs[i].id, xs[i]))
  }

  function GroupEntries(xs: seq<ExtractedCompanyGroup>): seq<(int, ExtractedCompanyGroup)> {
    seq(|xs|, i requires 0 <= i < |xs| => (xs[i].id, xs[i]))
  }

  function LeadEntries(xs: seq<ExistingLead>): seq<(int, int)> {
    seq(|xs|, i requires 0 <= i < |xs| => (xs[i].sourceId, xs[i].crmId))
  }

  function ExistingDeveloperEntries(xs: seq<ExistingDeveloper>): seq<(string, int)> {
    seq(|xs|, i requires 0 <= i < |xs| => (xs[i].inn, xs[i].crmId))
  }

  function ExistingGroupEntries(xs: seq<ExistingCompanyGroup>): seq<(int, int)> {
    seq(|xs|, i requires 0 <= i < |xs| => (xs[i].sourceId, xs[i].crmId))
  }

  function ManagerEntries(xs: seq<Employee>): seq<(string, int)> {
    seq(|xs|, i requires 0 <= i < |xs| => (xs[i].configuredName, xs[i].crmId))
  }

  function ObjectEntries(xs: seq<ExtractedObject>): seq<(int, ExtractedObject)> {
    seq(|xs|, i requires 0 <= i < |xs| => (xs[i].id, xs[i]))
  }

  function InnEntries(xs: seq<ExtractedDeveloper>): seq<(string, ExtractedDeveloper)> {
    seq(|xs|, i requires 0 <= i < |xs| => (xs[i].inn, xs[i]))
  }

  function IndexAll(extract: ExtractResult, context: CrmContext): Result<Indexes, TransformError> {
    var developers :- IndexOf(DeveloperEntries(extract.developers));
    var groups :- IndexOf(GroupEntries(extract.companyGroups));
    var leads :- IndexOf(LeadEntries(context.existing.leads));
    var inns :- IndexOf(ExistingDeveloperEntries(context.existing.developers));
    var existingGroups :- IndexOf(ExistingGroupEntries(context.existing.companyGroups));
    var managers :- IndexOf(ManagerEntries(context.managers));
    Ok(Indexes(developers, groups, leads, inns, existingGroups, managers))
  }

  method BuildIndexes(extract: ExtractResult, context: CrmContext) returns (result: Result<Indexes, TransformError>)
    ensures result == IndexAll(extract, context)
  {
    var developers :- BuildIndex(DeveloperEntries(extract.developers));
    var groups :- BuildIndex(GroupEntries(extract.companyGroups));
    var leads :- BuildIndex(LeadEntries(context.existing.leads));
    var inns :- BuildIndex(ExistingDeveloperEntries(context.existing.developers));
    var existingGroups :- BuildIndex(ExistingGroupEntries(context.existing.companyGroups));
    var managers :- BuildIndex(ManagerEntries(context.managers));
    return Ok(Indexes(developers, groups, leads, inns, existingGroups, managers));
  }

  // ----- managers -----

  function RegionManagerName(region: int, settings: RegionSettings): string {
    if region in settings.assignment then settings.assignment[region] else settings.defaultAssignedByName
  }

  function ResolveDefaultManager(settings: RegionSettings, indexes: Indexes): Result<int, TransformError> {
    if settings.defaultAssignedByName in indexes.managers then Ok(indexes.managers[settings.defaultAssignedByName])
    else Err(NoDefaultManager)
  }

  function ResolveRegionManager(region: int, settings: RegionSettings, indexes: Indexes): Result<int, TransformError> {
    var name := RegionManagerName(region, settings);
    if name in indexes.managers then Ok(indexes.managers[name]) else Err(NoRegionManager)
  }

  /** Both resolvers succeed for every region: what the checks before planning establish. */
  ghost predicate ManagersKnown(settings: RegionSettings, indexes: Indexes) {
    && ResolveDefaultManager(settings, indexes).Ok?
    && forall region :: region in settings.assignment ==> ResolveRegionManager(region, settings, indexes).Ok?
  }

  function CheckManagers(settings: RegionSettings, indexes: Indexes): (r: Result<(), TransformError>)
    ensures r.Ok? <==> ManagersKnown(settings, indexes)
  {
    var _ :- ResolveDefaultManager(settings, indexes);
    if exists region | region in settings.assignment :: ResolveRegionManager(region, settings, indexes).Err?
    then Err(NoRegionManager) else Ok(())
  }

  // ----- selection -----

  function Lookup<V>(index: map<int, V>, keys: seq<int>): (values: seq<V>)
    requires forall i :: 0 <= i < |keys| ==> keys[i] in index
    ensures |values| == |keys|
    ensures forall i :: 0 <= i < |keys| ==> values[i] == index[keys[i]]
  {
    seq(|keys|, i requires 0 <= i < |keys| => index[keys[i]])
  }

  /** The objects without a lead, by ascending source id. */
  function SelectNewObjects(objects: seq<ExtractedObject>, indexes: Indexes)
    : Result<seq<ExtractedObject>, TransformError>
  {
    var unique :- IndexOf(ObjectEntries(objects));
    Ok(Lookup(unique, Sorted(unique.Keys - indexes.leads.Keys)))
  }

  function DeveloperIds(objects: seq<ExtractedObject>): set<int> {
    set o | o in objects :: o.developerId
  }

  function CollectRequiredDevelopers(objects: seq<ExtractedObject>, indexes: Indexes)
    : Result<seq<ExtractedDeveloper>, TransformError>
  {
    var required := DeveloperIds(objects);
    if !(required <= indexes.developers.Keys) then Err(MissingDeveloper) else
      var developers := Lookup(indexes.developers, Sorted(required));
      var _ :- IndexOf(InnEntries(developers));
      Ok(developers)
  }

  datatype GroupScan = GroupScan(developerGroups: map<int, int>, required: set<int>)

  function ScanObject(scan: GroupScan, o: ExtractedObject, indexes: Indexes): Result<GroupScan, TransformError> {
    match o.companyGroupId
    case None => Ok(scan)
    case Some(group) =>
      if o.developerId !in indexes.developers then Err(MissingDeveloper)
      else
        var developer := indexes.developers[o.developerId];
        if developer.companyGroupId.Some? && developer.companyGroupId.value != group then Err(GroupMismatch)
        else if o.developerId in scan.developerGroups && scan.developerGroups[o.developerId] != group
        then Err(ConflictingGroups)
        else Ok(GroupScan(scan.developerGroups[o.developerId := group], scan.required + {group}))
  }

  function ScanGroups(objects: seq<ExtractedObject>, indexes: Indexes): Result<GroupScan, TransformError> {
    if objects == [] then Ok(GroupScan(map[], {}))
    else
      var scan :- ScanGroups(objects[..|objects| - 1], indexes);
      ScanObject(scan, objects[|objects| - 1], indexes)
  }

  function CollectRequiredGroups(objects: seq<ExtractedObject>, indexes: Indexes)
    : Result<seq<ExtractedCompanyGroup>, TransformError>
  {
    var scan :- ScanGroups(objects, indexes);
    if !(scan.required <= indexes.groups.Keys) then Err(MissingGroup)
    else Ok(Lookup(indexes.groups, Sorted(scan.required)))
  }

  method CollectGroups(objects: seq<ExtractedObject>, indexes: Indexes)
    returns (result: Result<seq<ExtractedCompanyGroup>, TransformError>)
    ensures result == CollectRequiredGroups(objects, indexes)
  {
    var required: set<int>, developerGroups: map<int, int> := {}, map[];
    for i := 0 to |objects|
      invariant ScanGroups(objects[..i], indexes) == Ok(GroupScan(developerGroups, required))
    {
      assert objects[..i + 1][..i] == objects[..i];
      var o := objects[i];
      if o.companyGroupId.None? {
        continue;
      }
      var group := o.companyGroupId.value;
      if o.developerId !in indexes.developers {
        ScanStaysFailed(objects, i + 1, indexes);
        return Err(MissingDeveloper);
      }
      var developer := indexes.developers[o.developerId];
      if developer.companyGroupId.Some? && developer.companyGroupId.value != group {
        ScanStaysFailed(objects, i + 1, indexes);
        return Err(GroupMismatch);
      }
      if o.developerId in developerGroups && developerGroups[o.developerId] != group {
        ScanStaysFailed(objects, i + 1, indexes);
        return Err(ConflictingGroups);
      }
      developerGroups := developerGroups[o.developerId := group];
      required := required + {group};
    }
    assert objects[..|objects|] == objects;
    if !(required <= indexes.groups.Keys) {
      return Err(MissingGroup);
    }
    return Ok(Lookup(indexes.groups, Sorted(required)));
  }

  lemma {:induction false} ScanStaysFailed(objects: seq<ExtractedObject>, n: nat, indexes: Indexes)
    requires n <= |objects| && ScanGroups(objects[..n], indexes).Err?
    ensures ScanGroups(objects, indexes) == ScanGroups(objects[..n], indexes)
    decreases |objects| - n
  {
    if n == |objects| {
      assert objects[..n] == objects;
    } else {
      assert objects[..n + 1][..n] == objects[..n];
      ScanStaysFailed(objects, n + 1, indexes);
    }
  }

  // ----- operations -----

  function DefaultManager(settings: RegionSettings, indexes: Indexes): int
    requires ManagersKnown(settings, indexes)
  {
    ResolveDefaultManager(settings, indexes).value
  }

  function RegionManager(region: int, settings: RegionSettings, indexes: Indexes): int
    requires ManagersKnown(settings, indexes)
  {
    assert RegionManagerName(region, settings) in indexes.managers;
    ResolveRegionManager(region, settings, indexes).value
  }

  function GroupOperation(group: ExtractedCompanyGroup, indexes: Indexes, context: CrmContext, settings: RegionSettings)
    : PlannedOperation
    requires ManagersKnown(settings, indexes)
  {
    var fields := context.structure.entityFields.companyGroup;
    PlannedOperation(
      Render(Group(group.id)),
      AddItem(context.structure.entityTypes.companyGroup,
              map[fields.title := JString(group.name),
                  fields.sourceCompanyGroupId := JInt(group.id),
                  fields.sourceId := JString(context.references.sourceId),
                  fields.assignedById := JInt(DefaultManager(settings, indexes))]),
      [], [])
  }

  function Multifield(typeId: string, value: string, context: CrmContext): Json {
    var mf, refs := context.structure.entityFields.multifield, context.references.multifield;
    JObject(map[mf.valueType := JString(refs.valueType), mf.typeId := JString(typeId), mf.value := JString(value)])
  }

  function Multifields(developer: ExtractedDeveloper, context: CrmContext): seq<Json> {
    var refs := context.references.multifield;
    [Multifield(refs.phoneTypeId, developer.phone, context), Multifield(refs.emailTypeId, developer.email, context)]
    + (if developer.url.Some? then [Multifield(refs.webTypeId, developer.url.value, context)] else [])
  }

  function CompanyOperation(developer: ExtractedDeveloper, indexes: Indexes, context: CrmContext,
      settings: RegionSettings): PlannedOperation
    requires ManagersKnown(settings, indexes)
  {
    var fields, refs := context.structure.entityFields.developer, context.references;
    PlannedOperation(
      Render(Company(developer.id)),
      AddItem(context.structure.entityTypes.company,
              map[fields.title := JString(developer.shortName),
                  fields.assignedById := JInt(RegionManager(developer.regionId, settings, indexes)),
                  fields.companyType := JString(refs.developerCompanyTypeId),
                  fields.industry := JString(refs.developerIndustryId),
                  fields.contactName := JString(developer.contactName),
                  fields.multifield := JArray(Multifields(developer, context))]),
      [], [])
  }

  function RequisitePayload(developer: ExtractedDeveloper, context: CrmContext): Fields {
    var req := context.structure.entityFields.requisite;
    map[req.entityTypeId := JInt(context.structure.entityTypes.company),
        req.presetId := JInt(context.references.organizationRequisitePresetId),
        req.cardName := JString(developer.shortName),
        req.detailsName := JString(developer.shortName),
        req.fullName := JString(developer.fullName),
        req.inn := JString(developer.inn),
        req.kpp := JString(developer.kpp),
        req.ogrn := JString(developer.ogrn)]
  }

  function RequisiteOperation(developer: ExtractedDeveloper, context: CrmContext): PlannedOperation {
    PlannedOperation(
      Render(Requisite(developer.id)),
      AddRequisite(RequisitePayload(developer, context)),
      [RuntimeBinding(context.structure.entityFields.requisite.entityIdToBind, Render(Company(developer.id)))],
      [])
  }

  function AddressPayload(typeId: int, text: string, context: CrmContext): Fields {
    var address := context.structure.entityFields.address;
    map[address.addressTypeId := JInt(typeId),
        address.entityTypeIdToBind := JInt(context.structure.entityTypes.requisite),
        address.address := JString(text)]
  }

  function AddressOperation(id: string, typeId: int, text: string, developer: ExtractedDeveloper, context: CrmContext)
    : PlannedOperation
  {
    PlannedOperation(
      id,
      AddAddress(AddressPayload(typeId, text, context)),
      [RuntimeBinding(context.structure.entityFields.address.entityIdToBind, Render(Requisite(developer.id)))],
      [])
  }

  function BuildingType(o: ExtractedObject, context: CrmContext): string {
    match o.objectType
    case Residential => context.references.buildingType.residential
    case NonResidential => context.references.buildingType.nonResidential
  }

  /** `str(commissioning_period)`. */
  function PeriodText(p: CommissioningPeriod): string {
    Decimal(p.year) + ", квартал " + Decimal(p.quarter)
  }

  function LeadBasePayload(o: ExtractedObject, indexes: Indexes, context: CrmContext, settings: RegionSettings): Fields
    requires ManagersKnown(settings, indexes)
  {
    var fields := context.structure.entityFields.lead;
    map[fields.sourceBuildingId := JInt(o.id),
        fields.title := JString(o.title),
        fields.address := JString(o.address),
        fields.publicationDate := JString(IsoFormat(o.publicationDate)),
        fields.commissioningPeriod := JString(PeriodText(o.commissioningPeriod)),
        fields.buildingType := JString(BuildingType(o, context)),
        fields.sourceId := JString(context.references.sourceId),
        fields.assignedById := JInt(RegionManager(o.regionId, settings, indexes))]
  }

  function KnownReference<K>(id: K, existing: map<K, int>): Option<Json> {
    if id in existing then Some(JInt(existing[id])) else None
  }

  function WithReference(payload: Fields, field: string, reference: Option<Json>): Fields {
    match reference
    case Some(id) => payload[field := id]
    case None => payload
  }

  function GroupReference(o: ExtractedObject, indexes: Indexes): Option<Json> {
    if o.companyGroupId.Some? then KnownReference(o.companyGroupId.value, indexes.existingGroups) else None
  }

  function LeadPayload(o: ExtractedObject, developer: ExtractedDeveloper, indexes: Indexes, context: CrmContext,
      settings: RegionSettings): Fields
    requires ManagersKnown(settings, indexes)
  {
    var fields := context.structure.entityFields.lead;
    var base := LeadBasePayload(o, indexes, context, settings);
    var owned := WithReference(base, fields.companyId, KnownReference(developer.inn, indexes.inns));
    WithReference(owned, fields.companyGroupBitrixId, GroupReference(o, indexes))
  }

  predicate NeedsCompany(developer: ExtractedDeveloper, indexes: Indexes) {
    developer.inn !in indexes.inns
  }

  predicate NeedsGroup(o: ExtractedObject, indexes: Indexes) {
    o.companyGroupId.Some? && o.companyGroupId.value !in indexes.existingGroups
  }

  function LeadBindings(o: ExtractedObject, developer: ExtractedDeveloper, indexes: Indexes, context: CrmContext)
    : seq<RuntimeBinding>
  {
    var fields := context.structure.entityFields.lead;
    (if NeedsCompany(developer, indexes) then [RuntimeBinding(fields.companyId, Render(Company(developer.id)))] else [])
    + (if NeedsGroup(o, indexes)
       then [RuntimeBinding(fields.companyGroupBitrixId, Render(Group(o.companyGroupId.value)))] else [])
  }

  function LeadDependencies(developer: ExtractedDeveloper, indexes: Indexes): seq<string> {
    if NeedsCompany(developer, indexes)
    then [Render(Requisite(developer.id)), Render(ActualAddress(developer.id)), Render(LegalAddress(developer.id))]
    else []
  }

  function LeadOperation(o: ExtractedObject, developer: ExtractedDeveloper, indexes: Indexes, context: CrmContext,
      settings: RegionSettings): PlannedOperation
    requires ManagersKnown(settings, indexes)
  {
    PlannedOperation(
      Render(Lead(o.id)),
      AddItem(context.structure.entityTypes.lead, LeadPayload(o, developer, indexes, context, settings)),
      LeadBindings(o, developer, indexes, context),
      LeadDependencies(developer, indexes))
  }

  // ----- the plan -----

  /** What one planned operation creates. */
  datatype PlanItem =
    | GroupItem(group: ExtractedCompanyGroup)
    | CompanyItem(developer: ExtractedDeveloper)
    | RequisiteItem(developer: ExtractedDeveloper)
    | ActualAddressItem(developer: ExtractedDeveloper)
    | LegalAddressItem(developer: ExtractedDeveloper)
    | LeadItem(object_: ExtractedObject)

  function Key(item: PlanItem): OperationKey {
    match item
    case GroupItem(g) => Group(g.id)
    case CompanyItem(d) => Company(d.id)
    case RequisiteItem(d) => Requisite(d.id)
    case ActualAddressItem(d) => ActualAddress(d.id)
    case LegalAddressItem(d) => LegalAddress(d.id)
    case LeadItem(o) => Lead(o.id)
  }

  ghost predicate Plannable(item: PlanItem, indexes: Indexes) {
    item.LeadItem? ==> item.object_.developerId in indexes.developers
  }

  function OperationOf(item: PlanItem, indexes: Indexes, context: CrmContext, settings: RegionSettings)
    : (op: PlannedOperation)
    requires ManagersKnown(settings, indexes) && Plannable(item, indexes)
    ensures op.id == Render(Key(item))
  {
    match item
    case GroupItem(g) => GroupOperation(g, indexes, context, settings)
    case CompanyItem(d) => CompanyOperation(d, indexes, context, settings)
    case RequisiteItem(d) => RequisiteOperation(d, context)
    case ActualAddressItem(d) =>
      AddressOperation(Render(ActualAddress(d.id)), context.references.addressTypes.actual, d.factAddress, d, context)
    case LegalAddressItem(d) =>
      AddressOperation(Render(LegalAddress(d.id)), context.references.addressTypes.legal, d.legalAddress, d, context)
    case LeadItem(o) => LeadOperation(o, indexes.developers[o.developerId], indexes, context, settings)
  }

  ghost predicate AllPlannable(items: seq<PlanItem>, indexes: Indexes) {
    forall i :: 0 <= i < |items| ==> Plannable(items[i], indexes)
  }

  function Operations(items: seq<PlanItem>, indexes: Indexes, context: CrmContext, settings: RegionSettings)
    : (ops: seq<PlannedOperation>)
    requires ManagersKnown(settings, indexes) && AllPlannable(items, indexes)
    ensures |ops| == |items|
    ensures forall i :: 0 <= i < |items| ==> ops[i] == OperationOf(items[i], indexes, context, settings)
  {
    seq(|items|, i requires 0 <= i < |items| => OperationOf(items[i], indexes, context, settings))
  }

  function GroupItems(groups: seq<ExtractedCompanyGroup>, indexes: Indexes): seq<PlanItem> {
    if groups == [] then []
    else
      var last := groups[|groups| - 1];
      GroupItems(groups[..|groups| - 1], indexes) + if last.id in indexes.existingGroups then [] else [GroupItem(last)]
  }

  function DeveloperBlock(d: ExtractedDeveloper): seq<PlanItem> {
    [CompanyItem(d), RequisiteItem(d), ActualAddressItem(d), LegalAddressItem(d)]
  }

  function DeveloperItems(developers: seq<ExtractedDeveloper>, indexes: Indexes): seq<PlanItem> {
    if developers == [] then []
    else
      var last := developers[|developers| - 1];
      DeveloperItems(developers[..|developers| - 1], indexes)
      + if NeedsCompany(last, indexes) then DeveloperBlock(last) else []
  }

  function LeadItems(objects: seq<ExtractedObject>): (items: seq<PlanItem>)
    ensures |items| == |objects|
    ensures forall i :: 0 <= i < |objects| ==> items[i] == LeadItem(objects[i])
  {
    seq(|objects|, i requires 0 <= i < |objects| => LeadItem(objects[i]))
  }

  /** Everything the checks leave to plan: the indexes and the selected entities. */
  datatype Draft = Draft(
    indexes: Indexes, objects: seq<ExtractedObject>, developers: seq<ExtractedDeveloper>,
    groups: seq<ExtractedCompanyGroup>)

  function Items(draft: Draft): seq<PlanItem> {
    GroupItems(draft.groups, draft.indexes) + DeveloperItems(draft.developers, draft.indexes) + LeadItems(draft.objects)
  }

  function Prepare(extract: ExtractResult, context: CrmContext, settings: RegionSettings): Result<Draft, TransformError>
  {
    var indexes :- IndexAll(extract, context);
    var _ :- CheckManagers(settings, indexes);
    var objects :- SelectNewObjects(extract.objects, indexes);
    var developers :- CollectRequiredDevelopers(objects, indexes);
    var groups :- CollectRequiredGroups(objects, indexes);
    Ok(Draft(indexes, objects, developers, groups))
  }

  lemma {:induction false} GroupItemsAreGroups(groups: seq<ExtractedCompanyGroup>, indexes: Indexes)
    ensures forall item :: item in GroupItems(groups, indexes) <==>
              item.GroupItem? && item.group in groups && item.group.id !in indexes.existingGroups
  {
    if groups != [] {
      GroupItemsAreGroups(groups[..|groups| - 1], indexes);
      assert groups == groups[..|groups| - 1] + [groups[|groups| - 1]];
    }
  }

  predicate OfDeveloper(item: PlanItem) {
    item.CompanyItem? || item.RequisiteItem? || item.ActualAddressItem? || item.LegalAddressItem?
  }

  lemma {:induction false} DeveloperItemsAreBlocks(developers: seq<ExtractedDeveloper>, indexes: Indexes)
    ensures forall item :: item in DeveloperItems(developers, indexes) <==>
              OfDeveloper(item) && item.developer in developers && NeedsCompany(item.developer, indexes)
  {
    if developers != [] {
      DeveloperItemsAreBlocks(developers[..|developers| - 1], indexes);
      assert developers == developers[..|developers| - 1] + [developers[|developers| - 1]];
    }
  }

  lemma {:induction false} DevelopersCovered(objects: seq<ExtractedObject>, indexes: Indexes)
    requires CollectRequiredDevelopers(objects, indexes).Ok?
    ensures forall i :: 0 <= i < |objects| ==> objects[i].developerId in indexes.developers
  {
    forall i | 0 <= i < |objects|
      ensures objects[i].developerId in indexes.developers
    {
      assert objects[i].developerId in DeveloperIds(objects);
    }
  }

  lemma {:induction false} ItemsPlannable(draft: Draft)
    requires forall i :: 0 <= i < |draft.objects| ==> draft.objects[i].developerId in draft.indexes.developers
    ensures AllPlannable(Items(draft), draft.indexes)
  {
    var gs, ds := GroupItems(draft.groups, draft.indexes), DeveloperItems(draft.developers, draft.indexes);
    GroupItemsAreGroups(draft.groups, draft.indexes);
    DeveloperItemsAreBlocks(draft.developers, draft.indexes);
    assert forall i :: 0 <= i < |gs| ==> gs[i] in gs;
    assert forall i :: 0 <= i < |ds| ==> ds[i] in ds;
  }

  lemma {:induction false} PreparedIsPlannable(extract: ExtractResult, context: CrmContext, settings: RegionSettings)
    requires Prepare(extract, context, settings).Ok?
    ensures var draft := Prepare(extract, context, settings).value;
            ManagersKnown(settings, draft.indexes) && AllPlannable(Items(draft), draft.indexes)
  {
    var draft := Prepare(extract, context, settings).value;
    DevelopersCovered(draft.objects, draft.indexes);
    ItemsPlannable(draft);
  }

  /** The compiler: a plan, or the first check that fails. */
  function Transform(extract: ExtractResult, context: CrmContext, settings: RegionSettings)
    : Result<seq<PlannedOperation>, TransformError>
  {
    var draft :- Prepare(extract, context, settings);
    PreparedIsPlannable(extract, context, settings);
    Ok(Operations(Items(draft), draft.indexes, context, settings))
  }

  // ----- the source's loops -----

  lemma {:induction false} OperationsConcat(a: seq<PlanItem>, b: seq<PlanItem>, indexes: Indexes, context: CrmContext,
      settings: RegionSettings)
    requires ManagersKnown(settings, indexes) && AllPlannable(a, indexes) && AllPlannable(b, indexes)
    ensures AllPlannable(a + b, indexes)
    ensures Operations(a + b, indexes, context, settings)
            == Operations(a, indexes, context, settings) + Operations(b, indexes, context, settings)
  {
  }

  method BuildGroupOperations(groups: seq<ExtractedCompanyGroup>, indexes: Indexes, context: CrmContext,
      settings: RegionSettings) returns (operations: seq<PlannedOperation>)
    requires ManagersKnown(settings, indexes)
    ensures AllPlannable(GroupItems(groups, indexes), indexes)
    ensures operations == Operations(GroupItems(groups, indexes), indexes, context, settings)
  {
    operations := [];
    for i := 0 to |groups|
      invariant AllPlannable(GroupItems(groups[..i], indexes), indexes)
      invariant operations == Operations(GroupItems(groups[..i], indexes), indexes, context, settings)
    {
      assert groups[..i + 1][..i] == groups[..i];
      if groups[i].id !in indexes.existingGroups {
        OperationsConcat(GroupItems(groups[..i], indexes), [GroupItem(groups[i])], indexes, context, settings);
        operations := operations + [GroupOperation(groups[i], indexes, context, settings)];
      }
    }
    assert groups[..|groups|] == groups;
  }

  method BuildDeveloperBlock(d: ExtractedDeveloper, indexes: Indexes, context: CrmContext, settings: RegionSettings)
    returns (block: seq<PlannedOperation>)
    requires ManagersKnown(settings, indexes)
    ensures block == Operations(DeveloperBlock(d), indexes, context, settings)
  {
    block := [CompanyOperation(d, indexes, context, settings), RequisiteOperation(d, context)];
    block := block + [AddressOperation(Render(ActualAddress(d.id)), context.references.addressTypes.actual,
                                       d.factAddress, d, context)];
    block := block + [AddressOperation(Render(LegalAddress(d.id)), context.references.addressTypes.legal,
                                       d.legalAddress, d, context)];
  }

  method BuildDeveloperOperations(developers: seq<ExtractedDeveloper>, indexes: Indexes, context: CrmContext,
      settings: RegionSettings) returns (operations: seq<PlannedOperation>)
    requires ManagersKnown(settings, indexes)
    ensures AllPlannable(DeveloperItems(developers, indexes), indexes)
    ensures operations == Operations(DeveloperItems(developers, indexes), indexes, context, settings)
  {
    operations := [];
    for i := 0 to |developers|
      invariant AllPlannable(DeveloperItems(developers[..i], indexes), indexes)
      invariant operations == Operations(DeveloperItems(developers[..i], indexes), indexes, context, settings)
    {
      assert developers[..i + 1][..i] == developers[..i];
      if developers[i].inn in indexes.inns {
        continue;
      }
      var block := BuildDeveloperBlock(developers[i], indexes, context, settings);
      OperationsConcat(DeveloperItems(developers[..i], indexes), DeveloperBlock(developers[i]), indexes, context,
                       settings);
      operations := operations + block;
    }
    assert developers[..|developers|] == developers;
  }

  method BuildLeadOperation(o: ExtractedObject, developer: ExtractedDeveloper, indexes: Indexes, context: CrmContext,
      settings: RegionSettings) returns (operation: PlannedOperation)
    requires ManagersKnown(settings, indexes)
    ensures operation == LeadOperation(o, developer, indexes, context, settings)
  {
    var fields := context.structure.entityFields.lead;
    var payload := LeadBasePayload(o, indexes, context, settings);
    var bindings: seq<RuntimeBinding>, dependencies: seq<string> := [], [];
    if developer.inn in indexes.inns {
      payload := payload[fields.companyId := JInt(indexes.inns[developer.inn])];
    } else {
      bindings := bindings + [RuntimeBinding(fields.companyId, Render(Company(developer.id)))];
      dependencies := [Render(Requisite(developer.id)), Render(ActualAddress(developer.id)),
                       Render(LegalAddress(developer.id))];
    }
    if o.companyGroupId.Some? {
      var group := o.companyGroupId.value;
      if group in indexes.existingGroups {
        payload := payload[fields.companyGroupBitrixId := JInt(indexes.existingGroups[group])];
      } else {
        bindings := bindings + [RuntimeBinding(fields.companyGroupBitrixId, Render(Group(group)))];
      }
    }
    operation := PlannedOperation(Render(Lead(o.id)), AddItem(context.structure.entityTypes.lead, payload),
                                  bindings, dependencies);
  }

  method BuildLeadOperations(objects: seq<ExtractedObject>, indexes: Indexes, context: CrmContext,
      settings: RegionSettings) returns (operations: seq<PlannedOperation>)
    requires ManagersKnown(settings, indexes) && AllPlannable(LeadItems(objects), indexes)
    ensures operations == Operations(LeadItems(objects), indexes, context, settings)
  {
    operations := [];
    for i := 0 to |objects|
      invariant operations == Operations(LeadItems(objects)[..i], indexes, context, settings)
    {
      NextLead(objects, i, indexes, context, settings);
      var developer := indexes.developers[objects[i].developerId];
      var operation := BuildLeadOperation(objects[i], developer, indexes, context, settings);
      operations := operations + [operation];
    }
    assert LeadItems(objects)[..|objects|] == LeadItems(objects);
  }

  lemma {:induction false} NextLead(objects: seq<ExtractedObject>, i: nat, indexes: Indexes, context: CrmContext,
      settings: RegionSettings)
    requires ManagersKnown(settings, indexes) && AllPlannable(LeadItems(objects), indexes) && i < |objects|
    ensures objects[i].developerId in indexes.developers
    ensures Operations(LeadItems(objects)[..i + 1], indexes, context, settings)
            == Operations(LeadItems(objects)[..i], indexes, context, settings)
               + [LeadOperation(objects[i], indexes.developers[objects[i].developerId], indexes, context, settings)]
  {
    assert Plannable(LeadItems(objects)[i], indexes);
    assert LeadItems(objects)[..i + 1] == LeadItems(objects)[..i] + [LeadItem(objects[i])];
    OperationsConcat(LeadItems(objects)[..i], [LeadItem(objects[i])], indexes, context, settings);
  }

  lemma {:induction false} LeadsPlannable(draft: Draft)
    requires AllPlannable(Items(draft), draft.indexes)
    ensures AllPlannable(LeadItems(draft.objects), draft.indexes)
  {
    var leads, before := LeadItems(draft.objects), |Items(draft)| - |draft.objects|;
    forall i | 0 <= i < |leads|
      ensures Plannable(leads[i], draft.indexes)
    {
      assert leads[i] == Items(draft)[before + i];
    }
  }

  method TransformPlan(extract: ExtractResult, context: CrmContext, settings: RegionSettings)
    returns (result: Result<seq<PlannedOperation>, TransformError>)
    ensures result == Transform(extract, context, settings)
  {
    var indexes :- BuildIndexes(extract, context);
    var _ :- CheckManagers(settings, indexes);
    var objects :- SelectNewObjects(extract.objects, indexes);
    var developers :- CollectRequiredDevelopers(objects, indexes);
    var groups :- CollectGroups(objects, indexes);
    ghost var draft := Draft(indexes, objects, developers, groups);
    PreparedIsPlannable(extract, context, settings);
    LeadsPlannable(draft);
    var groupOperations := BuildGroupOperations(groups, indexes, context, settings);
    var developerOperations := BuildDeveloperOperations(developers, indexes, context, settings);
    var leadOperations := BuildLeadOperations(objects, indexes, context, settings);
    ghost var gs, ds, ls := GroupItems(groups, indexes), DeveloperItems(developers, indexes), LeadItems(objects);
    OperationsConcat(gs, ds, indexes, context, settings);
    OperationsConcat(gs + ds, ls, indexes, context, settings);
    return Ok(groupOperations + developerOperations + leadOperations);
  }
}
