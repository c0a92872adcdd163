/**
 * What a plan tells the CRM: every command of a compiled plan, field by field, in terms of the extracted data, the
 * context and the settings alone.
 */
module PlannedCommands {
  import opened Wrappers
  import opened Text
  import opened Json
  import opened Contracts
  import opened OperationIds
  import opened PlanValidator
  import opened Transformer
  import opened Indexing
  import opened Selection
  import opened CompiledPlans
  import opened Resume
  import opened Totality

  // ----- the data -----

  /** The value is the CRM id of the employee configured under the name. */
  ghost predicate IsEmployee(value: Option<Json>, name: string, context: CrmContext) {
    exists i :: 0 <= i < |context.managers| && context.managers[i].configuredName == name
                && value == Some(JInt(context.managers[i].crmId))
  }

  /** The employee assigned to the region, or the default one. */
  ghost predicate IsRegionManager(value: Option<Json>, region: int, context: CrmContext, settings: RegionSettings) {
    if region in settings.assignment then IsEmployee(value, settings.assignment[region], context)
    else IsEmployee(value, settings.defaultAssignedByName, context)
  }

  ghost predicate CompanyKnown(context: CrmContext, inn: string) {
    exists i :: 0 <= i < |context.existing.developers| && context.existing.developers[i].inn == inn
  }

  /** The value is the CRM id of the company known under the INN. */
  ghost predicate IsCompany(value: Option<Json>, inn: string, context: CrmContext) {
    exists i :: 0 <= i < |context.existing.developers| && context.existing.developers[i].inn == inn
                && value == Some(JInt(context.existing.developers[i].crmId))
  }

  ghost predicate GroupKnown(context: CrmContext, group: int) {
    exists i :: 0 <= i < |context.existing.companyGroups| && context.existing.companyGroups[i].sourceId == group
  }

  ghost predicate IsGroup(value: Option<Json>, group: int, context: CrmContext) {
    exists i :: 0 <= i < |context.existing.companyGroups| && context.existing.companyGroups[i].sourceId == group
                && value == Some(JInt(context.existing.companyGroups[i].crmId))
  }

  /** An object the CRM has no lead of. */
  ghost predicate IsNew(o: ExtractedObject, extract: ExtractResult, context: CrmContext) {
    o in extract.objects && !HasLead(context, o.id)
  }

  /** A developer of a new object whose INN the CRM does not know. */
  ghost predicate IsCreated(d: ExtractedDeveloper, extract: ExtractResult, context: CrmContext) {
    d in extract.developers && Required(extract, context, d) && !CompanyKnown(context, d.inn)
  }

  /** A group of a new object that the CRM does not know. */
  ghost predicate IsGroupCreated(g: ExtractedCompanyGroup, extract: ExtractResult, context: CrmContext) {
    && g in extract.companyGroups && !GroupKnown(context, g.id)
    && exists o :: IsNew(o, extract, context) && o.companyGroupId == Some(g.id)
  }

  // ----- the operations -----

  ghost predicate IsGroupOperation(op: PlannedOperation, g: ExtractedCompanyGroup, context: CrmContext,
      settings: RegionSettings)
  {
    var f, payload := context.structure.entityFields.companyGroup, op.command.fields;
    && op.id == "group:" + Decimal(g.id)
    && CreatesItem(op, context.structure.entityTypes.companyGroup)
    && payload.Keys == {f.title, f.sourceCompanyGroupId, f.sourceId, f.assignedById}
    && Get(payload, f.title) == Some(JString(g.name))
    && Get(payload, f.sourceCompanyGroupId) == Some(JInt(g.id))
    && Get(payload, f.sourceId) == Some(JString(context.references.sourceId))
    && IsEmployee(Get(payload, f.assignedById), settings.defaultAssignedByName, context)
    && op.bindings == [] && op.dependencies == []
  }

  ghost predicate IsContact(contact: Json, typeId: string, value: string, context: CrmContext) {
    var f := context.structure.entityFields.multifield;
    && contact.JObject? && contact.members.Keys == {f.valueType, f.typeId, f.value}
    && contact.members[f.valueType] == JString(context.references.multifield.valueType)
    && contact.members[f.typeId] == JString(typeId)
    && contact.members[f.value] == JString(value)
  }

  /** Phone and e-mail, and the site if there is one. */
  ghost predicate AreContacts(value: Option<Json>, d: ExtractedDeveloper, context: CrmContext) {
    var types := context.references.multifield;
    && value.Some? && value.value.JArray?
    && var contacts := value.value.items;
    && |contacts| == (if d.url.Some? then 3 else 2)
    && IsContact(contacts[0], types.phoneTypeId, d.phone, context)
    && IsContact(contacts[1], types.emailTypeId, d.email, context)
    && (d.url.Some? ==> IsContact(contacts[2], types.webTypeId, d.url.value, context))
  }

  ghost predicate IsCompanyOperation(op: PlannedOperation, d: ExtractedDeveloper, context: CrmContext,
      settings: RegionSettings)
  {
    var f, refs, payload := context.structure.entityFields.developer, context.references, op.command.fields;
    && op.id == "company:" + Decimal(d.id)
    && CreatesItem(op, context.structure.entityTypes.company)
    && payload.Keys == {f.title, f.assignedById, f.companyType, f.industry, f.contactName, f.multifield}
    && Get(payload, f.title) == Some(JString(d.shortName))
    && IsRegionManager(Get(payload, f.assignedById), d.regionId, context, settings)
    && Get(payload, f.companyType) == Some(JString(refs.developerCompanyTypeId))
    && Get(payload, f.industry) == Some(JString(refs.developerIndustryId))
    && Get(payload, f.contactName) == Some(JString(d.contactName))
    && AreContacts(Get(payload, f.multifield), d, context)
    && op.bindings == [] && op.dependencies == []
  }

  ghost predicate IsRequisiteOperation(op: PlannedOperation, d: ExtractedDeveloper, context: CrmContext) {
    var f, payload := context.structure.entityFields.requisite, op.command.fields;
    && op.id == "requisite:" + Decimal(d.id)
    && op.command.AddRequisite?
    && payload.Keys == {f.entityTypeId, f.presetId, f.cardName, f.detailsName, f.fullName, f.inn, f.kpp, f.ogrn}
    && Get(payload, f.entityTypeId) == Some(JInt(context.structure.entityTypes.company))
    && Get(payload, f.presetId) == Some(JInt(context.references.organizationRequisitePresetId))
    && Get(payload, f.cardName) == Some(JString(d.shortName))
    && Get(payload, f.detailsName) == Some(JString(d.shortName))
    && Get(payload, f.fullName) == Some(JString(d.fullName))
    && Get(payload, f.inn) == Some(JString(d.inn))
    && Get(payload, f.kpp) == Some(JString(d.kpp))
    && Get(payload, f.ogrn) == Some(JString(d.ogrn))
    && op.bindings == [RuntimeBinding(f.entityIdToBind, "company:" + Decimal(d.id))] && op.dependencies == []
  }

  ghost predicate IsAddressOperation(op: PlannedOperation, kind: string, typeId: int, text: string,
      d: ExtractedDeveloper, context: CrmContext)
  {
    var f, payload := context.structure.entityFields.address, op.command.fields;
    && op.id == "address:" + Decimal(d.id) + ":" + kind
    && op.command.AddAddress?
    && payload.Keys == {f.addressTypeId, f.entityTypeIdToBind, f.address}
    && Get(payload, f.addressTypeId) == Some(JInt(typeId))
    && Get(payload, f.entityTypeIdToBind) == Some(JInt(context.structure.entityTypes.requisite))
    && Get(payload, f.address) == Some(JString(text))
    && op.bindings == [RuntimeBinding(f.entityIdToBind, "requisite:" + Decimal(d.id))] && op.dependencies == []
  }

  ghost predicate IsActualAddress(op: PlannedOperation, d: ExtractedDeveloper, context: CrmContext) {
    IsAddressOperation(op, "actual", context.references.addressTypes.actual, d.factAddress, d, context)
  }

  ghost predicate IsLegalAddress(op: PlannedOperation, d: ExtractedDeveloper, context: CrmContext) {
    IsAddressOperation(op, "legal", context.references.addressTypes.legal, d.legalAddress, d, context)
  }

  /** The fields of a lead that do not refer to other entities of the plan. */
  ghost predicate DescribesObject(payload: Fields, o: ExtractedObject, context: CrmContext, settings: RegionSettings) {
    var f, types := context.structure.entityFields.lead, context.references.buildingType;
    var period := o.commissioningPeriod;
    && Get(payload, f.sourceBuildingId) == Some(JInt(o.id))
    && Get(payload, f.title) == Some(JString(o.title))
    && Get(payload, f.address) == Some(JString(o.address))
    && Get(payload, f.publicationDate) == Some(JString(IsoFormat(o.publicationDate)))
    && Get(payload, f.commissioningPeriod)
       == Some(JString(Decimal(period.year) + ", квартал " + Decimal(period.quarter)))
    && (o.objectType == Residential ==> Get(payload, f.buildingType) == Some(JString(types.residential)))
    && (o.objectType == NonResidential ==> Get(payload, f.buildingType) == Some(JString(types.nonResidential)))
    && Get(payload, f.sourceId) == Some(JString(context.references.sourceId))
    && IsRegionManager(Get(payload, f.assignedById), o.regionId, context, settings)
  }

  /** A known company is filled in; one to be created is bound, and awaited with its requisite and addresses. */
  ghost predicate RefersToCompany(op: PlannedOperation, d: ExtractedDeveloper, context: CrmContext) {
    var f, id := context.structure.entityFields.lead, Decimal(d.id);
    if CompanyKnown(context, d.inn)
    then IsCompany(Get(op.command.fields, f.companyId), d.inn, context) && op.dependencies == []
    else
      && f.companyId !in op.command.fields
      && op.dependencies == ["requisite:" + id, "address:" + id + ":actual", "address:" + id + ":legal"]
  }

  ghost predicate RefersToGroup(op: PlannedOperation, o: ExtractedObject, context: CrmContext) {
    var f := context.structure.entityFields.lead;
    if o.companyGroupId.Some? && GroupKnown(context, o.companyGroupId.value)
    then IsGroup(Get(op.command.fields, f.companyGroupBitrixId), o.companyGroupId.value, context)
    else f.companyGroupBitrixId !in op.command.fields
  }

  /** The owners the plan creates, each bound to the field that refers to it. */
  ghost predicate BindsOwners(bindings: seq<RuntimeBinding>, o: ExtractedObject, d: ExtractedDeveloper,
      context: CrmContext)
  {
    var f := context.structure.entityFields.lead;
    bindings ==
      (if CompanyKnown(context, d.inn) then [] else [RuntimeBinding(f.companyId, "company:" + Decimal(d.id))])
      + (if o.companyGroupId.Some? && !GroupKnown(context, o.companyGroupId.value)
         then [RuntimeBinding(f.companyGroupBitrixId, "group:" + Decimal(o.companyGroupId.value))] else [])
  }

  ghost predicate IsLeadOperation(op: PlannedOperation, o: ExtractedObject, d: ExtractedDeveloper, context: CrmContext,
      settings: RegionSettings)
  {
    var f, payload := context.structure.entityFields.lead, op.command.fields;
    && op.id == "lead:" + Decimal(o.id)
    && CreatesItem(op, context.structure.entityTypes.lead)
    && (forall name <- payload :: name in LeadNames(f))
    && DescribesObject(payload, o, context, settings)
    && RefersToCompany(op, d, context) && RefersToGroup(op, o, context)
    && BindsOwners(op.bindings, o, d, context)
  }

  // ----- the indexes hold the context -----

  ghost predicate IndexesContext(indexes: Indexes, context: CrmContext) {
    && IsIndex(LeadEntries(context.existing.leads), indexes.leads)
    && IsIndex(ExistingDeveloperEntries(context.existing.developers), indexes.inns)
    && IsIndex(ExistingGroupEntries(context.existing.companyGroups), indexes.existingGroups)
    && IsIndex(ManagerEntries(context.managers), indexes.managers)
  }

  lemma {:induction false} PreparedIndexesContext(extract: ExtractResult, context: CrmContext, settings: RegionSettings)
    requires Prepare(extract, context, settings).Ok?
    ensures IndexesContext(Prepare(extract, context, settings).value.indexes, context)
  {
    PreparedIndexAll(extract, context, settings);
    IndexTables(extract, context);
    IndexMeaning(LeadEntries(context.existing.leads));
    IndexMeaning(ExistingDeveloperEntries(context.existing.developers));
    IndexMeaning(ExistingGroupEntries(context.existing.companyGroups));
    IndexMeaning(ManagerEntries(context.managers));
  }

  lemma {:induction false} ManagerIsEmployee(indexes: Indexes, context: CrmContext, name: string)
    requires IndexesContext(indexes, context) && name in indexes.managers
    ensures IsEmployee(Some(JInt(indexes.managers[name])), name, context)
  {
    var entries := ManagerEntries(context.managers);
    var i :| 0 <= i < |entries| && entries[i].0 == name;
    assert indexes.managers[entries[i].0] == entries[i].1;
    assert context.managers[i].configuredName == name;
  }

  lemma {:induction false} InnIsCompany(indexes: Indexes, context: CrmContext, inn: string)
    requires IndexesContext(indexes, context)
    ensures inn in indexes.inns <==> CompanyKnown(context, inn)
    ensures inn in indexes.inns ==> IsCompany(Some(JInt(indexes.inns[inn])), inn, context)
  {
    var entries := ExistingDeveloperEntries(context.existing.developers);
    if inn in indexes.inns {
      var i :| 0 <= i < |entries| && entries[i].0 == inn;
      assert indexes.inns[entries[i].0] == entries[i].1;
      assert context.existing.developers[i].inn == inn;
    }
    if CompanyKnown(context, inn) {
      var i :| 0 <= i < |context.existing.developers| && context.existing.developers[i].inn == inn;
      assert entries[i].0 == inn;
    }
  }

  lemma {:induction false} SourceIdIsGroup(indexes: Indexes, context: CrmContext, group: int)
    requires IndexesContext(indexes, context)
    ensures group in indexes.existingGroups <==> GroupKnown(context, group)
    ensures group in indexes.existingGroups ==> IsGroup(Some(JInt(indexes.existingGroups[group])), group, context)
  {
    var entries := ExistingGroupEntries(context.existing.companyGroups);
    if group in indexes.existingGroups {
      var i :| 0 <= i < |entries| && entries[i].0 == group;
      assert indexes.existingGroups[entries[i].0] == entries[i].1;
      assert context.existing.companyGroups[i].sourceId == group;
    }
    if GroupKnown(context, group) {
      var i :| 0 <= i < |context.existing.companyGroups| && context.existing.companyGroups[i].sourceId == group;
      assert entries[i].0 == group;
    }
  }

  lemma {:induction false} RegionManagerMeaning(region: int, settings: RegionSettings, indexes: Indexes,
      context: CrmContext)
    requires ManagersKnown(settings, indexes) && IndexesContext(indexes, context)
    ensures IsRegionManager(Some(JInt(RegionManager(region, settings, indexes))), region, context, settings)
  {
    assert RegionManagerName(region, settings) in indexes.managers by {
      var known := RegionManager(region, settings, indexes);
    }
    ManagerIsEmployee(indexes, context, RegionManagerName(region, settings));
  }

  // ----- each operation -----

  lemma {:induction false} GroupOperationMeaning(g: ExtractedCompanyGroup, indexes: Indexes, context: CrmContext,
      settings: RegionSettings)
    requires ManagersKnown(settings, indexes) && IndexesContext(indexes, context) && WellFormedContext(context)
    ensures IsGroupOperation(GroupOperation(g, indexes, context, settings), g, context, settings)
  {
    var f := context.structure.entityFields.companyGroup;
    var n := [f.sourceCompanyGroupId, f.title, f.sourceId, f.assignedById];
    assert DistinctNames(n);
    assert n[0] == f.sourceCompanyGroupId && n[1] == f.title && n[2] == f.sourceId && n[3] == f.assignedById;
    ManagerIsEmployee(indexes, context, settings.defaultAssignedByName);
  }

  lemma {:induction false} ContactMeaning(typeId: string, value: string, context: CrmContext)
    requires WellFormedContext(context)
    ensures IsContact(Multifield(typeId, value, context), typeId, value, context)
  {
    var f := context.structure.entityFields.multifield;
    var n := [f.valueType, f.value, f.typeId];
    assert DistinctNames(n);
    assert n[0] == f.valueType && n[1] == f.value && n[2] == f.typeId;
  }

  lemma {:induction false} ContactsMeaning(d: ExtractedDeveloper, context: CrmContext)
    requires WellFormedContext(context)
    ensures AreContacts(Some(JArray(Multifields(d, context))), d, context)
  {
    var types := context.references.multifield;
    ContactMeaning(types.phoneTypeId, d.phone, context);
    ContactMeaning(types.emailTypeId, d.email, context);
    if d.url.Some? {
      ContactMeaning(types.webTypeId, d.url.value, context);
    }
  }

  lemma {:induction false} CompanyOperationMeaning(d: ExtractedDeveloper, indexes: Indexes, context: CrmContext,
      settings: RegionSettings)
    requires ManagersKnown(settings, indexes) && IndexesContext(indexes, context) && WellFormedContext(context)
    ensures IsCompanyOperation(CompanyOperation(d, indexes, context, settings), d, context, settings)
  {
    var refs := context.references;
    RegionManagerMeaning(d.regionId, settings, indexes, context);
    ContactsMeaning(d, context);
    CompanyEntries(context.structure.entityFields.developer, JString(d.shortName),
                   JInt(RegionManager(d.regionId, settings, indexes)), JString(refs.developerCompanyTypeId),
                   JString(refs.developerIndustryId), JString(d.contactName), JArray(Multifields(d, context)));
  }

  /** Distinct names do not overwrite each other. */
  lemma {:induction false} CompanyEntries(f: DeveloperFields, title: Json, manager: Json, type_: Json, industry: Json,
      contactName: Json, contacts: Json)
    requires DistinctNames([f.contactName, f.title, f.assignedById, f.companyType, f.industry, f.multifield])
    ensures var payload := map[f.title := title, f.assignedById := manager, f.companyType := type_,
                               f.industry := industry, f.contactName := contactName, f.multifield := contacts];
            && payload.Keys == {f.title, f.assignedById, f.companyType, f.industry, f.contactName, f.multifield}
            && Get(payload, f.title) == Some(title) && Get(payload, f.assignedById) == Some(manager)
            && Get(payload, f.companyType) == Some(type_) && Get(payload, f.industry) == Some(industry)
            && Get(payload, f.contactName) == Some(contactName) && Get(payload, f.multifield) == Some(contacts)
  {
    var n := [f.contactName, f.title, f.assignedById, f.companyType, f.industry, f.multifield];
    assert n[0] == f.contactName && n[1] == f.title && n[2] == f.assignedById;
    assert n[3] == f.companyType && n[4] == f.industry && n[5] == f.multifield;
  }

  lemma {:induction false} RequisiteOperationMeaning(d: ExtractedDeveloper, context: CrmContext)
    requires WellFormedContext(context)
    ensures IsRequisiteOperation(RequisiteOperation(d, context), d, context)
  {
    var f := context.structure.entityFields.requisite;
    var n := RequisiteNames(f);
    assert n[0] == f.entityTypeId && n[1] == f.entityIdToBind && n[2] == f.presetId && n[3] == f.cardName;
    assert n[4] == f.detailsName && n[5] == f.fullName && n[6] == f.inn && n[7] == f.kpp && n[8] == f.ogrn;
  }

  lemma {:induction false} AddressOperationMeaning(kind: string, id: string, typeId: int, text: string,
      d: ExtractedDeveloper, context: CrmContext)
    requires WellFormedContext(context) && id == "address:" + Decimal(d.id) + ":" + kind
    ensures IsAddressOperation(AddressOperation(id, typeId, text, d, context), kind, typeId, text, d, context)
  {
    var f := context.structure.entityFields.address;
    var n := AddressNames(f);
    assert n[0] == f.addressTypeId && n[1] == f.entityTypeIdToBind && n[2] == f.entityIdToBind && n[3] == f.address;
  }

  lemma {:induction false} BasePayloadMeaning(o: ExtractedObject, indexes: Indexes, context: CrmContext,
      settings: RegionSettings)
    requires ManagersKnown(settings, indexes) && IndexesContext(indexes, context) && WellFormedContext(context)
    ensures DescribesObject(LeadBasePayload(o, indexes, context, settings), o, context, settings)
  {
    RegionManagerMeaning(o.regionId, settings, indexes, context);
    LeadEntriesDiffer(context.structure.entityFields.lead, JInt(o.id), JString(o.title), JString(o.address),
                      JString(IsoFormat(o.publicationDate)), JString(PeriodText(o.commissioningPeriod)),
                      JString(BuildingType(o, context)), JString(context.references.sourceId),
                      JInt(RegionManager(o.regionId, settings, indexes)));
  }

  lemma {:induction false} LeadEntriesDiffer(f: LeadFields, id: Json, title: Json, address: Json, published: Json,
      period: Json, type_: Json, source: Json, manager: Json)
    requires DistinctNames(LeadNames(f))
    ensures var payload := map[f.sourceBuildingId := id, f.title := title, f.address := address,
                               f.publicationDate := published, f.commissioningPeriod := period,
                               f.buildingType := type_, f.sourceId := source, f.assignedById := manager];
            && Get(payload, f.sourceBuildingId) == Some(id) && Get(payload, f.title) == Some(title)
            && Get(payload, f.address) == Some(address) && Get(payload, f.publicationDate) == Some(published)
            && Get(payload, f.commissioningPeriod) == Some(period) && Get(payload, f.buildingType) == Some(type_)
            && Get(payload, f.sourceId) == Some(source) && Get(payload, f.assignedById) == Some(manager)
  {
    var n := LeadNames(f);
    assert n[0] == f.sourceBuildingId && n[1] == f.address && n[2] == f.publicationDate && n[3] == f.buildingType;
    assert n[4] == f.commissioningPeriod && n[6] == f.title && n[7] == f.assignedById && n[9] == f.sourceId;
  }

  /** The references are other fields than those that describe the object. */
  lemma {:induction false} ReferencesKeepBase(o: ExtractedObject, d: ExtractedDeveloper, indexes: Indexes,
      context: CrmContext, settings: RegionSettings)
    requires ManagersKnown(settings, indexes) && WellFormedContext(context)
    ensures var f, payload := context.structure.entityFields.lead, LeadPayload(o, d, indexes, context, settings);
            && (forall name | name in BaseNames(f) ::
                  Get(payload, name) == Get(LeadBasePayload(o, indexes, context, settings), name))
            && (forall name <- payload :: name in LeadNames(f))
  {
    var f := context.structure.entityFields.lead;
    LeadNamesDiffer(f);
    BasePayloadKeys(o, indexes, context, settings);
    ReferencesAddNames(LeadBasePayload(o, indexes, context, settings), f, KnownReference(d.inn, indexes.inns),
                       GroupReference(o, indexes));
  }

  lemma {:induction false} ReferencesAddNames(base: Fields, f: LeadFields, company: Option<Json>, group: Option<Json>)
    requires base.Keys == BaseNames(f)
    requires f.companyId !in BaseNames(f) && f.companyGroupBitrixId !in BaseNames(f)
    ensures var payload := WithReference(WithReference(base, f.companyId, company), f.companyGroupBitrixId, group);
            && (forall name | name in BaseNames(f) :: Get(payload, name) == Get(base, name))
            && (forall name <- payload :: name in LeadNames(f))
  {
    assert forall name :: name in BaseNames(f) ==> name in LeadNames(f);
    assert f.companyId in LeadNames(f) && f.companyGroupBitrixId in LeadNames(f);
  }

  lemma {:induction false} LeadDescribesObject(o: ExtractedObject, d: ExtractedDeveloper, indexes: Indexes,
      context: CrmContext, settings: RegionSettings)
    requires ManagersKnown(settings, indexes) && IndexesContext(indexes, context) && WellFormedContext(context)
    ensures DescribesObject(LeadPayload(o, d, indexes, context, settings), o, context, settings)
  {
    var f := context.structure.entityFields.lead;
    BasePayloadMeaning(o, indexes, context, settings);
    ReferencesKeepBase(o, d, indexes, context, settings);
  }

  lemma {:induction false} LeadOperationMeaning(o: ExtractedObject, d: ExtractedDeveloper, indexes: Indexes,
      context: CrmContext, settings: RegionSettings)
    requires ManagersKnown(settings, indexes) && IndexesContext(indexes, context) && WellFormedContext(context)
    ensures IsLeadOperation(LeadOperation(o, d, indexes, context, settings), o, d, context, settings)
  {
    LeadDescribesObject(o, d, indexes, context, settings);
    ReferencesKeepBase(o, d, indexes, context, settings);
    LeadPayloadMeaning(o, d, indexes, context, settings);
    var op := LeadOperation(o, d, indexes, context, settings);
    LeadRefersToCompany(op, o, d, indexes, context);
    LeadRefersToGroup(op, o, indexes, context);
    LeadIsWhole(op, LeadPayload(o, d, indexes, context, settings), o, d, indexes, context, settings);
  }

  lemma {:induction false} LeadIsWhole(op: PlannedOperation, payload: Fields, o: ExtractedObject,
      d: ExtractedDeveloper, indexes: Indexes, context: CrmContext, settings: RegionSettings)
    requires IndexesContext(indexes, context) && DescribesObject(payload, o, context, settings)
    requires forall name <- payload :: name in LeadNames(context.structure.entityFields.lead)
    requires op == PlannedOperation(Render(Lead(o.id)), AddItem(context.structure.entityTypes.lead, payload),
                                    LeadBindings(o, d, indexes, context), LeadDependencies(d, indexes))
    requires RefersToCompany(op, d, context) && RefersToGroup(op, o, context)
    ensures IsLeadOperation(op, o, d, context, settings)
  {
    LeadBindingsMeaning(o, d, indexes, context);
  }

  lemma {:induction false} LeadRefersToCompany(op: PlannedOperation, o: ExtractedObject, d: ExtractedDeveloper,
      indexes: Indexes, context: CrmContext)
    requires IndexesContext(indexes, context) && op.dependencies == LeadDependencies(d, indexes)
    requires Get(op.command.fields, context.structure.entityFields.lead.companyId)
             == KnownReference(d.inn, indexes.inns)
    ensures RefersToCompany(op, d, context)
  {
    InnIsCompany(indexes, context, d.inn);
  }

  lemma {:induction false} LeadRefersToGroup(op: PlannedOperation, o: ExtractedObject, indexes: Indexes,
      context: CrmContext)
    requires IndexesContext(indexes, context)
    requires Get(op.command.fields, context.structure.entityFields.lead.companyGroupBitrixId)
             == GroupReference(o, indexes)
    ensures RefersToGroup(op, o, context)
  {
    if o.companyGroupId.Some? {
      SourceIdIsGroup(indexes, context, o.companyGroupId.value);
    }
  }

  lemma {:induction false} LeadBindingsMeaning(o: ExtractedObject, d: ExtractedDeveloper, indexes: Indexes,
      context: CrmContext)
    requires IndexesContext(indexes, context)
    ensures BindsOwners(LeadBindings(o, d, indexes, context), o, d, context)
  {
    InnIsCompany(indexes, context, d.inn);
    if o.companyGroupId.Some? {
      SourceIdIsGroup(indexes, context, o.companyGroupId.value);
    }
  }

  // ----- the plan -----

  /** What the plan is to create. */
  ghost predicate ToCreate(item: PlanItem, extract: ExtractResult, context: CrmContext) {
    match item
    case GroupItem(g) => IsGroupCreated(g, extract, context)
    case LeadItem(o) => IsNew(o, extract, context)
    case _ => IsCreated(item.developer, extract, context)
  }

  /** The lead of an object, for the developer the object names. */
  ghost predicate IsLeadOfObject(op: PlannedOperation, o: ExtractedObject, extract: ExtractResult, context: CrmContext,
      settings: RegionSettings)
  {
    exists d :: d in extract.developers && d.id == o.developerId && IsLeadOperation(op, o, d, context, settings)
  }

  ghost predicate IsOperationOf(op: PlannedOperation, item: PlanItem, extract: ExtractResult, context: CrmContext,
      settings: RegionSettings)
  {
    match item
    case GroupItem(g) => IsGroupOperation(op, g, context, settings)
    case CompanyItem(d) => IsCompanyOperation(op, d, context, settings)
    case RequisiteItem(d) => IsRequisiteOperation(op, d, context)
    case ActualAddressItem(d) => IsActualAddress(op, d, context)
    case LegalAddressItem(d) => IsLegalAddress(op, d, context)
    case LeadItem(o) => IsLeadOfObject(op, o, extract, context, settings)
  }

  lemma {:induction false} OperationMeaning(item: PlanItem, draft: Draft, extract: ExtractResult, context: CrmContext,
      settings: RegionSettings)
    requires ManagersKnown(settings, draft.indexes) && Plannable(item, draft.indexes)
    requires IndexesContext(draft.indexes, context) && IndexesExtract(draft.indexes, extract)
    requires WellFormedContext(context)
    ensures IsOperationOf(OperationOf(item, draft.indexes, context, settings), item, extract, context, settings)
  {
    var indexes, types := draft.indexes, context.references.addressTypes;
    match item
    case GroupItem(g) => GroupOperationMeaning(g, indexes, context, settings);
    case CompanyItem(d) => CompanyOperationMeaning(d, indexes, context, settings);
    case RequisiteItem(d) => RequisiteOperationMeaning(d, context);
    case ActualAddressItem(d) =>
      AddressOperationMeaning("actual", Render(ActualAddress(d.id)), types.actual, d.factAddress, d, context);
    case LegalAddressItem(d) =>
      AddressOperationMeaning("legal", Render(LegalAddress(d.id)), types.legal, d.legalAddress, d, context);
    case LeadItem(o) => LeadOperationMeaning(o, indexes.developers[o.developerId], indexes, context, settings);
  }

  lemma {:induction false} LeadKnown(indexes: Indexes, context: CrmContext, id: int)
    requires IndexesContext(indexes, context)
    ensures id in indexes.leads <==> HasLead(context, id)
  {
    var entries := LeadEntries(context.existing.leads);
    if id in indexes.leads {
      var i :| 0 <= i < |entries| && entries[i].0 == id;
      assert context.existing.leads[i].sourceId == id;
    }
    if HasLead(context, id) {
      var i :| 0 <= i < |context.existing.leads| && context.existing.leads[i].sourceId == id;
      assert entries[i].0 == id;
    }
  }

  lemma {:induction false} ObjectSelected(draft: Draft, extract: ExtractResult, context: CrmContext, o: ExtractedObject)
    requires Selected(draft, extract) && IndexesContext(draft.indexes, context)
    ensures o in draft.objects <==> IsNew(o, extract, context)
  {
    LeadKnown(draft.indexes, context, o.id);
  }

  lemma {:induction false} DeveloperSelected(draft: Draft, extract: ExtractResult, context: CrmContext,
      d: ExtractedDeveloper)
    requires Selected(draft, extract) && IndexesContext(draft.indexes, context)
    ensures d in draft.developers && NeedsCompany(d, draft.indexes) <==> IsCreated(d, extract, context)
  {
    InnIsCompany(draft.indexes, context, d.inn);
    if d in draft.developers {
      var o :| o in draft.objects && o.developerId == d.id;
      ObjectSelected(draft, extract, context, o);
    }
    if d in extract.developers && Required(extract, context, d) {
      var o :| o in extract.objects && o.developerId == d.id && !HasLead(context, o.id);
      ObjectSelected(draft, extract, context, o);
      assert d.id in DeveloperIds(draft.objects);
    }
  }

  lemma {:induction false} GroupSelected(draft: Draft, extract: ExtractResult, context: CrmContext,
      g: ExtractedCompanyGroup)
    requires Selected(draft, extract) && IndexesContext(draft.indexes, context)
    ensures g in draft.groups && g.id !in draft.indexes.existingGroups <==> IsGroupCreated(g, extract, context)
  {
    SourceIdIsGroup(draft.indexes, context, g.id);
    if g in draft.groups {
      var o :| o in draft.objects && o.companyGroupId.Some? && o.companyGroupId.value == g.id;
      ObjectSelected(draft, extract, context, o);
    }
    if o :| IsNew(o, extract, context) && o.companyGroupId == Some(g.id) && g in extract.companyGroups {
      ObjectSelected(draft, extract, context, o);
      assert g.id in GroupIds(draft.objects);
    }
  }

  lemma {:induction false} PlannedIsToCreate(draft: Draft, extract: ExtractResult, context: CrmContext, item: PlanItem)
    requires Selected(draft, extract) && IndexesContext(draft.indexes, context)
    ensures Planned(item, draft) <==> ToCreate(item, extract, context)
  {
    match item
    case GroupItem(g) => GroupSelected(draft, extract, context, g);
    case LeadItem(o) => ObjectSelected(draft, extract, context, o);
    case _ => DeveloperSelected(draft, extract, context, item.developer);
  }

  /** The operations are those of what is to be created. */
  ghost predicate CreatesAll(plan: seq<PlannedOperation>, extract: ExtractResult, context: CrmContext,
      settings: RegionSettings)
  {
    && (forall op <- plan :: IsCalledFor(op, extract, context, settings))
    && (forall item :: ToCreate(item, extract, context) ==> IsMet(item, plan, extract, context, settings))
  }

  ghost predicate IsCalledFor(op: PlannedOperation, extract: ExtractResult, context: CrmContext,
      settings: RegionSettings)
  {
    exists item :: ToCreate(item, extract, context) && IsOperationOf(op, item, extract, context, settings)
  }

  ghost predicate IsMet(item: PlanItem, plan: seq<PlannedOperation>, extract: ExtractResult, context: CrmContext,
      settings: RegionSettings)
  {
    exists op <- plan :: IsOperationOf(op, item, extract, context, settings)
  }

  ghost predicate IsDraftOf(draft: Draft, extract: ExtractResult, context: CrmContext, settings: RegionSettings) {
    && Selected(draft, extract) && IndexesContext(draft.indexes, context) && WellFormedContext(context)
    && ManagersKnown(settings, draft.indexes) && AllPlannable(Items(draft), draft.indexes)
  }

  lemma {:induction false} ItemCalledFor(draft: Draft, extract: ExtractResult, context: CrmContext,
      settings: RegionSettings, i: nat)
    requires IsDraftOf(draft, extract, context, settings) && i < |Items(draft)|
    ensures var item := Items(draft)[i];
            ToCreate(item, extract, context)
            && IsOperationOf(OperationOf(item, draft.indexes, context, settings), item, extract, context, settings)
  {
    ItemsArePlanned(draft);
    assert Items(draft)[i] in Items(draft);
    PlannedIsToCreate(draft, extract, context, Items(draft)[i]);
    OperationMeaning(Items(draft)[i], draft, extract, context, settings);
  }

  lemma {:induction false} ItemMet(draft: Draft, extract: ExtractResult, context: CrmContext, settings: RegionSettings,
      plan: seq<PlannedOperation>, item: PlanItem)
    requires IsDraftOf(draft, extract, context, settings) && ToCreate(item, extract, context)
    requires plan == Operations(Items(draft), draft.indexes, context, settings)
    ensures IsMet(item, plan, extract, context, settings)
  {
    PlannedIsToCreate(draft, extract, context, item);
    var i := PositionOf(draft, item);
    ItemCalledFor(draft, extract, context, settings, i);
    assert plan[i] in plan && IsOperationOf(plan[i], item, extract, context, settings);
  }

  lemma {:induction false} DraftMeaning(draft: Draft, extract: ExtractResult, context: CrmContext,
      settings: RegionSettings, plan: seq<PlannedOperation>)
    requires IsDraftOf(draft, extract, context, settings)
    requires plan == Operations(Items(draft), draft.indexes, context, settings)
    ensures CreatesAll(plan, extract, context, settings)
  {
    forall op | op in plan
      ensures IsCalledFor(op, extract, context, settings)
    {
      var i :| 0 <= i < |plan| && plan[i] == op;
      ItemCalledFor(draft, extract, context, settings, i);
    }
    forall item | ToCreate(item, extract, context)
      ensures IsMet(item, plan, extract, context, settings)
    {
      ItemMet(draft, extract, context, settings, plan, item);
    }
  }

  /**
   * A plan holds exactly the operations of what is to be created: the groups and developers of new objects that the
   * CRM does not know, and a lead of every new object. Each carries, in every field, what the extracted data, the
   * context and the settings say.
   */
  lemma {:induction false} PlanMeaning(extract: ExtractResult, context: CrmContext, settings: RegionSettings)
    requires WellFormedContext(context) && Transform(extract, context, settings).Ok?
    ensures CreatesAll(Transform(extract, context, settings).value, extract, context, settings)
  {
    PreparedSelects(extract, context, settings);
    PreparedIndexesContext(extract, context, settings);
    PreparedIsPlannable(extract, context, settings);
    DraftMeaning(Prepare(extract, context, settings).value, extract, context, settings,
                 Transform(extract, context, settings).value);
  }
}
