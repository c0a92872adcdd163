/** The CRM context as the codec sees it: every context is a well-typed value, so saving and loading gives it back. */
module StoredContexts {
  import opened Wrappers
  import opened Contracts
  import opened Unique
  import opened Codec
  import opened ArtifactStore
  import opened StoredRecords

  // ----- the CRM context: the names of fields -----

  function LeadFieldsParts(f: LeadFields): Entries {
    [("source_building_id", VStr(f.sourceBuildingId)), ("address", VStr(f.address)),
     ("publication_date", VStr(f.publicationDate)), ("building_type", VStr(f.buildingType)),
     ("commissioning_period", VStr(f.commissioningPeriod)), ("company_group_bitrix_id", VStr(f.companyGroupBitrixId)),
     ("title", VStr(f.title)), ("assigned_by_id", VStr(f.assignedById)), ("company_id", VStr(f.companyId)),
     ("source_id", VStr(f.sourceId))]
  }

  function LeadFieldsValue(f: LeadFields): Value {
    RecordValue(OtherClass("LeadFieldsBindings"), LeadFieldsParts(f))
  }

  lemma {:induction false} LeadFieldsKept(a: LeadFields, b: LeadFields)
    ensures HasType(PostInit, TextRecord("LeadFieldsBindings", LEAD_FIELDS), LeadFieldsValue(a))
    ensures LeadFieldsValue(a) == LeadFieldsValue(b) ==> a == b
  {
    var x, y := LeadFieldsParts(a), LeadFieldsParts(b);
    RecordKept("LeadFieldsBindings", LEAD_FIELDS, Texts(LEAD_FIELDS), x, y);
    assert x == y ==> forall i :: 0 <= i < 10 ==> x[i].1 == y[i].1;
  }

  function DeveloperFieldsParts(f: DeveloperFields): Entries {
    [("contact_name", VStr(f.contactName)), ("title", VStr(f.title)), ("assigned_by_id", VStr(f.assignedById)),
     ("company_type", VStr(f.companyType)), ("industry", VStr(f.industry)), ("multifield", VStr(f.multifield))]
  }

  function DeveloperFieldsValue(f: DeveloperFields): Value {
    RecordValue(OtherClass("DeveloperFieldsBindings"), DeveloperFieldsParts(f))
  }

  lemma {:induction false} DeveloperNamesDiffer()
    ensures NoRepeats(DEVELOPER_FIELDS)
  {
    var n := DEVELOPER_FIELDS;
    assert n[0][2] == 'n' && n[3][2] == 'm';
  }

  lemma {:induction false} DeveloperFieldsKept(a: DeveloperFields, b: DeveloperFields)
    ensures HasType(PostInit, TextRecord("DeveloperFieldsBindings", DEVELOPER_FIELDS), DeveloperFieldsValue(a))
    ensures DeveloperFieldsValue(a) == DeveloperFieldsValue(b) ==> a == b
  {
    var x, y := DeveloperFieldsParts(a), DeveloperFieldsParts(b);
    DeveloperNamesDiffer();
    RecordKept("DeveloperFieldsBindings", DEVELOPER_FIELDS, Texts(DEVELOPER_FIELDS), x, y);
    assert x == y ==> forall i :: 0 <= i < 6 ==> x[i].1 == y[i].1;
  }

  function GroupFieldsParts(f: CompanyGroupFields): Entries {
    [("source_company_group_id", VStr(f.sourceCompanyGroupId)), ("title", VStr(f.title)),
     ("source_id", VStr(f.sourceId)), ("assigned_by_id", VStr(f.assignedById))]
  }

  function GroupFieldsValue(f: CompanyGroupFields): Value {
    RecordValue(OtherClass("CompanyGroupFieldsBindings"), GroupFieldsParts(f))
  }

  lemma {:induction false} GroupFieldsKept(a: CompanyGroupFields, b: CompanyGroupFields)
    ensures HasType(PostInit, TextRecord("CompanyGroupFieldsBindings", GROUP_FIELDS), GroupFieldsValue(a))
    ensures GroupFieldsValue(a) == GroupFieldsValue(b) ==> a == b
  {
    var x, y := GroupFieldsParts(a), GroupFieldsParts(b);
    RecordKept("CompanyGroupFieldsBindings", GROUP_FIELDS, Texts(GROUP_FIELDS), x, y);
    assert x == y ==> forall i :: 0 <= i < 4 ==> x[i].1 == y[i].1;
  }

  function RequisiteFieldsParts(f: RequisiteFields): Entries {
    [("entity_type_id", VStr(f.entityTypeId)), ("entity_id_to_bind", VStr(f.entityIdToBind)),
     ("preset_id", VStr(f.presetId)), ("card_name", VStr(f.cardName)), ("details_name", VStr(f.detailsName)),
     ("full_name", VStr(f.fullName)), ("inn", VStr(f.inn)), ("kpp", VStr(f.kpp)), ("ogrn", VStr(f.ogrn))]
  }

  function RequisiteFieldsValue(f: RequisiteFields): Value {
    RecordValue(OtherClass("RequisiteFieldsBindings"), RequisiteFieldsParts(f))
  }

  lemma {:induction false} RequisiteNamesDiffer()
    ensures NoRepeats(REQUISITE_FIELDS)
  {
    var n := REQUISITE_FIELDS;
    assert n[2][0] == 'p' && n[3][0] == 'c' && n[5][0] == 'f' && n[6][0] == 'i' && n[7][0] == 'k';
  }

  lemma {:induction false} RequisiteFieldsKept(a: RequisiteFields, b: RequisiteFields)
    ensures HasType(PostInit, TextRecord("RequisiteFieldsBindings", REQUISITE_FIELDS), RequisiteFieldsValue(a))
    ensures RequisiteFieldsValue(a) == RequisiteFieldsValue(b) ==> a == b
  {
    var x, y := RequisiteFieldsParts(a), RequisiteFieldsParts(b);
    RequisiteNamesDiffer();
    RecordKept("RequisiteFieldsBindings", REQUISITE_FIELDS, Texts(REQUISITE_FIELDS), x, y);
    assert x == y ==> forall i :: 0 <= i < 9 ==> x[i].1 == y[i].1;
  }

  function AddressFieldsParts(f: AddressFields): Entries {
    [("address_type_id", VStr(f.addressTypeId)), ("entity_type_id_to_bind", VStr(f.entityTypeIdToBind)),
     ("entity_id_to_bind", VStr(f.entityIdToBind)), ("address", VStr(f.address))]
  }

  function AddressFieldsValue(f: AddressFields): Value {
    RecordValue(OtherClass("AddressFieldsBindings"), AddressFieldsParts(f))
  }

  lemma {:induction false} AddressFieldsKept(a: AddressFields, b: AddressFields)
    ensures HasType(PostInit, TextRecord("AddressFieldsBindings", ADDRESS_FIELDS), AddressFieldsValue(a))
    ensures AddressFieldsValue(a) == AddressFieldsValue(b) ==> a == b
  {
    var x, y := AddressFieldsParts(a), AddressFieldsParts(b);
    RecordKept("AddressFieldsBindings", ADDRESS_FIELDS, Texts(ADDRESS_FIELDS), x, y);
    assert x == y ==> forall i :: 0 <= i < 4 ==> x[i].1 == y[i].1;
  }

  function MultiFieldsParts(f: MultiFieldFields): Entries {
    [("value_type", VStr(f.valueType)), ("value", VStr(f.value)), ("type_id", VStr(f.typeId))]
  }

  function MultiFieldsValue(f: MultiFieldFields): Value {
    RecordValue(OtherClass("MultiFieldFieldsBindings"), MultiFieldsParts(f))
  }

  lemma {:induction false} MultiFieldsKept(a: MultiFieldFields, b: MultiFieldFields)
    ensures HasType(PostInit, TextRecord("MultiFieldFieldsBindings", MULTIFIELD_FIELDS), MultiFieldsValue(a))
    ensures MultiFieldsValue(a) == MultiFieldsValue(b) ==> a == b
  {
    var x, y := MultiFieldsParts(a), MultiFieldsParts(b);
    RecordKept("MultiFieldFieldsBindings", MULTIFIELD_FIELDS, Texts(MULTIFIELD_FIELDS), x, y);
    assert x == y ==> forall i :: 0 <= i < 3 ==> x[i].1 == y[i].1;
  }

  function EntityFieldsParts(f: EntityFields): Entries {
    [("lead", LeadFieldsValue(f.lead)), ("developer", DeveloperFieldsValue(f.developer)),
     ("company_group", GroupFieldsValue(f.companyGroup)), ("requisite", RequisiteFieldsValue(f.requisite)),
     ("address", AddressFieldsValue(f.address)), ("multifield", MultiFieldsValue(f.multifield))]
  }

  function EntityFieldsValue(f: EntityFields): Value {
    RecordValue(OtherClass("CrmEntityFields"), EntityFieldsParts(f))
  }

  const ENTITY_NAMES := ["lead", "developer", "company_group", "requisite", "address", "multifield"]

  lemma {:induction false} EntityFieldsNamesDiffer()
    ensures NoRepeats(ENTITY_NAMES)
  {
    var n := ENTITY_NAMES;
    assert n[1][0] == 'd' && n[3][0] == 'r';
  }

  lemma {:induction false} EntityFieldsTyped(f: EntityFields)
    ensures HasType(PostInit, EntityFieldsSchema(), EntityFieldsValue(f))
  {
    EntityFieldsNamesDiffer();
    LeadFieldsKept(f.lead, f.lead);
    DeveloperFieldsKept(f.developer, f.developer);
    GroupFieldsKept(f.companyGroup, f.companyGroup);
    RequisiteFieldsKept(f.requisite, f.requisite);
    AddressFieldsKept(f.address, f.address);
    MultiFieldsKept(f.multifield, f.multifield);
    SixTyped("CrmEntityFields", ENTITY_NAMES, Field("lead", TextRecord("LeadFieldsBindings", LEAD_FIELDS)),
             Field("developer", TextRecord("DeveloperFieldsBindings", DEVELOPER_FIELDS)),
             Field("company_group", TextRecord("CompanyGroupFieldsBindings", GROUP_FIELDS)),
             Field("requisite", TextRecord("RequisiteFieldsBindings", REQUISITE_FIELDS)),
             Field("address", TextRecord("AddressFieldsBindings", ADDRESS_FIELDS)),
             Field("multifield", TextRecord("MultiFieldFieldsBindings", MULTIFIELD_FIELDS)), LeadFieldsValue(f.lead),
             DeveloperFieldsValue(f.developer), GroupFieldsValue(f.companyGroup), RequisiteFieldsValue(f.requisite),
             AddressFieldsValue(f.address), MultiFieldsValue(f.multifield));
  }

  lemma {:induction false} EntityFieldsDiffer(a: EntityFields, b: EntityFields)
    requires EntityFieldsValue(a) == EntityFieldsValue(b)
    ensures a == b
  {
    var x, y := EntityFieldsParts(a), EntityFieldsParts(b);
    EntityFieldsNamesDiffer();
    RecordsDiffer(ENTITY_NAMES, x, y);
    assert a.lead == b.lead by {
      assert x[0].1 == y[0].1;
      LeadFieldsKept(a.lead, b.lead);
    }
    assert a.developer == b.developer by {
      assert x[1].1 == y[1].1;
      DeveloperFieldsKept(a.developer, b.developer);
    }
    assert a.companyGroup == b.companyGroup by {
      assert x[2].1 == y[2].1;
      GroupFieldsKept(a.companyGroup, b.companyGroup);
    }
    assert a.requisite == b.requisite by {
      assert x[3].1 == y[3].1;
      RequisiteFieldsKept(a.requisite, b.requisite);
    }
    assert a.address == b.address by {
      assert x[4].1 == y[4].1;
      AddressFieldsKept(a.address, b.address);
    }
    assert a.multifield == b.multifield by {
      assert x[5].1 == y[5].1;
      MultiFieldsKept(a.multifield, b.multifield);
    }
  }

  // ----- the CRM context: types, references and existing entities -----

  function EntityTypesParts(t: EntityTypes): Entries {
    [("lead", VInt(t.lead)), ("company", VInt(t.company)), ("company_group", VInt(t.companyGroup)),
     ("requisite", VInt(t.requisite))]
  }

  function EntityTypesValue(t: EntityTypes): Value {
    RecordValue(OtherClass("CrmEntityTypeId"), EntityTypesParts(t))
  }

  lemma {:induction false} EntityTypesKept(a: EntityTypes, b: EntityTypes)
    ensures HasType(PostInit, EntityTypesSchema(), EntityTypesValue(a))
    ensures EntityTypesValue(a) == EntityTypesValue(b) ==> a == b
  {
    var x, y := EntityTypesParts(a), EntityTypesParts(b);
    var names := ["lead", "company", "company_group", "requisite"];
    RecordKept("CrmEntityTypeId", names, EntityTypesSchema().fields, x, y);
    assert x == y ==> forall i :: 0 <= i < 4 ==> x[i].1 == y[i].1;
  }

  function StructureParts(s: CrmStructure): Entries {
    [("entity_types", EntityTypesValue(s.entityTypes)), ("entity_fields", EntityFieldsValue(s.entityFields))]
  }

  function StructureValue(s: CrmStructure): Value {
    RecordValue(OtherClass("CrmStructure"), StructureParts(s))
  }

  const STRUCTURE_NAMES := ["entity_types", "entity_fields"]

  lemma {:induction false} StructureNamesDiffer()
    ensures NoRepeats(STRUCTURE_NAMES)
  {
  }

  lemma {:induction false} StructureTyped(s: CrmStructure)
    ensures HasType(PostInit, StructureSchema(), StructureValue(s))
  {
    StructureNamesDiffer();
    EntityTypesKept(s.entityTypes, s.entityTypes);
    EntityFieldsTyped(s.entityFields);
    TwoTyped("CrmStructure", STRUCTURE_NAMES, Field("entity_types", EntityTypesSchema()),
             Field("entity_fields", EntityFieldsSchema()), EntityTypesValue(s.entityTypes),
             EntityFieldsValue(s.entityFields));
  }

  lemma {:induction false} StructureDiffer(a: CrmStructure, b: CrmStructure)
    requires StructureValue(a) == StructureValue(b)
    ensures a == b
  {
    var x, y := StructureParts(a), StructureParts(b);
    StructureNamesDiffer();
    RecordsDiffer(STRUCTURE_NAMES, x, y);
    assert a.entityTypes == b.entityTypes by {
      assert x[0].1 == y[0].1;
      EntityTypesKept(a.entityTypes, b.entityTypes);
    }
    assert a.entityFields == b.entityFields by {
      assert x[1].1 == y[1].1;
      EntityFieldsDiffer(a.entityFields, b.entityFields);
    }
  }

  function BuildingTypesParts(t: BuildingTypes): Entries {
    [("residential", VStr(t.residential)), ("non_residential", VStr(t.nonResidential))]
  }

  function BuildingTypesValue(t: BuildingTypes): Value {
    RecordValue(OtherClass("CrmBuildingType"), BuildingTypesParts(t))
  }

  lemma {:induction false} BuildingTypesKept(a: BuildingTypes, b: BuildingTypes)
    ensures HasType(PostInit, TextRecord("CrmBuildingType", BUILDING_TYPES), BuildingTypesValue(a))
    ensures BuildingTypesValue(a) == BuildingTypesValue(b) ==> a == b
  {
    var x, y := BuildingTypesParts(a), BuildingTypesParts(b);
    RecordKept("CrmBuildingType", BUILDING_TYPES, Texts(BUILDING_TYPES), x, y);
    assert x == y ==> forall i :: 0 <= i < 2 ==> x[i].1 == y[i].1;
  }

  function AddressTypesParts(t: AddressTypes): Entries {
    [("actual", VInt(t.actual)), ("legal", VInt(t.legal))]
  }

  function AddressTypesValue(t: AddressTypes): Value {
    RecordValue(OtherClass("CrmAddressType"), AddressTypesParts(t))
  }

  lemma {:induction false} AddressTypesKept(a: AddressTypes, b: AddressTypes)
    ensures HasType(PostInit, AddressTypesSchema(), AddressTypesValue(a))
    ensures AddressTypesValue(a) == AddressTypesValue(b) ==> a == b
  {
    var x, y := AddressTypesParts(a), AddressTypesParts(b);
    var names := ["actual", "legal"];
    RecordKept("CrmAddressType", names, AddressTypesSchema().fields, x, y);
    assert x == y ==> forall i :: 0 <= i < 2 ==> x[i].1 == y[i].1;
  }

  function MultiFieldTypesParts(t: MultiFieldTypes): Entries {
    [("value_type", VStr(t.valueType)), ("phone_type_id", VStr(t.phoneTypeId)), ("email_type_id", VStr(t.emailTypeId)),
     ("web_type_id", VStr(t.webTypeId))]
  }

  function MultiFieldTypesValue(t: MultiFieldTypes): Value {
    RecordValue(OtherClass("CrmMultiField"), MultiFieldTypesParts(t))
  }

  lemma {:induction false} MultiFieldTypeNamesDiffer()
    ensures NoRepeats(MULTIFIELD_TYPES)
  {
    var n := MULTIFIELD_TYPES;
    assert n[1][0] == 'p' && n[2][0] == 'e';
  }

  lemma {:induction false} MultiFieldTypesKept(a: MultiFieldTypes, b: MultiFieldTypes)
    ensures HasType(PostInit, TextRecord("CrmMultiField", MULTIFIELD_TYPES), MultiFieldTypesValue(a))
    ensures MultiFieldTypesValue(a) == MultiFieldTypesValue(b) ==> a == b
  {
    var x, y := MultiFieldTypesParts(a), MultiFieldTypesParts(b);
    MultiFieldTypeNamesDiffer();
    RecordKept("CrmMultiField", MULTIFIELD_TYPES, Texts(MULTIFIELD_TYPES), x, y);
    assert x == y ==> forall i :: 0 <= i < 4 ==> x[i].1 == y[i].1;
  }

  function ReferencesParts(r: References): Entries {
    [("source_id", VStr(r.sourceId)), ("building_type", BuildingTypesValue(r.buildingType)),
     ("developer_industry_id", VStr(r.developerIndustryId)),
     ("developer_company_type_id", VStr(r.developerCompanyTypeId)),
     ("organization_requisite_preset_id", VInt(r.organizationRequisitePresetId)),
     ("address_types", AddressTypesValue(r.addressTypes)), ("multifield", MultiFieldTypesValue(r.multifield))]
  }

  function ReferencesValue(r: References): Value {
    RecordValue(OtherClass("CrmReferences"), ReferencesParts(r))
  }

  const REFERENCE_NAMES := ["source_id", "building_type", "developer_industry_id", "developer_company_type_id",
    "organization_requisite_preset_id", "address_types", "multifield"]

  lemma {:induction false} ReferencesNamesDiffer()
    ensures NoRepeats(REFERENCE_NAMES)
  {
    var n := REFERENCE_NAMES;
    assert n[1][0] == 'b' && n[5][0] == 'a';
  }

  lemma {:induction false} ReferencesTyped(r: References)
    ensures HasType(PostInit, ReferencesSchema(), ReferencesValue(r))
  {
    ReferencesNamesDiffer();
    BuildingTypesKept(r.buildingType, r.buildingType);
    AddressTypesKept(r.addressTypes, r.addressTypes);
    MultiFieldTypesKept(r.multifield, r.multifield);
    SevenTyped("CrmReferences", REFERENCE_NAMES, Field("source_id", SStr),
               Field("building_type", TextRecord("CrmBuildingType", BUILDING_TYPES)),
               Field("developer_industry_id", SStr), Field("developer_company_type_id", SStr),
               Field("organization_requisite_preset_id", SInt),
               Field("address_types", AddressTypesSchema()),
               Field("multifield", TextRecord("CrmMultiField", MULTIFIELD_TYPES)),
               VStr(r.sourceId), BuildingTypesValue(r.buildingType), VStr(r.developerIndustryId),
               VStr(r.developerCompanyTypeId), VInt(r.organizationRequisitePresetId), AddressTypesValue(r.addressTypes),
               MultiFieldTypesValue(r.multifield));
  }

  lemma {:induction false} ReferencesDiffer(a: References, b: References)
    requires ReferencesValue(a) == ReferencesValue(b)
    ensures a == b
  {
    var x, y := ReferencesParts(a), ReferencesParts(b);
    ReferencesNamesDiffer();
    RecordsDiffer(REFERENCE_NAMES, x, y);
    assert a.sourceId == b.sourceId by { assert x[0].1 == y[0].1; }
    assert a.buildingType == b.buildingType by {
      assert x[1].1 == y[1].1;
      BuildingTypesKept(a.buildingType, b.buildingType);
    }
    assert a.developerIndustryId == b.developerIndustryId by { assert x[2].1 == y[2].1; }
    assert a.developerCompanyTypeId == b.developerCompanyTypeId by { assert x[3].1 == y[3].1; }
    assert a.organizationRequisitePresetId == b.organizationRequisitePresetId by { assert x[4].1 == y[4].1; }
    assert a.addressTypes == b.addressTypes by {
      assert x[5].1 == y[5].1;
      AddressTypesKept(a.addressTypes, b.addressTypes);
    }
    assert a.multifield == b.multifield by {
      assert x[6].1 == y[6].1;
      MultiFieldTypesKept(a.multifield, b.multifield);
    }
  }

  function ExistingLeadParts(e: ExistingLead): Entries {
    [("source_id", VInt(e.sourceId)), ("crm_id", VInt(e.crmId))]
  }

  function ExistingLeadValue(e: ExistingLead): Value {
    RecordValue(OtherClass("ExistingCrmLead"), ExistingLeadParts(e))
  }

  lemma {:induction false} ExistingLeadKept(a: ExistingLead, b: ExistingLead)
    ensures HasType(PostInit, ExistingLeadSchema(), ExistingLeadValue(a))
    ensures ExistingLeadValue(a) == ExistingLeadValue(b) ==> a == b
  {
    var x, y := ExistingLeadParts(a), ExistingLeadParts(b);
    var names := ["source_id", "crm_id"];
    RecordKept("ExistingCrmLead", names, ExistingLeadSchema().fields, x, y);
    assert x == y ==> forall i :: 0 <= i < 2 ==> x[i].1 == y[i].1;
  }

  function ExistingDeveloperParts(e: ExistingDeveloper): Entries {
    [("inn", VStr(e.inn)), ("crm_id", VInt(e.crmId))]
  }

  function ExistingDeveloperValue(e: ExistingDeveloper): Value {
    RecordValue(OtherClass("ExistingCrmDeveloper"), ExistingDeveloperParts(e))
  }

  lemma {:induction false} ExistingDeveloperKept(a: ExistingDeveloper, b: ExistingDeveloper)
    ensures HasType(PostInit, ExistingDeveloperSchema(), ExistingDeveloperValue(a))
    ensures ExistingDeveloperValue(a) == ExistingDeveloperValue(b) ==> a == b
  {
    var x, y := ExistingDeveloperParts(a), ExistingDeveloperParts(b);
    var names := ["inn", "crm_id"];
    RecordKept("ExistingCrmDeveloper", names, ExistingDeveloperSchema().fields, x, y);
    assert x == y ==> forall i :: 0 <= i < 2 ==> x[i].1 == y[i].1;
  }

  function ExistingGroupParts(e: ExistingCompanyGroup): Entries {
    [("source_id", VInt(e.sourceId)), ("crm_id", VInt(e.crmId))]
  }

  function ExistingGroupValue(e: ExistingCompanyGroup): Value {
    RecordValue(OtherClass("ExistingCrmCompanyGroup"), ExistingGroupParts(e))
  }

  lemma {:induction false} ExistingGroupKept(a: ExistingCompanyGroup, b: ExistingCompanyGroup)
    ensures HasType(PostInit, ExistingGroupSchema(), ExistingGroupValue(a))
    ensures ExistingGroupValue(a) == ExistingGroupValue(b) ==> a == b
  {
    var x, y := ExistingGroupParts(a), ExistingGroupParts(b);
    var names := ["source_id", "crm_id"];
    RecordKept("ExistingCrmCompanyGroup", names, ExistingGroupSchema().fields, x, y);
    assert x == y ==> forall i :: 0 <= i < 2 ==> x[i].1 == y[i].1;
  }

  function EmployeeParts(e: Employee): Entries {
    [("configured_name", VStr(e.configuredName)), ("crm_id", VInt(e.crmId))]
  }

  function EmployeeValue(e: Employee): Value {
    RecordValue(OtherClass("CrmEmployee"), EmployeeParts(e))
  }

  lemma {:induction false} EmployeeKept(a: Employee, b: Employee)
    ensures HasType(PostInit, EmployeeSchema(), EmployeeValue(a))
    ensures EmployeeValue(a) == EmployeeValue(b) ==> a == b
  {
    var x, y := EmployeeParts(a), EmployeeParts(b);
    var names := ["configured_name", "crm_id"];
    RecordKept("CrmEmployee", names, EmployeeSchema().fields, x, y);
    assert x == y ==> forall i :: 0 <= i < 2 ==> x[i].1 == y[i].1;
  }

  lemma {:induction false} ExistingLeadsKept(xs: seq<ExistingLead>, ys: seq<ExistingLead>)
    ensures HasType(PostInit, STuple(ExistingLeadSchema()), VTuple(Values(xs, ExistingLeadValue)))
    ensures Values(xs, ExistingLeadValue) == Values(ys, ExistingLeadValue) ==> xs == ys
  {
    var element := ExistingLeadSchema();
    forall e: ExistingLead, g: ExistingLead
      ensures HasType(PostInit, element, ExistingLeadValue(e))
      ensures ExistingLeadValue(e) == ExistingLeadValue(g) ==> e == g
    {
      ExistingLeadKept(e, g);
    }
    ValuesKept(element, xs, ys, ExistingLeadValue);
  }

  lemma {:induction false} ExistingDevelopersKept(xs: seq<ExistingDeveloper>, ys: seq<ExistingDeveloper>)
    ensures HasType(PostInit, STuple(ExistingDeveloperSchema()), VTuple(Values(xs, ExistingDeveloperValue)))
    ensures Values(xs, ExistingDeveloperValue) == Values(ys, ExistingDeveloperValue) ==> xs == ys
  {
    var element := ExistingDeveloperSchema();
    forall e: ExistingDeveloper, g: ExistingDeveloper
      ensures HasType(PostInit, element, ExistingDeveloperValue(e))
      ensures ExistingDeveloperValue(e) == ExistingDeveloperValue(g) ==> e == g
    {
      ExistingDeveloperKept(e, g);
    }
    ValuesKept(element, xs, ys, ExistingDeveloperValue);
  }

  lemma {:induction false} ExistingGroupsKept(xs: seq<ExistingCompanyGroup>, ys: seq<ExistingCompanyGroup>)
    ensures HasType(PostInit, STuple(ExistingGroupSchema()), VTuple(Values(xs, ExistingGroupValue)))
    ensures Values(xs, ExistingGroupValue) == Values(ys, ExistingGroupValue) ==> xs == ys
  {
    var element := ExistingGroupSchema();
    forall e: ExistingCompanyGroup, g: ExistingCompanyGroup
      ensures HasType(PostInit, element, ExistingGroupValue(e))
      ensures ExistingGroupValue(e) == ExistingGroupValue(g) ==> e == g
    {
      ExistingGroupKept(e, g);
    }
    ValuesKept(element, xs, ys, ExistingGroupValue);
  }

  lemma {:induction false} EmployeesKept(xs: seq<Employee>, ys: seq<Employee>)
    ensures HasType(PostInit, STuple(EmployeeSchema()), VTuple(Values(xs, EmployeeValue)))
    ensures Values(xs, EmployeeValue) == Values(ys, EmployeeValue) ==> xs == ys
  {
    var element := EmployeeSchema();
    forall e: Employee, g: Employee
      ensures HasType(PostInit, element, EmployeeValue(e))
      ensures EmployeeValue(e) == EmployeeValue(g) ==> e == g
    {
      EmployeeKept(e, g);
    }
    ValuesKept(element, xs, ys, EmployeeValue);
  }

  function ExistingParts(e: ExistingEntities): Entries {
    [("leads", VTuple(Values(e.leads, ExistingLeadValue))),
     ("developers", VTuple(Values(e.developers, ExistingDeveloperValue))),
     ("company_groups", VTuple(Values(e.companyGroups, ExistingGroupValue)))]
  }

  function ExistingValue(e: ExistingEntities): Value {
    RecordValue(OtherClass("ExistingCrmEntities"), ExistingParts(e))
  }

  const EXISTING_NAMES := ["leads", "developers", "company_groups"]

  lemma {:induction false} ExistingNamesDiffer()
    ensures NoRepeats(EXISTING_NAMES)
  {
  }

  lemma {:induction false} ExistingTyped(e: ExistingEntities)
    ensures HasType(PostInit, ExistingSchema(), ExistingValue(e))
  {
    ExistingNamesDiffer();
    ExistingLeadsKept(e.leads, e.leads);
    ExistingDevelopersKept(e.developers, e.developers);
    ExistingGroupsKept(e.companyGroups, e.companyGroups);
    ThreeTyped(PostInit, "ExistingCrmEntities", EXISTING_NAMES,
               Field("leads", STuple(ExistingLeadSchema())),
               Field("developers", STuple(ExistingDeveloperSchema())),
               Field("company_groups", STuple(ExistingGroupSchema())),
               VTuple(Values(e.leads, ExistingLeadValue)), VTuple(Values(e.developers, ExistingDeveloperValue)),
               VTuple(Values(e.companyGroups, ExistingGroupValue)));
  }

  lemma {:induction false} ExistingDiffer(a: ExistingEntities, b: ExistingEntities)
    requires ExistingValue(a) == ExistingValue(b)
    ensures a == b
  {
    var x, y := ExistingParts(a), ExistingParts(b);
    ExistingNamesDiffer();
    RecordsDiffer(EXISTING_NAMES, x, y);
    assert a.leads == b.leads by {
      assert x[0].1 == y[0].1;
      ExistingLeadsKept(a.leads, b.leads);
    }
    assert a.developers == b.developers by {
      assert x[1].1 == y[1].1;
      ExistingDevelopersKept(a.developers, b.developers);
    }
    assert a.companyGroups == b.companyGroups by {
      assert x[2].1 == y[2].1;
      ExistingGroupsKept(a.companyGroups, b.companyGroups);
    }
  }

  function ContextParts(c: CrmContext): Entries {
    [("structure", StructureValue(c.structure)), ("references", ReferencesValue(c.references)),
     ("existing", ExistingValue(c.existing)), ("managers", VTuple(Values(c.managers, EmployeeValue)))]
  }

  function ContextValue(c: CrmContext): Value {
    RecordValue(OtherClass("CrmContext"), ContextParts(c))
  }

  const CONTEXT_NAMES := ["structure", "references", "existing", "managers"]

  lemma {:induction false} ContextNamesDiffer()
    ensures NoRepeats(CONTEXT_NAMES)
  {
    var n := CONTEXT_NAMES;
    assert n[2][0] == 'e' && n[3][0] == 'm';
  }

  lemma {:induction false} ContextTyped(c: CrmContext)
    ensures HasType(PostInit, CrmContextSchema(), ContextValue(c))
  {
    ContextNamesDiffer();
    StructureTyped(c.structure);
    ReferencesTyped(c.references);
    ExistingTyped(c.existing);
    EmployeesKept(c.managers, c.managers);
    FourTyped("CrmContext", CONTEXT_NAMES, Field("structure", StructureSchema()),
              Field("references", ReferencesSchema()), Field("existing", ExistingSchema()),
              Field("managers", EmployeesSchema()), StructureValue(c.structure), ReferencesValue(c.references),
              ExistingValue(c.existing), VTuple(Values(c.managers, EmployeeValue)));
  }

  lemma {:induction false} ContextDiffer(a: CrmContext, b: CrmContext)
    requires ContextValue(a) == ContextValue(b)
    ensures a == b
  {
    var x, y := ContextParts(a), ContextParts(b);
    ContextNamesDiffer();
    RecordsDiffer(CONTEXT_NAMES, x, y);
    assert a.structure == b.structure by {
      assert x[0].1 == y[0].1;
      StructureDiffer(a.structure, b.structure);
    }
    assert a.references == b.references by {
      assert x[1].1 == y[1].1;
      ReferencesDiffer(a.references, b.references);
    }
    assert a.existing == b.existing by {
      assert x[2].1 == y[2].1;
      ExistingDiffer(a.existing, b.existing);
    }
    assert a.managers == b.managers by {
      assert x[3].1 == y[3].1;
      EmployeesKept(a.managers, b.managers);
    }
  }

  // ----- every context can be stored -----

  /** Every context can be saved, and what is loaded back is the value of that context and of no other. */
  lemma {:induction false} StoredContextIsTheContext(c: CrmContext, other: CrmContext)
    ensures Storable(CrmContextSchema(), ContextValue(c))
    ensures Open(CrmContextSchema(), Envelope(Encode(ContextValue(c)).value)) == Some(ContextValue(other)) <==>
              c == other
  {
    ContextTyped(c);
    TypedIsStored(CrmContextSchema(), ContextValue(c));
    if ContextValue(c) == ContextValue(other) {
      ContextDiffer(c, other);
    }
  }
}
