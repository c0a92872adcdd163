/** The data contracts of the synchronisation pipeline: extracted data, CRM context, plan and load result. */
module Contracts {
  import opened Wrappers
  import opened Text
  import opened Json

  /** The integers the extract contracts accept as identifiers. */
  type PositiveInt = n: int | 0 < n witness 1

  // ----- dates -----

  datatype RawDate = Date(year: int, month: int, day: int)

  predicate IsLeapYear(year: int) {
    year % 4 == 0 && (year % 100 != 0 || year % 400 == 0)
  }

  function DaysInMonth(year: int, month: int): int {
    if month == 2 then (if IsLeapYear(year) then 29 else 28)
    else if month in {4, 6, 9, 11} then 30
    else 31
  }

  /** What `datetime.date` can represent. */
  predicate IsDate(d: RawDate) {
    1 <= d.year <= 9999 && 1 <= d.month <= 12 && 1 <= d.day <= DaysInMonth(d.year, d.month)
  }

  type Date = d: RawDate | IsDate(d) witness RawDate.Date(1, 1, 1)

  function Pad2(n: nat): (s: string)
    requires n < 100
    ensures |s| == 2
  {
    [Digit(n / 10), Digit(n % 10)]
  }

  function Pad4(n: nat): (s: string)
    requires n < 10000
    ensures |s| == 4
  {
    Pad2(n / 100) + Pad2(n % 100)
  }

  /** `date.isoformat()`: the full-date of section 5.6 of RFC 3339. */
  function IsoFormat(d: Date): (s: string)
    ensures |s| == 10
  {
    Pad4(d.year) + "-" + Pad2(d.month) + "-" + Pad2(d.day)
  }

  // ----- extracted data -----

  datatype CommissioningPeriod = CommissioningPeriod(year: PositiveInt, quarter: PositiveInt, exactDate: Option<Date>)

  datatype ObjectType = Residential | NonResidential

  datatype ExtractedObject = ExtractedObject(
    id: PositiveInt, title: string, address: string, regionId: PositiveInt, publicationDate: Date,
    commissioningPeriod: CommissioningPeriod, objectType: ObjectType, developerId: PositiveInt,
    companyGroupId: Option<PositiveInt>)

  datatype ExtractedDeveloper = ExtractedDeveloper(
    id: PositiveInt, shortName: string, fullName: string, inn: string, kpp: string, ogrn: string,
    regionId: PositiveInt, legalAddress: string, factAddress: string, contactName: string, phone: string,
    email: string, url: Option<string>, companyGroupId: Option<PositiveInt>)

  datatype ExtractedCompanyGroup = ExtractedCompanyGroup(id: PositiveInt, name: string)

  datatype ExtractResult = ExtractResult(
    objects: seq<ExtractedObject>, developers: seq<ExtractedDeveloper>, companyGroups: seq<ExtractedCompanyGroup>)

  // ----- CRM context -----

  datatype LeadFields = LeadFields(
    sourceBuildingId: string, address: string, publicationDate: string, buildingType: string,
    commissioningPeriod: string, companyGroupBitrixId: string, title: string, assignedById: string,
    companyId: string, sourceId: string)

  datatype DeveloperFields = DeveloperFields(
    contactName: string, title: string, assignedById: string, companyType: string, industry: string,
    multifield: string)

  datatype CompanyGroupFields = CompanyGroupFields(
    sourceCompanyGroupId: string, title: string, sourceId: string, assignedById: string)

  datatype RequisiteFields = RequisiteFields(
    entityTypeId: string, entityIdToBind: string, presetId: string, cardName: string, detailsName: string,
    fullName: string, inn: string, kpp: string, ogrn: string)

  datatype AddressFields = AddressFields(
    addressTypeId: string, entityTypeIdToBind: string, entityIdToBind: string, address: string)

  datatype MultiFieldFields = MultiFieldFields(valueType: string, value: string, typeId: string)

  datatype EntityTypes = EntityTypes(lead: int, company: int, companyGroup: int, requisite: int)

  datatype EntityFields = EntityFields(
    lead: LeadFields, developer: DeveloperFields, companyGroup: CompanyGroupFields,
    requisite: RequisiteFields, address: AddressFields, multifield: MultiFieldFields)

  datatype CrmStructure = CrmStructure(entityTypes: EntityTypes, entityFields: EntityFields)

  datatype ExistingLead = ExistingLead(sourceId: int, crmId: int)
  datatype ExistingDeveloper = ExistingDeveloper(inn: string, crmId: int)
  datatype ExistingCompanyGroup = ExistingCompanyGroup(sourceId: int, crmId: int)

  datatype ExistingEntities = ExistingEntities(
    leads: seq<ExistingLead>, developers: seq<ExistingDeveloper>, companyGroups: seq<ExistingCompanyGroup>)

  datatype Employee = Employee(configuredName: string, crmId: int)

  datatype BuildingTypes = BuildingTypes(residential: string, nonResidential: string)
  datatype AddressTypes = AddressTypes(actual: int, legal: int)
  datatype MultiFieldTypes = MultiFieldTypes(
    valueType: string, phoneTypeId: string, emailTypeId: string, webTypeId: string)

  datatype References = References(
    sourceId: string, buildingType: BuildingTypes, developerIndustryId: string,
    developerCompanyTypeId: string, organizationRequisitePresetId: int, addressTypes: AddressTypes,
    multifield: MultiFieldTypes)

  datatype CrmContext = CrmContext(
    structure: CrmStructure, references: References, existing: ExistingEntities, managers: seq<Employee>)

  datatype RegionSettings = RegionSettings(defaultAssignedByName: string, assignment: map<int, string>)

  // ----- well-formedness the code assumes of a context and never checks -----

  ghost predicate DistinctNames(names: seq<string>) {
    && (forall i :: 0 <= i < |names| ==> HasText(names[i]))
    && (forall i, j :: 0 <= i < j < |names| ==> names[i] != names[j])
  }

  ghost predicate DistinctEntityTypes(t: EntityTypes) {
    && t.lead > 0 && t.company > 0 && t.companyGroup > 0 && t.requisite > 0
    && t.lead != t.company && t.lead != t.companyGroup && t.lead != t.requisite
    && t.company != t.companyGroup && t.company != t.requisite && t.companyGroup != t.requisite
  }

  function LeadNames(f: LeadFields): seq<string> {
    [f.sourceBuildingId, f.address, f.publicationDate, f.buildingType, f.commissioningPeriod,
     f.companyGroupBitrixId, f.title, f.assignedById, f.companyId, f.sourceId]
  }

  function RequisiteNames(f: RequisiteFields): seq<string> {
    [f.entityTypeId, f.entityIdToBind, f.presetId, f.cardName, f.detailsName, f.fullName, f.inn, f.kpp, f.ogrn]
  }

  function AddressNames(f: AddressFields): seq<string> {
    [f.addressTypeId, f.entityTypeIdToBind, f.entityIdToBind, f.address]
  }

  ghost predicate WellFormedFields(f: EntityFields) {
    && DistinctNames(LeadNames(f.lead))
    && DistinctNames([f.developer.contactName, f.developer.title, f.developer.assignedById,
                      f.developer.companyType, f.developer.industry, f.developer.multifield])
    && DistinctNames([f.companyGroup.sourceCompanyGroupId, f.companyGroup.title, f.companyGroup.sourceId,
                      f.companyGroup.assignedById])
    && DistinctNames(RequisiteNames(f.requisite))
    && DistinctNames(AddressNames(f.address))
    && DistinctNames([f.multifield.valueType, f.multifield.value, f.multifield.typeId])
  }

  ghost predicate WellFormedContext(c: CrmContext) {
    && DistinctEntityTypes(c.structure.entityTypes)
    && WellFormedFields(c.structure.entityFields)
    && c.references.organizationRequisitePresetId > 0
    && c.references.addressTypes.actual > 0 && c.references.addressTypes.legal > 0
    && (forall e :: e in c.existing.leads ==> e.crmId > 0)
    && (forall e :: e in c.existing.developers ==> e.crmId > 0)
    && (forall e :: e in c.existing.companyGroups ==> e.crmId > 0)
  }

  // ----- plan -----

  datatype CrmCommand =
    | AddItem(entityTypeId: int, fields: Fields)
    | AddRequisite(fields: Fields)
    | AddAddress(fields: Fields)

  datatype RuntimeBinding = RuntimeBinding(field: string, source: string)

  datatype PlannedOperation = PlannedOperation(
    id: string, command: CrmCommand, bindings: seq<RuntimeBinding>, dependencies: seq<string>)

  /** The ids of the operations of a plan. */
  ghost function Ids(ops: seq<PlannedOperation>): set<string> {
    set i | 0 <= i < |ops| :: ops[i].id
  }

  ghost predicate DistinctIds(ops: seq<PlannedOperation>) {
    forall i, j :: 0 <= i < j < |ops| ==> ops[i].id != ops[j].id
  }

  lemma {:induction false} IdsConcat(a: seq<PlannedOperation>, b: seq<PlannedOperation>)
    ensures Ids(a + b) == Ids(a) + Ids(b)
  {
    forall id | id in Ids(a) + Ids(b)
      ensures id in Ids(a + b)
    {
      if id in Ids(a) {
        var i :| 0 <= i < |a| && a[i].id == id;
        assert (a + b)[i].id == id;
      } else {
        var i :| 0 <= i < |b| && b[i].id == id;
        assert (a + b)[|a| + i].id == id;
      }
    }
  }

  function BindingSources(bindings: seq<RuntimeBinding>): (sources: seq<string>)
    ensures |sources| == |bindings|
    ensures forall i :: 0 <= i < |bindings| ==> sources[i] == bindings[i].source
  {
    seq(|bindings|, i requires 0 <= i < |bindings| => bindings[i].source)
  }

  // ----- load result -----

  datatype OperationStatus = Success | Failed | Unknown | Blocked

  datatype ErrorType = RequestFailedError | RequestUnknownError

  datatype OperationResult = OperationResult(
    operationId: string, status: OperationStatus, crmId: Option<int>, errorType: Option<ErrorType>,
    blockedBy: seq<string>)
}
