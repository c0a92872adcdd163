/** The four stored models, and the store that decodes what it encoded before it writes. */
module ArtifactStore {
  import opened Wrappers
  import opened Json
  import opened Contracts
  import opened Codec
  import opened CodecRoundTrips

  // ----- schemas -----

  function Record(name: string, fields: seq<Field>): (s: Schema)
    requires forall i :: 0 <= i < |fields| ==> WellFormedSchema(fields[i].schema)
    ensures WellFormedSchema(s)
  {
    SRecord(OtherClass(name), fields)
  }

  function Texts(names: seq<string>): (fields: seq<Field>)
    ensures forall i :: 0 <= i < |fields| ==> fields[i].schema == SStr
  {
    seq(|names|, i requires 0 <= i < |names| => Field(names[i], SStr))
  }

  /** A record whose fields are all text. */
  function TextRecord(name: string, names: seq<string>): (s: Schema)
    ensures WellFormedSchema(s)
  {
    Record(name, Texts(names))
  }

  /** A record of two plain fields. */
  function PairRecord(name: string, first: Field, second: Field): (s: Schema)
    requires WellFormedSchema(first.schema) && WellFormedSchema(second.schema)
    ensures WellFormedSchema(s)
  {
    Record(name, [first, second])
  }

  const OBJECT_TYPES := ["Жилое", "Нежилое"]
  const STATUSES := ["SUCCESS", "FAILED", "UNKNOWN", "BLOCKED"]

  function PeriodSchema(): (s: Schema)
    ensures WellFormedSchema(s)
  {
    SRecord(CommissioningPeriodClass, [
      Field("year", SInt), Field("quarter", SInt), Field("exact_date", SOption(SDate))])
  }

  function ObjectSchema(): (s: Schema)
    ensures WellFormedSchema(s)
  {
    SRecord(ExtractedObjectClass, [
      Field("id", SInt), Field("title", SStr), Field("address", SStr), Field("region_id", SInt),
      Field("publication_date", SDate), Field("commissioning_period", PeriodSchema()),
      Field("object_type", SEnum("ExtractedObjectTypeEnum", OBJECT_TYPES)), Field("developer_id", SInt),
      Field("company_group_id", SOption(SInt))])
  }

  function DeveloperSchema(): (s: Schema)
    ensures WellFormedSchema(s)
  {
    SRecord(ExtractedDeveloperClass, [
      Field("id", SInt), Field("short_name", SStr), Field("full_name", SStr), Field("inn", SStr), Field("kpp", SStr),
      Field("ogrn", SStr), Field("region_id", SInt), Field("legal_address", SStr), Field("fact_address", SStr),
      Field("contact_name", SStr), Field("phone", SStr), Field("email", SStr), Field("url", SOption(SStr)),
      Field("company_group_id", SOption(SInt))])
  }

  function GroupSchema(): (s: Schema)
    ensures WellFormedSchema(s)
  {
    SRecord(ExtractedCompanyGroupClass, [Field("id", SInt), Field("name", SStr)])
  }

  function ExtractResultSchema(): (s: Schema)
    ensures WellFormedSchema(s)
  {
    Record("ExtractResult", [
      Field("objects", SList(ObjectSchema())), Field("developers", SList(DeveloperSchema())),
      Field("company_groups", SList(GroupSchema()))])
  }

  const LEAD_FIELDS := [
    "source_building_id", "address", "publication_date", "building_type", "commissioning_period",
    "company_group_bitrix_id", "title", "assigned_by_id", "company_id", "source_id"]
  const DEVELOPER_FIELDS := ["contact_name", "title", "assigned_by_id", "company_type", "industry", "multifield"]
  const GROUP_FIELDS := ["source_company_group_id", "title", "source_id", "assigned_by_id"]
  const REQUISITE_FIELDS := [
    "entity_type_id", "entity_id_to_bind", "preset_id", "card_name", "details_name", "full_name", "inn", "kpp", "ogrn"]
  const ADDRESS_FIELDS := ["address_type_id", "entity_type_id_to_bind", "entity_id_to_bind", "address"]
  const MULTIFIELD_FIELDS := ["value_type", "value", "type_id"]

  function EntityFieldsSchema(): (s: Schema)
    ensures WellFormedSchema(s)
  {
    Record("CrmEntityFields", [
      Field("lead", TextRecord("LeadFieldsBindings", LEAD_FIELDS)),
      Field("developer", TextRecord("DeveloperFieldsBindings", DEVELOPER_FIELDS)),
      Field("company_group", TextRecord("CompanyGroupFieldsBindings", GROUP_FIELDS)),
      Field("requisite", TextRecord("RequisiteFieldsBindings", REQUISITE_FIELDS)),
      Field("address", TextRecord("AddressFieldsBindings", ADDRESS_FIELDS)),
      Field("multifield", TextRecord("MultiFieldFieldsBindings", MULTIFIELD_FIELDS))])
  }

  function EntityTypesSchema(): (s: Schema)
    ensures WellFormedSchema(s)
  {
    Record("CrmEntityTypeId", [
      Field("lead", SInt), Field("company", SInt), Field("company_group", SInt), Field("requisite", SInt)])
  }

  function StructureSchema(): (s: Schema)
    ensures WellFormedSchema(s)
  {
    PairRecord("CrmStructure", Field("entity_types", EntityTypesSchema()), Field("entity_fields", EntityFieldsSchema()))
  }

  const BUILDING_TYPES := ["residential", "non_residential"]
  const MULTIFIELD_TYPES := ["value_type", "phone_type_id", "email_type_id", "web_type_id"]

  function AddressTypesSchema(): (s: Schema)
    ensures WellFormedSchema(s)
  {
    PairRecord("CrmAddressType", Field("actual", SInt), Field("legal", SInt))
  }

  function ReferencesSchema(): (s: Schema)
    ensures WellFormedSchema(s)
  {
    Record("CrmReferences", [
      Field("source_id", SStr), Field("building_type", TextRecord("CrmBuildingType", BUILDING_TYPES)),
      Field("developer_industry_id", SStr), Field("developer_company_type_id", SStr),
      Field("organization_requisite_preset_id", SInt), Field("address_types", AddressTypesSchema()),
      Field("multifield", TextRecord("CrmMultiField", MULTIFIELD_TYPES))])
  }

  function ExistingLeadSchema(): (s: Schema)
    ensures WellFormedSchema(s)
  {
    PairRecord("ExistingCrmLead", Field("source_id", SInt), Field("crm_id", SInt))
  }

  function ExistingDeveloperSchema(): (s: Schema)
    ensures WellFormedSchema(s)
  {
    PairRecord("ExistingCrmDeveloper", Field("inn", SStr), Field("crm_id", SInt))
  }

  function ExistingGroupSchema(): (s: Schema)
    ensures WellFormedSchema(s)
  {
    PairRecord("ExistingCrmCompanyGroup", Field("source_id", SInt), Field("crm_id", SInt))
  }

  function ExistingSchema(): (s: Schema)
    ensures WellFormedSchema(s)
  {
    Record("ExistingCrmEntities", [
      Field("leads", STuple(ExistingLeadSchema())), Field("developers", STuple(ExistingDeveloperSchema())),
      Field("company_groups", STuple(ExistingGroupSchema()))])
  }

  function EmployeeSchema(): (s: Schema)
    ensures WellFormedSchema(s)
  {
    PairRecord("CrmEmployee", Field("configured_name", SStr), Field("crm_id", SInt))
  }

  function EmployeesSchema(): (s: Schema)
    ensures WellFormedSchema(s)
  {
    STuple(EmployeeSchema())
  }

  function ContextRecord(structure: Schema, references: Schema, existing: Schema, managers: Schema): (s: Schema)
    requires WellFormedSchema(structure) && WellFormedSchema(references)
    requires WellFormedSchema(existing) && WellFormedSchema(managers)
    ensures WellFormedSchema(s)
  {
    Record("CrmContext", [
      Field("structure", structure), Field("references", references), Field("existing", existing),
      Field("managers", managers)])
  }

  function CrmContextSchema(): (s: Schema)
    ensures WellFormedSchema(s)
  {
    ContextRecord(StructureSchema(), ReferencesSchema(), ExistingSchema(), EmployeesSchema())
  }

  function BindingSchema(): (s: Schema)
    ensures WellFormedSchema(s)
  {
    TextRecord("RuntimeBinding", ["field", "source_operation_id"])
  }

  function OperationFields(): (fields: seq<Field>)
    ensures |fields| == 4 && forall i :: 0 <= i < |fields| ==> WellFormedSchema(fields[i].schema)
  {
    [Field("operation_id", SStr), Field("command", SCommand), Field("bindings", STuple(BindingSchema())),
     Field("dependencies", STuple(SStr))]
  }

  function OperationSchema(): (s: Schema)
    ensures WellFormedSchema(s) && s == SRecord(OtherClass("PlannedOperation"), OperationFields())
  {
    Record("PlannedOperation", OperationFields())
  }

  function SyncPlanSchema(): (s: Schema)
    ensures WellFormedSchema(s)
  {
    Record("SyncPlan", [Field("operations", STuple(OperationSchema()))])
  }

  function ResultSchema(): (s: Schema)
    ensures WellFormedSchema(s)
  {
    Record("OperationResult", [
      Field("operation_id", SStr), Field("status", SEnum("OperationStatus", STATUSES)), Field("crm_id", SOption(SInt)),
      Field("error_type", SOption(SStr)), Field("blocked_by", STuple(SStr))])
  }

  function LoadResultSchema(): (s: Schema)
    ensures WellFormedSchema(s)
  {
    Record("LoadResult", [Field("operations", STuple(ResultSchema()))])
  }

  /** The models an artifact file may hold. */
  datatype StoredModel = ExtractedData | LoadedContext | CompiledPlan | LoadReport

  function SchemaOfModel(model: StoredModel): (s: Schema)
    ensures WellFormedSchema(s)
  {
    match model
    case ExtractedData => ExtractResultSchema()
    case LoadedContext => CrmContextSchema()
    case CompiledPlan => SyncPlanSchema()
    case LoadReport => LoadResultSchema()
  }

  /** Values of the type survive encoding, and documents that decode survive decoding. */
  ghost predicate RoundTrips(s: Schema, v: Value, j: Json) {
    && (HasType(PostInit, s, v) ==> Encode(v).Some? && Decode(PostInit, s, Encode(v).value) == Some(v))
    && (Decode(PostInit, s, j) == Some(v) ==> HasType(PostInit, s, v) && Encode(v) == Some(j))
  }

  lemma {:induction false} SchemaRoundTrips(s: Schema, v: Value, j: Json)
    requires WellFormedSchema(s)
    ensures RoundTrips(s, v, j)
  {
    if HasType(PostInit, s, v) {
      DecodeInvertsEncode(PostInit, s, v);
    }
    if Decode(PostInit, s, j) == Some(v) {
      EncodeInvertsDecode(PostInit, s, j);
    }
  }

  /** On the four stored models, decode and encode invert each other. */
  lemma {:induction false} StoredModelsRoundTrip(model: StoredModel, v: Value, j: Json)
    ensures RoundTrips(SchemaOfModel(model), v, j)
  {
    SchemaRoundTrips(SchemaOfModel(model), v, j);
  }

  // ----- Python equality -----

  /** What `==` looks at: the stored enums are strings, and `True`, `1` and `1.0` are one number. */
  function ComparedValue(v: Value): Value {
    match v
    case VEnum(_, text) => VStr(text)
    case VBool(b) => VFloat(if b then 1.0 else 0.0)
    case VInt(n) => VFloat(n as real)
    case VList(items) => VList(seq(|items|, i requires 0 <= i < |items| => ComparedValue(items[i])))
    case VTuple(items) => VTuple(seq(|items|, i requires 0 <= i < |items| => ComparedValue(items[i])))
    case VMap(entries) => VMap(map k | k in entries :: ComparedValue(entries[k]))
    case VRecord(cls, fields) => VRecord(cls, map k | k in fields :: ComparedValue(fields[k]))
    case _ => v
  }

  predicate PyEquals(a: Value, b: Value) {
    ComparedValue(a) == ComparedValue(b)
  }

  ghost predicate IsNumber(v: Value, r: real) {
    v == VFloat(r) || (v.VInt? && v.number as real == r) || (v.VBool? && r == if v.flag then 1.0 else 0.0)
  }

  ghost predicate IsText(v: Value, text: string) {
    v == VStr(text) || (v.VEnum? && v.text == text)
  }

  /** Python's `==`, part by part. */
  ghost predicate ValuesEqual(a: Value, b: Value) {
    || (a == b && (a.VNone? || a.VDate? || a.VOther?))
    || (exists r :: IsNumber(a, r) && IsNumber(b, r))
    || (exists text :: IsText(a, text) && IsText(b, text))
    || (((a.VList? && b.VList?) || (a.VTuple? && b.VTuple?))
        && |a.items| == |b.items| && forall i :: 0 <= i < |a.items| ==> ValuesEqual(a.items[i], b.items[i]))
    || (a.VMap? && b.VMap? && a.entries.Keys == b.entries.Keys
        && forall k <- a.entries :: ValuesEqual(a.entries[k], b.entries[k]))
    || (a.VRecord? && b.VRecord? && a.recordClass == b.recordClass && a.fields.Keys == b.fields.Keys
        && forall k <- a.fields :: ValuesEqual(a.fields[k], b.fields[k]))
  }

  lemma {:induction false} ComparedAtoms(v: Value)
    ensures forall r :: IsNumber(v, r) <==> ComparedValue(v) == VFloat(r)
    ensures forall text :: IsText(v, text) <==> ComparedValue(v) == VStr(text)
  {
  }

  lemma {:induction false} ComparedItems(a: Value, b: Value, x: seq<Value>, y: seq<Value>)
    requires (a.VList? && b.VList?) || (a.VTuple? && b.VTuple?)
    requires x == ComparedValue(a).items && y == ComparedValue(b).items
    ensures x == y <==>
              |a.items| == |b.items| && forall i :: 0 <= i < |a.items| ==> ValuesEqual(a.items[i], b.items[i])
    decreases a, 0
  {
    forall i | 0 <= i < |a.items| && i < |b.items|
      ensures x[i] == y[i] <==> ValuesEqual(a.items[i], b.items[i])
    {
      EqualsMeaning(a.items[i], b.items[i]);
    }
    assert x == y <==> |x| == |y| && forall i :: 0 <= i < |x| ==> x[i] == y[i];
  }

  lemma {:induction false} ComparedEntries(v: Value, a: map<string, Value>, b: map<string, Value>,
      x: map<string, Value>, y: map<string, Value>)
    requires forall k <- a :: a[k] < v
    requires x == (map k | k in a :: ComparedValue(a[k])) && y == (map k | k in b :: ComparedValue(b[k]))
    ensures x == y <==> a.Keys == b.Keys && forall k <- a :: ValuesEqual(a[k], b[k])
    decreases v, 0
  {
    forall k | k in a && k in b
      ensures x[k] == y[k] <==> ValuesEqual(a[k], b[k])
    {
      EqualsMeaning(a[k], b[k]);
    }
    assert x.Keys == a.Keys && y.Keys == b.Keys;
    assert x == y <==> x.Keys == y.Keys && forall k <- x :: x[k] == y[k];
  }

  predicate IsContainer(v: Value) {
    v.VList? || v.VTuple? || v.VMap? || v.VRecord?
  }

  lemma {:induction false} ComparedAtom(a: Value, b: Value)
    requires !IsContainer(a)
    ensures PyEquals(a, b) <==> ValuesEqual(a, b)
  {
    var x := ComparedValue(a);
    ComparedAtoms(a);
    ComparedAtoms(b);
    if PyEquals(a, b) {
      assert x.VFloat? ==> IsNumber(a, x.real_) && IsNumber(b, x.real_);
      assert x.VStr? ==> IsText(a, x.text) && IsText(b, x.text);
    }
  }

  /** What equality is: the same number, the same text, or equal parts in the same arrangement. */
  lemma {:induction false} EqualsMeaning(a: Value, b: Value)
    ensures PyEquals(a, b) <==> ValuesEqual(a, b)
    decreases a, 1
  {
    var x, y := ComparedValue(a), ComparedValue(b);
    if !IsContainer(a) {
      ComparedAtom(a, b);
    } else if (a.VList? && b.VList?) || (a.VTuple? && b.VTuple?) {
      ComparedItems(a, b, x.items, y.items);
    } else if a.VMap? && b.VMap? {
      ComparedEntries(a, a.entries, b.entries, x.entries, y.entries);
    } else if a.VRecord? && b.VRecord? {
      ComparedEntries(a, a.fields, b.fields, x.fields, y.fields);
    }
  }

  // ----- the store -----

  /** The document `_save` writes. */
  function Envelope(data: Json): Json {
    JObject(map["schema_version" := JInt(1), "data" := data])
  }

  /** `read_typed_artifact` on a stored document. */
  function Open(s: Schema, document: Json): Option<Value> {
    if !document.JObject? || document.members.Keys != {"schema_version", "data"} then None
    else if document.members["schema_version"] != JInt(1) then None
    else Decode(PostInit, s, document.members["data"])
  }

  /** The guard of `_save`: the value encodes, and what decodes from that equals it. */
  predicate Storable(s: Schema, v: Value) {
    && Encode(v).Some?
    && Decode(PostInit, s, Encode(v).value).Some?
    && PyEquals(Decode(PostInit, s, Encode(v).value).value, v)
  }

  lemma {:induction false} EnvelopeOpens(s: Schema, data: Json)
    ensures Open(s, Envelope(data)) == Decode(PostInit, s, data)
  {
    assert Envelope(data).members.Keys == {"schema_version", "data"};
  }

  /** A document opens as a value exactly if it is the envelope of the encoding of a value of that type. */
  ghost predicate Stores(s: Schema, document: Json, v: Value) {
    && HasType(PostInit, s, v) && Encode(v).Some?
    && document == JObject(map["schema_version" := JInt(1), "data" := Encode(v).value])
  }

  lemma {:induction false} OpenMeaning(s: Schema, document: Json, v: Value)
    requires WellFormedSchema(s)
    ensures Open(s, document) == Some(v) <==> Stores(s, document, v)
  {
    if Open(s, document) == Some(v) {
      var data := document.members["data"];
      assert document.members == map["schema_version" := JInt(1), "data" := data];
      EncodeInvertsDecode(PostInit, s, data);
    }
    if Stores(s, document, v) {
      EnvelopeOpens(s, Encode(v).value);
      DecodeInvertsEncode(PostInit, s, v);
    }
  }

  /** What the guard amounts to: some value of the declared type has the same encoding and is equal in Python. */
  lemma {:induction false} StorableMeaning(s: Schema, v: Value)
    requires WellFormedSchema(s)
    ensures Storable(s, v) <==>
              exists w :: HasType(PostInit, s, w) && Encode(w).Some? && Encode(w) == Encode(v) && PyEquals(w, v)
  {
    if Storable(s, v) {
      var w := Decode(PostInit, s, Encode(v).value).value;
      SchemaRoundTrips(s, w, Encode(v).value);
    }
    if w :| HasType(PostInit, s, w) && Encode(w).Some? && Encode(w) == Encode(v) && PyEquals(w, v) {
      SchemaRoundTrips(s, w, JNull);
    }
  }

  /** The document gives back a value equal in Python to the one saved. */
  ghost predicate GivesBack(s: Schema, document: Json, v: Value) {
    exists w :: Stores(s, document, w) && PyEquals(w, v)
  }

  ghost predicate Kept(s: Schema, document: Json, v: Value) {
    WellFormedSchema(s) ==> GivesBack(s, document, v)
  }

  lemma {:induction false} SavedIsKept(s: Schema, v: Value)
    requires Storable(s, v)
    ensures Kept(s, Envelope(Encode(v).value), v)
  {
    if WellFormedSchema(s) {
      StorableMeaning(s, v);
      var w :| HasType(PostInit, s, w) && Encode(w).Some? && Encode(w) == Encode(v) && PyEquals(w, v);
      assert Stores(s, Envelope(Encode(v).value), w);
    }
  }

  /** Encodes, and decodes again to see that nothing was lost. */
  method EncodeChecked(v: Value, s: Schema) returns (data: Option<Json>)
    ensures data == if Storable(s, v) then Encode(v) else None
  {
    data := Encode(v);
    if data.None? {
      return;
    }
    var decoded := Decode(PostInit, s, data.value);
    if decoded.None? || !PyEquals(decoded.value, v) {
      data := None;
    }
  }

  /** The directory of one run: file names and the JSON documents in them. */
  class RunArtifactStore {
    var files: map<string, Json>
    /** What was last saved under each name, and as what. */
    ghost var saved: map<string, (Schema, Value)>

    ghost predicate Valid()
      reads this
    {
      forall name <- saved :: name in files && Kept(saved[name].0, files[name], saved[name].1)
    }

    constructor ()
      ensures Valid() && files == map[] && saved == map[]
    {
      files, saved := map[], map[];
    }

    method Save(name: string, v: Value, s: Schema) returns (ok: bool)
      requires Valid()
      modifies this
      ensures Valid() && (ok <==> Storable(s, v))
      ensures saved == if ok then old(saved)[name := (s, v)] else old(saved)
      ensures files == if ok then old(files)[name := Envelope(Encode(v).value)] else old(files)
    {
      var data := EncodeChecked(v, s);
      if data.None? {
        return false;
      }
      SavedIsKept(s, v);
      files := files[name := Envelope(data.value)];
      saved := saved[name := (s, v)];
      return true;
    }

    /** Loads exactly the value of the type the document stores; what was saved under the name comes back equal. */
    method Load(name: string, s: Schema) returns (loaded: Option<Value>)
      requires Valid()
      ensures WellFormedSchema(s) ==>
                && (forall w :: loaded == Some(w) <==> name in files && Stores(s, files[name], w))
                && (name in saved && saved[name].0 == s ==> loaded.Some? && PyEquals(loaded.value, saved[name].1))
    {
      if name !in files {
        return None;
      }
      loaded := Open(s, files[name]);
      forall w | WellFormedSchema(s)
        ensures loaded == Some(w) <==> Stores(s, files[name], w)
      {
        OpenMeaning(s, files[name], w);
      }
    }
  }

  lemma {:induction false} TypedIsStored(s: Schema, v: Value)
    requires WellFormedSchema(s) && HasType(PostInit, s, v)
    ensures Storable(s, v) && Open(s, Envelope(Encode(v).value)) == Some(v)
  {
    SchemaRoundTrips(s, v, JNull);
    EnvelopeOpens(s, Encode(v).value);
  }

  /** Well-typed values of a stored model are always saved, and come back identical. */
  lemma {:induction false} WellTypedIsStored(model: StoredModel, v: Value)
    requires HasType(PostInit, SchemaOfModel(model), v)
    ensures Storable(SchemaOfModel(model), v)
    ensures Open(SchemaOfModel(model), Envelope(Encode(v).value)) == Some(v)
  {
    TypedIsStored(SchemaOfModel(model), v);
  }
}
