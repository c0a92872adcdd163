/**
 * The extracted data as the codec sees it: it can be saved exactly if it meets the conditions of its data classes,
 * and then comes back.
 */
module StoredExtracts {
  import opened Wrappers
  import opened Text
  import opened Contracts
  import opened Unique
  import opened Codec
  import opened CodecRoundTrips
  import opened ArtifactStore
  import opened StoredRecords

  function OptionalText(text: Option<string>): Value {
    if text.Some? then VStr(text.value) else VNone
  }

  function OptionalDate(date: Option<Date>): Value {
    if date.Some? then VDate(date.value) else VNone
  }

  function PeriodParts(p: CommissioningPeriod): Entries {
    [("year", VInt(p.year)), ("quarter", VInt(p.quarter)), ("exact_date", OptionalDate(p.exactDate))]
  }

  function PeriodValue(p: CommissioningPeriod): Value {
    RecordValue(CommissioningPeriodClass, PeriodParts(p))
  }

  function ObjectTypeText(type_: ObjectType): string {
    match type_
    case Residential => "Жилое"
    case NonResidential => "Нежилое"
  }

  function ObjectTypeValue(type_: ObjectType): Value {
    VEnum("ExtractedObjectTypeEnum", ObjectTypeText(type_))
  }

  function ObjectParts(o: ExtractedObject): Entries {
    [("id", VInt(o.id)), ("title", VStr(o.title)), ("address", VStr(o.address)), ("region_id", VInt(o.regionId)),
     ("publication_date", VDate(o.publicationDate)), ("commissioning_period", PeriodValue(o.commissioningPeriod)),
     ("object_type", ObjectTypeValue(o.objectType)),
     ("developer_id", VInt(o.developerId)), ("company_group_id", OptionalId(o.companyGroupId))]
  }

  function ObjectValue(o: ExtractedObject): Value {
    RecordValue(ExtractedObjectClass, ObjectParts(o))
  }

  function DeveloperParts(d: ExtractedDeveloper): Entries {
    [("id", VInt(d.id)), ("short_name", VStr(d.shortName)), ("full_name", VStr(d.fullName)), ("inn", VStr(d.inn)),
     ("kpp", VStr(d.kpp)), ("ogrn", VStr(d.ogrn)), ("region_id", VInt(d.regionId)),
     ("legal_address", VStr(d.legalAddress)), ("fact_address", VStr(d.factAddress)),
     ("contact_name", VStr(d.contactName)), ("phone", VStr(d.phone)), ("email", VStr(d.email)),
     ("url", OptionalText(d.url)), ("company_group_id", OptionalId(d.companyGroupId))]
  }

  function DeveloperValue(d: ExtractedDeveloper): Value {
    RecordValue(ExtractedDeveloperClass, DeveloperParts(d))
  }

  function GroupParts(g: ExtractedCompanyGroup): Entries {
    [("id", VInt(g.id)), ("name", VStr(g.name))]
  }

  function GroupValue(g: ExtractedCompanyGroup): Value {
    RecordValue(ExtractedCompanyGroupClass, GroupParts(g))
  }

  function ExtractParts(e: ExtractResult): Entries {
    [("objects", VList(Values(e.objects, ObjectValue))), ("developers", VList(Values(e.developers, DeveloperValue))),
     ("company_groups", VList(Values(e.companyGroups, GroupValue)))]
  }

  function ExtractValue(e: ExtractResult): Value {
    RecordValue(OtherClass("ExtractResult"), ExtractParts(e))
  }

  // ----- the conditions of the data classes -----

  /** A quarter, and an exact date in it if there is one. */
  ghost predicate ValidPeriod(p: CommissioningPeriod) {
    && p.quarter <= 4
    && (p.exactDate.Some? ==>
          p.exactDate.value.year == p.year && 3 * p.quarter - 2 <= p.exactDate.value.month <= 3 * p.quarter)
  }

  ghost predicate ValidObject(o: ExtractedObject) {
    HasText(o.title) && HasText(o.address)
  }

  ghost predicate ValidDeveloper(d: ExtractedDeveloper) {
    && HasText(d.shortName) && HasText(d.fullName) && HasText(d.inn) && HasText(d.kpp) && HasText(d.ogrn)
    && HasText(d.legalAddress) && HasText(d.factAddress) && HasText(d.contactName) && HasText(d.phone)
    && HasText(d.email) && (d.url.Some? ==> HasText(d.url.value))
  }

  /** No text is blank, and every commissioning period is a quarter that contains its exact date. */
  ghost predicate ValidExtract(e: ExtractResult) {
    && (forall o <- e.objects :: ValidObject(o) && ValidPeriod(o.commissioningPeriod))
    && (forall d <- e.developers :: ValidDeveloper(d))
    && (forall g <- e.companyGroups :: HasText(g.name))
  }

  // ----- the names of fields -----

  const PERIOD_NAMES := ["year", "quarter", "exact_date"]
  const OBJECT_NAMES := [
    "id", "title", "address", "region_id", "publication_date", "commissioning_period", "object_type", "developer_id",
    "company_group_id"]
  const DEVELOPER_NAMES := [
    "id", "short_name", "full_name", "inn", "kpp", "ogrn", "region_id", "legal_address", "fact_address",
    "contact_name", "phone", "email", "url", "company_group_id"]
  const GROUP_NAMES := ["id", "name"]
  const EXTRACT_NAMES := ["objects", "developers", "company_groups"]

  lemma {:induction false} ObjectNamesDiffer()
    ensures NoRepeats(OBJECT_NAMES)
  {
    var n := OBJECT_NAMES;
    assert n[4][0] == 'p' && n[8][0] == 'c';
  }

  lemma {:induction false} DeveloperNamesDiffer()
    ensures NoRepeats(DEVELOPER_NAMES)
  {
    var n := DEVELOPER_NAMES;
    assert n[2][0] == 'f' && n[6][0] == 'r' && n[3][0] == 'i' && n[4][0] == 'k' && n[12][0] == 'u';
    assert n[8][0] == 'f' && n[9][0] == 'c' && n[10][0] == 'p' && n[11][0] == 'e';
  }

  // ----- the entries are those of the declared fields -----

  lemma {:induction false} PeriodListed(p: CommissioningPeriod)
    ensures NamesFields(PERIOD_NAMES, PeriodSchema().fields) && NamesEntries(PERIOD_NAMES, PeriodParts(p))
  {
  }

  lemma {:induction false} ObjectFieldsNamed()
    ensures NamesFields(OBJECT_NAMES, ObjectSchema().fields)
  {
  }

  lemma {:induction false} ObjectListed(o: ExtractedObject)
    ensures NoRepeats(OBJECT_NAMES) && NamesEntries(OBJECT_NAMES, ObjectParts(o))
  {
    ObjectNamesDiffer();
  }

  lemma {:induction false} DeveloperFieldsNamed()
    ensures NamesFields(DEVELOPER_NAMES, DeveloperSchema().fields)
  {
  }

  lemma {:induction false} DeveloperListed(d: ExtractedDeveloper)
    ensures NoRepeats(DEVELOPER_NAMES) && NamesEntries(DEVELOPER_NAMES, DeveloperParts(d))
  {
    DeveloperNamesDiffer();
  }

  // ----- the class accepts the entries -----

  lemma {:induction false} PeriodAccepted(p: CommissioningPeriod)
    ensures PostInit(CommissioningPeriodClass, Members(PeriodParts(p))) <==> ValidPeriod(p)
  {
    var n := PERIOD_NAMES;
    MembersMeaning(n, PeriodParts(p));
    assert n[0] == "year" && n[1] == "quarter" && n[2] == "exact_date";
  }

  lemma {:induction false} ObjectMembers(o: ExtractedObject, names: seq<string>)
    requires names == OBJECT_NAMES
    ensures var m := Members(ObjectParts(o));
            && names[0] in m && m[names[0]] == VInt(o.id) && names[1] in m && m[names[1]] == VStr(o.title)
            && names[2] in m && m[names[2]] == VStr(o.address) && names[3] in m && m[names[3]] == VInt(o.regionId)
            && names[7] in m && m[names[7]] == VInt(o.developerId)
            && names[8] in m && m[names[8]] == OptionalId(o.companyGroupId)
  {
    ObjectListed(o);
    MembersMeaning(names, ObjectParts(o));
  }

  lemma {:induction false} ObjectAccepted(o: ExtractedObject)
    ensures PostInit(ExtractedObjectClass, Members(ObjectParts(o))) <==> ValidObject(o)
  {
    ObjectMembers(o, OBJECT_NAMES);
  }

  /** The first seven fields hold the developer's data under the given names. */
  ghost predicate HoldsRequisites(m: map<string, Value>, d: ExtractedDeveloper, names: seq<string>)
    requires |names| == 14
  {
    && (forall i :: 0 <= i < 7 ==> names[i] in m)
    && m[names[0]] == VInt(d.id) && m[names[1]] == VStr(d.shortName) && m[names[2]] == VStr(d.fullName)
    && m[names[3]] == VStr(d.inn) && m[names[4]] == VStr(d.kpp) && m[names[5]] == VStr(d.ogrn)
    && m[names[6]] == VInt(d.regionId)
  }

  /** And the other seven. */
  ghost predicate HoldsContacts(m: map<string, Value>, d: ExtractedDeveloper, names: seq<string>)
    requires |names| == 14
  {
    && (forall i :: 7 <= i < 14 ==> names[i] in m)
    && m[names[7]] == VStr(d.legalAddress) && m[names[8]] == VStr(d.factAddress)
    && m[names[9]] == VStr(d.contactName) && m[names[10]] == VStr(d.phone) && m[names[11]] == VStr(d.email)
    && m[names[12]] == OptionalText(d.url) && m[names[13]] == OptionalId(d.companyGroupId)
  }

  lemma {:induction false} RequisitesHeld(m: map<string, Value>, d: ExtractedDeveloper, names: seq<string>)
    requires |names| == |DeveloperParts(d)| == 14
    requires forall i :: 0 <= i < 14 ==> names[i] in m && m[names[i]] == DeveloperParts(d)[i].1
    ensures HoldsRequisites(m, d, names)
  {
  }

  lemma {:induction false} ContactsHeld(m: map<string, Value>, d: ExtractedDeveloper, names: seq<string>)
    requires |names| == |DeveloperParts(d)| == 14
    requires forall i :: 0 <= i < 14 ==> names[i] in m && m[names[i]] == DeveloperParts(d)[i].1
    ensures HoldsContacts(m, d, names)
  {
  }

  lemma {:induction false} DeveloperConditions(m: map<string, Value>, d: ExtractedDeveloper, names: seq<string>)
    requires names == DEVELOPER_NAMES && HoldsRequisites(m, d, names) && HoldsContacts(m, d, names)
    ensures PostInit(ExtractedDeveloperClass, m) <==> ValidDeveloper(d)
  {
  }

  lemma {:induction false} DeveloperAccepted(d: ExtractedDeveloper)
    ensures PostInit(ExtractedDeveloperClass, Members(DeveloperParts(d))) <==> ValidDeveloper(d)
  {
    DeveloperListed(d);
    MembersMeaning(DEVELOPER_NAMES, DeveloperParts(d));
    RequisitesHeld(Members(DeveloperParts(d)), d, DEVELOPER_NAMES);
    ContactsHeld(Members(DeveloperParts(d)), d, DEVELOPER_NAMES);
    DeveloperConditions(Members(DeveloperParts(d)), d, DEVELOPER_NAMES);
  }

  lemma {:induction false} GroupAccepted(g: ExtractedCompanyGroup)
    ensures PostInit(ExtractedCompanyGroupClass, Members(GroupParts(g))) <==> HasText(g.name)
  {
    var n := GROUP_NAMES;
    MembersMeaning(n, GroupParts(g));
    assert n[0] == "id" && n[1] == "name";
  }

  // ----- well typed up to the conditions of the classes -----

  /** Conditions that leave the collection of the extracted data itself alone. */
  ghost predicate AcceptsExtracts(init: Invariants) {
    forall fields :: init(OtherClass("ExtractResult"), fields)
  }

  lemma {:induction false} PeriodTyped(init: Invariants, p: CommissioningPeriod)
    ensures HasType(init, PeriodSchema(), PeriodValue(p)) <==>
              init(CommissioningPeriodClass, Members(PeriodParts(p)))
  {
    PeriodListed(p);
    assert EntriesTyped(init, PeriodSchema().fields, PeriodParts(p));
    RecordTyped(init, CommissioningPeriodClass, PERIOD_NAMES, PeriodSchema().fields, PeriodParts(p));
  }

  lemma {:induction false} ObjectPlainEntriesTyped(init: Invariants, o: ExtractedObject)
    ensures |ObjectSchema().fields| == |ObjectParts(o)| == 9
    ensures forall i :: 0 <= i < 5 || 7 <= i < 9 ==>
              HasType(init, ObjectSchema().fields[i].schema, ObjectParts(o)[i].1)
  {
  }

  lemma {:induction false} ObjectEntriesTyped(init: Invariants, o: ExtractedObject)
    ensures |ObjectSchema().fields| == |ObjectParts(o)|
    ensures EntriesTyped(init, ObjectSchema().fields, ObjectParts(o)) <==>
              HasType(init, PeriodSchema(), PeriodValue(o.commissioningPeriod))
  {
    var f, x := ObjectSchema().fields, ObjectParts(o);
    ObjectPlainEntriesTyped(init, o);
    ObjectTypeTyped(init, o.objectType);
    assert f[6].schema == SEnum("ExtractedObjectTypeEnum", OBJECT_TYPES) && x[6].1 == ObjectTypeValue(o.objectType);
    assert f[5].schema == PeriodSchema() && x[5].1 == PeriodValue(o.commissioningPeriod);
  }

  lemma {:induction false} ObjectTypeTyped(init: Invariants, type_: ObjectType)
    ensures HasType(init, SEnum("ExtractedObjectTypeEnum", OBJECT_TYPES), ObjectTypeValue(type_))
  {
    assert OBJECT_TYPES[0] == "Жилое" && OBJECT_TYPES[1] == "Нежилое";
  }

  lemma {:induction false} ObjectTyped(init: Invariants, o: ExtractedObject)
    ensures HasType(init, ObjectSchema(), ObjectValue(o)) <==>
              && init(ExtractedObjectClass, Members(ObjectParts(o)))
              && init(CommissioningPeriodClass, Members(PeriodParts(o.commissioningPeriod)))
  {
    ObjectFieldsNamed();
    ObjectListed(o);
    ObjectEntriesTyped(init, o);
    PeriodTyped(init, o.commissioningPeriod);
    RecordTyped(init, ExtractedObjectClass, OBJECT_NAMES, ObjectSchema().fields, ObjectParts(o));
  }

  lemma {:induction false} DeveloperRequisitesTyped(init: Invariants, d: ExtractedDeveloper)
    ensures |DeveloperSchema().fields| == |DeveloperParts(d)| == 14
    ensures forall i :: 0 <= i < 7 ==> HasType(init, DeveloperSchema().fields[i].schema, DeveloperParts(d)[i].1)
  {
  }

  lemma {:induction false} DeveloperContactsTyped(init: Invariants, d: ExtractedDeveloper)
    ensures |DeveloperSchema().fields| == |DeveloperParts(d)| == 14
    ensures forall i :: 7 <= i < 14 ==> HasType(init, DeveloperSchema().fields[i].schema, DeveloperParts(d)[i].1)
  {
  }

  lemma {:induction false} DeveloperTyped(init: Invariants, d: ExtractedDeveloper)
    ensures HasType(init, DeveloperSchema(), DeveloperValue(d)) <==>
              init(ExtractedDeveloperClass, Members(DeveloperParts(d)))
  {
    DeveloperFieldsNamed();
    DeveloperListed(d);
    DeveloperRequisitesTyped(init, d);
    DeveloperContactsTyped(init, d);
    RecordTyped(init, ExtractedDeveloperClass, DEVELOPER_NAMES, DeveloperSchema().fields, DeveloperParts(d));
  }

  lemma {:induction false} GroupTyped(init: Invariants, g: ExtractedCompanyGroup)
    ensures HasType(init, GroupSchema(), GroupValue(g)) <==>
              init(ExtractedCompanyGroupClass, Members(GroupParts(g)))
  {
    RecordTyped(init, ExtractedCompanyGroupClass, GROUP_NAMES, GroupSchema().fields, GroupParts(g));
  }

  /** Objects, developers and groups are lists of the given types. */
  ghost predicate ListsOf(init: Invariants, e: ExtractResult, building: Schema, developer: Schema,
      companyGroup: Schema)
  {
    && HasType(init, SList(building), VList(Values(e.objects, ObjectValue)))
    && HasType(init, SList(developer), VList(Values(e.developers, DeveloperValue)))
    && HasType(init, SList(companyGroup), VList(Values(e.companyGroups, GroupValue)))
  }

  lemma {:induction false} ListsTyped(init: Invariants, e: ExtractResult, building: Schema, developer: Schema,
      companyGroup: Schema)
    requires AcceptsExtracts(init)
    ensures HasRecordType(init, OtherClass("ExtractResult"),
                          [Field("objects", SList(building)), Field("developers", SList(developer)),
                           Field("company_groups", SList(companyGroup))], ExtractValue(e)) <==>
              ListsOf(init, e, building, developer, companyGroup)
  {
    ThreeTyped(init, "ExtractResult", EXTRACT_NAMES, Field("objects", SList(building)),
               Field("developers", SList(developer)), Field("company_groups", SList(companyGroup)),
               VList(Values(e.objects, ObjectValue)), VList(Values(e.developers, DeveloperValue)),
               VList(Values(e.companyGroups, GroupValue)));
  }

  lemma {:induction false} ExtractTyped(init: Invariants, e: ExtractResult)
    requires AcceptsExtracts(init)
    ensures HasType(init, ExtractResultSchema(), ExtractValue(e)) <==>
              ListsOf(init, e, ObjectSchema(), DeveloperSchema(), GroupSchema())
  {
    ListsTyped(init, e, ObjectSchema(), DeveloperSchema(), GroupSchema());
  }

  lemma {:induction false} ListTyped<T>(init: Invariants, element: Schema, xs: seq<T>, f: T -> Value)
    ensures HasType(init, SList(element), VList(Values(xs, f))) <==> forall x <- xs :: HasType(init, element, f(x))
  {
    var items := Values(xs, f);
    assert forall i :: 0 <= i < |xs| ==> items[i] == f(xs[i]);
  }

  lemma {:induction false} ObjectsTyped(xs: seq<ExtractedObject>)
    ensures HasType(PostInit, SList(ObjectSchema()), VList(Values(xs, ObjectValue))) <==>
              forall o <- xs :: ValidObject(o) && ValidPeriod(o.commissioningPeriod)
  {
    ListTyped(PostInit, ObjectSchema(), xs, ObjectValue);
    forall o | o in xs
      ensures HasType(PostInit, ObjectSchema(), ObjectValue(o)) <==>
                ValidObject(o) && ValidPeriod(o.commissioningPeriod)
    {
      ObjectTyped(PostInit, o);
      ObjectAccepted(o);
      PeriodAccepted(o.commissioningPeriod);
    }
  }

  lemma {:induction false} DevelopersTyped(xs: seq<ExtractedDeveloper>)
    ensures HasType(PostInit, SList(DeveloperSchema()), VList(Values(xs, DeveloperValue))) <==>
              forall d <- xs :: ValidDeveloper(d)
  {
    ListTyped(PostInit, DeveloperSchema(), xs, DeveloperValue);
    forall d | d in xs
      ensures HasType(PostInit, DeveloperSchema(), DeveloperValue(d)) <==> ValidDeveloper(d)
    {
      DeveloperTyped(PostInit, d);
      DeveloperAccepted(d);
    }
  }

  lemma {:induction false} GroupsTyped(xs: seq<ExtractedCompanyGroup>)
    ensures HasType(PostInit, SList(GroupSchema()), VList(Values(xs, GroupValue))) <==>
              forall g <- xs :: HasText(g.name)
  {
    ListTyped(PostInit, GroupSchema(), xs, GroupValue);
    forall g | g in xs
      ensures HasType(PostInit, GroupSchema(), GroupValue(g)) <==> HasText(g.name)
    {
      GroupTyped(PostInit, g);
      GroupAccepted(g);
    }
  }

  lemma {:induction false} TypedIsValid(e: ExtractResult)
    ensures ListsOf(PostInit, e, ObjectSchema(), DeveloperSchema(), GroupSchema()) <==> ValidExtract(e)
  {
    ObjectsTyped(e.objects);
    DevelopersTyped(e.developers);
    GroupsTyped(e.companyGroups);
  }

  // ----- different extracts are different values -----

  lemma {:induction false} PeriodsDiffer(a: CommissioningPeriod, b: CommissioningPeriod)
    requires PeriodValue(a) == PeriodValue(b)
    ensures a == b
  {
    var x, y := PeriodParts(a), PeriodParts(b);
    RecordsDiffer(PERIOD_NAMES, x, y);
    assert x[0].1 == y[0].1 && x[1].1 == y[1].1 && x[2].1 == y[2].1;
  }

  lemma {:induction false} ObjectTypesDiffer(a: ObjectType, b: ObjectType)
    requires ObjectTypeValue(a) == ObjectTypeValue(b)
    ensures a == b
  {
    assert |"Жилое"| < |"Нежилое"|;
  }

  lemma {:induction false} ObjectsDiffer(a: ExtractedObject, b: ExtractedObject)
    requires ObjectValue(a) == ObjectValue(b)
    ensures a == b
  {
    var x, y := ObjectParts(a), ObjectParts(b);
    ObjectListed(a);
    ObjectListed(b);
    RecordsDiffer(OBJECT_NAMES, x, y);
    assert x[0].1 == y[0].1 && x[1].1 == y[1].1 && x[2].1 == y[2].1 && x[3].1 == y[3].1 && x[4].1 == y[4].1;
    assert x[5].1 == y[5].1 && x[6].1 == y[6].1 && x[7].1 == y[7].1 && x[8].1 == y[8].1;
    PeriodsDiffer(a.commissioningPeriod, b.commissioningPeriod);
    ObjectTypesDiffer(a.objectType, b.objectType);
  }

  lemma {:induction false} DevelopersDiffer(a: ExtractedDeveloper, b: ExtractedDeveloper)
    requires DeveloperValue(a) == DeveloperValue(b)
    ensures a == b
  {
    var x, y := DeveloperParts(a), DeveloperParts(b);
    DeveloperListed(a);
    DeveloperListed(b);
    RecordsDiffer(DEVELOPER_NAMES, x, y);
    assert x[0].1 == y[0].1 && x[1].1 == y[1].1 && x[2].1 == y[2].1 && x[3].1 == y[3].1 && x[4].1 == y[4].1;
    assert x[5].1 == y[5].1 && x[6].1 == y[6].1 && x[7].1 == y[7].1 && x[8].1 == y[8].1 && x[9].1 == y[9].1;
    assert x[10].1 == y[10].1 && x[11].1 == y[11].1 && x[12].1 == y[12].1 && x[13].1 == y[13].1;
  }

  lemma {:induction false} GroupsDiffer(a: ExtractedCompanyGroup, b: ExtractedCompanyGroup)
    requires GroupValue(a) == GroupValue(b)
    ensures a == b
  {
    var x, y := GroupParts(a), GroupParts(b);
    RecordsDiffer(GROUP_NAMES, x, y);
    assert x[0].1 == y[0].1 && x[1].1 == y[1].1;
  }

  lemma {:induction false} ExtractsDiffer(a: ExtractResult, b: ExtractResult)
    requires ExtractValue(a) == ExtractValue(b)
    ensures a == b
  {
    var x, y := ExtractParts(a), ExtractParts(b);
    RecordsDiffer(EXTRACT_NAMES, x, y);
    assert x[0].1 == y[0].1 && x[1].1 == y[1].1 && x[2].1 == y[2].1;
    forall o: ExtractedObject, q: ExtractedObject | ObjectValue(o) == ObjectValue(q)
      ensures o == q
    {
      ObjectsDiffer(o, q);
    }
    forall d: ExtractedDeveloper, q: ExtractedDeveloper | DeveloperValue(d) == DeveloperValue(q)
      ensures d == q
    {
      DevelopersDiffer(d, q);
    }
    forall g: ExtractedCompanyGroup, q: ExtractedCompanyGroup | GroupValue(g) == GroupValue(q)
      ensures g == q
    {
      GroupsDiffer(g, q);
    }
    ValuesDiffer(a.objects, b.objects, ObjectValue);
    ValuesDiffer(a.developers, b.developers, DeveloperValue);
    ValuesDiffer(a.companyGroups, b.companyGroups, GroupValue);
  }

  // ----- what can be stored -----

  const NO_CONDITIONS: Invariants := (cls, fields) => true

  lemma {:induction false} TypedWithoutConditions(s: Schema, v: Value)
    requires HasType(PostInit, s, v)
    ensures HasType(NO_CONDITIONS, s, v)
    decreases v, 2, s
  {
    match s
    case SOption(element) =>
      if !v.VNone? {
        TypedWithoutConditions(element, v);
      }
    case SList(element) =>
      forall i | 0 <= i < |v.items|
        ensures HasType(NO_CONDITIONS, element, v.items[i])
      {
        TypedWithoutConditions(element, v.items[i]);
      }
    case STuple(element) =>
      forall i | 0 <= i < |v.items|
        ensures HasType(NO_CONDITIONS, element, v.items[i])
      {
        TypedWithoutConditions(element, v.items[i]);
      }
    case SMap(element) =>
      forall k | k in v.entries
        ensures HasType(NO_CONDITIONS, element, v.entries[k])
      {
        TypedWithoutConditions(element, v.entries[k]);
      }
    case SRecord(cls, fields) => RecordWithoutConditions(cls, fields, v);
    case SCommand =>
      var tag :| CommandOf(tag).Some?
                 && HasRecordType(PostInit, CommandOf(tag).value.0, CommandOf(tag).value.1, v);
      RecordWithoutConditions(CommandOf(tag).value.0, CommandOf(tag).value.1, v);
    case _ =>
  }

  lemma {:induction false} RecordWithoutConditions(cls: RecordClass, fields: seq<Field>, v: Value)
    requires HasRecordType(PostInit, cls, fields, v)
    ensures HasRecordType(NO_CONDITIONS, cls, fields, v)
    decreases v, 1
  {
    forall k | k in v.fields
      ensures HasType(NO_CONDITIONS, SchemaOf(fields, k), v.fields[k])
    {
      TypedWithoutConditions(SchemaOf(fields, k), v.fields[k]);
    }
  }

  /** A value of the right shape is stored exactly if its classes accept it. */
  lemma {:induction false} StorableIsTyped(s: Schema, v: Value)
    requires WellFormedSchema(s) && HasType(NO_CONDITIONS, s, v)
    ensures Storable(s, v) <==> HasType(PostInit, s, v)
  {
    if HasType(PostInit, s, v) {
      TypedIsStored(s, v);
    }
    if Storable(s, v) {
      var w := Decode(PostInit, s, Encode(v).value).value;
      EncodeInvertsDecode(PostInit, s, Encode(v).value);
      TypedWithoutConditions(s, w);
      DecodeInvertsEncode(NO_CONDITIONS, s, w);
      DecodeInvertsEncode(NO_CONDITIONS, s, v);
    }
  }

  /** Extracted data can be saved exactly if it meets the conditions of its data classes. */
  lemma {:induction false} ExtractStorable(e: ExtractResult)
    ensures Storable(ExtractResultSchema(), ExtractValue(e)) <==> ValidExtract(e)
  {
    WellShaped(e);
    StorableIsTyped(ExtractResultSchema(), ExtractValue(e));
    ExtractTyped(PostInit, e);
    TypedIsValid(e);
  }

  lemma {:induction false} WellShaped(e: ExtractResult)
    ensures HasType(NO_CONDITIONS, ExtractResultSchema(), ExtractValue(e))
  {
    forall o | o in e.objects
      ensures HasType(NO_CONDITIONS, ObjectSchema(), ObjectValue(o))
    {
      ObjectTyped(NO_CONDITIONS, o);
    }
    forall d | d in e.developers
      ensures HasType(NO_CONDITIONS, DeveloperSchema(), DeveloperValue(d))
    {
      DeveloperTyped(NO_CONDITIONS, d);
    }
    forall g | g in e.companyGroups
      ensures HasType(NO_CONDITIONS, GroupSchema(), GroupValue(g))
    {
      GroupTyped(NO_CONDITIONS, g);
    }
    ListTyped(NO_CONDITIONS, ObjectSchema(), e.objects, ObjectValue);
    ListTyped(NO_CONDITIONS, DeveloperSchema(), e.developers, DeveloperValue);
    ListTyped(NO_CONDITIONS, GroupSchema(), e.companyGroups, GroupValue);
    ExtractTyped(NO_CONDITIONS, e);
  }

  /** What is loaded back is the value of the extracted data saved and of no other. */
  lemma {:induction false} StoredExtractIsTheExtract(e: ExtractResult, other: ExtractResult)
    requires ValidExtract(e)
    ensures Storable(ExtractResultSchema(), ExtractValue(e))
    ensures Open(ExtractResultSchema(), Envelope(Encode(ExtractValue(e)).value)) == Some(ExtractValue(other)) <==>
              e == other
  {
    ExtractTyped(PostInit, e);
    TypedIsValid(e);
    TypedIsStored(ExtractResultSchema(), ExtractValue(e));
    if ExtractValue(e) == ExtractValue(other) {
      ExtractsDiffer(e, other);
    }
  }
}
