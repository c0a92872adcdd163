/** The artifact codec: `encode` prints a value by its own shape, `_decode` parses it by a declared schema. */
module Codec {
  import opened Wrappers
  import opened Text
  import opened Json
  import opened Contracts

  // ----- Python values and their declared types -----

  /** The dataclasses the codec treats individually, and all others by name. */
  datatype RecordClass =
    | AddItemCommandClass
    | AddRequisiteCommandClass
    | AddAddressCommandClass
    | CommissioningPeriodClass
    | ExtractedObjectClass
    | ExtractedDeveloperClass
    | ExtractedCompanyGroupClass
    | OtherClass(name: string)

  /** What may reach the codec, but for datetimes and enums that are no strings. VOther is what `encode` refuses. */
  datatype Value =
    | VNone
    | VBool(flag: bool)
    | VInt(number: int)
    | VFloat(real_: real)
    | VStr(text: string)
    | VDate(date: Date)
    | VEnum(enumClass: string, text: string)
    | VList(items: seq<Value>)
    | VTuple(items: seq<Value>)
    | VMap(entries: map<string, Value>)
    | VRecord(recordClass: RecordClass, fields: map<string, Value>)
    | VOther

  datatype Schema =
    | SAny
    | SBool
    | SInt
    | SFloat
    | SStr
    | SDate
    | SEnum(enumClass: string, members: seq<string>)
    | SOption(element: Schema)
    | SList(element: Schema)
    | STuple(element: Schema)
    | SMap(element: Schema)
    | SRecord(recordClass: RecordClass, fields: seq<Field>)
    | SCommand

  datatype Field = Field(name: string, schema: Schema)

  predicate HasField(fields: seq<Field>, name: string) {
    exists i :: 0 <= i < |fields| && fields[i].name == name
  }

  /** The declared type of a field; the first declaration wins, as names are distinct. */
  function SchemaOf(fields: seq<Field>, name: string): Schema {
    if fields == [] then SAny else if fields[0].name == name then fields[0].schema else SchemaOf(fields[1..], name)
  }

  /** `set(mapping) == {field.name for field in fields(model)}`. */
  predicate ExactFields<V>(fields: seq<Field>, entries: map<string, V>) {
    && (forall name | name in entries :: HasField(fields, name))
    && (forall i :: 0 <= i < |fields| ==> fields[i].name in entries)
  }

  // ----- commands -----

  const COMMAND_FIELDS := [Field("fields", SMap(SAny))]

  /** The dataclass and the fields a command tag stands for. */
  function CommandOf(tag: string): Option<(RecordClass, seq<Field>)> {
    if tag == "add_item" then Some((AddItemCommandClass, [Field("entity_type_id", SInt)] + COMMAND_FIELDS))
    else if tag == "add_requisite" then Some((AddRequisiteCommandClass, COMMAND_FIELDS))
    else if tag == "add_address" then Some((AddAddressCommandClass, COMMAND_FIELDS))
    else None
  }

  /** The tag `encode` adds to a command dataclass. */
  function TagOf(cls: RecordClass): Option<string> {
    match cls
    case AddItemCommandClass => Some("add_item")
    case AddRequisiteCommandClass => Some("add_requisite")
    case AddAddressCommandClass => Some("add_address")
    case _ => None
  }

  lemma {:induction false} TagsInvert(tag: string)
    requires CommandOf(tag).Some?
    ensures TagOf(CommandOf(tag).value.0) == Some(tag) && !HasField(CommandOf(tag).value.1, "type")
  {
  }

  // ----- dataclass invariants -----

  predicate PositiveField(fields: map<string, Value>, name: string) {
    name in fields && fields[name].VInt? && fields[name].number > 0
  }

  predicate TextField(fields: map<string, Value>, name: string) {
    name in fields && fields[name].VStr? && HasText(fields[name].text)
  }

  predicate OptionalField(fields: map<string, Value>, name: string, holds: bool) {
    name in fields && (fields[name].VNone? || holds)
  }

  /** `__post_init__` accepts the fields. */
  predicate PostInit(cls: RecordClass, fields: map<string, Value>) {
    match cls
    case CommissioningPeriodClass =>
      && PositiveField(fields, "year") && PositiveField(fields, "quarter") && fields["quarter"].number <= 4
      && "exact_date" in fields
      && (fields["exact_date"].VDate? ==>
            && fields["exact_date"].date.year == fields["year"].number
            && (fields["exact_date"].date.month - 1) / 3 + 1 == fields["quarter"].number)
    case ExtractedObjectClass =>
      && PositiveField(fields, "id") && TextField(fields, "title") && TextField(fields, "address")
      && PositiveField(fields, "region_id") && PositiveField(fields, "developer_id")
      && OptionalField(fields, "company_group_id", PositiveField(fields, "company_group_id"))
    case ExtractedDeveloperClass =>
      && PositiveField(fields, "id") && TextField(fields, "short_name") && TextField(fields, "full_name")
      && TextField(fields, "inn") && TextField(fields, "kpp") && TextField(fields, "ogrn")
      && TextField(fields, "legal_address") && TextField(fields, "fact_address") && TextField(fields, "contact_name")
      && TextField(fields, "phone") && TextField(fields, "email") && PositiveField(fields, "region_id")
      && OptionalField(fields, "url", TextField(fields, "url"))
      && OptionalField(fields, "company_group_id", PositiveField(fields, "company_group_id"))
    case ExtractedCompanyGroupClass => PositiveField(fields, "id") && TextField(fields, "name")
    case _ => true
  }

  /** Any choice of dataclass invariants; the codec is right for all of them. */
  type Invariants = (RecordClass, map<string, Value>) -> bool

  // ----- dates -----

  /** `date.fromisoformat` of Python 3.8: exactly `YYYY-MM-DD`. */
  function ParseDate(s: string): Option<Date> {
    if |s| != 10 || s[4] != '-' || s[7] != '-' then None
    else if exists i :: 0 <= i < 10 && i != 4 && i != 7 && !IsDigit(s[i]) then None
    else
      var d := RawDate.Date(
        DigitValue(s[0]) * 1000 + DigitValue(s[1]) * 100 + DigitValue(s[2]) * 10 + DigitValue(s[3]),
        DigitValue(s[5]) * 10 + DigitValue(s[6]), DigitValue(s[8]) * 10 + DigitValue(s[9]));
      if IsDate(d) then Some(d) else None
  }

  lemma {:induction false} Pad2Digits(n: nat)
    requires n < 100
    ensures IsDigit(Pad2(n)[0]) && IsDigit(Pad2(n)[1])
    ensures DigitValue(Pad2(n)[0]) * 10 + DigitValue(Pad2(n)[1]) == n
  {
  }

  lemma {:induction false} ParseInvertsFormat(d: Date)
    ensures ParseDate(IsoFormat(d)) == Some(d)
  {
    var s := IsoFormat(d);
    Pad2Digits(d.year / 100);
    Pad2Digits(d.year % 100);
    Pad2Digits(d.month);
    Pad2Digits(d.day);
    assert s[0] == Pad2(d.year / 100)[0] && s[1] == Pad2(d.year / 100)[1];
    assert s[2] == Pad2(d.year % 100)[0] && s[3] == Pad2(d.year % 100)[1];
    assert s[4] == '-' && s[7] == '-';
    assert s[5] == Pad2(d.month)[0] && s[6] == Pad2(d.month)[1];
    assert s[8] == Pad2(d.day)[0] && s[9] == Pad2(d.day)[1];
    assert forall i :: 0 <= i < 10 && i != 4 && i != 7 ==> IsDigit(s[i]);
    assert d.year == (d.year / 100) * 100 + d.year % 100;
  }

  lemma {:induction false} DigitOf(c: char)
    requires IsDigit(c)
    ensures Digit(DigitValue(c)) == c
  {
  }

  lemma {:induction false} Pad2OfDigits(a: char, b: char)
    requires IsDigit(a) && IsDigit(b)
    ensures Pad2(DigitValue(a) * 10 + DigitValue(b)) == [a, b]
  {
    DigitOf(a);
    DigitOf(b);
  }

  lemma {:induction false} FormatInvertsParse(s: string)
    requires ParseDate(s).Some?
    ensures IsoFormat(ParseDate(s).value) == s
  {
    var d := ParseDate(s).value;
    assert forall i :: 0 <= i < 10 && i != 4 && i != 7 ==> IsDigit(s[i]);
    Pad2OfDigits(s[0], s[1]);
    Pad2OfDigits(s[2], s[3]);
    Pad2OfDigits(s[5], s[6]);
    Pad2OfDigits(s[8], s[9]);
    var century, year := DigitValue(s[0]) * 10 + DigitValue(s[1]), DigitValue(s[2]) * 10 + DigitValue(s[3]);
    assert d.year == century * 100 + year && d.year / 100 == century && d.year % 100 == year;
    assert s == [s[0], s[1]] + [s[2], s[3]] + ['-'] + [s[5], s[6]] + ['-'] + [s[8], s[9]];
  }

  /** The days of the proleptic Gregorian calendar. */
  ghost predicate IsCalendarDay(d: RawDate) {
    && 1 <= d.year <= 9999 && 1 <= d.month <= 12 && 1 <= d.day <= 31
    && !(d.day == 31 && (d.month == 2 || d.month == 4 || d.month == 6 || d.month == 9 || d.month == 11))
    && !(d.day == 30 && d.month == 2)
    && (d.day == 29 && d.month == 2 ==> (d.year % 4 == 0 && d.year % 100 != 0) || d.year % 400 == 0)
  }

  lemma {:induction false} CalendarMeaning(d: RawDate)
    ensures IsDate(d) <==> IsCalendarDay(d)
  {
  }

  /** Exactly the texts `YYYY-MM-DD` that name a day of the calendar parse, and as that day. */
  lemma {:induction false} ParsesExactlyDays(s: string, d: RawDate)
    ensures ParseDate(s) == Some(d) <==>
              IsCalendarDay(d) && s == Pad2(d.year / 100) + Pad2(d.year % 100) + "-" + Pad2(d.month) + "-" + Pad2(d.day)
  {
    CalendarMeaning(d);
    if ParseDate(s) == Some(d) {
      FormatInvertsParse(s);
    }
    if IsDate(d) {
      ParseInvertsFormat(d);
    }
  }

  // ----- encode -----

  /** `encode`; None is its ValueError. */
  function Encode(v: Value): Option<Json>
    decreases v, 1
  {
    match v
    case VNone => Some(JNull)
    case VBool(b) => Some(JBool(b))
    case VInt(n) => Some(JInt(n))
    case VFloat(r) => Some(JFloat(r))
    case VStr(s) => Some(JString(s))
    case VDate(d) => Some(JString(IsoFormat(d)))
    case VEnum(_, text) => Some(JString(text))
    case VList(items) => EncodeItems(v, items)
    case VTuple(items) => EncodeItems(v, items)
    case VMap(entries) =>
      var members := EncodeMembers(v, entries);
      if members.Some? then Some(JObject(members.value)) else None
    case VRecord(cls, fields) =>
      var members := EncodeMembers(v, fields);
      if members.Some? then Some(JObject(WithTag(cls, members.value))) else None
    case VOther => None
  }

  /** Command dataclasses carry their tag beside their fields. */
  function WithTag(cls: RecordClass, members: Fields): Fields {
    if TagOf(cls).Some? then members["type" := JString(TagOf(cls).value)] else members
  }

  function EncodeItems(ghost v: Value, items: seq<Value>): Option<Json>
    requires forall i :: 0 <= i < |items| ==> items[i] < v
    decreases v, 0
  {
    if exists i :: 0 <= i < |items| && Encode(items[i]).None? then None
    else Some(JArray(seq(|items|, i requires 0 <= i < |items| => Encode(items[i]).value)))
  }

  function EncodeMembers(ghost v: Value, entries: map<string, Value>): Option<Fields>
    requires forall k :: k in entries ==> entries[k] < v
    decreases v, 0
  {
    if exists k | k in entries :: Encode(entries[k]).None? then None
    else Some(map k | k in entries :: Encode(entries[k]).value)
  }

  // ----- decode -----

  /** A value read where the declared type is `Any`. */
  function Plain(j: Json): Value {
    match j
    case JNull => VNone
    case JBool(b) => VBool(b)
    case JInt(n) => VInt(n)
    case JFloat(r) => VFloat(r)
    case JString(s) => VStr(s)
    case JArray(items) => VList(seq(|items|, i requires 0 <= i < |items| => Plain(items[i])))
    case JObject(members) => VMap(map k | k in members :: Plain(members[k]))
  }

  /** `_decode`; None is its ValueError. */
  function Decode(init: Invariants, s: Schema, j: Json): Option<Value>
    decreases j, 2, s
  {
    match s
    case SAny => Some(Plain(j))
    case SBool => if j.JBool? then Some(VBool(j.flag)) else None
    case SInt => if j.JInt? then Some(VInt(j.number)) else None
    case SFloat => if j.JFloat? then Some(VFloat(j.real_)) else None
    case SStr => if j.JString? then Some(VStr(j.text)) else None
    case SDate => if j.JString? && ParseDate(j.text).Some? then Some(VDate(ParseDate(j.text).value)) else None
    case SEnum(cls, members) => if j.JString? && j.text in members then Some(VEnum(cls, j.text)) else None
    case SOption(element) => if j.JNull? then Some(VNone) else Decode(init, element, j)
    case SList(element) =>
      var items := DecodeItems(init, element, j);
      if items.Some? then Some(VList(items.value)) else None
    case STuple(element) =>
      var items := DecodeItems(init, element, j);
      if items.Some? then Some(VTuple(items.value)) else None
    case SMap(element) =>
      var entries := DecodeEntries(init, element, j);
      if entries.Some? then Some(VMap(entries.value)) else None
    case SRecord(cls, fields) => if j.JObject? then DecodeRecord(init, cls, fields, j, j.members) else None
    case SCommand =>
      var tag := CommandTag(j);
      if tag.None? then None
      else DecodeRecord(init, CommandOf(tag.value).value.0, CommandOf(tag.value).value.1, j, j.members - {"type"})
  }

  /** The known tag of a command object. */
  function CommandTag(j: Json): (tag: Option<string>)
    ensures tag.Some? ==>
              && j.JObject? && "type" in j.members && j.members["type"] == JString(tag.value)
              && CommandOf(tag.value).Some?
  {
    if j.JObject? && "type" in j.members && j.members["type"].JString? && CommandOf(j.members["type"].text).Some?
    then Some(j.members["type"].text) else None
  }

  function DecodeItems(init: Invariants, element: Schema, j: Json): Option<seq<Value>>
    decreases j, 1
  {
    if !j.JArray? || (exists i :: 0 <= i < |j.items| && Decode(init, element, j.items[i]).None?) then None
    else Some(seq(|j.items|, i requires 0 <= i < |j.items| => Decode(init, element, j.items[i]).value))
  }

  function DecodeEntries(init: Invariants, element: Schema, j: Json): Option<map<string, Value>>
    decreases j, 1
  {
    if !j.JObject? || (exists k | k in j.members :: Decode(init, element, j.members[k]).None?) then None
    else Some(map k | k in j.members :: Decode(init, element, j.members[k]).value)
  }

  /** The declared fields of the members, which are `j`'s own or, for a command, `j`'s without its tag. */
  function DecodeFields(init: Invariants, fields: seq<Field>, j: Json, members: Fields): Option<map<string, Value>>
    requires j.JObject? && forall k :: k in members ==> k in j.members && members[k] == j.members[k]
    decreases j, 0
  {
    if !ExactFields(fields, members) then None
    else if exists k | k in members :: Decode(init, SchemaOf(fields, k), members[k]).None? then None
    else Some(map k | k in members :: Decode(init, SchemaOf(fields, k), members[k]).value)
  }

  /** `model(**fields)`: the dataclass, if its `__post_init__` accepts the fields. */
  function DecodeRecord(init: Invariants, cls: RecordClass, fields: seq<Field>, j: Json, members: Fields): Option<Value>
    requires j.JObject? && forall k :: k in members ==> k in j.members && members[k] == j.members[k]
    decreases j, 1
  {
    var values := DecodeFields(init, fields, j, members);
    if values.Some? && init(cls, values.value) then Some(VRecord(cls, values.value)) else None
  }

  // ----- well-typed values -----

  /** A value of plain JSON shape. */
  ghost predicate IsPlain(v: Value) {
    match v
    case VList(items) => forall i :: 0 <= i < |items| ==> IsPlain(items[i])
    case VMap(entries) => forall k :: k in entries ==> IsPlain(entries[k])
    case _ => v.VNone? || v.VBool? || v.VInt? || v.VFloat? || v.VStr?
  }

  /** `v` is a value of the declared type whose `Any` parts are plain JSON. */
  ghost predicate HasType(init: Invariants, s: Schema, v: Value)
    decreases v, 2, s
  {
    match s
    case SAny => IsPlain(v)
    case SBool => v.VBool?
    case SInt => v.VInt?
    case SFloat => v.VFloat?
    case SStr => v.VStr?
    case SDate => v.VDate?
    case SEnum(cls, members) => v.VEnum? && v.enumClass == cls && v.text in members
    case SOption(element) => v.VNone? || HasType(init, element, v)
    case SList(element) => v.VList? && forall i :: 0 <= i < |v.items| ==> HasType(init, element, v.items[i])
    case STuple(element) => v.VTuple? && forall i :: 0 <= i < |v.items| ==> HasType(init, element, v.items[i])
    case SMap(element) => v.VMap? && forall k :: k in v.entries ==> HasType(init, element, v.entries[k])
    case SRecord(cls, fields) => HasRecordType(init, cls, fields, v)
    case SCommand =>
      exists tag :: CommandOf(tag).Some? && HasRecordType(init, CommandOf(tag).value.0, CommandOf(tag).value.1, v)
  }

  ghost predicate HasRecordType(init: Invariants, cls: RecordClass, fields: seq<Field>, v: Value)
    decreases v, 1
  {
    && v.VRecord? && v.recordClass == cls && ExactFields(fields, v.fields) && init(cls, v.fields)
    && forall k :: k in v.fields ==> HasType(init, SchemaOf(fields, k), v.fields[k])
  }

  /** Dataclasses that are not commands: their encoding carries no tag. */
  ghost predicate WellFormedSchema(s: Schema) {
    match s
    case SOption(element) => WellFormedSchema(element)
    case SList(element) => WellFormedSchema(element)
    case STuple(element) => WellFormedSchema(element)
    case SMap(element) => WellFormedSchema(element)
    case SRecord(cls, fields) =>
      TagOf(cls).None? && forall i :: 0 <= i < |fields| ==> WellFormedSchema(fields[i].schema)
    case _ => true
  }

  lemma {:induction false} FieldSchemaWellFormed(fields: seq<Field>, name: string)
    requires forall i :: 0 <= i < |fields| ==> WellFormedSchema(fields[i].schema)
    ensures WellFormedSchema(SchemaOf(fields, name))
  {
    if fields != [] && fields[0].name != name {
      FieldSchemaWellFormed(fields[1..], name);
    }
  }
}
