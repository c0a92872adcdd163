/** The codec is a two-sided inverse on well-typed values, and a save that succeeds is loaded back equal. */
module CodecRoundTrips {
  import opened Wrappers
  import opened Json
  import opened Codec

  // ----- the parts of a value, encoded pointwise -----

  lemma {:induction false} ItemsEncoded(v: Value, items: seq<Value>, encoded: seq<Json>)
    requires forall i :: 0 <= i < |items| ==> items[i] < v
    requires |encoded| == |items| && forall i :: 0 <= i < |items| ==> Encode(items[i]) == Some(encoded[i])
    ensures EncodeItems(v, items) == Some(JArray(encoded))
  {
    assert EncodeItems(v, items).value.items == encoded;
  }

  lemma {:induction false} MembersEncoded(v: Value, entries: map<string, Value>, encoded: Fields)
    requires forall k :: k in entries ==> entries[k] < v
    requires encoded.Keys == entries.Keys && forall k :: k in entries ==> Encode(entries[k]) == Some(encoded[k])
    ensures EncodeMembers(v, entries) == Some(encoded)
  {
    assert EncodeMembers(v, entries).value == encoded;
  }

  lemma {:induction false} ItemsDecoded(init: Invariants, element: Schema, j: Json, items: seq<Value>)
    requires j.JArray? && |j.items| == |items|
    requires forall i :: 0 <= i < |items| ==> Decode(init, element, j.items[i]) == Some(items[i])
    ensures DecodeItems(init, element, j) == Some(items)
  {
    assert DecodeItems(init, element, j).value == items;
  }

  lemma {:induction false} EntriesDecoded(init: Invariants, element: Schema, j: Json, entries: map<string, Value>)
    requires j.JObject? && j.members.Keys == entries.Keys
    requires forall k :: k in entries ==> Decode(init, element, j.members[k]) == Some(entries[k])
    ensures DecodeEntries(init, element, j) == Some(entries)
  {
    assert DecodeEntries(init, element, j).value == entries;
  }

  lemma {:induction false} FieldsDecoded(init: Invariants, fields: seq<Field>, j: Json, members: Fields,
      values: map<string, Value>)
    requires j.JObject? && forall k :: k in members ==> k in j.members && members[k] == j.members[k]
    requires ExactFields(fields, values) && members.Keys == values.Keys
    requires forall k :: k in values ==> Decode(init, SchemaOf(fields, k), members[k]) == Some(values[k])
    ensures DecodeFields(init, fields, j, members) == Some(values)
  {
    assert ExactFields(fields, members);
    assert DecodeFields(init, fields, j, members).value == values;
  }

  // ----- plain JSON -----

  lemma {:induction false} EncodePlain(j: Json)
    ensures IsPlain(Plain(j)) && Encode(Plain(j)) == Some(j)
  {
    var v := Plain(j);
    match j
    case JArray(items) =>
      forall i | 0 <= i < |items|
        ensures IsPlain(v.items[i]) && Encode(v.items[i]) == Some(items[i])
      {
        EncodePlain(items[i]);
      }
      ItemsEncoded(v, v.items, items);
    case JObject(members) =>
      forall k | k in members
        ensures IsPlain(v.entries[k]) && Encode(v.entries[k]) == Some(members[k])
      {
        EncodePlain(members[k]);
      }
      MembersEncoded(v, v.entries, members);
    case _ =>
  }

  lemma {:induction false} PlainOfEncoded(v: Value)
    requires IsPlain(v)
    ensures Encode(v).Some? && Plain(Encode(v).value) == v
  {
    match v
    case VList(items) =>
      forall i | 0 <= i < |items|
        ensures Encode(items[i]).Some? && Plain(Encode(items[i]).value) == items[i]
      {
        PlainOfEncoded(items[i]);
      }
      var encoded := seq(|items|, i requires 0 <= i < |items| => Encode(items[i]).value);
      ItemsEncoded(v, items, encoded);
      assert Plain(JArray(encoded)).items == items;
    case VMap(entries) =>
      forall k | k in entries
        ensures Encode(entries[k]).Some? && Plain(Encode(entries[k]).value) == entries[k]
      {
        PlainOfEncoded(entries[k]);
      }
      var encoded := map k | k in entries :: Encode(entries[k]).value;
      MembersEncoded(v, entries, encoded);
      assert Plain(JObject(encoded)).entries == entries;
    case _ =>
  }

  // ----- decode after encode -----

  lemma {:induction false} OnlyNoneIsNull(v: Value)
    requires Encode(v) == Some(JNull)
    ensures v == VNone
  {
  }

  /** Decoding what was encoded gives the value back. */
  lemma {:induction false} DecodeInvertsEncode(init: Invariants, s: Schema, v: Value)
    requires WellFormedSchema(s) && HasType(init, s, v)
    ensures Encode(v).Some? && Decode(init, s, Encode(v).value) == Some(v)
    decreases v, 2, s
  {
    match s
    case SAny => PlainOfEncoded(v);
    case SDate => ParseInvertsFormat(v.date);
    case SOption(element) =>
      if v != VNone {
        DecodeInvertsEncode(init, element, v);
        if Encode(v).value == JNull {
          OnlyNoneIsNull(v);
        }
      }
    case SList(element) => ItemsDecode(init, element, v, v.items);
    case STuple(element) => ItemsDecode(init, element, v, v.items);
    case SMap(element) => EntriesDecode(init, element, v);
    case SRecord(cls, fields) => RecordDecodes(init, cls, fields, v);
    case SCommand =>
      var tag :| CommandOf(tag).Some? && HasRecordType(init, CommandOf(tag).value.0, CommandOf(tag).value.1, v);
      TagsInvert(tag);
      CommandDecodes(init, tag, v);
    case _ =>
  }

  lemma {:induction false} ItemsDecode(init: Invariants, element: Schema, v: Value, items: seq<Value>)
    requires WellFormedSchema(element)
    requires forall i :: 0 <= i < |items| ==> items[i] < v && HasType(init, element, items[i])
    ensures EncodeItems(v, items).Some?
    ensures DecodeItems(init, element, EncodeItems(v, items).value) == Some(items)
    decreases v, 1
  {
    forall i | 0 <= i < |items|
      ensures Encode(items[i]).Some? && Decode(init, element, Encode(items[i]).value) == Some(items[i])
    {
      DecodeInvertsEncode(init, element, items[i]);
    }
    var encoded := seq(|items|, i requires 0 <= i < |items| => Encode(items[i]).value);
    ItemsEncoded(v, items, encoded);
    ItemsDecoded(init, element, JArray(encoded), items);
  }

  lemma {:induction false} EntriesRoundTrip(init: Invariants, element: Schema, entries: map<string, Value>,
      encoded: Fields)
    requires encoded.Keys == entries.Keys
    requires forall k :: k in entries ==> Encode(entries[k]) == Some(encoded[k])
    requires forall k :: k in entries ==> Decode(init, element, encoded[k]) == Some(entries[k])
    ensures Encode(VMap(entries)) == Some(JObject(encoded))
    ensures Decode(init, SMap(element), JObject(encoded)) == Some(VMap(entries))
  {
    MembersEncoded(VMap(entries), entries, encoded);
    EntriesDecoded(init, element, JObject(encoded), entries);
  }

  lemma {:induction false} EntriesDecode(init: Invariants, element: Schema, v: Value)
    requires WellFormedSchema(element) && HasType(init, SMap(element), v)
    ensures Encode(v).Some? && Decode(init, SMap(element), Encode(v).value) == Some(v)
    decreases v, 1
  {
    forall k | k in v.entries
      ensures Encode(v.entries[k]).Some? && Decode(init, element, Encode(v.entries[k]).value) == Some(v.entries[k])
    {
      DecodeInvertsEncode(init, element, v.entries[k]);
    }
    EntriesRoundTrip(init, element, v.entries, map k | k in v.entries :: Encode(v.entries[k]).value);
  }

  /** The fields of a well-typed record, encoded, and each decoding to itself. */
  lemma {:induction false} FieldsDecode(init: Invariants, fields: seq<Field>, v: Value) returns (encoded: Fields)
    requires forall i :: 0 <= i < |fields| ==> WellFormedSchema(fields[i].schema)
    requires v.VRecord? && forall k :: k in v.fields ==> HasType(init, SchemaOf(fields, k), v.fields[k])
    ensures encoded.Keys == v.fields.Keys && EncodeMembers(v, v.fields) == Some(encoded)
    ensures forall k :: k in v.fields ==> Decode(init, SchemaOf(fields, k), encoded[k]) == Some(v.fields[k])
    decreases v, 0
  {
    forall k | k in v.fields
      ensures Encode(v.fields[k]).Some?
      ensures Decode(init, SchemaOf(fields, k), Encode(v.fields[k]).value) == Some(v.fields[k])
    {
      FieldSchemaWellFormed(fields, k);
      DecodeInvertsEncode(init, SchemaOf(fields, k), v.fields[k]);
    }
    encoded := map k | k in v.fields :: Encode(v.fields[k]).value;
    MembersEncoded(v, v.fields, encoded);
  }

  lemma {:induction false} RecordDecodes(init: Invariants, cls: RecordClass, fields: seq<Field>, v: Value)
    requires WellFormedSchema(SRecord(cls, fields)) && HasRecordType(init, cls, fields, v)
    ensures Encode(v).Some? && Decode(init, SRecord(cls, fields), Encode(v).value) == Some(v)
    decreases v, 1
  {
    var encoded := FieldsDecode(init, fields, v);
    assert Encode(v) == Some(JObject(encoded));
    FieldsDecoded(init, fields, JObject(encoded), encoded, v.fields);
  }

  lemma {:induction false} CommandFieldsWellFormed(tag: string)
    requires CommandOf(tag).Some?
    ensures forall i :: 0 <= i < |CommandOf(tag).value.1| ==> WellFormedSchema(CommandOf(tag).value.1[i].schema)
  {
  }

  lemma {:induction false} TaggedIsCommand(encoded: Fields, tag: string)
    requires CommandOf(tag).Some?
    ensures CommandTag(JObject(encoded["type" := JString(tag)])) == Some(tag)
  {
  }

  /** Without its tag, an encoded command is the encoded dataclass. */
  lemma {:induction false} TaggedDecodes(init: Invariants, cls: RecordClass, fields: seq<Field>, tag: Json, v: Value)
    returns (encoded: Fields)
    requires forall i :: 0 <= i < |fields| ==> WellFormedSchema(fields[i].schema)
    requires HasRecordType(init, cls, fields, v) && !HasField(fields, "type")
    ensures EncodeMembers(v, v.fields) == Some(encoded)
    ensures var j := JObject(encoded["type" := tag]);
            DecodeRecord(init, cls, fields, j, j.members - {"type"}) == Some(v)
    decreases v, 1, 0
  {
    encoded := FieldsDecode(init, fields, v);
    var j := JObject(encoded["type" := tag]);
    assert "type" !in v.fields;
    assert j.members - {"type"} == encoded;
    FieldsDecoded(init, fields, j, encoded, v.fields);
  }

  lemma {:induction false} CommandDecodes(init: Invariants, tag: string, v: Value)
    requires CommandOf(tag).Some? && HasRecordType(init, CommandOf(tag).value.0, CommandOf(tag).value.1, v)
    requires TagOf(v.recordClass) == Some(tag) && !HasField(CommandOf(tag).value.1, "type")
    ensures Encode(v).Some? && Decode(init, SCommand, Encode(v).value) == Some(v)
    decreases v, 1, 1
  {
    CommandFieldsWellFormed(tag);
    var encoded := TaggedDecodes(init, CommandOf(tag).value.0, CommandOf(tag).value.1, JString(tag), v);
    TaggedIsCommand(encoded, tag);
    assert WithTag(v.recordClass, encoded) == encoded["type" := JString(tag)];
  }

  // ----- encode after decode -----

  /** Whatever decodes is well typed and encodes to exactly what was decoded. */
  lemma {:induction false} EncodeInvertsDecode(init: Invariants, s: Schema, j: Json)
    requires WellFormedSchema(s) && Decode(init, s, j).Some?
    ensures HasType(init, s, Decode(init, s, j).value) && Encode(Decode(init, s, j).value) == Some(j)
    decreases j, 2, s
  {
    var v := Decode(init, s, j).value;
    match s
    case SAny => EncodePlain(j);
    case SDate => FormatInvertsParse(j.text);
    case SOption(element) =>
      if !j.JNull? {
        EncodeInvertsDecode(init, element, j);
      }
    case SList(element) =>
      ItemsEncode(init, element, j);
      ItemsEncoded(v, v.items, j.items);
    case STuple(element) =>
      ItemsEncode(init, element, j);
      ItemsEncoded(v, v.items, j.items);
    case SMap(element) => EntriesEncode(init, element, j);
    case SRecord(cls, fields) => RecordEncodes(init, cls, fields, j);
    case SCommand => CommandEncodes(init, j);
    case _ =>
  }

  lemma {:induction false} ItemsEncode(init: Invariants, element: Schema, j: Json)
    requires WellFormedSchema(element) && DecodeItems(init, element, j).Some?
    ensures var items := DecodeItems(init, element, j).value;
            && |items| == |j.items|
            && forall i :: 0 <= i < |items| ==> HasType(init, element, items[i]) && Encode(items[i]) == Some(j.items[i])
    decreases j, 1
  {
    forall i | 0 <= i < |j.items|
      ensures Decode(init, element, j.items[i]).Some?
      ensures HasType(init, element, Decode(init, element, j.items[i]).value)
      ensures Encode(Decode(init, element, j.items[i]).value) == Some(j.items[i])
    {
      EncodeInvertsDecode(init, element, j.items[i]);
    }
  }

  lemma {:induction false} EntriesEncode(init: Invariants, element: Schema, j: Json)
    requires WellFormedSchema(element) && Decode(init, SMap(element), j).Some?
    ensures HasType(init, SMap(element), Decode(init, SMap(element), j).value)
    ensures Encode(Decode(init, SMap(element), j).value) == Some(j)
    decreases j, 1
  {
    var v := Decode(init, SMap(element), j).value;
    forall k | k in j.members
      ensures HasType(init, element, v.entries[k]) && Encode(v.entries[k]) == Some(j.members[k])
    {
      EncodeInvertsDecode(init, element, j.members[k]);
    }
    MembersEncoded(v, v.entries, j.members);
  }

  lemma {:induction false} MembersEncode(init: Invariants, fields: seq<Field>, j: Json, members: Fields)
    requires j.JObject? && forall k :: k in members ==> k in j.members && members[k] == j.members[k]
    requires forall i :: 0 <= i < |fields| ==> WellFormedSchema(fields[i].schema)
    requires DecodeFields(init, fields, j, members).Some?
    ensures var values := DecodeFields(init, fields, j, members).value;
            && values.Keys == members.Keys && ExactFields(fields, values)
            && forall k :: k in members ==>
                 HasType(init, SchemaOf(fields, k), values[k]) && Encode(values[k]) == Some(members[k])
    decreases j, 0
  {
    forall k | k in members
      ensures Decode(init, SchemaOf(fields, k), members[k]).Some?
      ensures HasType(init, SchemaOf(fields, k), Decode(init, SchemaOf(fields, k), members[k]).value)
      ensures Encode(Decode(init, SchemaOf(fields, k), members[k]).value) == Some(members[k])
    {
      FieldSchemaWellFormed(fields, k);
      EncodeInvertsDecode(init, SchemaOf(fields, k), members[k]);
    }
    assert ExactFields(fields, DecodeFields(init, fields, j, members).value);
  }

  lemma {:induction false} RecordEncodes(init: Invariants, cls: RecordClass, fields: seq<Field>, j: Json)
    requires WellFormedSchema(SRecord(cls, fields)) && Decode(init, SRecord(cls, fields), j).Some?
    ensures HasRecordType(init, cls, fields, Decode(init, SRecord(cls, fields), j).value)
    ensures Encode(Decode(init, SRecord(cls, fields), j).value) == Some(j)
    decreases j, 1
  {
    MembersEncode(init, fields, j, j.members);
    var v := Decode(init, SRecord(cls, fields), j).value;
    MembersEncoded(v, v.fields, j.members);
  }

  /** A decoded command's dataclass encodes to the members without the tag. */
  lemma {:induction false} UntaggedEncodes(init: Invariants, cls: RecordClass, fields: seq<Field>, j: Json,
      members: Fields)
    requires j.JObject? && forall k :: k in members ==> k in j.members && members[k] == j.members[k]
    requires forall i :: 0 <= i < |fields| ==> WellFormedSchema(fields[i].schema)
    requires DecodeRecord(init, cls, fields, j, members).Some?
    ensures var v := DecodeRecord(init, cls, fields, j, members).value;
            HasRecordType(init, cls, fields, v) && EncodeMembers(v, v.fields) == Some(members)
    decreases j, 1, 0
  {
    MembersEncode(init, fields, j, members);
    var v := DecodeRecord(init, cls, fields, j, members).value;
    MembersEncoded(v, v.fields, members);
  }

  lemma {:induction false} CommandEncodes(init: Invariants, j: Json)
    requires Decode(init, SCommand, j).Some?
    ensures HasType(init, SCommand, Decode(init, SCommand, j).value)
    ensures Encode(Decode(init, SCommand, j).value) == Some(j)
    decreases j, 1, 1
  {
    var tag := CommandTag(j).value;
    TagsInvert(tag);
    CommandFieldsWellFormed(tag);
    var members := j.members - {"type"};
    UntaggedEncodes(init, CommandOf(tag).value.0, CommandOf(tag).value.1, j, members);
    assert members["type" := JString(tag)] == j.members;
  }
}
