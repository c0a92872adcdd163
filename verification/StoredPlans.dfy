/** The sync plan as the codec sees it: every plan is a well-typed value, so saving and loading gives it back. */
module StoredPlans {
  import opened Wrappers
  import opened Json
  import opened Contracts
  import opened Unique
  import opened Codec
  import opened CodecRoundTrips
  import opened ArtifactStore
  import opened StoredRecords

  function FieldsValue(fields: Fields): Value {
    VMap(map k | k in fields :: Plain(fields[k]))
  }

  function PayloadParts(fields: Fields): Entries {
    [("fields", FieldsValue(fields))]
  }

  function CommandValue(command: CrmCommand): Value {
    match command
    case AddItem(entityTypeId, fields) =>
      RecordValue(AddItemCommandClass, [("entity_type_id", VInt(entityTypeId))] + PayloadParts(fields))
    case AddRequisite(fields) => RecordValue(AddRequisiteCommandClass, PayloadParts(fields))
    case AddAddress(fields) => RecordValue(AddAddressCommandClass, PayloadParts(fields))
  }

  function BindingParts(binding: RuntimeBinding): Entries {
    [("field", VStr(binding.field)), ("source_operation_id", VStr(binding.source))]
  }

  function BindingValue(binding: RuntimeBinding): Value {
    RecordValue(OtherClass("RuntimeBinding"), BindingParts(binding))
  }

  function OperationParts(op: PlannedOperation): Entries {
    [("operation_id", VStr(op.id)), ("command", CommandValue(op.command)),
     ("bindings", VTuple(Values(op.bindings, BindingValue))),
     ("dependencies", VTuple(Values(op.dependencies, TextValue)))]
  }

  function OperationValue(op: PlannedOperation): Value {
    RecordValue(OtherClass("PlannedOperation"), OperationParts(op))
  }

  function PlanParts(ops: seq<PlannedOperation>): Entries {
    [("operations", VTuple(Values(ops, OperationValue)))]
  }

  function PlanValue(ops: seq<PlannedOperation>): Value {
    RecordValue(OtherClass("SyncPlan"), PlanParts(ops))
  }

  // ----- payloads and commands -----

  lemma {:induction false} FieldsTyped(fields: Fields)
    ensures HasType(PostInit, SMap(SAny), FieldsValue(fields))
    ensures Encode(FieldsValue(fields)) == Some(JObject(fields))
  {
    forall k | k in fields
      ensures IsPlain(Plain(fields[k])) && Encode(Plain(fields[k])) == Some(fields[k])
    {
      EncodePlain(fields[k]);
    }
    var v := FieldsValue(fields);
    assert EncodeMembers(v, v.entries).value == fields;
  }

  lemma {:induction false} FieldsDiffer(a: Fields, b: Fields)
    requires FieldsValue(a) == FieldsValue(b)
    ensures a == b
  {
    FieldsTyped(a);
    FieldsTyped(b);
  }

  const ITEM_NAMES := ["entity_type_id", "fields"]

  lemma {:induction false} TaggedTyped(tag: string, v: Value)
    requires CommandOf(tag).Some? && HasRecordType(PostInit, CommandOf(tag).value.0, CommandOf(tag).value.1, v)
    ensures HasType(PostInit, SCommand, v)
  {
  }

  lemma {:induction false} PayloadTyped(tag: string, cls: RecordClass, fields: Fields)
    requires CommandOf(tag) == Some((cls, COMMAND_FIELDS)) && PostInit(cls, Members(PayloadParts(fields)))
    ensures HasType(PostInit, SCommand, RecordValue(cls, PayloadParts(fields)))
  {
    FieldsTyped(fields);
    RecordTyped(PostInit, cls, ["fields"], COMMAND_FIELDS, PayloadParts(fields));
    TaggedTyped(tag, RecordValue(cls, PayloadParts(fields)));
  }

  lemma {:induction false} CommandTyped(command: CrmCommand)
    ensures HasType(PostInit, SCommand, CommandValue(command))
  {
    match command
    case AddItem(entityTypeId, fields) =>
      var entries := [("entity_type_id", VInt(entityTypeId))] + PayloadParts(fields);
      FieldsTyped(fields);
      RecordTyped(PostInit, AddItemCommandClass, ITEM_NAMES, [Field("entity_type_id", SInt)] + COMMAND_FIELDS, entries);
      TaggedTyped("add_item", CommandValue(command));
    case AddRequisite(fields) => PayloadTyped("add_requisite", AddRequisiteCommandClass, fields);
    case AddAddress(fields) => PayloadTyped("add_address", AddAddressCommandClass, fields);
  }

  lemma {:induction false} CommandsDiffer(a: CrmCommand, b: CrmCommand)
    requires CommandValue(a) == CommandValue(b)
    ensures a == b
  {
    if a.AddItem? {
      var x := [("entity_type_id", VInt(a.entityTypeId))] + PayloadParts(a.fields);
      var y := [("entity_type_id", VInt(b.entityTypeId))] + PayloadParts(b.fields);
      RecordsDiffer(ITEM_NAMES, x, y);
      assert x[0].1 == y[0].1 && x[1].1 == y[1].1;
    } else {
      RecordsDiffer(["fields"], PayloadParts(a.fields), PayloadParts(b.fields));
      assert PayloadParts(a.fields)[0].1 == PayloadParts(b.fields)[0].1;
    }
    FieldsDiffer(a.fields, b.fields);
  }

  /** The document of a command: its payload as it stands, under the tag of its kind. */
  function CommandDocument(command: CrmCommand): Json {
    match command
    case AddItem(entityTypeId, fields) =>
      JObject(map["type" := JString("add_item"), "entity_type_id" := JInt(entityTypeId), "fields" := JObject(fields)])
    case AddRequisite(fields) => JObject(map["type" := JString("add_requisite"), "fields" := JObject(fields)])
    case AddAddress(fields) => JObject(map["type" := JString("add_address"), "fields" := JObject(fields)])
  }

  lemma {:induction false} RecordEncoded(cls: RecordClass, members: map<string, Value>, encoded: Fields)
    requires members.Keys == encoded.Keys && forall k <- members :: Encode(members[k]) == Some(encoded[k])
    ensures Encode(VRecord(cls, members)) == Some(JObject(WithTag(cls, encoded)))
  {
    assert EncodeMembers(VRecord(cls, members), members).value == encoded;
  }

  lemma {:induction false} ItemEncoded(entityTypeId: int, fields: Fields)
    ensures Encode(CommandValue(AddItem(entityTypeId, fields))) == Some(CommandDocument(AddItem(entityTypeId, fields)))
  {
    var entries := [("entity_type_id", VInt(entityTypeId))] + PayloadParts(fields);
    var encoded := map["entity_type_id" := JInt(entityTypeId), "fields" := JObject(fields)];
    FieldsTyped(fields);
    MembersMeaning(ITEM_NAMES, entries);
    assert ITEM_NAMES[0] == "entity_type_id" && ITEM_NAMES[1] == "fields";
    RecordEncoded(AddItemCommandClass, Members(entries), encoded);
    assert WithTag(AddItemCommandClass, encoded) == CommandDocument(AddItem(entityTypeId, fields)).members;
  }

  lemma {:induction false} PayloadEncoded(cls: RecordClass, fields: Fields)
    ensures Encode(RecordValue(cls, PayloadParts(fields)))
            == Some(JObject(WithTag(cls, map["fields" := JObject(fields)])))
  {
    var names := ["fields"];
    FieldsTyped(fields);
    MembersMeaning(names, PayloadParts(fields));
    assert names[0] == "fields";
    RecordEncoded(cls, Members(PayloadParts(fields)), map["fields" := JObject(fields)]);
  }

  /** What a command is stored as. */
  lemma {:induction false} CommandEncoded(command: CrmCommand)
    ensures Encode(CommandValue(command)) == Some(CommandDocument(command))
  {
    match command
    case AddItem(entityTypeId, fields) => ItemEncoded(entityTypeId, fields);
    case AddRequisite(fields) =>
      PayloadEncoded(AddRequisiteCommandClass, fields);
      assert WithTag(AddRequisiteCommandClass, map["fields" := JObject(fields)]) == CommandDocument(command).members;
    case AddAddress(fields) =>
      PayloadEncoded(AddAddressCommandClass, fields);
      assert WithTag(AddAddressCommandClass, map["fields" := JObject(fields)]) == CommandDocument(command).members;
  }

  // ----- every plan is well typed and no other value -----

  lemma {:induction false} BindingKept(a: RuntimeBinding, b: RuntimeBinding)
    ensures HasType(PostInit, BindingSchema(), BindingValue(a))
    ensures BindingValue(a) == BindingValue(b) ==> a == b
  {
    var x, y, names := BindingParts(a), BindingParts(b), ["field", "source_operation_id"];
    RecordKept("RuntimeBinding", names, BindingSchema().fields, x, y);
    assert x == y ==> x[0].1 == y[0].1 && x[1].1 == y[1].1;
  }

  lemma {:induction false} BindingsKept(xs: seq<RuntimeBinding>, ys: seq<RuntimeBinding>)
    ensures HasType(PostInit, STuple(BindingSchema()), VTuple(Values(xs, BindingValue)))
    ensures Values(xs, BindingValue) == Values(ys, BindingValue) ==> xs == ys
  {
    forall a: RuntimeBinding, b: RuntimeBinding
      ensures HasType(PostInit, BindingSchema(), BindingValue(a))
      ensures BindingValue(a) == BindingValue(b) ==> a == b
    {
      BindingKept(a, b);
    }
    ValuesKept(BindingSchema(), xs, ys, BindingValue);
  }

  const OPERATION_NAMES := ["operation_id", "command", "bindings", "dependencies"]

  lemma {:induction false} OperationNamesDiffer()
    ensures NoRepeats(OPERATION_NAMES)
  {
    var n := OPERATION_NAMES;
    assert n[0][0] == 'o' && n[1][0] == 'c' && n[2][0] == 'b' && n[3][0] == 'd';
  }

  lemma {:induction false} OperationTyped(op: PlannedOperation)
    ensures HasType(PostInit, OperationSchema(), OperationValue(op))
  {
    OperationNamesDiffer();
    CommandTyped(op.command);
    BindingsKept(op.bindings, op.bindings);
    ValuesKept(SStr, op.dependencies, op.dependencies, TextValue);
    FourTyped("PlannedOperation", OPERATION_NAMES, Field("operation_id", SStr), Field("command", SCommand),
              Field("bindings", STuple(BindingSchema())), Field("dependencies", STuple(SStr)), VStr(op.id),
              CommandValue(op.command), VTuple(Values(op.bindings, BindingValue)),
              VTuple(Values(op.dependencies, TextValue)));
  }

  lemma {:induction false} OperationsDiffer(a: PlannedOperation, b: PlannedOperation)
    requires OperationValue(a) == OperationValue(b)
    ensures a == b
  {
    var x, y := OperationParts(a), OperationParts(b);
    OperationNamesDiffer();
    RecordsDiffer(OPERATION_NAMES, x, y);
    assert x[0].1 == y[0].1 && x[1].1 == y[1].1 && x[2].1 == y[2].1 && x[3].1 == y[3].1;
    CommandsDiffer(a.command, b.command);
    BindingsKept(a.bindings, b.bindings);
    ValuesDiffer(a.dependencies, b.dependencies, TextValue);
  }

  lemma {:induction false} PlanTyped(ops: seq<PlannedOperation>)
    ensures HasType(PostInit, SyncPlanSchema(), PlanValue(ops))
  {
    PlanKept(ops, ops);
  }

  lemma {:induction false} PlanKept(a: seq<PlannedOperation>, b: seq<PlannedOperation>)
    ensures HasType(PostInit, SyncPlanSchema(), PlanValue(a))
    ensures PlanValue(a) == PlanValue(b) ==> a == b
  {
    var x, y := PlanParts(a), PlanParts(b);
    forall p: PlannedOperation, q: PlannedOperation
      ensures HasType(PostInit, OperationSchema(), OperationValue(p))
      ensures OperationValue(p) == OperationValue(q) ==> p == q
    {
      OperationTyped(p);
      if OperationValue(p) == OperationValue(q) {
        OperationsDiffer(p, q);
      }
    }
    ValuesKept(OperationSchema(), a, b, OperationValue);
    RecordKept("SyncPlan", ["operations"], SyncPlanSchema().fields, x, y);
    assert x == y ==> x[0].1 == y[0].1;
  }

  /** Every plan can be saved, and what is loaded back is the value of that plan and of no other. */
  lemma {:induction false} StoredPlanIsThePlan(ops: seq<PlannedOperation>, other: seq<PlannedOperation>)
    ensures Storable(SyncPlanSchema(), PlanValue(ops))
    ensures Open(SyncPlanSchema(), Envelope(Encode(PlanValue(ops)).value)) == Some(PlanValue(other)) <==> ops == other
  {
    PlanKept(ops, other);
    TypedIsStored(SyncPlanSchema(), PlanValue(ops));
  }
}
