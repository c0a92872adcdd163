/** SyncPlanValidator: the five passes that type-check a plan before it may be loaded. */
module PlanValidator {
  import opened Text
  import opened Json
  import opened Contracts

  // ----- pass 1: operation ids -----

  ghost predicate UniqueIds(ops: seq<PlannedOperation>) {
    && (forall i :: 0 <= i < |ops| ==> HasText(ops[i].id))
    && DistinctIds(ops)
  }

  method ValidateOperationIds(ops: seq<PlannedOperation>) returns (ok: bool)
    ensures ok <==> UniqueIds(ops)
  {
    var seen: set<string> := {};
    for i := 0 to |ops|
      invariant seen == Ids(ops[..i])
      invariant UniqueIds(ops[..i])
    {
      if !HasText(ops[i].id) {
        return false;
      }
      if ops[i].id in seen {
        var j :| 0 <= j < i && ops[..i][j].id == ops[i].id;
        assert ops[j].id == ops[i].id;
        return false;
      }
      NextIsNew(ops, i);
      seen := seen + {ops[i].id};
    }
    assert ops[..|ops|] == ops;
    return true;
  }

  lemma {:induction false} NextIsNew(ops: seq<PlannedOperation>, i: nat)
    requires i < |ops| && UniqueIds(ops[..i]) && HasText(ops[i].id) && ops[i].id !in Ids(ops[..i])
    ensures UniqueIds(ops[..i + 1]) && Ids(ops[..i + 1]) == Ids(ops[..i]) + {ops[i].id}
  {
    var head, next := ops[..i], ops[..i + 1];
    assert next == head + [ops[i]];
    IdsConcat(head, [ops[i]]);
    assert Ids([ops[i]]) == {ops[i].id} by { assert [ops[i]][0].id in Ids([ops[i]]); }
    forall a, b | 0 <= a < b < |next|
      ensures next[a].id != next[b].id
    {
      assert next[a] == head[a] && head[a].id in Ids(head);
    }
  }

  // ----- pass 2: commands -----

  ghost function CountBindings(bindings: seq<RuntimeBinding>, field: string): nat {
    if bindings == [] then 0
    else CountBindings(bindings[1..], field) + if bindings[0].field == field then 1 else 0
  }

  ghost predicate BindsField(bindings: seq<RuntimeBinding>, field: string) {
    exists i :: 0 <= i < |bindings| && bindings[i].field == field
  }

  ghost predicate FieldIsPositive(fields: Fields, name: string) {
    name in fields && fields[name].JInt? && fields[name].number > 0
  }

  /** Exactly one source: a positive literal or a single binding. */
  ghost predicate HasReference(op: PlannedOperation, field: string) {
    if field in op.command.fields then FieldIsPositive(op.command.fields, field) && !BindsField(op.bindings, field)
    else CountBindings(op.bindings, field) == 1
  }

  /** The field holds the number, which in Python may be an integer, a float or, for 0 and 1, a boolean. */
  ghost predicate FieldEquals(fields: Fields, name: string, n: int) {
    && name in fields
    && (fields[name] == JInt(n) || fields[name] == JFloat(n as real)
        || (n == 1 && fields[name] == JBool(true)) || (n == 0 && fields[name] == JBool(false)))
  }

  ghost predicate CommandAccepted(structure: CrmStructure, op: PlannedOperation) {
    var fields, types := structure.entityFields, structure.entityTypes;
    && (forall name | name in op.command.fields :: HasText(name))
    && match op.command
       case AddItem(entityType, payload) =>
         && entityType > 0
         && (entityType == types.lead || entityType == types.company || entityType == types.companyGroup)
         && (entityType == types.lead ==>
               && HasReference(op, fields.lead.companyId)
               && (var group := fields.lead.companyGroupBitrixId;
                   group in payload || BindsField(op.bindings, group) ==> HasReference(op, group)))
       case AddRequisite(payload) =>
         && HasReference(op, fields.requisite.entityIdToBind)
         && FieldEquals(payload, fields.requisite.entityTypeId, types.company)
         && FieldIsPositive(payload, fields.requisite.presetId)
       case AddAddress(payload) =>
         && HasReference(op, fields.address.entityIdToBind)
         && FieldEquals(payload, fields.address.entityTypeIdToBind, types.requisite)
         && FieldIsPositive(payload, fields.address.addressTypeId)
  }

  ghost predicate CommandsAccepted(structure: CrmStructure, ops: seq<PlannedOperation>) {
    forall i :: 0 <= i < |ops| ==> CommandAccepted(structure, ops[i])
  }

  lemma {:induction false} NoBindingToCount(bindings: seq<RuntimeBinding>, field: string)
    ensures CountBindings(bindings, field) == 0 <==> !BindsField(bindings, field)
  {
    if bindings != [] {
      NoBindingToCount(bindings[1..], field);
      if BindsField(bindings[1..], field) {
        var i :| 0 <= i < |bindings[1..]| && bindings[1..][i].field == field;
        assert bindings[i + 1].field == field;
      }
      if BindsField(bindings, field) && bindings[0].field != field {
        var i :| 0 <= i < |bindings| && bindings[i].field == field;
        assert bindings[1..][i - 1].field == field;
      }
    }
  }

  /** `sum(binding.field == field for binding in op.bindings)`. */
  method CountBindingsOf(op: PlannedOperation, field: string) returns (count: nat)
    ensures count == CountBindings(op.bindings, field)
    ensures count == 0 <==> !BindsField(op.bindings, field)
  {
    NoBindingToCount(op.bindings, field);
    count := 0;
    var rest := op.bindings;
    while rest != []
      invariant count + CountBindings(rest, field) == CountBindings(op.bindings, field)
      decreases |rest|
    {
      if rest[0].field == field {
        count := count + 1;
      }
      rest := rest[1..];
    }
  }

  method RequireReference(op: PlannedOperation, field: string) returns (ok: bool)
    ensures ok <==> HasReference(op, field)
  {
    var bindings := CountBindingsOf(op, field);
    if field in op.command.fields {
      return bindings == 0 && IsPositiveId(op.command.fields[field]);
    }
    return bindings == 1;
  }

  /** The checks on a lead: its company, and its group if it names one. */
  method ValidateLead(structure: CrmStructure, op: PlannedOperation) returns (ok: bool)
    ensures ok <==>
              && HasReference(op, structure.entityFields.lead.companyId)
              && (var group := structure.entityFields.lead.companyGroupBitrixId;
                  group in op.command.fields || BindsField(op.bindings, group) ==> HasReference(op, group))
  {
    var group := structure.entityFields.lead.companyGroupBitrixId;
    ok := RequireReference(op, structure.entityFields.lead.companyId);
    var bindings := CountBindingsOf(op, group);
    if ok && (group in op.command.fields || bindings > 0) {
      ok := RequireReference(op, group);
    }
  }

  /** The checks common to requisites and addresses: the owner, the owner's type and a positive id. */
  method ValidateOwned(op: PlannedOperation, owner: string, ownerType: string, expected: int, id: string)
    returns (ok: bool)
    ensures ok <==>
              && HasReference(op, owner) && FieldEquals(op.command.fields, ownerType, expected)
              && FieldIsPositive(op.command.fields, id)
  {
    var fields := op.command.fields;
    ok := RequireReference(op, owner);
    ok := ok && ownerType in fields && EqualsInteger(fields[ownerType], expected);
    ok := ok && id in fields && IsPositiveId(fields[id]);
  }

  method ValidateCommand(structure: CrmStructure, op: PlannedOperation) returns (ok: bool)
    ensures ok <==> CommandAccepted(structure, op)
  {
    var fields, types := structure.entityFields, structure.entityTypes;
    if exists name | name in op.command.fields :: !HasText(name) {
      return false;
    }
    match op.command {
      case AddItem(entityType, _) =>
        if entityType <= 0 || entityType !in {types.lead, types.company, types.companyGroup} {
          return false;
        }
        ok := true;
        if entityType == types.lead {
          ok := ValidateLead(structure, op);
        }
      case AddRequisite(_) =>
        var f := fields.requisite;
        ok := ValidateOwned(op, f.entityIdToBind, f.entityTypeId, types.company, f.presetId);
      case AddAddress(_) =>
        var f := fields.address;
        ok := ValidateOwned(op, f.entityIdToBind, f.entityTypeIdToBind, types.requisite, f.addressTypeId);
    }
  }

  method ValidateCommands(structure: CrmStructure, ops: seq<PlannedOperation>) returns (ok: bool)
    ensures ok <==> CommandsAccepted(structure, ops)
  {
    for i := 0 to |ops|
      invariant forall k :: 0 <= k < i ==> CommandAccepted(structure, ops[k])
    {
      ok := ValidateCommand(structure, ops[i]);
      if !ok {
        return;
      }
    }
    return true;
  }

  // ----- pass 3: bindings -----

  ghost predicate CreatesItem(op: PlannedOperation, entityType: int) {
    op.command.AddItem? && op.command.entityTypeId == entityType
  }

  /** The producer creates what the consumer's field refers to. */
  ghost predicate SourceTyped(structure: CrmStructure, consumer: PlannedOperation, field: string,
      producer: PlannedOperation)
  {
    var fields, types := structure.entityFields, structure.entityTypes;
    && (consumer.command.AddAddress? && field == fields.address.entityIdToBind ==> producer.command.AddRequisite?)
    && (consumer.command.AddRequisite? && field == fields.requisite.entityIdToBind ==>
          CreatesItem(producer, types.company))
    && (CreatesItem(consumer, types.lead) ==>
          && (field == fields.lead.companyId ==> CreatesItem(producer, types.company))
          && (field == fields.lead.companyGroupBitrixId && field != fields.lead.companyId ==>
                CreatesItem(producer, types.companyGroup)))
  }

  method ValidateBindingSource(structure: CrmStructure, consumer: PlannedOperation, field: string,
      producer: PlannedOperation) returns (ok: bool)
    ensures ok <==> SourceTyped(structure, consumer, field, producer)
  {
    var fields, types := structure.entityFields, structure.entityTypes;
    var source := producer.command;
    match consumer.command {
      case AddAddress(_) =>
        return field != fields.address.entityIdToBind || source.AddRequisite?;
      case AddRequisite(_) =>
        return field != fields.requisite.entityIdToBind || (source.AddItem? && source.entityTypeId == types.company);
      case AddItem(entityType, _) =>
        if entityType != types.lead {
          return true;
        } else if field == fields.lead.companyId {
          return source.AddItem? && source.entityTypeId == types.company;
        } else if field == fields.lead.companyGroupBitrixId {
          return source.AddItem? && source.entityTypeId == types.companyGroup;
        }
        return true;
    }
  }

  ghost predicate BindingAccepted(structure: CrmStructure, ops: seq<PlannedOperation>, op: PlannedOperation, k: nat)
    requires k < |op.bindings|
  {
    var binding := op.bindings[k];
    && HasText(binding.field) && HasText(binding.source)
    && (forall m :: 0 <= m < k ==> op.bindings[m].field != binding.field)
    && binding.field !in op.command.fields
    && exists j :: 0 <= j < |ops| && ops[j].id == binding.source && SourceTyped(structure, op, binding.field, ops[j])
  }

  ghost predicate OperationBindingsAccepted(structure: CrmStructure, ops: seq<PlannedOperation>, op: PlannedOperation) {
    forall k :: 0 <= k < |op.bindings| ==> BindingAccepted(structure, ops, op, k)
  }

  ghost predicate BindingsAccepted(structure: CrmStructure, ops: seq<PlannedOperation>) {
    forall i :: 0 <= i < |ops| ==> OperationBindingsAccepted(structure, ops, ops[i])
  }

  /** `{op.operation_id: op for op in operations}`. */
  function ById(ops: seq<PlannedOperation>): map<string, PlannedOperation> {
    if ops == [] then map[] else ById(ops[..|ops| - 1])[ops[|ops| - 1].id := ops[|ops| - 1]]
  }

  lemma {:induction false} ByIdMeaning(ops: seq<PlannedOperation>)
    requires DistinctIds(ops)
    ensures ById(ops).Keys == Ids(ops)
    ensures forall i :: 0 <= i < |ops| ==> ops[i].id in ById(ops) && ById(ops)[ops[i].id] == ops[i]
  {
    if ops == [] {
      assert Ids(ops) == {};
    } else {
      var head, last := ops[..|ops| - 1], ops[|ops| - 1];
      assert forall i :: 0 <= i < |head| ==> head[i] == ops[i];
      ByIdMeaning(head);
      assert ops == head + [last];
      IdsConcat(head, [last]);
      assert Ids([last]) == {last.id} by { assert [last][0].id in Ids([last]); }
    }
  }

  method ValidateOperationBindings(structure: CrmStructure, ops: seq<PlannedOperation>, op: PlannedOperation,
      byId: map<string, PlannedOperation>) returns (ok: bool)
    requires UniqueIds(ops) && byId == ById(ops)
    ensures ok <==> OperationBindingsAccepted(structure, ops, op)
  {
    ByIdMeaning(ops);
    var seen: set<string> := {};
    for k := 0 to |op.bindings|
      invariant forall m :: 0 <= m < k ==> BindingAccepted(structure, ops, op, m)
      invariant forall f :: f in seen <==> exists m :: 0 <= m < k && op.bindings[m].field == f
    {
      var binding := op.bindings[k];
      if !HasText(binding.field) || !HasText(binding.source) {
        assert !BindingAccepted(structure, ops, op, k);
        return false;
      }
      if binding.field in seen || binding.field in op.command.fields {
        assert !BindingAccepted(structure, ops, op, k);
        return false;
      }
      if binding.source !in byId {
        assert forall j :: 0 <= j < |ops| ==> ops[j].id in byId;
        assert !BindingAccepted(structure, ops, op, k);
        return false;
      }
      var typed := ValidateBindingSource(structure, op, binding.field, byId[binding.source]);
      if !typed {
        assert !BindingAccepted(structure, ops, op, k);
        return false;
      }
      assert exists j :: 0 <= j < |ops| && ops[j].id == binding.source by {
        assert binding.source in Ids(ops);
      }
      assert BindingAccepted(structure, ops, op, k);
      seen := seen + {binding.field};
    }
    return true;
  }

  method ValidateBindings(structure: CrmStructure, ops: seq<PlannedOperation>) returns (ok: bool)
    requires UniqueIds(ops)
    ensures ok <==> BindingsAccepted(structure, ops)
  {
    var byId := ById(ops);
    for i := 0 to |ops|
      invariant forall k :: 0 <= k < i ==> OperationBindingsAccepted(structure, ops, ops[k])
    {
      var accepted := ValidateOperationBindings(structure, ops, ops[i], byId);
      if !accepted {
        return false;
      }
    }
    return true;
  }

  // ----- pass 4: dependencies -----

  ghost predicate DependenciesAccepted(ids: set<string>, op: PlannedOperation) {
    forall k :: 0 <= k < |op.dependencies| ==>
      && HasText(op.dependencies[k]) && op.dependencies[k] in ids && op.dependencies[k] != op.id
      && op.dependencies[k] !in op.dependencies[..k]
  }

  ghost predicate AllDependenciesAccepted(ops: seq<PlannedOperation>) {
    forall i :: 0 <= i < |ops| ==> DependenciesAccepted(Ids(ops), ops[i])
  }

  method ValidateDependencies(ops: seq<PlannedOperation>) returns (ok: bool)
    ensures ok <==> AllDependenciesAccepted(ops)
  {
    var ids := set i | 0 <= i < |ops| :: ops[i].id;
    assert ids == Ids(ops);
    for i := 0 to |ops|
      invariant forall m :: 0 <= m < i ==> DependenciesAccepted(ids, ops[m])
    {
      var seen: set<string> := {};
      var op := ops[i];
      for k := 0 to |op.dependencies|
        invariant forall d :: d in seen <==> d in op.dependencies[..k]
        invariant forall m :: 0 <= m < k ==>
                    && HasText(op.dependencies[m]) && op.dependencies[m] in ids && op.dependencies[m] != op.id
                    && op.dependencies[m] !in op.dependencies[..m]
      {
        var dependency := op.dependencies[k];
        if !HasText(dependency) || dependency !in ids || dependency == op.id || dependency in seen {
          return false;
        }
        assert op.dependencies[..k + 1] == op.dependencies[..k] + [dependency];
        seen := seen + {dependency};
      }
    }
    return true;
  }

  // ----- pass 5: execution order -----

  function Sources(op: PlannedOperation): seq<string> {
    BindingSources(op.bindings) + op.dependencies
  }

  ghost predicate SourcesIn(op: PlannedOperation, earlier: set<string>) {
    forall source :: source in Sources(op) ==> source in earlier
  }

  /** Every operation refers to operations standing before it. */
  ghost predicate Ordered(ops: seq<PlannedOperation>) {
    forall i :: 0 <= i < |ops| ==> SourcesIn(ops[i], Ids(ops[..i]))
  }

  method ValidateExecutionOrder(ops: seq<PlannedOperation>) returns (ok: bool)
    ensures ok <==> Ordered(ops)
  {
    var earlier: set<string> := {};
    for i := 0 to |ops|
      invariant earlier == Ids(ops[..i])
      invariant forall k :: 0 <= k < i ==> SourcesIn(ops[k], Ids(ops[..k]))
    {
      var sources := Sources(ops[i]);
      if exists source | source in sources :: source !in earlier {
        return false;
      }
      assert ops[..i + 1] == ops[..i] + [ops[i]];
      IdsConcat(ops[..i], [ops[i]]);
      assert Ids([ops[i]]) == {ops[i].id} by { assert [ops[i]][0].id in Ids([ops[i]]); }
      earlier := earlier + {ops[i].id};
    }
    return true;
  }

  // ----- the validator -----

  ghost predicate Accepted(structure: CrmStructure, ops: seq<PlannedOperation>) {
    && UniqueIds(ops)
    && CommandsAccepted(structure, ops)
    && BindingsAccepted(structure, ops)
    && AllDependenciesAccepted(ops)
    && Ordered(ops)
  }

  method Validate(structure: CrmStructure, ops: seq<PlannedOperation>) returns (ok: bool)
    ensures ok <==> Accepted(structure, ops)
  {
    ok := ValidateOperationIds(ops);
    if ok {
      ok := ValidateCommands(structure, ops);
    }
    if ok {
      ok := ValidateBindings(structure, ops);
    }
    if ok {
      ok := ValidateDependencies(ops);
    }
    if ok {
      ok := ValidateExecutionOrder(ops);
    }
  }
}
