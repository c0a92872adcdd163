/**
 * The visual tree of a plan: a forest built by placing nodes in place. Requisites go under their companies,
 * addresses under their requisites, leads under the company shown in their group; a company that already
 * stands elsewhere is shown by a reference node.
 */
module PlanTree {
  import opened Wrappers
  import opened Json
  import opened Contracts
  import opened PlanValidator
  import opened Forests

  datatype Kind = CompanyKind | GroupKind | RequisiteKind | LeadKind

  /**
   * The identity of a node object: the node of a planned operation, of an entity the CRM already has, the
   * "no group" node, or the reference to a company made for one group.
   */
  datatype Node =
    | Own(id: string)
    | Existing(kind: Kind, crmId: int)
    | Ungrouped
    | Reference(group: Node, company: Node)

  predicate IsKind(types: EntityTypes, op: PlannedOperation, kind: Kind) {
    match kind
    case RequisiteKind => op.command.AddRequisite?
    case CompanyKind => op.command.AddItem? && op.command.entityTypeId == types.company
    case GroupKind => op.command.AddItem? && op.command.entityTypeId == types.companyGroup
    case LeadKind => op.command.AddItem? && op.command.entityTypeId == types.lead
  }

  /** No item is of two kinds. */
  ghost predicate DistinctKinds(types: EntityTypes) {
    types.company != types.companyGroup && types.company != types.lead && types.companyGroup != types.lead
  }

  function FirstSource(bindings: seq<RuntimeBinding>, name: string): Option<string> {
    if bindings == [] then None
    else if bindings[0].field == name then Some(bindings[0].source)
    else FirstSource(bindings[1..], name)
  }

  /** The node the field names: the bound producer if it is of the kind, else the entity of a positive CRM id. */
  function Owner(byId: map<string, PlannedOperation>, types: EntityTypes, op: PlannedOperation, name: string,
      kind: Kind): Option<Node>
  {
    match FirstSource(op.bindings, name)
    case Some(source) => if source in byId && IsKind(types, byId[source], kind) then Some(Own(source)) else None
    case None =>
      var value := Get(op.command.fields, name);
      if value.Some? && IsPositiveId(value.value) then Some(Existing(kind, value.value.number)) else None
  }

  /** Groups stand above companies, companies above requisites and leads, requisites above addresses. */
  function Depth(byId: map<string, PlannedOperation>, types: EntityTypes, node: Node): (depth: nat)
    ensures depth <= 3
  {
    match node
    case Ungrouped => 0
    case Reference(_, _) => 1
    case Existing(kind, _) => if kind == GroupKind then 0 else if kind == CompanyKind then 1 else 2
    case Own(id) =>
      if id !in byId then 0
      else if IsKind(types, byId[id], CompanyKind) then 1
      else if IsKind(types, byId[id], LeadKind) || byId[id].command.AddRequisite? then 2
      else if byId[id].command.AddAddress? then 3
      else 0
  }

  function DepthIn(byId: map<string, PlannedOperation>, types: EntityTypes): Node -> nat {
    node => Depth(byId, types, node)
  }

  // ----- where the nodes of a finished tree stand -----

  function RequisiteOwner(byId: map<string, PlannedOperation>, structure: CrmStructure, op: PlannedOperation)
    : Option<Node>
  {
    Owner(byId, structure.entityTypes, op, structure.entityFields.requisite.entityIdToBind, CompanyKind)
  }

  function AddressOwner(byId: map<string, PlannedOperation>, structure: CrmStructure, op: PlannedOperation)
    : Option<Node>
  {
    Owner(byId, structure.entityTypes, op, structure.entityFields.address.entityIdToBind, RequisiteKind)
  }

  function LeadGroup(byId: map<string, PlannedOperation>, structure: CrmStructure, op: PlannedOperation): Node {
    var group := Owner(byId, structure.entityTypes, op, structure.entityFields.lead.companyGroupBitrixId, GroupKind);
    if group.Some? then group.value else Ungrouped
  }

  function LeadCompany(byId: map<string, PlannedOperation>, structure: CrmStructure, op: PlannedOperation): Option<Node>
  {
    Owner(byId, structure.entityTypes, op, structure.entityFields.lead.companyId, CompanyKind)
  }

  function BranchOwner(byId: map<string, PlannedOperation>, structure: CrmStructure, op: PlannedOperation): Option<Node>
  {
    match op.command
    case AddRequisite(_) => RequisiteOwner(byId, structure, op)
    case AddAddress(_) => AddressOwner(byId, structure, op)
    case AddItem(_, _) => None
  }

  type Parents = map<Node, Option<Node>>

  ghost predicate StandsUnder(parents: Parents, node: Node, parent: Node) {
    node in parents && parents[node] == Some(parent)
  }

  /** A requisite or address with an owner stands under it. */
  ghost predicate BranchPlaced(parents: Parents, byId: map<string, PlannedOperation>, structure: CrmStructure,
      op: PlannedOperation)
  {
    var owner := BranchOwner(byId, structure, op);
    owner.Some? ==> StandsUnder(parents, Own(op.id), owner.value)
  }

  /** A lead stands in its group: under its company or the group's reference to it, or under the group itself. */
  ghost predicate LeadPlaced(parents: Parents, byId: map<string, PlannedOperation>, structure: CrmStructure,
      op: PlannedOperation)
  {
    IsKind(structure.entityTypes, op, LeadKind) ==>
      var group := LeadGroup(byId, structure, op);
      match LeadCompany(byId, structure, op)
      case None => StandsUnder(parents, Own(op.id), group)
      case Some(company) =>
        || (StandsUnder(parents, Own(op.id), company) && StandsUnder(parents, company, group))
        || (&& StandsUnder(parents, Own(op.id), Reference(group, company))
            && StandsUnder(parents, Reference(group, company), group)
            && company in parents && parents[company] != Some(group))
  }

  // ----- the tree -----

  /** Nodes keep their places when others are added. */
  ghost predicate KeepsPlaces(parents: Parents, later: Parents) {
    forall node <- parents :: node in later && later[node] == parents[node]
  }

  lemma {:induction false} BranchStays(parents: Parents, later: Parents, byId: map<string, PlannedOperation>,
      structure: CrmStructure, op: PlannedOperation)
    requires KeepsPlaces(parents, later) && BranchPlaced(parents, byId, structure, op)
    ensures BranchPlaced(later, byId, structure, op)
  {
  }

  /** A lead put under its group, or under the slot of its company there. */
  lemma {:induction false} LeadStands(parents: Parents, byId: map<string, PlannedOperation>, structure: CrmStructure,
      op: PlannedOperation, parent: Node)
    requires Own(op.id) !in parents && LeadGroup(byId, structure, op) in parents && parent in parents
    requires match LeadCompany(byId, structure, op)
             case None => parent == LeadGroup(byId, structure, op)
             case Some(company) => SlotStands(parents, LeadGroup(byId, structure, op), company, parent)
    ensures LeadPlaced(parents[Own(op.id) := Some(parent)], byId, structure, op)
  {
  }

  lemma {:induction false} LeadStays(parents: Parents, later: Parents, byId: map<string, PlannedOperation>,
      structure: CrmStructure, op: PlannedOperation)
    requires KeepsPlaces(parents, later) && LeadPlaced(parents, byId, structure, op)
    ensures LeadPlaced(later, byId, structure, op)
  {
  }

  /** Only requisites and addresses have been placed. */
  ghost predicate BranchesOnly(parents: Parents, byId: map<string, PlannedOperation>) {
    forall node <- parents ::
      node.Own? && node.id in byId && (byId[node.id].command.AddRequisite? || byId[node.id].command.AddAddress?)
  }

  ghost predicate SlotStands(parents: Parents, group: Node, company: Node, slot: Node) {
    && StandsUnder(parents, slot, group)
    && (slot == company || (slot == Reference(group, company) && company in parents && parents[company] != Some(group)))
  }

  /** The slots are what they should be, and every company or reference standing in a group is one of them. */
  ghost predicate SlotsRecorded(slots: map<(Node, Node), Node>, parents: Parents, depth: Node -> nat) {
    && (forall key <- slots :: SlotStands(parents, key.0, key.1, slots[key]))
    && (forall node <- parents | node.Reference? ::
          (node.group, node.company) in slots && slots[(node.group, node.company)] == node)
    && (forall node <- parents | depth(node) == 1 && !node.Reference? && parents[node].Some? ::
          (parents[node].value, node) in slots)
  }

  lemma {:induction false} PlacingKeepsSlots(slots: map<(Node, Node), Node>, parents: Parents, depth: Node -> nat,
      node: Node, parent: Option<Node>)
    requires SlotsRecorded(slots, parents, depth) && node !in parents
    requires !node.Reference? && (depth(node) == 1 ==> parent == None)
    ensures SlotsRecorded(slots, parents[node := parent], depth)
  {
    var later := parents[node := parent];
    forall key <- slots
      ensures SlotStands(later, key.0, key.1, slots[key])
    {
      assert SlotStands(parents, key.0, key.1, slots[key]);
    }
  }

  lemma {:induction false} FillingKeepsSlots(slots: map<(Node, Node), Node>, parents: Parents, depth: Node -> nat,
      group: Node, company: Node, slot: Node)
    requires SlotsRecorded(slots, parents, depth) && (group, company) !in slots
    requires depth(company) == 1 && !company.Reference?
    requires slot == if company in parents then Reference(group, company) else company
    ensures slot !in parents
    ensures SlotsRecorded(slots[(group, company) := slot], parents[slot := Some(group)], depth)
  {
    var later := parents[slot := Some(group)];
    forall key <- slots
      ensures SlotStands(later, key.0, key.1, slots[key])
    {
      assert SlotStands(parents, key.0, key.1, slots[key]);
    }
    assert SlotStands(later, group, company, slot);
  }

  ghost predicate Indexed(byId: map<string, PlannedOperation>, ops: seq<PlannedOperation>) {
    forall k :: 0 <= k < |ops| ==> ops[k].id in byId && byId[ops[k].id] == ops[k]
  }

  /** The first i operations have their branches placed, and nothing else has been placed. */
  ghost predicate BranchesDone(parents: Parents, ops: seq<PlannedOperation>, byId: map<string, PlannedOperation>,
      structure: CrmStructure, i: nat)
  {
    && BranchesOnly(parents, byId)
    && (forall k :: 0 <= k < i && k < |ops| ==> BranchPlaced(parents, byId, structure, ops[k]))
    && (forall k :: i <= k < |ops| ==> Own(ops[k].id) !in parents)
  }

  lemma {:induction false} NextBranchDone(parents: Parents, later: Parents, ops: seq<PlannedOperation>,
      byId: map<string, PlannedOperation>, structure: CrmStructure, i: nat)
    requires DistinctIds(ops) && Indexed(byId, ops) && i < |ops| && BranchesDone(parents, ops, byId, structure, i)
    requires var owner := BranchOwner(byId, structure, ops[i]);
             later == if owner.Some? then parents[Own(ops[i].id) := owner] else parents
    ensures BranchesDone(later, ops, byId, structure, i + 1)
  {
    assert KeepsPlaces(parents, later);
    assert BranchesOnly(later, byId);
    forall k | i < k < |ops|
      ensures Own(ops[k].id) !in later
    {
      assert ops[k].id != ops[i].id;
    }
    forall k | 0 <= k < i
      ensures BranchPlaced(later, byId, structure, ops[k])
    {
      BranchStays(parents, later, byId, structure, ops[k]);
    }
  }

  /** The first i operations have their leads placed, and no later lead has been placed. */
  ghost predicate LeadsDone(parents: Parents, ops: seq<PlannedOperation>, byId: map<string, PlannedOperation>,
      structure: CrmStructure, i: nat)
  {
    && (forall k :: 0 <= k < i && k < |ops| ==> LeadPlaced(parents, byId, structure, ops[k]))
    && (forall k :: i <= k < |ops| && IsKind(structure.entityTypes, ops[k], LeadKind) ==> Own(ops[k].id) !in parents)
  }

  lemma {:induction false} NextLeadDone(parents: Parents, later: Parents, ops: seq<PlannedOperation>,
      byId: map<string, PlannedOperation>, structure: CrmStructure, i: nat)
    requires DistinctIds(ops) && Indexed(byId, ops) && DistinctKinds(structure.entityTypes) && i < |ops|
    requires LeadsDone(parents, ops, byId, structure, i) && KeepsPlaces(parents, later)
    requires LeadPlaced(later, byId, structure, ops[i])
    requires forall node <- later | node !in parents && node != Own(ops[i].id) ::
               Depth(byId, structure.entityTypes, node) < 2
    ensures LeadsDone(later, ops, byId, structure, i + 1)
  {
    forall k | 0 <= k < i
      ensures LeadPlaced(later, byId, structure, ops[k])
    {
      LeadStays(parents, later, byId, structure, ops[k]);
    }
    forall k | i < k < |ops| && IsKind(structure.entityTypes, ops[k], LeadKind)
      ensures Own(ops[k].id) !in later
    {
      assert ops[k].id != ops[i].id;
      assert Depth(byId, structure.entityTypes, Own(ops[k].id)) == 2;
    }
  }

  class Tree {
    const ops: seq<PlannedOperation>
    const structure: CrmStructure
    const operations: map<string, PlannedOperation>
    var existing: seq<Node>
    var roots: seq<Node>
    var children: map<Node, seq<Node>>
    var placed: set<Node>
    var slots: map<(Node, Node), Node>
    /** Where each placed node stands: None for a root. */
    ghost var parents: Parents

    ghost predicate Valid()
      reads this
    {
      && (forall node <- existing :: node.Existing?)
      && DistinctIds(ops) && operations == ById(ops) && DistinctKinds(structure.entityTypes)
      && placed == parents.Keys
      && (forall node <- parents | node.Own? :: node.id in operations)
      && IsForest(children, roots, parents)
      && Layered(children, DepthIn(operations, structure.entityTypes), 3)
      && (forall node <- parents ::
            parents[node].Some? ==> Known(parents[node].value) || parents[node].value in parents)
    }

    /** Nodes the last loop of the build places, wherever they are. */
    ghost predicate Known(node: Node)
      reads this
    {
      (node.Own? && node.id in operations) || node in existing
    }

    constructor (ops: seq<PlannedOperation>, structure: CrmStructure)
      requires DistinctIds(ops) && DistinctKinds(structure.entityTypes)
      ensures Valid() && this.ops == ops && this.structure == structure
      ensures parents == map[] && slots == map[] && existing == []
    {
      this.ops, this.structure, operations := ops, structure, ById(ops);
      existing, roots, children, placed, slots, parents := [], [], map[], {}, map[], map[];
    }

    /** Appends the node to the roots or to the parent's children, once and for all. */
    method Place(node: Node, parent: Option<Node>)
      requires Valid() && (node.Own? ==> node.id in operations)
      requires parent.Some? ==>
                 && Depth(operations, structure.entityTypes, parent.value)
                    < Depth(operations, structure.entityTypes, node)
                 && (Known(parent.value) || parent.value in parents)
      modifies this`roots, this`children, this`placed, this`parents
      ensures Valid() && parents == if node in old(parents) then old(parents) else old(parents)[node := parent]
    {
      if node in placed {
        return;
      }
      if parent == None {
        AppendRoot(children, roots, parents, node);
        roots := roots + [node];
      } else {
        AppendChild(children, roots, parents, node, parent.value,
                    children[parent.value := ChildrenOf(children, parent.value) + [node]]);
        AppendDeeperChild(children, DepthIn(operations, structure.entityTypes), 3, node, parent.value);
        children := children[parent.value := ChildrenOf(children, parent.value) + [node]];
      }
      placed := placed + {node};
      parents := parents[node := parent];
    }

    /** The owner a field names; an entity the CRM already has gets its node the first time it is named. */
    method FindOwner(op: PlannedOperation, name: string, kind: Kind) returns (owner: Option<Node>)
      requires Valid()
      modifies this`existing
      ensures Valid() && owner == Owner(operations, structure.entityTypes, op, name, kind)
      ensures existing == if owner.Some? && owner.value.Existing? && owner.value !in old(existing)
                          then old(existing) + [owner.value] else old(existing)
      ensures owner.Some? ==> Known(owner.value)
    {
      var i := 0;
      while i < |op.bindings|
        invariant i <= |op.bindings|
        invariant FirstSource(op.bindings, name) == FirstSource(op.bindings[i..], name)
      {
        if op.bindings[i].field == name {
          var source := op.bindings[i].source;
          if source in operations && IsKind(structure.entityTypes, operations[source], kind) {
            return Some(Own(source));
          }
          return None;
        }
        i := i + 1;
      }
      var value := Get(op.command.fields, name);
      if value.Some? && IsPositiveId(value.value) {
        var node := Existing(kind, value.value.number);
        if node !in existing {
          existing := existing + [node];
        }
        return Some(node);
      }
      owner := None;
    }

    ghost predicate SlotsStand()
      reads this
    {
      SlotsRecorded(slots, parents, DepthIn(operations, structure.entityTypes))
    }

    /** Where the group shows the company: made the first time a lead of the group names it. */
    method CompanySlot(company: Node, group: Node) returns (slot: Node)
      requires Valid() && SlotsStand()
      requires Depth(operations, structure.entityTypes, company) == 1 && !company.Reference?
      requires company.Own? ==> company.id in operations
      requires Depth(operations, structure.entityTypes, group) == 0 && group in parents
      modifies this`roots, this`children, this`placed, this`parents, this`slots
      ensures Valid() && SlotsStand() && KeepsPlaces(old(parents), parents)
      ensures SlotStands(parents, group, company, slot)
      ensures forall node <- parents | node !in old(parents) :: node == slot
    {
      var key := (group, company);
      if key !in slots {
        slot := if company in placed then Reference(group, company) else company;
        FillingKeepsSlots(slots, parents, DepthIn(operations, structure.entityTypes), group, company, slot);
        Place(slot, Some(group));
        slots := slots[key := slot];
      }
      slot := slots[key];
    }

    /** Places a requisite under its company, an address under its requisite; other operations wait. */
    method PlaceBranch(op: PlannedOperation)
      requires Valid() && op.id in operations && operations[op.id] == op && Own(op.id) !in parents
      modifies this`existing, this`roots, this`children, this`placed, this`parents
      ensures Valid()
      ensures var owner := BranchOwner(operations, structure, op);
              parents == if owner.Some? then old(parents)[Own(op.id) := owner] else old(parents)
    {
      var parent := None;
      if op.command.AddRequisite? {
        parent := FindOwner(op, structure.entityFields.requisite.entityIdToBind, CompanyKind);
      } else if op.command.AddAddress? {
        parent := FindOwner(op, structure.entityFields.address.entityIdToBind, RequisiteKind);
      }
      if parent.Some? {
        Place(Own(op.id), parent);
      }
    }

    /** First the real ownership: every requisite and address whose owner is known stands under it. */
    method PlaceBranches()
      requires Valid() && parents == map[]
      modifies this`existing, this`roots, this`children, this`placed, this`parents
      ensures Valid() && BranchesDone(parents, ops, operations, structure, |ops|)
    {
      for i := 0 to |ops|
        invariant Valid() && BranchesDone(parents, ops, operations, structure, i)
      {
        ghost var before := parents;
        ByIdMeaning(ops);
        PlaceBranch(ops[i]);
        NextBranchDone(before, parents, ops, operations, structure, i);
      }
    }

    /** The group of a lead, "no group" included, becomes a root. */
    method PlaceGroup(op: PlannedOperation) returns (group: Node)
      requires Valid() && SlotsStand()
      modifies this`existing, this`roots, this`children, this`placed, this`parents
      ensures Valid() && SlotsStand() && KeepsPlaces(old(parents), parents)
      ensures group == LeadGroup(operations, structure, op) && group in parents
      ensures Depth(operations, structure.entityTypes, group) == 0
      ensures forall node <- parents | node !in old(parents) :: node == group
    {
      var named := FindOwner(op, structure.entityFields.lead.companyGroupBitrixId, GroupKind);
      group := if named.Some? then named.value else Ungrouped;
      if group !in parents {
        PlacingKeepsSlots(slots, parents, DepthIn(operations, structure.entityTypes), group, None);
      }
      Place(group, None);
    }

    /** Where in its group a lead goes: under the slot of its company, or under the group if it has none. */
    method LeadParent(op: PlannedOperation, group: Node) returns (parent: Node)
      requires Valid() && SlotsStand() && group in parents && Depth(operations, structure.entityTypes, group) == 0
      modifies this`existing, this`roots, this`children, this`placed, this`parents, this`slots
      ensures Valid() && SlotsStand() && KeepsPlaces(old(parents), parents) && parent in parents
      ensures Depth(operations, structure.entityTypes, parent) < 2
      ensures forall node <- parents | node !in old(parents) :: node == parent
      ensures match LeadCompany(operations, structure, op)
              case None => parent == group
              case Some(company) => SlotStands(parents, group, company, parent)
    {
      var company := FindOwner(op, structure.entityFields.lead.companyId, CompanyKind);
      parent := group;
      if company.Some? {
        parent := CompanySlot(company.value, group);
      }
    }

    /** One lead: its group becomes a root, its company's slot goes into the group, and the lead into the slot. */
    method PlaceLead(op: PlannedOperation)
      requires Valid() && SlotsStand() && op.id in operations && operations[op.id] == op
      requires IsKind(structure.entityTypes, op, LeadKind) && Own(op.id) !in parents
      modifies this`existing, this`roots, this`children, this`placed, this`parents, this`slots
      ensures Valid() && SlotsStand() && KeepsPlaces(old(parents), parents)
      ensures LeadPlaced(parents, operations, structure, op)
      ensures forall node <- parents | node !in old(parents) && node != Own(op.id) ::
                Depth(operations, structure.entityTypes, node) < 2
    {
      var group := PlaceGroup(op);
      var parent := LeadParent(op, group);
      PlacingKeepsSlots(slots, parents, DepthIn(operations, structure.entityTypes), Own(op.id), Some(parent));
      ghost var before := parents;
      Place(Own(op.id), Some(parent));
      LeadStands(before, operations, structure, op, parent);
    }

    method PlaceLeads()
      requires Valid() && SlotsStand() && BranchesOnly(parents, operations)
      modifies this`existing, this`roots, this`children, this`placed, this`parents, this`slots
      ensures Valid() && SlotsStand() && KeepsPlaces(old(parents), parents)
      ensures LeadsDone(parents, ops, operations, structure, |ops|)
    {
      ByIdMeaning(ops);
      for i := 0 to |ops|
        invariant Valid() && SlotsStand() && KeepsPlaces(old(parents), parents)
        invariant LeadsDone(parents, ops, operations, structure, i)
      {
        ghost var before := parents;
        if IsKind(structure.entityTypes, ops[i], LeadKind) {
          PlaceLead(ops[i]);
        }
        NextLeadDone(before, parents, ops, operations, structure, i);
      }
    }

    method PlaceAll(nodes: seq<Node>)
      requires Valid() && SlotsStand()
      requires forall node <- nodes :: node.Existing? || (node.Own? && node.id in operations)
      modifies this`roots, this`children, this`placed, this`parents
      ensures Valid() && SlotsStand() && KeepsPlaces(old(parents), parents)
      ensures forall node <- nodes :: node in parents
    {
      for i := 0 to |nodes|
        invariant Valid() && SlotsStand() && KeepsPlaces(old(parents), parents)
        invariant forall node <- nodes[..i] :: node in parents
      {
        assert nodes[i] in nodes;
        if nodes[i] !in parents {
          PlacingKeepsSlots(slots, parents, DepthIn(operations, structure.entityTypes), nodes[i], None);
        }
        Place(nodes[i], None);
        assert nodes[..i + 1] == nodes[..i] + [nodes[i]];
      }
      assert nodes[..|nodes|] == nodes;
    }

    /** Whatever is left becomes a root: operations nobody names, and owners the CRM already has. */
    method PlaceRest()
      requires Valid() && SlotsStand()
      modifies this`roots, this`children, this`placed, this`parents
      ensures Valid() && KeepsPlaces(old(parents), parents)
      ensures forall k :: 0 <= k < |ops| ==> Own(ops[k].id) in parents
      ensures forall node <- existing :: node in parents
    {
      ByIdMeaning(ops);
      var own := seq(|ops|, i requires 0 <= i < |ops| => Own(ops[i].id));
      PlaceAll(own + existing);
      assert forall k :: 0 <= k < |ops| ==> own[k] == Own(ops[k].id) && own[k] in own + existing;
      assert forall node <- existing :: node in own + existing;
    }

    /** The whole tree: a forest in which every operation stands, each under the owner the plan gives it. */
    method Build()
      requires Valid() && SlotsStand() && parents == map[]
      modifies this
      ensures Valid() && Finished(parents)
      ensures forall k :: 0 <= k < |ops| ==>
                && Own(ops[k].id) in parents
                && BranchPlaced(parents, operations, structure, ops[k])
                && LeadPlaced(parents, operations, structure, ops[k])
    {
      PlaceBranches();
      ghost var branches := parents;
      PlaceLeads();
      ghost var leads := parents;
      PlaceRest();
      forall k | 0 <= k < |ops|
        ensures BranchPlaced(parents, operations, structure, ops[k])
        ensures LeadPlaced(parents, operations, structure, ops[k])
      {
        BranchStays(branches, parents, operations, structure, ops[k]);
        LeadStays(leads, parents, operations, structure, ops[k]);
      }
      OperationsAreKnown();
    }

    lemma {:induction false} OperationsAreKnown()
      requires Valid()
      requires forall k :: 0 <= k < |ops| ==> Own(ops[k].id) in parents
      requires forall node <- existing :: node in parents
      ensures Finished(parents)
    {
      ByIdMeaning(ops);
      forall node <- parents | parents[node].Some?
        ensures parents[node].value in parents
      {
        var parent := parents[node].value;
        if parent.Own? && parent.id in operations {
          var k :| 0 <= k < |ops| && ops[k].id == parent.id;
          assert Own(ops[k].id) == parent;
        }
      }
    }
  }

  /** Every parent stands somewhere itself. */
  ghost predicate Finished(parents: Parents) {
    forall node <- parents :: parents[node].Some? ==> parents[node].value in parents
  }

  /** The lines show the tree: a root by itself, any other node under its parent, among what is below that parent. */
  ghost predicate ShowsTree(lines: seq<Node>, parents: Parents, depth: Node -> nat) {
    forall j :: 0 <= j < |lines| ==>
      lines[j] in parents && (parents[lines[j]] == None || ShownBelow(lines, j, parents, depth))
  }

  /**
   * The tree mode of format_sync_plan, as the nodes its lines show: every planned operation once, no node
   * twice, and no operation the plan does not have. The nodes stand where Build puts them, and each line stands under
   * that of its node's parent.
   */
  method FormatTree(ops: seq<PlannedOperation>, structure: CrmStructure)
    returns (lines: seq<Node>, ghost parents: Parents)
    requires DistinctIds(ops) && DistinctKinds(structure.entityTypes)
    ensures forall k :: 0 <= k < |ops| ==> Count(lines, Own(ops[k].id)) == 1
    ensures forall node: Node :: Count(lines, node) <= 1
    ensures forall node <- lines | node.Own? :: node.id in Ids(ops)
    ensures forall k :: 0 <= k < |ops| ==>
              BranchPlaced(parents, ById(ops), structure, ops[k]) && LeadPlaced(parents, ById(ops), structure, ops[k])
    ensures ShowsTree(lines, parents, DepthIn(ById(ops), structure.entityTypes))
  {
    var tree := new Tree(ops, structure);
    tree.Build();
    ByIdMeaning(ops);
    ghost var depth := DepthIn(tree.operations, structure.entityTypes);
    lines := Lines(tree.children, tree.roots, depth, 3, 0);
    forall node: Node
      ensures Count(lines, node) == if node in tree.parents then 1 else 0
    {
      EachPlacedNodeOnce(tree.children, tree.roots, tree.parents, depth, 3, node);
    }
    parents := tree.parents;
    forall j | 0 <= j < |lines|
      ensures lines[j] in parents && (parents[lines[j]] == None || ShownBelow(lines, j, parents, depth))
    {
      assert Count(lines, lines[j]) > 0;
      LinesNest(tree.children, tree.roots, parents, depth, 3, tree.roots, 0, j);
      assert StandsOnce(tree.children, tree.roots, parents, lines[j]);
    }
  }
}
