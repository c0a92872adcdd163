/**
 * Concrete inputs on which four expected properties fail: an accepted plan that gets stuck, validated data the
 * transformer refuses, a failed address that is not tried again, and a company that is created twice.
 */
module Counterexamples {
  import opened Wrappers
  import opened Text
  import opened Json
  import opened Contracts
  import opened OperationIds
  import opened Transformer
  import opened Selection
  import opened PlanValidator
  import opened PlanExecutor
  import opened CompiledPlans
  import opened ExecutionGuarantees
  import opened Resume
  import opened SourceValidator
  import opened CrmLoaders
  import opened Totality
  import opened ResumedRuns

  // ----- a well-formed context of an empty CRM -----

  const STRUCTURE := CrmStructure(
    EntityTypes(1, 2, 3, 4),
    EntityFields(
      LeadFields("a", "b", "c", "d", "e", "f", "g", "h", "i", "j"),
      DeveloperFields("a", "b", "c", "d", "e", "f"),
      CompanyGroupFields("a", "b", "c", "d"),
      RequisiteFields("a", "b", "c", "d", "e", "f", "g", "h", "i"),
      AddressFields("a", "b", "c", "d"),
      MultiFieldFields("a", "b", "c")))

  const CONTEXT := CrmContext(
    STRUCTURE,
    References("source", BuildingTypes("flats", "offices"), "industry", "developer", 1, AddressTypes(1, 2),
               MultiFieldTypes("work", "phone", "email", "web")),
    ExistingEntities([], [], []),
    [Employee("manager", 1)])

  const SETTINGS := RegionSettings("manager", map[])

  lemma {:induction false} LettersAreNames(names: seq<string>)
    requires |names| <= 26 && forall i :: 0 <= i < |names| ==> names[i] == ['a' + i as char]
    ensures DistinctNames(names)
  {
    forall i | 0 <= i < |names|
      ensures HasText(names[i])
    {
      assert !IsSpace(names[i][0]);
    }
    forall i, j | 0 <= i < j < |names|
      ensures names[i] != names[j]
    {
      assert names[i][0] != names[j][0];
    }
  }

  lemma {:induction false} ContextIsWellFormed()
    ensures WellFormedContext(CONTEXT)
  {
    var f := STRUCTURE.entityFields;
    LettersAreNames(LeadNames(f.lead));
    LettersAreNames([f.developer.contactName, f.developer.title, f.developer.assignedById,
                     f.developer.companyType, f.developer.industry, f.developer.multifield]);
    LettersAreNames([f.companyGroup.sourceCompanyGroupId, f.companyGroup.title, f.companyGroup.sourceId,
                     f.companyGroup.assignedById]);
    LettersAreNames(RequisiteNames(f.requisite));
    LettersAreNames(AddressNames(f.address));
    LettersAreNames([f.multifield.valueType, f.multifield.value, f.multifield.typeId]);
  }

  // ----- an accepted plan that gets stuck -----

  /** An address of requisite 1, and a group whose field "x" is to hold the id of that address. */
  const STUCK_PLAN := [
    PlannedOperation("address", AddAddress(map["a" := JInt(1), "b" := JInt(4), "c" := JInt(1)]), [], []),
    PlannedOperation("group", AddItem(3, map[]), [RuntimeBinding("x", "address")], [])]

  /** The validator accepts the plan, although an address never yields an id. */
  lemma {:induction false} AcceptedPlanGetsStuck()
    ensures Accepted(STRUCTURE, STUCK_PLAN) && !NoAddressSource(STUCK_PLAN) && !NeverStuck(STUCK_PLAN)
  {
    StuckPlanPasses();
    assert STUCK_PLAN[0].id == STUCK_PLAN[1].bindings[0].source;
    AcceptedPlanStuckExactlyOnAddressSource(STRUCTURE, STUCK_PLAN);
  }

  lemma {:induction false} StuckPlanPasses()
    ensures Accepted(STRUCTURE, STUCK_PLAN)
  {
    var address, group := STUCK_PLAN[0], STUCK_PLAN[1];
    assert UniqueIds(STUCK_PLAN) by {
      assert !IsSpace(address.id[0]) && !IsSpace(group.id[0]) && address.id[0] != group.id[0];
    }
    StuckPlanCommands();
    StuckPlanBindings();
    assert Ids(STUCK_PLAN[..1]) == {address.id} by { assert STUCK_PLAN[..1][0].id in Ids(STUCK_PLAN[..1]); }
    assert Sources(group) == ["address"];
  }

  lemma {:induction false} StuckPlanCommands()
    ensures CommandsAccepted(STRUCTURE, STUCK_PLAN)
  {
    assert !IsSpace("a"[0]) && !IsSpace("b"[0]) && !IsSpace("c"[0]);
  }

  lemma {:induction false} StuckPlanBindings()
    ensures BindingsAccepted(STRUCTURE, STUCK_PLAN)
  {
    assert BindingAccepted(STRUCTURE, STUCK_PLAN, STUCK_PLAN[1], 0) by {
      assert !IsSpace("x"[0]) && !IsSpace("address"[0]);
      assert STUCK_PLAN[0].id == "address";
    }
  }

  // ----- validated data the transformer refuses -----

  function Building(id: PositiveInt, developer: PositiveInt): ExtractedObject {
    ExtractedObject(id, "title", "address", 1, Date(2025, 1, 1), CommissioningPeriod(2026, 1, None), Residential,
                    developer, None)
  }

  function Developer(id: PositiveInt): ExtractedDeveloper {
    ExtractedDeveloper(id, "name", "full name", "7700000000", "kpp", "ogrn", 1, "legal", "actual", "contact", "phone",
                       "email", None, None)
  }

  /** Two buildings, each with a developer of its own; the two developers have the same INN. */
  const SHARED_INN := ExtractResult([Building(1, 1), Building(2, 2)], [Developer(1), Developer(2)], [])

  /** One building with its developer. */
  const ONE_BUILDING := ExtractResult([Building(1, 1)], [Developer(1)], [])

  /** An empty CRM that knows the manager. */
  const ANSWERS := CrmAnswers([], "lead", [], "group", [], [], [], (name: string) => Some(1))

  lemma {:induction false} ContextIsLoaded()
    ensures LoadedFrom(CONTEXT, SETTINGS, ANSWERS)
  {
    var names := [SETTINGS.defaultAssignedByName] + ANSWERS.assignedNames;
    assert LeadEntries([]) == [] && ExistingGroupEntries([]) == [];
    assert ManagersIndexed(CONTEXT.managers, names, ANSWERS.directory) by {
      assert names == ["manager"];
      assert CONTEXT.managers[0].configuredName == "manager";
    }
  }

  lemma {:induction false} NothingInCommon(objects: seq<ExtractedObject>, developers: seq<ExtractedDeveloper>)
    requires forall i :: 0 <= i < |objects| ==> objects[i].companyGroupId.None?
    ensures GroupsAgree(objects, developers)
  {
  }

  lemma {:induction false} SharedInnIsValidated()
    ensures Validated(SHARED_INN, {1})
  {
    var objects, developers := SHARED_INN.objects, SHARED_INN.developers;
    assert objects[0] in objects && objects[1] in objects;
    assert DeveloperIdList(developers) == [1, 2];
    assert SetOf([1, 2]) == {1, 2} by { assert [1, 2][0] in SetOf([1, 2]) && [1, 2][1] in SetOf([1, 2]); }
    assert DeveloperIds(objects) == {1, 2};
    NothingInCommon(objects, developers);
    assert GroupIdList(SHARED_INN.companyGroups) == [] && RequestedGroupIds(SHARED_INN) == {};
  }

  lemma {:induction false} SharedInnIsRequired()
    ensures !RequiredInnsDistinct(SHARED_INN, CONTEXT)
  {
    var objects, developers := SHARED_INN.objects, SHARED_INN.developers;
    assert objects[0] in objects && objects[1] in objects;
    assert developers[0] in developers && developers[1] in developers;
    assert Required(SHARED_INN, CONTEXT, developers[0]) && Required(SHARED_INN, CONTEXT, developers[1]);
  }

  /** Every check on the extracted data passes, and the transformer still fails. */
  lemma {:induction false} SharedInnFails()
    ensures Validated(SHARED_INN, {1}) && LoadedFrom(CONTEXT, SETTINGS, ANSWERS)
    ensures Transform(SHARED_INN, CONTEXT, SETTINGS) == Err(DuplicateKey)
  {
    SharedInnIsValidated();
    ContextIsLoaded();
    SharedInnIsRequired();
    TransformTotalOnValidatedInput(SHARED_INN, {1}, CONTEXT, SETTINGS, ANSWERS);
  }

  // ----- a failed address that is not tried again -----

  lemma {:induction false} OneBuildingIsValidated()
    ensures Validated(ONE_BUILDING, {1})
  {
    var objects, developers := ONE_BUILDING.objects, ONE_BUILDING.developers;
    assert objects[0] in objects;
    assert DeveloperIdList(developers) == [1];
    assert SetOf([1]) == {1} by { assert [1][0] in SetOf([1]); }
    assert DeveloperIds(objects) == {1};
    NothingInCommon(objects, developers);
    assert GroupIdList(ONE_BUILDING.companyGroups) == [] && RequestedGroupIds(ONE_BUILDING) == {};
  }

  lemma {:induction false} OneBuildingIsPlanned()
    ensures Transform(ONE_BUILDING, CONTEXT, SETTINGS).Ok?
    ensures CreatesDeveloperOf(Prepare(ONE_BUILDING, CONTEXT, SETTINGS).value, Building(1, 1))
  {
    OneBuildingIsValidated();
    ContextIsLoaded();
    TransformTotalOnValidatedInput(ONE_BUILDING, {1}, CONTEXT, SETTINGS, ANSWERS);
    PreparedSelects(ONE_BUILDING, CONTEXT, SETTINGS);
    PreparedIndexAll(ONE_BUILDING, CONTEXT, SETTINGS);
    assert ONE_BUILDING.objects[0] == Building(1, 1);
    assert Building(1, 1).developerId in DeveloperIds(Prepare(ONE_BUILDING, CONTEXT, SETTINGS).value.objects);
  }

  /** The building's developer is created without its actual address, which the CRM refused, and stays without it. */
  lemma {:induction false} AddressStaysMissing() returns (i: nat)
    ensures WellFormedContext(CONTEXT) && Transform(ONE_BUILDING, CONTEXT, SETTINGS).Ok?
    ensures var address := Render(ActualAddress(1));
            var results := RunPlan(Refusing(address), Transform(ONE_BUILDING, CONTEXT, SETTINGS).value).results;
            var second := Transform(ONE_BUILDING, AfterLoad(CONTEXT, ONE_BUILDING, results), SETTINGS);
            && address in results && results[address].status == Failed
            && second.Ok? && address !in Ids(second.value)
            && i < |second.value| && second.value[i].id == Render(Lead(1)) && second.value[i].dependencies == []
  {
    ContextIsWellFormed();
    OneBuildingIsPlanned();
    i := RefusedAddressIsDropped(ONE_BUILDING, CONTEXT, SETTINGS, Building(1, 1));
  }

  // ----- a company created twice -----

  /** The company of the building's developer is created, its requisite refused, and the company created again. */
  lemma {:induction false} CompanyIsCreatedTwice()
    ensures WellFormedContext(CONTEXT) && Transform(ONE_BUILDING, CONTEXT, SETTINGS).Ok?
    ensures var company, plan := Render(Company(1)), Transform(ONE_BUILDING, CONTEXT, SETTINGS).value;
            var results := RunPlan(Refusing(Render(Requisite(1))), plan).results;
            var second := Transform(ONE_BUILDING, AfterLoad(CONTEXT, ONE_BUILDING, results), SETTINGS);
            && Succeeded(results, company)
            && second.Ok? && company in Ids(second.value)
  {
    ContextIsWellFormed();
    OneBuildingIsPlanned();
    DeveloperIsCreated();
    RefusedRequisiteRepeatsCompany(ONE_BUILDING, CONTEXT, SETTINGS, Developer(1));
  }

  lemma {:induction false} DeveloperIsCreated()
    requires Transform(ONE_BUILDING, CONTEXT, SETTINGS).Ok?
    requires CreatesDeveloperOf(Prepare(ONE_BUILDING, CONTEXT, SETTINGS).value, Building(1, 1))
    ensures Creates(Prepare(ONE_BUILDING, CONTEXT, SETTINGS).value, Developer(1))
  {
    var draft := Prepare(ONE_BUILDING, CONTEXT, SETTINGS).value;
    PreparedSelects(ONE_BUILDING, CONTEXT, SETTINGS);
    assert draft.indexes.developers[1] in ONE_BUILDING.developers;
    assert 1 in DeveloperIds(draft.objects);
  }
}
