/** The plan of the next run is exactly what the first run left undone. */
module ResumePlan {
  import opened Wrappers
  import opened Contracts
  import opened OperationIds
  import opened Sorting
  import opened Transformer
  import opened Selection
  import opened PlanExecutor
  import opened CompiledPlans
  import opened Execution
  import opened Resume
  import opened ResumeIndexes

  // ----- the next run's selection -----

  lemma {:induction false} FewerDevelopersIndex(all: seq<ExtractedDeveloper>, some: seq<ExtractedDeveloper>)
    requires DistinctInns(all) && AscendingDevelopers(some) && forall d :: d in some ==> d in all
    ensures DistinctInns(some)
  {
    forall i, j | 0 <= i < j < |some|
      ensures some[i].inn != some[j].inn
    {
      assert some[i] in some && some[j] in some;
      if some[i].inn == some[j].inn {
        SameInnSameDeveloper(all, some[i], some[j]);
      }
    }
  }

  /** Looking up fewer ids than `all` holds meets no repeated INN if `all` has none. */
  lemma {:induction false} FewerLookedUp(all: seq<ExtractedDeveloper>, index: map<int, ExtractedDeveloper>,
      more: set<int>, ids: set<int>)
    requires ids <= more <= index.Keys && forall k :: k in index ==> index[k].id == k
    requires DistinctInns(all) && forall d :: d in all <==> d.id in more && index[d.id] == d
    ensures DistinctInns(Lookup(index, Sorted(ids)))
  {
    var developers := Lookup(index, Sorted(ids));
    LookupMeaning(index, ids);
    assert forall i :: 0 <= i < |developers| ==> developers[i].id == Sorted(ids)[i];
    FewerDevelopersIndex(all, developers);
  }

  /** Fewer objects pass the checks that more objects passed. */
  lemma {:induction false} FewerDevelopersRequired(draft: Draft, extract: ExtractResult, next: Indexes,
      objects: seq<ExtractedObject>)
    requires Selected(draft, extract) && next.developers == draft.indexes.developers
    requires forall o :: o in objects ==> o in draft.objects
    ensures CollectRequiredDevelopers(objects, next).Ok?
    ensures forall d :: d in CollectRequiredDevelopers(objects, next).value <==>
                          d in draft.developers && d.id in DeveloperIds(objects)
    ensures AscendingDevelopers(CollectRequiredDevelopers(objects, next).value)
  {
    assert DeveloperIds(objects) <= DeveloperIds(draft.objects);
    FewerLookedUp(draft.developers, next.developers, DeveloperIds(draft.objects), DeveloperIds(objects));
    RequiredDevelopersMeaning(objects, next);
  }

  lemma {:induction false} FewerGroupsRequired(draft: Draft, extract: ExtractResult, next: Indexes,
      objects: seq<ExtractedObject>)
    requires Selected(draft, extract)
    requires next.developers == draft.indexes.developers && next.groups == draft.indexes.groups
    requires AscendingObjects(objects) && forall o :: o in objects ==> o in draft.objects
    ensures CollectRequiredGroups(objects, next).Ok?
    ensures forall g ::
              g in CollectRequiredGroups(objects, next).value <==> g in draft.groups && g.id in GroupIds(objects)
    ensures AscendingGroups(CollectRequiredGroups(objects, next).value)
  {
    assert GroupIds(objects) <= GroupIds(draft.objects);
    FewerObjectsConsistent(draft, next, objects);
    RequiredGroupsMeaning(objects, next);
  }

  lemma {:induction false} FewerObjectsConsistent(draft: Draft, next: Indexes, objects: seq<ExtractedObject>)
    requires GroupsConsistent(draft.objects, draft.indexes) && next.developers == draft.indexes.developers
    requires forall o :: o in objects ==> o in draft.objects
    ensures GroupsConsistent(objects, next)
  {
    forall i | 0 <= i < |objects| && objects[i].companyGroupId.Some?
      ensures objects[i].developerId in next.developers
      ensures var known := next.developers[objects[i].developerId].companyGroupId;
              known.Some? ==> known == objects[i].companyGroupId
    {
      assert objects[i] in objects;
      var k :| 0 <= k < |draft.objects| && draft.objects[k] == objects[i];
    }
    forall i, j | && 0 <= i < j < |objects| && objects[i].companyGroupId.Some? && objects[j].companyGroupId.Some?
                  && objects[i].developerId == objects[j].developerId
      ensures objects[i].companyGroupId == objects[j].companyGroupId
    {
      assert objects[i] in objects && objects[j] in objects;
      var k :| 0 <= k < |draft.objects| && draft.objects[k] == objects[i];
      var m :| 0 <= m < |draft.objects| && draft.objects[m] == objects[j];
      assert k == m || k < m || m < k;
    }
  }

  // ----- what is left -----

  /** The operation whose success the CRM shows for an item: a developer is recognised by its requisite. */
  function Witness(item: PlanItem): OperationKey {
    match item
    case GroupItem(g) => Group(g.id)
    case LeadItem(o) => Lead(o.id)
    case _ => Requisite(item.developer.id)
  }

  /** The items of the first plan that the CRM does not show as done, in plan order. */
  function Unfinished(items: seq<PlanItem>, results: Results): seq<PlanItem> {
    if items == [] then []
    else
      var last := items[|items| - 1];
      Unfinished(items[..|items| - 1], results) + if Succeeded(results, Render(Witness(last))) then [] else [last]
  }

  lemma {:induction false} UnfinishedMeaning(items: seq<PlanItem>, results: Results)
    ensures forall item :: item in Unfinished(items, results) <==>
              item in items && !Succeeded(results, Render(Witness(item)))
    ensures AscendingItems(items) ==> AscendingItems(Unfinished(items, results))
  {
    if items != [] {
      var head, last := items[..|items| - 1], items[|items| - 1];
      UnfinishedMeaning(head, results);
      assert items == head + [last];
      if AscendingItems(items) {
        assert forall i :: 0 <= i < |head| ==> head[i] == items[i];
        assert AscendingItems(head);
        AscendingConcat(Unfinished(head, results), if Succeeded(results, Render(Witness(last))) then [] else [last]);
      }
    }
  }

  /** A plan is determined by what it contains. */
  lemma {:induction false} AscendingItemsUnique(a: seq<PlanItem>, b: seq<PlanItem>)
    requires AscendingItems(a) && AscendingItems(b)
    requires forall item :: item in a <==> item in b
    ensures a == b
  {
    assert a == [] || a[0] in a;
    assert b == [] || b[0] in b;
    if a != [] && b != [] {
      assert a[0] == b[0];
      forall item
        ensures item in a[1..] <==> item in b[1..]
      {
        assert item in a[1..] <==> item in a && item != a[0];
        assert item in b[1..] <==> item in b && item != b[0];
      }
      AscendingItemsUnique(a[1..], b[1..]);
    }
  }

  // ----- the theorem -----

  /** What the next draft selects, in terms of the first one. */
  ghost predicate SelectsAgain(next: Draft, draft: Draft, extract: ExtractResult, results: Results) {
    && Remembers(next.indexes, draft, extract, results)
    && AscendingObjects(next.objects) && AscendingDevelopers(next.developers) && AscendingGroups(next.groups)
    && (forall o :: o in next.objects <==> o in draft.objects && !Succeeded(results, Render(Lead(o.id))))
    && (forall d :: d in next.developers <==> d in draft.developers && d.id in DeveloperIds(next.objects))
    && (forall g :: g in next.groups <==> g in draft.groups && g.id in GroupIds(next.objects))
  }

  lemma {:induction false} NextObjects(extract: ExtractResult, draft: Draft, next: Indexes, results: Results)
    requires Selected(draft, extract) && Remembers(next, draft, extract, results)
    ensures SelectNewObjects(extract.objects, next).Ok?
    ensures var objects := SelectNewObjects(extract.objects, next).value;
            && AscendingObjects(objects)
            && forall o :: o in objects <==> o in draft.objects && !Succeeded(results, Render(Lead(o.id)))
  {
    NewObjectsMeaning(extract.objects, next);
  }

  /** What is selected with indexes that remember the first run. */
  lemma {:induction false} NextSelection(extract: ExtractResult, draft: Draft, next: Indexes, results: Results)
    returns (again: Draft)
    requires Selected(draft, extract) && Remembers(next, draft, extract, results)
    ensures SelectsAgain(again, draft, extract, results) && again.indexes == next
    ensures SelectNewObjects(extract.objects, next) == Ok(again.objects)
    ensures CollectRequiredDevelopers(again.objects, next) == Ok(again.developers)
    ensures CollectRequiredGroups(again.objects, next) == Ok(again.groups)
  {
    NextObjects(extract, draft, next, results);
    var objects := SelectNewObjects(extract.objects, next).value;
    FewerDevelopersRequired(draft, extract, next, objects);
    FewerGroupsRequired(draft, extract, next, objects);
    again := Draft(next, objects, CollectRequiredDevelopers(objects, next).value,
                   CollectRequiredGroups(objects, next).value);
  }

  lemma {:induction false} NextDraft(extract: ExtractResult, context: CrmContext, settings: RegionSettings,
      oracle: Oracle, draft: Draft, plan: seq<PlannedOperation>, run: Run)
    requires IndexAll(extract, context) == Ok(draft.indexes)
    requires Selected(draft, extract) && Loaded(draft, context, settings, oracle, plan, run)
    ensures Prepare(extract, AfterLoad(context, extract, run.results), settings).Ok?
    ensures SelectsAgain(Prepare(extract, AfterLoad(context, extract, run.results), settings).value, draft, extract,
                         run.results)
  {
    var after := AfterLoad(context, extract, run.results);
    NextIndexes(extract, context, settings, oracle, draft, plan, run);
    var next := IndexAll(extract, after).value;
    var again := NextSelection(extract, draft, next, run.results);
    assert ManagersKnown(settings, next);
    PreparedInStages(extract, after, settings, again);
  }

  /** A lead waiting for something that did not succeed has not succeeded either. */
  lemma {:induction false} OwnerOfUnfinished(context: CrmContext, settings: RegionSettings, oracle: Oracle,
      draft: Draft, plan: seq<PlannedOperation>, run: Run, o: ExtractedObject, key: OperationKey)
    requires Loaded(draft, context, settings, oracle, plan, run)
    requires o in draft.objects && Plannable(LeadItem(o), draft.indexes)
    requires key in BindingKeys(LeadItem(o), draft.indexes) + DependencyKeys(LeadItem(o), draft.indexes)
    requires !Succeeded(run.results, Render(key))
    ensures !Succeeded(run.results, Render(Lead(o.id)))
  {
    if Succeeded(run.results, Render(Lead(o.id))) {
      SuccessNeedsReferences(draft, context, settings, oracle, plan, run, LeadItem(o), key);
    }
  }

  lemma {:induction false} LeadRestsOnGroup(o: ExtractedObject, indexes: Indexes, group: PositiveInt)
    requires Plannable(LeadItem(o), indexes) && o.companyGroupId == Some(group) && group !in indexes.existingGroups
    ensures Group(group) in BindingKeys(LeadItem(o), indexes)
  {
    var keys := BindingKeys(LeadItem(o), indexes);
    assert keys[|keys| - 1] == Group(group);
  }

  lemma {:induction false} LeadRestsOnRequisite(o: ExtractedObject, indexes: Indexes, d: ExtractedDeveloper)
    requires o.developerId == d.id && d.id in indexes.developers && indexes.developers[d.id] == d
    requires NeedsCompany(d, indexes)
    ensures Requisite(d.id) in DependencyKeys(LeadItem(o), indexes)
  {
    assert DependencyKeys(LeadItem(o), indexes)[0] == Requisite(d.id);
  }

  /** A group that was not created leaves one of its leads undone. */
  lemma {:induction false} GroupStillRequired(context: CrmContext, settings: RegionSettings, oracle: Oracle,
      draft: Draft, plan: seq<PlannedOperation>, run: Run, g: ExtractedCompanyGroup) returns (o: ExtractedObject)
    requires Loaded(draft, context, settings, oracle, plan, run)
    requires DeveloperIds(draft.objects) <= draft.indexes.developers.Keys
    requires g.id in GroupIds(draft.objects) && g.id !in draft.indexes.existingGroups
    requires !Succeeded(run.results, Render(Group(g.id)))
    ensures o in draft.objects && o.companyGroupId == Some(g.id) && !Succeeded(run.results, Render(Lead(o.id)))
  {
    o :| o in draft.objects && o.companyGroupId == Some(g.id);
    assert o.developerId in DeveloperIds(draft.objects);
    LeadRestsOnGroup(o, draft.indexes, g.id);
    OwnerOfUnfinished(context, settings, oracle, draft, plan, run, o, Group(g.id));
  }

  lemma {:induction false} DeveloperStillRequired(context: CrmContext, settings: RegionSettings, oracle: Oracle,
      draft: Draft, plan: seq<PlannedOperation>, run: Run, d: ExtractedDeveloper) returns (o: ExtractedObject)
    requires Loaded(draft, context, settings, oracle, plan, run) && d.id in DeveloperIds(draft.objects)
    requires d.id in draft.indexes.developers && draft.indexes.developers[d.id] == d && NeedsCompany(d, draft.indexes)
    requires !Succeeded(run.results, Render(Requisite(d.id)))
    ensures o in draft.objects && o.developerId == d.id && !Succeeded(run.results, Render(Lead(o.id)))
  {
    o :| o in draft.objects && o.developerId == d.id;
    LeadRestsOnRequisite(o, draft.indexes, d);
    OwnerOfUnfinished(context, settings, oracle, draft, plan, run, o, Requisite(d.id));
  }

  lemma {:induction false} GroupPlannedAgain(extract: ExtractResult, context: CrmContext, settings: RegionSettings,
      oracle: Oracle, draft: Draft, plan: seq<PlannedOperation>, run: Run, next: Draft, g: ExtractedCompanyGroup)
    requires Selected(draft, extract) && Loaded(draft, context, settings, oracle, plan, run)
    requires SelectsAgain(next, draft, extract, run.results)
    ensures Planned(GroupItem(g), next) <==>
              Planned(GroupItem(g), draft) && !Succeeded(run.results, Render(Group(g.id)))
  {
    if g in draft.groups {
      assert g in extract.companyGroups;
      if Planned(GroupItem(g), draft) && !Succeeded(run.results, Render(Group(g.id))) {
        var o := GroupStillRequired(context, settings, oracle, draft, plan, run, g);
        assert o in next.objects;
      }
    }
  }

  lemma {:induction false} DeveloperPlannedAgain(extract: ExtractResult, context: CrmContext, settings: RegionSettings,
      oracle: Oracle, draft: Draft, plan: seq<PlannedOperation>, run: Run, next: Draft, d: ExtractedDeveloper)
    requires Selected(draft, extract) && Loaded(draft, context, settings, oracle, plan, run)
    requires SelectsAgain(next, draft, extract, run.results)
    ensures d in next.developers && NeedsCompany(d, next.indexes) <==>
              && d in draft.developers && NeedsCompany(d, draft.indexes)
              && !Succeeded(run.results, Render(Requisite(d.id)))
  {
    if d in draft.developers && NeedsCompany(d, draft.indexes) && !Succeeded(run.results, Render(Requisite(d.id))) {
      var o := DeveloperStillRequired(context, settings, oracle, draft, plan, run, d);
      assert o in next.objects;
    }
  }

  lemma {:induction false} PlannedAgain(extract: ExtractResult, context: CrmContext, settings: RegionSettings,
      oracle: Oracle, draft: Draft, plan: seq<PlannedOperation>, run: Run, next: Draft, item: PlanItem)
    requires Selected(draft, extract) && Loaded(draft, context, settings, oracle, plan, run)
    requires SelectsAgain(next, draft, extract, run.results)
    ensures Planned(item, next) <==> Planned(item, draft) && !Succeeded(run.results, Render(Witness(item)))
  {
    match item
    case GroupItem(g) => GroupPlannedAgain(extract, context, settings, oracle, draft, plan, run, next, g);
    case LeadItem(_) =>
    case _ => DeveloperPlannedAgain(extract, context, settings, oracle, draft, plan, run, next, item.developer);
  }

  /** The draft of a transformation and what completed of executing its plan. */
  lemma {:induction false} LoadedByPlan(extract: ExtractResult, context: CrmContext, settings: RegionSettings,
      oracle: Oracle)
    requires Transform(extract, context, settings).Ok?
    ensures var plan := Transform(extract, context, settings).value;
            Loaded(Prepare(extract, context, settings).value, context, settings, oracle, plan, Completed(oracle, plan))
  {
    var draft := Prepare(extract, context, settings).value;
    PreparedIsPlannable(extract, context, settings);
    PreparedSelects(extract, context, settings);
    DraftAscends(draft);
    OperationsUnique(Items(draft), draft.indexes, context, settings);
  }

  lemma {:induction false} SecondDraft(extract: ExtractResult, context: CrmContext, settings: RegionSettings,
      oracle: Oracle, results: Results)
    requires Transform(extract, context, settings).Ok?
    requires RunPlan(oracle, Transform(extract, context, settings).value).results == results
    ensures var draft := Prepare(extract, context, settings).value;
            var next := Prepare(extract, AfterLoad(context, extract, results), settings);
            && next.Ok? && SelectsAgain(next.value, draft, extract, results)
            && Items(next.value) == Unfinished(Items(draft), results)
  {
    var plan := Transform(extract, context, settings).value;
    var run, draft := Completed(oracle, plan), Prepare(extract, context, settings).value;
    LoadedByPlan(extract, context, settings, oracle);
    PreparedSelects(extract, context, settings);
    PreparedIndexAll(extract, context, settings);
    NextDraft(extract, context, settings, oracle, draft, plan, run);
    var next := Prepare(extract, AfterLoad(context, extract, results), settings).value;
    NextItems(extract, context, settings, oracle, draft, plan, run, next);
  }

  /**
   * Resuming after any load, also one that was aborted midway: the next transformation succeeds, and its plan
   * consists, in the same order, of exactly the operations the CRM does not show as done. Group and developer
   * operations are the very same operations. Leads are the ones that had not succeeded, as the compiler makes them
   * when it knows of their owners what the first run knew and what it recorded.
   */
  lemma {:induction false} ResumePlansExactlyTheRest(extract: ExtractResult, context: CrmContext,
      settings: RegionSettings, oracle: Oracle)
    requires Transform(extract, context, settings).Ok?
    ensures var plan := Transform(extract, context, settings).value;
            var results := RunPlan(oracle, plan).results;
            var second := Transform(extract, AfterLoad(context, extract, results), settings);
            var left := Unfinished(Items(Prepare(extract, context, settings).value), results);
            && second.Ok? && |second.value| == |left|
            && (forall i :: 0 <= i < |left| ==> second.value[i].id == Render(Key(left[i])))
            && (forall i :: 0 <= i < |left| && !left[i].LeadItem? ==> second.value[i] in plan)
            && (forall i :: 0 <= i < |left| && left[i].LeadItem? ==>
                  LeadWithOwners(second.value[i], left[i].object_, Prepare(extract, context, settings).value.indexes,
                                 context, settings, results))
  {
    var plan := Transform(extract, context, settings).value;
    var results := RunPlan(oracle, plan).results;
    var context' := AfterLoad(context, extract, results);
    var draft := Prepare(extract, context, settings).value;
    SecondDraft(extract, context, settings, oracle, results);
    PreparedIsPlannable(extract, context, settings);
    PreparedIsPlannable(extract, context', settings);
    var next := Prepare(extract, context', settings).value;
    SecondPlan(draft, next, context, context', settings, plan, results);
    LeadsFindOwners(extract, context, settings, oracle);
    SecondLeads(draft, next, context, context', settings, results);
  }

  /** The lead of the object, made with what the first run knew and what it recorded of the object's owners. */
  ghost predicate LeadWithOwners(op: PlannedOperation, o: ExtractedObject, indexes: Indexes, context: CrmContext,
      settings: RegionSettings, results: Results)
  {
    && o.developerId in indexes.developers
    && var d := indexes.developers[o.developerId];
    var known := WithOwners(indexes, o, d, results);
    ManagersKnown(settings, known) && op == LeadOperation(o, d, known, context, settings)
  }

  /** The next indexes lead every object of the first draft to the owners the first run knew or recorded. */
  ghost predicate OwnersFound(draft: Draft, next: Indexes, results: Results) {
    && next.developers == draft.indexes.developers && next.managers == draft.indexes.managers
    && forall o | o in draft.objects ::
         && o.developerId in draft.indexes.developers
         && var d := draft.indexes.developers[o.developerId];
         SameOwners(next, WithOwners(draft.indexes, o, d, results), o, d)
  }

  lemma {:induction false} DraftFindsOwners(extract: ExtractResult, context: CrmContext, settings: RegionSettings,
      oracle: Oracle, draft: Draft, plan: seq<PlannedOperation>, run: Run, next: Indexes)
    requires Selected(draft, extract) && Loaded(draft, context, settings, oracle, plan, run)
    requires IndexAll(extract, context) == Ok(draft.indexes)
    requires IndexAll(extract, AfterLoad(context, extract, run.results)) == Ok(next)
    requires Remembers(next, draft, extract, run.results)
    ensures OwnersFound(draft, next, run.results)
  {
    forall o | o in draft.objects
      ensures o.developerId in draft.indexes.developers
      ensures var d := draft.indexes.developers[o.developerId];
              SameOwners(next, WithOwners(draft.indexes, o, d, run.results), o, d)
    {
      assert o.developerId in DeveloperIds(draft.objects);
      NextOwners(extract, context, settings, oracle, draft, plan, run, next, o);
    }
  }

  lemma {:induction false} LeadsFindOwners(extract: ExtractResult, context: CrmContext, settings: RegionSettings,
      oracle: Oracle)
    requires Transform(extract, context, settings).Ok?
    ensures var results := RunPlan(oracle, Transform(extract, context, settings).value).results;
            var next := Prepare(extract, AfterLoad(context, extract, results), settings);
            next.Ok? && OwnersFound(Prepare(extract, context, settings).value, next.value.indexes, results)
  {
    var plan := Transform(extract, context, settings).value;
    var run, draft := Completed(oracle, plan), Prepare(extract, context, settings).value;
    var after := AfterLoad(context, extract, run.results);
    SecondDraft(extract, context, settings, oracle, run.results);
    LoadedByPlan(extract, context, settings, oracle);
    PreparedSelects(extract, context, settings);
    PreparedIndexAll(extract, context, settings);
    PreparedIndexAll(extract, after, settings);
    var next := Prepare(extract, after, settings).value;
    DraftFindsOwners(extract, context, settings, oracle, draft, plan, run, next.indexes);
  }

  lemma {:induction false} SecondLeads(draft: Draft, next: Draft, context: CrmContext, context': CrmContext,
      settings: RegionSettings, results: Results)
    requires ManagersKnown(settings, draft.indexes)
    requires ManagersKnown(settings, next.indexes) && AllPlannable(Items(next), next.indexes)
    requires context.structure == context'.structure && context.references == context'.references
    requires Items(next) == Unfinished(Items(draft), results) && OwnersFound(draft, next.indexes, results)
    ensures var second := Operations(Items(next), next.indexes, context', settings);
            forall i :: 0 <= i < |second| && Items(next)[i].LeadItem? ==>
              LeadWithOwners(second[i], Items(next)[i].object_, draft.indexes, context, settings, results)
  {
    var items := Items(next);
    UnfinishedMeaning(Items(draft), results);
    ItemsArePlanned(draft);
    forall i | 0 <= i < |items| && items[i].LeadItem?
      ensures LeadWithOwners(OperationOf(items[i], next.indexes, context', settings), items[i].object_, draft.indexes,
                             context, settings, results)
    {
      assert items[i] in Items(draft) && Planned(items[i], draft);
      LeadFromOwners(items[i].object_, draft, next.indexes, context, context', settings, results);
    }
  }

  lemma {:induction false} LeadFromOwners(o: ExtractedObject, draft: Draft, next: Indexes, context: CrmContext,
      context': CrmContext, settings: RegionSettings, results: Results)
    requires ManagersKnown(settings, draft.indexes) && ManagersKnown(settings, next) && o in draft.objects
    requires context.structure == context'.structure && context.references == context'.references
    requires OwnersFound(draft, next, results) && Plannable(LeadItem(o), next)
    ensures LeadWithOwners(OperationOf(LeadItem(o), next, context', settings), o, draft.indexes, context, settings,
                           results)
  {
    var d := draft.indexes.developers[o.developerId];
    SameLead(o, d, WithOwners(draft.indexes, o, d, results), next, context, context', settings);
  }

  /** The operation whose success records what the key identifies: an address counts as done with its requisite. */
  function ConfirmedBy(key: OperationKey): OperationKey {
    match key
    case Company(d) => Requisite(d)
    case ActualAddress(d) => Requisite(d)
    case LegalAddress(d) => Requisite(d)
    case _ => key
  }

  /** The ids of a sequence of operations that follow items. */
  lemma {:induction false} IdOfItem(items: seq<PlanItem>, ops: seq<PlannedOperation>, key: OperationKey)
    requires |ops| == |items| && forall i :: 0 <= i < |items| ==> ops[i].id == Render(Key(items[i]))
    ensures Render(key) in Ids(ops) <==> exists item :: item in items && Key(item) == key
  {
    if Render(key) in Ids(ops) {
      var i :| 0 <= i < |ops| && ops[i].id == Render(key);
      RenderInjective(Key(items[i]), key);
      assert items[i] in items;
    }
    if item :| item in items && Key(item) == key {
      var i :| 0 <= i < |items| && items[i] == item;
      assert ops[i].id == Render(key);
    }
  }

  lemma {:induction false} WitnessConfirms(item: PlanItem)
    ensures Witness(item) == ConfirmedBy(Key(item))
  {
  }

  lemma {:induction false} UnfinishedIds(items: seq<PlanItem>, plan: seq<PlannedOperation>,
      second: seq<PlannedOperation>, results: Results, key: OperationKey)
    requires |plan| == |items| && forall i :: 0 <= i < |items| ==> plan[i].id == Render(Key(items[i]))
    requires var left := Unfinished(items, results);
             |second| == |left| && forall i :: 0 <= i < |left| ==> second[i].id == Render(Key(left[i]))
    ensures Render(key) in Ids(second) <==> Render(key) in Ids(plan) && !Succeeded(results, Render(ConfirmedBy(key)))
  {
    var left := Unfinished(items, results);
    IdOfItem(items, plan, key);
    IdOfItem(left, second, key);
    UnfinishedMeaning(items, results);
    if item :| item in items && Key(item) == key {
      WitnessConfirms(item);
      assert item in left <==> !Succeeded(results, Render(ConfirmedBy(key)));
    }
    forall item | item in left && Key(item) == key
      ensures !Succeeded(results, Render(ConfirmedBy(key)))
    {
      WitnessConfirms(item);
    }
  }

  /**
   * The same in terms of ids: an operation is planned again exactly if it was planned and what records it did
   * not succeed. So an address that failed after its requisite succeeded is never tried again.
   */
  lemma {:induction false} PlannedAgainUnlessRecorded(extract: ExtractResult, context: CrmContext,
      settings: RegionSettings, oracle: Oracle, key: OperationKey)
    requires Transform(extract, context, settings).Ok?
    ensures var plan := Transform(extract, context, settings).value;
            var results := RunPlan(oracle, plan).results;
            var second := Transform(extract, AfterLoad(context, extract, results), settings);
            && second.Ok?
            && (Render(key) in Ids(second.value) <==>
                  Render(key) in Ids(plan) && !Succeeded(results, Render(ConfirmedBy(key))))
  {
    var plan := Transform(extract, context, settings).value;
    var results := RunPlan(oracle, plan).results;
    var items := Items(Prepare(extract, context, settings).value);
    ResumePlansExactlyTheRest(extract, context, settings, oracle);
    var second := Transform(extract, AfterLoad(context, extract, results), settings).value;
    assert |plan| == |items| && forall i :: 0 <= i < |items| ==> plan[i].id == Render(Key(items[i])) by {
      PreparedIsPlannable(extract, context, settings);
    }
    UnfinishedIds(items, plan, second, results, key);
  }

  /** What succeeded was planned, and counts as done unless it is a company without its requisite. */
  lemma {:induction false} SucceededIsRecorded(draft: Draft, context: CrmContext, settings: RegionSettings,
      oracle: Oracle, plan: seq<PlannedOperation>, run: Run, key: OperationKey)
    requires Loaded(draft, context, settings, oracle, plan, run) && Succeeded(run.results, Render(key))
    ensures Render(key) in Ids(plan)
    ensures Succeeded(run.results, Render(ConfirmedBy(key))) <==>
              !(key.Company? && !Succeeded(run.results, Render(Requisite(key.developer))))
  {
    var item := SucceededWasPlanned(draft, context, settings, oracle, plan, run, key);
    var i := PositionOf(draft, item);
    assert plan[i].id == Render(key);
    if key.ActualAddress? || key.LegalAddress? {
      assert BindingKeys(item, draft.indexes) == [Requisite(key.developer)];
      SuccessNeedsReferences(draft, context, settings, oracle, plan, run, item, Requisite(key.developer));
    }
  }

  /**
   * What one load created the next one creates again if and only if it is a company whose requisite did not succeed:
   * then the CRM does not show the company as that of its INN.
   */
  lemma {:induction false} OnlyCompaniesAreCreatedTwice(extract: ExtractResult, context: CrmContext,
      settings: RegionSettings, oracle: Oracle, key: OperationKey)
    requires Transform(extract, context, settings).Ok?
    requires Succeeded(RunPlan(oracle, Transform(extract, context, settings).value).results, Render(key))
    ensures var results := RunPlan(oracle, Transform(extract, context, settings).value).results;
            var second := Transform(extract, AfterLoad(context, extract, results), settings);
            && second.Ok?
            && (Render(key) in Ids(second.value) <==>
                  key.Company? && !Succeeded(results, Render(Requisite(key.developer))))
  {
    var plan := Transform(extract, context, settings).value;
    LoadedByPlan(extract, context, settings, oracle);
    SucceededIsRecorded(Prepare(extract, context, settings).value, context, settings, oracle, plan,
                        Completed(oracle, plan), key);
    PlannedAgainUnlessRecorded(extract, context, settings, oracle, key);
  }

  /** If every operation of the first run succeeded, the next plan is empty. */
  lemma {:induction false} FullSuccessLeavesNothing(extract: ExtractResult, context: CrmContext,
      settings: RegionSettings, oracle: Oracle)
    requires Transform(extract, context, settings).Ok?
    requires var run := RunPlan(oracle, Transform(extract, context, settings).value);
             forall op :: op in Transform(extract, context, settings).value ==> Succeeded(run.results, op.id)
    ensures var results := RunPlan(oracle, Transform(extract, context, settings).value).results;
            Transform(extract, AfterLoad(context, extract, results), settings) == Ok([])
  {
    var plan := Transform(extract, context, settings).value;
    var results := RunPlan(oracle, plan).results;
    SecondDraft(extract, context, settings, oracle, results);
    PreparedIsPlannable(extract, context, settings);
    forall i | 0 <= i < |plan|
      ensures Succeeded(results, plan[i].id)
    {
      assert plan[i] in plan;
    }
    NothingLeft(Prepare(extract, context, settings).value, plan, results);
    PreparedIsPlannable(extract, AfterLoad(context, extract, results), settings);
  }

  lemma {:induction false} NextItems(extract: ExtractResult, context: CrmContext, settings: RegionSettings,
      oracle: Oracle, draft: Draft, plan: seq<PlannedOperation>, run: Run, next: Draft)
    requires Selected(draft, extract) && Loaded(draft, context, settings, oracle, plan, run)
    requires SelectsAgain(next, draft, extract, run.results)
    ensures Items(next) == Unfinished(Items(draft), run.results)
  {
    DraftAscends(draft);
    DraftAscends(next);
    ItemsArePlanned(draft);
    ItemsArePlanned(next);
    UnfinishedMeaning(Items(draft), run.results);
    forall item
      ensures item in Items(next) <==> item in Unfinished(Items(draft), run.results)
    {
      PlannedAgain(extract, context, settings, oracle, draft, plan, run, next, item);
    }
    AscendingItemsUnique(Items(next), Unfinished(Items(draft), run.results));
  }

  lemma {:induction false} WitnessPosition(draft: Draft, item: PlanItem) returns (k: nat)
    requires item in Items(draft)
    ensures k < |Items(draft)| && Key(Items(draft)[k]) == Witness(item)
  {
    ItemsArePlanned(draft);
    k := PositionOf(draft, if OfDeveloper(item) then RequisiteItem(item.developer) else item);
  }

  lemma {:induction false} SameCommand(item: PlanItem, a: Indexes, b: Indexes, context: CrmContext,
      context': CrmContext, settings: RegionSettings)
    requires ManagersKnown(settings, a) && ManagersKnown(settings, b) && a.managers == b.managers
    requires context.structure == context'.structure && context.references == context'.references
    requires !item.LeadItem?
    ensures OperationOf(item, a, context, settings) == OperationOf(item, b, context', settings)
  {
    match item
    case GroupItem(_) =>
    case CompanyItem(d) => assert Multifields(d, context) == Multifields(d, context');
    case RequisiteItem(_) =>
    case ActualAddressItem(_) =>
    case LegalAddressItem(_) =>
  }

  lemma {:induction false} SecondPlan(draft: Draft, next: Draft, context: CrmContext, context': CrmContext,
      settings: RegionSettings, plan: seq<PlannedOperation>, results: Results)
    requires ManagersKnown(settings, draft.indexes) && AllPlannable(Items(draft), draft.indexes)
    requires ManagersKnown(settings, next.indexes) && AllPlannable(Items(next), next.indexes)
    requires draft.indexes.managers == next.indexes.managers
    requires context.structure == context'.structure && context.references == context'.references
    requires plan == Operations(Items(draft), draft.indexes, context, settings)
    requires Items(next) == Unfinished(Items(draft), results)
    ensures var second := Operations(Items(next), next.indexes, context', settings);
            var left := Unfinished(Items(draft), results);
            && |second| == |left|
            && (forall i :: 0 <= i < |left| ==> second[i].id == Render(Key(left[i])))
            && (forall i :: 0 <= i < |left| && !left[i].LeadItem? ==> second[i] in plan)
  {
    var second, left := Operations(Items(next), next.indexes, context', settings), Unfinished(Items(draft), results);
    UnfinishedMeaning(Items(draft), results);
    forall i | 0 <= i < |left| && !left[i].LeadItem?
      ensures second[i] in plan
    {
      assert left[i] in Items(draft);
      var k :| 0 <= k < |Items(draft)| && Items(draft)[k] == left[i];
      SameCommand(left[i], draft.indexes, next.indexes, context, context', settings);
      assert plan[k] == second[i];
    }
  }

  lemma {:induction false} NothingLeft(draft: Draft, plan: seq<PlannedOperation>, results: Results)
    requires |plan| == |Items(draft)| && forall i :: 0 <= i < |plan| ==> plan[i].id == Render(Key(Items(draft)[i]))
    requires forall i :: 0 <= i < |plan| ==> Succeeded(results, plan[i].id)
    ensures Unfinished(Items(draft), results) == []
  {
    var left := Unfinished(Items(draft), results);
    UnfinishedMeaning(Items(draft), results);
    assert left == [] || left[0] in left;
    if left != [] {
      var k := WitnessPosition(draft, left[0]);
    }
  }
}
