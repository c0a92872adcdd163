/**
 * Validated extract data and a context built by the loaders for the same settings make every transformer
 * check pass, except possibly the one on duplicate INNs.
 */
module Totality {
  import opened Wrappers
  import opened Json
  import opened Contracts
  import opened Sorting
  import opened Unique
  import opened Transformer
  import opened Indexing
  import opened Selection
  import opened SourceValidator
  import opened CrmLoaders

  // ----- what the extract service validates -----

  function DeveloperIdList(developers: seq<ExtractedDeveloper>): seq<int> {
    seq(|developers|, i requires 0 <= i < |developers| => developers[i].id)
  }

  function GroupIdList(groups: seq<ExtractedCompanyGroup>): seq<int> {
    seq(|groups|, i requires 0 <= i < |groups| => groups[i].id)
  }

  /** The groups the extract service asks for: those of the objects and those of the developers. */
  function RequestedGroupIds(extract: ExtractResult): set<int> {
    (set o | o in extract.objects && o.companyGroupId.Some? :: o.companyGroupId.value)
    + (set d | d in extract.developers && d.companyGroupId.Some? :: d.companyGroupId.value)
  }

  /** The extract passed all four checks with the id sets the extract service requests. */
  ghost predicate Validated(extract: ExtractResult, regions: set<int>) {
    && ObjectsAccepted(extract.objects, regions)
    && ExactlyIds(DeveloperIdList(extract.developers), DeveloperIds(extract.objects))
    && GroupsAgree(extract.objects, extract.developers)
    && ExactlyIds(GroupIdList(extract.companyGroups), RequestedGroupIds(extract))
  }

  // ----- what the CRM provider loads -----

  /** The CRM answers the provider turned into a context. */
  datatype CrmAnswers = CrmAnswers(
    leadRecords: seq<Fields>, leadField: string, groupRecords: seq<Fields>, groupField: string,
    companyRecords: seq<Fields>, requisiteRecords: seq<Fields>, assignedNames: seq<string>, directory: ManagerDirectory)

  ghost predicate LoadedFrom(context: CrmContext, settings: RegionSettings, answers: CrmAnswers) {
    && PairsLoaded(LeadEntries(context.existing.leads), answers.leadRecords, answers.leadField)
    && PairsLoaded(ExistingGroupEntries(context.existing.companyGroups), answers.groupRecords, answers.groupField)
    && DevelopersLoaded(context.existing.developers, answers.companyRecords, answers.requisiteRecords,
                        context.structure.entityTypes.company)
    && ManagersIndexed(context.managers, [settings.defaultAssignedByName] + answers.assignedNames, answers.directory)
    && (forall region :: region in settings.assignment ==> settings.assignment[region] in answers.assignedNames)
  }

  // ----- the checks, one by one -----

  lemma {:induction false} ExtractIndexes(extract: ExtractResult, regions: set<int>)
    requires Validated(extract, regions)
    ensures DistinctObjectIds(extract.objects)
    ensures IndexOf(DeveloperEntries(extract.developers)).Ok? && IndexOf(GroupEntries(extract.companyGroups)).Ok?
  {
    assert forall i :: 0 <= i < |extract.objects| ==> ObjectIds(extract.objects)[i] == extract.objects[i].id;
    var developers, groups := DeveloperEntries(extract.developers), GroupEntries(extract.companyGroups);
    assert forall i :: 0 <= i < |developers| ==> developers[i].0 == DeveloperIdList(extract.developers)[i];
    assert forall i :: 0 <= i < |groups| ==> groups[i].0 == GroupIdList(extract.companyGroups)[i];
    IndexMeaning(developers);
    IndexMeaning(groups);
  }

  lemma {:induction false} ContextIndexes(context: CrmContext, settings: RegionSettings, answers: CrmAnswers)
    requires LoadedFrom(context, settings, answers)
    ensures IndexOf(LeadEntries(context.existing.leads)).Ok?
    ensures IndexOf(ExistingDeveloperEntries(context.existing.developers)).Ok?
    ensures IndexOf(ExistingGroupEntries(context.existing.companyGroups)).Ok?
    ensures IndexOf(ManagerEntries(context.managers)).Ok?
  {
    IndexMeaning(LeadEntries(context.existing.leads));
    IndexMeaning(ExistingDeveloperEntries(context.existing.developers));
    IndexMeaning(ExistingGroupEntries(context.existing.companyGroups));
    IndexMeaning(ManagerEntries(context.managers));
  }

  lemma {:induction false} AllManagersKnown(context: CrmContext, settings: RegionSettings, answers: CrmAnswers,
      indexes: Indexes)
    requires LoadedFrom(context, settings, answers) && IndexOf(ManagerEntries(context.managers)) == Ok(indexes.managers)
    ensures ManagersKnown(settings, indexes)
  {
    var entries, names := ManagerEntries(context.managers), [settings.defaultAssignedByName] + answers.assignedNames;
    IndexMeaning(entries);
    forall name | name in names
      ensures name in indexes.managers
    {
      var i :| 0 <= i < |context.managers| && context.managers[i].configuredName == name;
      assert entries[i].0 == name;
    }
    assert names[0] == settings.defaultAssignedByName;
    forall region | region in settings.assignment
      ensures ResolveRegionManager(region, settings, indexes).Ok?
    {
      assert settings.assignment[region] in names;
    }
  }

  lemma {:induction false} DevelopersPresent(extract: ExtractResult, regions: set<int>, indexes: Indexes,
      objects: seq<ExtractedObject>)
    requires Validated(extract, regions) && IndexesExtract(indexes, extract)
    requires forall o :: o in objects ==> o in extract.objects
    ensures DeveloperIds(objects) <= indexes.developers.Keys
  {
    forall id | id in DeveloperIds(objects)
      ensures id in indexes.developers
    {
      assert id in DeveloperIds(extract.objects);
      assert id in SetOf(DeveloperIdList(extract.developers));
      var i :| 0 <= i < |extract.developers| && DeveloperIdList(extract.developers)[i] == id;
      assert extract.developers[i] in extract.developers;
    }
  }

  lemma {:induction false} GroupsPresent(extract: ExtractResult, regions: set<int>, indexes: Indexes,
      objects: seq<ExtractedObject>)
    requires Validated(extract, regions) && IndexesExtract(indexes, extract)
    requires forall o :: o in objects ==> o in extract.objects
    ensures GroupIds(objects) <= indexes.groups.Keys
  {
    forall id | id in GroupIds(objects)
      ensures id in indexes.groups
    {
      assert id in RequestedGroupIds(extract);
      assert id in SetOf(GroupIdList(extract.companyGroups));
      var i :| 0 <= i < |extract.companyGroups| && GroupIdList(extract.companyGroups)[i] == id;
      assert extract.companyGroups[i] in extract.companyGroups;
    }
  }

  lemma {:induction false} DeveloperStandsOnce(developers: seq<ExtractedDeveloper>, d: ExtractedDeveloper)
    returns (k: nat)
    requires NoRepeats(DeveloperIdList(developers)) && d in developers
    ensures LastOf(developers, k, d.id) && developers[k] == d
  {
    k :| 0 <= k < |developers| && developers[k] == d;
    var ids := DeveloperIdList(developers);
    assert forall m :: k < m < |developers| ==> ids[m] == developers[m].id && ids[k] != ids[m];
  }

  /** The group an object names is that of its developer, if the developer has one. */
  lemma {:induction false} OwnGroupAgrees(extract: ExtractResult, regions: set<int>, o: ExtractedObject,
      d: ExtractedDeveloper)
    requires Validated(extract, regions) && o in extract.objects && o.companyGroupId.Some?
    requires d in extract.developers && d.id == o.developerId
    ensures d.companyGroupId.Some? ==> d.companyGroupId == o.companyGroupId
  {
    var k := DeveloperStandsOnce(extract.developers, d);
    ObjectNamesGroup(extract.objects, o);
    assert !DeveloperConflicts(extract.objects, extract.developers, d.id);
  }

  lemma {:induction false} ObjectsConsistent(extract: ExtractResult, regions: set<int>, indexes: Indexes,
      objects: seq<ExtractedObject>)
    requires Validated(extract, regions) && IndexesExtract(indexes, extract)
    requires forall o :: o in objects ==> o in extract.objects
    ensures GroupsConsistent(objects, indexes)
  {
    DevelopersPresent(extract, regions, indexes, objects);
    forall i | 0 <= i < |objects| && objects[i].companyGroupId.Some?
      ensures objects[i].developerId in indexes.developers
      ensures var known := indexes.developers[objects[i].developerId].companyGroupId;
              known.Some? ==> known == objects[i].companyGroupId
    {
      var o := objects[i];
      assert o in objects && o.developerId in DeveloperIds(objects);
      var d := indexes.developers[o.developerId];
      OwnGroupAgrees(extract, regions, o, d);
    }
    forall i, j | && 0 <= i < j < |objects| && objects[i].companyGroupId.Some? && objects[j].companyGroupId.Some?
                  && objects[i].developerId == objects[j].developerId
      ensures objects[i].companyGroupId == objects[j].companyGroupId
    {
      assert objects[i] in objects && objects[j] in objects;
      ObjectNamesGroup(extract.objects, objects[i]);
      ObjectNamesGroup(extract.objects, objects[j]);
      assert !ObjectGroupsConflict(extract.objects, objects[i].developerId);
    }
  }

  lemma {:induction false} ObjectNamesGroup(objects: seq<ExtractedObject>, o: ExtractedObject)
    requires o in objects && o.companyGroupId.Some?
    ensures NamesGroup(objects, o.developerId, o.companyGroupId.value)
  {
    var i :| 0 <= i < |objects| && objects[i] == o;
    assert objects[i].companyGroupId == Some(o.companyGroupId.value);
  }

  // ----- the theorem -----

  ghost predicate HasLead(context: CrmContext, sourceId: int) {
    exists i :: 0 <= i < |context.existing.leads| && context.existing.leads[i].sourceId == sourceId
  }

  /** A developer some object without a lead belongs to. */
  ghost predicate Required(extract: ExtractResult, context: CrmContext, d: ExtractedDeveloper) {
    exists o :: o in extract.objects && o.developerId == d.id && !HasLead(context, o.id)
  }

  ghost predicate RequiredInnsDistinct(extract: ExtractResult, context: CrmContext) {
    forall d, e | && d in extract.developers && e in extract.developers && d.inn == e.inn
                  && Required(extract, context, d) && Required(extract, context, e)
      :: d == e
  }

  lemma {:induction false} LeadIndexMeaning(context: CrmContext, leads: map<int, int>)
    requires IndexOf(LeadEntries(context.existing.leads)) == Ok(leads)
    ensures forall id :: id in leads <==> HasLead(context, id)
  {
    var entries := LeadEntries(context.existing.leads);
    IndexMeaning(entries);
    forall id
      ensures id in leads <==> HasLead(context, id)
    {
      if id in leads {
        var i :| 0 <= i < |entries| && entries[i].0 == id;
        assert context.existing.leads[i].sourceId == id;
      }
      if HasLead(context, id) {
        var i :| 0 <= i < |context.existing.leads| && context.existing.leads[i].sourceId == id;
        assert entries[i].0 == id;
      }
    }
  }

  lemma {:induction false} SelectedInns(extract: ExtractResult, context: CrmContext, indexes: Indexes,
      objects: seq<ExtractedObject>)
    requires IndexesExtract(indexes, extract) && DeveloperIds(objects) <= indexes.developers.Keys
    requires forall o :: o in objects <==> o in extract.objects && !HasLead(context, o.id)
    ensures DistinctInns(Lookup(indexes.developers, Sorted(DeveloperIds(objects)))) <==>
              RequiredInnsDistinct(extract, context)
  {
    var ids := DeveloperIds(objects);
    var developers := Lookup(indexes.developers, Sorted(ids));
    LookupMeaning(indexes.developers, ids);
    forall d: ExtractedDeveloper
      ensures d in developers <==> d in extract.developers && Required(extract, context, d)
    {
      if d in extract.developers && Required(extract, context, d) {
        var o :| o in extract.objects && o.developerId == d.id && !HasLead(context, o.id);
        assert o in objects && d.id in ids;
      }
      if d in developers {
        var o :| o in objects && o.developerId == d.id;
      }
    }
    if DistinctInns(developers) {
      forall d, e | && d in extract.developers && e in extract.developers && d.inn == e.inn
                    && Required(extract, context, d) && Required(extract, context, e)
        ensures d == e
      {
        assert d in developers && e in developers;
        var i :| 0 <= i < |developers| && developers[i] == d;
        var j :| 0 <= j < |developers| && developers[j] == e;
        assert i == j || i < j || j < i;
      }
    }
    if RequiredInnsDistinct(extract, context) {
      forall i, j | 0 <= i < j < |developers|
        ensures developers[i].inn != developers[j].inn
      {
        assert developers[i].id == Sorted(ids)[i] < Sorted(ids)[j] == developers[j].id;
        assert developers[i] in developers && developers[j] in developers;
      }
    }
  }

  /**
   * On validated extract data and a context loaded for the same settings, the transformer succeeds exactly
   * when no two developers of new objects share an INN; otherwise it reports the duplicate key.
   */
  lemma {:induction false} TransformTotalOnValidatedInput(extract: ExtractResult, regions: set<int>,
      context: CrmContext, settings: RegionSettings, answers: CrmAnswers)
    requires Validated(extract, regions) && LoadedFrom(context, settings, answers)
    ensures Transform(extract, context, settings).Ok? <==> RequiredInnsDistinct(extract, context)
    ensures Transform(extract, context, settings).Err? ==> Transform(extract, context, settings) == Err(DuplicateKey)
  {
    ExtractIndexes(extract, regions);
    ContextIndexes(context, settings, answers);
    var indexes := IndexAll(extract, context).value;
    DeveloperIndexMeaning(extract.developers, indexes.developers);
    GroupIndexMeaning(extract.companyGroups, indexes.groups);
    AllManagersKnown(context, settings, answers, indexes);
    NewObjectsMeaning(extract.objects, indexes);
    var objects := SelectNewObjects(extract.objects, indexes).value;
    LeadIndexMeaning(context, indexes.leads);
    SelectionTotal(extract, regions, context, indexes, objects);
  }

  lemma {:induction false} SelectionTotal(extract: ExtractResult, regions: set<int>, context: CrmContext,
      indexes: Indexes, objects: seq<ExtractedObject>)
    requires Validated(extract, regions) && IndexesExtract(indexes, extract)
    requires forall o :: o in objects <==> o in extract.objects && !HasLead(context, o.id)
    ensures CollectRequiredDevelopers(objects, indexes).Ok? <==> RequiredInnsDistinct(extract, context)
    ensures CollectRequiredDevelopers(objects, indexes).Err? ==>
              CollectRequiredDevelopers(objects, indexes) == Err(DuplicateKey)
    ensures CollectRequiredGroups(objects, indexes).Ok?
  {
    DevelopersPresent(extract, regions, indexes, objects);
    GroupsPresent(extract, regions, indexes, objects);
    ObjectsConsistent(extract, regions, indexes, objects);
    SelectedInns(extract, context, indexes, objects);
    RequiredDevelopersMeaning(objects, indexes);
    RequiredGroupsMeaning(objects, indexes);
    IndexMeaning(InnEntries(Lookup(indexes.developers, Sorted(DeveloperIds(objects)))));
  }
}
