/** When the transformer's checks pass, and exactly which entities they then select. */
module Selection {
  import opened Wrappers
  import opened Contracts
  import opened Sorting
  import opened Transformer
  import opened Indexing

  ghost function GroupIds(objects: seq<ExtractedObject>): set<int> {
    set o | o in objects && o.companyGroupId.Some? :: o.companyGroupId.value
  }

  /** No object's group contradicts its developer's, and a developer's objects agree on theirs. */
  ghost predicate GroupsConsistent(objects: seq<ExtractedObject>, indexes: Indexes) {
    && (forall i :: 0 <= i < |objects| && objects[i].companyGroupId.Some? ==>
          && objects[i].developerId in indexes.developers
          && (var known := indexes.developers[objects[i].developerId].companyGroupId;
              known.Some? ==> known == objects[i].companyGroupId))
    && (forall i, j |
          && 0 <= i < j < |objects| && objects[i].companyGroupId.Some? && objects[j].companyGroupId.Some?
          && objects[i].developerId == objects[j].developerId
          :: objects[i].companyGroupId == objects[j].companyGroupId)
  }

  ghost predicate ScanSummarises(scan: GroupScan, objects: seq<ExtractedObject>) {
    && scan.required == GroupIds(objects)
    && (forall i :: 0 <= i < |objects| && objects[i].companyGroupId.Some? ==>
          objects[i].developerId in scan.developerGroups
          && Some(scan.developerGroups[objects[i].developerId]) == objects[i].companyGroupId)
    && (forall d :: d in scan.developerGroups ==>
          exists i :: 0 <= i < |objects| && objects[i].developerId == d && objects[i].companyGroupId.Some?)
  }

  /** The single scan succeeds exactly when all pairs of objects are consistent. */
  lemma {:induction false} ScanMeaning(objects: seq<ExtractedObject>, indexes: Indexes)
    ensures ScanGroups(objects, indexes).Ok? <==> GroupsConsistent(objects, indexes)
    ensures ScanGroups(objects, indexes).Ok? ==> ScanSummarises(ScanGroups(objects, indexes).value, objects)
  {
    if objects == [] {
      assert GroupIds(objects) == {};
    } else {
      var n := |objects| - 1;
      var head, last := objects[..n], objects[n];
      ScanMeaning(head, indexes);
      if GroupsConsistent(objects, indexes) {
        PrefixConsistent(objects, n, indexes);
      }
      if ScanGroups(head, indexes).Ok? {
        ScanStepMeaning(ScanGroups(head, indexes).value, head, last, indexes);
        assert objects == head + [last];
      }
    }
  }

  lemma {:induction false} PrefixConsistent(objects: seq<ExtractedObject>, n: nat, indexes: Indexes)
    requires n <= |objects| && GroupsConsistent(objects, indexes)
    ensures GroupsConsistent(objects[..n], indexes)
  {
    assert forall i :: 0 <= i < n ==> objects[..n][i] == objects[i];
  }

  lemma {:induction false} ScanStepMeaning(scan: GroupScan, head: seq<ExtractedObject>, last: ExtractedObject,
      indexes: Indexes)
    requires GroupsConsistent(head, indexes) && ScanSummarises(scan, head)
    ensures ScanObject(scan, last, indexes).Ok? <==> GroupsConsistent(head + [last], indexes)
    ensures ScanObject(scan, last, indexes).Ok? ==> ScanSummarises(ScanObject(scan, last, indexes).value, head + [last])
  {
    ScanStepConsistent(scan, head, last, indexes);
    if ScanObject(scan, last, indexes).Ok? {
      SummaryGrows(scan, ScanObject(scan, last, indexes).value, head, last);
    }
  }

  lemma {:induction false} ScanStepConsistent(scan: GroupScan, head: seq<ExtractedObject>, last: ExtractedObject,
      indexes: Indexes)
    requires GroupsConsistent(head, indexes) && ScanSummarises(scan, head)
    ensures ScanObject(scan, last, indexes).Ok? <==> GroupsConsistent(head + [last], indexes)
  {
    var objects := head + [last];
    assert forall i :: 0 <= i < |head| ==> objects[i] == head[i];
    assert objects[|head|] == last;
  }

  lemma {:induction false} SummaryGrows(scan: GroupScan, next: GroupScan, head: seq<ExtractedObject>,
      last: ExtractedObject)
    requires ScanSummarises(scan, head)
    requires last.companyGroupId.Some? && last.developerId in scan.developerGroups ==>
               Some(scan.developerGroups[last.developerId]) == last.companyGroupId
    requires next == match last.companyGroupId
                     case None => scan
                     case Some(group) =>
                       GroupScan(scan.developerGroups[last.developerId := group], scan.required + {group})
    ensures ScanSummarises(next, head + [last])
  {
    var objects := head + [last];
    assert forall i :: 0 <= i < |head| ==> objects[i] == head[i];
    assert GroupIds(objects) == GroupIds(head) + GroupIds([last]);
    assert GroupIds([last]) == if last.companyGroupId.Some? then {last.companyGroupId.value} else {};
    forall d | d in next.developerGroups
      ensures exists i :: 0 <= i < |objects| && objects[i].developerId == d && objects[i].companyGroupId.Some?
    {
      if d in scan.developerGroups {
        var i :| 0 <= i < |head| && head[i].developerId == d && head[i].companyGroupId.Some?;
        assert objects[i].developerId == d;
      } else {
        assert objects[|head|].developerId == d;
      }
    }
  }

  // ----- selected entities -----

  ghost predicate AscendingObjects(objects: seq<ExtractedObject>) {
    forall i, j :: 0 <= i < j < |objects| ==> objects[i].id < objects[j].id
  }

  ghost predicate AscendingDevelopers(developers: seq<ExtractedDeveloper>) {
    forall i, j :: 0 <= i < j < |developers| ==> developers[i].id < developers[j].id
  }

  ghost predicate AscendingGroups(groups: seq<ExtractedCompanyGroup>) {
    forall i, j :: 0 <= i < j < |groups| ==> groups[i].id < groups[j].id
  }

  ghost predicate DistinctObjectIds(objects: seq<ExtractedObject>) {
    forall i, j :: 0 <= i < j < |objects| ==> objects[i].id != objects[j].id
  }

  ghost predicate DistinctInns(developers: seq<ExtractedDeveloper>) {
    forall i, j :: 0 <= i < j < |developers| ==> developers[i].inn != developers[j].inn
  }

  ghost predicate IndexesExtract(indexes: Indexes, extract: ExtractResult) {
    && (forall d :: d in extract.developers ==> d.id in indexes.developers && indexes.developers[d.id] == d)
    && (forall k :: k in indexes.developers ==>
          indexes.developers[k].id == k && indexes.developers[k] in extract.developers)
    && (forall g :: g in extract.companyGroups ==> g.id in indexes.groups && indexes.groups[g.id] == g)
    && (forall k :: k in indexes.groups ==> indexes.groups[k].id == k && indexes.groups[k] in extract.companyGroups)
  }

  lemma {:induction false} DeveloperIndexMeaning(developers: seq<ExtractedDeveloper>, m: map<int, ExtractedDeveloper>)
    requires IndexOf(DeveloperEntries(developers)) == Ok(m)
    ensures forall d :: d in developers ==> d.id in m && m[d.id] == d
    ensures forall k :: k in m ==> m[k].id == k && m[k] in developers
  {
    var entries := DeveloperEntries(developers);
    IndexMeaning(entries);
    forall d | d in developers
      ensures d.id in m && m[d.id] == d
    {
      var i :| 0 <= i < |developers| && developers[i] == d;
      assert entries[i].0 == d.id;
    }
    forall k | k in m
      ensures m[k].id == k && m[k] in developers
    {
      var i :| 0 <= i < |entries| && entries[i].0 == k;
      assert m[entries[i].0] == entries[i].1 == developers[i];
    }
  }

  lemma {:induction false} GroupIndexMeaning(groups: seq<ExtractedCompanyGroup>, m: map<int, ExtractedCompanyGroup>)
    requires IndexOf(GroupEntries(groups)) == Ok(m)
    ensures forall g :: g in groups ==> g.id in m && m[g.id] == g
    ensures forall k :: k in m ==> m[k].id == k && m[k] in groups
  {
    var entries := GroupEntries(groups);
    IndexMeaning(entries);
    forall g | g in groups
      ensures g.id in m && m[g.id] == g
    {
      var i :| 0 <= i < |groups| && groups[i] == g;
      assert entries[i].0 == g.id;
    }
    forall k | k in m
      ensures m[k].id == k && m[k] in groups
    {
      var i :| 0 <= i < |entries| && entries[i].0 == k;
      assert m[entries[i].0] == entries[i].1 == groups[i];
    }
  }

  lemma {:induction false} ObjectIndexMeaning(objects: seq<ExtractedObject>)
    ensures IndexOf(ObjectEntries(objects)).Ok? <==> DistinctObjectIds(objects)
    ensures IndexOf(ObjectEntries(objects)).Ok? ==>
              var m := IndexOf(ObjectEntries(objects)).value;
              && (forall o :: o in objects ==> o.id in m && m[o.id] == o)
              && (forall k :: k in m ==> m[k].id == k && m[k] in objects)
  {
    var entries := ObjectEntries(objects);
    IndexMeaning(entries);
    assert forall i :: 0 <= i < |objects| ==> entries[i].0 == objects[i].id;
    if IndexOf(entries).Ok? {
      var m := IndexOf(entries).value;
      forall o | o in objects
        ensures o.id in m && m[o.id] == o
      {
        var i :| 0 <= i < |objects| && objects[i] == o;
        assert entries[i].0 == o.id;
      }
      forall k | k in m
        ensures m[k].id == k && m[k] in objects
      {
        var i :| 0 <= i < |entries| && entries[i].0 == k;
        assert m[entries[i].0] == entries[i].1 == objects[i];
      }
    }
  }

  /** New objects: exactly those without a lead, once each, ascending. */
  lemma {:induction false} NewObjectsMeaning(objects: seq<ExtractedObject>, indexes: Indexes)
    ensures SelectNewObjects(objects, indexes).Ok? <==> DistinctObjectIds(objects)
    ensures SelectNewObjects(objects, indexes).Ok? ==>
              var new_ := SelectNewObjects(objects, indexes).value;
              && AscendingObjects(new_)
              && (forall o :: o in new_ <==> o in objects && o.id !in indexes.leads)
  {
    ObjectIndexMeaning(objects);
    if SelectNewObjects(objects, indexes).Ok? {
      var unique := IndexOf(ObjectEntries(objects)).value;
      var keys := Sorted(unique.Keys - indexes.leads.Keys);
      var new_ := SelectNewObjects(objects, indexes).value;
      assert forall i :: 0 <= i < |keys| ==> new_[i].id == keys[i];
      forall o | o in objects && o.id !in indexes.leads
        ensures o in new_
      {
        assert o.id in keys;
        var i :| 0 <= i < |keys| && keys[i] == o.id;
        assert new_[i] == o;
      }
    }
  }

  /** Looking up a set of keys in order gives exactly the indexed entities, ascending. */
  lemma {:induction false} LookupMeaning<V>(index: map<int, V>, ids: set<int>)
    requires ids <= index.Keys
    ensures var found := Lookup(index, Sorted(ids));
            && |found| == |Sorted(ids)|
            && (forall v :: v in found <==> exists k :: k in ids && index[k] == v)
  {
    var keys := Sorted(ids);
    var found := Lookup(index, keys);
    forall v | exists k :: k in ids && index[k] == v
      ensures v in found
    {
      var k :| k in ids && index[k] == v;
      assert k in keys;
      var i :| 0 <= i < |keys| && keys[i] == k;
      assert found[i] == v;
    }
  }

  lemma {:induction false} InnIndexMeaning(developers: seq<ExtractedDeveloper>)
    ensures IndexOf(InnEntries(developers)).Ok? <==> DistinctInns(developers)
  {
    IndexMeaning(InnEntries(developers));
    assert forall i :: 0 <= i < |developers| ==> InnEntries(developers)[i].0 == developers[i].inn;
  }

  lemma {:induction false} RequiredDevelopersMeaning(objects: seq<ExtractedObject>, indexes: Indexes)
    requires forall k :: k in indexes.developers ==> indexes.developers[k].id == k
    ensures CollectRequiredDevelopers(objects, indexes).Ok? <==>
              && DeveloperIds(objects) <= indexes.developers.Keys
              && DistinctInns(Lookup(indexes.developers, Sorted(DeveloperIds(objects))))
    ensures CollectRequiredDevelopers(objects, indexes).Ok? ==>
              var developers := CollectRequiredDevelopers(objects, indexes).value;
              && AscendingDevelopers(developers) && DistinctInns(developers)
              && (forall d :: d in developers <==>
                    d.id in DeveloperIds(objects) && indexes.developers[d.id] == d)
  {
    var ids := DeveloperIds(objects);
    if ids <= indexes.developers.Keys {
      var developers := Lookup(indexes.developers, Sorted(ids));
      InnIndexMeaning(developers);
      LookupMeaning(indexes.developers, ids);
      assert forall i :: 0 <= i < |developers| ==> developers[i].id == Sorted(ids)[i];
    }
  }

  lemma {:induction false} RequiredGroupsMeaning(objects: seq<ExtractedObject>, indexes: Indexes)
    requires forall k :: k in indexes.groups ==> indexes.groups[k].id == k
    ensures CollectRequiredGroups(objects, indexes).Ok? <==>
              GroupsConsistent(objects, indexes) && GroupIds(objects) <= indexes.groups.Keys
    ensures CollectRequiredGroups(objects, indexes).Ok? ==>
              var groups := CollectRequiredGroups(objects, indexes).value;
              && AscendingGroups(groups)
              && (forall g :: g in groups <==> g.id in GroupIds(objects) && indexes.groups[g.id] == g)
  {
    ScanMeaning(objects, indexes);
    if CollectRequiredGroups(objects, indexes).Ok? {
      var groups := CollectRequiredGroups(objects, indexes).value;
      LookupMeaning(indexes.groups, GroupIds(objects));
      assert forall i :: 0 <= i < |groups| ==> groups[i].id == Sorted(GroupIds(objects))[i];
    }
  }

  /** Everything a successful preparation establishes. */
  ghost predicate Selected(draft: Draft, extract: ExtractResult) {
    && IndexesExtract(draft.indexes, extract)
    && DistinctObjectIds(extract.objects)
    && AscendingObjects(draft.objects)
    && (forall o :: o in draft.objects <==> o in extract.objects && o.id !in draft.indexes.leads)
    && DeveloperIds(draft.objects) <= draft.indexes.developers.Keys
    && AscendingDevelopers(draft.developers) && DistinctInns(draft.developers)
    && (forall d :: d in draft.developers <==>
          d.id in DeveloperIds(draft.objects) && draft.indexes.developers[d.id] == d)
    && GroupsConsistent(draft.objects, draft.indexes)
    && GroupIds(draft.objects) <= draft.indexes.groups.Keys
    && AscendingGroups(draft.groups)
    && (forall g :: g in draft.groups <==>
          g.id in GroupIds(draft.objects) && draft.indexes.groups[g.id] == g)
  }

  /** Each selected object's owners are selected too. */
  ghost predicate Covers(draft: Draft) {
    forall o :: o in draft.objects ==>
      && o.developerId in draft.indexes.developers
      && (var d := draft.indexes.developers[o.developerId]; d.id == o.developerId && d in draft.developers)
      && (o.companyGroupId.Some? ==>
            && o.companyGroupId.value in draft.indexes.groups
            && var g := draft.indexes.groups[o.companyGroupId.value];
            g.id == o.companyGroupId.value && g in draft.groups)
  }

  lemma {:induction false} SelectedCovers(draft: Draft, extract: ExtractResult)
    requires Selected(draft, extract)
    ensures Covers(draft)
  {
    forall o | o in draft.objects
      ensures o.developerId in DeveloperIds(draft.objects)
      ensures o.companyGroupId.Some? ==> o.companyGroupId.value in GroupIds(draft.objects)
    {
    }
  }

  /** Indexing fails or succeeds table by table. */
  lemma {:induction false} IndexTables(extract: ExtractResult, context: CrmContext)
    ensures IndexAll(extract, context).Ok? <==>
              && IndexOf(DeveloperEntries(extract.developers)).Ok? && IndexOf(GroupEntries(extract.companyGroups)).Ok?
              && IndexOf(LeadEntries(context.existing.leads)).Ok?
              && IndexOf(ExistingDeveloperEntries(context.existing.developers)).Ok?
              && IndexOf(ExistingGroupEntries(context.existing.companyGroups)).Ok?
              && IndexOf(ManagerEntries(context.managers)).Ok?
    ensures IndexAll(extract, context).Ok? ==>
              IndexAll(extract, context).value ==
              Indexes(IndexOf(DeveloperEntries(extract.developers)).value,
                      IndexOf(GroupEntries(extract.companyGroups)).value,
                      IndexOf(LeadEntries(context.existing.leads)).value,
                      IndexOf(ExistingDeveloperEntries(context.existing.developers)).value,
                      IndexOf(ExistingGroupEntries(context.existing.companyGroups)).value,
                      IndexOf(ManagerEntries(context.managers)).value)
  {
  }

  lemma {:induction false} PreparedIndexAll(extract: ExtractResult, context: CrmContext, settings: RegionSettings)
    requires Prepare(extract, context, settings).Ok?
    ensures IndexAll(extract, context) == Ok(Prepare(extract, context, settings).value.indexes)
  {
  }

  /** Preparing goes stage by stage. */
  lemma {:induction false} PreparedInStages(extract: ExtractResult, context: CrmContext, settings: RegionSettings,
      draft: Draft)
    requires IndexAll(extract, context) == Ok(draft.indexes) && ManagersKnown(settings, draft.indexes)
    requires SelectNewObjects(extract.objects, draft.indexes) == Ok(draft.objects)
    requires CollectRequiredDevelopers(draft.objects, draft.indexes) == Ok(draft.developers)
    requires CollectRequiredGroups(draft.objects, draft.indexes) == Ok(draft.groups)
    ensures Prepare(extract, context, settings) == Ok(draft)
  {
  }

  lemma {:induction false} IndexedExtract(extract: ExtractResult, context: CrmContext)
    requires IndexAll(extract, context).Ok?
    ensures IndexesExtract(IndexAll(extract, context).value, extract)
  {
    IndexTables(extract, context);
    DeveloperIndexMeaning(extract.developers, IndexAll(extract, context).value.developers);
    GroupIndexMeaning(extract.companyGroups, IndexAll(extract, context).value.groups);
  }

  lemma {:induction false} PreparedIndexes(extract: ExtractResult, context: CrmContext, settings: RegionSettings)
    requires Prepare(extract, context, settings).Ok?
    ensures IndexesExtract(Prepare(extract, context, settings).value.indexes, extract)
  {
    PreparedIndexAll(extract, context, settings);
    IndexedExtract(extract, context);
  }

  lemma {:induction false} PreparedSelects(extract: ExtractResult, context: CrmContext, settings: RegionSettings)
    requires Prepare(extract, context, settings).Ok?
    ensures Selected(Prepare(extract, context, settings).value, extract)
  {
    PreparedIndexes(extract, context, settings);
    SelectionsMeaning(extract, Prepare(extract, context, settings).value);
  }

  lemma {:induction false} SelectionsMeaning(extract: ExtractResult, draft: Draft)
    requires IndexesExtract(draft.indexes, extract)
    requires SelectNewObjects(extract.objects, draft.indexes) == Ok(draft.objects)
    requires CollectRequiredDevelopers(draft.objects, draft.indexes) == Ok(draft.developers)
    requires CollectRequiredGroups(draft.objects, draft.indexes) == Ok(draft.groups)
    ensures Selected(draft, extract)
  {
    NewObjectsMeaning(extract.objects, draft.indexes);
    RequiredDevelopersMeaning(draft.objects, draft.indexes);
    RequiredGroupsMeaning(draft.objects, draft.indexes);
  }
}
