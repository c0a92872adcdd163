/**
 * Running the synchronisation again after a load that may have failed anywhere.
 *
 * The next run finds in the CRM what the first one created: the leads and groups that succeeded, and the
 * company of every developer whose requisite (which carries the INN) succeeded.
 */
module Resume {
  import opened Wrappers
  import opened Contracts
  import opened OperationIds
  import opened Transformer
  import opened Indexing
  import opened PlanExecutor
  import opened CompiledPlans
  import opened Execution
  import opened ExecutionGuarantees
  import opened LeadCompleteness

  // ----- what the first run leaves in the CRM -----

  /** An entity the index will hold under `key` if `confirming` succeeded, with the id `source` returned. */
  datatype Candidate<K> = Candidate(key: K, confirming: OperationKey, source: OperationKey)

  predicate Confirmed<K>(c: Candidate<K>, results: Results) {
    && Succeeded(results, Render(c.confirming))
    && Succeeded(results, Render(c.source)) && results[Render(c.source)].crmId.Some?
  }

  function EntryOf<K>(c: Candidate<K>, results: Results): Option<(K, int)> {
    if Confirmed(c, results) then Some((c.key, results[Render(c.source)].crmId.value)) else None
  }

  /** The values present, in order. */
  function Somes<T>(s: seq<Option<T>>): seq<T> {
    if s == [] then []
    else
      var last := s[|s| - 1];
      Somes(s[..|s| - 1]) + if last.Some? then [last.value] else []
  }

  function ConfirmedEntries<K>(candidates: seq<Candidate<K>>, results: Results): seq<(K, int)> {
    Somes(seq(|candidates|, i requires 0 <= i < |candidates| => EntryOf(candidates[i], results)))
  }

  function LeadCandidates(objects: seq<ExtractedObject>): seq<Candidate<int>> {
    seq(|objects|, i requires 0 <= i < |objects| => Candidate(objects[i].id, Lead(objects[i].id), Lead(objects[i].id)))
  }

  function GroupCandidates(groups: seq<ExtractedCompanyGroup>): seq<Candidate<int>> {
    seq(|groups|, i requires 0 <= i < |groups| => Candidate(groups[i].id, Group(groups[i].id), Group(groups[i].id)))
  }

  function DeveloperCandidates(developers: seq<ExtractedDeveloper>): seq<Candidate<string>> {
    seq(|developers|, i requires 0 <= i < |developers| =>
      Candidate(developers[i].inn, Requisite(developers[i].id), Company(developers[i].id)))
  }

  /** The CRM context of the next run. */
  function AfterLoad(context: CrmContext, extract: ExtractResult, results: Results): CrmContext {
    var leads := ConfirmedEntries(LeadCandidates(extract.objects), results);
    var developers := ConfirmedEntries(DeveloperCandidates(extract.developers), results);
    var groups := ConfirmedEntries(GroupCandidates(extract.companyGroups), results);
    context.(existing := ExistingEntities(
      context.existing.leads + seq(|leads|, i requires 0 <= i < |leads| => ExistingLead(leads[i].0, leads[i].1)),
      context.existing.developers
        + seq(|developers|, i requires 0 <= i < |developers| => ExistingDeveloper(developers[i].0, developers[i].1)),
      context.existing.companyGroups
        + seq(|groups|, i requires 0 <= i < |groups| => ExistingCompanyGroup(groups[i].0, groups[i].1))))
  }

  ghost predicate ConfirmedDistinct<K>(candidates: seq<Candidate<K>>, results: Results) {
    forall i, j | 0 <= i < j < |candidates| && Confirmed(candidates[i], results) && Confirmed(candidates[j], results)
      :: candidates[i].key != candidates[j].key
  }

  ghost predicate ConfirmedKey<K>(candidates: seq<Candidate<K>>, results: Results, key: K) {
    exists i :: 0 <= i < |candidates| && Confirmed(candidates[i], results) && candidates[i].key == key
  }

  lemma {:induction false} KeptFrom<T>(s: seq<Option<T>>, i: nat) returns (k: nat)
    requires i < |Somes(s)|
    ensures k < |s| && s[k] == Some(Somes(s)[i])
  {
    var n := |s| - 1;
    if i < |Somes(s[..n])| {
      k := KeptFrom(s[..n], i);
    } else {
      k := n;
    }
  }

  lemma {:induction false} KeptAt<T>(s: seq<Option<T>>, k: nat) returns (i: nat)
    requires k < |s| && s[k].Some?
    ensures i < |Somes(s)| && Somes(s)[i] == s[k].value
  {
    var n := |s| - 1;
    if k < n {
      i := KeptAt(s[..n], k);
    } else {
      i := |Somes(s[..n])|;
    }
  }

  lemma {:induction false} SomesDistinct<K, V>(s: seq<Option<(K, V)>>)
    requires forall i, j | 0 <= i < j < |s| && s[i].Some? && s[j].Some? :: s[i].value.0 != s[j].value.0
    ensures DistinctKeys(Somes(s))
  {
    if s != [] {
      var n := |s| - 1;
      var head := s[..n];
      SomesDistinct(head);
      if s[n].Some? {
        forall i | 0 <= i < |Somes(head)|
          ensures Somes(head)[i].0 != s[n].value.0
        {
          var k := KeptFrom(head, i);
          assert s[k] == head[k];
        }
      }
    }
  }

  lemma {:induction false} EntriesAreConfirmed<K>(candidates: seq<Candidate<K>>, results: Results)
    ensures forall i :: 0 <= i < |ConfirmedEntries(candidates, results)| ==>
              ConfirmedKey(candidates, results, ConfirmedEntries(candidates, results)[i].0)
  {
    var found := seq(|candidates|, i requires 0 <= i < |candidates| => EntryOf(candidates[i], results));
    forall i | 0 <= i < |ConfirmedEntries(candidates, results)|
      ensures ConfirmedKey(candidates, results, ConfirmedEntries(candidates, results)[i].0)
    {
      var k := KeptFrom(found, i);
      assert found[k] == EntryOf(candidates[k], results);
    }
  }

  /** Every confirmed candidate has an entry, at the index returned. */
  lemma {:induction false} EntryOfConfirmed<K>(candidates: seq<Candidate<K>>, results: Results, k: nat) returns (i: nat)
    requires k < |candidates| && Confirmed(candidates[k], results)
    ensures i < |ConfirmedEntries(candidates, results)|
    ensures Some(ConfirmedEntries(candidates, results)[i]) == EntryOf(candidates[k], results)
  {
    i := KeptAt(seq(|candidates|, j requires 0 <= j < |candidates| => EntryOf(candidates[j], results)), k);
  }

  lemma {:induction false} ConfirmedEntriesDistinct<K>(candidates: seq<Candidate<K>>, results: Results)
    requires ConfirmedDistinct(candidates, results)
    ensures DistinctKeys(ConfirmedEntries(candidates, results))
  {
    var found := seq(|candidates|, i requires 0 <= i < |candidates| => EntryOf(candidates[i], results));
    assert forall k :: 0 <= k < |found| ==> found[k] == EntryOf(candidates[k], results);
    SomesDistinct(found);
  }

  lemma {:induction false} ConfirmedIndex<K>(candidates: seq<Candidate<K>>, results: Results)
    requires ConfirmedDistinct(candidates, results)
    ensures IndexOf(ConfirmedEntries(candidates, results)).Ok?
    ensures forall key ::
              key in IndexOf(ConfirmedEntries(candidates, results)).value <==> ConfirmedKey(candidates, results, key)
  {
    var entries := ConfirmedEntries(candidates, results);
    ConfirmedEntriesDistinct(candidates, results);
    IndexMeaning(entries);
    var m := IndexOf(entries).value;
    forall key
      ensures key in m <==> ConfirmedKey(candidates, results, key)
    {
      if key in m {
        EntriesAreConfirmed(candidates, results);
        var i :| 0 <= i < |entries| && entries[i].0 == key;
      }
      if ConfirmedKey(candidates, results, key) {
        var k :| 0 <= k < |candidates| && Confirmed(candidates[k], results) && candidates[k].key == key;
        var i := EntryOfConfirmed(candidates, results, k);
        assert entries[i].0 == key;
      }
    }
  }

  /** Recording confirmed entities beside the known ones indexes, and adds exactly the confirmed keys. */
  lemma {:induction false} RecordedIndex<K>(known: seq<(K, int)>, candidates: seq<Candidate<K>>, results: Results)
    requires IndexOf(known).Ok? && ConfirmedDistinct(candidates, results)
    requires forall key :: ConfirmedKey(candidates, results, key) ==> key !in IndexOf(known).value
    ensures IndexOf(known + ConfirmedEntries(candidates, results)).Ok?
    ensures var m := IndexOf(known + ConfirmedEntries(candidates, results)).value;
            forall key :: key in m <==> key in IndexOf(known).value || ConfirmedKey(candidates, results, key)
  {
    ConfirmedIndex(candidates, results);
    var added := IndexOf(ConfirmedEntries(candidates, results)).value;
    forall key | key in added.Keys
      ensures key !in IndexOf(known).value.Keys
    {
      assert ConfirmedKey(candidates, results, key);
    }
    IndexConcat(known, ConfirmedEntries(candidates, results));
  }

  lemma {:induction false} RecordedLeads(context: CrmContext, extract: ExtractResult, results: Results)
    ensures LeadEntries(AfterLoad(context, extract, results).existing.leads)
            == LeadEntries(context.existing.leads) + ConfirmedEntries(LeadCandidates(extract.objects), results)
  {
    var leads := ConfirmedEntries(LeadCandidates(extract.objects), results);
    var recorded := seq(|leads|, i requires 0 <= i < |leads| => ExistingLead(leads[i].0, leads[i].1));
    assert LeadEntries(recorded) == leads;
  }

  lemma {:induction false} RecordedDevelopers(context: CrmContext, extract: ExtractResult, results: Results)
    ensures ExistingDeveloperEntries(AfterLoad(context, extract, results).existing.developers)
            == ExistingDeveloperEntries(context.existing.developers)
               + ConfirmedEntries(DeveloperCandidates(extract.developers), results)
  {
    var found := ConfirmedEntries(DeveloperCandidates(extract.developers), results);
    var recorded := seq(|found|, i requires 0 <= i < |found| => ExistingDeveloper(found[i].0, found[i].1));
    assert ExistingDeveloperEntries(recorded) == found;
  }

  lemma {:induction false} RecordedGroups(context: CrmContext, extract: ExtractResult, results: Results)
    ensures ExistingGroupEntries(AfterLoad(context, extract, results).existing.companyGroups)
            == ExistingGroupEntries(context.existing.companyGroups)
               + ConfirmedEntries(GroupCandidates(extract.companyGroups), results)
  {
    var found := ConfirmedEntries(GroupCandidates(extract.companyGroups), results);
    var recorded := seq(|found|, i requires 0 <= i < |found| => ExistingCompanyGroup(found[i].0, found[i].1));
    assert ExistingGroupEntries(recorded) == found;
  }

  // ----- the first run -----

  /** A draft whose plan ran, to the end or until something aborted it; `run` is the part that completed. */
  ghost predicate Loaded(draft: Draft, context: CrmContext, settings: RegionSettings, oracle: Oracle,
      plan: seq<PlannedOperation>, run: Run)
  {
    && ManagersKnown(settings, draft.indexes) && AllPlannable(Items(draft), draft.indexes)
    && plan == Operations(Items(draft), draft.indexes, context, settings)
    && DistinctIds(plan) && |run.order| <= |plan|
    && Describes(oracle, plan[..|run.order|], run)
  }

  /** Whether an item was planned. */
  ghost predicate Planned(item: PlanItem, draft: Draft) {
    match item
    case GroupItem(g) => g in draft.groups && g.id !in draft.indexes.existingGroups
    case LeadItem(o) => o in draft.objects
    case _ => item.developer in draft.developers && NeedsCompany(item.developer, draft.indexes)
  }

  lemma {:induction false} LeadItemsAreLeads(objects: seq<ExtractedObject>)
    ensures forall item :: item in LeadItems(objects) <==> item.LeadItem? && item.object_ in objects
  {
    forall item: PlanItem | item.LeadItem? && item.object_ in objects
      ensures item in LeadItems(objects)
    {
      var i :| 0 <= i < |objects| && objects[i] == item.object_;
      assert LeadItems(objects)[i] == item;
    }
  }

  lemma {:induction false} ItemsArePlanned(draft: Draft)
    ensures forall item :: item in Items(draft) <==> Planned(item, draft)
  {
    GroupItemsAreGroups(draft.groups, draft.indexes);
    DeveloperItemsAreBlocks(draft.developers, draft.indexes);
    LeadItemsAreLeads(draft.objects);
  }

  lemma {:induction false} CommandKind(item: PlanItem, indexes: Indexes, context: CrmContext, settings: RegionSettings)
    requires ManagersKnown(settings, indexes) && Plannable(item, indexes)
    ensures OperationOf(item, indexes, context, settings).command.AddAddress?
            <==> item.ActualAddressItem? || item.LegalAddressItem?
  {
  }

  lemma {:induction false} PositionOf(draft: Draft, item: PlanItem) returns (i: nat)
    requires Planned(item, draft)
    ensures i < |Items(draft)| && Items(draft)[i] == item
  {
    ItemsArePlanned(draft);
    i :| 0 <= i < |Items(draft)| && Items(draft)[i] == item;
  }

  /** Only planned operations succeed. */
  lemma {:induction false} SucceededWasPlanned(draft: Draft, context: CrmContext, settings: RegionSettings,
      oracle: Oracle, plan: seq<PlannedOperation>, run: Run, key: OperationKey) returns (item: PlanItem)
    requires Loaded(draft, context, settings, oracle, plan, run) && Succeeded(run.results, Render(key))
    ensures Planned(item, draft) && Key(item) == key
    ensures !key.ActualAddress? && !key.LegalAddress? ==> run.results[Render(key)].crmId.Some?
  {
    var i := SucceededPosition(oracle, plan, run, Render(key));
    item := Items(draft)[i];
    RenderInjective(Key(item), key);
    ItemsArePlanned(draft);
    assert item in Items(draft);
    CommandKind(item, draft.indexes, context, settings);
  }

  /** What succeeded completed, and carries an id unless it is an address. */
  lemma {:induction false} SucceededPosition(oracle: Oracle, plan: seq<PlannedOperation>, run: Run, id: string)
    returns (i: nat)
    requires |run.order| <= |plan| && Describes(oracle, plan[..|run.order|], run) && Succeeded(run.results, id)
    ensures i < |run.order| && plan[i].id == id
    ensures !plan[i].command.AddAddress? ==> run.results[id].crmId.Some?
  {
    var done := plan[..|run.order|];
    assert id in Ids(done);
    i :| 0 <= i < |done| && done[i].id == id;
    SettledCarriesIds(oracle, done, run.results);
  }

  /** If a planned item succeeded, everything it refers to succeeded. */
  lemma {:induction false} SuccessNeedsReferences(draft: Draft, context: CrmContext, settings: RegionSettings,
      oracle: Oracle, plan: seq<PlannedOperation>, run: Run, item: PlanItem, key: OperationKey)
    requires Loaded(draft, context, settings, oracle, plan, run)
    requires Planned(item, draft) && Plannable(item, draft.indexes) && Succeeded(run.results, Render(Key(item)))
    requires key in BindingKeys(item, draft.indexes) + DependencyKeys(item, draft.indexes)
    ensures Succeeded(run.results, Render(key))
  {
    var i := PositionOf(draft, item);
    ResultMeansCompleted(oracle, plan, run, i);
    ReferenceListed(item, key, draft.indexes, context, settings);
    CompletedReferenceSucceeded(oracle, plan, run, i, Render(key));
  }

  lemma {:induction false} CompletedReferenceSucceeded(oracle: Oracle, plan: seq<PlannedOperation>, run: Run, i: nat,
      source: string)
    requires |run.order| <= |plan| && Describes(oracle, plan[..|run.order|], run)
    requires i < |run.order| && Succeeded(run.results, plan[i].id)
    requires
      || source in plan[i].dependencies
      || exists k :: 0 <= k < |plan[i].bindings| && plan[i].bindings[k].source == source
    ensures Succeeded(run.results, source)
  {
    var done := plan[..|run.order|];
    SucceededWasSent(oracle, done, run, i);
    ReferencedSucceeded(oracle, done, run, i, source);
  }

  lemma {:induction false} ReferenceListed(item: PlanItem, key: OperationKey, indexes: Indexes, context: CrmContext,
      settings: RegionSettings)
    requires ManagersKnown(settings, indexes) && Plannable(item, indexes)
    requires key in BindingKeys(item, indexes) + DependencyKeys(item, indexes)
    ensures var op := OperationOf(item, indexes, context, settings);
            || Render(key) in op.dependencies
            || exists k :: 0 <= k < |op.bindings| && op.bindings[k].source == Render(key)
  {
    OperationReferences(item, indexes, context, settings);
    var op := OperationOf(item, indexes, context, settings);
    var bindings, dependencies := BindingKeys(item, indexes), DependencyKeys(item, indexes);
    if key in bindings {
      var k :| 0 <= k < |bindings| && bindings[k] == key;
      assert op.bindings[k].source == Render(key);
    } else {
      var k :| 0 <= k < |dependencies| && dependencies[k] == key;
      assert op.dependencies[k] == Render(key);
    }
  }
}
