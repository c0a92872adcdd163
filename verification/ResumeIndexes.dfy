/** The indexes of the next run: what the first run knew, and what it recorded. */
module ResumeIndexes {
  import opened Wrappers
  import opened Contracts
  import opened OperationIds
  import opened Transformer
  import opened Indexing
  import opened Selection
  import opened PlanExecutor
  import opened CompiledPlans
  import opened Resume

  // ----- which keys are known -----

  ghost predicate LeadsKnown(leads: map<int, int>, draft: Draft, extract: ExtractResult, results: Results) {
    forall o :: o in extract.objects ==>
      (o.id in leads <==> o.id in draft.indexes.leads || Succeeded(results, Render(Lead(o.id))))
  }

  ghost predicate GroupsKnown(groups: map<int, int>, draft: Draft, extract: ExtractResult, results: Results) {
    forall g :: g in extract.companyGroups ==>
      (g.id in groups <==> g.id in draft.indexes.existingGroups || Succeeded(results, Render(Group(g.id))))
  }

  ghost predicate InnsKnown(inns: map<string, int>, draft: Draft, results: Results) {
    forall d :: d in draft.developers ==>
      (d.inn in inns <==> d.inn in draft.indexes.inns || Succeeded(results, Render(Requisite(d.id))))
  }

  /** The next indexes know what the first ones knew and what the first run recorded. */
  ghost predicate Remembers(next: Indexes, draft: Draft, extract: ExtractResult, results: Results) {
    && next.developers == draft.indexes.developers && next.groups == draft.indexes.groups
    && next.managers == draft.indexes.managers
    && LeadsKnown(next.leads, draft, extract, results)
    && GroupsKnown(next.existingGroups, draft, extract, results)
    && InnsKnown(next.inns, draft, results)
  }

  lemma {:induction false} LeadConfirmed(objects: seq<ExtractedObject>, context: CrmContext, settings: RegionSettings,
      oracle: Oracle, draft: Draft, plan: seq<PlannedOperation>, run: Run, o: ExtractedObject)
    requires Loaded(draft, context, settings, oracle, plan, run) && o in objects
    ensures ConfirmedKey(LeadCandidates(objects), run.results, o.id) <==> Succeeded(run.results, Render(Lead(o.id)))
  {
    var k :| 0 <= k < |objects| && objects[k] == o;
    assert LeadCandidates(objects)[k].key == o.id;
    if Succeeded(run.results, Render(Lead(o.id))) {
      var item := SucceededWasPlanned(draft, context, settings, oracle, plan, run, Lead(o.id));
    }
  }

  lemma {:induction false} ConfirmedLeadIsNew(objects: seq<ExtractedObject>, context: CrmContext,
      settings: RegionSettings, oracle: Oracle, draft: Draft, plan: seq<PlannedOperation>, run: Run, key: int)
    requires Loaded(draft, context, settings, oracle, plan, run)
    requires forall o :: o in draft.objects ==> o.id !in draft.indexes.leads
    requires ConfirmedKey(LeadCandidates(objects), run.results, key)
    ensures key !in draft.indexes.leads
  {
    var candidates := LeadCandidates(objects);
    var i :| 0 <= i < |candidates| && Confirmed(candidates[i], run.results) && candidates[i].key == key;
    var item := SucceededWasPlanned(draft, context, settings, oracle, plan, run, candidates[i].confirming);
  }

  lemma {:induction false} LeadsRemembered(extract: ExtractResult, context: CrmContext, settings: RegionSettings,
      oracle: Oracle, draft: Draft, plan: seq<PlannedOperation>, run: Run)
    requires DistinctObjectIds(extract.objects) && forall o :: o in draft.objects ==> o.id !in draft.indexes.leads
    requires Loaded(draft, context, settings, oracle, plan, run)
    requires IndexOf(LeadEntries(context.existing.leads)) == Ok(draft.indexes.leads)
    ensures var r := IndexOf(LeadEntries(AfterLoad(context, extract, run.results).existing.leads));
            r.Ok? && LeadsKnown(r.value, draft, extract, run.results)
  {
    var candidates := LeadCandidates(extract.objects);
    forall key | ConfirmedKey(candidates, run.results, key)
      ensures key !in draft.indexes.leads
    {
      ConfirmedLeadIsNew(extract.objects, context, settings, oracle, draft, plan, run, key);
    }
    RecordedIndex(LeadEntries(context.existing.leads), candidates, run.results);
    RecordedLeads(context, extract, run.results);
    forall o | o in extract.objects
      ensures ConfirmedKey(candidates, run.results, o.id) <==> Succeeded(run.results, Render(Lead(o.id)))
    {
      LeadConfirmed(extract.objects, context, settings, oracle, draft, plan, run, o);
    }
  }

  lemma {:induction false} GroupsConfirmedDistinct(groups: seq<ExtractedCompanyGroup>, results: Results)
    requires IndexOf(GroupEntries(groups)).Ok?
    ensures ConfirmedDistinct(GroupCandidates(groups), results)
  {
    IndexMeaning(GroupEntries(groups));
    assert forall i :: 0 <= i < |groups| ==> GroupCandidates(groups)[i].key == GroupEntries(groups)[i].0;
  }

  lemma {:induction false} GroupConfirmed(groups: seq<ExtractedCompanyGroup>, context: CrmContext,
      settings: RegionSettings, oracle: Oracle, draft: Draft, plan: seq<PlannedOperation>, run: Run,
      g: ExtractedCompanyGroup)
    requires Loaded(draft, context, settings, oracle, plan, run) && g in groups
    ensures ConfirmedKey(GroupCandidates(groups), run.results, g.id) <==> Succeeded(run.results, Render(Group(g.id)))
  {
    var k :| 0 <= k < |groups| && groups[k] == g;
    assert GroupCandidates(groups)[k].key == g.id;
    if Succeeded(run.results, Render(Group(g.id))) {
      var item := SucceededWasPlanned(draft, context, settings, oracle, plan, run, Group(g.id));
    }
  }

  lemma {:induction false} ConfirmedGroupIsNew(groups: seq<ExtractedCompanyGroup>, context: CrmContext,
      settings: RegionSettings, oracle: Oracle, draft: Draft, plan: seq<PlannedOperation>, run: Run, key: int)
    requires Loaded(draft, context, settings, oracle, plan, run)
    requires ConfirmedKey(GroupCandidates(groups), run.results, key)
    ensures key !in draft.indexes.existingGroups
  {
    var candidates := GroupCandidates(groups);
    var i :| 0 <= i < |candidates| && Confirmed(candidates[i], run.results) && candidates[i].key == key;
    var item := SucceededWasPlanned(draft, context, settings, oracle, plan, run, candidates[i].confirming);
  }

  lemma {:induction false} GroupsRemembered(extract: ExtractResult, context: CrmContext, settings: RegionSettings,
      oracle: Oracle, draft: Draft, plan: seq<PlannedOperation>, run: Run)
    requires Loaded(draft, context, settings, oracle, plan, run)
    requires IndexOf(GroupEntries(extract.companyGroups)).Ok?
    requires IndexOf(ExistingGroupEntries(context.existing.companyGroups)) == Ok(draft.indexes.existingGroups)
    ensures var r := IndexOf(ExistingGroupEntries(AfterLoad(context, extract, run.results).existing.companyGroups));
            r.Ok? && GroupsKnown(r.value, draft, extract, run.results)
  {
    var candidates := GroupCandidates(extract.companyGroups);
    GroupsConfirmedDistinct(extract.companyGroups, run.results);
    forall key | ConfirmedKey(candidates, run.results, key)
      ensures key !in draft.indexes.existingGroups
    {
      ConfirmedGroupIsNew(extract.companyGroups, context, settings, oracle, draft, plan, run, key);
    }
    RecordedIndex(ExistingGroupEntries(context.existing.companyGroups), candidates, run.results);
    RecordedGroups(context, extract, run.results);
    forall g | g in extract.companyGroups
      ensures ConfirmedKey(candidates, run.results, g.id) <==> Succeeded(run.results, Render(Group(g.id)))
    {
      GroupConfirmed(extract.companyGroups, context, settings, oracle, draft, plan, run, g);
    }
  }

  /** A confirmed developer is one the first plan created, found by its requisite. */
  lemma {:induction false} ConfirmedDeveloper(extract: ExtractResult, context: CrmContext, settings: RegionSettings,
      oracle: Oracle, draft: Draft, plan: seq<PlannedOperation>, run: Run, d: ExtractedDeveloper)
    requires Selected(draft, extract) && Loaded(draft, context, settings, oracle, plan, run) && d in extract.developers
    ensures Confirmed(Candidate(d.inn, Requisite(d.id), Company(d.id)), run.results)
            <==> Succeeded(run.results, Render(Requisite(d.id)))
    ensures Succeeded(run.results, Render(Requisite(d.id))) ==> d in draft.developers && d.inn !in draft.indexes.inns
  {
    if Succeeded(run.results, Render(Requisite(d.id))) {
      var item := SucceededWasPlanned(draft, context, settings, oracle, plan, run, Requisite(d.id));
      assert item.developer.id == d.id && item == RequisiteItem(item.developer);
      assert draft.indexes.developers[d.id] == d;
      assert BindingKeys(item, draft.indexes) == [Company(d.id)];
      SuccessNeedsReferences(draft, context, settings, oracle, plan, run, item, Company(d.id));
      var company := SucceededWasPlanned(draft, context, settings, oracle, plan, run, Company(d.id));
    }
  }

  /** The key of a required developer is confirmed exactly when its requisite succeeded. */
  lemma {:induction false} DeveloperKeyConfirmed(extract: ExtractResult, context: CrmContext, settings: RegionSettings,
      oracle: Oracle, draft: Draft, plan: seq<PlannedOperation>, run: Run, d: ExtractedDeveloper)
    requires Selected(draft, extract) && Loaded(draft, context, settings, oracle, plan, run) && d in draft.developers
    ensures ConfirmedKey(DeveloperCandidates(extract.developers), run.results, d.inn)
            <==> Succeeded(run.results, Render(Requisite(d.id)))
  {
    var candidates := DeveloperCandidates(extract.developers);
    assert d in extract.developers;
    ConfirmedDeveloper(extract, context, settings, oracle, draft, plan, run, d);
    var k :| 0 <= k < |extract.developers| && extract.developers[k] == d;
    assert candidates[k] == Candidate(d.inn, Requisite(d.id), Company(d.id));
    if ConfirmedKey(candidates, run.results, d.inn) {
      var i :| 0 <= i < |candidates| && Confirmed(candidates[i], run.results) && candidates[i].key == d.inn;
      var other := extract.developers[i];
      ConfirmedDeveloper(extract, context, settings, oracle, draft, plan, run, other);
      SameInnSameDeveloper(draft.developers, d, other);
    }
  }

  lemma {:induction false} ConfirmedDevelopersAreNew(extract: ExtractResult, context: CrmContext,
      settings: RegionSettings, oracle: Oracle, draft: Draft, plan: seq<PlannedOperation>, run: Run)
    requires Selected(draft, extract) && Loaded(draft, context, settings, oracle, plan, run)
    requires IndexOf(DeveloperEntries(extract.developers)).Ok?
    ensures ConfirmedDistinct(DeveloperCandidates(extract.developers), run.results)
    ensures forall key | ConfirmedKey(DeveloperCandidates(extract.developers), run.results, key) ::
              key !in draft.indexes.inns
  {
    var candidates := DeveloperCandidates(extract.developers);
    forall i | 0 <= i < |candidates|
      ensures Confirmed(candidates[i], run.results) ==>
                extract.developers[i] in draft.developers && candidates[i].key !in draft.indexes.inns
    {
      ConfirmedDeveloper(extract, context, settings, oracle, draft, plan, run, extract.developers[i]);
    }
    DevelopersConfirmedDistinct(extract, draft, run.results);
  }

  lemma {:induction false} DevelopersRemembered(extract: ExtractResult, context: CrmContext, settings: RegionSettings,
      oracle: Oracle, draft: Draft, plan: seq<PlannedOperation>, run: Run)
    requires Selected(draft, extract) && Loaded(draft, context, settings, oracle, plan, run)
    requires IndexOf(DeveloperEntries(extract.developers)).Ok?
    requires IndexOf(ExistingDeveloperEntries(context.existing.developers)) == Ok(draft.indexes.inns)
    ensures var r := IndexOf(ExistingDeveloperEntries(AfterLoad(context, extract, run.results).existing.developers));
            r.Ok? && InnsKnown(r.value, draft, run.results)
  {
    var candidates := DeveloperCandidates(extract.developers);
    ConfirmedDevelopersAreNew(extract, context, settings, oracle, draft, plan, run);
    RecordedIndex(ExistingDeveloperEntries(context.existing.developers), candidates, run.results);
    RecordedDevelopers(context, extract, run.results);
    forall d | d in draft.developers
      ensures ConfirmedKey(candidates, run.results, d.inn) <==> Succeeded(run.results, Render(Requisite(d.id)))
    {
      DeveloperKeyConfirmed(extract, context, settings, oracle, draft, plan, run, d);
    }
  }

  lemma {:induction false} SameInnSameDeveloper(developers: seq<ExtractedDeveloper>, a: ExtractedDeveloper,
      b: ExtractedDeveloper)
    requires DistinctInns(developers) && a in developers && b in developers && a.inn == b.inn
    ensures a == b
  {
    var i :| 0 <= i < |developers| && developers[i] == a;
    var j :| 0 <= j < |developers| && developers[j] == b;
    assert i == j || i < j || j < i;
  }

  lemma {:induction false} DevelopersConfirmedDistinct(extract: ExtractResult, draft: Draft, results: Results)
    requires DistinctInns(draft.developers) && IndexOf(DeveloperEntries(extract.developers)).Ok?
    requires forall i :: 0 <= i < |extract.developers| ==>
               Confirmed(DeveloperCandidates(extract.developers)[i], results) ==>
                 extract.developers[i] in draft.developers
    ensures ConfirmedDistinct(DeveloperCandidates(extract.developers), results)
  {
    var candidates, entries := DeveloperCandidates(extract.developers), DeveloperEntries(extract.developers);
    IndexMeaning(entries);
    forall i, j | 0 <= i < j < |candidates| && Confirmed(candidates[i], results) && Confirmed(candidates[j], results)
      ensures candidates[i].key != candidates[j].key
    {
      assert entries[i].0 != entries[j].0;
      if candidates[i].key == candidates[j].key {
        SameInnSameDeveloper(draft.developers, extract.developers[i], extract.developers[j]);
      }
    }
  }

  lemma {:induction false} NextIndexes(extract: ExtractResult, context: CrmContext, settings: RegionSettings,
      oracle: Oracle, draft: Draft, plan: seq<PlannedOperation>, run: Run)
    requires IndexAll(extract, context) == Ok(draft.indexes)
    requires Selected(draft, extract) && Loaded(draft, context, settings, oracle, plan, run)
    ensures IndexAll(extract, AfterLoad(context, extract, run.results)).Ok?
    ensures Remembers(IndexAll(extract, AfterLoad(context, extract, run.results)).value, draft, extract, run.results)
  {
    var after := AfterLoad(context, extract, run.results);
    IndexTables(extract, context);
    LeadsRemembered(extract, context, settings, oracle, draft, plan, run);
    GroupsRemembered(extract, context, settings, oracle, draft, plan, run);
    DevelopersRemembered(extract, context, settings, oracle, draft, plan, run);
    assert after.managers == context.managers;
    IndexTables(extract, after);
  }

  // ----- the ids they are known by -----

  lemma {:induction false} KnownEntry<K, V>(known: seq<(K, V)>, added: seq<(K, V)>, before: map<K, V>, m: map<K, V>,
      key: K)
    requires IndexOf(known) == Ok(before) && IndexOf(known + added) == Ok(m) && key in before
    ensures key in m && m[key] == before[key]
  {
    IndexMeaning(known);
    IndexMeaning(known + added);
    var i :| 0 <= i < |known| && known[i].0 == key;
    assert (known + added)[i] == known[i];
  }

  /** A recorded entity is found under its key with the id the first run got for it. */
  lemma {:induction false} RecordedEntry<K>(known: seq<(K, int)>, candidates: seq<Candidate<K>>, results: Results,
      m: map<K, int>, k: nat)
    requires k < |candidates| && Confirmed(candidates[k], results)
    requires IndexOf(known + ConfirmedEntries(candidates, results)) == Ok(m)
    ensures candidates[k].key in m && Some(m[candidates[k].key]) == results[Render(candidates[k].source)].crmId
  {
    var added := ConfirmedEntries(candidates, results);
    var i := EntryOfConfirmed(candidates, results, k);
    IndexMeaning(known + added);
    assert (known + added)[|known| + i] == added[i];
  }

  /** The index of the next run leads from the INN of a recorded developer to the company the first run created. */
  lemma {:induction false} RecordedInn(context: CrmContext, extract: ExtractResult, results: Results,
      d: ExtractedDeveloper, inns: map<string, int>)
    requires d in extract.developers && Confirmed(Candidate(d.inn, Requisite(d.id), Company(d.id)), results)
    requires IndexOf(ExistingDeveloperEntries(AfterLoad(context, extract, results).existing.developers)) == Ok(inns)
    ensures d.inn in inns && Some(inns[d.inn]) == results[Render(Company(d.id))].crmId
  {
    RecordedDevelopers(context, extract, results);
    var k :| 0 <= k < |extract.developers| && extract.developers[k] == d;
    RecordedEntry(ExistingDeveloperEntries(context.existing.developers), DeveloperCandidates(extract.developers),
                  results, inns, k);
  }

  lemma {:induction false} RecordedGroupId(context: CrmContext, extract: ExtractResult, results: Results,
      g: ExtractedCompanyGroup, groups: map<int, int>)
    requires g in extract.companyGroups && Confirmed(Candidate(g.id, Group(g.id), Group(g.id)), results)
    requires IndexOf(ExistingGroupEntries(AfterLoad(context, extract, results).existing.companyGroups)) == Ok(groups)
    ensures g.id in groups && Some(groups[g.id]) == results[Render(Group(g.id))].crmId
  {
    RecordedGroups(context, extract, results);
    var k :| 0 <= k < |extract.companyGroups| && extract.companyGroups[k] == g;
    RecordedEntry(ExistingGroupEntries(context.existing.companyGroups), GroupCandidates(extract.companyGroups),
                  results, groups, k);
  }

  /** What the next draft holds for a developer whose requisite succeeded. */
  lemma {:induction false} NextKnowsCompany(extract: ExtractResult, context: CrmContext, settings: RegionSettings,
      oracle: Oracle, draft: Draft, plan: seq<PlannedOperation>, run: Run, next: Indexes, d: ExtractedDeveloper)
    requires Selected(draft, extract) && Loaded(draft, context, settings, oracle, plan, run)
    requires d in extract.developers && Succeeded(run.results, Render(Requisite(d.id)))
    requires IndexAll(extract, AfterLoad(context, extract, run.results)) == Ok(next)
    ensures !NeedsCompany(d, next) && Render(Company(d.id)) in run.results
    ensures Some(next.inns[d.inn]) == run.results[Render(Company(d.id))].crmId
  {
    ConfirmedDeveloper(extract, context, settings, oracle, draft, plan, run, d);
    IndexTables(extract, AfterLoad(context, extract, run.results));
    RecordedInn(context, extract, run.results, d, next.inns);
  }

  /** The same for a group that succeeded. */
  lemma {:induction false} NextKnowsGroup(extract: ExtractResult, context: CrmContext, settings: RegionSettings,
      oracle: Oracle, draft: Draft, plan: seq<PlannedOperation>, run: Run, next: Indexes, g: ExtractedCompanyGroup)
    requires Loaded(draft, context, settings, oracle, plan, run)
    requires g in extract.companyGroups && Succeeded(run.results, Render(Group(g.id)))
    requires IndexAll(extract, AfterLoad(context, extract, run.results)) == Ok(next)
    ensures g.id in next.existingGroups && Some(next.existingGroups[g.id]) == run.results[Render(Group(g.id))].crmId
  {
    var item := SucceededWasPlanned(draft, context, settings, oracle, plan, run, Group(g.id));
    IndexTables(extract, AfterLoad(context, extract, run.results));
    RecordedGroupId(context, extract, run.results, g, next.existingGroups);
  }

  /** What was known keeps its id. */
  lemma {:induction false} NextKeepsKnown(extract: ExtractResult, context: CrmContext, results: Results,
      before: Indexes, next: Indexes)
    requires IndexAll(extract, context) == Ok(before)
    requires IndexAll(extract, AfterLoad(context, extract, results)) == Ok(next)
    ensures forall inn <- before.inns :: inn in next.inns && next.inns[inn] == before.inns[inn]
    ensures forall g <- before.existingGroups ::
              g in next.existingGroups && next.existingGroups[g] == before.existingGroups[g]
  {
    IndexTables(extract, context);
    IndexTables(extract, AfterLoad(context, extract, results));
    RecordedDevelopers(context, extract, results);
    RecordedGroups(context, extract, results);
    forall inn <- before.inns
      ensures inn in next.inns && next.inns[inn] == before.inns[inn]
    {
      KnownEntry(ExistingDeveloperEntries(context.existing.developers),
                 ConfirmedEntries(DeveloperCandidates(extract.developers), results), before.inns, next.inns, inn);
    }
    forall g <- before.existingGroups
      ensures g in next.existingGroups && next.existingGroups[g] == before.existingGroups[g]
    {
      KnownEntry(ExistingGroupEntries(context.existing.companyGroups),
                 ConfirmedEntries(GroupCandidates(extract.companyGroups), results), before.existingGroups,
                 next.existingGroups, g);
    }
  }

  // ----- what a lead finds -----

  /** The id of the company the first run recorded for the developer, if it did. */
  function RecordedCompany(d: ExtractedDeveloper, results: Results): Option<int> {
    if Succeeded(results, Render(Requisite(d.id))) && Render(Company(d.id)) in results
    then results[Render(Company(d.id))].crmId else None
  }

  function RecordedGroup(group: nat, results: Results): Option<int> {
    if Succeeded(results, Render(Group(group))) then results[Render(Group(group))].crmId else None
  }

  function WithId<K>(index: map<K, int>, key: K, id: Option<int>): map<K, int> {
    if id.Some? then index[key := id.value] else index
  }

  /** The first run's indexes together with what it recorded of the owners of an object. */
  function WithOwners(indexes: Indexes, o: ExtractedObject, d: ExtractedDeveloper, results: Results): Indexes {
    indexes.(
      inns := WithId(indexes.inns, d.inn, RecordedCompany(d, results)),
      existingGroups :=
        if o.companyGroupId.None? then indexes.existingGroups
        else WithId(indexes.existingGroups, o.companyGroupId.value, RecordedGroup(o.companyGroupId.value, results)))
  }

  /** Both indexes refer an object to the same owners. */
  ghost predicate SameOwners(a: Indexes, b: Indexes, o: ExtractedObject, d: ExtractedDeveloper) {
    && KnownReference(d.inn, a.inns) == KnownReference(d.inn, b.inns)
    && GroupReference(o, a) == GroupReference(o, b)
  }

  lemma {:induction false} NextCompany(extract: ExtractResult, context: CrmContext, settings: RegionSettings,
      oracle: Oracle, draft: Draft, plan: seq<PlannedOperation>, run: Run, next: Indexes, d: ExtractedDeveloper)
    requires Selected(draft, extract) && Loaded(draft, context, settings, oracle, plan, run) && d in draft.developers
    requires IndexAll(extract, context) == Ok(draft.indexes)
    requires IndexAll(extract, AfterLoad(context, extract, run.results)) == Ok(next)
    requires InnsKnown(next.inns, draft, run.results)
    ensures KnownReference(d.inn, next.inns)
            == KnownReference(d.inn, WithId(draft.indexes.inns, d.inn, RecordedCompany(d, run.results)))
  {
    NextKeepsKnown(extract, context, run.results, draft.indexes, next);
    if Succeeded(run.results, Render(Requisite(d.id))) {
      assert d in extract.developers;
      NextKnowsCompany(extract, context, settings, oracle, draft, plan, run, next, d);
    }
  }

  lemma {:induction false} NextGroup(extract: ExtractResult, context: CrmContext, settings: RegionSettings,
      oracle: Oracle, draft: Draft, plan: seq<PlannedOperation>, run: Run, next: Indexes, g: ExtractedCompanyGroup)
    requires Loaded(draft, context, settings, oracle, plan, run) && g in extract.companyGroups
    requires IndexAll(extract, context) == Ok(draft.indexes)
    requires IndexAll(extract, AfterLoad(context, extract, run.results)) == Ok(next)
    requires GroupsKnown(next.existingGroups, draft, extract, run.results)
    ensures KnownReference(g.id, next.existingGroups)
            == KnownReference(g.id, WithId(draft.indexes.existingGroups, g.id, RecordedGroup(g.id, run.results)))
  {
    NextKeepsKnown(extract, context, run.results, draft.indexes, next);
    if Succeeded(run.results, Render(Group(g.id))) {
      NextKnowsGroup(extract, context, settings, oracle, draft, plan, run, next, g);
    }
  }

  /** A lead of the next run finds the owners the first run knew or recorded. */
  lemma {:induction false} NextOwners(extract: ExtractResult, context: CrmContext, settings: RegionSettings,
      oracle: Oracle, draft: Draft, plan: seq<PlannedOperation>, run: Run, next: Indexes, o: ExtractedObject)
    requires Selected(draft, extract) && Loaded(draft, context, settings, oracle, plan, run) && o in draft.objects
    requires IndexAll(extract, context) == Ok(draft.indexes)
    requires IndexAll(extract, AfterLoad(context, extract, run.results)) == Ok(next)
    requires Remembers(next, draft, extract, run.results) && o.developerId in draft.indexes.developers
    ensures var d := draft.indexes.developers[o.developerId];
            SameOwners(next, WithOwners(draft.indexes, o, d, run.results), o, d)
  {
    OwnersSelected(draft, extract, o);
    NextCompany(extract, context, settings, oracle, draft, plan, run, next, draft.indexes.developers[o.developerId]);
    if o.companyGroupId.Some? {
      NextGroup(extract, context, settings, oracle, draft, plan, run, next,
                draft.indexes.groups[o.companyGroupId.value]);
    }
    OwnersMatch(next, draft.indexes, o, draft.indexes.developers[o.developerId], run.results);
  }

  lemma {:induction false} OwnersMatch(next: Indexes, indexes: Indexes, o: ExtractedObject, d: ExtractedDeveloper,
      results: Results)
    requires KnownReference(d.inn, next.inns)
          == KnownReference(d.inn, WithId(indexes.inns, d.inn, RecordedCompany(d, results)))
    requires o.companyGroupId.Some? ==>
               var g := o.companyGroupId.value;
               KnownReference(g, next.existingGroups)
               == KnownReference(g, WithId(indexes.existingGroups, g, RecordedGroup(g, results)))
    ensures SameOwners(next, WithOwners(indexes, o, d, results), o, d)
  {
  }

  lemma {:induction false} OwnersSelected(draft: Draft, extract: ExtractResult, o: ExtractedObject)
    requires Selected(draft, extract) && o in draft.objects
    ensures o.developerId in draft.indexes.developers && draft.indexes.developers[o.developerId] in draft.developers
    ensures o.companyGroupId.Some? ==>
              && o.companyGroupId.value in draft.indexes.groups
              && draft.indexes.groups[o.companyGroupId.value] in extract.companyGroups
              && draft.indexes.groups[o.companyGroupId.value].id == o.companyGroupId.value
  {
    assert o.developerId in DeveloperIds(draft.objects);
    assert o.companyGroupId.Some? ==> o.companyGroupId.value in GroupIds(draft.objects);
  }

  /** The command of a lead depends on the managers and on the owners it finds. */
  lemma {:induction false} SameLead(o: ExtractedObject, d: ExtractedDeveloper, a: Indexes, b: Indexes,
      context: CrmContext, context': CrmContext, settings: RegionSettings)
    requires ManagersKnown(settings, a) && ManagersKnown(settings, b) && a.managers == b.managers
    requires context.structure == context'.structure && context.references == context'.references
    requires SameOwners(a, b, o, d)
    ensures LeadOperation(o, d, a, context, settings) == LeadOperation(o, d, b, context', settings)
  {
    assert LeadBasePayload(o, a, context, settings) == LeadBasePayload(o, b, context', settings);
  }
}
