/** What a load leaves for the next run to find, in terms of the CRM's answers. */
module RecordedEntities {
  import opened Wrappers
  import opened Text
  import opened Contracts
  import opened OperationIds
  import opened PlanExecutor
  import opened SentCommands
  import opened Resume

  /** The operation succeeded, and the CRM returned the id for it. */
  ghost predicate AnsweredWith(oracle: Oracle, results: Results, id: string, crmId: int) {
    && Succeeded(results, id) && results[id].crmId == Some(crmId)
    && oracle(id).Created? && oracle(id).crmId == crmId
  }

  ghost predicate LeadRecorded(oracle: Oracle, results: Results, extract: ExtractResult, e: ExistingLead) {
    exists o <- extract.objects :: o.id == e.sourceId && AnsweredWith(oracle, results, "lead:" + Decimal(o.id), e.crmId)
  }

  /** A company is found by its INN, which its requisite carries. */
  ghost predicate CompanyRecorded(oracle: Oracle, results: Results, extract: ExtractResult, e: ExistingDeveloper) {
    exists d <- extract.developers ::
      && d.inn == e.inn && AnsweredWith(oracle, results, "company:" + Decimal(d.id), e.crmId)
      && Succeeded(results, "requisite:" + Decimal(d.id))
  }

  ghost predicate GroupRecorded(oracle: Oracle, results: Results, extract: ExtractResult, e: ExistingCompanyGroup) {
    exists g <- extract.companyGroups ::
      g.id == e.sourceId && AnsweredWith(oracle, results, "group:" + Decimal(g.id), e.crmId)
  }

  lemma {:induction false} EntryMeaning<K>(candidates: seq<Candidate<K>>, results: Results, entry: (K, int))
    ensures entry in ConfirmedEntries(candidates, results) <==>
              exists k :: 0 <= k < |candidates| && EntryOf(candidates[k], results) == Some(entry)
  {
    var found := seq(|candidates|, i requires 0 <= i < |candidates| => EntryOf(candidates[i], results));
    var entries := ConfirmedEntries(candidates, results);
    if entry in entries {
      var i :| 0 <= i < |entries| && entries[i] == entry;
      var k := KeptFrom(found, i);
      assert found[k] == EntryOf(candidates[k], results);
    }
    if k :| 0 <= k < |candidates| && EntryOf(candidates[k], results) == Some(entry) {
      assert found[k] == Some(entry);
      var i := KeptAt(found, k);
    }
  }

  lemma {:induction false} ReturnedByCrm(oracle: Oracle, ops: seq<PlannedOperation>, id: string, crmId: int)
    ensures var results := RunPlan(oracle, ops).results;
            AnsweredWith(oracle, results, id, crmId) <==> Succeeded(results, id) && results[id].crmId == Some(crmId)
  {
    RunTellsOutcomes(oracle, ops);
    SuccessesComeFromCrm(oracle, ops, RunPlan(oracle, ops));
  }

  lemma {:induction false} LeadsRecorded(extract: ExtractResult, oracle: Oracle, ops: seq<PlannedOperation>,
      e: ExistingLead)
    ensures var results := RunPlan(oracle, ops).results;
            (e.sourceId, e.crmId) in ConfirmedEntries(LeadCandidates(extract.objects), results) <==>
              LeadRecorded(oracle, results, extract, e)
  {
    var candidates, results := LeadCandidates(extract.objects), RunPlan(oracle, ops).results;
    EntryMeaning(candidates, results, (e.sourceId, e.crmId));
    forall o | o in extract.objects
      ensures AnsweredWith(oracle, results, "lead:" + Decimal(o.id), e.crmId) <==>
                Succeeded(results, Render(Lead(o.id))) && results[Render(Lead(o.id))].crmId == Some(e.crmId)
    {
      ReturnedByCrm(oracle, ops, Render(Lead(o.id)), e.crmId);
    }
    if o :| o in extract.objects && o.id == e.sourceId
            && AnsweredWith(oracle, results, "lead:" + Decimal(o.id), e.crmId) {
      var k :| 0 <= k < |extract.objects| && extract.objects[k] == o;
      assert candidates[k] == Candidate(o.id, Lead(o.id), Lead(o.id));
      assert EntryOf(candidates[k], results) == Some((e.sourceId, e.crmId));
    }
    if k :| 0 <= k < |candidates| && EntryOf(candidates[k], results) == Some((e.sourceId, e.crmId)) {
      assert extract.objects[k] in extract.objects;
    }
  }

  lemma {:induction false} CompaniesRecorded(extract: ExtractResult, oracle: Oracle, ops: seq<PlannedOperation>,
      e: ExistingDeveloper)
    ensures var results := RunPlan(oracle, ops).results;
            (e.inn, e.crmId) in ConfirmedEntries(DeveloperCandidates(extract.developers), results) <==>
              CompanyRecorded(oracle, results, extract, e)
  {
    var candidates, results := DeveloperCandidates(extract.developers), RunPlan(oracle, ops).results;
    EntryMeaning(candidates, results, (e.inn, e.crmId));
    forall d | d in extract.developers
      ensures AnsweredWith(oracle, results, "company:" + Decimal(d.id), e.crmId) <==>
                Succeeded(results, Render(Company(d.id))) && results[Render(Company(d.id))].crmId == Some(e.crmId)
    {
      ReturnedByCrm(oracle, ops, Render(Company(d.id)), e.crmId);
    }
    if d :| d in extract.developers && d.inn == e.inn
            && AnsweredWith(oracle, results, "company:" + Decimal(d.id), e.crmId)
            && Succeeded(results, "requisite:" + Decimal(d.id)) {
      var k :| 0 <= k < |extract.developers| && extract.developers[k] == d;
      assert candidates[k] == Candidate(d.inn, Requisite(d.id), Company(d.id));
      assert Render(Requisite(d.id)) == "requisite:" + Decimal(d.id);
      assert EntryOf(candidates[k], results) == Some((e.inn, e.crmId));
    }
    if k :| 0 <= k < |candidates| && EntryOf(candidates[k], results) == Some((e.inn, e.crmId)) {
      assert extract.developers[k] in extract.developers;
      assert Render(Requisite(extract.developers[k].id)) == "requisite:" + Decimal(extract.developers[k].id);
    }
  }

  lemma {:induction false} GroupsRecorded(extract: ExtractResult, oracle: Oracle, ops: seq<PlannedOperation>,
      e: ExistingCompanyGroup)
    ensures var results := RunPlan(oracle, ops).results;
            (e.sourceId, e.crmId) in ConfirmedEntries(GroupCandidates(extract.companyGroups), results) <==>
              GroupRecorded(oracle, results, extract, e)
  {
    var candidates, results := GroupCandidates(extract.companyGroups), RunPlan(oracle, ops).results;
    EntryMeaning(candidates, results, (e.sourceId, e.crmId));
    forall g | g in extract.companyGroups
      ensures AnsweredWith(oracle, results, "group:" + Decimal(g.id), e.crmId) <==>
                Succeeded(results, Render(Group(g.id))) && results[Render(Group(g.id))].crmId == Some(e.crmId)
    {
      ReturnedByCrm(oracle, ops, Render(Group(g.id)), e.crmId);
    }
    if g :| g in extract.companyGroups && g.id == e.sourceId
            && AnsweredWith(oracle, results, "group:" + Decimal(g.id), e.crmId) {
      var k :| 0 <= k < |extract.companyGroups| && extract.companyGroups[k] == g;
      assert candidates[k] == Candidate(g.id, Group(g.id), Group(g.id));
      assert EntryOf(candidates[k], results) == Some((e.sourceId, e.crmId));
    }
    if k :| 0 <= k < |candidates| && EntryOf(candidates[k], results) == Some((e.sourceId, e.crmId)) {
      assert extract.companyGroups[k] in extract.companyGroups;
    }
  }

  lemma {:induction false} AppendedLeads(before: seq<ExistingLead>, pairs: seq<(int, int)>,
      after: seq<ExistingLead>, e: ExistingLead)
    requires after == before + seq(|pairs|, i requires 0 <= i < |pairs| => ExistingLead(pairs[i].0, pairs[i].1))
    ensures e in after <==> e in before || (e.sourceId, e.crmId) in pairs
  {
    var added := seq(|pairs|, i requires 0 <= i < |pairs| => ExistingLead(pairs[i].0, pairs[i].1));
    if i :| 0 <= i < |pairs| && pairs[i] == (e.sourceId, e.crmId) {
      assert added[i] == e;
    }
    if i :| 0 <= i < |added| && added[i] == e {
      assert pairs[i] == (e.sourceId, e.crmId);
    }
  }

  lemma {:induction false} LeadsAfterLoad(context: CrmContext, extract: ExtractResult, results: Results,
      e: ExistingLead)
    ensures e in AfterLoad(context, extract, results).existing.leads <==>
              || e in context.existing.leads
              || (e.sourceId, e.crmId) in ConfirmedEntries(LeadCandidates(extract.objects), results)
  {
    AppendedLeads(context.existing.leads, ConfirmedEntries(LeadCandidates(extract.objects), results),
                  AfterLoad(context, extract, results).existing.leads, e);
  }

  lemma {:induction false} AppendedCompanies(before: seq<ExistingDeveloper>, pairs: seq<(string, int)>,
      after: seq<ExistingDeveloper>, e: ExistingDeveloper)
    requires after == before + seq(|pairs|, i requires 0 <= i < |pairs| => ExistingDeveloper(pairs[i].0, pairs[i].1))
    ensures e in after <==> e in before || (e.inn, e.crmId) in pairs
  {
    var added := seq(|pairs|, i requires 0 <= i < |pairs| => ExistingDeveloper(pairs[i].0, pairs[i].1));
    if i :| 0 <= i < |pairs| && pairs[i] == (e.inn, e.crmId) {
      assert added[i] == e;
    }
    if i :| 0 <= i < |added| && added[i] == e {
      assert pairs[i] == (e.inn, e.crmId);
    }
  }

  lemma {:induction false} CompaniesAfterLoad(context: CrmContext, extract: ExtractResult, results: Results,
      e: ExistingDeveloper)
    ensures e in AfterLoad(context, extract, results).existing.developers <==>
              || e in context.existing.developers
              || (e.inn, e.crmId) in ConfirmedEntries(DeveloperCandidates(extract.developers), results)
  {
    AppendedCompanies(context.existing.developers, ConfirmedEntries(DeveloperCandidates(extract.developers), results),
                  AfterLoad(context, extract, results).existing.developers, e);
  }

  lemma {:induction false} AppendedGroups(before: seq<ExistingCompanyGroup>, pairs: seq<(int, int)>,
      after: seq<ExistingCompanyGroup>, e: ExistingCompanyGroup)
    requires after == before + seq(|pairs|, i requires 0 <= i < |pairs| => ExistingCompanyGroup(pairs[i].0, pairs[i].1))
    ensures e in after <==> e in before || (e.sourceId, e.crmId) in pairs
  {
    var added := seq(|pairs|, i requires 0 <= i < |pairs| => ExistingCompanyGroup(pairs[i].0, pairs[i].1));
    if i :| 0 <= i < |pairs| && pairs[i] == (e.sourceId, e.crmId) {
      assert added[i] == e;
    }
    if i :| 0 <= i < |added| && added[i] == e {
      assert pairs[i] == (e.sourceId, e.crmId);
    }
  }

  lemma {:induction false} GroupsAfterLoad(context: CrmContext, extract: ExtractResult, results: Results,
      e: ExistingCompanyGroup)
    ensures e in AfterLoad(context, extract, results).existing.companyGroups <==>
              || e in context.existing.companyGroups
              || (e.sourceId, e.crmId) in ConfirmedEntries(GroupCandidates(extract.companyGroups), results)
  {
    AppendedGroups(context.existing.companyGroups, ConfirmedEntries(GroupCandidates(extract.companyGroups), results),
                  AfterLoad(context, extract, results).existing.companyGroups, e);
  }

  /**
   * The next run finds, besides what the CRM had, exactly the leads and groups this load created and the companies
   * whose requisites it created too, each with the id the CRM returned. Nothing else of the context changes.
   */
  lemma {:induction false} AfterLoadMeaning(extract: ExtractResult, context: CrmContext, oracle: Oracle,
      ops: seq<PlannedOperation>)
    ensures var results := RunPlan(oracle, ops).results;
            var before, after := context.existing, AfterLoad(context, extract, results).existing;
            && AfterLoad(context, extract, results) == context.(existing := after)
            && (forall e :: e in after.leads <==> e in before.leads || LeadRecorded(oracle, results, extract, e))
            && (forall e :: e in after.developers <==>
                  e in before.developers || CompanyRecorded(oracle, results, extract, e))
            && (forall e :: e in after.companyGroups <==>
                  e in before.companyGroups || GroupRecorded(oracle, results, extract, e))
  {
    var results := RunPlan(oracle, ops).results;
    forall e
      ensures e in AfterLoad(context, extract, results).existing.leads <==>
                e in context.existing.leads || LeadRecorded(oracle, results, extract, e)
    {
      LeadsAfterLoad(context, extract, results, e);
      LeadsRecorded(extract, oracle, ops, e);
    }
    forall e
      ensures e in AfterLoad(context, extract, results).existing.developers <==>
                e in context.existing.developers || CompanyRecorded(oracle, results, extract, e)
    {
      CompaniesAfterLoad(context, extract, results, e);
      CompaniesRecorded(extract, oracle, ops, e);
    }
    forall e
      ensures e in AfterLoad(context, extract, results).existing.companyGroups <==>
                e in context.existing.companyGroups || GroupRecorded(oracle, results, extract, e)
    {
      GroupsAfterLoad(context, extract, results, e);
      GroupsRecorded(extract, oracle, ops, e);
    }
  }
}
