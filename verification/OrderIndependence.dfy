/** The order in which extract and CRM list their records never influences the plan. */
module OrderIndependence {
  import opened Wrappers
  import opened Contracts
  import opened Transformer
  import opened Indexing

  /** The same records, listed in any other order. */
  ghost predicate SameExtract(a: ExtractResult, b: ExtractResult) {
    Permuted(a.objects, b.objects) && Permuted(a.developers, b.developers) && Permuted(a.companyGroups, b.companyGroups)
  }

  ghost predicate SameContext(a: CrmContext, b: CrmContext) {
    && a.structure == b.structure && a.references == b.references
    && Permuted(a.existing.leads, b.existing.leads) && Permuted(a.existing.developers, b.existing.developers)
    && Permuted(a.existing.companyGroups, b.existing.companyGroups) && Permuted(a.managers, b.managers)
  }

  lemma {:induction false} SameExtractIndexes(a: ExtractResult, b: ExtractResult)
    requires SameExtract(a, b)
    ensures IndexOf(DeveloperEntries(a.developers)) == IndexOf(DeveloperEntries(b.developers))
    ensures IndexOf(GroupEntries(a.companyGroups)) == IndexOf(GroupEntries(b.companyGroups))
    ensures IndexOf(ObjectEntries(a.objects)) == IndexOf(ObjectEntries(b.objects))
  {
    var p, q :| Rearranges(p, q, a.developers, b.developers);
    IndexIgnoresOrder(p, q, DeveloperEntries(a.developers), DeveloperEntries(b.developers));
    p, q :| Rearranges(p, q, a.companyGroups, b.companyGroups);
    IndexIgnoresOrder(p, q, GroupEntries(a.companyGroups), GroupEntries(b.companyGroups));
    p, q :| Rearranges(p, q, a.objects, b.objects);
    IndexIgnoresOrder(p, q, ObjectEntries(a.objects), ObjectEntries(b.objects));
  }

  lemma {:induction false} SameLeads(a: seq<ExistingLead>, b: seq<ExistingLead>)
    requires Permuted(a, b)
    ensures IndexOf(LeadEntries(a)) == IndexOf(LeadEntries(b))
  {
    var p, q :| Rearranges(p, q, a, b);
    IndexIgnoresOrder(p, q, LeadEntries(a), LeadEntries(b));
  }

  lemma {:induction false} SameGroups(a: seq<ExistingCompanyGroup>, b: seq<ExistingCompanyGroup>)
    requires Permuted(a, b)
    ensures IndexOf(ExistingGroupEntries(a)) == IndexOf(ExistingGroupEntries(b))
  {
    var p, q :| Rearranges(p, q, a, b);
    IndexIgnoresOrder(p, q, ExistingGroupEntries(a), ExistingGroupEntries(b));
  }

  lemma {:induction false} SameDevelopers(a: seq<ExistingDeveloper>, b: seq<ExistingDeveloper>)
    requires Permuted(a, b)
    ensures IndexOf(ExistingDeveloperEntries(a)) == IndexOf(ExistingDeveloperEntries(b))
  {
    var p, q :| Rearranges(p, q, a, b);
    IndexIgnoresOrder(p, q, ExistingDeveloperEntries(a), ExistingDeveloperEntries(b));
  }

  lemma {:induction false} SameManagers(a: seq<Employee>, b: seq<Employee>)
    requires Permuted(a, b)
    ensures IndexOf(ManagerEntries(a)) == IndexOf(ManagerEntries(b))
  {
    var p, q :| Rearranges(p, q, a, b);
    IndexIgnoresOrder(p, q, ManagerEntries(a), ManagerEntries(b));
  }

  lemma {:induction false} SameExisting(a: CrmContext, b: CrmContext)
    requires SameContext(a, b)
    ensures IndexOf(LeadEntries(a.existing.leads)) == IndexOf(LeadEntries(b.existing.leads))
    ensures IndexOf(ExistingGroupEntries(a.existing.companyGroups))
            == IndexOf(ExistingGroupEntries(b.existing.companyGroups))
    ensures IndexOf(ExistingDeveloperEntries(a.existing.developers))
            == IndexOf(ExistingDeveloperEntries(b.existing.developers))
    ensures IndexOf(ManagerEntries(a.managers)) == IndexOf(ManagerEntries(b.managers))
  {
    SameLeads(a.existing.leads, b.existing.leads);
    SameGroups(a.existing.companyGroups, b.existing.companyGroups);
    SameDevelopers(a.existing.developers, b.existing.developers);
    SameManagers(a.managers, b.managers);
  }

  /** Operations read a context's structure and references only; everything else comes from the indexes. */
  lemma {:induction false} OperationReadsIndexes(item: PlanItem, indexes: Indexes, a: CrmContext, b: CrmContext,
      settings: RegionSettings)
    requires ManagersKnown(settings, indexes) && Plannable(item, indexes)
    requires a.structure == b.structure && a.references == b.references
    ensures OperationOf(item, indexes, a, settings) == OperationOf(item, indexes, b, settings)
  {
    match item
    case GroupItem(_) =>
    case CompanyItem(d) => assert Multifields(d, a) == Multifields(d, b);
    case RequisiteItem(_) =>
    case ActualAddressItem(_) =>
    case LegalAddressItem(_) =>
    case LeadItem(o) => assert LeadBasePayload(o, indexes, a, settings) == LeadBasePayload(o, indexes, b, settings);
  }

  /** Permuting any input list gives the identical plan, or the identical failure. */
  lemma {:induction false} TransformIgnoresOrder(extract: ExtractResult, extract': ExtractResult, context: CrmContext,
      context': CrmContext, settings: RegionSettings)
    requires SameExtract(extract, extract') && SameContext(context, context')
    ensures Transform(extract, context, settings) == Transform(extract', context', settings)
  {
    SameExtractIndexes(extract, extract');
    SameExisting(context, context');
    assert Prepare(extract, context, settings) == Prepare(extract', context', settings);
    if Prepare(extract, context, settings).Ok? {
      var draft := Prepare(extract, context, settings).value;
      PreparedIsPlannable(extract, context, settings);
      forall i | 0 <= i < |Items(draft)|
        ensures OperationOf(Items(draft)[i], draft.indexes, context, settings)
                == OperationOf(Items(draft)[i], draft.indexes, context', settings)
      {
        OperationReadsIndexes(Items(draft)[i], draft.indexes, context, context', settings);
      }
      assert Operations(Items(draft), draft.indexes, context, settings)
             == Operations(Items(draft), draft.indexes, context', settings);
    }
  }
}
