/** Any number of loads, one after the other, each of the plan made from what the earlier ones left in the CRM. */
module RepeatedLoads {
  import opened Wrappers
  import opened Contracts
  import opened OperationIds
  import opened Transformer
  import opened PlanValidator
  import opened PlanExecutor
  import opened CompiledPlans
  import opened Execution
  import opened ExecutionGuarantees
  import opened LeadCompleteness
  import opened Resume
  import opened ResumePlan
  import opened ResumedRuns

  /** Loads one after the other, from a context on: what the CRM answered in each. */
  datatype Loads = Start(context: CrmContext) | Then(earlier: Loads, oracle: Oracle)

  /** The results of loading the plan of a context; none if there is no plan. */
  function LoadResults(extract: ExtractResult, context: CrmContext, settings: RegionSettings, oracle: Oracle): Results {
    var plan := Transform(extract, context, settings);
    if plan.Ok? then RunPlan(oracle, plan.value).results else map[]
  }

  function AfterOne(extract: ExtractResult, context: CrmContext, settings: RegionSettings, oracle: Oracle): CrmContext {
    AfterLoad(context, extract, LoadResults(extract, context, settings, oracle))
  }

  function FirstContext(loads: Loads): CrmContext {
    match loads
    case Start(context) => context
    case Then(earlier, _) => FirstContext(earlier)
  }

  /** The context the loads leave. */
  function ContextAfter(extract: ExtractResult, settings: RegionSettings, loads: Loads): CrmContext
    decreases loads
  {
    match loads
    case Start(context) => context
    case Then(earlier, oracle) => AfterOne(extract, ContextAfter(extract, settings, earlier), settings, oracle)
  }

  /** The operation succeeded in some load. */
  ghost predicate SucceededIn(extract: ExtractResult, settings: RegionSettings, loads: Loads, key: OperationKey)
    decreases loads
  {
    match loads
    case Start(_) => false
    case Then(earlier, oracle) =>
      || SucceededIn(extract, settings, earlier, key)
      || Succeeded(LoadResults(extract, ContextAfter(extract, settings, earlier), settings, oracle), Render(key))
  }

  // ----- every plan is sound -----

  ghost predicate SoundAt(extract: ExtractResult, context: CrmContext, settings: RegionSettings) {
    && WellFormedContext(context) && Transform(extract, context, settings).Ok?
    && Accepted(context.structure, Transform(extract, context, settings).value)
    && NeverStuck(Transform(extract, context, settings).value)
  }

  lemma {:induction false} SoundAfterLoad(extract: ExtractResult, context: CrmContext, settings: RegionSettings,
      oracle: Oracle)
    requires WellFormedContext(context) && Transform(extract, context, settings).Ok?
    ensures SoundAt(extract, AfterOne(extract, context, settings, oracle), settings)
  {
    AfterLoadIsWellFormed(context, extract, oracle, Transform(extract, context, settings).value);
    NextPlanIsSound(extract, context, settings, oracle);
  }

  /** After any number of loads the context is well formed, and the next plan exists, is accepted and never stuck. */
  lemma {:induction false} EveryPlanIsSound(extract: ExtractResult, settings: RegionSettings, loads: Loads)
    requires WellFormedContext(FirstContext(loads)) && Transform(extract, FirstContext(loads), settings).Ok?
    ensures SoundAt(extract, ContextAfter(extract, settings, loads), settings)
    decreases loads
  {
    match loads
    case Start(context) =>
      CompiledPlanAccepted(extract, context, settings);
      CompiledPlanNeverStuck(extract, context, settings);
    case Then(earlier, oracle) =>
      EveryPlanIsSound(extract, settings, earlier);
      SoundAfterLoad(extract, ContextAfter(extract, settings, earlier), settings, oracle);
  }

  // ----- what is planned after any number of loads -----

  /** There is a plan, and it has the operation. */
  ghost predicate PlannedAt(extract: ExtractResult, context: CrmContext, settings: RegionSettings, key: OperationKey) {
    Transform(extract, context, settings).Ok? && Render(key) in Ids(Transform(extract, context, settings).value)
  }

  lemma {:induction false} PlannedAfterLoad(extract: ExtractResult, context: CrmContext, settings: RegionSettings,
      oracle: Oracle, key: OperationKey)
    requires Transform(extract, context, settings).Ok?
    ensures Transform(extract, AfterOne(extract, context, settings, oracle), settings).Ok?
    ensures PlannedAt(extract, AfterOne(extract, context, settings, oracle), settings, key) <==>
              && PlannedAt(extract, context, settings, key)
              && !Succeeded(LoadResults(extract, context, settings, oracle), Render(ConfirmedBy(key)))
  {
    PlannedAgainUnlessRecorded(extract, context, settings, oracle, key);
  }

  /**
   * After any number of loads, an operation is planned if and only if the first plan had it and none of the loads
   * recorded it.
   */
  lemma {:induction false} PlannedUntilRecorded(extract: ExtractResult, settings: RegionSettings, loads: Loads,
      key: OperationKey)
    requires Transform(extract, FirstContext(loads), settings).Ok?
    ensures Transform(extract, ContextAfter(extract, settings, loads), settings).Ok?
    ensures PlannedAt(extract, ContextAfter(extract, settings, loads), settings, key) <==>
              && PlannedAt(extract, FirstContext(loads), settings, key)
              && !SucceededIn(extract, settings, loads, ConfirmedBy(key))
    decreases loads
  {
    match loads
    case Start(_) =>
    case Then(earlier, oracle) =>
      PlannedUntilRecorded(extract, settings, earlier, key);
      PlannedAfterLoad(extract, ContextAfter(extract, settings, earlier), settings, oracle, key);
  }

  // ----- nothing is created twice -----

  /** What succeeded in a load was in its plan, and counts as done unless it is a company without its requisite. */
  lemma {:induction false} LoadedIsRecorded(extract: ExtractResult, context: CrmContext, settings: RegionSettings,
      oracle: Oracle, key: OperationKey)
    requires Transform(extract, context, settings).Ok?
    requires Succeeded(LoadResults(extract, context, settings, oracle), Render(key))
    ensures PlannedAt(extract, context, settings, key)
    ensures key.Company? || Succeeded(LoadResults(extract, context, settings, oracle), Render(ConfirmedBy(key)))
  {
    var plan := Transform(extract, context, settings).value;
    LoadedByPlan(extract, context, settings, oracle);
    SucceededIsRecorded(Prepare(extract, context, settings).value, context, settings, oracle, plan,
                        Completed(oracle, plan), key);
  }

  /** What succeeded in some load was recorded by it, unless it is a company. */
  lemma {:induction false} SucceededWasRecorded(extract: ExtractResult, settings: RegionSettings, loads: Loads,
      key: OperationKey)
    requires Transform(extract, FirstContext(loads), settings).Ok? && SucceededIn(extract, settings, loads, key)
    ensures key.Company? || SucceededIn(extract, settings, loads, ConfirmedBy(key))
    decreases loads
  {
    var Then(earlier, oracle) := loads;
    if SucceededIn(extract, settings, earlier, key) {
      SucceededWasRecorded(extract, settings, earlier, key);
    } else {
      PlannedUntilRecorded(extract, settings, earlier, key);
      LoadedIsRecorded(extract, ContextAfter(extract, settings, earlier), settings, oracle, key);
    }
  }

  /**
   * Over any number of loads nothing is created twice, except a company while none of the loads has created its
   * requisite.
   */
  lemma {:induction false} CreatedOnce(extract: ExtractResult, settings: RegionSettings, loads: Loads, oracle: Oracle,
      key: OperationKey)
    requires Transform(extract, FirstContext(loads), settings).Ok? && SucceededIn(extract, settings, loads, key)
    requires Succeeded(LoadResults(extract, ContextAfter(extract, settings, loads), settings, oracle), Render(key))
    ensures key.Company? && !SucceededIn(extract, settings, loads, Requisite(key.developer))
  {
    PlannedUntilRecorded(extract, settings, loads, key);
    LoadedIsRecorded(extract, ContextAfter(extract, settings, loads), settings, oracle, key);
    SucceededWasRecorded(extract, settings, loads, key);
  }

  // ----- the end -----

  /** There is a plan, and every operation of it succeeds. */
  ghost predicate AllSucceed(extract: ExtractResult, context: CrmContext, settings: RegionSettings, oracle: Oracle) {
    && Transform(extract, context, settings).Ok?
    && forall op :: op in Transform(extract, context, settings).value ==>
         Succeeded(LoadResults(extract, context, settings, oracle), op.id)
  }

  /** Some load succeeded throughout. */
  ghost predicate FinishedIn(extract: ExtractResult, settings: RegionSettings, loads: Loads)
    decreases loads
  {
    match loads
    case Start(_) => false
    case Then(earlier, oracle) =>
      || FinishedIn(extract, settings, earlier)
      || AllSucceed(extract, ContextAfter(extract, settings, earlier), settings, oracle)
  }

  lemma {:induction false} NothingAfterSuccess(extract: ExtractResult, context: CrmContext, settings: RegionSettings,
      oracle: Oracle)
    requires AllSucceed(extract, context, settings, oracle)
    ensures Transform(extract, AfterOne(extract, context, settings, oracle), settings) == Ok([])
  {
    FullSuccessLeavesNothing(extract, context, settings, oracle);
  }

  lemma {:induction false} EmptyPlanSucceeds(extract: ExtractResult, context: CrmContext, settings: RegionSettings,
      oracle: Oracle)
    requires Transform(extract, context, settings) == Ok([])
    ensures AllSucceed(extract, context, settings, oracle)
  {
  }

  /** Once a load has succeeded throughout, every later plan is empty. */
  lemma {:induction false} NothingLeftForEver(extract: ExtractResult, settings: RegionSettings, loads: Loads)
    requires FinishedIn(extract, settings, loads)
    ensures Transform(extract, ContextAfter(extract, settings, loads), settings) == Ok([])
    decreases loads
  {
    var Then(earlier, oracle) := loads;
    if FinishedIn(extract, settings, earlier) {
      NothingLeftForEver(extract, settings, earlier);
      EmptyPlanSucceeds(extract, ContextAfter(extract, settings, earlier), settings, oracle);
    }
    NothingAfterSuccess(extract, ContextAfter(extract, settings, earlier), settings, oracle);
  }
}
