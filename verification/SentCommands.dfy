/** What the CRM is told and what it answers: every command sent and every result kept, in any run of any plan. */
module SentCommands {
  import opened Wrappers
  import opened Text
  import opened Json
  import opened Contracts
  import opened Transformer
  import opened PlanValidator
  import opened PlanExecutor
  import opened CompiledPlans
  import opened Execution
  import opened LeadCompleteness
  import opened PlannedCommands

  // ----- the result of an operation is the CRM's answer to its command -----

  ghost predicate Reports(result: OperationResult, answer: CrmResponse, command: CrmCommand) {
    match answer
    case Created(n) =>
      && result.status == Success && result.errorType == None
      && result.crmId == (if command.AddAddress? then None else Some(n))
    case RequestFailed =>
      result.status == Failed && result.crmId == None && result.errorType == Some(RequestFailedError)
    case RequestUnknown =>
      result.status == Unknown && result.crmId == None && result.errorType == Some(RequestUnknownError)
    case GatewayError => false
  }

  ghost predicate TellsOutcome(oracle: Oracle, op: PlannedOperation, run: Run) {
    && op.id in run.results
    && var result := run.results[op.id];
    && result.operationId == op.id
    && if SentWithin(run.sent, |run.sent|, op.id)
       then Reports(result, oracle(op.id), op.command) && result.blockedBy == []
       else result.status == Blocked && result.crmId == None && result.errorType == None && result.blockedBy != []
  }

  // ----- the command of an operation, with the ids the CRM returned filled in -----

  /** No binding among the first `n` after `k` writes the same field. */
  ghost predicate WritesLast(bindings: seq<RuntimeBinding>, k: nat, n: nat)
    requires k < n <= |bindings|
  {
    forall l :: k < l < n ==> bindings[l].field != bindings[k].field
  }

  /** The first `n` bound fields hold the ids the CRM returned for their sources; the others are as planned. */
  ghost predicate Filled(fields: Fields, op: PlannedOperation, n: nat, oracle: Oracle)
    requires n <= |op.bindings|
  {
    && (forall k :: 0 <= k < n && WritesLast(op.bindings, k, n) ==>
          && oracle(op.bindings[k].source).Created?
          && Get(fields, op.bindings[k].field) == Some(JInt(oracle(op.bindings[k].source).crmId)))
    && (forall name :: (forall k :: 0 <= k < n ==> op.bindings[k].field != name) ==>
          Get(fields, name) == Get(op.command.fields, name))
  }

  /** The same kind of command with the bound fields filled in. */
  ghost predicate Instantiates(command: CrmCommand, op: PlannedOperation, oracle: Oracle) {
    && (command.AddItem? <==> op.command.AddItem?)
    && (command.AddRequisite? <==> op.command.AddRequisite?)
    && (op.command.AddItem? ==> command.AddItem? && command.entityTypeId == op.command.entityTypeId)
    && Filled(command.fields, op, |op.bindings|, oracle)
  }

  /** The CRM carried out a command sent before position `p`. */
  ghost predicate CreatedWithin(sent: seq<SentCommand>, p: nat, id: string, oracle: Oracle)
    requires p <= |sent|
  {
    oracle(id).Created? && SentWithin(sent, p, id)
  }

  /** Whatever the operation waits for or takes an id from was carried out before. */
  ghost predicate NeedsMet(op: PlannedOperation, sent: seq<SentCommand>, p: nat, oracle: Oracle)
    requires p <= |sent|
  {
    && (forall id <- op.dependencies :: CreatedWithin(sent, p, id, oracle))
    && (forall binding <- op.bindings :: CreatedWithin(sent, p, binding.source, oracle))
  }

  /** The command at position `p` is that of an operation, after everything it needs. */
  ghost predicate SentFrom(oracle: Oracle, ops: seq<PlannedOperation>, sent: seq<SentCommand>, p: nat)
    requires p < |sent|
  {
    exists op <- ops ::
      sent[p].operationId == op.id && Instantiates(sent[p].command, op, oracle) && NeedsMet(op, sent, p, oracle)
  }

  // ----- resolution -----

  /** Successes and ids come from the CRM's answers to commands that were sent. */
  ghost predicate SuccessesReturned(results: Results, sent: seq<SentCommand>, oracle: Oracle) {
    forall id :: Succeeded(results, id) ==>
      && CreatedWithin(sent, |sent|, id, oracle)
      && (results[id].crmId.Some? ==> oracle(id).crmId == results[id].crmId.value)
  }

  lemma {:induction false} FieldsFilled(op: PlannedOperation, n: nat, results: Results, sent: seq<SentCommand>,
      oracle: Oracle)
    requires n <= |op.bindings| && ResolveFields(op, n, results).Ok? && SuccessesReturned(results, sent, oracle)
    ensures Filled(ResolveFields(op, n, results).value, op, n, oracle)
    decreases n
  {
    if n > 0 {
      FieldsFilled(op, n - 1, results, sent, oracle);
      var before := ResolveFields(op, n - 1, results).value;
      assert Succeeded(results, op.bindings[n - 1].source);
      OneMoreFilled(before, op, n, results[op.bindings[n - 1].source].crmId.value, oracle);
    }
  }

  lemma {:induction false} OneMoreFilled(before: Fields, op: PlannedOperation, n: nat, value: int, oracle: Oracle)
    requires 0 < n <= |op.bindings| && Filled(before, op, n - 1, oracle)
    requires oracle(op.bindings[n - 1].source).Created? && oracle(op.bindings[n - 1].source).crmId == value
    ensures Filled(before[op.bindings[n - 1].field := JInt(value)], op, n, oracle)
  {
    var fields := before[op.bindings[n - 1].field := JInt(value)];
    forall k | 0 <= k < n && WritesLast(op.bindings, k, n)
      ensures oracle(op.bindings[k].source).Created?
      ensures Get(fields, op.bindings[k].field) == Some(JInt(oracle(op.bindings[k].source).crmId))
    {
      assert k < n - 1 ==> WritesLast(op.bindings, k, n - 1);
    }
    forall name | forall k :: 0 <= k < n ==> op.bindings[k].field != name
      ensures Get(fields, name) == Get(op.command.fields, name)
    {
      assert name != op.bindings[n - 1].field;
    }
  }

  lemma {:induction false} UnblockedNeedsMet(op: PlannedOperation, results: Results, sent: seq<SentCommand>,
      oracle: Oracle)
    requires Blockers(DirectDependencies(op), results) == [] && SuccessesReturned(results, sent, oracle)
    ensures NeedsMet(op, sent, |sent|, oracle)
  {
    DirectDependenciesMeaning(op);
    DependenciesSucceeded(op, results);
  }

  lemma {:induction false} StepSends(oracle: Oracle, before: Run, op: PlannedOperation)
    requires SuccessesReturned(before.results, before.sent, oracle)
    ensures SendsOnly(oracle, op, before.sent, Step(oracle, before, op).sent)
  {
    if Blockers(DirectDependencies(op), before.results) == [] && Resolve(op, before.results).Ok? {
      UnblockedNeedsMet(op, before.results, before.sent, oracle);
      FieldsFilled(op, |op.bindings|, before.results, before.sent, oracle);
    }
  }

  /** At most the operation's own command was added. */
  ghost predicate SendsOnly(oracle: Oracle, op: PlannedOperation, before: seq<SentCommand>, after: seq<SentCommand>) {
    && before <= after && |after| <= |before| + 1
    && (|after| > |before| ==>
          && after[|before|].operationId == op.id
          && Instantiates(after[|before|].command, op, oracle)
          && NeedsMet(op, before, |before|, oracle))
  }

  // ----- every run -----

  ghost predicate AllTold(oracle: Oracle, ops: seq<PlannedOperation>, run: Run) {
    && |run.order| <= |ops| && (run.stopped.None? ==> |run.order| == |ops|)
    && (forall i :: 0 <= i < |run.order| ==> run.order[i] == ops[i].id && TellsOutcome(oracle, ops[i], run))
    && (forall id <- run.results :: id in run.order)
  }

  ghost predicate AllFromPlan(oracle: Oracle, ops: seq<PlannedOperation>, sent: seq<SentCommand>) {
    forall p :: 0 <= p < |sent| ==> SentFrom(oracle, ops, sent, p)
  }

  /**
   * In any run, aborted or not, the results are those of the first operations of the plan: each that was sent tells
   * the CRM's answer to it, each that was not is blocked. Every command sent is that of an operation of the plan,
   * and what it binds are the ids the CRM returned for commands sent before it.
   */
  lemma {:induction false} RunTellsOutcomes(oracle: Oracle, ops: seq<PlannedOperation>)
    ensures AllTold(oracle, ops, RunPlan(oracle, ops)) && AllFromPlan(oracle, ops, RunPlan(oracle, ops).sent)
    decreases |ops|
  {
    if ops != [] {
      var head, last := ops[..|ops| - 1], ops[|ops| - 1];
      RunTellsOutcomes(oracle, head);
      assert ops == head + [last];
      StepTellsOutcome(oracle, RunPlan(oracle, head), head, last);
    }
  }

  lemma {:induction false} StepTellsOutcome(oracle: Oracle, before: Run, head: seq<PlannedOperation>,
      last: PlannedOperation)
    requires AllTold(oracle, head, before) && AllFromPlan(oracle, head, before.sent)
    ensures AllTold(oracle, head + [last], Step(oracle, before, last))
    ensures AllFromPlan(oracle, head + [last], Step(oracle, before, last).sent)
  {
    var after := Step(oracle, before, last);
    SuccessesComeFromCrm(oracle, head, before);
    StepSends(oracle, before, last);
    StaysFromPlan(oracle, head, last, before.sent, after.sent);
    if before.stopped.None? {
      SentHaveResults(oracle, head, before);
      StepAdds(oracle, before, last);
      StaysTold(oracle, head, last, before, after);
    } else {
      forall i | 0 <= i < |before.order|
        ensures TellsOutcome(oracle, (head + [last])[i], after)
      {
        assert (head + [last])[i] == head[i];
      }
    }
  }

  /** What a step may do: send the command of an operation without result, and then record its result. */
  ghost predicate Adds(oracle: Oracle, before: Run, op: PlannedOperation, after: Run) {
    && before.sent <= after.sent && |after.sent| <= |before.sent| + 1
    && (after.sent != before.sent ==> op.id !in before.results && after.sent[|before.sent|].operationId == op.id)
    && if after.stopped.Some? then after.results == before.results && after.order == before.order
       else
         && op.id !in before.results && op.id in after.results
         && after.results == before.results[op.id := after.results[op.id]] && after.order == before.order + [op.id]
         && var result := after.results[op.id];
         && result.operationId == op.id
         && if after.sent != before.sent
            then Reports(result, oracle(op.id), op.command) && result.blockedBy == []
            else result.status == Blocked && result.crmId == None && result.errorType == None && result.blockedBy != []
  }

  lemma {:induction false} StepAdds(oracle: Oracle, before: Run, op: PlannedOperation)
    requires before.stopped.None?
    ensures Adds(oracle, before, op, Step(oracle, before, op))
  {
  }

  /** While a run goes on, whatever was sent has its result. */
  lemma {:induction false} SentHaveResults(oracle: Oracle, ops: seq<PlannedOperation>, run: Run)
    requires AllTold(oracle, ops, run) && AllFromPlan(oracle, ops, run.sent) && run.stopped.None?
    ensures forall q :: 0 <= q < |run.sent| ==> run.sent[q].operationId in run.results
  {
    forall q | 0 <= q < |run.sent|
      ensures run.sent[q].operationId in run.results
    {
      assert SentFrom(oracle, ops, run.sent, q);
      var i :| 0 <= i < |ops| && ops[i].id == run.sent[q].operationId;
      assert TellsOutcome(oracle, ops[i], run);
    }
  }

  lemma {:induction false} StaysTold(oracle: Oracle, head: seq<PlannedOperation>, last: PlannedOperation, before: Run,
      after: Run)
    requires AllTold(oracle, head, before) && before.stopped.None? && Adds(oracle, before, last, after)
    requires forall q :: 0 <= q < |before.sent| ==> before.sent[q].operationId in before.results
    ensures AllTold(oracle, head + [last], after)
  {
    var ops := head + [last];
    forall i | 0 <= i < |after.order|
      ensures after.order[i] == ops[i].id && TellsOutcome(oracle, ops[i], after)
    {
      if i < |before.order| {
        assert TellsOutcome(oracle, head[i], before);
        SentUnlessNew(before, last, after, ops[i].id);
      } else {
        NewSent(before, last, after);
      }
    }
  }

  lemma {:induction false} SentUnlessNew(before: Run, op: PlannedOperation, after: Run, id: string)
    requires before.sent <= after.sent && |after.sent| <= |before.sent| + 1
    requires |after.sent| > |before.sent| ==> after.sent[|before.sent|].operationId == op.id && id != op.id
    ensures SentWithin(before.sent, |before.sent|, id) <==> SentWithin(after.sent, |after.sent|, id)
  {
    if q :| 0 <= q < |before.sent| && before.sent[q].operationId == id {
      assert after.sent[q].operationId == id;
    }
    if q :| 0 <= q < |after.sent| && after.sent[q].operationId == id {
      assert before.sent[q].operationId == id;
    }
  }

  lemma {:induction false} NewSent(before: Run, op: PlannedOperation, after: Run)
    requires before.sent <= after.sent && |after.sent| <= |before.sent| + 1
    requires |after.sent| > |before.sent| ==> after.sent[|before.sent|].operationId == op.id
    requires op.id !in before.results
    requires forall q :: 0 <= q < |before.sent| ==> before.sent[q].operationId in before.results
    ensures SentWithin(after.sent, |after.sent|, op.id) <==> after.sent != before.sent
  {
  }

  lemma {:induction false} StaysFromPlan(oracle: Oracle, head: seq<PlannedOperation>, last: PlannedOperation,
      before: seq<SentCommand>, after: seq<SentCommand>)
    requires AllFromPlan(oracle, head, before) && SendsOnly(oracle, last, before, after)
    ensures AllFromPlan(oracle, head + [last], after)
  {
    forall p | 0 <= p < |after|
      ensures SentFrom(oracle, head + [last], after, p)
    {
      if p < |before| {
        assert SentFrom(oracle, head, before, p);
        var op :| op in head && before[p].operationId == op.id && Instantiates(before[p].command, op, oracle)
                  && NeedsMet(op, before, p, oracle);
        NeedsStayMet(op, before, after, p, oracle);
        assert op in head + [last];
      } else {
        NeedsStayMet(last, before, after, p, oracle);
        assert last in head + [last];
      }
    }
  }

  lemma {:induction false} NeedsStayMet(op: PlannedOperation, before: seq<SentCommand>, after: seq<SentCommand>, p: nat,
      oracle: Oracle)
    requires p <= |before| && before <= after && NeedsMet(op, before, p, oracle)
    ensures NeedsMet(op, after, p, oracle)
  {
    forall id | SentWithin(before, p, id)
      ensures SentWithin(after, p, id)
    {
      var q :| 0 <= q < p && before[q].operationId == id;
      assert after[q].operationId == id;
    }
  }

  lemma {:induction false} SuccessesComeFromCrm(oracle: Oracle, ops: seq<PlannedOperation>, run: Run)
    requires AllTold(oracle, ops, run)
    ensures SuccessesReturned(run.results, run.sent, oracle)
  {
    forall id | Succeeded(run.results, id)
      ensures CreatedWithin(run.sent, |run.sent|, id, oracle)
      ensures run.results[id].crmId.Some? ==> oracle(id).crmId == run.results[id].crmId.value
    {
      var i :| 0 <= i < |run.order| && run.order[i] == id;
      assert TellsOutcome(oracle, ops[i], run);
    }
  }

  // ----- why a run stops -----

  /** Position `k` holds the first of them without a result. */
  ghost predicate FirstWithoutResult(dependencies: seq<string>, k: nat, results: Results) {
    && k < |dependencies| && dependencies[k] !in results
    && forall i :: 0 <= i < k ==> dependencies[i] in results
  }

  lemma {:induction false} FirstMissingIsFirst(dependencies: seq<string>, results: Results) returns (k: nat)
    requires FirstMissing(dependencies, results).Some?
    ensures FirstWithoutResult(dependencies, k, results)
    ensures FirstMissing(dependencies, results) == Some(dependencies[k])
  {
    k := 0;
    if dependencies[0] in results {
      var m := FirstMissingIsFirst(dependencies[1..], results);
      k := m + 1;
      assert forall i :: 0 < i < |dependencies| ==> dependencies[i] == dependencies[1..][i - 1];
    }
  }

  ghost predicate SucceededWithoutId(results: Results, id: string) {
    Succeeded(results, id) && results[id].crmId == None
  }

  /** An unblocked operation that cannot be resolved takes an id from a success without one. */
  lemma {:induction false} UnresolvedHasNoId(op: PlannedOperation, n: nat, results: Results)
    requires n <= |op.bindings| && ResolveFields(op, n, results).Err?
    requires forall binding <- op.bindings :: Succeeded(results, binding.source)
    ensures exists k :: 0 <= k < n && SucceededWithoutId(results, op.bindings[k].source)
                        && ResolveFields(op, n, results).error == SourceWithoutId(op.id, op.bindings[k].source)
  {
    assert op.bindings[n - 1] in op.bindings;
    if ResolveFields(op, n - 1, results).Err? {
      UnresolvedHasNoId(op, n - 1, results);
    }
  }

  /** The reason for stopping at an operation, given the results of those before it. */
  ghost predicate IsReason(error: LoadError, op: PlannedOperation, results: Results, oracle: Oracle) {
    match error
    case DuplicateOperation(id) => id == op.id && id in results
    case MissingResult(id, dependency) =>
      && id == op.id && op.id !in results
      && exists k: nat :: FirstWithoutResult(DirectDependencies(op), k, results) && DirectDependencies(op)[k] == dependency
    case SourceWithoutId(id, source) =>
      && id == op.id && op.id !in results
      && (forall d <- DirectDependencies(op) :: Succeeded(results, d))
      && exists k :: 0 <= k < |op.bindings| && op.bindings[k].source == source && SucceededWithoutId(results, source)
    case GatewayFailure(id) =>
      && id == op.id && op.id !in results && oracle(id).GatewayError?
      && (forall d <- DirectDependencies(op) :: Succeeded(results, d))
    case SourceNotSuccessful(_, _) => false
  }

  lemma {:induction false} StepStopsFor(oracle: Oracle, before: Run, op: PlannedOperation)
    requires before.stopped.None? && Step(oracle, before, op).stopped.Some?
    ensures IsReason(Step(oracle, before, op).stopped.value, op, before.results, oracle)
  {
    var dependencies := DirectDependencies(op);
    if op.id !in before.results {
      if FirstMissing(dependencies, before.results).Some? {
        var k := FirstMissingIsFirst(dependencies, before.results);
      } else {
        DependenciesSucceeded(op, before.results);
        if Resolve(op, before.results).Err? {
          UnresolvedHasNoId(op, |op.bindings|, before.results);
        }
      }
    }
  }

  lemma {:induction false} DependenciesSucceeded(op: PlannedOperation, results: Results)
    requires Blockers(DirectDependencies(op), results) == []
    ensures forall d <- DirectDependencies(op) :: Succeeded(results, d)
    ensures forall binding <- op.bindings :: Succeeded(results, binding.source)
  {
    DirectDependenciesMeaning(op);
    BlockersMeaning(DirectDependencies(op), results);
    forall binding | binding in op.bindings
      ensures Succeeded(results, binding.source)
    {
      var k :| 0 <= k < |op.bindings| && op.bindings[k] == binding;
      assert BindingSources(op.bindings)[k] == binding.source;
    }
  }

  /**
   * A load stops at the first operation that repeats an id, or depends on something without a result, or takes an id
   * from a success that has none, or whose sending the gateway fails; the error says which, and of several
   * dependencies without a result the first. The resolver's error about a source that did not succeed never occurs.
   */
  lemma {:induction false} StoppedMeaning(oracle: Oracle, ops: seq<PlannedOperation>)
    requires RunPlan(oracle, ops).stopped.Some?
    ensures var run := RunPlan(oracle, ops);
            |run.order| < |ops| && IsReason(run.stopped.value, ops[|run.order|], run.results, oracle)
  {
    CompletedPrefix(oracle, ops);
    var run := RunPlan(oracle, ops);
    StepStopsFor(oracle, RunPlan(oracle, ops[..|run.order|]), ops[|run.order|]);
  }

  // ----- the leads of a load -----

  /** The value is the id the CRM returned for an operation carried out before position `p`. */
  ghost predicate IsReturned(value: Option<Json>, sent: seq<SentCommand>, p: nat, id: string, oracle: Oracle)
    requires p <= |sent|
  {
    CreatedWithin(sent, p, id, oracle) && value == Some(JInt(oracle(id).crmId))
  }

  /** The company known to the CRM, or the one this load created, complete with requisite and addresses. */
  ghost predicate CarriesCompany(value: Option<Json>, d: ExtractedDeveloper, sent: seq<SentCommand>, p: nat,
      oracle: Oracle, context: CrmContext)
    requires p <= |sent|
  {
    var id := Decimal(d.id);
    if CompanyKnown(context, d.inn) then IsCompany(value, d.inn, context)
    else
      && IsReturned(value, sent, p, "company:" + id, oracle)
      && CreatedWithin(sent, p, "requisite:" + id, oracle)
      && CreatedWithin(sent, p, "address:" + id + ":actual", oracle)
      && CreatedWithin(sent, p, "address:" + id + ":legal", oracle)
  }

  ghost predicate CarriesGroup(value: Option<Json>, o: ExtractedObject, sent: seq<SentCommand>, p: nat, oracle: Oracle,
      context: CrmContext)
    requires p <= |sent|
  {
    match o.companyGroupId
    case None => value == None
    case Some(group) =>
      if GroupKnown(context, group) then IsGroup(value, group, context)
      else IsReturned(value, sent, p, "group:" + Decimal(group), oracle)
  }

  /** The command at position `p` creates a lead that tells everything about the object, its company and its group. */
  ghost predicate IsLeadSent(sent: seq<SentCommand>, p: nat, o: ExtractedObject, d: ExtractedDeveloper, oracle: Oracle,
      context: CrmContext, settings: RegionSettings)
    requires p < |sent|
  {
    var f, command := context.structure.entityFields.lead, sent[p].command;
    && command.AddItem? && command.entityTypeId == context.structure.entityTypes.lead
    && DescribesObject(command.fields, o, context, settings)
    && CarriesCompany(Get(command.fields, f.companyId), d, sent, p, oracle, context)
    && CarriesGroup(Get(command.fields, f.companyGroupBitrixId), o, sent, p, oracle, context)
  }

  lemma {:induction false} StillDescribes(planned: Fields, fields: Fields, o: ExtractedObject, context: CrmContext,
      settings: RegionSettings)
    requires DescribesObject(planned, o, context, settings)
    requires forall name <- BaseNames(context.structure.entityFields.lead) :: Get(fields, name) == Get(planned, name)
    ensures DescribesObject(fields, o, context, settings)
  {
  }

  lemma {:induction false} BaseFieldsStay(op: PlannedOperation, fields: Fields, o: ExtractedObject,
      d: ExtractedDeveloper, context: CrmContext, oracle: Oracle)
    requires DistinctNames(LeadNames(context.structure.entityFields.lead)) && BindsOwners(op.bindings, o, d, context)
    requires Filled(fields, op, |op.bindings|, oracle)
    ensures forall name <- BaseNames(context.structure.entityFields.lead) ::
              Get(fields, name) == Get(op.command.fields, name)
  {
    LeadNamesDiffer(context.structure.entityFields.lead);
  }

  lemma {:induction false} CompanyNamed(op: PlannedOperation, fields: Fields, o: ExtractedObject,
      d: ExtractedDeveloper, sent: seq<SentCommand>, p: nat, context: CrmContext, oracle: Oracle)
    requires DistinctNames(LeadNames(context.structure.entityFields.lead)) && BindsOwners(op.bindings, o, d, context)
    requires p <= |sent| && Filled(fields, op, |op.bindings|, oracle) && NeedsMet(op, sent, p, oracle)
    requires RefersToCompany(op, d, context)
    ensures CarriesCompany(Get(fields, context.structure.entityFields.lead.companyId), d, sent, p, oracle, context)
  {
    LeadNamesDiffer(context.structure.entityFields.lead);
    if !CompanyKnown(context, d.inn) {
      assert op.bindings[0] in op.bindings && WritesLast(op.bindings, 0, |op.bindings|);
      assert op.dependencies[0] in op.dependencies && op.dependencies[1] in op.dependencies;
      assert op.dependencies[2] in op.dependencies;
    }
  }

  lemma {:induction false} GroupNamed(op: PlannedOperation, fields: Fields, o: ExtractedObject,
      d: ExtractedDeveloper, sent: seq<SentCommand>, p: nat, context: CrmContext, oracle: Oracle)
    requires DistinctNames(LeadNames(context.structure.entityFields.lead)) && BindsOwners(op.bindings, o, d, context)
    requires p <= |sent| && Filled(fields, op, |op.bindings|, oracle) && NeedsMet(op, sent, p, oracle)
    requires RefersToGroup(op, o, context)
    ensures CarriesGroup(Get(fields, context.structure.entityFields.lead.companyGroupBitrixId), o, sent, p, oracle,
                       context)
  {
    LeadNamesDiffer(context.structure.entityFields.lead);
    if o.companyGroupId.Some? && !GroupKnown(context, o.companyGroupId.value) {
      var k := |op.bindings| - 1;
      assert op.bindings[k] in op.bindings && WritesLast(op.bindings, k, |op.bindings|);
    }
  }

  lemma {:induction false} SentLeadIsComplete(op: PlannedOperation, o: ExtractedObject, d: ExtractedDeveloper,
      sent: seq<SentCommand>, p: nat, oracle: Oracle, context: CrmContext, settings: RegionSettings)
    requires DistinctNames(LeadNames(context.structure.entityFields.lead))
    requires p < |sent| && IsLeadOperation(op, o, d, context, settings)
    requires Instantiates(sent[p].command, op, oracle) && NeedsMet(op, sent, p, oracle)
    ensures IsLeadSent(sent, p, o, d, oracle, context, settings)
  {
    var fields := sent[p].command.fields;
    BaseFieldsStay(op, fields, o, d, context, oracle);
    StillDescribes(op.command.fields, fields, o, context, settings);
    CompanyNamed(op, fields, o, d, sent, p, context, oracle);
    GroupNamed(op, fields, o, d, sent, p, context, oracle);
  }

  lemma {:induction false} LeadPlanned(plan: seq<PlannedOperation>, extract: ExtractResult, context: CrmContext,
      settings: RegionSettings, o: ExtractedObject) returns (op: PlannedOperation, d: ExtractedDeveloper)
    requires CreatesAll(plan, extract, context, settings) && IsNew(o, extract, context)
    ensures op in plan && d in extract.developers && d.id == o.developerId
    ensures IsLeadOperation(op, o, d, context, settings)
  {
    assert ToCreate(LeadItem(o), extract, context);
    assert IsMet(LeadItem(o), plan, extract, context, settings);
    op :| op in plan && IsOperationOf(op, LeadItem(o), extract, context, settings);
    d :| d in extract.developers && d.id == o.developerId && IsLeadOperation(op, o, d, context, settings);
  }

  lemma {:induction false} SameOperation(ops: seq<PlannedOperation>, a: PlannedOperation, b: PlannedOperation)
    requires UniqueIds(ops) && a in ops && b in ops && a.id == b.id
    ensures a == b
  {
    var i :| 0 <= i < |ops| && ops[i] == a;
    var j :| 0 <= j < |ops| && ops[j] == b;
    assert i == j || i < j || j < i;
  }

  /**
   * Every lead a load sends, aborted or not, tells everything about its object and carries the id of its own
   * developer's company and of its own group: the one the CRM had, or the one the CRM returned before for the
   * company or group this load created.
   */
  lemma {:induction false} SentLeadMeaning(extract: ExtractResult, context: CrmContext, settings: RegionSettings,
      oracle: Oracle, o: ExtractedObject, p: nat)
    requires WellFormedContext(context) && Transform(extract, context, settings).Ok? && IsNew(o, extract, context)
    requires var run := RunPlan(oracle, Transform(extract, context, settings).value);
             p < |run.sent| && run.sent[p].operationId == "lead:" + Decimal(o.id)
    ensures var run := RunPlan(oracle, Transform(extract, context, settings).value);
            exists d :: d in extract.developers && d.id == o.developerId
                        && IsLeadSent(run.sent, p, o, d, oracle, context, settings)
  {
    var plan := Transform(extract, context, settings).value;
    var sent := RunPlan(oracle, plan).sent;
    RunTellsOutcomes(oracle, plan);
    assert SentFrom(oracle, plan, sent, p);
    var op :| op in plan && sent[p].operationId == op.id && Instantiates(sent[p].command, op, oracle)
              && NeedsMet(op, sent, p, oracle);
    PlanMeaning(extract, context, settings);
    var planned, d := LeadPlanned(plan, extract, context, settings, o);
    CompiledPlanAccepted(extract, context, settings);
    SameOperation(plan, op, planned);
    SentLeadIsComplete(op, o, d, sent, p, oracle, context, settings);
  }
}
