/**
 * SyncPlanExecutor and RuntimeBindingResolver: run a plan against a CRM whose answer to each operation
 * is arbitrary, blocking the dependents of whatever did not succeed.
 */
module PlanExecutor {
  import opened Wrappers
  import opened Json
  import opened Contracts
  import opened Unique

  /** What the CRM gateway answers to a write. Anything outside its protocol aborts the load. */
  datatype CrmResponse =
    | Created(crmId: PositiveInt)
    | RequestFailed
    | RequestUnknown
    | GatewayError

  /** The CRM's answer to each operation, by operation id. */
  type Oracle = string -> CrmResponse

  datatype SentCommand = SentCommand(operationId: string, command: CrmCommand)

  datatype LoadError =
    | DuplicateOperation(operationId: string)
    | MissingResult(operationId: string, dependency: string)
    | SourceNotSuccessful(operationId: string, source: string)
    | SourceWithoutId(operationId: string, source: string)
    | GatewayFailure(operationId: string)

  /** The errors that are the executor's own, as opposed to the gateway's. */
  predicate IsInvariantError(e: LoadError) {
    !e.GatewayFailure?
  }

  // ----- direct dependencies -----

  function DirectDependencies(op: PlannedOperation): seq<string> {
    Dedup(op.dependencies + BindingSources(op.bindings))
  }

  lemma {:induction false} DirectDependenciesMeaning(op: PlannedOperation)
    ensures forall d :: d in DirectDependencies(op) <==> d in op.dependencies || d in BindingSources(op.bindings)
  {
    DedupMeaning(op.dependencies + BindingSources(op.bindings));
  }

  // ----- results -----

  type Results = map<string, OperationResult>

  predicate Succeeded(results: Results, id: string) {
    id in results && results[id].status == Success
  }

  /** The dependencies that did not succeed, in order. */
  function Blockers(dependencies: seq<string>, results: Results): seq<string> {
    if dependencies == [] then []
    else
      var last := dependencies[|dependencies| - 1];
      Blockers(dependencies[..|dependencies| - 1], results) + if Succeeded(results, last) then [] else [last]
  }

  lemma {:induction false} BlockersMeaning(dependencies: seq<string>, results: Results)
    ensures forall d :: d in Blockers(dependencies, results) <==> d in dependencies && !Succeeded(results, d)
  {
    if dependencies != [] {
      BlockersMeaning(dependencies[..|dependencies| - 1], results);
      assert dependencies == dependencies[..|dependencies| - 1] + [dependencies[|dependencies| - 1]];
    }
  }

  // ----- binding resolution -----

  function BoundId(op: PlannedOperation, binding: RuntimeBinding, results: Results): Result<int, LoadError> {
    if binding.source !in results then Err(MissingResult(op.id, binding.source))
    else if results[binding.source].status != Success then Err(SourceNotSuccessful(op.id, binding.source))
    else if results[binding.source].crmId.None? then Err(SourceWithoutId(op.id, binding.source))
    else Ok(results[binding.source].crmId.value)
  }

  function ResolveFields(op: PlannedOperation, n: nat, results: Results): Result<Fields, LoadError>
    requires n <= |op.bindings|
  {
    if n == 0 then Ok(op.command.fields)
    else
      var fields :- ResolveFields(op, n - 1, results);
      var value :- BoundId(op, op.bindings[n - 1], results);
      Ok(fields[op.bindings[n - 1].field := JInt(value)])
  }

  function WithFields(command: CrmCommand, fields: Fields): CrmCommand {
    match command
    case AddItem(entityType, _) => AddItem(entityType, fields)
    case AddRequisite(_) => AddRequisite(fields)
    case AddAddress(_) => AddAddress(fields)
  }

  function Resolve(op: PlannedOperation, results: Results): Result<CrmCommand, LoadError> {
    var fields :- ResolveFields(op, |op.bindings|, results);
    Ok(WithFields(op.command, fields))
  }

  lemma {:induction false} ResolutionStaysFailed(op: PlannedOperation, n: nat, results: Results)
    requires n <= |op.bindings| && ResolveFields(op, n, results).Err?
    ensures ResolveFields(op, |op.bindings|, results) == ResolveFields(op, n, results)
    decreases |op.bindings| - n
  {
    if n < |op.bindings| {
      ResolutionStaysFailed(op, n + 1, results);
    }
  }

  method ResolveBindings(op: PlannedOperation, results: Results) returns (resolved: Result<CrmCommand, LoadError>)
    ensures resolved == Resolve(op, results)
  {
    var fields := op.command.fields;
    for i := 0 to |op.bindings|
      invariant ResolveFields(op, i, results) == Ok(fields)
    {
      var source := op.bindings[i].source;
      if source !in results {
        ResolutionStaysFailed(op, i + 1, results);
        return Err(MissingResult(op.id, source));
      }
      if results[source].status != Success {
        ResolutionStaysFailed(op, i + 1, results);
        return Err(SourceNotSuccessful(op.id, source));
      }
      if results[source].crmId.None? {
        ResolutionStaysFailed(op, i + 1, results);
        return Err(SourceWithoutId(op.id, source));
      }
      fields := fields[op.bindings[i].field := JInt(results[source].crmId.value)];
    }
    return Ok(WithFields(op.command, fields));
  }

  // ----- the run -----

  /** Results so far with their insertion order, the commands sent, and the error that stopped the run. */
  datatype Run = Run(results: Results, order: seq<string>, sent: seq<SentCommand>, stopped: Option<LoadError>)

  /** The id a successful command returns: an address has none. */
  function ReturnedId(command: CrmCommand, crmId: int): Option<int> {
    if command.AddAddress? then None else Some(crmId)
  }

  function ResultOf(op: PlannedOperation, response: CrmResponse): OperationResult
    requires !response.GatewayError?
  {
    match response
    case Created(id) => OperationResult(op.id, Success, ReturnedId(op.command, id), None, [])
    case RequestFailed => OperationResult(op.id, Failed, None, Some(RequestFailedError), [])
    case RequestUnknown => OperationResult(op.id, Unknown, None, Some(RequestUnknownError), [])
  }

  function Stop(run: Run, error: LoadError): Run {
    run.(stopped := Some(error))
  }

  function WithResult(run: Run, result: OperationResult): Run {
    Run(run.results[result.operationId := result], run.order + [result.operationId], run.sent, run.stopped)
  }

  /** The first dependency without a result, if any. */
  function FirstMissing(dependencies: seq<string>, results: Results): (missing: Option<string>)
    ensures missing.Some? ==> missing.value in dependencies && missing.value !in results
    ensures missing.None? ==> forall d :: d in dependencies ==> d in results
  {
    if dependencies == [] then None
    else if dependencies[0] !in results then Some(dependencies[0])
    else FirstMissing(dependencies[1..], results)
  }

  function Step(oracle: Oracle, run: Run, op: PlannedOperation): Run {
    if run.stopped.Some? then run
    else if op.id in run.results then Stop(run, DuplicateOperation(op.id))
    else
      var dependencies := DirectDependencies(op);
      var missing := FirstMissing(dependencies, run.results);
      if missing.Some? then Stop(run, MissingResult(op.id, missing.value))
      else
        var blockers := Blockers(dependencies, run.results);
        if blockers != [] then WithResult(run, OperationResult(op.id, Blocked, None, None, blockers))
        else
          match Resolve(op, run.results)
          case Err(error) => Stop(run, error)
          case Ok(command) =>
            var sending := run.(sent := run.sent + [SentCommand(op.id, command)]);
            if oracle(op.id).GatewayError? then Stop(sending, GatewayFailure(op.id))
            else WithResult(sending, ResultOf(op, oracle(op.id)))
  }

  const START := Run(map[], [], [], None)

  function RunPlan(oracle: Oracle, ops: seq<PlannedOperation>): Run {
    if ops == [] then START else Step(oracle, RunPlan(oracle, ops[..|ops| - 1]), ops[|ops| - 1])
  }

  lemma {:induction false} StoppedRunStays(oracle: Oracle, ops: seq<PlannedOperation>, n: nat)
    requires n <= |ops| && RunPlan(oracle, ops[..n]).stopped.Some?
    ensures RunPlan(oracle, ops) == RunPlan(oracle, ops[..n])
    decreases |ops| - n
  {
    if n == |ops| {
      assert ops[..n] == ops;
    } else {
      assert ops[..n + 1][..n] == ops[..n];
      StoppedRunStays(oracle, ops, n + 1);
    }
  }

  /** A run that returns never stopped on the way. */
  lemma {:induction false} PrefixRuns(oracle: Oracle, ops: seq<PlannedOperation>, n: nat)
    requires n <= |ops| && RunPlan(oracle, ops).stopped.None?
    ensures RunPlan(oracle, ops[..n]).stopped.None?
  {
    if RunPlan(oracle, ops[..n]).stopped.Some? {
      StoppedRunStays(oracle, ops, n);
    }
  }

  /** `tuple(results.values())`: the results in insertion order. */
  function ResultsInOrder(run: Run): seq<OperationResult>
    requires forall i :: 0 <= i < |run.order| ==> run.order[i] in run.results
  {
    seq(|run.order|, i requires 0 <= i < |run.order| => run.results[run.order[i]])
  }

  // ----- the source's classes -----

  /** CrmCommandExecutor with the client it owns: sends a command and reports the CRM's answer. */
  class CrmCommandExecutor {
    const oracle: Oracle
    var sent: seq<SentCommand>

    constructor (oracle: Oracle)
      ensures this.oracle == oracle && sent == []
    {
      this.oracle := oracle;
      sent := [];
    }

    method Execute(operationId: string, command: CrmCommand) returns (response: CrmResponse)
      modifies this
      ensures sent == old(sent) + [SentCommand(operationId, command)] && response == oracle(operationId)
    {
      sent := sent + [SentCommand(operationId, command)];
      response := oracle(operationId);
    }
  }

  class SyncPlanExecutor {
    const commandExecutor: CrmCommandExecutor

    constructor (commandExecutor: CrmCommandExecutor)
      ensures this.commandExecutor == commandExecutor
    {
      this.commandExecutor := commandExecutor;
    }

    /** Execute the operations in order; the results, or the error that stopped the load. */
    method Execute(ops: seq<PlannedOperation>) returns (loaded: Result<seq<OperationResult>, LoadError>)
      modifies commandExecutor
      ensures var run := RunPlan(commandExecutor.oracle, ops);
              && commandExecutor.sent == old(commandExecutor.sent) + run.sent
              && (run.stopped.Some? ==> loaded == Err(run.stopped.value))
              && (run.stopped.None? ==>
                    && (forall i :: 0 <= i < |run.order| ==> run.order[i] in run.results)
                    && loaded == Ok(ResultsInOrder(run)))
    {
      var oracle := commandExecutor.oracle;
      var results: Results, order: seq<string> := map[], [];
      ghost var sending: seq<SentCommand> := [];
      for i := 0 to |ops|
        invariant RunPlan(oracle, ops[..i]) == Run(results, order, sending, None)
        invariant commandExecutor.sent == old(commandExecutor.sent) + sending
        invariant forall k :: 0 <= k < |order| ==> order[k] in results
      {
        var op := ops[i];
        assert ops[..i + 1][..i] == ops[..i];
        if op.id in results {
          StoppedRunStays(oracle, ops, i + 1);
          return Err(DuplicateOperation(op.id));
        }
        var dependencies := DirectDependencies(op);
        var missing := FirstMissing(dependencies, results);
        if missing.Some? {
          StoppedRunStays(oracle, ops, i + 1);
          return Err(MissingResult(op.id, missing.value));
        }
        var blockers := Blockers(dependencies, results);
        var result;
        if blockers != [] {
          result := OperationResult(op.id, Blocked, None, None, blockers);
        } else {
          var command := ResolveBindings(op, results);
          if command.Err? {
            StoppedRunStays(oracle, ops, i + 1);
            return Err(command.error);
          }
          var response := commandExecutor.Execute(op.id, command.value);
          sending := sending + [SentCommand(op.id, command.value)];
          if response.GatewayError? {
            StoppedRunStays(oracle, ops, i + 1);
            return Err(GatewayFailure(op.id));
          }
          result := ResultOf(op, response);
        }
        results := results[op.id := result];
        order := order + [op.id];
      }
      assert ops[..|ops|] == ops;
      return Ok(ResultsInOrder(RunPlan(oracle, ops)));
    }
  }
}
