/** What any execution of any plan guarantees, whatever the CRM answers. */
module Execution {
  import opened Wrappers
  import opened Contracts
  import opened PlanExecutor

  // ----- a returned run, described without its loop -----

  predicate Unblocked(op: PlannedOperation, results: Results) {
    Blockers(DirectDependencies(op), results) == []
  }

  /** The command an unblocked operation sends, with the ids of its sources filled in. */
  function SentFor(op: PlannedOperation, results: Results): seq<SentCommand> {
    if Unblocked(op, results) && Resolve(op, results).Ok? then [SentCommand(op.id, Resolve(op, results).value)] else []
  }

  /** The commands of the unblocked operations, in plan order. */
  function SentBy(ops: seq<PlannedOperation>, results: Results): seq<SentCommand> {
    if ops == [] then [] else SentBy(ops[..|ops| - 1], results) + SentFor(ops[|ops| - 1], results)
  }

  ghost predicate DependenciesEarlier(ops: seq<PlannedOperation>) {
    forall i :: 0 <= i < |ops| ==> forall d :: d in DirectDependencies(ops[i]) ==> d in Ids(ops[..i])
  }

  /** An operation's outcome agrees with the final results and the oracle. */
  ghost predicate Settled(oracle: Oracle, op: PlannedOperation, results: Results) {
    && op.id in results
    && (Unblocked(op, results) ==> Resolve(op, results).Ok? && !oracle(op.id).GatewayError?)
    && results[op.id] == (if Unblocked(op, results) then ResultOf(op, oracle(op.id))
                          else OperationResult(op.id, Blocked, None, None, Blockers(DirectDependencies(op), results)))
  }

  ghost predicate AllSettled(oracle: Oracle, ops: seq<PlannedOperation>, results: Results) {
    forall i :: 0 <= i < |ops| ==> Settled(oracle, ops[i], results)
  }

  ghost predicate ListsIds(order: seq<string>, ops: seq<PlannedOperation>) {
    |order| == |ops| && forall i :: 0 <= i < |ops| ==> order[i] == ops[i].id
  }

  ghost predicate Describes(oracle: Oracle, ops: seq<PlannedOperation>, run: Run) {
    && ListsIds(run.order, ops)
    && run.results.Keys == Ids(ops)
    && DistinctIds(ops)
    && DependenciesEarlier(ops)
    && AllSettled(oracle, ops, run.results)
    && run.sent == SentBy(ops, run.results)
  }

  // ----- later results never disturb earlier ones -----

  ghost predicate Extends(results: Results, more: Results) {
    forall id :: id in results ==> id in more && more[id] == results[id]
  }

  lemma {:induction false} BlockersStable(dependencies: seq<string>, results: Results, more: Results)
    requires Extends(results, more) && forall d :: d in dependencies ==> d in results
    ensures Blockers(dependencies, results) == Blockers(dependencies, more)
  {
    if dependencies != [] {
      BlockersStable(dependencies[..|dependencies| - 1], results, more);
    }
  }

  lemma {:induction false} ResolveFieldsStable(op: PlannedOperation, n: nat, results: Results, more: Results)
    requires n <= |op.bindings| && Extends(results, more)
    requires forall k :: 0 <= k < |op.bindings| ==> op.bindings[k].source in results
    ensures ResolveFields(op, n, results) == ResolveFields(op, n, more)
  {
    if n > 0 {
      ResolveFieldsStable(op, n - 1, results, more);
    }
  }

  lemma {:induction false} StepStable(op: PlannedOperation, results: Results, more: Results)
    requires Extends(results, more) && forall d :: d in DirectDependencies(op) ==> d in results
    ensures Unblocked(op, results) == Unblocked(op, more)
    ensures Blockers(DirectDependencies(op), results) == Blockers(DirectDependencies(op), more)
    ensures Resolve(op, results) == Resolve(op, more)
  {
    BlockersStable(DirectDependencies(op), results, more);
    DirectDependenciesMeaning(op);
    assert forall k :: 0 <= k < |op.bindings| ==> BindingSources(op.bindings)[k] == op.bindings[k].source;
    ResolveFieldsStable(op, |op.bindings|, results, more);
  }

  lemma {:induction false} SentByStable(ops: seq<PlannedOperation>, results: Results, more: Results)
    requires Extends(results, more) && DependenciesEarlier(ops) && Ids(ops) <= results.Keys
    ensures SentBy(ops, results) == SentBy(ops, more)
  {
    if ops != [] {
      var head, last := ops[..|ops| - 1], ops[|ops| - 1];
      assert ops == head + [last];
      IdsConcat(head, [last]);
      EarlierPrefix(ops, |ops| - 1);
      SentByStable(head, results, more);
      StepStable(last, results, more);
    }
  }

  lemma {:induction false} EarlierPrefix(ops: seq<PlannedOperation>, n: nat)
    requires n <= |ops| && DependenciesEarlier(ops)
    ensures DependenciesEarlier(ops[..n])
  {
    forall i | 0 <= i < n
      ensures forall d :: d in DirectDependencies(ops[..n][i]) ==> d in Ids(ops[..n][..i])
    {
      assert ops[..n][..i] == ops[..i];
    }
  }

  // ----- every returned run is described -----

  lemma {:induction false} RunMeaning(oracle: Oracle, ops: seq<PlannedOperation>)
    requires RunPlan(oracle, ops).stopped.None?
    ensures Describes(oracle, ops, RunPlan(oracle, ops))
  {
    if ops == [] {
      assert Ids(ops) == {};
    } else {
      var head, last := ops[..|ops| - 1], ops[|ops| - 1];
      assert ops == head + [last];
      PrefixRuns(oracle, ops, |ops| - 1);
      RunMeaning(oracle, head);
      var before, after := RunPlan(oracle, head), RunPlan(oracle, ops);
      assert after == Step(oracle, before, last);
      StepMeaning(oracle, before, last);
      StepDescribed(oracle, head, last, before, after);
    }
  }

  /**
   * A run that was aborted is, in its results, the run of the operations completed before the abort, followed by
   * the step that aborted it and recorded nothing.
   */
  lemma {:induction false} CompletedPrefix(oracle: Oracle, ops: seq<PlannedOperation>)
    ensures var run := RunPlan(oracle, ops);
            && |run.order| <= |ops|
            && (run.stopped.None? ==> |run.order| == |ops|)
            && var done := RunPlan(oracle, ops[..|run.order|]);
            && done.stopped.None?
            && done.results == run.results && done.order == run.order && done.sent <= run.sent
            && (run.stopped.None? ==> run == done)
            && (run.stopped.Some? ==> |run.order| < |ops| && run == Step(oracle, done, ops[|run.order|]))
  {
    if ops != [] {
      var head := ops[..|ops| - 1];
      var before, run := RunPlan(oracle, head), RunPlan(oracle, ops);
      CompletedPrefix(oracle, head);
      if run.stopped.None? {
        OrderGrows(oracle, before, ops[|ops| - 1]);
        assert ops[..|ops|] == ops;
      } else if before.stopped.None? {
        StoppedStepRecordsNothing(oracle, before, ops[|ops| - 1]);
        assert ops[..|head|] == head[..|head|] == head;
      } else {
        assert ops[..|run.order|] == head[..|run.order|];
      }
    } else {
      assert ops[..0] == ops;
    }
  }

  lemma {:induction false} OrderGrows(oracle: Oracle, before: Run, op: PlannedOperation)
    requires Step(oracle, before, op).stopped.None?
    ensures before.stopped.None? && |Step(oracle, before, op).order| == |before.order| + 1
  {
  }

  lemma {:induction false} StoppedStepRecordsNothing(oracle: Oracle, before: Run, op: PlannedOperation)
    requires before.stopped.None? && Step(oracle, before, op).stopped.Some?
    ensures var run := Step(oracle, before, op);
            && run.results == before.results && run.order == before.order
            && before.sent <= run.sent
  {
  }

  /** Running on never changes a result or a command sent. */
  lemma {:induction false} RunExtends(oracle: Oracle, ops: seq<PlannedOperation>, n: nat)
    requires n <= |ops|
    ensures Extends(RunPlan(oracle, ops[..n]).results, RunPlan(oracle, ops).results)
    ensures RunPlan(oracle, ops[..n]).sent <= RunPlan(oracle, ops).sent
    decreases |ops|
  {
    if n == |ops| {
      assert ops[..n] == ops;
    } else {
      var head := ops[..|ops| - 1];
      assert head[..n] == ops[..n];
      RunExtends(oracle, head, n);
      StepExtends(oracle, RunPlan(oracle, head), ops[|ops| - 1]);
    }
  }

  lemma {:induction false} StepExtends(oracle: Oracle, before: Run, op: PlannedOperation)
    ensures Extends(before.results, Step(oracle, before, op).results)
    ensures before.sent <= Step(oracle, before, op).sent
  {
  }

  /** The part of a run, aborted or not, that completed. */
  ghost function Completed(oracle: Oracle, ops: seq<PlannedOperation>): (done: Run)
    ensures |done.order| <= |ops| && Describes(oracle, ops[..|done.order|], done)
    ensures done.results == RunPlan(oracle, ops).results && done.sent <= RunPlan(oracle, ops).sent
  {
    CompletedPrefix(oracle, ops);
    RunMeaning(oracle, ops[..|RunPlan(oracle, ops).order|]);
    RunPlan(oracle, ops[..|RunPlan(oracle, ops).order|])
  }

  /** An operation with a result is among those that completed. */
  lemma {:induction false} ResultMeansCompleted(oracle: Oracle, ops: seq<PlannedOperation>, done: Run, i: nat)
    requires |done.order| <= |ops| && Describes(oracle, ops[..|done.order|], done)
    requires DistinctIds(ops) && i < |ops| && ops[i].id in done.results
    ensures i < |done.order|
  {
    assert ops[i].id in Ids(ops[..|done.order|]);
    var j :| 0 <= j < |done.order| && ops[..|done.order|][j].id == ops[i].id;
    assert i == j || i < j || j < i;
  }

  /** A step that does not stop the run records one settled result and sends the command if unblocked. */
  ghost predicate Records(oracle: Oracle, before: Run, op: PlannedOperation, after: Run) {
    && op.id !in before.results
    && (forall d :: d in DirectDependencies(op) ==> d in before.results)
    && op.id in after.results
    && after.results == before.results[op.id := after.results[op.id]]
    && after.order == before.order + [op.id]
    && (Unblocked(op, before.results) ==> Resolve(op, before.results).Ok? && !oracle(op.id).GatewayError?)
    && after.results[op.id] ==
       (if Unblocked(op, before.results) then ResultOf(op, oracle(op.id))
        else OperationResult(op.id, Blocked, None, None, Blockers(DirectDependencies(op), before.results)))
    && after.sent == before.sent + (if Unblocked(op, before.results)
                                    then [SentCommand(op.id, Resolve(op, before.results).value)] else [])
  }

  lemma {:induction false} StepMeaning(oracle: Oracle, before: Run, op: PlannedOperation)
    requires before.stopped.None? && Step(oracle, before, op).stopped.None?
    ensures Records(oracle, before, op, Step(oracle, before, op))
  {
  }

  lemma {:induction false} StepDescribed(oracle: Oracle, head: seq<PlannedOperation>, last: PlannedOperation,
      before: Run, after: Run)
    requires Describes(oracle, head, before) && Records(oracle, before, last, after)
    ensures Describes(oracle, head + [last], after)
  {
    StepOrdered(head, last, before.results);
    StepSettled(oracle, head, last, before, after);
    StepSent(oracle, head, last, before, after);
  }

  lemma {:induction false} StepSent(oracle: Oracle, head: seq<PlannedOperation>, last: PlannedOperation, before: Run,
      after: Run)
    requires before.results.Keys == Ids(head) && DependenciesEarlier(head)
    requires before.sent == SentBy(head, before.results) && Records(oracle, before, last, after)
    ensures after.sent == SentBy(head + [last], after.results)
  {
    assert (head + [last])[..|head|] == head;
    SentByStable(head, before.results, after.results);
    StepStable(last, before.results, after.results);
  }

  lemma {:induction false} StepOrdered(head: seq<PlannedOperation>, last: PlannedOperation, results: Results)
    requires results.Keys == Ids(head) && DistinctIds(head) && DependenciesEarlier(head)
    requires last.id !in results && forall d :: d in DirectDependencies(last) ==> d in results
    ensures Ids(head + [last]) == Ids(head) + {last.id}
    ensures DistinctIds(head + [last]) && DependenciesEarlier(head + [last])
  {
    var ops := head + [last];
    IdsConcat(head, [last]);
    assert Ids([last]) == {last.id} by { assert [last][0].id in Ids([last]); }
    forall i | 0 <= i < |ops|
      ensures forall d :: d in DirectDependencies(ops[i]) ==> d in Ids(ops[..i])
    {
      assert ops[..i] == if i < |head| then head[..i] else head;
    }
    assert forall i :: 0 <= i < |head| ==> head[i].id in Ids(head);
  }

  lemma {:induction false} StepSettled(oracle: Oracle, head: seq<PlannedOperation>, last: PlannedOperation, before: Run,
      after: Run)
    requires before.results.Keys == Ids(head) && DependenciesEarlier(head)
    requires AllSettled(oracle, head, before.results)
    requires Records(oracle, before, last, after)
    ensures AllSettled(oracle, head + [last], after.results)
  {
    assert Extends(before.results, after.results);
    forall i | 0 <= i < |head|
      ensures Settled(oracle, head[i], after.results)
    {
      PrefixIdsIncluded(head, i);
      StepStable(head[i], before.results, after.results);
    }
    StepStable(last, before.results, after.results);
  }

  lemma {:induction false} PrefixIdsIncluded(ops: seq<PlannedOperation>, n: nat)
    requires n <= |ops|
    ensures Ids(ops[..n]) <= Ids(ops)
  {
    assert ops == ops[..n] + ops[n..];
    IdsConcat(ops[..n], ops[n..]);
  }
}
