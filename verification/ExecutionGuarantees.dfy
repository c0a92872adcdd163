/** Main results on running a plan: who is sent, how failures spread, and when a run cannot get stuck. */
module ExecutionGuarantees {
  import opened Wrappers
  import opened Contracts
  import opened Unique
  import opened PlanValidator
  import opened PlanExecutor
  import opened CompiledPlans
  import opened Execution

  // ----- transitive dependencies -----

  ghost predicate DirectlyDepends(ops: seq<PlannedOperation>, id: string, dependency: string) {
    exists i :: 0 <= i < |ops| && ops[i].id == id && dependency in DirectDependencies(ops[i])
  }

  ghost predicate LinkAt(ops: seq<PlannedOperation>, path: seq<string>, k: nat)
    requires k + 1 < |path|
  {
    DirectlyDepends(ops, path[k], path[k + 1])
  }

  /** Each element of the path directly depends on the next. */
  ghost predicate IsChain(ops: seq<PlannedOperation>, path: seq<string>) {
    forall k: nat :: k + 1 < |path| ==> LinkAt(ops, path, k)
  }

  ghost predicate Leads(ops: seq<PlannedOperation>, path: seq<string>, id: string, ancestor: string) {
    |path| >= 2 && path[0] == id && path[|path| - 1] == ancestor && IsChain(ops, path)
  }

  ghost predicate DependsOn(ops: seq<PlannedOperation>, id: string, ancestor: string) {
    exists path :: Leads(ops, path, id, ancestor)
  }

  lemma {:induction false} DirectIsTransitive(ops: seq<PlannedOperation>, id: string, dependency: string)
    requires DirectlyDepends(ops, id, dependency)
    ensures DependsOn(ops, id, dependency)
  {
    assert LinkAt(ops, [id, dependency], 0);
    assert Leads(ops, [id, dependency], id, dependency);
  }

  lemma {:induction false} DependsFurther(ops: seq<PlannedOperation>, id: string, dependency: string, ancestor: string)
    requires DirectlyDepends(ops, id, dependency) && DependsOn(ops, dependency, ancestor)
    ensures DependsOn(ops, id, ancestor)
  {
    var path :| Leads(ops, path, dependency, ancestor);
    var longer := [id] + path;
    forall k: nat | k + 1 < |longer|
      ensures LinkAt(ops, longer, k)
    {
      if k > 0 {
        assert LinkAt(ops, path, k - 1);
      }
    }
    assert Leads(ops, longer, id, ancestor);
  }

  // ----- a command is sent exactly once, exactly when everything it rests on succeeded -----

  function TimesSent(sent: seq<SentCommand>, id: string): nat {
    if sent == [] then 0
    else TimesSent(sent[..|sent| - 1], id) + if sent[|sent| - 1].operationId == id then 1 else 0
  }

  lemma {:induction false} TimesSentConcat(a: seq<SentCommand>, b: seq<SentCommand>, id: string)
    ensures TimesSent(a + b, id) == TimesSent(a, id) + TimesSent(b, id)
  {
    if b == [] {
      assert a + b == a;
    } else {
      TimesSentConcat(a, b[..|b| - 1], id);
      assert (a + b)[..|a + b| - 1] == a + b[..|b| - 1];
    }
  }

  lemma {:induction false} TimesSentFor(op: PlannedOperation, results: Results, id: string)
    ensures TimesSent(SentFor(op, results), id)
            == if Unblocked(op, results) && Resolve(op, results).Ok? && op.id == id then 1 else 0
  {
    var sent := SentFor(op, results);
    assert sent == [] || sent[..|sent| - 1] == [];
  }

  predicate Fires(op: PlannedOperation, results: Results) {
    Unblocked(op, results) && Resolve(op, results).Ok?
  }

  lemma {:induction false} TimesSentByLast(ops: seq<PlannedOperation>, results: Results, id: string)
    requires ops != []
    ensures TimesSent(SentBy(ops, results), id)
            == TimesSent(SentBy(ops[..|ops| - 1], results), id)
               + if Fires(ops[|ops| - 1], results) && ops[|ops| - 1].id == id then 1 else 0
  {
    var last := ops[|ops| - 1];
    TimesSentConcat(SentBy(ops[..|ops| - 1], results), SentFor(last, results), id);
    TimesSentFor(last, results, id);
  }

  /** How many of the first n operations carry the id and send their command. */
  function TimesFired(ops: seq<PlannedOperation>, results: Results, id: string, n: nat): nat
    requires n <= |ops|
  {
    if n == 0 then 0
    else TimesFired(ops, results, id, n - 1) + if Fires(ops[n - 1], results) && ops[n - 1].id == id then 1 else 0
  }

  lemma {:induction false} TimesSentByNext(ops: seq<PlannedOperation>, results: Results, id: string, n: nat)
    requires 0 < n <= |ops|
    ensures TimesSent(SentBy(ops[..n], results), id)
            == TimesSent(SentBy(ops[..n - 1], results), id)
               + if Fires(ops[n - 1], results) && ops[n - 1].id == id then 1 else 0
  {
    assert ops[..n][..n - 1] == ops[..n - 1];
    TimesSentByLast(ops[..n], results, id);
  }

  lemma {:induction false} NothingSentByNobody(results: Results, id: string)
    ensures TimesSent(SentBy([], results), id) == 0
  {
  }

  lemma {:induction false} TimesSentIsTimesFired(ops: seq<PlannedOperation>, results: Results, id: string, n: nat)
    requires n <= |ops|
    ensures TimesSent(SentBy(ops[..n], results), id) == TimesFired(ops, results, id, n)
  {
    if n == 0 {
      assert ops[..n] == [];
      NothingSentByNobody(results, id);
    } else {
      TimesSentIsTimesFired(ops, results, id, n - 1);
      TimesSentByNext(ops, results, id, n);
    }
  }

  lemma {:induction false} FiredOnce(ops: seq<PlannedOperation>, results: Results, i: nat, n: nat)
    requires i < |ops| && n <= |ops| && DistinctIds(ops)
    ensures TimesFired(ops, results, ops[i].id, n) == if i < n && Fires(ops[i], results) then 1 else 0
  {
    if n > 0 {
      FiredOnce(ops, results, i, n - 1);
    }
  }

  lemma {:induction false} SentOnceIfFired(ops: seq<PlannedOperation>, results: Results, i: nat)
    requires i < |ops| && DistinctIds(ops)
    ensures TimesSent(SentBy(ops, results), ops[i].id) == if Fires(ops[i], results) then 1 else 0
  {
    assert ops[..|ops|] == ops;
    TimesSentIsTimesFired(ops, results, ops[i].id, |ops|);
    FiredOnce(ops, results, i, |ops|);
  }

  lemma {:induction false} LastIsNew(ops: seq<PlannedOperation>)
    requires ops != [] && DistinctIds(ops)
    ensures ops[|ops| - 1].id !in Ids(ops[..|ops| - 1])
  {
    var head := ops[..|ops| - 1];
    assert forall j :: 0 <= j < |head| ==> head[j] == ops[j];
  }

  /** The ids of unblocked operations. */
  ghost function Free(ops: seq<PlannedOperation>, results: Results): set<string> {
    set i | 0 <= i < |ops| && Unblocked(ops[i], results) :: ops[i].id
  }

  /** Direct dependencies of these ids succeeded and are among them. */
  ghost predicate SuccessClosed(ops: seq<PlannedOperation>, results: Results, ids: set<string>) {
    forall id, d | id in ids && DirectlyDepends(ops, id, d) :: Succeeded(results, d) && d in ids
  }

  lemma {:induction false} DependencySucceeded(oracle: Oracle, ops: seq<PlannedOperation>, run: Run, i: nat,
      dependency: string)
    requires Describes(oracle, ops, run) && i < |ops| && Unblocked(ops[i], run.results)
    requires DirectlyDepends(ops, ops[i].id, dependency)
    ensures Succeeded(run.results, dependency) && dependency in Free(ops, run.results)
  {
    var k :| 0 <= k < |ops| && ops[k].id == ops[i].id && dependency in DirectDependencies(ops[k]);
    assert k == i || k < i || i < k;
    BlockersMeaning(DirectDependencies(ops[i]), run.results);
    assert dependency in Ids(ops);
    var j :| 0 <= j < |ops| && ops[j].id == dependency;
    assert Settled(oracle, ops[j], run.results);
    SettledStatus(oracle, ops[j], run.results);
  }

  /** What an unblocked operation directly depends on succeeded, and so was unblocked itself. */
  lemma {:induction false} FreeIsSuccessClosed(oracle: Oracle, ops: seq<PlannedOperation>, run: Run)
    requires Describes(oracle, ops, run)
    ensures SuccessClosed(ops, run.results, Free(ops, run.results))
  {
    var free := Free(ops, run.results);
    forall id, d | id in free && DirectlyDepends(ops, id, d)
      ensures Succeeded(run.results, d) && d in free
    {
      var i :| 0 <= i < |ops| && ops[i].id == id && Unblocked(ops[i], run.results);
      DependencySucceeded(oracle, ops, run, i, d);
    }
  }

  /** Along a chain from such an id everything succeeded. */
  lemma {:induction false} ChainSucceeded(ops: seq<PlannedOperation>, results: Results, ids: set<string>,
      path: seq<string>, n: nat)
    requires SuccessClosed(ops, results, ids) && IsChain(ops, path) && 1 <= n < |path| && path[0] in ids
    ensures Succeeded(results, path[n]) && path[n] in ids
    decreases n
  {
    if n > 1 {
      ChainSucceeded(ops, results, ids, path, n - 1);
    }
    assert LinkAt(ops, path, n - 1);
  }

  ghost predicate AllAncestorsSucceeded(ops: seq<PlannedOperation>, id: string, results: Results) {
    forall ancestor :: DependsOn(ops, id, ancestor) ==> Succeeded(results, ancestor)
  }

  lemma {:induction false} SettledStatus(oracle: Oracle, op: PlannedOperation, results: Results)
    requires Settled(oracle, op, results)
    ensures op.id in results && (Fires(op, results) <==> Unblocked(op, results))
    ensures results[op.id].status == Blocked <==> !Unblocked(op, results)
    ensures results[op.id].status == Success <==> Unblocked(op, results) && oracle(op.id).Created?
  {
  }

  /**
   * In a run that returns, each operation's command is sent exactly once if all its transitive
   * dependencies succeeded, and never otherwise; and it then ends as the CRM answered.
   */
  lemma {:induction false} SentExactlyWhenAncestorsSucceed(oracle: Oracle, ops: seq<PlannedOperation>, i: nat)
    requires RunPlan(oracle, ops).stopped.None? && i < |ops|
    ensures var run := RunPlan(oracle, ops);
            var allSucceeded := AllAncestorsSucceeded(ops, ops[i].id, run.results);
            && TimesSent(run.sent, ops[i].id) == (if allSucceeded then 1 else 0)
            && ops[i].id in run.results
            && (run.results[ops[i].id].status == Blocked <==> !allSucceeded)
            && (run.results[ops[i].id].status == Success <==> allSucceeded && oracle(ops[i].id).Created?)
  {
    RunMeaning(oracle, ops);
    var run := RunPlan(oracle, ops);
    assert Settled(oracle, ops[i], run.results);
    SettledStatus(oracle, ops[i], run.results);
    SentOnceIfFired(ops, run.results, i);
    UnblockedWhenAncestorsSucceed(oracle, ops, run, i);
  }

  lemma {:induction false} BlockedHasFailedAncestor(ops: seq<PlannedOperation>, results: Results, i: nat)
    requires i < |ops| && !Unblocked(ops[i], results)
    ensures !AllAncestorsSucceeded(ops, ops[i].id, results)
  {
    var dependencies := DirectDependencies(ops[i]);
    BlockersMeaning(dependencies, results);
    var blocker := Blockers(dependencies, results)[0];
    assert blocker in Blockers(dependencies, results);
    assert DirectlyDepends(ops, ops[i].id, blocker);
    DirectIsTransitive(ops, ops[i].id, blocker);
  }

  lemma {:induction false} UnblockedWhenAncestorsSucceed(oracle: Oracle, ops: seq<PlannedOperation>, run: Run, i: nat)
    requires Describes(oracle, ops, run) && i < |ops|
    ensures Unblocked(ops[i], run.results) <==> AllAncestorsSucceeded(ops, ops[i].id, run.results)
  {
    if Unblocked(ops[i], run.results) {
      FreeIsSuccessClosed(oracle, ops, run);
      forall ancestor | DependsOn(ops, ops[i].id, ancestor)
        ensures Succeeded(run.results, ancestor)
      {
        var path :| Leads(ops, path, ops[i].id, ancestor);
        ChainSucceeded(ops, run.results, Free(ops, run.results), path, |path| - 1);
      }
    } else {
      BlockedHasFailedAncestor(ops, run.results, i);
    }
  }

  /**
   * Results line up with the plan, and a blocked operation names exactly its direct dependencies that
   * did not succeed, each once and in their order.
   */
  lemma {:induction false} ResultsLineUp(oracle: Oracle, ops: seq<PlannedOperation>)
    requires RunPlan(oracle, ops).stopped.None?
    ensures var run := RunPlan(oracle, ops);
            && (forall i :: 0 <= i < |run.order| ==> run.order[i] in run.results)
            && |ResultsInOrder(run)| == |ops|
            && forall i :: 0 <= i < |ops| ==>
                 var result := ResultsInOrder(run)[i];
                 && result.operationId == ops[i].id
                 && (forall d :: d in result.blockedBy <==>
                       d in ops[i].dependencies + BindingSources(ops[i].bindings) && !Succeeded(run.results, d))
                 && NoRepeats(result.blockedBy)
                 && KeepsOrder(result.blockedBy, ops[i].dependencies + BindingSources(ops[i].bindings))
                 && (result.blockedBy != [] <==> result.status == Blocked)
  {
    RunMeaning(oracle, ops);
    var run := RunPlan(oracle, ops);
    forall i | 0 <= i < |run.order|
      ensures run.order[i] in run.results
    {
      assert ops[i].id in Ids(ops);
    }
    forall i | 0 <= i < |ops|
      ensures var result := ResultsInOrder(run)[i];
              && result.operationId == ops[i].id
              && (forall d :: d in result.blockedBy <==>
                    d in ops[i].dependencies + BindingSources(ops[i].bindings) && !Succeeded(run.results, d))
              && NoRepeats(result.blockedBy)
              && KeepsOrder(result.blockedBy, ops[i].dependencies + BindingSources(ops[i].bindings))
              && (result.blockedBy != [] <==> result.status == Blocked)
    {
      assert Settled(oracle, ops[i], run.results);
      ResultOfSettled(oracle, ops[i], run.results);
    }
  }

  lemma {:induction false} ResultOfSettled(oracle: Oracle, op: PlannedOperation, results: Results)
    requires Settled(oracle, op, results)
    ensures var result := results[op.id];
            && result.operationId == op.id
            && (forall d :: d in result.blockedBy <==>
                  d in op.dependencies + BindingSources(op.bindings) && !Succeeded(results, d))
            && NoRepeats(result.blockedBy)
            && KeepsOrder(result.blockedBy, op.dependencies + BindingSources(op.bindings))
            && (result.blockedBy != [] <==> result.status == Blocked)
  {
    var dependencies := DirectDependencies(op);
    DedupMeaning(op.dependencies + BindingSources(op.bindings));
    BlockersMeaning(dependencies, results);
    BlockersDistinct(dependencies, results);
    DedupKeepsOrder(op.dependencies + BindingSources(op.bindings));
    BlockersKeepOrder(dependencies, results, op.dependencies + BindingSources(op.bindings));
    var blockers := Blockers(dependencies, results);
    assert blockers == [] || blockers[0] in blockers;
    assert forall d :: d in blockers <==> d in op.dependencies + BindingSources(op.bindings) && !Succeeded(results, d);
  }

  lemma {:induction false} BlockersDistinct(dependencies: seq<string>, results: Results)
    requires NoRepeats(dependencies)
    ensures NoRepeats(Blockers(dependencies, results))
  {
    if dependencies != [] {
      var head, last := dependencies[..|dependencies| - 1], dependencies[|dependencies| - 1];
      assert last !in head;
      BlockersDistinct(head, results);
      BlockersMeaning(head, results);
    }
  }

  lemma {:induction false} BlockersKeepOrder(dependencies: seq<string>, results: Results, all: seq<string>)
    requires KeepsOrder(dependencies, all)
    ensures KeepsOrder(Blockers(dependencies, results), all)
  {
    if dependencies != [] {
      var n := |dependencies| - 1;
      var head, last := dependencies[..n], dependencies[n];
      assert forall i :: 0 <= i < n ==> head[i] == dependencies[i];
      BlockersKeepOrder(head, results, all);
      BlockersMeaning(head, results);
      var r := Blockers(dependencies, results);
      forall i, j, k, m | 0 <= i < j < |r| && FirstAt(all, r[i], k) && FirstAt(all, r[j], m)
        ensures k < m
      {
        if j < |Blockers(head, results)| {
          assert r[i] == Blockers(head, results)[i] && r[j] == Blockers(head, results)[j];
        } else {
          assert r[j] == last && r[i] in head;
          var h :| 0 <= h < n && dependencies[h] == r[i];
        }
      }
    }
  }

  // ----- failure isolation -----

  ghost predicate AgreeOutside(a: Oracle, b: Oracle, changed: set<string>) {
    forall id :: id !in changed ==> a(id) == b(id)
  }

  /** In the cone of the changed operations: one of them, or a transitive dependent of one. */
  ghost predicate Affected(ops: seq<PlannedOperation>, changed: set<string>, id: string) {
    id in changed || exists c :: c in changed && DependsOn(ops, id, c)
  }

  lemma {:induction false} DependencyUnaffected(ops: seq<PlannedOperation>, changed: set<string>, id: string,
      dependency: string)
    requires !Affected(ops, changed, id) && DirectlyDepends(ops, id, dependency)
    ensures !Affected(ops, changed, dependency)
  {
    if dependency in changed {
      DirectIsTransitive(ops, id, dependency);
    } else if c :| c in changed && DependsOn(ops, dependency, c) {
      DependsFurther(ops, id, dependency, c);
    }
  }

  lemma {:induction false} SameDependenciesSameBlockers(dependencies: seq<string>, a: Results, b: Results)
    requires forall d :: d in dependencies ==> d in a && d in b && a[d] == b[d]
    ensures Blockers(dependencies, a) == Blockers(dependencies, b)
  {
    if dependencies != [] {
      SameDependenciesSameBlockers(dependencies[..|dependencies| - 1], a, b);
    }
  }

  lemma {:induction false} SameSourcesSameFields(op: PlannedOperation, n: nat, a: Results, b: Results)
    requires n <= |op.bindings|
    requires forall k :: 0 <= k < |op.bindings| ==>
               var s := op.bindings[k].source; s in a && s in b && a[s] == b[s]
    ensures ResolveFields(op, n, a) == ResolveFields(op, n, b)
  {
    if n > 0 {
      SameSourcesSameFields(op, n - 1, a, b);
    }
  }

  lemma {:induction false} SameDependenciesSameStep(op: PlannedOperation, a: Results, b: Results)
    requires forall d :: d in DirectDependencies(op) ==> d in a && d in b && a[d] == b[d]
    ensures Blockers(DirectDependencies(op), a) == Blockers(DirectDependencies(op), b)
    ensures Resolve(op, a) == Resolve(op, b)
  {
    SameDependenciesSameBlockers(DirectDependencies(op), a, b);
    DirectDependenciesMeaning(op);
    assert forall k :: 0 <= k < |op.bindings| ==> BindingSources(op.bindings)[k] == op.bindings[k].source;
    SameSourcesSameFields(op, |op.bindings|, a, b);
  }

  lemma {:induction false} UnaffectedResult(a: Oracle, b: Oracle, ops: seq<PlannedOperation>, ra: Run, rb: Run,
      changed: set<string>, i: nat)
    requires Describes(a, ops, ra) && Describes(b, ops, rb) && AgreeOutside(a, b, changed)
    requires i < |ops| && !Affected(ops, changed, ops[i].id)
    ensures ra.results[ops[i].id] == rb.results[ops[i].id]
    ensures Unblocked(ops[i], ra.results) == Unblocked(ops[i], rb.results)
    ensures Resolve(ops[i], ra.results) == Resolve(ops[i], rb.results)
    decreases i
  {
    var op := ops[i];
    forall d | d in DirectDependencies(op)
      ensures d in ra.results && d in rb.results && ra.results[d] == rb.results[d]
    {
      assert d in Ids(ops[..i]);
      var j :| 0 <= j < i && ops[..i][j].id == d;
      assert DirectlyDepends(ops, op.id, d);
      DependencyUnaffected(ops, changed, op.id, d);
      UnaffectedResult(a, b, ops, ra, rb, changed, j);
      assert ops[j].id in Ids(ops);
    }
    SameDependenciesSameStep(op, ra.results, rb.results);
    assert Settled(a, op, ra.results) && Settled(b, op, rb.results);
  }

  /** The commands sent for operations outside a set, in order. */
  function SentOutside(sent: seq<SentCommand>, affected: set<string>): seq<SentCommand> {
    if sent == [] then []
    else
      var last := sent[|sent| - 1];
      SentOutside(sent[..|sent| - 1], affected) + if last.operationId in affected then [] else [last]
  }

  lemma {:induction false} SentOutsideFor(sent: seq<SentCommand>, op: PlannedOperation, results: Results,
      affected: set<string>)
    ensures SentOutside(sent + SentFor(op, results), affected)
            == SentOutside(sent, affected) + if op.id in affected then [] else SentFor(op, results)
  {
    var more := SentFor(op, results);
    if more == [] {
      assert sent + more == sent;
    } else {
      assert (sent + more)[..|sent|] == sent;
    }
  }

  lemma {:induction false} UnaffectedSent(ops: seq<PlannedOperation>, a: Results, b: Results, affected: set<string>)
    requires forall i :: 0 <= i < |ops| && ops[i].id !in affected ==> SentFor(ops[i], a) == SentFor(ops[i], b)
    ensures SentOutside(SentBy(ops, a), affected) == SentOutside(SentBy(ops, b), affected)
  {
    if ops != [] {
      var head, last := ops[..|ops| - 1], ops[|ops| - 1];
      UnaffectedSent(head, a, b, affected);
      SentOutsideFor(SentBy(head, a), last, a, affected);
      SentOutsideFor(SentBy(head, b), last, b, affected);
    }
  }

  ghost function AffectedIds(ops: seq<PlannedOperation>, changed: set<string>): set<string> {
    set id | id in Ids(ops) && Affected(ops, changed, id)
  }

  lemma {:induction false} SentOutsideGrows(sent: seq<SentCommand>, more: seq<SentCommand>, affected: set<string>)
    requires sent <= more
    ensures SentOutside(sent, affected) <= SentOutside(more, affected)
    decreases |more|
  {
    if |sent| < |more| {
      SentOutsideGrows(sent, more[..|more| - 1], affected);
    } else {
      assert sent == more;
    }
  }

  /** What depends on something in a prefix of the plan depends on it in the plan. */
  lemma {:induction false} PrefixDependsOn(ops: seq<PlannedOperation>, n: nat, id: string, ancestor: string)
    requires n <= |ops| && DependsOn(ops[..n], id, ancestor)
    ensures DependsOn(ops, id, ancestor)
  {
    var path :| Leads(ops[..n], path, id, ancestor);
    forall k: nat | k + 1 < |path|
      ensures LinkAt(ops, path, k)
    {
      assert LinkAt(ops[..n], path, k);
      var i :| 0 <= i < n && ops[..n][i].id == path[k] && path[k + 1] in DirectDependencies(ops[..n][i]);
      assert ops[i] == ops[..n][i];
    }
    assert Leads(ops, path, id, ancestor);
  }

  lemma {:induction false} PrefixUnaffected(ops: seq<PlannedOperation>, n: nat, changed: set<string>, id: string)
    requires n <= |ops| && !Affected(ops, changed, id)
    ensures !Affected(ops[..n], changed, id)
  {
    if c :| c in changed && DependsOn(ops[..n], id, c) {
      PrefixDependsOn(ops, n, id, c);
    }
  }

  /** Two returned runs of the same operations agree outside any set that covers what is affected. */
  lemma {:induction false} ReturnedRunsAgree(a: Oracle, b: Oracle, ops: seq<PlannedOperation>, ra: Run, rb: Run,
      changed: set<string>, affected: set<string>)
    requires Describes(a, ops, ra) && Describes(b, ops, rb) && AgreeOutside(a, b, changed)
    requires forall i :: 0 <= i < |ops| && ops[i].id !in affected ==> !Affected(ops, changed, ops[i].id)
    ensures forall id :: id in Ids(ops) && id !in affected ==> ra.results[id] == rb.results[id]
    ensures SentOutside(ra.sent, affected) == SentOutside(rb.sent, affected)
  {
    forall i | 0 <= i < |ops| && ops[i].id !in affected
      ensures SentFor(ops[i], ra.results) == SentFor(ops[i], rb.results)
      ensures ra.results[ops[i].id] == rb.results[ops[i].id]
    {
      UnaffectedResult(a, b, ops, ra, rb, changed, i);
    }
    UnaffectedSent(ops, ra.results, rb.results, affected);
  }

  /** An unaffected step taken from results that agree on its dependencies aborts with the same command sent. */
  lemma {:induction false} SameAbort(a: Oracle, b: Oracle, ra: Run, rb: Run, op: PlannedOperation)
    returns (command: CrmCommand)
    requires ra.stopped.None? && rb.stopped.None? && ra.results.Keys == rb.results.Keys && a(op.id) == b(op.id)
    requires forall d :: d in DirectDependencies(op) && d in ra.results ==> ra.results[d] == rb.results[d]
    requires Step(a, ra, op).stopped.Some? && Step(a, ra, op).sent != ra.sent
    ensures Step(b, rb, op).stopped.Some?
    ensures Step(a, ra, op).sent == ra.sent + [SentCommand(op.id, command)]
    ensures Step(b, rb, op).sent == rb.sent + [SentCommand(op.id, command)]
  {
    assert FirstMissing(DirectDependencies(op), ra.results).None?;
    SameDependenciesSameStep(op, ra.results, rb.results);
    assert FirstMissing(DirectDependencies(op), rb.results).None?;
    command := Resolve(op, ra.results).value;
  }

  lemma {:induction false} SentByStep(oracle: Oracle, before: Run, op: PlannedOperation, affected: set<string>)
    requires op.id in affected
    ensures SentOutside(Step(oracle, before, op).sent, affected) == SentOutside(before.sent, affected)
  {
    var command := SendsAtMostOne(oracle, before, op);
    if command.Some? {
      assert (before.sent + [command.value])[..|before.sent|] == before.sent;
    }
  }

  lemma {:induction false} SendsAtMostOne(oracle: Oracle, before: Run, op: PlannedOperation)
    returns (command: Option<SentCommand>)
    ensures command.Some? ==> command.value.operationId == op.id
    ensures Step(oracle, before, op).sent == before.sent + if command.Some? then [command.value] else []
  {
    var resolved := Resolve(op, before.results);
    command := if Step(oracle, before, op).sent == before.sent then None
               else Some(SentCommand(op.id, if resolved.Ok? then resolved.value else op.command));
  }

  /** The operations that completed in one run agree with another run that got at least as far. */
  lemma {:induction false} CompletedAgree(a: Oracle, b: Oracle, ops: seq<PlannedOperation>, changed: set<string>,
      n: nat, da: Run, db: Run)
    requires AgreeOutside(a, b, changed) && n <= |ops|
    requires Describes(a, ops[..n], da) && Describes(b, ops[..n], db)
    ensures forall id :: id in da.results && id !in AffectedIds(ops, changed) ==>
              id in db.results && da.results[id] == db.results[id]
    ensures SentOutside(da.sent, AffectedIds(ops, changed)) == SentOutside(db.sent, AffectedIds(ops, changed))
  {
    var affected := AffectedIds(ops, changed);
    forall i | 0 <= i < n && ops[..n][i].id !in affected
      ensures !Affected(ops[..n], changed, ops[..n][i].id)
    {
      assert ops[i].id in Ids(ops);
      PrefixUnaffected(ops, n, changed, ops[i].id);
    }
    ReturnedRunsAgree(a, b, ops[..n], da, db, changed, affected);
  }

  lemma {:induction false} UnaffectedDependenciesAgree(a: Oracle, b: Oracle, ops: seq<PlannedOperation>,
      changed: set<string>, n: nat, da: Run, db: Run)
    requires AgreeOutside(a, b, changed) && n < |ops| && ops[n].id !in AffectedIds(ops, changed)
    requires Describes(a, ops[..n], da) && Describes(b, ops[..n], db)
    ensures forall d :: d in DirectDependencies(ops[n]) && d in da.results ==> da.results[d] == db.results[d]
    ensures a(ops[n].id) == b(ops[n].id)
  {
    var op := ops[n];
    CompletedAgree(a, b, ops, changed, n, da, db);
    assert op.id in Ids(ops);
    forall d | d in DirectDependencies(op) && d in da.results
      ensures da.results[d] == db.results[d]
    {
      assert DirectlyDepends(ops, op.id, d);
      DependencyUnaffected(ops, changed, op.id, d);
      assert d !in AffectedIds(ops, changed);
    }
  }

  lemma {:induction false} SameLastSent(x: seq<SentCommand>, y: seq<SentCommand>, last: SentCommand,
      affected: set<string>)
    requires SentOutside(x, affected) == SentOutside(y, affected)
    ensures SentOutside(x + [last], affected) == SentOutside(y + [last], affected)
  {
    assert (x + [last])[..|x|] == x && (y + [last])[..|y|] == y;
  }

  lemma {:induction false} StopsAtStep(oracle: Oracle, ops: seq<PlannedOperation>, n: nat)
    requires n < |ops| && Step(oracle, RunPlan(oracle, ops[..n]), ops[n]).stopped.Some?
    ensures RunPlan(oracle, ops) == Step(oracle, RunPlan(oracle, ops[..n]), ops[n])
  {
    assert ops[..n + 1][..n] == ops[..n];
    StoppedRunStays(oracle, ops, n + 1);
  }

  /** If an unaffected operation aborts one run after sending its command, it does the same to the other. */
  lemma {:induction false} AbortsAlike(a: Oracle, b: Oracle, ops: seq<PlannedOperation>, changed: set<string>, n: nat,
      da: Run, db: Run)
    requires AgreeOutside(a, b, changed) && n < |ops| && ops[n].id !in AffectedIds(ops, changed)
    requires Describes(a, ops[..n], da) && Describes(b, ops[..n], db)
    requires db == RunPlan(b, ops[..n]) && da.stopped.None? && db.stopped.None?
    requires Step(a, da, ops[n]).stopped.Some? && Step(a, da, ops[n]).sent != da.sent
    ensures SentOutside(Step(a, da, ops[n]).sent, AffectedIds(ops, changed))
         == SentOutside(RunPlan(b, ops).sent, AffectedIds(ops, changed))
  {
    UnaffectedDependenciesAgree(a, b, ops, changed, n, da, db);
    var command := SameAbort(a, b, da, db, ops[n]);
    StopsAtStep(b, ops, n);
    assert SentOutside(da.sent, AffectedIds(ops, changed)) == SentOutside(db.sent, AffectedIds(ops, changed)) by {
      CompletedAgree(a, b, ops, changed, n, da, db);
    }
    SameLastSent(da.sent, db.sent, SentCommand(ops[n].id, command), AffectedIds(ops, changed));
  }

  lemma {:induction false} ShorterRunAgrees(a: Oracle, b: Oracle, ops: seq<PlannedOperation>, changed: set<string>)
    requires AgreeOutside(a, b, changed) && |RunPlan(a, ops).order| <= |RunPlan(b, ops).order|
    ensures forall id :: id in RunPlan(a, ops).results && id !in AffectedIds(ops, changed) ==>
              id in RunPlan(b, ops).results && RunPlan(a, ops).results[id] == RunPlan(b, ops).results[id]
    ensures SentOutside(RunPlan(a, ops).sent, AffectedIds(ops, changed))
         <= SentOutside(RunPlan(b, ops).sent, AffectedIds(ops, changed))
  {
    var ra, rb, affected := RunPlan(a, ops), RunPlan(b, ops), AffectedIds(ops, changed);
    var n := |ra.order|;
    CompletedPrefix(a, ops);
    CompletedPrefix(b, ops);
    var da, db := RunPlan(a, ops[..n]), RunPlan(b, ops[..n]);
    assert ops[..|rb.order|][..n] == ops[..n];
    PrefixRuns(b, ops[..|rb.order|], n);
    RunMeaning(a, ops[..n]);
    RunMeaning(b, ops[..n]);
    CompletedAgree(a, b, ops, changed, n, da, db);
    RunExtends(b, ops, n);
    SentOutsideGrows(db.sent, rb.sent, affected);
    if ra.stopped.Some? && ra.sent != da.sent {
      if ops[n].id in affected {
        SentByStep(a, da, ops[n], affected);
      } else {
        AbortsAlike(a, b, ops, changed, n, da, db);
      }
    }
  }

  /**
   * Failures stay inside their dependency cone: if the CRM answers differently only for `changed`, every
   * operation outside the cone has the same result in both runs, and the commands sent for those operations are
   * the same, in the same order. A run that was aborted earlier just has fewer of them.
   */
  lemma {:induction false} FailuresStayInTheirCone(a: Oracle, b: Oracle, ops: seq<PlannedOperation>,
      changed: set<string>)
    requires AgreeOutside(a, b, changed)
    ensures var ra, rb, affected := RunPlan(a, ops), RunPlan(b, ops), AffectedIds(ops, changed);
            && (forall id :: id in ra.results && id in rb.results && id !in affected ==>
                  ra.results[id] == rb.results[id])
            && (|ra.order| <= |rb.order| ==> SentOutside(ra.sent, affected) <= SentOutside(rb.sent, affected))
            && (|rb.order| <= |ra.order| ==> SentOutside(rb.sent, affected) <= SentOutside(ra.sent, affected))
    ensures var ra, rb, affected := RunPlan(a, ops), RunPlan(b, ops), AffectedIds(ops, changed);
            ra.stopped.None? && rb.stopped.None? ==>
              && (forall id :: id in Ids(ops) ==> id in ra.results && id in rb.results)
              && SentOutside(ra.sent, affected) == SentOutside(rb.sent, affected)
  {
    var ra, rb := RunPlan(a, ops), RunPlan(b, ops);
    if |ra.order| <= |rb.order| {
      ShorterRunAgrees(a, b, ops, changed);
    }
    if |rb.order| <= |ra.order| {
      ShorterRunAgrees(b, a, ops, changed);
    }
    if ra.stopped.None? && rb.stopped.None? {
      RunMeaning(a, ops);
      RunMeaning(b, ops);
    }
  }

  // ----- checked plans never get stuck -----

  lemma {:induction false} FieldsResolve(op: PlannedOperation, n: nat, results: Results)
    requires n <= |op.bindings|
    requires forall k :: 0 <= k < |op.bindings| ==> BoundId(op, op.bindings[k], results).Ok?
    ensures ResolveFields(op, n, results).Ok?
  {
    if n > 0 {
      FieldsResolve(op, n - 1, results);
    }
  }

  /** Successful results carry an id unless their operation added an address. */
  ghost predicate CarriesIds(ops: seq<PlannedOperation>, results: Results) {
    forall i :: 0 <= i < |ops| && Succeeded(results, ops[i].id) && !ops[i].command.AddAddress? ==>
                results[ops[i].id].crmId.Some?
  }

  lemma {:induction false} SettledCarriesIds(oracle: Oracle, ops: seq<PlannedOperation>, results: Results)
    requires AllSettled(oracle, ops, results)
    ensures CarriesIds(ops, results)
  {
    forall i | 0 <= i < |ops| && Succeeded(results, ops[i].id) && !ops[i].command.AddAddress?
      ensures results[ops[i].id].crmId.Some?
    {
      assert Settled(oracle, ops[i], results);
    }
  }

  lemma {:induction false} UnblockedResolves(ops: seq<PlannedOperation>, n: nat, results: Results)
    requires n < |ops| && NoAddressSource(ops) && Ordered(ops)
    requires results.Keys == Ids(ops[..n]) && CarriesIds(ops[..n], results)
    requires Unblocked(ops[n], results)
    ensures Resolve(ops[n], results).Ok?
  {
    var op := ops[n];
    BlockersMeaning(DirectDependencies(op), results);
    DirectDependenciesMeaning(op);
    forall k | 0 <= k < |op.bindings|
      ensures BoundId(op, op.bindings[k], results).Ok?
    {
      var source := op.bindings[k].source;
      assert BindingSources(op.bindings)[k] == source;
      assert source in DirectDependencies(op);
      assert Succeeded(results, source);
      assert source in Ids(ops[..n]);
      var j :| 0 <= j < n && ops[..n][j].id == source;
      assert ops[j].id == op.bindings[k].source && ops[..n][j] == ops[j];
    }
    FieldsResolve(op, |op.bindings|, results);
  }

  lemma {:induction false} SourcesHaveResults(ops: seq<PlannedOperation>, n: nat, results: Results)
    requires n < |ops| && Ordered(ops) && results.Keys == Ids(ops[..n])
    ensures forall d :: d in DirectDependencies(ops[n]) ==> d in results
  {
    DirectDependenciesMeaning(ops[n]);
    forall d | d in DirectDependencies(ops[n])
      ensures d in results
    {
      assert d in Sources(ops[n]) by {
        assert d in ops[n].dependencies || d in BindingSources(ops[n].bindings);
      }
      assert SourcesIn(ops[n], Ids(ops[..n]));
    }
  }

  lemma {:induction false} PrefixRunsSafely(oracle: Oracle, ops: seq<PlannedOperation>, n: nat)
    requires n <= |ops| && UniqueIds(ops) && Ordered(ops) && NoAddressSource(ops)
    ensures var run := RunPlan(oracle, ops[..n]); run.stopped.Some? ==> run.stopped.value.GatewayFailure?
  {
    if n > 0 {
      PrefixRunsSafely(oracle, ops, n - 1);
      assert ops[..n][..n - 1] == ops[..n - 1];
      var before := RunPlan(oracle, ops[..n - 1]);
      if before.stopped.None? {
        RunMeaning(oracle, ops[..n - 1]);
        SettledCarriesIds(oracle, ops[..n - 1], before.results);
        LastIsNew(ops[..n]);
        SourcesHaveResults(ops, n - 1, before.results);
        if Unblocked(ops[n - 1], before.results) {
          UnblockedResolves(ops, n - 1, before.results);
        }
        StepSafe(oracle, before, ops[n - 1]);
      }
    }
  }

  lemma {:induction false} StepSafe(oracle: Oracle, before: Run, op: PlannedOperation)
    requires before.stopped.None? && op.id !in before.results
    requires forall d :: d in DirectDependencies(op) ==> d in before.results
    requires Unblocked(op, before.results) ==> Resolve(op, before.results).Ok?
    ensures var run := Step(oracle, before, op); run.stopped.Some? ==> run.stopped.value.GatewayFailure?
  {
  }

  ghost predicate NeverStuck(ops: seq<PlannedOperation>) {
    forall oracle: Oracle ::
      RunPlan(oracle, ops).stopped.Some? ==> !IsInvariantError(RunPlan(oracle, ops).stopped.value)
  }

  /** Every operation succeeds as far as the CRM is concerned. */
  function AlwaysCreated(): Oracle {
    (id: string) => Created(1)
  }

  lemma {:induction false} AllSucceed(ops: seq<PlannedOperation>, results: Results, i: nat)
    requires DependenciesEarlier(ops) && AllSettled(AlwaysCreated(), ops, results) && i < |ops|
    ensures Succeeded(results, ops[i].id) && Unblocked(ops[i], results)
    ensures results[ops[i].id].crmId == ReturnedId(ops[i].command, 1)
    decreases i
  {
    var op := ops[i];
    BlockersMeaning(DirectDependencies(op), results);
    var blockers := Blockers(DirectDependencies(op), results);
    assert blockers == [] || blockers[0] in blockers;
    forall d | d in DirectDependencies(op)
      ensures Succeeded(results, d)
    {
      assert d in Ids(ops[..i]);
      var j :| 0 <= j < i && ops[..i][j].id == d;
      AllSucceed(ops, results, j);
    }
    assert Settled(AlwaysCreated(), op, results);
  }

  lemma {:induction false} FieldsResolveOnlyIf(op: PlannedOperation, n: nat, results: Results)
    requires n <= |op.bindings| && ResolveFields(op, n, results).Ok?
    ensures forall k :: 0 <= k < n ==> BoundId(op, op.bindings[k], results).Ok?
  {
    if n > 0 {
      FieldsResolveOnlyIf(op, n - 1, results);
    }
  }

  /** A CRM that answers every request leaves only the executor's own errors to stop a run. */
  lemma {:induction false} AnsweringCrmNeverAborts(oracle: Oracle, ops: seq<PlannedOperation>)
    requires forall id :: !oracle(id).GatewayError?
    ensures var run := RunPlan(oracle, ops); run.stopped.Some? ==> IsInvariantError(run.stopped.value)
  {
    if ops != [] {
      AnsweringCrmNeverAborts(oracle, ops[..|ops| - 1]);
      var before, op := RunPlan(oracle, ops[..|ops| - 1]), ops[|ops| - 1];
      if before.stopped.None? {
        var r := Resolve(op, before.results);
        if r.Err? {
          ResolveErrors(op, |op.bindings|, before.results);
        }
      }
    }
  }

  lemma {:induction false} ResolveErrors(op: PlannedOperation, n: nat, results: Results)
    requires n <= |op.bindings| && ResolveFields(op, n, results).Err?
    ensures IsInvariantError(ResolveFields(op, n, results).error)
  {
    if n > 0 && ResolveFields(op, n - 1, results).Err? {
      ResolveErrors(op, n - 1, results);
    }
  }

  /**
   * An accepted plan can hit an executor invariant error under some CRM behaviour exactly when one of its
   * bindings takes an id from an address operation. The validator does not check that.
   */
  lemma {:induction false} AcceptedPlanStuckExactlyOnAddressSource(structure: CrmStructure, ops: seq<PlannedOperation>)
    requires Accepted(structure, ops)
    ensures NeverStuck(ops) <==> NoAddressSource(ops)
  {
    assert ops[..|ops|] == ops;
    if NoAddressSource(ops) {
      forall oracle: Oracle | RunPlan(oracle, ops).stopped.Some?
        ensures !IsInvariantError(RunPlan(oracle, ops).stopped.value)
      {
        PrefixRunsSafely(oracle, ops, |ops|);
      }
    } else {
      var i, k, j :| 0 <= i < |ops| && 0 <= k < |ops[i].bindings| && 0 <= j < |ops|
                     && ops[j].id == ops[i].bindings[k].source && ops[j].command.AddAddress?;
      AddressSourceStops(ops, i, k, j);
      AnsweringCrmNeverAborts(AlwaysCreated(), ops);
    }
  }

  lemma {:induction false} AddressSourceStops(ops: seq<PlannedOperation>, i: nat, k: nat, j: nat)
    requires i < |ops| && k < |ops[i].bindings| && j < |ops|
    requires ops[j].id == ops[i].bindings[k].source && ops[j].command.AddAddress?
    ensures RunPlan(AlwaysCreated(), ops).stopped.Some?
  {
    var run := RunPlan(AlwaysCreated(), ops);
    if run.stopped.None? {
      RunMeaning(AlwaysCreated(), ops);
      AllSucceed(ops, run.results, i);
      AllSucceed(ops, run.results, j);
      assert Settled(AlwaysCreated(), ops[i], run.results);
      FieldsResolveOnlyIf(ops[i], |ops[i].bindings|, run.results);
    }
  }
}
