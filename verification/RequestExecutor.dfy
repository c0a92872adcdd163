/**
 * RequestExecutor: the attempt loop of the gateway. It retries only SAFE requests, remembers the reset times
 * the portal reports, turns an exceeded operation limit into a cooldown, and says UNKNOWN when a request that
 * must not be repeated may have taken effect.
 */
module RequestExecutor {
  import opened Wrappers
  import opened Limits

  datatype RetryPolicy = Safe | Never
  datatype ExecutionStatus = Success | Failed | Unknown

  /** What one transport call came to; `data` stands for the response body. */
  datatype Attempt =
    | TransportError(message: string, outcomeUncertain: bool)
    | Response(data: int, httpStatus: int, errorCode: Option<string>, errorMessage: Option<string>,
               operatingResetAt: Option<real>)

  datatype GatewayResult = GatewayResult(
    status: ExecutionStatus, data: Option<int>, httpStatus: Option<int>, errorCode: Option<string>,
    errorMessage: Option<string>, attemptCount: nat)

  const QUERY_LIMIT_ERROR := "QUERY_LIMIT_EXCEEDED"
  const OPERATION_LIMIT_ERROR := "OPERATION_TIME_LIMIT"

  predicate IsSuccess(a: Attempt) {
    a.Response? && 200 <= a.httpStatus < 300 && a.errorCode == None
  }

  predicate IsOperationLimit(a: Attempt) {
    a.Response? && a.errorCode == Some(OPERATION_LIMIT_ERROR)
  }

  predicate ShouldRetryResponse(policy: RetryPolicy, maxAttempts: nat, a: Attempt, attempt: nat)
    requires a.Response?
  {
    policy == Safe && attempt < maxAttempts && (a.errorCode == Some(QUERY_LIMIT_ERROR) || a.httpStatus >= 500)
  }

  predicate IsUncertainResponse(policy: RetryPolicy, a: Attempt)
    requires a.Response?
  {
    policy == Never && a.httpStatus >= 500 && a.errorCode !in {Some(QUERY_LIMIT_ERROR), Some(OPERATION_LIMIT_ERROR)}
  }

  function TransportFailure(policy: RetryPolicy, a: Attempt, attempt: nat): GatewayResult
    requires a.TransportError?
  {
    GatewayResult(if policy == Never && a.outcomeUncertain then Unknown else Failed, None, None,
                  Some("TRANSPORT_ERROR"), Some(a.message), attempt)
  }

  function SuccessResult(a: Attempt, attempt: nat): GatewayResult
    requires a.Response?
  {
    GatewayResult(Success, Some(a.data), Some(a.httpStatus), None, None, attempt)
  }

  function Rejection(status: ExecutionStatus, a: Attempt, attempt: nat): GatewayResult
    requires a.Response?
  {
    GatewayResult(status, None, Some(a.httpStatus), a.errorCode, a.errorMessage, attempt)
  }

  /** The result an attempt ends the request with, or None when the loop goes on to another attempt. */
  function Conclusion(policy: RetryPolicy, maxAttempts: nat, a: Attempt, attempt: nat): Option<GatewayResult> {
    match a
    case TransportError(_, _) =>
      if policy == Safe && attempt < maxAttempts then None else Some(TransportFailure(policy, a, attempt))
    case Response(_, _, _, _, _) =>
      if IsSuccess(a) then Some(SuccessResult(a, attempt))
      else if IsOperationLimit(a) then Some(Rejection(Failed, a, attempt))
      else if ShouldRetryResponse(policy, maxAttempts, a, attempt) then None
      else if IsUncertainResponse(policy, a) then Some(Rejection(Unknown, a, attempt))
      else Some(Rejection(Failed, a, attempt))
  }

  /** The loop from the given attempt on, when attempt k comes to `script(k)`; None is its final RuntimeError. */
  function Attempts(policy: RetryPolicy, maxAttempts: nat, script: nat -> Attempt, attempt: nat): Option<GatewayResult>
    decreases maxAttempts + 1 - attempt
  {
    if attempt > maxAttempts then None
    else
      var conclusion := Conclusion(policy, maxAttempts, script(attempt), attempt);
      if conclusion.Some? then conclusion else Attempts(policy, maxAttempts, script, attempt + 1)
  }

  // ----- what the loop comes to, for every script -----

  /** A response or transport failure after which a SAFE request may be sent again. */
  ghost predicate Retryable(a: Attempt) {
    match a
    case TransportError(_, _) => true
    case Response(_, status, code, _, _) =>
      code != Some("OPERATION_TIME_LIMIT") && (code == Some("QUERY_LIMIT_EXCEEDED") || status >= 500)
  }

  /** The portal refused the method for exceeding its operation time. */
  ghost predicate ReportsLimit(a: Attempt) {
    a.Response? && a.errorCode == Some("OPERATION_TIME_LIMIT")
  }

  /** The outcome of a request that must not be repeated cannot be known from its only attempt. */
  ghost predicate Uncertain(a: Attempt) {
    match a
    case TransportError(_, uncertain) => uncertain
    case Response(_, status, code, _, _) =>
      status >= 500 && code != Some("QUERY_LIMIT_EXCEEDED") && code != Some("OPERATION_TIME_LIMIT")
  }

  /** The result repeats what the outcome said: the body of a success, otherwise the error. */
  ghost predicate Tells(r: GatewayResult, last: Attempt) {
    match last
    case TransportError(message, _) =>
      && r.data == None && r.httpStatus == None
      && r.errorCode == Some("TRANSPORT_ERROR") && r.errorMessage == Some(message)
    case Response(data, httpStatus, errorCode, errorMessage, _) =>
      && r.data == (if r.status == Success then Some(data) else None)
      && r.httpStatus == Some(httpStatus) && r.errorCode == errorCode
      && r.errorMessage == (if r.status == Success then None else errorMessage)
  }

  ghost function StatusOf(policy: RetryPolicy, last: Attempt): ExecutionStatus {
    if IsSuccess(last) then Success else if policy == Never && Uncertain(last) then Unknown else Failed
  }

  lemma {:induction false} RunMeaningFrom(policy: RetryPolicy, maxAttempts: nat, script: nat -> Attempt, attempt: nat)
    requires 1 <= attempt <= maxAttempts && (policy == Never ==> attempt == 1)
    ensures var r := Attempts(policy, maxAttempts, script, attempt);
            && r.Some?
            && attempt <= r.value.attemptCount <= maxAttempts
            && (policy == Never ==> r.value.attemptCount == 1)
            && (forall k :: attempt <= k < r.value.attemptCount ==> Retryable(script(k)))
            && (policy == Safe && r.value.attemptCount < maxAttempts ==> !Retryable(script(r.value.attemptCount)))
            && r.value.status == StatusOf(policy, script(r.value.attemptCount))
            && Conclusion(policy, maxAttempts, script(r.value.attemptCount), r.value.attemptCount) == r
    decreases maxAttempts - attempt
  {
    if Conclusion(policy, maxAttempts, script(attempt), attempt) == None {
      RunMeaningFrom(policy, maxAttempts, script, attempt + 1);
    }
  }

  /**
   * For every script the loop ends without its final RuntimeError. It stops at the first outcome that may not
   * be retried: after one attempt under NEVER, at the first non-retryable outcome or the last attempt under
   * SAFE. The status is SUCCESS exactly for a 2xx response without an error code, UNKNOWN exactly for an uncertain
   * last outcome of a request that must not be repeated, and the result carries what that outcome said.
   */
  lemma {:induction false} ExecutionIsDecidedByTheLastAttempt(policy: RetryPolicy, maxAttempts: nat,
      script: nat -> Attempt)
    requires maxAttempts >= 1
    ensures Attempts(policy, maxAttempts, script, 1).Some?
    ensures var r := Attempts(policy, maxAttempts, script, 1).value;
            var n := r.attemptCount;
            && 1 <= n <= maxAttempts
            && (policy == Never ==> n == 1)
            && (forall k :: 1 <= k < n ==> Retryable(script(k)))
            && (policy == Safe && Retryable(script(n)) ==> n == maxAttempts)
            && (r.status == Success <==>
                  script(n).Response? && 200 <= script(n).httpStatus < 300 && script(n).errorCode == None)
            && (r.status == Unknown <==> policy == Never && Uncertain(script(n)))
            && Tells(r, script(n))
  {
    RunMeaningFrom(policy, maxAttempts, script, 1);
  }

  /** Outcomes the loop never looks at do not matter. */
  lemma {:induction false} OnlyTheFirstAttemptsMatter(policy: RetryPolicy, maxAttempts: nat, script: nat -> Attempt,
      other: nat -> Attempt, attempt: nat)
    requires 1 <= attempt <= maxAttempts && (policy == Never ==> attempt == 1)
    requires Attempts(policy, maxAttempts, script, attempt).Some?
    requires forall k | attempt <= k <= Attempts(policy, maxAttempts, script, attempt).value.attemptCount
               :: script(k) == other(k)
    ensures Attempts(policy, maxAttempts, other, attempt) == Attempts(policy, maxAttempts, script, attempt)
    decreases maxAttempts - attempt
  {
    RunMeaningFrom(policy, maxAttempts, script, attempt);
    if Conclusion(policy, maxAttempts, script(attempt), attempt) == None {
      OnlyTheFirstAttemptsMatter(policy, maxAttempts, script, other, attempt + 1);
    }
  }

  // ----- reset times -----

  function Remember(resets: map<string, real>, name: string, a: Attempt): map<string, real> {
    if a.Response? && a.operatingResetAt.Some? then resets[name := a.operatingResetAt.value] else resets
  }

  function RememberAll(resets: map<string, real>, name: string, script: nat -> Attempt, upTo: nat): map<string, real> {
    if upTo == 0 then resets else Remember(RememberAll(resets, name, script, upTo - 1), name, script(upTo))
  }

  /** What is remembered for the method is the latest reset time reported, and other methods' are untouched. */
  lemma {:induction false} LatestResetIsRemembered(resets: map<string, real>, name: string, script: nat -> Attempt,
      upTo: nat, latest: nat)
    requires latest <= upTo
    requires latest > 0 ==> script(latest).Response? && script(latest).operatingResetAt.Some?
    requires forall k | latest < k <= upTo :: script(k).TransportError? || script(k).operatingResetAt == None
    ensures var after := RememberAll(resets, name, script, upTo);
            && (latest > 0 ==> name in after && after[name] == script(latest).operatingResetAt.value)
            && (latest == 0 ==> after == resets)
            && after - {name} == resets - {name}
    decreases upTo
  {
    if upTo > latest {
      LatestResetIsRemembered(resets, name, script, upTo - 1, latest);
    } else if upTo > 0 {
      RememberKeepsOthers(resets, name, script, upTo);
    }
  }

  lemma {:induction false} RememberKeepsOthers(resets: map<string, real>, name: string, script: nat -> Attempt,
      upTo: nat)
    ensures RememberAll(resets, name, script, upTo) - {name} == resets - {name}
  {
    if upTo > 0 {
      RememberKeepsOthers(resets, name, script, upTo - 1);
    }
  }

  // ----- the objects -----

  /** The transport; its n-th call since it was built comes to `script(n)`, whatever that is. */
  class BitrixTransport {
    const clock: Clock
    const script: nat -> Attempt
    var calls: nat
    ghost var sentAt: seq<real>

    constructor (clock: Clock, script: nat -> Attempt)
      ensures this.clock == clock && this.script == script && calls == 0 && sentAt == []
    {
      this.clock, this.script := clock, script;
      calls, sentAt := 0, [];
    }

    method Call() returns (outcome: Attempt)
      modifies this, clock`now
      ensures calls == old(calls) + 1 && outcome == script(calls)
      ensures sentAt == old(sentAt) + [old(clock.now)] && clock.now >= old(clock.now)
    {
      sentAt := sentAt + [clock.now];
      var _ := clock.Monotonic();
      calls := calls + 1;
      outcome := script(calls);
    }
  }

  /** The outcomes of one request, the first of which is call number `before + 1`. */
  function ScriptFrom(script: nat -> Attempt, before: nat): nat -> Attempt {
    (k: nat) => script(before + k)
  }

  /** If the method's reset time is ahead, the log ends in a cooldown that outlasts it, counted from the last send. */
  ghost predicate CooldownFollows(name: string, resets: map<string, real>, wall: real, sentAt: seq<real>,
      log: seq<LimitEvent>)
  {
    name in resets && resets[name] > wall ==>
      && log != [] && sentAt != []
      && var last := log[|log| - 1];
      && last.CooldownSet? && last.name == name
      && last.deadline >= sentAt[|sentAt| - 1] + resets[name] - wall
  }

  /**
   * Once a request has hit the operation limit with a reset time ahead, no later request of its method is admitted
   * before that time, counted from the send that hit it: whatever the log has grown to since, it respects deadlines.
   */
  lemma {:induction false} NoAdmissionBeforeReset(name: string, resets: map<string, real>, wall: real,
      sentAt: seq<real>, log: seq<LimitEvent>, later: seq<LimitEvent>, j: nat)
    requires CooldownFollows(name, resets, wall, sentAt, log) && name in resets && resets[name] > wall
    requires log <= later && DeadlinesRespected(later)
    requires |log| <= j < |later| && later[j].Admitted? && later[j].name == name
    ensures sentAt != [] && later[j].at >= sentAt[|sentAt| - 1] + resets[name] - wall
  {
    assert later[|log| - 1] == log[|log| - 1];
  }

  /** From one position to another each send is at least the delay after the one before it. */
  ghost predicate SendsSpaced(sentAt: seq<real>, from: nat, to: nat, delay: real) {
    to <= |sentAt| && forall c | from < c < to :: sentAt[c - 1] + delay <= sentAt[c]
  }

  /** And the delay has passed since the last of them. */
  ghost predicate DelayPassed(sentAt: seq<real>, from: nat, now: real, delay: real) {
    && SendsSpaced(sentAt, from, |sentAt|, delay)
    && (from < |sentAt| ==> sentAt[|sentAt| - 1] + delay <= now)
  }

  lemma {:induction false} OneMoreSend(sentAt: seq<real>, later: seq<real>, from: nat, now: real, delay: real)
    requires DelayPassed(sentAt, from, now, delay)
    requires sentAt <= later && |later| == |sentAt| + 1 && now <= later[|sentAt|]
    ensures SendsSpaced(later, from, |later|, delay)
  {
  }

  // ----- many requests -----

  datatype Request = Request(name: string, policy: RetryPolicy)

  /** The sends and calls so far, the limit log, the reset times known and the wall time last read. */
  datatype Moment = Moment(sends: nat, calls: nat, log: seq<LimitEvent>, resets: map<string, real>, wall: real)

  /** From position n on the log is about one method. */
  ghost predicate AddsOnly(name: string, log: seq<LimitEvent>, n: nat) {
    forall j | n <= j < |log| :: log[j].name == name
  }

  /** Between two moments a method is attempted n times. */
  ghost predicate Attempted(before: Moment, after: Moment, name: string, n: nat, script: nat -> Attempt) {
    && after.calls == before.calls + n && after.sends == before.sends + n
    && after.resets == RememberAll(before.resets, name, ScriptFrom(script, before.calls), n)
    && before.log <= after.log && AddsOnly(name, after.log, |before.log|)
  }

  lemma {:induction false} OneMoreAttempt(before: Moment, now: Moment, after: Moment, name: string, n: nat,
      script: nat -> Attempt)
    requires Attempted(before, now, name, n, script) && Attempted(now, after, name, 1, script)
    ensures Attempted(before, after, name, n + 1, script)
  {
    assert RememberAll(now.resets, name, ScriptFrom(script, now.calls), 1)
        == Remember(RememberAll(now.resets, name, ScriptFrom(script, now.calls), 0), name, script(now.calls + 1));
  }

  /** What a request does between two moments: the attempt loop on the outcomes from the first moment on. */
  ghost predicate Performs(before: Moment, request: Request, result: GatewayResult, after: Moment, maxAttempts: nat,
      script: nat -> Attempt)
  {
    && Attempts(request.policy, maxAttempts, ScriptFrom(script, before.calls), 1) == Some(result)
    && Attempted(before, after, request.name, result.attemptCount, script)
  }

  /** The first n requests, each performed between its two moments. */
  ghost predicate Performed(requests: seq<Request>, results: seq<GatewayResult>, moments: seq<Moment>, n: nat,
      maxAttempts: nat, script: nat -> Attempt)
  {
    && n == |results| && n <= |requests| && |moments| == n + 1
    && forall i :: 0 <= i < n ==> Performs(moments[i], requests[i], results[i], moments[i + 1], maxAttempts, script)
  }

  lemma {:induction false} PerformedGrows(requests: seq<Request>, results: seq<GatewayResult>, moments: seq<Moment>,
      n: nat, maxAttempts: nat, script: nat -> Attempt, result: GatewayResult, now: Moment)
    requires Performed(requests, results, moments, n, maxAttempts, script) && n < |requests|
    requires Performs(moments[n], requests[n], result, now, maxAttempts, script)
    ensures Performed(requests, results + [result], moments + [now], n + 1, maxAttempts, script)
  {
    var all, more := results + [result], moments + [now];
    forall i | 0 <= i < n + 1
      ensures Performs(more[i], requests[i], all[i], more[i + 1], maxAttempts, script)
    {
      assert i < n ==> more[i] == moments[i] && more[i + 1] == moments[i + 1] && all[i] == results[i];
    }
  }

  /** The request that ended now hit the operation limit, and its method's reset time is ahead. */
  ghost predicate HitLimit(now: Moment, name: string, script: nat -> Attempt) {
    ReportsLimit(script(now.calls)) && name in now.resets && now.resets[name] > now.wall
  }

  /** The sends from one position to another are not before the reset time, counted from the last send before `now`. */
  ghost predicate SendsAwait(now: Moment, name: string, sentAt: seq<real>, from: nat, to: nat) {
    0 < now.sends <= |sentAt| && name in now.resets && to <= |sentAt|
    && forall c | from <= c < to :: sentAt[c] >= sentAt[now.sends - 1] + now.resets[name] - now.wall
  }

  /** If request i hit the limit, request k, a later one of the same method, sends nothing before the reset time. */
  ghost predicate Awaits(requests: seq<Request>, moments: seq<Moment>, script: nat -> Attempt, sentAt: seq<real>,
      i: nat, k: nat)
    requires i < k < |requests| && k + 1 < |moments|
  {
    requests[i].name == requests[k].name && HitLimit(moments[i + 1], requests[i].name, script) ==>
      SendsAwait(moments[i + 1], requests[i].name, sentAt, moments[k].sends, moments[k + 1].sends)
  }

  /** A limit hit at this moment is followed by its cooldown, and everything since only added to the record. */
  ghost predicate Remembered(now: Moment, name: string, script: nat -> Attempt, sentAt: seq<real>, log: seq<LimitEvent>)
  {
    && now.sends <= |sentAt| && now.log <= log
    && (HitLimit(now, name, script) ==> CooldownFollows(name, now.resets, now.wall, sentAt[..now.sends], now.log))
  }

  lemma {:induction false} StaysRemembered(now: Moment, name: string, script: nat -> Attempt, sentAt: seq<real>,
      log: seq<LimitEvent>, later: seq<real>, longer: seq<LimitEvent>)
    requires Remembered(now, name, script, sentAt, log) && sentAt <= later && log <= longer
    ensures Remembered(now, name, script, later, longer)
  {
    assert later[..now.sends] == sentAt[..now.sends];
  }

  lemma {:induction false} SendsStillAwait(now: Moment, name: string, sentAt: seq<real>, later: seq<real>, from: nat,
      to: nat)
    requires SendsAwait(now, name, sentAt, from, to) && sentAt <= later
    ensures SendsAwait(now, name, later, from, to)
  {
  }

  /** The sends a method adds to the record after a limit hit remembered for it. */
  lemma {:induction false} LaterSendsAwait(now: Moment, name: string, script: nat -> Attempt, sentAt: seq<real>,
      log: seq<LimitEvent>, later: seq<LimitEvent>)
    requires Remembered(now, name, script, sentAt, log) && HitLimit(now, name, script)
    requires sentAt == AdmissionTimes(log) && log <= later && sentAt <= AdmissionTimes(later)
    requires DeadlinesRespected(later) && AddsOnly(name, later, |log|)
    ensures SendsAwait(now, name, AdmissionTimes(later), |sentAt|, |AdmissionTimes(later)|)
  {
    assert later[..|log|] == log;
    forall c | |sentAt| <= c < |AdmissionTimes(later)|
      ensures AdmissionTimes(later)[c] >= sentAt[now.sends - 1] + now.resets[name] - now.wall
    {
      var j := AdmissionEvent(later, |log|, c);
      NoAdmissionBeforeReset(name, now.resets, now.wall, sentAt[..now.sends], now.log, later, j);
    }
  }

  /** What the first n requests leave: limits hit are remembered, and later requests of their methods waited. */
  ghost predicate Waited(requests: seq<Request>, moments: seq<Moment>, n: nat, script: nat -> Attempt,
      sentAt: seq<real>, log: seq<LimitEvent>)
  {
    && n <= |requests| && |moments| == n + 1
    && (forall i :: 0 <= i < n ==> Remembered(moments[i + 1], requests[i].name, script, sentAt, log))
    && (forall i, k :: 0 <= i < k < n ==> Awaits(requests, moments, script, sentAt, i, k))
  }

  /** One more request, whose sends and log entries only add to the record. */
  lemma {:induction false} WaitedGrows(requests: seq<Request>, moments: seq<Moment>, n: nat, script: nat -> Attempt,
      sentAt: seq<real>, log: seq<LimitEvent>, now: Moment)
    requires Waited(requests, moments, n, script, sentAt, log) && n < |requests|
    requires sentAt == AdmissionTimes(log) && moments[n].sends == |sentAt| && log <= now.log
    requires sentAt <= AdmissionTimes(now.log) && now.sends == |AdmissionTimes(now.log)|
    requires DeadlinesRespected(now.log) && AddsOnly(requests[n].name, now.log, |log|)
    requires HitLimit(now, requests[n].name, script) ==>
               CooldownFollows(requests[n].name, now.resets, now.wall, AdmissionTimes(now.log), now.log)
    ensures Waited(requests, moments + [now], n + 1, script, AdmissionTimes(now.log), now.log)
  {
    var more, later := moments + [now], AdmissionTimes(now.log);
    assert later[..now.sends] == later;
    forall i | 0 <= i < n + 1
      ensures Remembered(more[i + 1], requests[i].name, script, later, now.log)
    {
      if i < n {
        StaysRemembered(moments[i + 1], requests[i].name, script, sentAt, log, later, now.log);
      }
    }
    forall i, k | 0 <= i < k < n + 1
      ensures Awaits(requests, more, script, later, i, k)
    {
      assert more[i + 1] == moments[i + 1] && more[k] == moments[k];
      if requests[i].name == requests[k].name && HitLimit(moments[i + 1], requests[i].name, script) {
        AwaitsGrows(requests, moments, n, script, sentAt, log, now, i, k);
      }
    }
  }

  lemma {:induction false} AwaitsGrows(requests: seq<Request>, moments: seq<Moment>, n: nat, script: nat -> Attempt,
      sentAt: seq<real>, log: seq<LimitEvent>, now: Moment, i: nat, k: nat)
    requires Waited(requests, moments, n, script, sentAt, log) && n < |requests| && i < k <= n
    requires sentAt == AdmissionTimes(log) && moments[n].sends == |sentAt| && log <= now.log
    requires sentAt <= AdmissionTimes(now.log) && now.sends == |AdmissionTimes(now.log)|
    requires DeadlinesRespected(now.log) && AddsOnly(requests[n].name, now.log, |log|)
    requires requests[i].name == requests[k].name && HitLimit(moments[i + 1], requests[i].name, script)
    ensures SendsAwait(moments[i + 1], requests[i].name, AdmissionTimes(now.log), moments[k].sends,
                       (moments + [now])[k + 1].sends)
  {
    assert Remembered(moments[i + 1], requests[i].name, script, sentAt, log);
    if k < n {
      assert Awaits(requests, moments, script, sentAt, i, k);
      SendsStillAwait(moments[i + 1], requests[i].name, sentAt, AdmissionTimes(now.log), moments[k].sends,
                      moments[k + 1].sends);
    } else {
      LaterSendsAwait(moments[i + 1], requests[i].name, script, sentAt, log, now.log);
    }
  }

  lemma {:induction false} RunStep(policy: RetryPolicy, maxAttempts: nat, script: nat -> Attempt, attempt: nat)
    requires attempt <= maxAttempts
    ensures var conclusion := Conclusion(policy, maxAttempts, script(attempt), attempt);
            if conclusion.Some?
            then
              Attempts(policy, maxAttempts, script, attempt) == conclusion && conclusion.value.attemptCount == attempt
            else Attempts(policy, maxAttempts, script, attempt) == Attempts(policy, maxAttempts, script, attempt + 1)
  {
  }

  lemma {:induction false} RunConcludes(policy: RetryPolicy, maxAttempts: nat, script: nat -> Attempt)
    requires maxAttempts >= 1
    ensures Attempts(policy, maxAttempts, script, 1).Some?
  {
    RunMeaningFrom(policy, maxAttempts, script, 1);
  }

  /** A request that began at `start` is about to be attempted, and nothing has been concluded so far. */
  ghost predicate Underway(start: Moment, now: Moment, name: string, policy: RetryPolicy, maxAttempts: nat,
      attempt: nat, script: nat -> Attempt)
  {
    var own := ScriptFrom(script, start.calls);
    && 1 <= attempt <= maxAttempts + 1 && Attempted(start, now, name, attempt - 1, script)
    && Attempts(policy, maxAttempts, own, 1) == Attempts(policy, maxAttempts, own, attempt)
  }

  lemma {:induction false} TurnTaken(start: Moment, before: Moment, now: Moment, name: string, policy: RetryPolicy,
      maxAttempts: nat, attempt: nat, script: nat -> Attempt, conclusion: Option<GatewayResult>)
    requires Underway(start, before, name, policy, maxAttempts, attempt, script) && attempt <= maxAttempts
    requires Attempted(before, now, name, 1, script)
    requires conclusion == Conclusion(policy, maxAttempts, script(now.calls), attempt)
    ensures conclusion.None? ==> Underway(start, now, name, policy, maxAttempts, attempt + 1, script)
    ensures conclusion.Some? ==>
              && Attempts(policy, maxAttempts, ScriptFrom(script, start.calls), 1) == conclusion
              && Attempted(start, now, name, conclusion.value.attemptCount, script)
  {
    OneMoreAttempt(start, before, now, name, attempt - 1, script);
    RunStep(policy, maxAttempts, ScriptFrom(script, start.calls), attempt);
  }

  class RequestExecutor {
    const transport: BitrixTransport
    const limits: BitrixApiLimitController
    const clock: Clock
    const maxAttempts: nat
    const retryDelay: real
    var operatingResetAt: map<string, real>

    /** Every call was sent at a start the rate limiter recorded, and every recorded start was used. */
    ghost predicate Valid()
      reads this, transport, limits, limits.rateLimiter, limits.cooldowns, limits.clock
    {
      && limits.Valid() && maxAttempts >= 1 && retryDelay >= 0.0
      && limits.clock == clock && transport.clock == clock
      && transport.sentAt == limits.rateLimiter.starts
    }

    constructor (transport: BitrixTransport, limits: BitrixApiLimitController, maxAttempts: nat, retryDelay: real)
      requires maxAttempts >= 1 && retryDelay >= 0.0
      requires limits.Valid() && limits.clock == transport.clock && transport.sentAt == limits.rateLimiter.starts
      ensures Valid() && operatingResetAt == map[]
      ensures this.transport == transport && this.limits == limits && this.maxAttempts == maxAttempts
      ensures this.retryDelay == retryDelay
    {
      this.transport, this.limits, clock := transport, limits, transport.clock;
      this.maxAttempts, this.retryDelay, operatingResetAt := maxAttempts, retryDelay, map[];
    }

    ghost function Now(): Moment
      reads this, transport, limits, clock
    {
      Moment(|transport.sentAt|, transport.calls, limits.log, operatingResetAt, clock.wall)
    }

    /** Turns the method's latest reset time into a cooldown that ends no earlier than that, if it is ahead. */
    method ApplyMethodCooldown(name: string)
      requires Valid()
      modifies clock, limits, limits.cooldowns
      ensures Valid() && clock.now >= old(clock.now)
      ensures limits.rateLimiter.starts == old(limits.rateLimiter.starts)
      ensures limits.log ==
                if name in operatingResetAt && operatingResetAt[name] > clock.wall
                then old(limits.log) + [CooldownSet(name, clock.now + operatingResetAt[name] - clock.wall)]
                else old(limits.log)
    {
      if name !in operatingResetAt {
        return;
      }
      var wall := clock.WallTime();
      var duration := operatingResetAt[name] - wall;
      if duration <= 0.0 {
        return;
      }
      var _ := limits.SetCooldown(name, duration);
    }

    /** One attempt: admission by the limits, the transport call, and remembering a reported reset time. */
    method Send(name: string) returns (outcome: Attempt)
      requires Valid()
      modifies this, transport, clock`now, limits, limits.rateLimiter, limits.cooldowns`blockedUntil
      ensures Valid()
      ensures transport.calls == old(transport.calls) + 1 && outcome == transport.script(transport.calls)
      ensures old(limits.rateLimiter.starts) <= limits.rateLimiter.starts
      ensures |limits.rateLimiter.starts| == old(|limits.rateLimiter.starts|) + 1
      ensures old(clock.now) <= transport.sentAt[|transport.sentAt| - 1] <= clock.now
      ensures limits.log == old(limits.log) + [Admitted(name, transport.sentAt[|transport.sentAt| - 1])]
      ensures operatingResetAt == Remember(old(operatingResetAt), name, outcome)
    {
      limits.WaitTurn(name);
      outcome := transport.Call();
      if outcome.Response? && outcome.operatingResetAt.Some? {
        operatingResetAt := operatingResetAt[name := outcome.operatingResetAt.value];
      }
    }

    /** What to do about an attempt's outcome: conclude, after setting a cooldown if it calls for one, or retry. */
    method Handle(name: string, policy: RetryPolicy, outcome: Attempt, attempt: nat)
      returns (conclusion: Option<GatewayResult>)
      requires Valid() && transport.sentAt != [] && transport.sentAt[|transport.sentAt| - 1] <= clock.now
      modifies clock, limits, limits.cooldowns
      ensures Valid() && limits.rateLimiter.starts == old(limits.rateLimiter.starts)
      ensures old(limits.log) <= limits.log && AddsOnly(name, limits.log, |old(limits.log)|)
      ensures conclusion == Conclusion(policy, maxAttempts, outcome, attempt)
      ensures ReportsLimit(outcome) ==>
                CooldownFollows(name, operatingResetAt, clock.wall, transport.sentAt, limits.log)
      ensures !ReportsLimit(outcome) ==> limits.log == old(limits.log)
      ensures conclusion.None? ==> clock.now >= transport.sentAt[|transport.sentAt| - 1] + retryDelay
    {
      if outcome.TransportError? {
        if policy == Safe && attempt < maxAttempts {
          clock.Sleep(retryDelay);
          return None;
        }
        return Some(TransportFailure(policy, outcome, attempt));
      }
      if IsSuccess(outcome) {
        return Some(SuccessResult(outcome, attempt));
      }
      if IsOperationLimit(outcome) {
        ApplyMethodCooldown(name);
        return Some(Rejection(Failed, outcome, attempt));
      }
      if ShouldRetryResponse(policy, maxAttempts, outcome, attempt) {
        clock.Sleep(retryDelay);
        return None;
      }
      if IsUncertainResponse(policy, outcome) {
        return Some(Rejection(Unknown, outcome, attempt));
      }
      return Some(Rejection(Failed, outcome, attempt));
    }

    /** One turn of the loop: an attempt and what to do about its outcome. */
    method MakeAttempt(name: string, policy: RetryPolicy, attempt: nat, ghost from: nat)
      returns (conclusion: Option<GatewayResult>)
      requires Valid() && DelayPassed(transport.sentAt, from, clock.now, retryDelay)
      modifies this, transport, clock, limits, limits.rateLimiter, limits.cooldowns
      ensures Valid() && old(limits.rateLimiter.starts) <= limits.rateLimiter.starts
      ensures Attempted(old(Now()), Now(), name, 1, transport.script)
      ensures SendsSpaced(transport.sentAt, from, |transport.sentAt|, retryDelay)
      ensures conclusion.None? ==> DelayPassed(transport.sentAt, from, clock.now, retryDelay)
      ensures conclusion == Conclusion(policy, maxAttempts, transport.script(transport.calls), attempt)
      ensures ReportsLimit(transport.script(transport.calls)) ==>
                CooldownFollows(name, operatingResetAt, clock.wall, transport.sentAt, limits.log)
    {
      var outcome := Send(name);
      conclusion := Handle(name, policy, outcome, attempt);
      OneMoreSend(old(transport.sentAt), transport.sentAt, from, old(clock.now), retryDelay);
    }

    /**
     * Performs a request: admission by the limits, one transport call, and the decision, until one concludes.
     * Attempts are at least the retry delay apart.
     * None stands for the RuntimeError after the loop, which is never reached.
     */
    method Execute(name: string, policy: RetryPolicy) returns (result: Option<GatewayResult>)
      requires Valid()
      modifies this, transport, clock, limits, limits.rateLimiter, limits.cooldowns
      ensures Valid() && old(limits.rateLimiter.starts) <= limits.rateLimiter.starts
      ensures result == Attempts(policy, maxAttempts, ScriptFrom(transport.script, old(transport.calls)), 1)
      ensures result.Some? && Attempted(old(Now()), Now(), name, result.value.attemptCount, transport.script)
      ensures SendsSpaced(transport.sentAt, |old(transport.sentAt)|, |transport.sentAt|, retryDelay)
      ensures ReportsLimit(transport.script(transport.calls)) ==>
                CooldownFollows(name, operatingResetAt, clock.wall, transport.sentAt, limits.log)
    {
      ghost var start := Now();
      RunConcludes(policy, maxAttempts, ScriptFrom(transport.script, start.calls));
      var attempt := 1;
      while attempt <= maxAttempts
        invariant Valid() && old(limits.rateLimiter.starts) <= limits.rateLimiter.starts
        invariant Underway(start, Now(), name, policy, maxAttempts, attempt, transport.script)
        invariant DelayPassed(transport.sentAt, start.sends, clock.now, retryDelay)
      {
        ghost var before := Now();
        result := MakeAttempt(name, policy, attempt, start.sends);
        TurnTaken(start, before, Now(), name, policy, maxAttempts, attempt, transport.script, result);
        if result.Some? {
          return;
        }
        attempt := attempt + 1;
      }
      result := None;
    }

    /** The next request, after any time without one. */
    method ExecuteNext(request: Request) returns (result: GatewayResult)
      requires Valid()
      modifies this, transport, clock, limits, limits.rateLimiter, limits.cooldowns
      ensures Valid() && old(transport.sentAt) <= transport.sentAt
      ensures Performs(old(Now()), request, result, Now(), maxAttempts, transport.script)
      ensures SendsSpaced(transport.sentAt, |old(transport.sentAt)|, |transport.sentAt|, retryDelay)
      ensures HitLimit(Now(), request.name, transport.script) ==>
                CooldownFollows(request.name, operatingResetAt, clock.wall, transport.sentAt, limits.log)
    {
      var _ := clock.Monotonic();
      var outcome := Execute(request.name, request.policy);
      result := outcome.value;
    }

    /**
     * The requests of the worker's loop, one after the other, with any time in between. No request sends anything
     * before the reset time of an operation limit that an earlier request of its method has hit, and the attempts of
     * each are at least the retry delay apart.
     */
    method ExecuteAll(requests: seq<Request>) returns (results: seq<GatewayResult>, ghost moments: seq<Moment>)
      requires Valid()
      modifies this, transport, clock, limits, limits.rateLimiter, limits.cooldowns
      ensures Valid() && |results| == |requests| && |moments| == |requests| + 1
      ensures moments[0] == old(Now()) && old(transport.sentAt) <= transport.sentAt
      ensures moments[|requests|].sends == |transport.sentAt| && moments[|requests|].calls == transport.calls
      ensures Performed(requests, results, moments, |requests|, maxAttempts, transport.script)
      ensures forall i, k :: 0 <= i < k < |requests| ==>
                Awaits(requests, moments, transport.script, transport.sentAt, i, k)
      ensures forall i :: 0 <= i < |requests| ==>
                SendsSpaced(transport.sentAt, moments[i].sends, moments[i + 1].sends, retryDelay)
    {
      results, moments := [], [Now()];
      for n := 0 to |requests|
        invariant Valid() && |moments| == n + 1 && old(transport.sentAt) <= transport.sentAt
        invariant moments[0] == old(Now()) && moments[n] == Now()
        invariant Performed(requests, results, moments, n, maxAttempts, transport.script)
        invariant Waited(requests, moments, n, transport.script, transport.sentAt, limits.log)
        invariant forall i :: 0 <= i < n ==>
                    SendsSpaced(transport.sentAt, moments[i].sends, moments[i + 1].sends, retryDelay)
      {
        ghost var sentAt, log := transport.sentAt, limits.log;
        var result := ExecuteNext(requests[n]);
        PerformedGrows(requests, results, moments, n, maxAttempts, transport.script, result, Now());
        WaitedGrows(requests, moments, n, transport.script, sentAt, log, Now());
        results, moments := results + [result], moments + [Now()];
      }
    }
  }
}
