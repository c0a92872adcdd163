/**
 * RequestDispatcher and its bounded queue: submitters enqueue jobs and wait on futures, one worker takes
 * jobs in order and completes the futures, and submitters may be cancelled at any moment.
 *
 * Between two awaits everything is atomic, so the protocol is a transition system over the atomic segments.
 * The classes of GatewayDispatcher perform each segment in place and take exactly these transitions.
 */
module Dispatcher {
  import opened Wrappers
  import opened Unique

  type JobId = nat

  /** What executing a job produced: a result or an exception, identified by an arbitrary token. */
  datatype Outcome = Returned(token: int) | Raised(token: int)

  datatype FutureState = Waiting | Done(outcome: Outcome) | Cancelled

  datatype Worker = Idle | Executing(job: JobId)

  /** What a submitter is left with: the outcome, or its own cancellation. */
  datatype Reply = Answer(outcome: Outcome) | Interrupted

  datatype State = State(
    maxSize: nat,
    queue: seq<JobId>,
    pending: set<JobId>,              // the keys of _pending
    futures: map<JobId, FutureState>, // the future of every accepted job
    interrupted: set<JobId>,          // submitters whose task was cancelled
    worker: Worker,
    accepted: seq<JobId>, dequeued: seq<JobId>, started: seq<JobId>, finished: seq<(JobId, Outcome)>,
    replies: map<JobId, Reply>, rejected: set<JobId>, cancelledInQueue: set<JobId>)

  datatype Event =
    | Submit(job: JobId)
    | Cancel(job: JobId)
    | Wake(job: JobId)
    | Dequeue
    | Finish(outcome: Outcome)

  predicate IsWaiting(s: State, job: JobId) {
    job in s.pending && job in s.futures && s.futures[job] == Waiting
  }

  /** Job ids are fresh; a submitter can be cancelled or wake only while it has not returned. */
  predicate Enabled(s: State, e: Event) {
    match e
    case Submit(job) => job !in s.futures && job !in s.rejected
    case Cancel(job) => job in s.pending && job in s.futures
    case Wake(job) => job in s.pending && job in s.futures && s.futures[job] != Waiting
    case Dequeue => s.worker == Idle && s.queue != []
    case Finish(_) => s.worker.Executing?
  }

  function ReplyOf(s: State, job: JobId): Reply
    requires job in s.futures
  {
    if job !in s.interrupted && s.futures[job].Done? then Answer(s.futures[job].outcome) else Interrupted
  }

  function Apply(s: State, e: Event): State
    requires Enabled(s, e)
  {
    match e
    case Submit(job) =>
      if |s.queue| >= s.maxSize then s.(rejected := s.rejected + {job})
      else s.(futures := s.futures[job := Waiting], pending := s.pending + {job}, queue := s.queue + [job],
              accepted := s.accepted + [job])
    case Cancel(job) =>
      s.(futures := if s.futures[job] == Waiting then s.futures[job := Cancelled] else s.futures,
         interrupted := s.interrupted + {job},
         cancelledInQueue := if job in s.queue then s.cancelledInQueue + {job} else s.cancelledInQueue)
    case Wake(job) => s.(pending := s.pending - {job}, replies := s.replies[job := ReplyOf(s, job)])
    case Dequeue =>
      var job := s.queue[0];
      var taken := s.(queue := s.queue[1..], dequeued := s.dequeued + [job]);
      if IsWaiting(s, job) then taken.(worker := Executing(job), started := s.started + [job]) else taken
    case Finish(outcome) =>
      var job := s.worker.job;
      var idle := s.(worker := Idle, finished := s.finished + [(job, outcome)]);
      if IsWaiting(s, job) then idle.(futures := s.futures[job := Done(outcome)]) else idle
  }

  function Initial(maxSize: nat): State {
    State(maxSize, [], {}, map[], {}, Idle, [], [], [], [], map[], {}, {})
  }

  // ----- runs -----

  /** The state after the events, if each was enabled in turn. */
  function After(s: State, events: seq<Event>): Option<State> {
    if events == [] then Some(s)
    else
      var before := After(s, events[..|events| - 1]);
      var last := events[|events| - 1];
      if before.Some? && Enabled(before.value, last) then Some(Apply(before.value, last)) else None
  }

  /** `s` is what the events make of an empty dispatcher. */
  ghost predicate Ran(maxSize: nat, events: seq<Event>, s: State) {
    After(Initial(maxSize), events) == Some(s)
  }

  // ----- the invariant -----

  /** `some` is a subsequence of `all`: some of its jobs, in the same relative order. */
  ghost predicate InOrder(some: seq<JobId>, all: seq<JobId>) {
    if all == [] then some == []
    else
      var earlier := all[..|all| - 1];
      || InOrder(some, earlier)
      || (some != [] && some[|some| - 1] == all[|all| - 1] && InOrder(some[..|some| - 1], earlier))
  }

  /** The queue holds what was accepted and not yet taken, first in first out. */
  ghost predicate QueueInvariant(maxSize: nat, queue: seq<JobId>, accepted: seq<JobId>, dequeued: seq<JobId>,
      accepting: set<JobId>, rejected: set<JobId>)
  {
    && accepted == dequeued + queue
    && NoRepeats(accepted)
    && |queue| <= maxSize
    && (forall job :: job in accepted <==> job in accepting)
    && rejected !! accepting
  }

  /** Jobs start in the order they were taken, and all but the executing one have finished. */
  ghost predicate WorkerInvariant(worker: Worker, started: seq<JobId>, dequeued: seq<JobId>,
      finished: seq<(JobId, Outcome)>)
  {
    && InOrder(started, dequeued)
    && NoRepeats(started)
    && (worker.Executing? ==> started != [] && started[|started| - 1] == worker.job)
    && |finished| == (if worker.Executing? then |started| - 1 else |started|)
    && (forall i :: 0 <= i < |finished| ==> finished[i].0 == started[i])
  }

  /** Nobody is forgotten: whoever still waits is queued or is being executed. */
  ghost predicate WaitingInvariant(futures: map<JobId, FutureState>, pending: set<JobId>, queue: seq<JobId>,
      worker: Worker)
  {
    && pending <= futures.Keys
    && (forall job <- futures ::
          futures[job] == Waiting ==> job in pending && (job in queue || worker == Executing(job)))
  }

  /** A future or a reply carries an outcome only if executing that very job produced it. */
  ghost predicate OutcomeInvariant(futures: map<JobId, FutureState>, replies: map<JobId, Reply>, pending: set<JobId>,
      finished: seq<(JobId, Outcome)>)
  {
    && (forall job <- futures :: futures[job].Done? ==> (job, futures[job].outcome) in finished)
    && (forall job <- replies :: replies[job].Answer? ==> (job, replies[job].outcome) in finished)
    && (forall job <- replies :: job in futures && job !in pending)
  }

  /** A job cancelled while it was queued has a cancelled future and was never started. */
  ghost predicate CancelInvariant(futures: map<JobId, FutureState>, cancelledInQueue: set<JobId>, started: seq<JobId>) {
    forall job <- cancelledInQueue :: job in futures && futures[job] == Cancelled && job !in started
  }

  ghost predicate Queued(s: State) {
    QueueInvariant(s.maxSize, s.queue, s.accepted, s.dequeued, s.futures.Keys, s.rejected)
  }

  ghost predicate Invariant(s: State) {
    && Queued(s)
    && WorkerInvariant(s.worker, s.started, s.dequeued, s.finished)
    && WaitingInvariant(s.futures, s.pending, s.queue, s.worker)
    && OutcomeInvariant(s.futures, s.replies, s.pending, s.finished)
    && CancelInvariant(s.futures, s.cancelledInQueue, s.started)
  }

  // ----- every step keeps the invariant -----

  lemma {:induction false} StartsInvariant(maxSize: nat)
    ensures Invariant(Initial(maxSize))
  {
  }

  /** A queued job was never taken before. */
  lemma {:induction false} QueuedIsNotTaken(s: State, q: nat)
    requires Queued(s) && q < |s.queue|
    ensures s.queue[q] !in s.dequeued && s.queue[q] in s.futures
    ensures forall k :: 0 <= k < |s.queue| && k != q ==> s.queue[k] != s.queue[q]
  {
    var at := |s.dequeued| + q;
    assert s.accepted[at] == s.queue[q];
    forall i | 0 <= i < |s.dequeued|
      ensures s.dequeued[i] != s.queue[q]
    {
      assert s.accepted[i] == s.dequeued[i];
    }
    forall k | 0 <= k < |s.queue| && k != q
      ensures s.queue[k] != s.queue[q]
    {
      assert s.accepted[|s.dequeued| + k] == s.queue[k];
    }
  }

  lemma {:induction false} QueuedIsNotStarted(s: State, job: JobId)
    requires Queued(s) && InOrder(s.started, s.dequeued) && job in s.queue
    ensures job !in s.started
  {
    var q :| 0 <= q < |s.queue| && s.queue[q] == job;
    QueuedIsNotTaken(s, q);
    if job in s.started {
      InOrderMembers(s.started, s.dequeued, job);
      assert false;
    }
  }

  lemma {:induction false} FinishedWasStarted(s: State, job: JobId, outcome: Outcome)
    requires WorkerInvariant(s.worker, s.started, s.dequeued, s.finished) && (job, outcome) in s.finished
    ensures job in s.started
  {
    var i :| 0 <= i < |s.finished| && s.finished[i] == (job, outcome);
    assert s.started[i] == job;
  }

  lemma {:induction false} InOrderMembers(some: seq<JobId>, all: seq<JobId>, job: JobId)
    requires InOrder(some, all) && job in some
    ensures job in all
  {
    if all != [] {
      var earlier := all[..|all| - 1];
      if InOrder(some, earlier) {
        InOrderMembers(some, earlier, job);
      } else if job != all[|all| - 1] {
        InOrderMembers(some[..|some| - 1], earlier, job);
      }
    }
  }

  lemma {:induction false} TakenExtendsOrder(started: seq<JobId>, dequeued: seq<JobId>, job: JobId)
    requires InOrder(started, dequeued)
    ensures InOrder(started, dequeued + [job])
    ensures InOrder(started + [job], dequeued + [job])
  {
    assert (dequeued + [job])[..|dequeued|] == dequeued;
    assert (started + [job])[..|started|] == started;
  }

  lemma {:induction false} TakenKeepsWorkerInvariant(started: seq<JobId>, dequeued: seq<JobId>,
      finished: seq<(JobId, Outcome)>, job: JobId)
    requires WorkerInvariant(Idle, started, dequeued, finished) && job !in dequeued
    ensures WorkerInvariant(Idle, started, dequeued + [job], finished)
    ensures WorkerInvariant(Executing(job), started + [job], dequeued + [job], finished)
  {
    TakenExtendsOrder(started, dequeued, job);
    if job in started {
      InOrderMembers(started, dequeued, job);
      assert false;
    }
  }

  lemma {:induction false} SubmitKeepsInvariant(s: State, job: JobId)
    requires Enabled(s, Submit(job)) && Invariant(s)
    ensures Invariant(Apply(s, Submit(job)))
  {
    var t := Apply(s, Submit(job));
    if |s.queue| < s.maxSize {
      assert s.dequeued + (s.queue + [job]) == s.accepted + [job];
      assert forall other :: other in s.accepted + [job] <==> other in s.accepted || other == job;
      assert Queued(t);
      assert forall other <- t.futures :: other == job || other in s.futures;
      assert job in t.queue && forall other <- s.queue :: other in t.queue;
      assert WaitingInvariant(t.futures, t.pending, t.queue, t.worker);
    }
  }

  lemma {:induction false} CancelKeepsInvariant(s: State, job: JobId)
    requires Enabled(s, Cancel(job)) && Invariant(s)
    ensures Invariant(Apply(s, Cancel(job)))
  {
    var t := Apply(s, Cancel(job));
    assert Queued(t);
    assert WaitingInvariant(t.futures, t.pending, t.queue, t.worker);
    if job in s.queue {
      QueuedIsNotStarted(s, job);
      if s.futures[job].Done? {
        FinishedWasStarted(s, job, s.futures[job].outcome);
      }
    }
  }

  lemma {:induction false} WakeKeepsInvariant(s: State, job: JobId)
    requires Enabled(s, Wake(job)) && Invariant(s)
    ensures Invariant(Apply(s, Wake(job)))
  {
    var t := Apply(s, Wake(job));
    assert Queued(t);
    assert OutcomeInvariant(t.futures, t.replies, t.pending, t.finished);
  }

  lemma {:induction false} TakingKeepsQueued(s: State)
    requires Queued(s) && s.queue != []
    ensures QueueInvariant(s.maxSize, s.queue[1..], s.accepted, s.dequeued + [s.queue[0]], s.futures.Keys, s.rejected)
  {
    assert s.dequeued + s.queue == (s.dequeued + [s.queue[0]]) + s.queue[1..];
  }

  lemma {:induction false} DequeueKeepsInvariant(s: State)
    requires Enabled(s, Dequeue) && Invariant(s)
    ensures Invariant(Apply(s, Dequeue))
  {
    var t := Apply(s, Dequeue);
    var job := s.queue[0];
    QueuedIsNotTaken(s, 0);
    TakenKeepsWorkerInvariant(s.started, s.dequeued, s.finished, job);
    TakingKeepsQueued(s);
    assert s.queue == [job] + s.queue[1..];
    assert WaitingInvariant(t.futures, t.pending, t.queue, t.worker);
    assert CancelInvariant(t.futures, t.cancelledInQueue, t.started);
  }

  lemma {:induction false} FinishingKeepsWorker(worker: Worker, started: seq<JobId>, dequeued: seq<JobId>,
      finished: seq<(JobId, Outcome)>, outcome: Outcome)
    requires worker.Executing? && WorkerInvariant(worker, started, dequeued, finished)
    ensures WorkerInvariant(Idle, started, dequeued, finished + [(worker.job, outcome)])
  {
  }

  lemma {:induction false} FinishingKeepsOutcomes(futures: map<JobId, FutureState>, replies: map<JobId, Reply>,
      pending: set<JobId>, finished: seq<(JobId, Outcome)>, job: JobId, outcome: Outcome)
    requires OutcomeInvariant(futures, replies, pending, finished)
    ensures OutcomeInvariant(futures, replies, pending, finished + [(job, outcome)])
    ensures job in futures ==>
              OutcomeInvariant(futures[job := Done(outcome)], replies, pending, finished + [(job, outcome)])
  {
    var longer := finished + [(job, outcome)];
    assert longer[|finished|] == (job, outcome);
    assert forall pair <- finished :: pair in longer;
  }

  lemma {:induction false} FinishKeepsInvariant(s: State, outcome: Outcome)
    requires Enabled(s, Finish(outcome)) && Invariant(s)
    ensures Invariant(Apply(s, Finish(outcome)))
  {
    var t := Apply(s, Finish(outcome));
    assert Queued(t);
    assert WaitingInvariant(t.futures, t.pending, t.queue, t.worker);
    FinishingKeepsWorker(s.worker, s.started, s.dequeued, s.finished, outcome);
    FinishingKeepsOutcomes(s.futures, s.replies, s.pending, s.finished, s.worker.job, outcome);
    QueuedCancelIsNotExecuting(s);
  }

  /** A job cancelled in the queue is not the one executing, so finishing leaves its future alone. */
  lemma {:induction false} QueuedCancelIsNotExecuting(s: State)
    requires Invariant(s) && s.worker.Executing?
    ensures s.worker.job !in s.cancelledInQueue
  {
    assert s.worker.job in s.started;
  }

  lemma {:induction false} StepKeepsInvariant(s: State, e: Event)
    requires Enabled(s, e) && Invariant(s)
    ensures Invariant(Apply(s, e))
  {
    match e
    case Submit(job) => SubmitKeepsInvariant(s, job);
    case Cancel(job) => CancelKeepsInvariant(s, job);
    case Wake(job) => WakeKeepsInvariant(s, job);
    case Dequeue => DequeueKeepsInvariant(s);
    case Finish(outcome) => FinishKeepsInvariant(s, outcome);
  }

  lemma {:induction false} ReachableInvariant(s: State, events: seq<Event>)
    requires Invariant(s) && After(s, events).Some?
    ensures Invariant(After(s, events).value)
  {
    if events != [] {
      ReachableInvariant(s, events[..|events| - 1]);
      StepKeepsInvariant(After(s, events[..|events| - 1]).value, events[|events| - 1]);
    }
  }

  // ----- safety over every interleaving -----

  /** The only outcome a submitter can be answered with is the one its own job's execution produced. */
  ghost predicate AnswersItsOwnJob(s: State, job: JobId) {
    job in s.replies && s.replies[job].Answer? ==>
      && (job, s.replies[job].outcome) in s.finished
      && (forall outcome :: (job, outcome) in s.finished ==> outcome == s.replies[job].outcome)
  }

  lemma {:induction false} FinishedOnce(s: State, job: JobId, first: Outcome, second: Outcome)
    requires Invariant(s) && (job, first) in s.finished && (job, second) in s.finished
    ensures first == second
  {
    var i :| 0 <= i < |s.finished| && s.finished[i] == (job, first);
    var j :| 0 <= j < |s.finished| && s.finished[j] == (job, second);
    assert s.started[i] == job && s.started[j] == job;
  }

  lemma {:induction false} InOrderExtends(some: seq<JobId>, all: seq<JobId>, later: seq<JobId>)
    requires InOrder(some, all)
    ensures InOrder(some, all + later)
  {
    if later == [] {
      assert all + later == all;
    } else {
      var but := later[..|later| - 1];
      InOrderExtends(some, all, but);
      assert (all + later)[..|all + later| - 1] == all + but;
    }
  }

  lemma {:induction false} MaxSizeStays(s: State, events: seq<Event>)
    requires After(s, events).Some?
    ensures After(s, events).value.maxSize == s.maxSize
  {
    if events != [] {
      MaxSizeStays(s, events[..|events| - 1]);
    }
  }

  /** What holds in every state any interleaving of submitters, cancellations and the worker can reach. */
  lemma {:induction false} SafeUnderEveryInterleaving(maxSize: nat, events: seq<Event>, s: State)
    requires Ran(maxSize, events, s)
    ensures Invariant(s)
    ensures |s.queue| <= maxSize
    ensures |s.started| == |s.finished| + (if s.worker.Executing? then 1 else 0)
    ensures NoRepeats(s.started) && InOrder(s.started, s.accepted)
    ensures forall job <- s.cancelledInQueue :: job !in s.started
    ensures forall job <- s.replies :: AnswersItsOwnJob(s, job)
    ensures forall job <- s.rejected :: job !in s.pending && job !in s.accepted && job !in s.started
  {
    StartsInvariant(maxSize);
    ReachableInvariant(Initial(maxSize), events);
    MaxSizeStays(Initial(maxSize), events);
    InOrderExtends(s.started, s.dequeued, s.queue);
    forall job <- s.replies
      ensures AnswersItsOwnJob(s, job)
    {
      forall outcome | s.replies[job].Answer? && (job, outcome) in s.finished
        ensures outcome == s.replies[job].outcome
      {
        FinishedOnce(s, job, outcome, s.replies[job].outcome);
      }
    }
    forall job <- s.rejected
      ensures job !in s.started
    {
      if job in s.started {
        InOrderMembers(s.started, s.accepted, job);
        assert false;
      }
    }
  }

  lemma {:induction false} CancelledStays(s: State, job: JobId, events: seq<Event>)
    requires job in s.cancelledInQueue && After(s, events).Some?
    ensures job in After(s, events).value.cancelledInQueue
  {
    if events != [] {
      CancelledStays(s, job, events[..|events| - 1]);
    }
  }

  /** Cancelling while queued is final: no continuation of the run ever starts the job. */
  lemma {:induction false} CancelledInQueueNeverStarts(s: State, job: JobId, events: seq<Event>)
    requires Invariant(s) && Enabled(s, Cancel(job)) && job in s.queue
    requires After(Apply(s, Cancel(job)), events).Some?
    ensures job !in After(Apply(s, Cancel(job)), events).value.started
  {
    var t := Apply(s, Cancel(job));
    StepKeepsInvariant(s, Cancel(job));
    ReachableInvariant(t, events);
    CancelledStays(t, job, events);
  }

  // ----- progress: no submitter is lost -----

  function Position(queue: seq<JobId>, job: JobId): (k: nat)
    requires job in queue
    ensures k < |queue| && queue[k] == job
  {
    if queue[0] == job then 0 else 1 + Position(queue[1..], job)
  }

  /** The worker steps left before the job's future must be done. */
  function Rank(s: State, job: JobId): nat {
    if s.worker == Executing(job) then 1
    else if job in s.queue then 2 * Position(s.queue, job) + 2 + (if s.worker.Executing? then 1 else 0)
    else 0
  }

  predicate IsWorkerStep(e: Event) {
    e.Dequeue? || e.Finish?
  }

  function WorkerSteps(events: seq<Event>): nat {
    if events == [] then 0
    else WorkerSteps(events[..|events| - 1]) + (if IsWorkerStep(events[|events| - 1]) then 1 else 0)
  }

  lemma {:induction false} EnqueueKeepsPosition(queue: seq<JobId>, job: JobId, last: JobId)
    requires job in queue
    ensures Position(queue + [last], job) == Position(queue, job)
  {
    if queue[0] != job {
      assert (queue + [last])[1..] == queue[1..] + [last];
      EnqueueKeepsPosition(queue[1..], job, last);
    }
  }

  ghost predicate Waits(s: State, job: JobId) {
    job in s.futures && s.futures[job] == Waiting
  }

  lemma {:induction false} DequeueApproaches(s: State, job: JobId)
    requires Invariant(s) && Enabled(s, Dequeue) && Waits(s, job) && Waits(Apply(s, Dequeue), job)
    ensures Rank(Apply(s, Dequeue), job) < Rank(s, job)
  {
    QueuedIsNotTaken(s, 0);
    assert s.queue == [s.queue[0]] + s.queue[1..];
  }

  /** Whatever happens, a waiting job gets no further from its outcome; a worker step brings it nearer. */
  lemma {:induction false} EveryStepApproaches(s: State, e: Event, job: JobId)
    requires Invariant(s) && Enabled(s, e) && Waits(s, job) && Waits(Apply(s, e), job)
    ensures Rank(Apply(s, e), job) <= Rank(s, job) - (if IsWorkerStep(e) then 1 else 0)
  {
    match e
    case Submit(other) =>
      if job in s.queue {
        EnqueueKeepsPosition(s.queue, job, other);
      }
    case Dequeue => DequeueApproaches(s, job);
    case Finish(_) =>
    case _ =>
  }

  lemma {:induction false} SettledStaysSettled(s: State, e: Event, job: JobId)
    requires Enabled(s, e) && job in s.futures && s.futures[job] != Waiting
    ensures job in Apply(s, e).futures && Apply(s, e).futures[job] != Waiting
  {
  }

  /** While a submitter waits, the worker can always take a step. */
  lemma {:induction false} WorkerCanStep(s: State, job: JobId, outcome: Outcome)
    requires Invariant(s) && Waits(s, job)
    ensures IsWaiting(s, job)
    ensures s.worker == Executing(job) || job in s.queue
    ensures Enabled(s, Dequeue) || Enabled(s, Finish(outcome))
    ensures 1 <= Rank(s, job) <= 2 * s.maxSize + 1
  {
  }

  lemma {:induction false} ApproachesOverRun(s: State, events: seq<Event>, job: JobId)
    requires Invariant(s) && job in s.futures && After(s, events).Some?
    ensures var t := After(s, events).value;
            && job in t.futures
            && (Waits(t, job) ==> Waits(s, job) && Rank(t, job) + WorkerSteps(events) <= Rank(s, job))
  {
    if events != [] {
      var but := events[..|events| - 1];
      var e := events[|events| - 1];
      ApproachesOverRun(s, but, job);
      ReachableInvariant(s, but);
      var u := After(s, but).value;
      if Waits(u, job) {
        if Waits(Apply(u, e), job) {
          EveryStepApproaches(u, e, job);
        }
      } else {
        SettledStaysSettled(u, e, job);
      }
    }
  }

  /**
   * No lost submitter: after at most twice the queue bound plus one worker steps every accepted job's future
   * is done, whatever submissions and cancellations interleave; then its submitter can return.
   */
  lemma {:induction false} NoLostSubmitter(maxSize: nat, before: seq<Event>, s: State, events: seq<Event>, t: State,
      job: JobId)
    requires Ran(maxSize, before, s) && job in s.futures
    requires After(s, events) == Some(t)
    requires WorkerSteps(events) >= Rank(s, job) || WorkerSteps(events) >= 2 * maxSize + 1
    ensures job in t.futures && t.futures[job] != Waiting
    ensures job in t.pending ==> Enabled(t, Wake(job))
  {
    SafeUnderEveryInterleaving(maxSize, before, s);
    MaxSizeStays(Initial(maxSize), before);
    ApproachesOverRun(s, events, job);
    ReachableInvariant(s, events);
    if Waits(t, job) {
      WorkerCanStep(s, job, Returned(0));
      WorkerCanStep(t, job, Returned(0));
      assert false;
    }
  }

  // ----- what submitters are told -----

  /** What the executor produced, in order. */
  function Produced(events: seq<Event>): seq<Outcome> {
    if events == [] then []
    else
      var last := events[|events| - 1];
      Produced(events[..|events| - 1]) + if last.Finish? then [last.outcome] else []
  }

  /** The job's submitter has returned with what executing its job produced. */
  ghost predicate Answered(s: State, job: JobId) {
    && job in s.replies && s.replies[job].Answer?
    && (job, s.replies[job].outcome) in s.finished
  }

  /** Everyone who no longer waits was told: of its own cancellation exactly if there was one. */
  ghost predicate ToldInvariant(s: State, events: seq<Event>) {
    && (forall job :: job in s.interrupted <==> Cancel(job) in events)
    && (forall job <- s.futures :: s.futures[job].Cancelled? ==> job in s.interrupted)
    && (forall job <- s.futures :: job in s.pending || job in s.replies)
    && (forall job <- s.replies :: s.replies[job] == Interrupted <==> job in s.interrupted)
  }

  /** Every execution that finished did so with what the executor produced. */
  ghost predicate ProducedInvariant(finished: seq<(JobId, Outcome)>, events: seq<Event>) {
    && |finished| == |Produced(events)|
    && forall i :: 0 <= i < |finished| ==> finished[i].1 == Produced(events)[i]
  }

  lemma {:induction false} StepTells(s: State, events: seq<Event>, e: Event)
    requires OutcomeInvariant(s.futures, s.replies, s.pending, s.finished)
    requires ToldInvariant(s, events) && Enabled(s, e)
    ensures ToldInvariant(Apply(s, e), events + [e])
  {
    assert forall job :: Cancel(job) in events + [e] <==> Cancel(job) in events || e == Cancel(job);
  }

  lemma {:induction false} StepProduces(s: State, events: seq<Event>, e: Event)
    requires ProducedInvariant(s.finished, events) && Enabled(s, e)
    ensures ProducedInvariant(Apply(s, e).finished, events + [e])
  {
    assert (events + [e])[..|events|] == events;
  }

  lemma {:induction false} RunTells(maxSize: nat, events: seq<Event>, s: State)
    requires Ran(maxSize, events, s)
    ensures Invariant(s) && ToldInvariant(s, events) && ProducedInvariant(s.finished, events)
  {
    SafeUnderEveryInterleaving(maxSize, events, s);
    if events != [] {
      var but, e := events[..|events| - 1], events[|events| - 1];
      var before := After(Initial(maxSize), but).value;
      RunTells(maxSize, but, before);
      StepTells(before, but, e);
      StepProduces(before, but, e);
      assert events == but + [e];
    }
  }

  /**
   * In every reachable state the finished executions are the started jobs in order, each with what the executor
   * produced for it; and a submitter that returned was told what executing its own job produced, unless it was
   * itself cancelled.
   */
  lemma {:induction false} RepliesMeaning(maxSize: nat, events: seq<Event>, s: State)
    requires Ran(maxSize, events, s)
    ensures |s.finished| == |Produced(events)|
    ensures forall i :: 0 <= i < |s.finished| ==>
              i < |s.started| && s.finished[i] == (s.started[i], Produced(events)[i])
    ensures forall job <- s.replies :: if Cancel(job) in events then s.replies[job] == Interrupted else Answered(s, job)
  {
    RunTells(maxSize, events, s);
  }

  lemma {:induction false} AfterConcat(s: State, first: seq<Event>, second: seq<Event>)
    requires After(s, first).Some?
    ensures After(s, first + second) == After(After(s, first).value, second)
  {
    if second == [] {
      assert first + second == first;
    } else {
      AfterConcat(s, first, second[..|second| - 1]);
      assert (first + second)[..|first + second| - 1] == first + second[..|second| - 1];
    }
  }

  /**
   * A submitter that is not cancelled gets what executing its job produced: after the worker steps that complete its
   * future it has returned with it, or returns with it as soon as it wakes.
   */
  lemma {:induction false} SubmitterGetsItsOutcome(maxSize: nat, before: seq<Event>, s: State, events: seq<Event>,
      t: State, job: JobId)
    requires Ran(maxSize, before, s) && job in s.futures
    requires After(s, events) == Some(t)
    requires WorkerSteps(events) >= Rank(s, job) || WorkerSteps(events) >= 2 * maxSize + 1
    requires Cancel(job) !in before + events
    ensures if job in t.pending then Enabled(t, Wake(job)) && Answered(Apply(t, Wake(job)), job) else Answered(t, job)
  {
    NoLostSubmitter(maxSize, before, s, events, t, job);
    AfterConcat(Initial(maxSize), before, events);
    RunTells(maxSize, before + events, t);
  }
}
