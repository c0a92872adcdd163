/**
 * The dispatcher's objects, changed in place: every method is one atomic segment between two awaits and takes
 * exactly one transition of the protocol in Dispatcher.
 */
module GatewayDispatcher {
  import opened Wrappers
  import opened Dispatcher

  /** The bounded FIFO queue of jobs waiting for the worker. */
  class InMemoryJobQueue {
    const maxSize: nat
    var items: seq<JobId>

    constructor (maxSize: nat)
      requires maxSize > 0
      ensures this.maxSize == maxSize && items == []
    {
      this.maxSize := maxSize;
      items := [];
    }

    /** Puts a job at the end, or reports QueueFullError and leaves the queue alone. */
    method Enqueue(job: JobId) returns (ok: bool)
      modifies this
      ensures ok == (|old(items)| < maxSize)
      ensures items == if ok then old(items) + [job] else old(items)
    {
      if |items| >= maxSize {
        return false;
      }
      items := items + [job];
      ok := true;
    }

    method Dequeue() returns (job: JobId)
      requires items != []
      modifies this
      ensures [job] + items == old(items)
    {
      job := items[0];
      items := items[1..];
    }
  }

  /** A submit call that was accepted: the future it awaits and whether its task has been cancelled. */
  class Submission {
    var future: FutureState
    var interrupted: bool

    constructor ()
      ensures future == Waiting && !interrupted
    {
      future := Waiting;
      interrupted := false;
    }
  }

  /** The futures of different jobs are different objects. */
  ghost predicate Distinct(submissions: map<JobId, Submission>) {
    forall i, j | i in submissions && j in submissions && i != j :: submissions[i] != submissions[j]
  }

  ghost predicate Within(pending: map<JobId, Submission>, submissions: map<JobId, Submission>) {
    forall job <- pending :: job in submissions && pending[job] == submissions[job]
  }

  /** The submissions hold the futures and cancellations of the protocol state. */
  ghost predicate Recorded(submissions: map<JobId, Submission>, model: State)
    reads submissions.Values
  {
    && submissions.Keys == model.futures.Keys
    && model.interrupted <= submissions.Keys
    && (forall job <- submissions ::
          && submissions[job].future == model.futures[job]
          && (submissions[job].interrupted <==> job in model.interrupted))
  }

  lemma {:induction false} AcceptingRecords(submissions: map<JobId, Submission>, model: State, job: JobId,
      submission: Submission)
    requires Recorded(submissions, model) && Distinct(submissions) && submission !in submissions.Values
    requires Enabled(model, Submit(job)) && |model.queue| < model.maxSize
    requires submission.future == Waiting && !submission.interrupted
    ensures Recorded(submissions[job := submission], Apply(model, Submit(job)))
    ensures Distinct(submissions[job := submission])
  {
  }

  lemma {:induction false} AcceptingKeepsPending(pending: map<JobId, Submission>, submissions: map<JobId, Submission>,
      model: State, job: JobId, submission: Submission)
    requires Within(pending, submissions) && model.pending == pending.Keys && job !in submissions
    requires Enabled(model, Submit(job)) && |model.queue| < model.maxSize
    ensures Within(pending[job := submission], submissions[job := submission])
    ensures Apply(model, Submit(job)).pending == pending[job := submission].Keys
    ensures Apply(model, Submit(job)).queue == model.queue + [job]
    ensures Apply(model, Submit(job)).maxSize == model.maxSize && Apply(model, Submit(job)).worker == model.worker
  {
  }

  class RequestDispatcher {
    const queue: InMemoryJobQueue
    var pending: map<JobId, Submission>
    /** The job and future the worker holds while it awaits the executor. */
    var current: Option<(JobId, Submission)>

    /** Every submission ever accepted and the protocol state the fields realise. */
    ghost var submissions: map<JobId, Submission>
    ghost var model: State

    /** The queued jobs, the pending map and the worker's locals are those of the protocol state. */
    ghost predicate Realises(items: seq<JobId>, pending: map<JobId, Submission>)
      reads this, submissions.Values
    {
      && Distinct(submissions)
      && Recorded(submissions, model)
      && model.queue == items && model.maxSize == queue.maxSize
      && model.pending == pending.Keys
      && Within(pending, submissions)
      && (match current
          case None => model.worker == Idle
          case Some((job, submission)) =>
            model.worker == Executing(job) && job in submissions && submissions[job] == submission)
    }

    ghost predicate Valid()
      reads this, queue, submissions.Values
    {
      Realises(queue.items, pending)
    }

    constructor (queue: InMemoryJobQueue)
      requires queue.maxSize > 0 && queue.items == []
      ensures Valid() && this.queue == queue && model == Initial(queue.maxSize)
    {
      this.queue := queue;
      pending, current := map[], None;
      submissions, model := map[], Initial(queue.maxSize);
    }

    /** Records a submission the queue took. */
    ghost method NoteAccepted(job: JobId, submission: Submission, items: seq<JobId>, others: map<JobId, Submission>)
      requires Realises(items, others) && Enabled(model, Event.Submit(job)) && |items| < queue.maxSize
      requires submission !in submissions.Values && submission.future == Waiting && !submission.interrupted
      requires queue.items == items + [job] && pending == others[job := submission]
      modifies this`model, this`submissions
      ensures Valid() && model == Apply(old(model), Event.Submit(job))
    {
      AcceptingRecords(submissions, model, job, submission);
      AcceptingKeepsPending(others, submissions, model, job, submission);
      submissions := submissions[job := submission];
      model := Apply(model, Event.Submit(job));
    }

    /** Registers a future, then enqueues; a full queue takes the registration back and rejects. */
    method Submit(job: JobId) returns (accepted: bool)
      requires Valid() && Enabled(model, Event.Submit(job))
      modifies this, queue
      ensures Valid() && model == Apply(old(model), Event.Submit(job))
      ensures accepted == (job in pending)
      ensures !accepted ==> pending == old(pending) && queue.items == old(queue.items)
    {
      var submission := new Submission();
      pending := pending[job := submission];
      accepted := queue.Enqueue(job);
      if accepted {
        NoteAccepted(job, submission, old(queue.items), old(pending));
      } else {
        pending := pending - {job};
        assert pending == old(pending);
        model := Apply(model, Event.Submit(job));
      }
    }

    /** Cancels the task waiting for `job`: its future is cancelled unless it is already done. */
    method Cancel(job: JobId)
      requires Valid() && Enabled(model, Event.Cancel(job))
      modifies this`model, pending.Values
      ensures Valid() && model == Apply(old(model), Event.Cancel(job))
    {
      var submission := pending[job];
      if submission.future == Waiting {
        submission.future := FutureState.Cancelled;
      }
      submission.interrupted := true;
      model := Apply(model, Event.Cancel(job));
    }

    /** The submitter's task resumes once its future is done, and its `finally` drops the pending entry. */
    method Wake(job: JobId) returns (reply: Reply)
      requires Valid() && Enabled(model, Event.Wake(job))
      modifies this
      ensures Valid() && model == Apply(old(model), Event.Wake(job))
      ensures job !in pending && job in model.replies && reply == model.replies[job]
    {
      var submission := pending[job];
      reply := if !submission.interrupted && submission.future.Done? then Answer(submission.future.outcome)
               else Interrupted;
      pending := pending - {job};
      model := Apply(model, Event.Wake(job));
    }

    /** The worker takes the next job and starts it, unless its submitter is gone or its future is done. */
    method Dequeue() returns (started: bool)
      requires Valid() && Enabled(model, Event.Dequeue)
      modifies this, queue
      ensures Valid() && model == Apply(old(model), Event.Dequeue)
      ensures started == current.Some?
    {
      var job := queue.Dequeue();
      started := job in pending && pending[job].future == Waiting;
      if started {
        current := Some((job, pending[job]));
      }
      model := Apply(model, Event.Dequeue);
    }

    /** The executor returned or raised: the future is completed if it is still registered and not done. */
    method Finish(outcome: Outcome)
      requires Valid() && Enabled(model, Event.Finish(outcome))
      modifies this, submissions.Values
      ensures Valid() && model == Apply(old(model), Event.Finish(outcome))
    {
      var (job, submission) := current.value;
      if job in pending && pending[job] == submission && submission.future == Waiting {
        submission.future := FutureState.Done(outcome);
      }
      current := None;
      model := Apply(model, Event.Finish(outcome));
    }
  }
}
