/**
What every call answers, told by the conversation with the database: the last event is
the call's own, and the answer is that event's outcome, or the first failure.
*/
module AsyncReplies {
  import opened Wrappers
  import opened ParamSnapshot
  import opened AsyncDb
  import opened AsyncReplay
  import opened AsyncInvariants
  import opened AsyncTheorems
  import opened AsyncAnswers

  /** A call that waits for rows or for the end of its statement. */
  predicate Asks(call: Call) {
    call.FetchMore? || call.ExecuteSync?
  }

  /** ... and that ends by fetching. */
  predicate Fetches(call: Call) {
    call.FetchMore? || (call.ExecuteSync? && call.fetches)
  }

  function LastEvent(trace: seq<Event>): Option<Event> {
    if trace == [] then None else Some(trace[|trace| - 1])
  }

  /** The job has run without failing, and its outcome is in the caller's hands. */
  predicate Ran(trace: seq<Event>, slot: Slot, call: Call)
    requires Asks(call)
  {
    var last := LastEvent(trace);
    && last.Some? && last.value.outcome.Done?
    && if Fetches(call) then last.value.op == Fetch(call.id) && slot == Fetched(last.value.outcome.rows)
       else last.value.op.Execute? && last.value.op.id == call.id && slot == Empty
  }

  /** The job is still to run, or in the middle of it. */
  predicate StillToRun(s: State, job: Job) {
    || s.pending == Some(job) || s.worker == Took(job)
    || (s.worker.Running? && s.worker.job == job && !s.worker.at.Returned?)
  }

  /** Until it fetches, the job has left nothing in the caller's hands. */
  predicate NothingYet(s: State, job: Job) {
    StillToRun(s, job) && !(s.worker.Running? && s.worker.job == job && s.worker.at.NoteError?) ==> s.slot == Empty
  }

  /** No other job is left to run. */
  predicate AllBehind(s: State, job: Job) {
    s.pending.None? && (InHand(s.worker) != [] ==> s.worker == Running(job, Returned))
  }

  /** A call that asks, once its job is accepted and while nothing has failed. */
  predicate Informed(s: State) {
    && (InCall(s.caller) && Asks(s.caller.call) && BeforePost(s.caller) ==> s.slot == Empty)
    && ((Posted(s.caller) || s.caller.Finish?) && Asks(s.caller.call) ==>
          && NothingYet(s, JobOf(s.caller.call))
          && (s.worker == Running(JobOf(s.caller.call), DoFetch) ==> Fetches(s.caller.call))
          && (s.error.None? ==>
                StillToRun(s, JobOf(s.caller.call))
                || (AllBehind(s, JobOf(s.caller.call)) && Ran(s.conn.trace, s.slot, s.caller.call))))
  }

  lemma {:induction false} InformedByCaller(s: State)
    requires Control(s) && Escorted(s) && Informed(s) && CallerEnabled(s)
    ensures Informed(CallerStep(s))
  {
  }

  lemma {:induction false} InformedByJob(server: Server, s: State)
    requires Control(s) && Escorted(s) && Informed(s) && s.worker.Running?
    ensures Informed(WorkerStep(server, s))
  {
  }

  lemma {:induction false} InformedByLoop(server: Server, s: State)
    requires Control(s) && Escorted(s) && Informed(s) && WorkerEnabled(s) && !s.worker.Running?
    ensures Informed(WorkerStep(server, s))
  {
  }

  /** prepare() has its answer from the last thing said. */
  predicate PrepareInformed(s: State) {
    Preparing(s) && Answered(s.slot) ==>
      && AllBehind(s, JobOf(s.caller.call))
      && var last := LastEvent(s.conn.trace);
      && last.Some? && last.value.op == PrepareStatement(s.caller.call.id)
      && s.slot == (if last.value.outcome.Done? then Prepared else PrepareError(last.value.outcome.error))
  }

  lemma {:induction false} PrepareInformedByCaller(s: State)
    requires Control(s) && Escorted(s) && Fresh(s) && PrepareInformed(s) && CallerEnabled(s)
    ensures PrepareInformed(CallerStep(s))
  {
  }

  lemma {:induction false} PrepareInformedByWorker(server: Server, s: State)
    requires Control(s) && Escorted(s) && Fresh(s) && PrepareInformed(s) && WorkerEnabled(s)
    ensures PrepareInformed(WorkerStep(server, s))
  {
  }

  lemma {:induction false} InformedKept(server: Server, s: State, a: Action)
    requires Control(s) && Escorted(s) && Fresh(s) && Informed(s) && PrepareInformed(s) && Enabled(s, a)
    ensures Informed(Apply(server, s, a)) && PrepareInformed(Apply(server, s, a))
  {
    if a.CallerRuns? {
      InformedByCaller(s);
      PrepareInformedByCaller(s);
    } else if a.WorkerRuns? {
      PrepareInformedByWorker(server, s);
      if s.worker.Running? {
        InformedByJob(server, s);
      } else {
        InformedByLoop(server, s);
      }
    }
  }

  lemma {:induction false} InformedAlong(server: Server, s: State, actions: seq<Action>, t: State)
    requires Inv(server, s) && Fresh(s) && Informed(s) && PrepareInformed(s) && Leads(server, s, actions, t)
    ensures Informed(t) && PrepareInformed(t)
    decreases |actions|
  {
    if |actions| > 0 {
      var next := Apply(server, s, actions[0]);
      InvKept(server, s, actions[0], next);
      FreshKept(server, s, actions[0]);
      InformedKept(server, s, actions[0]);
      InformedAlong(server, next, actions[1..], t);
    }
  }

  lemma {:induction false} AlwaysInformed(server: Server, s: State)
    requires Reachable(server, s)
    ensures Inv(server, s) && Informed(s) && PrepareInformed(s)
  {
    var actions :| Leads(server, INITIAL, actions, s);
    assert Leads(server, INITIAL, [], INITIAL);
    Always(server, INITIAL);
    Always(server, s);
    InformedAlong(server, INITIAL, actions, s);
  }

  // -------------------------------------------------------------------- the theorems

  /**
  fetch_more(), and execute_sync() of a statement that returns rows, answer whether the
  fetch just made found rows; execute_sync() of any other statement answers that there are
  none. After a failure both answer with the first one.
  */
  lemma {:induction false} RowsAreTheFetch(server: Server, s: State, t: State, reply: Reply)
    requires Reachable(server, s) && Replies(s, t, reply) && Asks(s.caller.call)
    ensures s.error.None? ==>
              var last := LastEvent(s.conn.trace);
              && last.Some? && last.value.outcome.Done?
              && if Fetches(s.caller.call)
                 then last.value.op == Fetch(s.caller.call.id) && reply == Rows(last.value.outcome.rows)
                 else last.value.op.Execute? && last.value.op.id == s.caller.call.id && reply == Rows(false)
    ensures s.error.Some? ==> reply.Refused? && Some(reply.error) == FirstFailure(Segment(s))
  {
    AlwaysInformed(server, s);
    ReplyIs(s, t, reply);
    QuietError(server, s);
  }

  /** The answer is the one that the return adds to the records. */
  lemma {:induction false} ReplyIs(s: State, t: State, reply: Reply)
    requires Replies(s, t, reply)
    ensures t.log.replies[|s.log.replies|] == reply
  {
  }

  /** At a return from a call that waited, the recorded error is the first failure. */
  lemma {:induction false} QuietError(server: Server, s: State)
    requires Inv(server, s)
    ensures s.error.Some? ==> s.error == FirstFailure(Segment(s))
    ensures Quiet(s) ==> s.error == FirstFailure(Segment(s))
  {
  }

  /** prepare() answers what the server said to its PREPARE, unless it was dropped. */
  lemma {:induction false} PrepareTellsTheOutcome(server: Server, s: State, t: State, reply: Reply)
    requires Reachable(server, s) && Replies(s, t, reply) && s.caller.call.Prepare? && !reply.NullTask?
    ensures var last := LastEvent(s.conn.trace);
            && last.Some? && last.value.op == PrepareStatement(s.caller.call.id)
            && reply == if last.value.outcome.Done? then Handle(s.caller.call.id) else Refused(last.value.outcome.error)
  {
    AlwaysInformed(server, s);
    ReplyIs(s, t, reply);
  }

  /** commit() without an error and rollback() answer what the server said to their command. */
  lemma {:induction false} EndTellsTheOutcome(server: Server, s: State, t: State, reply: Reply)
    requires Reachable(server, s) && Replies(s, t, reply) && (s.caller.call.Commit? || s.caller.call.Rollback?)
    ensures var last := LastEvent(s.conn.trace);
            && last.Some? && last.value.op == (if s.caller.call.Commit? then CommitWork else RollbackWork)
            && reply == if s.caller.call.Commit? then (if last.value.outcome.Done? then Committed else CommitFailed)
                        else (if last.value.outcome.Done? then RolledBack else RollbackFailed)
  {
    AlwaysInformed(server, s);
    ReplyIs(s, t, reply);
    assert EndSent(Segment(s), s.slot, s.caller.call);
    assert Segment(s)[|Segment(s)| - 1] == s.conn.trace[|s.conn.trace| - 1];
  }

  /** exec() answers with the first failure if one has been recorded, and submit() and drain() with nothing. */
  lemma {:induction false} ExecAnswers(server: Server, s: State, t: State, reply: Reply)
    requires Reachable(server, s) && Replies(s, t, reply)
    ensures s.caller.call.Exec? ==>
              if s.error.None? then reply == AsyncDb.Queued
              else reply.Refused? && Some(reply.error) == FirstFailure(Segment(s))
    ensures s.caller.call.Submit? || s.caller.call.Drain? ==> reply == Void
  {
    AlwaysInformed(server, s);
    ReplyIs(s, t, reply);
    QuietError(server, s);
  }

  /** is_finished() answers pending exactly while a job is queued or running, and then the first failure or finished. */
  lemma {:induction false} PollAnswers(server: Server, s: State, t: State, reply: Reply)
    requires Reachable(server, s) && Replies(s, t, reply) && s.caller.call.IsFinished?
    ensures reply == if !Quiet(s) then StillPending
                     else if FirstFailure(Segment(s)).Some? then Refused(FirstFailure(Segment(s)).value) else Finished
  {
    AlwaysInformed(server, s);
    ReplyIs(s, t, reply);
    QuietError(server, s);
  }
}
