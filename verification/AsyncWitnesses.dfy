/** Single runs that show where the facade's limits are reached. */
module AsyncWitnesses {
  import opened Wrappers
  import opened ParamSnapshot
  import opened AsyncDb
  import opened AsyncReplay
  import opened AsyncInvariants

  lemma {:induction false} Go(server: Server, s: State, a: Action) returns (t: State)
    requires Reachable(server, s) && Enabled(s, a)
    ensures t == Apply(server, s, a) && Reachable(server, t)
  {
    var actions :| Leads(server, INITIAL, actions, s);
    LeadsOn(server, INITIAL, actions, s, a);
    t := Apply(server, s, a);
  }

  /** prepare() has posted its job and waits for it. */
  lemma {:induction false} PreparePosted(server: Server) returns (s: State)
    ensures Reachable(server, s)
    ensures s == INITIAL.(pending := Some(PrepareJob(0, [])), caller := PostDrain(Prepare(0, [])), log := s.log)
    ensures s.log.mark == Mark(0, 0, 0) && |s.log.calls| == 1 && |s.log.replies| == 0
  {
    s := INITIAL;
    assert Leads(server, INITIAL, [], s);
    s := Go(server, s, Invoke(Prepare(0, [])));
    s := Go(server, s, CallerRuns);
    s := Go(server, s, CallerRuns);
  }

  /** A facade with one statement prepared, both threads at rest. */
  lemma {:induction false} OnePrepared(server: Server) returns (s: State)
    requires server([], PrepareStatement(0)).Done?
    ensures Reachable(server, s)
    ensures s.caller.Idle? && s.worker.Top? && !s.workerAsleep && !s.callerAsleep && Quiet(s) && !s.stop
    ensures s.error.None? && s.held.params == map[0 := []] && s.conn.buffers == map[0 := []]
    ensures s.conn.trace == [Event(PrepareStatement(0), server([], PrepareStatement(0)))]
    ensures s.log.mark == Mark(0, 0, 0) && s.held.next == 1 && |s.log.calls| == |s.log.replies|
  {
    s := PreparePosted(server);
    s := Go(server, s, WorkerRuns);
    s := Go(server, s, WorkerRuns);
    s := Go(server, s, WorkerRuns);
    s := Go(server, s, WorkerRuns);
    s := Go(server, s, WorkerRuns);
    s := Go(server, s, WorkerRuns);
    s := Go(server, s, CallerRuns);
    s := Go(server, s, CallerRuns);
  }

  /** A call that only posts, made while the slot is free and no error is pending. */
  lemma {:induction false} PostOne(server: Server, s: State, call: Call) returns (t: State)
    requires Reachable(server, s) && s.caller.Idle? && !s.callerAsleep && s.pending.None? && s.error.None?
    requires Invokable(s, call) && (call.Submit? || call.Exec?)
    ensures Reachable(server, t)
    ensures t.log.calls == s.log.calls + [call]
    ensures t.log.replies == s.log.replies + [if call.Submit? then Void else AsyncDb.Queued]
    ensures t == s.(pending := Some(JobOf(call)), slot := Empty, workerAsleep := false, log := t.log)
    ensures t.log.mark == s.log.mark
  {
    t := Go(server, s, Invoke(call));
    t := Go(server, t, CallerRuns);
    t := Go(server, t, CallerRuns);
    t := Go(server, t, CallerRuns);
  }

  /** The worker takes an exec'd or submitted job and executes it; the statement fails. */
  lemma {:induction false} ExecuteOne(server: Server, s: State, job: Job, e: Event) returns (t: State)
    requires Reachable(server, s) && s.worker.Top? && !s.workerAsleep && s.pending == Some(job)
    requires job == StatementJob(0, [], false, false) && BufferOf(s.conn.buffers, 0) == []
    requires e == Ask(server, s.conn.trace, Execute(0, [])) && e.outcome.Failed?
    ensures Reachable(server, t)
    ensures t.conn.trace == s.conn.trace + [e] && BufferOf(t.conn.buffers, 0) == []
    ensures t == s.(pending := None, busy := true, callerAsleep := false, conn := t.conn,
                    worker := Running(job, NoteError(e.outcome.error)))
  {
    t := Go(server, s, WorkerRuns);
    t := Go(server, t, WorkerRuns);
    assert Restored([], []) == [];
    t := Go(server, t, WorkerRuns);
  }

  /** The worker records the failure and comes back for the next job. */
  lemma {:induction false} CloseOne(server: Server, s: State) returns (t: State)
    requires Reachable(server, s) && !s.workerAsleep && Noting(s.worker) && CanRun(s.worker.job, s.worker.at)
    ensures Reachable(server, t)
    ensures t == s.(worker := Top, busy := false, callerAsleep := false,
                    error := if s.error.None? then Some(s.worker.at.error) else s.error)
  {
    t := Go(server, s, WorkerRuns);
    t := Go(server, t, WorkerRuns);
    t := Go(server, t, WorkerRuns);
    t := Go(server, t, WorkerRuns);
  }

  const ALWAYS_OK: Server := (trace: seq<Event>, op: Op) => Done(false)

  /**
  exec() documents that the previous job is finished once it returns. It is
  not: the slot is free as soon as the worker has taken that job, so exec() can
  return while the previous statement is still being executed.
  */
  lemma {:induction false} ExecReturnsWhileThePreviousJobRuns() returns (s: State)
    ensures Reachable(ALWAYS_OK, s)
    ensures s.caller.Idle? && |s.log.calls| == |s.log.replies| >= 2
    ensures var n := |s.log.calls|;
            && s.log.calls[n - 2..] == [Exec(0, [], false), Exec(0, [], true)]
            && s.log.replies[n - 2..] == [AsyncDb.Queued, AsyncDb.Queued]
    ensures s.worker == Running(JobOf(Exec(0, [], false)), DoExecute) && s.pending == Some(JobOf(Exec(0, [], true)))
  {
    s := OnePrepared(ALWAYS_OK);
    s := PostOne(ALWAYS_OK, s, Exec(0, [], false));
    s := Go(ALWAYS_OK, s, WorkerRuns);
    s := Go(ALWAYS_OK, s, WorkerRuns);
    s := PostOne(ALWAYS_OK, s, Exec(0, [], true));
  }

  const EXECUTE_FAILS: Server := (trace: seq<Event>, op: Op) => if op.Execute? then Failed(|trace|) else Done(false)

  /** The bound of two is met: one statement already queued and one already waiting still run. */
  lemma {:induction false} OverrunOfTwoHappens() returns (s: State)
    ensures Reachable(EXECUTE_FAILS, s) && Overrun(Segment(s)) == 2
  {
    var call, job := Submit(0, []), StatementJob(0, [], false, false);
    var first;
    s, first := ThirdWaits();
    s := ExecuteOne(EXECUTE_FAILS, s, job, Event(Execute(0, []), Failed(2)));
    s := Go(EXECUTE_FAILS, s, CallerRuns);
    s := Go(EXECUTE_FAILS, s, CallerRuns);
    s := CloseOne(EXECUTE_FAILS, s);
    s := ExecuteOne(EXECUTE_FAILS, s, job, Event(Execute(0, []), Failed(3)));
    ThreeFailures(first);
    assert Segment(s) == [first] + [FailedExecute(1)] + [FailedExecute(2)] + [FailedExecute(3)];
  }

  /** A statement has failed and a second one was accepted before the failure is recorded. */
  lemma {:induction false} SecondAccepted() returns (s: State, first: Event)
    ensures Reachable(EXECUTE_FAILS, s) && s.caller.Idle? && !s.callerAsleep && !s.workerAsleep
    ensures s.pending == Some(StatementJob(0, [], false, false)) && s.error.None? && !s.stop
    ensures s.worker == Running(StatementJob(0, [], false, false), NoteError(1))
    ensures s.conn.trace == [first] + [FailedExecute(1)] && !IsFailure(first) && BufferOf(s.conn.buffers, 0) == []
    ensures Invokable(s, Submit(0, [])) && s.log.mark == Mark(0, 0, 0)
  {
    var call, job := Submit(0, []), StatementJob(0, [], false, false);
    s := OnePrepared(EXECUTE_FAILS);
    first := s.conn.trace[0];
    s := PostOne(EXECUTE_FAILS, s, call);
    s := ExecuteOne(EXECUTE_FAILS, s, job, FailedExecute(1));
    s := PostOne(EXECUTE_FAILS, s, call);
  }

  /** ... and a third is past the error test and waits for the slot when the failure is recorded. */
  lemma {:induction false} ThirdWaits() returns (s: State, first: Event)
    ensures Reachable(EXECUTE_FAILS, s) && s.caller == Await(Submit(0, [])) && !s.workerAsleep && s.worker.Top?
    ensures s.pending == Some(StatementJob(0, [], false, false)) && !s.callerAsleep && !s.stop && s.error == Some(1)
    ensures s.conn.trace == [first] + [FailedExecute(1)] && !IsFailure(first) && BufferOf(s.conn.buffers, 0) == []
    ensures s.log.mark == Mark(0, 0, 0)
  {
    s, first := SecondAccepted();
    s := Go(EXECUTE_FAILS, s, Invoke(Submit(0, [])));
    s := Go(EXECUTE_FAILS, s, CallerRuns);
    s := CloseOne(EXECUTE_FAILS, s);
  }

  function FailedExecute(error: nat): Event {
    Event(Execute(0, []), Failed(error))
  }

  /** The first failure does not count as overrun, the two after it do. */
  lemma {:induction false} ThreeFailures(first: Event)
    requires !IsFailure(first)
    ensures Overrun([first] + [FailedExecute(1)] + [FailedExecute(2)] + [FailedExecute(3)]) == 2
  {
    Extend([first], FailedExecute(1));
    Extend([first] + [FailedExecute(1)], FailedExecute(2));
    Extend([first] + [FailedExecute(1)] + [FailedExecute(2)], FailedExecute(3));
    NoFailureNoOverrun([first]);
  }

  /** prepare() after an unnoticed failure: a handle comes back, but no statement was prepared behind it. */
  lemma {:induction false} PrepareCanBeDropped() returns (s: State)
    ensures Reachable(EXECUTE_FAILS, s) && s.caller.Idle?
    ensures s.log.replies != [] && s.log.replies[|s.log.replies| - 1] == NullTask(1) && 1 !in s.held.params
  {
    var call, job := Submit(0, []), StatementJob(0, [], false, false);
    s := OnePrepared(EXECUTE_FAILS);
    s := PostOne(EXECUTE_FAILS, s, call);
    s := ExecuteOne(EXECUTE_FAILS, s, job, Event(Execute(0, []), Failed(1)));
    s := CloseOne(EXECUTE_FAILS, s);
    s := Go(EXECUTE_FAILS, s, Invoke(Prepare(1, [])));
    s := Go(EXECUTE_FAILS, s, CallerRuns);
    s := Go(EXECUTE_FAILS, s, CallerRuns);
    s := Go(EXECUTE_FAILS, s, CallerRuns);
  }

  const PREPARE_FAILS: Server := (trace: seq<Event>, op: Op) => if op.PrepareStatement? then Failed(7) else Done(false)

  /** A prepare() has answered with an error, and no sticky error remembers it. */
  lemma {:induction false} OneRefused() returns (s: State)
    ensures Reachable(PREPARE_FAILS, s) && s.caller.Idle? && s.worker.Top? && !s.workerAsleep && !s.callerAsleep
    ensures Quiet(s) && !s.stop && s.error.None? && s.log.replies == [Refused(7)] && |s.log.calls| == 1
    ensures s.conn.trace == [Event(PrepareStatement(0), Failed(7))]
  {
    s := PreparePosted(PREPARE_FAILS);
    s := Go(PREPARE_FAILS, s, WorkerRuns);
    s := Go(PREPARE_FAILS, s, WorkerRuns);
    s := Go(PREPARE_FAILS, s, WorkerRuns);
    s := Go(PREPARE_FAILS, s, WorkerRuns);
    s := Go(PREPARE_FAILS, s, WorkerRuns);
    s := Go(PREPARE_FAILS, s, WorkerRuns);
    s := Go(PREPARE_FAILS, s, CallerRuns);
    s := Go(PREPARE_FAILS, s, CallerRuns);
  }

  lemma {:induction false} CommitPosted() returns (s: State)
    ensures Reachable(PREPARE_FAILS, s) && s.pending == Some(CommitJob) && s.caller == PostDrain(Commit)
    ensures s.worker.Top? && !s.workerAsleep && !s.callerAsleep && !s.busy && !s.stop && s.error.None?
    ensures s.log.replies == [Refused(7)] && s.conn.trace == [Event(PrepareStatement(0), Failed(7))]
  {
    s := OneRefused();
    s := Go(PREPARE_FAILS, s, Invoke(Commit));
    s := Go(PREPARE_FAILS, s, CallerRuns); // nothing to wait for
    s := Go(PREPARE_FAILS, s, CallerRuns); // no sticky error
    s := Go(PREPARE_FAILS, s, CallerRuns); // posted
    s := Go(PREPARE_FAILS, s, CallerRuns); // notified
  }

  /** commit() succeeds although a prepare() in the same transaction was refused. */
  lemma {:induction false} CommitAfterRefusedPrepare() returns (s: State)
    ensures Reachable(PREPARE_FAILS, s) && s.log.replies == [Refused(7), Committed]
    ensures s.conn.trace == [Event(PrepareStatement(0), Failed(7)), Event(CommitWork, Done(false))]
  {
    s := CommitPosted();
    s := Go(PREPARE_FAILS, s, WorkerRuns);
    s := Go(PREPARE_FAILS, s, WorkerRuns);
    s := Go(PREPARE_FAILS, s, WorkerRuns); // COMMIT
    s := Go(PREPARE_FAILS, s, WorkerRuns);
    s := Go(PREPARE_FAILS, s, WorkerRuns);
    s := Go(PREPARE_FAILS, s, CallerRuns);
    s := Go(PREPARE_FAILS, s, CallerRuns);
  }
}
