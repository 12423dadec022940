/**
The asynchronous facade as a transition system: one caller thread, one worker
thread, a mutex, two condition variables, a one-deep queue and a sticky first
error. Every critical section is one step, and so is every notification and
every round trip to the database, because the code notifies and talks to the
database outside the lock.

The database is an arbitrary function from what it has already been asked to
the answer it gives next, so a lemma that holds for every `Server` holds for
every behaviour of the backend.
*/
module AsyncDb {
  import opened Wrappers
  import opened ParamSnapshot

  // ---------------------------------------------------------------- database

  type Error = int

  datatype Op =
    | PrepareStatement(id: nat)
    | Execute(id: nat, values: Buffer)
    | Fetch(id: nat)
    | CommitWork
    | RollbackWork

  datatype Outcome = Done(rows: bool) | Failed(error: Error)

  datatype Event = Event(op: Op, outcome: Outcome)

  type Server = (seq<Event>, Op) -> Outcome

  function Ask(server: Server, trace: seq<Event>, op: Op): Event {
    Event(op, server(trace, op))
  }

  /** Only a statement's own failure is sticky; a refused PREPARE, COMMIT or ROLLBACK is not. */
  predicate IsFailure(e: Event) {
    (e.op.Execute? || e.op.Fetch?) && e.outcome.Failed?
  }

  // ------------------------------------------------------------ calls and jobs

  /** A call on the facade. `snap` is what the caller's parameter buffer held when it called. */
  datatype Call =
    | Prepare(id: nat, blank: Buffer)
    | Submit(id: nat, snap: Buffer)
    | Exec(id: nat, snap: Buffer, fetches: bool)
    | ExecuteSync(id: nat, snap: Buffer, fetches: bool)
    | FetchMore(id: nat)
    | Drain
    | IsFinished
    | Commit
    | Abort(error: Error) // what commit() turns into once it has read a sticky error
    | Rollback
    | Destroy

  /** A closure in the queue. `guarded` closures test the sticky error again before they run. */
  datatype Job =
    | PrepareJob(id: nat, blank: Buffer)
    | StatementJob(id: nat, snap: Buffer, fetches: bool, guarded: bool)
    | FetchJob(id: nat)
    | CommitJob
    | RollbackJob

  predicate Posts(call: Call) {
    !call.Drain? && !call.IsFinished? && !call.Destroy?
  }

  function JobOf(call: Call): Job
    requires Posts(call)
  {
    match call
    case Prepare(id, blank) => PrepareJob(id, blank)
    case Submit(id, snap) => StatementJob(id, snap, false, false)
    case Exec(id, snap, fetches) => StatementJob(id, snap, fetches, false)
    case ExecuteSync(id, snap, fetches) => StatementJob(id, snap, fetches, true)
    case FetchMore(id) => FetchJob(id)
    case Commit => CommitJob
    case Abort(_) => RollbackJob
    case Rollback => RollbackJob
  }

  /** COMMIT and ROLLBACK are posted even after an error. */
  predicate EndsTransaction(call: Call) {
    call.Commit? || call.Abort? || call.Rollback?
  }

  /** run_on_worker() waits for the job it posted; post_to_worker() does not. */
  predicate Waits(call: Call) {
    call.Prepare? || call.ExecuteSync? || call.FetchMore? || EndsTransaction(call)
  }

  datatype Reply =
    | Void
    | Handle(id: nat)
    | NullTask(id: nat) // prepare() whose job was dropped: the task pointer stays null
    | Refused(error: Error)
    | Queued
    | Finished
    | StillPending
    | Rows(any: bool)
    | Committed
    | CommitFailed
    | RolledBack
    | RollbackFailed

  /** What the running closure left in the caller's local variables. */
  datatype Slot = Empty | Prepared | PrepareError(error: Error) | Fetched(any: bool) | Status(ok: bool)

  // ------------------------------------------------------------------- threads

  datatype Caller =
    | Idle
    | PreDrain(call: Call)  // the drain() that opens commit(), rollback() and the destructor
    | ReadError             // commit(): error()
    | Check(call: Call)     // post_to_worker(): lock and look at error_
    | Await(call: Call)     // ... waiting for the slot
    | Notify(call: Call)    // ... slot taken, notification still to be sent
    | PostDrain(call: Call) // the drain() that closes run_on_worker()
    | Finish(call: Call)
    | SetStop
    | NotifyStop
    | Join
    | Gone

  datatype JobPc = TestError | DoPrepare | DoExecute | DoFetch | DoTransaction | NoteError(error: Error) | Returned

  datatype Worker =
    | Top                        // at the wait on to_worker_
    | Took(job: Job)             // job in hand, notification still to be sent
    | Running(job: Job, at: JobPc)
    | Closing                    // job done, busy_ still to be cleared
    | Announce                   // busy_ cleared, notification still to be sent
    | Exited

  /** History: what entered the queue for which call (counted from one), and where the sticky error was cleared. */
  datatype Item = Ran(job: Job, call: nat) | Cleared

  /** History: how long each record was when the last transaction ended. */
  datatype Mark = Mark(calls: nat, items: nat, events: nat)

  /** The worker's side: what was said to the database, and the parameter buffers inside the queries. */
  datatype Connection = Connection(trace: seq<Event>, buffers: map<nat, Buffer>)

  /** The caller's side: its own parameter buffer for each handle, and the next handle's number. */
  datatype Handles = Handles(params: map<nat, Buffer>, next: nat)

  datatype Log = Log(calls: seq<Call>, replies: seq<Reply>, accepted: seq<Item>, mark: Mark)

  datatype State = State(
    pending: Option<Job>,
    busy: bool,
    stop: bool,
    error: Option<Error>,
    caller: Caller,
    callerAsleep: bool,
    worker: Worker,
    workerAsleep: bool,
    slot: Slot,
    conn: Connection,
    held: Handles,
    log: Log)

  const INITIAL: State :=
    State(None, false, false, None, Idle, false, Top, false, Empty,
          Connection([], map[]), Handles(map[], 0), Log([], [], [], Mark(0, 0, 0)))

  // -------------------------------------------------------------- worker thread

  function Start(job: Job): JobPc {
    match job
    case PrepareJob(_, _) => DoPrepare
    case StatementJob(_, _, _, guarded) => if guarded then TestError else DoExecute
    case FetchJob(_) => TestError
    case CommitJob => DoTransaction
    case RollbackJob => DoTransaction
  }

  function BufferOf(buffers: map<nat, Buffer>, id: nat): Buffer {
    if id in buffers then buffers[id] else []
  }

  predicate CanRun(job: Job, at: JobPc) {
    match at
    case TestError => job.StatementJob? || job.FetchJob?
    case DoPrepare => job.PrepareJob?
    case DoExecute => job.StatementJob?
    case DoFetch => job.StatementJob? || job.FetchJob?
    case DoTransaction => job.CommitJob? || job.RollbackJob?
    case NoteError(_) => job.StatementJob? || job.FetchJob?
    case Returned => true
  }

  function Say(c: Connection, e: Event): Connection {
    c.(trace := c.trace + [e])
  }

  /** One step of the closure the worker is running. */
  function JobStep(server: Server, s: State, job: Job, at: JobPc): State
    requires CanRun(job, at)
  {
    match at
    case TestError =>
      if s.error.Some? then s.(worker := Running(job, Returned))
      else s.(worker := Running(job, if job.FetchJob? then DoFetch else DoExecute))
    case DoPrepare =>
      var e := Ask(server, s.conn.trace, PrepareStatement(job.id));
      if e.outcome.Failed? then
        s.(conn := Say(s.conn, e), slot := PrepareError(e.outcome.error), worker := Running(job, Returned))
      else
        s.(conn := Say(s.conn, e).(buffers := s.conn.buffers[job.id := job.blank]),
           slot := Prepared, worker := Running(job, Returned))
    case DoExecute =>
      var values := Restored(BufferOf(s.conn.buffers, job.id), job.snap);
      var e := Ask(server, s.conn.trace, Execute(job.id, values));
      s.(conn := Say(s.conn, e).(buffers := s.conn.buffers[job.id := values]),
         worker := Running(job, if e.outcome.Failed? then NoteError(e.outcome.error)
                                else if job.fetches then DoFetch else Returned))
    case DoFetch =>
      var e := Ask(server, s.conn.trace, Fetch(job.id));
      s.(conn := Say(s.conn, e),
         slot := if job.StatementJob? && !job.guarded then s.slot
                 else Fetched(e.outcome.Done? && e.outcome.rows),
         worker := Running(job, if e.outcome.Failed? then NoteError(e.outcome.error) else Returned))
    case DoTransaction =>
      var e := Ask(server, s.conn.trace, if job.CommitJob? then CommitWork else RollbackWork);
      s.(conn := Say(s.conn, e), slot := Status(e.outcome.Done?), worker := Running(job, Returned))
    case NoteError(error) =>
      s.(error := if s.error.None? then Some(error) else s.error, worker := Running(job, Returned))
    case Returned => s.(worker := Closing)
  }

  predicate WorkerEnabled(s: State) {
    !s.worker.Exited? && !s.workerAsleep && (s.worker.Running? ==> CanRun(s.worker.job, s.worker.at))
  }

  function WorkerStep(server: Server, s: State): State
    requires WorkerEnabled(s)
  {
    match s.worker
    case Top =>
      if s.pending.Some? then s.(worker := Took(s.pending.value), pending := None, busy := true)
      else if s.stop then s.(worker := Exited)
      else s.(workerAsleep := true)
    case Took(job) => s.(worker := Running(job, Start(job)), callerAsleep := false)
    case Running(job, at) => JobStep(server, s, job, at)
    case Closing => s.(worker := Announce, busy := false)
    case Announce => s.(worker := Top, callerAsleep := false)
  }

  // -------------------------------------------------------------- caller thread

  predicate Quiet(s: State) {
    s.pending.None? && !s.busy
  }

  /** post_to_worker() puts the job into the slot. */
  function Post(s: State, call: Call): State
    requires Posts(call)
  {
    s.(pending := Some(JobOf(call)),
       log := s.log.(accepted := s.log.accepted + [Ran(JobOf(call), |s.log.calls|)]),
       caller := Notify(call),
       callerAsleep := false)
  }

  /** The sticky error goes with the transaction. */
  function ClearError(s: State): State {
    s.(error := None, log := s.log.(accepted := s.log.accepted + [Cleared]))
  }

  function EndTransaction(s: State): State {
    s.(log := s.log.(mark := Mark(|s.log.calls|, |s.log.accepted|, |s.conn.trace|)))
  }

  function Return(s: State, reply: Reply): State {
    s.(caller := Idle, log := s.log.(replies := s.log.replies + [reply]))
  }

  function FinishStep(s: State, call: Call): State {
    match call
    case Prepare(id, blank) =>
      if s.slot.PrepareError? then Return(s, Refused(s.slot.error))
      else if s.slot.Prepared? then
        Return(s.(held := Handles(s.held.params[id := blank], s.held.next + 1)), Handle(id))
      else Return(s.(held := s.held.(next := s.held.next + 1)), NullTask(id))
    case Submit(_, _) => Return(s, Void)
    case Exec(_, _, _) => Return(s, if s.error.Some? then Refused(s.error.value) else Queued)
    case ExecuteSync(_, _, _) =>
      Return(s, if s.error.Some? then Refused(s.error.value) else Rows(s.slot == Fetched(true)))
    case FetchMore(_) =>
      Return(s, if s.error.Some? then Refused(s.error.value) else Rows(s.slot == Fetched(true)))
    case Drain => Return(s, Void)
    case IsFinished =>
      Return(s, if !Quiet(s) then StillPending
                else if s.error.Some? then Refused(s.error.value) else Finished)
    case Commit => Return(EndTransaction(s), if s.slot == Status(true) then Committed else CommitFailed)
    case Abort(error) => Return(EndTransaction(ClearError(s)), Refused(error))
    case Rollback => Return(EndTransaction(ClearError(s)), if s.slot == Status(true) then RolledBack else RollbackFailed)
    case Destroy => s.(caller := SetStop)
  }

  predicate CallerEnabled(s: State) {
    && !s.caller.Idle? && !s.caller.Gone? && !s.callerAsleep
    && (s.caller.Join? ==> s.worker.Exited?)
    && (s.caller.Check? || s.caller.Await? ==> Posts(s.caller.call))
  }

  function CallerStep(s: State): State
    requires CallerEnabled(s)
  {
    match s.caller
    case PreDrain(call) =>
      if !Quiet(s) then s.(callerAsleep := true)
      else s.(caller := if call.Commit? then ReadError else if call.Rollback? then Check(call) else Finish(call))
    case ReadError => s.(caller := Check(if s.error.Some? then Abort(s.error.value) else Commit))
    case Check(call) =>
      if s.error.Some? && !EndsTransaction(call) then
        s.(caller := if Waits(call) then PostDrain(call) else Finish(call))
      else if s.pending.None? then Post(s, call)
      else s.(caller := Await(call), callerAsleep := true)
    case Await(call) => if s.pending.None? then Post(s, call) else s.(callerAsleep := true)
    case Notify(call) =>
      s.(workerAsleep := false, caller := if Waits(call) then PostDrain(call) else Finish(call))
    case PostDrain(call) => if !Quiet(s) then s.(callerAsleep := true) else s.(caller := Finish(call))
    case Finish(call) => FinishStep(s, call)
    case SetStop => s.(stop := true, caller := NotifyStop)
    case NotifyStop => s.(workerAsleep := false, caller := Join)
    case Join => s.(caller := Gone)
  }

  // ------------------------------------------------------------------------ runs

  /** What may happen next: a new call, a write into a parameter buffer, a thread's step, a spurious wakeup. */
  datatype Action =
    | Invoke(call: Call)
    | Write(id: nat, values: Buffer)
    | CallerRuns
    | WorkerRuns
    | CallerWakes
    | WorkerWakes

  predicate Invokable(s: State, call: Call) {
    match call
    case Prepare(id, _) => id == s.held.next
    case Submit(id, snap) => id in s.held.params && snap == s.held.params[id]
    case Exec(id, snap, _) => id in s.held.params && snap == s.held.params[id]
    case ExecuteSync(id, snap, _) => id in s.held.params && snap == s.held.params[id]
    case FetchMore(id) => id in s.held.params
    case Abort(_) => false
    case Drain => true
    case IsFinished => true
    case Commit => true
    case Rollback => true
    case Destroy => true
  }

  function Begin(s: State, call: Call): State {
    s.(log := s.log.(calls := s.log.calls + [call]),
       slot := Empty,
       caller := if call.IsFinished? then Finish(call)
                 else if call.Drain? || call.Commit? || call.Rollback? || call.Destroy? then PreDrain(call)
                 else Check(call))
  }

  predicate Enabled(s: State, a: Action) {
    match a
    case Invoke(call) => s.caller.Idle? && Invokable(s, call)
    case Write(id, values) => s.caller.Idle? && id in s.held.params && SameLayout(values, s.held.params[id])
    case CallerRuns => CallerEnabled(s)
    case WorkerRuns => WorkerEnabled(s)
    case CallerWakes => s.callerAsleep
    case WorkerWakes => s.workerAsleep
  }

  function Apply(server: Server, s: State, a: Action): State
    requires Enabled(s, a)
  {
    match a
    case Invoke(call) => Begin(s, call)
    case Write(id, values) => s.(held := s.held.(params := s.held.params[id := values]))
    case CallerRuns => CallerStep(s)
    case WorkerRuns => WorkerStep(server, s)
    case CallerWakes => s.(callerAsleep := false)
    case WorkerWakes => s.(workerAsleep := false)
  }

  /** `actions` can be taken one after the other from `s`, and lead to `t`. */
  predicate Leads(server: Server, s: State, actions: seq<Action>, t: State)
    decreases |actions|
  {
    if |actions| == 0 then s == t
    else Enabled(s, actions[0]) && Leads(server, Apply(server, s, actions[0]), actions[1..], t)
  }

  /** One more action. */
  lemma {:induction false} LeadsOn(server: Server, s: State, actions: seq<Action>, t: State, a: Action)
    requires Leads(server, s, actions, t) && Enabled(t, a)
    ensures Leads(server, s, actions + [a], Apply(server, t, a))
    decreases |actions|
  {
    if actions == [] {
      assert Leads(server, Apply(server, s, a), [], Apply(server, t, a));
    } else {
      LeadsOn(server, Apply(server, s, actions[0]), actions[1..], t, a);
      assert (actions + [a])[1..] == actions[1..] + [a];
    }
  }

  /** `s` is reached from a fresh facade by some interleaving. */
  ghost predicate Reachable(server: Server, s: State) {
    exists actions :: Leads(server, INITIAL, actions, s)
  }
}
