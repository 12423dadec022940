/** What every step of the facade keeps, whichever thread takes it. */
module AsyncInvariants {
  import opened Wrappers
  import opened ParamSnapshot
  import opened AsyncDb
  import opened AsyncReplay

  // ------------------------------------------------------------------ vocabulary

  function InHand(w: Worker): seq<Job> {
    if w.Took? || w.Running? then [w.job] else []
  }

  function Queued(pending: Option<Job>): seq<Job> {
    if pending.Some? then [pending.value] else []
  }

  /** Accepted jobs whose closures have not returned yet, oldest first. */
  function Todo(s: State): seq<Job> {
    InHand(s.worker) + Queued(s.pending)
  }

  /** The caller is inside a call whose job is in the queue, or was. */
  predicate Posted(c: Caller) {
    c.Notify? || c.PostDrain?
  }

  predicate InCall(c: Caller) {
    c.PreDrain? || c.Check? || c.Await? || c.Notify? || c.PostDrain? || c.Finish?
  }

  predicate BeforePost(c: Caller) {
    c.PreDrain? || c.ReadError? || c.Check? || c.Await?
  }

  predicate Ending(c: Caller) {
    (Posted(c) || c.Finish?) && EndsTransaction(c.call)
  }

  predicate Noting(w: Worker) {
    w.Running? && w.at.NoteError?
  }

  /** Nobody waits for a submitted or exec'd job; every other job has a caller blocked on it. */
  predicate Detached(job: Job) {
    job.StatementJob? && !job.guarded
  }

  /** The conversation since the last transaction ended. */
  function Segment(s: State): seq<Event> {
    if s.log.mark.events <= |s.conn.trace| then s.conn.trace[s.log.mark.events..] else []
  }

  // --------------------------------------------------------------------- control

  predicate CallerControl(s: State) {
    && (s.callerAsleep ==> s.caller.PreDrain? || s.caller.Await? || s.caller.PostDrain?)
    && (s.stop <==> s.caller.NotifyStop? || s.caller.Join? || s.caller.Gone?)
    && (s.caller.ReadError? || s.caller.SetStop? || s.stop ==> Quiet(s))
    && (s.caller.PreDrain? ==>
          s.caller.call.Drain? || s.caller.call.Commit? || s.caller.call.Rollback? || s.caller.call.Destroy?)
    && (s.caller.Check? || s.caller.Await? || Posted(s.caller) ==> Posts(s.caller.call))
    && (s.caller.Await? ==> !EndsTransaction(s.caller.call))
    && (s.caller.PostDrain? ==> Waits(s.caller.call))
    && (s.caller.Check? && EndsTransaction(s.caller.call) ==> Quiet(s))
    && (s.caller.Finish? && (Waits(s.caller.call) || s.caller.call.Destroy?) ==> Quiet(s))
  }

  predicate WorkerControl(s: State) {
    && (s.busy <==> s.worker.Took? || s.worker.Running? || s.worker.Closing?)
    && (s.worker.Running? ==> CanRun(s.worker.job, s.worker.at))
    && (s.workerAsleep ==> s.worker.Top?)
    && (s.worker.Exited? ==> s.stop)
    && (s.caller.Gone? ==> s.worker.Exited?)
  }

  predicate Control(s: State) {
    CallerControl(s) && WorkerControl(s)
  }

  lemma CallerControlByCaller(s: State)
    requires Control(s) && CallerEnabled(s)
    ensures CallerControl(CallerStep(s))
  {
  }

  lemma WorkerControlByCaller(s: State)
    requires Control(s) && CallerEnabled(s)
    ensures WorkerControl(CallerStep(s))
  {
  }

  lemma ControlByWorker(server: Server, s: State)
    requires Control(s) && WorkerEnabled(s)
    ensures Control(WorkerStep(server, s))
  {
  }

  lemma ControlKept(server: Server, s: State, a: Action)
    requires Control(s) && Enabled(s, a)
    ensures Control(Apply(server, s, a))
  {
    if a.CallerRuns? {
      CallerControlByCaller(s);
      WorkerControlByCaller(s);
    } else if a.WorkerRuns? {
      ControlByWorker(server, s);
    }
  }

  /** A job somebody waits for is the newest one, and its caller is the one waiting. */
  predicate Escorts(c: Caller, job: Job) {
    Posted(c) && Posts(c.call) && JobOf(c.call) == job
  }

  predicate Escorted(s: State) {
    && (InHand(s.worker) != [] && !Detached(s.worker.job) ==> s.pending.None? && Escorts(s.caller, s.worker.job))
    && (s.pending.Some? && !Detached(s.pending.value) ==> Escorts(s.caller, s.pending.value))
    && (Posted(s.caller) && EndsTransaction(s.caller.call) ==>
          && (InHand(s.worker) != [] ==> s.worker.job == JobOf(s.caller.call) && s.pending.None?)
          && (s.pending.Some? ==> s.pending.value == JobOf(s.caller.call)))
  }

  lemma EscortedByCaller(s: State)
    requires Control(s) && Escorted(s) && CallerEnabled(s)
    ensures Escorted(CallerStep(s))
  {
  }

  lemma EscortedByWorker(server: Server, s: State)
    requires Control(s) && Escorted(s) && WorkerEnabled(s)
    ensures Escorted(WorkerStep(server, s))
  {
  }

  lemma EscortedKept(server: Server, s: State, a: Action)
    requires Control(s) && Escorted(s) && Enabled(s, a)
    ensures Escorted(Apply(server, s, a))
  {
    if a.CallerRuns? {
      EscortedByCaller(s);
    } else if a.WorkerRuns? {
      EscortedByWorker(server, s);
    }
  }

  // ---------------------------------------------------------------------- wakeups

  /** A sleeper whose condition already holds has a notification still to come. */
  predicate NoLostWakeup(s: State) {
    && (s.workerAsleep && (s.pending.Some? || s.stop) ==> s.caller.Notify? || s.caller.NotifyStop?)
    && (s.callerAsleep && s.caller.Await? && s.pending.None? ==> s.worker.Took?)
    && (s.callerAsleep && !s.caller.Await? && Quiet(s) ==> s.worker.Announce?)
  }

  lemma NoLostWakeupByCaller(s: State)
    requires Control(s) && NoLostWakeup(s) && CallerEnabled(s)
    ensures NoLostWakeup(CallerStep(s))
  {
  }

  lemma NoLostWakeupKept(server: Server, s: State, a: Action)
    requires Control(s) && NoLostWakeup(s) && Enabled(s, a)
    ensures NoLostWakeup(Apply(server, s, a))
  {
    if a.CallerRuns? {
      NoLostWakeupByCaller(s);
    }
  }

  // ---------------------------------------------------------------------- history

  /** Where the caller stands, and which of its calls it is in. */
  predicate CallsMatch(s: State) {
    var calls := s.log.calls;
    && (!s.caller.Idle? ==> calls != [])
    && |s.log.replies| == (if s.caller.Idle? then |calls| else |calls| - 1)
    && (forall i | 0 <= i < |calls| :: !calls[i].Abort?)
    && (s.caller.ReadError? ==> calls[|calls| - 1].Commit?)
    && (InCall(s.caller) ==>
          s.caller.call == calls[|calls| - 1] || (s.caller.call.Abort? && calls[|calls| - 1].Commit?))
    && (s.caller.SetStop? || s.caller.NotifyStop? || s.caller.Join? || s.caller.Gone? ==>
          calls[|calls| - 1].Destroy?)
  }

  lemma CallsMatchByCaller(s: State)
    requires CallerControl(s) && CallsMatch(s) && CallerEnabled(s)
    ensures CallsMatch(CallerStep(s))
  {
  }

  lemma CallsMatchKept(server: Server, s: State, a: Action)
    requires CallerControl(s) && CallsMatch(s) && Enabled(s, a)
    ensures CallsMatch(Apply(server, s, a))
  {
    if a.CallerRuns? {
      CallsMatchByCaller(s);
    }
  }

  /** `job` is what `call` posts; a commit() that found an error posts a rollback instead. */
  predicate Serves(job: Job, call: Call) {
    Posts(call) && (JobOf(call) == job || (call.Commit? && job.RollbackJob?))
  }

  /** Every queue entry belongs to a call of its own, in the order the calls were made. */
  predicate InOrder(accepted: seq<Item>, calls: seq<Call>, latest: nat) {
    && (forall i | 0 <= i < |accepted| && accepted[i].Ran? ::
          1 <= accepted[i].call <= latest <= |calls| && Serves(accepted[i].job, calls[accepted[i].call - 1]))
    && (forall i, j | 0 <= i < j < |accepted| && accepted[i].Ran? && accepted[j].Ran? ::
          accepted[i].call < accepted[j].call)
  }

  /** The number of the last call that may already have a queue entry. */
  function Latest(s: State): nat
    requires CallsMatch(s)
  {
    if BeforePost(s.caller) then |s.log.calls| - 1 else |s.log.calls|
  }

  lemma InOrderGrows(accepted: seq<Item>, item: Item, calls: seq<Call>)
    requires calls != [] && InOrder(accepted, calls, |calls| - 1)
    requires item.Cleared? || (item.call == |calls| && Serves(item.job, calls[|calls| - 1]))
    ensures InOrder(accepted + [item], calls, |calls|)
  {
  }

  lemma InOrderCleared(accepted: seq<Item>, calls: seq<Call>, latest: nat)
    requires InOrder(accepted, calls, latest)
    ensures InOrder(accepted + [Cleared], calls, latest)
  {
  }

  /** commit() after an error and rollback() take the sticky error away. */
  function Clears(call: Call): seq<Item> {
    if call.Abort? || call.Rollback? then [Cleared] else []
  }

  /** A step of the caller that hands its job over. */
  predicate PostsJob(s: State, t: State) {
    && (s.caller.Check? || s.caller.Await?) && Posts(s.caller.call)
    && (s.error.None? || s.caller.Await? || EndsTransaction(s.caller.call))
    && s.pending.None? && t.pending == Some(JobOf(s.caller.call)) && t.caller == Notify(s.caller.call)
    && t.error == s.error
    && t.log == s.log.(accepted := s.log.accepted + [Ran(JobOf(s.caller.call), |s.log.calls|)])
  }

  /** A step of the caller that returns from commit() or rollback(). */
  predicate EndsWork(s: State, t: State) {
    && s.caller.Finish? && EndsTransaction(s.caller.call) && t.caller.Idle?
    && t.error == (if s.caller.call.Commit? then s.error else None)
    && t.log.calls == s.log.calls
    && t.log.accepted == s.log.accepted + Clears(s.caller.call)
    && t.log.mark == Mark(|t.log.calls|, |t.log.accepted|, |s.conn.trace|)
  }

  /** Any other step of the caller: it moves on, and leaves the shared state and the records alone. */
  predicate Walks(s: State, t: State) {
    && t.error == s.error
    && t.log.calls == s.log.calls && t.log.accepted == s.log.accepted && t.log.mark == s.log.mark
    && !(s.caller.Finish? && EndsTransaction(s.caller.call))
    && (t.caller.Await? ==> s.caller.Await? || (s.caller.Check? && s.error.None?))
    && (BeforePost(t.caller) ==> BeforePost(s.caller))
    && (BeforePost(s.caller) ==> BeforePost(t.caller) || s.error.Some? || (s.caller.PreDrain? && t.caller.Finish?))
    && (Ending(t.caller) ==> Ending(s.caller) && t.caller.call == s.caller.call)
    && (Ending(s.caller) ==> Ending(t.caller))
    && (InCall(t.caller) ==> s.caller.ReadError? || (InCall(s.caller) && t.caller.call == s.caller.call))
  }

  predicate CallerMove(s: State, t: State) {
    && t.conn == s.conn && t.worker == s.worker && t.busy == s.busy && t.slot == s.slot
    && (!(s.caller.Finish? && s.caller.call.Prepare?) ==> t.held == s.held)
    && (PostsJob(s, t) || (t.pending == s.pending && (EndsWork(s, t) || Walks(s, t))))
  }

  lemma MovesByFinish(s: State)
    requires CallerControl(s) && CallerEnabled(s) && s.caller.Finish?
    ensures CallerMove(s, CallerStep(s))
  {
  }

  lemma MovesByPost(s: State)
    requires CallerControl(s) && CallerEnabled(s) && (s.caller.Check? || s.caller.Await?)
    ensures CallerMove(s, CallerStep(s))
  {
  }

  lemma MovesByOthers(s: State)
    requires CallerControl(s) && CallerEnabled(s) && !s.caller.Finish? && !s.caller.Check? && !s.caller.Await?
    ensures CallerMove(s, CallerStep(s))
  {
  }

  lemma CallerMoves(s: State, t: State)
    requires CallerControl(s) && CallerEnabled(s) && t == CallerStep(s)
    ensures CallerMove(s, t)
  {
    if s.caller.Finish? {
      MovesByFinish(s);
    } else if s.caller.Check? || s.caller.Await? {
      MovesByPost(s);
    } else {
      MovesByOthers(s);
    }
  }

  lemma InOrderByCaller(s: State, t: State)
    requires CallsMatch(s) && CallsMatch(t) && CallerMove(s, t)
    requires InOrder(s.log.accepted, s.log.calls, Latest(s))
    ensures InOrder(t.log.accepted, t.log.calls, Latest(t))
  {
    if PostsJob(s, t) {
      InOrderGrows(s.log.accepted, Ran(JobOf(s.caller.call), |s.log.calls|), s.log.calls);
    } else if EndsWork(s, t) {
      InOrderCleared(s.log.accepted, s.log.calls, Latest(s));
    }
  }

  lemma InOrderKept(server: Server, s: State, a: Action, t: State)
    requires Control(s) && CallsMatch(s) && CallsMatch(t)
    requires Enabled(s, a) && t == Apply(server, s, a)
    requires InOrder(s.log.accepted, s.log.calls, Latest(s))
    ensures InOrder(t.log.accepted, t.log.calls, Latest(t))
  {
    if a.CallerRuns? {
      CallerMoves(s, t);
      InOrderByCaller(s, t);
    } else if a.WorkerRuns? {
      assert t.log == s.log && t.caller == s.caller;
    }
  }

  // ---------------------------------------------------------------- buffer layouts

  predicate Fits(held: Handles, id: nat, snap: Buffer) {
    id in held.params && SameLayout(held.params[id], snap)
  }

  predicate JobFits(held: Handles, job: Job) {
    job.StatementJob? ==> Fits(held, job.id, job.snap)
  }

  /** Caller's and query's buffer of a statement are laid out alike. */
  predicate Paired(held: Handles, conn: Connection) {
    forall id | id in held.params ::
      id < held.next && id in conn.buffers && SameLayout(conn.buffers[id], held.params[id])
  }

  /** So is every snapshot under way, and a freshly prepared buffer is the one the caller will be told of. */
  predicate CallFits(held: Handles, conn: Connection, slot: Slot, call: Call) {
    && (Posts(call) ==> JobFits(held, JobOf(call)))
    && (call.Prepare? ==> call.id == held.next)
    && (call.Prepare? && slot.Prepared? ==> call.id in conn.buffers && conn.buffers[call.id] == call.blank)
  }

  predicate Layouts(s: State) {
    && Paired(s.held, s.conn)
    && (InHand(s.worker) != [] ==> JobFits(s.held, s.worker.job))
    && (s.pending.Some? ==> JobFits(s.held, s.pending.value))
    && (InCall(s.caller) ==> CallFits(s.held, s.conn, s.slot, s.caller.call))
  }

  lemma SameIsLaidOutAlike(b: Buffer)
    ensures SameLayout(b, b)
  {
    forall i | 0 <= i < |b|
      ensures SameShape(b[i], b[i])
    {
    }
  }

  lemma LayoutTrans(a: Buffer, b: Buffer, c: Buffer)
    requires SameLayout(a, b) && SameLayout(b, c)
    ensures SameLayout(a, c)
  {
    forall i | 0 <= i < |a|
      ensures SameShape(a[i], c[i])
    {
      assert SameShape(a[i], b[i]) && SameShape(b[i], c[i]);
    }
  }

  /** Steps of the caller that register nothing. */
  lemma LayoutsByCaller(s: State, t: State)
    requires Layouts(s) && CallerMove(s, t)
    requires !(s.caller.Finish? && s.caller.call.Prepare?)
    requires s.caller.ReadError? && InCall(t.caller) ==> EndsTransaction(t.caller.call)
    ensures Layouts(t)
  {
  }

  /** Handles only grow, so what fitted still fits. */
  lemma LayoutsByRegistering(s: State)
    requires Control(s) && Layouts(s) && s.caller.Finish? && s.caller.call.Prepare?
    ensures Layouts(CallerStep(s))
  {
    SameIsLaidOutAlike(s.caller.call.blank);
  }

  lemma LayoutsByJob(server: Server, s: State)
    requires Control(s) && Escorted(s) && Layouts(s) && s.worker.Running?
    ensures Layouts(WorkerStep(server, s))
  {
    var t := WorkerStep(server, s);
    var job := s.worker.job;
    if s.worker.at.DoExecute? {
      LayoutTrans(t.conn.buffers[job.id], s.conn.buffers[job.id], s.held.params[job.id]);
    }
  }

  lemma LayoutsByWrite(s: State, id: nat, values: Buffer)
    requires Layouts(s) && Enabled(s, Write(id, values))
    ensures Layouts(s.(held := s.held.(params := s.held.params[id := values])))
  {
    SameLayoutSym(values, s.held.params[id]);
    LayoutTrans(s.conn.buffers[id], s.held.params[id], values);
    forall snap | SameLayout(s.held.params[id], snap)
      ensures SameLayout(values, snap)
    {
      LayoutTrans(values, s.held.params[id], snap);
    }
  }

  lemma SameLayoutSym(a: Buffer, b: Buffer)
    requires SameLayout(a, b)
    ensures SameLayout(b, a)
  {
    forall i | 0 <= i < |a|
      ensures SameShape(b[i], a[i])
    {
      assert SameShape(a[i], b[i]);
    }
  }

  lemma LayoutsByInvoke(s: State, call: Call)
    requires Layouts(s) && s.caller.Idle? && Invokable(s, call)
    ensures Layouts(Begin(s, call))
  {
    if call.Submit? || call.Exec? || call.ExecuteSync? {
      SameIsLaidOutAlike(call.snap);
    }
  }

  lemma LayoutsKept(server: Server, s: State, a: Action, t: State)
    requires Control(s) && Escorted(s) && Layouts(s) && Enabled(s, a) && t == Apply(server, s, a)
    ensures Layouts(t)
  {
    match a
    case Invoke(call) => LayoutsByInvoke(s, call);
    case Write(id, values) => LayoutsByWrite(s, id, values);
    case CallerRuns =>
      if s.caller.Finish? && s.caller.call.Prepare? {
        LayoutsByRegistering(s);
      } else {
        CallerMoves(s, t);
        LayoutsByCaller(s, t);
      }
    case WorkerRuns =>
      if s.worker.Running? {
        LayoutsByJob(server, s);
      }
    case _ =>
  }

  // ------------------------------------------------------------------------ replay

  /** The conversation, with what is still to come of the job in hand. */
  function Completed(server: Server, trace: seq<Event>, error: Option<Error>, w: Worker): View
    requires w.Running? ==> CanRun(w.job, w.at)
  {
    var v := View(trace, error);
    match w
    case Took(job) => RunJob(server, v, job)
    case Running(job, at) => Rest(server, v, job, at)
    case _ => v
  }

  /** The accepted entries the worker has taken so far. */
  function Taken(accepted: seq<Item>, pending: Option<Job>): seq<Item> {
    if pending.Some? && accepted != [] then accepted[..|accepted| - 1] else accepted
  }

  /** Nothing but the accepted jobs ever reaches the database, one after the other. */
  predicate Agrees(server: Server, s: State) {
    && (s.worker.Running? ==> CanRun(s.worker.job, s.worker.at))
    && (s.pending.Some? ==>
          var n := |s.log.accepted|;
          n > 0 && s.log.accepted[n - 1].Ran? && s.log.accepted[n - 1].job == s.pending.value)
    && Completed(server, s.conn.trace, s.error, s.worker) == Replay(server, Taken(s.log.accepted, s.pending))
  }

  lemma JobStepCompletes(server: Server, s: State)
    requires Control(s) && Layouts(s) && s.worker.Running?
    ensures var t := WorkerStep(server, s);
            && (t.worker.Running? ==> CanRun(t.worker.job, t.worker.at))
            && Completed(server, t.conn.trace, t.error, t.worker)
               == Completed(server, s.conn.trace, s.error, s.worker)
  {
    var job := s.worker.job;
    if s.worker.at.DoExecute? {
      LayoutTrans(s.conn.buffers[job.id], s.held.params[job.id], job.snap);
      RestoreReplaces(s.conn.buffers[job.id], job.snap);
    }
  }

  lemma AgreesByJob(server: Server, s: State, t: State)
    requires Control(s) && Layouts(s) && Agrees(server, s) && s.worker.Running? && t == WorkerStep(server, s)
    ensures Agrees(server, t)
  {
    JobStepCompletes(server, s);
    assert t.pending == s.pending && t.log == s.log;
  }

  lemma StartIsRunJob(server: Server, v: View, job: Job)
    ensures CanRun(job, Start(job)) && Rest(server, v, job, Start(job)) == RunJob(server, v, job)
  {
  }

  lemma AgreesByLoop(server: Server, s: State)
    requires Control(s) && Agrees(server, s) && WorkerEnabled(s) && !s.worker.Running?
    ensures Agrees(server, WorkerStep(server, s))
  {
    var n := |s.log.accepted|;
    if s.worker.Took? {
      StartIsRunJob(server, View(s.conn.trace, s.error), s.worker.job);
    } else if s.worker.Top? && s.pending.Some? {
      var before, item := s.log.accepted[..n - 1], s.log.accepted[n - 1];
      assert s.log.accepted == before + [item];
      ReplayExtend(server, before, item);
    }
  }

  lemma AgreesByCaller(server: Server, s: State, t: State)
    requires Control(s) && Agrees(server, s) && CallerMove(s, t)
    ensures Agrees(server, t)
  {
    if PostsJob(s, t) {
      assert Taken(t.log.accepted, t.pending) == s.log.accepted;
    } else if EndsWork(s, t) {
      if s.caller.call.Commit? {
        assert t.log.accepted == s.log.accepted;
      } else {
        ReplayExtend(server, s.log.accepted, Cleared);
      }
    }
  }

  lemma AgreesKept(server: Server, s: State, a: Action, t: State)
    requires Control(s) && Layouts(s) && Agrees(server, s) && Enabled(s, a) && t == Apply(server, s, a)
    ensures Agrees(server, t)
  {
    if a.CallerRuns? {
      CallerMoves(s, t);
      AgreesByCaller(server, s, t);
    } else if a.WorkerRuns? {
      if s.worker.Running? {
        AgreesByJob(server, s, t);
      } else {
        AgreesByLoop(server, s);
      }
    }
  }

  // ------------------------------------------------------------------------ errors

  /** The sticky error is the first failure of the transaction, or the worker is about to record it. */
  predicate ErrorIsFirst(seg: seq<Event>, error: Option<Error>, w: Worker) {
    var first := FirstFailure(seg);
    if Noting(w) then first.Some? && (error == first || (error.None? && first == Some(w.at.error)))
    else error == first
  }

  /** commit() acts on the error it read: nothing can add one behind its back. */
  predicate ErrorKnown(s: State) {
    && (InCall(s.caller) && s.caller.call.Abort? ==> s.error == Some(s.caller.call.error))
    && ((s.caller.Check? || Ending(s.caller)) && s.caller.call.Commit? ==> s.error.None?)
  }

  lemma ErrorKnownKept(server: Server, s: State, a: Action)
    requires Control(s) && Escorted(s) && ErrorKnown(s) && Enabled(s, a)
    ensures ErrorKnown(Apply(server, s, a))
  {
    if a.CallerRuns? {
      ErrorKnownByCaller(s);
    }
  }

  lemma ErrorKnownByCaller(s: State)
    requires Control(s) && ErrorKnown(s) && CallerEnabled(s)
    ensures ErrorKnown(CallerStep(s))
  {
  }

  lemma SegmentGrows(s: State, t: State, e: Event)
    requires t.log.mark == s.log.mark && s.log.mark.events <= |s.conn.trace|
    requires t.conn.trace == s.conn.trace + [e]
    ensures Segment(t) == Segment(s) + [e]
  {
  }

  /** The steps at which a job talks to the database. */
  predicate Speaks(at: JobPc) {
    at.DoPrepare? || at.DoExecute? || at.DoFetch? || at.DoTransaction?
  }

  /** A step of the running job: it says one thing to the database, or nothing. */
  predicate JobMove(s: State, t: State, e: Option<Event>) {
    && s.worker.Running? && CanRun(s.worker.job, s.worker.at) && (e.Some? <==> Speaks(s.worker.at))
    && t.log == s.log && t.caller == s.caller && t.pending == s.pending
    && (t.worker == Closing || (t.worker.Running? && t.worker.job == s.worker.job))
    && (if e.Some? then
          && t.conn.trace == s.conn.trace + [e.value] && t.error == s.error
          && (e.value.op.Execute? <==> s.worker.at.DoExecute?)
          && (e.value.op.CommitWork? ==> s.worker.job.CommitJob?)
          && (e.value.op.RollbackWork? ==> s.worker.job.RollbackJob?)
          && (if IsFailure(e.value) then t.worker.Running? && t.worker.at == NoteError(e.value.outcome.error)
              else !Noting(t.worker))
          && !Unexecuted(t.worker)
        else
          && t.conn == s.conn
          && t.slot == s.slot
          && t.error == (if Noting(s.worker) && s.error.None? then Some(s.worker.at.error) else s.error)
          && !Noting(t.worker) && (Unexecuted(t.worker) ==> Unexecuted(s.worker)))
    && (if s.worker.at.DoTransaction? then
          && e.Some? && t.worker.Running? && t.worker.at == Returned
          && e.value.op == (if s.worker.job.CommitJob? then CommitWork else RollbackWork)
          && t.slot == Status(e.value.outcome.Done?)
        else t.worker.Running? ==> !t.worker.at.DoTransaction?)
  }

  lemma JobMoves(server: Server, s: State, t: State) returns (e: Option<Event>)
    requires Control(s) && s.worker.Running? && t == WorkerStep(server, s)
    ensures JobMove(s, t, e)
  {
    e := if Speaks(s.worker.at) then Some(t.conn.trace[|s.conn.trace|]) else None;
  }

  lemma ErrorIsFirstByJob(s: State, t: State, e: Option<Event>)
    requires JobMove(s, t, e) && s.log.mark.events <= |s.conn.trace|
    requires ErrorIsFirst(Segment(s), s.error, s.worker)
    ensures ErrorIsFirst(Segment(t), t.error, t.worker)
  {
    if e.Some? {
      SegmentGrows(s, t, e.value);
      Extend(Segment(s), e.value);
    } else {
      assert Segment(t) == Segment(s);
    }
  }

  lemma ErrorIsFirstKept(server: Server, s: State, a: Action, t: State)
    requires Control(s) && ErrorKnown(s) && Enabled(s, a) && t == Apply(server, s, a)
    requires s.log.mark.events <= |s.conn.trace|
    requires ErrorIsFirst(Segment(s), s.error, s.worker)
    ensures t.log.mark.events <= |t.conn.trace|
    ensures ErrorIsFirst(Segment(t), t.error, t.worker)
  {
    if a.CallerRuns? {
      CallerMoves(s, t);
    } else if a.WorkerRuns? && s.worker.Running? {
      var e := JobMoves(server, s, t);
      ErrorIsFirstByJob(s, t, e);
    }
  }

  // ------------------------------------------------------------- nothing was dropped

  /** Queue entries the call in progress has yet to make. */
  function Owed(c: Caller, calls: seq<Call>): seq<Item> {
    if BeforePost(c) && calls != [] then ItemsOf(calls[|calls| - 1], |calls|)
    else if (Posted(c) || c.Finish?) && c.call.Rollback? then [Cleared]
    else []
  }

  /** Every call made since a point in time has its entry in the queue's history, and nothing else has. */
  predicate AllAccepted(log: Log, c: Caller, since: Mark) {
    && since.calls <= |log.calls| && since.items <= |log.accepted|
    && log.accepted[since.items..] + Owed(c, log.calls) == Intended(log.calls, since.calls)
  }

  /** Since that point, no failure means that nothing was dropped. */
  predicate Complete(s: State, since: Mark) {
    && since.events <= s.log.mark.events <= |s.conn.trace|
    && since.calls <= |s.log.calls| && since.items <= |s.log.accepted|
    && (BeforePost(s.caller) ==> since.calls < |s.log.calls|)
    && (NoFailure(s.conn.trace[since.events..]) ==> AllAccepted(s.log, s.caller, since))
  }

  lemma IntendedExtend(calls: seq<Call>, call: Call, from: nat)
    requires from <= |calls|
    ensures Intended(calls + [call], from) == Intended(calls, from) + ItemsOf(call, |calls| + 1)
  {
    assert (calls + [call])[..|calls|] == calls;
  }

  /** What the caller adds to the queue's history it no longer owes. */
  lemma OwedByCaller(s: State, t: State)
    requires CallerControl(s) && CallsMatch(s) && ErrorKnown(s) && CallerMove(s, t) && s.error.None?
    ensures t.log.calls == s.log.calls
    ensures t.log.accepted + Owed(t.caller, t.log.calls) == s.log.accepted + Owed(s.caller, s.log.calls)
    ensures s.log.accepted <= t.log.accepted
  {
    if PostsJob(s, t) {
      assert ItemsOf(s.caller.call, |s.log.calls|) ==
             [Ran(JobOf(s.caller.call), |s.log.calls|)] + Owed(t.caller, t.log.calls);
    }
  }

  lemma AllAcceptedByCaller(s: State, t: State, since: Mark)
    requires CallerControl(s) && CallsMatch(s) && ErrorKnown(s) && CallerMove(s, t) && s.error.None?
    requires AllAccepted(s.log, s.caller, since)
    ensures AllAccepted(t.log, t.caller, since)
  {
    OwedByCaller(s, t);
    var before, after := s.log.accepted, t.log.accepted;
    assert after[since.items..] + Owed(t.caller, t.log.calls) == (after + Owed(t.caller, t.log.calls))[since.items..];
    assert before[since.items..] + Owed(s.caller, s.log.calls) == (before + Owed(s.caller, s.log.calls))[since.items..];
  }

  lemma NoFailureBefore(s: State, t: State, since: Mark)
    requires since.events <= s.log.mark.events <= |s.conn.trace| && s.conn.trace <= t.conn.trace
    requires NoFailure(t.conn.trace[since.events..])
    ensures NoFailure(s.conn.trace[since.events..]) && FirstFailure(Segment(s)).None?
  {
    forall i | since.events <= i < |s.conn.trace|
      ensures !IsFailure(s.conn.trace[i])
    {
      assert s.conn.trace[i] == t.conn.trace[since.events..][i - since.events];
    }
  }

  lemma CompleteByCaller(s: State, t: State, since: Mark)
    requires CallerControl(s) && CallsMatch(s) && ErrorKnown(s) && CallerMove(s, t)
    requires ErrorIsFirst(Segment(s), s.error, s.worker) && Complete(s, since)
    ensures Complete(t, since)
  {
    if NoFailure(t.conn.trace[since.events..]) {
      NoFailureBefore(s, t, since);
      AllAcceptedByCaller(s, t, since);
    }
  }

  lemma CompleteByInvoke(s: State, call: Call, since: Mark)
    requires s.caller.Idle? && Complete(s, since)
    ensures Complete(Begin(s, call), since)
  {
    var t := Begin(s, call);
    if NoFailure(t.conn.trace[since.events..]) {
      IntendedExtend(s.log.calls, call, since.calls);
      assert s.log.accepted[since.items..] + [] == s.log.accepted[since.items..];
      assert t.log.calls[|t.log.calls| - 1] == call;
    }
  }

  lemma CompleteKept(server: Server, s: State, a: Action, t: State, since: Mark)
    requires Control(s) && CallsMatch(s) && ErrorKnown(s) && Enabled(s, a) && t == Apply(server, s, a)
    requires ErrorIsFirst(Segment(s), s.error, s.worker) && Complete(s, since)
    ensures Complete(t, since)
  {
    match a
    case Invoke(call) => CompleteByInvoke(s, call, since);
    case CallerRuns =>
      CallerMoves(s, t);
      CompleteByCaller(s, t, since);
    case WorkerRuns =>
      assert t.log == s.log && t.caller == s.caller && s.conn.trace <= t.conn.trace;
      if NoFailure(t.conn.trace[since.events..]) {
        NoFailureBefore(s, t, since);
      }
    case _ =>
  }

  // ------------------------------------------------------------------ transactions

  predicate NoCommit(events: seq<Event>) {
    forall i | 0 <= i < |events| :: !events[i].op.CommitWork?
  }

  predicate NoEnd(events: seq<Event>) {
    forall i | 0 <= i < |events| :: !events[i].op.CommitWork? && !events[i].op.RollbackWork?
  }

  /** The COMMIT or ROLLBACK of the call in progress has not been sent yet. */
  predicate EndUnsent(s: State)
    requires Ending(s.caller)
  {
    var job := JobOf(s.caller.call);
    s.pending == Some(job) || s.worker == Took(job) || s.worker == Running(job, DoTransaction)
  }

  /** It has been sent, it is the last thing said, and its status is in the caller's hands. */
  predicate EndSent(seg: seq<Event>, slot: Slot, call: Call) {
    && seg != []
    && var last := seg[|seg| - 1];
    && last.op == (if call.Commit? then CommitWork else RollbackWork)
    && slot == Status(last.outcome.Done?)
    && NoEnd(seg[..|seg| - 1])
  }

  /** A transaction holds no COMMIT and no ROLLBACK but the one that ends it. */
  predicate Transactions(s: State) {
    if Ending(s.caller) && !EndUnsent(s) then EndSent(Segment(s), s.slot, s.caller.call)
    else NoEnd(Segment(s))
  }

  lemma TransactionsByCaller(s: State, t: State)
    requires Control(s) && Escorted(s) && Transactions(s) && CallerMove(s, t)
    requires s.log.mark.events <= |s.conn.trace|
    ensures Transactions(t)
  {
    if EndsWork(s, t) {
      assert Segment(t) == [];
    } else {
      assert Segment(t) == Segment(s);
    }
  }

  lemma TransactionsByJob(s: State, t: State, e: Option<Event>)
    requires JobMove(s, t, e) && Escorted(s) && Transactions(s) && s.log.mark.events <= |s.conn.trace|
    requires s.caller.Finish? && EndsTransaction(s.caller.call) ==> Quiet(s)
    requires s.busy
    ensures Transactions(t)
  {
    if e.Some? {
      SegmentGrows(s, t, e.value);
      assert Segment(t)[..|Segment(s)|] == Segment(s);
    } else {
      assert Segment(t) == Segment(s);
    }
  }

  lemma TransactionsKept(server: Server, s: State, a: Action, t: State)
    requires Control(s) && Escorted(s) && Transactions(s) && Enabled(s, a) && t == Apply(server, s, a)
    requires s.log.mark.events <= |s.conn.trace|
    ensures Transactions(t)
  {
    if a.CallerRuns? {
      CallerMoves(s, t);
      TransactionsByCaller(s, t);
    } else if a.WorkerRuns? && s.worker.Running? {
      var e := JobMoves(server, s, t);
      TransactionsByJob(s, t, e);
    }
  }

  // ----------------------------------------------------------------------- overrun

  function Unit(b: bool): nat {
    if b then 1 else 0
  }

  predicate Unexecuted(w: Worker) {
    || (w.Took? && w.job.StatementJob?)
    || (w.Running? && w.job.StatementJob? && (w.at.TestError? || w.at.DoExecute?))
  }

  /** Statements past the error test that have not been executed yet. */
  function Inevitable(s: State): nat {
    Unit(Unexecuted(s.worker)) + Unit(s.pending.Some? && s.pending.value.StatementJob?) + Unit(s.caller.Await?)
  }

  predicate Bounded(seg: seq<Event>, error: Option<Error>, inevitable: nat) {
    FirstFailure(seg).Some? ==> Overrun(seg) + inevitable <= 2 && (error.None? ==> Overrun(seg) == 0)
  }

  lemma {:induction false} NoFailureNoOverrun(events: seq<Event>)
    ensures FirstFailure(events).None? ==> Overrun(events) == 0
  {
    if events != [] {
      NoFailureNoOverrun(events[..|events| - 1]);
    }
  }

  lemma BoundedByCaller(s: State, t: State)
    requires Control(s) && CallerMove(s, t) && s.log.mark.events <= |s.conn.trace|
    requires ErrorIsFirst(Segment(s), s.error, s.worker) && Bounded(Segment(s), s.error, Inevitable(s))
    ensures Bounded(Segment(t), t.error, Inevitable(t))
  {
    if EndsWork(s, t) {
      assert Segment(t) == [];
    } else {
      assert Segment(t) == Segment(s);
    }
  }

  lemma BoundedByJob(s: State, t: State, e: Option<Event>)
    requires JobMove(s, t, e) && s.log.mark.events <= |s.conn.trace|
    requires s.worker.at.DoExecute? ==> Unexecuted(s.worker)
    requires ErrorIsFirst(Segment(s), s.error, s.worker) && Bounded(Segment(s), s.error, Inevitable(s))
    ensures Bounded(Segment(t), t.error, Inevitable(t))
  {
    NoFailureNoOverrun(Segment(s));
    if e.Some? {
      SegmentGrows(s, t, e.value);
      Extend(Segment(s), e.value);
    } else {
      assert Segment(t) == Segment(s);
    }
  }

  lemma BoundedKept(server: Server, s: State, a: Action, t: State)
    requires Control(s) && Enabled(s, a) && t == Apply(server, s, a)
    requires s.log.mark.events <= |s.conn.trace|
    requires ErrorIsFirst(Segment(s), s.error, s.worker) && Bounded(Segment(s), s.error, Inevitable(s))
    ensures Bounded(Segment(t), t.error, Inevitable(t))
  {
    if a.CallerRuns? {
      CallerMoves(s, t);
      BoundedByCaller(s, t);
    } else if a.WorkerRuns? && s.worker.Running? {
      var e := JobMoves(server, s, t);
      BoundedByJob(s, t, e);
    }
  }
}
