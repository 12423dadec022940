/** What the facade promises, for every backend, every caller and every interleaving. */
module AsyncTheorems {
  import opened Wrappers
  import opened ParamSnapshot
  import opened AsyncDb
  import opened AsyncReplay
  import opened AsyncInvariants

  // -------------------------------------------------------------------- the invariant

  predicate ControlInv(s: State) {
    && Control(s) && Escorted(s) && NoLostWakeup(s) && CallsMatch(s) && Layouts(s) && ErrorKnown(s)
    && PrepareAccounted(s)
  }

  predicate Answered(slot: Slot) {
    slot.Prepared? || slot.PrepareError?
  }

  /** A prepare() without an answer is still to be run, or the sticky error kept it from the queue. */
  predicate PrepareAccounted(s: State) {
    (Posted(s.caller) || s.caller.Finish?) && s.caller.call.Prepare? && !Answered(s.slot) ==>
      || s.error.Some?
      || s.pending == Some(JobOf(s.caller.call))
      || s.worker == Took(JobOf(s.caller.call))
      || s.worker == Running(JobOf(s.caller.call), DoPrepare)
  }

  /** The records as they were when the last transaction ended are a finished run of their own. */
  predicate Marked(server: Server, s: State) {
    var m := s.log.mark;
    && m.items <= |s.log.accepted| && m.events <= |s.conn.trace| && m.calls <= |s.log.calls|
    && Replay(server, s.log.accepted[..m.items]) == View(s.conn.trace[..m.events], None)
  }

  const START: Mark := Mark(0, 0, 0)

  predicate DataInv(server: Server, s: State)
    requires CallsMatch(s)
  {
    && InOrder(s.log.accepted, s.log.calls, Latest(s))
    && Agrees(server, s)
    && Marked(server, s)
    && ErrorIsFirst(Segment(s), s.error, s.worker)
    && Complete(s, START) && Complete(s, s.log.mark)
    && Transactions(s)
    && Bounded(Segment(s), s.error, Inevitable(s))
  }

  predicate Inv(server: Server, s: State) {
    ControlInv(s) && DataInv(server, s)
  }

  lemma {:induction false} PrepareAccountedByCaller(s: State)
    requires Control(s) && PrepareAccounted(s) && CallerEnabled(s)
    ensures PrepareAccounted(CallerStep(s))
  {
  }

  lemma {:induction false} ControlInvKept(server: Server, s: State, a: Action, t: State)
    requires ControlInv(s) && Enabled(s, a) && t == Apply(server, s, a)
    ensures ControlInv(t)
  {
    ControlKept(server, s, a);
    EscortedKept(server, s, a);
    NoLostWakeupKept(server, s, a);
    CallsMatchKept(server, s, a);
    LayoutsKept(server, s, a, t);
    ErrorKnownKept(server, s, a);
    if a.CallerRuns? {
      PrepareAccountedByCaller(s);
    }
  }

  lemma {:induction false} MarkedByCaller(server: Server, s: State, t: State)
    requires Control(s) && Agrees(server, s) && Agrees(server, t) && Marked(server, s) && CallerMove(s, t)
    requires ErrorKnown(s)
    ensures Marked(server, t)
    ensures EndsWork(s, t) ==> Complete(t, t.log.mark)
  {
    if EndsWork(s, t) {
      assert t.log.accepted[..|t.log.accepted|] == t.log.accepted;
      assert t.conn.trace[..|t.conn.trace|] == t.conn.trace;
      assert t.error.None? && t.pending.None?;
    } else {
      assert t.log.accepted[..s.log.mark.items] == s.log.accepted[..s.log.mark.items];
    }
  }

  lemma {:induction false} MarkedByOthers(server: Server, s: State, t: State)
    requires Marked(server, s)
    requires t.log.accepted == s.log.accepted && t.log.mark == s.log.mark
    requires s.log.calls <= t.log.calls && s.conn.trace <= t.conn.trace
    ensures Marked(server, t)
  {
    assert t.conn.trace[..s.log.mark.events] == s.conn.trace[..s.log.mark.events];
  }

  lemma {:induction false} DataInvKept(server: Server, s: State, a: Action, t: State)
    requires Inv(server, s) && Enabled(s, a) && t == Apply(server, s, a) && ControlInv(t)
    ensures DataInv(server, t)
  {
    InOrderKept(server, s, a, t);
    AgreesKept(server, s, a, t);
    ErrorIsFirstKept(server, s, a, t);
    CompleteKept(server, s, a, t, START);
    CompleteKept(server, s, a, t, s.log.mark);
    TransactionsKept(server, s, a, t);
    BoundedKept(server, s, a, t);
    MarkKept(server, s, a, t);
  }

  lemma {:induction false} WorkerGrows(server: Server, s: State, t: State)
    requires WorkerEnabled(s) && t == WorkerStep(server, s)
    ensures t.log == s.log && s.conn.trace <= t.conn.trace
  {
  }

  lemma {:induction false} MarkKept(server: Server, s: State, a: Action, t: State)
    requires Control(s) && ErrorKnown(s) && Agrees(server, s) && Marked(server, s)
    requires Enabled(s, a) && t == Apply(server, s, a) && Agrees(server, t)
    ensures Marked(server, t)
    ensures t.log.mark == s.log.mark || Complete(t, t.log.mark)
  {
    match a
    case CallerRuns =>
      CallerMoves(s, t);
      MarkedByCaller(server, s, t);
    case WorkerRuns =>
      WorkerGrows(server, s, t);
      MarkedByOthers(server, s, t);
    case _ => MarkedByOthers(server, s, t);
  }

  lemma {:induction false} InvKept(server: Server, s: State, a: Action, t: State)
    requires Inv(server, s) && Enabled(s, a) && t == Apply(server, s, a)
    ensures Inv(server, t)
  {
    ControlInvKept(server, s, a, t);
    DataInvKept(server, s, a, t);
  }

  lemma {:induction false} InvAlong(server: Server, s: State, actions: seq<Action>, t: State)
    requires Inv(server, s) && Leads(server, s, actions, t)
    ensures Inv(server, t)
    decreases |actions|
  {
    if |actions| > 0 {
      var next := Apply(server, s, actions[0]);
      InvKept(server, s, actions[0], next);
      InvAlong(server, next, actions[1..], t);
    }
  }

  lemma {:induction false} Always(server: Server, s: State)
    requires Reachable(server, s)
    ensures Inv(server, s)
  {
    var actions :| Leads(server, INITIAL, actions, s);
    assert Inv(server, INITIAL);
    InvAlong(server, INITIAL, actions, s);
  }

  // ------------------------------------------------------------------ async refines sync

  /** A job's conversation starts where it stands, so the part already held is a prefix of the whole. */
  lemma {:induction false} RestGrows(server: Server, v: View, job: Job, at: JobPc)
    requires CanRun(job, at)
    ensures v.trace <= Rest(server, v, job, at).trace
  {
  }

  lemma {:induction false} HeldSoFar(server: Server, s: State)
    requires Control(s)
    ensures s.conn.trace <= Completed(server, s.conn.trace, s.error, s.worker).trace
  {
    var v := View(s.conn.trace, s.error);
    if s.worker.Took? {
      JobGrows(server, v, s.worker.job);
    } else if s.worker.Running? {
      RestGrows(server, v, s.worker.job, s.worker.at);
    }
  }

  lemma {:induction false} ReplaysAccepted(server: Server, s: State)
    requires Control(s) && Agrees(server, s)
    ensures s.conn.trace <= Replay(server, s.log.accepted).trace
    ensures Todo(s) == [] ==> View(s.conn.trace, s.error) == Replay(server, s.log.accepted)
  {
    HeldSoFar(server, s);
    if s.pending.Some? {
      var n := |s.log.accepted|;
      assert s.log.accepted == s.log.accepted[..n - 1] + s.log.accepted[n - 1..];
      ReplayGrows(server, s.log.accepted[..n - 1], s.log.accepted[n - 1..]);
    }
  }

  /**
  Whatever the interleaving, the database has been told a prefix of the
  accepted jobs run one after the other - all of it once the queue has
  drained - and the accepted jobs are calls in program order, each carrying the
  parameter values its call saw.
  */
  lemma {:induction false} OnlyAcceptedCallsInOrder(server: Server, s: State)
    requires Reachable(server, s)
    ensures s.conn.trace <= Replay(server, s.log.accepted).trace
    ensures Todo(s) == [] ==> View(s.conn.trace, s.error) == Replay(server, s.log.accepted)
    ensures InOrder(s.log.accepted, s.log.calls, |s.log.calls|)
  {
    Always(server, s);
    ReplaysAccepted(server, s);
  }

  /** Every statement the database executed was asked for by a call, with the values that call saw. */
  lemma {:induction false} ExecutesWhatWasCalled(server: Server, s: State, i: nat) returns (k: nat)
    requires Reachable(server, s) && i < |s.conn.trace| && s.conn.trace[i].op.Execute?
    ensures k < |s.log.calls|
    ensures var call := s.log.calls[k];
            (call.Submit? || call.Exec? || call.ExecuteSync?) && s.conn.trace[i].op == Execute(call.id, call.snap)
  {
    OnlyAcceptedCallsInOrder(server, s);
    assert s.conn.trace[i] == Replay(server, s.log.accepted).trace[i];
    var n := ReplayExecutes(server, s.log.accepted, i);
    k := s.log.accepted[n].call - 1;
  }

  lemma {:induction false} ReplayExecutes(server: Server, items: seq<Item>, i: nat) returns (n: nat)
    requires i < |Replay(server, items).trace| && Replay(server, items).trace[i].op.Execute?
    ensures n < |items| && items[n].Ran? && items[n].job.StatementJob?
    ensures Replay(server, items).trace[i].op == Execute(items[n].job.id, items[n].job.snap)
  {
    n := |items| - 1;
    var before := items[..n];
    ReplayGrows(server, before, items[n..]);
    assert before + items[n..] == items;
    if i < |Replay(server, before).trace| {
      assert Replay(server, before).trace[i] == Replay(server, items).trace[i];
      n := ReplayExecutes(server, before, i);
    }
  }

  /** With no failed statement a finished run says to the database what the synchronous program says. */
  lemma {:induction false} AsyncRefinesSync(server: Server, s: State)
    requires Reachable(server, s)
    requires s.caller.Idle? || s.caller.Gone?
    requires Todo(s) == [] && NoFailure(s.conn.trace)
    ensures View(s.conn.trace, s.error) == SyncRun(server, s.log.calls)
    ensures s.log.accepted == Intended(s.log.calls, 0)
  {
    Always(server, s);
    OnlyAcceptedCallsInOrder(server, s);
    assert s.conn.trace[0..] == s.conn.trace;
    assert s.log.accepted[0..] + Owed(s.caller, s.log.calls) == s.log.accepted;
    SyncIsReplay(server, s.log.calls);
  }

  // ---------------------------------------------------------------------- commit()

  /** The caller's step from `s` to `t` returns `reply`; no other step of the caller returns anything. */
  predicate Replies(s: State, t: State, reply: Reply) {
    s.caller.Finish? && !s.callerAsleep && t == FinishStep(s, s.caller.call) && t.log.replies == s.log.replies + [reply]
  }

  lemma {:induction false} ReplyMeans(s: State, t: State, reply: Reply)
    requires Replies(s, t, reply)
    ensures reply.Committed? <==> s.caller.call.Commit? && s.slot == Status(true)
    ensures reply.Finished? <==> s.caller.call.IsFinished? && Quiet(s) && s.error.None?
    ensures reply.NullTask? <==> s.caller.call.Prepare? && !Answered(s.slot)
    ensures s.caller.call.Abort? ==> reply == Refused(s.caller.call.error) && t.error.None?
  {
    LastReply(s.log.replies, t.log.replies, reply);
    match s.caller.call
    case Prepare(_, _) =>
    case IsFinished =>
    case Commit =>
    case Abort(_) =>
    case _ =>
  }

  lemma {:induction false} LastReply(before: seq<Reply>, after: seq<Reply>, reply: Reply)
    requires after == before + [reply]
    ensures |after| == |before| + 1 && after[|before|] == reply
  {
  }

  /**
  commit() reports success only when every call since the last transaction
  ended was accepted and ran, no statement failed when it was executed or fetched
  from, and COMMIT came directly after them and was granted. A prepare() that failed
  does not keep commit() from succeeding; see CleanCommit in AsyncAnswers.
  */
  lemma {:induction false} CommitTellsTheTruth(server: Server, s: State, t: State)
    requires Reachable(server, s) && Replies(s, t, Committed)
    ensures s.log.mark.items <= |s.log.accepted| && s.log.mark.events <= |s.conn.trace|
    ensures var m := s.log.mark;
            && s.log.accepted == s.log.accepted[..m.items] + Intended(s.log.calls, m.calls)
            && Replay(server, s.log.accepted[..m.items]) == View(s.conn.trace[..m.events], None)
            && Replay(server, s.log.accepted) == View(s.conn.trace, None)
    ensures NoFailure(Segment(s))
    ensures var seg := Segment(s);
            && seg != [] && seg[|seg| - 1].op == CommitWork && seg[|seg| - 1].outcome.Done?
            && NoEnd(seg[..|seg| - 1])
  {
    Always(server, s);
    OnlyAcceptedCallsInOrder(server, s);
    ReplyMeans(s, t, Committed);
    assert s.log.accepted == s.log.accepted[..s.log.mark.items] + s.log.accepted[s.log.mark.items..];
  }

  /**
  If a statement failed, commit() returns the earliest failure, the transaction
  ends in ROLLBACK without any COMMIT, and the facade is free of errors again.
  */
  lemma {:induction false} CommitReportsTheFirstFailure(server: Server, s: State, t: State, reply: Reply)
    requires Reachable(server, s) && Replies(s, t, reply)
    requires s.log.calls != [] && s.log.calls[|s.log.calls| - 1].Commit?
    requires !NoFailure(Segment(s))
    ensures reply.Refused? && Some(reply.error) == FirstFailure(Segment(s))
    ensures NoCommit(Segment(s)) && Segment(s)[|Segment(s)| - 1].op == RollbackWork
    ensures t.error.None? && t.conn == s.conn
  {
    Always(server, s);
    ReplyMeans(s, t, reply);
  }

  /** is_finished() says so only when every accepted job has run and none failed since the last transaction. */
  lemma {:induction false} FinishedIsTruthful(server: Server, s: State, t: State)
    requires Reachable(server, s) && Replies(s, t, Finished)
    ensures Todo(s) == [] && NoFailure(Segment(s))
    ensures View(s.conn.trace, None) == Replay(server, s.log.accepted)
  {
    Always(server, s);
    OnlyAcceptedCallsInOrder(server, s);
    ReplyMeans(s, t, Finished);
  }

  /** prepare() hands out a handle without a statement only while a sticky error is pending. */
  lemma {:induction false} NullTaskNeedsAnError(server: Server, s: State, t: State, id: nat)
    requires Reachable(server, s) && Replies(s, t, NullTask(id))
    ensures s.error.Some? && !NoFailure(Segment(s))
  {
    Always(server, s);
    ReplyMeans(s, t, NullTask(id));
  }

  // ------------------------------------------------------------------------ overrun

  /** After the first failure of a transaction at most two more statements are executed before it ends. */
  lemma {:induction false} AtMostTwoOverrun(server: Server, s: State)
    requires Reachable(server, s)
    ensures Overrun(Segment(s)) <= 2
  {
    Always(server, s);
    NoFailureNoOverrun(Segment(s));
  }

  /** Once an error is recorded nothing enters the queue but COMMIT, ROLLBACK and a call that was already waiting. */
  lemma {:induction false} NothingPostedAfterError(server: Server, s: State, t: State)
    requires Reachable(server, s) && s.error.Some? && CallerEnabled(s) && t == CallerStep(s)
    requires t.pending != s.pending
    ensures t.pending == Some(CommitJob) || t.pending == Some(RollbackJob) || s.caller.Await?
  {
    Always(server, s);
    CallerMoves(s, t);
    PostedDespiteError(s, t);
  }

  lemma {:induction false} PostedDespiteError(s: State, t: State)
    requires CallerMove(s, t) && s.error.Some? && t.pending != s.pending
    ensures t.pending == Some(CommitJob) || t.pending == Some(RollbackJob) || s.caller.Await?
  {
  }

  // ---------------------------------------------------------------- nobody waits forever

  /** A sleeping thread whose condition holds is about to be notified. */
  lemma {:induction false} NoWakeupIsLost(server: Server, s: State)
    requires Reachable(server, s)
    ensures s.workerAsleep && (s.pending.Some? || s.stop) ==> s.caller.Notify? || s.caller.NotifyStop?
    ensures s.callerAsleep && s.caller.Await? && s.pending.None? ==> s.worker.Took?
    ensures s.callerAsleep && !s.caller.Await? && Quiet(s) ==> s.worker.Announce?
  {
    Always(server, s);
  }

  /** While a call is in progress or a job is left, some thread can take a step without a spurious wakeup. */
  lemma {:induction false} NeverStuck(server: Server, s: State)
    requires Reachable(server, s)
    requires (!s.caller.Idle? && !s.caller.Gone?) || Todo(s) != []
    ensures Enabled(s, CallerRuns) || Enabled(s, WorkerRuns)
  {
    Always(server, s);
  }

  function JobRank(at: JobPc): nat {
    match at
    case TestError => 5
    case DoPrepare => 4
    case DoExecute => 4
    case DoTransaction => 4
    case DoFetch => 3
    case NoteError(_) => 2
    case Returned => 1
  }

  function WorkerRank(w: Worker, asleep: bool): nat {
    match w
    case Exited => 0
    case Top => if asleep then 0 else 1
    case Announce => 3
    case Closing => 4
    case Running(_, at) => 4 + JobRank(at)
    case Took(_) => 11
  }

  function CallerRank(c: Caller, asleep: bool): nat {
    match c
    case Idle => 0
    case Gone => 0
    case Join => 1
    case NotifyStop => 3
    case SetStop => 4
    case Finish(_) => 5
    case PostDrain(_) => if asleep then 6 else 7
    case Notify(_) => 9
    case Await(_) => if asleep then 21 else 22
    case Check(_) => 23
    case ReadError => 24
    case PreDrain(_) => if asleep then 25 else 26
  }

  /** A bound on the steps the two threads can still take without a new call. */
  function Rank(s: State): nat {
    WorkerRank(s.worker, s.workerAsleep) + CallerRank(s.caller, s.callerAsleep) + if s.pending.Some? then 11 else 0
  }

  lemma {:induction false} CallerLowersRank(s: State)
    requires Control(s) && CallerEnabled(s)
    ensures Rank(CallerStep(s)) < Rank(s)
  {
  }

  lemma {:induction false} WorkerLowersRank(server: Server, s: State)
    requires Control(s) && WorkerEnabled(s)
    ensures Rank(WorkerStep(server, s)) < Rank(s)
  {
  }

  predicate IsStep(a: Action) {
    a.CallerRuns? || a.WorkerRuns?
  }

  function Steps(actions: seq<Action>): nat {
    if actions == [] then 0 else Unit(IsStep(actions[0])) + Steps(actions[1..])
  }

  /**
  Every call returns: between two calls the threads take at most Rank(s) steps,
  and one more for each spurious wakeup. Together with NeverStuck this means
  that no run waits forever.
  */
  lemma {:induction false} CallsReturn(server: Server, s: State, actions: seq<Action>, t: State)
    requires Inv(server, s) && Leads(server, s, actions, t)
    requires forall i | 0 <= i < |actions| :: !actions[i].Invoke?
    ensures Steps(actions) + Rank(t) <= Rank(s) + (|actions| - Steps(actions))
    decreases |actions|
  {
    if actions != [] {
      var a := actions[0];
      var next := Apply(server, s, a);
      InvKept(server, s, a, next);
      assert forall i | 0 <= i < |actions[1..]| :: actions[1..][i] == actions[i + 1];
      CallsReturn(server, next, actions[1..], t);
      if a.CallerRuns? {
        CallerLowersRank(s);
      } else if a.WorkerRuns? {
        WorkerLowersRank(server, s);
      }
    }
  }

  /** The destructor ran every accepted job, sent no COMMIT of its own, and joined the worker. */
  lemma {:induction false} DestructorRunsEverything(server: Server, s: State)
    requires Reachable(server, s) && s.caller.Gone?
    ensures s.worker.Exited? && Todo(s) == []
    ensures View(s.conn.trace, s.error) == Replay(server, s.log.accepted)
    ensures NoEnd(Segment(s))
  {
    Always(server, s);
    OnlyAcceptedCallsInOrder(server, s);
  }
}
