/**
Three promises of the facade that hold only sometimes, each with the exact condition:
when commit() vouches for every call, when prepare() hands out an empty handle, and
when the previous job has finished once exec() returns.
*/
module AsyncAnswers {
  import opened Wrappers
  import opened ParamSnapshot
  import opened AsyncDb
  import opened AsyncReplay
  import opened AsyncInvariants
  import opened AsyncTheorems

  // ------------------------------------------------------------------- prepare() at work

  predicate Preparing(s: State) {
    InCall(s.caller) && s.caller.call.Prepare?
  }

  /** The job of the prepare() in progress has been accepted and has not been run. */
  predicate Underway(s: State)
    requires Preparing(s)
  {
    var job := JobOf(s.caller.call);
    s.pending == Some(job) || s.worker == Took(job) || s.worker == Running(job, DoPrepare)
  }

  /** Until its job has run, prepare() has no answer. */
  predicate Fresh(s: State) {
    Preparing(s) && (BeforePost(s.caller) || Underway(s)) ==> !Answered(s.slot)
  }

  lemma {:induction false} FreshByCaller(s: State)
    requires Control(s) && Escorted(s) && Fresh(s) && CallerEnabled(s)
    ensures Fresh(CallerStep(s))
  {
  }

  lemma {:induction false} FreshByWorker(server: Server, s: State)
    requires Control(s) && Escorted(s) && Fresh(s) && WorkerEnabled(s)
    ensures Fresh(WorkerStep(server, s))
  {
  }

  lemma {:induction false} FreshKept(server: Server, s: State, a: Action)
    requires Control(s) && Escorted(s) && Fresh(s) && Enabled(s, a)
    ensures Fresh(Apply(server, s, a))
  {
    if a.CallerRuns? {
      FreshByCaller(s);
    } else if a.WorkerRuns? {
      FreshByWorker(server, s);
    }
  }

  // ------------------------------------------------------------- what the replies told

  predicate PrepareFailed(e: Event) {
    e.op.PrepareStatement? && e.outcome.Failed?
  }

  predicate AnyPrepareFailed(events: seq<Event>) {
    exists i | 0 <= i < |events| :: PrepareFailed(events[i])
  }

  predicate RefusedAt(log: Log, i: nat) {
    i < |log.replies| && i < |log.calls| && log.calls[i].Prepare? && log.replies[i].Refused?
  }

  /** Some prepare() since the last transaction ended was answered with an error. */
  predicate PrepareRefused(log: Log) {
    exists i | log.mark.calls <= i < |log.replies| :: RefusedAt(log, i)
  }

  /** A refused PREPARE was told to the caller, or is about to be. */
  predicate Told(s: State) {
    && s.log.mark.calls <= |s.log.replies| && s.log.mark.events <= |s.conn.trace|
    && (AnyPrepareFailed(Segment(s)) <==> PrepareRefused(s.log) || (Preparing(s) && s.slot.PrepareError?))
  }

  lemma {:induction false} PrepareFailedAppend(events: seq<Event>, e: Event)
    ensures AnyPrepareFailed(events + [e]) <==> AnyPrepareFailed(events) || PrepareFailed(e)
  {
    var all := events + [e];
    if AnyPrepareFailed(events) {
      var i :| 0 <= i < |events| && PrepareFailed(events[i]);
      assert PrepareFailed(all[i]);
    }
    if PrepareFailed(e) {
      assert PrepareFailed(all[|events|]);
    }
  }

  lemma {:induction false} RefusedAppend(log: Log, more: Log, reply: Reply)
    requires more.calls == log.calls && more.replies == log.replies + [reply] && more.mark == log.mark
    requires |log.replies| + 1 == |log.calls| && log.mark.calls <= |log.replies|
    ensures PrepareRefused(more)
            <==> PrepareRefused(log) || (log.calls[|log.replies|].Prepare? && reply.Refused?)
  {
    if PrepareRefused(log) {
      var i :| log.mark.calls <= i < |log.replies| && RefusedAt(log, i);
      assert RefusedAt(more, i);
    }
    if log.calls[|log.replies|].Prepare? && reply.Refused? {
      assert RefusedAt(more, |log.replies|);
    }
    if PrepareRefused(more) {
      var i :| more.mark.calls <= i < |more.replies| && RefusedAt(more, i);
      assert i < |log.replies| ==> RefusedAt(log, i);
    }
  }

  lemma {:induction false} RefusedInvoke(log: Log, call: Call)
    requires |log.replies| == |log.calls|
    ensures PrepareRefused(log.(calls := log.calls + [call])) <==> PrepareRefused(log)
  {
    var more := log.(calls := log.calls + [call]);
    assert forall i | 0 <= i < |log.replies| :: RefusedAt(more, i) <==> RefusedAt(log, i);
  }

  /** What a return adds to the records. */
  lemma {:induction false} Returns(s: State) returns (reply: Reply)
    requires s.caller.Finish? && !s.caller.call.Destroy?
    ensures var t := FinishStep(s, s.caller.call);
            && t.caller.Idle? && t.log.replies == s.log.replies + [reply] && t.log.calls == s.log.calls
            && t.conn == s.conn
            && (if EndsTransaction(s.caller.call)
                then t.log.mark.calls == |t.log.calls| && t.log.mark.events == |t.conn.trace|
                else t.log.mark == s.log.mark)
    ensures s.caller.call.Prepare? ==> (reply.Refused? <==> s.slot.PrepareError?)
  {
    reply := FinishStep(s, s.caller.call).log.replies[|s.log.replies|];
    match s.caller.call
    case Prepare(_, _) =>
    case Commit =>
    case Abort(_) =>
    case Rollback =>
    case _ =>
  }

  lemma {:induction false} ToldByReturn(s: State)
    requires CallsMatch(s) && Told(s) && s.caller.Finish? && !s.caller.call.Destroy?
    ensures Told(FinishStep(s, s.caller.call))
  {
    var t := FinishStep(s, s.caller.call);
    var reply := Returns(s);
    if EndsTransaction(s.caller.call) {
      assert Segment(t) == [];
      assert !PrepareRefused(t.log);
    } else {
      assert Segment(t) == Segment(s);
      RefusedAppend(s.log, t.log, reply);
      assert s.log.calls[|s.log.replies|] == s.caller.call;
    }
  }

  /** Every other step of the caller changes neither the conversation nor the answers. */
  lemma {:induction false} SameRecords(s: State)
    requires Control(s) && CallerEnabled(s) && !(s.caller.Finish? && !s.caller.call.Destroy?)
    ensures var t := CallerStep(s);
            && t.conn == s.conn && t.log.calls == s.log.calls && t.log.replies == s.log.replies
            && t.log.mark == s.log.mark && t.slot == s.slot && (Preparing(t) <==> Preparing(s))
  {
  }

  lemma {:induction false} ToldByCaller(s: State)
    requires Control(s) && CallsMatch(s) && Told(s) && CallerEnabled(s)
    ensures Told(CallerStep(s))
  {
    if s.caller.Finish? && !s.caller.call.Destroy? {
      ToldByReturn(s);
    } else {
      SameRecords(s);
      var t := CallerStep(s);
      assert Segment(t) == Segment(s);
      assert forall i | 0 <= i < |s.log.replies| :: RefusedAt(t.log, i) <==> RefusedAt(s.log, i);
    }
  }

  /** A step of the running job asks for a statement to be prepared only as the job of a prepare(). */
  lemma {:induction false} PrepareSpeaks(server: Server, s: State, t: State, e: Option<Event>)
    requires Control(s) && Escorted(s) && s.worker.Running? && t == WorkerStep(server, s) && JobMove(s, t, e)
    ensures e.Some? && e.value.op.PrepareStatement? <==> s.worker.at.DoPrepare?
    ensures s.worker.at.DoPrepare? ==>
              Preparing(s) && Underway(s) && (t.slot.PrepareError? <==> e.value.outcome.Failed?)
    ensures !s.worker.at.DoPrepare? && Preparing(s) ==> t.slot == s.slot
  {
    if e.Some? {
      assert t.conn.trace[|s.conn.trace|] == e.value;
    }
  }

  lemma {:induction false} ToldByJob(server: Server, s: State)
    requires Control(s) && Escorted(s) && Fresh(s) && Told(s) && s.worker.Running?
    ensures Told(WorkerStep(server, s))
  {
    var t := WorkerStep(server, s);
    var e := JobMoves(server, s, t);
    PrepareSpeaks(server, s, t, e);
    if e.Some? {
      SegmentGrows(s, t, e.value);
      PrepareFailedAppend(Segment(s), e.value);
    } else {
      assert Segment(t) == Segment(s);
    }
  }

  lemma {:induction false} ToldKept(server: Server, s: State, a: Action, t: State)
    requires Control(s) && Escorted(s) && CallsMatch(s) && Fresh(s) && Told(s)
    requires Enabled(s, a) && t == Apply(server, s, a)
    ensures Told(t)
  {
    match a
    case Invoke(call) =>
      RefusedInvoke(s.log, call);
      assert Segment(t) == Segment(s);
    case CallerRuns => ToldByCaller(s);
    case WorkerRuns =>
      if s.worker.Running? {
        ToldByJob(server, s);
      } else {
        assert Segment(t) == Segment(s);
      }
    case _ => assert Segment(t) == Segment(s);
  }

  lemma {:induction false} ToldAlong(server: Server, s: State, actions: seq<Action>, t: State)
    requires Inv(server, s) && Fresh(s) && Told(s) && Leads(server, s, actions, t)
    ensures Fresh(t) && Told(t)
    decreases |actions|
  {
    if |actions| > 0 {
      var next := Apply(server, s, actions[0]);
      InvKept(server, s, actions[0], next);
      FreshKept(server, s, actions[0]);
      ToldKept(server, s, actions[0], next);
      ToldAlong(server, next, actions[1..], t);
    }
  }

  lemma {:induction false} AlwaysTold(server: Server, s: State)
    requires Reachable(server, s)
    ensures Inv(server, s) && Fresh(s) && Told(s)
  {
    var actions :| Leads(server, INITIAL, actions, s);
    assert Inv(server, INITIAL) by {
      assert Leads(server, INITIAL, [], INITIAL);
      Always(server, INITIAL);
    }
    Always(server, s);
    ToldAlong(server, INITIAL, actions, s);
  }

  /** Nothing that was said to the database failed, not even a PREPARE. */
  predicate Clean(events: seq<Event>) {
    forall i | 0 <= i < |events| :: events[i].outcome.Done?
  }

  /**
  A successful commit() closes a transaction in which nothing failed at all, if and only
  if no prepare() since the last one answered with an error. The caller has those answers.
  */
  lemma {:induction false} CleanCommit(server: Server, s: State, t: State)
    requires Reachable(server, s) && Replies(s, t, Committed)
    ensures Clean(Segment(s)) <==> !PrepareRefused(s.log)
  {
    AlwaysTold(server, s);
    CommitTellsTheTruth(server, s, t);
    ReplyMeans(s, t, Committed);
    CleanSegment(Segment(s));
  }

  lemma {:induction false} CleanSegment(seg: seq<Event>)
    requires NoFailure(seg) && seg != [] && seg[|seg| - 1].outcome.Done? && NoEnd(seg[..|seg| - 1])
    ensures Clean(seg) <==> !AnyPrepareFailed(seg)
  {
    if !AnyPrepareFailed(seg) {
      forall i | 0 <= i < |seg|
        ensures seg[i].outcome.Done?
      {
        assert !PrepareFailed(seg[i]) && !IsFailure(seg[i]);
        assert i < |seg| - 1 ==> seg[i] == seg[..|seg| - 1][i];
      }
    }
  }

  // ------------------------------------------------------------- the empty handle

  /** No job that prepares a statement is queued or in the worker's hands. */
  predicate NoPrepare(s: State) {
    && (s.pending.Some? ==> !s.pending.value.PrepareJob?)
    && (InHand(s.worker) != [] ==> !s.worker.job.PrepareJob?)
  }

  /** What will become of the prepare() in progress is settled: its job is dropped, or it is run. */
  predicate Settled(s: State, dropped: bool) {
    s.caller.Idle? ||
    ( && Preparing(s) && !s.caller.PreDrain?
      && if s.caller.Check? then (if dropped then s.error.Some? else s.error.None? && Quiet(s))
         else if s.caller.Await? then !dropped
         else if dropped then !Answered(s.slot) && NoPrepare(s)
         else Answered(s.slot) || Underway(s))
  }

  lemma {:induction false} SettledByCaller(s: State, dropped: bool)
    requires Control(s) && Escorted(s) && Fresh(s) && Settled(s, dropped) && CallerEnabled(s)
    ensures Settled(CallerStep(s), dropped)
  {
  }

  lemma {:induction false} SettledByWorker(server: Server, s: State, dropped: bool)
    requires Control(s) && Escorted(s) && Settled(s, dropped) && WorkerEnabled(s)
    ensures Settled(WorkerStep(server, s), dropped)
  {
  }

  /** The call in progress, until it returns and the next one is made. */
  predicate OneCall(actions: seq<Action>) {
    forall i | 0 <= i < |actions| :: !actions[i].Invoke?
  }

  lemma {:induction false} SettledAlong(server: Server, s: State, actions: seq<Action>, t: State, dropped: bool)
    requires Inv(server, s) && Fresh(s) && Settled(s, dropped) && Leads(server, s, actions, t) && OneCall(actions)
    ensures Inv(server, t) && Settled(t, dropped)
    decreases |actions|
  {
    if |actions| > 0 {
      var a, next := actions[0], Apply(server, s, actions[0]);
      InvKept(server, s, a, next);
      FreshKept(server, s, a);
      if a.CallerRuns? {
        SettledByCaller(s, dropped);
      } else if a.WorkerRuns? {
        SettledByWorker(server, s, dropped);
      }
      assert forall i | 0 <= i < |actions[1..]| :: actions[1..][i] == actions[i + 1];
      SettledAlong(server, next, actions[1..], t, dropped);
    }
  }

  lemma {:induction false} SettledReply(server: Server, s: State, t: State, reply: Reply, dropped: bool)
    requires Inv(server, s) && Settled(s, dropped) && Replies(s, t, reply)
    ensures reply.NullTask? <==> dropped
  {
    ReplyMeans(s, t, reply);
  }

  /**
  prepare() hands out a handle without a statement if and only if an error was recorded
  when post_to_worker() looked.
  */
  lemma {:induction false} NullTaskIffErrorSeen(
    server: Server, s: State, actions: seq<Action>, u: State, v: State, reply: Reply)
    requires Reachable(server, s) && s.caller.Check? && s.caller.call.Prepare? && Enabled(s, CallerRuns)
    requires Leads(server, Apply(server, s, CallerRuns), actions, u) && OneCall(actions) && Replies(u, v, reply)
    ensures reply.NullTask? <==> s.error.Some?
  {
    AlwaysTold(server, s);
    var t := Apply(server, s, CallerRuns);
    InvKept(server, s, CallerRuns, t);
    FreshKept(server, s, CallerRuns);
    SettledByCheck(s);
    SettledAlong(server, t, actions, u, s.error.Some?);
    SettledReply(server, u, v, reply, s.error.Some?);
  }

  lemma {:induction false} SettledByCheck(s: State)
    requires Control(s) && Escorted(s) && Fresh(s) && s.caller.Check? && s.caller.call.Prepare? && CallerEnabled(s)
    ensures Settled(CallerStep(s), s.error.Some?)
  {
  }

  /**
  The same before the call: with an error recorded prepare() hands out an empty handle,
  and with none recorded and nothing left to run it never does.
  */
  lemma {:induction false} NullTaskForeseen(
    server: Server, s: State, call: Call, actions: seq<Action>, u: State, v: State, reply: Reply)
    requires Reachable(server, s) && call.Prepare? && Enabled(s, Invoke(call))
    requires Leads(server, Apply(server, s, Invoke(call)), actions, u) && OneCall(actions) && Replies(u, v, reply)
    ensures s.error.Some? ==> reply.NullTask?
    ensures s.error.None? && Quiet(s) ==> !reply.NullTask?
  {
    if s.error.Some? || Quiet(s) {
      var t := Apply(server, s, Invoke(call));
      AlwaysTold(server, s);
      InvKept(server, s, Invoke(call), t);
      FreshKept(server, s, Invoke(call));
      SettledAlong(server, t, actions, u, s.error.Some?);
      SettledReply(server, u, v, reply, s.error.Some?);
    }
  }

  // --------------------------------------------------------------- exec() and the job before

  /** How many accepted jobs the facade has not finished: the one it is busy with and the one in the slot. */
  function Backlog(s: State): nat {
    Unit(s.busy) + Unit(s.pending.Some?)
  }

  /** From `s` on `call` was made and has returned in `u`, and no other call. */
  predicate Made(server: Server, s: State, call: Call, actions: seq<Action>, u: State) {
    && Leads(server, s, actions, u) && u.caller.Idle?
    && u.log.calls == s.log.calls + [call] && |u.log.replies| == |u.log.calls|
  }

  /** Among the unfinished jobs is one that had been accepted before the call. */
  predicate EarlierUnfinished(s: State, u: State) {
    Backlog(u) + |s.log.accepted| > |u.log.accepted|
  }

  predicate Detaches(call: Call) {
    call.Exec? || call.Submit?
  }

  /** Nothing accepted before `s` is unfinished, while at most `call` was made since. */
  predicate OnlyOwn(s: State, call: Call, u: State) {
    && (u.log.calls == s.log.calls || u.log.calls == s.log.calls + [call])
    && (u.log.calls == s.log.calls ==> u.caller.Idle?)
    && (u.log.calls == s.log.calls || BeforePost(u.caller) ==>
          |u.log.accepted| == |s.log.accepted| && Quiet(u))
    && Backlog(u) + |s.log.accepted| <= |u.log.accepted|
  }

  lemma {:induction false} OnlyOwnByCaller(s: State, call: Call, u: State, v: State)
    requires Control(u) && CallsMatch(u) && Detaches(call) && OnlyOwn(s, call, u)
    requires CallerEnabled(u) && v == CallerStep(u)
    ensures OnlyOwn(s, call, v)
  {
    CallerMoves(u, v);
  }

  lemma {:induction false} OnlyOwnByWorker(server: Server, s: State, call: Call, u: State)
    requires Control(u) && OnlyOwn(s, call, u) && WorkerEnabled(u)
    ensures OnlyOwn(s, call, WorkerStep(server, u))
  {
  }

  lemma {:induction false} CallsGrow(server: Server, s: State, actions: seq<Action>, t: State)
    requires Leads(server, s, actions, t)
    ensures s.log.calls <= t.log.calls
    decreases |actions|
  {
    if |actions| > 0 {
      CallsGrow(server, Apply(server, s, actions[0]), actions[1..], t);
      CallsGrowByOne(server, s, actions[0]);
    }
  }

  lemma {:induction false} CallsGrowByOne(server: Server, s: State, a: Action)
    requires Enabled(s, a)
    ensures Apply(server, s, a).log.calls == if a.Invoke? then s.log.calls + [a.call] else s.log.calls
  {
    if a.CallerRuns? && s.caller.Finish? {
      FinishKeeps(s);
    }
  }

  lemma {:induction false} FinishKeeps(s: State)
    requires s.caller.Finish?
    ensures FinishStep(s, s.caller.call).log.calls == s.log.calls && FinishStep(s, s.caller.call).conn == s.conn
  {
    match s.caller.call
    case Prepare(_, _) =>
    case Commit =>
    case Abort(_) =>
    case Rollback =>
    case _ =>
  }

  lemma {:induction false} OnlyOwnByInvoke(s: State, call: Call, u: State, a: Action, v: State)
    requires OnlyOwn(s, call, u) && a.Invoke? && Enabled(u, a) && Detaches(call)
    requires u.log.calls + [a.call] <= v.log.calls == s.log.calls + [call]
    ensures OnlyOwn(s, call, Begin(u, a.call))
  {
    assert u.log.calls == s.log.calls;
    assert (u.log.calls + [a.call])[|s.log.calls|] == v.log.calls[|s.log.calls|];
  }

  lemma {:induction false} OnlyOwnAlong(
    server: Server, s: State, call: Call, u: State, actions: seq<Action>, v: State)
    requires Inv(server, u) && Detaches(call) && OnlyOwn(s, call, u) && Leads(server, u, actions, v)
    requires v.log.calls == s.log.calls + [call]
    ensures OnlyOwn(s, call, v)
    decreases |actions|
  {
    if |actions| > 0 {
      var a, next := actions[0], Apply(server, u, actions[0]);
      InvKept(server, u, a, next);
      CallsGrow(server, next, actions[1..], v);
      CallsGrowByOne(server, u, a);
      match a {
        case Invoke(_) => OnlyOwnByInvoke(s, call, u, a, v);
        case CallerRuns => OnlyOwnByCaller(s, call, u, next);
        case WorkerRuns => OnlyOwnByWorker(server, s, call, u);
        case _ =>
      }
      OnlyOwnAlong(server, s, call, next, actions[1..], v);
    }
  }

  /** Called when nothing is queued and the worker is idle, exec() returns with all earlier jobs finished. */
  lemma {:induction false} QuietBeforeExec(server: Server, s: State, call: Call, actions: seq<Action>, u: State)
    requires Reachable(server, s) && s.caller.Idle? && Quiet(s) && Detaches(call) && Made(server, s, call, actions, u)
    ensures !EarlierUnfinished(s, u)
  {
    Always(server, s);
    OnlyOwnAlong(server, s, call, s, actions, u);
  }

  /** With a job in the slot and no call in progress, the worker comes round to take it. */
  lemma {:induction false} TakesPending(server: Server, s: State, before: seq<Action>, t: State)
    returns (actions: seq<Action>, u: State)
    requires Leads(server, s, before, t) && Inv(server, t) && t.caller.Idle? && t.pending.Some?
    ensures Leads(server, s, actions, u) && Inv(server, u) && u.caller.Idle? && u.busy && u.pending.None?
    ensures u.log == t.log && u.held == t.held
    decreases WorkerRank(t.worker, t.workerAsleep)
  {
    var next := Apply(server, t, WorkerRuns);
    InvKept(server, t, WorkerRuns, next);
    LeadsOn(server, s, before, t, WorkerRuns);
    WorkerComesRound(server, t);
    if t.worker.Top? {
      actions, u := before + [WorkerRuns], next;
    } else {
      actions, u := TakesPending(server, s, before + [WorkerRuns], next);
    }
  }

  lemma {:induction false} WorkerComesRound(server: Server, t: State)
    requires Control(t) && NoLostWakeup(t) && t.caller.Idle? && t.pending.Some?
    ensures WorkerEnabled(t)
    ensures var next := WorkerStep(server, t);
            && next.caller.Idle? && next.log == t.log && next.held == t.held
            && if t.worker.Top? then next.busy && next.pending.None?
               else next.pending.Some?
                    && WorkerRank(next.worker, next.workerAsleep) < WorkerRank(t.worker, t.workerAsleep)
  {
  }

  /** Where the slot is free, or an error is recorded, exec() and submit() need no step of the worker. */
  lemma {:induction false} MadeAtOnce(server: Server, s: State, before: seq<Action>, t: State, call: Call)
    returns (actions: seq<Action>, u: State)
    requires Leads(server, s, before, t) && Control(t) && t.caller.Idle? && CallsMatch(t)
    requires Detaches(call) && Invokable(t, call) && (t.pending.None? || t.error.Some?)
    ensures Leads(server, s, actions, u) && u.caller.Idle?
    ensures u.log.calls == t.log.calls + [call] && |u.log.replies| == |u.log.calls| && u.busy == t.busy
    ensures if t.error.Some? then u.log.accepted == t.log.accepted && u.pending == t.pending
            else |u.log.accepted| == |t.log.accepted| + 1 && u.pending.Some?
  {
    LeadsOn(server, s, before, t, Invoke(call));
    u := Apply(server, t, Invoke(call));
    actions := before + [Invoke(call)];
    actions, u := StepCaller(server, s, actions, u);
    if t.error.None? {
      actions, u := StepCaller(server, s, actions, u);
    }
    actions, u := StepCaller(server, s, actions, u);
  }

  lemma {:induction false} StepCaller(server: Server, s: State, before: seq<Action>, t: State)
    returns (actions: seq<Action>, u: State)
    requires Leads(server, s, before, t) && CallerEnabled(t)
    ensures Leads(server, s, actions, u) && u == CallerStep(t)
  {
    LeadsOn(server, s, before, t, CallerRuns);
    actions, u := before + [CallerRuns], CallerStep(t);
  }

  /** Otherwise some run lets exec() return while a job accepted before it is still unfinished. */
  lemma {:induction false} BusyBeforeExec(server: Server, s: State, call: Call)
    returns (actions: seq<Action>, u: State)
    requires Reachable(server, s) && s.caller.Idle? && !Quiet(s) && Detaches(call) && Invokable(s, call)
    ensures Made(server, s, call, actions, u) && EarlierUnfinished(s, u)
  {
    Always(server, s);
    var before, t := [], s;
    if s.pending.Some? && s.error.None? {
      before, t := TakesPending(server, s, [], s);
    }
    actions, u := MadeAtOnce(server, s, before, t, call);
  }

  /**
  exec() and submit() are sure to return with every earlier job finished if and only if
  they are called when nothing is queued and the worker is idle, which is what
  is_finished() reports and drain() waits for.
  */
  lemma {:induction false} ExecPromiseIffQuiet(server: Server, s: State, call: Call)
    requires Reachable(server, s) && s.caller.Idle? && Detaches(call) && Invokable(s, call)
    ensures (forall actions, u | Made(server, s, call, actions, u) :: !EarlierUnfinished(s, u)) <==> Quiet(s)
  {
    if Quiet(s) {
      forall actions, u | Made(server, s, call, actions, u)
        ensures !EarlierUnfinished(s, u)
      {
        QuietBeforeExec(server, s, call, actions, u);
      }
    } else {
      var actions, u := BusyBeforeExec(server, s, call);
    }
  }

  /** What EarlierUnfinished counts: without it the conversation holds all that was accepted before the call. */
  lemma {:induction false} EarlierJobsHaveRun(server: Server, s: State, call: Call, actions: seq<Action>, u: State)
    requires Reachable(server, s) && s.caller.Idle? && Quiet(s) && Detaches(call) && Made(server, s, call, actions, u)
    ensures View(s.conn.trace, s.error) == Replay(server, s.log.accepted) && s.conn.trace <= u.conn.trace
  {
    Always(server, s);
    OnlyAcceptedCallsInOrder(server, s);
    TraceGrows(server, s, actions, u);
  }

  lemma {:induction false} TraceGrows(server: Server, s: State, actions: seq<Action>, t: State)
    requires Leads(server, s, actions, t)
    ensures s.conn.trace <= t.conn.trace
    decreases |actions|
  {
    if |actions| > 0 {
      var next := Apply(server, s, actions[0]);
      TraceGrows(server, next, actions[1..], t);
      TraceGrowsByOne(server, s, actions[0]);
    }
  }

  lemma {:induction false} TraceGrowsByOne(server: Server, s: State, a: Action)
    requires Enabled(s, a)
    ensures s.conn.trace <= Apply(server, s, a).conn.trace
  {
    if a.CallerRuns? && s.caller.Finish? {
      FinishKeeps(s);
    }
  }
}
