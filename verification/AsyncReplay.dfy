/**
What the facade is supposed to mean, said without threads: a job is a few
questions to the database in a row, a run of the facade is its accepted jobs
one after the other, and the synchronous program is its calls one after the
other.
*/
module AsyncReplay {
  import opened Wrappers
  import opened ParamSnapshot
  import opened AsyncDb

  /** All that a job reads and writes: the conversation with the database and the sticky error. */
  datatype View = View(trace: seq<Event>, error: Option<Error>)

  const FRESH: View := View([], None)

  function Said(server: Server, v: View, op: Op): View {
    v.(trace := v.trace + [Ask(server, v.trace, op)])
  }

  function Answer(v: View): Outcome
    requires v.trace != []
  {
    v.trace[|v.trace| - 1].outcome
  }

  function Noted(v: View, error: Error): View {
    if v.error.None? then v.(error := Some(error)) else v
  }

  /** Fetch one buffer of rows and remember a failure. */
  function FetchOnce(server: Server, v: View, id: nat): View {
    var w := Said(server, v, Fetch(id));
    if Answer(w).Failed? then Noted(w, Answer(w).error) else w
  }

  /** Run a statement with the given parameter values, then fetch if it returns rows. */
  function ExecuteOnce(server: Server, v: View, job: Job): View
    requires job.StatementJob?
  {
    var w := Said(server, v, Execute(job.id, job.snap));
    if Answer(w).Failed? then Noted(w, Answer(w).error)
    else if job.fetches then FetchOnce(server, w, job.id) else w
  }

  function RunJob(server: Server, v: View, job: Job): View {
    match job
    case PrepareJob(id, _) => Said(server, v, PrepareStatement(id))
    case StatementJob(_, _, _, guarded) =>
      if guarded && v.error.Some? then v else ExecuteOnce(server, v, job)
    case FetchJob(id) => if v.error.Some? then v else FetchOnce(server, v, id)
    case CommitJob => Said(server, v, CommitWork)
    case RollbackJob => Said(server, v, RollbackWork)
  }

  /** What is left of a job whose closure stands at `at`. */
  function Rest(server: Server, v: View, job: Job, at: JobPc): View
    requires CanRun(job, at)
  {
    match at
    case TestError => if v.error.Some? then v else if job.FetchJob? then FetchOnce(server, v, job.id)
                      else ExecuteOnce(server, v, job)
    case DoPrepare => RunJob(server, v, job)
    case DoExecute => ExecuteOnce(server, v, job)
    case DoFetch => FetchOnce(server, v, job.id)
    case DoTransaction => RunJob(server, v, job)
    case NoteError(error) => Noted(v, error)
    case Returned => v
  }

  function RunItem(server: Server, v: View, item: Item): View {
    match item
    case Ran(job, _) => RunJob(server, v, job)
    case Cleared => v.(error := None)
  }

  /** The accepted jobs, one after the other, on a connection of their own. */
  function Replay(server: Server, items: seq<Item>): View {
    if items == [] then FRESH
    else RunItem(server, Replay(server, items[..|items| - 1]), items[|items| - 1])
  }

  // ------------------------------------------------------------ the plain program

  /** Asks the database one thing and remembers a failure. */
  function Asked(server: Server, v: View, op: Op): View {
    var e := Event(op, server(v.trace, op));
    View(v.trace + [e], if v.error.None? && e.outcome.Failed? then Some(e.outcome.error) else v.error)
  }

  /** The same call made synchronously, by what it asks the database: nothing runs after an error. */
  function SyncCall(server: Server, v: View, call: Call): View {
    match call
    case Drain => v
    case IsFinished => v
    case Destroy => v
    case Abort(_) => v
    case Commit =>
      if v.error.Some? then View(Asked(server, v, RollbackWork).trace, None)
      else View(Asked(server, v, CommitWork).trace, None)
    case Rollback => View(Asked(server, v, RollbackWork).trace, None)
    case Prepare(id, _) => if v.error.Some? then v else View(Asked(server, v, PrepareStatement(id)).trace, None)
    case Submit(id, snap) => if v.error.Some? then v else Asked(server, v, Execute(id, snap))
    case Exec(id, snap, fetches) => if v.error.Some? then v else SyncExecute(server, v, id, snap, fetches)
    case ExecuteSync(id, snap, fetches) => if v.error.Some? then v else SyncExecute(server, v, id, snap, fetches)
    case FetchMore(id) => if v.error.Some? then v else Asked(server, v, Fetch(id))
  }

  /** Execute, and fetch the first buffer of rows if there are any to come. */
  function SyncExecute(server: Server, v: View, id: nat, snap: Buffer, fetches: bool): View {
    var w := Asked(server, v, Execute(id, snap));
    if w.error.None? && fetches then Asked(server, w, Fetch(id)) else w
  }

  function SyncRun(server: Server, calls: seq<Call>): View {
    if calls == [] then FRESH
    else SyncCall(server, SyncRun(server, calls[..|calls| - 1]), calls[|calls| - 1])
  }

  /** What the `k`th call puts into the queue when no error stands in its way. */
  function ItemsOf(call: Call, k: nat): seq<Item> {
    if !Posts(call) || call.Abort? then []
    else if call.Rollback? then [Ran(RollbackJob, k), Cleared]
    else [Ran(JobOf(call), k)]
  }

  /** The queue's history after the calls from number `from` on, if none of them was dropped. */
  function Intended(calls: seq<Call>, from: nat): seq<Item>
    decreases |calls|
  {
    if |calls| <= from then []
    else Intended(calls[..|calls| - 1], from) + ItemsOf(calls[|calls| - 1], |calls|)
  }

  // ----------------------------------------------------------------- statement failures

  predicate NoFailure(events: seq<Event>) {
    forall i | 0 <= i < |events| :: !IsFailure(events[i])
  }

  /** The error of the earliest failed statement. */
  function FirstFailure(events: seq<Event>): (r: Option<Error>)
    ensures r.None? <==> NoFailure(events)
  {
    if events == [] then None
    else
      var before := FirstFailure(events[..|events| - 1]);
      var last := events[|events| - 1];
      assert events == events[..|events| - 1] + [last];
      if before.Some? then before
      else if IsFailure(last) then Some(last.outcome.error) else None
  }

  /** How many statements were executed after the earliest failed one. */
  function Overrun(events: seq<Event>): nat {
    if events == [] then 0
    else
      var before := events[..|events| - 1];
      Overrun(before) + if FirstFailure(before).Some? && events[|events| - 1].op.Execute? then 1 else 0
  }

  lemma Extend(events: seq<Event>, e: Event)
    ensures FirstFailure(events + [e]) ==
            if FirstFailure(events).Some? then FirstFailure(events)
            else if IsFailure(e) then Some(e.outcome.error) else None
    ensures Overrun(events + [e]) ==
            Overrun(events) + if FirstFailure(events).Some? && e.op.Execute? then 1 else 0
  {
    assert (events + [e])[..|events|] == events;
  }

  lemma ReplayExtend(server: Server, items: seq<Item>, item: Item)
    ensures Replay(server, items + [item]) == RunItem(server, Replay(server, items), item)
  {
    assert (items + [item])[..|items|] == items;
  }

  /** A job only ever adds to the conversation, and an error only comes with a failure. */
  lemma JobGrows(server: Server, v: View, job: Job)
    ensures v.trace <= RunJob(server, v, job).trace
    ensures NoFailure(RunJob(server, v, job).trace[|v.trace|..]) ==> RunJob(server, v, job).error == v.error
  {
    var w := RunJob(server, v, job);
    if job.StatementJob? || job.FetchJob? {
      if w != v {
        var first := if job.FetchJob? then Said(server, v, Fetch(job.id)) else Said(server, v, Execute(job.id, job.snap));
        assert w.trace[|v.trace|] == first.trace[|v.trace|];
        if w.error != v.error {
          var last := w.trace[|w.trace| - 1];
          assert IsFailure(last) && w.trace[|v.trace|..][|w.trace| - 1 - |v.trace|] == last;
        }
      }
    }
  }

  lemma {:induction false} ReplayGrows(server: Server, items: seq<Item>, more: seq<Item>)
    ensures Replay(server, items).trace <= Replay(server, items + more).trace
  {
    if more == [] {
      assert items + more == items;
    } else {
      var shorter := more[..|more| - 1];
      assert items + more == (items + shorter) + [more[|more| - 1]];
      ReplayExtend(server, items + shorter, more[|more| - 1]);
      ReplayGrows(server, items, shorter);
      if more[|more| - 1].Ran? {
        JobGrows(server, Replay(server, items + shorter), more[|more| - 1].job);
      }
    }
  }

  /** Without a failed statement the calls, run plainly, say the same thing as the queue they fill. */
  lemma {:induction false} SyncIsReplay(server: Server, calls: seq<Call>)
    requires forall i | 0 <= i < |calls| :: !calls[i].Abort?
    requires NoFailure(Replay(server, Intended(calls, 0)).trace)
    ensures SyncRun(server, calls) == Replay(server, Intended(calls, 0))
    ensures SyncRun(server, calls).error.None?
  {
    if calls != [] {
      var shorter, call := calls[..|calls| - 1], calls[|calls| - 1];
      var items := Intended(shorter, 0);
      ReplayGrows(server, items, ItemsOf(call, |calls|));
      var before := Replay(server, items).trace;
      assert forall i | 0 <= i < |before| :: before[i] == Replay(server, Intended(calls, 0)).trace[i];
      SyncIsReplay(server, shorter);
      assert Intended(calls, 0) == items + ItemsOf(call, |calls|);
      CallIsReplay(server, items, call, |calls|);
    }
  }

  /** One more call, after a queue that left no error. */
  lemma {:induction false} CallIsReplay(server: Server, items: seq<Item>, call: Call, number: nat)
    requires !call.Abort? && Replay(server, items).error.None?
    requires NoFailure(Replay(server, items + ItemsOf(call, number)).trace)
    ensures SyncCall(server, Replay(server, items), call) == Replay(server, items + ItemsOf(call, number))
    ensures Replay(server, items + ItemsOf(call, number)).error.None?
  {
    if call.Rollback? {
      assert items + ItemsOf(call, number) == items + [Ran(RollbackJob, number)] + [Cleared];
      ReplayExtend(server, items, Ran(RollbackJob, number));
      ReplayExtend(server, items + [Ran(RollbackJob, number)], Cleared);
    } else if Posts(call) {
      ReplayExtend(server, items, Ran(JobOf(call), number));
      PlainIsPosted(server, Replay(server, items), call);
    } else {
      assert items + ItemsOf(call, number) == items;
    }
  }

  lemma {:induction false} PlainIsPosted(server: Server, v: View, call: Call)
    requires Posts(call) && !call.Abort? && !call.Rollback? && v.error.None?
    requires NoFailure(RunJob(server, v, JobOf(call)).trace)
    ensures SyncCall(server, v, call) == RunJob(server, v, JobOf(call))
    ensures RunJob(server, v, JobOf(call)).error.None?
  {
    var w := RunJob(server, v, JobOf(call));
    JobGrows(server, v, JobOf(call));
    assert forall i | 0 <= i < |w.trace[|v.trace|..]| :: w.trace[|v.trace|..][i] == w.trace[|v.trace| + i];
  }
}
