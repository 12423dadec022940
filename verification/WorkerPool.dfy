/**
The generator's worker threads: they take file numbers from one shared cursor and
report errors to one variable guarded by a mutex. A step is one atomic action of one
worker; any interleaving of steps is a run.
*/
module WorkerPool {
  import opened Wrappers
  import opened Arithmetic

  /** An exit status; zero is success. */
  type Status = nat

  const OK: Status := 0
  const CONNECTION_ERROR: Status := 1

  /** Where a worker stands. `again` says that it goes on with the next file after its report. */
  datatype Pc =
    | Connecting
    | Pulling
    | Working(file: nat)
    | Reporting(error: Status, again: bool) // waits for the mutex
    | Holding(error: Status, again: bool) // has the mutex
    | Finished(connected: bool)

  /** `filesProcessed` is what the worker will return. */
  datatype Worker = Worker(pc: Pc, filesProcessed: nat)

  /** A file that process_one_file() has been run on, and by whom. */
  datatype Done = Done(file: nat, worker: nat)

  datatype State = State(
    workers: seq<Worker>,
    cursor: nat, // next_file_idx
    mutex: Option<nat>,
    firstError: Status,
    processed: seq<Done>, // in the order in which it happened
    recorded: seq<Status>) // the errors, in the order in which the mutex was held for them

  /** What the environment decides in a step: the connection succeeds, the file is processed or fails. */
  datatype Choice = Choice(ok: bool, error: Status)

  function Move(s: State, w: nat, pc: Pc): State
    requires w < |s.workers|
  {
    s.(workers := s.workers[w := s.workers[w].(pc := pc)])
  }

  function Counted(s: State, w: nat, pc: Pc): State
    requires w < |s.workers|
  {
    s.(workers := s.workers[w := Worker(pc, s.workers[w].filesProcessed + 1)])
  }

  predicate Enabled(s: State, w: nat) {
    && w < |s.workers| && !s.workers[w].pc.Finished?
    && (s.workers[w].pc.Reporting? ==> s.mutex.None?)
  }

  /** The next action of worker `w`, with `files` files to be processed. */
  function Step(files: nat, s: State, w: nat, c: Choice): State
    requires Enabled(s, w)
  {
    match s.workers[w].pc
    case Connecting => Move(s, w, if c.ok then Pulling else Reporting(CONNECTION_ERROR, false))
    case Pulling =>
      var t := s.(cursor := s.cursor + 1);
      Move(t, w, if s.cursor < files then Working(s.cursor) else Finished(true))
    case Working(file) =>
      var t := s.(processed := s.processed + [Done(file, w)]);
      if c.ok then Counted(t, w, Pulling) else Move(t, w, Reporting(c.error, true))
    case Reporting(error, again) => Move(s.(mutex := Some(w)), w, Holding(error, again))
    case Holding(error, again) =>
      var t := s.(firstError := if s.firstError == OK then error else s.firstError,
                  recorded := s.recorded + [error], mutex := None);
      if again then Counted(t, w, Pulling) else Move(t, w, Finished(false))
  }

  function Start(count: nat): State {
    State(seq(count, i => Worker(Connecting, 0)), 0, None, OK, [], [])
  }

  /** The states of a run: which worker goes next and what it meets is up to `schedule`. */
  ghost predicate Leads(files: nat, s: State, schedule: seq<(nat, Choice)>, t: State)
    decreases |schedule|
  {
    if schedule == [] then s == t
    else
      var (w, c) := schedule[0];
      Enabled(s, w) && Leads(files, Step(files, s, w, c), schedule[1..], t)
  }

  ghost predicate Reachable(files: nat, count: nat, t: State) {
    exists schedule :: Leads(files, Start(count), schedule, t)
  }

  // ------------------------------------------------------------------- totals

  function Total(ws: seq<Worker>, g: Worker -> nat): nat {
    if ws == [] then 0 else g(ws[0]) + Total(ws[1..], g)
  }

  lemma {:induction false} TotalUpdate(ws: seq<Worker>, w: nat, x: Worker, g: Worker -> nat)
    requires w < |ws|
    ensures Total(ws[w := x], g) + g(ws[w]) == Total(ws, g) + g(x)
  {
    var us := ws[w := x];
    if w == 0 {
      assert us[1..] == ws[1..];
    } else {
      TotalUpdate(ws[1..], w - 1, x, g);
      assert us[1..] == ws[1..][w - 1 := x];
    }
  }

  lemma {:induction false} TotalZero(ws: seq<Worker>, g: Worker -> nat)
    requires forall i | 0 <= i < |ws| :: g(ws[i]) == 0
    ensures Total(ws, g) == 0
  {
    if ws != [] {
      TotalZero(ws[1..], g);
    }
  }

  lemma {:induction false} TotalSame(ws: seq<Worker>, g: Worker -> nat, h: Worker -> nat)
    requires forall i | 0 <= i < |ws| :: g(ws[i]) == h(ws[i])
    ensures Total(ws, g) == Total(ws, h)
  {
    if ws != [] {
      TotalSame(ws[1..], g, h);
    }
  }

  /** How often file `f` was processed. */
  function Times(done: seq<Done>, f: nat): nat {
    if done == [] then 0
    else Times(done[..|done| - 1], f) + if done[|done| - 1].file == f then 1 else 0
  }

  lemma {:induction false} TimesAppend(done: seq<Done>, d: Done, f: nat)
    ensures Times(done + [d], f) == Times(done, f) + if d.file == f then 1 else 0
  {
    assert (done + [d])[..|done|] == done;
  }

  /** One if the worker is at work on `f`. */
  function Holds(x: Worker, f: nat): nat {
    if x.pc == Working(f) then 1 else 0
  }

  function On(f: nat): Worker -> nat {
    (x: Worker) => Holds(x, f)
  }

  const BUSY: Worker -> nat := (x: Worker) => if x.pc.Working? then 1 else 0
  const COUNT: Worker -> nat := (x: Worker) => x.filesProcessed

  /** What a worker has processed: counted already, or to be counted after the report. */
  const CREDIT: Worker -> nat := (x: Worker) =>
    x.filesProcessed + if (x.pc.Reporting? || x.pc.Holding?) && x.pc.again then 1 else 0

  // ----------------------------------------------------------------- the invariant

  /** Every file below the cursor is being processed by one worker or was processed once. */
  ghost predicate Shared(files: nat, s: State) {
    && (forall f: nat :: Times(s.processed, f) + Total(s.workers, On(f)) == Given(files, s.cursor, f))
    && |s.processed| + Total(s.workers, BUSY) == Min(s.cursor, files)
    && Total(s.workers, CREDIT) == |s.processed|
  }

  function FirstError(errors: seq<Status>): Status {
    if errors == [] then OK
    else
      var e := FirstError(errors[..|errors| - 1]);
      if e == OK then errors[|errors| - 1] else e
  }

  predicate Guarded(s: State) {
    && (forall w | 0 <= w < |s.workers| :: s.workers[w].pc.Holding? <==> s.mutex == Some(w))
    && (s.mutex.Some? ==> s.mutex.value < |s.workers|)
    && s.firstError == FirstError(s.recorded)
  }

  /** A worker whose connection was refused has recorded that; one that ran out of files saw the end. */
  predicate Honest(files: nat, s: State) {
    forall w | 0 <= w < |s.workers| ::
      var pc := s.workers[w].pc;
      && (pc.Finished? && pc.connected ==> s.cursor >= files)
      && (pc.Finished? && !pc.connected ==> CONNECTION_ERROR in s.recorded && s.workers[w].filesProcessed == 0)
      && ((pc.Reporting? || pc.Holding?) && !pc.again ==>
            pc.error == CONNECTION_ERROR && s.workers[w].filesProcessed == 0)
      && (pc.Connecting? ==> s.workers[w].filesProcessed == 0)
  }

  ghost predicate Inv(files: nat, s: State) {
    Shared(files, s) && Guarded(s) && Honest(files, s)
  }

  /** Whether file `f` counts as given out. */
  function Given(files: nat, cursor: nat, f: nat): nat {
    if f < Min(cursor, files) then 1 else 0
  }

  lemma {:induction false} StepHolds(files: nat, s: State, w: nat, c: Choice, f: nat)
    requires Enabled(s, w) && !s.workers[w].pc.Working?
    ensures var t := Step(files, s, w, c);
            && t.processed == s.processed && w < |t.workers| && t.workers == s.workers[w := t.workers[w]]
            && Holds(t.workers[w], f) + Given(files, s.cursor, f) == Holds(s.workers[w], f) + Given(files, t.cursor, f)
  {
  }

  lemma {:induction false} StepProcesses(files: nat, s: State, w: nat, c: Choice, f: nat)
    requires Enabled(s, w) && s.workers[w].pc.Working?
    ensures var t := Step(files, s, w, c);
            && t.processed == s.processed + [Done(s.workers[w].pc.file, w)] && t.cursor == s.cursor
            && w < |t.workers| && t.workers == s.workers[w := t.workers[w]] && Holds(t.workers[w], f) == 0
  {
  }

  lemma {:induction false} FileKept(files: nat, s: State, w: nat, c: Choice, f: nat)
    requires Enabled(s, w)
    requires Times(s.processed, f) + Total(s.workers, On(f)) == Given(files, s.cursor, f)
    ensures var t := Step(files, s, w, c);
            Times(t.processed, f) + Total(t.workers, On(f)) == Given(files, t.cursor, f)
  {
    var t := Step(files, s, w, c);
    TotalUpdate(s.workers, w, t.workers[w], On(f));
    if s.workers[w].pc.Working? {
      StepProcesses(files, s, w, c, f);
      TimesAppend(s.processed, Done(s.workers[w].pc.file, w), f);
    } else {
      StepHolds(files, s, w, c, f);
    }
  }

  lemma {:induction false} SharedKept(files: nat, s: State, w: nat, c: Choice)
    requires Shared(files, s) && Enabled(s, w)
    ensures Shared(files, Step(files, s, w, c))
  {
    BusyKept(files, s, w, c);
    CreditKept(files, s, w, c);
    FilesKept(files, s, w, c);
  }

  lemma {:induction false} BusyKept(files: nat, s: State, w: nat, c: Choice)
    requires Enabled(s, w) && |s.processed| + Total(s.workers, BUSY) == Min(s.cursor, files)
    ensures var t := Step(files, s, w, c); |t.processed| + Total(t.workers, BUSY) == Min(t.cursor, files)
  {
    var t := Step(files, s, w, c);
    assert t.workers == s.workers[w := t.workers[w]];
    TotalUpdate(s.workers, w, t.workers[w], BUSY);
  }

  lemma {:induction false} CreditKept(files: nat, s: State, w: nat, c: Choice)
    requires Enabled(s, w) && Total(s.workers, CREDIT) == |s.processed|
    ensures var t := Step(files, s, w, c); Total(t.workers, CREDIT) == |t.processed|
  {
    var t := Step(files, s, w, c);
    assert t.workers == s.workers[w := t.workers[w]];
    TotalUpdate(s.workers, w, t.workers[w], CREDIT);
  }

  lemma {:induction false} FilesKept(files: nat, s: State, w: nat, c: Choice)
    requires Enabled(s, w)
    requires forall f: nat ::
               Times(s.processed, f) + Total(s.workers, On(f)) == Given(files, s.cursor, f)
    ensures var t := Step(files, s, w, c); forall f: nat ::
              Times(t.processed, f) + Total(t.workers, On(f)) == Given(files, t.cursor, f)
  {
    var t := Step(files, s, w, c);
    forall f: nat
      ensures Times(t.processed, f) + Total(t.workers, On(f)) == Given(files, t.cursor, f)
    {
      FileKept(files, s, w, c, f);
    }
  }

  lemma {:induction false} GuardedKept(files: nat, s: State, w: nat, c: Choice)
    requires Guarded(s) && Enabled(s, w)
    ensures Guarded(Step(files, s, w, c))
  {
    if s.workers[w].pc.Holding? {
      assert (s.recorded + [s.workers[w].pc.error])[..|s.recorded|] == s.recorded;
    }
  }

  lemma {:induction false} HonestKept(files: nat, s: State, w: nat, c: Choice)
    requires Honest(files, s) && Enabled(s, w)
    ensures Honest(files, Step(files, s, w, c))
  {
  }

  lemma {:induction false} InvAlong(files: nat, s: State, schedule: seq<(nat, Choice)>, t: State)
    requires Inv(files, s) && Leads(files, s, schedule, t)
    ensures Inv(files, t) && |t.workers| == |s.workers|
    decreases |schedule|
  {
    if schedule != [] {
      var (w, c) := schedule[0];
      SharedKept(files, s, w, c);
      GuardedKept(files, s, w, c);
      HonestKept(files, s, w, c);
      InvAlong(files, Step(files, s, w, c), schedule[1..], t);
    }
  }

  lemma {:induction false} InvAlways(files: nat, count: nat, t: State)
    requires Reachable(files, count, t)
    ensures Inv(files, t) && |t.workers| == count
  {
    var schedule :| Leads(files, Start(count), schedule, t);
    var s := Start(count);
    forall f: nat
      ensures Total(s.workers, On(f)) == 0
    {
      TotalZero(s.workers, On(f));
    }
    TotalZero(s.workers, BUSY);
    TotalZero(s.workers, CREDIT);
    InvAlong(files, s, schedule, t);
  }

  // ------------------------------------------------------------------- the theorems

  /** No file is ever processed twice, or by two workers at once. */
  lemma {:induction false} NeverTwice(files: nat, count: nat, s: State, f: nat)
    requires Reachable(files, count, s)
    ensures Times(s.processed, f) + Total(s.workers, On(f)) <= 1
    ensures f >= files ==> Times(s.processed, f) + Total(s.workers, On(f)) == 0
  {
    InvAlways(files, count, s);
  }

  predicate AllFinished(s: State) {
    forall w | 0 <= w < |s.workers| :: s.workers[w].pc.Finished?
  }

  predicate SomeConnected(s: State) {
    exists w | 0 <= w < |s.workers| :: s.workers[w].pc == Finished(true)
  }

  /** If any worker connected, every file was processed once, and the counts add up. */
  lemma {:induction false} EveryFileOnce(files: nat, count: nat, s: State)
    requires Reachable(files, count, s) && AllFinished(s) && SomeConnected(s)
    ensures forall f | 0 <= f < files :: Times(s.processed, f) == 1
    ensures |s.processed| == files && Total(s.workers, COUNT) == files
  {
    InvAlways(files, count, s);
    var w :| 0 <= w < |s.workers| && s.workers[w].pc == Finished(true);
    forall f | 0 <= f < files
      ensures Times(s.processed, f) == 1
    {
      TotalZero(s.workers, On(f));
    }
    TotalZero(s.workers, BUSY);
    TotalSame(s.workers, CREDIT, COUNT);
  }

  /** If none connected, nothing was processed, and a connection error is among those recorded. */
  lemma {:induction false} NothingWithoutConnection(files: nat, count: nat, s: State)
    requires Reachable(files, count, s) && AllFinished(s) && !SomeConnected(s)
    ensures s.processed == [] && Total(s.workers, COUNT) == 0
    ensures count > 0 ==> s.firstError != OK
  {
    InvAlways(files, count, s);
    forall w | 0 <= w < |s.workers|
      ensures CREDIT(s.workers[w]) == COUNT(s.workers[w]) == 0 && !s.workers[w].pc.connected
    {
      assert s.workers[w].pc != Finished(true);
    }
    TotalZero(s.workers, CREDIT);
    TotalZero(s.workers, COUNT);
    if count > 0 {
      assert !s.workers[0].pc.connected;
      AnyErrorShows(s.recorded, CONNECTION_ERROR);
    }
  }

  lemma {:induction false} AnyErrorShows(errors: seq<Status>, e: Status)
    requires e in errors && e != OK
    ensures FirstError(errors) != OK
  {
    var init := errors[..|errors| - 1];
    if errors[|errors| - 1] != e {
      assert errors == init + [errors[|errors| - 1]];
      AnyErrorShows(init, e);
    }
  }

  /** The status reported is the first recorded one that is not success. */
  lemma {:induction false} FirstErrorIsFirst(files: nat, count: nat, s: State) returns (k: nat)
    requires Reachable(files, count, s)
    ensures k <= |s.recorded| && forall i | 0 <= i < k :: s.recorded[i] == OK
    ensures if k < |s.recorded| then s.firstError == s.recorded[k] != OK else s.firstError == OK
  {
    InvAlways(files, count, s);
    k := FirstAt(s.recorded);
  }

  lemma {:induction false} FirstAt(errors: seq<Status>) returns (k: nat)
    ensures k <= |errors| && forall i | 0 <= i < k :: errors[i] == OK
    ensures if k < |errors| then FirstError(errors) == errors[k] != OK else FirstError(errors) == OK
  {
    if errors == [] {
      k := 0;
    } else {
      k := FirstAt(errors[..|errors| - 1]);
      if k == |errors| - 1 && errors[k] == OK {
        k := k + 1;
      }
    }
  }

  /** Some worker can always go on until all have finished. */
  lemma {:induction false} NeverStuck(files: nat, count: nat, s: State)
    requires Reachable(files, count, s) && !AllFinished(s)
    ensures exists w :: Enabled(s, w)
  {
    InvAlways(files, count, s);
    if s.mutex.Some? {
      assert Enabled(s, s.mutex.value);
    } else {
      var w :| 0 <= w < |s.workers| && !s.workers[w].pc.Finished?;
      assert Enabled(s, w);
    }
  }

  const WEIGHT: Worker -> nat := (x: Worker) =>
    match x.pc
    case Connecting => 3
    case Pulling => 1
    case Working(_) => 4
    case Reporting(_, again) => if again then 3 else 2
    case Holding(_, again) => if again then 2 else 1
    case Finished(_) => 0

  function Rank(files: nat, s: State): nat {
    5 * (files - Min(s.cursor, files)) + Total(s.workers, WEIGHT)
  }

  /** Every step brings the end nearer, so every run is finite. */
  lemma {:induction false} StepsLowerRank(files: nat, s: State, w: nat, c: Choice)
    requires Enabled(s, w)
    ensures Rank(files, Step(files, s, w, c)) < Rank(files, s)
  {
    var t := Step(files, s, w, c);
    TotalUpdate(s.workers, w, t.workers[w], WEIGHT);
    assert t.workers == s.workers[w := t.workers[w]];
  }

  // ------------------------------------------------------------ no failure is lost

  /** The failure that worker `w` meets in its next step: a refused connection, or a file that fails. */
  function MetAt(s: State, w: nat, c: Choice): multiset<Status>
    requires w < |s.workers|
  {
    if c.ok then multiset{}
    else if s.workers[w].pc.Connecting? then multiset{CONNECTION_ERROR}
    else if s.workers[w].pc.Working? then multiset{c.error}
    else multiset{}
  }

  /** All failures met along a schedule. */
  function Met(files: nat, s: State, schedule: seq<(nat, Choice)>): multiset<Status>
    decreases |schedule|
  {
    if schedule == [] || !Enabled(s, schedule[0].0) then multiset{}
    else
      MetAt(s, schedule[0].0, schedule[0].1)
      + Met(files, Step(files, s, schedule[0].0, schedule[0].1), schedule[1..])
  }

  /** One if the worker has still to record `e`. */
  function Owed(x: Worker, e: Status): nat {
    if (x.pc.Reporting? || x.pc.Holding?) && x.pc.error == e then 1 else 0
  }

  function Owes(e: Status): Worker -> nat {
    (x: Worker) => Owed(x, e)
  }

  /** How often `e` has been recorded or is on its way. */
  function Known(s: State, e: Status): nat {
    multiset(s.recorded)[e] + Total(s.workers, Owes(e))
  }

  lemma {:induction false} StepOwes(files: nat, s: State, w: nat, c: Choice, e: Status)
    requires Enabled(s, w) && !s.workers[w].pc.Holding?
    ensures var t := Step(files, s, w, c);
            && t.recorded == s.recorded && w < |t.workers| && t.workers == s.workers[w := t.workers[w]]
            && Owed(t.workers[w], e) == Owed(s.workers[w], e) + MetAt(s, w, c)[e]
  {
  }

  lemma {:induction false} StepRecords(files: nat, s: State, w: nat, c: Choice, e: Status)
    requires Enabled(s, w) && s.workers[w].pc.Holding?
    ensures var t := Step(files, s, w, c);
            && t.recorded == s.recorded + [s.workers[w].pc.error]
            && w < |t.workers| && t.workers == s.workers[w := t.workers[w]]
            && Owed(t.workers[w], e) == 0 && MetAt(s, w, c)[e] == 0
  {
  }

  lemma {:induction false} StepConserves(files: nat, s: State, w: nat, c: Choice, e: Status)
    requires Enabled(s, w)
    ensures Known(Step(files, s, w, c), e) == Known(s, e) + MetAt(s, w, c)[e]
  {
    var t := Step(files, s, w, c);
    var y := t.workers[w];
    TotalUpdate(s.workers, w, y, Owes(e));
    if s.workers[w].pc.Holding? {
      StepRecords(files, s, w, c, e);
      RecordedOnce(s.recorded, s.workers[w].pc.error, e);
    } else {
      StepOwes(files, s, w, c, e);
    }
  }

  lemma {:induction false} RecordedOnce(recorded: seq<Status>, error: Status, e: Status)
    ensures multiset(recorded + [error])[e] == multiset(recorded)[e] + if error == e then 1 else 0
  {
  }

  lemma {:induction false} RunConserves(files: nat, s: State, schedule: seq<(nat, Choice)>, t: State, e: Status)
    requires Leads(files, s, schedule, t)
    ensures Known(t, e) == Known(s, e) + Met(files, s, schedule)[e]
    decreases |schedule|
  {
    if schedule != [] {
      var (w, c) := schedule[0];
      StepConserves(files, s, w, c, e);
      RunConserves(files, Step(files, s, w, c), schedule[1..], t, e);
    }
  }

  /** When all workers have finished, what was recorded is exactly the failures that were met. */
  lemma {:induction false} EveryFailureIsRecorded(files: nat, count: nat, schedule: seq<(nat, Choice)>, s: State)
    requires Leads(files, Start(count), schedule, s) && AllFinished(s)
    ensures multiset(s.recorded) == Met(files, Start(count), schedule)
  {
    forall e: Status
      ensures multiset(s.recorded)[e] == Met(files, Start(count), schedule)[e]
    {
      RunConserves(files, Start(count), schedule, s, e);
      TotalZero(Start(count).workers, Owes(e));
      TotalZero(s.workers, Owes(e));
    }
  }

  /** A failure carries an error that is not success. */
  predicate Honestly(schedule: seq<(nat, Choice)>) {
    forall i | 0 <= i < |schedule| :: !schedule[i].1.ok ==> schedule[i].1.error != OK
  }

  lemma {:induction false} MetIsNoSuccess(files: nat, s: State, schedule: seq<(nat, Choice)>)
    requires Honestly(schedule)
    ensures OK !in Met(files, s, schedule)
    decreases |schedule|
  {
    if schedule != [] && Enabled(s, schedule[0].0) {
      assert Honestly(schedule[1..]) by {
        assert forall i | 0 <= i < |schedule[1..]| :: schedule[1..][i] == schedule[i + 1];
      }
      MetIsNoSuccess(files, Step(files, s, schedule[0].0, schedule[0].1), schedule[1..]);
    }
  }

  /** The generator reports success if and only if no connection was refused and no file failed. */
  lemma {:induction false} SuccessIffNothingFailed(files: nat, count: nat, schedule: seq<(nat, Choice)>, s: State)
    requires Leads(files, Start(count), schedule, s) && AllFinished(s) && Honestly(schedule)
    ensures s.firstError == OK <==> Met(files, Start(count), schedule) == multiset{}
  {
    EveryFailureIsRecorded(files, count, schedule, s);
    MetIsNoSuccess(files, Start(count), schedule);
    var k := FirstErrorIsFirst(files, count, s);
    if s.recorded != [] {
      assert s.recorded[0] in multiset(s.recorded);
    }
  }
}
