/**
on_change() and the listener thread. Both threads need the same second connection, so
the caller does not issue LISTEN itself: it leaves the channel in a slot and sleeps
until the listener has run the command. A critical section under listen_mtx_ is one
step, a libpq call is a place a thread is in between two steps.
*/
module ListenHandoff {
  import opened Wrappers

  datatype Call = Call(channel: string, handler: nat)

  /** Where the caller is. `mark` is how many LISTENs had been run when it queued its own. */
  datatype Caller =
    | Idle
    | Creating(call: Call)
    | Starting(call: Call)
    | Connecting(call: Call)
    | Spawning(call: Call)
    | Abandoning(call: Call) // in PQfinish(listen_conn_)
    | Queueing(call: Call)
    | Asleep(call: Call, mark: nat)
    | Awake(call: Call, mark: nat)
    | Stopping
    | Joining
    | Closing // in PQfinish(listen_conn_)
    | Disconnected

  datatype Listener =
    | NotStarted
    | LoopTop
    | ReadPending
    | Listening(channel: string) // in PQexec()
    | Reporting(channel: string, ok: bool)
    | GetSocket // in PQsocket()
    | Polling
    | Consuming // in PQconsumeInput()
    | Notifies // in PQnotifies()
    | Dispatch(channel: string)
    | Ended

  datatype Slot = Slot(pending: Option<string>, done: bool, result: bool)

  datatype Listened = Listened(channel: string, ok: bool)
  datatype Answer = Answer(call: Call, ok: bool)
  datatype Routed = Routed(channel: string, handler: Option<nat>)

  datatype Log = Log(listens: seq<Listened>, answers: seq<Answer>, routed: seq<Routed>)

  datatype State = State(
    caller: Caller,
    listener: Listener,
    slot: Slot,
    open: bool, // listen_conn_ is a live connection
    joinable: bool,
    stop: bool,
    handlers: map<string, nat>,
    log: Log)

  const START := State(Idle, NotStarted, Slot(None, false, true), false, false, false, map[], Log([], [], []))

  // ---------------------------------------------------------------------- the steps

  datatype Request = OnChange(call: Call) | Disconnect

  /** What a step meets outside: success or not, a readable socket, a notification. */
  datatype Chance = Chance(ok: bool, ready: bool, notify: Option<string>)

  datatype Action = CallerActs(request: Request, chance: Chance) | ListenerActs(chance: Chance) | Spurious

  function Answered(s: State, call: Call, ok: bool): State {
    s.(caller := Idle,
       handlers := if ok then s.handlers[call.channel := call.handler] else s.handlers,
       log := s.log.(answers := s.log.answers + [Answer(call, ok)]))
  }

  predicate CallerEnabled(s: State) {
    match s.caller
    case Asleep(_, _) => false
    case Joining => s.joinable ==> s.listener.Ended?
    case Disconnected => false
    case _ => true
  }

  function CallerStep(s: State, request: Request, c: Chance): State
    requires CallerEnabled(s)
  {
    match s.caller
    case Idle => s.(caller := if request.OnChange? then Creating(request.call) else Stopping)
    case Creating(call) => if c.ok then s.(caller := Starting(call)) else Answered(s, call, false)
    case Starting(call) => s.(caller := if s.joinable then Queueing(call) else Connecting(call))
    case Connecting(call) =>
      if c.ok then s.(caller := Spawning(call), open := true) else Answered(s, call, false)
    case Spawning(call) =>
      if c.ok then s.(caller := Queueing(call), joinable := true, listener := LoopTop)
      else s.(caller := Abandoning(call))
    case Abandoning(call) => Answered(s.(open := false), call, false)
    case Queueing(call) =>
      s.(caller := Asleep(call, |s.log.listens|), slot := s.slot.(pending := Some(call.channel), done := false))
    case Awake(call, mark) =>
      if s.slot.done then Answered(s, call, s.slot.result) else s.(caller := Asleep(call, mark))
    case Stopping => s.(caller := Joining, stop := true)
    case Joining => s.(caller := if s.open then Closing else Disconnected, joinable := false)
    case Closing => s.(caller := Disconnected, open := false)
  }

  function Wake(c: Caller): Caller {
    if c.Asleep? then Awake(c.call, c.mark) else c
  }

  predicate ListenerEnabled(s: State) {
    !s.listener.NotStarted? && !s.listener.Ended?
  }

  function ListenerStep(s: State, c: Chance): State
    requires ListenerEnabled(s)
  {
    match s.listener
    case LoopTop => s.(listener := if s.stop then Ended else ReadPending)
    case ReadPending =>
      s.(listener := if s.slot.pending.Some? then Listening(s.slot.pending.value) else GetSocket)
    case Listening(channel) =>
      s.(listener := Reporting(channel, c.ok), log := s.log.(listens := s.log.listens + [Listened(channel, c.ok)]))
    case Reporting(_, ok) => s.(listener := GetSocket, slot := Slot(None, true, ok), caller := Wake(s.caller))
    case GetSocket => s.(listener := Polling)
    case Polling => s.(listener := if !c.ok then Ended else if c.ready then Consuming else LoopTop)
    case Consuming => s.(listener := if c.ok then Notifies else Ended)
    case Notifies => s.(listener := if c.notify.Some? then Dispatch(c.notify.value) else LoopTop)
    case Dispatch(channel) =>
      var handler := if channel in s.handlers then Some(s.handlers[channel]) else None;
      s.(listener := Notifies, log := s.log.(routed := s.log.routed + [Routed(channel, handler)]))
  }

  predicate Enabled(s: State, a: Action) {
    match a
    case CallerActs(_, _) => CallerEnabled(s)
    case ListenerActs(_) => ListenerEnabled(s)
    case Spurious => s.caller.Asleep?
  }

  function Apply(s: State, a: Action): State
    requires Enabled(s, a)
  {
    match a
    case CallerActs(request, c) => CallerStep(s, request, c)
    case ListenerActs(c) => ListenerStep(s, c)
    case Spurious => s.(caller := Wake(s.caller))
  }

  ghost predicate Leads(s: State, actions: seq<Action>, t: State)
    decreases |actions|
  {
    if actions == [] then s == t else Enabled(s, actions[0]) && Leads(Apply(s, actions[0]), actions[1..], t)
  }

  ghost predicate Reachable(s: State) {
    exists actions :: Leads(START, actions, s)
  }

  // ------------------------------------------------------------------ the invariants

  predicate CallerInLibpq(s: State) {
    s.caller.Abandoning? || s.caller.Closing?
  }

  predicate ListenerInLibpq(s: State) {
    s.listener.Listening? || s.listener.GetSocket? || s.listener.Consuming? || s.listener.Notifies?
  }

  predicate Alive(s: State) {
    ListenerEnabled(s)
  }

  /** The connection is there whenever the listener is, and goes only when the listener has gone. */
  predicate Owned(s: State) {
    && (Alive(s) ==> s.joinable && s.open)
    && (s.joinable ==> !s.listener.NotStarted?)
    && (s.caller.Connecting? || s.caller.Spawning? || s.caller.Abandoning? ==> !s.joinable && s.listener.NotStarted?)
    && (s.caller.Spawning? || s.caller.Abandoning? || s.caller.Closing? ==> s.open)
    && (s.caller.Closing? || s.caller.Disconnected? ==> !s.joinable)
    && (!s.joinable && s.listener.Ended? ==> s.caller.Closing? || s.caller.Disconnected?)
    && (s.caller.Queueing? || s.caller.Asleep? || s.caller.Awake? ==> s.joinable)
    && (s.stop ==> s.caller.Joining? || s.caller.Closing? || s.caller.Disconnected?)
  }

  predicate Waiting(s: State) {
    s.caller.Asleep? || s.caller.Awake?
  }

  /** The listener works on, or has answered, exactly what the caller waits for. */
  predicate Handoff(s: State) {
    var n := |s.log.listens|;
    if Waiting(s) then
      var ch, mark := s.caller.call.channel, s.caller.mark;
      if s.slot.done then
        && s.caller.Awake? && s.slot.pending.None? && n == mark + 1
        && s.log.listens[mark] == Listened(ch, s.slot.result)
        && !s.listener.Listening? && !s.listener.Reporting?
      else
        && s.slot.pending == Some(ch)
        && (s.listener.Listening? ==> s.listener.channel == ch)
        && (s.listener.Reporting? ==> n == mark + 1 && s.log.listens[mark] == Listened(s.listener.channel, s.listener.ok)
                                      && s.listener.channel == ch)
        && (!s.listener.Reporting? ==> n == mark)
    else s.slot.pending.None? && !s.listener.Listening? && !s.listener.Reporting?
  }

  /** The handler of every channel, by the calls answered so far: the latest successful one. */
  function Newest(answers: seq<Answer>): map<string, nat> {
    if answers == [] then map[]
    else
      var before, a := Newest(answers[..|answers| - 1]), answers[|answers| - 1];
      if a.ok then before[a.call.channel := a.call.handler] else before
  }

  predicate Current(s: State) {
    s.handlers == Newest(s.log.answers)
  }

  predicate Inv(s: State) {
    Owned(s) && Handoff(s) && Current(s)
  }

  lemma {:induction false} OwnedKept(s: State, a: Action)
    requires Owned(s) && Enabled(s, a)
    ensures Owned(Apply(s, a))
  {
  }

  lemma {:induction false} HandoffKept(s: State, a: Action)
    requires Owned(s) && Handoff(s) && Enabled(s, a)
    ensures Handoff(Apply(s, a))
  {
  }

  lemma {:induction false} CurrentKept(s: State, a: Action)
    requires Current(s) && Enabled(s, a)
    ensures Current(Apply(s, a))
  {
    if a.CallerActs? {
      CallerKeepsCurrent(s, a.request, a.chance);
    }
  }

  lemma {:induction false} CallerKeepsCurrent(s: State, request: Request, c: Chance)
    requires Current(s) && CallerEnabled(s)
    ensures Current(CallerStep(s, request, c))
  {
    if s.caller.Creating? || s.caller.Connecting? {
      AnsweredCurrent(s, s.caller.call, false);
    } else if s.caller.Abandoning? {
      AnsweredCurrent(s.(open := false), s.caller.call, false);
    } else if s.caller.Awake? {
      AnsweredCurrent(s, s.caller.call, s.slot.result);
    }
  }

  lemma {:induction false} AnsweredCurrent(s: State, call: Call, ok: bool)
    requires Current(s)
    ensures Current(Answered(s, call, ok))
  {
    assert (s.log.answers + [Answer(call, ok)])[..|s.log.answers|] == s.log.answers;
  }

  lemma {:induction false} InvAlong(s: State, actions: seq<Action>, t: State)
    requires Inv(s) && Leads(s, actions, t)
    ensures Inv(t)
    decreases |actions|
  {
    if actions != [] {
      OwnedKept(s, actions[0]);
      HandoffKept(s, actions[0]);
      CurrentKept(s, actions[0]);
      InvAlong(Apply(s, actions[0]), actions[1..], t);
    }
  }

  lemma {:induction false} Always(s: State)
    requires Reachable(s)
    ensures Inv(s)
  {
    var actions :| Leads(START, actions, s);
    InvAlong(START, actions, s);
  }

  // -------------------------------------------------------------------- the theorems

  /** At most one thread is in a libpq call on the connection, and only while it is open. */
  lemma {:induction false} OneThreadInLibpq(s: State)
    requires Reachable(s)
    ensures !(CallerInLibpq(s) && ListenerInLibpq(s))
    ensures CallerInLibpq(s) || ListenerInLibpq(s) ==> s.open
  {
    Always(s);
  }

  /** The connection is closed only when no listener runs any more. */
  lemma {:induction false} ClosedAfterTheListener(s: State, a: Action)
    requires Reachable(s) && Enabled(s, a) && s.open && !Apply(s, a).open
    ensures s.listener.Ended? || s.listener.NotStarted?
  {
    Always(s);
  }

  /** on_change() succeeds only if LISTEN for its channel succeeded after it was queued. */
  lemma {:induction false} SuccessMeansListening(s: State, a: Action)
    requires Reachable(s) && Enabled(s, a)
    requires |Apply(s, a).log.answers| > |s.log.answers| && Apply(s, a).log.answers[|s.log.answers|].ok
    ensures s.caller.Awake? && |s.log.listens| == s.caller.mark + 1
    ensures s.log.listens[s.caller.mark] == Listened(s.caller.call.channel, true)
    ensures var t, ch := Apply(s, a), s.caller.call.channel;
            ch in t.handlers && t.handlers[ch] == s.caller.call.handler
  {
    Always(s);
  }

  /**
  Once its LISTEN has been run, on_change() answers exactly what came of it; before that it
  answers only because the trigger, the connection or the thread could not be made.
  */
  lemma {:induction false} AnswerIsTheListen(s: State, a: Action)
    requires Reachable(s) && Enabled(s, a) && |Apply(s, a).log.answers| > |s.log.answers|
    ensures var answer := Apply(s, a).log.answers[|s.log.answers|];
            && a.CallerActs? && Apply(s, a).caller.Idle?
            && if s.caller.Awake? then
                 && answer.call == s.caller.call && |s.log.listens| == s.caller.mark + 1
                 && s.log.listens[s.caller.mark] == Listened(answer.call.channel, answer.ok)
               else !answer.ok && (s.caller.Creating? || s.caller.Connecting? || s.caller.Abandoning?)
    ensures Apply(s, a).log.answers == s.log.answers + [Apply(s, a).log.answers[|s.log.answers|]]
  {
    Always(s);
  }

  /** A caller that is awake and has its LISTEN run answers at its next step. */
  lemma {:induction false} AnsweredAtOnce(s: State, request: Request, c: Chance)
    requires Reachable(s) && s.caller.Awake? && s.slot.done
    ensures s.log.listens != []
    ensures var t := CallerStep(s, request, c);
            t.log.answers == s.log.answers + [Answer(s.caller.call, s.log.listens[|s.log.listens| - 1].ok)]
  {
    Always(s);
  }

  /** A notification goes to the handler of the latest successful on_change() for its channel. */
  lemma {:induction false} RoutedToTheNewest(s: State, c: Chance)
    requires Reachable(s) && s.listener.Dispatch?
    ensures var t := ListenerStep(s, c); var newest := Newest(s.log.answers); var ch := s.listener.channel;
            t.log.routed == s.log.routed + [Routed(ch, if ch in newest then Some(newest[ch]) else None)]
  {
    Always(s);
  }

  /** The notifications that the library handed out in a run. */
  function HandedOut(s: State, actions: seq<Action>): seq<string>
    decreases |actions|
  {
    if actions == [] || !Enabled(s, actions[0]) then []
    else
      var a := actions[0];
      (if a.ListenerActs? && s.listener.Notifies? && a.chance.notify.Some? then [a.chance.notify.value] else [])
      + HandedOut(Apply(s, a), actions[1..])
  }

  function Channels(routed: seq<Routed>): seq<string> {
    if routed == [] then [] else Channels(routed[..|routed| - 1]) + [routed[|routed| - 1].channel]
  }

  /** The channels routed, and the one in the listener's hands. */
  function Delivered(s: State): seq<string> {
    Channels(s.log.routed) + if s.listener.Dispatch? then [s.listener.channel] else []
  }

  lemma {:induction false} StepDelivers(s: State, a: Action)
    requires Owned(s) && Enabled(s, a)
    ensures Delivered(Apply(s, a)) == Delivered(s) + HandedOut(s, [a])
  {
    assert [a][1..] == [];
    if a.ListenerActs? && s.listener.Dispatch? {
      var t := Apply(s, a);
      assert t.log.routed[..|s.log.routed|] == s.log.routed;
      assert Channels(t.log.routed) == Channels(s.log.routed) + [s.listener.channel];
    } else {
      RoutedKept(s, a);
    }
  }

  lemma {:induction false} RoutedKept(s: State, a: Action)
    requires Owned(s) && Enabled(s, a) && !(a.ListenerActs? && s.listener.Dispatch?)
    ensures var t := Apply(s, a);
            && t.log.routed == s.log.routed
            && (t.listener.Dispatch? <==>
                  s.listener.Dispatch? || (a.ListenerActs? && s.listener.Notifies? && a.chance.notify.Some?))
            && (s.listener.Dispatch? ==> t.listener == s.listener)
            && (a.ListenerActs? && s.listener.Notifies? && a.chance.notify.Some? ==>
                  t.listener == Dispatch(a.chance.notify.value))
  {
  }

  /** No notification is lost, invented or put out of order, whatever the threads do in between. */
  lemma {:induction false} EveryNotificationIsRouted(actions: seq<Action>, t: State)
    requires Leads(START, actions, t)
    ensures Delivered(t) == HandedOut(START, actions)
  {
    DeliversAlong(START, actions, t);
    assert Delivered(START) == [];
  }

  lemma {:induction false} DeliversAlong(s: State, actions: seq<Action>, t: State)
    requires Owned(s) && Leads(s, actions, t)
    ensures Delivered(t) == Delivered(s) + HandedOut(s, actions)
    decreases |actions|
  {
    if actions != [] {
      var a := actions[0];
      StepDelivers(s, a);
      OwnedKept(s, a);
      DeliversAlong(Apply(s, a), actions[1..], t);
      assert [a][1..] == [] && HandedOut(s, [a]) + HandedOut(Apply(s, a), actions[1..]) == HandedOut(s, actions);
    }
  }

  /** A socket that becomes readable is read, and the library asked for notifications, in the listener's next two steps. */
  lemma {:induction false} ReadableIsRead(s: State, c: Chance, d: Chance)
    requires s.listener.Polling? && c.ok && c.ready && d.ok
    ensures var t := ListenerStep(s, c); ListenerEnabled(t) && ListenerInLibpq(t) && ListenerStep(t, d) == s.(listener := Notifies)
  {
  }

  /** No wakeup is lost: a caller that sleeps has not been answered. */
  lemma {:induction false} SleeperIsUnanswered(s: State)
    requires Reachable(s) && s.caller.Asleep?
    ensures !s.slot.done && s.slot.pending == Some(s.caller.call.channel)
  {
    Always(s);
  }

  // ----------------------------------------------------- when a waiting caller is answered

  /** The caller waits and the listener is gone. */
  predicate Stuck(s: State) {
    Waiting(s) && !s.slot.done && s.listener.Ended?
  }

  lemma {:induction false} StuckForever(s: State, actions: seq<Action>, t: State)
    requires Stuck(s) && Leads(s, actions, t)
    ensures Stuck(t)
    decreases |actions|
  {
    if actions != [] {
      StuckForever(Apply(s, actions[0]), actions[1..], t);
    }
  }

  /** How many steps of the listener an answer is away, if nothing else comes between. */
  function Distance(l: Listener): nat {
    match l
    case Reporting(_, _) => 0
    case Listening(_) => 1
    case ReadPending => 2
    case LoopTop => 3
    case Polling => 4
    case GetSocket => 5
    case Notifies => 4
    case Consuming => 5
    case Dispatch(_) => 5
    case _ => 6
  }

  const QUIET := Chance(true, false, None)

  lemma {:induction false} GetsAnswered(s: State) returns (actions: seq<Action>, t: State)
    requires Inv(s) && Waiting(s) && !s.slot.done && Alive(s)
    ensures Leads(s, actions, t) && Waiting(t) && t.caller.call == s.caller.call && t.slot.done
    decreases Distance(s.listener)
  {
    var a := ListenerActs(QUIET);
    var n := Apply(s, a);
    if s.listener.Reporting? {
      t := n;
      actions := [a];
      assert actions[1..] == [];
    } else {
      OwnedKept(s, a);
      HandoffKept(s, a);
      CurrentKept(s, a);
      var rest;
      rest, t := GetsAnswered(n);
      actions := [a] + rest;
      assert actions[1..] == rest;
    }
  }

  /** Along these steps the call that waits in `s` gets its answer. */
  ghost predicate AnsweredBy(s: State, actions: seq<Action>, t: State)
    requires Waiting(s)
  {
    Leads(s, actions, t) && Waiting(t) && t.caller.call == s.caller.call && t.slot.done
  }

  /** A caller that waits unanswered can still be answered exactly if the listener has not ended. */
  lemma {:induction false} AnswerableIffListenerLives(s: State)
    requires Reachable(s) && Waiting(s) && !s.slot.done
    ensures (exists actions, t :: AnsweredBy(s, actions, t)) <==> !s.listener.Ended?
  {
    Always(s);
    if s.listener.Ended? {
      forall actions, t | Leads(s, actions, t)
        ensures Stuck(t)
      {
        StuckForever(s, actions, t);
      }
    } else {
      var actions, t := GetsAnswered(s);
      assert AnsweredBy(s, actions, t);
    }
  }

  // ---------------------------------------------------------- the listener that gave up

  lemma {:induction false} LeadsOn(s: State, actions: seq<Action>, t: State, a: Action)
    requires Leads(s, actions, t) && Enabled(t, a)
    ensures Leads(s, actions + [a], Apply(t, a))
    decreases |actions|
  {
    if actions == [] {
      assert (actions + [a])[1..] == [];
    } else {
      LeadsOn(Apply(s, actions[0]), actions[1..], t, a);
      assert (actions + [a])[1..] == actions[1..] + [a];
    }
  }

  lemma {:induction false} Next(s: State, a: Action) returns (t: State)
    requires Reachable(s) && Enabled(s, a)
    ensures Reachable(t) && t == Apply(s, a)
  {
    var actions :| Leads(START, actions, s);
    LeadsOn(START, actions, s, a);
    t := Apply(s, a);
  }

  /** After poll() has failed once, a second on_change() finds the thread joinable and waits for ever. */
  lemma {:induction false} SecondCallHangs(first: Call, second: Call) returns (s: State)
    ensures Reachable(s) && Stuck(s) && s.caller.Asleep? && s.caller.call == second
    ensures forall actions, t | Leads(s, actions, t) :: Stuck(t)
  {
    var go := CallerActs(OnChange(first), QUIET);
    var listen := ListenerActs(QUIET);
    assert Leads(START, [], START);
    s := Next(START, go); // Creating
    s := Next(s, go); // Starting
    s := Next(s, go); // Connecting
    s := Next(s, go); // Spawning
    s := Next(s, go); // Queueing
    s := Next(s, go); // Asleep
    s := Next(s, listen); // ReadPending
    s := Next(s, listen); // Listening
    s := Next(s, listen); // Reporting
    s := Next(s, listen); // GetSocket, the caller is awake
    s := Next(s, listen); // Polling
    s := Next(s, ListenerActs(Chance(false, false, None))); // Ended
    s := Next(s, go); // answered
    s := SecondCall(s, second);
    forall actions, t | Leads(s, actions, t)
      ensures Stuck(t)
    {
      StuckForever(s, actions, t);
    }
  }

  lemma {:induction false} SecondCall(s: State, call: Call) returns (t: State)
    requires Reachable(s) && s.caller.Idle? && s.joinable && s.listener.Ended?
    ensures Reachable(t) && Stuck(t) && t.caller.Asleep? && t.caller.call == call
  {
    var go := CallerActs(OnChange(call), QUIET);
    t := Next(s, go); // Creating
    t := Next(t, go); // Starting
    t := Next(t, go); // Queueing
    t := Next(t, go); // Asleep
  }
}
