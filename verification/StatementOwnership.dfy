/**
Prepared statements of the PostgreSQL runtime: every query object draws a name of
its own, the server keeps the statement under that name, and whichever object still
has its prepared flag sends the DEALLOCATE. A world is all objects and one connection
together. The connection is always inside a transaction; once anything in it has
failed, the server refuses everything until the transaction ends.
*/
module StatementOwnership {
  import opened Wrappers

  /**
  `number` is the one in "dbgen4_<number>"; a moved-from object has neither name nor
  connection. `layout` counts the resizes of the buffers, `bound` is its value at the
  last successful prepare().
  */
  datatype Query = Query(number: Option<nat>, prepared: bool, connected: bool, layout: nat, bound: nat)

  /** What was done on the connection: a PREPARE that was accepted, a DEALLOCATE, a DEALLOCATE ALL. */
  datatype Note =
    | Prepared(number: nat)
    | Sent(number: nat, done: bool)
    | All(done: bool)

  datatype World = World(
    queries: map<nat, Query>, // the live objects, by address
    counter: nat, // next_stmt_id()
    server: set<nat>, // statements the server has
    aborted: bool, // the open transaction has failed
    notes: seq<Note>)

  const START := World(map[], 0, {}, false, [])

  /** `granted` is the server's own word where it has a choice. */
  datatype Op =
    | Construct(at: nat)
    | Prepare(at: nat, granted: bool)
    | Resize(at: nat)
    | Move(from: nat, to: nat)
    | Destroy(at: nat, granted: bool)
    | Describe(granted: bool) // get_sql_metadata(): DEALLOCATE ALL
    | Fail // any statement that fails
    | EndTransaction // COMMIT or ROLLBACK

  predicate Allowed(w: World, op: Op) {
    match op
    case Construct(at) => at !in w.queries
    case Prepare(at, _) => at in w.queries && w.queries[at].connected && w.queries[at].number.Some?
    case Resize(at) => at in w.queries && w.queries[at].connected
    case Move(from, to) => from in w.queries && to !in w.queries
    case Destroy(at, _) => at in w.queries
    case Describe(_) => true
    case Fail => true
    case EndTransaction => true
  }

  predicate AcceptsPrepare(w: World, n: nat, granted: bool) {
    granted && !w.aborted && n !in w.server
  }

  predicate AcceptsDeallocate(w: World, n: nat, granted: bool) {
    granted && !w.aborted && n in w.server
  }

  /** The destructor sends DEALLOCATE. */
  predicate Sends(q: Query) {
    q.prepared && q.connected && q.number.Some?
  }

  function Without(w: World, at: nat): World {
    w.(queries := map a | a in w.queries && a != at :: w.queries[a])
  }

  function DoPrepare(w: World, at: nat, granted: bool): World
    requires at in w.queries && w.queries[at].number.Some?
  {
    var q := w.queries[at];
    var n := q.number.value;
    if AcceptsPrepare(w, n, granted) then
      w.(queries := w.queries[at := q.(prepared := true, bound := q.layout)],
         server := w.server + {n}, notes := w.notes + [Prepared(n)])
    else w.(aborted := true)
  }

  function DoDestroy(w: World, at: nat, granted: bool): World
    requires at in w.queries
  {
    var q := w.queries[at];
    if !Sends(q) then Without(w, at)
    else
      var n := q.number.value;
      var done := AcceptsDeallocate(w, n, granted);
      Without(w, at).(server := if done then w.server - {n} else w.server,
                      aborted := !done, notes := w.notes + [Sent(n, done)])
  }

  function Do(w: World, op: Op): World
    requires Allowed(w, op)
  {
    match op
    case Construct(at) =>
      w.(queries := w.queries[at := Query(Some(w.counter), false, true, 1, 0)], counter := w.counter + 1)
    case Prepare(at, granted) => DoPrepare(w, at, granted)
    case Resize(at) => w.(queries := w.queries[at := w.queries[at].(layout := w.queries[at].layout + 1)])
    case Move(from, to) => w.(queries := w.queries[to := w.queries[from]][from := Query(None, false, false, 0, 0)])
    case Destroy(at, granted) => DoDestroy(w, at, granted)
    case Describe(granted) =>
      var done := granted && !w.aborted;
      w.(server := if done then {} else w.server, aborted := !done, notes := w.notes + [All(done)])
    case Fail => w.(aborted := true)
    case EndTransaction => w.(aborted := false)
  }

  ghost predicate Leads(w: World, ops: seq<Op>, v: World)
    decreases |ops|
  {
    if ops == [] then w == v else Allowed(w, ops[0]) && Leads(Do(w, ops[0]), ops[1..], v)
  }

  ghost predicate Reachable(w: World) {
    exists ops :: Leads(START, ops, w)
  }

  // -------------------------------------------------------------- what the notes say

  predicate WasPrepared(notes: seq<Note>, n: nat) {
    Prepared(n) in notes
  }

  /** A DEALLOCATE of `n` was sent, with this outcome. */
  predicate WasSent(notes: seq<Note>, n: nat, done: bool) {
    Sent(n, done) in notes
  }

  /** A DEALLOCATE ALL was carried out after `n` was last prepared. */
  predicate Wiped(notes: seq<Note>, n: nat) {
    if notes == [] then false
    else
      var last := notes[|notes| - 1];
      last == All(true) || (last != Prepared(n) && Wiped(notes[..|notes| - 1], n))
  }

  lemma {:induction false} NotesGrow(notes: seq<Note>, note: Note, n: nat)
    ensures WasPrepared(notes + [note], n) <==> WasPrepared(notes, n) || note == Prepared(n)
    ensures forall done :: WasSent(notes + [note], n, done) <==> WasSent(notes, n, done) || note == Sent(n, done)
    ensures Wiped(notes + [note], n) <==> note == All(true) || (note != Prepared(n) && Wiped(notes, n))
  {
    assert (notes + [note])[..|notes|] == notes;
  }

  // ------------------------------------------------------------------ the invariant

  predicate Owns(w: World, at: nat, n: nat) {
    at in w.queries && w.queries[at].prepared && w.queries[at].number == Some(n)
  }

  ghost predicate Owned(w: World, n: nat) {
    exists a | a in w.queries :: Owns(w, a, n)
  }

  /** No two objects have the same name, and every name was drawn from the counter. */
  predicate NamesDiffer(w: World) {
    && (forall a, b | a in w.queries && b in w.queries && a != b ::
          w.queries[a].number.Some? ==> w.queries[a].number != w.queries[b].number)
    && (forall a | a in w.queries && w.queries[a].number.Some? :: w.queries[a].number.value < w.counter)
    && (forall a | a in w.queries && w.queries[a].prepared ::
          Sends(w.queries[a]) && w.queries[a].bound <= w.queries[a].layout)
  }

  /** An object that has named a statement to the server is the only one that can name it again. */
  predicate NameIsFree(w: World, n: nat) {
    forall a | a in w.queries :: w.queries[a].number != Some(n)
  }

  /** The life of one statement name, told by the notes and by the objects. */
  ghost predicate Accounted(w: World, n: nat) {
    var prepared, refused, carried := WasPrepared(w.notes, n), WasSent(w.notes, n, false), WasSent(w.notes, n, true);
    && (prepared ==> n < w.counter)
    && (Owned(w, n) <==> prepared && !refused && !carried)
    && (refused || carried ==> prepared && NameIsFree(w, n))
    && !(refused && carried)
    && (n in w.server <==> prepared && !carried && !Wiped(w.notes, n))
    && SentOnce(w.notes, n)
  }

  predicate SentOnce(notes: seq<Note>, n: nat) {
    forall i, j | 0 <= i < j < |notes| && notes[i].Sent? && notes[j].Sent? && notes[i].number == n :: notes[j].number != n
  }

  ghost predicate Inv(w: World) {
    NamesDiffer(w) && forall n :: Accounted(w, n)
  }

  lemma {:induction false} NamesDifferKept(w: World, op: Op)
    requires NamesDiffer(w) && Allowed(w, op)
    ensures NamesDiffer(Do(w, op))
  {
  }

  /** Operations that neither name a statement nor drop one. */
  lemma {:induction false} AccountedUnchanged(w: World, v: World, n: nat)
    requires Accounted(w, n) && v.notes == w.notes && v.server == w.server && w.counter <= v.counter
    requires Owned(v, n) <==> Owned(w, n)
    requires n < w.counter && NameIsFree(w, n) ==> NameIsFree(v, n)
    ensures Accounted(v, n)
  {
  }

  lemma {:induction false} AccountedConstruct(w: World, at: nat, n: nat)
    requires NamesDiffer(w) && Accounted(w, n) && Allowed(w, Construct(at))
    ensures Accounted(Do(w, Construct(at)), n)
  {
    var v := Do(w, Construct(at));
    assert forall a :: Owns(v, a, n) <==> Owns(w, a, n);
    AccountedUnchanged(w, v, n);
  }

  lemma {:induction false} AccountedResize(w: World, at: nat, n: nat)
    requires Accounted(w, n) && Allowed(w, Resize(at))
    ensures Accounted(Do(w, Resize(at)), n)
  {
    var v := Do(w, Resize(at));
    assert forall a :: Owns(v, a, n) <==> Owns(w, a, n);
    AccountedUnchanged(w, v, n);
  }

  lemma {:induction false} AccountedMove(w: World, from: nat, to: nat, n: nat)
    requires NamesDiffer(w) && Accounted(w, n) && Allowed(w, Move(from, to))
    ensures Accounted(Do(w, Move(from, to)), n)
  {
    var v := Do(w, Move(from, to));
    if Owned(w, n) {
      var a :| a in w.queries && Owns(w, a, n);
      assert Owns(v, if a == from then to else a, n);
    }
    if Owned(v, n) {
      var a :| a in v.queries && Owns(v, a, n);
      assert Owns(w, if a == to then from else a, n);
    }
    AccountedUnchanged(w, v, n);
  }

  lemma {:induction false} AccountedPrepare(w: World, at: nat, granted: bool, n: nat)
    requires NamesDiffer(w) && Accounted(w, n) && Allowed(w, Prepare(at, granted))
    ensures Accounted(Do(w, Prepare(at, granted)), n)
  {
    var v := Do(w, Prepare(at, granted));
    var m := w.queries[at].number.value;
    if AcceptsPrepare(w, m, granted) {
      NotesGrow(w.notes, Prepared(m), n);
      assert forall a | a in w.queries && a != at :: Owns(v, a, n) <==> Owns(w, a, n);
      assert Owns(v, at, m);
      if n != m {
        assert forall a | a in w.queries :: Owns(v, a, n) <==> Owns(w, a, n);
      }
    } else {
      assert forall a :: Owns(v, a, n) <==> Owns(w, a, n);
    }
  }

  lemma {:induction false} AccountedDestroy(w: World, at: nat, granted: bool, n: nat)
    requires NamesDiffer(w) && Accounted(w, n) && Allowed(w, Destroy(at, granted))
    ensures Accounted(Do(w, Destroy(at, granted)), n)
  {
    var v := Do(w, Destroy(at, granted));
    var q := w.queries[at];
    if Sends(q) {
      NotesGrow(w.notes, Sent(q.number.value, AcceptsDeallocate(w, q.number.value, granted)), n);
    }
    if q.number == Some(n) {
      AccountedDestroyed(w, at, granted, n);
    } else {
      assert forall a :: Owns(v, a, n) <==> Owns(w, a, n);
    }
  }

  lemma {:induction false} AccountedDestroyed(w: World, at: nat, granted: bool, n: nat)
    requires NamesDiffer(w) && Accounted(w, n) && Allowed(w, Destroy(at, granted)) && w.queries[at].number == Some(n)
    ensures Accounted(Do(w, Destroy(at, granted)), n)
  {
    var v := Do(w, Destroy(at, granted));
    assert forall a | a in v.queries :: v.queries[a] == w.queries[a] && v.queries[a].number != Some(n);
    if Sends(w.queries[at]) {
      NotesGrow(w.notes, Sent(n, AcceptsDeallocate(w, n, granted)), n);
      assert Owns(w, at, n);
    }
  }

  lemma {:induction false} AccountedDescribe(w: World, granted: bool, n: nat)
    requires Accounted(w, n)
    ensures Accounted(Do(w, Describe(granted)), n)
  {
    var v := Do(w, Describe(granted));
    NotesGrow(w.notes, All(granted && !w.aborted), n);
    assert forall a :: Owns(v, a, n) <==> Owns(w, a, n);
  }

  lemma {:induction false} AccountedKept(w: World, op: Op, n: nat)
    requires NamesDiffer(w) && Accounted(w, n) && Allowed(w, op)
    ensures Accounted(Do(w, op), n)
  {
    match op
    case Construct(at) => AccountedConstruct(w, at, n);
    case Prepare(at, granted) => AccountedPrepare(w, at, granted, n);
    case Resize(at) => AccountedResize(w, at, n);
    case Move(from, to) => AccountedMove(w, from, to, n);
    case Destroy(at, granted) => AccountedDestroy(w, at, granted, n);
    case Describe(granted) => AccountedDescribe(w, granted, n);
    case _ =>
      assert forall a :: Owns(Do(w, op), a, n) <==> Owns(w, a, n);
      AccountedUnchanged(w, Do(w, op), n);
  }

  lemma {:induction false} InvAlong(w: World, ops: seq<Op>, v: World)
    requires Inv(w) && Leads(w, ops, v)
    ensures Inv(v)
    decreases |ops|
  {
    if ops != [] {
      var next := Do(w, ops[0]);
      NamesDifferKept(w, ops[0]);
      forall n
        ensures Accounted(next, n)
      {
        AccountedKept(w, ops[0], n);
      }
      InvAlong(next, ops[1..], v);
    }
  }

  lemma {:induction false} Always(w: World)
    requires Reachable(w)
    ensures Inv(w)
  {
    var ops :| Leads(START, ops, w);
    InvAlong(START, ops, w);
  }

  // -------------------------------------------------------------------- the theorems

  /** No two live objects own the same statement, whatever the server did. */
  lemma {:induction false} OneOwner(w: World, n: nat)
    requires Reachable(w)
    ensures forall a, b | Owns(w, a, n) && Owns(w, b, n) :: a == b
  {
    Always(w);
  }

  /**
  A statement that was prepared has either a live owner and no DEALLOCATE, or none and
  exactly one DEALLOCATE; nothing else is ever deallocated by name.
  */
  lemma {:induction false} SentExactlyOnce(w: World, n: nat)
    requires Reachable(w)
    ensures var sent := WasSent(w.notes, n, true) || WasSent(w.notes, n, false);
            && (WasPrepared(w.notes, n) ==> (Owned(w, n) <==> !sent))
            && (sent ==> WasPrepared(w.notes, n))
    ensures SentOnce(w.notes, n)
  {
    Always(w);
    assert Accounted(w, n);
  }

  /** It is the owner's destructor that sends it. */
  lemma {:induction false} SentByTheOwner(w: World, op: Op, n: nat, done: bool)
    requires Reachable(w) && Allowed(w, op) && !WasSent(w.notes, n, done) && WasSent(Do(w, op).notes, n, done)
    ensures op.Destroy? && Owns(w, op.at, n)
  {
    Always(w);
  }

  /**
  The DEALLOCATE of a destructor is refused if and only if the transaction has failed,
  or a DEALLOCATE ALL came after the statement was prepared, or the server refuses it of
  its own accord; and a refusal leaves the transaction failed.
  */
  lemma {:induction false} DeallocateRefusedIff(w: World, at: nat, granted: bool, n: nat)
    requires Reachable(w) && Owns(w, at, n)
    ensures var v := Do(w, Destroy(at, granted));
            && (WasSent(v.notes, n, false) <==> w.aborted || Wiped(w.notes, n) || !granted)
            && (WasSent(v.notes, n, false) ==> v.aborted)
  {
    Always(w);
    assert Accounted(w, n);
    NotesGrow(w.notes, Sent(n, AcceptsDeallocate(w, n, granted)), n);
  }

  /**
  A statement stays on the server without an owner if and only if its DEALLOCATE was
  refused and no DEALLOCATE ALL was carried out since it was prepared.
  */
  lemma {:induction false} LeftBehindIff(w: World, n: nat)
    requires Reachable(w)
    ensures n in w.server && !Owned(w, n) <==> WasSent(w.notes, n, false) && !Wiped(w.notes, n)
  {
    Always(w);
    assert Accounted(w, n);
  }

  /** When all objects are gone the server has exactly the statements whose DEALLOCATE failed for good. */
  lemma {:induction false} WhatIsLeftAtTheEnd(w: World)
    requires Reachable(w) && w.queries == map[]
    ensures w.server == {} <==> forall n :: WasSent(w.notes, n, false) ==> Wiped(w.notes, n)
  {
    Always(w);
    forall n
      ensures n in w.server <==> WasSent(w.notes, n, false) && !Wiped(w.notes, n)
    {
      assert !Owned(w, n);
      LeftBehindIff(w, n);
    }
  }

  /**
  A second prepare() of the same object is accepted only after a DEALLOCATE ALL has taken
  its statement; otherwise the name is taken, and the refusal fails the transaction.
  */
  lemma {:induction false} SecondPrepareIff(w: World, at: nat, granted: bool, n: nat)
    requires Reachable(w) && Owns(w, at, n) && Allowed(w, Prepare(at, granted))
    ensures AcceptsPrepare(w, n, granted) <==> granted && !w.aborted && Wiped(w.notes, n)
    ensures !AcceptsPrepare(w, n, granted) ==> Do(w, Prepare(at, granted)) == w.(aborted := true)
  {
    Always(w);
    assert Accounted(w, n);
  }

  /** Moving passes the statement on: the target owns what the source owned, the source nothing. */
  lemma {:induction false} MovePassesOwnership(w: World, from: nat, to: nat, n: nat)
    requires Reachable(w) && Allowed(w, Move(from, to))
    ensures var v := Do(w, Move(from, to));
            (Owns(v, to, n) <==> Owns(w, from, n)) && !Owns(v, from, n) && v.server == w.server
  {
  }

  // ------------------------------------------------------------ resized after prepare()

  /** execute() and fetch() pass the checks of prepared_ and of the layout. */
  predicate Runs(q: Query) {
    q.prepared && q.bound == q.layout
  }

  predicate RunsAt(w: World, at: nat) {
    at in w.queries && Runs(w.queries[at])
  }

  /** A query runs from a prepare() that the server accepted until it is resized, moved away or destroyed. */
  lemma {:induction false} RunsFromPrepareToResize(w: World, op: Op, at: nat)
    requires Reachable(w) && Allowed(w, op)
    ensures RunsAt(Do(w, op), at) <==>
              if op == Resize(at) || (op.Destroy? && op.at == at) || (op.Move? && op.from == at) then false
              else if op.Move? && op.to == at then RunsAt(w, op.from)
              else RunsAt(w, at)
                   || (op.Prepare? && op.at == at && AcceptsPrepare(w, w.queries[at].number.value, op.granted))
  {
    Always(w);
  }

  ghost predicate OutOfDate(w: World, n: nat) {
    forall a | Owns(w, a, n) :: w.queries[a].bound < w.queries[a].layout
  }

  predicate Untouched(notes: seq<Note>, since: nat) {
    forall i | since <= i < |notes| :: notes[i] != All(true)
  }

  lemma {:induction false} OutOfDateKept(w: World, op: Op, n: nat)
    requires NamesDiffer(w) && Allowed(w, op) && OutOfDate(w, n) && n in w.server
    requires !(op.Describe? && op.granted && !w.aborted)
    ensures OutOfDate(Do(w, op), n)
    ensures op.Destroy? || n in Do(w, op).server
  {
    var v := Do(w, op);
    forall a | Owns(v, a, n)
      ensures v.queries[a].bound < v.queries[a].layout
    {
      var b := if op.Move? && op.to == a then op.from else a;
      assert Owns(w, b, n);
    }
  }

  /** Once destroyed, the name is never used again. */
  lemma {:induction false} FreeStaysFree(w: World, op: Op, n: nat)
    requires Allowed(w, op) && NameIsFree(w, n) && n < w.counter
    ensures NameIsFree(Do(w, op), n) && n < Do(w, op).counter
  {
  }

  lemma {:induction false} NotesOnlyGrow(w: World, ops: seq<Op>, v: World)
    requires Leads(w, ops, v)
    ensures w.notes <= v.notes
    decreases |ops|
  {
    if ops != [] {
      NotesOnlyGrow(Do(w, ops[0]), ops[1..], v);
    }
  }

  /**
  A query whose buffers were resized after prepare() never runs again, however often
  prepare() is called, unless somebody sends DEALLOCATE ALL: its own name is taken.
  */
  lemma {:induction false} ResizedNeverRunsAgain(w: World, at: nat, ops: seq<Op>, v: World, n: nat, b: nat)
    requires Reachable(w) && Owns(w, at, n) && n in w.server && Allowed(w, Resize(at))
    requires Leads(Do(w, Resize(at)), ops, v) && Untouched(v.notes, |w.notes|)
    ensures Owns(v, b, n) ==> !Runs(v.queries[b])
  {
    Always(w);
    var resized := Do(w, Resize(at));
    assert Leads(w, [Resize(at)], resized);
    InvAlong(w, [Resize(at)], resized);
    forall a | Owns(resized, a, n)
      ensures resized.queries[a].bound < resized.queries[a].layout
    {
      assert Owns(w, a, n);
    }
    StaysOutOfDate(resized, ops, v, n, b);
  }

  lemma {:induction false} StaysOutOfDate(w: World, ops: seq<Op>, v: World, n: nat, b: nat)
    requires Inv(w) && n < w.counter && Leads(w, ops, v) && Untouched(v.notes, |w.notes|)
    requires (OutOfDate(w, n) && n in w.server) || NameIsFree(w, n)
    ensures Owns(v, b, n) ==> !Runs(v.queries[b])
    decreases |ops|
  {
    if ops != [] {
      var next := Do(w, ops[0]);
      assert Leads(w, [ops[0]], next);
      InvAlong(w, [ops[0]], next);
      NotesOnlyGrow(next, ops[1..], v);
      if NameIsFree(w, n) {
        FreeStaysFree(w, ops[0], n);
      } else {
        NotDescribed(w, ops[0], v);
        OutOfDateKept(w, ops[0], n);
        StillNamedOrFree(w, ops[0], n);
      }
      StaysOutOfDate(next, ops[1..], v, n, b);
    }
  }

  lemma {:induction false} NotDescribed(w: World, op: Op, v: World)
    requires Allowed(w, op) && Do(w, op).notes <= v.notes && Untouched(v.notes, |w.notes|)
    ensures !(op.Describe? && op.granted && !w.aborted)
  {
    var notes := Do(w, op).notes;
    assert |notes| > |w.notes| ==> v.notes[|w.notes|] == notes[|w.notes|];
  }

  lemma {:induction false} StillNamedOrFree(w: World, op: Op, n: nat)
    requires NamesDiffer(w) && Allowed(w, op) && n in w.server && !(op.Describe? && op.granted && !w.aborted)
    ensures n in Do(w, op).server || NameIsFree(Do(w, op), n)
  {
  }

  // -------------------------------------------------------------------- runs

  lemma {:induction false} Next(w: World, op: Op) returns (v: World)
    requires Reachable(w) && Allowed(w, op)
    ensures Reachable(v) && v == Do(w, op)
  {
    var ops :| Leads(START, ops, w);
    LeadsOn(START, ops, w, op);
    v := Do(w, op);
  }

  lemma {:induction false} LeadsOn(w: World, ops: seq<Op>, v: World, op: Op)
    requires Leads(w, ops, v) && Allowed(v, op)
    ensures Leads(w, ops + [op], Do(v, op))
    decreases |ops|
  {
    if ops == [] {
      assert (ops + [op])[1..] == [];
    } else {
      LeadsOn(Do(w, ops[0]), ops[1..], v, op);
      assert (ops + [op])[1..] == ops[1..] + [op];
    }
  }

  lemma {:induction false} OnePrepared() returns (w: World)
    ensures Reachable(w) && Owns(w, 0, 0) && w.queries.Keys == {0} && w.server == {0} && !w.aborted
    ensures w.notes == [Prepared(0)] && Sends(w.queries[0]) && Runs(w.queries[0])
  {
    assert Leads(START, [], START);
    w := Next(START, Construct(0));
    w := Next(w, Prepare(0, true));
  }

  /** A query destroyed in a failed transaction leaves its statement on the server. */
  lemma {:induction false} LeftBehind() returns (w: World)
    ensures Reachable(w) && w.queries == map[] && w.server == {0}
  {
    w := OnePrepared();
    w := Next(w, Fail);
    w := Next(w, Destroy(0, true));
    w := Next(w, EndTransaction);
  }

  /** Describing a statement takes a live query's statement away, and its DEALLOCATE fails the transaction. */
  lemma {:induction false} TakenAway() returns (w: World)
    ensures Reachable(w) && w.queries == map[] && w.server == {} && w.aborted && WasSent(w.notes, 0, false)
  {
    w := OnePrepared();
    w := Next(w, Describe(true));
    w := Next(w, Destroy(0, true));
    assert w.notes == [Prepared(0), All(true), Sent(0, false)];
  }
}
