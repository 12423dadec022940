/**
Statement handles of the DB2 runtime and the raw addresses the ODBC driver keeps in
them: buffer columns bound by prepare(), and two counters that are members of the
query object itself. A world is all objects, all buffers and the driver together.
*/
module Db2Binding {
  import opened Wrappers
  import opened Arithmetic

  /** Columns of a buffer that were bound, and the storage they had then. */
  datatype Bound = Bound(buffer: nat, generation: nat, columns: nat)

  /**
  What the driver holds for one statement handle: columns, the status array of a batch,
  and two counters that are given as the addresses of query objects.
  */
  datatype Statement = Statement(
    par: Option<Bound>, res: Option<Bound>, status: Option<Bound>,
    paramsProcessed: Option<nat>, rowsFetched: Option<nat>)

  const UNBOUND := Statement(None, None, None, None, None)

  /** A buffer: how often its storage has moved, and how many rows it holds. */
  datatype Storage = Storage(generation: nat, rows: nat)

  /** One of the two buffers of a query: which, how many columns, and the generation at the last prepare(). */
  datatype Side = Side(buffer: nat, columns: nat, layout: nat)

  /** A side is missing if the statement has no parameters or no results, and after a move. */
  datatype Query = Query(stmt: Option<nat>, par: Option<Side>, res: Option<Side>, connected: bool, ready: bool)

  datatype World = World(
    queries: map<nat, Query>, // the live objects, by address
    buffers: seq<Storage>, // a buffer may outlive its query
    driver: map<nat, Statement>, // handles that are allocated
    handles: nat, // handles given out so far
    misused: seq<nat>) // handles freed or executed when they were not allocated

  const START := World(map[], [], map[], 0, [])

  // -------------------------------------------------------------------- operations

  /** Where prepare() fails: a column number of its parameters or results, or nowhere. */
  datatype Failure = AtAlloc | AtPrepare | AtParameter(i: nat) | AtColumn(i: nat) | Nowhere

  datatype Op =
    | Construct(at: nat, params: nat, results: nat, rows: nat)
    | Prepare(at: nat, failure: Failure)
    | Move(from: nat, to: nat)
    | Resize(buffer: nat, rows: nat)
    | Run(at: nat) // execute() or fetch()
    | Reset(at: nat)
    | Destroy(at: nat)

  predicate Allowed(w: World, op: Op) {
    match op
    case Construct(at, _, _, _) => at !in w.queries
    case Prepare(at, _) => at in w.queries && w.queries[at].connected
    case Move(from, to) => from in w.queries && to !in w.queries
    case Resize(buffer, _) => buffer < |w.buffers|
    case Run(at) => at in w.queries && w.queries[at].connected
    case Reset(at) => at in w.queries && w.queries[at].connected
    case Destroy(at) => at in w.queries
  }

  /** A statement without parameters or results has no buffer; any other starts at generation one. */
  function ConstructAt(w: World, at: nat, params: nat, results: nat, rows: nat): World {
    var n := |w.buffers|;
    var par := if params > 0 then Some(Side(n, params, 0)) else None;
    var res := if results > 0 then Some(Side(n + 1, results, 0)) else None;
    w.(queries := w.queries[at := Query(None, par, res, true, false)], buffers := w.buffers + [Storage(1, rows), Storage(1, rows)])
  }

  /** set_buffer_size() */
  function Resized(b: Storage, rows: nat): Storage {
    Storage(b.generation + 1, if rows == 0 then 1 else rows)
  }

  /** SQLFreeHandle() */
  function Free(w: World, h: nat): World {
    if h in w.driver then w.(driver := map k | k in w.driver && k != h :: w.driver[k])
    else w.(misused := w.misused + [h])
  }

  function Freed(w: World, stmt: Option<nat>): World {
    if stmt.Some? then Free(w, stmt.value) else w
  }

  function Generation(buffers: seq<Storage>, side: Side): nat {
    if side.buffer < |buffers| then buffers[side.buffer].generation else 0
  }

  /** The first `n` columns of a side bound to the storage it has now. */
  function Bind(buffers: seq<Storage>, side: Option<Side>, n: nat): Option<Bound> {
    if side.None? then None else Some(Bound(side.value.buffer, Generation(buffers, side.value), Min(n, side.value.columns)))
  }

  function Renewed(buffers: seq<Storage>, side: Option<Side>): Option<Side> {
    if side.None? then None else Some(side.value.(layout := Generation(buffers, side.value)))
  }

  predicate IsBatch(buffers: seq<Storage>, side: Option<Side>) {
    side.Some? && side.value.buffer < |buffers| && buffers[side.value.buffer].rows > 1
  }

  /** The status array, bound for a batch only. */
  function BindStatus(buffers: seq<Storage>, side: Option<Side>): Option<Bound> {
    if IsBatch(buffers, side) then Some(Bound(side.value.buffer, Generation(buffers, side.value), 0)) else None
  }

  predicate FailsInParameters(q: Query, f: Failure) {
    f.AtPrepare? || (f.AtParameter? && q.par.Some? && f.i < q.par.value.columns)
  }

  predicate FailsInColumns(q: Query, f: Failure) {
    f.AtColumn? && q.res.Some? && f.i < q.res.value.columns
  }

  /** What the driver holds for the new handle when prepare() returns. */
  function BoundBy(buffers: seq<Storage>, at: nat, q: Query, f: Failure): Statement {
    if f.AtPrepare? then UNBOUND
    else if FailsInParameters(q, f) then UNBOUND.(par := Bind(buffers, q.par, f.i))
    else
      var par := if q.par.Some? then Bind(buffers, q.par, q.par.value.columns) else None;
      var half := UNBOUND.(par := par, status := BindStatus(buffers, q.par),
                           paramsProcessed := if q.par.Some? then Some(at) else None);
      if FailsInColumns(q, f) then half.(res := Bind(buffers, q.res, f.i))
      else
        half.(res := if q.res.Some? then Bind(buffers, q.res, q.res.value.columns) else None,
              rowsFetched := if q.res.Some? then Some(at) else None)
  }

  predicate Succeeds(q: Query, f: Failure) {
    !f.AtAlloc? && !FailsInParameters(q, f) && !FailsInColumns(q, f)
  }

  function PrepareAt(w: World, at: nat, f: Failure): World
    requires at in w.queries
  {
    var q := w.queries[at];
    var v := Freed(w, q.stmt);
    if f.AtAlloc? then v.(queries := v.queries[at := q.(ready := false)])
    else
      var h := v.handles;
      var bound := v.(driver := v.driver[h := BoundBy(w.buffers, at, q, f)], handles := h + 1);
      var p := if Succeeds(q, f) then Query(Some(h), Renewed(w.buffers, q.par), Renewed(w.buffers, q.res), true, true)
               else q.(stmt := Some(h), ready := false);
      bound.(queries := v.queries[at := p])
  }

  /** The move constructor: the handle goes along, and the counters are bound to the new object. */
  function MoveTo(w: World, from: nat, to: nat): World
    requires from in w.queries
  {
    var q := w.queries[from];
    var v := w.(queries := w.queries[to := q][from := Query(None, None, None, false, false)]);
    if q.stmt.None? || q.stmt.value !in w.driver then v
    else
      var s := w.driver[q.stmt.value];
      v.(driver := w.driver[q.stmt.value := s.(
           paramsProcessed := if q.par.Some? then Some(to) else s.paramsProcessed,
           rowsFetched := if q.res.Some? then Some(to) else s.rowsFetched)])
  }

  /** check_layout() of one side */
  predicate Unmoved(buffers: seq<Storage>, side: Option<Side>) {
    side.Some? ==> side.value.layout == Generation(buffers, side.value)
  }

  /** execute() or fetch() calls the driver. */
  predicate ReachesDriver(w: World, at: nat)
    requires at in w.queries
  {
    w.queries[at].stmt.Some? && Unmoved(w.buffers, w.queries[at].par) && Unmoved(w.buffers, w.queries[at].res)
  }

  function Do(w: World, op: Op): World
    requires Allowed(w, op)
  {
    match op
    case Construct(at, params, results, rows) => ConstructAt(w, at, params, results, rows)
    case Prepare(at, failure) => PrepareAt(w, at, failure)
    case Move(from, to) => MoveTo(w, from, to)
    case Resize(buffer, rows) => w.(buffers := w.buffers[buffer := Resized(w.buffers[buffer], rows)])
    case Run(at) =>
      if ReachesDriver(w, at) && w.queries[at].stmt.value !in w.driver then
        w.(misused := w.misused + [w.queries[at].stmt.value])
      else w
    case Reset(at) =>
      var q := w.queries[at];
      var v := Freed(w, q.stmt);
      v.(queries := v.queries[at := q.(stmt := None, ready := false)])
    case Destroy(at) =>
      var v := Freed(w, w.queries[at].stmt);
      v.(queries := map a | a in w.queries && a != at :: w.queries[a])
  }

  // --------------------------------------------------------------------- invariants

  predicate HandleOf(w: World, at: nat, h: nat) {
    at in w.queries && w.queries[at].stmt == Some(h)
  }

  /** The driver knows the handles of the objects and no other. */
  predicate Known(w: World) {
    && w.misused == []
    && (forall h | h in w.driver :: h < w.handles && exists a | a in w.queries :: HandleOf(w, a, h))
    && (forall a | a in w.queries && w.queries[a].stmt.Some? :: w.queries[a].stmt.value in w.driver)
  }

  /** Every object has its handle to itself. */
  predicate Apart(w: World) {
    forall a, b | a in w.queries && b in w.queries && a != b ::
      w.queries[a].stmt.Some? ==> w.queries[a].stmt != w.queries[b].stmt
  }

  predicate Exclusive(w: World) {
    Known(w) && Apart(w)
  }

  /** Bound storage is the side's own, bound at or after the last success and not after now. */
  predicate SideBound(buffers: seq<Storage>, side: Option<Side>, bound: Option<Bound>) {
    && (side.Some? ==> side.value.buffer < |buffers| && side.value.layout <= Generation(buffers, side.value))
    && (bound.Some? ==>
          && side.Some? && bound.value.buffer == side.value.buffer && bound.value.columns <= side.value.columns
          && side.value.layout <= bound.value.generation <= Generation(buffers, side.value))
  }

  /** A counter the driver has is a member of this very object, which has that side. */
  predicate CounterBound(at: nat, side: Option<Side>, counter: Option<nat>) {
    counter.Some? ==> side.Some? && counter.value == at
  }

  /** After a successful prepare() all columns and the counter are bound. */
  predicate SideReady(at: nat, side: Option<Side>, bound: Option<Bound>, counter: Option<nat>) {
    side.Some? ==>
      && bound == Some(Bound(side.value.buffer, side.value.layout, side.value.columns))
      && counter == Some(at)
  }

  /** What the driver holds for a query. */
  function Held(w: World, q: Query): Option<Statement> {
    if q.stmt.Some? && q.stmt.value in w.driver then Some(w.driver[q.stmt.value]) else None
  }

  /** The driver holds nothing for this object but the object's own storage. */
  predicate QueryBound(buffers: seq<Storage>, at: nat, q: Query, held: Option<Statement>) {
    && SideBound(buffers, q.par, None) && SideBound(buffers, q.res, None)
    && (held.Some? ==>
          && SideBound(buffers, q.par, held.value.par) && SideBound(buffers, q.res, held.value.res)
          && SideBound(buffers, q.par, held.value.status)
          && CounterBound(at, q.par, held.value.paramsProcessed) && CounterBound(at, q.res, held.value.rowsFetched))
    && (q.ready ==>
          && held.Some?
          && SideReady(at, q.par, held.value.par, held.value.paramsProcessed)
          && SideReady(at, q.res, held.value.res, held.value.rowsFetched)
          && (q.par.Some? && Unmoved(buffers, q.par) ==> (held.value.status.Some? <==> IsBatch(buffers, q.par))))
    && (!q.ready && held.Some? && HasSide(q) ==> ColumnsMissing(q, held.value))
  }

  predicate HasSide(q: Query) {
    q.par.Some? || q.res.Some?
  }

  /** Fewer columns of a side are bound than it has. */
  predicate Short(side: Option<Side>, bound: Option<Bound>) {
    side.Some? && (bound.None? || bound.value.columns < side.value.columns)
  }

  predicate ColumnsMissing(q: Query, s: Statement) {
    Short(q.par, s.par) || Short(q.res, s.res)
  }

  predicate WellBound(w: World) {
    forall a | a in w.queries :: QueryBound(w.buffers, a, w.queries[a], Held(w, w.queries[a]))
  }

  predicate Inv(w: World) {
    Exclusive(w) && WellBound(w)
  }

  /** SQLAllocHandle() succeeds when prepare() is called again on a prepared object. */
  predicate AllocSucceeds(w: World, op: Op)
    requires Allowed(w, op)
  {
    op.Prepare? && op.failure.AtAlloc? ==> w.queries[op.at].stmt.None?
  }

  // ----------------------------------------------------------------- handles kept apart

  lemma {:induction false} PrepareKnown(w: World, at: nat, f: Failure)
    requires Exclusive(w) && at in w.queries && (f.AtAlloc? ==> w.queries[at].stmt.None?)
    ensures Known(PrepareAt(w, at, f))
  {
    var v := PrepareAt(w, at, f);
    forall h | h in v.driver
      ensures h < v.handles && exists a | a in v.queries :: HandleOf(v, a, h)
    {
      if h == w.handles {
        assert HandleOf(v, at, h);
      } else {
        var a :| a in w.queries && HandleOf(w, a, h);
        assert HandleOf(v, a, h);
      }
    }
  }

  lemma {:induction false} PrepareApart(w: World, at: nat, f: Failure)
    requires Exclusive(w) && at in w.queries && (f.AtAlloc? ==> w.queries[at].stmt.None?)
    ensures Apart(PrepareAt(w, at, f))
  {
  }

  lemma {:induction false} MoveKnown(w: World, from: nat, to: nat)
    requires Exclusive(w) && from in w.queries && to !in w.queries
    ensures Known(MoveTo(w, from, to))
  {
    var v := MoveTo(w, from, to);
    assert v.driver.Keys == w.driver.Keys;
    forall h | h in v.driver
      ensures h < v.handles && exists a | a in v.queries :: HandleOf(v, a, h)
    {
      var a :| a in w.queries && HandleOf(w, a, h);
      assert HandleOf(v, if a == from then to else a, h);
    }
  }

  lemma {:induction false} MoveApart(w: World, from: nat, to: nat)
    requires Exclusive(w) && from in w.queries && to !in w.queries
    ensures Apart(MoveTo(w, from, to))
  {
  }

  lemma {:induction false} FreeExclusive(w: World, op: Op)
    requires Exclusive(w) && Allowed(w, op) && (op.Reset? || op.Destroy?)
    ensures Exclusive(Do(w, op))
  {
    var v := Do(w, op);
    forall h | h in v.driver
      ensures h < v.handles && exists a | a in v.queries :: HandleOf(v, a, h)
    {
      var a :| a in w.queries && HandleOf(w, a, h);
      assert HandleOf(v, a, h);
    }
  }

  lemma {:induction false} ConstructExclusive(w: World, at: nat, params: nat, results: nat, rows: nat)
    requires Exclusive(w) && at !in w.queries
    ensures Exclusive(ConstructAt(w, at, params, results, rows))
  {
    var v := ConstructAt(w, at, params, results, rows);
    forall h | h in v.driver
      ensures exists a | a in v.queries :: HandleOf(v, a, h)
    {
      var a :| a in w.queries && HandleOf(w, a, h);
      assert HandleOf(v, a, h);
    }
  }

  lemma {:induction false} ExclusiveKept(w: World, op: Op)
    requires Exclusive(w) && Allowed(w, op) && AllocSucceeds(w, op)
    ensures Exclusive(Do(w, op))
  {
    match op
    case Construct(at, params, results, rows) => ConstructExclusive(w, at, params, results, rows);
    case Prepare(at, f) =>
      PrepareKnown(w, at, f);
      PrepareApart(w, at, f);
    case Move(from, to) =>
      MoveKnown(w, from, to);
      MoveApart(w, from, to);
    case Resize(buffer, rows) =>
      var v := Do(w, op);
      assert v.queries == w.queries && v.driver == w.driver;
      assert forall a, h :: HandleOf(v, a, h) <==> HandleOf(w, a, h);
    case Run(_) =>
    case _ => FreeExclusive(w, op);
  }

  // ----------------------------------------------------------------- addresses kept right

  lemma {:induction false} PreparedBound(buffers: seq<Storage>, at: nat, q: Query, f: Failure, h: nat)
    requires SideBound(buffers, q.par, None) && SideBound(buffers, q.res, None) && !f.AtAlloc?
    ensures var p := if Succeeds(q, f) then Query(Some(h), Renewed(buffers, q.par), Renewed(buffers, q.res), true, true)
                     else q.(stmt := Some(h), ready := false);
            QueryBound(buffers, at, p, Some(BoundBy(buffers, at, q, f)))
  {
  }

  lemma {:induction false} ResizedBound(
    buffers: seq<Storage>, buffer: nat, rows: nat, at: nat, q: Query, held: Option<Statement>)
    requires QueryBound(buffers, at, q, held) && buffer < |buffers|
    ensures QueryBound(buffers[buffer := Resized(buffers[buffer], rows)], at, q, held)
  {
  }

  lemma {:induction false} ExtendedBound(
    buffers: seq<Storage>, more: seq<Storage>, at: nat, q: Query, held: Option<Statement>)
    requires QueryBound(buffers, at, q, held)
    ensures QueryBound(buffers + more, at, q, held)
  {
  }

  /** An object that an operation does not touch keeps its handle and what the driver holds for it. */
  lemma {:induction false} OthersKept(w: World, op: Op, a: nat)
    requires Inv(w) && Allowed(w, op) && AllocSucceeds(w, op) && a in w.queries
    requires op.Construct? || op.Prepare? || op.Reset? || op.Destroy? ==> a != op.at
    requires op.Move? ==> a != op.from
    ensures var v := Do(w, op); a in v.queries && v.queries[a] == w.queries[a] && Held(v, v.queries[a]) == Held(w, w.queries[a])
  {
  }

  lemma {:induction false} PrepareBinds(w: World, at: nat, f: Failure)
    requires Inv(w) && Allowed(w, Prepare(at, f)) && AllocSucceeds(w, Prepare(at, f))
    ensures WellBound(PrepareAt(w, at, f))
  {
    var v := PrepareAt(w, at, f);
    forall a | a in v.queries
      ensures QueryBound(v.buffers, a, v.queries[a], Held(v, v.queries[a]))
    {
      if a != at {
        OthersKept(w, Prepare(at, f), a);
      } else if !f.AtAlloc? {
        PreparedBound(w.buffers, at, w.queries[at], f, w.handles);
      }
    }
  }

  lemma {:induction false} MoveRebinds(w: World, from: nat, to: nat)
    requires Inv(w) && Allowed(w, Move(from, to))
    ensures WellBound(MoveTo(w, from, to))
  {
    var v := MoveTo(w, from, to);
    forall a | a in v.queries
      ensures QueryBound(v.buffers, a, v.queries[a], Held(v, v.queries[a]))
    {
      if a != from && a != to {
        OthersKept(w, Move(from, to), a);
      }
    }
  }

  lemma {:induction false} WellBoundKept(w: World, op: Op)
    requires Inv(w) && Allowed(w, op) && AllocSucceeds(w, op)
    ensures WellBound(Do(w, op))
  {
    var v := Do(w, op);
    match op
    case Prepare(at, f) => PrepareBinds(w, at, f);
    case Move(from, to) => MoveRebinds(w, from, to);
    case Resize(buffer, rows) =>
      forall a | a in v.queries
        ensures QueryBound(v.buffers, a, v.queries[a], Held(v, v.queries[a]))
      {
        ResizedBound(w.buffers, buffer, rows, a, w.queries[a], Held(w, w.queries[a]));
      }
    case Construct(at, _, _, rows) =>
      forall a | a in v.queries
        ensures QueryBound(v.buffers, a, v.queries[a], Held(v, v.queries[a]))
      {
        if a != at {
          OthersKept(w, op, a);
          ExtendedBound(w.buffers, [Storage(1, rows), Storage(1, rows)], a, w.queries[a], Held(w, w.queries[a]));
        }
      }
    case Run(_) =>
    case _ =>
      forall a | a in v.queries && a != op.at
        ensures QueryBound(v.buffers, a, v.queries[a], Held(v, v.queries[a]))
      {
        OthersKept(w, op, a);
      }
  }

  // ------------------------------------------------------------------------------- runs

  ghost predicate Leads(w: World, ops: seq<Op>, v: World)
    decreases |ops|
  {
    if ops == [] then w == v
    else Allowed(w, ops[0]) && AllocSucceeds(w, ops[0]) && Leads(Do(w, ops[0]), ops[1..], v)
  }

  ghost predicate Reachable(w: World) {
    exists ops :: Leads(START, ops, w)
  }

  lemma {:induction false} InvAlong(w: World, ops: seq<Op>, v: World)
    requires Inv(w) && Leads(w, ops, v)
    ensures Inv(v)
    decreases |ops|
  {
    if ops != [] {
      ExclusiveKept(w, ops[0]);
      WellBoundKept(w, ops[0]);
      InvAlong(Do(w, ops[0]), ops[1..], v);
    }
  }

  lemma {:induction false} Always(w: World)
    requires Reachable(w)
    ensures Inv(w)
  {
    var ops :| Leads(START, ops, w);
    InvAlong(START, ops, w);
  }

  // -------------------------------------------------------------------- the theorems

  /** An address the driver holds for a side is in the storage the side has now. */
  predicate SideCurrent(w: World, side: Option<Side>, bound: Option<Bound>) {
    bound.Some? ==>
      side.Some? && bound.value.buffer == side.value.buffer
      && bound.value.generation == Generation(w.buffers, side.value)
  }

  /** Whenever execute() or fetch() calls the driver, every address in it is current. */
  lemma {:induction false} DriverFindsCurrentStorage(w: World, at: nat)
    requires Reachable(w) && at in w.queries && ReachesDriver(w, at)
    ensures w.queries[at].stmt.value in w.driver
    ensures var q, s := w.queries[at], w.driver[w.queries[at].stmt.value];
            && SideCurrent(w, q.par, s.par) && SideCurrent(w, q.res, s.res) && SideCurrent(w, q.par, s.status)
            && (s.paramsProcessed.Some? ==> s.paramsProcessed.value == at)
            && (s.rowsFetched.Some? ==> s.rowsFetched.value == at)
  {
    Always(w);
    assert QueryBound(w.buffers, at, w.queries[at], Held(w, w.queries[at]));
  }

  /**
  ... and no column is missing in it if and only if the last prepare() succeeded, or the
  statement has neither parameters nor results.
  */
  lemma {:induction false} NothingMissingIffReady(w: World, at: nat)
    requires Reachable(w) && at in w.queries && ReachesDriver(w, at)
    ensures w.queries[at].stmt.value in w.driver
    ensures var q, s := w.queries[at], w.driver[w.queries[at].stmt.value];
            && (!ColumnsMissing(q, s) <==> q.ready || !HasSide(q))
            && (q.ready && q.par.Some? ==>
                  s.paramsProcessed == Some(at) && (s.status.Some? <==> IsBatch(w.buffers, q.par)))
            && (q.ready && q.res.Some? ==> s.rowsFetched == Some(at))
  {
    Always(w);
    assert QueryBound(w.buffers, at, w.queries[at], Held(w, w.queries[at]));
  }

  /** No handle is freed twice or used after it was freed, none is shared, and none outlives the objects. */
  lemma {:induction false} HandlesAreOwnedOnce(w: World)
    requires Reachable(w)
    ensures w.misused == []
    ensures forall a, b, h | HandleOf(w, a, h) && HandleOf(w, b, h) :: a == b
    ensures w.queries == map[] ==> w.driver == map[]
  {
    Always(w);
  }

  /** A buffer resized since the last successful prepare() keeps the driver out until the next one. */
  lemma {:induction false} ResizeKeepsTheDriverOut(w: World, at: nat, side: Side)
    requires Reachable(w) && at in w.queries && Some(side) in [w.queries[at].par, w.queries[at].res]
    ensures side.buffer < |w.buffers| && forall rows :: !ReachesDriver(Do(w, Resize(side.buffer, rows)), at)
  {
    Always(w);
    assert QueryBound(w.buffers, at, w.queries[at], Held(w, w.queries[at]));
  }

  // ------------------------------------------------------- where prepare() falls short

  /**
  If SQLAllocHandle() fails on a prepared object, the object keeps the handle it has
  just freed: the next execute() and the destructor both hand it to the driver again.
  */
  lemma {:induction false} FailedAllocKeepsTheFreedHandle(w: World, at: nat)
    requires Reachable(w) && Allowed(w, Prepare(at, AtAlloc)) && w.queries[at].stmt.Some?
    ensures var v, h := Do(w, Prepare(at, AtAlloc)), w.queries[at].stmt.value;
            && h !in v.driver && v.queries[at].stmt == Some(h)
            && h in Do(v, Destroy(at)).misused
            && (ReachesDriver(v, at) ==> h in Do(v, Run(at)).misused)
  {
    Always(w);
  }

  /**
  Wherever else prepare() fails on an object that could run, execute() still reaches the
  driver, which then misses a column.
  */
  lemma {:induction false} FailedPrepareStillRuns(w: World, at: nat, f: Failure)
    requires Reachable(w) && Allowed(w, Prepare(at, f)) && ReachesDriver(w, at) && HasSide(w.queries[at])
    requires !f.AtAlloc? && !Succeeds(w.queries[at], f)
    ensures var v := Do(w, Prepare(at, f));
            && !v.queries[at].ready && ReachesDriver(v, at) && v.queries[at].stmt.value in v.driver
            && ColumnsMissing(v.queries[at], v.driver[v.queries[at].stmt.value])
  {
    Always(w);
    PrepareBinds(w, at, f);
    var v := Do(w, Prepare(at, f));
    assert QueryBound(v.buffers, at, v.queries[at], Held(v, v.queries[at]));
  }

  /** A run that gets there: construct, prepare, prepare again and fail. */
  lemma {:induction false} FailedPrepareHappens() returns (w: World)
    ensures Reachable(w) && 0 in w.queries && !w.queries[0].ready && ReachesDriver(w, 0)
  {
    var w1 := Do(START, Construct(0, 1, 0, 1));
    var w2 := Do(w1, Prepare(0, Nowhere));
    w := Do(w2, Prepare(0, AtParameter(0)));
    var ops := [Construct(0, 1, 0, 1), Prepare(0, Nowhere), Prepare(0, AtParameter(0))];
    assert ops[1..] == [Prepare(0, Nowhere), Prepare(0, AtParameter(0))];
    assert ops[1..][1..] == [Prepare(0, AtParameter(0))];
    assert ops[1..][1..][1..] == [];
    assert Leads(w2, ops[1..][1..], w);
    assert Leads(w1, ops[1..], w);
    assert Leads(START, ops, w);
  }
}
