/**
A batch of parameter rows sent through one pipeline: all rows first, then one sync,
then all the replies. The connection is a queue of replies; what the server says to
a row is arbitrary until the first refusal, after which it runs nothing more.
*/
module PsqlBatch {
  import opened Wrappers
  import opened PsqlCells

  /** A marshalled row; no text is SQL NULL. */
  type Row = seq<Option<string>>

  /** What PQgetResult() hands out: the result of a command, the sync, or a null pointer. */
  datatype Reply = Answer(refusal: Option<string>) | Sync | Nothing

  /** The server's word on the last of these rows, all before it having been accepted. */
  type Server = seq<Row> -> Option<string>

  const ABORTED := "pipeline aborted"

  function Verdict(server: Server, rows: seq<Row>, i: nat): Option<string>
    requires i < |rows|
  {
    server(rows[..i + 1])
  }

  /** The first of the first `n` rows that the server refuses; `n` if there is none. */
  function FirstRefused(server: Server, rows: seq<Row>, n: nat): (k: nat)
    requires n <= |rows|
    ensures k <= n
    ensures k < n ==> Verdict(server, rows, k).Some?
    ensures forall i | 0 <= i < k :: Verdict(server, rows, i).None?
  {
    if n == 0 then 0
    else
      var k := FirstRefused(server, rows, n - 1);
      if k < n - 1 then k else if Verdict(server, rows, n - 1).Some? then n - 1 else n
  }

  function Refusal(server: Server, rows: seq<Row>, i: nat): Option<string>
    requires i < |rows|
  {
    if FirstRefused(server, rows, i) < i then Some(ABORTED) else Verdict(server, rows, i)
  }

  /** The replies to the rows from `i` on. */
  function Replies(server: Server, rows: seq<Row>, i: nat): (r: seq<Reply>)
    requires i <= |rows|
    decreases |rows| - i
  {
    if i == |rows| then [Sync, Nothing]
    else [Answer(Refusal(server, rows, i)), Nothing] + Replies(server, rows, i + 1)
  }

  lemma {:induction false} RepliesLength(server: Server, rows: seq<Row>, i: nat)
    requires i <= |rows|
    ensures |Replies(server, rows, i)| == 2 * (|rows| - i) + 2
    decreases |rows| - i
  {
    if i < |rows| {
      RepliesLength(server, rows, i + 1);
    }
  }

  class Connection {
    const server: Server
    var pipeline: bool
    var queued: seq<Row>
    var replies: seq<Reply>

    constructor (server: Server)
      ensures this.server == server && Idle()
    {
      this.server := server;
      pipeline, queued, replies := false, [], [];
    }

    /** Out of pipeline mode, nothing sent and nothing left to read. */
    ghost predicate Idle()
      reads this
    {
      !pipeline && queued == [] && replies == []
    }

    /** PQenterPipelineMode(), which the library may refuse. */
    method Enter(possible: bool) returns (ok: bool)
      requires Idle()
      modifies this
      ensures ok == possible && pipeline == possible && queued == [] && replies == []
    {
      pipeline := possible;
      ok := possible;
    }

    /** PQsendQueryPrepared(), which may fail. */
    method Send(row: Row, possible: bool) returns (ok: bool)
      requires pipeline
      modifies this
      ensures ok == possible && pipeline && replies == old(replies)
      ensures queued == if ok then old(queued) + [row] else old(queued)
    {
      ok := possible;
      if ok {
        queued := queued + [row];
      }
    }

    /** PQpipelineSync(): the server works through the queue. */
    method PipelineSync()
      requires pipeline && replies == []
      modifies this
      ensures pipeline && queued == [] && replies == Replies(server, old(queued), 0)
    {
      replies := Replies(server, queued, 0);
      queued := [];
    }

    /** PQgetResult() */
    method GetResult() returns (r: Reply)
      requires pipeline && replies != []
      modifies this
      ensures pipeline && queued == old(queued)
      ensures r == old(replies)[0] && replies == old(replies)[1..]
    {
      r := replies[0];
      replies := replies[1..];
    }

    /** PQexitPipelineMode() succeeds only when everything has been read. */
    method Exit() returns (ok: bool)
      requires pipeline
      modifies this
      ensures ok <==> old(queued) == [] && old(replies) == []
      ensures ok ==> Idle()
      ensures !ok ==> pipeline && queued == old(queued) && replies == old(replies)
    {
      ok := queued == [] && replies == [];
      if ok {
        pipeline := false;
      }
    }
  }

  datatype Error = NoPipeline | SendFailed | Refused(message: string)

  const STATUS_OK: nat := 0
  const STATUS_ERROR: nat := 5

  class Batch {
    var rowStatus: seq<nat>
    var affectedRows: int

    constructor (size: nat)
      ensures |rowStatus| == size && affectedRows == -1
    {
      rowStatus, affectedRows := seq(size, i => STATUS_OK), -1;
    }

    /** Sends rows until one cannot be sent; `room` says how many can. */
    method SendRows(conn: Connection, rows: seq<Row>, room: nat) returns (sent: nat)
      requires conn.pipeline && conn.queued == [] && conn.replies == []
      modifies conn
      ensures sent == if room < |rows| then room else |rows|
      ensures conn.pipeline && conn.queued == rows[..sent] && conn.replies == []
    {
      sent := 0;
      while sent < |rows|
        invariant 0 <= sent <= |rows| && sent <= room
        invariant conn.pipeline && conn.queued == rows[..sent] && conn.replies == []
      {
        var ok := conn.Send(rows[sent], sent < room);
        if !ok {
          break;
        }
        sent := sent + 1;
      }
    }

    /** What is known after the replies to the first `r` rows. */
    ghost predicate Known(server: Server, rows: seq<Row>, r: nat, firstError: Option<string>)
      requires r <= |rows|
      reads this
    {
      var bad := FirstRefused(server, rows, r);
      && r <= |rowStatus|
      && firstError == (if bad < r then Verdict(server, rows, bad) else None)
      && (forall i | 0 <= i < r :: rowStatus[i] == if i < bad then STATUS_OK else STATUS_ERROR)
    }

    /** One turn of the reading loop: the row's result and the null pointer behind it. */
    method ReadRow(conn: Connection, ghost rows: seq<Row>, r: nat, before: Option<string>) returns (firstError: Option<string>)
      requires r < |rows| <= |rowStatus| && Known(conn.server, rows, r, before)
      requires conn.pipeline && conn.queued == [] && conn.replies == Replies(conn.server, rows, r)
      modifies conn, this
      ensures conn.pipeline && conn.queued == [] && conn.replies == Replies(conn.server, rows, r + 1)
      ensures affectedRows == old(affectedRows) && |rowStatus| == |old(rowStatus)|
      ensures Known(conn.server, rows, r + 1, firstError)
      ensures forall i | r < i < |rowStatus| :: rowStatus[i] == old(rowStatus)[i]
    {
      firstError := before;
      var res := conn.GetResult();
      assert res == Answer(Refusal(conn.server, rows, r));
      if firstError.None? && res.refusal.Some? {
        firstError := res.refusal;
      }
      rowStatus := rowStatus[r := if firstError.None? then STATUS_OK else STATUS_ERROR];
      var endOfCommand := conn.GetResult();
      assert endOfCommand == Nothing;
    }

    /** Reads the replies to the rows sent, and those to the sync. */
    method ReadReplies(conn: Connection, ghost rows: seq<Row>, sent: nat) returns (firstError: Option<string>)
      requires |rows| == sent <= |rowStatus|
      requires conn.pipeline && conn.queued == [] && conn.replies == Replies(conn.server, rows, 0)
      modifies conn, this
      ensures conn.pipeline && conn.queued == [] && conn.replies == []
      ensures affectedRows == old(affectedRows) && |rowStatus| == |old(rowStatus)|
      ensures Known(conn.server, rows, sent, firstError)
      ensures forall r | sent <= r < |rowStatus| :: rowStatus[r] == old(rowStatus)[r]
    {
      firstError := None;
      var r := 0;
      while r < sent
        invariant 0 <= r <= sent && conn.pipeline && conn.queued == []
        invariant conn.replies == Replies(conn.server, rows, r)
        invariant affectedRows == old(affectedRows) && |rowStatus| == |old(rowStatus)|
        invariant Known(conn.server, rows, r, firstError)
        invariant forall i | r <= i < |rowStatus| :: rowStatus[i] == old(rowStatus)[i]
      {
        firstError := ReadRow(conn, rows, r, firstError);
        r := r + 1;
      }
      var sync := conn.GetResult();
      var endOfSync := conn.GetResult();
      assert sync == Sync && endOfSync == Nothing;
    }

    /**
    execute_batch(). Whatever the server refuses and however many rows can be sent,
    exactly the replies are read and the connection is idle again. Rows that were
    never sent keep the status of an accepted row.
    */
    method ExecuteBatch(conn: Connection, rows: seq<Row>, entered: bool, room: nat) returns (result: Result<(), Error>)
      requires conn.Idle() && |rowStatus| == |rows|
      modifies conn, this
      ensures conn.Idle() && |rowStatus| == |rows|
      ensures !entered ==> result == Err(NoPipeline) && rowStatus == old(rowStatus)
      ensures entered ==>
                var sent := if room < |rows| then room else |rows|;
                var bad := FirstRefused(conn.server, rows[..sent], sent);
                && (forall r | 0 <= r < |rows| :: rowStatus[r] == if bad <= r < sent then STATUS_ERROR else STATUS_OK)
                && (result.Ok? <==> sent == |rows| && bad == sent)
                && (sent < |rows| ==> result == Err(SendFailed))
                && (bad < sent == |rows| ==> 
                      result.Err? && result.error.Refused? && Verdict(conn.server, rows, bad) == Some(result.error.message))
      ensures affectedRows == if result.Ok? then |rows| else old(affectedRows)
    {
      var ok := conn.Enter(entered);
      if !ok {
        return Err(NoPipeline);
      }
      var sent := SendRows(conn, rows, room);
      conn.PipelineSync();
      rowStatus := seq(|rows|, i => STATUS_OK);
      var firstError := ReadReplies(conn, rows[..sent], sent);
      var exited := conn.Exit();
      assert exited;
      ghost var bad := FirstRefused(conn.server, rows[..sent], sent);
      assert sent == |rows| ==> rows[..sent] == rows;
      if sent < |rows| {
        return Err(SendFailed);
      }
      if firstError.Some? {
        return Err(Refused(firstError.value));
      }
      affectedRows := |rows|;
      return Ok(());
    }
  }

  // ------------------------------------------------------------------- the statuses

  /** The statuses of the rows sent: accepted ones, then all from the first refusal on refused. */
  function Statuses(server: Server, rows: seq<Row>): seq<nat> {
    seq(|rows|, i => if i < FirstRefused(server, rows, |rows|) then STATUS_OK else STATUS_ERROR)
  }

  /** A row has the status of an accepted row exactly if the server answered it without refusal. */
  lemma {:induction false} StatusIsTheAnswer(server: Server, rows: seq<Row>, i: nat)
    requires i < |rows|
    ensures Statuses(server, rows)[i] == STATUS_OK <==> Refusal(server, rows, i).None?
  {
    var all, k := FirstRefused(server, rows, |rows|), FirstRefused(server, rows, i);
    if k < i {
      assert Verdict(server, rows, k).Some?;
    } else {
      assert forall j | 0 <= j < i :: Verdict(server, rows, j).None?;
    }
  }

  // -------------------------------------------------------------------- marshalling

  datatype Parameter = Parameter(cell: Cell, isNull: bool)

  predicate Fits(columns: seq<ColumnType>, row: seq<Parameter>) {
    |row| == |columns| && forall i | 0 <= i < |row| :: Held(columns[i], row[i].cell)
  }

  /** marshal_row(): the texts of one row of the parameter buffer. */
  method MarshalRow(columns: seq<ColumnType>, row: seq<Parameter>) returns (values: Row)
    requires Fits(columns, row)
    ensures |values| == |row|
    ensures forall i | 0 <= i < |row| ::
              values[i] == if row[i].isNull then None else Some(Load(columns[i], row[i].cell))
  {
    values := [];
    var i := 0;
    while i < |row|
      invariant 0 <= i <= |row| && |values| == i
      invariant forall j | 0 <= j < i :: values[j] == if row[j].isNull then None else Some(Load(columns[j], row[j].cell))
    {
      values := values + [if row[i].isNull then None else Some(Load(columns[i], row[i].cell))];
      i := i + 1;
    }
  }
}
