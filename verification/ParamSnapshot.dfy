/**
Parameter buffers and the copies taken of them: what submit() lifts out of the
caller's buffer, and what the worker puts back into the query's buffer.
*/
module ParamSnapshot {

  /** One column: its value array as bytes and its indicator array, one entry per row. */
  datatype Column = Column(values: seq<int>, indicators: seq<int>)

  type Buffer = seq<Column>

  predicate SameShape(a: Column, b: Column) {
    |a.values| == |b.values| && |a.indicators| == |b.indicators|
  }

  /** Two buffers of the same statement, sized for the same number of rows. */
  predicate SameLayout(a: Buffer, b: Buffer) {
    |a| == |b| && forall i | 0 <= i < |a| :: SameShape(a[i], b[i])
  }

  /** `src` written over the front of `dst`, never past its end. */
  function Overwritten(dst: seq<int>, src: seq<int>): (r: seq<int>)
    ensures |r| == |dst|
    ensures |src| == |dst| ==> r == src
  {
    if |src| <= |dst| then src + dst[|src|..] else src[..|dst|]
  }

  function RestoredColumn(column: Column, snap: Column): Column {
    Column(Overwritten(column.values, snap.values), Overwritten(column.indicators, snap.indicators))
  }

  /** restore_params(): column by column, as far as both sides have columns. */
  function Restored(buffer: Buffer, snap: Buffer): (r: Buffer)
    ensures SameLayout(r, buffer)
  {
    seq(|buffer|, i requires 0 <= i < |buffer| =>
      if i < |snap| then RestoredColumn(buffer[i], snap[i]) else buffer[i])
  }

  /** Between buffers of the same layout a restored snapshot replaces everything. */
  lemma RestoreReplaces(buffer: Buffer, snap: Buffer)
    requires SameLayout(buffer, snap)
    ensures Restored(buffer, snap) == snap
  {
    forall i | 0 <= i < |buffer|
      ensures Restored(buffer, snap)[i] == snap[i]
    {
      assert SameShape(buffer[i], snap[i]);
    }
  }

  // ---------------------------------------------------------------- in place

  /** Where one column of a live buffer is stored. */
  datatype Storage = Storage(values: array<int>, indicators: array<int>)

  /** No two arrays of a buffer overlap. */
  ghost predicate Separate(buffer: seq<Storage>) {
    && (forall i | 0 <= i < |buffer| :: buffer[i].values != buffer[i].indicators)
    && (forall i, j | 0 <= i < j < |buffer| ::
          {buffer[i].values, buffer[i].indicators} !! {buffer[j].values, buffer[j].indicators})
  }

  ghost function ArraysOf(buffer: seq<Storage>): set<object> {
    (set i | 0 <= i < |buffer| :: buffer[i].values as object) +
    (set i | 0 <= i < |buffer| :: buffer[i].indicators as object)
  }

  ghost function Contents(buffer: seq<Storage>): (b: Buffer)
    reads ArraysOf(buffer)
    ensures |b| == |buffer|
  {
    seq(|buffer|, i requires 0 <= i < |buffer| reads ArraysOf(buffer) =>
      Column(buffer[i].values[..], buffer[i].indicators[..]))
  }

  method SnapshotParams(src: seq<Storage>) returns (snap: Buffer)
    ensures snap == Contents(src)
  {
    snap := [];
    for i := 0 to |src|
      invariant snap == Contents(src)[..i]
    {
      snap := snap + [Column(src[i].values[..], src[i].indicators[..])];
    }
  }

  method CopyOver(dst: array<int>, src: seq<int>)
    modifies dst
    ensures dst[..] == Overwritten(old(dst[..]), src)
  {
    var n := if |src| <= dst.Length then |src| else dst.Length;
    for k := 0 to n
      invariant dst[..k] == src[..k]
      invariant dst[k..] == old(dst[k..])
    {
      dst[k] := src[k];
    }
    assert dst[..] == dst[..n] + dst[n..];
    assert old(dst[..])[n..] == old(dst[n..]);
  }

  method RestoreParams(dst: seq<Storage>, snap: Buffer)
    requires Separate(dst)
    modifies ArraysOf(dst)
    ensures Contents(dst) == Restored(old(Contents(dst)), snap)
  {
    ghost var before := Contents(dst);
    var i := 0;
    while i < |dst| && i < |snap|
      invariant 0 <= i <= |dst| && i <= |snap|
      invariant forall k | 0 <= k < i :: Contents(dst)[k] == RestoredColumn(before[k], snap[k])
      invariant forall k | i <= k < |dst| :: Contents(dst)[k] == before[k]
    {
      ghost var now := Contents(dst);
      CopyOver(dst[i].values, snap[i].values);
      CopyOver(dst[i].indicators, snap[i].indicators);
      assert Contents(dst)[i] == RestoredColumn(now[i], snap[i]);
      assert forall k | 0 <= k < |dst| && k != i :: Contents(dst)[k] == now[k];
      i := i + 1;
    }
  }
}
