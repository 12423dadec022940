/**
What a caller sees who fetches a result set to its end: the windows side by side are
the whole result, and which null flags can be believed.
*/
module PsqlWindows {
  import opened Wrappers
  import opened Arithmetic
  import opened PsqlCells
  import opened PsqlFetch

  /** A result set, and the buffer as the first fetch finds it. */
  datatype Fetching = Fetching(columns: seq<ColumnType>, source: seq<Row>, start: Window)

  predicate Good(f: Fetching) {
    Shaped(f.columns, f.start) && |f.start| >= 1
  }

  /** The row that the next fetch starts at, after `k` fetches. */
  function Position(f: Fetching, k: nat): (p: nat)
    ensures p <= |f.source|
  {
    if k == 0 then 0
    else
      var p := Position(f, k - 1);
      p + Min(|f.source| - p, |f.start|)
  }

  /** The buffer after `k` fetches, by what fetch() promises of one. */
  function After(f: Fetching, k: nat): (w: Window)
    requires Good(f)
    ensures |w| == |f.start| && Shaped(f.columns, w)
  {
    if k == 0 then f.start
    else
      var p := Position(f, k - 1);
      Filled(f.columns, f.source, p, Min(|f.source| - p, |f.start|), After(f, k - 1))
  }

  /** All the rows a caller sees who looks at the occupied rows after each of `k` fetches. */
  function Seen(f: Fetching, k: nat): seq<seq<Slot>>
    requires Good(f)
  {
    if k == 0 then []
    else Seen(f, k - 1) + After(f, k)[..Position(f, k) - Position(f, k - 1)]
  }

  /** How many fetches of a result set return true. */
  function Rounds(f: Fetching): nat
    requires Good(f)
  {
    (|f.source| + |f.start| - 1) / |f.start|
  }

  // ------------------------------------------------------------------------- counting

  lemma {:induction false} PositionIs(f: Fetching, k: nat)
    requires Good(f)
    ensures Position(f, k) == Min(k * |f.start|, |f.source|)
  {
    if k > 0 {
      PositionIs(f, k - 1);
      assert k * |f.start| == (k - 1) * |f.start| + |f.start|;
    }
  }

  lemma {:induction false} CeilingDivision(n: nat, b: nat, k: nat)
    requires b >= 1
    ensures k < (n + b - 1) / b <==> k * b < n
  {
    var q := (n + b - 1) / b;
    assert q * b <= n + b - 1 < q * b + b;
    if k < q {
      assert (k + 1) * b <= q * b;
    } else {
      assert k * b >= q * b;
    }
  }

  /** Fetch number `k`, counted from zero, returns true exactly for the first Rounds(f). */
  lemma {:induction false} TrueThenFalse(f: Fetching, k: nat)
    requires Good(f)
    ensures Position(f, k + 1) > Position(f, k) <==> k < Rounds(f)
    ensures k >= Rounds(f) ==> Position(f, k) == |f.source|
  {
    PositionIs(f, k);
    PositionIs(f, k + 1);
    assert (k + 1) * |f.start| == k * |f.start| + |f.start|;
    CeilingDivision(|f.source|, |f.start|, k);
  }

  // -------------------------------------------------------------------- every row, once

  /** Source row `i` is copied by fetch `i / b` into slot `i % b`. */
  lemma {:induction false} RowIsStored(f: Fetching, k: nat, r: nat)
    requires Good(f) && k > 0 && r < Position(f, k) - Position(f, k - 1)
    ensures r < |f.start| && Position(f, k - 1) + r < |f.source|
    ensures After(f, k)[r] == FilledRow(f.columns, After(f, k - 1)[r], f.source[Position(f, k - 1) + r])
  {
  }

  lemma {:induction false} SeenLength(f: Fetching, k: nat)
    requires Good(f)
    ensures |Seen(f, k)| == Position(f, k)
  {
    if k > 0 {
      SeenLength(f, k - 1);
    }
  }

  /** The source row that fetch `k`, counted from zero, copies into slot `r`. */
  function RowAt(f: Fetching, k: nat, r: nat): nat {
    k * |f.start| + r
  }

  /** Which slots a fetch writes, and from which rows. */
  lemma {:induction false} FetchWrites(f: Fetching, k: nat, r: nat)
    requires Good(f) && r < |f.start|
    ensures r < Position(f, k + 1) - Position(f, k) <==> RowAt(f, k, r) < |f.source|
    ensures RowAt(f, k, r) < |f.source| ==> Position(f, k) + r == RowAt(f, k, r)
  {
    PositionIs(f, k);
    PositionIs(f, k + 1);
    assert (k + 1) * |f.start| == k * |f.start| + |f.start|;
  }

  lemma {:induction false} SlotAfter(f: Fetching, k: nat, r: nat, c: nat)
    requires Good(f) && r < |f.start| && c < |f.columns|
    ensures After(f, k + 1)[r][c]
            == if RowAt(f, k, r) < |f.source|
               then StoreInto(f.columns[c], After(f, k)[r][c], CellAt(f.source[RowAt(f, k, r)], c))
               else After(f, k)[r][c]
  {
    FetchWrites(f, k, r);
    if RowAt(f, k, r) < |f.source| {
      RowIsStored(f, k + 1, r);
    }
  }

  /** What one more fetch adds to what was seen. */
  lemma {:induction false} SeenNext(f: Fetching, n: nat, i: nat)
    requires Good(f) && i < Position(f, n + 1)
    ensures |Seen(f, n)| == Position(f, n) && |Seen(f, n + 1)| == Position(f, n + 1)
    ensures i < Position(f, n) ==> Seen(f, n + 1)[i] == Seen(f, n)[i]
    ensures i >= Position(f, n) ==>
              i - Position(f, n) < |f.start| && Seen(f, n + 1)[i] == After(f, n + 1)[i - Position(f, n)]
  {
    SeenLength(f, n);
    SeenLength(f, n + 1);
    Joined(Seen(f, n), After(f, n + 1), Position(f, n + 1) - Position(f, n), i);
  }

  lemma {:induction false} Joined(a: seq<seq<Slot>>, b: seq<seq<Slot>>, k: nat, i: nat)
    requires k <= |b| && i < |a| + k
    ensures (a + b[..k])[i] == if i < |a| then a[i] else b[i - |a|]
  {
  }

  /** What was seen once stays where it is. */
  lemma {:induction false} SeenStays(f: Fetching, n: nat, m: nat, i: nat)
    requires Good(f) && n <= m && i < Position(f, n)
    ensures |Seen(f, n)| == Position(f, n) <= |Seen(f, m)| && Seen(f, m)[i] == Seen(f, n)[i]
    decreases m - n
  {
    SeenLength(f, n);
    if n < m {
      SeenNext(f, n, i);
      SeenStays(f, n + 1, m, i);
    }
  }

  lemma {:induction false} SeenRow(f: Fetching, n: nat, k: nat, r: nat, i: nat)
    requires Good(f) && k < n && r < |f.start| && i == Position(f, k) + r < Position(f, k + 1)
    ensures i < |Seen(f, n)| && Seen(f, n)[i] == After(f, k + 1)[r]
  {
    SeenNext(f, k, i);
    SeenStays(f, k + 1, n, i);
  }

  /** Row `r` of window `k`, as it was seen. */
  lemma {:induction false} SeenAt(f: Fetching, k: nat, r: nat)
    requires Good(f) && r < |f.start| && RowAt(f, k, r) < |f.source|
    ensures |Seen(f, Rounds(f))| == |f.source|
    ensures Seen(f, Rounds(f))[RowAt(f, k, r)] == After(f, k + 1)[r]
  {
    var n := Rounds(f);
    TrueThenFalse(f, n);
    FetchWrites(f, k, r);
    TrueThenFalse(f, k);
    SeenLength(f, n);
    SeenRow(f, n, k, r, RowAt(f, k, r));
  }

  /** Cell `c` of row `i`, as it was seen. */
  lemma {:induction false} SeenCell(f: Fetching, i: nat, c: nat) returns (before: Slot)
    requires Good(f) && i < |f.source| && c < |f.columns|
    ensures |Seen(f, Rounds(f))| == |f.source| && |Seen(f, Rounds(f))[i]| == |f.columns|
    ensures Seen(f, Rounds(f))[i][c] == StoreInto(f.columns[c], before, CellAt(f.source[i], c))
  {
    var k, r := i / |f.start|, i % |f.start|;
    assert RowAt(f, k, r) == i;
    SeenAt(f, k, r);
    SlotAfter(f, k, r, c);
    before := After(f, k)[r][c];
  }

  /** Fetched to the end, the windows hold every source row once and in order. */
  lemma {:induction false} WindowsAreTheResult(f: Fetching, i: nat, c: nat)
    requires Good(f) && i < |f.source| && c < |f.columns|
    ensures |Seen(f, Rounds(f))| == |f.source|
    ensures |Seen(f, Rounds(f))[i]| == |f.columns|
    ensures var slot, t, text := Seen(f, Rounds(f))[i][c], f.columns[c], CellAt(f.source[i], c);
            && (Nulled(t, text) ==> slot.indicator == NULL_DATA)
            && (!Nulled(t, text) ==> slot.value == Store(t, text.value))
  {
    var before := SeenCell(f, i, c);
  }

  lemma {:induction false} StringIndicator(f: Fetching, i: nat, c: nat)
    requires Good(f) && i < |f.source| && c < |f.columns| && IsString(f.columns[c])
    ensures |Seen(f, Rounds(f))| == |f.source| && |Seen(f, Rounds(f))[i]| == |f.columns|
    ensures var t, text := f.columns[c], CellAt(f.source[i], c);
            Seen(f, Rounds(f))[i][c].indicator
            == if Nulled(t, text) then NULL_DATA else Length(Store(t, text.value).value)
  {
    var before := SeenCell(f, i, c);
  }

  /** A string column is right in every respect: cut to its width, its length and null flag its own. */
  lemma {:induction false} StringsAreRight(f: Fetching, i: nat, c: nat)
    requires Good(f) && i < |f.source| && c < |f.columns| && f.columns[c].CString?
    ensures |Seen(f, Rounds(f))| == |f.source| && |Seen(f, Rounds(f))[i]| == |f.columns|
    ensures var slot, text := Seen(f, Rounds(f))[i][c], CellAt(f.source[i], c);
            && (slot.indicator == NULL_DATA <==> text.None?)
            && (text.Some? ==>
                  && slot.value == Some(TextCell(Cut(text.value, f.columns[c].size)))
                  && slot.indicator == Min(|text.value|, f.columns[c].size))
  {
    WindowsAreTheResult(f, i, c);
    StringIndicator(f, i, c);
  }

  // ------------------------------------------------------------------------ null flags

  predicate Flagged(s: Slot) {
    s.indicator == NULL_DATA
  }

  predicate NulledAt(f: Fetching, k: nat, r: nat, c: nat) {
    RowAt(f, k, r) < |f.source| && c < |f.columns|
    && Nulled(f.columns[c], CellAt(f.source[RowAt(f, k, r)], c))
  }

  /** Before fetch `k` a null was shown in this slot, or the buffer came with the flag set. */
  predicate WasNulled(f: Fetching, k: nat, r: nat, c: nat)
    requires Good(f) && r < |f.start| && c < |f.columns|
  {
    Flagged(f.start[r][c]) || exists j | 0 <= j < k :: NulledAt(f, j, r, c)
  }

  /** In a column that is no string, a null flag once set stays. */
  lemma {:induction false} FlagsStick(f: Fetching, k: nat, r: nat, c: nat)
    requires Good(f) && r < |f.start| && c < |f.columns| && !IsString(f.columns[c])
    ensures Flagged(After(f, k)[r][c]) <==> WasNulled(f, k, r, c)
  {
    if k > 0 {
      var j := k - 1;
      FlagsStick(f, j, r, c);
      FlagAfter(f, j, r, c);
      WasNulledNext(f, j, r, c);
    }
  }

  lemma {:induction false} WasNulledNext(f: Fetching, k: nat, r: nat, c: nat)
    requires Good(f) && r < |f.start| && c < |f.columns|
    ensures WasNulled(f, k + 1, r, c) <==> WasNulled(f, k, r, c) || NulledAt(f, k, r, c)
  {
  }

  lemma {:induction false} FlagAfter(f: Fetching, k: nat, r: nat, c: nat)
    requires Good(f) && r < |f.start| && c < |f.columns| && !IsString(f.columns[c])
    ensures Flagged(After(f, k + 1)[r][c]) <==> Flagged(After(f, k)[r][c]) || NulledAt(f, k, r, c)
  {
    SlotAfter(f, k, r, c);
  }

  /**
  The null flag of a cell that is no string tells the truth exactly if the cell is
  shown as null, or none before it in its slot was.
  */
  lemma {:induction false} FlagIsRightUnlessStale(f: Fetching, k: nat, r: nat, c: nat)
    requires Good(f) && r < |f.start| && c < |f.columns| && !IsString(f.columns[c])
    requires RowAt(f, k, r) < |f.source|
    ensures var i := RowAt(f, k, r); var seen := Seen(f, Rounds(f));
            && |seen| == |f.source| && |seen[i]| == |f.columns|
            && ((Flagged(seen[i][c]) <==> Nulled(f.columns[c], CellAt(f.source[i], c)))
                <==> (NulledAt(f, k, r, c) || !WasNulled(f, k, r, c)))
  {
    SeenAt(f, k, r);
    FlagsStick(f, k, r, c);
    SlotAfter(f, k, r, c);
  }

  /** In the first window of a fresh buffer every null flag is right. */
  lemma {:induction false} FirstWindowIsRight(f: Fetching, r: nat, c: nat)
    requires Good(f) && r < |f.start| && c < |f.columns| && r < |f.source| && !Flagged(f.start[r][c])
    ensures |Seen(f, Rounds(f))| == |f.source| && |Seen(f, Rounds(f))[r]| == |f.columns|
    ensures Flagged(Seen(f, Rounds(f))[r][c]) <==> Nulled(f.columns[c], CellAt(f.source[r], c))
  {
    assert RowAt(f, 0, r) == r;
    SeenAt(f, 0, r);
    SlotAfter(f, 0, r, c);
  }

  /** An integer after a null, through a buffer of one row: shown as null although it is five. */
  lemma {:induction false} StaleNull()
    ensures var f := Fetching([Integer], [[None], [Some("5")]], Blank([Integer], 1));
            && Good(f) && Rounds(f) == 2 && |Seen(f, 2)| == 2 && |Seen(f, 2)[1]| == 1
            && Seen(f, 2)[1][0] == Slot(Some(IntCell(5)), NULL_DATA)
  {
    var f := Fetching([Integer], [[None], [Some("5")]], Blank([Integer], 1));
    assert ShowInt(5) == "5";
    IntRoundTrip(5, Lowest(Integer), -Lowest(Integer) - 1);
    assert RowAt(f, 1, 0) == 1 && RowAt(f, 0, 0) == 0;
    FlagIsRightUnlessStale(f, 1, 0, 0);
    WindowsAreTheResult(f, 1, 0);
    assert NulledAt(f, 0, 0, 0);
  }

  // -------------------------------------------------------------------- the caller's loop

  /** Fetches until there is no more, and looks at the occupied rows after each fetch. */
  method FetchToTheEnd(q: Query) returns (seen: seq<seq<Slot>>, rounds: nat)
    requires q.Valid() && q.rows.Some? && q.nextRow == 0 && q.layout == q.boundLayout
    modifies q
    ensures var f := Fetching(q.columns, old(q.rows.value), old(q.window));
            Good(f) && rounds == Rounds(f) && seen == Seen(f, rounds)
  {
    ghost var f := Fetching(q.columns, q.rows.value, q.window);
    seen, rounds := [], 0;
    TrueThenFalse(f, 0);
    while true
      invariant q.Valid() && q.rows == Some(f.source) && q.layout == q.boundLayout && q.columns == f.columns
      invariant rounds <= Rounds(f) && q.nextRow == Position(f, rounds)
      invariant q.window == After(f, rounds) && seen == Seen(f, rounds)
      decreases Rounds(f) - rounds
    {
      TrueThenFalse(f, rounds);
      var r := q.Fetch();
      if !r.value {
        return;
      }
      seen := seen + q.window[..q.occupied];
      rounds := rounds + 1;
    }
  }
}
