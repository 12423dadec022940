/**
How PostgreSQL writes values as text, said digit by digit and without the client's own
printing and reading; and that the client reads every such text as the value it stands for.
*/
module PsqlRendering {
  import opened Wrappers
  import opened Arithmetic
  import opened Numerals
  import opened PsqlDateTime
  import opened PsqlCells
  import opened PsqlFetch
  import opened PsqlWindows

  // -------------------------------------------------------------------------- digits

  const LOWER := "0123456789abcdef"
  const UPPER := "0123456789ABCDEF"

  /** `c` is a digit worth `d`, of either case. */
  predicate StandsFor(c: char, d: nat) {
    d < 16 && (c == LOWER[d] || c == UPPER[d])
  }

  /** `text` writes `n`, with zeros in front if it is long enough. */
  predicate Spells(text: string, base: nat, n: nat)
    requires Base(base)
  {
    if text == "" then n == 0
    else StandsFor(text[|text| - 1], n % base) && Spells(text[..|text| - 1], base, n / base)
  }

  /** `text` writes the bytes, two digits each. */
  predicate SpellsBytes(text: string, bytes: seq<Byte>) {
    && |text| == 2 * |bytes|
    && forall i | 0 <= i < |bytes| :: Spells(text[2 * i..2 * i + 2], 16, bytes[i])
  }

  // ----------------------------------------------------------------- the server's texts

  /** ISO dates, the server's default. */
  predicate ShowsDate(text: string, d: Date) {
    && |text| == 10 && text[4] == '-' && text[7] == '-'
    && d.year >= 0 && Spells(text[..4], 10, d.year) && Spells(text[5..7], 10, d.month) && Spells(text[8..], 10, d.day)
  }

  predicate ShowsTime(text: string, t: Time) {
    && |text| == 8 && text[2] == ':' && text[5] == ':'
    && Spells(text[..2], 10, t.hour) && Spells(text[3..5], 10, t.minute) && Spells(text[6..], 10, t.second)
  }

  /** Nothing, or a dot and one to nine digits: what they would be with nine. */
  predicate ShowsFraction(text: string, nanos: nat) {
    if text == "" then nanos == 0
    else text[0] == '.' && 2 <= |text| <= 10 && Spells(text[1..] + Zeros(10 - |text|), 10, nanos)
  }

  /** Nothing, or an offset such as +02. */
  predicate ShowsZone(text: string) {
    text != "" ==> text[0] == '+' || text[0] == '-'
  }

  ghost predicate ShowsClock(text: string, t: Time, nanos: nat) {
    exists k | 8 <= k <= |text| ::
      ShowsTime(text[..8], t) && ShowsFraction(text[8..k], nanos) && ShowsZone(text[k..])
  }

  ghost predicate ShowsTimestamp(text: string, t: Timestamp) {
    && |text| >= 11 && (text[10] == ' ' || text[10] == 'T')
    && ShowsDate(text[..10], t.date) && ShowsClock(text[11..], t.time, t.fraction)
  }

  predicate ShowsGuid(text: string, g: Guid) {
    && |text| == 36 && |g.data4| == 8
    && text[8] == '-' && text[13] == '-' && text[18] == '-' && text[23] == '-'
    && Spells(text[..8], 16, g.data1) && Spells(text[9..13], 16, g.data2) && Spells(text[14..18], 16, g.data3)
    && SpellsBytes(text[19..23], g.data4[..2]) && SpellsBytes(text[24..], g.data4[2..])
  }

  predicate ShowsInt(text: string, v: int) {
    if v < 0 then |text| >= 2 && text[0] == '-' && Spells(text[1..], 10, -v)
    else text != "" && Spells(text, 10, v)
  }

  /** The server writes this text for the value of `c` in a column of this type. */
  ghost predicate Renders(t: ColumnType, text: string, c: Cell) {
    match t
    case Bit => c.BitCell? && text == if c.b then "t" else "f"
    case DateType => c.DateCell? && ShowsDate(text, c.date)
    case TimeType => c.TimeCell? && exists nanos: nat :: ShowsClock(text, c.time, nanos)
    case TimestampType => c.TimestampCell? && ShowsTimestamp(text, c.stamp)
    case GuidType => c.GuidCell? && ShowsGuid(text, c.guid)
    case CString(_) => c.TextCell? && text == c.text
    case BString(_) => c.BytesCell? && |text| >= 2 && text[..2] == "\\x" && SpellsBytes(text[2..], c.bytes)
    case Unsupported => false
    case _ => c.IntCell? && ShowsInt(text, c.v)
  }

  /** The column can show the value: an integer has to be in the range of its type. */
  predicate Fits(t: ColumnType, c: Cell) {
    c.IntCell? ==> Lowest(t) <= c.v < -Lowest(t)
  }

  /** A string longer than its column is cut. */
  function Fitted(t: ColumnType, c: Cell): Cell {
    match (t, c)
    case (CString(size), TextCell(text)) => TextCell(Cut(text, size))
    case (BString(size), BytesCell(bytes)) => BytesCell(Cut(bytes, size))
    case _ => c
  }

  // ---------------------------------------------------------------------- reading digits

  /** The same digits and hyphens, whatever the case. */
  predicate Alike(a: string, b: string) {
    |a| == |b| && forall i | 0 <= i < |a| :: HexVal(a[i]) == HexVal(b[i]) && (a[i] == '-' <==> b[i] == '-')
  }

  lemma {:induction false} DigitStands(c: char, d: nat)
    requires d < 16
    ensures StandsFor(c, d) ==> HexVal(c) == Some(d) == HexVal(DigitChar(d)) && c != '-' && DigitChar(d) != '-'
    ensures StandsFor(c, d) && d < 10 ==> c == DigitChar(d)
    ensures StandsFor(DigitChar(d), d)
  {
  }

  lemma {:induction false} SpellsFixed(text: string, base: nat, n: nat)
    requires Base(base) && Spells(text, base, n)
    ensures Alike(text, Fixed(n, base, |text|))
  {
    if text != "" {
      var k := |text| - 1;
      var rest := Fixed(n / base, base, k);
      SpellsFixed(text[..k], base, n / base);
      DigitStands(text[k], n % base);
      AlikeNext(text[..k], rest, text[k], DigitChar(n % base));
      assert text == text[..k] + [text[k]];
    }
  }

  lemma {:induction false} SpellsBound(text: string, base: nat, n: nat)
    requires Base(base) && Spells(text, base, n)
    ensures n < Power(base, |text|)
  {
    if text != "" {
      SpellsBound(text[..|text| - 1], base, n / base);
      Shorter(n, base, |text|);
    }
  }

  lemma {:induction false} AlikeNext(a: string, b: string, c: char, d: char)
    requires Alike(a, b) && HexVal(c) == HexVal(d) && c != '-' && d != '-'
    ensures Alike(a + [c], b + [d])
  {
  }

  lemma {:induction false} AlikeJoin(a: string, b: string, c: string, d: string)
    requires Alike(a, b) && Alike(c, d)
    ensures Alike(a + c, b + d)
  {
  }

  /** Decimal digits have one case. */
  lemma {:induction false} SpellsDecimal(text: string, n: nat)
    requires Spells(text, 10, n)
    ensures n < Power(10, |text|) && text == Fixed(n, 10, |text|)
  {
    if text != "" {
      var k := |text| - 1;
      SpellsDecimal(text[..k], n / 10);
      Shorter(n, 10, |text|);
      DigitStands(text[k], n % 10);
      assert text == text[..k] + [text[k]];
    }
  }

  lemma {:induction false} FixedSpells(n: nat, base: nat, w: nat)
    requires Base(base) && n < Power(base, w)
    ensures Spells(Fixed(n, base, w), base, n)
  {
    if w > 0 {
      Shorter(n, base, w);
      FixedSpells(n / base, base, w - 1);
      DigitStands(DigitChar(n % base), n % base);
      assert Fixed(n, base, w)[..w - 1] == Fixed(n / base, base, w - 1);
    }
  }

  lemma {:induction false} NumeralSpells(n: nat, base: nat)
    requires Base(base)
    ensures Spells(Numeral(n, base), base, n)
  {
    var s := Numeral(n, base);
    DigitStands(DigitChar(n % base), n % base);
    if n < base {
      assert s[..0] == "";
    } else {
      NumeralSpells(n / base, base);
      assert s[..|s| - 1] == Numeral(n / base, base);
    }
  }

  // -------------------------------------------------------------------- reading values

  lemma {:induction false} IntReads(text: string, v: int, low: int, high: int)
    requires ShowsInt(text, v)
    ensures ParseInt(text, low, high) == if low <= v <= high then Some(v) else None
  {
    var n := if v < 0 then -v else v;
    var start := if v < 0 then 1 else 0;
    var digits := text[start..];
    assert start == 0 ==> digits == text;
    SpellsDecimal(digits, n);
    FixedDecimal(n, |digits|);
    FixedValue(n, 10, |digits|);
    assert digits[0] == text[start];
    DigitsToTheEnd(text, start);
    assert text[start..|text|] == digits;
  }

  lemma {:induction false} SplitTriple(text: string, k: nat, c: char)
    requires |text| == k + 6 && text[k] == c && text[k + 3] == c
    ensures text == text[..k] + [c] + text[k + 1..k + 3] + [c] + text[k + 4..]
  {
  }

  lemma {:induction false} DateReads(s: string, d: Date)
    requires |s| >= 10 && ShowsDate(s[..10], d)
    ensures ReadTriple(s, 0, 4, '-') == Some((d.year, d.month, d.day))
  {
    var text := s[..10];
    PowersOfTen();
    SplitTriple(text, 4, '-');
    SpellsDecimal(text[..4], d.year);
    SpellsDecimal(text[5..7], d.month);
    SpellsDecimal(text[8..], d.day);
    assert s[0..10] == text;
    ReadsTriple(s, 0, d.year, 4, '-', d.month, d.day);
  }

  lemma {:induction false} TimeReads(s: string, p: nat, t: Time)
    requires p + 8 <= |s| && ShowsTime(s[p..p + 8], t)
    ensures ReadTriple(s, p, 2, ':') == Some((t.hour, t.minute, t.second))
  {
    var text := s[p..p + 8];
    PowersOfTen();
    SplitTriple(text, 2, ':');
    SpellsDecimal(text[..2], t.hour);
    SpellsDecimal(text[3..5], t.minute);
    SpellsDecimal(text[6..], t.second);
    ReadsTriple(s, p, t.hour, 2, ':', t.minute, t.second);
  }

  /** A fraction ends where its digits do. */
  lemma {:induction false} NanosUpTo(s: string, p: nat, k: nat, scale: nat)
    requires p <= k <= |s| && AllDigits(s[p..k]) && (k < |s| ==> !IsDigit(s[k]))
    ensures Nanos(s, p, scale) == Nanos(s[..k], p, scale)
    decreases k - p
  {
    if p < k {
      assert s[p..k][0] == s[p] && s[p + 1..k] == s[p..k][1..];
      NanosUpTo(s, p + 1, k, scale / 10);
    }
  }

  lemma {:induction false} FractionReads(s: string, p: nat, k: nat, nanos: nat)
    requires p <= k <= |s| && ShowsFraction(s[p..k], nanos) && ShowsZone(s[k..])
    ensures ReadFraction(s, p) == nanos
  {
    assert k < |s| ==> s[k..][0] == s[k];
    if p < k {
      var text := s[p..k];
      var digits, z := text[1..], 10 - |text|;
      assert s[p] == text[0] && digits == s[p + 1..k];
      SpellsDecimal(digits + Zeros(z), nanos);
      FixedDecimal(nanos, 9);
      FixedValue(nanos, 10, 9);
      assert digits == (digits + Zeros(z))[..|digits|];
      NanosUpTo(s, p + 1, k, 100_000_000);
      assert s[..k][p + 1..] == digits;
      TrailingZeros(s[..k], p + 1, 100_000_000, z);
      var padded := s[..k] + Zeros(z);
      assert padded[p + 1..] == digits + Zeros(z);
      NanosOfDigits(padded, p + 1);
      PowersOfTen();
    }
  }

  lemma {:induction false} SliceOfRest(s: string, a: nat, i: nat, j: nat)
    requires a <= |s| && i <= j <= |s| - a
    ensures s[a..][i..j] == s[a + i..a + j]
  {
  }

  lemma {:induction false} ClockReads(s: string, p: nat, t: Time, nanos: nat)
    requires p <= |s| && ShowsClock(s[p..], t, nanos)
    ensures ReadTriple(s, p, 2, ':') == Some((t.hour, t.minute, t.second))
    ensures p + 8 <= |s| && ReadFraction(s, p + 8) == nanos
  {
    var clock := s[p..];
    var k :| 8 <= k <= |clock| &&
             ShowsTime(clock[..8], t) && ShowsFraction(clock[8..k], nanos) && ShowsZone(clock[k..]);
    SliceOfRest(s, p, 0, 8);
    assert clock[0..8] == clock[..8];
    TimeReads(s, p, t);
    SliceOfRest(s, p, 8, k);
    assert clock[k..] == s[p + k..];
    FractionReads(s, p + 8, p + k, nanos);
  }

  lemma {:induction false} TimestampReads(s: string, t: Timestamp)
    requires ShowsTimestamp(s, t)
    ensures ParseTimestamp(s) == Some(t)
  {
    DateReads(s, t.date);
    ClockReads(s, 11, t.time, t.fraction);
  }

  // ------------------------------------------------------------------- hexadecimal texts

  lemma {:induction false} BytesAlike(text: string, bytes: seq<Byte>)
    requires SpellsBytes(text, bytes)
    ensures Alike(text, Hex(bytes))
    decreases |bytes|
  {
    if bytes != [] {
      var rest := text[2..];
      assert text[..2] == text[2 * 0..2 * 0 + 2];
      SpellsFixed(text[..2], 16, bytes[0]);
      forall i | 0 <= i < |bytes| - 1
        ensures Spells(rest[2 * i..2 * i + 2], 16, bytes[1..][i])
      {
        assert rest[2 * i..2 * i + 2] == text[2 * (i + 1)..2 * (i + 1) + 2];
      }
      BytesAlike(rest, bytes[1..]);
      AlikeJoin(text[..2], HexPair(bytes[0]), rest, Hex(bytes[1..]));
      assert text == text[..2] + rest;
    }
  }

  lemma {:induction false} AlikeDecodes(a: string, b: string, i: nat, capacity: nat)
    requires Alike(a, b)
    ensures DecodeFrom(a, i, capacity) == DecodeFrom(b, i, capacity)
    decreases capacity
  {
    if capacity > 0 && PairAt(a, i).Some? {
      AlikeDecodes(a, b, i + 2, capacity - 1);
    }
  }

  lemma {:induction false} AlikeGuids(a: string, b: string, i: nat, need: nat)
    requires Alike(a, b)
    ensures GuidBytes(a, i, need) == GuidBytes(b, i, need)
    decreases |a| - i
  {
    if need > 0 && i < |a| {
      if a[i] == '-' {
        AlikeGuids(a, b, i + 1, need);
      } else if PairAt(a, i).Some? {
        AlikeGuids(a, b, i + 2, need - 1);
      }
    }
  }

  lemma {:induction false} ByteaReads(text: string, bytes: seq<Byte>, capacity: nat)
    requires |text| >= 2 && text[..2] == "\\x" && SpellsBytes(text[2..], bytes)
    ensures DecodeBytea(text, capacity) == Cut(bytes, capacity)
  {
    BytesAlike(text[2..], bytes);
    AlikeJoin("\\x", "\\x", text[2..], Hex(bytes));
    assert text == "\\x" + text[2..];
    AlikeDecodes(text, EncodeBytea(bytes), 2, capacity);
    ByteaRoundTrip(bytes, capacity);
    assert bytes[..|bytes|] == bytes;
  }

  lemma {:induction false} SpellsGroup(text: string, n: nat)
    requires Spells(text, 16, n)
    ensures n < Power(16, |text|) && Alike(text, Pad(n, 16, |text|))
  {
    SpellsBound(text, 16, n);
    SpellsFixed(text, 16, n);
  }

  lemma {:induction false} GuidAlike(text: string, g: Guid)
    requires ShowsGuid(text, g)
    ensures GuidStored(g) && Alike(text, FormatGuid(g))
  {
    PowersOfSixteen();
    SpellsGroup(text[..8], g.data1);
    SpellsGroup(text[9..13], g.data2);
    SpellsGroup(text[14..18], g.data3);
    BytesAlike(text[19..23], g.data4[..2]);
    BytesAlike(text[24..], g.data4[2..]);
    var a, b := text[..8] + "-", Pad(g.data1, 16, 8) + "-";
    AlikeJoin(text[..8], Pad(g.data1, 16, 8), "-", "-");
    AlikeGroup(a, b, text[9..13], Pad(g.data2, 16, 4));
    a, b := a + text[9..13] + "-", b + Pad(g.data2, 16, 4) + "-";
    AlikeGroup(a, b, text[14..18], Pad(g.data3, 16, 4));
    a, b := a + text[14..18] + "-", b + Pad(g.data3, 16, 4) + "-";
    AlikeGroup(a, b, text[19..23], Hex(g.data4[..2]));
    a, b := a + text[19..23] + "-", b + Hex(g.data4[..2]) + "-";
    AlikeJoin(a, b, text[24..], Hex(g.data4[2..]));
    PartsOfGuid(text);
  }

  lemma {:induction false} PartsOfGuid(text: string)
    requires |text| == 36 && text[8] == '-' && text[13] == '-' && text[18] == '-' && text[23] == '-'
    ensures text == text[..8] + "-" + text[9..13] + "-" + text[14..18] + "-" + text[19..23] + "-" + text[24..]
  {
  }

  lemma {:induction false} AlikeGroup(a: string, b: string, c: string, d: string)
    requires Alike(a, b) && Alike(c, d)
    ensures Alike(a + c + "-", b + d + "-")
  {
    AlikeJoin(a, b, c, d);
    AlikeJoin(a + c, b + d, "-", "-");
  }

  lemma {:induction false} GuidTextReads(text: string, g: Guid)
    requires ShowsGuid(text, g)
    ensures ParseGuid(text) == Some(g)
  {
    GuidAlike(text, g);
    GuidRoundTrip(g);
    AlikeGuids(text, FormatGuid(g), 0, 16);
  }

  // ---------------------------------------------------------------------- main results

  /** Whatever the server writes for a value is stored as that value, if the column can show it. */
  lemma {:induction false} ServerTextIsRead(t: ColumnType, text: string, c: Cell)
    requires Renders(t, text, c)
    ensures Store(t, text) == if Fits(t, c) then Some(Fitted(t, c)) else None
  {
    match c
    case IntCell(v) => IntReads(text, v, Lowest(t), -Lowest(t) - 1);
    case BitCell(_) =>
    case DateCell(d) =>
      assert text[..10] == text;
      DateReads(text, d);
    case TimeCell(d) =>
      var nanos: nat :| ShowsClock(text, d, nanos);
      assert text[0..] == text;
      ClockReads(text, 0, d, nanos);
    case TimestampCell(d) => TimestampReads(text, d);
    case GuidCell(g) => GuidTextReads(text, g);
    case TextCell(_) =>
    case BytesCell(bytes) => ByteaReads(text, bytes, t.size);
  }

  lemma {:induction false} HeldIsRead(t: ColumnType, text: string, c: Cell)
    requires Renders(t, text, c) && Held(t, c)
    ensures Store(t, text) == Some(c)
  {
    ServerTextIsRead(t, text, c);
  }

  /** The server marks a date before our era behind it, which nothing reads: the year is taken as one of ours. */
  lemma {:induction false} EraIsLost(text: string, d: Date)
    requires ShowsDate(text, d)
    ensures Store(DateType, text + " BC") == Some(DateCell(d))
  {
    var s := text + " BC";
    assert s[..10] == text;
    DateReads(s, d);
  }

  /** A year of five digits or more is no date to the client: the cell is shown as null. */
  lemma {:induction false} LongYearsAreNull(text: string, k: nat, year: nat)
    requires 5 <= k <= |text| && Spells(text[..k], 10, year)
    ensures Store(DateType, text).None? && Store(TimestampType, text).None?
  {
    SpellsDecimal(text[..k], year);
    FixedDecimal(year, k);
    assert text[4] == text[..k][4];
  }

  /** The rows of the result set are the server's texts for this table; none is SQL NULL. */
  ghost predicate Shows(f: Fetching, table: seq<seq<Option<Cell>>>) {
    && |table| == |f.source|
    && forall i | 0 <= i < |table| ::
         && |table[i]| == |f.columns| == |f.source[i]|
         && forall c | 0 <= c < |f.columns| :: ShowsCell(f.columns[c], f.source[i][c], table[i][c])
  }

  ghost predicate ShowsCell(t: ColumnType, text: Option<string>, cell: Option<Cell>) {
    text.Some? == cell.Some? && (text.Some? ==> Renders(t, text.value, cell.value))
  }

  /** A caller who fetches to the end sees the server's table, row by row and cell by cell. */
  lemma {:induction false} TheTableIsSeen(f: Fetching, table: seq<seq<Option<Cell>>>, i: nat, c: nat)
    requires Good(f) && Shows(f, table) && i < |table| && c < |f.columns|
    ensures |Seen(f, Rounds(f))| == |table| && |Seen(f, Rounds(f))[i]| == |f.columns|
    ensures var slot, cell := Seen(f, Rounds(f))[i][c], table[i][c];
            && (cell.None? ==> slot.indicator == NULL_DATA)
            && (cell.Some? && Held(f.columns[c], cell.value) ==> slot.value == cell)
            && (cell.Some? && Fits(f.columns[c], cell.value) ==> slot.value == Some(Fitted(f.columns[c], cell.value)))
            && (cell.Some? && !Fits(f.columns[c], cell.value) ==> slot.indicator == NULL_DATA)
            && (cell.Some? && f.columns[c].CString? ==> slot.indicator == Min(|cell.value.text|, f.columns[c].size))
            && (cell.Some? && f.columns[c].BString? ==> slot.indicator == Min(|cell.value.bytes|, f.columns[c].size))
  {
    WindowsAreTheResult(f, i, c);
    if f.columns[c].CString? || f.columns[c].BString? {
      StringIndicator(f, i, c);
    }
    var t, text, cell := f.columns[c], f.source[i][c], table[i][c];
    assert ShowsCell(t, text, cell);
    if cell.Some? {
      ServerTextIsRead(t, text.value, cell.value);
    }
  }

  // ---------------------------------------------------------------------- what is sent

  /** A text the server takes for the value of `c`: what it writes itself, and whole words for booleans. */
  ghost predicate Understood(t: ColumnType, text: string, c: Cell) {
    if c.BitCell? then t.Bit? && text == if c.b then "true" else "false" else Renders(t, text, c)
  }

  lemma {:induction false} PadSpells(n: nat, base: nat, w: nat)
    requires Base(base) && n < Power(base, w)
    ensures |Pad(n, base, w)| == w && Spells(Pad(n, base, w), base, n)
  {
    FixedSpells(n, base, w);
  }

  lemma {:induction false} DateIsShown(d: Date)
    requires DateInRange(d)
    ensures ShowsDate(FormatDate(d), d)
  {
    PowersOfTen();
    var y, m, e := Pad(d.year, 10, 4), Pad(d.month, 10, 2), Pad(d.day, 10, 2);
    PadSpells(d.year, 10, 4);
    PadSpells(d.month, 10, 2);
    PadSpells(d.day, 10, 2);
    var s := y + "-" + m + "-" + e;
    assert s[..4] == y && s[5..7] == m && s[8..] == e;
  }

  lemma {:induction false} TimeIsShown(t: Time)
    requires TimeInRange(t)
    ensures ShowsTime(FormatTime(t), t)
  {
    PowersOfTen();
    var h, m, e := Pad(t.hour, 10, 2), Pad(t.minute, 10, 2), Pad(t.second, 10, 2);
    PadSpells(t.hour, 10, 2);
    PadSpells(t.minute, 10, 2);
    PadSpells(t.second, 10, 2);
    var s := h + ":" + m + ":" + e;
    assert s[..2] == h && s[3..5] == m && s[6..] == e;
  }

  lemma {:induction false} ClockIsShown(text: string, t: Time, fraction: string, nanos: nat)
    requires |text| == 8 && ShowsTime(text, t) && ShowsFraction(fraction, nanos)
    ensures ShowsClock(text + fraction, t, nanos)
  {
    var s := text + fraction;
    var k := |s|;
    assert s[..8] == text && s[8..k] == fraction && s[k..] == "";
  }

  lemma {:induction false} FractionIsShown(nanos: nat)
    requires nanos < 1_000_000_000
    ensures ShowsFraction("." + Pad(nanos, 10, 9), nanos)
  {
    PowersOfTen();
    PadSpells(nanos, 10, 9);
    var digits := Pad(nanos, 10, 9);
    assert ("." + digits)[1..] == digits && digits + Zeros(0) == digits;
  }

  lemma {:induction false} TimestampIsShown(t: Timestamp)
    requires TimestampInRange(t)
    ensures ShowsTimestamp(FormatTimestamp(t), t)
  {
    DateIsShown(t.date);
    TimeIsShown(t.time);
    FractionIsShown(t.fraction);
    ClockIsShown(FormatTime(t.time), t.time, "." + Pad(t.fraction, 10, 9), t.fraction);
    StampLayout(FormatDate(t.date), FormatTime(t.time), Pad(t.fraction, 10, 9));
  }

  lemma {:induction false} StampLayout(date: string, time: string, digits: string)
    requires |date| == 10
    ensures var s := date + " " + time + "." + digits;
            |s| >= 11 && s[10] == ' ' && s[..10] == date && s[11..] == time + ("." + digits)
  {
  }

  lemma {:induction false} BytesAreShown(bytes: seq<Byte>)
    ensures SpellsBytes(Hex(bytes), bytes)
  {
    if bytes != [] {
      PowersOfSixteen();
      FixedSpells(bytes[0], 16, 2);
      var rest := bytes[1..];
      BytesAreShown(rest);
      var s := Hex(bytes);
      assert s[0..2] == HexPair(bytes[0]);
      forall i | 0 <= i < |bytes|
        ensures Spells(s[2 * i..2 * i + 2], 16, bytes[i])
      {
        if i > 0 {
          assert s[2 * i..2 * i + 2] == Hex(rest)[2 * (i - 1)..2 * (i - 1) + 2];
        }
      }
    }
  }

  lemma {:induction false} GuidIsShown(g: Guid)
    requires GuidStored(g)
    ensures ShowsGuid(FormatGuid(g), g)
  {
    PowersOfSixteen();
    PadSpells(g.data1, 16, 8);
    PadSpells(g.data2, 16, 4);
    PadSpells(g.data3, 16, 4);
    BytesAreShown(g.data4[..2]);
    BytesAreShown(g.data4[2..]);
    GroupsStand(Pad(g.data1, 16, 8), Pad(g.data2, 16, 4), Pad(g.data3, 16, 4), Hex(g.data4[..2]), Hex(g.data4[2..]));
  }

  lemma {:induction false} GroupsStand(a: string, b: string, c: string, d: string, e: string)
    requires |a| == 8 && |b| == 4 && |c| == 4 && |d| == 4 && |e| == 12
    ensures var s := a + "-" + b + "-" + c + "-" + d + "-" + e;
            && |s| == 36 && s[8] == '-' && s[13] == '-' && s[18] == '-' && s[23] == '-'
            && s[..8] == a && s[9..13] == b && s[14..18] == c && s[19..23] == d && s[24..] == e
  {
  }

  /** Every cell is sent as a text that the server takes for its value. */
  lemma {:induction false} SentTextIsUnderstood(t: ColumnType, c: Cell)
    requires Held(t, c) && Printable(c)
    ensures Understood(t, Load(t, c), c)
  {
    match c
    case IntCell(v) =>
      NumeralSpells(if v < 0 then -v else v, 10);
      assert v < 0 ==> ShowInt(v)[1..] == Numeral(-v, 10);
    case BitCell(_) =>
    case DateCell(d) => DateIsShown(d);
    case TimeCell(d) =>
      TimeIsShown(d);
      assert |FormatTime(d)| == 8 && FormatTime(d) + "" == FormatTime(d);
      ClockIsShown(FormatTime(d), d, "", 0);
    case TimestampCell(d) => TimestampIsShown(d);
    case GuidCell(g) => GuidIsShown(g);
    case TextCell(_) =>
    case BytesCell(bytes) =>
      BytesAreShown(bytes);
      assert EncodeBytea(bytes)[..2] == "\\x" && EncodeBytea(bytes)[2..] == Hex(bytes);
  }
}
