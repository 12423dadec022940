/**
How the PostgreSQL runtime turns a buffer cell into the text it sends, and the text
it receives into a buffer cell.
*/
module PsqlCells {
  import opened Wrappers
  import opened Numerals
  import opened PsqlDateTime

  type Byte = b: int | 0 <= b < 256

  // ------------------------------------------------------------------------- bytea

  function HexPair(b: Byte): (s: string)
    ensures |s| == 2
  {
    Fixed(b, 16, 2)
  }

  function Hex(bytes: seq<Byte>): (s: string)
    ensures |s| == 2 * |bytes|
  {
    if bytes == [] then "" else HexPair(bytes[0]) + Hex(bytes[1..])
  }

  function EncodeBytea(bytes: seq<Byte>): string {
    "\\x" + Hex(bytes)
  }

  /** The byte that two hexadecimal digits at `i` stand for. */
  function PairAt(s: string, i: nat): Option<Byte> {
    if i + 1 < |s| && HexVal(s[i]).Some? && HexVal(s[i + 1]).Some? then
      Some(HexVal(s[i]).value * 16 + HexVal(s[i + 1]).value)
    else None
  }

  function DecodeFrom(s: string, i: nat, capacity: nat): (bytes: seq<Byte>)
    ensures |bytes| <= capacity
    decreases capacity
  {
    if capacity > 0 && PairAt(s, i).Some? then [PairAt(s, i).value] + DecodeFrom(s, i + 2, capacity - 1) else []
  }

  function BodyAt(s: string): nat {
    if |s| >= 2 && s[0] == '\\' && (s[1] == 'x' || s[1] == 'X') then 2 else 0
  }

  function DecodeBytea(s: string, capacity: nat): seq<Byte> {
    DecodeFrom(s, BodyAt(s), capacity)
  }

  lemma {:induction false} PairReads(s: string, i: nat, b: Byte)
    requires Holds(s, i, HexPair(b))
    ensures PairAt(s, i) == Some(b)
  {
    var t := HexPair(b);
    assert Fixed(b / 16, 16, 1) == Fixed(b / 16 / 16, 16, 0) + [DigitChar(b / 16 % 16)];
    assert t == [DigitChar(b / 16), DigitChar(b % 16)];
    assert s[i..i + 2][0] == s[i] && s[i..i + 2][1] == s[i + 1];
    DigitReads(b / 16);
    DigitReads(b % 16);
  }

  lemma {:induction false} DecodesHex(s: string, i: nat, bytes: seq<Byte>, capacity: nat)
    requires Holds(s, i, Hex(bytes)) && i + |Hex(bytes)| == |s|
    ensures DecodeFrom(s, i, capacity) == if capacity <= |bytes| then bytes[..capacity] else bytes
    decreases capacity
  {
    if capacity > 0 && bytes != [] {
      HoldsSplit(s, i, HexPair(bytes[0]), Hex(bytes[1..]));
      PairReads(s, i, bytes[0]);
      DecodesHex(s, i + 2, bytes[1..], capacity - 1);
    }
  }

  /** What was encoded is decoded, up to the capacity. */
  lemma {:induction false} ByteaRoundTrip(bytes: seq<Byte>, capacity: nat)
    ensures DecodeBytea(EncodeBytea(bytes), capacity) == if capacity <= |bytes| then bytes[..capacity] else bytes
  {
    var s := EncodeBytea(bytes);
    assert s[2..] == Hex(bytes);
    DecodesHex(s, 2, bytes, capacity);
  }

  /** decode_bytea(), into the column's slot. */
  method DecodeInto(s: string, dst: array<Byte>, capacity: nat) returns (n: nat)
    requires capacity <= dst.Length
    modifies dst
    ensures n <= capacity && dst[..n] == DecodeBytea(s, capacity)
    ensures dst[n..] == old(dst[n..])
  {
    var start := BodyAt(s);
    n := 0;
    while n < capacity && PairAt(s, start + 2 * n).Some?
      invariant 0 <= n <= capacity
      invariant dst[..n] + DecodeFrom(s, start + 2 * n, capacity - n) == DecodeBytea(s, capacity)
      invariant dst[n..] == old(dst[n..])
    {
      ghost var before := dst[..n];
      dst[n] := PairAt(s, start + 2 * n).value;
      assert dst[..n] == before;
      assert dst[..n + 1] == before + [dst[n]];
      n := n + 1;
    }
  }

  /** encode_bytea() */
  method EncodeFrom(src: array<Byte>, length: nat) returns (s: string)
    requires length <= src.Length
    ensures s == EncodeBytea(src[..length])
  {
    s := "\\x";
    var i := 0;
    while i < length
      invariant 0 <= i <= length && s + Hex(src[i..length]) == EncodeBytea(src[..length])
    {
      assert src[i..length][1..] == src[i + 1..length];
      s := s + HexPair(src[i]);
      i := i + 1;
    }
    assert src[i..length] == [];
  }

  // -------------------------------------------------------------------------- guid

  datatype Guid = Guid(data1: nat, data2: nat, data3: nat, data4: seq<Byte>)

  predicate GuidStored(g: Guid) {
    g.data1 < 0x1_0000_0000 && g.data2 < 0x1_0000 && g.data3 < 0x1_0000 && |g.data4| == 8
  }

  /** The last `k` bytes of `n`, the most significant first. */
  function BigEndian(n: nat, k: nat): (bytes: seq<Byte>)
    ensures |bytes| == k
  {
    if k == 0 then [] else BigEndian(n / 256, k - 1) + [n % 256]
  }

  function FromBytes(bytes: seq<Byte>): nat {
    if bytes == [] then 0 else FromBytes(bytes[..|bytes| - 1]) * 256 + bytes[|bytes| - 1]
  }

  function FormatGuid(g: Guid): string
    requires |g.data4| == 8
  {
    Pad(g.data1, 16, 8) + "-" + Pad(g.data2, 16, 4) + "-" + Pad(g.data3, 16, 4) + "-"
    + Hex(g.data4[..2]) + "-" + Hex(g.data4[2..])
  }

  /** The next `need` bytes of a text of hexadecimal pairs and hyphens. */
  function GuidBytes(s: string, i: nat, need: nat): (r: Option<seq<Byte>>)
    ensures r.Some? ==> |r.value| == need
    decreases |s| - i
  {
    if need == 0 then Some([])
    else if i >= |s| then None
    else if s[i] == '-' then GuidBytes(s, i + 1, need)
    else if PairAt(s, i).None? then None
    else
      var rest := GuidBytes(s, i + 2, need - 1);
      if rest.None? then None else Some([PairAt(s, i).value] + rest.value)
  }

  function Assemble(b: seq<Byte>): Guid
    requires |b| == 16
  {
    Guid(FromBytes(b[..4]), FromBytes(b[4..6]), FromBytes(b[6..8]), b[8..])
  }

  function ParseGuid(s: string): Option<Guid> {
    var b := GuidBytes(s, 0, 16);
    if b.None? then None else Some(Assemble(b.value))
  }

  function Power256(k: nat): (r: nat)
    ensures r > 0
  {
    if k == 0 then 1 else 256 * Power256(k - 1)
  }

  lemma {:induction false} BigEndianReads(n: nat, k: nat)
    requires n < Power256(k)
    ensures FromBytes(BigEndian(n, k)) == n
  {
    if k > 0 {
      BigEndianReads(n / 256, k - 1);
      assert BigEndian(n, k)[..k - 1] == BigEndian(n / 256, k - 1);
    }
  }

  lemma {:induction false} HexAppend(a: seq<Byte>, b: Byte)
    ensures Hex(a + [b]) == Hex(a) + HexPair(b)
  {
    if a == [] {
      assert a + [b] == [b];
    } else {
      HexAppend(a[1..], b);
      assert (a + [b])[1..] == a[1..] + [b];
    }
  }

  /** "%0<2k>x" writes the bytes of the number in pairs. */
  lemma {:induction false} FixedIsHex(n: nat, k: nat)
    ensures Fixed(n, 16, 2 * k) == Hex(BigEndian(n, k))
  {
    if k > 0 {
      FixedIsHex(n / 256, k - 1);
      HexAppend(BigEndian(n / 256, k - 1), n % 256);
      TwoDigits(n, 2 * k);
    }
  }

  lemma {:induction false} TwoDigits(n: nat, w: nat)
    requires w >= 2
    ensures Fixed(n, 16, w) == Fixed(n / 256, 16, w - 2) + HexPair(n % 256)
  {
    var low := n % 256;
    assert n / 16 / 16 == n / 256;
    assert n / 16 % 16 == low / 16 % 16 && n % 16 == low % 16;
    assert Fixed(n, 16, w) == Fixed(n / 16, 16, w - 1) + [DigitChar(n % 16)];
    assert Fixed(n / 16, 16, w - 1) == Fixed(n / 16 / 16, 16, w - 2) + [DigitChar(n / 16 % 16)];
    assert HexPair(low) == Fixed(low / 16, 16, 1) + [DigitChar(low % 16)];
    assert Fixed(low / 16, 16, 1) == Fixed(low / 16 / 16, 16, 0) + [DigitChar(low / 16 % 16)];
  }

  /** A run of pairs gives its bytes and goes on behind it. */
  lemma {:induction false} GuidReadsHex(s: string, i: nat, bytes: seq<Byte>, need: nat)
    requires Holds(s, i, Hex(bytes)) && |bytes| <= need
    ensures var rest := GuidBytes(s, i + |Hex(bytes)|, need - |bytes|);
            GuidBytes(s, i, need) == if rest.None? then None else Some(bytes + rest.value)
    decreases |bytes|
  {
    if bytes == [] {
      var rest := GuidBytes(s, i, need);
      assert rest.Some? ==> bytes + rest.value == rest.value;
    } else {
      HoldsSplit(s, i, HexPair(bytes[0]), Hex(bytes[1..]));
      PairReads(s, i, bytes[0]);
      NoHyphen(s, i, bytes[0]);
      GuidReadsHex(s, i + 2, bytes[1..], need - 1);
      var rest := GuidBytes(s, i + |Hex(bytes)|, need - |bytes|);
      assert rest.Some? ==> [bytes[0]] + (bytes[1..] + rest.value) == bytes + rest.value;
    }
  }

  lemma {:induction false} NoHyphen(s: string, i: nat, b: Byte)
    requires Holds(s, i, HexPair(b))
    ensures s[i] != '-'
  {
    PairReads(s, i, b);
  }

  lemma {:induction false} GuidGroup(s: string, i: nat, bytes: seq<Byte>, need: nat)
    requires Holds(s, i, Hex(bytes) + "-") && |bytes| < need
    ensures var rest := GuidBytes(s, i + |Hex(bytes)| + 1, need - |bytes|);
            GuidBytes(s, i, need) == if rest.None? then None else Some(bytes + rest.value)
  {
    HoldsSplit(s, i, Hex(bytes), "-");
    var j := i + |Hex(bytes)|;
    HoldsOne(s, j, '-');
    GuidReadsHex(s, i, bytes, need);
  }

  /** Every guid is read back as it was written. */
  lemma {:induction false} GuidRoundTrip(g: Guid)
    requires GuidStored(g)
    ensures ParseGuid(FormatGuid(g)) == Some(g)
  {
    GuidText(g);
    var b1, b2, b3, b4, b5 :=
      BigEndian(g.data1, 4), BigEndian(g.data2, 2), BigEndian(g.data3, 2), g.data4[..2], g.data4[2..];
    GuidReads(FormatGuid(g), b1, b2, b3, b4, b5);
    GuidAssembles(g, b1 + (b2 + (b3 + (b4 + (b5 + [])))));
  }

  lemma {:induction false} GuidReads(
    s: string, b1: seq<Byte>, b2: seq<Byte>, b3: seq<Byte>, b4: seq<Byte>, b5: seq<Byte>)
    requires |b1| == 4 && |b2| == 2 && |b3| == 2 && |b4| == 2 && |b5| == 6
    requires s == Hex(b1) + "-" + Hex(b2) + "-" + Hex(b3) + "-" + Hex(b4) + "-" + Hex(b5)
    ensures GuidBytes(s, 0, 16) == Some(b1 + (b2 + (b3 + (b4 + (b5 + [])))))
  {
    GuidLayout(s, b1, b2, b3, b4, b5);
    GuidReadsHex(s, 24, b5, 6);
    GuidGroup(s, 19, b4, 8);
    GuidGroup(s, 14, b3, 10);
    GuidGroup(s, 9, b2, 12);
    GuidGroup(s, 0, b1, 16);
  }

  lemma {:induction false} GuidText(g: Guid)
    requires GuidStored(g)
    ensures FormatGuid(g) == Hex(BigEndian(g.data1, 4)) + "-" + Hex(BigEndian(g.data2, 2)) + "-"
                             + Hex(BigEndian(g.data3, 2)) + "-" + Hex(g.data4[..2]) + "-" + Hex(g.data4[2..])
  {
    PowersOfSixteen();
    FixedIsHex(g.data1, 4);
    FixedIsHex(g.data2, 2);
    FixedIsHex(g.data3, 2);
  }

  lemma {:induction false} GuidLayout(
    s: string, b1: seq<Byte>, b2: seq<Byte>, b3: seq<Byte>, b4: seq<Byte>, b5: seq<Byte>)
    requires |b1| == 4 && |b2| == 2 && |b3| == 2 && |b4| == 2 && |b5| == 6
    requires s == Hex(b1) + "-" + Hex(b2) + "-" + Hex(b3) + "-" + Hex(b4) + "-" + Hex(b5)
    ensures |s| == 36
    ensures Holds(s, 0, Hex(b1) + "-") && Holds(s, 9, Hex(b2) + "-") && Holds(s, 14, Hex(b3) + "-")
    ensures Holds(s, 19, Hex(b4) + "-") && Holds(s, 24, Hex(b5))
  {
    assert s[0..9] == Hex(b1) + "-";
    assert s[9..14] == Hex(b2) + "-";
    assert s[14..19] == Hex(b3) + "-";
    assert s[19..24] == Hex(b4) + "-";
    assert s[24..36] == Hex(b5);
  }

  lemma {:induction false} GuidAssembles(g: Guid, b: seq<Byte>)
    requires GuidStored(g)
    requires b == BigEndian(g.data1, 4)
                  + (BigEndian(g.data2, 2) + (BigEndian(g.data3, 2) + (g.data4[..2] + (g.data4[2..] + []))))
    ensures |b| == 16 && Assemble(b) == g
  {
    assert b[..4] == BigEndian(g.data1, 4);
    assert b[4..6] == BigEndian(g.data2, 2);
    assert b[6..8] == BigEndian(g.data3, 2);
    assert b[8..] == g.data4;
    assert Power256(2) == 256 * Power256(1) && Power256(4) == 256 * Power256(3);
    BigEndianReads(g.data1, 4);
    BigEndianReads(g.data2, 2);
    BigEndianReads(g.data3, 2);
  }

  /** parse_guid() */
  method ParseGuidText(s: string) returns (r: Option<Guid>)
    ensures r == ParseGuid(s)
  {
    var bytes: seq<Byte> := [];
    var i := 0;
    ghost var all := GuidBytes(s, 0, 16);
    assert all.Some? ==> bytes + all.value == all.value;
    while i < |s| && |bytes| < 16
      invariant 0 <= i && |bytes| <= 16
      invariant var rest := GuidBytes(s, i, 16 - |bytes|);
                GuidBytes(s, 0, 16) == if rest.None? then None else Some(bytes + rest.value)
      decreases |s| - i
    {
      if s[i] == '-' {
        i := i + 1;
        continue;
      }
      var b := PairAt(s, i);
      if b.None? {
        return None;
      }
      ghost var rest := GuidBytes(s, i + 2, 15 - |bytes|);
      assert rest.Some? ==> bytes + ([b.value] + rest.value) == bytes + [b.value] + rest.value;
      bytes := bytes + [b.value];
      i := i + 2;
    }
    if |bytes| != 16 {
      return None;
    }
    assert bytes + [] == bytes;
    return Some(Assemble(bytes));
  }

  // ------------------------------------------------------------------------ integers

  function ShowInt(v: int): string {
    if v < 0 then "-" + Numeral(-v, 10) else Numeral(v, 10)
  }

  /** How many digits stand from `p` on. */
  function DigitsEnd(s: string, p: nat): (q: nat)
    requires p <= |s|
    ensures p <= q <= |s| && AllDigits(s[p..q])
    decreases |s| - p
  {
    if p < |s| && IsDigit(s[p]) then
      var q := DigitsEnd(s, p + 1);
      assert s[p..q] == [s[p]] + s[p + 1..q];
      q
    else p
  }

  /** std::from_chars(): an optional minus and all digits after it; what follows is ignored. */
  function ParseInt(s: string, low: int, high: int): Option<int> {
    var start := if s != "" && s[0] == '-' then 1 else 0;
    var end := DigitsEnd(s, start);
    var n: int := Value(s[start..end], 10);
    var v := if start == 1 then -n else n;
    if end > start && low <= v <= high then Some(v) else None
  }

  lemma {:induction false} DigitsToTheEnd(s: string, p: nat)
    requires p <= |s| && AllDigits(s[p..])
    ensures DigitsEnd(s, p) == |s|
    decreases |s| - p
  {
    if p < |s| {
      assert s[p..][0] == s[p];
      assert s[p + 1..] == s[p..][1..];
      DigitsToTheEnd(s, p + 1);
    }
  }

  /** An integer is read back exactly if the column's type can hold it. */
  lemma {:induction false} IntRoundTrip(v: int, low: int, high: int)
    ensures ParseInt(ShowInt(v), low, high) == if low <= v <= high then Some(v) else None
  {
    var n := if v < 0 then -v else v;
    var s, start := ShowInt(v), if v < 0 then 1 else 0;
    NumeralDecimal(n);
    NumeralValue(n, 10);
    assert s[start..] == Numeral(n, 10);
    assert IsDigit(Numeral(n, 10)[0]);
    DigitsToTheEnd(s, start);
    assert s[start..|s|] == s[start..];
  }

  // --------------------------------------------------------------------------- cells

  datatype ColumnType =
    | TinyInt | SmallInt | Integer | BigInt | Bit
    | DateType | TimeType | TimestampType | GuidType
    | CString(size: nat) | BString(size: nat)
    | Unsupported // wide strings and intervals

  datatype Cell =
    | IntCell(v: int)
    | BitCell(b: bool)
    | DateCell(date: Date)
    | TimeCell(time: Time)
    | TimestampCell(stamp: Timestamp)
    | GuidCell(guid: Guid)
    | TextCell(text: string)
    | BytesCell(bytes: seq<Byte>)

  function Lowest(t: ColumnType): int {
    match t
    case TinyInt => -0x80
    case SmallInt => -0x8000
    case Integer => -0x8000_0000
    case _ => -0x8000_0000_0000_0000
  }

  function Cut<T>(s: seq<T>, n: nat): seq<T> {
    if |s| <= n then s else s[..n]
  }

  /** store_value(): the cell a text becomes; none if it cannot be converted. */
  function Store(t: ColumnType, text: string): Option<Cell> {
    match t
    case Bit => Some(BitCell(text != "" && (text[0] == 't' || text[0] == 'T' || text[0] == '1')))
    case DateType => if ParseDate(text).Some? then Some(DateCell(ParseDate(text).value)) else None
    case TimeType => if ParseTime(text).Some? then Some(TimeCell(ParseTime(text).value)) else None
    case TimestampType => if ParseTimestamp(text).Some? then Some(TimestampCell(ParseTimestamp(text).value)) else None
    case GuidType => if ParseGuid(text).Some? then Some(GuidCell(ParseGuid(text).value)) else None
    case CString(size) => Some(TextCell(Cut(text, size)))
    case BString(size) => Some(BytesCell(DecodeBytea(text, size)))
    case Unsupported => None
    case _ =>
      var v := ParseInt(text, Lowest(t), -Lowest(t) - 1);
      if v.Some? then Some(IntCell(v.value)) else None
  }

  /** What the slot of a column of this type can hold. */
  predicate Held(t: ColumnType, c: Cell) {
    match t
    case Bit => c.BitCell?
    case DateType => c.DateCell?
    case TimeType => c.TimeCell?
    case TimestampType => c.TimestampCell?
    case GuidType => c.GuidCell? && GuidStored(c.guid)
    case CString(size) => c.TextCell? && |c.text| <= size
    case BString(size) => c.BytesCell? && |c.bytes| <= size
    case Unsupported => false
    case _ => c.IntCell? && Lowest(t) <= c.v < -Lowest(t)
  }

  /** load_value(): the text sent for a cell. */
  function Load(t: ColumnType, c: Cell): string
    requires Held(t, c)
  {
    match c
    case IntCell(v) => ShowInt(v)
    case BitCell(b) => if b then "true" else "false"
    case DateCell(d) => FormatDate(d)
    case TimeCell(d) => FormatTime(d)
    case TimestampCell(d) => FormatTimestamp(d)
    case GuidCell(g) => FormatGuid(g)
    case TextCell(text) => text
    case BytesCell(bytes) => EncodeBytea(bytes)
  }

  /** The fields of a date or time have the widths they are printed with. */
  predicate Printable(c: Cell) {
    match c
    case DateCell(d) => DateInRange(d)
    case TimeCell(d) => TimeInRange(d)
    case TimestampCell(d) => TimestampInRange(d)
    case _ => true
  }

  /**
  What is stored from the text of a cell is that cell: always for integers, booleans,
  guids, texts and bytes, and exactly within the printed widths for dates and times.
  */
  lemma {:induction false} CellRoundTrip(t: ColumnType, c: Cell)
    requires Held(t, c)
    ensures Store(t, Load(t, c)) == Some(c) <==> Printable(c)
  {
    match c
    case IntCell(v) => IntRoundTrip(v, Lowest(t), -Lowest(t) - 1);
    case BitCell(_) =>
    case DateCell(d) => DateRoundTrip(d);
    case TimeCell(d) => TimeRoundTrip(d);
    case TimestampCell(d) => TimestampRoundTrip(d);
    case GuidCell(g) => GuidRoundTrip(g);
    case TextCell(_) =>
    case BytesCell(bytes) =>
      ByteaRoundTrip(bytes, t.size);
      assert bytes[..|bytes|] == bytes;
  }
}
