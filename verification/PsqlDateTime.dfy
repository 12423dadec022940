/**
Dates, times and timestamps as the PostgreSQL runtime writes and reads them: fixed
width fields, and a fraction of a second that may be cut short or missing.
*/
module PsqlDateTime {
  import opened Wrappers
  import opened Numerals

  datatype Date = Date(year: int, month: nat, day: nat)
  datatype Time = Time(hour: nat, minute: nat, second: nat)
  datatype Timestamp = Timestamp(date: Date, time: Time, fraction: nat)

  // ---------------------------------------------------------------------- formatting

  /** "{:0<w>d}" of a number that may be negative; the sign counts. */
  function Signed(v: int, w: nat): string
    requires w > 0
  {
    if v >= 0 then Pad(v, 10, w) else "-" + Pad(-v, 10, w - 1)
  }

  function FormatDate(d: Date): string {
    Signed(d.year, 4) + "-" + Pad(d.month, 10, 2) + "-" + Pad(d.day, 10, 2)
  }

  function FormatTime(t: Time): string {
    Pad(t.hour, 10, 2) + ":" + Pad(t.minute, 10, 2) + ":" + Pad(t.second, 10, 2)
  }

  function FormatTimestamp(t: Timestamp): string {
    FormatDate(t.date) + " " + FormatTime(t.time) + "." + Pad(t.fraction, 10, 9)
  }

  // ------------------------------------------------------------------------ reading

  /** The number in the `n` digits at `p`, if they are digits. */
  function ReadDigits(s: string, p: nat, n: nat): (r: Option<nat>)
  {
    if p + n <= |s| && AllDigits(s[p..p + n]) then Some(Value(s[p..p + n], 10)) else None
  }

  predicate Expect(s: string, p: nat, c: char) {
    p < |s| && s[p] == c
  }

  /** Three numbers of `a`, two and two digits with `c` between them. */
  function ReadTriple(s: string, p: nat, a: nat, c: char): Option<(nat, nat, nat)> {
    var x, y, z := ReadDigits(s, p, a), ReadDigits(s, p + a + 1, 2), ReadDigits(s, p + a + 4, 2);
    if x.Some? && Expect(s, p + a, c) && y.Some? && Expect(s, p + a + 3, c) && z.Some? then
      Some((x.value, y.value, z.value))
    else None
  }

  function ParseDate(s: string): Option<Date> {
    var r := ReadTriple(s, 0, 4, '-');
    if r.Some? then Some(Date(r.value.0, r.value.1, r.value.2)) else None
  }

  function ParseTime(s: string): Option<Time> {
    var r := ReadTriple(s, 0, 2, ':');
    if r.Some? then Some(Time(r.value.0, r.value.1, r.value.2)) else None
  }

  /** The digits from `p` on, the first worth `scale` nanoseconds. */
  function Nanos(s: string, p: nat, scale: nat): nat
    requires p <= |s|
    decreases |s| - p
  {
    if p < |s| && IsDigit(s[p]) then (s[p] - '0') as nat * scale + Nanos(s, p + 1, scale / 10) else 0
  }

  function ReadFraction(s: string, p: nat): nat
    requires p <= |s|
  {
    if Expect(s, p, '.') then Nanos(s, p + 1, 100_000_000) else 0
  }

  function ParseTimestamp(s: string): Option<Timestamp> {
    var d := ReadTriple(s, 0, 4, '-');
    if d.None? then None
    else
      var p := if Expect(s, 10, ' ') || Expect(s, 10, 'T') then 11 else 10;
      var t := ReadTriple(s, p, 2, ':');
      if t.None? then None
      else Some(Timestamp(Date(d.value.0, d.value.1, d.value.2), Time(t.value.0, t.value.1, t.value.2),
                          ReadFraction(s, p + 8)))
  }

  // -------------------------------------------------------------------- what can be read

  predicate DateInRange(d: Date) {
    0 <= d.year <= 9999 && d.month <= 99 && d.day <= 99
  }

  predicate TimeInRange(t: Time) {
    t.hour <= 99 && t.minute <= 99 && t.second <= 99
  }

  predicate TimestampInRange(t: Timestamp) {
    DateInRange(t.date) && TimeInRange(t.time) && t.fraction < 1_000_000_000
  }

  lemma {:induction false} DigitsBound(s: string, p: nat, n: nat)
    requires ReadDigits(s, p, n).Some? && (n == 2 || n == 4)
    ensures ReadDigits(s, p, n).value <= if n == 2 then 99 else 9999
  {
    ValueBound(s[p..p + n]);
    PowersOfTen();
  }

  lemma {:induction false} TripleBound(s: string, p: nat, a: nat, c: char)
    requires ReadTriple(s, p, a, c).Some? && (a == 2 || a == 4)
    ensures var r := ReadTriple(s, p, a, c).value; r.0 <= (if a == 2 then 99 else 9999) && r.1 <= 99 && r.2 <= 99
  {
    DigitsBound(s, p, a);
    DigitsBound(s, p + a + 1, 2);
    DigitsBound(s, p + a + 4, 2);
  }

  lemma {:induction false} NanosBound(s: string, p: nat, k: nat)
    requires p <= |s|
    ensures Nanos(s, p, Power(10, k)) < Power(10, k + 1)
    decreases |s| - p
  {
    if p < |s| && IsDigit(s[p]) {
      var d := (s[p] - '0') as nat;
      assert d * Power(10, k) <= 9 * Power(10, k);
      if k > 0 {
        assert Power(10, k) / 10 == Power(10, k - 1);
        NanosBound(s, p + 1, k - 1);
      } else {
        NoNanos(s, p + 1);
      }
    }
  }

  lemma {:induction false} NoNanos(s: string, p: nat)
    requires p <= |s|
    ensures Nanos(s, p, 0) == 0
    decreases |s| - p
  {
    if p < |s| && IsDigit(s[p]) {
      NoNanos(s, p + 1);
    }
  }

  /** Nothing outside the printed widths is ever read. */
  lemma {:induction false} ParsedInRange(s: string)
    ensures ParseDate(s).Some? ==> DateInRange(ParseDate(s).value)
    ensures ParseTime(s).Some? ==> TimeInRange(ParseTime(s).value)
    ensures ParseTimestamp(s).Some? ==> TimestampInRange(ParseTimestamp(s).value)
  {
    if ReadTriple(s, 0, 4, '-').Some? {
      TripleBound(s, 0, 4, '-');
    }
    if ReadTriple(s, 0, 2, ':').Some? {
      TripleBound(s, 0, 2, ':');
    }
    if ParseTimestamp(s).Some? {
      var p := if Expect(s, 10, ' ') || Expect(s, 10, 'T') then 11 else 10;
      TripleBound(s, p, 2, ':');
      PowersOfTen();
      if Expect(s, p + 8, '.') {
        NanosBound(s, p + 9, 8);
      }
    }
  }

  // ----------------------------------------------------------------------- round trips

  /** `part` stands in `s` at `p`. */
  predicate Holds(s: string, p: nat, part: string) {
    p + |part| <= |s| && s[p..p + |part|] == part
  }

  lemma {:induction false} HoldsSplit(s: string, p: nat, a: string, b: string)
    requires Holds(s, p, a + b)
    ensures Holds(s, p, a) && Holds(s, p + |a|, b)
  {
    var all := s[p..p + |a + b|];
    assert all[..|a|] == a && all[|a|..] == b;
    assert s[p..p + |a|] == all[..|a|];
    assert s[p + |a|..p + |a| + |b|] == all[|a|..];
  }

  lemma {:induction false} ReadsPadded(s: string, p: nat, n: nat, w: nat)
    requires n < Power(10, w) && Holds(s, p, Pad(n, 10, w))
    ensures ReadDigits(s, p, w) == Some(n)
  {
    FixedDecimal(n, w);
    FixedValue(n, 10, w);
  }

  lemma {:induction false} ReadsTriple(s: string, p: nat, x: nat, a: nat, c: char, y: nat, z: nat)
    requires x < Power(10, a) && y <= 99 && z <= 99
    requires Holds(s, p, Pad(x, 10, a) + [c] + Pad(y, 10, 2) + [c] + Pad(z, 10, 2))
    ensures ReadTriple(s, p, a, c) == Some((x, y, z))
  {
    PowersOfTen();
    PartsOfTriple(s, p, Pad(x, 10, a), c, Pad(y, 10, 2), Pad(z, 10, 2), x, y, z);
  }

  lemma {:induction false} PartsOfTriple(
    s: string, p: nat, tx: string, c: char, ty: string, tz: string, x: nat, y: nat, z: nat)
    requires x < Power(10, |tx|) && tx == Pad(x, 10, |tx|)
    requires y < Power(10, 2) && ty == Pad(y, 10, 2) && z < Power(10, 2) && tz == Pad(z, 10, 2)
    requires Holds(s, p, tx + [c] + ty + [c] + tz)
    ensures ReadTriple(s, p, |tx|, c) == Some((x, y, z))
  {
    TripleLayout(s, p, tx, c, ty, tz);
    ReadsPadded(s, p, x, |tx|);
    ReadsPadded(s, p + |tx| + 1, y, 2);
    ReadsPadded(s, p + |tx| + 4, z, 2);
  }

  lemma {:induction false} TripleLayout(s: string, p: nat, x: string, c: char, y: string, z: string)
    requires Holds(s, p, x + [c] + y + [c] + z)
    ensures Holds(s, p, x) && Expect(s, p + |x|, c) && Holds(s, p + |x| + 1, y)
    ensures Expect(s, p + |x| + 1 + |y|, c) && Holds(s, p + |x| + |y| + 2, z)
  {
    HoldsSplit(s, p, x + [c] + y + [c], z);
    HoldsSplit(s, p, x + [c] + y, [c]);
    HoldsSplit(s, p, x + [c], y);
    HoldsSplit(s, p, x, [c]);
    HoldsOne(s, p + |x|, c);
    HoldsOne(s, p + |x| + 1 + |y|, c);
  }

  lemma {:induction false} HoldsOne(s: string, p: nat, c: char)
    requires Holds(s, p, [c])
    ensures Expect(s, p, c)
  {
    assert s[p..p + 1][0] == s[p];
  }

  /** A date is read back as it was written exactly if its fields have the printed widths. */
  lemma {:induction false} DateRoundTrip(d: Date)
    ensures ParseDate(FormatDate(d)) == Some(d) <==> DateInRange(d)
  {
    var s := FormatDate(d);
    ParsedInRange(s);
    if DateInRange(d) {
      PowersOfTen();
      assert s[0..|s|] == s;
      ReadsTriple(s, 0, d.year, 4, '-', d.month, d.day);
    }
  }

  lemma {:induction false} TimeRoundTrip(t: Time)
    ensures ParseTime(FormatTime(t)) == Some(t) <==> TimeInRange(t)
  {
    var s := FormatTime(t);
    ParsedInRange(s);
    if TimeInRange(t) {
      PowersOfTen();
      assert s[0..|s|] == s;
      ReadsTriple(s, 0, t.hour, 2, ':', t.minute, t.second);
    }
  }

  /** Digits up to the end of `s` are worth their value if the last is worth one nanosecond. */
  lemma {:induction false} NanosOfDigits(s: string, p: nat)
    requires p < |s| && AllDigits(s[p..])
    ensures Nanos(s, p, Power(10, |s| - p - 1)) == Value(s[p..], 10)
    decreases |s| - p
  {
    LeadingDigit(s[p..]);
    assert s[p..][0] == s[p];
    if p + 1 < |s| {
      assert s[p..][1..] == s[p + 1..];
      NanosOfDigits(s, p + 1);
      assert Power(10, |s| - p - 1) / 10 == Power(10, |s| - p - 2);
    } else {
      assert s[p..] == [s[p]];
    }
  }

  lemma LeadingTimesTen(d: nat, w: nat, v: nat)
    ensures (d * w + v) * 10 == d * (10 * w) + v * 10
  {
    assert d * (10 * w) == d * w * 10;
  }

  lemma {:induction false} LeadingDigit(s: string)
    requires s != "" && AllDigits(s)
    ensures Value(s, 10) == (s[0] - '0') as nat * Power(10, |s| - 1) + Value(s[1..], 10)
  {
    if |s| > 1 {
      var n := |s| - 1;
      LeadingDigit(s[..n]);
      assert s[..n][1..] == s[1..n] == s[1..][..n - 1];
      LeadingTimesTen((s[0] - '0') as nat, Power(10, n - 1), Value(s[1..n], 10));
    }
  }

  /** Zeros after a fraction change nothing. */
  lemma {:induction false} TrailingZeros(s: string, p: nat, scale: nat, z: nat)
    requires p <= |s| && AllDigits(s[p..])
    ensures Nanos(s + Zeros(z), p, scale) == Nanos(s, p, scale)
    decreases |s| - p, z
  {
    if p < |s| {
      assert s[p..][0] == s[p];
      assert s[p + 1..] == s[p..][1..];
      TrailingZeros(s, p + 1, scale / 10, z);
    } else if z > 0 {
      OnlyZeros(s + Zeros(z), p, scale);
    } else {
      assert s + Zeros(z) == s;
    }
  }

  function Zeros(z: nat): (r: string)
    ensures |r| == z && forall i | 0 <= i < z :: r[i] == '0'
  {
    seq(z, i => '0')
  }

  lemma {:induction false} OnlyZeros(s: string, p: nat, scale: nat)
    requires p <= |s| && forall i | p <= i < |s| :: s[i] == '0'
    ensures Nanos(s, p, scale) == 0
    decreases |s| - p
  {
    if p < |s| {
      OnlyZeros(s, p + 1, scale / 10);
    }
  }

  /** The date and time at the start of `s`, a fraction after them. */
  lemma {:induction false} ReadsTimestamp(s: string, t: Timestamp)
    requires DateInRange(t.date) && TimeInRange(t.time)
    requires Holds(s, 0, FormatDate(t.date) + " " + FormatTime(t.time))
    ensures |FormatDate(t.date) + " " + FormatTime(t.time)| == 19
    ensures ParseTimestamp(s) == Some(Timestamp(t.date, t.time, ReadFraction(s, 19)))
  {
    PowersOfTen();
    var d, c := FormatDate(t.date), FormatTime(t.time);
    HoldsSplit(s, 0, d + " ", c);
    HoldsSplit(s, 0, d, " ");
    assert s[10..11][0] == ' ';
    ReadsTriple(s, 0, t.date.year, 4, '-', t.date.month, t.date.day);
    ReadsTriple(s, 11, t.time.hour, 2, ':', t.time.minute, t.time.second);
  }

  lemma {:induction false} TimestampRoundTrip(t: Timestamp)
    ensures ParseTimestamp(FormatTimestamp(t)) == Some(t) <==> TimestampInRange(t)
  {
    var s := FormatTimestamp(t);
    ParsedInRange(s);
    if TimestampInRange(t) {
      PowersOfTen();
      var head := FormatDate(t.date) + " " + FormatTime(t.time);
      var fraction := Pad(t.fraction, 10, 9);
      assert s == head + "." + fraction;
      assert s[0..|head|] == head;
      ReadsTimestamp(s, t);
      assert s[19] == '.' && s[20..] == fraction;
      FixedDecimal(t.fraction, 9);
      FixedValue(t.fraction, 10, 9);
      NanosOfDigits(s, 20);
    }
  }

  // -------------------------------------------------------------------- the loops

  /** read_digits() on an uint16_t: at most four digits, which cannot wrap around. */
  method ReadDigitsAt(s: string, pos: nat, n: nat) returns (ok: bool, next: nat, out: nat)
    requires n <= 4
    ensures ok == ReadDigits(s, pos, n).Some?
    ensures ok ==> next == pos + n && ReadDigits(s, pos, n) == Some(out)
    ensures !ok ==> next == pos
  {
    ok, next, out := false, pos, 0;
    if pos + n > |s| {
      return;
    }
    var v, i := 0, 0;
    while i < n
      invariant i <= n && AllDigits(s[pos..pos + i]) && v == Value(s[pos..pos + i], 10)
    {
      var c := s[pos + i];
      if !IsDigit(c) {
        assert !IsDigit(s[pos..pos + n][i]);
        return;
      }
      NextDigit(s[pos..pos + i], c);
      assert s[pos..pos + i + 1] == s[pos..pos + i] + [c];
      v := (v * 10 + (c - '0') as nat) % 0x1_0000;
      i := i + 1;
    }
    ok, next, out := true, pos + n, v;
  }

  lemma {:induction false} NextDigit(s: string, c: char)
    requires |s| <= 3 && AllDigits(s) && IsDigit(c)
    ensures AllDigits(s + [c])
    ensures Value(s + [c], 10) == Value(s, 10) * 10 + (c - '0') as nat < 0x1_0000
  {
    assert (s + [c])[..|s|] == s;
    ValueBound(s);
    PowersOfTen();
  }

  /** read_fraction(): the digits after a dot, scaled to nanoseconds, without wrapping around. */
  method ReadFractionAt(s: string, pos: nat) returns (nanos: nat)
    requires pos <= |s|
    ensures nanos == ReadFraction(s, pos)
  {
    nanos := 0;
    if pos >= |s| || s[pos] != '.' {
      return;
    }
    PowersOfTen();
    NanosBound(s, pos + 1, 8);
    var p: nat, scale: nat := pos + 1, 100_000_000;
    while p < |s| && IsDigit(s[p])
      invariant pos < p <= |s| && nanos + Nanos(s, p, scale) == ReadFraction(s, pos)
    {
      var more := (s[p] - '0') as nat * scale;
      assert nanos + more + Nanos(s, p + 1, scale / 10) < 1_000_000_000;
      nanos := (nanos + more) % 0x1_0000_0000;
      scale := scale / 10;
      p := p + 1;
    }
  }

  method ReadTripleAt(s: string, pos: nat, a: nat, c: char) returns (ok: bool, x: nat, y: nat, z: nat)
    requires a <= 4
    ensures ok == ReadTriple(s, pos, a, c).Some?
    ensures ok ==> ReadTriple(s, pos, a, c) == Some((x, y, z))
  {
    y, z := 0, 0;
    var p;
    ok, p, x := ReadDigitsAt(s, pos, a);
    if !ok || !Expect(s, p, c) {
      ok := false;
      return;
    }
    ok, p, y := ReadDigitsAt(s, p + 1, 2);
    if !ok || !Expect(s, p, c) {
      ok := false;
      return;
    }
    ok, p, z := ReadDigitsAt(s, p + 1, 2);
  }

  method ReadTimestampText(s: string) returns (r: Option<Timestamp>)
    ensures r == ParseTimestamp(s)
  {
    var ok, y, mo, d := ReadTripleAt(s, 0, 4, '-');
    if !ok {
      return None;
    }
    var p := 10;
    if p < |s| && (s[p] == ' ' || s[p] == 'T') {
      p := p + 1;
    }
    var hh, mm, ss;
    ok, hh, mm, ss := ReadTripleAt(s, p, 2, ':');
    if !ok {
      return None;
    }
    var ns := ReadFractionAt(s, p + 8);
    return Some(Timestamp(Date(y, mo, d), Time(hh, mm, ss), ns));
  }
}
