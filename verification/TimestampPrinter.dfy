/**
Timestamps printed into a fixed buffer with the trailing zeros of the fraction
dropped.
*/
module TimestampPrinter {
  import opened Wrappers
  import opened Numerals
  import opened PsqlDateTime

  /** The widths of the fields: an int16_t, five uint16_t and an uint32_t. */
  predicate Stored(t: Timestamp) {
    && -0x8000 <= t.date.year < 0x8000 && t.date.month < 0x1_0000 && t.date.day < 0x1_0000
    && t.time.hour < 0x1_0000 && t.time.minute < 0x1_0000 && t.time.second < 0x1_0000
    && t.fraction < 0x1_0000_0000
  }

  function Head(t: Timestamp): string {
    FormatDate(t.date) + " " + FormatTime(t.time)
  }

  /** The length of `s` without its trailing zeros; one character is kept. */
  function TrimmedLength(s: string): (n: nat)
    requires s != ""
    ensures 1 <= n <= |s|
    ensures n == 1 || s[n - 1] != '0'
    ensures forall i | n <= i < |s| :: s[i] == '0'
    decreases |s|
  {
    if |s| > 1 && s[|s| - 1] == '0' then TrimmedLength(s[..|s| - 1]) else |s|
  }

  function Fraction(t: Timestamp): (s: string)
    ensures |s| >= 9
  {
    FractionWidth(t.fraction);
    Pad(t.fraction, 10, 9)
  }

  lemma {:induction false} FractionWidth(n: nat)
    ensures |Pad(n, 10, 9)| >= 9 && AllDigits(Pad(n, 10, 9))
  {
    FixedDecimal(n, 9);
    NumeralDecimal(n);
    if n >= Power(10, 9) {
      NumeralAtLeast(n, 9);
    }
  }

  lemma {:induction false} NumeralAtLeast(n: nat, w: nat)
    requires n >= Power(10, w)
    ensures |Numeral(n, 10)| > w
    decreases w
  {
    if w > 0 {
      Shorter(n, 10, w);
      NumeralAtLeast(n / 10, w - 1);
    }
  }

  /** What is printed: date, time, and the fraction without its trailing zeros. */
  function Printed(t: Timestamp): string {
    Head(t) + "." + Fraction(t)[..TrimmedLength(Fraction(t))]
  }

  // ------------------------------------------------------------------- properties

  /** No timestamp that can be stored is cut by the buffer of 48 characters. */
  lemma {:induction false} BufferIsWideEnough(t: Timestamp)
    requires Stored(t)
    ensures |Head(t)| <= 36 && |Head(t) + "." + Fraction(t)| <= 47
  {
    PowersOfTen();
    PadLength(if t.date.year >= 0 then t.date.year else -t.date.year, 10, if t.date.year >= 0 then 4 else 3, 5);
    PadLength(t.date.month, 10, 2, 5);
    PadLength(t.date.day, 10, 2, 5);
    PadLength(t.time.hour, 10, 2, 5);
    PadLength(t.time.minute, 10, 2, 5);
    PadLength(t.time.second, 10, 2, 5);
    PadLength(t.fraction, 10, 9, 10);
  }

  /** One fraction digit is always left, and no other trailing zero. */
  lemma {:induction false} NoDanglingDot(t: Timestamp)
    ensures var s, dot := Printed(t), |Head(t)|;
            && |s| > dot + 1 && s[dot] == '.' && AllDigits(s[dot + 1..])
            && (|s| > dot + 2 ==> s[|s| - 1] != '0')
  {
    FractionWidth(t.fraction);
    var s, dot := Printed(t), |Head(t)|;
    assert s[dot + 1..] == Fraction(t)[..TrimmedLength(Fraction(t))];
    assert s[|s| - 1] == s[dot + 1..][|s| - dot - 2];
  }

  /** A printed timestamp is read back exactly if its fields have the printed widths. */
  lemma {:induction false} PrintedRoundTrip(t: Timestamp)
    ensures ParseTimestamp(Printed(t)) == Some(t) <==> TimestampInRange(t)
  {
    var s := Printed(t);
    ParsedInRange(s);
    if TimestampInRange(t) {
      var head := Head(t);
      assert s[0..|head|] == head;
      ReadsTimestamp(s, t);
      TrimmedFraction(s, t);
    }
  }

  lemma {:induction false} TrimmedFraction(s: string, t: Timestamp)
    requires s == Printed(t) && |Head(t)| == 19 && t.fraction < 1_000_000_000
    ensures ReadFraction(s, 19) == t.fraction
  {
    PowersOfTen();
    var fraction := Fraction(t);
    var n := TrimmedLength(fraction);
    assert s[19] == '.' && s[20..] == fraction[..n];
    FixedDecimal(t.fraction, 9);
    FixedValue(t.fraction, 10, 9);
    var full := s + Zeros(9 - n);
    assert full[20..] == fraction;
    NanosOfDigits(full, 20);
    TrailingZeros(s, 20, 100_000_000, 9 - n);
  }

  // ------------------------------------------------------------------- in the buffer

  /** written_len() */
  function WrittenLen(written: int, capacity: nat): (n: nat)
    ensures capacity > 0 ==> n < capacity
    ensures 0 <= written < capacity ==> n == written
  {
    if written < 0 || capacity == 0 then 0 else if written < capacity - 1 then written else capacity - 1
  }

  /** snprintf(buffer + at, capacity - at, ...): as much of the text as fits, and a terminator. */
  method Snprintf(buffer: array<char>, at: nat, text: string) returns (written: int)
    requires at <= buffer.Length
    modifies buffer
    ensures written == |text| && buffer[..at] == old(buffer[..at])
    ensures at < buffer.Length ==>
              var n := WrittenLen(written, buffer.Length - at);
              buffer[at..at + n] == text[..n] && buffer[at + n] == '\0'
  {
    written := |text|;
    if at < buffer.Length {
      var n := WrittenLen(written, buffer.Length - at);
      var i := 0;
      while i < n
        invariant 0 <= i <= n && buffer[..at] == old(buffer[..at]) && buffer[at..at + i] == text[..i]
      {
        buffer[at + i] := text[i];
        i := i + 1;
      }
      buffer[at + n] := '\0';
    }
  }

  /** trim_fraction() */
  method TrimFraction(buffer: array<char>, length: nat, firstDigit: nat) returns (n: nat)
    requires firstDigit < length <= buffer.Length
    ensures n == firstDigit + TrimmedLength(buffer[firstDigit..length])
  {
    n := length;
    while n > firstDigit && buffer[n - 1] == '0'
      invariant firstDigit <= n <= length
      invariant n > firstDigit ==>
                  TrimmedLength(buffer[firstDigit..n]) == TrimmedLength(buffer[firstDigit..length])
      invariant n == firstDigit ==> TrimmedLength(buffer[firstDigit..length]) == 1
    {
      var s := buffer[firstDigit..n];
      assert s[..|s| - 1] == buffer[firstDigit..n - 1];
      n := n - 1;
    }
    if n == firstDigit {
      n := firstDigit + 1;
    }
  }

  /** append_fraction() */
  method AppendFraction(buffer: array<char>, length: nat, fraction: nat) returns (total: nat)
    requires length + 1 + |Pad(fraction, 10, 9)| < buffer.Length
    requires Pad(fraction, 10, 9) != ""
    modifies buffer
    ensures total <= buffer.Length
    ensures var digits := Pad(fraction, 10, 9);
            buffer[..total] == old(buffer[..length]) + "." + digits[..TrimmedLength(digits)]
  {
    var digits := Pad(fraction, 10, 9);
    var written := Snprintf(buffer, length, "." + digits);
    var full := length + WrittenLen(written, buffer.Length - length);
    FractionStands(buffer[..full], length, digits);
    assert buffer[length..full] == buffer[..full][length..] && buffer[length + 1..full] == buffer[..full][length + 1..];
    total := TrimFraction(buffer, full, length + 1);
    FractionCut(buffer[..full], length, digits, TrimmedLength(digits));
    assert buffer[..total] == buffer[..full][..total] && buffer[..length] == buffer[..full][..length];
  }

  lemma {:induction false} FractionStands(all: string, length: nat, digits: string)
    requires length <= |all| && all[length..] == "." + digits
    ensures all[length + 1..] == digits
  {
    assert all[length + 1..] == all[length..][1..];
  }

  lemma {:induction false} FractionCut(all: string, length: nat, digits: string, n: nat)
    requires length <= |all| && all[length..] == "." + digits && n <= |digits|
    ensures all[..length + 1 + n] == all[..length] + "." + digits[..n]
  {
    assert all == all[..length] + ("." + digits);
  }

  /** The formatter of a timestamp. */
  method FormatInBuffer(t: Timestamp) returns (text: string)
    requires Stored(t)
    ensures text == Printed(t)
  {
    BufferIsWideEnough(t);
    FractionWidth(t.fraction);
    var buffer := new char[48];
    var written := Snprintf(buffer, 0, Head(t));
    var head := WrittenLen(written, 48);
    assert buffer[..head] == buffer[0..head] == Head(t);
    var total := AppendFraction(buffer, head, t.fraction);
    text := buffer[..total];
  }
}
