/** Numbers written in base ten and base sixteen, and read back. */
module Numerals {
  import opened Wrappers

  predicate Base(base: nat) {
    base == 10 || base == 16
  }

  function Power(base: nat, k: nat): (r: nat)
    requires Base(base)
    ensures r > 0
  {
    if k == 0 then 1 else base * Power(base, k - 1)
  }

  function DigitChar(d: nat): char
    requires d < 16
  {
    if d < 10 then '0' + d as char else 'a' + (d - 10) as char
  }

  /** hex_val(): the value of a hexadecimal digit of either case. */
  function HexVal(c: char): (r: Option<nat>)
    ensures r.Some? ==> r.value < 16
  {
    if '0' <= c <= '9' then Some((c - '0') as nat)
    else if 'a' <= c <= 'f' then Some((c - 'a') as nat + 10)
    else if 'A' <= c <= 'F' then Some((c - 'A') as nat + 10)
    else None
  }

  predicate IsDigit(c: char) {
    '0' <= c <= '9'
  }

  predicate AllDigits(s: string) {
    forall i | 0 <= i < |s| :: IsDigit(s[i])
  }

  lemma DigitReads(d: nat)
    requires d < 16
    ensures HexVal(DigitChar(d)) == Some(d)
    ensures d < 10 <==> IsDigit(DigitChar(d))
    ensures DigitChar(d) != '-' && DigitChar(d) != '.' && DigitChar(d) != ':'
  {
  }

  /** The last `w` digits of `n`. */
  function Fixed(n: nat, base: nat, w: nat): (s: string)
    requires Base(base)
    ensures |s| == w
  {
    if w == 0 then "" else Fixed(n / base, base, w - 1) + [DigitChar(n % base)]
  }

  /** `n` without leading zeros. */
  function Numeral(n: nat, base: nat): (s: string)
    requires Base(base)
    ensures s != ""
  {
    if n < base then [DigitChar(n)] else Numeral(n / base, base) + [DigitChar(n % base)]
  }

  /** "%0<w>d" and "%0<w>x": at least `w` digits. */
  function Pad(n: nat, base: nat, w: nat): string
    requires Base(base)
  {
    if n < Power(base, w) then Fixed(n, base, w) else Numeral(n, base)
  }

  /** The number a string of digits stands for. */
  function Value(s: string, base: nat): nat
    requires Base(base)
  {
    if s == "" then 0
    else
      var d := HexVal(s[|s| - 1]);
      Value(s[..|s| - 1], base) * base + (if d.Some? then d.value else 0)
  }

  lemma {:induction false} FixedDecimal(n: nat, w: nat)
    ensures AllDigits(Fixed(n, 10, w))
  {
    if w > 0 {
      FixedDecimal(n / 10, w - 1);
      DigitReads(n % 10);
    }
  }

  lemma {:induction false} FixedValue(n: nat, base: nat, w: nat)
    requires Base(base) && n < Power(base, w)
    ensures Value(Fixed(n, base, w), base) == n
  {
    if w > 0 {
      var s := Fixed(n, base, w);
      Shorter(n, base, w);
      FixedValue(n / base, base, w - 1);
      DigitReads(n % base);
      assert s[..w - 1] == Fixed(n / base, base, w - 1);
    }
  }

  lemma {:induction false} Shorter(n: nat, base: nat, w: nat)
    requires Base(base) && w > 0
    ensures n < Power(base, w) <==> n / base < Power(base, w - 1)
  {
    if base == 10 {
      assert Power(10, w) == 10 * Power(10, w - 1);
    } else {
      assert Power(16, w) == 16 * Power(16, w - 1);
    }
  }

  lemma {:induction false} NumeralDecimal(n: nat)
    ensures AllDigits(Numeral(n, 10))
  {
    if n < 10 {
      DigitReads(n);
    } else {
      NumeralDecimal(n / 10);
      DigitReads(n % 10);
    }
  }

  lemma {:induction false} NumeralValue(n: nat, base: nat)
    requires Base(base)
    ensures Value(Numeral(n, base), base) == n
  {
    var s := Numeral(n, base);
    if n < base {
      DigitReads(n);
      assert s[..|s| - 1] == "";
    } else {
      NumeralValue(n / base, base);
      DigitReads(n % base);
      assert s[..|s| - 1] == Numeral(n / base, base);
    }
  }

  lemma {:induction false} NumeralLength(n: nat, base: nat, w: nat)
    requires Base(base) && w > 0 && n < Power(base, w)
    ensures |Numeral(n, base)| <= w
    decreases w
  {
    if n >= base {
      Shorter(n, base, w);
      if w > 1 {
        NumeralLength(n / base, base, w - 1);
      }
    }
  }

  lemma {:induction false} PadLength(n: nat, base: nat, w: nat, k: nat)
    requires Base(base) && w <= k && k > 0 && n < Power(base, k)
    ensures |Pad(n, base, w)| <= k
  {
    NumeralLength(n, base, k);
  }

  lemma {:induction false} ValueBound(s: string)
    requires AllDigits(s)
    ensures Value(s, 10) < Power(10, |s|)
  {
    if s != "" {
      ValueBound(s[..|s| - 1]);
      assert HexVal(s[|s| - 1]).value < 10;
    }
  }

  lemma PowersOfTen()
    ensures Power(10, 0) == 1 && Power(10, 1) == 10 && Power(10, 2) == 100 && Power(10, 3) == 1000
    ensures Power(10, 4) == 10000 && Power(10, 5) == 100000
    ensures Power(10, 8) == 100000000 && Power(10, 9) == 1000000000 && Power(10, 10) == 10000000000
  {
    assert Power(10, 2) == 10 * Power(10, 1);
    assert Power(10, 4) == 10 * Power(10, 3);
    assert Power(10, 6) == 10 * Power(10, 5);
    assert Power(10, 8) == 10 * Power(10, 7);
    assert Power(10, 10) == 10 * Power(10, 9);
  }

  lemma PowersOfSixteen()
    ensures Power(16, 2) == 0x100 && Power(16, 4) == 0x1_0000 && Power(16, 8) == 0x1_0000_0000
  {
    assert Power(16, 2) == 16 * Power(16, 1);
    assert Power(16, 4) == 16 * Power(16, 3);
    assert Power(16, 6) == 16 * Power(16, 5);
    assert Power(16, 8) == 16 * Power(16, 7);
  }
}
