/** Decimal rendering of integers as Rust's formatting machinery does it:
    `n.to_string()` and `format!("{:<08}", n)`. In the latter the `0` flag
    makes the padding sign-aware zeros placed after the sign and overrides the
    `<` alignment, so -1 renders as "-0000001" and 42 as "00000042". */
module Decimal {
  import opened Types

  predicate IsDigit(c: char) {
    '0' <= c <= '9'
  }

  predicate AllDigits(s: string) {
    forall i :: 0 <= i < |s| ==> IsDigit(s[i])
  }

  function DigitValue(c: char): (d: nat)
    requires IsDigit(c)
    ensures d < 10
  {
    c as int - '0' as int
  }

  function DigitChar(d: nat): (c: char)
    requires d < 10
    ensures IsDigit(c) && DigitValue(c) == d
  {
    ('0' as int + d) as char
  }

  /** The shortest decimal digit string of `n`. */
  function Digits(n: nat): (s: string)
    ensures |s| >= 1 && AllDigits(s)
    decreases n
  {
    if n < 10 then [DigitChar(n)] else Digits(n / 10) + [DigitChar(n % 10)]
  }

  function Zeros(k: nat): (s: string)
    ensures |s| == k && AllDigits(s)
    ensures forall i :: 0 <= i < k ==> s[i] == '0'
  {
    seq(k, _ => '0')
  }

  function Abs(n: int): nat {
    if n < 0 then -n else n
  }

  /** Digits left-padded with zeros to at least `width` characters. */
  function Pad(ds: string, width: nat): (s: string)
    requires AllDigits(ds)
    ensures |s| >= width && |s| >= |ds| && AllDigits(s)
  {
    Zeros(if |ds| < width then width - |ds| else 0) + ds
  }

  /** `format!("{:0width$}", n)`: sign, then zeros up to `width` characters in
      all, then the digits; nothing is cut when the number is wider. */
  function Format(n: int, width: nat): (s: string)
    ensures |s| >= width
    ensures n >= 0 ==> AllDigits(s)
    ensures n < 0 ==> |s| >= 2 && s[0] == '-' && AllDigits(s[1..])
  {
    if n < 0 then
      var s := "-" + Pad(Digits(-n), if width > 0 then width - 1 else 0);
      assert s[1..] == Pad(Digits(-n), if width > 0 then width - 1 else 0);
      s
    else Pad(Digits(n), width)
  }

  /** `n.to_string()` */
  function ToString(n: int): string {
    Format(n, 0)
  }

  /** The value of a digit string, most significant digit first. */
  function ValueOf(s: string): nat
    requires AllDigits(s)
  {
    if s == [] then 0 else ValueOf(s[..|s| - 1]) * 10 + DigitValue(s[|s| - 1])
  }

  /** Reads back an optionally negative decimal; the partner of `Format`. */
  function Parse(s: string): Option<int> {
    if |s| > 1 && s[0] == '-' && AllDigits(s[1..]) then Some(0 - ValueOf(s[1..]) as int)
    else if |s| > 0 && AllDigits(s) then Some(ValueOf(s))
    else None
  }

  lemma {:induction false} ValueOfDigits(n: nat)
    ensures ValueOf(Digits(n)) == n
    decreases n
  {
    if n >= 10 {
      var s := Digits(n);
      assert s[..|s| - 1] == Digits(n / 10);
      ValueOfDigits(n / 10);
    }
  }

  lemma {:induction false} ValueOfLeadingZeros(k: nat, s: string)
    requires AllDigits(s)
    ensures ValueOf(Zeros(k) + s) == ValueOf(s)
    decreases |s|
  {
    if s == [] {
      assert Zeros(k) + s == Zeros(k);
      ZerosValue(k);
    } else {
      var w := Zeros(k) + s;
      assert w[..|w| - 1] == Zeros(k) + s[..|s| - 1];
      ValueOfLeadingZeros(k, s[..|s| - 1]);
    }
  }

  lemma {:induction false} ZerosValue(k: nat)
    ensures ValueOf(Zeros(k)) == 0
  {
    if k > 0 {
      assert Zeros(k)[..k - 1] == Zeros(k - 1);
      ZerosValue(k - 1);
    }
  }

  /** Round trip: the rendered number reads back as itself, whatever the width. */
  lemma ParseFormat(n: int, width: nat)
    ensures Parse(Format(n, width)) == Some(n)
  {
    var w := if n < 0 && width > 0 then width - 1 else width;
    var ds := Digits(Abs(n));
    ValueOfDigits(Abs(n));
    ValueOfLeadingZeros(if |ds| < w then w - |ds| else 0, ds);
    if n < 0 {
      ParseNegative(Format(n, width), Pad(ds, w), Abs(n));
    } else {
      ParseUnsigned(Format(n, width), Pad(ds, w), Abs(n));
    }
  }

  lemma ParseNegative(s: string, body: string, m: nat)
    requires s == "-" + body && |body| >= 1 && AllDigits(body) && ValueOf(body) == m
    ensures Parse(s) == Some(0 - m)
  {
    assert s[1..] == body;
  }

  lemma ParseUnsigned(s: string, body: string, m: nat)
    requires s == body && |body| >= 1 && AllDigits(body) && ValueOf(body) == m
    ensures Parse(s) == Some(m)
  {
    assert IsDigit(s[0]);
  }

  function Pow10(k: nat): (p: nat)
    ensures p >= 1
  {
    if k == 0 then 1 else 10 * Pow10(k - 1)
  }

  lemma {:induction false} DigitsFit(n: nat, k: nat)
    requires k >= 1 && n < Pow10(k)
    ensures |Digits(n)| <= k
    decreases n
  {
    if n >= 10 {
      assert Pow10(1) == 10;
      DigitsFit(n / 10, k - 1);
    }
  }

  /** A non-negative number below 10^width renders in exactly `width` characters. */
  lemma FormatExactWidth(n: int, width: nat)
    requires width >= 1 && 0 <= n < Pow10(width)
    ensures |Format(n, width)| == width
  {
    DigitsFit(n, width);
  }
}
