/** Decimal numerals as strconv writes and reads them. */
module Decimals {
  import opened Types

  predicate IsDigit(c: char) { '0' <= c <= '9' }

  function Digit(d: nat): (c: char)
    requires d < 10
    ensures IsDigit(c)
  {
    '0' + (d as char)
  }

  function DigitValue(c: char): (d: nat)
    requires IsDigit(c)
    ensures d < 10 && Digit(d) == c
  {
    (c - '0') as nat
  }

  /** One or more digits. */
  predicate IsNumeral(s: string) {
    s != "" && forall i :: 0 <= i < |s| ==> IsDigit(s[i])
  }

  function Value(s: string): nat
    requires forall i :: 0 <= i < |s| ==> IsDigit(s[i])
  {
    if s == "" then 0 else 10 * Value(s[..|s| - 1]) + DigitValue(s[|s| - 1])
  }

  /** strconv.Atoi on up to 18 bytes, where nothing can overflow: an optional sign, then one or more digits. */
  function Atoi(s: string): Option<int> {
    if s == "" then None
    else if s[0] == '-' then if IsNumeral(s[1..]) then Some(-(Value(s[1..]) as int)) else None
    else if s[0] == '+' then if IsNumeral(s[1..]) then Some(Value(s[1..])) else None
    else if IsNumeral(s) then Some(Value(s)) else None
  }

  function Unsigned(n: nat): (s: string)
    ensures IsNumeral(s)
  {
    if n < 10 then [Digit(n)] else Unsigned(n / 10) + [Digit(n % 10)]
  }

  /** The numeral of n with leading zeros, in `width` digits. */
  function Padded(n: nat, width: nat): (s: string)
    ensures |s| == width && forall i :: 0 <= i < |s| ==> IsDigit(s[i])
  {
    if width == 0 then "" else Padded(n / 10, width - 1) + [Digit(n % 10)]
  }

  /** strconv.FormatInt in base 10, and %d. */
  function Format(n: int): string {
    if n < 0 then "-" + Unsigned(-n) else Unsigned(n)
  }

  function Power10(n: nat): (p: nat)
    ensures p > 0
  {
    if n == 0 then 1 else 10 * Power10(n - 1)
  }

  lemma {:induction false} ValueOfUnsigned(n: nat)
    ensures Value(Unsigned(n)) == n
  {
    if n < 10 {
      assert [Digit(n)][..0] == "";
    } else {
      var s := Unsigned(n / 10) + [Digit(n % 10)];
      assert s[..|s| - 1] == Unsigned(n / 10) && s[|s| - 1] == Digit(n % 10);
      ValueOfUnsigned(n / 10);
    }
  }

  lemma {:induction false} ValueOfPadded(n: nat, width: nat)
    requires n < Power10(width)
    ensures Value(Padded(n, width)) == n
  {
    if width > 0 {
      var s := Padded(n / 10, width - 1) + [Digit(n % 10)];
      assert s[..|s| - 1] == Padded(n / 10, width - 1) && s[|s| - 1] == Digit(n % 10);
      ValueOfPadded(n / 10, width - 1);
    }
  }

  /** A string of digits is the padded numeral of its value, so its length and value determine it. */
  lemma {:induction false} PaddedValue(s: string)
    requires forall i :: 0 <= i < |s| ==> IsDigit(s[i])
    ensures Value(s) < Power10(|s|) && Padded(Value(s), |s|) == s
  {
    if s != "" {
      PaddedValue(s[..|s| - 1]);
      assert s == s[..|s| - 1] + [s[|s| - 1]];
      assert Value(s) / 10 == Value(s[..|s| - 1]) && Value(s) % 10 == DigitValue(s[|s| - 1]);
    }
  }

  lemma AtoiNumeral(s: string)
    requires IsNumeral(s)
    ensures Atoi(s) == Some(Value(s) as int)
    ensures Atoi("+" + s) == Some(Value(s) as int)
    ensures Atoi("-" + s) == Some(-(Value(s) as int))
  {
    assert IsDigit(s[0]);
    assert ("+" + s)[1..] == s && ("-" + s)[1..] == s;
  }

  lemma AtoiFormat(n: int)
    ensures Atoi(Format(n)) == Some(n)
  {
    var m: nat := if n < 0 then -n else n;
    ValueOfUnsigned(m);
    AtoiNumeral(Unsigned(m));
  }

  /** Different integers are written differently. */
  lemma FormatInjective(m: int, n: int)
    ensures Format(m) == Format(n) <==> m == n
  {
    AtoiFormat(m);
    AtoiFormat(n);
  }

  lemma FormatHasNoSlash(n: int)
    ensures '/' !in Format(n)
  {
  }
}
