/**
 Python's `str` on an integer: its decimal rendering, with a leading '-' for
 negative values and no leading zeros. `Parse` reads such a rendering back;
 the round trip shows that rendering loses nothing, so two different integers
 never render alike.
 */
module IntString {

  predicate IsDigit(ch: char)
  {
    '0' <= ch <= '9'
  }

  function DigitChar(d: nat): (ch: char)
    requires d < 10
    ensures IsDigit(ch)
  {
    ('0' as int + d) as char
  }

  function DigitValue(ch: char): (d: nat)
    requires IsDigit(ch)
    ensures d < 10 && DigitChar(d) == ch
  {
    ch as int - '0' as int
  }

  /** Decimal rendering of a natural number. */
  function NatStr(n: nat): (s: string)
    ensures |s| > 0 && forall i | 0 <= i < |s| :: IsDigit(s[i])
    ensures |s| > 1 ==> s[0] != '0'
    decreases n
  {
    if n < 10 then [DigitChar(n)] else NatStr(n / 10) + [DigitChar(n % 10)]
  }

  /** `str(n)` for a Python `int`. */
  function Str(n: int): (s: string)
    ensures |s| > 0
    ensures s[0] == '-' <==> n < 0
  {
    if n < 0 then "-" + NatStr(-n) else NatStr(n)
  }

  /** Reads a non-empty string of digits as a natural number. */
  function ParseNat(s: string): nat
    requires |s| > 0 && forall i | 0 <= i < |s| :: IsDigit(s[i])
    decreases |s|
  {
    var last := DigitValue(s[|s| - 1]);
    if |s| == 1 then last else ParseNat(s[..|s| - 1]) * 10 + last
  }

  /** An optional '-' followed by at least one digit. */
  predicate IsNumeral(s: string)
  {
    && |s| > 0
    && (s[0] == '-' ==> |s| > 1)
    && forall i | (if s[0] == '-' then 1 else 0) <= i < |s| :: IsDigit(s[i])
  }

  /** `int(s)` for a numeral: reads back a rendering produced by `Str`. */
  function Parse(s: string): int
    requires IsNumeral(s)
  {
    if s[0] == '-' then -(ParseNat(s[1..]) as int) else ParseNat(s)
  }

  lemma {:induction false} ParseNatStr(n: nat)
    ensures ParseNat(NatStr(n)) == n
    decreases n
  {
    var s := NatStr(n);
    if n >= 10 {
      assert s[..|s| - 1] == NatStr(n / 10);
      ParseNatStr(n / 10);
    }
  }

  /** Rendering then reading back gives the integer that was rendered. */
  lemma StrRoundTrip(n: int)
    ensures IsNumeral(Str(n)) && Parse(Str(n)) == n
  {
    var s := Str(n);
    if n < 0 {
      assert s[1..] == NatStr(-n);
      ParseNatStr(-n);
    } else {
      ParseNatStr(n);
    }
  }

  /** Different integers have different renderings. */
  lemma StrInjective(m: int, n: int)
    requires Str(m) == Str(n)
    ensures m == n
  {
    StrRoundTrip(m);
    StrRoundTrip(n);
  }
}
