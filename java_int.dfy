/**
 * java.lang.Integer.parseInt in radix 10, which init applies to the
 * batchSize and port properties, with Integer.toString as its partner.
 */
module JavaInt {
  import opened Errors

  const MinInt: int := -0x8000_0000
  const MaxInt: int := 0x7fff_ffff

  predicate IsInt32(x: int)
  {
    MinInt <= x <= MaxInt
  }

  predicate IsDigit(c: char)
  {
    '0' <= c <= '9'
  }

  predicate AllDigits(s: string)
  {
    forall i :: 0 <= i < |s| ==> IsDigit(s[i])
  }

  /** The value of a string of decimal digits, read most significant first. */
  function DigitsValue(s: string): nat
    requires AllDigits(s)
    decreases |s|
  {
    if |s| == 0 then 0
    else DigitsValue(s[..|s| - 1]) * 10 + ((s[|s| - 1] as int) - ('0' as int))
  }

  /** The digits after an optional leading sign. */
  function Unsigned(s: string): string
  {
    if |s| > 0 && (s[0] == '-' || s[0] == '+') then s[1..] else s
  }

  /**
   * Integer.parseInt(s): an optional '-' or '+', then at least one digit,
   * denoting a value in the 32-bit range; anything else is a
   * NumberFormatException, modelled as None.
   */
  function ParseInt(s: string): (r: Option<int>)
    ensures |Unsigned(s)| == 0 || !AllDigits(Unsigned(s)) ==> r.None?
    ensures r.Some? ==> IsInt32(r.value) && (r.value < 0 ==> s[0] == '-')
    ensures |Unsigned(s)| > 0 && AllDigits(Unsigned(s)) && s[0] != '-' ==>
      r == if DigitsValue(Unsigned(s)) <= MaxInt then Some(DigitsValue(Unsigned(s))) else None
    ensures |Unsigned(s)| > 0 && AllDigits(Unsigned(s)) && s[0] == '-' ==>
      r == if DigitsValue(Unsigned(s)) <= -MinInt then Some(-(DigitsValue(Unsigned(s)) as int)) else None
  {
    var body := Unsigned(s);
    if |body| == 0 || !AllDigits(body) then None
    else
      var magnitude: int := DigitsValue(body);
      var v := if s[0] == '-' then -magnitude else magnitude;
      if IsInt32(v) then Some(v) else None
  }

  function DigitChar(d: nat): (c: char)
    requires d < 10
    ensures IsDigit(c)
  {
    (('0' as int) + d) as char
  }

  /** The shortest decimal digits of n. */
  function Digits(n: nat): (s: string)
    ensures |s| > 0 && AllDigits(s)
    decreases n
  {
    if n < 10 then [DigitChar(n)] else Digits(n / 10) + [DigitChar(n % 10)]
  }

  /** Integer.toString(x). */
  function FormatInt(x: int): string
  {
    if x < 0 then "-" + Digits(0 - x) else Digits(x)
  }

  lemma {:induction false} DigitsValueOfDigits(n: nat)
    ensures DigitsValue(Digits(n)) == n
    decreases n
  {
    if n >= 10 {
      var s := Digits(n);
      assert s[..|s| - 1] == Digits(n / 10);
      DigitsValueOfDigits(n / 10);
    }
  }

  /** A value printed by Integer.toString is read back by Integer.parseInt. */
  lemma ParseFormatRoundTrip(x: int)
    requires IsInt32(x)
    ensures ParseInt(FormatInt(x)) == Some(x)
  {
    if x < 0 {
      assert Unsigned(FormatInt(x)) == Digits(-x);
      DigitsValueOfDigits(-x);
    } else {
      var s := Digits(x);
      assert Unsigned(s) == s by {
        assert IsDigit(s[0]);
      }
      DigitsValueOfDigits(x);
    }
  }
}
