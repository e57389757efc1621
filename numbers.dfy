/**
 * Python's `int(s)` in base 10 and `str(n)` for integers, as used by the
 * wizard's port validator and by the memory probe's `/proc/meminfo` parse.
 */
module Numbers {
  import opened Wrappers
  import opened Text

  predicate IsDigit(c: char) {
    '0' <= c <= '9'
  }

  function DigitValue(c: char): (d: nat)
    requires IsDigit(c)
    ensures d < 10
  {
    (c as int) - ('0' as int)
  }

  function DigitChar(d: nat): (c: char)
    requires d < 10
    ensures IsDigit(c) && DigitValue(c) == d
  {
    (('0' as int) + d) as char
  }

  /**
   * The unsigned body `int()` accepts: decimal digits, where an underscore
   * may stand only between two digits.
   */
  predicate IsDigitBody(d: string) {
    d != [] && IsDigit(d[0]) && IsDigit(d[|d| - 1]) &&
    (forall i :: 0 <= i < |d| ==> IsDigit(d[i]) || d[i] == '_') &&
    (forall i :: 0 <= i < |d| - 1 ==> d[i] == '_' ==> d[i + 1] != '_')
  }

  /** The value of a digit body; underscores carry no value. */
  function DecimalValue(d: string): nat
    requires forall i :: 0 <= i < |d| ==> IsDigit(d[i]) || d[i] == '_'
  {
    if d == [] then 0
    else
      var last := d[|d| - 1];
      if last == '_' then DecimalValue(d[..|d| - 1])
      else DecimalValue(d[..|d| - 1]) * 10 + DigitValue(last)
  }

  /** The value of an unsigned digit body, or `None` when it is malformed. */
  function ParseDigits(d: string): Option<nat> {
    if IsDigitBody(d) then Some(DecimalValue(d)) else None
  }

  /**
   * Python's `int(s)`: surrounding whitespace, an optional sign, then a digit
   * body; `None` where the text is malformed, one of the cases where Python
   * raises `ValueError`. The whitespace removed is `strip()`'s, which also
   * covers U+001C to U+001F; `int` does not skip those, but the callers only
   * pass text already stripped or split on whitespace. The digit body has no
   * length limit here, while recent interpreters refuse more than 4300 digits.
   */
  function ParseInt(s: string): Option<int> {
    var t := Strip(s);
    if t != [] && (t[0] == '+' || t[0] == '-') then
      var magnitude :- ParseDigits(t[1..]);
      var value: int := if t[0] == '-' then 0 - (magnitude as int) else magnitude;
      Some(value)
    else
      var magnitude :- ParseDigits(t);
      Some(magnitude)
  }

  /** Python's `str(n)` for `n >= 0`. */
  function NatToString(n: nat): (s: string)
    ensures s != []
    ensures forall i :: 0 <= i < |s| ==> IsDigit(s[i])
  {
    if n < 10 then [DigitChar(n)] else NatToString(n / 10) + [DigitChar(n % 10)]
  }

  /** Python's `str(n)`. */
  function IntToString(n: int): string {
    if n < 0 then "-" + NatToString(-n) else NatToString(n)
  }

  lemma {:induction false} DecimalValueOfNatToString(n: nat)
    ensures DecimalValue(NatToString(n)) == n
  {
    if n >= 10 {
      var s := NatToString(n);
      assert s[..|s| - 1] == NatToString(n / 10);
      DecimalValueOfNatToString(n / 10);
    }
  }

  lemma ParseDigitsOfNatToString(n: nat)
    ensures ParseDigits(NatToString(n)) == Some(n)
  {
    DecimalValueOfNatToString(n);
  }

  /** `int(str(n)) == n` for every integer. */
  lemma ParseIntRoundTrip(n: int)
    ensures ParseInt(IntToString(n)) == Some(n)
  {
    var s := IntToString(n);
    var m: nat := if n < 0 then -n else n;
    var digits := NatToString(m);
    ParseDigitsOfNatToString(m);
    assert !IsSpace(s[0]) && !IsSpace(s[|s| - 1]);
    assert Strip(s) == s;
    if n < 0 {
      assert s[0] == '-' && s[1..] == digits;
    } else {
      assert s == digits && IsDigit(s[0]);
    }
  }

  /** `str(n)` is canonical: no leading zero unless the number is 0. */
  lemma {:induction false} NatToStringCanonical(n: nat)
    ensures NatToString(n)[0] == '0' <==> n == 0
  {
    if n >= 10 {
      NatToStringCanonical(n / 10);
    }
  }
}
