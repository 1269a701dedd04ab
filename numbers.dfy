/**
 * JavaScript's conversions between strings and numbers, restricted to the
 * integers the stock application uses: `Number(s)` on a form field and
 * `String(n)` when an identifier is put into a `<select>` value or a message.
 */
module Numbers {
  import opened Text

  /** A JavaScript number: an integer, or NaN. */
  datatype JsNumber = NaN | Num(value: int)

  predicate IsDigit(c: char)
  {
    '0' <= c <= '9'
  }

  predicate AllDigits(s: string)
  {
    forall i :: 0 <= i < |s| ==> IsDigit(s[i])
  }

  /** The value of a run of decimal digits, most significant first. */
  function DigitsValue(s: string): (n: nat)
    requires AllDigits(s)
    decreases |s|
  {
    if s == [] then 0 else DigitsValue(s[..|s| - 1]) * 10 + (s[|s| - 1] as int - '0' as int)
  }

  /**
   * `Number(s)`: white space around the literal is ignored, a blank string
   * is 0, and the rest is read by `ReadInteger`.
   */
  function ToNumber(s: string): (r: JsNumber)
    ensures Trim(s) == [] ==> r == Num(0)
    ensures Trim(s) != [] ==> r == ReadInteger(Trim(s))
  {
    var t := Trim(s);
    if t == [] then Num(0) else ReadInteger(t)
  }

  /** An optionally signed run of decimal digits is its value; anything else is NaN. */
  function ReadInteger(t: string): (r: JsNumber)
    ensures r.Num? ==> t != [] && (IsDigit(t[0]) || t[0] == '-' || t[0] == '+')
    ensures r.Num? && t[0] == '-' ==> r.value <= 0
  {
    if |t| > 1 && (t[0] == '-' || t[0] == '+') && AllDigits(t[1..]) then
      if t[0] == '-' then Num(-(DigitsValue(t[1..]) as int)) else Num(DigitsValue(t[1..]))
    else if t != [] && AllDigits(t) then Num(DigitsValue(t))
    else NaN
  }

  function Digit(d: nat): (c: char)
    requires d < 10
    ensures IsDigit(c) && c as int - '0' as int == d
  {
    ('0' as int + d) as char
  }

  /** `String(n)` for a natural number: its decimal digits, without leading zeros. */
  function NatToString(n: nat): (s: string)
    ensures |s| > 0 && AllDigits(s)
    ensures |s| > 1 ==> s[0] != '0'
  {
    if n < 10 then [Digit(n)] else NatToString(n / 10) + [Digit(n % 10)]
  }

  /** `String(n)`: a minus sign for negative numbers, then the digits of |n|. */
  function IntToString(n: int): (s: string)
    ensures |s| > 0
    ensures s[0] == '-' <==> n < 0
  {
    if n < 0 then "-" + NatToString(-n) else NatToString(n)
  }

  lemma {:induction false} NatToStringValue(n: nat)
    ensures DigitsValue(NatToString(n)) == n
  {
    var s := NatToString(n);
    if n >= 10 {
      NatToStringValue(n / 10);
      assert s[..|s| - 1] == NatToString(n / 10);
    }
  }

  lemma NoWhitespaceTrim(s: string)
    requires forall i :: 0 <= i < |s| ==> !IsWhitespace(s[i])
    ensures Trim(s) == s
  {
  }

  /** Reading back a number written with `String` gives the number. */
  lemma IntToStringRoundTrip(n: int)
    ensures ToNumber(IntToString(n)) == Num(n)
  {
    var s := IntToString(n);
    IntToStringTrimmed(n);
    assert ToNumber(s) == ReadInteger(s);
    if n < 0 {
      var d := NatToString(-n);
      NatToStringValue(-n);
      assert s[1..] == d;
      assert ReadInteger(s) == Num(-(DigitsValue(d) as int));
    } else {
      NatToStringValue(n);
      assert IsDigit(s[0]);
      assert ReadInteger(s) == Num(DigitsValue(s));
    }
  }

  /** `String(n)` has no surrounding white space for `Number` to strip. */
  lemma IntToStringTrimmed(n: int)
    ensures Trim(IntToString(n)) == IntToString(n)
  {
    var s := IntToString(n);
    forall i | 0 <= i < |s| ensures !IsWhitespace(s[i]) {
      assert IsDigit(s[i]) || s[i] == '-';
    }
    NoWhitespaceTrim(s);
  }

  /** Two numbers with the same `String` are the same number. */
  lemma IntToStringInjective(m: int, n: int)
    requires IntToString(m) == IntToString(n)
    ensures m == n
  {
    IntToStringRoundTrip(m);
    IntToStringRoundTrip(n);
  }
}
