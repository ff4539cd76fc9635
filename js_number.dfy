/** JavaScript's `parseInt(s)` (radix 10) and `parseFloat(s)` as prefix
    parsers. `None` stands for `NaN`; `x || 0` becomes `OrZero`. */
module JsNumber {
  import opened Wrappers
  import opened JsString

  predicate AllDigits(s: string) {
    forall i :: 0 <= i < |s| ==> IsDigit(s[i])
  }

  /** The longest prefix of `s` made of decimal digits. */
  function LeadingDigits(s: string): string
  {
    if |s| > 0 && IsDigit(s[0]) then [s[0]] + LeadingDigits(s[1..]) else []
  }

  /** The leading-digit run is a prefix of `s`, all digits, and maximal. */
  lemma {:induction false} LeadingDigitsSpec(s: string)
    ensures var d := LeadingDigits(s);
      |d| <= |s| && d == s[..|d|] && AllDigits(d) && (|d| < |s| ==> !IsDigit(s[|d|]))
  {
    if |s| > 0 && IsDigit(s[0]) {
      LeadingDigitsSpec(s[1..]);
      var rest := LeadingDigits(s[1..]);
      assert [s[0]] + rest == s[..1 + |rest|];
    }
  }

  /** The value of one decimal digit (0 for any other character). */
  function DigitValue(c: char): (d: nat)
    ensures d < 10
  {
    if IsDigit(c) then c as int - '0' as int else 0
  }

  /** The value of a digit string read in base 10. */
  function DigitsValue(ds: string): nat
  {
    if ds == [] then 0
    else DigitsValue(ds[..|ds| - 1]) * 10 + DigitValue(ds[|ds| - 1])
  }

  /** The text after an optional leading sign, and whether the sign was '-'. */
  function Unsigned(t: string): (string, bool) {
    if |t| > 0 && (t[0] == '-' || t[0] == '+') then (t[1..], t[0] == '-') else (t, false)
  }

  /** `parseInt(s)`: leading white space, an optional sign, then the longest
      run of decimal digits; `NaN` (None) when there is no digit. */
  function ParseInt(s: string): (r: Option<int>)
  {
    var (u, negative) := Unsigned(TrimStart(s));
    var ds := LeadingDigits(u);
    if ds == [] then None
    else
      var v: int := DigitsValue(ds);
      Some(if negative then -v else v)
  }

  /** `parseFloat(s)`: leading white space, an optional sign, integer digits,
      then optionally '.' and fraction digits; `NaN` (None) when neither part
      has a digit. */
  function ParseFloat(s: string): (r: Option<real>)
  {
    var (u, negative) := Unsigned(TrimStart(s));
    var whole := LeadingDigits(u);
    LeadingDigitsSpec(u);
    var rest := u[|whole|..];
    var frac := if |rest| > 0 && rest[0] == '.' then LeadingDigits(rest[1..]) else "";
    if whole == [] && frac == [] then None
    else
      var magnitude := DecimalValue(whole, frac);
      Some(if negative then -magnitude else magnitude)
  }

  /** The value of the decimal literal `whole.frac`. */
  function DecimalValue(whole: string, frac: string): real
  {
    DigitsValue(whole) as real + FractionValue(frac)
  }

  /** The value of the digits after the point: `0.frac`. */
  function FractionValue(frac: string): (v: real)
    ensures 0.0 <= v < 1.0
  {
    if frac == [] then 0.0
    else (DigitValue(frac[0]) as real + FractionValue(frac[1..])) / 10.0
  }

  /** `x || 0` on an integer result: `NaN` (and 0 itself) become 0. */
  function OrZero(x: Option<int>): int {
    x.GetOr(0)
  }

  /** `x || 0` on a real result. */
  function OrZeroReal(x: Option<real>): real {
    x.GetOr(0.0)
  }

  /** The digit string of `n` is all digits and reads back as `n`. */
  lemma {:induction false} NatToStringValue(n: nat)
    ensures AllDigits(NatToString(n)) && DigitsValue(NatToString(n)) == n
  {
    var s := NatToString(n);
    if n >= 10 {
      NatToStringValue(n / 10);
      assert s[..|s| - 1] == NatToString(n / 10);
    }
  }

  /** A string made only of digits is its own leading-digit run. */
  lemma {:induction false} LeadingDigitsAll(s: string)
    requires AllDigits(s)
    ensures LeadingDigits(s) == s
  {
    if |s| > 0 {
      LeadingDigitsAll(s[1..]);
    }
  }

  /** `parseInt(String(i)) === i`: the integer renderer and parseInt
      round-trip. */
  lemma ParseIntOfIntToString(i: int)
    ensures ParseInt(IntToString(i)) == Some(i)
  {
    var s := IntToString(i);
    var n: nat := if i < 0 then -i else i;
    NatToStringValue(n);
    var d := NatToString(n);
    assert !IsSpace(s[0]);
    assert TrimStart(s) == s;
    if i < 0 {
      assert Unsigned(s) == (d, true);
    } else {
      assert !(s[0] == '-' || s[0] == '+');
      assert Unsigned(s) == (d, false);
    }
    LeadingDigitsAll(d);
  }

  /** Distinct integers render as distinct strings. */
  lemma IntToStringInjective(i: int, j: int)
    requires i != j
    ensures IntToString(i) != IntToString(j)
  {
    ParseIntOfIntToString(i);
    ParseIntOfIntToString(j);
  }

  /** A sign-free digit string followed by a non-digit parses as its value. */
  lemma ParseIntDigits(ds: string, tail: string)
    requires |ds| > 0 && AllDigits(ds)
    requires tail == [] || !IsDigit(tail[0])
    ensures ParseInt(ds + tail) == Some(DigitsValue(ds))
  {
    var s := ds + tail;
    PlainStart(s);
    LeadingDigitsPrefix(ds, tail);
  }

  /** Text starting with a digit is untouched by trimming and sign removal. */
  lemma PlainStart(s: string)
    requires |s| > 0 && IsDigit(s[0])
    ensures TrimStart(s) == s && Unsigned(s) == (s, false)
  {
    assert !IsSpace(s[0]);
  }

  /** A decimal literal `whole.frac` with only digits on both sides parses as
      `whole + frac / 10^|frac|`. */
  lemma ParseFloatDecimal(whole: string, frac: string)
    requires |whole| > 0 && AllDigits(whole) && AllDigits(frac)
    ensures ParseFloat(whole + "." + frac) == Some(DecimalValue(whole, frac))
  {
    var tail := "." + frac;
    var s := whole + tail;
    assert s == whole + "." + frac;
    PlainStart(s);
    LeadingDigitsPrefix(whole, tail);
    assert LeadingDigits(s) == whole;
    var rest := s[|whole|..];
    assert rest == tail;
    assert |rest| > 0 && rest[0] == '.';
    assert rest[1..] == frac;
    LeadingDigitsAll(frac);
    assert LeadingDigits(rest[1..]) == frac;
  }

  lemma {:induction false} LeadingDigitsPrefix(ds: string, tail: string)
    requires AllDigits(ds)
    requires tail == [] || !IsDigit(tail[0])
    ensures LeadingDigits(ds + tail) == ds
    decreases |ds|
  {
    if |ds| > 0 {
      LeadingDigitsPrefix(ds[1..], tail);
      assert (ds + tail)[1..] == ds[1..] + tail;
      assert ds == [ds[0]] + ds[1..];
    } else {
      assert ds + tail == tail;
    }
  }
}
