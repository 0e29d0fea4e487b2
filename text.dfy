/** The string rules the forms rely on: the `/^\d+$/` digit test, JavaScript's
    `parseInt(s, 10)` and `Number(s)` on decimal numerals, and the decimal
    rendering of an integer inside a template literal. */
module Text {
  import opened Common

  predicate IsDigit(c: char) {
    '0' <= c <= '9'
  }

  /** `/^\d+$/.test(s)`: one or more ASCII digits and nothing else. */
  predicate AllDigits(s: string) {
    |s| > 0 && forall i :: 0 <= i < |s| ==> IsDigit(s[i])
  }

  /** The contact-number and zip-code rule: `s.length === n && /^\d+$/.test(s)`. */
  predicate DigitsOfLength(s: string, n: nat) {
    |s| == n && AllDigits(s)
  }

  /** The value of a run of digits, most significant first ("" has value 0). */
  function DigitsValue(s: string): nat
    requires forall i :: 0 <= i < |s| ==> IsDigit(s[i])
  {
    if s == [] then 0
    else
      assert forall i :: 0 <= i < |s| - 1 ==> s[..|s| - 1][i] == s[i];
      assert IsDigit(s[|s| - 1]);
      10 * DigitsValue(s[..|s| - 1]) + (s[|s| - 1] as int - '0' as int)
  }

  function Pow10(n: nat): (p: nat)
    ensures p >= 1
  {
    if n == 0 then 1 else 10 * Pow10(n - 1)
  }

  /** The length of the longest prefix of `s` made of digits. */
  function LeadingDigits(s: string): (k: nat)
    ensures k <= |s|
    ensures forall i :: 0 <= i < k ==> IsDigit(s[i])
    ensures k < |s| ==> !IsDigit(s[k])
  {
    if s == [] || !IsDigit(s[0]) then 0 else 1 + LeadingDigits(s[1..])
  }

  /** Length of an optional leading sign. */
  function SignLength(s: string): (n: nat)
    ensures n <= |s| && n <= 1
    ensures n == 1 <==> |s| > 0 && (s[0] == '-' || s[0] == '+')
  {
    if |s| > 0 && (s[0] == '-' || s[0] == '+') then 1 else 0
  }

  predicate Negative(s: string) {
    |s| > 0 && s[0] == '-'
  }

  /** `parseInt(s, 10)`: an optional sign, then the longest run of digits;
      anything after it is ignored, and no digit at all gives NaN (`None`).
      Leading white space, which JavaScript skips, is not modelled. */
  function ParseInt(s: string): (r: Option<int>)
    ensures r.Some? <==> SignLength(s) < |s| && IsDigit(s[SignLength(s)])
    ensures AllDigits(s) ==> r == Some(DigitsValue(s))
  {
    var body := s[SignLength(s)..];
    var k := LeadingDigits(body);
    assert k > 0 <==> |body| > 0 && IsDigit(body[0]);
    if k == 0 then None
    else
      var magnitude: int := DigitsValue(body[..k]);
      assert AllDigits(s) ==> SignLength(s) == 0 && body == s && k == |s| && body[..k] == s;
      Some(if Negative(s) then -magnitude else magnitude)
  }

  /** The unsigned value of a decimal numeral `digits [. digits]` with at least
      one digit, or `None` when `body` is not one. */
  function DecimalMagnitude(body: string): (m: Option<real>)
    ensures AllDigits(body) ==> m == Some(DigitsValue(body) as real)
  {
    var k := LeadingDigits(body);
    var whole := DigitsValue(body[..k]) as real;
    if k == |body| then
      assert body[..k] == body;
      if k == 0 then None else Some(whole)
    else if body[k] == '.' && LeadingDigits(body[k + 1..]) == |body| - k - 1 && (k > 0 || k + 1 < |body|) then
      Some(whole + DigitsValue(body[k + 1..]) as real / Pow10(|body| - k - 1) as real)
    else None
  }

  /** `Number(s)`, restricted to decimal numerals: "" is 0, an optional sign is
      followed by `digits [. digits]` with at least one digit, anything else
      is NaN (`None`). */
  function NumberValue(s: string): (r: Option<real>)
    ensures s == "" ==> r == Some(0.0)
    ensures AllDigits(s) ==> r == Some(DigitsValue(s) as real)
  {
    if s == "" then Some(0.0)
    else
      assert AllDigits(s) ==> s[SignLength(s)..] == s;
      match DecimalMagnitude(s[SignLength(s)..])
      case None => None
      case Some(m) => Some(if Negative(s) then -m else m)
  }

  lemma {:induction false} DigitsValueBound(s: string)
    requires forall i :: 0 <= i < |s| ==> IsDigit(s[i])
    ensures DigitsValue(s) < Pow10(|s|)
  {
    if s != [] {
      var front := s[..|s| - 1];
      assert forall i :: 0 <= i < |front| ==> front[i] == s[i];
      DigitsValueBound(front);
    }
  }

  /** A fraction `f / p` with `0 <= f < p` lies in [0, 1). */
  lemma FractionBelowOne(f: nat, p: nat)
    requires f < p
    ensures 0.0 <= f as real / p as real < 1.0
  {
  }

  /** `parseInt` keeps the integer part of the number `Number` reads: when both
      are defined, the integer is the number truncated toward zero. */
  lemma ParseIntTruncatesNumber(s: string)
    requires NumberValue(s).Some? && ParseInt(s).Some?
    ensures var v, n := NumberValue(s).value, ParseInt(s).value;
            (v >= 0.0 ==> n as real <= v < n as real + 1.0) &&
            (v < 0.0 ==> n as real - 1.0 < v <= n as real)
  {
    var body := s[SignLength(s)..];
    var k := LeadingDigits(body);
    var whole: int := DigitsValue(body[..k]);
    assert ParseInt(s) == Some(if Negative(s) then -whole else whole);
    var m := DecimalMagnitude(body).value;
    if k < |body| {
      var frac := body[k + 1..];
      DigitsValueBound(frac);
      FractionBelowOne(DigitsValue(frac), Pow10(|frac|));
    }
    assert whole as real <= m < whole as real + 1.0;
  }

  function DigitChar(d: nat): (c: char)
    requires d < 10
    ensures IsDigit(c) && c as int - '0' as int == d
  {
    ('0' as int + d) as char
  }

  /** The decimal digits of a natural number, as a template literal renders it. */
  function NatToString(n: nat): (s: string)
    ensures AllDigits(s)
  {
    if n < 10 then [DigitChar(n)] else NatToString(n / 10) + [DigitChar(n % 10)]
  }

  /** `${i}` for an integer: a minus sign for negatives, then the digits. */
  function IntToString(i: int): string {
    if i < 0 then "-" + NatToString(-i) else NatToString(i)
  }

  lemma {:induction false} NatToStringValue(n: nat)
    ensures DigitsValue(NatToString(n)) == n
  {
    if n >= 10 {
      NatToStringValue(n / 10);
      var s := NatToString(n);
      assert s[..|s| - 1] == NatToString(n / 10);
    }
  }

  /** Reading back a rendered integer with `parseInt` gives the integer. */
  lemma IntToStringRoundTrip(i: int)
    ensures ParseInt(IntToString(i)) == Some(i)
  {
    if i < 0 {
      var t := NatToString(-i);
      var s := IntToString(i);
      NatToStringValue(-i);
      assert s[SignLength(s)..] == t;
      assert LeadingDigits(t) == |t|;
      assert t[..|t|] == t;
    } else {
      NatToStringValue(i);
    }
  }
}
