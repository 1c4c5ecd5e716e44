/** Decimal digit strings and the integer conversion `int(text)`, restricted
    to plain ASCII digits. */
module Decimal {
  import opened Results

  predicate IsDigit(c: char) {
    '0' <= c <= '9'
  }

  predicate AllDigits(s: string) {
    forall i :: 0 <= i < |s| ==> IsDigit(s[i])
  }

  function DigitValue(c: char): nat
    requires IsDigit(c)
  {
    (c as int) - ('0' as int)
  }

  function DigitChar(d: nat): (c: char)
    requires d < 10
    ensures IsDigit(c) && DigitValue(c) == d
  {
    ('0' as int + d) as char
  }

  /** The value of a digit string read most significant digit first. */
  function DigitsValue(s: string): nat
    requires AllDigits(s)
  {
    if |s| == 0 then 0 else DigitsValue(s[..|s| - 1]) * 10 + DigitValue(s[|s| - 1])
  }

  /** `int(text)`: a non-empty run of digits, leading zeros allowed, or a
      ValueError. */
  function ParseInt(s: string): (r: Result<nat>)
    ensures r.Success? <==> |s| > 0 && AllDigits(s)
    ensures r.Failure? ==> r.error == NotAnInteger(s)
  {
    if |s| > 0 && AllDigits(s) then Success(DigitsValue(s)) else Failure(NotAnInteger(s))
  }

  /** The canonical decimal text of a number, the partner of `ParseInt`. */
  function Show(n: nat): (s: string)
    ensures |s| > 0 && AllDigits(s)
    ensures |s| > 1 ==> s[0] != '0'
  {
    if n < 10 then [DigitChar(n)] else Show(n / 10) + [DigitChar(n % 10)]
  }

  /** Reading back the text of a number gives the number. */
  lemma {:induction false} ParseShow(n: nat)
    ensures ParseInt(Show(n)) == Success(n)
  {
    ShowValue(n);
  }

  lemma {:induction false} ShowValue(n: nat)
    ensures DigitsValue(Show(n)) == n
  {
    var s := Show(n);
    if n >= 10 {
      ShowValue(n / 10);
      assert s[..|s| - 1] == Show(n / 10);
    }
  }

  /** Conversely, a digit string without a leading zero is the text of its
      own value, so `ParseInt` and `Show` are mutually inverse on canonical
      texts. */
  lemma {:induction false} ShowParse(s: string)
    requires |s| > 0 && AllDigits(s)
    requires |s| > 1 ==> s[0] != '0'
    ensures Show(DigitsValue(s)) == s
  {
    if |s| > 1 {
      var p := s[..|s| - 1];
      assert p[0] == s[0];
      NonZeroLead(p);
      ShowParse(p);
      var n := DigitsValue(s);
      assert n / 10 == DigitsValue(p) && n % 10 == DigitValue(s[|s| - 1]);
    }
  }

  lemma {:induction false} NonZeroLead(s: string)
    requires |s| > 0 && AllDigits(s) && s[0] != '0'
    ensures DigitsValue(s) >= 1
  {
    if |s| > 1 {
      var p := s[..|s| - 1];
      assert p[0] == s[0];
      NonZeroLead(p);
    }
  }

  /** `int` ignores leading zeros: `int("007") == 7`. */
  lemma {:induction false} LeadingZero(s: string)
    requires AllDigits(s)
    ensures AllDigits("0" + s) && DigitsValue("0" + s) == DigitsValue(s)
  {
    if |s| > 0 {
      var p := s[..|s| - 1];
      assert ("0" + s)[..|s|] == "0" + p;
      LeadingZero(p);
    }
  }
}
