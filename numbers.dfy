/**
 * JavaScript's `Number(text)` on the integer texts a quantity field holds, and the
 * `|| 0` fallback that turns NaN (and 0) into 0.
 */
module JsNumber {
  import opened Wrappers

  predicate IsDigit(c: char) { '0' <= c <= '9' }

  predicate AllDigits(s: string) {
    forall i :: 0 <= i < |s| ==> IsDigit(s[i])
  }

  function DigitValue(c: char): (d: nat)
    requires IsDigit(c)
    ensures d < 10
  {
    c as int - '0' as int
  }

  function DigitChar(d: nat): (c: char)
    requires d < 10
    ensures IsDigit(c) && DigitValue(c) == d
  {
    ('0' as int + d) as char
  }

  /** The value of a string of decimal digits, read left to right. */
  function DigitsValue(s: string): nat
    requires AllDigits(s)
    decreases |s|
  {
    if |s| == 0 then 0 else DigitsValue(s[..|s| - 1]) * 10 + DigitValue(s[|s| - 1])
  }

  /** An optional sign followed by at least one decimal digit. */
  predicate IsIntegerText(s: string) {
    if |s| > 0 && (s[0] == '-' || s[0] == '+') then |s| > 1 && AllDigits(s[1..])
    else |s| > 0 && AllDigits(s)
  }

  /**
   * `Number(s)`: the empty text is 0, a signed or unsigned decimal integer is its value,
   * every other text is NaN (None).
   */
  function ToNumber(s: string): (r: Option<int>)
    ensures r.Some? <==> s == "" || IsIntegerText(s)
    ensures s == "" ==> r == Some(0)
    ensures |s| > 0 && AllDigits(s) ==> r == Some(DigitsValue(s))
    ensures |s| > 1 && s[0] == '-' && AllDigits(s[1..]) ==> r == Some(-(DigitsValue(s[1..]) as int))
    ensures |s| > 1 && s[0] == '+' && AllDigits(s[1..]) ==> r == Some(DigitsValue(s[1..]))
  {
    if s == "" then Some(0)
    else if s[0] == '-' && |s| > 1 && AllDigits(s[1..]) then Some(-(DigitsValue(s[1..]) as int))
    else if s[0] == '+' && |s| > 1 && AllDigits(s[1..]) then Some(DigitsValue(s[1..]))
    else if AllDigits(s) then Some(DigitsValue(s))
    else None
  }

  /** `Number(s) || 0`: NaN becomes 0, every number is kept. */
  function NumberOrZero(s: string): (n: int)
    ensures ToNumber(s).None? ==> n == 0
    ensures ToNumber(s).Some? ==> n == ToNumber(s).value
  {
    match ToNumber(s)
    case Some(v) => v
    case None => 0
  }

  /** How a non-negative number is written back into a text field. */
  function ShowNat(n: nat): (s: string)
    ensures |s| > 0 && AllDigits(s)
    decreases n
  {
    if n < 10 then [DigitChar(n)] else ShowNat(n / 10) + [DigitChar(n % 10)]
  }

  function ShowInt(n: int): (s: string)
    ensures |s| > 0
  {
    if n < 0 then "-" + ShowNat(-n) else ShowNat(n)
  }

  lemma {:induction false} ShowNatRoundTrip(n: nat)
    ensures DigitsValue(ShowNat(n)) == n
    decreases n
  {
    if n >= 10 {
      var s := ShowNat(n);
      assert s[..|s| - 1] == ShowNat(n / 10);
      ShowNatRoundTrip(n / 10);
    }
  }

  /** A number shown in a field reads back as the same number. */
  lemma ShowIntRoundTrip(n: int)
    ensures ToNumber(ShowInt(n)) == Some(n)
    ensures NumberOrZero(ShowInt(n)) == n
  {
    var s := ShowInt(n);
    if n < 0 {
      var t := ShowNat(-n);
      assert s[0] == '-' && s[1..] == t;
      ShowNatRoundTrip(-n);
      assert ToNumber(s) == Some(-(DigitsValue(t) as int));
    } else {
      ShowNatRoundTrip(n);
      assert IsDigit(s[0]);
    }
  }

  /** A character that is neither a digit nor a leading sign makes the text non-numeric, hence 0. */
  lemma NonNumericIsZero(s: string, i: nat)
    requires i < |s| && !IsDigit(s[i])
    requires i == 0 ==> s[0] != '-' && s[0] != '+'
    ensures ToNumber(s) == None
    ensures NumberOrZero(s) == 0
  {
    assert !AllDigits(s);
    if i > 0 {
      assert s[1..][i - 1] == s[i];
      assert !AllDigits(s[1..]);
    }
  }
}
