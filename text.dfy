/** Text primitives the command-line client relies on: ASCII lower-casing
    (the model of `strings.ToLower`) and the decimal rendering of a rank
    (`fmt.Sprintf("%v", rank)`), together with a decimal parser that serves
    as the rendering's inverse. */
module AsciiText {

  datatype Option<T> = None | Some(value: T)

  predicate IsUpper(c: char) {
    'A' <= c <= 'Z'
  }

  predicate HasUpper(s: string) {
    exists i :: 0 <= i < |s| && IsUpper(s[i])
  }

  /** Lower-cases one ASCII letter; every other character is kept. */
  function LowerChar(c: char): (d: char)
    ensures !IsUpper(d)
    ensures IsUpper(c) ==> d as int == c as int + 32
    ensures !IsUpper(c) ==> d == c
  {
    if IsUpper(c) then (c as int + 32) as char else c
  }

  /** `strings.ToLower`, restricted to ASCII case folding. */
  function ToLower(s: string): (r: string)
    ensures |r| == |s|
    ensures forall i :: 0 <= i < |s| ==> r[i] == LowerChar(s[i])
    ensures !HasUpper(r)
    ensures !HasUpper(s) ==> r == s
  {
    if s == [] then [] else [LowerChar(s[0])] + ToLower(s[1..])
  }

  /** Two characters are the same letter up to case: equal, or an upper-case
      ASCII letter and its lower-case counterpart. */
  predicate SameIgnoringCase(c: char, d: char) {
    c == d
    || (IsUpper(c) && d as int == c as int + 32)
    || (IsUpper(d) && c as int == d as int + 32)
  }

  /** `a` and `b` differ at most in the case of their ASCII letters. */
  predicate CaseVariants(a: string, b: string) {
    |a| == |b| && forall i :: 0 <= i < |a| ==> SameIgnoringCase(a[i], b[i])
  }

  lemma LowerCharEqualIff(c: char, d: char)
    ensures LowerChar(c) == LowerChar(d) <==> SameIgnoringCase(c, d)
  {
  }

  /** Lower-casing identifies exactly the strings that differ only in case. */
  lemma {:induction false} ToLowerEqualIff(a: string, b: string)
    ensures ToLower(a) == ToLower(b) <==> CaseVariants(a, b)
  {
    var la, lb := ToLower(a), ToLower(b);
    if la == lb {
      forall i | 0 <= i < |a|
        ensures SameIgnoringCase(a[i], b[i])
      {
        assert la[i] == lb[i];
        LowerCharEqualIff(a[i], b[i]);
      }
    }
    if CaseVariants(a, b) {
      forall i | 0 <= i < |a|
        ensures la[i] == lb[i]
      {
        LowerCharEqualIff(a[i], b[i]);
      }
    }
  }

  /** A string that contains an upper-case letter is never the result of
      lower-casing anything. */
  lemma UpperNeverLowered(s: string, q: string)
    requires HasUpper(q)
    ensures ToLower(s) != q
  {
  }

  // ---------------------------------------------------------------------
  // Decimal rendering of integers, as `%v` prints an int.

  predicate IsDigit(c: char) {
    '0' <= c <= '9'
  }

  predicate AllDigits(s: string) {
    forall i :: 0 <= i < |s| ==> IsDigit(s[i])
  }

  function DigitChar(d: nat): (c: char)
    requires d < 10
    ensures IsDigit(c)
  {
    ('0' as int + d) as char
  }

  function DigitValue(c: char): (d: nat)
    requires IsDigit(c)
    ensures d < 10
  {
    c as int - '0' as int
  }

  /** The decimal digits of `n`, most significant first, with no leading zero. */
  function Digits(n: nat): (s: string)
    ensures |s| > 0 && AllDigits(s)
    ensures |s| > 1 ==> s[0] != '0'
    decreases n
  {
    if n < 10 then [DigitChar(n)] else Digits(n / 10) + [DigitChar(n % 10)]
  }

  /** The shape `%v` gives an int: an optional minus sign, then at least one
      digit, with no leading zero. */
  predicate Canonical(s: string) {
    |s| > 0 &&
    var d := if s[0] == '-' then s[1..] else s;
    |d| > 0 && AllDigits(d) && (|d| > 1 ==> d[0] != '0')
  }

  /** `fmt.Sprintf("%v", n)` for an int: a minus sign for negatives, then the digits. */
  function DecimalText(n: int): (s: string)
    ensures Canonical(s)
    ensures s[0] == '-' <==> n < 0
  {
    if n < 0 then "-" + Digits(-n) else Digits(n)
  }

  /** The value of a string of digits, read most significant first. */
  function DigitsValue(s: string): nat
    requires AllDigits(s)
  {
    if s == [] then 0 else 10 * DigitsValue(s[..|s| - 1]) + DigitValue(s[|s| - 1])
  }

  /** Reads an optionally negative decimal integer; anything else is None. */
  function ParseDecimal(s: string): Option<int> {
    if |s| > 1 && s[0] == '-' && AllDigits(s[1..]) then Some(-(DigitsValue(s[1..]) as int))
    else if |s| > 0 && AllDigits(s) then Some(DigitsValue(s))
    else None
  }

  lemma {:induction false} DigitsValueOfDigits(n: nat)
    ensures DigitsValue(Digits(n)) == n
    decreases n
  {
    if n >= 10 {
      var s := Digits(n);
      assert s[..|s| - 1] == Digits(n / 10);
      DigitsValueOfDigits(n / 10);
    }
  }

  /** Reading back the rendered rank yields the rank. */
  lemma DecimalRoundTrip(n: int)
    ensures ParseDecimal(DecimalText(n)) == Some(n)
  {
    if n < 0 {
      var s := DecimalText(n);
      assert s[1..] == Digits(-n);
      DigitsValueOfDigits(-n);
    } else {
      DigitsValueOfDigits(n);
    }
  }
}
