/**
 * The few PHP string built-ins the OpenID adapter relies on: the boolean
 * reading of a string, `strtolower`, `trim` and the decimal rendering of an
 * integer in string concatenation.
 */
module PhpStrings {

  /** PHP's boolean reading of a string (`if ($s)`, `$s ? a : b`, `!empty($s)`):
      every string is true except "" and "0". */
  predicate Truthy(s: string)
    ensures Truthy(s) ==> s != []
    ensures |s| >= 2 ==> Truthy(s)
    ensures |s| == 1 ==> (Truthy(s) <==> s[0] != '0')
  {
    s != "" && s != "0"
  }

  // ----- strtolower -----------------------------------------------------

  predicate IsUpper(c: char) {
    'A' <= c <= 'Z'
  }

  /** A string with no ASCII upper-case letter. */
  predicate IsLowerCase(s: string) {
    forall i :: 0 <= i < |s| ==> !IsUpper(s[i])
  }

  function LowerChar(c: char): (d: char)
    ensures !IsUpper(d)
    ensures IsUpper(c) ==> d as int == c as int + 32
    ensures !IsUpper(c) ==> d == c
  {
    if IsUpper(c) then (c as int + 32) as char else c
  }

  /** `strtolower`: each ASCII upper-case letter is replaced by its lower-case
      letter, every other character is kept in place. */
  function ToLower(s: string): (r: string)
    ensures |r| == |s|
    ensures forall i :: 0 <= i < |s| ==> r[i] == LowerChar(s[i])
  {
    if s == [] then [] else [LowerChar(s[0])] + ToLower(s[1..])
  }

  lemma ToLowerIsLowerCase(s: string)
    ensures IsLowerCase(ToLower(s))
  {
  }

  /** strtolower leaves a string alone exactly when it is already lower-case. */
  lemma ToLowerFixedPoint(s: string)
    ensures ToLower(s) == s <==> IsLowerCase(s)
  {
  }

  lemma ToLowerIdempotent(s: string)
    ensures ToLower(ToLower(s)) == ToLower(s)
  {
  }

  // ----- trim -----------------------------------------------------------

  /** What `trim` strips when it is given no character list: space, tab,
      line feed, carriage return, NUL and vertical tab. */
  predicate IsTrimChar(c: char) {
    c == ' ' || c == '\t' || c == '\n' || c == '\r' || c as int == 0 || c as int == 11
  }

  /** A string made only of characters `trim` strips (the empty string included). */
  predicate Blank(s: string) {
    forall i :: 0 <= i < |s| ==> IsTrimChar(s[i])
  }

  /** How many trimmed characters `s` starts with. */
  function LeadingBlanks(s: string): (n: nat)
    ensures n <= |s|
    ensures forall k :: 0 <= k < n ==> IsTrimChar(s[k])
    ensures n < |s| ==> !IsTrimChar(s[n])
  {
    if s != [] && IsTrimChar(s[0]) then 1 + LeadingBlanks(s[1..]) else 0
  }

  /** Where the trailing run of trimmed characters of `s` begins. */
  function TrailingBlanksStart(s: string): (m: nat)
    ensures m <= |s|
    ensures forall k :: m <= k < |s| ==> IsTrimChar(s[k])
    ensures 0 < m ==> !IsTrimChar(s[m - 1])
  {
    if s != [] && IsTrimChar(s[|s| - 1]) then TrailingBlanksStart(s[..|s| - 1]) else |s|
  }

  /** `trim`: the piece of `s` between its leading and its trailing run of
      trimmed characters. The result is empty exactly when the input is
      blank, and a non-empty result starts and ends with a kept character. */
  function Trim(s: string): (r: string)
    ensures r == [] <==> Blank(s)
    ensures r != [] ==> !IsTrimChar(r[0]) && !IsTrimChar(r[|r| - 1])
  {
    var i := LeadingBlanks(s);
    var j := TrailingBlanksStart(s);
    if i == |s| then [] else s[i..j]
  }

  /** The result of `trim` is the piece of the input between a blank prefix
      and a blank suffix. */
  lemma TrimIsInfix(s: string)
    ensures exists i, j :: 0 <= i <= j <= |s| && Trim(s) == s[i..j] && Blank(s[..i]) && Blank(s[j..])
  {
    if Blank(s) {
      assert Trim(s) == s[0..0] && Blank(s[..0]) && Blank(s[0..]);
    } else {
      var i, j := LeadingBlanks(s), TrailingBlanksStart(s);
      assert Trim(s) == s[i..j] && Blank(s[..i]) && Blank(s[j..]);
    }
  }

  /** A string that starts and ends with a kept character is left as it is. */
  lemma TrimKeepsTrimmed(s: string)
    requires s != [] ==> !IsTrimChar(s[0]) && !IsTrimChar(s[|s| - 1])
    ensures Trim(s) == s
  {
  }

  lemma BlankConcat(a: string, b: string)
    ensures Blank(a + b) <==> Blank(a) && Blank(b)
  {
    if Blank(a + b) {
      forall k | 0 <= k < |b| ensures IsTrimChar(b[k]) { assert b[k] == (a + b)[|a| + k]; }
      forall k | 0 <= k < |a| ensures IsTrimChar(a[k]) { assert a[k] == (a + b)[k]; }
    }
  }

  // ----- integers in strings ---------------------------------------------

  predicate IsDigit(c: char) {
    '0' <= c <= '9'
  }

  predicate AllDigits(s: string) {
    forall i :: 0 <= i < |s| ==> IsDigit(s[i])
  }

  function Digit(d: nat): (c: char)
    requires d < 10
    ensures IsDigit(c) && c as int - '0' as int == d
  {
    (d + '0' as int) as char
  }

  /** The decimal text PHP produces when an integer is concatenated to a
      string: at least one digit, and no leading zero except for 0 itself. */
  function NatToDecimal(n: nat): (r: string)
    ensures r != [] && AllDigits(r)
    ensures r[0] == '0' <==> n == 0
  {
    if n < 10 then [Digit(n)] else NatToDecimal(n / 10) + [Digit(n % 10)]
  }

  /** The number a string of decimal digits denotes. */
  function DecimalValue(s: string): nat
    requires AllDigits(s)
  {
    if s == [] then 0 else 10 * DecimalValue(s[..|s| - 1]) + (s[|s| - 1] as int - '0' as int)
  }

  /** Reading back the decimal text of a number gives the number. */
  lemma {:induction false} DecimalRoundTrip(n: nat)
    ensures DecimalValue(NatToDecimal(n)) == n
  {
    if n >= 10 {
      var s := NatToDecimal(n / 10);
      DecimalRoundTrip(n / 10);
      assert (s + [Digit(n % 10)])[..|s|] == s;
    }
  }
}
