/** The few string operations the services use: decimal rendering, joining and upper-casing. */
module Text {

  function DigitChar(d: int): (c: char)
    requires 0 <= d < 10
    ensures '0' <= c <= '9' && c as int - '0' as int == d
  {
    ('0' as int + d) as char
  }

  predicate AllDigits(s: string) {
    forall i | 0 <= i < |s| :: '0' <= s[i] <= '9'
  }

  /** The number a string of decimal digits denotes, most significant digit first. */
  function DigitsValue(s: string): nat
    requires AllDigits(s)
  {
    if s == [] then 0 else DigitsValue(s[..|s| - 1]) * 10 + (s[|s| - 1] as int - '0' as int)
  }

  /** Decimal text of a natural number, as Java's Integer.toString renders it: its digits, with no leading zero. */
  function Dec(n: nat): (s: string)
    ensures |s| >= 1 && AllDigits(s)
    ensures DigitsValue(s) == n
    ensures n > 0 ==> s[0] != '0'
    ensures n == 0 ==> s == "0"
    decreases n
  {
    if n < 10 then [DigitChar(n)]
    else
      var front := Dec(n / 10);
      var s := front + [DigitChar(n % 10)];
      assert s[..|s| - 1] == front;
      s
  }

  /** Distinct numbers have distinct decimal texts. */
  lemma DecInjective(a: nat, b: nat)
    requires Dec(a) == Dec(b)
    ensures a == b
  {
  }

  /** s is the decimal text of i: a '-' exactly when i is negative, then the digits of its magnitude with no leading zero. */
  predicate IsDecimalText(s: string, i: int) {
    && |s| >= 1
    && (i < 0 <==> s[0] == '-')
    && var digits := if i < 0 then s[1..] else s;
       && |digits| >= 1 && AllDigits(digits)
       && DigitsValue(digits) == (if i < 0 then -i else i)
       && (digits[0] == '0' ==> digits == "0")
  }

  /** Decimal text of an integer (`i + ""` in Java). */
  function IntText(i: int): string {
    if i < 0 then "-" + Dec(-i) else Dec(i)
  }

  /** IntText(i) is the decimal text of i. */
  lemma IntTextIsDecimal(i: int)
    ensures IsDecimalText(IntText(i), i)
  {
    if i < 0 {
      var s := IntText(i);
      assert s[1..] == Dec(-i);
    }
  }

  /** Distinct integers have distinct texts: the text can be read back. */
  lemma IntTextInjective(a: int, b: int)
    requires IntText(a) == IntText(b)
    ensures a == b
  {
    IntTextIsDecimal(a);
    IntTextIsDecimal(b);
  }

  /** Collectors.joining(sep) over a list of strings. */
  function Join(parts: seq<string>, sep: string): (s: string)
    ensures parts == [] ==> s == ""
    ensures |parts| == 1 ==> s == parts[0]
  {
    if |parts| == 0 then ""
    else if |parts| == 1 then parts[0]
    else parts[0] + sep + Join(parts[1..], sep)
  }

  function UpperChar(c: char): char {
    if 'a' <= c <= 'z' then (c as int - 32) as char else c
  }

  /**
   * String.toUpperCase restricted to ASCII: each letter 'a'..'z' becomes
   * its capital, every other character is kept, and no lower-case ASCII
   * letter is left.
   */
  function ToUpper(s: string): (u: string)
    ensures |u| == |s|
    ensures forall i | 0 <= i < |s| && 'a' <= s[i] <= 'z' :: 'A' <= u[i] <= 'Z' && u[i] as int == s[i] as int - 32
    ensures forall i | 0 <= i < |s| && !('a' <= s[i] <= 'z') :: u[i] == s[i]
    ensures forall i | 0 <= i < |u| :: !('a' <= u[i] <= 'z')
  {
    seq(|s|, i requires 0 <= i < |s| => UpperChar(s[i]))
  }

  lemma ToUpperConcat(a: string, b: string)
    ensures ToUpper(a + b) == ToUpper(a) + ToUpper(b)
  {
  }

  /** Upper-casing twice is upper-casing once. */
  lemma ToUpperIdempotent(s: string)
    ensures ToUpper(ToUpper(s)) == ToUpper(s)
  {
  }
}
