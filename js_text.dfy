/** The few JavaScript value rules the game's settings and editor rely on:
    `null`, `parseInt(s, 10)`, `Number.prototype.toString`, `startsWith` and
    the `<`/`>=` comparison of strings. */
module JsText {

  /** `None` stands for `null` (an absent storage key). */
  datatype Option<T> = None | Some(value: T)

  /** A number as `parseInt` produces it: NaN or an integer. */
  datatype JsNumber = NaN | Int(n: int)

  predicate IsDigit(c: char)
  {
    '0' <= c <= '9'
  }

  /** The white space and line terminators `parseInt` skips before the
      digits. */
  predicate IsSpace(c: char)
  {
    c == ' ' || c == '\t' || c == '\n' || c == '\r' || c == '\U{000B}' || c == '\U{000C}' ||
    c == '\U{00A0}' || c == '\U{1680}' || '\U{2000}' <= c <= '\U{200A}' || c == '\U{2028}' ||
    c == '\U{2029}' || c == '\U{202F}' || c == '\U{205F}' || c == '\U{3000}' || c == '\U{FEFF}'
  }

  predicate AllDigits(s: string)
  {
    forall i :: 0 <= i < |s| ==> IsDigit(s[i])
  }

  function DigitOf(c: char): nat
    requires IsDigit(c)
  {
    c as int - '0' as int
  }

  function DigitChar(d: nat): (c: char)
    requires d < 10
    ensures IsDigit(c) && DigitOf(c) == d
  {
    ('0' as int + d) as char
  }

  /** The length of the run of decimal digits that starts `s`. */
  function DigitRun(s: string): (n: nat)
    ensures n <= |s| && AllDigits(s[..n])
    ensures n < |s| ==> !IsDigit(s[n])
  {
    if s == [] || !IsDigit(s[0]) then 0
    else
      var n := DigitRun(s[1..]);
      assert s[..n + 1] == [s[0]] + s[1..][..n];
      n + 1
  }

  /** The value of a string of decimal digits, most significant first. */
  function DigitsValue(d: string): nat
    requires AllDigits(d)
  {
    if d == [] then 0 else 10 * DigitsValue(d[..|d| - 1]) + DigitOf(d[|d| - 1])
  }

  /** A string of digits is worth at least its first digit. */
  lemma {:induction false} ValueAtLeastFirstDigit(d: string)
    requires AllDigits(d) && d != []
    ensures DigitsValue(d) >= DigitOf(d[0])
  {
    if |d| > 1 {
      ValueAtLeastFirstDigit(d[..|d| - 1]);
    }
  }

  /** `parseInt(s, 10)`: leading white space is skipped, one sign is read,
      then the longest run of digits; without a digit the result is NaN. */
  function ParseInt(s: string): JsNumber
  {
    if s != [] && IsSpace(s[0]) then ParseInt(s[1..])
    else if s != [] && (s[0] == '-' || s[0] == '+') then
      var n := DigitRun(s[1..]);
      if n == 0 then NaN
      else if s[0] == '-' then Int(-(DigitsValue(s[1..][..n]) as int))
      else Int(DigitsValue(s[1..][..n]))
    else
      var n := DigitRun(s);
      if n == 0 then NaN else Int(DigitsValue(s[..n]))
  }

  /** The decimal text of a natural number, without leading zeros. */
  function NatText(n: nat): (s: string)
    ensures s != [] && AllDigits(s)
  {
    if n < 10 then [DigitChar(n)] else NatText(n / 10) + [DigitChar(n % 10)]
  }

  /** `x.toString()` for what `parseInt` produces, in plain decimal; the
      exponent form JavaScript uses from 1e21 in size on is not modelled. */
  function NumberText(x: JsNumber): string
  {
    match x
    case NaN => "NaN"
    case Int(n) => if n < 0 then "-" + NatText(-n) else NatText(n)
  }

  lemma {:induction false} NatTextValue(n: nat)
    ensures DigitsValue(NatText(n)) == n
  {
    if n >= 10 {
      NatTextValue(n / 10);
      var s := NatText(n);
      assert s[..|s| - 1] == NatText(n / 10);
    }
  }

  /** Reading back a number written in plain decimal gives the number:
      what the settings store under a key is what the next reading of that
      key parses. */
  lemma NumberTextRoundTrip(x: JsNumber)
    ensures ParseInt(NumberText(x)) == x
  {
    match x
    case NaN =>
    case Int(n) =>
      var m := if n < 0 then -n else n;
      var t := NatText(m);
      NatTextValue(m);
      assert DigitRun(t) == |t|;
      assert t[..|t|] == t;
      if n < 0 {
        assert ("-" + t)[1..] == t;
      }
  }

  /** `s.startsWith(prefix)`. */
  predicate StartsWith(s: string, prefix: string)
  {
    |prefix| <= |s| && s[..|prefix|] == prefix
  }

  /** `a < b` on strings: the first differing code unit decides, and a
      proper prefix is smaller. */
  predicate LexLess(a: string, b: string)
  {
    if b == [] then false
    else if a == [] then true
    else a[0] < b[0] || (a[0] == b[0] && LexLess(a[1..], b[1..]))
  }
}
