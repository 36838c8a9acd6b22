/** Python's `str()` and `repr()` of the values a filter can hold, as the
    `__repr__` of a filter interpolates them. */
module PyText {
  import opened Results
  import opened Values

  predicate IsDigit(c: char) {
    '0' <= c <= '9'
  }

  predicate AllDigits(s: string) {
    forall k :: 0 <= k < |s| ==> IsDigit(s[k])
  }

  function DigitChar(d: nat): (c: char)
    requires d < 10
    ensures IsDigit(c)
  {
    ('0' as int + d) as char
  }

  function DigitValue(c: char): (d: nat)
    requires IsDigit(c)
    ensures d < 10
  {
    c as int - '0' as int
  }

  /** The decimal digits of `n` without leading zeros, as `str(n)` prints them. */
  function NatText(n: nat): (s: string)
    ensures s != [] && AllDigits(s)
    ensures n == 0 ==> s == "0"
    ensures n > 0 ==> s[0] != '0'
  {
    if n < 10 then [DigitChar(n)] else NatText(n / 10) + [DigitChar(n % 10)]
  }

  /** The number a string of decimal digits denotes; the reference reading of `NatText`. */
  function DigitsValue(s: string): nat
    requires AllDigits(s)
  {
    if s == [] then 0 else 10 * DigitsValue(s[..|s| - 1]) + DigitValue(s[|s| - 1])
  }

  /** `str(n)` for an int: a minus sign before the digits of a negative number. */
  function IntText(n: int): string {
    if n < 0 then "-" + NatText(-n) else NatText(n)
  }

  /** `int(s)` for the strings `IntText` produces: an optional minus sign and digits. */
  function ParseInt(s: string): Option<int> {
    if s != [] && s[0] == '-' then
      if |s| > 1 && AllDigits(s[1..]) then Some(0 - DigitsValue(s[1..])) else None
    else if s != [] && AllDigits(s) then Some(DigitsValue(s))
    else None
  }

  lemma {:induction false} NatTextValue(n: nat)
    ensures DigitsValue(NatText(n)) == n
  {
    if n >= 10 {
      var s := NatText(n);
      assert s[..|s| - 1] == NatText(n / 10);
      NatTextValue(n / 10);
    }
  }

  /** Reading back what `IntText` prints gives the number again, so distinct
      ints render differently. */
  lemma IntTextRoundTrip(n: int)
    ensures ParseInt(IntText(n)) == Some(n)
  {
    var s := IntText(n);
    if n < 0 {
      var digits := NatText(-n);
      assert s == "-" + digits;
      assert s[1..] == digits;
      NatTextValue(-n);
      assert ParseInt(s) == Some(0 - DigitsValue(digits));
    } else {
      assert s == NatText(n);
      assert s[0] != '-';
      NatTextValue(n);
    }
  }

  /** Left-pads with zeros to `width` characters, as `%0Nd` does. */
  function Pad(s: string, width: nat): (r: string)
    ensures |r| == if |s| < width then width else |s|
    ensures r[|r| - |s|..] == s
  {
    if |s| < width then seq(width - |s|, _ => '0') + s else s
  }

  function Join(parts: seq<string>, sep: string): string {
    if parts == [] then ""
    else if |parts| == 1 then parts[0]
    else parts[0] + sep + Join(parts[1..], sep)
  }

  /** `repr(v)`. String escapes are not rendered: a string is shown between single quotes. */
  function Repr(v: Value): string
    decreases v
  {
    match v
    case Int(i) => IntText(i)
    case Str(s) => "'" + s + "'"
    case Date(y, m, d) => "datetime.date(" + NatText(y) + ", " + NatText(m) + ", " + NatText(d) + ")"
    case List(items) => "[" + Join(seq(|items|, k requires 0 <= k < |items| => Repr(items[k])), ", ") + "]"
    case Null => "None"
  }

  /** `str(v)`: a string is itself, a date is its ISO form, anything else is its `repr`. */
  function Text(v: Value): string {
    match v
    case Str(s) => s
    case Date(y, m, d) => Pad(NatText(y), 4) + "-" + Pad(NatText(m), 2) + "-" + Pad(NatText(d), 2)
    case _ => Repr(v)
  }
}
