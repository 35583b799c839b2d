/**
 * The two Python built-ins the EVLN year check relies on: `int(s)` on a
 * string, in base 10, and `repr(s)`, which appears in the message of the
 * `ValueError` that `int` raises on a string it cannot read.
 */
module PyInt {
  import opened Wrappers
  import opened Text

  function DigitVal(c: char): (r: nat)
    requires IsDigit(c)
    ensures r < 10
  {
    c as int - '0' as int
  }

  function DigitChar(d: nat): (c: char)
    requires d < 10
    ensures IsDigit(c) && DigitVal(c) == d
  {
    ('0' as int + d) as char
  }

  /** The number a string of decimal digits denotes. */
  function DecimalValue(s: string): nat
    requires AllDigits(s)
    decreases |s|
  {
    if s == [] then 0 else DecimalValue(s[..|s| - 1]) * 10 + DigitVal(s[|s| - 1])
  }

  /** `str(n)` for a natural number: its decimal digits without leading zeros. */
  function Decimal(n: nat): (r: string)
    ensures r != [] && AllDigits(r)
    ensures r[0] != '0' || n == 0
    decreases n
  {
    if n < 10 then [DigitChar(n)] else Decimal(n / 10) + [DigitChar(n % 10)]
  }

  /**
   * The digit syntax `int` accepts in base 10: digits, where single
   * underscores may separate two digits.
   */
  predicate DigitGroups(s: string) {
    && |s| > 0 && IsDigit(s[0]) && IsDigit(s[|s| - 1])
    && forall i :: 0 <= i < |s| ==> IsDigit(s[i]) || (s[i] == '_' && i + 1 < |s| && IsDigit(s[i + 1]))
  }

  function ParseUnsigned(s: string): (r: Option<nat>)
    ensures r.Some? <==> DigitGroups(s)
  {
    if DigitGroups(s) then
      var digits := Filter(s, IsDigit);
      assert AllDigits(digits) by {
        forall i | 0 <= i < |digits| ensures IsDigit(digits[i]) {
          assert digits[i] in digits;
        }
      }
      Some(DecimalValue(digits))
    else None
  }

  /**
   * `int(s)`: surrounding whitespace is ignored, then an optional sign and
   * the digits; `None` stands for the `ValueError`.
   */
  function ParseInt(s: string): Option<int> {
    var b := Strip(s);
    if |b| > 0 && (b[0] == '+' || b[0] == '-') then
      match ParseUnsigned(b[1..])
      case None => None
      case Some(n) => Some(if b[0] == '-' then 0 - n as int else n as int)
    else
      match ParseUnsigned(b)
      case None => None
      case Some(n) => Some(n)
  }

  lemma {:induction false} DecimalValueOf(n: nat)
    ensures DecimalValue(Decimal(n)) == n
    decreases n
  {
    if n >= 10 {
      DecimalValueOf(n / 10);
      var s := Decimal(n);
      assert s[..|s| - 1] == Decimal(n / 10);
    }
  }

  lemma {:induction false} FilterDigits(s: string)
    requires AllDigits(s)
    ensures Filter(s, IsDigit) == s
    decreases |s|
  {
    if s != [] {
      FilterDigits(s[1..]);
    }
  }

  /** The digits of `str(n)` read back as `n`. */
  lemma UnsignedDecimal(n: nat)
    ensures ParseUnsigned(Decimal(n)) == Some(n)
  {
    var s := Decimal(n);
    assert DigitGroups(s);
    FilterDigits(s);
    DecimalValueOf(n);
  }

  /** `int(str(n)) == n`: the decimal rendering of a number reads back as that number. */
  lemma ParseDecimal(n: nat)
    ensures ParseInt(Decimal(n)) == Some(n)
  {
    UnsignedDecimal(n);
    ParseDigits(Decimal(n));
  }

  /** A string of digits has no sign and no padding, so `int` reads it unsigned. */
  lemma ParseDigits(s: string)
    requires s != [] && AllDigits(s)
    ensures ParseInt(s) == ParseUnsigned(s)
  {
    assert IsDigit(s[0]) && IsDigit(s[|s| - 1]);
    StripUnpadded(s);
  }

  // ---------------------------------------------------------------- repr

  function HexDigit(d: nat): (c: char)
    requires d < 16
  {
    if d < 10 then DigitChar(d) else ('a' as int + d - 10) as char
  }

  /** Characters `repr` writes as a `\xNN` escape: control characters and the non-printable Latin-1 ones. */
  predicate HexEscaped(c: char) {
    (c as int < 32 && c != '\t' && c != '\n' && c != '\r') || (127 <= c as int <= 160) || c as int == 173
  }

  /** How `repr` writes one character inside quotes `q`. */
  function EscapeChar(c: char, q: char): (r: string)
    ensures |r| >= 1
    ensures !HexEscaped(c) && c != '\t' && c != '\n' && c != '\r' && c != '\\' && c != q ==> r == [c]
  {
    if c == q || c == '\\' then ['\\', c]
    else if c == '\t' then "\\t"
    else if c == '\n' then "\\n"
    else if c == '\r' then "\\r"
    else if HexEscaped(c) then ['\\', 'x', HexDigit(c as int / 16), HexDigit(c as int % 16)]
    else [c]
  }

  function EscapeAll(s: string, q: char): (r: string)
    ensures |r| >= |s|
    decreases |s|
  {
    if s == [] then [] else EscapeChar(s[0], q) + EscapeAll(s[1..], q)
  }

  /**
   * `repr(s)`: single quotes, unless `s` holds a single quote and no double
   * quote, with the quote character, backslashes and unprintable characters
   * escaped.
   */
  function Repr(s: string): (r: string)
    ensures |r| >= |s| + 2
    ensures r[0] == r[|r| - 1] && r[0] in "'\""
    ensures r[0] == '"' <==> '\'' in s && '"' !in s
  {
    var q := if '\'' in s && '"' !in s then '"' else '\'';
    [q] + EscapeAll(s, q) + [q]
  }

  /** The message of the `ValueError` `int(s)` raises. */
  function ValueErrorMessage(s: string): string {
    "invalid literal for int() with base 10: " + Repr(s)
  }
}
