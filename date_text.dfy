/** The `%Y-%m-%d` text form of dates: `strftime` (Format) and `strptime`
    (Parse), restricted to the canonical ASCII form `YYYY-MM-DD`. */
module DateText {
  import opened Results
  import opened Calendar

  predicate IsDigit(c: char) {
    '0' <= c <= '9'
  }

  function DigitChar(n: int): (c: char)
    requires 0 <= n <= 9
    ensures IsDigit(c)
  {
    ('0' as int + n) as char
  }

  function DigitValue(c: char): int
    requires IsDigit(c)
  {
    c as int - '0' as int
  }

  function Pad2(n: int): string
    requires 0 <= n <= 99
  {
    [DigitChar(n / 10), DigitChar(n % 10)]
  }

  function Pad4(n: int): string
    requires 0 <= n <= 9999
  {
    Pad2(n / 100) + Pad2(n % 100)
  }

  /** `date.strftime("%Y-%m-%d")`. */
  function Format(d: Date): string
    requires Valid(d)
  {
    Pad4(d.year) + "-" + Pad2(d.month) + "-" + Pad2(d.day)
  }

  /** Two ASCII digits. */
  predicate Digits2(s: string) {
    |s| == 2 && IsDigit(s[0]) && IsDigit(s[1])
  }

  /** Four ASCII digits. */
  predicate Digits4(s: string) {
    |s| == 4 && Digits2(s[..2]) && Digits2(s[2..])
  }

  /** The number written by two decimal digits. */
  function Value2(s: string): int
    requires Digits2(s)
  {
    10 * DigitValue(s[0]) + DigitValue(s[1])
  }

  /** The number written by four decimal digits. */
  function Value4(s: string): int
    requires Digits4(s)
  {
    100 * Value2(s[..2]) + Value2(s[2..])
  }

  /** The ten-character shape `DDDD-DD-DD` with ASCII digits. */
  predicate Shaped(s: string) {
    |s| == 10 && s[4] == '-' && s[7] == '-'
    && Digits4(s[..4]) && Digits2(s[5..7]) && Digits2(s[8..])
  }

  /** `datetime.strptime(s, "%Y-%m-%d")`: None where Python raises ValueError. */
  function Parse(s: string): Option<Date> {
    if !Shaped(s) then None
    else
      var d := Date(Value4(s[..4]), Value2(s[5..7]), Value2(s[8..]));
      if Valid(d) then Some(d) else None
  }

  lemma Pad2Value(n: int)
    requires 0 <= n <= 99
    ensures Digits2(Pad2(n)) && Value2(Pad2(n)) == n
  {
  }

  lemma Value2Pad(s: string)
    requires Digits2(s)
    ensures 0 <= Value2(s) <= 99 && Pad2(Value2(s)) == s
  {
  }

  lemma Pad4Value(n: int)
    requires 0 <= n <= 9999
    ensures Digits4(Pad4(n)) && Value4(Pad4(n)) == n
  {
    var p := Pad4(n);
    assert p[..2] == Pad2(n / 100) && p[2..] == Pad2(n % 100);
    Pad2Value(n / 100);
    Pad2Value(n % 100);
  }

  lemma Value4Pad(s: string)
    requires Digits4(s)
    ensures 0 <= Value4(s) <= 9999 && Pad4(Value4(s)) == s
  {
    Value2Pad(s[..2]);
    Value2Pad(s[2..]);
    var a, b := Value2(s[..2]), Value2(s[2..]);
    DivMod100(a, b);
    assert s == s[..2] + s[2..];
  }

  lemma DivMod100(a: int, b: int)
    requires 0 <= a <= 99 && 0 <= b <= 99
    ensures (100 * a + b) / 100 == a && (100 * a + b) % 100 == b
  {
  }

  /** Every character of a formatted date is a digit or a hyphen. */
  lemma FormatCharacters(d: Date)
    requires Valid(d)
    ensures Shaped(Format(d))
    ensures forall i :: 0 <= i < |Format(d)| ==> IsDigit(Format(d)[i]) || Format(d)[i] == '-'
  {
    var s := Format(d);
    assert s[..4] == Pad4(d.year) && s[5..7] == Pad2(d.month) && s[8..] == Pad2(d.day);
  }

  /** Parsing a formatted date gives the date back. */
  lemma ParseFormat(d: Date)
    requires Valid(d)
    ensures Parse(Format(d)) == Some(d)
  {
    var s := Format(d);
    FormatCharacters(d);
    assert s[..4] == Pad4(d.year) && s[5..7] == Pad2(d.month) && s[8..] == Pad2(d.day);
    Pad4Value(d.year);
    Pad2Value(d.month);
    Pad2Value(d.day);
  }

  /** Only canonical text parses: whatever Parse accepts, Format writes back
      character for character. */
  lemma FormatParse(s: string)
    requires Parse(s).Some?
    ensures Format(Parse(s).value) == s
  {
    Value4Pad(s[..4]);
    Value2Pad(s[5..7]);
    Value2Pad(s[8..]);
    assert s == s[..4] + "-" + s[5..7] + "-" + s[8..];
  }

  /** Formatting is injective on valid dates. */
  lemma FormatInjective(a: Date, b: Date)
    requires Valid(a) && Valid(b) && Format(a) == Format(b)
    ensures a == b
  {
    ParseFormat(a);
    ParseFormat(b);
  }
}
