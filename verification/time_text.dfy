/** The `"HH:MM"` text of a clock reading, as `f"{hour:02}:{minute:02}"`
    writes it, and the parser that reads it back. */
module TimeText {
  import opened Outcomes

  datatype Reading = Reading(hour: nat, minute: nat)

  predicate IsDigit(c: char)
  {
    '0' <= c <= '9'
  }

  function DigitValue(c: char): nat
    requires IsDigit(c)
  {
    (c - '0') as nat
  }

  function DigitChar(d: nat): (c: char)
    requires d < 10
    ensures IsDigit(c) && DigitValue(c) == d
  {
    '0' + d as char
  }

  /** `f"{n:02}"` for `n < 100`: two decimal digits, zero-padded. */
  function TwoDigits(n: nat): (s: string)
    requires n < 100
    ensures |s| == 2 && IsDigit(s[0]) && IsDigit(s[1])
    ensures 10 * DigitValue(s[0]) + DigitValue(s[1]) == n
  {
    [DigitChar(n / 10), DigitChar(n % 10)]
  }

  /** `f"{hour:02}:{minute:02}"`. */
  function FormatClock(hour: nat, minute: nat): (s: string)
    requires hour < 100 && minute < 100
    ensures |s| == 5 && s[2] == ':'
    ensures forall i :: 0 <= i < 5 && i != 2 ==> IsDigit(s[i])
  {
    TwoDigits(hour) + ":" + TwoDigits(minute)
  }

  /** Reads `"DD:DD"` back; anything else is `None`. */
  function ParseClock(s: string): (r: Option<Reading>)
    ensures r.Some? ==> r.value.hour < 100 && r.value.minute < 100
  {
    if |s| == 5 && s[2] == ':' && IsDigit(s[0]) && IsDigit(s[1]) && IsDigit(s[3]) && IsDigit(s[4])
    then Some(Reading(10 * DigitValue(s[0]) + DigitValue(s[1]), 10 * DigitValue(s[3]) + DigitValue(s[4])))
    else None
  }

  /** Parsing undoes formatting. */
  lemma ParseFormatRoundTrip(hour: nat, minute: nat)
    requires hour < 100 && minute < 100
    ensures ParseClock(FormatClock(hour, minute)) == Some(Reading(hour, minute))
  {
    var s := FormatClock(hour, minute);
    assert s[..2] == TwoDigits(hour) && s[3..] == TwoDigits(minute);
    assert s[0] == TwoDigits(hour)[0] && s[1] == TwoDigits(hour)[1];
    assert s[3] == TwoDigits(minute)[0] && s[4] == TwoDigits(minute)[1];
  }

  lemma TwoDigitsOfValue(a: char, b: char)
    requires IsDigit(a) && IsDigit(b)
    ensures TwoDigits(10 * DigitValue(a) + DigitValue(b)) == [a, b]
  {
  }

  /** Formatting undoes parsing: every `"DD:DD"` text is the format of exactly
      one reading. */
  lemma FormatParseRoundTrip(s: string)
    requires ParseClock(s).Some?
    ensures FormatClock(ParseClock(s).value.hour, ParseClock(s).value.minute) == s
  {
    TwoDigitsOfValue(s[0], s[1]);
    TwoDigitsOfValue(s[3], s[4]);
    assert s == [s[0], s[1]] + ":" + [s[3], s[4]];
  }
}
