/**
 * The programme start time: the broadcast date followed by the start time, read as a
 * four-digit year, two-digit month and day, then hour, minute and second separated by
 * colons. The reading is strict: a fixed-width 16-character text of ASCII digits.
 */
module Stamp {
  import opened Wrappers

  datatype DateTime = DateTime(year: int, month: int, day: int, hour: int, minute: int, second: int)

  predicate IsLeapYear(y: int) {
    y % 4 == 0 && (y % 100 != 0 || y % 400 == 0)
  }

  function DaysInMonth(y: int, m: int): (n: int)
    requires 1 <= m <= 12
    ensures 28 <= n <= 31
  {
    if m == 2 then (if IsLeapYear(y) then 29 else 28)
    else if m == 4 || m == 6 || m == 9 || m == 11 then 30
    else 31
  }

  /** What Python's `datetime` constructor accepts (a second of 60 or 61 is refused there). */
  predicate ValidDateTime(t: DateTime) {
    && 1 <= t.year <= 9999
    && 1 <= t.month <= 12
    && 1 <= t.day <= DaysInMonth(t.year, t.month)
    && 0 <= t.hour <= 23
    && 0 <= t.minute <= 59
    && 0 <= t.second <= 59
  }

  predicate IsDigit(c: char) {
    '0' <= c <= '9'
  }

  function DigitValue(c: char): (v: int)
    requires IsDigit(c)
    ensures 0 <= v <= 9
  {
    c as int - '0' as int
  }

  function DigitChar(v: int): (c: char)
    requires 0 <= v <= 9
    ensures IsDigit(c) && DigitValue(c) == v
  {
    (v + '0' as int) as char
  }

  /** `s` has the shape `DDDDDDDDDD:DD:DD`, with D a decimal digit. */
  predicate HasStampShape(s: string) {
    && |s| == 16
    && (forall k :: 0 <= k < |s| && k != 10 && k != 13 ==> IsDigit(s[k]))
    && s[10] == ':' && s[13] == ':'
  }

  function Two(s: string, k: int): (v: int)
    requires 0 <= k && k + 2 <= |s| && IsDigit(s[k]) && IsDigit(s[k + 1])
    ensures 0 <= v <= 99
  {
    10 * DigitValue(s[k]) + DigitValue(s[k + 1])
  }

  /** The fields of a text of stamp shape, before any range check. */
  function Fields(s: string): DateTime
    requires HasStampShape(s)
  {
    DateTime(100 * Two(s, 0) + Two(s, 2), Two(s, 4), Two(s, 6), Two(s, 8), Two(s, 11), Two(s, 14))
  }

  /** The parse of `dt + st`; `None` where Python raises `ValueError`. */
  function ParseStamp(s: string): (r: Option<DateTime>)
    ensures r.Some? ==> ValidDateTime(r.value)
  {
    if HasStampShape(s) && ValidDateTime(Fields(s)) then Some(Fields(s)) else None
  }

  function TwoDigits(v: int): (s: string)
    requires 0 <= v <= 99
    ensures |s| == 2 && IsDigit(s[0]) && IsDigit(s[1]) && Two(s, 0) == v
  {
    [DigitChar(v / 10), DigitChar(v % 10)]
  }

  /** The canonical `YYYYMMDDHH:MM:SS` rendering of a valid time. */
  function FormatStamp(t: DateTime): (s: string)
    requires ValidDateTime(t)
    ensures |s| == 16
  {
    TwoDigits(t.year / 100) + TwoDigits(t.year % 100) + TwoDigits(t.month) + TwoDigits(t.day)
      + TwoDigits(t.hour) + ":" + TwoDigits(t.minute) + ":" + TwoDigits(t.second)
  }

  /** Every valid time is read back from its rendering. */
  lemma ParseFormatStamp(t: DateTime)
    requires ValidDateTime(t)
    ensures ParseStamp(FormatStamp(t)) == Some(t)
  {
    var s := FormatStamp(t);
    var y1, y2, mo, d := TwoDigits(t.year / 100), TwoDigits(t.year % 100), TwoDigits(t.month), TwoDigits(t.day);
    var h, mi, se := TwoDigits(t.hour), TwoDigits(t.minute), TwoDigits(t.second);
    assert s == y1 + y2 + mo + d + h + ":" + mi + ":" + se;
    assert s[0] == y1[0] && s[1] == y1[1] && s[2] == y2[0] && s[3] == y2[1];
    assert s[4] == mo[0] && s[5] == mo[1] && s[6] == d[0] && s[7] == d[1];
    assert s[8] == h[0] && s[9] == h[1] && s[11] == mi[0] && s[12] == mi[1];
    assert s[14] == se[0] && s[15] == se[1];
    assert HasStampShape(s);
    assert Fields(s) == t;
  }

  /** A parse succeeds only on the canonical rendering of what it returns: the parse loses nothing. */
  lemma FormatParseStamp(s: string)
    requires ParseStamp(s).Some?
    ensures FormatStamp(ParseStamp(s).value) == s
  {
    var t := ParseStamp(s).value;
    var f := FormatStamp(t);
    var y1, y2, mo, d := TwoDigits(t.year / 100), TwoDigits(t.year % 100), TwoDigits(t.month), TwoDigits(t.day);
    var h, mi, se := TwoDigits(t.hour), TwoDigits(t.minute), TwoDigits(t.second);
    assert f == y1 + y2 + mo + d + h + ":" + mi + ":" + se;
    assert t.year / 100 == Two(s, 0) && t.year % 100 == Two(s, 2);
    TwoDigitsAgree(s, 0, y1);
    TwoDigitsAgree(s, 2, y2);
    TwoDigitsAgree(s, 4, mo);
    TwoDigitsAgree(s, 6, d);
    TwoDigitsAgree(s, 8, h);
    TwoDigitsAgree(s, 11, mi);
    TwoDigitsAgree(s, 14, se);
    assert forall k :: 0 <= k < 16 ==> f[k] == s[k];
  }

  /** A two-digit rendering of the value read at `k` is the text found at `k`. */
  lemma TwoDigitsAgree(s: string, k: int, w: string)
    requires 0 <= k && k + 2 <= |s| && IsDigit(s[k]) && IsDigit(s[k + 1])
    requires |w| == 2 && IsDigit(w[0]) && IsDigit(w[1]) && Two(w, 0) == Two(s, k)
    ensures w[0] == s[k] && w[1] == s[k + 1]
  {
    assert DigitValue(w[0]) == DigitValue(s[k]);
  }
}
