/** Reading the `run_at` timestamps of scheduled jobs: `datetime.fromisoformat`
    on the extended ISO 8601 forms `YYYY-MM-DD`, `YYYY-MM-DD?HH`,
    `YYYY-MM-DD?HH:MM` and `YYYY-MM-DD?HH:MM:SS` (any one separator
    character), each optionally followed by a `+HH:MM` or `-HH:MM` offset.
    The scheduler first turns every `Z` into `+00:00` and afterwards drops
    the offset: the wall-clock fields are kept as they were written. */
module IsoTime {
  import opened Wrappers
  import opened Text
  import opened Calendar

  function TwoDigits(a: char, b: char): Option<int> {
    if IsDigit(a) && IsDigit(b) then Some(10 * DigitValue(a) + DigitValue(b)) else None
  }

  /** `YYYY-MM-DD`, before the calendar check. */
  function ParseDate(s: string): Option<(int, int, int)>
    requires |s| == 10
  {
    var hi := TwoDigits(s[0], s[1]);
    var lo := TwoDigits(s[2], s[3]);
    var mo := TwoDigits(s[5], s[6]);
    var d := TwoDigits(s[8], s[9]);
    if s[4] == '-' && s[7] == '-' && hi.Some? && lo.Some? && mo.Some? && d.Some? then
      Some((100 * hi.value + lo.value, mo.value, d.value))
    else None
  }

  /** `HH`, `HH:MM` or `HH:MM:SS`, before the range check. */
  function ParseClock(s: string): Option<(int, int, int)> {
    if |s| == 2 then
      var h := TwoDigits(s[0], s[1]);
      if h.Some? then Some((h.value, 0, 0)) else None
    else if |s| == 5 && s[2] == ':' then
      var h := TwoDigits(s[0], s[1]);
      var m := TwoDigits(s[3], s[4]);
      if h.Some? && m.Some? then Some((h.value, m.value, 0)) else None
    else if |s| == 8 && s[2] == ':' && s[5] == ':' then
      var h := TwoDigits(s[0], s[1]);
      var m := TwoDigits(s[3], s[4]);
      var sec := TwoDigits(s[6], s[7]);
      if h.Some? && m.Some? && sec.Some? then Some((h.value, m.value, sec.value)) else None
    else None
  }

  /** The `HH:MM` after the sign of an offset, in minutes; `timezone` only
      takes offsets strictly shorter than a day. */
  function ParseOffset(s: string): Option<int> {
    if |s| == 5 && s[2] == ':' then
      var h := TwoDigits(s[0], s[1]);
      var m := TwoDigits(s[3], s[4]);
      if h.Some? && m.Some? && h.value * 60 + m.value < 24 * 60 then Some(h.value * 60 + m.value) else None
    else None
  }

  /** Where the offset starts in the time part: the first `-`, or failing
      that the first `+` (the order `fromisoformat` looks for them in). */
  function OffsetStart(t: string): (r: nat)
    ensures r <= |t|
  {
    var minus := IndexOf(t, '-');
    if minus < |t| then minus else IndexOf(t, '+')
  }

  /** `datetime.fromisoformat(s).replace(tzinfo=None)`; `None` is the
      ValueError. */
  function ParseIsoNaive(s: string): (r: Option<DateTime>)
    ensures r.Some? ==> Valid(r.value)
  {
    if |s| < 10 then None
    else
      var date := ParseDate(s[..10]);
      if date.None? then None
      else
        var (y, mo, d) := date.value;
        if !(1 <= y && 1 <= mo <= 12 && 1 <= d <= DaysInMonth(y, mo)) then None
        else if |s| == 10 then Some(DateTime(y, mo, d, 0, 0, 0))
        else
          var t := s[11..];
          var i := OffsetStart(t);
          var clock := ParseClock(t[..i]);
          if clock.None? || (i < |t| && ParseOffset(t[i + 1..]).None?) then None
          else
            var (h, mi, sec) := clock.value;
            if h < 24 && mi < 60 && sec < 60 then Some(DateTime(y, mo, d, h, mi, sec)) else None
  }

  /** How the scheduler reads `run_at`: every `Z` becomes `+00:00`, then the
      string is parsed and its offset, if any, discarded. */
  function ParseRunAt(runAt: string): Option<DateTime> {
    ParseIsoNaive(ReplaceChar(runAt, 'Z', "+00:00"))
  }

  /** Two digits of `n`, zero-padded. */
  function Pad2(n: int): (r: string)
    requires 0 <= n < 100
    ensures |r| == 2 && TwoDigits(r[0], r[1]) == Some(n)
  {
    ['0' + (n / 10) as char, '0' + (n % 10) as char]
  }

  /** `t.isoformat()`: `YYYY-MM-DDTHH:MM:SS`. */
  function IsoFormat(t: DateTime): (r: string)
    requires Valid(t)
    ensures |r| == 19
  {
    IsoDate(t) + "T" + IsoClock(t)
  }

  /** The `YYYY-MM-DD` part. */
  function IsoDate(t: DateTime): (r: string)
    requires Valid(t)
    ensures |r| == 10
  {
    Pad2(t.year / 100) + Pad2(t.year % 100) + "-" + Pad2(t.month) + "-" + Pad2(t.day)
  }

  /** The `HH:MM:SS` part. */
  function IsoClock(t: DateTime): (r: string)
    requires Valid(t)
    ensures |r| == 8
  {
    Pad2(t.hour) + ":" + Pad2(t.minute) + ":" + Pad2(t.second)
  }

  lemma IsoDateShape(t: DateTime)
    requires Valid(t)
    ensures 'Z' !in IsoDate(t) && ParseDate(IsoDate(t)) == Some((t.year, t.month, t.day))
  {
    var y1, y2 := Pad2(t.year / 100), Pad2(t.year % 100);
    var mo, d := Pad2(t.month), Pad2(t.day);
    var r := IsoDate(t);
    assert r[0] == y1[0] && r[1] == y1[1] && r[2] == y2[0] && r[3] == y2[1];
    assert r[5] == mo[0] && r[6] == mo[1] && r[8] == d[0] && r[9] == d[1];
    assert r[4] == '-' && r[7] == '-';
  }

  lemma IsoClockShape(t: DateTime)
    requires Valid(t)
    ensures var r := IsoClock(t);
      'Z' !in r && '-' !in r && '+' !in r && ParseClock(r) == Some((t.hour, t.minute, t.second))
  {
    var h, mi, s := Pad2(t.hour), Pad2(t.minute), Pad2(t.second);
    var r := IsoClock(t);
    assert r[0] == h[0] && r[1] == h[1] && r[3] == mi[0] && r[4] == mi[1] && r[6] == s[0] && r[7] == s[1];
    assert r[2] == ':' && r[5] == ':';
  }

  /** What `isoformat()` writes: a date, one separator, a clock without
      sign or `Z`. */
  lemma IsoFormatShape(t: DateTime)
    requires Valid(t)
    ensures var r := IsoFormat(t);
      'Z' !in r && '-' !in r[11..] && '+' !in r[11..] &&
      ParseDate(r[..10]) == Some((t.year, t.month, t.day)) &&
      ParseClock(r[11..]) == Some((t.hour, t.minute, t.second))
  {
    var r := IsoFormat(t);
    IsoDateShape(t);
    IsoClockShape(t);
    assert r[..10] == IsoDate(t);
    assert r[11..] == IsoClock(t);
  }

  /** A string of that shape, for any time `t`. */
  predicate Shaped(r: string, t: DateTime) {
    |r| == 19 && 'Z' !in r && '-' !in r[11..] && '+' !in r[11..] &&
    ParseDate(r[..10]) == Some((t.year, t.month, t.day)) &&
    ParseClock(r[11..]) == Some((t.hour, t.minute, t.second))
  }

  /** `fromisoformat` on a string longer than a date, from what each of
      its parts reads as. */
  lemma ParseParts(s: string, t: DateTime, i: nat)
    requires Valid(t) && |s| > 10
    requires ParseDate(s[..10]) == Some((t.year, t.month, t.day))
    requires OffsetStart(s[11..]) == i
    requires ParseClock(s[11..][..i]) == Some((t.hour, t.minute, t.second))
    requires i < |s[11..]| ==> ParseOffset(s[11..][i + 1..]).Some?
    ensures ParseIsoNaive(s) == Some(t)
  {
  }

  /** A shaped string with no offset reads as `t`. */
  lemma ParseShaped(r: string, t: DateTime)
    requires Valid(t) && Shaped(r, t)
    ensures ParseIsoNaive(r) == Some(t)
  {
    var tail := r[11..];
    assert OffsetStart(tail) == |tail|;
    assert tail[..|tail|] == tail;
    ParseParts(r, t, |tail|);
  }

  /** The offset of a clock without signs starts right after it. */
  lemma OffsetAfterClock(clock: string, sign: char, offset: string)
    requires '-' !in clock && '+' !in clock
    requires sign == '+' || sign == '-'
    requires '-' !in offset
    ensures OffsetStart(clock + ([sign] + offset)) == |clock|
  {
    var tail := clock + ([sign] + offset);
    if sign == '-' {
      IndexOfPrefix(clock, [sign] + offset, '-');
    } else {
      assert '-' !in tail;
      IndexOfPrefix(clock, [sign] + offset, '+');
    }
  }

  /** A shaped string followed by a sign and a valid offset reads as `t`:
      the offset is dropped. */
  lemma ParseShapedOffset(r: string, t: DateTime, sign: char, offset: string)
    requires Valid(t) && Shaped(r, t)
    requires sign == '+' || sign == '-'
    requires ParseOffset(offset).Some?
    ensures ParseIsoNaive(r + ([sign] + offset)) == Some(t)
  {
    var s := r + ([sign] + offset);
    var clock := r[11..];
    var tail := s[11..];
    assert s[..10] == r[..10];
    assert tail == clock + ([sign] + offset);
    assert OffsetStart(tail) == 8 by {
      assert '-' !in offset;
      OffsetAfterClock(clock, sign, offset);
    }
    assert tail[..8] == clock && tail[9..] == offset;
    ParseParts(s, t, 8);
  }

  /** A timestamp written by `isoformat()` reads back as the same time. */
  lemma ParseIsoFormat(t: DateTime)
    requires Valid(t)
    ensures ParseRunAt(IsoFormat(t)) == Some(t)
  {
    var r := IsoFormat(t);
    IsoFormatShape(t);
    assert ReplaceChar(r, 'Z', "+00:00") == r;
    ParseShaped(r, t);
  }

  /** A trailing `Z` is read as `+00:00` and dropped: same wall-clock time. */
  lemma ParseZulu(t: DateTime)
    requires Valid(t)
    ensures ParseRunAt(IsoFormat(t) + "Z") == Some(t)
  {
    var r := IsoFormat(t);
    IsoFormatShape(t);
    assert ReplaceChar(r + "Z", 'Z', "+00:00") == r + "+00:00" by {
      ReplaceCharAppend(r, "Z", 'Z', "+00:00");
      assert ReplaceChar("Z", 'Z', "+00:00") == "+00:00";
      assert ReplaceChar(r, 'Z', "+00:00") == r;
    }
    assert ParseOffset("00:00") == Some(0);
    assert "+00:00" == ['+'] + "00:00";
    ParseShapedOffset(r, t, '+', "00:00");
  }

  /** Any valid offset is dropped, not applied: `...T14:00:00+05:00` is
      14:00, the same as `...T14:00:00`. */
  lemma ParseWithOffset(t: DateTime, sign: char, offset: string)
    requires Valid(t)
    requires sign == '+' || sign == '-'
    requires ParseOffset(offset).Some? && 'Z' !in offset
    ensures ParseRunAt(IsoFormat(t) + ([sign] + offset)) == Some(t)
  {
    var r := IsoFormat(t);
    IsoFormatShape(t);
    assert ReplaceChar(r + ([sign] + offset), 'Z', "+00:00") == r + ([sign] + offset) by {
      ReplaceCharAppend(r, [sign] + offset, 'Z', "+00:00");
    }
    ParseShapedOffset(r, t, sign, offset);
  }
}
