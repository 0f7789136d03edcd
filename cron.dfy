/** Five-field cron expressions as the scheduler reads them: split on
    whitespace, then each field matched on its own against one calendar
    field of the current time. */
module Cron {
  import opened Wrappers
  import opened Text
  import opened Calendar

  datatype CronFields = CronFields(minute: string, hour: string, dayOfMonth: string, month: string, dayOfWeek: string)

  /** `_parse_cron`: exactly five whitespace-separated fields, or the
      ValueError's message. */
  function ParseCron(expr: string): (r: Result<CronFields>)
    ensures r.Ok? <==> |SplitWs(Strip(expr))| == 5
    ensures r.Err? ==> r.msg == "Invalid cron expression: " + expr + " (expected 5 fields)"
    ensures r.Ok? ==> var f := r.value;
      f.minute != [] && f.hour != [] && f.dayOfMonth != [] && f.month != [] && f.dayOfWeek != [] &&
      NoSpace(f.minute + f.hour + f.dayOfMonth + f.month + f.dayOfWeek)
  {
    var parts := SplitWs(Strip(expr));
    if |parts| != 5 then Err("Invalid cron expression: " + expr + " (expected 5 fields)")
    else
      assert NoSpace(parts[0]) && NoSpace(parts[1]) && NoSpace(parts[2]) && NoSpace(parts[3]) && NoSpace(parts[4]);
      Ok(CronFields(parts[0], parts[1], parts[2], parts[3], parts[4]))
  }

  /** The expression with the five fields written out, one space apart. */
  function Unparse(f: CronFields): string {
    Join([f.minute, f.hour, f.dayOfMonth, f.month, f.dayOfWeek], " ")
  }

  predicate IsField(s: string) {
    s != [] && NoSpace(s)
  }

  /** Fields written out with single spaces read back as the same fields. */
  lemma ParseUnparse(f: CronFields)
    requires IsField(f.minute) && IsField(f.hour) && IsField(f.dayOfMonth)
    requires IsField(f.month) && IsField(f.dayOfWeek)
    ensures ParseCron(Unparse(f)) == Ok(f)
  {
    var words := [f.minute, f.hour, f.dayOfMonth, f.month, f.dayOfWeek];
    var e := Unparse(f);
    JoinFirst(words, " ");
    JoinLast(words, " ");
    StripUnpadded(e);
    SplitWsJoin(words);
  }

  /** The chained comparison `int(a) <= v <= int(b)`: `b` is read only when
      the first comparison holds. `None` is the ValueError. */
  function InRange(a: string, b: string, v: int): (r: Option<bool>)
    ensures r == Some(true) ==> ParseInt(a).Some? && ParseInt(b).Some? && ParseInt(a).value <= v <= ParseInt(b).value
  {
    var lo := ParseInt(a);
    if lo.None? then None
    else if !(lo.value <= v) then Some(false)
    else
      var hi := ParseInt(b);
      if hi.None? then None else Some(v <= hi.value)
  }

  /** `int(x)` for every item, or the first failure. */
  function ParseAll(items: seq<string>): (r: Option<seq<int>>)
    ensures r.Some? ==> |r.value| == |items|
  {
    if items == [] then Some([])
    else
      var head := ParseInt(items[0]);
      var tail := ParseAll(items[1..]);
      if head.None? || tail.None? then None else Some([head.value] + tail.value)
  }

  /** `_cron_field_matches(field, v, _)`. `None` is the exception the Python
      raises on a non-integer, a zero step or a range that does not split in
      two; the branches are tried in the order the Python tries them. */
  function FieldMatches(field: string, v: int): Option<bool> {
    if field == "*" then Some(true)
    else if |field| >= 2 && field[0] == '*' && field[1] == '/' then StepField(field[2..], v)
    else if '-' in field && '/' !in field then RangeField(field, v)
    else if '-' in field then RangeStepField(field, v)
    else if ',' in field then ListField(field, v)
    else ValueField(field, v)
  }

  /** `value % int(step) == 0`. */
  function StepField(step: string, v: int): (r: Option<bool>)
    ensures r.Some? <==> ParseInt(step).Some? && ParseInt(step).value != 0
  {
    var n := ParseInt(step);
    if n.None? || n.value == 0 then None else Some(v % n.value == 0)
  }

  /** `start, end = field.split("-")` then the chained comparison. */
  function RangeField(field: string, v: int): (r: Option<bool>)
    ensures r == Some(true) ==> |Split(field, '-')| == 2
  {
    var bounds := Split(field, '-');
    if |bounds| != 2 then None else InRange(bounds[0], bounds[1], v)
  }

  /** `range_part, step = field.split("/")`, the range as above, then
      `(value - int(start)) % int(step) == 0` inside it. */
  function RangeStepField(field: string, v: int): (r: Option<bool>)
    ensures r == Some(true) ==> |Split(field, '/')| == 2
  {
    var halves := Split(field, '/');
    if |halves| != 2 then None else RangeStepOn(Split(halves[0], '-'), halves[1], v)
  }

  /** The part of `RangeStepField` after the split on `/`: the range's two
      bounds and the step text. */
  function RangeStepOn(bounds: seq<string>, step: string, v: int): (r: Option<bool>)
    ensures r == Some(true) ==> |bounds| == 2 && InRange(bounds[0], bounds[1], v) == Some(true)
  {
    if |bounds| != 2 then None
    else
      var within := InRange(bounds[0], bounds[1], v);
      if within != Some(true) then within
      else
        var n := ParseInt(step);
        if n.None? || n.value == 0 then None
        else Some(OnStep(v, ParseInt(bounds[0]).value, n.value))
  }

  /** `(value - start) % step == 0`. */
  function OnStep(v: int, start: int, step: int): bool
    requires step != 0
  {
    (v - start) % step == 0
  }

  /** `value in [int(x) for x in field.split(",")]`. */
  function ListField(field: string, v: int): (r: Option<bool>)
    ensures r.Some? <==> ParseAll(Split(field, ',')).Some?
  {
    var values := ParseAll(Split(field, ','));
    if values.None? then None else Some(v in values.value)
  }

  /** `int(field) == value`. */
  function ValueField(field: string, v: int): (r: Option<bool>)
    ensures r.Some? <==> ParseInt(field).Some?
  {
    var n := ParseInt(field);
    if n.None? then None else Some(n.value == v)
  }

  /** Python's weekday (Monday 0) moved to cron's (Sunday 0). */
  function CronWeekday(t: DateTime): (r: int)
    requires 1 <= t.month <= 12
    ensures 0 <= r < 7 && (r == 0 <==> Weekday(t) == 6)
  {
    (Weekday(t) + 1) % 7
  }

  /** `_cron_matches`: all five fields match; an exception anywhere, a bad
      field count included, is no match. */
  function CronMatches(expr: string, t: DateTime): (r: bool)
    requires 1 <= t.month <= 12
    ensures r ==> |SplitWs(Strip(expr))| == 5
  {
    var p := ParseCron(expr);
    p.Ok? &&
    FieldMatches(p.value.minute, t.minute) == Some(true) &&
    FieldMatches(p.value.hour, t.hour) == Some(true) &&
    FieldMatches(p.value.dayOfMonth, t.day) == Some(true) &&
    FieldMatches(p.value.month, t.month) == Some(true) &&
    FieldMatches(p.value.dayOfWeek, CronWeekday(t)) == Some(true)
  }

  /** An expression written from five fields matches exactly when each
      field matches its part of the time. */
  lemma CronMatchesFields(f: CronFields, t: DateTime)
    requires IsField(f.minute) && IsField(f.hour) && IsField(f.dayOfMonth)
    requires IsField(f.month) && IsField(f.dayOfWeek)
    requires 1 <= t.month <= 12
    ensures CronMatches(Unparse(f), t) <==>
      FieldMatches(f.minute, t.minute) == Some(true) &&
      FieldMatches(f.hour, t.hour) == Some(true) &&
      FieldMatches(f.dayOfMonth, t.day) == Some(true) &&
      FieldMatches(f.month, t.month) == Some(true) &&
      FieldMatches(f.dayOfWeek, CronWeekday(t)) == Some(true)
  {
    ParseUnparse(f);
  }

  lemma StarMatches(v: int)
    ensures FieldMatches("*", v) == Some(true)
  {
  }

  // A step field `*/N` with N > 0 matches the multiples of N.
  lemma StepMatches(n: nat, v: int)
    requires n > 0
    ensures FieldMatches("*/" + NatToString(n), v) == Some(v % n == 0)
  {
    var f := "*/" + NatToString(n);
    assert f[2..] == NatToString(n);
    ParseNatShow(n);
  }

  // A step of zero (`*/0`) raises, so it never matches.
  lemma StepZeroRaises(v: int)
    ensures FieldMatches("*/0", v) == None
  {
    ParseNatShow(0);
    assert "*/0"[2..] == NatToString(0);
  }

  lemma SplitTwo(a: string, b: string, sep: char)
    requires sep !in a && sep !in b
    ensures Split(a + [sep] + b, sep) == [a, b]
  {
    assert Join([a, b], [sep]) == a + [sep] + b;
    SplitJoin([a, b], sep);
  }

  /** The chained comparison on two rendered numbers. */
  lemma InRangeNat(a: nat, b: nat, v: int)
    ensures InRange(NatToString(a), NatToString(b), v) == Some(a <= v <= b)
  {
    ParseNatShow(a);
    ParseNatShow(b);
  }

  /** `A-B` matches the values from A to B, both included. */
  lemma RangeMatches(a: nat, b: nat, v: int)
    ensures FieldMatches(NatToString(a) + "-" + NatToString(b), v) == Some(a <= v <= b)
  {
    var lo, hi := NatToString(a), NatToString(b);
    var f := lo + "-" + hi;
    NatToStringPlain(a, '-');
    NatToStringPlain(b, '-');
    assert FieldMatches(f, v) == RangeField(f, v) by {
      NatToStringPlain(a, '/');
      NatToStringPlain(b, '/');
      assert f[0] == lo[0] && f[|lo|] == '-';
      assert '/' !in f;
    }
    SplitTwo(lo, hi, '-');
    InRangeNat(a, b, v);
  }

  /** `A-B/N` with N > 0 matches the values from A to B that are a multiple
      of N past A. */
  lemma RangeStepMatches(a: nat, b: nat, n: nat, v: int)
    requires n > 0
    ensures FieldMatches(NatToString(a) + "-" + NatToString(b) + "/" + NatToString(n), v) ==
      Some(a <= v <= b && (v - a) % n == 0)
  {
    var lo, hi, st := NatToString(a), NatToString(b), NatToString(n);
    var range := lo + "-" + hi;
    var f := range + "/" + st;
    assert FieldMatches(f, v) == RangeStepOn([lo, hi], st, v) by {
      RangeStepBranch(a, b, n, v);
      RangeStepSplit(a, b, n);
    }
    assert RangeStepOn([lo, hi], st, v) == Some(a <= v <= b && OnStep(v, a, n)) by {
      ParseNatShow(a);
      ParseNatShow(b);
      ParseNatShow(n);
      RangeStepOnParsed(lo, hi, st, v, a, b, n);
    }
  }

  /** `RangeStepOn` on bounds and a step that parse. */
  lemma RangeStepOnParsed(lo: string, hi: string, st: string, v: int, a: int, b: int, n: int)
    requires ParseInt(lo) == Some(a) && ParseInt(hi) == Some(b) && ParseInt(st) == Some(n) && n != 0
    ensures RangeStepOn([lo, hi], st, v) == Some(a <= v <= b && OnStep(v, a, n))
  {
    assert InRange(lo, hi, v) == Some(a <= v <= b);
  }

  /** A rendered `A-B/N` reaches the range-with-step branch. */
  lemma RangeStepBranch(a: nat, b: nat, n: nat, v: int)
    ensures var f := NatToString(a) + "-" + NatToString(b) + "/" + NatToString(n);
      FieldMatches(f, v) == RangeStepField(f, v)
  {
    var lo, hi, st := NatToString(a), NatToString(b), NatToString(n);
    var range := lo + "-" + hi;
    var f := range + "/" + st;
    assert IsDigit(lo[0]);
    assert f[0] == lo[0] && f[|lo|] == '-' && f[|range|] == '/';
    assert f != "*";
    assert f[0] != '*';
    assert '-' in f && '/' in f;
  }

  lemma RangeStepSplit(a: nat, b: nat, n: nat)
    ensures var lo, hi, st := NatToString(a), NatToString(b), NatToString(n);
      Split(lo + "-" + hi + "/" + st, '/') == [lo + "-" + hi, st] && Split(lo + "-" + hi, '-') == [lo, hi]
  {
    var lo, hi, st := NatToString(a), NatToString(b), NatToString(n);
    NatToStringPlain(a, '-');
    NatToStringPlain(b, '-');
    NatToStringPlain(a, '/');
    NatToStringPlain(b, '/');
    NatToStringPlain(n, '/');
    assert '/' !in lo + "-" + hi;
    SplitTwo(lo + "-" + hi, st, '/');
    SplitTwo(lo, hi, '-');
  }

  function Rendered(ns: seq<nat>): (r: seq<string>)
    ensures |r| == |ns|
    ensures forall k :: 0 <= k < |r| ==> r[k] == NatToString(ns[k])
  {
    if ns == [] then [] else [NatToString(ns[0])] + Rendered(ns[1..])
  }

  lemma {:induction false} ParseAllRendered(ns: seq<nat>)
    ensures ParseAll(Rendered(ns)) == Some(ns)
  {
    if ns != [] {
      ParseNatShow(ns[0]);
      ParseAllRendered(ns[1..]);
      assert Rendered(ns)[1..] == Rendered(ns[1..]);
      assert [ns[0]] + ns[1..] == ns;
    }
  }

  /** `N1,N2,...` matches exactly the listed values. */
  lemma ListMatches(ns: seq<nat>, v: int)
    requires |ns| >= 2
    ensures FieldMatches(Join(Rendered(ns), ","), v) == Some(v in ns)
  {
    var parts := Rendered(ns);
    var f := Join(parts, ",");
    assert f == parts[0] + "," + Join(parts[1..], ",");
    assert f[0] == parts[0][0] && f[|parts[0]|] == ',';
    forall k | 0 <= k < |parts|
      ensures '-' !in parts[k] && '/' !in parts[k] && ',' !in parts[k]
    {
      NatToStringPlain(ns[k], '-');
      NatToStringPlain(ns[k], '/');
      NatToStringPlain(ns[k], ',');
    }
    JoinAvoids(parts, ",", '-');
    JoinAvoids(parts, ",", '/');
    SplitJoin(parts, ',');
    ParseAllRendered(ns);
  }

  /** A bare number matches only itself. */
  lemma ValueMatches(n: nat, v: int)
    ensures FieldMatches(NatToString(n), v) == Some(n == v)
  {
    var f := NatToString(n);
    assert f[0] != '*';
    NatToStringPlain(n, '-');
    NatToStringPlain(n, '/');
    NatToStringPlain(n, ',');
    ParseNatShow(n);
  }

  /** A negative number is read as a range with an empty start, which raises. */
  lemma NegativeRaises(n: nat, v: int)
    ensures FieldMatches("-" + NatToString(n), v) == None
  {
    var d := NatToString(n);
    var f := "-" + d;
    NatToStringPlain(n, '-');
    NatToStringPlain(n, '/');
    assert f[0] == '-' && '/' !in f;
    SplitTwo("", d, '-');
    assert "" + "-" + d == f;
  }

  /** A list holding a range is taken by the range branch, whose end `3,5`
      is not an integer: `1-3,5` never matches anything. */
  lemma RangeBeforeList(v: int)
    ensures FieldMatches("1-3,5", v) != Some(true)
  {
    RangeListIsRange(v);
    RangeListSplit();
    CommaListNotInt();
    BadEndNeverInRange("1-3,5", "1", "3,5", v);
  }

  /** `1-3,5` takes the range branch. */
  lemma RangeListIsRange(v: int)
    ensures FieldMatches("1-3,5", v) == RangeField("1-3,5", v)
  {
    var f := "1-3,5";
    assert f[1] == '-' && '/' !in f;
  }

  lemma RangeListSplit()
    ensures Split("1-3,5", '-') == ["1", "3,5"]
  {
    assert "1-3,5" == "1" + "-" + "3,5";
    SplitTwo("1", "3,5", '-');
  }

  /** `int("3,5")` raises. */
  lemma CommaListNotInt()
    ensures ParseInt("3,5").None?
  {
    assert Strip("3,5") == "3,5" by { StripUnpadded("3,5"); }
    assert !DigitOrUnderscore("3,5"[1]);
    assert !WellGrouped("3,5");
  }

  /** A range whose end is not an integer holds no value: the comparison
      either fails on the start or raises on the end. */
  lemma BadEndNeverInRange(f: string, lo: string, hi: string, v: int)
    requires Split(f, '-') == [lo, hi] && ParseInt(hi).None?
    ensures RangeField(f, v) != Some(true)
  {
  }

  /** The weekday example of the tool's documentation: `0 9 * * 1-5` runs at
      09:00 on Wednesday 17 January 2024 but not on Saturday 20 January. */
  lemma WeekdaysAtNine()
    ensures CronMatches("0 9 * * 1-5", DateTime(2024, 1, 17, 9, 0, 0))
    ensures !CronMatches("0 9 * * 1-5", DateTime(2024, 1, 20, 9, 0, 0))
  {
    var f := CronFields("0", "9", "*", "*", "1-5");
    assert Unparse(f) == "0 9 * * 1-5";
    var wed := DateTime(2024, 1, 17, 9, 0, 0);
    var sat := DateTime(2024, 1, 20, 9, 0, 0);
    WeekdaysOfExample();
    CronMatchesFields(f, wed);
    CronMatchesFields(f, sat);
    NumbersOfExample();
    ValueMatches(0, 0);
    ValueMatches(9, 9);
    RangeMatches(1, 5, 3);
    RangeMatches(1, 5, 6);
  }

  lemma WeekdaysOfExample()
    ensures CronWeekday(DateTime(2024, 1, 17, 9, 0, 0)) == 3
    ensures CronWeekday(DateTime(2024, 1, 20, 9, 0, 0)) == 6
  {
    assert MarchFirst(2023) == 19417;
    assert MonthOffset(10) == 306;
  }

  lemma NumbersOfExample()
    ensures NatToString(0) == "0" && NatToString(9) == "9"
    ensures NatToString(1) + "-" + NatToString(5) == "1-5"
  {
  }
}
