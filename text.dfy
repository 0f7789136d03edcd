/** The Python `str` operations the core is built from: `isspace`, `strip`,
    `split()` on whitespace, `split(sep)`, `split(sep, 1)`, `join`,
    `replace`, `int()` and `str()` of an integer. */
module Text {
  import opened Wrappers

  /** `c.isspace()`: the characters Python's `str` treats as whitespace. */
  predicate IsSpace(c: char) {
    c == ' ' || ('\t' <= c <= '\r') || ('\U{1C}' <= c <= '\U{1F}') ||
    c == '\U{85}' || c == '\U{A0}' || c == '\U{1680}' ||
    ('\U{2000}' <= c <= '\U{200A}') || c == '\U{2028}' || c == '\U{2029}' ||
    c == '\U{202F}' || c == '\U{205F}' || c == '\U{3000}'
  }

  predicate NoSpace(s: string) {
    forall k :: 0 <= k < |s| ==> !IsSpace(s[k])
  }

  /** `s.lstrip()`: drops the leading whitespace and nothing else. */
  function LStrip(s: string): (r: string)
    ensures |r| <= |s|
    ensures r != [] ==> !IsSpace(r[0])
  {
    if s != [] && IsSpace(s[0]) then LStrip(s[1..]) else s
  }

  /** `s.rstrip()`: drops the trailing whitespace and nothing else. */
  function RStrip(s: string): (r: string)
    ensures |r| <= |s|
    ensures r != [] ==> !IsSpace(r[|r| - 1])
  {
    if s != [] && IsSpace(s[|s| - 1]) then RStrip(s[..|s| - 1]) else s
  }

  /** `s.strip()`. */
  function Strip(s: string): string {
    RStrip(LStrip(s))
  }

  /** A string with no whitespace at either end is its own strip. */
  lemma StripUnpadded(s: string)
    requires s != [] ==> !IsSpace(s[0]) && !IsSpace(s[|s| - 1])
    ensures Strip(s) == s
  {
  }

  /** The longest prefix of `s` without whitespace. */
  function Word(s: string): (r: string)
    ensures |r| <= |s| && NoSpace(r)
  {
    if s == [] || IsSpace(s[0]) then [] else [s[0]] + Word(s[1..])
  }

  /** `s.split()`: the maximal runs of non-whitespace, in order. */
  function SplitWs(s: string): (r: seq<string>)
    ensures forall k :: 0 <= k < |r| ==> r[k] != [] && NoSpace(r[k])
    decreases |s|
  {
    var t := LStrip(s);
    if t == [] then [] else
      var w := Word(t);
      [w] + SplitWs(t[|w|..])
  }

  /** `sep.join(parts)`. */
  function Join(parts: seq<string>, sep: string): string {
    if |parts| == 0 then ""
    else if |parts| == 1 then parts[0]
    else parts[0] + sep + Join(parts[1..], sep)
  }

  lemma {:induction false} WordOfPrefix(w: string, tail: string)
    requires NoSpace(w)
    requires tail != [] ==> IsSpace(tail[0])
    ensures Word(w + tail) == w
  {
    if w != [] {
      assert (w + tail)[1..] == w[1..] + tail;
      WordOfPrefix(w[1..], tail);
    }
  }

  lemma LStripSpace(x: string)
    ensures LStrip(" " + x) == LStrip(x)
  {
    assert (" " + x)[1..] == x;
  }

  lemma SplitWsSpace(x: string)
    ensures SplitWs(" " + x) == SplitWs(x)
  {
    LStripSpace(x);
  }

  /** A leading word is split off whole. */
  lemma SplitWsCons(w: string, tail: string)
    requires w != [] && NoSpace(w)
    requires tail != [] ==> IsSpace(tail[0])
    ensures SplitWs(w + tail) == [w] + SplitWs(tail)
  {
    var s := w + tail;
    assert LStrip(s) == s;
    WordOfPrefix(w, tail);
    assert s[|w|..] == tail;
  }

  lemma SplitWsStep(w: string, rest: string)
    requires w != [] && NoSpace(w)
    ensures SplitWs(w + (" " + rest)) == [w] + SplitWs(rest)
  {
    SplitWsCons(w, " " + rest);
    SplitWsSpace(rest);
  }

  lemma SplitWsSingle(w: string)
    requires w != [] && NoSpace(w)
    ensures SplitWs(w) == [w]
  {
    SplitWsCons(w, []);
    assert w + [] == w;
  }

  /** Splitting words joined by single spaces gives the words back. */
  lemma {:induction false} SplitWsJoin(words: seq<string>)
    requires forall k :: 0 <= k < |words| ==> words[k] != [] && NoSpace(words[k])
    ensures SplitWs(Join(words, " ")) == words
  {
    if |words| == 1 {
      SplitWsSingle(words[0]);
    } else if |words| > 1 {
      var w := words[0];
      var rest := Join(words[1..], " ");
      assert Join(words, " ") == w + (" " + rest);
      SplitWsStep(w, rest);
      SplitWsJoin(words[1..]);
      assert [w] + words[1..] == words;
    }
  }

  /** A join of non-empty words starts with the first word's first letter. */
  lemma {:induction false} JoinFirst(words: seq<string>, sep: string)
    requires |words| > 0 && words[0] != []
    ensures Join(words, sep) != [] && Join(words, sep)[0] == words[0][0]
  {
  }

  /** A join of non-empty words ends with the last word's last letter. */
  lemma {:induction false} JoinLast(words: seq<string>, sep: string)
    requires |words| > 0 && words[|words| - 1] != []
    ensures var j := Join(words, sep); j != [] && j[|j| - 1] == words[|words| - 1][|words[|words| - 1]| - 1]
  {
    if |words| > 1 {
      JoinLast(words[1..], sep);
    }
  }

  /** A character found neither in the parts nor in the separator is not in the join. */
  lemma {:induction false} JoinAvoids(parts: seq<string>, sep: string, c: char)
    requires c !in sep
    requires forall k :: 0 <= k < |parts| ==> c !in parts[k]
    ensures c !in Join(parts, sep)
  {
    if |parts| > 1 {
      JoinAvoids(parts[1..], sep, c);
    }
  }

  /** Position of the first `c` in `s`, or `|s|` when there is none. */
  function IndexOf<T(==)>(s: seq<T>, c: T): (r: nat)
    ensures r <= |s| && (r < |s| ==> s[r] == c)
    ensures forall k :: 0 <= k < r ==> s[k] != c
  {
    if s == [] then 0 else if s[0] == c then 0 else 1 + IndexOf(s[1..], c)
  }

  /** Number of occurrences of `c` in `s`. */
  function Count(s: string, c: char): nat {
    if s == [] then 0 else (if s[0] == c then 1 else 0) + Count(s[1..], c)
  }

  /** `s.split(sep)` for a one-character separator. */
  function Split(s: string, sep: char): (r: seq<string>)
    ensures |r| >= 1
    ensures forall k :: 0 <= k < |r| ==> sep !in r[k]
    decreases |s|
  {
    var i := IndexOf(s, sep);
    if i == |s| then [s] else [s[..i]] + Split(s[i + 1..], sep)
  }

  lemma {:induction false} CountSplit(s: string, pre: string, c: char)
    requires c !in pre
    ensures Count(pre + s, c) == Count(s, c)
  {
    if pre != [] {
      assert (pre + s)[1..] == pre[1..] + s;
      CountSplit(s, pre[1..], c);
    } else {
      assert pre + s == s;
    }
  }

  /** `s.split(sep)` has one more piece than `s` has separators. */
  lemma {:induction false} SplitLength(s: string, sep: char)
    ensures |Split(s, sep)| == Count(s, sep) + 1
    decreases |s|
  {
    var i := IndexOf(s, sep);
    if i == |s| {
      CountSplit([], s, sep);
      assert s + [] == s;
    } else {
      SplitLength(s[i + 1..], sep);
      assert s == s[..i] + ([sep] + s[i + 1..]);
      CountSplit([sep] + s[i + 1..], s[..i], sep);
      assert ([sep] + s[i + 1..])[1..] == s[i + 1..];
    }
  }

  /** Joining the pieces of a split with the separator restores the string. */
  lemma {:induction false} JoinSplit(s: string, sep: char)
    ensures Join(Split(s, sep), [sep]) == s
    decreases |s|
  {
    var i := IndexOf(s, sep);
    if i < |s| {
      var rest := Split(s[i + 1..], sep);
      JoinSplit(s[i + 1..], sep);
      assert Split(s, sep) == [s[..i]] + rest;
      assert ([s[..i]] + rest)[1..] == rest;
      assert Join([s[..i]] + rest, [sep]) == s[..i] + [sep] + Join(rest, [sep]);
      assert s == s[..i] + [sep] + s[i + 1..];
    }
  }

  /** Splitting pieces joined by a separator they do not contain gives them back. */
  lemma {:induction false} SplitJoin(parts: seq<string>, sep: char)
    requires |parts| >= 1
    requires forall k :: 0 <= k < |parts| ==> sep !in parts[k]
    ensures Split(Join(parts, [sep]), sep) == parts
  {
    var p := parts[0];
    if |parts| == 1 {
      assert IndexOf(p, sep) == |p|;
    } else {
      var rest := Join(parts[1..], [sep]);
      var s := p + [sep] + rest;
      assert IndexOf(s, sep) == |p| by {
        IndexOfPrefix(p, [sep] + rest, sep);
        assert s == p + ([sep] + rest);
      }
      assert s[..|p|] == p;
      assert s[|p| + 1..] == rest;
      SplitJoin(parts[1..], sep);
    }
  }

  lemma {:induction false} IndexOfPrefix(p: string, tail: string, c: char)
    requires c !in p && tail != [] && tail[0] == c
    ensures IndexOf(p + tail, c) == |p|
  {
    if p != [] {
      assert (p + tail)[1..] == p[1..] + tail;
      IndexOfPrefix(p[1..], tail, c);
    }
  }

  /** `s.split(sep, 1)`: at most one cut, at the first separator. */
  function SplitOnce(s: string, sep: char): (r: seq<string>)
    ensures |r| == 1 <==> sep !in s
    ensures |r| == 1 ==> r[0] == s
    ensures |r| == 2 ==> sep !in r[0] && r[0] + [sep] + r[1] == s
    ensures 1 <= |r| <= 2
  {
    var i := IndexOf(s, sep);
    if i == |s| then [s]
    else
      assert s == s[..i] + [sep] + s[i + 1..];
      [s[..i], s[i + 1..]]
  }

  /** A string split at its first `sep`, when `p` holds no `sep`. */
  lemma SplitOnceAt(p: string, rest: string, sep: char)
    requires sep !in p
    ensures SplitOnce(p + [sep] + rest, sep) == [p, rest]
  {
    var s := p + [sep] + rest;
    assert IndexOf(s, sep) == |p| by {
      IndexOfPrefix(p, [sep] + rest, sep);
      assert s == p + ([sep] + rest);
    }
    assert s[..|p|] == p;
    assert s[|p| + 1..] == rest;
  }

  /** `s.replace(c, repl)` for a one-character pattern. */
  function ReplaceChar(s: string, c: char, repl: string): (r: string)
    ensures c !in repl ==> c !in r
    ensures c !in s ==> r == s
  {
    if s == [] then []
    else (if s[0] == c then repl else [s[0]]) + ReplaceChar(s[1..], c, repl)
  }

  lemma {:induction false} ReplaceCharAppend(a: string, b: string, c: char, repl: string)
    ensures ReplaceChar(a + b, c, repl) == ReplaceChar(a, c, repl) + ReplaceChar(b, c, repl)
  {
    if a != [] {
      assert (a + b)[1..] == a[1..] + b;
      ReplaceCharAppend(a[1..], b, c, repl);
    } else {
      assert a + b == b;
    }
  }

  /** ASCII lower-casing. On the words this model compares against
      ("true"), it agrees with Python's `str.lower()`. */
  function AsciiLower(s: string): (r: string)
    ensures |r| == |s|
  {
    if s == [] then []
    else [if 'A' <= s[0] <= 'Z' then (s[0] as int + 32) as char else s[0]] + AsciiLower(s[1..])
  }

  /** Text without upper-case letters is its own lower case. */
  lemma {:induction false} AsciiLowerKeeps(s: string)
    requires forall k :: 0 <= k < |s| ==> !('A' <= s[k] <= 'Z')
    ensures AsciiLower(s) == s
  {
    if s != [] {
      AsciiLowerKeeps(s[1..]);
    }
  }

  /** `s.capitalize()` on ASCII text: the first letter upper-case, the rest
      lower-case. */
  function AsciiCapitalize(s: string): (r: string)
    ensures |r| == |s|
  {
    if s == [] then []
    else [if 'a' <= s[0] <= 'z' then (s[0] as int - 32) as char else s[0]] + AsciiLower(s[1..])
  }

  predicate IsDigit(c: char) {
    '0' <= c <= '9'
  }

  function DigitValue(c: char): nat
    requires IsDigit(c)
  {
    c as int - '0' as int
  }

  predicate AllDigits(s: string) {
    forall k :: 0 <= k < |s| ==> IsDigit(s[k])
  }

  predicate DigitOrUnderscore(c: char) {
    IsDigit(c) || c == '_'
  }

  /** Decimal digits with single underscores between them, as `int()` reads them. */
  predicate WellGrouped(s: string) {
    s != [] && IsDigit(s[0]) && IsDigit(s[|s| - 1]) &&
    (forall k :: 0 <= k < |s| ==> DigitOrUnderscore(s[k])) &&
    forall k :: 0 <= k < |s| - 1 && s[k] == '_' ==> IsDigit(s[k + 1])
  }

  /** The digits of `s` with the underscores left out. */
  function DropUnderscores(s: string): (r: string)
    requires forall k :: 0 <= k < |s| ==> DigitOrUnderscore(s[k])
    ensures AllDigits(r)
    ensures AllDigits(s) ==> r == s
  {
    if s == [] then []
    else
      var rest := DropUnderscores(s[1..]);
      assert DigitOrUnderscore(s[0]);
      if s[0] == '_' then rest else [s[0]] + rest
  }

  /** The number a string of decimal digits denotes. */
  function DecimalValue(ds: string): nat
    requires AllDigits(ds)
  {
    if ds == [] then 0 else 10 * DecimalValue(ds[..|ds| - 1]) + DigitValue(ds[|ds| - 1])
  }

  function GroupedValue(s: string): nat
    requires WellGrouped(s)
  {
    DecimalValue(DropUnderscores(s))
  }

  /** Python's `int(s)` in base 10: surrounding whitespace, an optional sign,
      then digits possibly grouped by underscores. `None` is the ValueError. */
  function ParseInt(s: string): (r: Option<int>)
    ensures r.Some? ==> Strip(s) != []
  {
    var t := Strip(s);
    if t != [] && (t[0] == '+' || t[0] == '-') then
      var body := t[1..];
      if WellGrouped(body) then
        var v: int := GroupedValue(body);
        Some(if t[0] == '-' then -v else v)
      else None
    else if WellGrouped(t) then Some(GroupedValue(t))
    else None
  }

  /** `str(n)` for a natural number. */
  function NatToString(n: nat): (r: string)
    ensures r != [] && AllDigits(r)
  {
    if n < 10 then ['0' + n as char]
    else NatToString(n / 10) + ['0' + (n % 10) as char]
  }

  /** `str(n)` for an integer. */
  function IntToString(n: int): (r: string)
    ensures r != []
  {
    if n < 0 then "-" + NatToString(-n) else NatToString(n)
  }

  /** Reading back a rendered natural number gives the number. */
  lemma {:induction false} NatToStringValue(n: nat)
    ensures DecimalValue(NatToString(n)) == n
  {
    if n >= 10 {
      NatToStringValue(n / 10);
      var s := NatToString(n);
      assert s[..|s| - 1] == NatToString(n / 10);
    }
  }

  lemma DigitsUnpadded(d: string)
    requires AllDigits(d)
    ensures NoSpace(d)
  {
  }

  /** `int(str(n)) == n` for a natural number. */
  lemma ParseNatShow(m: nat)
    ensures ParseInt(NatToString(m)) == Some(m)
  {
    var d := NatToString(m);
    NatToStringValue(m);
    DigitsUnpadded(d);
    StripUnpadded(d);
    assert WellGrouped(d);
  }

  lemma ParseNegShow(m: nat)
    requires m > 0
    ensures ParseInt("-" + NatToString(m)) == Some(-(m as int))
  {
    var d := NatToString(m);
    var s := "-" + d;
    assert Strip(s) == s by {
      DigitsUnpadded(d);
      assert !IsSpace(s[0]) && s[|s| - 1] == d[|d| - 1];
      StripUnpadded(s);
    }
    assert s[1..] == d;
    NatToStringValue(m);
    assert WellGrouped(d);
  }

  /** `int(str(n)) == n`. */
  lemma ParseIntShow(n: int)
    ensures ParseInt(IntToString(n)) == Some(n)
  {
    if n < 0 {
      ParseNegShow(-n);
    } else {
      ParseNatShow(n);
    }
  }

  /** A rendered natural number holds only digits, so no separator. */
  lemma NatToStringPlain(n: nat, c: char)
    requires !IsDigit(c)
    ensures c !in NatToString(n)
  {
  }
}
