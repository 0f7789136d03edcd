/** Python's `repr` of a string, as it appears in the message of a
    `ValueError`. */
module PyRepr {
  /** A lower-case hexadecimal digit. */
  function HexDigit(n: int): char
    requires 0 <= n < 16
  {
    if n < 10 then ('0' as int + n) as char else ('a' as int + n - 10) as char
  }

  /** One character of `repr(s)` quoted with `quote`: the quote and the
      backslash are escaped, tab, newline and return get their short
      escapes, the other ASCII controls and DEL become `\xHH`. */
  function ReprChar(c: char, quote: char): string {
    if c == quote || c == '\\' then ['\\', c]
    else if c == '\t' then "\\t"
    else if c == '\n' then "\\n"
    else if c == '\r' then "\\r"
    else if c < ' ' || c == '\U{7F}' then ['\\', 'x', HexDigit(c as int / 16), HexDigit(c as int % 16)]
    else [c]
  }

  function ReprBody(s: string, quote: char): string {
    if s == [] then [] else ReprBody(s[..|s| - 1], quote) + ReprChar(s[|s| - 1], quote)
  }

  /** `repr(s)`: single quotes, unless `s` holds a single quote and no
      double quote. */
  function Repr(s: string): (r: string)
    ensures |r| >= 2 && r[0] == r[|r| - 1] && (r[0] == '"' <==> '\'' in s && '"' !in s)
  {
    var quote := if '\'' in s && '"' !in s then '"' else '\'';
    [quote] + ReprBody(s, quote) + [quote]
  }

  /** A character `repr` shows as it is whichever quote it chooses. */
  predicate ReprPlain(c: char) {
    c != '\'' && c != '"' && c != '\\' && ' ' <= c && c != '\U{7F}'
  }

  lemma {:induction false} ReprBodyPlain(s: string, quote: char)
    requires forall k :: 0 <= k < |s| ==> ReprPlain(s[k])
    requires quote == '\'' || quote == '"'
    ensures ReprBody(s, quote) == s
  {
    if s != [] {
      ReprBodyPlain(s[..|s| - 1], quote);
      assert s[..|s| - 1] + [s[|s| - 1]] == s;
    }
  }

  /** Text without quotes, backslashes or ASCII controls is shown between
      single quotes, unchanged. */
  lemma ReprOfPlain(s: string)
    requires forall k :: 0 <= k < |s| ==> ReprPlain(s[k])
    ensures Repr(s) == "'" + s + "'"
  {
    ReprBodyPlain(s, '\'');
  }

  /** `repr` works character by character: the body of a concatenation is
      the concatenation of the bodies. */
  lemma {:induction false} ReprBodyAppend(a: string, b: string, quote: char)
    ensures ReprBody(a + b, quote) == ReprBody(a, quote) + ReprBody(b, quote)
  {
    if b != [] {
      var init := b[..|b| - 1];
      var c := b[|b| - 1];
      ReprBodyAppend(a, init, quote);
      var x, y, z := ReprBody(a, quote), ReprBody(init, quote), ReprChar(c, quote);
      var ab := a + b;
      assert ReprBody(ab, quote) == (x + y) + z by {
        assert ab[..|ab| - 1] == a + init && ab[|ab| - 1] == c;
      }
      assert ReprBody(b, quote) == y + z;
      assert (x + y) + z == x + (y + z);
    } else {
      assert a + b == a;
    }
  }

  /** An occurrence of the chosen quote is escaped in place: everything
      before it and after it is rendered on its own, and the quote itself
      becomes a backslash and the quote. */
  lemma ReprQuoteEscaped(a: string, b: string, quote: char)
    ensures ReprBody(a + [quote] + b, quote) == ReprBody(a, quote) + ['\\', quote] + ReprBody(b, quote)
  {
    ReprBodyAppend(a + [quote], b, quote);
    ReprBodyAppend(a, [quote], quote);
    assert ReprBody([quote], quote) == ['\\', quote] by {
      assert [quote][..0] == [];
    }
  }
}
