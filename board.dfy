/** Counting occurrences of keys into a dict of counters, the
    `counts[k] = counts.get(k, 0) + 1` idiom. */
module Histogram {

  function Occurrences(keys: seq<string>, k: string): nat {
    if keys == [] then 0
    else Occurrences(keys[..|keys| - 1], k) + (if keys[|keys| - 1] == k then 1 else 0)
  }

  /** `m` after `m[k] = m.get(k, 0) + 1` for each `k` of `keys` in turn. */
  function Bump(m: map<string, int>, keys: seq<string>): map<string, int> {
    if keys == [] then m
    else
      var before := Bump(m, keys[..|keys| - 1]);
      var k := keys[|keys| - 1];
      before[k := (if k in before then before[k] else 0) + 1]
  }

  /** Counting one more key. */
  lemma BumpSnoc(m: map<string, int>, keys: seq<string>, k: string)
    ensures var before := Bump(m, keys);
      Bump(m, keys + [k]) == before[k := (if k in before then before[k] else 0) + 1]
  {
    assert (keys + [k])[..|keys|] == keys;
  }

  /** A counter holds its starting value plus the number of times its key
      was counted; the keys are the starting keys and the counted ones. */
  lemma {:induction false} BumpCounts(m: map<string, int>, keys: seq<string>, k: string)
    ensures k in Bump(m, keys) <==> k in m || k in keys
    ensures k in Bump(m, keys) ==> Bump(m, keys)[k] == (if k in m then m[k] else 0) + Occurrences(keys, k)
  {
    if keys != [] {
      var init := keys[..|keys| - 1];
      BumpCounts(m, init, k);
      assert keys == init + [keys[|keys| - 1]];
      if k !in m && k !in init {
        OccurrencesAbsent(init, k);
      }
    }
  }

  lemma {:induction false} OccurrencesAppend(a: seq<string>, b: seq<string>, k: string)
    ensures Occurrences(a + b, k) == Occurrences(a, k) + Occurrences(b, k)
  {
    if b != [] {
      assert (a + b)[..|a + b| - 1] == a + b[..|b| - 1];
      OccurrencesAppend(a, b[..|b| - 1], k);
    } else {
      assert a + b == a;
    }
  }

  /** Counting `a` then `b` is counting `a + b`. */
  lemma {:induction false} BumpAppend(m: map<string, int>, a: seq<string>, b: seq<string>)
    ensures Bump(m, a + b) == Bump(Bump(m, a), b)
  {
    if b == [] {
      assert a + b == a;
    } else {
      assert (a + b)[..|a + b| - 1] == a + b[..|b| - 1];
      BumpAppend(m, a, b[..|b| - 1]);
    }
  }

  /** Every key of `names` set to 0, as a loop of `d[name] = 0` does. */
  function ZeroBuckets(names: seq<string>): (r: map<string, int>)
    ensures forall k :: k in r <==> k in names
    ensures forall k :: k in r ==> r[k] == 0
  {
    if names == [] then map[] else ZeroBuckets(names[..|names| - 1])[names[|names| - 1] := 0]
  }

  lemma OccurrencesAbsent(keys: seq<string>, k: string)
    requires k !in keys
    ensures Occurrences(keys, k) == 0
  {
    if keys != [] {
      OccurrencesAbsent(keys[..|keys| - 1], k);
    }
  }
}

/** The parts of a GitHub Projects (v2) board that the tools read: fields
    with their options, and items with their single-select field values. */
module Board {
  import opened Wrappers

  datatype FieldOption = FieldOption(id: string, name: string)

  /** A project field; `options` is present on single-select fields. */
  datatype Field = Field(id: string, name: string, dataType: string, options: Option<seq<FieldOption>>)

  /** A single-select value on an item: the name of its field and of the
      chosen option (`""` where the response leaves them out). */
  datatype FieldValue = FieldValue(fieldName: string, name: string)

  /** A project item: archived flag, content type (`ISSUE`,
      `PULL_REQUEST`, `DRAFT_ISSUE`), content state and field values. */
  datatype Item = Item(archived: bool, itemType: string, state: string, fieldValues: seq<FieldValue>)

  function Names(fields: seq<Field>): (r: seq<string>)
    ensures |r| == |fields| && forall k :: 0 <= k < |fields| ==> r[k] == fields[k].name
  {
    if fields == [] then [] else Names(fields[..|fields| - 1]) + [fields[|fields| - 1].name]
  }

  function OptionNames(opts: seq<FieldOption>): (r: seq<string>)
    ensures |r| == |opts| && forall k :: 0 <= k < |opts| ==> r[k] == opts[k].name
  {
    if opts == [] then [] else OptionNames(opts[..|opts| - 1]) + [opts[|opts| - 1].name]
  }
}
