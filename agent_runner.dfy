/** The runner's own logic: parsing the tool configuration, the issue id
    that links traces to an issue, the default session id, the trace tags,
    and which prompt the run uses. Importing a tool is left to an abstract
    predicate; the agent, the model and telemetry are not modelled. */
module AgentRunner {
  import opened Wrappers
  import opened Text
  import opened GithubEvent

  // ------------------------------------------------------------ load_tools

  /** A tool reference: package and tool name. */
  type ToolRef = (string, string)

  /** `[t.strip() for t in s.split(",") if t.strip()]`. */
  function ToolNames(s: string): (r: seq<string>)
    ensures forall k :: 0 <= k < |r| ==> r[k] != "" && ',' !in r[k]
  {
    StrippedNames(Split(s, ','))
  }

  function StrippedNames(pieces: seq<string>): (r: seq<string>)
    requires forall k :: 0 <= k < |pieces| ==> ',' !in pieces[k]
    ensures |r| <= |pieces|
    ensures forall k :: 0 <= k < |r| ==> r[k] != "" && ',' !in r[k]
  {
    if pieces == [] then []
    else
      var t := Strip(pieces[|pieces| - 1]);
      StripWithin(pieces[|pieces| - 1], ',');
      StrippedNames(pieces[..|pieces| - 1]) + (if t != "" then [t] else [])
  }

  /** Stripping removes characters, never adds one. */
  lemma StripWithin(s: string, c: char)
    requires c !in s
    ensures c !in Strip(s)
  {
    LStripWithin(s, c);
    RStripWithin(LStrip(s), c);
  }

  lemma {:induction false} LStripWithin(s: string, c: char)
    requires c !in s
    ensures c !in LStrip(s)
  {
    if s != [] && IsSpace(s[0]) {
      LStripWithin(s[1..], c);
    }
  }

  lemma {:induction false} RStripWithin(s: string, c: char)
    requires c !in s
    ensures c !in RStrip(s)
  {
    if s != [] && IsSpace(s[|s| - 1]) {
      RStripWithin(s[..|s| - 1], c);
    }
  }

  function Pairs(package: string, names: seq<string>): (r: seq<ToolRef>)
    ensures |r| == |names| && forall k :: 0 <= k < |names| ==> r[k] == (package, names[k])
  {
    if names == [] then [] else Pairs(package, names[..|names| - 1]) + [(package, names[|names| - 1])]
  }

  /** The pairs one `;`-group contributes: none for a blank group or one
      without `:`; otherwise the stripped text before the first `:` paired
      with each tool name after it. */
  function GroupPairs(group: string): seq<ToolRef> {
    var g := Strip(group);
    if g == "" then []
    else
      var parts := SplitOnce(g, ':');
      if |parts| != 2 then [] else Pairs(Strip(parts[0]), ToolNames(Strip(parts[1])))
  }

  function Concat(xss: seq<seq<ToolRef>>): seq<ToolRef> {
    if xss == [] then [] else Concat(xss[..|xss| - 1]) + xss[|xss| - 1]
  }

  lemma {:induction false} ConcatAppend(a: seq<seq<ToolRef>>, b: seq<seq<ToolRef>>)
    ensures Concat(a + b) == Concat(a) + Concat(b)
  {
    if b == [] {
      assert a + b == a;
    } else {
      var init, last := b[..|b| - 1], b[|b| - 1];
      var ab := a + b;
      assert ab[..|ab| - 1] == a + init && ab[|ab| - 1] == last;
      ConcatAppend(a, init);
      assert Concat(ab) == (Concat(a) + Concat(init)) + last;
      assert Concat(b) == Concat(init) + last;
    }
  }

  /** The pairs of each group, group by group. */
  function PerGroup(groups: seq<string>): (r: seq<seq<ToolRef>>)
    ensures |r| == |groups| && forall k :: 0 <= k < |groups| ==> r[k] == GroupPairs(groups[k])
  {
    seq(|groups|, k requires 0 <= k < |groups| => GroupPairs(groups[k]))
  }

  /** Every (package, tool) pair the configuration names, in order. */
  function ParseToolConfig(config: string): seq<ToolRef> {
    Concat(PerGroup(Split(config, ';')))
  }

  const EmptyModuleName := "Empty module name"

  /** Importing one more tool: an empty package name makes `__import__`
      raise ValueError, which `load_tools` does not catch; a tool that does
      not resolve is skipped. */
  function Import(acc: Result<seq<ToolRef>>, p: ToolRef, resolves: ToolRef -> bool): Result<seq<ToolRef>> {
    if acc.Err? then acc
    else if p.0 == "" then Err(EmptyModuleName)
    else Ok(acc.value + (if resolves(p) then [p] else []))
  }

  function ImportAll(acc: Result<seq<ToolRef>>, pairs: seq<ToolRef>, resolves: ToolRef -> bool): Result<seq<ToolRef>> {
    if pairs == [] then acc else Import(ImportAll(acc, pairs[..|pairs| - 1], resolves), pairs[|pairs| - 1], resolves)
  }

  lemma {:induction false} ImportAllAppend(acc: Result<seq<ToolRef>>, a: seq<ToolRef>, b: seq<ToolRef>, resolves: ToolRef -> bool)
    ensures ImportAll(acc, a + b, resolves) == ImportAll(ImportAll(acc, a, resolves), b, resolves)
  {
    if b == [] {
      assert a + b == a;
    } else {
      assert (a + b)[..|a + b| - 1] == a + b[..|b| - 1];
      ImportAllAppend(acc, a, b[..|b| - 1], resolves);
    }
  }

  lemma {:induction false} ImportAllErr(msg: string, pairs: seq<ToolRef>, resolves: ToolRef -> bool)
    ensures ImportAll(Err(msg), pairs, resolves) == Err(msg)
  {
    if pairs != [] {
      ImportAllErr(msg, pairs[..|pairs| - 1], resolves);
    }
  }

  /** The inner loop of `load_tools`: importing each tool of one group. */
  method ImportGroup(tools0: seq<ToolRef>, package: string, names: seq<string>, resolves: ToolRef -> bool)
    returns (r: Result<seq<ToolRef>>)
    ensures r == ImportAll(Ok(tools0), Pairs(package, names), resolves)
  {
    var tools := tools0;
    var j := 0;
    while j < |names|
      invariant 0 <= j <= |names|
      invariant ImportAll(Ok(tools0), Pairs(package, names[..j]), resolves) == Ok(tools)
    {
      var next := Pairs(package, names[..j + 1]);
      assert next == Pairs(package, names[..j]) + [(package, names[j])] by {
        assert names[..j + 1][..j] == names[..j];
      }
      assert next[..|next| - 1] == Pairs(package, names[..j]) && next[|next| - 1] == (package, names[j]);
      assert ImportAll(Ok(tools0), next, resolves) == Import(Ok(tools), (package, names[j]), resolves);
      if package == "" {
        assert Pairs(package, names) == next + Pairs(package, names[j + 1..]);
        ImportAllAppend(Ok(tools0), next, Pairs(package, names[j + 1..]), resolves);
        ImportAllErr(EmptyModuleName, Pairs(package, names[j + 1..]), resolves);
        return Err(EmptyModuleName);
      }
      ghost var before := tools;
      assert Import(Ok(tools), (package, names[j]), resolves) ==
        Ok(tools + (if resolves((package, names[j])) then [(package, names[j])] else []));
      if resolves((package, names[j])) {
        tools := tools + [(package, names[j])];
      }
      assert tools == before + (if resolves((package, names[j])) then [(package, names[j])] else []);
      j := j + 1;
      assert ImportAll(Ok(tools0), next, resolves) == Ok(tools);
    }
    assert names[..j] == names;
    r := Ok(tools);
  }

  /** `load_tools`: the loop over the `;`-groups; the first pair with an
      empty package name ends it with the error. */
  method LoadTools(config: string, resolves: ToolRef -> bool) returns (r: Result<seq<ToolRef>>)
    ensures r == ImportAll(Ok([]), ParseToolConfig(config), resolves)
  {
    var groups := Split(config, ';');
    r := LoadGroups(groups, resolves);
  }

  /** The loop over the `;`-groups, in order, stopping at the first error. */
  method LoadGroups(groups: seq<string>, resolves: ToolRef -> bool) returns (r: Result<seq<ToolRef>>)
    ensures r == ImportAll(Ok([]), Concat(PerGroup(groups)), resolves)
  {
    var tools: seq<ToolRef> := [];
    ghost var per := PerGroup(groups);
    var i := 0;
    while i < |groups|
      invariant 0 <= i <= |groups|
      invariant ImportAll(Ok([]), Concat(per[..i]), resolves) == Ok(tools)
    {
      ImportStep(per, i, tools, resolves);
      var result := LoadGroup(tools, groups[i], resolves);
      assert result == ImportAll(Ok([]), Concat(per[..i + 1]), resolves) by {
        assert per[i] == GroupPairs(groups[i]);
      }
      if result.Err? {
        LoadToolsFails(per, i, resolves);
        return result;
      }
      tools := result.value;
      i := i + 1;
    }
    assert per[..i] == per;
    r := Ok(tools);
  }

  /** One `;`-group of `load_tools`: blank groups and groups without `:`
      import nothing. */
  method LoadGroup(tools: seq<ToolRef>, group: string, resolves: ToolRef -> bool) returns (r: Result<seq<ToolRef>>)
    ensures r == ImportAll(Ok(tools), GroupPairs(group), resolves)
  {
    var g := Strip(group);
    if g != "" {
      var parts := SplitOnce(g, ':');
      if |parts| == 2 {
        r := ImportGroup(tools, Strip(parts[0]), ToolNames(Strip(parts[1])), resolves);
        return;
      }
    }
    r := Ok(tools);
  }

  lemma ImportStep(per: seq<seq<ToolRef>>, i: nat, tools: seq<ToolRef>, resolves: ToolRef -> bool)
    requires i < |per|
    requires ImportAll(Ok([]), Concat(per[..i]), resolves) == Ok(tools)
    ensures ImportAll(Ok([]), Concat(per[..i + 1]), resolves) == ImportAll(Ok(tools), per[i], resolves)
  {
    var a := per[..i + 1];
    assert a[..|a| - 1] == per[..i] && a[|a| - 1] == per[i];
    assert Concat(a) == Concat(per[..i]) + per[i];
    ImportAllAppend(Ok([]), Concat(per[..i]), per[i], resolves);
  }

  /** Once the groups up to one have failed, the whole configuration
      fails the same way. */
  lemma LoadToolsFails(per: seq<seq<ToolRef>>, i: nat, resolves: ToolRef -> bool)
    requires i < |per|
    requires ImportAll(Ok([]), Concat(per[..i + 1]), resolves).Err?
    ensures ImportAll(Ok([]), Concat(per), resolves) == ImportAll(Ok([]), Concat(per[..i + 1]), resolves)
  {
    var a, b := per[..i + 1], per[i + 1..];
    var x, y := Concat(a), Concat(b);
    assert Concat(per) == x + y by {
      assert a + b == per;
      ConcatAppend(a, b);
    }
    var failed := ImportAll(Ok([]), x, resolves);
    ImportAllAppend(Ok([]), x, y, resolves);
    ImportAllErr(failed.msg, y, resolves);
  }

  /** The pairs that resolve, in order: the reference for what gets loaded. */
  function Kept(pairs: seq<ToolRef>, resolves: ToolRef -> bool): (r: seq<ToolRef>)
    ensures |r| <= |pairs|
    ensures forall k :: 0 <= k < |r| ==> r[k] in pairs && resolves(r[k])
  {
    if pairs == [] then []
    else
      var last := pairs[|pairs| - 1];
      Kept(pairs[..|pairs| - 1], resolves) + (if resolves(last) then [last] else [])
  }

  predicate NoEmptyPackage(pairs: seq<ToolRef>) {
    forall k :: 0 <= k < |pairs| ==> pairs[k].0 != ""
  }

  /** What `load_tools` returns: the error when some pair has an empty
      package name, otherwise every pair that resolves, in the order of the
      configuration, so never more tools than pairs. */
  lemma {:induction false} ImportAllKept(acc: seq<ToolRef>, pairs: seq<ToolRef>, resolves: ToolRef -> bool)
    ensures ImportAll(Ok(acc), pairs, resolves) ==
      if NoEmptyPackage(pairs) then Ok(acc + Kept(pairs, resolves)) else Err(EmptyModuleName)
  {
    if pairs != [] {
      var init, last := pairs[..|pairs| - 1], pairs[|pairs| - 1];
      ImportAllKept(acc, init, resolves);
      if NoEmptyPackage(init) {
        assert NoEmptyPackage(pairs) <==> last.0 != "" by {
          if last.0 != "" {
            forall k | 0 <= k < |pairs|
              ensures pairs[k].0 != ""
            {
              if k < |init| {
                assert pairs[k] == init[k];
              }
            }
          }
        }
        assert Kept(pairs, resolves) == Kept(init, resolves) + (if resolves(last) then [last] else []);
        assert acc + Kept(pairs, resolves) == (acc + Kept(init, resolves)) + (if resolves(last) then [last] else []);
      } else {
        var k :| 0 <= k < |init| && init[k].0 == "";
        assert pairs[k] == init[k];
        ImportAllErr(EmptyModuleName, [last], resolves);
      }
    } else {
      assert acc + [] == acc;
    }
  }

  /** Every parsed pair names a non-empty tool, with no `,` or `;` in it,
      and a package without `:` or `;`. */
  lemma ParsedPairsShape(config: string)
    ensures forall k :: 0 <= k < |ParseToolConfig(config)| ==>
      var (package, tool) := ParseToolConfig(config)[k];
      tool != "" && ',' !in tool && ';' !in tool && ':' !in package && ';' !in package
  {
    var groups := Split(config, ';');
    ConfigShape(PerGroup(groups), groups);
  }

  predicate PairShaped(p: ToolRef) {
    p.1 != "" && ',' !in p.1 && ';' !in p.1 && ':' !in p.0 && ';' !in p.0
  }

  lemma {:induction false} ConfigShape(per: seq<seq<ToolRef>>, groups: seq<string>)
    requires per == PerGroup(groups)
    requires forall k :: 0 <= k < |groups| ==> ';' !in groups[k]
    ensures forall k :: 0 <= k < |Concat(per)| ==> PairShaped(Concat(per)[k])
  {
    if per != [] {
      var n := |per| - 1;
      assert per[..n] == PerGroup(groups[..n]);
      ConfigShape(per[..n], groups[..n]);
      GroupShape(groups[n]);
    }
  }

  lemma GroupShape(group: string)
    requires ';' !in group
    ensures forall k :: 0 <= k < |GroupPairs(group)| ==> PairShaped(GroupPairs(group)[k])
  {
    var g := Strip(group);
    StripWithin(group, ';');
    if g != "" {
      var parts := SplitOnce(g, ':');
      if |parts| == 2 {
        assert ';' !in parts[0] && ';' !in parts[1] by {
          assert g == parts[0] + [':'] + parts[1];
        }
        StripWithin(parts[0], ':');
        StripWithin(parts[0], ';');
        StripWithin(parts[1], ';');
        ToolNamesWithin(Strip(parts[1]), ';');
      }
    }
  }

  lemma ToolNamesWithin(s: string, c: char)
    requires c !in s
    ensures forall k :: 0 <= k < |ToolNames(s)| ==> c !in ToolNames(s)[k]
  {
    SplitWithin(s, ',', c);
    StrippedWithin(Split(s, ','), c);
  }

  lemma {:induction false} SplitWithin(s: string, sep: char, c: char)
    requires c !in s
    ensures forall k :: 0 <= k < |Split(s, sep)| ==> c !in Split(s, sep)[k]
    decreases |s|
  {
    var i := IndexOf(s, sep);
    if i < |s| {
      assert s == s[..i] + [sep] + s[i + 1..];
      SplitWithin(s[i + 1..], sep, c);
    }
  }

  lemma {:induction false} StrippedWithin(pieces: seq<string>, c: char)
    requires forall k :: 0 <= k < |pieces| ==> ',' !in pieces[k] && c !in pieces[k]
    ensures forall k :: 0 <= k < |StrippedNames(pieces)| ==> c !in StrippedNames(pieces)[k]
  {
    if pieces != [] {
      StrippedWithin(pieces[..|pieces| - 1], c);
      StripWithin(pieces[|pieces| - 1], c);
    }
  }

  /** A group written out: `package:tool1,tool2`. */
  function RenderGroup(g: (string, seq<string>)): string {
    g.0 + ":" + Join(g.1, ",")
  }

  function Rendered(gs: seq<(string, seq<string>)>): (r: seq<string>)
    ensures |r| == |gs| && forall k :: 0 <= k < |gs| ==> r[k] == RenderGroup(gs[k])
  {
    seq(|gs|, k requires 0 <= k < |gs| => RenderGroup(gs[k]))
  }

  /** A configuration written out: the groups joined by `;`. */
  function RenderConfig(gs: seq<(string, seq<string>)>): string {
    Join(Rendered(gs), ";")
  }

  /** The pairs a list of groups stands for, in order. */
  function Flatten(gs: seq<(string, seq<string>)>): seq<ToolRef> {
    if gs == [] then [] else Flatten(gs[..|gs| - 1]) + Pairs(gs[|gs| - 1].0, gs[|gs| - 1].1)
  }

  predicate PlainName(s: string) {
    s != "" && NoSpace(s) && ':' !in s && ',' !in s && ';' !in s
  }

  predicate WellFormedGroup(g: (string, seq<string>)) {
    PlainName(g.0) && forall k :: 0 <= k < |g.1| ==> PlainName(g.1[k])
  }

  lemma {:induction false} StrippedNamesKeep(ts: seq<string>)
    requires forall k :: 0 <= k < |ts| ==> PlainName(ts[k])
    ensures (forall k :: 0 <= k < |ts| ==> ',' !in ts[k]) && StrippedNames(ts) == ts
  {
    if ts != [] {
      StrippedNamesKeep(ts[..|ts| - 1]);
      StripUnpadded(ts[|ts| - 1]);
      assert ts[..|ts| - 1] + [ts[|ts| - 1]] == ts;
    }
  }

  /** The tool list of a written group reads back as the tools. */
  lemma ToolNamesOfJoin(ts: seq<string>)
    requires forall k :: 0 <= k < |ts| ==> PlainName(ts[k])
    ensures ToolNames(Join(ts, ",")) == ts
    ensures Strip(Join(ts, ",")) == Join(ts, ",")
  {
    if ts == [] {
      assert Split("", ',') == [""];
      assert Strip("") == "";
    } else {
      SplitJoin(ts, ',');
      StrippedNamesKeep(ts);
      JoinFirst(ts, ",");
      JoinLast(ts, ",");
      StripUnpadded(Join(ts, ","));
    }
  }

  /** A written group reads back as its pairs. */
  lemma GroupRoundTrip(g: (string, seq<string>))
    requires WellFormedGroup(g)
    ensures GroupPairs(RenderGroup(g)) == Pairs(g.0, g.1)
  {
    var (p, ts) := g;
    var j := Join(ts, ",");
    var s := RenderGroup(g);
    ToolNamesOfJoin(ts);
    RenderedStripped(g);
    SplitOnceAt(p, j, ':');
    StripUnpadded(p);
    GroupPairsOf(s, p, j);
  }

  /** A written group has no whitespace at either end. */
  lemma RenderedStripped(g: (string, seq<string>))
    requires WellFormedGroup(g)
    ensures Strip(RenderGroup(g)) == RenderGroup(g)
  {
    var (p, ts) := g;
    var j := Join(ts, ",");
    var s := RenderGroup(g);
    assert s == p + ([':'] + j);
    assert s[0] == p[0];
    if ts != [] {
      JoinLast(ts, ",");
      assert s[|s| - 1] == j[|j| - 1];
    }
    StripUnpadded(s);
  }

  /** `GroupPairs` on a stripped, non-empty group that splits at its first
      `:`. */
  lemma GroupPairsOf(s: string, p: string, j: string)
    requires Strip(s) == s && s != "" && SplitOnce(s, ':') == [p, j]
    ensures GroupPairs(s) == Pairs(Strip(p), ToolNames(Strip(j)))
  {
  }

  lemma RenderedPlain(g: (string, seq<string>))
    requires WellFormedGroup(g)
    ensures ';' !in RenderGroup(g)
  {
    JoinAvoids(g.1, ",", ';');
  }

  lemma {:induction false} ConcatRendered(gs: seq<(string, seq<string>)>)
    requires forall k :: 0 <= k < |gs| ==> WellFormedGroup(gs[k])
    ensures Concat(PerGroup(Rendered(gs))) == Flatten(gs)
  {
    if gs != [] {
      var n := |gs| - 1;
      ConcatRendered(gs[..n]);
      GroupRoundTrip(gs[n]);
      var per := PerGroup(Rendered(gs));
      assert per[..n] == PerGroup(Rendered(gs[..n]));
      assert per[n] == Pairs(gs[n].0, gs[n].1);
    }
  }

  /** An empty configuration names no tools. */
  lemma EmptyConfig()
    ensures ParseToolConfig("") == []
  {
    assert Split("", ';') == [""];
    assert Strip("") == "";
    assert PerGroup([""]) == [[]];
  }

  /** A configuration written from well-formed groups parses back to the
      pairs of those groups, in order. */
  lemma ConfigRoundTrip(gs: seq<(string, seq<string>)>)
    requires forall k :: 0 <= k < |gs| ==> WellFormedGroup(gs[k])
    ensures ParseToolConfig(RenderConfig(gs)) == Flatten(gs)
  {
    if gs == [] {
      EmptyConfig();
    } else {
      forall k | 0 <= k < |gs|
        ensures ';' !in Rendered(gs)[k]
      {
        RenderedPlain(gs[k]);
      }
      SplitJoin(Rendered(gs), ';');
      ConcatRendered(gs);
    }
  }

  // ------------------------------------------------------ extract_issue_id

  /** `str(payload.get("number"))`: a missing number prints as `None`. */
  function NumberText(n: Option<int>): (r: string)
    ensures r != []
  {
    if n.Some? then IntToString(n.value) else "None"
  }

  const IssueEvents: seq<string> := ["issues", "issue_comment"]
  const PullRequestEvents: seq<string> := ["pull_request", "pull_request_review", "pull_request_review_comment"]
  const DiscussionEvents: seq<string> := ["discussion", "discussion_comment"]

  /** The id for a decoded context: the issue's number, `pr-` and the pull
      request's number, or `disc-` and the discussion's number, according
      to the event's family and only when that object is present. */
  function IssueIdOf(c: Context): (r: Option<string>)
    ensures c.eventName in IssueEvents ==> r == (if c.issue.Present? then Some(NumberText(c.issue.number)) else None)
    ensures c.eventName in PullRequestEvents ==>
      r == (if c.pullRequest.Present? then Some("pr-" + NumberText(c.pullRequest.number)) else None)
    ensures c.eventName in DiscussionEvents ==>
      r == (if c.discussion.Present? then Some("disc-" + NumberText(c.discussion.number)) else None)
    ensures c.eventName !in IssueEvents + PullRequestEvents + DiscussionEvents ==> r.None?
  {
    if c.eventName in IssueEvents then
      if c.issue.Present? then Some(NumberText(c.issue.number)) else None
    else if c.eventName in PullRequestEvents then
      if c.pullRequest.Present? then Some("pr-" + NumberText(c.pullRequest.number)) else None
    else if c.eventName in DiscussionEvents then
      if c.discussion.Present? then Some("disc-" + NumberText(c.discussion.number)) else None
    else None
  }

  /** `extract_issue_id` on the raw `GITHUB_CONTEXT`. */
  function ExtractIssueId(raw: Option<string>, decode: string -> Option<Context>): (r: Option<string>)
    ensures LoadContext(raw, decode).None? ==> r.None?
    ensures LoadContext(raw, decode).Some? ==> r == IssueIdOf(LoadContext(raw, decode).value)
  {
    var c := LoadContext(raw, decode);
    if c.None? then None else IssueIdOf(c.value)
  }

  /** The id names the object's number: the part after the family prefix
      reads back with `int()` as that number, and the prefix tells the
      family. */
  lemma IssueIdNamesNumber(c: Context, n: int)
    ensures c.eventName in IssueEvents && c.issue.Present? && c.issue.number == Some(n) ==>
      IssueIdOf(c).Some? && ParseInt(IssueIdOf(c).value) == Some(n)
    ensures c.eventName in PullRequestEvents && c.pullRequest.Present? && c.pullRequest.number == Some(n) ==>
      IssueIdOf(c).Some? && IssueIdOf(c).value[..3] == "pr-" && ParseInt(IssueIdOf(c).value[3..]) == Some(n)
    ensures c.eventName in DiscussionEvents && c.discussion.Present? && c.discussion.number == Some(n) ==>
      IssueIdOf(c).Some? && IssueIdOf(c).value[..5] == "disc-" && ParseInt(IssueIdOf(c).value[5..]) == Some(n)
  {
    ParseIntShow(n);
    var t := IntToString(n);
    assert ("pr-" + t)[..3] == "pr-" && ("pr-" + t)[3..] == t;
    assert ("disc-" + t)[..5] == "disc-" && ("disc-" + t)[5..] == t;
  }

  /** The first character of an id tells its family apart: `p` only for
      pull requests, `d` only for discussions (an issue id starts with a
      digit, a minus sign or the `N` of `None`). */
  lemma IssueIdFamily(c: Context)
    ensures IssueIdOf(c).Some? ==> var id := IssueIdOf(c).value;
      (id[0] == 'p' <==> c.eventName in PullRequestEvents) &&
      (id[0] == 'd' <==> c.eventName in DiscussionEvents)
  {
    if c.eventName in IssueEvents && c.issue.Present? && c.issue.number.Some? {
      var n := c.issue.number.value;
      if n >= 0 {
        assert IsDigit(NatToString(n)[0]);
      }
    }
  }

  // ------------------------------------------------- session id and tags

  /** The session id: `SESSION_ID` when set and non-empty, otherwise
      `gh-<repository with "/" as "-">-<run id>`, the repository defaulting
      to `unknown` and the run id to `local`. */
  function SessionId(sessionEnv: Option<string>, repository: Option<string>, runId: Option<string>): (r: string)
    ensures Truthy(sessionEnv) ==> r == sessionEnv.value
  {
    if Truthy(sessionEnv) then sessionEnv.value
    else "gh-" + ReplaceChar(repository.GetOr("unknown"), '/', "-") + "-" + runId.GetOr("local")
  }

  /** Replacing `/` by `-` keeps every other character in place. */
  lemma {:induction false} ReplaceSlashPointwise(s: string)
    ensures |ReplaceChar(s, '/', "-")| == |s|
    ensures forall k :: 0 <= k < |s| ==> ReplaceChar(s, '/', "-")[k] == if s[k] == '/' then '-' else s[k]
  {
    if s != [] {
      ReplaceSlashPointwise(s[1..]);
    }
  }

  /** Without `SESSION_ID`, the derived id has no `/` unless the run id
      has one, and the repository sits at a fixed place in it, same length,
      each `/` shown as `-`. */
  lemma DerivedSessionId(sessionEnv: Option<string>, repository: Option<string>, runId: Option<string>)
    requires !Truthy(sessionEnv)
    ensures var r := SessionId(sessionEnv, repository, runId);
      var repo := repository.GetOr("unknown");
      var run := runId.GetOr("local");
      |r| == 3 + |repo| + 1 + |run| && r[..3] == "gh-" && r[3 + |repo|] == '-' && r[|r| - |run|..] == run &&
      (forall k :: 0 <= k < |repo| ==> r[3 + k] == if repo[k] == '/' then '-' else repo[k]) &&
      ('/' !in run ==> '/' !in r)
  {
    DerivedShape(repository.GetOr("unknown"), runId.GetOr("local"));
  }

  /** The shape of `gh-<repo with "/" as "-">-<run>`. */
  lemma DerivedShape(repo: string, run: string)
    ensures var r := "gh-" + ReplaceChar(repo, '/', "-") + "-" + run;
      |r| == 3 + |repo| + 1 + |run| && r[..3] == "gh-" && r[3 + |repo|] == '-' && r[|r| - |run|..] == run &&
      (forall k :: 0 <= k < |repo| ==> r[3 + k] == if repo[k] == '/' then '-' else repo[k]) &&
      ('/' !in run ==> '/' !in r)
  {
    var mid := ReplaceChar(repo, '/', "-");
    ReplaceSlashPointwise(repo);
    var r := "gh-" + mid + "-" + run;
    assert r[..3] == "gh-";
    assert r[3 + |repo|] == '-';
    assert r[|r| - |run|..] == run;
    forall k | 0 <= k < |repo| ensures r[3 + k] == if repo[k] == '/' then '-' else repo[k] {
      assert r[3 + k] == mid[k];
    }
    if '/' !in run {
      assert '/' !in "gh-" && '/' !in mid && '/' !in "-";
    }
  }

  /** The trace tags: the two fixed tags, then `issue:<id>` when there is
      an id. */
  function TraceTags(issueId: Option<string>): (r: seq<string>)
    ensures |r| == (if Truthy(issueId) then 3 else 2)
    ensures r[..2] == ["Strands-Agents", "GitHub-Action"]
    ensures Truthy(issueId) ==> r[2] == "issue:" + issueId.value
  {
    ["Strands-Agents", "GitHub-Action"] + (if Truthy(issueId) then ["issue:" + issueId.value] else [])
  }

  /** For an issue event, the last trace tag names the issue: after
      `issue:` comes text that `int()` reads as the issue's number. */
  lemma IssueTagNamesNumber(c: Context, n: int)
    requires c.eventName in IssueEvents && c.issue.Present? && c.issue.number == Some(n)
    ensures var tags := TraceTags(IssueIdOf(c));
      |tags| == 3 && tags[2][..6] == "issue:" && ParseInt(tags[2][6..]) == Some(n)
  {
    IssueIdNamesNumber(c, n);
    var id := IssueIdOf(c).value;
    assert id != "" by {
      ParseIntShow(n);
    }
    assert ("issue:" + id)[..6] == "issue:" && ("issue:" + id)[6..] == id;
  }

  // -------------------------------------------------------------- prompt

  const PromptRequired := "Prompt required via STRANDS_PROMPT env var or command-line argument"
  const PromptEmpty := "Prompt cannot be empty"

  /** The prompt `main` runs: `STRANDS_PROMPT` when set and non-empty, else
      the arguments joined by single spaces; no prompt at all, or one that
      is only whitespace, is an error. */
  function ChoosePrompt(env: Option<string>, args: seq<string>): (r: Result<string>)
    ensures Truthy(env) ==> r == (if Strip(env.value) == "" then Err(PromptEmpty) else Ok(env.value))
    ensures !Truthy(env) && args == [] ==> r == Err(PromptRequired)
    ensures !Truthy(env) && args != [] ==>
      r == (if Strip(Join(args, " ")) == "" then Err(PromptEmpty) else Ok(Join(args, " ")))
  {
    if !Truthy(env) && args == [] then Err(PromptRequired)
    else
      var prompt := if Truthy(env) then env.value else Join(args, " ");
      if Strip(prompt) == "" then Err(PromptEmpty) else Ok(prompt)
  }

  /** Arguments without whitespace come back as the words of the prompt
      they form. */
  lemma PromptFromArgs(args: seq<string>)
    requires args != [] && forall k :: 0 <= k < |args| ==> args[k] != [] && NoSpace(args[k])
    ensures ChoosePrompt(None, args).Ok? && SplitWs(ChoosePrompt(None, args).value) == args
  {
    JoinFirst(args, " ");
    JoinLast(args, " ");
    var j := Join(args, " ");
    StripUnpadded(j);
    SplitWsJoin(args);
  }
}
