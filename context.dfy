/** The runner's prompt material: the message that triggered the workflow,
    the per-status counts of the project board shown in the project
    context, and the order in which the system prompt is assembled. */
module PromptContext {
  import opened Wrappers
  import opened Text
  import opened GithubEvent
  import opened Histogram
  import opened Board

  // ------------------------------------------------- extract_user_message

  /** Which object of the event carries the user's message. */
  datatype Source = IssueBody | PullRequestBody | ReviewBody | CommentBody | DiscussionBody

  function Pick(c: Context, s: Source): string {
    match s
    case IssueBody => BodyOf(c.issue)
    case PullRequestBody => BodyOf(c.pullRequest)
    case ReviewBody => BodyOf(c.review)
    case CommentBody => BodyOf(c.comment)
    case DiscussionBody => BodyOf(c.discussion)
  }

  /** The (event, action) pairs that carry a message, and where it is. */
  const MessageTable: map<(string, string), Source> := map[
    ("issue_comment", "created") := CommentBody,
    ("issue_comment", "edited") := CommentBody,
    ("issues", "opened") := IssueBody,
    ("issues", "edited") := IssueBody,
    ("issues", "reopened") := IssueBody,
    ("pull_request", "opened") := PullRequestBody,
    ("pull_request", "edited") := PullRequestBody,
    ("pull_request", "reopened") := PullRequestBody,
    ("pull_request_review", "submitted") := ReviewBody,
    ("pull_request_review_comment", "created") := CommentBody,
    ("pull_request_review_comment", "edited") := CommentBody,
    ("discussion", "created") := DiscussionBody,
    ("discussion", "edited") := DiscussionBody,
    ("discussion_comment", "created") := CommentBody,
    ("discussion_comment", "edited") := CommentBody
  ]

  /** The message of a decoded context, as the `if`/`elif` chain picks it:
      it agrees with `MessageTable`, a listed pair giving the body of its
      object and every other pair the empty message. */
  function MessageOf(c: Context): (r: string)
    ensures (c.eventName, c.action) in MessageTable ==> r == Pick(c, MessageTable[(c.eventName, c.action)])
    ensures (c.eventName, c.action) !in MessageTable ==> r == ""
  {
    var e, a := c.eventName, c.action;
    if e == "issue_comment" && a in ["created", "edited"] then BodyOf(c.comment)
    else if e == "issues" && a in ["opened", "edited", "reopened"] then BodyOf(c.issue)
    else if e == "pull_request" && a in ["opened", "edited", "reopened"] then BodyOf(c.pullRequest)
    else if e == "pull_request_review" && a == "submitted" then BodyOf(c.review)
    else if e == "pull_request_review_comment" && a in ["created", "edited"] then BodyOf(c.comment)
    else if e == "discussion" && a in ["created", "edited"] then BodyOf(c.discussion)
    else if e == "discussion_comment" && a in ["created", "edited"] then BodyOf(c.comment)
    else ""
  }

  /** `extract_user_message`: no context (unset, empty, `{}` or not JSON)
      gives the empty message. */
  function ExtractUserMessage(raw: Option<string>, decode: string -> Option<Context>): (r: string)
    ensures LoadContext(raw, decode).None? ==> r == ""
    ensures LoadContext(raw, decode).Some? ==> r == MessageOf(LoadContext(raw, decode).value)
  {
    var c := LoadContext(raw, decode);
    if c.None? then "" else MessageOf(c.value)
  }

  // ----------------------------------- fetch_project_context, status counts

  const DefaultStatus := "Todo"

  /** Whether a field value is a Status value with a non-empty name. */
  predicate IsStatus(fv: FieldValue) {
    fv.fieldName == "Status" && fv.name != ""
  }

  /** The status an item is shown under: the name of its first Status value
      with a non-empty name, `Todo` when it has none. */
  function StatusOf(fvs: seq<FieldValue>): (r: string)
    ensures r != ""
    ensures (forall k :: 0 <= k < |fvs| ==> !IsStatus(fvs[k])) ==> r == DefaultStatus
    ensures r == DefaultStatus || exists k :: 0 <= k < |fvs| && IsStatus(fvs[k]) && fvs[k].name == r
  {
    if fvs == [] then DefaultStatus
    else if IsStatus(fvs[0]) then fvs[0].name
    else
      var r := StatusOf(fvs[1..]);
      assert forall k :: 0 <= k < |fvs[1..]| ==> fvs[1..][k] == fvs[k + 1];
      r
  }

  /** The first Status value decides, whatever follows. */
  lemma {:induction false} StatusFirstWins(before: seq<FieldValue>, fv: FieldValue, after: seq<FieldValue>)
    requires forall k :: 0 <= k < |before| ==> !IsStatus(before[k])
    requires IsStatus(fv)
    ensures StatusOf(before + [fv] + after) == fv.name
  {
    if before != [] {
      assert (before + [fv] + after)[1..] == before[1..] + [fv] + after;
      StatusFirstWins(before[1..], fv, after);
    }
  }

  /** The statuses of the non-archived items, in order. */
  function ItemStatuses(items: seq<Item>): (r: seq<string>)
    ensures |r| <= |items|
    ensures forall k :: 0 <= k < |r| ==> r[k] != ""
  {
    if items == [] then []
    else
      var last := items[|items| - 1];
      ItemStatuses(items[..|items| - 1]) + (if last.archived then [] else [StatusOf(last.fieldValues)])
  }

  function NonArchived(items: seq<Item>): nat {
    if items == [] then 0
    else NonArchived(items[..|items| - 1]) + (if items[|items| - 1].archived then 0 else 1)
  }

  /** Every non-archived item has exactly one status, archived ones none. */
  lemma {:induction false} StatusPerItem(items: seq<Item>)
    ensures |ItemStatuses(items)| == NonArchived(items)
  {
    if items != [] {
      StatusPerItem(items[..|items| - 1]);
    }
  }

  /** Counting a board in two parts is counting it whole. */
  lemma {:induction false} ItemStatusesAppend(a: seq<Item>, b: seq<Item>)
    ensures ItemStatuses(a + b) == ItemStatuses(a) + ItemStatuses(b)
  {
    if b == [] {
      assert a + b == a;
    } else {
      assert (a + b)[..|a + b| - 1] == a + b[..|b| - 1];
      ItemStatusesAppend(a, b[..|b| - 1]);
    }
  }

  /** `{"Todo": 0, "In Progress": 0, "Done": 0}`. */
  const InitialStatusCounts: map<string, int> := map["Todo" := 0, "In Progress" := 0, "Done" := 0]

  /** The inner `for fv in ...: if ...: status = fv["name"]; break` search. */
  method ItemStatus(fvs: seq<FieldValue>) returns (status: string)
    ensures status == StatusOf(fvs)
  {
    status := DefaultStatus;
    var i := 0;
    while i < |fvs|
      invariant 0 <= i <= |fvs|
      invariant StatusOf(fvs) == StatusOf(fvs[i..])
    {
      if IsStatus(fvs[i]) {
        status := fvs[i].name;
        break;
      }
      assert fvs[i..][1..] == fvs[i + 1..];
      i := i + 1;
    }
  }

  /** The status loop of `fetch_project_context`: the counters it builds
      and the number of items it lists. */
  method CountStatuses(items: seq<Item>) returns (counts: map<string, int>, shown: nat)
    ensures counts == Bump(InitialStatusCounts, ItemStatuses(items))
    ensures shown == NonArchived(items)
  {
    counts := InitialStatusCounts;
    shown := 0;
    ghost var seen: seq<string> := [];
    var i := 0;
    while i < |items|
      invariant 0 <= i <= |items|
      invariant seen == ItemStatuses(items[..i])
      invariant counts == Bump(InitialStatusCounts, seen)
      invariant shown == NonArchived(items[..i])
    {
      CountStep(items, i);
      if !items[i].archived {
        var status := ItemStatus(items[i].fieldValues);
        BumpSnoc(InitialStatusCounts, seen, status);
        counts := counts[status := (if status in counts then counts[status] else 0) + 1];
        seen := seen + [status];
        shown := shown + 1;
      }
      i := i + 1;
    }
    assert items[..i] == items;
  }

  /** One more item: an archived one changes nothing, any other adds its
      status to the list and one to the shown count. */
  lemma CountStep(items: seq<Item>, i: nat)
    requires i < |items|
    ensures NonArchived(items[..i + 1]) == NonArchived(items[..i]) + (if items[i].archived then 0 else 1)
    ensures ItemStatuses(items[..i + 1]) ==
      ItemStatuses(items[..i]) + (if items[i].archived then [] else [StatusOf(items[i].fieldValues)])
  {
    assert items[..i + 1][..i] == items[..i];
  }

  /** What the counters say: each status's count is the number of
      non-archived items shown under it; Todo, In Progress and Done are
      always there, and no other key appears without an item. */
  lemma StatusCountsMeaning(items: seq<Item>, k: string)
    ensures var counts := Bump(InitialStatusCounts, ItemStatuses(items));
      (k in counts <==> k in InitialStatusCounts || k in ItemStatuses(items)) &&
      (k in counts ==> counts[k] == Occurrences(ItemStatuses(items), k))
  {
    BumpCounts(InitialStatusCounts, ItemStatuses(items), k);
  }

  /** An archived item changes no counter. */
  lemma ArchivedNotCounted(items: seq<Item>, it: Item)
    requires it.archived
    ensures ItemStatuses(items + [it]) == ItemStatuses(items)
  {
    assert (items + [it])[..|items|] == items;
  }

  /** A non-archived item with no Status value is counted under Todo. */
  lemma UnsetCountsAsTodo(items: seq<Item>, it: Item)
    requires !it.archived
    requires forall k :: 0 <= k < |it.fieldValues| ==> !IsStatus(it.fieldValues[k])
    ensures var before := Bump(InitialStatusCounts, ItemStatuses(items));
      var after := Bump(InitialStatusCounts, ItemStatuses(items + [it]));
      "Todo" in before && after == before["Todo" := before["Todo"] + 1]
  {
    assert (items + [it])[..|items|] == items;
    var s := ItemStatuses(items);
    assert ItemStatuses(items + [it]) == s + ["Todo"];
    assert (s + ["Todo"])[..|s|] == s;
    StatusCountsMeaning(items, "Todo");
  }

  // ---------------------------------------------------- build_system_prompt

  const DefaultBase := "You are an autonomous GitHub agent powered by Strands Agents SDK."
  const Blank := "\n\n"

  /** `os.getenv("STRANDS_SELF_AWARE", "true").lower() == "true"`. */
  predicate SelfAware(env: Option<string>) {
    AsciiLower(env.GetOr("true")) == "true"
  }

  /** One optional section: present only when enabled and non-empty. */
  function Section(enabled: bool, text: string): seq<string> {
    if enabled && text != "" then [text] else []
  }

  /** The parts of the system prompt, in order: the base and then each
      non-empty section; the project context only when a project is
      configured, the own code only when self-awareness is on. */
  function PromptParts(systemPrompt: Option<string>, inputPrompt: Option<string>, eventContext: string,
                       projectId: Option<string>, projectContext: string,
                       selfAware: Option<string>, ownCode: string): (r: seq<string>)
    ensures |r| >= 1 && r[0] != []
    ensures forall k :: 1 <= k < |r| ==> r[k] != []
  {
    [if Truthy(systemPrompt) then systemPrompt.value else DefaultBase]
    + Section(inputPrompt.Some?, inputPrompt.GetOr(""))
    + Section(true, eventContext)
    + Section(Truthy(projectId), projectContext)
    + Section(SelfAware(selfAware), ownCode)
  }

  /** `base_prompt = f"{base_prompt}\n\n{text}"` when the section is there. */
  method AddSection(prompt: string, ghost parts: seq<string>, enabled: bool, text: string)
    returns (r: string)
    requires |parts| >= 1 && prompt == Join(parts, Blank)
    ensures r == Join(parts + Section(enabled, text), Blank)
  {
    r := prompt;
    if enabled && text != "" {
      JoinSnoc(parts, text, Blank);
      r := prompt + Blank + text;
    } else {
      assert parts + Section(enabled, text) == parts;
    }
  }

  /** `build_system_prompt`, the fetched contexts and the own code given as
      inputs: `base_prompt` grows by a blank line and one section at a
      time, so the result is the parts joined by blank lines. */
  method BuildSystemPrompt(systemPrompt: Option<string>, inputPrompt: Option<string>, eventContext: string,
                           projectId: Option<string>, projectContext: string,
                           selfAware: Option<string>, ownCode: string) returns (prompt: string)
    ensures prompt == Join(PromptParts(systemPrompt, inputPrompt, eventContext, projectId, projectContext,
                                       selfAware, ownCode), Blank)
  {
    prompt := if Truthy(systemPrompt) then systemPrompt.value else DefaultBase;
    ghost var p0 := [prompt];
    ghost var p1 := p0 + Section(inputPrompt.Some?, inputPrompt.GetOr(""));
    ghost var p2 := p1 + Section(true, eventContext);
    ghost var p3 := p2 + Section(Truthy(projectId), projectContext);
    prompt := AddSection(prompt, p0, inputPrompt.Some?, inputPrompt.GetOr(""));
    prompt := AddSection(prompt, p1, true, eventContext);
    prompt := AddSection(prompt, p2, Truthy(projectId), projectContext);
    prompt := AddSection(prompt, p3, SelfAware(selfAware), ownCode);
  }

  /** Appending one part to a join of at least one part. */
  lemma {:induction false} JoinSnoc(parts: seq<string>, p: string, sep: string)
    requires |parts| >= 1
    ensures Join(parts + [p], sep) == Join(parts, sep) + sep + p
  {
    if |parts| == 1 {
      assert (parts + [p])[1..] == [p];
    } else {
      assert (parts + [p])[1..] == parts[1..] + [p];
      JoinSnoc(parts[1..], p, sep);
    }
  }

  function TotalLength(parts: seq<string>): nat {
    if parts == [] then 0 else |parts[0]| + TotalLength(parts[1..])
  }

  /** The prompt is its parts and one blank line between each two, nothing
      more. */
  lemma {:induction false} JoinLength(parts: seq<string>, sep: string)
    requires |parts| >= 1
    ensures |Join(parts, sep)| == TotalLength(parts) + |sep| * (|parts| - 1)
  {
    if |parts| > 1 {
      JoinLength(parts[1..], sep);
    }
  }

  /** The prompt starts with the base prompt and ends with its last
      section; with no section it is the base prompt alone. */
  lemma PromptShape(systemPrompt: Option<string>, inputPrompt: Option<string>, eventContext: string,
                    projectId: Option<string>, projectContext: string,
                    selfAware: Option<string>, ownCode: string)
    ensures var parts := PromptParts(systemPrompt, inputPrompt, eventContext, projectId, projectContext,
                                     selfAware, ownCode);
      var prompt := Join(parts, Blank);
      |parts[0]| <= |prompt| && prompt[..|parts[0]|] == parts[0] &&
      |parts[|parts| - 1]| <= |prompt| && prompt[|prompt| - |parts[|parts| - 1]|..] == parts[|parts| - 1] &&
      (|parts| == 1 ==> prompt == parts[0])
  {
    var parts := PromptParts(systemPrompt, inputPrompt, eventContext, projectId, projectContext,
                             selfAware, ownCode);
    JoinEnds(parts, Blank);
  }

  lemma {:induction false} JoinEnds(parts: seq<string>, sep: string)
    requires |parts| >= 1
    ensures var j := Join(parts, sep);
      |parts[0]| <= |j| && j[..|parts[0]|] == parts[0] &&
      |parts[|parts| - 1]| <= |j| && j[|j| - |parts[|parts| - 1]|..] == parts[|parts| - 1] &&
      (|parts| == 1 ==> j == parts[0])
  {
    if |parts| > 1 {
      JoinEnds(parts[1..], sep);
      var rest := Join(parts[1..], sep);
      assert Join(parts, sep) == parts[0] + sep + rest;
      assert parts[1..][|parts[1..]| - 1] == parts[|parts| - 1];
    }
  }

  /** Self-awareness is on when the variable is unset, and for any
      capitalisation of `true`. */
  lemma SelfAwareDefault()
    ensures SelfAware(None)
    ensures SelfAware(Some("TRUE")) && SelfAware(Some("True"))
    ensures !SelfAware(Some("false")) && !SelfAware(Some(""))
  {
    assert AsciiLower("true") == "true";
    assert AsciiLower("TRUE") == "true";
    assert AsciiLower("True") == "true";
  }
}
