/** The local logic of the GitHub Projects (v2) tool: reading `owner/repo`,
    the progress summary, resolving an `update_item` request against the
    project's fields, the shapes of the field mutations, and the best-effort
    bulk loops. Every GraphQL request is a remote call: the model takes the
    project's fields and items as they came back, and the outcome of each
    remote mutation as an input. */
module Projects {
  import opened Wrappers
  import opened Text
  import opened Board
  import opened Histogram
  import opened PyRepr

  // ------------------------------------------------------------ owner/repo

  const RepositoryFormatError := "Repository must be in format 'owner/repo', got: "

  /** `_parse_repository`: exactly two `/`-separated parts, or ValueError. */
  function ParseRepository(repository: string): (r: Result<(string, string)>)
    ensures r.Ok? <==> Count(repository, '/') == 1
    ensures r.Ok? ==> '/' !in r.value.0 && '/' !in r.value.1 && r.value.0 + "/" + r.value.1 == repository
    ensures r.Err? ==> r.msg == RepositoryFormatError + repository
  {
    var parts := Split(repository, '/');
    SplitLength(repository, '/');
    if |parts| != 2 then Err(RepositoryFormatError + repository)
    else
      JoinSplit(repository, '/');
      assert Join(parts, "/") == parts[0] + "/" + parts[1];
      Ok((parts[0], parts[1]))
  }

  /** `owner/name` reads back as the pair it was written from. */
  lemma RepositoryRoundTrip(owner: string, name: string)
    requires '/' !in owner && '/' !in name
    ensures ParseRepository(owner + "/" + name) == Ok((owner, name))
  {
    assert Join([owner, name], "/") == owner + "/" + name;
    SplitJoin([owner, name], '/');
  }

  // -------------------------------------------------------------- progress

  /** The per-type counters of `_get_progress`. */
  datatype Tally = Tally(archived: nat, issuesOpen: nat, issuesClosed: nat,
                         prsOpen: nat, prsMerged: nat, prsClosed: nat, drafts: nat)

  const NoItems := Tally(0, 0, 0, 0, 0, 0, 0)

  /** The counters after one more item. */
  function Count1(t: Tally, it: Item): Tally {
    if it.archived then t.(archived := t.archived + 1)
    else if it.itemType == "ISSUE" then
      if it.state == "OPEN" then t.(issuesOpen := t.issuesOpen + 1) else t.(issuesClosed := t.issuesClosed + 1)
    else if it.itemType == "PULL_REQUEST" then
      if it.state == "MERGED" then t.(prsMerged := t.prsMerged + 1)
      else if it.state == "OPEN" then t.(prsOpen := t.prsOpen + 1)
      else t.(prsClosed := t.prsClosed + 1)
    else if it.itemType == "DRAFT_ISSUE" then t.(drafts := t.drafts + 1)
    else t
  }

  function TallyOf(items: seq<Item>): Tally {
    if items == [] then NoItems else Count1(TallyOf(items[..|items| - 1]), items[|items| - 1])
  }

  /** The option names of an item's `Status` values, empty names left out. */
  function StatusValues(fvs: seq<FieldValue>): seq<string> {
    if fvs == [] then []
    else
      var fv := fvs[|fvs| - 1];
      StatusValues(fvs[..|fvs| - 1]) + (if fv.fieldName == "Status" && fv.name != "" then [fv.name] else [])
  }

  /** The `Status` names counted over the non-archived items, in order. */
  function StatusKeys(items: seq<Item>): seq<string> {
    if items == [] then []
    else
      var it := items[|items| - 1];
      StatusKeys(items[..|items| - 1]) + (if it.archived then [] else StatusValues(it.fieldValues))
  }

  /** A zero for each option of the first field named `Status`, if it has
      options. */
  function InitialBuckets(fields: seq<Field>): map<string, int> {
    var i := IndexOf(Names(fields), "Status");
    if i < |fields| && fields[i].options.Some? then ZeroBuckets(OptionNames(fields[i].options.value)) else map[]
  }

  datatype Progress = Progress(
    totalItems: int, activeItems: int, archivedItems: nat,
    issuesOpen: nat, issuesClosed: nat, issuesTotal: nat,
    prsOpen: nat, prsMerged: nat, prsClosed: nat, prsTotal: nat,
    drafts: nat, byStatus: map<string, int>)

  /** The summary `_get_progress` returns, given the fields, the fetched
      items and the project's `totalCount`. */
  function ProgressOf(fields: seq<Field>, items: seq<Item>, totalCount: int): Progress {
    var t := TallyOf(items);
    Progress(totalCount, totalCount - t.archived, t.archived,
      t.issuesOpen, t.issuesClosed, t.issuesOpen + t.issuesClosed,
      t.prsOpen, t.prsMerged, t.prsClosed, t.prsOpen + t.prsMerged + t.prsClosed,
      t.drafts, Bump(InitialBuckets(fields), StatusKeys(items)))
  }

  /** The `for field in fields: if field.get("name") == name: ...; break`
      search of `_get_progress` and `update_item`. */
  method FindField(fields: seq<Field>, name: string) returns (i: nat)
    ensures i == IndexOf(Names(fields), name)
  {
    i := 0;
    while i < |fields| && fields[i].name != name
      invariant i <= |fields|
      invariant forall k :: 0 <= k < i ==> fields[k].name != name
    {
      i := i + 1;
    }
  }

  /** The same search over a single-select field's options. */
  method FindOption(opts: seq<FieldOption>, name: string) returns (j: nat)
    ensures j == IndexOf(OptionNames(opts), name)
  {
    j := 0;
    while j < |opts| && opts[j].name != name
      invariant j <= |opts|
      invariant forall k :: 0 <= k < j ==> opts[k].name != name
    {
      j := j + 1;
    }
  }

  /** The `status_counts[opt["name"]] = 0` loop over the options. */
  method ZeroCounts(opts: seq<FieldOption>) returns (counts: map<string, int>)
    ensures counts == ZeroBuckets(OptionNames(opts))
  {
    counts := map[];
    var j := 0;
    while j < |opts|
      invariant 0 <= j <= |opts|
      invariant counts == ZeroBuckets(OptionNames(opts[..j]))
    {
      ghost var names := OptionNames(opts[..j]);
      assert OptionNames(opts[..j + 1]) == names + [opts[j].name] by {
        assert opts[..j + 1][..j] == opts[..j];
      }
      assert ZeroBuckets(names + [opts[j].name]) == ZeroBuckets(names)[opts[j].name := 0] by {
        assert (names + [opts[j].name])[..|names|] == names;
      }
      counts := counts[opts[j].name := 0];
      j := j + 1;
    }
    assert opts[..j] == opts;
  }

  /** The loop over one item's field values, counting its `Status` names. */
  method CountStatus(counts0: map<string, int>, fvs: seq<FieldValue>) returns (counts: map<string, int>)
    ensures counts == Bump(counts0, StatusValues(fvs))
  {
    counts := counts0;
    var k := 0;
    while k < |fvs|
      invariant 0 <= k <= |fvs|
      invariant counts == Bump(counts0, StatusValues(fvs[..k]))
    {
      assert fvs[..k + 1][..k] == fvs[..k];
      var fv := fvs[k];
      var counted := if fv.fieldName == "Status" && fv.name != "" then [fv.name] else [];
      assert StatusValues(fvs[..k + 1]) == StatusValues(fvs[..k]) + counted;
      BumpAppend(counts0, StatusValues(fvs[..k]), counted);
      if fv.fieldName == "Status" && fv.name != "" {
        counts := counts[fv.name := (if fv.name in counts then counts[fv.name] else 0) + 1];
      }
      k := k + 1;
    }
    assert fvs[..k] == fvs;
  }

  /** `_get_progress`: one pass over the items, counters and the status
      histogram updated as it goes. */
  method GetProgress(fields: seq<Field>, items: seq<Item>, totalCount: int) returns (p: Progress)
    ensures p == ProgressOf(fields, items, totalCount)
    ensures p.issuesTotal == p.issuesOpen + p.issuesClosed
    ensures p.prsTotal == p.prsOpen + p.prsMerged + p.prsClosed
    ensures p.activeItems == p.totalItems - p.archivedItems
  {
    var counts := StatusBuckets(fields);
    assert StatusKeys(items[..0]) == [];
    var t := NoItems;
    var i := 0;
    while i < |items|
      invariant 0 <= i <= |items|
      invariant t == TallyOf(items[..i])
      invariant counts == Bump(InitialBuckets(fields), StatusKeys(items[..i]))
    {
      var item := items[i];
      ProgressStep(fields, items, i);
      if item.archived {
        t := t.(archived := t.archived + 1);
      } else {
        t := CountType(t, item);
        counts := CountStatus(counts, item.fieldValues);
      }
      i := i + 1;
    }
    assert items[..i] == items;
    p := Progress(totalCount, totalCount - t.archived, t.archived,
      t.issuesOpen, t.issuesClosed, t.issuesOpen + t.issuesClosed,
      t.prsOpen, t.prsMerged, t.prsClosed, t.prsOpen + t.prsMerged + t.prsClosed,
      t.drafts, counts);
  }

  /** The `status_counts` a `_get_progress` starts from: a zero for each
      option of the first field named `Status`. */
  method StatusBuckets(fields: seq<Field>) returns (counts: map<string, int>)
    ensures counts == InitialBuckets(fields)
  {
    var s := FindField(fields, "Status");
    counts := map[];
    if s < |fields| && fields[s].options.Some? {
      counts := ZeroCounts(fields[s].options.value);
    }
  }

  /** The counter a non-archived item raises, by content type and state. */
  method CountType(t0: Tally, item: Item) returns (t: Tally)
    requires !item.archived
    ensures t == Count1(t0, item)
  {
    t := t0;
    if item.itemType == "ISSUE" {
      if item.state == "OPEN" {
        t := t.(issuesOpen := t.issuesOpen + 1);
      } else {
        t := t.(issuesClosed := t.issuesClosed + 1);
      }
    } else if item.itemType == "PULL_REQUEST" {
      if item.state == "MERGED" {
        t := t.(prsMerged := t.prsMerged + 1);
      } else if item.state == "OPEN" {
        t := t.(prsOpen := t.prsOpen + 1);
      } else {
        t := t.(prsClosed := t.prsClosed + 1);
      }
    } else if item.itemType == "DRAFT_ISSUE" {
      t := t.(drafts := t.drafts + 1);
    }
  }

  /** One more item: its counter goes up, and unless it is archived its
      `Status` names are counted on top of the earlier ones. */
  lemma ProgressStep(fields: seq<Field>, items: seq<Item>, i: nat)
    requires i < |items|
    ensures TallyOf(items[..i + 1]) == Count1(TallyOf(items[..i]), items[i])
    ensures Bump(InitialBuckets(fields), StatusKeys(items[..i + 1])) ==
      if items[i].archived then Bump(InitialBuckets(fields), StatusKeys(items[..i]))
      else Bump(Bump(InitialBuckets(fields), StatusKeys(items[..i])), StatusValues(items[i].fieldValues))
  {
    assert items[..i + 1][..i] == items[..i];
    if items[i].archived {
      assert StatusKeys(items[..i + 1]) == StatusKeys(items[..i]) + [];
      assert StatusKeys(items[..i]) + [] == StatusKeys(items[..i]);
    } else {
      assert StatusKeys(items[..i + 1]) == StatusKeys(items[..i]) + StatusValues(items[i].fieldValues);
      BumpAppend(InitialBuckets(fields), StatusKeys(items[..i]), StatusValues(items[i].fieldValues));
    }
  }

  /** `by_status`: every declared option of the `Status` field and every
      counted name is a key, and each counts the non-archived `Status`
      values carrying that name; a name outside the options gets a key of
      its own. */
  lemma ByStatusCounts(fields: seq<Field>, items: seq<Item>, totalCount: int, name: string)
    ensures var m := ProgressOf(fields, items, totalCount).byStatus;
      (name in m <==> name in InitialBuckets(fields) || name in StatusKeys(items)) &&
      (name in m ==> m[name] == Occurrences(StatusKeys(items), name))
  {
    BumpCounts(InitialBuckets(fields), StatusKeys(items), name);
  }

  /** Only non-empty names of `Status` values are ever counted. */
  lemma {:induction false} StatusKeysNamed(items: seq<Item>)
    ensures forall k :: 0 <= k < |StatusKeys(items)| ==> StatusKeys(items)[k] != ""
  {
    if items != [] {
      StatusKeysNamed(items[..|items| - 1]);
      StatusValuesNamed(items[|items| - 1].fieldValues);
    }
  }

  lemma {:induction false} StatusValuesNamed(fvs: seq<FieldValue>)
    ensures forall k :: 0 <= k < |StatusValues(fvs)| ==> StatusValues(fvs)[k] != ""
  {
    if fvs != [] {
      StatusValuesNamed(fvs[..|fvs| - 1]);
    }
  }

  function Inc(t: Tally): Tally {
    t.(archived := t.archived + 1)
  }

  lemma Count1Archived(t: Tally, it: Item)
    ensures Count1(Inc(t), it) == Inc(Count1(t, it))
  {
  }

  /** An archived item, wherever it stands, adds one to `archived` and
      nothing to any other counter or to the status histogram. */
  lemma {:induction false} ArchivedCountsOnlyAsArchived(a: seq<Item>, x: Item, b: seq<Item>)
    requires x.archived
    ensures TallyOf(a + [x] + b) == Inc(TallyOf(a + b))
    ensures StatusKeys(a + [x] + b) == StatusKeys(a + b)
  {
    if b == [] {
      assert a + [x] + b == a + [x];
      assert a + b == a;
      TallySnoc(a, x);
      StatusKeysSnoc(a, x);
    } else {
      var init := b[..|b| - 1];
      var y := b[|b| - 1];
      ArchivedCountsOnlyAsArchived(a, x, init);
      assert a + [x] + b == (a + [x] + init) + [y];
      assert a + b == (a + init) + [y];
      TallySnoc(a + [x] + init, y);
      TallySnoc(a + init, y);
      StatusKeysSnoc(a + [x] + init, y);
      StatusKeysSnoc(a + init, y);
      Count1Archived(TallyOf(a + init), y);
    }
  }

  function Counted(t: Tally): nat {
    t.archived + t.issuesOpen + t.issuesClosed + t.prsOpen + t.prsMerged + t.prsClosed + t.drafts
  }

  predicate KnownType(it: Item) {
    it.itemType == "ISSUE" || it.itemType == "PULL_REQUEST" || it.itemType == "DRAFT_ISSUE"
  }

  /** Each item lands in at most one counter, and in exactly one when it is
      archived or of one of the three content types. */
  lemma {:induction false} TallyPartition(items: seq<Item>)
    ensures Counted(TallyOf(items)) <= |items|
    ensures (forall k :: 0 <= k < |items| ==> items[k].archived || KnownType(items[k])) ==>
      Counted(TallyOf(items)) == |items|
  {
    if items != [] {
      TallyPartition(items[..|items| - 1]);
    }
  }

  lemma TallySnoc(items: seq<Item>, it: Item)
    ensures TallyOf(items + [it]) == Count1(TallyOf(items), it)
  {
    assert (items + [it])[..|items|] == items;
  }

  lemma StatusKeysSnoc(items: seq<Item>, it: Item)
    ensures StatusKeys(items + [it]) == StatusKeys(items) + (if it.archived then [] else StatusValues(it.fieldValues))
  {
    assert (items + [it])[..|items|] == items;
  }

  /** Three open issues, one closed issue, two merged pull requests and one
      archived item: four issues, three of them open, two merged, and the
      archived one counted only as archived. */
  lemma ProgressExample(fields: seq<Field>, archivedItem: Item)
    requires archivedItem.archived
    ensures var openIssue := Item(false, "ISSUE", "OPEN", []);
      var closedIssue := Item(false, "ISSUE", "CLOSED", []);
      var merged := Item(false, "PULL_REQUEST", "MERGED", []);
      var p := ProgressOf(fields, [openIssue, openIssue, openIssue, closedIssue, merged, merged, archivedItem], 7);
      p.issuesTotal == 4 && p.issuesOpen == 3 && p.prsMerged == 2 && p.prsTotal == 2 &&
      p.archivedItems == 1 && p.activeItems == 6 && p.drafts == 0
  {
    var openIssue := Item(false, "ISSUE", "OPEN", []);
    var closedIssue := Item(false, "ISSUE", "CLOSED", []);
    var merged := Item(false, "PULL_REQUEST", "MERGED", []);
    var s1 := [openIssue];
    var s2 := s1 + [openIssue];
    var s3 := s2 + [openIssue];
    var s4 := s3 + [closedIssue];
    var s5 := s4 + [merged];
    var s6 := s5 + [merged];
    var items := s6 + [archivedItem];
    assert TallyOf(s1) == Tally(0, 1, 0, 0, 0, 0, 0) by {
      assert s1[..0] == [];
    }
    TallySnoc(s1, openIssue);
    TallySnoc(s2, openIssue);
    TallySnoc(s3, closedIssue);
    TallySnoc(s4, merged);
    TallySnoc(s5, merged);
    TallySnoc(s6, archivedItem);
    assert TallyOf(items) == Tally(1, 3, 1, 0, 2, 0, 0);
    assert items == [openIssue, openIssue, openIssue, closedIssue, merged, merged, archivedItem];
  }

  // ----------------------------------------------------------- update_item

  /** The value input of `updateProjectV2ItemFieldValue`, by field type. */
  datatype FieldUpdate = SingleSelect(optionId: string) | Number(number: real) | Date(date: string) | Text(text: string)

  /** An item-field update ready to send. */
  datatype UpdateRequest = UpdateRequest(itemId: string, fieldId: string, value: FieldUpdate)

  const RequiredError := "Error: item_id, field_name, and field_value are required"

  function FieldNotFound(name: string, fields: seq<Field>): string {
    "Field '" + name + "' not found. Available: " + Join(Names(fields), ", ")
  }

  function OptionNotFound(value: string, opts: seq<FieldOption>): string {
    "Option '" + value + "' not found. Available: " + Join(OptionNames(opts), ", ")
  }

  /** The text of the ValueError `float()` raises, as the tool reports it:
      the value appears as its `repr`. */
  function NumberError(value: string): string {
    "Error: could not convert string to float: " + Repr(value)
  }

  /** `j` is the first position of `name` in `names`: where a search loop
      with `break` stops. */
  predicate FirstNamed(names: seq<string>, name: string, j: int) {
    0 <= j < |names| && names[j] == name && forall k :: 0 <= k < j ==> names[k] != name
  }

  lemma FirstNamedIsIndexOf(names: seq<string>, name: string)
    ensures forall j | FirstNamed(names, name, j) :: j == IndexOf(names, name)
  {
  }

  /** The value sent for `value` on field `f`: the id of the first option of
      that name for a single-select field (an option without id counts as
      missing), `float(value)` for a number, the text as is otherwise.
      `toFloat` is Python's `float` on strings, `None` where it raises. */
  function FieldInput(f: Field, value: string, toFloat: string -> Option<real>): (r: Result<FieldUpdate>)
    ensures f.dataType == "SINGLE_SELECT" && value !in OptionNames(f.options.GetOr([])) ==>
      r == Err(OptionNotFound(value, f.options.GetOr([])))
    ensures r.Ok? && f.dataType == "SINGLE_SELECT" ==> r.value.SingleSelect? && r.value.optionId != ""
    ensures f.dataType == "SINGLE_SELECT" ==>
      var opts := f.options.GetOr([]);
      forall j | FirstNamed(OptionNames(opts), value, j) ::
        r == (if opts[j].id == "" then Err(OptionNotFound(value, opts)) else Ok(SingleSelect(opts[j].id)))
    ensures f.dataType == "NUMBER" ==> r == (if toFloat(value).Some? then Ok(Number(toFloat(value).value)) else Err(NumberError(value)))
    ensures f.dataType == "DATE" ==> r == Ok(Date(value))
    ensures f.dataType !in {"SINGLE_SELECT", "NUMBER", "DATE"} ==> r == Ok(Text(value))
  {
    if f.dataType == "SINGLE_SELECT" then
      var opts := f.options.GetOr([]);
      var j := IndexOf(OptionNames(opts), value);
      FirstNamedIsIndexOf(OptionNames(opts), value);
      if j == |opts| || opts[j].id == "" then Err(OptionNotFound(value, opts))
      else Ok(SingleSelect(opts[j].id))
    else if f.dataType == "NUMBER" then
      var x := toFloat(value);
      if x.None? then Err(NumberError(value)) else Ok(Number(x.value))
    else if f.dataType == "DATE" then Ok(Date(value))
    else Ok(Text(value))
  }

  /** The `update_item` action up to the remote mutation: the arguments it
      requires, the first field of that exact name (or the list of names),
      then the value for that field's type. */
  function ResolveUpdate(itemId: Option<string>, fieldName: Option<string>, fieldValue: Option<string>,
                         fields: seq<Field>, toFloat: string -> Option<real>): (r: Result<UpdateRequest>)
    ensures !Truthy(itemId) || !Truthy(fieldName) || fieldValue.None? ==> r == Err(RequiredError)
    ensures Truthy(itemId) && Truthy(fieldName) && fieldValue.Some? && fieldName.value !in Names(fields) ==>
      r == Err(FieldNotFound(fieldName.value, fields))
    ensures r.Ok? ==>
      (exists i :: 0 <= i < |fields| && fields[i].name == fieldName.value &&
        (forall k :: 0 <= k < i ==> fields[k].name != fieldName.value) &&
        FieldInput(fields[i], fieldValue.value, toFloat).Ok? &&
        r == Ok(UpdateRequest(itemId.value, fields[i].id, FieldInput(fields[i], fieldValue.value, toFloat).value)))
    ensures Truthy(itemId) && Truthy(fieldName) && fieldValue.Some? ==>
      forall i | FirstNamed(Names(fields), fieldName.value, i) ::
        var input := FieldInput(fields[i], fieldValue.value, toFloat);
        r == (if input.Err? then Err(input.msg) else Ok(UpdateRequest(itemId.value, fields[i].id, input.value)))
  {
    if !Truthy(itemId) || !Truthy(fieldName) || fieldValue.None? then Err(RequiredError)
    else
      var i := IndexOf(Names(fields), fieldName.value);
      FirstNamedIsIndexOf(Names(fields), fieldName.value);
      if i == |fields| then Err(FieldNotFound(fieldName.value, fields))
      else
        var input := FieldInput(fields[i], fieldValue.value, toFloat);
        if input.Err? then Err(input.msg) else Ok(UpdateRequest(itemId.value, fields[i].id, input.value))
  }

  /** `update_item` with its two search loops. */
  method UpdateItem(itemId: Option<string>, fieldName: Option<string>, fieldValue: Option<string>,
                    fields: seq<Field>, toFloat: string -> Option<real>) returns (r: Result<UpdateRequest>)
    ensures r == ResolveUpdate(itemId, fieldName, fieldValue, fields, toFloat)
  {
    if !Truthy(itemId) || !Truthy(fieldName) || fieldValue.None? {
      return Err(RequiredError);
    }
    var name, value := fieldName.value, fieldValue.value;
    var i := FindField(fields, name);
    if i == |fields| {
      return Err(FieldNotFound(name, fields));
    }
    var f := fields[i];
    if f.dataType == "SINGLE_SELECT" {
      var opts := f.options.GetOr([]);
      var j := FindOption(opts, value);
      if j == |opts| || opts[j].id == "" {
        return Err(OptionNotFound(value, opts));
      }
      r := Ok(UpdateRequest(itemId.value, f.id, SingleSelect(opts[j].id)));
    } else if f.dataType == "NUMBER" {
      var x := toFloat(value);
      if x.None? {
        return Err(NumberError(value));
      }
      r := Ok(UpdateRequest(itemId.value, f.id, Number(x.value)));
    } else if f.dataType == "DATE" {
      r := Ok(UpdateRequest(itemId.value, f.id, Date(value)));
    } else {
      r := Ok(UpdateRequest(itemId.value, f.id, Text(value)));
    }
  }

  // -------------------------------------------------- _update_item_field

  /** The value types `_update_item_field` accepts, each also the key of the
      GraphQL value input it fills. */
  const ValueTypes: seq<string> := ["text", "number", "date", "singleSelectOptionId", "iterationId"]

  /** The input type of each key of GitHub's `ProjectV2FieldValue`. */
  const SchemaInputType: map<string, string> :=
    map["text" := "String", "number" := "Float", "date" := "Date",
        "singleSelectOptionId" := "String", "iterationId" := "String"]

  /** The GraphQL type the source declares for `$value`: the value type
      capitalized, except `singleSelectOptionId`, declared `String`. */
  function DeclaredTypeAsWritten(valueType: string): string {
    if valueType != "singleSelectOptionId" then AsciiCapitalize(valueType) else "String"
  }

  /** As written, `$value` is declared `Text!`, `Number!` or
      `Iterationid!` (eleven letters where the schema has `String`), types
      the schema does not have. */
  lemma DeclaredTypeMismatch()
    ensures DeclaredTypeAsWritten("text") == "Text" != SchemaInputType["text"]
    ensures DeclaredTypeAsWritten("number") == "Number" != SchemaInputType["number"]
    ensures |DeclaredTypeAsWritten("iterationId")| == 11 != |SchemaInputType["iterationId"]|
  {
    CapitalizeLower("text", 'T', "ext");
    CapitalizeLower("number", 'N', "umber");
  }

  /** Only `date` and `singleSelectOptionId` get, as written, the type the
      schema expects. */
  lemma DeclaredTypeAgrees()
    ensures DeclaredTypeAsWritten("date") == SchemaInputType["date"]
    ensures DeclaredTypeAsWritten("singleSelectOptionId") == SchemaInputType["singleSelectOptionId"]
  {
    CapitalizeLower("date", 'D', "ate");
  }

  /** Capitalizing a lower-case word upper-cases its first letter only. */
  lemma CapitalizeLower(word: string, first: char, rest: string)
    requires |word| >= 1 && 'a' <= word[0] <= 'z' && first == (word[0] as int - 32) as char
    requires rest == word[1..] && forall k :: 0 <= k < |rest| ==> !('A' <= rest[k] <= 'Z')
    ensures AsciiCapitalize(word) == [first] + rest
  {
    AsciiLowerKeeps(rest);
  }

  /** The declared type as the schema has it. */
  function DeclaredType(valueType: string): string {
    if valueType == "number" then "Float" else if valueType == "date" then "Date" else "String"
  }

  /** A value-update mutation: the declared type of `$value` and the key of
      the value input. */
  datatype ValueMutation = ValueMutation(declaredType: string, inputKey: string)

  function ValueTypeError(valueType: string): string {
    "Invalid value_type: " + valueType +
    ". Must be one of: ['text', 'number', 'date', 'singleSelectOptionId', 'iterationId']"
  }

  /** `_update_item_field` up to the request: an unknown value type is
      refused before anything is sent; a known one declares `$value` with
      the schema's type and fills the input key of the same name. */
  function ValueMutationFor(valueType: string): (r: Result<ValueMutation>)
    ensures r.Ok? <==> valueType in ValueTypes
    ensures r.Err? ==> r.msg == ValueTypeError(valueType)
    ensures r.Ok? ==> r.value.inputKey == valueType && valueType in SchemaInputType
    ensures r.Ok? ==> r.value.declaredType == SchemaInputType[valueType]
  {
    if valueType in ValueTypes then Ok(ValueMutation(DeclaredType(valueType), valueType))
    else Err(ValueTypeError(valueType))
  }

  /** The value type `update_item` passes for each kind of value. */
  function ValueTypeOf(u: FieldUpdate): string {
    match u
    case SingleSelect(_) => "singleSelectOptionId"
    case Number(_) => "number"
    case Date(_) => "date"
    case Text(_) => "text"
  }

  /** Every update `update_item` resolves passes the value-type check. */
  lemma ResolvedUpdatesAccepted(u: FieldUpdate)
    ensures ValueMutationFor(ValueTypeOf(u)).Ok?
  {
  }

  // ------------------------------------------------------ _update_project

  datatype GqlValue = Str(s: string) | Flag(b: bool)

  /** The variables of `_update_project`: `projectId` always, and each
      optional setting exactly when it is given (an empty title is given). */
  method UpdateProjectVariables(projectId: string, title: Option<string>, shortDescription: Option<string>,
                                readme: Option<string>, public: Option<bool>, closed: Option<bool>)
    returns (vars: map<string, GqlValue>)
    ensures vars.Keys == {"projectId"} + (if title.Some? then {"title"} else {}) +
      (if shortDescription.Some? then {"shortDescription"} else {}) + (if readme.Some? then {"readme"} else {}) +
      (if public.Some? then {"public"} else {}) + (if closed.Some? then {"closed"} else {})
    ensures vars["projectId"] == Str(projectId)
    ensures title.Some? ==> vars["title"] == Str(title.value)
    ensures shortDescription.Some? ==> vars["shortDescription"] == Str(shortDescription.value)
    ensures readme.Some? ==> vars["readme"] == Str(readme.value)
    ensures public.Some? ==> vars["public"] == Flag(public.value)
    ensures closed.Some? ==> vars["closed"] == Flag(closed.value)
  {
    vars := map["projectId" := Str(projectId)];
    if title.Some? {
      vars := vars["title" := Str(title.value)];
    }
    if shortDescription.Some? {
      vars := vars["shortDescription" := Str(shortDescription.value)];
    }
    if readme.Some? {
      vars := vars["readme" := Str(readme.value)];
    }
    if public.Some? {
      vars := vars["public" := Flag(public.value)];
    }
    if closed.Some? {
      vars := vars["closed" := Flag(closed.value)];
    }
  }

  // -------------------------------------------------------- create_field

  datatype OptionInput = OptionInput(name: string, color: string)

  /** The two mutations `_create_field` can send. */
  datatype FieldMutation =
    | CreateSelectField(name: string, dataType: string, options: seq<OptionInput>)
    | CreatePlainField(name: string, dataType: string)

  function OptionInputs(names: seq<string>): (r: seq<OptionInput>)
    ensures |r| == |names| && forall k :: 0 <= k < |names| ==> r[k] == OptionInput(names[k], "GRAY")
  {
    if names == [] then [] else OptionInputs(names[..|names| - 1]) + [OptionInput(names[|names| - 1], "GRAY")]
  }

  /** `_create_field`: the select-field mutation, with every option in
      order and coloured gray, only for a `SINGLE_SELECT` field with a
      non-empty option list; the plain mutation otherwise. */
  function CreateFieldMutation(name: string, dataType: string, options: Option<seq<string>>): (r: FieldMutation)
    ensures r.CreateSelectField? <==> dataType == "SINGLE_SELECT" && options.Some? && options.value != []
    ensures r.name == name && r.dataType == dataType
    ensures r.CreateSelectField? ==> |r.options| == |options.value|
    ensures r.CreateSelectField? ==>
      (forall k :: 0 <= k < |r.options| ==> r.options[k].name == options.value[k] && r.options[k].color == "GRAY")
  {
    if dataType == "SINGLE_SELECT" && options.Some? && options.value != [] then
      CreateSelectField(name, dataType, OptionInputs(options.value))
    else CreatePlainField(name, dataType)
  }

  /** The `create_field` action: both the name and the type are required;
      the options are passed on to `_create_field`. */
  function CreateField(fieldName: Option<string>, fieldType: Option<string>, options: Option<seq<string>>): (r: Result<FieldMutation>)
    ensures r.Ok? <==> Truthy(fieldName) && Truthy(fieldType)
    ensures r.Err? ==> r.msg == "Error: field_name and field_type are required"
    ensures r.Ok? ==> r.value.name == fieldName.value && r.value.dataType == fieldType.value
    ensures r.Ok? ==> r.value == CreateFieldMutation(fieldName.value, fieldType.value, options)
  {
    if !Truthy(fieldName) || !Truthy(fieldType) then Err("Error: field_name and field_type are required")
    else Ok(CreateFieldMutation(fieldName.value, fieldType.value, options))
  }

  // ---------------------------------------------------------- bulk loops

  /** The ids whose call succeeded, with what it returned, in order. */
  function Succeeded<T>(ids: seq<string>, outcomes: seq<Result<T>>): seq<(string, T)>
    requires |outcomes| == |ids|
  {
    if ids == [] then []
    else
      var n := |ids| - 1;
      Succeeded(ids[..n], outcomes[..n]) + (if outcomes[n].Ok? then [(ids[n], outcomes[n].value)] else [])
  }

  /** The ids whose call raised, with the error text, in order. */
  function Failed<T>(ids: seq<string>, outcomes: seq<Result<T>>): seq<(string, string)>
    requires |outcomes| == |ids|
  {
    if ids == [] then []
    else
      var n := |ids| - 1;
      Failed(ids[..n], outcomes[..n]) + (if outcomes[n].Err? then [(ids[n], outcomes[n].msg)] else [])
  }

  function FirstOf<T>(ps: seq<(string, T)>): (r: seq<string>)
    ensures |r| == |ps| && forall k :: 0 <= k < |ps| ==> r[k] == ps[k].0
  {
    if ps == [] then [] else FirstOf(ps[..|ps| - 1]) + [ps[|ps| - 1].0]
  }

  /** The best-effort loop of the bulk operations: every id is tried, in
      order, whatever happened to the ones before it. `outcomes[k]` is what
      the remote call for `ids[k]` returned or raised. */
  method BestEffort<T>(ids: seq<string>, outcomes: seq<Result<T>>) returns (success: seq<(string, T)>, failed: seq<(string, string)>)
    requires |outcomes| == |ids|
    ensures success == Succeeded(ids, outcomes) && failed == Failed(ids, outcomes)
  {
    success, failed := [], [];
    var i := 0;
    while i < |ids|
      invariant 0 <= i <= |ids|
      invariant success == Succeeded(ids[..i], outcomes[..i]) && failed == Failed(ids[..i], outcomes[..i])
    {
      assert ids[..i + 1][..i] == ids[..i] && outcomes[..i + 1][..i] == outcomes[..i];
      if outcomes[i].Ok? {
        success := success + [(ids[i], outcomes[i].value)];
      } else {
        failed := failed + [(ids[i], outcomes[i].msg)];
      }
      i := i + 1;
    }
    assert ids[..i] == ids && outcomes[..i] == outcomes;
  }

  lemma {:induction false} FirstOfAppend<T>(a: seq<(string, T)>, b: seq<(string, T)>)
    ensures FirstOf(a + b) == FirstOf(a) + FirstOf(b)
  {
    if b == [] {
      assert a + b == a;
    } else {
      assert (a + b)[..|a + b| - 1] == a + b[..|b| - 1];
      FirstOfAppend(a, b[..|b| - 1]);
    }
  }

  /** Each id lands in exactly one of the two lists. */
  lemma {:induction false} BulkPartition<T>(ids: seq<string>, outcomes: seq<Result<T>>)
    requires |outcomes| == |ids|
    ensures |Succeeded(ids, outcomes)| + |Failed(ids, outcomes)| == |ids|
    ensures multiset(FirstOf(Succeeded(ids, outcomes))) + multiset(FirstOf(Failed(ids, outcomes))) == multiset(ids)
  {
    if ids != [] {
      var n := |ids| - 1;
      BulkPartition(ids[..n], outcomes[..n]);
      SucceededStep(ids, outcomes);
      FailedStep(ids, outcomes);
      MultisetLast(ids);
    }
  }

  lemma MultisetLast(ids: seq<string>)
    requires ids != []
    ensures multiset(ids) == multiset(ids[..|ids| - 1]) + multiset{ids[|ids| - 1]}
  {
    assert ids == ids[..|ids| - 1] + [ids[|ids| - 1]];
  }

  lemma SucceededStep<T>(ids: seq<string>, outcomes: seq<Result<T>>)
    requires |outcomes| == |ids| > 0
    ensures var n := |ids| - 1;
      multiset(FirstOf(Succeeded(ids, outcomes))) ==
      multiset(FirstOf(Succeeded(ids[..n], outcomes[..n]))) + (if outcomes[n].Ok? then multiset{ids[n]} else multiset{})
  {
    var n := |ids| - 1;
    FirstOfAppend(Succeeded(ids[..n], outcomes[..n]), if outcomes[n].Ok? then [(ids[n], outcomes[n].value)] else []);
  }

  lemma FailedStep<T>(ids: seq<string>, outcomes: seq<Result<T>>)
    requires |outcomes| == |ids| > 0
    ensures var n := |ids| - 1;
      multiset(FirstOf(Failed(ids, outcomes))) ==
      multiset(FirstOf(Failed(ids[..n], outcomes[..n]))) + (if outcomes[n].Err? then multiset{ids[n]} else multiset{})
  {
    var n := |ids| - 1;
    FirstOfAppend(Failed(ids[..n], outcomes[..n]), if outcomes[n].Err? then [(ids[n], outcomes[n].msg)] else []);
  }

  /** Every success and every failure is reported, with what the call for
      that id returned or raised. */
  lemma {:induction false} BulkReportsAll<T>(ids: seq<string>, outcomes: seq<Result<T>>)
    requires |outcomes| == |ids|
    ensures forall k :: 0 <= k < |ids| && outcomes[k].Ok? ==> (ids[k], outcomes[k].value) in Succeeded(ids, outcomes)
    ensures forall k :: 0 <= k < |ids| && outcomes[k].Err? ==> (ids[k], outcomes[k].msg) in Failed(ids, outcomes)
  {
    if ids != [] {
      var n := |ids| - 1;
      BulkReportsAll(ids[..n], outcomes[..n]);
      forall k | 0 <= k < n
        ensures ids[..n][k] == ids[k] && outcomes[..n][k] == outcomes[k]
      {
      }
    }
  }

  /** `_bulk_add_items`: successes carry the content id and the added item,
      failures the content id and the error. */
  method BulkAddItems<T>(contentIds: seq<string>, outcomes: seq<Result<T>>)
    returns (success: seq<(string, T)>, failed: seq<(string, string)>)
    requires |outcomes| == |contentIds|
    ensures |success| + |failed| == |contentIds|
    ensures success == Succeeded(contentIds, outcomes) && failed == Failed(contentIds, outcomes)
  {
    success, failed := BestEffort(contentIds, outcomes);
    BulkPartition(contentIds, outcomes);
  }

  function Reported(fs: seq<(string, string)>): (r: seq<string>)
    ensures |r| == |fs| && forall k :: 0 <= k < |fs| ==> r[k] == fs[k].0 + ": " + fs[k].1
  {
    if fs == [] then [] else Reported(fs[..|fs| - 1]) + [fs[|fs| - 1].0 + ": " + fs[|fs| - 1].1]
  }

  /** `_bulk_update_status` and `_bulk_archive`: successes are the item ids,
      failures `"<id>: <error>"`. */
  method BulkItems(itemIds: seq<string>, outcomes: seq<Result<()>>) returns (success: seq<string>, failed: seq<string>)
    requires |outcomes| == |itemIds|
    ensures |success| + |failed| == |itemIds|
    ensures success == FirstOf(Succeeded(itemIds, outcomes))
    ensures failed == Reported(Failed(itemIds, outcomes))
  {
    var ok, bad := BestEffort(itemIds, outcomes);
    BulkPartition(itemIds, outcomes);
    success := FirstOf(ok);
    failed := Reported(bad);
  }
}
