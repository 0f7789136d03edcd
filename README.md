# strands-coder core, modelled in Dafny

strands-coder runs an autonomous GitHub agent from a workflow. This
project models the parts of it that make decisions, leaving out the
transport around them:

- **Scheduler tool.** Five-field cron expressions, the `run_at` window and
  the `check`, `add`, `remove`, `enable`, `disable` and `get` actions. Each
  action works on the job store kept in a repository variable.
  - Modules: `Calendar`, `IsoTime`, `Cron`, `Scheduler`.
  - The store is the class `Scheduler.JobStore`. Its jobs map and its
    insertion order are fields that the actions update in place.
- **Projects tool.** How repositories are parsed, the `get_progress` tally,
  how `update_item` resolves a field value, the variables of
  `update_project`, the `create_field` mutation and the best-effort bulk
  loops.
  - Modules: `Histogram`, `Board`, `Projects`.
- **Agent runner.**
  - The `load_tools` configuration language and its import loop.
  - The issue id used to link traces.
  - The session id and the trace tags.
  - How the prompt is chosen.
  - Modules: `GithubEvent`, `AgentRunner`.
- **Prompt context.** The message that triggered the workflow, the status
  counts of the project context and the order in which the system prompt
  is assembled.
  - Module: `PromptContext`.

The shared modules are `Wrappers` (`Option`, `Result`), `Text` and `PyRepr` (Python's `repr` of a string). `Text`
holds Python's `strip`, `split`, `join`, `replace`, `lower`, `capitalize`,
`int()` and `str()` on the inputs the core uses.

Every remote call becomes a parameter. These are the reads and writes of
the repository variable, GraphQL requests, `json.loads`, `__import__` and
`float()`. Each read of the schedule document is a `loaded` flag. Each
write is a `SaveOutcome`: stored, refused with the HTTP message, or raised
by `requests` with the exception's text. Tool imports are a predicate
`resolves`. Decoding the GitHub context is a function `decode`. The clock
is a `now` argument: a calendar time plus the microseconds past its
second, as `datetime.utcnow()` gives.

Loops in the source are loops here, each proved against a specification
function:
- the job loop of `check`;
- the search loops of `update_item`;
- the counting loops of `get_progress` and `fetch_project_context`;
- the group and tool loops of `load_tools`;
- the bulk loops;
- the incremental `variables` dict of `update_project`;
- the step-by-step growth of the system prompt.

A job is due from one minute before `run_at` until sixty
minutes after it (`-1 <= diff_minutes <= 60`, with `diff = now - run_at`).
So a job an hour in the future is not due, and one two minutes in the past
is due. The comparison sees the microseconds of `now`: a job exactly an
hour past is due only at the start of that second.
`Scheduler.RunAtWindowEnds` states both ends.

## Model

| member | source | states |
|---|---|---|
| Cron.ParseCron | strands_coder/tools/scheduler.py:163-179 | accepts exactly the expressions with five whitespace-separated fields; otherwise gives the ValueError's message naming the expression |
| Cron.ParseUnparse | strands_coder/tools/scheduler.py:169-179 | five fields written one space apart parse back to the same five fields |
| Cron.StepField | strands_coder/tools/scheduler.py:188-190 | `*/N` raises exactly when N is not an integer or is zero |
| Cron.StepMatches | strands_coder/tools/scheduler.py:188-190 | `*/N` with N > 0 matches exactly the multiples of N |
| Cron.StepZeroRaises | strands_coder/tools/scheduler.py:188-190 | `*/0` raises (ZeroDivisionError) |
| Cron.StarMatches | strands_coder/tools/scheduler.py:184-185 | `*` matches every value |
| Cron.RangeMatches | strands_coder/tools/scheduler.py:193-195 | `A-B` matches exactly the values from A to B, both included |
| Cron.RangeStepMatches | strands_coder/tools/scheduler.py:198-203 | `A-B/N` matches exactly the values in A..B that lie a multiple of N past A |
| Cron.ListMatches | strands_coder/tools/scheduler.py:206-207 | `N1,N2,...` matches exactly the listed values |
| Cron.ValueMatches | strands_coder/tools/scheduler.py:210 | a bare number matches only itself |
| Cron.NegativeRaises | strands_coder/tools/scheduler.py:193-195 | `-N` is taken as a range with an empty start, and raises |
| Cron.RangeBeforeList | strands_coder/tools/scheduler.py:193-207 | the range branch is tried before the list branch, so `1-3,5` matches nothing |
| Cron.ListField | strands_coder/tools/scheduler.py:206-207 | a list raises exactly when one of its items is not an integer |
| Cron.ValueField | strands_coder/tools/scheduler.py:210 | a plain field raises exactly when it is not an integer |
| Cron.InRange | strands_coder/tools/scheduler.py:195 | the chained comparison holds only when both ends are integers and the value lies between them |
| Cron.CronWeekday | strands_coder/tools/scheduler.py:228-231 | cron's weekday is in 0..6, and 0 is exactly Python's Sunday (6) |
| Cron.CronMatches | strands_coder/tools/scheduler.py:213-238 | a match implies a five-field expression; any exception counts as no match |
| Cron.CronMatchesFields | strands_coder/tools/scheduler.py:213-238 | a five-field expression matches exactly when all five fields match: minute, hour, day, month and cron weekday |
| Cron.WeekdaysAtNine | strands_coder/tools/scheduler.py:213-238 | `0 9 * * 1-5` matches 09:00 on Wednesday 2024-01-17 but not on Saturday 2024-01-20 |
| Calendar.Weekday | strands_coder/tools/scheduler.py:230 | `weekday()` lies in 0..6 |
| Calendar.NextDayNumber | strands_coder/tools/scheduler.py:268 | the day count behind timestamp subtraction grows by exactly one from each day to the next |
| Calendar.MarchYearLength | strands_coder/tools/scheduler.py:268 | a March-to-February year has 366 days exactly when its February has 29 |
| Calendar.EpochIsDayZero | strands_coder/tools/scheduler.py:268 | 1970-01-01 is day 0 of the count |
| IsoTime.ParseIsoNaive | strands_coder/tools/scheduler.py:257-264 | a parsed timestamp always has in-range fields |
| IsoTime.ParseIsoFormat | strands_coder/tools/scheduler.py:257-264 | a timestamp written as `YYYY-MM-DDTHH:MM:SS` reads back as the same time |
| IsoTime.ParseZulu | strands_coder/tools/scheduler.py:257 | a trailing `Z` becomes `+00:00` and then is dropped: same wall-clock time |
| IsoTime.ParseWithOffset | strands_coder/tools/scheduler.py:258-264 | any valid `+HH:MM` or `-HH:MM` offset is dropped, not applied |
| Scheduler.RunAtWindow | strands_coder/tools/scheduler.py:241-273 | `run_at` is due exactly when `now - run_at`, counted with `now`'s microseconds, lies between -60 and 3600 seconds: at least -60 whole seconds, and under 3600 or exactly 3600 with no microseconds |
| Scheduler.RunAtWindowEnds | strands_coder/tools/scheduler.py:266-271 | an hour or two minutes ahead is not due; one minute ahead is due; exactly an hour past is due only with zero microseconds; 61 minutes past is not due |
| Scheduler.Drop | strands_coder/tools/scheduler.py:517-519 | keeps exactly the ids that are outside the deleted set |
| Scheduler.CheckJob | strands_coder/tools/scheduler.py:483-499 | a job runs exactly when it is enabled and its cron or `run_at` matches; it is marked for removal exactly when it also is `once` and matched through `run_at` |
| Scheduler.CheckStep | strands_coder/tools/scheduler.py:482-513 | visiting one more job appends at most its own entry and its own id |
| Scheduler.DueIdsExactly | strands_coder/tools/scheduler.py:482-513 | `check` reports exactly the enabled jobs whose cron or `run_at` matches |
| Scheduler.RetiredExactly | strands_coder/tools/scheduler.py:493-498 | the deleted jobs are exactly the due `once` jobs that matched through `run_at`, and each is also reported |
| Scheduler.CheckAgainDeletesNothing | strands_coder/tools/scheduler.py:474-520 | a second `check` at the same time, on the store the first one left, deletes nothing |
| Scheduler.CheckAgainSameJobs | strands_coder/tools/scheduler.py:474-520 | the second `check` reports the first one's jobs minus the deleted ones, in the same order |
| Scheduler.CheckTwice | strands_coder/tools/scheduler.py:474-520 | both of the above, for the set the first `check` deletes |
| Scheduler.DisableDropsEntry | strands_coder/tools/scheduler.py:483-484 | disabling one job removes exactly its entry from the due list |
| Scheduler.CheckAddArgs | strands_coder/tools/scheduler.py:556-596 | `add` passes validation exactly when it has a job id, a schedule, a prompt, a cron that parses and a `run_at` that parses; the job-id error comes first |
| Scheduler.IfTruthy | strands_coder/tools/scheduler.py:617-626 | an optional key is written exactly when its value is truthy |
| Scheduler.NewJobBehaves | strands_coder/tools/scheduler.py:604-615 | an accepted `add` writes an enabled, well-formed entry that is due exactly when its cron or `run_at` matches, and is later deleted exactly when it is `once` with a matching `run_at` |
| Scheduler.RecurringJobStays | strands_coder/tools/scheduler.py:604-615 | a cron-only job runs whenever its cron matches and is never deleted |
| Scheduler.JobStore.Check | strands_coder/tools/scheduler.py:474-552 | reports the due list and the deleted ids, and writes the deletions only when there are some; a write that raises gives only `Error: <e>` and no list, a refused write is ignored; a store that was not written is unchanged; a failed read gives empty lists |
| Scheduler.JobStore.Add | strands_coder/tools/scheduler.py:555-646 | validation errors in order, then `Failed to save: <message>` for a refused write or `Error: <e>` for one that raises; on success, puts the new entry (a new id goes last, an existing id keeps its place) and says whether it was an update; after a failed read, the store holds only the new job |
| Scheduler.JobStore.Remove | strands_coder/tools/scheduler.py:649-677 | deletes exactly that job when it exists and the write stores; otherwise the missing-id, not-found, `Failed to save:` or `Error: <e>` text and an unchanged store |
| Scheduler.JobStore.SetEnabled | strands_coder/tools/scheduler.py:680-709 | sets only that job's `enabled`, to whether the action was `enable`, when the write stores; order and all other jobs are unchanged; the missing-id, not-found, `Failed to save:` or `Error: <e>` text otherwise |
| Scheduler.JobStore.Get | strands_coder/tools/scheduler.py:712-755 | returns the stored job exactly when the id is given and present; otherwise the matching error |
| Projects.ParseRepository | strands_coder/tools/projects.py:162-174 | succeeds exactly when there is one `/`; owner and name contain no `/` and rejoin to the input; otherwise the error names the input |
| Projects.RepositoryRoundTrip | strands_coder/tools/projects.py:162-174 | `owner/name` parses back to `(owner, name)` |
| Projects.FindField | strands_coder/tools/projects.py:1426-1430 | the search loop finds the first field with the given name, or reports none |
| Projects.FindOption | strands_coder/tools/projects.py:1449-1453 | the search loop finds the first option with the given name, or reports none |
| Projects.ZeroCounts | strands_coder/tools/projects.py:944-947 | every option name of the Status field starts at 0, and there are no other keys |
| Projects.CountStatus | strands_coder/tools/projects.py:975-977 | each named Status value of an item bumps its own counter once |
| Projects.StatusBuckets | strands_coder/tools/projects.py:931-947 | the counters start with a zero for each option of the first field named Status, and nothing else |
| Projects.CountType | strands_coder/tools/projects.py:954-972 | a non-archived item raises the counter of its type and state, and no other |
| Projects.ProgressStep | strands_coder/tools/projects.py:949-977 | one more item raises its own counter and, unless archived, adds its Status names to the histogram |
| Projects.GetProgress | strands_coder/tools/projects.py:923-1008 | the loop computes the progress summary; issue and PR totals are the sums of their states; active = total - archived |
| Projects.ByStatusCounts | strands_coder/tools/projects.py:944-977 | each status counter is the number of Status values naming it; keys are the option names plus the names seen |
| Projects.StatusKeysNamed | strands_coder/tools/projects.py:976 | only non-empty names are counted |
| Projects.ArchivedCountsOnlyAsArchived | strands_coder/tools/projects.py:950-952 | an archived item raises only the total and archived counts, and touches no status |
| Projects.TallyPartition | strands_coder/tools/projects.py:949-972 | each item is counted at most once among archived, draft, issue and PR; exactly once when its type is known |
| Projects.ProgressExample | strands_coder/tools/projects.py:923-1008 | 3 open issues, 1 closed issue, 2 merged PRs and 1 archived item give 4 issues, 2 PRs and 6 active items |
| Projects.FieldInput | strands_coder/tools/projects.py:1447-1481 | for a single-select field, the first option with that name gives its id, or the option-not-found error when its id is empty; a value no option has gives that error too; NUMBER sends `float(value)` or its ValueError text; DATE and text are passed as they are |
| PyRepr.Repr | strands_coder/tools/projects.py:1474 | the value in `float()`'s error is quoted with `"` exactly when it holds `'` and no `"`, else with `'` |
| PyRepr.ReprOfPlain | strands_coder/tools/projects.py:1474 | a value without quotes, backslashes or ASCII controls appears between single quotes unchanged |
| PyRepr.ReprBodyAppend | strands_coder/tools/projects.py:1474 | `repr` renders character by character: the body of a concatenation is the concatenation of the bodies |
| PyRepr.ReprQuoteEscaped | strands_coder/tools/projects.py:1474 | each occurrence of the chosen quote becomes a backslash and the quote in place, with the text around it rendered on its own |
| Projects.ResolveUpdate | strands_coder/tools/projects.py:1410-1491 | the missing-argument error, then field-not-found; when a field has that name, the first such field decides: its value error is passed through, otherwise the update carries that field's id and value |
| Projects.UpdateItem | strands_coder/tools/projects.py:1410-1491 | the search loops with `break` compute `ResolveUpdate` |
| Projects.DeclaredTypeMismatch | strands_coder/tools/projects.py:701 | as written, `text`, `number` and `iterationId` are declared as types the schema does not use |
| Projects.DeclaredTypeAgrees | strands_coder/tools/projects.py:701 | as written, `date` and `singleSelectOptionId` agree with the schema |
| Projects.ValueMutationFor | strands_coder/tools/projects.py:675-726 | accepts exactly the five value types; the input key is the value type; the declared type is the schema's (corrected) |
| Projects.ResolvedUpdatesAccepted | strands_coder/tools/projects.py:1468-1481 | every update that `update_item` resolves uses a value type the mutation accepts |
| Projects.UpdateProjectVariables | strands_coder/tools/projects.py:450-460 | the variables hold `projectId` plus exactly the given optional fields, each with its value |
| Projects.OptionInputs | strands_coder/tools/projects.py:785 | one option input per name, in order, each coloured GRAY |
| Projects.CreateFieldMutation | strands_coder/tools/projects.py:766-811 | options are sent exactly for SINGLE_SELECT with a non-empty option list; name and type are kept |
| Projects.CreateField | strands_coder/tools/projects.py:1493-1521 | needs both a field name and a field type, else the fixed error; when both are given it sends `_create_field`'s mutation with the requested options, so the options go out exactly for a SINGLE_SELECT field with a non-empty list |
| Projects.BestEffort | strands_coder/tools/projects.py:1016-1059 | the bulk loop puts each outcome, in order, in the success or the failed list |
| Projects.BulkPartition | strands_coder/tools/projects.py:1016-1059 | every id is reported exactly once: successes plus failures are the input ids as a multiset |
| Projects.BulkReportsAll | strands_coder/tools/projects.py:1016-1059 | each success is reported with its result and each failure with its error |
| Projects.BulkAddItems | strands_coder/tools/projects.py:1016-1027 | each content id is reported as a success with its item or as a failure with its error |
| Projects.BulkItems | strands_coder/tools/projects.py:1030-1059 | successes are the ids; failures are `id: error`; the two together have one entry per id |
| AgentRunner.ToolNames | strands_coder/agent_runner.py:86 | tool names are non-empty and hold no comma |
| AgentRunner.ImportGroup | strands_coder/agent_runner.py:88-95 | the inner loop imports the group's tools in order |
| AgentRunner.LoadTools | strands_coder/agent_runner.py:58-98 | the two loops compute the import of the parsed configuration |
| AgentRunner.LoadGroups | strands_coder/agent_runner.py:71-95 | the loop over the `;`-groups imports them in order; the first error ends it |
| AgentRunner.LoadGroup | strands_coder/agent_runner.py:72-95 | a blank group, or one without `:`, imports nothing; otherwise its tools are imported in order |
| AgentRunner.Kept | strands_coder/agent_runner.py:88-95 | only tools that resolve are kept, in configuration order |
| AgentRunner.ImportAllKept | strands_coder/agent_runner.py:88-95 | importing keeps exactly the tools that resolve, unless a package name is empty; that raises an uncaught error |
| AgentRunner.ParsedPairsShape | strands_coder/agent_runner.py:69-86 | every parsed tool has a non-empty name with no `,` or `;`; its package has no `:` or `;` |
| AgentRunner.GroupRoundTrip | strands_coder/agent_runner.py:77-86 | `package:t1,t2` parses back to the package paired with each tool |
| AgentRunner.ConfigRoundTrip | strands_coder/agent_runner.py:58-86 | a configuration written from well-formed groups parses back to their tools, group by group |
| AgentRunner.EmptyConfig | strands_coder/agent_runner.py:69-74 | the empty configuration loads nothing |
| AgentRunner.IssueIdOf | strands_coder/agent_runner.py:196-221 | issue events give the number; PR events give `pr-`+number; discussion events give `disc-`+number; each only when that object is present; all others give none |
| AgentRunner.ExtractIssueId | strands_coder/agent_runner.py:180-221 | a missing, empty, `{}` or undecodable context gives no id |
| AgentRunner.IssueIdNamesNumber | strands_coder/agent_runner.py:200-219 | after its prefix, the id reads back with `int()` as the object's number |
| AgentRunner.IssueIdFamily | strands_coder/agent_runner.py:200-219 | the first character of an id tells PR and discussion ids apart from each other and from issue ids |
| AgentRunner.SessionId | strands_coder/agent_runner.py:246-249 | a non-empty SESSION_ID is used as it is |
| AgentRunner.DerivedSessionId | strands_coder/agent_runner.py:246-249 | otherwise `gh-`, the repository with each `/` as `-`, `-` and the run id; defaults apply; no `/` remains when the run id has none |
| AgentRunner.TraceTags | strands_coder/agent_runner.py:264-268 | the two fixed tags, then `issue:<id>` exactly when there is an id |
| AgentRunner.IssueTagNamesNumber | strands_coder/agent_runner.py:262-268 | for an issue event, the third tag is `issue:` followed by text that `int()` reads as the issue's number |
| AgentRunner.ChoosePrompt | strands_coder/agent_runner.py:418-431 | STRANDS_PROMPT wins; otherwise the arguments joined by spaces; no prompt, or a whitespace-only prompt, is the matching error |
| AgentRunner.PromptFromArgs | strands_coder/agent_runner.py:422-424 | arguments without whitespace come back as the words of the prompt they form |
| GithubEvent.LoadContext | strands_coder/context.py:731-738 | unset, empty or `{}` gives no context; otherwise the decoder's result |
| PromptContext.MessageOf | strands_coder/context.py:740-783 | agrees with a table of 15 (event, action) pairs: a listed pair gives its object's body, any other pair gives "" |
| PromptContext.ExtractUserMessage | strands_coder/context.py:719-783 | no context gives ""; otherwise the message of the decoded context |
| PromptContext.StatusOf | strands_coder/context.py:669-673 | the first Status value with a non-empty name decides; with none, "Todo" |
| PromptContext.StatusFirstWins | strands_coder/context.py:669-673 | values after the first named Status value do not matter |
| PromptContext.ItemStatus | strands_coder/context.py:669-673 | the search loop with `break` computes `StatusOf` |
| PromptContext.ItemStatuses | strands_coder/context.py:661-675 | one non-empty status per item at most |
| PromptContext.StatusPerItem | strands_coder/context.py:661-675 | exactly one status per non-archived item, none for an archived one |
| PromptContext.ItemStatusesAppend | strands_coder/context.py:661-675 | counting a board in two parts is counting it whole |
| PromptContext.CountStatuses | strands_coder/context.py:658-689 | the loop's counters are Todo, In Progress and Done at 0, then bumped once per non-archived item's status; the shown count is the number of non-archived items |
| PromptContext.StatusCountsMeaning | strands_coder/context.py:658-675 | each counter is the number of items shown under that status; the three initial keys are always present |
| PromptContext.ArchivedNotCounted | strands_coder/context.py:662-663 | an archived item changes no counter |
| PromptContext.UnsetCountsAsTodo | strands_coder/context.py:668-675 | an item without a named Status value raises only the Todo counter |
| PromptContext.PromptParts | strands_coder/context.py:789-816 | the base prompt (default when SYSTEM_PROMPT is empty) comes first, then only non-empty sections |
| PromptContext.AddSection | strands_coder/context.py:797-798 | one step appends a blank line and the section, or nothing |
| PromptContext.BuildSystemPrompt | strands_coder/context.py:786-819 | the step-by-step prompt is the parts joined by blank lines: input prompt, event context, project context (only with a project id), own code (only when self-aware) |
| PromptContext.PromptShape | strands_coder/context.py:786-819 | the prompt starts with the base and ends with its last section; with no section it is the base alone |
| PromptContext.JoinLength | strands_coder/context.py:786-819 | the prompt is its parts plus one blank line between each two, nothing more |
| PromptContext.SelfAwareDefault | strands_coder/context.py:813 | self-awareness is on when unset and for any capitalisation of `true`; off for `false` and "" |

## Left out

- Every HTTP and GraphQL call is a parameter of the member that uses it, as are reading and writing the repository variable, `json.loads`, `__import__`/`getattr` and `float()`. The user-then-organization fallback of the owner lookup is not modelled.
- The read-modify-write race on the stored schedule: the model has a single caller.
- `datetime.utcnow()` is an argument. `fromisoformat` is modelled on the forms `YYYY-MM-DD[?HH[:MM[:SS]]][±HH:MM]`. Fractional seconds, the compact and week-date forms, and the `[10:]` timezone test are left out. That test chooses between two branches that parse the same way.
- The Markdown and emoji text of every result is left out: the `list` action, job descriptions, the item list of the project context and the formatted progress report. The text of the error messages the model's members return is kept.
- `Projects.FieldInput`: `float()` is an abstract partial function `toFloat`, because it is floating point.
- `Projects.GetProgress`: the `workflows` list and the insertion order of `status_counts` are not modelled. Fields without a name are not modelled either.
- `Projects.ResolveUpdate`: every field is taken to have a name. In the source, when no field matches, a field without one makes the `", ".join` of the field-not-found message raise, and the outer handler reports that error instead.
- `Scheduler.JobStore.Check`: the result of a write that returns is ignored by the source, as in the model; a refused write leaves the old store. The `now.strftime` text of the result is left out.
- `Scheduler.RunAtDue`: `diff_minutes` is a float; the model compares the difference exactly, in microseconds. A `run_at` with fractional seconds is outside the modelled `fromisoformat` forms.
- `Scheduler.Job`: `enabled` and `once` are read by truthiness in the source. The model holds them as optional booleans, so a stored JSON `null`, number, string or other value in those keys is not represented.
- The tools' entry checks are not modelled: the missing repository and missing token errors of the scheduler (strands_coder/tools/scheduler.py:413-434), the missing `project_id` error of the projects tool (strands_coder/tools/projects.py:1179-1190), and the unknown-action errors of both (strands_coder/tools/scheduler.py:757-765, strands_coder/tools/projects.py:1588). Each returns its error text before any action touches the store or the board.
- The tools' catch-all `except Exception` handlers (strands_coder/tools/scheduler.py:767-768, strands_coder/tools/projects.py:1593) are modelled only for the write of the schedule document (`SaveOutcome.Raised`). Other exceptions, such as a stored job that is not a JSON object, are left out.
- `Scheduler.JobStore.Add`: a failed or unparsable read is taken as an empty collection, as `_get_schedules` does. A successful `add` then stores only the new job.
- `AgentRunner.LoadTools`: whether a `package:tool` pair imports is a predicate. An empty package name makes `__import__("")` raise a ValueError, which the loop does not catch. The model gives `Err("Empty module name")` for it. The printed progress lines are left out.
- `AgentRunner.ExtractIssueId` and `PromptContext.ExtractUserMessage`: JSON `null` and non-object values of the context are left out. A payload that is missing or empty reads as absent, and a missing `body` reads as "".
- `Text.ParseInt`: Python `int()` is modelled on ASCII digits, with underscores between digits and surrounding whitespace. Other Unicode digits are left out.
- `Text.Strip`: the whitespace set of `Text.IsSpace` is the one Python's `str.isspace` uses.
- `PyRepr.Repr`: non-ASCII characters that Python does not consider printable are shown as they are; Python escapes them as `\xHH`, `\uHHHH` or `\UHHHHHHHH`.
- `load_mcp_servers`, `setup_otel`, `run_agent`'s agent and knowledge-base calls, `fetch_github_event_context`, `get_own_source_code` and the Langfuse wrapper are runtime, telemetry and I/O plumbing. The event context, project context and own code reach `BuildSystemPrompt` as strings.
- `PromptContext.CountStatuses`: the formatted item lines are left out; only their number is kept.

## Findings

| source | as written | input that shows it | evidently intended | confidence | as-written member | corrected member |
|---|---|---|---|---|---|---|
| strands_coder/tools/projects.py:701 | the mutation declares `$value: {value_type.capitalize()}!` | `value_type="text"` declares `Text!`, `"number"` declares `Number!` and `"iterationId"` declares `Iterationid!`; GitHub's `ProjectV2FieldValue` takes `String`, `Float` and `String` there | declare the schema's scalar for each value type | not executed | Projects.DeclaredTypeMismatch | Projects.ValueMutationFor |
