/** The scheduler tool: when a stored job is due, and the job store that the
    `check`, `add`, `remove`, `enable`, `disable` and `get` actions read
    and rewrite. The store is the JSON document kept in a repository
    variable; reading and writing it are remote calls, so each action takes
    whether the read succeeded (a failed or unparsable read is taken as an
    empty collection) and how the write went. */
module Scheduler {
  import opened Wrappers
  import opened Text
  import opened Calendar
  import opened IsoTime
  import opened Cron

  /** One stored job. Every key is optional in the stored JSON. */
  datatype Job = Job(
    prompt: Option<string>,
    enabled: Option<bool>,
    cron: Option<string>,
    runAt: Option<string>,
    once: Option<bool>,
    systemPrompt: Option<string>,
    tools: Option<string>,
    model: Option<string>,
    maxTokens: Option<int>,
    context: Option<string>)

  /** One entry of the `jobs_to_run` list that `check` returns. */
  datatype DueEntry = DueEntry(
    jobId: string,
    prompt: string,
    systemPrompt: Option<string>,
    tools: Option<string>,
    model: Option<string>,
    maxTokens: Option<int>,
    context: Option<string>,
    once: bool)

  // ---------------------------------------------------------------- timing

  /** `datetime.utcnow()`: a valid calendar time and the microseconds past
      its second. */
  datatype Clock = Clock(at: DateTime, micros: int)

  predicate Ticking(now: Clock) {
    Valid(now.at) && 0 <= now.micros < 1000000
  }

  /** `now - run_at` in microseconds; `run_at` has none of its own. */
  function SinceMicros(now: Clock, t: DateTime): int
    requires Valid(now.at) && Valid(t)
  {
    (Instant(now.at) - Instant(t)) * 1000000 + now.micros
  }

  /** `_run_at_matches`: `run_at` parses and `now` lies between one minute
      before it and sixty minutes after it, both ends included
      (`-1 <= diff_minutes <= 60`, here counted in microseconds). */
  predicate RunAtDue(runAt: string, now: Clock)
    requires Ticking(now)
  {
    var t := ParseRunAt(runAt);
    t.Some? && -60 * 1000000 <= SinceMicros(now, t.value) <= 3600 * 1000000
  }

  /** The window in whole seconds, for a `run_at` written by `isoformat()`:
      from one minute ahead up to an hour past, where an hour past is due
      only at the very start of its second. */
  lemma RunAtWindow(t: DateTime, now: Clock)
    requires Valid(t) && Ticking(now)
    ensures var d := Instant(now.at) - Instant(t);
      RunAtDue(IsoFormat(t), now) <==> -60 <= d && (d < 3600 || (d == 3600 && now.micros == 0))
  {
    ParseIsoFormat(t);
    var d := Instant(now.at) - Instant(t);
    assert SinceMicros(now, t) == d * 1000000 + now.micros;
    if d <= -61 {
      assert d * 1000000 <= -61000000;
    } else if d >= 3601 {
      assert d * 1000000 >= 3601000000;
    } else if -60 <= d <= 3599 {
      assert -60000000 <= d * 1000000 <= 3599000000;
    }
  }

  /** The ends of the window: a job an hour ahead, or two minutes ahead, is
      not yet due; one minute ahead is due; exactly an hour past is due
      only with no microseconds; one minute more than an hour past is no
      longer due. */
  lemma RunAtWindowEnds(t: DateTime, now: Clock)
    requires Valid(t) && Ticking(now)
    ensures Instant(t) == Instant(now.at) + 3600 ==> !RunAtDue(IsoFormat(t), now)
    ensures Instant(t) == Instant(now.at) + 120 ==> !RunAtDue(IsoFormat(t), now)
    ensures Instant(t) == Instant(now.at) + 60 ==> RunAtDue(IsoFormat(t), now)
    ensures Instant(now.at) == Instant(t) + 3600 ==> (RunAtDue(IsoFormat(t), now) <==> now.micros == 0)
    ensures Instant(now.at) == Instant(t) + 3660 ==> !RunAtDue(IsoFormat(t), now)
  {
    RunAtWindow(t, now);
  }

  /** `job.get("enabled", True)` is truthy. */
  predicate IsEnabled(j: Job) {
    j.enabled != Some(false)
  }

  predicate CronHit(j: Job, now: Clock)
    requires Ticking(now)
  {
    Truthy(j.cron) && CronMatches(j.cron.value, now.at)
  }

  predicate RunAtHit(j: Job, now: Clock)
    requires Ticking(now)
  {
    Truthy(j.runAt) && RunAtDue(j.runAt.value, now)
  }

  /** `check` runs an enabled job whose cron or whose `run_at` matches. */
  predicate IsDue(j: Job, now: Clock)
    requires Ticking(now)
  {
    IsEnabled(j) && (CronHit(j, now) || RunAtHit(j, now))
  }

  /** `check` deletes an enabled job that matched through `run_at` and is
      marked `once`. */
  predicate Retires(j: Job, now: Clock)
    requires Ticking(now)
  {
    IsEnabled(j) && RunAtHit(j, now) && j.once == Some(true)
  }

  function Entry(id: string, j: Job): DueEntry {
    DueEntry(id, j.prompt.GetOr(""), j.systemPrompt, j.tools, j.model, j.maxTokens, j.context, j.once.GetOr(false))
  }

  // ------------------------------------------------- check, as functions

  predicate Covers(ids: seq<string>, jobs: map<string, Job>) {
    forall k :: 0 <= k < |ids| ==> ids[k] in jobs
  }

  /** The due entries, in the order of `ids`. */
  function DueList(ids: seq<string>, jobs: map<string, Job>, now: Clock): seq<DueEntry>
    requires Covers(ids, jobs) && Ticking(now)
  {
    if ids == [] then []
    else
      var id := ids[|ids| - 1];
      DueList(ids[..|ids| - 1], jobs, now) + (if IsDue(jobs[id], now) then [Entry(id, jobs[id])] else [])
  }

  /** The ids `check` deletes, in the order of `ids`. */
  function RetiredIds(ids: seq<string>, jobs: map<string, Job>, now: Clock): seq<string>
    requires Covers(ids, jobs) && Ticking(now)
  {
    if ids == [] then []
    else
      var id := ids[|ids| - 1];
      RetiredIds(ids[..|ids| - 1], jobs, now) + (if Retires(jobs[id], now) then [id] else [])
  }

  function JobIds(es: seq<DueEntry>): (r: seq<string>)
    ensures |r| == |es| && forall k :: 0 <= k < |es| ==> r[k] == es[k].jobId
  {
    if es == [] then [] else JobIds(es[..|es| - 1]) + [es[|es| - 1].jobId]
  }

  /** The ids of `ids` outside `gone`, in order. */
  function Drop(ids: seq<string>, gone: set<string>): (r: seq<string>)
    ensures forall x :: x in r <==> x in ids && x !in gone
  {
    if ids == [] then []
    else Drop(ids[..|ids| - 1], gone) + (if ids[|ids| - 1] in gone then [] else [ids[|ids| - 1]])
  }

  /** The entries whose job id is outside `gone`, in order. */
  function DropEntries(es: seq<DueEntry>, gone: set<string>): seq<DueEntry> {
    if es == [] then []
    else DropEntries(es[..|es| - 1], gone) + (if es[|es| - 1].jobId in gone then [] else [es[|es| - 1]])
  }

  lemma DueListIds(ids: seq<string>, jobs: map<string, Job>, now: Clock)
    requires Covers(ids, jobs) && Ticking(now)
    ensures forall id :: id in JobIds(DueList(ids, jobs, now)) <==> id in ids && IsDue(jobs[id], now)
  {
    forall id ensures id in JobIds(DueList(ids, jobs, now)) <==> id in ids && IsDue(jobs[id], now) {
      DueListHas(ids, jobs, now, id);
    }
  }

  lemma {:induction false} DueListHas(ids: seq<string>, jobs: map<string, Job>, now: Clock, id: string)
    requires Covers(ids, jobs) && Ticking(now)
    ensures id in JobIds(DueList(ids, jobs, now)) <==> id in ids && IsDue(jobs[id], now)
  {
    if ids != [] {
      var init := ids[..|ids| - 1];
      var last := ids[|ids| - 1];
      assert Covers(init, jobs);
      DueListHas(init, jobs, now, id);
      assert id in ids <==> id in init || id == last by {
        assert ids == init + [last];
      }
      if IsDue(jobs[last], now) {
        JobIdsAppend(DueList(init, jobs, now), [Entry(last, jobs[last])]);
      } else {
        assert DueList(ids, jobs, now) == DueList(init, jobs, now);
      }
    }
  }

  lemma {:induction false} JobIdsAppend(a: seq<DueEntry>, b: seq<DueEntry>)
    ensures JobIds(a + b) == JobIds(a) + JobIds(b)
  {
  }

  /** `check` reports exactly the enabled jobs whose cron or `run_at`
      matches: as a set of ids, the due list is the due jobs of the store. */
  lemma DueIdsExactly(ids: seq<string>, jobs: map<string, Job>, now: Clock, id: string)
    requires Covers(ids, jobs) && Ticking(now)
    ensures id in JobIds(DueList(ids, jobs, now)) <==>
      id in ids && IsEnabled(jobs[id]) && (CronHit(jobs[id], now) || RunAtHit(jobs[id], now))
  {
    DueListIds(ids, jobs, now);
  }

  /** The deleted jobs are exactly the due `once` jobs that matched through
      `run_at`; a job without `run_at` is never deleted. */
  lemma {:induction false} RetiredExactly(ids: seq<string>, jobs: map<string, Job>, now: Clock)
    requires Covers(ids, jobs) && Ticking(now)
    ensures forall id :: id in RetiredIds(ids, jobs, now) <==> id in ids && Retires(jobs[id], now)
    ensures forall id :: id in RetiredIds(ids, jobs, now) ==>
      Truthy(jobs[id].runAt) && id in JobIds(DueList(ids, jobs, now))
  {
    DueListIds(ids, jobs, now);
    if ids != [] {
      var init := ids[..|ids| - 1];
      RetiredExactly(init, jobs, now);
      assert ids == init + [ids[|ids| - 1]];
    }
  }

  lemma DropCovers(ids: seq<string>, jobs: map<string, Job>, gone: set<string>)
    requires Covers(ids, jobs)
    ensures Covers(Drop(ids, gone), jobs - gone)
  {
    var rest := Drop(ids, gone);
    forall k | 0 <= k < |rest| ensures rest[k] in jobs - gone {
      assert rest[k] in rest;
      var j :| 0 <= j < |ids| && ids[j] == rest[k];
    }
  }

  /** Running `check` again at the same time, on the store it left behind,
      deletes nothing more. */
  lemma {:induction false} CheckAgainDeletesNothing(ids: seq<string>, jobs: map<string, Job>, now: Clock, gone: set<string>)
    requires Covers(ids, jobs) && Ticking(now)
    requires forall id :: id in ids && Retires(jobs[id], now) ==> id in gone
    ensures Covers(Drop(ids, gone), jobs - gone)
    ensures RetiredIds(Drop(ids, gone), jobs - gone, now) == []
  {
    DropCovers(ids, jobs, gone);
    if ids != [] {
      var init := ids[..|ids| - 1];
      var last := ids[|ids| - 1];
      assert Covers(init, jobs);
      assert forall id :: id in init ==> id in ids;
      CheckAgainDeletesNothing(init, jobs, now, gone);
      var rest := Drop(ids, gone);
      if last !in gone {
        assert rest == Drop(init, gone) + [last];
        assert rest[..|rest| - 1] == Drop(init, gone);
        assert (jobs - gone)[last] == jobs[last];
        assert last in ids;
        assert !Retires(jobs[last], now);
        assert RetiredIds(rest, jobs - gone, now) == RetiredIds(Drop(init, gone), jobs - gone, now);
      } else {
        assert rest == Drop(init, gone);
      }
    }
  }

  /** ... and reports the same jobs as the first run, less the deleted ones. */
  lemma {:induction false} CheckAgainSameJobs(ids: seq<string>, jobs: map<string, Job>, now: Clock, gone: set<string>)
    requires Covers(ids, jobs) && Ticking(now)
    ensures Covers(Drop(ids, gone), jobs - gone)
    ensures DueList(Drop(ids, gone), jobs - gone, now) == DropEntries(DueList(ids, jobs, now), gone)
  {
    DropCovers(ids, jobs, gone);
    if ids != [] {
      var init := ids[..|ids| - 1];
      var last := ids[|ids| - 1];
      assert Covers(init, jobs);
      CheckAgainSameJobs(init, jobs, now, gone);
      var d := DueList(init, jobs, now);
      var rest := Drop(ids, gone);
      var e := Entry(last, jobs[last]);
      if last !in gone {
        assert rest == Drop(init, gone) + [last];
        assert rest[..|rest| - 1] == Drop(init, gone);
        assert (jobs - gone)[last] == jobs[last];
        if IsDue(jobs[last], now) {
          DropEntriesAppend(d, [e], gone);
          assert DropEntries([e], gone) == [e];
        } else {
          assert DueList(ids, jobs, now) == d;
        }
      } else {
        assert rest == Drop(init, gone);
        if IsDue(jobs[last], now) {
          DropEntriesAppend(d, [e], gone);
          assert DropEntries([e], gone) == [];
        } else {
          assert DueList(ids, jobs, now) == d;
        }
      }
    }
  }

  /** Two `check`s at the same time: the second deletes nothing and
      reports what the first reported, less the jobs the first deleted. */
  lemma CheckTwice(ids: seq<string>, jobs: map<string, Job>, now: Clock)
    requires Covers(ids, jobs) && Ticking(now)
    ensures var gone := set id | id in RetiredIds(ids, jobs, now);
      Covers(Drop(ids, gone), jobs - gone) &&
      RetiredIds(Drop(ids, gone), jobs - gone, now) == [] &&
      DueList(Drop(ids, gone), jobs - gone, now) == DropEntries(DueList(ids, jobs, now), gone)
  {
    var gone := set id | id in RetiredIds(ids, jobs, now);
    RetiredExactly(ids, jobs, now);
    CheckAgainDeletesNothing(ids, jobs, now, gone);
    CheckAgainSameJobs(ids, jobs, now, gone);
  }

  lemma {:induction false} DropEntriesAppend(a: seq<DueEntry>, b: seq<DueEntry>, gone: set<string>)
    requires |b| <= 1
    ensures DropEntries(a + b, gone) == DropEntries(a, gone) + DropEntries(b, gone)
  {
    if b == [] {
      assert a + b == a;
    } else {
      assert (a + b)[..|a + b| - 1] == a;
    }
  }

  /** Disabling one job takes exactly its entry out of the due list. */
  lemma {:induction false} DisableDropsEntry(ids: seq<string>, jobs: map<string, Job>, now: Clock, id: string)
    requires Covers(ids, jobs) && Ticking(now) && id in jobs
    ensures Covers(ids, jobs[id := jobs[id].(enabled := Some(false))])
    ensures DueList(ids, jobs[id := jobs[id].(enabled := Some(false))], now) ==
      DropEntries(DueList(ids, jobs, now), {id})
  {
    var after := jobs[id := jobs[id].(enabled := Some(false))];
    if ids != [] {
      var init := ids[..|ids| - 1];
      var last := ids[|ids| - 1];
      DisableDropsEntry(init, jobs, now, id);
      var tail := if IsDue(jobs[last], now) then [Entry(last, jobs[last])] else [];
      DropEntriesAppend(DueList(init, jobs, now), tail, {id});
    }
  }

  // ------------------------------------------------------------------ add

  /** The arguments of the `add` action. */
  datatype AddArgs = AddArgs(
    jobId: Option<string>,
    cron: Option<string>,
    runAt: Option<string>,
    once: bool,
    prompt: Option<string>,
    systemPrompt: Option<string>,
    tools: Option<string>,
    model: Option<string>,
    maxTokens: Option<int>,
    context: Option<string>)

  const RunAtFormatError := "Error: Invalid run_at format. Use ISO 8601 (e.g., 2024-01-20T14:00:00Z)"

  /** The checks `add` makes before touching the store, in their order;
      `None` when all pass. */
  function CheckAddArgs(a: AddArgs): (r: Option<string>)
    ensures r.None? <==>
      Truthy(a.jobId) && (Truthy(a.cron) || Truthy(a.runAt)) && Truthy(a.prompt) &&
      (Truthy(a.cron) ==> ParseCron(a.cron.value).Ok?) &&
      (Truthy(a.runAt) ==> ParseRunAt(a.runAt.value).Some?)
    ensures !Truthy(a.jobId) ==> r == Some("Error: job_id is required")
  {
    if !Truthy(a.jobId) then Some("Error: job_id is required")
    else if !Truthy(a.cron) && !Truthy(a.runAt) then Some("Error: Either cron or run_at is required")
    else if !Truthy(a.prompt) then Some("Error: prompt is required")
    else if Truthy(a.cron) && ParseCron(a.cron.value).Err? then Some("Error: " + ParseCron(a.cron.value).msg)
    else if Truthy(a.runAt) && ParseRunAt(a.runAt.value).None? then Some(RunAtFormatError)
    else None
  }

  /** Keep an optional string only when it is truthy. */
  function IfTruthy(s: Option<string>): (r: Option<string>)
    ensures r.Some? <==> Truthy(s)
    ensures r.Some? ==> r == s
  {
    if Truthy(s) then s else None
  }

  /** The entry `add` writes, replacing any earlier one wholesale. */
  function NewJob(a: AddArgs): Job {
    Job(
      a.prompt,
      Some(true),
      IfTruthy(a.cron),
      IfTruthy(a.runAt),
      if Truthy(a.runAt) && a.once then Some(true) else None,
      IfTruthy(a.systemPrompt),
      IfTruthy(a.tools),
      IfTruthy(a.model),
      if a.maxTokens.Some? && a.maxTokens.value != 0 then a.maxTokens else None,
      IfTruthy(a.context))
  }

  /** What `add` guarantees about the entries it writes: a prompt, an
      explicit `enabled`, a schedule that parses, and `once` only beside a
      `run_at`. */
  predicate WellFormed(j: Job) {
    Truthy(j.prompt) && j.enabled.Some? && (Truthy(j.cron) || Truthy(j.runAt)) &&
    (j.cron.Some? ==> Truthy(j.cron) && ParseCron(j.cron.value).Ok?) &&
    (j.runAt.Some? ==> Truthy(j.runAt) && ParseRunAt(j.runAt.value).Some?) &&
    (j.once.Some? ==> j.once == Some(true) && j.runAt.Some?)
  }

  /** An accepted `add` writes a well-formed, enabled entry that `check`
      runs when its cron or its `run_at` matches, and later deletes only if
      it was added with `once` and a `run_at`. */
  lemma NewJobBehaves(a: AddArgs, now: Clock)
    requires CheckAddArgs(a).None? && Ticking(now)
    ensures WellFormed(NewJob(a)) && IsEnabled(NewJob(a))
    ensures IsDue(NewJob(a), now) <==>
      (Truthy(a.cron) && CronMatches(a.cron.value, now.at)) || (Truthy(a.runAt) && RunAtDue(a.runAt.value, now))
    ensures Retires(NewJob(a), now) <==> a.once && Truthy(a.runAt) && RunAtDue(a.runAt.value, now)
    ensures Entry(a.jobId.value, NewJob(a)).prompt == a.prompt.value
  {
  }

  /** A job added with a cron expression and no `run_at` runs whenever the
      expression matches and is never deleted by `check`. */
  lemma RecurringJobStays(a: AddArgs, now: Clock)
    requires CheckAddArgs(a).None? && Ticking(now) && !Truthy(a.runAt)
    ensures IsDue(NewJob(a), now) <==> CronMatches(a.cron.value, now.at)
    ensures !Retires(NewJob(a), now)
  {
  }

  // --------------------------------------------------------------- store

  /** A dict without duplicate keys: `order` lists the keys of `jobs` in
      insertion order, each once. */
  predicate Distinct(ids: seq<string>) {
    forall i, j :: 0 <= i < j < |ids| ==> ids[i] != ids[j]
  }

  ghost predicate IsDict(order: seq<string>, jobs: map<string, Job>) {
    Distinct(order) && (forall id :: id in jobs <==> id in order)
  }

  lemma DictCovers(order: seq<string>, jobs: map<string, Job>)
    requires IsDict(order, jobs)
    ensures Covers(order, jobs)
  {
    forall k | 0 <= k < |order| ensures order[k] in jobs {
      assert order[k] in order;
    }
  }

  /** `d[key] = value` on an insertion-ordered dict: an existing key keeps
      its place, a new one goes last. */
  function PutOrder(order: seq<string>, id: string): seq<string> {
    if id in order then order else order + [id]
  }

  lemma PutKeepsDict(order: seq<string>, jobs: map<string, Job>, id: string, j: Job)
    requires IsDict(order, jobs)
    ensures IsDict(PutOrder(order, id), jobs[id := j])
  {
  }

  lemma {:induction false} DropKeepsDict(order: seq<string>, jobs: map<string, Job>, gone: set<string>)
    requires IsDict(order, jobs)
    ensures IsDict(Drop(order, gone), jobs - gone)
  {
    if order != [] {
      var init := order[..|order| - 1];
      var last := order[|order| - 1];
      assert IsDict(init, jobs - {last}) by {
        assert order == init + [last];
        assert Distinct(init);
        assert last !in init;
      }
      DropKeepsDict(init, jobs - {last}, gone);
      assert (jobs - {last}) - gone == (jobs - gone) - {last};
      if last !in gone {
        assert last !in Drop(init, gone);
        assert Drop(order, gone) == Drop(init, gone) + [last];
      } else {
        assert Drop(order, gone) == Drop(init, gone);
      }
    }
  }

  /** The body of `check`'s loop for one job: whether it runs and whether
      it is marked for removal. */
  method CheckJob(job: Job, now: Clock) returns (shouldRun: bool, remove: bool)
    requires Ticking(now)
    ensures shouldRun == IsDue(job, now) && remove == Retires(job, now)
  {
    shouldRun, remove := false, false;
    if !IsEnabled(job) {
      return;
    }
    if Truthy(job.cron) && CronMatches(job.cron.value, now.at) {
      shouldRun := true;
    }
    if Truthy(job.runAt) && RunAtDue(job.runAt.value, now) {
      shouldRun := true;
      if job.once == Some(true) {
        remove := true;
      }
    }
  }

  /** One more job of the store visited by `check`. */
  lemma CheckStep(ids: seq<string>, jobs: map<string, Job>, now: Clock, i: nat)
    requires Covers(ids, jobs) && Ticking(now) && i < |ids|
    ensures Covers(ids[..i], jobs) && Covers(ids[..i + 1], jobs)
    ensures DueList(ids[..i + 1], jobs, now) ==
      DueList(ids[..i], jobs, now) + (if IsDue(jobs[ids[i]], now) then [Entry(ids[i], jobs[ids[i]])] else [])
    ensures RetiredIds(ids[..i + 1], jobs, now) ==
      RetiredIds(ids[..i], jobs, now) + (if Retires(jobs[ids[i]], now) then [ids[i]] else [])
  {
    assert ids[..i + 1][..i] == ids[..i];
  }

  /** How the write of the document went: stored, answered with a status
      other than 204 or 201 (`success` false, with its message), or raised
      by `requests` (the exception's text), which the tool's outer handler
      reports as `Error: <e>`. */
  datatype SaveOutcome = Saved | Refused(message: string) | Raised(message: string)

  /** The error text of a write that did not store. */
  function SaveError(save: SaveOutcome): (r: string)
    requires !save.Saved?
    ensures save.Refused? ==> r == "Failed to save: " + save.message
    ensures save.Raised? ==> r == "Error: " + save.message
  {
    match save
    case Refused(m) => "Failed to save: " + m
    case Raised(m) => "Error: " + m
  }

  /** The stored schedule document. */
  class JobStore {
    var order: seq<string>
    var jobs: map<string, Job>

    ghost predicate Valid()
      reads this
    {
      IsDict(order, jobs)
    }

    constructor ()
      ensures Valid() && order == [] && jobs == map[]
    {
      order := [];
      jobs := map[];
    }

    /** The `check` action. The loop collects the due entries and the ids to
        delete; the deletions are written back only when there are some.
        A write that does not store leaves the store as it was; one that
        raises turns the whole answer into its error, with no due list,
        while a refused write is ignored. */
    method Check(now: Clock, loaded: bool, save: SaveOutcome) returns (r: Result<(seq<DueEntry>, seq<string>)>)
      requires Valid() && Ticking(now)
      modifies this
      ensures Valid()
      ensures Covers(old(order), old(jobs))
      ensures var removed := if loaded then RetiredIds(old(order), old(jobs), now) else [];
        (r.Err? <==> removed != [] && save.Raised?) &&
        (r.Err? ==> r.msg == "Error: " + save.message) &&
        (r.Ok? ==> r.value == (if loaded then DueList(old(order), old(jobs), now) else [], removed)) &&
        (if removed != [] && save.Saved?
         then order == Drop(old(order), set id | id in removed) && jobs == old(jobs) - set id | id in removed
         else order == old(order) && jobs == old(jobs))
    {
      DictCovers(order, jobs);
      if !loaded {
        return Ok(([], []));
      }
      var due, removed := [], [];
      var ids, store := order, jobs;
      var i := 0;
      while i < |ids|
        invariant 0 <= i <= |ids|
        invariant order == ids && jobs == store
        invariant due == DueList(ids[..i], store, now)
        invariant removed == RetiredIds(ids[..i], store, now)
      {
        var id := ids[i];
        CheckStep(ids, store, now, i);
        var shouldRun, remove := CheckJob(store[id], now);
        if remove {
          removed := removed + [id];
        }
        if shouldRun {
          due := due + [Entry(id, store[id])];
        }
        i := i + 1;
      }
      assert ids[..i] == ids;
      if removed != [] {
        if save.Raised? {
          return Err("Error: " + save.message);
        }
        if save.Saved? {
          var gone := set id | id in removed;
          DropKeepsDict(order, jobs, gone);
          order := Drop(order, gone);
          jobs := jobs - gone;
        }
      }
      r := Ok((due, removed));
    }

    /** The `add` action: validate, read, put the new entry, write. `Ok`
        carries whether the id was already there. */
    method Add(a: AddArgs, loaded: bool, save: SaveOutcome) returns (r: Result<bool>)
      requires Valid()
      modifies this
      ensures Valid()
      ensures CheckAddArgs(a).Some? ==> r == Err(CheckAddArgs(a).value)
      ensures CheckAddArgs(a).None? && !save.Saved? ==> r == Err(SaveError(save))
      ensures r.Ok? <==> CheckAddArgs(a).None? && save.Saved?
      ensures r.Ok? ==> r.value == (loaded && a.jobId.value in old(jobs))
      ensures r.Ok? && loaded ==>
        order == PutOrder(old(order), a.jobId.value) && jobs == old(jobs)[a.jobId.value := NewJob(a)]
      ensures r.Ok? && !loaded ==> order == [a.jobId.value] && jobs == map[a.jobId.value := NewJob(a)]
      ensures r.Err? ==> order == old(order) && jobs == old(jobs)
    {
      var problem := CheckAddArgs(a);
      if problem.Some? {
        return Err(problem.value);
      }
      var id := a.jobId.value;
      var readOrder, readJobs := if loaded then order else [], if loaded then jobs else map[];
      var isUpdate := id in readJobs;
      var job := NewJob(a);
      PutKeepsDict(readOrder, readJobs, id, job);
      if !save.Saved? {
        return Err(SaveError(save));
      }
      order := PutOrder(readOrder, id);
      jobs := readJobs[id := job];
      r := Ok(isUpdate);
    }

    /** The `remove` action. */
    method Remove(jobId: Option<string>, loaded: bool, save: SaveOutcome) returns (r: Result<()>)
      requires Valid()
      modifies this
      ensures Valid()
      ensures !Truthy(jobId) ==> r == Err("Error: job_id is required")
      ensures Truthy(jobId) && !(loaded && jobId.value in old(jobs)) ==> r == Err("Job `" + jobId.value + "` not found")
      ensures Truthy(jobId) && loaded && jobId.value in old(jobs) && !save.Saved? ==> r == Err(SaveError(save))
      ensures r.Ok? <==> Truthy(jobId) && loaded && jobId.value in old(jobs) && save.Saved?
      ensures r.Ok? ==> order == Drop(old(order), {jobId.value}) && jobs == old(jobs) - {jobId.value}
      ensures r.Err? ==> order == old(order) && jobs == old(jobs)
    {
      if !Truthy(jobId) {
        return Err("Error: job_id is required");
      }
      var id := jobId.value;
      if !loaded || id !in jobs {
        return Err("Job `" + id + "` not found");
      }
      if !save.Saved? {
        return Err(SaveError(save));
      }
      DropKeepsDict(order, jobs, {id});
      order := Drop(order, {id});
      jobs := jobs - {id};
      r := Ok(());
    }

    /** The `enable` and `disable` actions: only that job's `enabled`
        changes, to whether the action was `enable`. */
    method SetEnabled(jobId: Option<string>, enable: bool, loaded: bool, save: SaveOutcome) returns (r: Result<()>)
      requires Valid()
      modifies this
      ensures Valid()
      ensures !Truthy(jobId) ==> r == Err("Error: job_id is required")
      ensures Truthy(jobId) && !(loaded && jobId.value in old(jobs)) ==> r == Err("Job `" + jobId.value + "` not found")
      ensures Truthy(jobId) && loaded && jobId.value in old(jobs) && !save.Saved? ==> r == Err(SaveError(save))
      ensures r.Ok? <==> Truthy(jobId) && loaded && jobId.value in old(jobs) && save.Saved?
      ensures r.Ok? ==> order == old(order)
      ensures r.Ok? ==> jobs == old(jobs)[jobId.value := old(jobs)[jobId.value].(enabled := Some(enable))]
      ensures r.Err? ==> order == old(order) && jobs == old(jobs)
    {
      if !Truthy(jobId) {
        return Err("Error: job_id is required");
      }
      var id := jobId.value;
      if !loaded || id !in jobs {
        return Err("Job `" + id + "` not found");
      }
      if !save.Saved? {
        return Err(SaveError(save));
      }
      jobs := jobs[id := jobs[id].(enabled := Some(enable))];
      r := Ok(());
    }

    /** The `get` action. */
    method Get(jobId: Option<string>, loaded: bool) returns (r: Result<Job>)
      ensures !Truthy(jobId) ==> r == Err("Error: job_id is required")
      ensures r.Ok? <==> Truthy(jobId) && loaded && jobId.value in jobs
      ensures r.Ok? ==> r.value == jobs[jobId.value]
      ensures Truthy(jobId) && r.Err? ==> r == Err("Job `" + jobId.value + "` not found")
    {
      if !Truthy(jobId) {
        return Err("Error: job_id is required");
      }
      var id := jobId.value;
      if !loaded || id !in jobs {
        return Err("Job `" + id + "` not found");
      }
      r := Ok(jobs[id]);
    }
  }
}
