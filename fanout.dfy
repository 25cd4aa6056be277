/**
 * `loop_over_filters`: one task of a coadd-family stage per filter. The
 * caller's dataId dict gets `filter` set in place before each submission,
 * the log prefix is `<task>_<filter>_<patch>`, and every task is joined
 * before the list of futures is returned.
 */
module Fanout {
  import opened Common
  import opened DataIds
  import opened Commands
  import opened FileSystems
  import opened LogFiles
  import opened Dispatch

  /** `'%s_%s_%s' % (task_name, filt, dataId['patch'])`. */
  function FilterLogPrefix(taskName: string, f: string, patch: Value): string {
    taskName + "_" + f + "_" + Show(patch)
  }

  /** The task submitted for filter `f`, with the dataId as it stands at submission. */
  function FilterTask(app: App, taskName: string, outputRepo: string, d: DataId, patch: Value,
                      f: string, logDir: string, enable: bool): Task
  {
    var p := LogPath(logDir, enable, FilterLogPrefix(taskName, f, patch));
    Task(StageApp(app, taskName, outputRepo), Some(SetItem(d, "filter", StrV(f))), LogDests(p, p))
  }

  /** `dataId['patch']`, when there is one; nothing reads it otherwise. */
  function PatchOf(d: DataId): Value {
    match Lookup(d, "patch")
    case Some(v) => v
    case None => StrV("")
  }

  /** The tasks of one fan-out, in filter order. */
  function FilterTasks(app: App, taskName: string, outputRepo: string, d: DataId, patch: Value,
                       filters: seq<string>, logDir: string, enable: bool): (ts: seq<Task>)
    ensures |ts| == |filters|
  {
    if |filters| == 0 then []
    else FilterTasks(app, taskName, outputRepo, d, patch, filters[..|filters| - 1], logDir, enable)
         + [FilterTask(app, taskName, outputRepo, d, patch, filters[|filters| - 1], logDir, enable)]
  }

  /** The k-th task of a fan-out is the one for the k-th filter. */
  lemma {:induction false} FilterTasksAt(app: App, taskName: string, outputRepo: string, d: DataId, patch: Value,
                                         filters: seq<string>, logDir: string, enable: bool, k: nat)
    requires k < |filters|
    ensures FilterTasks(app, taskName, outputRepo, d, patch, filters, logDir, enable)[k]
         == FilterTask(app, taskName, outputRepo, d, patch, filters[k], logDir, enable)
    decreases |filters|
  {
    if k < |filters| - 1 {
      FilterTasksAt(app, taskName, outputRepo, d, patch, filters[..|filters| - 1], logDir, enable, k);
    }
  }

  /** The tasks for the first filters are the first tasks. */
  lemma {:induction false} FilterTasksPrefix(app: App, taskName: string, outputRepo: string, d: DataId, patch: Value,
                                             filters: seq<string>, logDir: string, enable: bool, k: nat)
    requires k <= |filters|
    ensures FilterTasks(app, taskName, outputRepo, d, patch, filters[..k], logDir, enable)
         <= FilterTasks(app, taskName, outputRepo, d, patch, filters, logDir, enable)
    decreases |filters|
  {
    if k < |filters| {
      assert filters[..|filters| - 1][..k] == filters[..k];
      FilterTasksPrefix(app, taskName, outputRepo, d, patch, filters[..|filters| - 1], logDir, enable, k);
    } else {
      assert filters[..k] == filters;
    }
  }

  /**
   * The task for filter `f` sees `filter = f` and every other key of the
   * caller's dataId unchanged, and logs both streams to `<task>_<f>_<patch>.log`.
   */
  lemma FilterTaskShape(app: App, taskName: string, outputRepo: string, d: DataId, patch: Value,
                        f: string, logDir: string, enable: bool, key: string)
    ensures var t := FilterTask(app, taskName, outputRepo, d, patch, f, logDir, enable);
      && t.dataId.Some?
      && Lookup(t.dataId.value, key) == (if key == "filter" then Some(StrV(f)) else Lookup(d, key))
      && t.logs.stdout == t.logs.stderr == LogPath(logDir, enable, taskName + "_" + f + "_" + Show(patch))
  {
    SetItemLookup(d, "filter", StrV(f), key);
  }

  /** A dataId that already carries a filter yields the same tasks as one that does not. */
  lemma {:induction false} FilterTasksReset(app: App, taskName: string, outputRepo: string, d: DataId, patch: Value,
                                            x: Value, filters: seq<string>, logDir: string, enable: bool)
    ensures FilterTasks(app, taskName, outputRepo, SetItem(d, "filter", x), patch, filters, logDir, enable)
         == FilterTasks(app, taskName, outputRepo, d, patch, filters, logDir, enable)
    decreases |filters|
  {
    if |filters| > 0 {
      FilterTasksReset(app, taskName, outputRepo, d, patch, x, filters[..|filters| - 1], logDir, enable);
      SetItemTwice(d, "filter", x, StrV(filters[|filters| - 1]));
    }
  }

  /** The dataId the caller holds after the loop: the last filter is left in it. */
  function AfterLoop(d: DataId, filters: seq<string>): DataId {
    if |filters| == 0 then d else SetItem(d, "filter", StrV(filters[|filters| - 1]))
  }

  /**
   * Setting `filter` once more in the dict the loop has been updating gives
   * the dataId of the next task, and leaves the patch as it was.
   */
  lemma AfterLoopStep(app: App, taskName: string, outputRepo: string, d: DataId, filters: seq<string>, k: nat,
                      logDir: string, enable: bool)
    requires k < |filters|
    ensures var before := AfterLoop(d, filters[..k]);
      && AfterLoop(d, filters[..k + 1]) == SetItem(before, "filter", StrV(filters[k]))
      && Lookup(before, "patch") == Lookup(d, "patch")
      && FilterTask(app, taskName, outputRepo, before, PatchOf(before), filters[k], logDir, enable)
         == FilterTask(app, taskName, outputRepo, d, PatchOf(d), filters[k], logDir, enable)
  {
    if k > 0 {
      SetItemTwice(d, "filter", StrV(filters[k - 1]), StrV(filters[k]));
      SetItemLookup(d, "filter", StrV(filters[k - 1]), "patch");
    }
  }

  lemma FilterTasksSnoc(app: App, taskName: string, outputRepo: string, d: DataId, patch: Value,
                        filters: seq<string>, logDir: string, enable: bool, k: nat)
    requires k < |filters|
    ensures FilterTasks(app, taskName, outputRepo, d, patch, filters[..k + 1], logDir, enable)
         == FilterTasks(app, taskName, outputRepo, d, patch, filters[..k], logDir, enable)
            + [FilterTask(app, taskName, outputRepo, d, patch, filters[k], logDir, enable)]
  {
    assert filters[..k + 1][..k] == filters[..k];
  }

  /** The kernel's state after the submission for filter `k`, regrouped as the state for `k + 1` filters. */
  lemma SubmitStep(app: App, taskName: string, outputRepo: string, d: DataId, patch: Value,
                   filters: seq<string>, logDir: string, enable: bool, k: nat,
                   tasks0: seq<Task>, e0: seq<Event>, tasks: seq<Task>, trace: seq<Event>)
    requires k < |filters|
    requires tasks == tasks0 + FilterTasks(app, taskName, outputRepo, d, patch, filters[..k], logDir, enable)
    requires trace == e0 + Submits(|tasks0|, FilterTasks(app, taskName, outputRepo, d, patch, filters[..k], logDir, enable))
    ensures var t := FilterTask(app, taskName, outputRepo, d, patch, filters[k], logDir, enable);
      var next := FilterTasks(app, taskName, outputRepo, d, patch, filters[..k + 1], logDir, enable);
      && |tasks| == |tasks0| + k
      && tasks + [t] == tasks0 + next
      && trace + [Submit(|tasks|, t)] == e0 + Submits(|tasks0|, next)
  {
    var done := FilterTasks(app, taskName, outputRepo, d, patch, filters[..k], logDir, enable);
    var t := FilterTask(app, taskName, outputRepo, d, patch, filters[k], logDir, enable);
    FilterTasksSnoc(app, taskName, outputRepo, d, patch, filters, logDir, enable, k);
    SubmitsSnoc(|tasks0|, done, t);
  }

  /** The trace of a complete fan-out: every submission, then one join of each task. */
  function LoopEvents(base: nat, ts: seq<Task>): seq<Event> {
    Events(base, [Round(ts, false)])
  }

  /** The last event after joining `m > 0` tasks numbered from `base`. */
  lemma LastJoin(t: seq<Event>, base: nat, m: nat)
    requires m > 0
    ensures var u := t + Joins(base, m); |u| > 0 && u[|u| - 1] == Join(base + m - 1)
  {
  }

  /** The events of a fan-out stopped during its submissions. */
  lemma PrefixOfSubmits(base: nat, ts: seq<Task>, done: seq<Task>)
    requires done <= ts
    ensures Submits(base, done) <= LoopEvents(base, ts)
  {
    SingleRound(base, ts, false);
    SubmitsPrefix(base, ts, |done|);
    assert ts[..|done|] == done;
  }

  /** The events of a fan-out stopped during its joins. */
  lemma PrefixOfJoins(base: nat, ts: seq<Task>, m: nat)
    requires m <= |ts|
    ensures Submits(base, ts) + Joins(base, m) <= LoopEvents(base, ts)
    ensures LoopEvents(base, ts) == Submits(base, ts) + Joins(base, |ts|)
  {
    SingleRound(base, ts, false);
    JoinsPrefix(base, m, |ts|);
  }

  /** `futures` are the tasks numbered `lo`, `lo + 1`, ... in order. */
  predicate Numbered(futures: seq<nat>, lo: nat, n: nat) {
    |futures| == n && forall i | 0 <= i < n :: futures[i] == lo + i
  }

  /**
   * Iteration `k` of the loop, on the dict the earlier iterations left: set
   * `dataId['filter']`, read the patch, route the logs and submit the task.
   */
  method SubmitForFilter(dfk: DataFlowKernel, fs: FileSystem, logFiles: ParslLogFiles, app: App,
                         taskName: string, outputRepo: string, dataId: DataIdDict,
                         filters: seq<string>, k: nat, ghost d0: DataId)
    returns (r: Result<nat>)
    requires k < |filters|
    requires dataId.items == AfterLoop(d0, filters[..k])
    modifies dfk, fs, dataId
    ensures dataId.items == AfterLoop(d0, filters[..k + 1])
    ensures RoutedFrom(old(fs.entries), fs.entries, logFiles.logDir)
    ensures r.Ok? ==> IsDir(fs.entries, logFiles.logDir)
    ensures r.Err? ==> !r.error.TaskFailed? && dfk.trace == old(dfk.trace) && dfk.tasks == old(dfk.tasks)
    ensures r.Err? <==> Lookup(d0, "patch").None? || !Routable(old(fs.entries), logFiles.logDir)
    ensures Lookup(d0, "patch").None? ==> r == Err(KeyError("patch")) && fs.entries == old(fs.entries)
    ensures Lookup(d0, "patch").Some? && r.Err? ==>
      r == Err(FileExists(logFiles.logDir)) && fs.entries == old(fs.entries)
    ensures r.Ok? ==>
      var t := FilterTask(app, taskName, outputRepo, d0, PatchOf(d0), filters[k], logFiles.logDir, logFiles.enable);
      && Lookup(d0, "patch").Some?
      && r.value == |old(dfk.tasks)|
      && dfk.tasks == old(dfk.tasks) + [t]
      && dfk.trace == old(dfk.trace) + [Submit(r.value, t)]
  {
    AfterLoopStep(app, taskName, outputRepo, d0, filters, k, logFiles.logDir, logFiles.enable);
    var f := filters[k];
    ghost var before := dataId.items;
    dataId.Set("filter", StrV(f));
    SetItemLookup(before, "filter", StrV(f), "patch");
    var p := dataId.Get("patch");
    if p.Err? {
      LookupKeys(dataId.items, "patch");
      return Err(p.error);
    }
    ghost var e0 := fs.entries;
    var prefix := taskName + "_" + f + "_" + Show(p.value);
    var logs := logFiles.Call(fs, prefix);
    if logs.Err? {
      RouteFails(e0, logFiles.logDir, logFiles.enable, prefix);
      return Err(logs.error);
    }
    RouteOutcome(e0, logFiles.logDir, logFiles.enable, prefix);
    var snapshot := dataId.items;
    var id := dfk.SubmitTask(Task(StageApp(app, taskName, outputRepo), Some(snapshot), logs.value));
    r := Ok(id);
  }

  /**
   * The `for filt in filters` loop: submits the tasks of `FilterTasks` in
   * order, stopping at the first iteration that raises. The ghost `n` is the
   * number of tasks submitted.
   */
  method SubmitFilters(dfk: DataFlowKernel, fs: FileSystem, logFiles: ParslLogFiles, app: App,
                       taskName: string, outputRepo: string, dataId: DataIdDict, filters: seq<string>)
    returns (r: Result<seq<nat>>, ghost n: nat)
    modifies dfk, fs, dataId
    ensures n <= |filters|
    ensures dfk.tasks == old(dfk.tasks) + FilterTasks(app, taskName, outputRepo, old(dataId.items),
      PatchOf(old(dataId.items)), filters[..n], logFiles.logDir, logFiles.enable)
    ensures dfk.trace == old(dfk.trace) + Submits(|old(dfk.tasks)|, FilterTasks(app, taskName, outputRepo,
      old(dataId.items), PatchOf(old(dataId.items)), filters[..n], logFiles.logDir, logFiles.enable))
    ensures r.Ok? ==>
      && n == |filters|
      && Numbered(r.value, |old(dfk.tasks)|, |filters|)
      && dataId.items == AfterLoop(old(dataId.items), filters)
    ensures r.Err? ==> !r.error.TaskFailed?
    ensures Lookup(old(dataId.items), "patch").None? && |filters| > 0 ==>
      && r == Err(KeyError("patch"))
      && n == 0
      && dataId.items == SetItem(old(dataId.items), "filter", StrV(filters[0]))
    ensures |filters| == 0 ==> r == Ok([]) && fs.entries == old(fs.entries)
    ensures RoutedFrom(old(fs.entries), fs.entries, logFiles.logDir)
    ensures r.Err? <==>
      |filters| > 0 && (Lookup(old(dataId.items), "patch").None? || !Routable(old(fs.entries), logFiles.logDir))
    ensures r.Err? ==> n == 0
    ensures Lookup(old(dataId.items), "patch").Some? && r.Err? ==>
      r == Err(FileExists(logFiles.logDir)) && fs.entries == old(fs.entries)
  {
    ghost var d0 := dataId.items;
    var base := |dfk.tasks|;
    ghost var patch := PatchOf(d0);
    ghost var e0 := dfk.trace;
    ghost var fs0 := fs.entries;
    var outputs: seq<nat> := [];
    var k := 0;
    while k < |filters|
      invariant k <= |filters|
      invariant dfk.tasks == old(dfk.tasks)
        + FilterTasks(app, taskName, outputRepo, d0, patch, filters[..k], logFiles.logDir, logFiles.enable)
      invariant dfk.trace == e0
        + Submits(base, FilterTasks(app, taskName, outputRepo, d0, patch, filters[..k], logFiles.logDir, logFiles.enable))
      invariant Numbered(outputs, base, k)
      invariant dataId.items == AfterLoop(d0, filters[..k])
      invariant k == 0 ==> fs.entries == fs0
      invariant RoutedFrom(fs0, fs.entries, logFiles.logDir)
      invariant k > 0 ==> Lookup(d0, "patch").Some? && IsDir(fs.entries, logFiles.logDir)
    {
      ghost var mid := fs.entries;
      SubmitStep(app, taskName, outputRepo, d0, patch, filters, logFiles.logDir, logFiles.enable, k,
                 old(dfk.tasks), e0, dfk.tasks, dfk.trace);
      var step := SubmitForFilter(dfk, fs, logFiles, app, taskName, outputRepo, dataId, filters, k, d0);
      RoutedTrans(fs0, mid, fs.entries, logFiles.logDir);
      if step.Err? {
        return Err(step.error), k;
      }
      outputs := outputs + [step.value];
      k := k + 1;
    }
    assert filters[..k] == filters;
    r, n := Ok(outputs), k;
  }

  /**
   * `[i.result() for i in outputs]` after a fan-out submitted `ts` from
   * task number `base` on: the trace continues the fan-out's `LoopEvents`.
   */
  method JoinSubmitted(dfk: DataFlowKernel, base: nat, n: nat, ghost ts: seq<Task>, ghost t0: seq<Event>)
    returns (r: Result<()>)
    requires n == |ts| && base + n <= |dfk.tasks|
    requires dfk.trace == t0 + Submits(base, ts)
    modifies dfk
    ensures dfk.tasks == old(dfk.tasks)
    ensures t0 <= dfk.trace && dfk.trace[|t0|..] <= LoopEvents(base, ts)
    ensures r.Ok? <==> FirstFailure(dfk.failing, base, base + n).None?
    ensures r.Ok? ==> dfk.trace == t0 + LoopEvents(base, ts)
    ensures r.Err? ==>
      && r.error.TaskFailed? && r.error.task in dfk.failing
      && |dfk.trace| > 0 && dfk.trace[|dfk.trace| - 1] == Join(r.error.task)
    ensures StopsAtFailure(dfk.failing, t0, dfk.trace, r)
  {
    SubmitsClean(dfk.failing, base, ts);
    StopsClean(dfk.failing, t0, Submits(base, ts), Ok(()));
    r := dfk.JoinRange(base, base + n);
    StopsTrans(dfk.failing, t0, old(dfk.trace), dfk.trace, r);
    ghost var ff := FirstFailure(dfk.failing, base, base + n);
    ghost var m := if ff.Some? then ff.value + 1 - base else n;
    assert dfk.trace == (t0 + Submits(base, ts)) + Joins(base, m);
    ghost var u := Submits(base, ts) + Joins(base, m);
    ConcatAssoc(t0, Submits(base, ts), Joins(base, m));
    DropFront(t0, u);
    PrefixOfJoins(base, ts, m);
    if r.Err? {
      assert ff.Some? && r == Outcome(ff.value, dfk.failing);
      LastJoin(old(dfk.trace), base, m);
    }
  }

  /**
   * `loop_over_filters(task_app, task_name, output_repo, dataId, filters, log_files)`.
   * Futures are task numbers. The run follows `LoopEvents` until it stops;
   * it stops early on a missing `patch` key, a log directory that cannot be
   * made, or a task that fails when joined.
   */
  method LoopOverFilters(dfk: DataFlowKernel, fs: FileSystem, logFiles: ParslLogFiles, app: App,
                         taskName: string, outputRepo: string, dataId: DataIdDict, filters: seq<string>)
    returns (r: Result<seq<nat>>)
    modifies dfk, fs, dataId
    ensures var ts := FilterTasks(app, taskName, outputRepo, old(dataId.items), PatchOf(old(dataId.items)),
                                  filters, logFiles.logDir, logFiles.enable);
      && old(dfk.trace) <= dfk.trace
      && dfk.trace[|old(dfk.trace)|..] <= LoopEvents(|old(dfk.tasks)|, ts)
      && (r.Ok? ==>
            && dfk.trace == old(dfk.trace) + LoopEvents(|old(dfk.tasks)|, ts)
            && dfk.tasks == old(dfk.tasks) + ts
            && Numbered(r.value, |old(dfk.tasks)|, |filters|)
            && FirstFailure(dfk.failing, |old(dfk.tasks)|, |dfk.tasks|).None?
            && dataId.items == AfterLoop(old(dataId.items), filters))
    ensures Lookup(old(dataId.items), "patch").None? && |filters| > 0 ==>
      && r == Err(KeyError("patch"))
      && dfk.trace == old(dfk.trace)
      && dataId.items == SetItem(old(dataId.items), "filter", StrV(filters[0]))
    ensures |filters| == 0 ==> r == Ok([]) && dataId.items == old(dataId.items) && fs.entries == old(fs.entries)
    ensures RoutedFrom(old(fs.entries), fs.entries, logFiles.logDir)
    ensures (r.Err? && !r.error.TaskFailed?) <==>
      |filters| > 0 && (Lookup(old(dataId.items), "patch").None? || !Routable(old(fs.entries), logFiles.logDir))
    ensures Lookup(old(dataId.items), "patch").Some? && r.Err? && !r.error.TaskFailed? ==>
      r == Err(FileExists(logFiles.logDir)) && fs.entries == old(fs.entries) && dfk.trace == old(dfk.trace)
    ensures StopsAtFailure(dfk.failing, old(dfk.trace), dfk.trace, r)
    ensures r.Err? && r.error.TaskFailed? ==> dataId.items == AfterLoop(old(dataId.items), filters)
    ensures Lookup(old(dataId.items), "patch").Some? ==> RoutesOnly(old(fs.entries), fs.entries, logFiles.logDir, r)
  {
    ghost var d0 := dataId.items;
    ghost var ts := FilterTasks(app, taskName, outputRepo, d0, PatchOf(d0), filters, logFiles.logDir, logFiles.enable);
    ghost var t0 := dfk.trace;
    var base := |dfk.tasks|;
    var submitted, n := SubmitFilters(dfk, fs, logFiles, app, taskName, outputRepo, dataId, filters);
    if submitted.Err? {
      ghost var done := FilterTasks(app, taskName, outputRepo, d0, PatchOf(d0), filters[..n], logFiles.logDir, logFiles.enable);
      FilterTasksPrefix(app, taskName, outputRepo, d0, PatchOf(d0), filters, logFiles.logDir, logFiles.enable, n);
      PrefixOfSubmits(base, ts, done);
      DropFront(t0, Submits(base, done));
      SubmitsClean(dfk.failing, base, done);
      StopsClean(dfk.failing, t0, Submits(base, done), submitted);
      return Err(submitted.error);
    }
    assert filters[..n] == filters;
    var j := JoinSubmitted(dfk, base, |filters|, ts, t0);
    if j.Err? {
      return Err(j.error);
    }
    r := Ok(submitted.value);
  }
}
