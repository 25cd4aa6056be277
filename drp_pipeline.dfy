/**
 * The DRP driver script as a program. Each section of the script is a
 * method that follows one step (or the patch loop) of `DrpPlan.Plan`, and
 * `Run` strings the sections together: a run is always a prefix of the
 * plan's events, the whole of them when it succeeds.
 *
 * Two calls in the script cannot run as written: `loop_over_filters` is
 * called as a method of the catalog object, which has none, and
 * `run_coadd_task` is named without its module. Both are modelled as the
 * module-level functions evidently meant, with the catalog's `filters` as
 * the filter list; the `check_patch=False` keyword, which no function
 * accepts, is dropped.
 */
module DrpPipeline {
  import opened Common
  import opened Text
  import opened DataIds
  import opened Commands
  import opened FileSystems
  import opened OutputRepo
  import opened LogFiles
  import opened Catalog
  import opened Dispatch
  import opened Fanout
  import opened DrpPlan

  /** `t` extends `t0` by a prefix of the events of `steps`, numbered from `base`. */
  ghost predicate Within(t0: seq<Event>, t: seq<Event>, base: nat, steps: seq<Step>) {
    t0 <= t && t[|t0|..] <= Events(base, steps)
  }

  /* Composing the trace of a run from the traces of its sections. */

  lemma {:induction false} WithinStart(t0: seq<Event>, base: nat, steps: seq<Step>)
    ensures Within(t0, t0, base, steps)
  {
    assert t0[|t0|..] == [];
  }

  lemma {:induction false} SubmitsAppend(base: nat, a: seq<Task>, b1: nat, b: seq<Task>)
    requires b1 == base + |a|
    ensures Submits(base, a + b) == Submits(base, a) + Submits(b1, b)
  {
  }

  /** Finished steps followed by part of the next ones are part of them all. */
  lemma {:induction false} WithinAppend(t0: seq<Event>, t1: seq<Event>, t: seq<Event>, base: nat, s1: seq<Step>,
                                        b1: nat, s2: seq<Step>)
    requires t1 == t0 + Events(base, s1) && b1 == base + TaskCount(s1)
    requires Within(t1, t, b1, s2)
    ensures Within(t0, t, base, s1 + s2)
  {
    EventsAppendAt(base, s1, s2, b1);
    var a, u := Events(base, s1), t[|t1|..];
    assert t == t1 + u;
    ConcatAssoc(t0, a, u);
    DropFront(t0, a + u);
    PrefixExtend(a, u, Events(b1, s2));
  }

  lemma {:induction false} DoneAppend(t0: seq<Event>, t1: seq<Event>, t: seq<Event>, base: nat, s1: seq<Step>,
                                      b1: nat, s2: seq<Step>)
    requires t1 == t0 + Events(base, s1) && b1 == base + TaskCount(s1)
    requires t == t1 + Events(b1, s2)
    ensures t == t0 + Events(base, s1 + s2)
    ensures base + TaskCount(s1 + s2) == b1 + TaskCount(s2)
  {
    EventsAppendAt(base, s1, s2, b1);
    TaskCountAppend(s1, s2);
    ConcatAssoc(t0, Events(base, s1), Events(b1, s2));
  }

  /** Part of the first steps of a plan is part of the plan. */
  lemma {:induction false} WithinLonger(t0: seq<Event>, t: seq<Event>, base: nat, s1: seq<Step>, s: seq<Step>)
    requires Within(t0, t, base, s1) && s1 <= s
    ensures Within(t0, t, base, s)
  {
    var s2 := s[|s1|..];
    assert s == s1 + s2;
    EventsAppendAt(base, s1, s2, base + TaskCount(s1));
    PrefixOfAppend(t[|t0|..], Events(base, s1), Events(base + TaskCount(s1), s2));
  }

  /** Step `i` of `steps` under way, after the steps before it have finished. */
  lemma {:induction false} StepWithin(t0: seq<Event>, t1: seq<Event>, t: seq<Event>, base: nat, steps: seq<Step>, i: nat, b1: nat, s: Step)
    requires i < |steps| && steps[i] == s
    requires t1 == t0 + Events(base, steps[..i]) && b1 == base + TaskCount(steps[..i])
    requires Within(t1, t, b1, [s])
    ensures Within(t0, t, base, steps)
  {
    WithinAppend(t0, t1, t, base, steps[..i], b1, [s]);
    assert steps[..i] + [s] == steps[..i + 1];
    WithinLonger(t0, t, base, steps[..i + 1], steps);
  }

  /** Step `i` of `steps` finished, after the steps before it have finished. */
  lemma {:induction false} StepDone(t0: seq<Event>, t1: seq<Event>, t: seq<Event>, base: nat, steps: seq<Step>, i: nat, b1: nat, s: Step)
    requires i < |steps| && steps[i] == s
    requires t1 == t0 + Events(base, steps[..i]) && b1 == base + TaskCount(steps[..i])
    requires t == t1 + Events(b1, [s])
    ensures t == t0 + Events(base, steps[..i + 1])
    ensures base + TaskCount(steps[..i + 1]) == b1 + StepTasks(s)
  {
    assert steps[..i] + [s] == steps[..i + 1];
    assert [s][1..] == [];
    DoneAppend(t0, t1, t, base, steps[..i], b1, [s]);
  }

  /** Every run that follows the plan keeps the barrier discipline. */
  lemma {:induction false} RunKeepsBarrier(c: Config, rawVisit: seq<VisitRow>, raw: seq<RawRow>, sky: Option<SkyMap>, t: seq<Event>)
    requires t <= Events(0, Plan(c, rawVisit, raw, sky))
    ensures BarrierHolds(t)
  {
    PlanBarrier(c, rawVisit, raw, sky);
    BarrierPrefix(t, Events(0, Plan(c, rawVisit, raw, sky)));
  }

  /* The sections of the script. */

  /**
   * A stage of a single task: route its logs, call the app, and wait for
   * the future with `.result()`. `t` is the task as the plan lists it.
   */
  method SubmitAndJoin(dfk: DataFlowKernel, fs: FileSystem, logFiles: ParslLogFiles,
                       call: Invocation, dataId: Option<DataId>, prefix: string, ghost t: Task)
    returns (r: Result<()>)
    requires var p := LogPath(logFiles.logDir, logFiles.enable, prefix); t == Task(call, dataId, LogDests(p, p))
    modifies dfk, fs
    ensures Within(old(dfk.trace), dfk.trace, |old(dfk.tasks)|, [Round([t], false)])
    ensures r.Ok? ==>
      dfk.trace == old(dfk.trace) + Events(|old(dfk.tasks)|, [Round([t], false)])
      && |dfk.tasks| == |old(dfk.tasks)| + 1
    ensures StopsAtFailure(dfk.failing, old(dfk.trace), dfk.trace, r)
    ensures RoutesOnly(old(fs.entries), fs.entries, logFiles.logDir, r)
    ensures !Routable(old(fs.entries), logFiles.logDir) ==>
      r == Err(FileExists(logFiles.logDir)) && dfk.trace == old(dfk.trace)
  {
    ghost var t0 := dfk.trace;
    ghost var e0 := fs.entries;
    var base := |dfk.tasks|;
    SingleRound(base, [t], false);
    assert Submits(base, [t]) == [Submit(base, t)];
    assert Joins(base, 1) == [Join(base)];
    var logs := logFiles.Call(fs, prefix);
    RouteFails(e0, logFiles.logDir, logFiles.enable, prefix);
    if logs.Err? {
      WithinStart(t0, base, [Round([t], false)]);
      r := Err(logs.error);
      StopsNothing(dfk.failing, t0, r);
      return;
    }
    RouteOutcome(e0, logFiles.logDir, logFiles.enable, prefix);
    var id := dfk.SubmitTask(Task(call, dataId, logs.value));
    ghost var t1 := dfk.trace;
    r := dfk.Result(id);
    StopsTrans(dfk.failing, t0, t1, dfk.trace, r);
    DropFront(t0, Events(base, [Round([t], false)]));
  }

  /** One `processEimage` call, for raft `rafts[k]` of visit `v`, after the rafts before it. */
  method SubmitRaft(dfk: DataFlowKernel, fs: FileSystem, logFiles: ParslLogFiles, c: Config, v: int,
                    rafts: seq<string>, k: nat, ghost tasks0: seq<Task>, ghost e0: seq<Event>)
    returns (r: Result<()>)
    requires k < |rafts| && logFiles.logDir == c.logDir && logFiles.enable
    requires dfk.tasks == tasks0 + RaftTasks(c, v, rafts)[..k]
    requires dfk.trace == e0 + Submits(|tasks0|, RaftTasks(c, v, rafts)[..k])
    modifies dfk, fs
    ensures r.Ok? ==>
      && dfk.tasks == tasks0 + RaftTasks(c, v, rafts)[..k + 1]
      && dfk.trace == e0 + Submits(|tasks0|, RaftTasks(c, v, rafts)[..k + 1])
    ensures r.Err? ==> dfk.tasks == old(dfk.tasks) && dfk.trace == old(dfk.trace) && !r.error.TaskFailed?
    ensures RoutedFrom(old(fs.entries), fs.entries, c.logDir)
    ensures r.Err? <==> !Routable(old(fs.entries), c.logDir)
    ensures r.Err? ==> r == Err(FileExists(c.logDir)) && fs.entries == old(fs.entries)
    ensures r.Ok? ==> IsDir(fs.entries, c.logDir)
  {
    ghost var ts := RaftTasks(c, v, rafts);
    var dataId := ExposureId(v, rafts[k]);
    var prefix := "processEimage_" + IntToString(v);
    ghost var before := fs.entries;
    var logs := logFiles.Call(fs, prefix);
    RouteFails(before, c.logDir, true, prefix);
    if logs.Err? {
      return Err(logs.error);
    }
    RouteOutcome(before, c.logDir, true, prefix);
    assert ts[..k + 1] == ts[..k] + [ts[k]];
    SubmitsSnoc(|tasks0|, ts[..k], ts[k]);
    var id := dfk.SubmitTask(Task(StageApp(ProcessEimage, "processEimage", c.outputRepo), Some(dataId), logs.value));
    r := Ok(());
  }

  /** The inner loop over the rafts of one visit: one `processEimage` call per raft. */
  method SubmitRafts(dfk: DataFlowKernel, fs: FileSystem, logFiles: ParslLogFiles, c: Config, v: int, rafts: seq<string>)
    returns (r: Result<()>, ghost n: nat)
    requires logFiles.logDir == c.logDir && logFiles.enable
    modifies dfk, fs
    ensures n <= |rafts|
    ensures dfk.tasks == old(dfk.tasks) + RaftTasks(c, v, rafts)[..n]
    ensures dfk.trace == old(dfk.trace) + Submits(|old(dfk.tasks)|, RaftTasks(c, v, rafts)[..n])
    ensures r.Ok? ==> n == |rafts|
    ensures r.Err? ==> !r.error.TaskFailed?
    ensures StopsAtFailure(dfk.failing, old(dfk.trace), dfk.trace, r)
    ensures RoutedFrom(old(fs.entries), fs.entries, c.logDir)
    ensures r.Err? <==> |rafts| > 0 && !Routable(old(fs.entries), c.logDir)
    ensures r.Err? ==> r == Err(FileExists(c.logDir)) && n == 0
  {
    ghost var tasks0, e0, fs0 := dfk.tasks, dfk.trace, fs.entries;
    assert RaftTasks(c, v, rafts)[..0] == [];
    var k := 0;
    while k < |rafts|
      invariant k <= |rafts|
      invariant dfk.tasks == tasks0 + RaftTasks(c, v, rafts)[..k]
      invariant dfk.trace == e0 + Submits(|tasks0|, RaftTasks(c, v, rafts)[..k])
      invariant RoutedFrom(fs0, fs.entries, c.logDir)
      invariant k == 0 ==> fs.entries == fs0
      invariant k > 0 ==> IsDir(fs.entries, c.logDir)
    {
      ghost var mid := fs.entries;
      var step := SubmitRaft(dfk, fs, logFiles, c, v, rafts, k, tasks0, e0);
      RoutedTrans(fs0, mid, fs.entries, c.logDir);
      if step.Err? {
        SubmitsClean(dfk.failing, |tasks0|, RaftTasks(c, v, rafts)[..k]);
        StopsClean(dfk.failing, e0, Submits(|tasks0|, RaftTasks(c, v, rafts)[..k]), step);
        return step, k;
      }
      k := k + 1;
    }
    assert RaftTasks(c, v, rafts)[..k] == RaftTasks(c, v, rafts);
    r, n := Ok(()), k;
    SubmitsClean(dfk.failing, |tasks0|, RaftTasks(c, v, rafts)[..k]);
    StopsClean(dfk.failing, e0, Submits(|tasks0|, RaftTasks(c, v, rafts)[..k]), r);
  }

  /** The tasks of one more visit follow those of the visits before it. */
  lemma {:induction false} EimageTasksSnoc(c: Config, visits: seq<int>, raw: seq<RawRow>, k: nat)
    requires k < |visits|
    ensures EimageTasks(c, visits[..k + 1], raw)
         == EimageTasks(c, visits[..k], raw) + RaftTasks(c, visits[k], RaftList(raw, visits[k]))
  {
    assert visits[..k + 1][..k] == visits[..k];
  }

  /** Submitting the first tasks of a round is part of the round. */
  lemma {:induction false} SubmittedWithin(t0: seq<Event>, t: seq<Event>, base: nat, ts: seq<Task>, done: seq<Task>)
    requires done <= ts && t == t0 + Submits(base, done)
    ensures Within(t0, t, base, [Round(ts, false)])
  {
    PrefixOfSubmits(base, ts, done);
    DropFront(t0, Submits(base, done));
  }

  /** The rafts of visit `visits[k]`, after the visits before it. */
  method VisitStep(dfk: DataFlowKernel, fs: FileSystem, logFiles: ParslLogFiles, jeeves: Jeeves, c: Config,
                   visits: seq<int>, k: nat, ghost ts: seq<Task>, ghost t0: seq<Event>, ghost base: nat)
    returns (r: Result<()>)
    requires k < |visits| && jeeves.Valid()
    requires logFiles.logDir == c.logDir && logFiles.enable
    requires ts == EimageTasks(c, visits, jeeves.data.raw)
    requires dfk.trace == t0 + Submits(base, EimageTasks(c, visits[..k], jeeves.data.raw))
    requires |dfk.tasks| == base + |EimageTasks(c, visits[..k], jeeves.data.raw)|
    modifies dfk, fs
    ensures r.Ok? ==>
      && dfk.trace == t0 + Submits(base, EimageTasks(c, visits[..k + 1], jeeves.data.raw))
      && |dfk.tasks| == base + |EimageTasks(c, visits[..k + 1], jeeves.data.raw)|
    ensures r.Err? ==> Within(t0, dfk.trace, base, [Round(ts, false)]) && !r.error.TaskFailed?
    ensures StopsAtFailure(dfk.failing, old(dfk.trace), dfk.trace, r)
    ensures RoutedFrom(old(fs.entries), fs.entries, c.logDir)
    ensures r.Err? <==> |RaftList(jeeves.data.raw, visits[k])| > 0 && !Routable(old(fs.entries), c.logDir)
    ensures r.Err? ==> r == Err(FileExists(c.logDir))
  {
    ghost var raw := jeeves.data.raw;
    var rafts := jeeves.GetRafts(visits[k]);
    ghost var done := EimageTasks(c, visits[..k], raw);
    ghost var next := RaftTasks(c, visits[k], rafts);
    EimageTasksSnoc(c, visits, raw, k);
    ghost var b1 := |dfk.tasks|;
    var submitted, n := SubmitRafts(dfk, fs, logFiles, c, visits[k], rafts);
    SubmitsAppend(base, done, b1, next[..n]);
    ConcatAssoc(t0, Submits(base, done), Submits(b1, next[..n]));
    if submitted.Err? {
      EimageTasksPrefix(c, visits, raw, k + 1);
      PrefixTrans(done + next[..n], done + next, ts);
      SubmittedWithin(t0, dfk.trace, base, ts, done + next[..n]);
      return submitted;
    }
    assert next[..n] == next;
    r := Ok(());
  }

  /**
   * The exposure stage: one `processEimage` task for every visit the
   * registry lists and every raft it lists for that visit, then every
   * future is waited for. `ts` is the list of those tasks.
   */
  method RunEimages(dfk: DataFlowKernel, fs: FileSystem, logFiles: ParslLogFiles, jeeves: Jeeves, c: Config,
                    ghost ts: seq<Task>)
    returns (r: Result<()>)
    requires jeeves.Valid() && jeeves.visitCache.None?
    requires ts == EimageTasks(c, VisitColumn(jeeves.data.rawVisit), jeeves.data.raw)
    requires logFiles.logDir == c.logDir && logFiles.enable
    modifies dfk, fs, jeeves
    ensures jeeves.Valid()
    ensures jeeves.filterCache == old(jeeves.filterCache) && jeeves.skyMapCache == old(jeeves.skyMapCache)
    ensures Within(old(dfk.trace), dfk.trace, |old(dfk.tasks)|, [Round(ts, false)])
    ensures r.Ok? ==>
      dfk.trace == old(dfk.trace) + Events(|old(dfk.tasks)|, [Round(ts, false)])
      && |dfk.tasks| == |old(dfk.tasks)| + |ts|
    ensures StopsAtFailure(dfk.failing, old(dfk.trace), dfk.trace, r)
    ensures RoutesOnly(old(fs.entries), fs.entries, c.logDir, r)
  {
    var visits := jeeves.GetVisits();
    ghost var t0 := dfk.trace;
    var base := |dfk.tasks|;
    r := SubmitVisits(dfk, fs, logFiles, jeeves, c, visits, ts);
    if r.Err? {
      return;
    }
    r := JoinSubmitted(dfk, base, |dfk.tasks| - base, ts, t0);
  }

  /**
   * `for visit in jeeves.visits: for raft in jeeves.get_rafts(visit): ...`:
   * the submissions of the exposure stage, in visit order and registry
   * order within a visit, joining nothing.
   */
  method SubmitVisits(dfk: DataFlowKernel, fs: FileSystem, logFiles: ParslLogFiles, jeeves: Jeeves, c: Config,
                      visits: seq<int>, ghost ts: seq<Task>)
    returns (r: Result<()>)
    requires jeeves.Valid() && ts == EimageTasks(c, visits, jeeves.data.raw)
    requires logFiles.logDir == c.logDir && logFiles.enable
    modifies dfk, fs
    ensures Within(old(dfk.trace), dfk.trace, |old(dfk.tasks)|, [Round(ts, false)])
    ensures r.Ok? ==>
      dfk.trace == old(dfk.trace) + Submits(|old(dfk.tasks)|, ts) && |dfk.tasks| == |old(dfk.tasks)| + |ts|
    ensures r.Err? ==> !r.error.TaskFailed?
    ensures StopsAtFailure(dfk.failing, old(dfk.trace), dfk.trace, r)
    ensures RoutesOnly(old(fs.entries), fs.entries, c.logDir, r)
  {
    ghost var t0, fs0 := dfk.trace, fs.entries;
    var base := |dfk.tasks|;
    assert visits[..0] == [];
    r := Ok(());
    var k := 0;
    while k < |visits|
      invariant k <= |visits|
      invariant dfk.trace == t0 + Submits(base, EimageTasks(c, visits[..k], jeeves.data.raw))
      invariant |dfk.tasks| == base + |EimageTasks(c, visits[..k], jeeves.data.raw)|
      invariant RoutedFrom(fs0, fs.entries, c.logDir)
    {
      ghost var mid, fmid := dfk.trace, fs.entries;
      r := VisitStep(dfk, fs, logFiles, jeeves, c, visits, k, ts, t0, base);
      RoutesOnlyTrans(fs0, fmid, fs.entries, c.logDir, r);
      if r.Err? {
        SubmitsClean(dfk.failing, base, EimageTasks(c, visits[..k], jeeves.data.raw));
        StopsClean(dfk.failing, t0, Submits(base, EimageTasks(c, visits[..k], jeeves.data.raw)), Ok(()));
        StopsTrans(dfk.failing, t0, mid, dfk.trace, r);
        return;
      }
      k := k + 1;
    }
    assert visits[..k] == visits;
    r := Ok(());
    SubmittedWithin(t0, dfk.trace, base, ts, ts);
    SubmitsClean(dfk.failing, base, ts);
    StopsClean(dfk.failing, t0, Submits(base, ts), r);
  }

  /** The dict a stage starts from yields the stage's tasks, and leaves the same dict behind. */
  lemma {:induction false} StageDataId(c: Config, id: string, stage: (App, string), filters: seq<string>, d: DataId)
    requires d == PatchDataId(id) || d == AfterLoop(PatchDataId(id), filters)
    ensures FilterTasks(stage.0, stage.1, c.outputRepo, d, PatchOf(d), filters, c.logDir, true)
         == StageTasks(c, id, filters, stage)
    ensures AfterLoop(d, filters) == AfterLoop(PatchDataId(id), filters)
    ensures Lookup(d, "patch") == Some(StrV(id))
  {
    var p := PatchDataId(id);
    PatchFilterId(id, StrV(id));
    if d != p {
      var x := StrV(filters[|filters| - 1]);
      SetItemLookup(p, "filter", x, "patch");
      FilterTasksReset(stage.0, stage.1, c.outputRepo, p, StrV(id), x, filters, c.logDir, true);
      SetItemTwice(p, "filter", x, x);
    }
  }

  /** Part of `loop_over_filters`' round is part of the round joined twice. */
  lemma {:induction false} RejoinWithin(t0: seq<Event>, t: seq<Event>, base: nat, ts: seq<Task>)
    requires t0 <= t && t[|t0|..] <= LoopEvents(base, ts)
    ensures Within(t0, t, base, [Round(ts, true)])
  {
    SingleRound(base, ts, false);
    SingleRound(base, ts, true);
  }

  /** `loop_over_filters`' round followed by the driver's second join of its futures. */
  lemma {:induction false} RejoinDone(t0: seq<Event>, t1: seq<Event>, t: seq<Event>, base: nat, ts: seq<Task>)
    requires t1 == t0 + LoopEvents(base, ts) && t == t1 + Joins(base, |ts|)
    ensures t == t0 + Events(base, [Round(ts, true)])
  {
    RejoinEvents(base, ts);
    ConcatAssoc(t0, LoopEvents(base, ts), Joins(base, |ts|));
  }

  lemma {:induction false} RejoinEvents(base: nat, ts: seq<Task>)
    ensures LoopEvents(base, ts) + Joins(base, |ts|) == Events(base, [Round(ts, true)])
  {
    SingleRound(base, ts, false);
    SingleRound(base, ts, true);
    assert Submits(base, ts) + Joins(base, |ts|) + [] == Submits(base, ts) + Joins(base, |ts|);
  }

  /**
   * The driver's `[x.result() for x in outputs]` on futures that have all
   * completed without error: each is joined once more, and none raises.
   */
  method ResultsAgain(dfk: DataFlowKernel, outputs: seq<nat>, ghost base: nat)
    requires Numbered(outputs, base, |outputs|) && base + |outputs| <= |dfk.tasks|
    requires FirstFailure(dfk.failing, base, base + |outputs|).None?
    modifies dfk
    ensures dfk.tasks == old(dfk.tasks)
    ensures dfk.trace == old(dfk.trace) + Joins(base, |outputs|)
    ensures StopsAtFailure(dfk.failing, old(dfk.trace), dfk.trace, Ok(()))
  {
    var k := 0;
    while k < |outputs|
      invariant k <= |outputs|
      invariant dfk.tasks == old(dfk.tasks)
      invariant dfk.trace == old(dfk.trace) + Joins(base, k)
    {
      var r := dfk.Result(outputs[k]);
      assert r.Ok?;
      assert Joins(base, k + 1) == Joins(base, k) + [Join(base + k)];
      k := k + 1;
    }
    JoinsClean(dfk.failing, base, |outputs|);
    StopsClean(dfk.failing, old(dfk.trace), Joins(base, |outputs|), Ok(()));
  }

  /**
   * One coadd stage of one patch: `loop_over_filters` over `filters`, the
   * catalog's filter list, then the driver's own
   * `[x.result() for x in outputs]`. `ts` is the list of the stage's tasks.
   */
  method RunStage(dfk: DataFlowKernel, fs: FileSystem, logFiles: ParslLogFiles, c: Config, id: string,
                  stage: (App, string), dataId: DataIdDict, filters: seq<string>, ghost ts: seq<Task>)
    returns (r: Result<()>)
    requires ts == StageTasks(c, id, filters, stage)
    requires logFiles.logDir == c.logDir && logFiles.enable
    requires dataId.items == PatchDataId(id) || dataId.items == AfterLoop(PatchDataId(id), filters)
    modifies dfk, fs, dataId
    ensures Within(old(dfk.trace), dfk.trace, |old(dfk.tasks)|, [Round(ts, true)])
    ensures r.Ok? ==>
      && dfk.trace == old(dfk.trace) + Events(|old(dfk.tasks)|, [Round(ts, true)])
      && |dfk.tasks| == |old(dfk.tasks)| + |ts|
      && dataId.items == AfterLoop(PatchDataId(id), filters)
    ensures StopsAtFailure(dfk.failing, old(dfk.trace), dfk.trace, r)
    ensures RoutesOnly(old(fs.entries), fs.entries, c.logDir, r)
  {
    ghost var t0, e0 := dfk.trace, fs.entries;
    var base := |dfk.tasks|;
    var outputs := StageLoop(dfk, fs, logFiles, c, id, stage, dataId, filters, ts);
    if outputs.Err? {
      RejoinWithin(t0, dfk.trace, base, ts);
      r := Err(outputs.error);
      RoutesOnlyErr(e0, fs.entries, c.logDir, outputs, r);
      assert StopsAtFailure(dfk.failing, t0, dfk.trace, outputs);
      return;
    }
    ghost var t1 := dfk.trace;
    assert StopsAtFailure(dfk.failing, t0, t1, outputs);
    ResultsAgain(dfk, outputs.value, base);
    RejoinDone(t0, t1, dfk.trace, base, ts);
    DropFront(t0, Events(base, [Round(ts, true)]));
    r := Ok(());
    StopsTrans(dfk.failing, t0, t1, dfk.trace, r);
  }

  /** `jeeves.loop_over_filters(...)` for one coadd stage of patch `id`, stated with the stage's tasks `ts`. */
  method StageLoop(dfk: DataFlowKernel, fs: FileSystem, logFiles: ParslLogFiles, c: Config, id: string,
                   stage: (App, string), dataId: DataIdDict, filters: seq<string>, ghost ts: seq<Task>)
    returns (outputs: Result<seq<nat>>)
    requires ts == StageTasks(c, id, filters, stage)
    requires logFiles.logDir == c.logDir && logFiles.enable
    requires dataId.items == PatchDataId(id) || dataId.items == AfterLoop(PatchDataId(id), filters)
    modifies dfk, fs, dataId
    ensures old(dfk.trace) <= dfk.trace && dfk.trace[|old(dfk.trace)|..] <= LoopEvents(|old(dfk.tasks)|, ts)
    ensures outputs.Ok? ==>
      && dfk.trace == old(dfk.trace) + LoopEvents(|old(dfk.tasks)|, ts)
      && |dfk.tasks| == |old(dfk.tasks)| + |ts|
      && Numbered(outputs.value, |old(dfk.tasks)|, |ts|)
      && FirstFailure(dfk.failing, |old(dfk.tasks)|, |old(dfk.tasks)| + |ts|).None?
      && dataId.items == AfterLoop(PatchDataId(id), filters)
    ensures StopsAtFailure(dfk.failing, old(dfk.trace), dfk.trace, outputs)
    ensures RoutesOnly(old(fs.entries), fs.entries, c.logDir, outputs)
  {
    StageDataId(c, id, stage, filters, dataId.items);
    outputs := LoopOverFilters(dfk, fs, logFiles, stage.0, stage.1, c.outputRepo, dataId, filters);
  }

  /** Coadd stage `i` of a patch, once the stages before it have finished. */
  method RunPatchStage(dfk: DataFlowKernel, fs: FileSystem, logFiles: ParslLogFiles, jeeves: Jeeves, c: Config,
                       id: string, dataId: DataIdDict, i: nat, ghost filters: seq<string>, ghost t0: seq<Event>, ghost base: nat)
    returns (r: Result<()>)
    requires i < |CoaddStages|
    requires jeeves.Valid() && filters == FilterList(jeeves.data.rawVisit)
    requires jeeves.filterCache.None? || jeeves.filterCache == Some(filters)
    requires logFiles.logDir == c.logDir && logFiles.enable
    requires dataId.items == PatchDataId(id) || dataId.items == AfterLoop(PatchDataId(id), filters)
    requires Reached(dfk, t0, base, PatchRounds(c, id, filters), i)
    modifies dfk, fs, jeeves, dataId
    ensures jeeves.Valid() && jeeves.filterCache == Some(filters) && jeeves.skyMapCache == old(jeeves.skyMapCache)
    ensures Within(t0, dfk.trace, base, PatchRounds(c, id, filters))
    ensures r.Ok? ==>
      Reached(dfk, t0, base, PatchRounds(c, id, filters), i + 1) && dataId.items == AfterLoop(PatchDataId(id), filters)
    ensures StopsAtFailure(dfk.failing, old(dfk.trace), dfk.trace, r)
    ensures RoutesOnly(old(fs.entries), fs.entries, c.logDir, r)
  {
    ghost var steps := PatchRounds(c, id, filters);
    ghost var ts := StageTasks(c, id, filters, CoaddStages[i]);
    assert steps[i] == Round(ts, true);
    var fl := jeeves.GetFilters();
    ghost var t1, b1 := dfk.trace, |dfk.tasks|;
    r := RunStage(dfk, fs, logFiles, c, id, CoaddStages[i], dataId, fl, ts);
    StepWithin(t0, t1, dfk.trace, base, steps, i, b1, Round(ts, true));
    if r.Ok? {
      StepDone(t0, t1, dfk.trace, base, steps, i, b1, Round(ts, true));
    }
  }

  /**
   * The body of the patch loop: a fresh dataId, then the six coadd stages in
   * order. The script writes out the first two stages (`makeCoaddTempExp`,
   * `assembleCoadd`) and loops over the other four (`coadd_tasks`); each is
   * the same `loop_over_filters` call followed by the driver's joins, so the
   * model runs all six as one loop over `CoaddStages`.
   */
  method RunPatch(dfk: DataFlowKernel, fs: FileSystem, logFiles: ParslLogFiles, jeeves: Jeeves, c: Config,
                  id: string, ghost filters: seq<string>)
    returns (r: Result<()>)
    requires jeeves.Valid() && filters == FilterList(jeeves.data.rawVisit)
    requires jeeves.filterCache.None? || jeeves.filterCache == Some(filters)
    requires logFiles.logDir == c.logDir && logFiles.enable
    modifies dfk, fs, jeeves
    ensures jeeves.Valid() && jeeves.filterCache == Some(filters) && jeeves.skyMapCache == old(jeeves.skyMapCache)
    ensures Within(old(dfk.trace), dfk.trace, |old(dfk.tasks)|, PatchRounds(c, id, filters))
    ensures r.Ok? ==>
      dfk.trace == old(dfk.trace) + Events(|old(dfk.tasks)|, PatchRounds(c, id, filters))
      && |dfk.tasks| == |old(dfk.tasks)| + TaskCount(PatchRounds(c, id, filters))
    ensures StopsAtFailure(dfk.failing, old(dfk.trace), dfk.trace, r)
    ensures RoutesOnly(old(fs.entries), fs.entries, c.logDir, r)
  {
    var dataId := new DataIdDict(PatchDataId(id));
    ghost var steps := PatchRounds(c, id, filters);
    ghost var t0, fs0 := dfk.trace, fs.entries;
    var base := |dfk.tasks|;
    assert steps[..0] == [];
    r := Ok(());
    StopsNothing(dfk.failing, t0, r);
    var i := 0;
    while i < |CoaddStages|
      invariant i <= |CoaddStages|
      invariant jeeves.Valid() && (jeeves.filterCache.None? || jeeves.filterCache == Some(filters))
      invariant i > 0 ==> jeeves.filterCache == Some(filters)
      invariant jeeves.skyMapCache == old(jeeves.skyMapCache)
      invariant dataId.items == PatchDataId(id) || dataId.items == AfterLoop(PatchDataId(id), filters)
      invariant Reached(dfk, t0, base, steps, i)
      invariant r.Ok? && StopsAtFailure(dfk.failing, t0, dfk.trace, r)
      invariant RoutedFrom(fs0, fs.entries, c.logDir)
    {
      ghost var mid, fmid := dfk.trace, fs.entries;
      r := RunPatchStage(dfk, fs, logFiles, jeeves, c, id, dataId, i, filters, t0, base);
      StopsTrans(dfk.failing, t0, mid, dfk.trace, r);
      RoutesOnlyTrans(fs0, fmid, fs.entries, c.logDir, r);
      if r.Err? {
        return;
      }
      i := i + 1;
    }
    assert steps[..i] == steps;
    DropFront(t0, Events(base, steps));
  }

  /** Patch `ids[k]`, once the patches before it have finished. */
  method PatchStep(dfk: DataFlowKernel, fs: FileSystem, logFiles: ParslLogFiles, jeeves: Jeeves, c: Config,
                   ids: seq<string>, k: nat, ghost filters: seq<string>, ghost t0: seq<Event>, ghost base: nat)
    returns (r: Result<()>)
    requires k < |ids|
    requires jeeves.Valid() && filters == FilterList(jeeves.data.rawVisit)
    requires jeeves.filterCache.None? || jeeves.filterCache == Some(filters)
    requires logFiles.logDir == c.logDir && logFiles.enable
    requires dfk.trace == t0 + Events(base, PatchesRounds(c, ids[..k], filters))
    requires |dfk.tasks| == base + TaskCount(PatchesRounds(c, ids[..k], filters))
    modifies dfk, fs, jeeves
    ensures jeeves.Valid() && jeeves.filterCache == Some(filters)
    ensures Within(t0, dfk.trace, base, PatchesRounds(c, ids, filters))
    ensures r.Ok? ==>
      dfk.trace == t0 + Events(base, PatchesRounds(c, ids[..k + 1], filters))
      && |dfk.tasks| == base + TaskCount(PatchesRounds(c, ids[..k + 1], filters))
    ensures StopsAtFailure(dfk.failing, old(dfk.trace), dfk.trace, r)
    ensures RoutesOnly(old(fs.entries), fs.entries, c.logDir, r)
  {
    ghost var t1, b1 := dfk.trace, |dfk.tasks|;
    r := RunPatch(dfk, fs, logFiles, jeeves, c, ids[k], filters);
    PatchWithin(t0, t1, dfk.trace, base, c, ids, k, filters, b1);
    if r.Ok? {
      PatchDone(t0, t1, dfk.trace, base, c, ids, k, filters, b1);
    }
  }

  /** Patch `ids[k]` under way, after the patches before it have finished. */
  lemma {:induction false} PatchWithin(t0: seq<Event>, t1: seq<Event>, t: seq<Event>, base: nat, c: Config,
                                       ids: seq<string>, k: nat, filters: seq<string>, b1: nat)
    requires k < |ids|
    requires t1 == t0 + Events(base, PatchesRounds(c, ids[..k], filters))
    requires b1 == base + TaskCount(PatchesRounds(c, ids[..k], filters))
    requires Within(t1, t, b1, PatchRounds(c, ids[k], filters))
    ensures Within(t0, t, base, PatchesRounds(c, ids, filters))
  {
    var done, next := PatchesRounds(c, ids[..k], filters), PatchRounds(c, ids[k], filters);
    PatchesSnoc(c, ids, k, filters);
    WithinAppend(t0, t1, t, base, done, b1, next);
    PatchesRoundsPrefix(c, ids, filters, k + 1);
    WithinLonger(t0, t, base, done + next, PatchesRounds(c, ids, filters));
  }

  /** Patch `ids[k]` finished, after the patches before it have finished. */
  lemma {:induction false} PatchDone(t0: seq<Event>, t1: seq<Event>, t: seq<Event>, base: nat, c: Config,
                                     ids: seq<string>, k: nat, filters: seq<string>, b1: nat)
    requires k < |ids|
    requires t1 == t0 + Events(base, PatchesRounds(c, ids[..k], filters))
    requires b1 == base + TaskCount(PatchesRounds(c, ids[..k], filters))
    requires t == t1 + Events(b1, PatchRounds(c, ids[k], filters))
    ensures t == t0 + Events(base, PatchesRounds(c, ids[..k + 1], filters))
    ensures base + TaskCount(PatchesRounds(c, ids[..k + 1], filters)) == b1 + TaskCount(PatchRounds(c, ids[k], filters))
  {
    PatchesSnoc(c, ids, k, filters);
    DoneAppend(t0, t1, t, base, PatchesRounds(c, ids[..k], filters), b1, PatchRounds(c, ids[k], filters));
  }

  lemma {:induction false} PatchesSnoc(c: Config, ids: seq<string>, k: nat, filters: seq<string>)
    requires k < |ids|
    ensures PatchesRounds(c, ids[..k + 1], filters) == PatchesRounds(c, ids[..k], filters) + PatchRounds(c, ids[k], filters)
  {
    assert ids[..k + 1][..k] == ids[..k];
  }

  /** `for patch_id in jeeves.get_patch_ids(): ...`. */
  method RunPatches(dfk: DataFlowKernel, fs: FileSystem, logFiles: ParslLogFiles, jeeves: Jeeves, c: Config,
                    ids: seq<string>, ghost filters: seq<string>)
    returns (r: Result<()>)
    requires jeeves.Valid() && filters == FilterList(jeeves.data.rawVisit)
    requires jeeves.filterCache.None? || jeeves.filterCache == Some(filters)
    requires logFiles.logDir == c.logDir && logFiles.enable
    modifies dfk, fs, jeeves
    ensures Within(old(dfk.trace), dfk.trace, |old(dfk.tasks)|, PatchesRounds(c, ids, filters))
    ensures r.Ok? ==>
      dfk.trace == old(dfk.trace) + Events(|old(dfk.tasks)|, PatchesRounds(c, ids, filters))
      && |dfk.tasks| == |old(dfk.tasks)| + TaskCount(PatchesRounds(c, ids, filters))
    ensures StopsAtFailure(dfk.failing, old(dfk.trace), dfk.trace, r)
    ensures RoutesOnly(old(fs.entries), fs.entries, c.logDir, r)
  {
    ghost var t0, fs0 := dfk.trace, fs.entries;
    ghost var base := |dfk.tasks|;
    assert ids[..0] == [];
    assert t0 == t0 + Events(base, PatchesRounds(c, ids[..0], filters));
    r := Ok(());
    StopsNothing(dfk.failing, t0, r);
    var k := 0;
    while k < |ids|
      invariant k <= |ids|
      invariant jeeves.Valid() && (jeeves.filterCache.None? || jeeves.filterCache == Some(filters))
      invariant dfk.trace == t0 + Events(base, PatchesRounds(c, ids[..k], filters))
      invariant |dfk.tasks| == base + TaskCount(PatchesRounds(c, ids[..k], filters))
      invariant r.Ok? && StopsAtFailure(dfk.failing, t0, dfk.trace, r)
      invariant RoutedFrom(fs0, fs.entries, c.logDir)
    {
      ghost var mid, fmid := dfk.trace, fs.entries;
      r := PatchStep(dfk, fs, logFiles, jeeves, c, ids, k, filters, t0, base);
      StopsTrans(dfk.failing, t0, mid, dfk.trace, r);
      RoutesOnlyTrans(fs0, fmid, fs.entries, c.logDir, r);
      if r.Err? {
        return;
      }
      k := k + 1;
    }
    assert ids[..k] == ids;
    DropFront(t0, Events(base, PatchesRounds(c, ids, filters)));
  }

  /** The registry step: the trace gains exactly the plan's `RegistryOpened`. */
  lemma {:induction false} RegistryEvents(b: nat)
    ensures Events(b, [OpenRegistry]) == [RegistryOpened]
  {
    assert [OpenRegistry][1..] == [];
  }

  /** Part of a plan run from an empty trace is a prefix of the plan's events. */
  lemma {:induction false} WithinFromStart(t: seq<Event>, base: nat, steps: seq<Step>)
    requires Within([], t, base, steps)
    ensures t <= Events(base, steps)
  {
    assert t[0..] == t;
  }

  /** The first `i` steps of `steps` have finished, from trace `t0` and task number `base` on. */
  ghost predicate Reached(dfk: DataFlowKernel, t0: seq<Event>, base: nat, steps: seq<Step>, i: nat)
    reads dfk
  {
    i <= |steps| && dfk.trace == t0 + Events(base, steps[..i]) && |dfk.tasks| == base + TaskCount(steps[..i])
  }

  /** Step `i` of `steps`, a single task, once the steps before it have finished. */
  method TaskStep(dfk: DataFlowKernel, fs: FileSystem, logFiles: ParslLogFiles, call: Invocation,
                  dataId: Option<DataId>, prefix: string, ghost t: Task,
                  ghost steps: seq<Step>, i: nat, ghost t0: seq<Event>, ghost base: nat)
    returns (r: Result<()>)
    requires var p := LogPath(logFiles.logDir, logFiles.enable, prefix); t == Task(call, dataId, LogDests(p, p))
    requires i < |steps| && steps[i] == Round([t], false)
    requires Reached(dfk, t0, base, steps, i)
    modifies dfk, fs
    ensures Within(t0, dfk.trace, base, steps)
    ensures r.Ok? ==> Reached(dfk, t0, base, steps, i + 1)
    ensures StopsAtFailure(dfk.failing, old(dfk.trace), dfk.trace, r)
    ensures RoutesOnly(old(fs.entries), fs.entries, logFiles.logDir, r)
    ensures !Routable(old(fs.entries), logFiles.logDir) ==>
      r == Err(FileExists(logFiles.logDir)) && dfk.trace == old(dfk.trace)
  {
    ghost var t1, b1 := dfk.trace, |dfk.tasks|;
    r := SubmitAndJoin(dfk, fs, logFiles, call, dataId, prefix, t);
    StepWithin(t0, t1, dfk.trace, base, steps, i, b1, steps[i]);
    if r.Ok? {
      StepDone(t0, t1, dfk.trace, base, steps, i, b1, steps[i]);
    }
  }

  /** Step `i` of `steps`, the exposure stage, once the steps before it have finished. */
  method EimagesStep(dfk: DataFlowKernel, fs: FileSystem, logFiles: ParslLogFiles, jeeves: Jeeves, c: Config,
                     ghost steps: seq<Step>, i: nat, ghost t0: seq<Event>, ghost base: nat)
    returns (r: Result<()>)
    requires jeeves.Valid() && jeeves.visitCache.None?
    requires logFiles.logDir == c.logDir && logFiles.enable
    requires i < |steps| && steps[i] == Round(EimageTasks(c, VisitColumn(jeeves.data.rawVisit), jeeves.data.raw), false)
    requires Reached(dfk, t0, base, steps, i)
    modifies dfk, fs, jeeves
    ensures jeeves.Valid()
    ensures jeeves.filterCache == old(jeeves.filterCache) && jeeves.skyMapCache == old(jeeves.skyMapCache)
    ensures Within(t0, dfk.trace, base, steps)
    ensures r.Ok? ==> Reached(dfk, t0, base, steps, i + 1)
    ensures StopsAtFailure(dfk.failing, old(dfk.trace), dfk.trace, r)
    ensures RoutesOnly(old(fs.entries), fs.entries, c.logDir, r)
  {
    ghost var t1, b1 := dfk.trace, |dfk.tasks|;
    r := RunEimages(dfk, fs, logFiles, jeeves, c, steps[i].tasks);
    StepWithin(t0, t1, dfk.trace, base, steps, i, b1, steps[i]);
    if r.Ok? {
      StepDone(t0, t1, dfk.trace, base, steps, i, b1, steps[i]);
    }
  }

  /** The first `i` steps finished: the trace so far is part of the whole of `steps`. */
  lemma {:induction false} ReachedWithin(t0: seq<Event>, t: seq<Event>, base: nat, steps: seq<Step>, i: nat)
    requires i <= |steps| && t == t0 + Events(base, steps[..i])
    ensures Within(t0, t, base, steps)
  {
    DropFront(t0, Events(base, steps[..i]));
    WithinLonger(t0, t, base, steps[..i], steps);
  }

  /** Part of the first steps of a run from an empty trace is part of all of them. */
  lemma {:induction false} PlanPrefix(t: seq<Event>, head: seq<Step>, tail: seq<Step>)
    requires Within([], t, 0, head)
    ensures t <= Events(0, head + tail)
  {
    WithinLonger([], t, 0, head, head + tail);
    WithinFromStart(t, 0, head + tail);
  }

  /**
   * `ingestSimImages`, waited for, then the catalog opening the registry
   * it has filled: steps 0 and 1 of `head`.
   */
  method RunIngest(c: Config, dfk: DataFlowKernel, fs: FileSystem, logFiles: ParslLogFiles, repo: string,
                   ghost head: seq<Step>)
    returns (r: Result<()>)
    requires repo == c.outputRepo && logFiles.logDir == c.logDir && logFiles.enable
    requires |head| == 4 && head[0] == Round([IngestTask(c)], false) && head[1] == OpenRegistry
    requires dfk.tasks == [] && dfk.trace == []
    modifies dfk, fs
    ensures Within([], dfk.trace, 0, head)
    ensures r.Ok? ==> Reached(dfk, [], 0, head, 2)
    ensures StopsAtFailure(dfk.failing, old(dfk.trace), dfk.trace, r)
    ensures RoutesOnly(old(fs.entries), fs.entries, c.logDir, r)
    ensures !Routable(old(fs.entries), c.logDir) ==> r == Err(FileExists(c.logDir)) && dfk.trace == []
  {
    assert head[..0] == [];
    r := TaskStep(dfk, fs, logFiles, IngestSimImages(repo, c.eimagePattern), None, "ingestSimImages",
                  IngestTask(c), head, 0, [], 0);
    if r.Err? {
      return;
    }
    ghost var t1, b1 := dfk.trace, |dfk.tasks|;
    dfk.NoteRegistryOpened();
    StopsTrans(dfk.failing, [], t1, dfk.trace, r);
    RegistryEvents(b1);
    StepDone([], t1, dfk.trace, 0, head, 1, b1, head[1]);
    ReachedWithin([], dfk.trace, 0, head, 2);
  }

  /**
   * `processEimage` over every visit and raft, then `makeDiscreteSkyMap`:
   * steps 2 and 3 of `head`.
   */
  method RunExposures(c: Config, dfk: DataFlowKernel, fs: FileSystem, logFiles: ParslLogFiles, jeeves: Jeeves,
                      ghost head: seq<Step>)
    returns (r: Result<()>)
    requires jeeves.repo == c.outputRepo && logFiles.logDir == c.logDir && logFiles.enable
    requires jeeves.Valid() && jeeves.visitCache.None?
    requires |head| == 4
    requires head[2] == Round(EimageTasks(c, VisitColumn(jeeves.data.rawVisit), jeeves.data.raw), false)
    requires head[3] == Round([SkyMapTask(c)], false)
    requires Reached(dfk, [], 0, head, 2)
    modifies dfk, fs, jeeves
    ensures jeeves.Valid()
    ensures jeeves.filterCache == old(jeeves.filterCache) && jeeves.skyMapCache == old(jeeves.skyMapCache)
    ensures Within([], dfk.trace, 0, head)
    ensures r.Ok? ==> Reached(dfk, [], 0, head, 4)
    ensures StopsAtFailure(dfk.failing, old(dfk.trace), dfk.trace, r)
    ensures RoutesOnly(old(fs.entries), fs.entries, c.logDir, r)
  {
    r := EimagesStep(dfk, fs, logFiles, jeeves, c, head, 2, [], 0);
    if r.Err? {
      return;
    }
    ghost var mid, fmid := dfk.trace, fs.entries;
    r := TaskStep(dfk, fs, logFiles, StageApp(MakeDiscreteSkyMap, "makeDiscreteSkyMap", jeeves.repo), None,
                  "makeDiscreteSkyMap", SkyMapTask(c), head, 3, [], 0);
    StopsTrans(dfk.failing, old(dfk.trace), mid, dfk.trace, r);
    RoutesOnlyTrans(old(fs.entries), fmid, fs.entries, c.logDir, r);
  }

  /**
   * How a run that follows `steps` from an empty trace ends: it succeeds
   * exactly when nothing but a task failure could stop it (`cause` is false)
   * and no task of the plan fails.
   */
  lemma {:induction false} PlanOutcome(failing: set<nat>, t: seq<Event>, steps: seq<Step>, r: Result<()>, cause: bool)
    requires t <= Events(0, steps) && StopsAtFailure(failing, [], t, r)
    requires r.Ok? ==> t == Events(0, steps)
    requires cause ==> r.Err?
    requires r.Err? && !r.error.TaskFailed? ==> cause
    ensures r.Ok? <==> !cause && forall id | 0 <= id < TaskCount(steps) :: id !in failing
  {
    if r.Ok? {
      assert t[0..] == t;
      forall id | 0 <= id < TaskCount(steps)
        ensures id !in failing
      {
        EventsJoinAll(0, steps, id);
        var i :| 0 <= i < |t| && t[i] == Join(id);
      }
    } else if r.error.TaskFailed? {
      assert Events(0, steps)[|t| - 1] == Join(r.error.task);
      EventsJoinIds(0, steps, |t| - 1);
    }
  }

  /**
   * The driver script, from `set_output_repo` to the last coadd stage of the
   * last patch. `data` is the registry and the stored sky map as the catalog
   * finds them; `dfk` is the kernel the apps are bound to, with nothing
   * submitted yet. The run follows the plan and stops at the first error:
   * a bootstrap or log-directory failure, a task that raises when joined,
   * or a sky map without tract 0.
   */
  method Run(c: Config, dfk: DataFlowKernel, fs: FileSystem, data: DataRepository) returns (r: Result<()>)
    requires dfk.tasks == [] && dfk.trace == []
    modifies dfk, fs
    ensures dfk.trace <= Events(0, Plan(c, data.rawVisit, data.raw, data.deepCoaddSkyMap))
    ensures r.Ok? ==>
      dfk.trace == Events(0, Plan(c, data.rawVisit, data.raw, data.deepCoaddSkyMap))
      && |dfk.tasks| == TaskCount(Plan(c, data.rawVisit, data.raw, data.deepCoaddSkyMap))
    ensures StopsAtFailure(dfk.failing, [], dfk.trace, r)
    ensures var (e1, b) := Bootstrap(old(fs.entries), c.outputRepo, c.refCats, DefaultMapper);
      b.Err? ==> r == Err(b.error) && dfk.trace == [] && fs.entries == e1
    ensures var (e1, b) := Bootstrap(old(fs.entries), c.outputRepo, c.refCats, DefaultMapper);
      b.Ok? ==> RoutedFrom(e1, fs.entries, c.logDir)
    ensures var (e1, b) := Bootstrap(old(fs.entries), c.outputRepo, c.refCats, DefaultMapper);
      b.Ok? && !Routable(e1, c.logDir) ==> r == Err(FileExists(c.logDir)) && dfk.trace == []
    ensures var (e1, b) := Bootstrap(old(fs.entries), c.outputRepo, c.refCats, DefaultMapper);
      r.Err? && !r.error.TaskFailed? ==>
        || b.Err? || !Routable(e1, c.logDir)
        || (PatchIdsOf(data.deepCoaddSkyMap).Err? && r == Err(PatchIdsOf(data.deepCoaddSkyMap).error)
            && dfk.trace == Events(0, Plan(c, data.rawVisit, data.raw, data.deepCoaddSkyMap)))
    ensures var (e1, b) := Bootstrap(old(fs.entries), c.outputRepo, c.refCats, DefaultMapper);
      r.Ok? <==>
        && b.Ok? && Routable(e1, c.logDir) && PatchIdsOf(data.deepCoaddSkyMap).Ok?
        && forall id | 0 <= id < TaskCount(Plan(c, data.rawVisit, data.raw, data.deepCoaddSkyMap)) :: id !in dfk.failing
  {
    ghost var e0 := fs.entries;
    var repo := SetOutputRepo(fs, c.outputRepo, c.refCats, DefaultMapper);
    if repo.Err? {
      BootstrapFails(e0, c.outputRepo, c.refCats, DefaultMapper);
      r := Err(repo.error);
      StopsNothing(dfk.failing, [], r);
      return;
    }
    BootstrapOutcome(e0, c.outputRepo, c.refCats, DefaultMapper);
    var logFiles := new ParslLogFiles(c.logDir, true);
    r := RunStages(c, dfk, fs, logFiles, repo.value, data);
  }

  /** The script after `set_output_repo` and the creation of the log-file router. */
  method RunStages(c: Config, dfk: DataFlowKernel, fs: FileSystem, logFiles: ParslLogFiles, repo: string,
                   data: DataRepository)
    returns (r: Result<()>)
    requires repo == c.outputRepo && logFiles.logDir == c.logDir && logFiles.enable
    requires dfk.tasks == [] && dfk.trace == []
    modifies dfk, fs
    ensures dfk.trace <= Events(0, Plan(c, data.rawVisit, data.raw, data.deepCoaddSkyMap))
    ensures r.Ok? ==>
      dfk.trace == Events(0, Plan(c, data.rawVisit, data.raw, data.deepCoaddSkyMap))
      && |dfk.tasks| == TaskCount(Plan(c, data.rawVisit, data.raw, data.deepCoaddSkyMap))
    ensures StopsAtFailure(dfk.failing, [], dfk.trace, r)
    ensures RoutedFrom(old(fs.entries), fs.entries, c.logDir)
    ensures !Routable(old(fs.entries), c.logDir) ==> r == Err(FileExists(c.logDir)) && dfk.trace == []
    ensures r.Err? && !r.error.TaskFailed? ==>
      || (r == Err(FileExists(c.logDir)) && !Routable(old(fs.entries), c.logDir))
      || (PatchIdsOf(data.deepCoaddSkyMap).Err? && r == Err(PatchIdsOf(data.deepCoaddSkyMap).error)
          && dfk.trace == Events(0, Plan(c, data.rawVisit, data.raw, data.deepCoaddSkyMap)))
    ensures r.Ok? <==>
      && Routable(old(fs.entries), c.logDir) && PatchIdsOf(data.deepCoaddSkyMap).Ok?
      && forall id | 0 <= id < TaskCount(Plan(c, data.rawVisit, data.raw, data.deepCoaddSkyMap)) :: id !in dfk.failing
  {
    ghost var head := Head(c, VisitColumn(data.rawVisit), data.raw);
    ghost var tail := PatchSteps(c, data.rawVisit, data.deepCoaddSkyMap);
    ghost var fs0 := fs.entries;
    ghost var cause := !Routable(fs0, c.logDir) || PatchIdsOf(data.deepCoaddSkyMap).Err?;
    r := RunIngest(c, dfk, fs, logFiles, repo, head);
    if r.Ok? {
      ghost var mid, fmid := dfk.trace, fs.entries;
      r := RunAfterIngest(c, dfk, fs, logFiles, repo, data, head, tail);
      StopsTrans(dfk.failing, [], mid, dfk.trace, r);
      RoutedTrans(fs0, fmid, fs.entries, c.logDir);
    } else {
      PlanPrefix(dfk.trace, head, tail);
    }
    PlanOutcome(dfk.failing, dfk.trace, head + tail, r, cause);
  }

  /** The script after ingest: the catalog is created, then the exposure stage, the sky map and the patch loop. */
  method RunAfterIngest(c: Config, dfk: DataFlowKernel, fs: FileSystem, logFiles: ParslLogFiles, repo: string,
                        data: DataRepository, ghost head: seq<Step>, ghost tail: seq<Step>)
    returns (r: Result<()>)
    requires repo == c.outputRepo && logFiles.logDir == c.logDir && logFiles.enable
    requires head == Head(c, VisitColumn(data.rawVisit), data.raw)
    requires tail == PatchSteps(c, data.rawVisit, data.deepCoaddSkyMap)
    requires Reached(dfk, [], 0, head, 2)
    modifies dfk, fs
    ensures dfk.trace <= Events(0, head + tail)
    ensures r.Ok? ==> dfk.trace == Events(0, head + tail) && |dfk.tasks| == TaskCount(head + tail)
    ensures StopsAtFailure(dfk.failing, old(dfk.trace), dfk.trace, r)
    ensures RoutedFrom(old(fs.entries), fs.entries, c.logDir)
    ensures r.Err? && !r.error.TaskFailed? ==>
      || (r == Err(FileExists(c.logDir)) && !Routable(old(fs.entries), c.logDir))
      || (PatchIdsOf(data.deepCoaddSkyMap).Err? && r == Err(PatchIdsOf(data.deepCoaddSkyMap).error) && dfk.trace == Events(0, head + tail))
    ensures PatchIdsOf(data.deepCoaddSkyMap).Err? ==> r.Err?
  {
    var jeeves := new Jeeves(repo, data);
    ghost var fs0 := fs.entries;
    r := RunExposures(c, dfk, fs, logFiles, jeeves, head);
    if r.Err? {
      PlanPrefix(dfk.trace, head, tail);
      return;
    }
    ghost var mid, fmid := dfk.trace, fs.entries;
    r := RunTail(c, dfk, fs, logFiles, jeeves, data, head, tail);
    StopsTrans(dfk.failing, old(dfk.trace), mid, dfk.trace, r);
    RoutedTrans(fs0, fmid, fs.entries, c.logDir);
  }

  /**
   * The patch loop of the driver, once ingest, the eimages and the sky map
   * are done: `jeeves.get_patch_ids()` on tract 0, then every patch.
   */
  method RunTail(c: Config, dfk: DataFlowKernel, fs: FileSystem, logFiles: ParslLogFiles, jeeves: Jeeves,
                 data: DataRepository, ghost head: seq<Step>, ghost tail: seq<Step>)
    returns (r: Result<()>)
    requires logFiles.logDir == c.logDir && logFiles.enable
    requires jeeves.Valid() && jeeves.data == data && jeeves.filterCache.None? && jeeves.skyMapCache.None?
    requires tail == PatchSteps(c, data.rawVisit, data.deepCoaddSkyMap)
    requires Reached(dfk, [], 0, head, |head|)
    modifies dfk, fs, jeeves
    ensures dfk.trace <= Events(0, head + tail)
    ensures r.Ok? ==> dfk.trace == Events(0, head + tail) && |dfk.tasks| == TaskCount(head + tail)
    ensures StopsAtFailure(dfk.failing, old(dfk.trace), dfk.trace, r)
    ensures RoutedFrom(old(fs.entries), fs.entries, c.logDir)
    ensures PatchIdsOf(data.deepCoaddSkyMap).Err? ==>
      r == Err(PatchIdsOf(data.deepCoaddSkyMap).error) && dfk.trace == old(dfk.trace) && fs.entries == old(fs.entries)
    ensures PatchIdsOf(data.deepCoaddSkyMap).Err? ==> dfk.trace == Events(0, head + tail)
    ensures r.Err? && !r.error.TaskFailed? && PatchIdsOf(data.deepCoaddSkyMap).Ok? ==>
      r == Err(FileExists(c.logDir)) && !Routable(old(fs.entries), c.logDir)
  {
    assert head[..|head|] == head;
    ghost var t4, b4 := dfk.trace, |dfk.tasks|;
    var ids := jeeves.GetPatchIds(0);
    assert ids == PatchIdsOf(data.deepCoaddSkyMap);
    if ids.Err? {
      assert tail == [] && head + tail == head;
      r := Err(ids.error);
      StopsNothing(dfk.failing, t4, r);
      return;
    }
    assert tail == PatchesRounds(c, ids.value, FilterList(data.rawVisit));
    r := RunPatches(dfk, fs, logFiles, jeeves, c, ids.value, FilterList(data.rawVisit));
    WithinAppend([], t4, dfk.trace, 0, head, b4, tail);
    WithinFromStart(dfk.trace, 0, head + tail);
    if r.Ok? {
      DoneAppend([], t4, dfk.trace, 0, head, b4, tail);
    }
  }
}
