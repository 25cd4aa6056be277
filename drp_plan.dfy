/**
 * What the DRP driver submits, in order: one ingest task, the opening of the
 * registry, one `processEimage` task per (visit, raft), the sky map, and then
 * for every patch of tract 0 the six coadd stages, one task per filter. A
 * stage is joined in full before the next one is submitted; the coadd
 * stages are joined twice, once inside the fan-out and once by the driver.
 */
module DrpPlan {
  import opened Common
  import opened Text
  import opened DataIds
  import opened Commands
  import opened FileSystems
  import opened LogFiles
  import opened Catalog
  import opened Dispatch
  import opened Fanout

  /** The driver's settings; the script hard-codes them. */
  datatype Config = Config(outputRepo: string, refCats: string, eimagePattern: string, logDir: string)

  const Driver := Config("output", "/global/cscratch1/sd/descdm/DC1/rerun/DC1-imsim-dithered/ref_cats",
                         "../eimages/lsst_*.fits.gz", "logs")

  /** `log_files(prefix)` with logging enabled, as the driver constructs it. */
  function Logs(c: Config, prefix: string): LogDests {
    var p := LogPath(c.logDir, true, prefix);
    LogDests(p, p)
  }

  function IngestTask(c: Config): Task {
    Task(IngestSimImages(c.outputRepo, c.eimagePattern), None, Logs(c, "ingestSimImages"))
  }

  /** `dict(visit=visit, raft=raft)`. */
  function ExposureId(v: int, raft: string): DataId {
    [Item("visit", IntV(v)), Item("raft", StrV(raft))]
  }

  /** Every raft of a visit logs to `processEimage_<visit>.log`. */
  function EimageTask(c: Config, v: int, raft: string): Task {
    Task(StageApp(ProcessEimage, "processEimage", c.outputRepo), Some(ExposureId(v, raft)),
         Logs(c, "processEimage_" + IntToString(v)))
  }

  function RaftTasks(c: Config, v: int, rafts: seq<string>): (ts: seq<Task>)
    ensures |ts| == |rafts|
  {
    seq(|rafts|, k requires 0 <= k < |rafts| => EimageTask(c, v, rafts[k]))
  }

  /** Visit-major, then the rafts of each visit as the registry lists them. */
  function EimageTasks(c: Config, visits: seq<int>, raw: seq<RawRow>): seq<Task> {
    if |visits| == 0 then []
    else EimageTasks(c, visits[..|visits| - 1], raw) + RaftTasks(c, visits[|visits| - 1], RaftList(raw, visits[|visits| - 1]))
  }

  /** `makeDiscreteSkyMap` with its default `dataId=None`. */
  function SkyMapTask(c: Config): Task {
    Task(StageApp(MakeDiscreteSkyMap, "makeDiscreteSkyMap", c.outputRepo), None, Logs(c, "makeDiscreteSkyMap"))
  }

  /** The stages run on every patch, in order: the app and the task name it is given. */
  const CoaddStages: seq<(App, string)> := [
    (MakeCoaddTempExp, "makeCoaddTempExp"),
    (AssembleCoadd, "assembleCoadd"),
    (RunCoaddTask, "detectCoaddSources"),
    (RunCoaddTask, "mergeCoaddDetections"),
    (RunCoaddTask, "measureCoaddSources"),
    (RunCoaddTask, "mergeCoaddMeasurements")]

  /** `dict(tract=0, patch=patch_id)`. */
  function PatchDataId(id: string): DataId {
    [Item("tract", IntV(0)), Item("patch", StrV(id))]
  }

  function StageTasks(c: Config, id: string, filters: seq<string>, stage: (App, string)): seq<Task> {
    FilterTasks(stage.0, stage.1, c.outputRepo, PatchDataId(id), StrV(id), filters, c.logDir, true)
  }

  /** The six rounds of one patch. */
  function PatchRounds(c: Config, id: string, filters: seq<string>): (steps: seq<Step>)
    ensures |steps| == |CoaddStages|
  {
    seq(|CoaddStages|, i requires 0 <= i < |CoaddStages| => Round(StageTasks(c, id, filters, CoaddStages[i]), true))
  }

  function PatchesRounds(c: Config, ids: seq<string>, filters: seq<string>): seq<Step> {
    if |ids| == 0 then []
    else PatchesRounds(c, ids[..|ids| - 1], filters) + PatchRounds(c, ids[|ids| - 1], filters)
  }

  /** `get_patch_ids()` on a fresh catalog: tract 0 of the stored sky map. */
  function PatchIdsOf(sky: Option<SkyMap>): Result<seq<string>> {
    match sky
    case None => Err(NoSkyMap)
    case Some(m) => PatchIds(m, 0)
  }

  /** The steps before the patch loop. */
  function Head(c: Config, visits: seq<int>, raw: seq<RawRow>): seq<Step> {
    [Round([IngestTask(c)], false), OpenRegistry, Round(EimageTasks(c, visits, raw), false), Round([SkyMapTask(c)], false)]
  }

  /** The rounds of the patch loop; none when the patch ids cannot be read. */
  function PatchSteps(c: Config, rawVisit: seq<VisitRow>, sky: Option<SkyMap>): seq<Step> {
    match PatchIdsOf(sky)
    case Ok(ids) => PatchesRounds(c, ids, FilterList(rawVisit))
    case Err(_) => []
  }

  /** The whole run, given the registry's tables and the stored sky map. */
  function Plan(c: Config, rawVisit: seq<VisitRow>, raw: seq<RawRow>, sky: Option<SkyMap>): seq<Step> {
    Head(c, VisitColumn(rawVisit), raw) + PatchSteps(c, rawVisit, sky)
  }

  /* Layout of the plan. */

  lemma {:induction false} PatchesRoundsLength(c: Config, ids: seq<string>, filters: seq<string>)
    ensures |PatchesRounds(c, ids, filters)| == 6 * |ids|
    decreases |ids|
  {
    if |ids| > 0 {
      PatchesRoundsLength(c, ids[..|ids| - 1], filters);
    }
  }

  /** Patch after patch, and the six stages in order within each patch. */
  lemma {:induction false} PatchesRoundsAt(c: Config, ids: seq<string>, filters: seq<string>, p: nat, i: nat)
    requires p < |ids| && i < |CoaddStages|
    ensures |PatchesRounds(c, ids, filters)| == 6 * |ids|
    ensures PatchesRounds(c, ids, filters)[6 * p + i] == Round(StageTasks(c, ids[p], filters, CoaddStages[i]), true)
    decreases |ids|
  {
    var n := |ids| - 1;
    PatchesRoundsLength(c, ids, filters);
    PatchesRoundsLength(c, ids[..n], filters);
    if p < n {
      PatchesRoundsAt(c, ids[..n], filters, p, i);
    } else {
      assert 6 * p + i == |PatchesRounds(c, ids[..n], filters)| + i;
    }
  }

  /**
   * The order of the run: ingest, the registry, the exposures and the sky
   * map, then stage `i` of patch `p` at position `4 + 6p + i`; nothing
   * follows the sky map when the patch ids cannot be read.
   */
  lemma PlanOrder(c: Config, rawVisit: seq<VisitRow>, raw: seq<RawRow>, sky: Option<SkyMap>)
    ensures |Plan(c, rawVisit, raw, sky)| >= 4
    ensures Plan(c, rawVisit, raw, sky)[..4] == Head(c, VisitColumn(rawVisit), raw)
    ensures PatchIdsOf(sky).Err? ==> |Plan(c, rawVisit, raw, sky)| == 4
    ensures PatchIdsOf(sky).Ok? ==>
      var ids := PatchIdsOf(sky).value;
      && |Plan(c, rawVisit, raw, sky)| == 4 + 6 * |ids|
      && forall p, i | 0 <= p < |ids| && 0 <= i < |CoaddStages| ::
           Plan(c, rawVisit, raw, sky)[4 + 6 * p + i]
           == Round(StageTasks(c, ids[p], FilterList(rawVisit), CoaddStages[i]), true)
  {
    var head := Head(c, VisitColumn(rawVisit), raw);
    var rest := PatchSteps(c, rawVisit, sky);
    var plan := head + rest;
    assert plan[..4] == head;
    if PatchIdsOf(sky).Ok? {
      var ids := PatchIdsOf(sky).value;
      var filters := FilterList(rawVisit);
      assert rest == PatchesRounds(c, ids, filters);
      PatchesRoundsLength(c, ids, filters);
      forall p, i | 0 <= p < |ids| && 0 <= i < |CoaddStages|
        ensures plan[4 + 6 * p + i] == Round(StageTasks(c, ids[p], filters, CoaddStages[i]), true)
      {
        PatchesRoundsAt(c, ids, filters, p, i);
        assert plan[4 + 6 * p + i] == rest[6 * p + i];
      }
    }
  }

  /** Ingest is submitted first and joined before the registry is opened. */
  lemma IngestBeforeRegistry(c: Config, rawVisit: seq<VisitRow>, raw: seq<RawRow>, sky: Option<SkyMap>)
    ensures var t := Events(0, Plan(c, rawVisit, raw, sky));
      |t| >= 3 && t[..3] == [Submit(0, IngestTask(c)), Join(0), RegistryOpened]
  {
    var plan := Plan(c, rawVisit, raw, sky);
    PlanOrder(c, rawVisit, raw, sky);
    assert plan[0] == plan[..4][0] && plan[1] == plan[..4][1];
    OpeningEvents(IngestTask(c), plan);
  }

  /** The events of a plan that opens with a one-task round and then the registry. */
  lemma {:induction false} OpeningEvents(t: Task, steps: seq<Step>)
    requires |steps| >= 2 && steps[0] == Round([t], false) && steps[1] == OpenRegistry
    ensures var e := Events(0, steps); |e| >= 3 && e[..3] == [Submit(0, t), Join(0), RegistryOpened]
  {
    var tail := steps[2..];
    assert steps == [steps[0]] + ([OpenRegistry] + tail);
    EventsCons(0, steps[0], [OpenRegistry] + tail);
    EventsCons(1, OpenRegistry, tail);
    assert Submits(0, [t]) == [Submit(0, t)];
    assert Joins(0, 1) == [Join(0)];
    var a, b := StepEvents(0, steps[0]), Events(1, [OpenRegistry] + tail);
    assert a == [Submit(0, t), Join(0)];
    var e := a + b;
    assert e[0] == a[0] && e[1] == a[1] && e[2] == b[0];
    assert e[..3] == [e[0], e[1], e[2]];
  }

  /** The exposure tasks of the first visits come first. */
  lemma {:induction false} EimageTasksPrefix(c: Config, visits: seq<int>, raw: seq<RawRow>, k: nat)
    requires k <= |visits|
    ensures EimageTasks(c, visits[..k], raw) <= EimageTasks(c, visits, raw)
    decreases |visits|
  {
    if k < |visits| {
      var n := |visits| - 1;
      assert visits[..n][..k] == visits[..k];
      EimageTasksPrefix(c, visits[..n], raw, k);
      PrefixOfAppend(EimageTasks(c, visits[..k], raw), EimageTasks(c, visits[..n], raw),
                     RaftTasks(c, visits[n], RaftList(raw, visits[n])));
    } else {
      assert visits[..k] == visits;
    }
  }

  /** The rounds of the first patches come first. */
  lemma {:induction false} PatchesRoundsPrefix(c: Config, ids: seq<string>, filters: seq<string>, k: nat)
    requires k <= |ids|
    ensures PatchesRounds(c, ids[..k], filters) <= PatchesRounds(c, ids, filters)
    decreases |ids|
  {
    if k < |ids| {
      var n := |ids| - 1;
      assert ids[..n][..k] == ids[..k];
      PatchesRoundsPrefix(c, ids[..n], filters, k);
      PrefixOfAppend(PatchesRounds(c, ids[..k], filters), PatchesRounds(c, ids[..n], filters),
                     PatchRounds(c, ids[n], filters));
    } else {
      assert ids[..k] == ids;
    }
  }

  /** Every run of the plan waits for each stage before it submits the next. */
  lemma PlanBarrier(c: Config, rawVisit: seq<VisitRow>, raw: seq<RawRow>, sky: Option<SkyMap>)
    ensures BarrierHolds(Events(0, Plan(c, rawVisit, raw, sky)))
    ensures Closed(Events(0, Plan(c, rawVisit, raw, sky)))
  {
    EventsBarrier(0, Plan(c, rawVisit, raw, sky));
    EventsClosed(0, Plan(c, rawVisit, raw, sky));
  }

  /* The tasks of the plan. */

  /**
   * Ingest and the sky map are one task each; the exposures one per visit
   * row and raft; the coadds one per patch, stage and filter.
   */
  lemma PlanTaskCount(c: Config, rawVisit: seq<VisitRow>, raw: seq<RawRow>, sky: Option<SkyMap>)
    ensures TaskCount(Plan(c, rawVisit, raw, sky))
         == 2 + SumRafts(VisitColumn(rawVisit), raw)
            + (if PatchIdsOf(sky).Ok? then |CoaddStages| * |PatchIdsOf(sky).value| * |FilterList(rawVisit)| else 0)
  {
    var head := Head(c, VisitColumn(rawVisit), raw);
    var rest := PatchSteps(c, rawVisit, sky);
    HeadTaskCount(c, VisitColumn(rawVisit), raw);
    EimageTasksCount(c, VisitColumn(rawVisit), raw);
    TaskCountAppend(head, rest);
    if PatchIdsOf(sky).Ok? {
      PatchesTaskCount(c, PatchIdsOf(sky).value, FilterList(rawVisit));
    } else {
      assert rest == [];
    }
  }

  lemma HeadTaskCount(c: Config, visits: seq<int>, raw: seq<RawRow>)
    ensures TaskCount(Head(c, visits, raw)) == 2 + |EimageTasks(c, visits, raw)|
  {
    var h := Head(c, visits, raw);
    assert h[3..][1..] == [];
    assert TaskCount(h[3..]) == 1;
    assert h[2..][1..] == h[3..];
    assert TaskCount(h[2..]) == |EimageTasks(c, visits, raw)| + 1;
    assert h[1..][1..] == h[2..];
  }

  /** Rounds of `n` tasks each submit `n` tasks per round. */
  lemma {:induction false} UniformTaskCount(steps: seq<Step>, n: nat)
    requires forall i | 0 <= i < |steps| :: steps[i].Round? && |steps[i].tasks| == n
    ensures TaskCount(steps) == |steps| * n
    decreases |steps|
  {
    if |steps| > 0 {
      UniformTaskCount(steps[1..], n);
    }
  }

  lemma {:induction false} PatchesTaskCount(c: Config, ids: seq<string>, filters: seq<string>)
    ensures TaskCount(PatchesRounds(c, ids, filters)) == |CoaddStages| * |ids| * |filters|
    decreases |ids|
  {
    if |ids| > 0 {
      var n := |ids| - 1;
      PatchesTaskCount(c, ids[..n], filters);
      PatchTaskCount(c, ids[n], filters);
      TaskCountAppend(PatchesRounds(c, ids[..n], filters), PatchRounds(c, ids[n], filters));
      MulStep(|CoaddStages|, n, |filters|);
    }
  }

  /** One patch runs every stage once per filter. */
  lemma {:induction false} PatchTaskCount(c: Config, id: string, filters: seq<string>)
    ensures TaskCount(PatchRounds(c, id, filters)) == |CoaddStages| * |filters|
  {
    UniformTaskCount(PatchRounds(c, id, filters), |filters|);
  }

  lemma MulStep(a: nat, n: nat, b: nat)
    ensures a * (n + 1) * b == a * n * b + a * b
  {
    assert a * (n + 1) == a * n + a;
    assert (a * n + a) * b == a * n * b + a * b;
  }

  /**
   * The exposure stage processes the pair (v, raft) exactly when v is one of
   * the visits and the registry has a raw row for (v, raft).
   */
  lemma {:induction false} EimageTaskFor(c: Config, visits: seq<int>, raw: seq<RawRow>, v: int, raft: string)
    ensures EimageTask(c, v, raft) in EimageTasks(c, visits, raw) <==> v in visits && RawRow(v, raft) in raw
    decreases |visits|
  {
    var t := EimageTask(c, v, raft);
    if |visits| > 0 {
      var n := |visits| - 1;
      var w := visits[n];
      var ts := RaftTasks(c, w, RaftList(raw, w));
      EimageTaskFor(c, visits[..n], raw, v, raft);
      assert visits == visits[..n] + [w];
      assert t in ts <==> v == w && raft in RaftList(raw, w) by {
        if t in ts {
          var k :| 0 <= k < |ts| && ts[k] == t;
          assert ExposureId(w, RaftList(raw, w)[k]) == ExposureId(v, raft);
        }
        if v == w && raft in RaftList(raw, w) {
          var k :| 0 <= k < |RaftList(raw, w)| && RaftList(raw, w)[k] == raft;
          assert ts[k] == t;
        }
      }
      assert raft in RaftList(raw, v) <==> RawRow(v, raft) in raw by {
        if RawRow(v, raft) in raw {
          var k :| 0 <= k < |raw| && raw[k] == RawRow(v, raft);
        }
      }
    }
  }

  /** The number of rafts the registry lists for each of `visits`, summed over the visits. */
  function SumRafts(visits: seq<int>, raw: seq<RawRow>): nat {
    if |visits| == 0 then 0 else |RaftList(raw, visits[0])| + SumRafts(visits[1..], raw)
  }

  lemma {:induction false} SumRaftsSnoc(visits: seq<int>, v: int, raw: seq<RawRow>)
    ensures SumRafts(visits + [v], raw) == SumRafts(visits, raw) + |RaftList(raw, v)|
    decreases |visits|
  {
    if |visits| == 0 {
      assert [v][1..] == [];
    } else {
      assert (visits + [v])[1..] == visits[1..] + [v];
      SumRaftsSnoc(visits[1..], v, raw);
    }
  }

  /** The exposure stage has one task per visit and per raft of that visit. */
  lemma {:induction false} EimageTasksCount(c: Config, visits: seq<int>, raw: seq<RawRow>)
    ensures |EimageTasks(c, visits, raw)| == SumRafts(visits, raw)
    decreases |visits|
  {
    if |visits| > 0 {
      var n := |visits| - 1;
      EimageTasksCount(c, visits[..n], raw);
      SumRaftsSnoc(visits[..n], visits[n], raw);
      assert visits[..n] + [visits[n]] == visits;
    }
  }

  /** A value of a list without repeats occurs in it once. */
  lemma {:induction false} CountOfNoDup<T>(s: seq<T>, x: T)
    requires NoDup(s)
    ensures multiset(s)[x] == if x in s then 1 else 0
    decreases |s|
  {
    if |s| > 0 {
      var p, y := s[..|s| - 1], s[|s| - 1];
      assert s == p + [y];
      assert NoDup(p);
      CountOfNoDup(p, x);
    }
  }

  /** The tasks of one visit's distinct rafts: each (visit, raft) pair occurs once. */
  lemma RaftTasksCount(c: Config, w: int, rafts: seq<string>, v: int, raft: string)
    requires NoDup(rafts)
    ensures multiset(RaftTasks(c, w, rafts))[EimageTask(c, v, raft)] == if v == w && raft in rafts then 1 else 0
  {
    var ts := RaftTasks(c, w, rafts);
    var t := EimageTask(c, v, raft);
    assert NoDup(ts) by {
      forall i, j | 0 <= i < j < |ts|
        ensures ts[i] != ts[j]
      {
        assert ExposureId(w, rafts[i]) != ExposureId(w, rafts[j]) by {
          assert ExposureId(w, rafts[i])[1].value != ExposureId(w, rafts[j])[1].value;
        }
      }
    }
    CountOfNoDup(ts, t);
    if t in ts {
      var k :| 0 <= k < |ts| && ts[k] == t;
      assert ExposureId(w, rafts[k]) == ExposureId(v, raft);
    }
    if v == w && raft in rafts {
      var k :| 0 <= k < |rafts| && rafts[k] == raft;
      assert ts[k] == t;
    }
  }

  /**
   * The exposure stage processes the pair (v, raft) once for every time v
   * occurs among the visits, when the registry has a raw row for
   * (v, raft), and never otherwise.
   */
  lemma {:induction false} EimageTaskMultiplicity(c: Config, visits: seq<int>, raw: seq<RawRow>, v: int, raft: string)
    ensures multiset(EimageTasks(c, visits, raw))[EimageTask(c, v, raft)]
         == if RawRow(v, raft) in raw then multiset(visits)[v] else 0
    decreases |visits|
  {
    if |visits| > 0 {
      var n := |visits| - 1;
      var w := visits[n];
      assert visits == visits[..n] + [w];
      EimageTaskMultiplicity(c, visits[..n], raw, v, raft);
      RaftTasksCount(c, w, RaftList(raw, w), v, raft);
      assert raft in RaftList(raw, v) <==> RawRow(v, raft) in raw by {
        if RawRow(v, raft) in raw {
          var k :| 0 <= k < |raw| && raw[k] == RawRow(v, raft);
        }
      }
    }
  }

  /** With each visit listed once, every registered (visit, raft) pair is processed exactly once. */
  lemma EimageTaskOnce(c: Config, visits: seq<int>, raw: seq<RawRow>, v: int, raft: string)
    requires NoDup(visits)
    ensures multiset(EimageTasks(c, visits, raw))[EimageTask(c, v, raft)]
         == if v in visits && RawRow(v, raft) in raw then 1 else 0
  {
    EimageTaskMultiplicity(c, visits, raw, v, raft);
    CountOfNoDup(visits, v);
  }

  /** The `--id` argument of an exposure task reads `visit=<v> raft=<raft>`. */
  lemma ExposureIdString(v: int, raft: string)
    ensures Keys(ExposureId(v, raft)) == ["visit", "raft"]
    ensures MakeIdString(Some(ExposureId(v, raft))) == "visit=" + IntToString(v) + " " + "raft=" + raft
  {
    var d := ExposureId(v, raft);
    var a, b := "visit=" + IntToString(v), "raft=" + raft;
    assert Keys(d)[0] == "visit" && Keys(d)[1] == "raft";
    assert Tokens(d)[0] == a && Tokens(d)[1] == b;
    assert Tokens(d) == [a, b];
    assert [a, b][1..] == [b];
    assert JoinWith(" ", [a, b]) == a + " " + b;
  }

  /**
   * An exposure task runs `processEimage.py` on the output repository with
   * its id string after `--id`, provided the raft name holds no brace.
   */
  lemma EimageCommand(c: Config, v: int, raft: string)
    requires NoBraces(raft)
    ensures var t := EimageTask(c, v, raft);
      CommandLine(t) == Ok(RepoArgs("processEimage.py", c.outputRepo)
                           + (" --id " + MakeIdString(t.dataId) + DoRaise + ClobberVersions + ConfigFile("processEimage.py")))
  {
    var d := ExposureId(v, raft);
    IntToStringChars(v);
    assert NoBraces("visit") && NoBraces("raft");
    assert BraceFree(Some(d));
    ExposureCommandLine(ProcessEimage, "processEimage", c.outputRepo, Some(d));
  }

  /**
   * All rafts of a visit share one log file, and rafts of different visits
   * never do.
   */
  lemma SharedVisitLog(c: Config, v: int, raft: string, v': int, raft': string)
    ensures EimageTask(c, v, raft).logs == EimageTask(c, v', raft').logs <==> v == v'
  {
    if EimageTask(c, v, raft).logs == EimageTask(c, v', raft').logs {
      var a, b := "processEimage_" + IntToString(v) + ".log", "processEimage_" + IntToString(v') + ".log";
      PathJoinInjective(c.logDir, a, b);
      assert IntToString(v) == a[14..|a| - 4];
      assert IntToString(v') == b[14..|b| - 4];
      IntRoundTrip(v);
      IntRoundTrip(v');
    }
  }

  /** Joining names that do not start at the root onto the same directory keeps them apart. */
  lemma PathJoinInjective(dir: string, a: string, b: string)
    requires |a| > 0 && a[0] != '/' && |b| > 0 && b[0] != '/'
    requires PathJoin(dir, a) == PathJoin(dir, b)
    ensures a == b
  {
    var p := if dir == "" || dir[|dir| - 1] == '/' then dir else dir + "/";
    assert PathJoin(dir, a) == p + a && PathJoin(dir, b) == p + b;
    assert a == (p + a)[|p|..] && b == (p + b)[|p|..];
  }

  /** Adding `filter` to a patch's dataId appends it after `tract` and `patch`. */
  lemma PatchFilterId(id: string, x: Value)
    ensures SetItem(PatchDataId(id), "filter", x) == [Item("tract", IntV(0)), Item("patch", StrV(id)), Item("filter", x)]
    ensures Lookup(PatchDataId(id), "patch") == Some(StrV(id))
  {
    var d := PatchDataId(id);
    assert d[1..][1..] == [];
    assert SetItem(d[1..], "filter", x) == [Item("patch", StrV(id)), Item("filter", x)];
  }

  /**
   * Task `j` of stage `i` of a patch: the stage's app under the stage's name,
   * the patch's dataId with `filter` added last, and a log file named
   * after the stage, the filter and the patch.
   */
  lemma StageTaskShape(c: Config, id: string, filters: seq<string>, i: nat, j: nat)
    requires i < |CoaddStages| && j < |filters|
    ensures var t := StageTasks(c, id, filters, CoaddStages[i])[j];
      && t.call == StageApp(CoaddStages[i].0, CoaddStages[i].1, c.outputRepo)
      && t.dataId == Some([Item("tract", IntV(0)), Item("patch", StrV(id)), Item("filter", StrV(filters[j]))])
      && t.logs == Logs(c, CoaddStages[i].1 + "_" + filters[j] + "_" + id)
  {
    var s := CoaddStages[i];
    FilterTasksAt(s.0, s.1, c.outputRepo, PatchDataId(id), StrV(id), filters, c.logDir, true, j);
    PatchFilterId(id, StrV(filters[j]));
  }
}
