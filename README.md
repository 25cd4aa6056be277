# DRP coadd pipeline driver, modelled in Dafny

This project models the parsl-based data-release-production (DRP) driver of
the DESC image-processing pipelines and the component library it calls.

The library (`pipeline_components.py`) holds several pieces:

- `make_id_string`, which renders a dataId dict as the `--id` argument of the
  LSST command-line tasks;
- `set_output_repo`, which bootstraps an output repository with a `_mapper`
  file and a `ref_cats` link;
- `Jeeves`, a catalog object that opens the registry and caches the butler,
  the sky map, the filter list and the visit list on first access, and also
  answers `get_patch_ids` and `get_rafts`;
- `ParslLogFiles`, which routes a task's stdout and stderr to
  `<log_dir>/<prefix>.log`;
- six bash apps that build command-line templates;
- `loop_over_filters`, which submits one task per filter into a dict it
  updates in place, and then waits for all of them.

The driver (`DRP_pipeline.py`) runs the stages in order:

1. bootstrap the repository;
2. ingest the simulated images;
3. run one `processEimage` task per (visit, raft);
4. make the sky map;
5. for every patch of tract 0, run six coadd stages, each fanned out over the
   filters.

Every stage is waited for before the next one starts.

Modules, one per file:

- `Common` holds the `Option`/`Result` wrappers and the Python exceptions that
  matter (`KeyError`, `IndexError`, `FileExistsError`, ...).
- `Text` models `str(int)` and `'%i'`, `sep.join` and `str.split`.
- `DataIds` models dicts as insertion-ordered item sequences, together with
  `make_id_string` and a reader that shows the id string loses nothing.
- `Commands` holds the app templates and parsl's `str.format` fill-in.
- `FileSystems` is an abstract file system: a map of paths to directories,
  files and links.
- `OutputRepo` models `set_output_repo`.
- `LogFiles` models `ParslLogFiles`.
- `Catalog` models `Jeeves`, over registry tables given as data.
- `Dispatch` models the data-flow kernel, which records submissions and joins
  as a trace of events. `Dispatch.Outcome`, what `.result()` reports for a
  task, is a definition the kernel's rows use; likewise `Catalog.PyIndex`,
  Python's sequence indexing, which `Catalog.PatchIds` uses.
- `Fanout` models `loop_over_filters`.
- `DrpPlan` is the plan of the run: what is submitted, in which order, as a
  function of the registry and the sky map.
- `DrpPipeline` is the driver script as imperative code, proved to follow
  the plan.

Objects whose state the source changes in place are classes whose methods
are proved against specification functions:

- the file system;
- the caching catalog, whose ghost counters record how often each source was
  consulted;
- the mutable dataId dict;
- the kernel, with its task list and ghost trace.

The driver's `Run` is proved to produce a prefix of the plan's events on
every input, and the whole of them when it succeeds. No failing task is
joined on the way (`Dispatch.StopsAtFailure`), except that a run that reports
a task failure ends right at the join of that task. A separate lemma shows
that the plan's events keep the stage barrier: no task is submitted while an
earlier stage still has a task that has not been joined.

Where the driver script and the code it calls disagree, the code decides.
Three calls in `DRP_pipeline.py` (lines 34-35, 38-39 and 50-51) cannot run as
written:

- `loop_over_filters` is called as a method of the catalog object, which has
  no such method. It is modelled as the module function, with the catalog's
  `filters` as the filter list and the script's `log_files` as the router.
- The `check_patch=False` keyword, which no function accepts, is dropped.
- `run_coadd_task` is named without its `pc.` module. It is modelled as the
  library's `run_coadd_task`.

Bootstrapping a repository is meant to be idempotent: a second call with
the same arguments should succeed and change nothing. The code has that
property exactly when `<repo>/ref_cats` is a directory after the first call
(`OutputRepo.BootstrapIdempotent` for "if", `OutputRepo.BootstrapIdempotentOnlyIf`
for "only if"). It is one when it already was a
directory before the call, or when the reference-catalog path is an existing
directory (`OutputRepo.BootstrapRefCatsDir`). When neither `ref_cats` nor
the reference-catalog path exists, the first call leaves a dangling
`ref_cats` link and the second call fails on it with `FileExistsError`
(`OutputRepo.BootstrapTwiceDangling`). The model follows the code.

## Model

| member | source | states |
|---|---|---|
| Text.IntRoundTrip | python/desc/parsl/pipeline_components/pipeline_components.py:74 | `'%i' % i` (and `str(i)`) is read back as `i` by `int`, for negative numbers too: rendering an integer loses nothing |
| Text.SplitJoin | python/desc/parsl/pipeline_components/pipeline_components.py:23 | splitting a `c.join(parts)` at `c` gives back `parts`, as long as no part holds `c` |
| DataIds.MakeIdString | python/desc/parsl/pipeline_components/pipeline_components.py:19-23 | the id string is empty exactly when the dataId is `None` or an empty dict |
| DataIds.IdStringRoundTrip | python/desc/parsl/pipeline_components/pipeline_components.py:19-23 | a tool that splits the id string at blanks and each token at its first `=` recovers every (key, value) pair in insertion order, provided no key holds a blank or `=` and no value holds a blank |
| DataIds.LookupKeys | python/desc/parsl/pipeline_components/pipeline_components.py:111 | `d.get(k)` misses exactly the keys the dict does not hold |
| DataIds.SetItemLookup | python/desc/parsl/pipeline_components/pipeline_components.py:128 | after `d[k] = v`, `k` maps to `v` and every other key keeps its value |
| DataIds.SetItemKeys | python/desc/parsl/pipeline_components/pipeline_components.py:128 | `d[k] = v` keeps the key order and appends `k` only when it is new |
| DataIds.SetItemTwice | python/desc/parsl/pipeline_components/pipeline_components.py:128 | assigning a key twice leaves the same dict as assigning only the second value |
| DataIds.SetItemDistinct | python/desc/parsl/pipeline_components/pipeline_components.py:128 | assignment keeps the keys of a dict distinct |
| DataIds.DataIdDict.constructor | workflows/parsl/DRP_pipeline.py:32 | a new dict holds exactly the given items |
| DataIds.DataIdDict.Set | python/desc/parsl/pipeline_components/pipeline_components.py:128 | `dataId['filter'] = filt` updates the caller's dict in place, as `SetItem` says |
| DataIds.DataIdDict.Get | python/desc/parsl/pipeline_components/pipeline_components.py:129 | `dataId['patch']` gives the stored value exactly when the key is present and raises `KeyError('patch')` otherwise |
| Commands.FormatVerbatim | python/desc/parsl/pipeline_components/pipeline_components.py:94-97 | parsl's `str.format` fill-in leaves brace-free text unchanged |
| Commands.FormatAppend | python/desc/parsl/pipeline_components/pipeline_components.py:94-97 | a well-formed template is filled piece by piece: filling a concatenation is filling the first part, then the second |
| Commands.IngestCommandLine | python/desc/parsl/pipeline_components/pipeline_components.py:94-97 | `ingestSimImages` runs `ingestSimImages.py <repo>/ "<pattern>" --mode link --output <repo>` with the raise, clobber-config and clobber-versions flags |
| Commands.ExposureCommandLine | python/desc/parsl/pipeline_components/pipeline_components.py:99-107 | `processEimage` and `makeDiscreteSkyMap` run `<prog> <repo>/ --output <repo> --id <id string>` with clobbered versions and the app's config file, for any brace-free dataId |
| Commands.SkyMapDefaultId | python/desc/parsl/pipeline_components/pipeline_components.py:104-107 | `makeDiscreteSkyMap` with its default `dataId=None` gets an empty id list after `--id` |
| Commands.CoaddCommandLine | python/desc/parsl/pipeline_components/pipeline_components.py:109-117 | `makeCoaddTempExp` and `assembleCoadd` put `--selectId filter=<the dataId's filter>` before `--id`, write no versions and use their `_deep` config |
| Commands.TemplateFailsIffNoFilter | python/desc/parsl/pipeline_components/pipeline_components.py:109-117 | an app body raises exactly when it is a coadd-family app given no dataId or one without a `filter` key; the error is the subscript of `None` in the first case and `KeyError('filter')` in the second |
| Commands.CoaddTaskCommandLine | python/desc/parsl/pipeline_components/pipeline_components.py:119-122 | `run_coadd_task` runs `<task>.py <repo>/ --output <repo> --id <id string>` with no versions and no config file |
| FileSystems.PathJoin | python/desc/parsl/pipeline_components/pipeline_components.py:31 | `os.path.join` with a non-empty last part ends in that part's last character |
| FileSystems.FileSystem.Mkdir | python/desc/parsl/pipeline_components/pipeline_components.py:28 | `os.mkdir` adds a directory, or raises `FileExistsError` on an existing entry and changes nothing |
| FileSystems.FileSystem.Link | python/desc/parsl/pipeline_components/pipeline_components.py:34 | `os.symlink` adds a link, or raises `FileExistsError` on any existing entry (even a dangling link) and changes nothing |
| FileSystems.FileSystem.Write | python/desc/parsl/pipeline_components/pipeline_components.py:31-32 | writing a file fails when its directory is not one or the path is a directory; otherwise the file holds exactly the text |
| OutputRepo.SetOutputRepo | python/desc/parsl/pipeline_components/pipeline_components.py:25-35 | the method's new file system and result are those of `Bootstrap`, whose properties the lemmas below state |
| OutputRepo.MapperIsNotRefCats | python/desc/parsl/pipeline_components/pipeline_components.py:31-34 | the repository, its `_mapper` and its `ref_cats` are three different paths |
| OutputRepo.BootstrapOutcome | python/desc/parsl/pipeline_components/pipeline_components.py:25-35 | on success the repository path is returned and is a directory (an existing entry there is kept), `_mapper` holds the mapper name and a newline, an existing `ref_cats` directory is untouched, a missing `ref_cats` becomes a link to the reference catalogs, and no other path is added or changed |
| OutputRepo.BootstrapFails | python/desc/parsl/pipeline_components/pipeline_components.py:27-34 | the bootstrap raises exactly when the repository path is not a directory, `_mapper` is a directory, or `ref_cats` exists without being a directory; the error names that path |
| OutputRepo.BootstrapIdempotent | python/desc/parsl/pipeline_components/pipeline_components.py:25-35 | when the first call leaves `ref_cats` a directory, a second call with the same arguments succeeds and changes nothing |
| OutputRepo.BootstrapIdempotentOnlyIf | python/desc/parsl/pipeline_components/pipeline_components.py:25-35 | when a second call with the same arguments succeeds and changes nothing, `ref_cats` is a directory after the first call |
| OutputRepo.BootstrapRefCatsDir | python/desc/parsl/pipeline_components/pipeline_components.py:33-34 | a successful call leaves `ref_cats` a directory when it already was one or when the reference catalogs are an existing directory |
| OutputRepo.BootstrapTwiceDangling | python/desc/parsl/pipeline_components/pipeline_components.py:33-34 | when the reference catalogs do not exist, the second call fails with `FileExistsError` on `ref_cats` |
| LogFiles.ParslLogFiles.constructor | python/desc/parsl/pipeline_components/pipeline_components.py:81-83 | the router keeps the log directory and the enable flag it is given |
| LogFiles.ParslLogFiles.Call | python/desc/parsl/pipeline_components/pipeline_components.py:85-92 | the call's new file system and result are those of `Route`, whose properties the lemmas below state |
| LogFiles.RouteOutcome | python/desc/parsl/pipeline_components/pipeline_components.py:85-92 | on success stdout and stderr share one destination, which is `<log_dir>/<prefix>.log` when logging is enabled and none otherwise; the log directory exists afterwards and was created only if it was missing |
| LogFiles.RouteFails | python/desc/parsl/pipeline_components/pipeline_components.py:86-87 | the call raises `FileExistsError` exactly when a non-directory holds the log directory's name, and then changes nothing; otherwise it at most creates the missing directory, and the directory exists afterwards |
| LogFiles.RouteStable | python/desc/parsl/pipeline_components/pipeline_components.py:85-92 | after one successful call, every later call succeeds without touching the file system |
| LogFiles.LogPathSuffix | python/desc/parsl/pipeline_components/pipeline_components.py:89 | an enabled destination ends in `.log` |
| Catalog.Distinct | python/desc/parsl/pipeline_components/pipeline_components.py:62-63 | `select distinct` lists each value of the column once and no other value |
| Catalog.DistinctOfNoDup | python/desc/parsl/pipeline_components/pipeline_components.py:62-63 | a column without repetitions comes back unchanged |
| Catalog.DistinctExtends | python/desc/parsl/pipeline_components/pipeline_components.py:62-63 | rows added to the table only append to the distinct list |
| Catalog.VisitColumn | python/desc/parsl/pipeline_components/pipeline_components.py:69-70 | `select visit from raw_visit` gives one visit per row, in row order, duplicates included |
| Catalog.FilterList | python/desc/parsl/pipeline_components/pipeline_components.py:62-63 | the filters are distinct and are exactly those of some `raw_visit` row |
| Catalog.RaftList | python/desc/parsl/pipeline_components/pipeline_components.py:77-78 | the rafts of a visit are distinct and are exactly those with a `raw` row for that visit |
| Catalog.PatchIdRoundTrip | python/desc/parsl/pipeline_components/pipeline_components.py:74 | a `'%i,%i'` patch id is read back as the patch index it came from |
| Catalog.PatchIds | python/desc/parsl/pipeline_components/pipeline_components.py:73-74 | a tract index the sky map accepts gives one id per patch, in patch order, written as `'%i,%i'` of that patch's index and read back as it; any other index raises `IndexError` |
| Catalog.DataRepository.constructor | python/desc/parsl/pipeline_components/pipeline_components.py:40 | the repository holds the given registry tables and stored sky map |
| Catalog.Jeeves.constructor | python/desc/parsl/pipeline_components/pipeline_components.py:37-44 | a new catalog has every cache empty and has consulted no source |
| Catalog.Jeeves.GetButler | python/desc/parsl/pipeline_components/pipeline_components.py:46-51 | the butler is opened on the repository at most once and the same one is returned afterwards; no other cache changes |
| Catalog.Jeeves.GetSkyMap | python/desc/parsl/pipeline_components/pipeline_components.py:53-57 | the stored sky map is read through the butler on the first successful access and served from the cache afterwards; a missing dataset raises and leaves the cache empty |
| Catalog.Jeeves.GetFilters | python/desc/parsl/pipeline_components/pipeline_components.py:59-64 | the first access queries the registry for the distinct filters; later ones return the cached list without a query |
| Catalog.Jeeves.GetVisits | python/desc/parsl/pipeline_components/pipeline_components.py:66-71 | the first access queries `raw_visit` for its visits; later ones return the cached list without a query |
| Catalog.Jeeves.GetPatchIds | python/desc/parsl/pipeline_components/pipeline_components.py:73-74 | the patch ids of the tract in the cached or freshly read sky map, or the error of reading it |
| Catalog.Jeeves.GetRafts | python/desc/parsl/pipeline_components/pipeline_components.py:76-78 | uncached: the distinct rafts the registry currently lists for the visit |
| Catalog.FiltersOutliveRegistryChange | python/desc/parsl/pipeline_components/pipeline_components.py:59-64 | once the filters are cached, a row added to the registry is not seen and the registry is queried only once |
| Dispatch.FirstFailure | python/desc/parsl/pipeline_components/pipeline_components.py:136 | the first task of a range whose `.result()` raises: none exactly when all succeed, otherwise one that fails with every earlier one succeeding |
| Dispatch.EventsAppend | workflows/parsl/DRP_pipeline.py:10-52 | running a plan in two parts leaves the two traces one after the other, with the second part's tasks numbered after the first's |
| Dispatch.EventsBarrier | workflows/parsl/DRP_pipeline.py:10-52 | in the trace of every plan, a task submitted before some join is itself joined before any later submission |
| Dispatch.EventsClosed | workflows/parsl/DRP_pipeline.py:10-52 | every task a complete plan submits is joined later in its trace |
| Dispatch.EventsJoinIds | workflows/parsl/DRP_pipeline.py:10-52 | every join in a plan's trace is of one of the plan's own tasks |
| Dispatch.EventsJoinAll | workflows/parsl/DRP_pipeline.py:10-52 | every task of a plan is joined in the plan's trace |
| Dispatch.BarrierPrefix | workflows/parsl/DRP_pipeline.py:10-52 | a run cut short keeps the barrier discipline of its plan |
| Dispatch.DataFlowKernel.constructor | python/desc/parsl/pipeline_components/pipeline_components.py:16-17 | a new kernel has no tasks and an empty trace |
| Dispatch.DataFlowKernel.SubmitTask | workflows/parsl/DRP_pipeline.py:10-11 | calling an app queues its task, returns the task's number as the future and records the submission, joining nothing |
| Dispatch.DataFlowKernel.Result | workflows/parsl/DRP_pipeline.py:12 | `future.result()` records a join and reports the task's outcome: it raises, naming the task, exactly when the task is a failing one |
| Dispatch.DataFlowKernel.JoinRange | python/desc/parsl/pipeline_components/pipeline_components.py:136 | `[x.result() for x in futures]` joins in order up to and including the first failing task, and reports that failure, or succeeds after joining all; no failing task is joined before the one reported |
| Dispatch.DataFlowKernel.NoteRegistryOpened | workflows/parsl/DRP_pipeline.py:14 | opening the registry submits and joins nothing and is recorded in the trace |
| Fanout.FilterTasksAt | python/desc/parsl/pipeline_components/pipeline_components.py:127-135 | the k-th task of a fan-out is the one for the k-th filter |
| Fanout.FilterTasksPrefix | python/desc/parsl/pipeline_components/pipeline_components.py:127-135 | the tasks for the first filters are the first tasks |
| Fanout.FilterTaskShape | python/desc/parsl/pipeline_components/pipeline_components.py:128-135 | the task for filter `f` sees `filter = f` and every other key of the caller's dataId unchanged, and logs both streams to `<task>_<f>_<patch>.log` |
| Fanout.FilterTasksReset | python/desc/parsl/pipeline_components/pipeline_components.py:128 | a dataId that already carries a filter yields the same tasks as one without |
| Fanout.AfterLoopStep | python/desc/parsl/pipeline_components/pipeline_components.py:128-129 | one more `dataId['filter'] = filt` on the dict the loop has been updating gives the next task's dataId and leaves the patch as it was |
| Fanout.SubmitForFilter | python/desc/parsl/pipeline_components/pipeline_components.py:128-135 | one iteration sets the filter in the caller's dict, reads `patch` and routes the logs, then submits exactly that filter's task. It raises exactly when the dict has no `patch` (`KeyError('patch')`) or a non-directory holds the log directory's name (`FileExistsError`). On an error nothing is submitted and the file system is unchanged; otherwise the log directory exists afterwards |
| Fanout.SubmitFilters | python/desc/parsl/pipeline_components/pipeline_components.py:126-135 | the loop submits the fan-out's tasks in filter order and stops at the first iteration that raises; the futures are the new task numbers in order, and the dict is left holding the last filter. It raises, before submitting anything, exactly when there is a filter and either the dict has no `patch` or a non-directory holds the log directory's name; with a `patch` the error is `FileExistsError` and the file system is unchanged |
| Fanout.JoinSubmitted | python/desc/parsl/pipeline_components/pipeline_components.py:136 | joining the submitted futures continues the fan-out's trace; it succeeds exactly when no task fails, and otherwise ends with the join of the first failing task, with no failing task joined before it |
| Fanout.LoopOverFilters | python/desc/parsl/pipeline_components/pipeline_components.py:124-137 | every run is a prefix of the fan-out's events in which no failing task is joined, except that a reported task failure is the last event. On success: all tasks are submitted, then all are joined, the futures are their numbers, and none failed. After the submissions, success or a task failure, the dict holds the last filter. It raises something other than a task failure exactly when there is a filter and either the dict has no `patch` (`KeyError('patch')`, before submitting anything) or a non-directory holds the log directory's name (`FileExistsError`, with trace and file system unchanged). With no filters it returns `[]` and changes nothing. The file system changes at most by creating the missing log directory |
| DrpPlan.PatchesRoundsAt | workflows/parsl/DRP_pipeline.py:28-52 | stage `i` of patch `p` is round `6p + i` of the patch loop |
| DrpPlan.PlanOrder | workflows/parsl/DRP_pipeline.py:10-52 | the run is ingest, the registry, the exposures and the sky map, then stage `i` of patch `p` at position `4 + 6p + i`; nothing follows the sky map when the patch ids cannot be read |
| DrpPlan.IngestBeforeRegistry | workflows/parsl/DRP_pipeline.py:10-14 | the ingest task is submitted first and joined before the registry is opened |
| DrpPlan.PlanBarrier | workflows/parsl/DRP_pipeline.py:10-52 | the run's trace keeps the stage barrier and joins every task it submits |
| DrpPlan.PlanTaskCount | workflows/parsl/DRP_pipeline.py:10-52 | the run submits ingest, the sky map, one task per visit row and raft the registry lists for that visit (`SumRafts`), and one task per patch, coadd stage and filter |
| DrpPlan.HeadTaskCount | workflows/parsl/DRP_pipeline.py:10-26 | before the patch loop the run submits two tasks besides the exposures |
| DrpPlan.PatchesTaskCount | workflows/parsl/DRP_pipeline.py:28-52 | the patch loop submits six stages × patches × filters tasks |
| DrpPlan.EimageTaskFor | workflows/parsl/DRP_pipeline.py:17-21 | the exposure stage processes (v, raft) exactly when v is a registered visit and the registry has a raw row for (v, raft) |
| DrpPlan.EimageTasksCount | workflows/parsl/DRP_pipeline.py:17-21 | the exposure stage submits, for each visit row, as many tasks as the registry lists rafts for that visit |
| DrpPlan.RaftTasksCount | workflows/parsl/DRP_pipeline.py:18-21 | the inner loop over one visit's distinct rafts processes each (visit, raft) pair once |
| DrpPlan.EimageTaskMultiplicity | workflows/parsl/DRP_pipeline.py:17-21 | (v, raft) is processed once for each time `select visit from raw_visit` returns v, when the registry has a raw row for (v, raft), and never otherwise |
| DrpPlan.EimageTaskOnce | workflows/parsl/DRP_pipeline.py:17-21 | when every visit is listed once, each registered (visit, raft) pair is processed exactly once |
| DrpPlan.ExposureIdString | workflows/parsl/DRP_pipeline.py:19 | `dict(visit=v, raft=r)` keeps that key order, so its id string reads `visit=<v> raft=<r>` |
| DrpPlan.EimageCommand | workflows/parsl/DRP_pipeline.py:19-21 | an exposure task runs `processEimage.py` on the output repository with its id string after `--id` |
| DrpPlan.SharedVisitLog | workflows/parsl/DRP_pipeline.py:21 | two exposure tasks share a log file exactly when they belong to the same visit |
| DrpPlan.PathJoinInjective | workflows/parsl/DRP_pipeline.py:21 | relative file names joined onto the same log directory stay apart |
| DrpPlan.PatchFilterId | workflows/parsl/DRP_pipeline.py:32 | the patch dataId reads its patch back, and adding `filter` puts it after `tract` and `patch` |
| DrpPlan.StageTaskShape | workflows/parsl/DRP_pipeline.py:32-52 | task `j` of stage `i` of a patch runs that stage's app under its name on `{tract: 0, patch, filter: filters[j]}` and logs to `<stage>_<filter>_<patch>.log` |
| DrpPipeline.RunKeepsBarrier | workflows/parsl/DRP_pipeline.py:10-52 | every run that follows the plan, even one cut short, keeps the barrier discipline |
| DrpPipeline.SubmitAndJoin | workflows/parsl/DRP_pipeline.py:10-12 | a single-task stage routes its logs, submits the task and waits for it; its trace is part of that round, all of it on success; no failing task is joined, except that a reported task failure ends the section at that task's join; the only error other than a task failure is `FileExistsError` on the log directory, raised only when a non-directory held its name at the start, and the file system changes at most by creating the missing log directory; when the log directory is unusable nothing is submitted |
| DrpPipeline.TaskStep | workflows/parsl/DRP_pipeline.py:24-26 | a single-task stage of the plan, after the stages before it, keeps the run within the plan and completes that step on success; no failing task is joined, except that a reported task failure ends the section at that task's join; the only error other than a task failure is `FileExistsError` on the log directory, raised only when a non-directory held its name at the start, and the file system changes at most by creating the missing log directory; when the log directory is unusable nothing is submitted |
| DrpPipeline.SubmitRaft | workflows/parsl/DRP_pipeline.py:19-21 | one `processEimage` call submits that raft's task after the earlier rafts' tasks; it fails exactly when a non-directory holds the log directory's name, with `FileExistsError`, and then changes nothing; on success the log directory exists |
| DrpPipeline.SubmitRafts | workflows/parsl/DRP_pipeline.py:18-21 | the inner loop submits the visit's raft tasks in registry order and joins nothing; it fails exactly when the visit has a raft and a non-directory holds the log directory's name, and then it has submitted nothing and the error is `FileExistsError`; the file system changes at most by creating the missing log directory |
| DrpPipeline.VisitStep | workflows/parsl/DRP_pipeline.py:17-21 | the tasks of one visit follow those of the visits before it, and nothing is joined; it fails exactly when the registry lists a raft for the visit and a non-directory holds the log directory's name, with `FileExistsError`; the file system changes at most by creating the missing log directory |
| DrpPipeline.SubmitVisits | workflows/parsl/DRP_pipeline.py:17-21 | the nested loops submit the exposure stage's tasks in visit order, and in registry order within a visit; the trace is part of that round, and on success it gains exactly the round's submissions; the only error is `FileExistsError` on a log directory a non-directory held at the start, and the file system changes at most by creating the missing log directory |
| DrpPipeline.RunEimages | workflows/parsl/DRP_pipeline.py:16-22 | the exposure stage submits one task per (visit, raft) and then joins them all; its trace is part of that round, all of it on success; no failing task is joined, except that a reported task failure ends the section at that task's join; the only error other than a task failure is `FileExistsError` on the log directory, raised only when a non-directory held its name at the start, and the file system changes at most by creating the missing log directory |
| DrpPipeline.EimagesStep | workflows/parsl/DRP_pipeline.py:16-22 | the exposure stage, after the stages before it, keeps the run within the plan; no failing task is joined, except that a reported task failure ends the section at that task's join; the only error other than a task failure is `FileExistsError` on the log directory, raised only when a non-directory held its name at the start, and the file system changes at most by creating the missing log directory |
| DrpPipeline.ResultsAgain | workflows/parsl/DRP_pipeline.py:36 | the driver's second `[x.result() for x in outputs]`, on futures that all succeeded, joins each of them once more in order, and none raises |
| DrpPipeline.RunStage | workflows/parsl/DRP_pipeline.py:34-36 | one coadd stage is `loop_over_filters` followed by the driver's own joins: the round of the stage's tasks, joined twice on success, with the dict left holding the last filter; no failing task is joined, except that a reported task failure ends the section at that task's join; the only error other than a task failure is `FileExistsError` on the log directory, raised only when a non-directory held its name at the start, and the file system changes at most by creating the missing log directory (the patch's dict always has `patch`, so `KeyError` cannot arise) |
| DrpPipeline.RunPatchStage | workflows/parsl/DRP_pipeline.py:34-52 | coadd stage `i` of a patch, after stages `0..i-1`, reads the catalog's filters and completes round `i` on success; no failing task is joined, except that a reported task failure ends the section at that task's join; the only error other than a task failure is `FileExistsError` on the log directory, raised only when a non-directory held its name at the start, and the file system changes at most by creating the missing log directory |
| DrpPipeline.RunPatch | workflows/parsl/DRP_pipeline.py:32-52 | one patch runs its six stages in order on a fresh dataId; its trace is part of the patch's rounds, all of them on success; no failing task is joined, except that a reported task failure ends the section at that task's join; the only error other than a task failure is `FileExistsError` on the log directory, raised only when a non-directory held its name at the start, and the file system changes at most by creating the missing log directory |
| DrpPipeline.PatchStep | workflows/parsl/DRP_pipeline.py:28-52 | patch `k`, after the patches before it, extends the patch loop's trace; no failing task is joined, except that a reported task failure ends the section at that task's join; the only error other than a task failure is `FileExistsError` on the log directory, raised only when a non-directory held its name at the start, and the file system changes at most by creating the missing log directory |
| DrpPipeline.RunPatches | workflows/parsl/DRP_pipeline.py:28-52 | the patch loop's trace is part of the rounds of all patches, all of them on success; no failing task is joined, except that a reported task failure ends the section at that task's join; the only error other than a task failure is `FileExistsError` on the log directory, raised only when a non-directory held its name at the start, and the file system changes at most by creating the missing log directory |
| DrpPipeline.RunIngest | workflows/parsl/DRP_pipeline.py:10-14 | ingest is submitted and waited for, and then the registry is opened; no failing task is joined, except that a reported task failure ends the section at that task's join; the only error other than a task failure is `FileExistsError` on the log directory, raised only when a non-directory held its name at the start, and the file system changes at most by creating the missing log directory; when the log directory is unusable the trace stays empty |
| DrpPipeline.RunExposures | workflows/parsl/DRP_pipeline.py:16-26 | the exposure stage and then the sky map complete the first four steps of the plan on success; no failing task is joined, except that a reported task failure ends the section at that task's join; the only error other than a task failure is `FileExistsError` on the log directory, raised only when a non-directory held its name at the start, and the file system changes at most by creating the missing log directory |
| DrpPipeline.RunTail | workflows/parsl/DRP_pipeline.py:28-52 | the patch ids of tract 0, then every patch; no failing task is joined, except that a reported task failure ends the section at that task's join. When the sky map has no tract 0 (or none is stored), that error is returned with trace and file system unchanged, the trace being the whole head of the plan; otherwise the only other error is `FileExistsError` on a log directory a non-directory held at the start. The file system changes at most by creating the missing log directory |
| DrpPipeline.RunStages | workflows/parsl/DRP_pipeline.py:10-52 | from ingest to the last coadd stage, the trace is a prefix of the plan's events, and all of them with the plan's task count on success; no failing task is joined, except that a reported task failure ends the section at that task's join. An error other than a task failure is `FileExistsError` on an unusable log directory (then nothing is submitted) or, when tract 0's patch ids cannot be read, that read error, returned only after every planned task (ingest, the exposures and the sky map) has been submitted and joined. The run succeeds exactly when the log directory is usable, the patch ids can be read and no planned task fails |
| DrpPipeline.RunAfterIngest | workflows/parsl/DRP_pipeline.py:14-52 | after ingest, the catalog is opened and the exposure stage, the sky map and the patch loop run; the trace stays within the plan, and is all of it on success. An error other than a task failure is `FileExistsError` on an unusable log directory or, when tract 0's patch ids cannot be read, that read error, returned only after the exposures and the sky map have been submitted and joined; an unreadable tract 0 always stops the run. The file system changes at most by creating the missing log directory |
| DrpPipeline.PlanOutcome | workflows/parsl/DRP_pipeline.py:10-52 | a run that follows the plan and stops at failures succeeds exactly when no other cause stops it and no task of the plan fails |
| DrpPipeline.Run | workflows/parsl/DRP_pipeline.py:1-52 | the whole driver: every run is a prefix of the plan's events; a successful run is all of them, with one task per planned task; no failing task is joined, except that a run reporting a task failure ends right at the join of that task. A failed bootstrap is returned with an empty trace and the bootstrap's file system. An unusable log directory gives `FileExistsError` with an empty trace. Every other error that is not a task failure is the error from reading tract 0's patch ids, returned only after every planned task (ingest, the exposures and the sky map) has been submitted and joined. The run succeeds exactly when the bootstrap succeeds, the log directory is usable, the patch ids can be read and no planned task fails. After a successful bootstrap the file system changes at most by creating the missing log directory |

## Left out

- Concurrency, the worker pool and the order in which tasks execute are not
  modelled. Parsl evaluates app arguments when a task runs. The model
  instead snapshots the dataId when the task is submitted, so the race on
  the dict that `loop_over_filters` shares between its tasks is not
  captured.
- The external programs do not run. Whether each task fails is given by the
  kernel's `failing` set, which stands for non-zero exit codes and for app
  bodies that raise. A task whose command cannot be built (see
  `Commands.TemplateFailsIffNoFilter`) is not forced into that set.
- The registry is a SQLite database and the sky map comes from the butler.
  Both become data in `Catalog.DataRepository`. `select distinct` is taken to
  list values in first-seen order; SQL leaves that order open. Opening the
  connection is recorded but not modelled. In the script, ingest fills the
  registry and `makeDiscreteSkyMap` writes the sky map that the catalog reads
  later. The model does not capture those writes: `data` is fixed for the
  whole run, and stands for the registry and the sky map as they are when the
  catalog first reads them.
- The butler's internals, the sky map's geometry and `getIndex` are left
  out. A sky map is a list of tracts, each a list of patch indices.
- `Commands.Format` models only the `str.format` fields the templates use:
  `{d}` with one digit, `{{` and `}}`. Every other use of a brace is
  treated as an error.
- `DataIds.DictRepr` leaves out Python's choice of quote and its escaping.
- The file system tracks no parent directories and follows a link only one
  level. File permissions and I/O errors other than those named are not
  modelled. Writing `_mapper` when it is a link to a file replaces the link
  with a file, where Python writes through the link to its target. When the
  repository path is a dangling link, the model reports `NotADirectory`,
  where Python raises `FileNotFoundError`.
- `print` and `sys.stdout.flush()` in the patch loop are left out, because
  they only write progress text.
- The module-level kernel and thread pool become a kernel passed in as a
  parameter.
- The script's hard-coded repository, reference-catalog path, eimage
  pattern and log directory become a `DrpPlan.Config` (`DrpPlan.Driver`
  holds the script's values).
- The process exit code of the script is not modelled. A raised exception
  becomes an `Err` result.
