/**
 * The part of parsl's DataFlowKernel the pipeline relies on: calling an app
 * submits a task and returns a future; `.result()` blocks until the task is
 * done and re-raises its failure. Execution is not modelled: what happens is
 * recorded as a trace of submissions and joins, and whether a task's
 * external command fails is an input to the kernel.
 */
module Dispatch {
  import opened Common
  import opened DataIds
  import opened Commands
  import opened LogFiles

  /** The app called and its arguments other than the dataId and the log routing. */
  datatype Invocation =
    | IngestSimImages(outputRepo: string, eimagePattern: string)
    | StageApp(app: App, taskName: string, outputRepo: string)

  /** One app invocation: what was called, the dataId it was given and where its output goes. */
  datatype Task = Task(call: Invocation, dataId: Option<DataId>, logs: LogDests)

  /** The command line the task runs, or the error its app body raises. */
  function CommandLine(t: Task): Result<string> {
    match t.call
    case IngestSimImages(repo, pattern) => IngestCommand(repo, pattern)
    case StageApp(app, name, repo) => Command(app, name, repo, t.dataId)
  }

  /** What the driver does that others can observe. */
  datatype Event = Submit(id: nat, task: Task) | Join(id: nat) | RegistryOpened

  /**
   * What `.result()` reports: the task fails exactly when it is one of the
   * failing tasks, whether its external command exits with an error or its
   * app body raises.
   */
  function Outcome(id: nat, failing: set<nat>): (r: Result<()>)
    ensures r.Ok? <==> id !in failing
    ensures r.Err? ==> r.error == TaskFailed(id)
  {
    if id in failing then Err(TaskFailed(id)) else Ok(())
  }

  /** Submission events for `ts`, numbered from `base`. */
  function Submits(base: nat, ts: seq<Task>): seq<Event> {
    seq(|ts|, k requires 0 <= k < |ts| => Submit(base + k, ts[k]))
  }

  /** Joins of the `n` tasks numbered from `base`, in submission order. */
  function Joins(base: nat, n: nat): seq<Event> {
    seq(n, k requires 0 <= k < n => Join(base + k))
  }

  /**
   * A step of a driver: a round submits its tasks, then joins all of them,
   * a second time over when `rejoin` holds; `OpenRegistry` is the driver
   * opening the registry.
   */
  datatype Step = Round(tasks: seq<Task>, rejoin: bool) | OpenRegistry

  function StepEvents(base: nat, s: Step): seq<Event> {
    match s
    case Round(ts, again) =>
      Submits(base, ts) + Joins(base, |ts|) + (if again then Joins(base, |ts|) else [])
    case OpenRegistry => [RegistryOpened]
  }

  function StepTasks(s: Step): nat {
    if s.Round? then |s.tasks| else 0
  }

  /** The number of tasks a sequence of steps submits. */
  function TaskCount(steps: seq<Step>): nat {
    if |steps| == 0 then 0 else StepTasks(steps[0]) + TaskCount(steps[1..])
  }

  /** The trace of a plan whose first task gets number `base`. */
  function Events(base: nat, steps: seq<Step>): seq<Event>
    decreases |steps|
  {
    if |steps| == 0 then [] else StepEvents(base, steps[0]) + Events(base + StepTasks(steps[0]), steps[1..])
  }

  lemma {:induction false} TaskCountAppend(s1: seq<Step>, s2: seq<Step>)
    ensures TaskCount(s1 + s2) == TaskCount(s1) + TaskCount(s2)
    decreases |s1|
  {
    if |s1| > 0 {
      assert (s1 + s2)[1..] == s1[1..] + s2;
      TaskCountAppend(s1[1..], s2);
    } else {
      assert s1 + s2 == s2;
    }
  }

  /** Unfolds one step at the head of a plan. */
  lemma EventsCons(base: nat, x: Step, rest: seq<Step>)
    ensures Events(base, [x] + rest) == StepEvents(base, x) + Events(base + StepTasks(x), rest)
    ensures TaskCount([x] + rest) == StepTasks(x) + TaskCount(rest)
  {
    assert ([x] + rest)[1..] == rest;
  }

  /** A plan run in two parts leaves the concatenation of the two traces. */
  lemma EventsAppend(base: nat, s1: seq<Step>, s2: seq<Step>)
    ensures Events(base, s1 + s2) == Events(base, s1) + Events(base + TaskCount(s1), s2)
  {
    EventsAppendAt(base, s1, s2, base + TaskCount(s1));
  }

  /** `EventsAppend`, with `b` the number the second part's first task gets. */
  lemma {:induction false} EventsAppendAt(base: nat, s1: seq<Step>, s2: seq<Step>, b: nat)
    requires b == base + TaskCount(s1)
    ensures Events(base, s1 + s2) == Events(base, s1) + Events(b, s2)
    decreases |s1|
  {
    if |s1| == 0 {
      assert s1 + s2 == s2;
    } else {
      var x, rest := s1[0], s1[1..];
      var b' := base + StepTasks(x);
      assert (s1 + s2)[0] == x && (s1 + s2)[1..] == rest + s2;
      EventsAppendAt(b', rest, s2, b);
      ConcatAssoc(StepEvents(base, x), Events(b', rest), Events(b, s2));
    }
  }

  /** A plan of one round is that round's events. */
  lemma SingleRound(base: nat, ts: seq<Task>, rejoin: bool)
    ensures Events(base, [Round(ts, rejoin)])
         == Submits(base, ts) + Joins(base, |ts|) + (if rejoin then Joins(base, |ts|) else [])
  {
    assert [Round(ts, rejoin)][1..] == [];
  }

  lemma SubmitsSnoc(base: nat, ts: seq<Task>, t: Task)
    ensures Submits(base, ts + [t]) == Submits(base, ts) + [Submit(base + |ts|, t)]
  {
  }

  lemma SubmitsPrefix(base: nat, ts: seq<Task>, k: nat)
    requires k <= |ts|
    ensures Submits(base, ts[..k]) <= Submits(base, ts)
  {
  }

  lemma JoinsPrefix(base: nat, m: nat, n: nat)
    requires m <= n
    ensures Joins(base, m) <= Joins(base, n)
  {
  }

  /**
   * Barrier discipline: whenever a join happens between two submissions,
   * the earlier task has been joined before the later one is submitted.
   */
  ghost predicate BarrierHolds(t: seq<Event>) {
    forall i, m, j | 0 <= i < m < j < |t| && t[i].Submit? && t[m].Join? && t[j].Submit? ::
      Join(t[i].id) in t[i + 1..j]
  }

  /** Every task submitted in `t` is joined later in `t`. */
  ghost predicate Closed(t: seq<Event>) {
    forall i | 0 <= i < |t| && t[i].Submit? :: Join(t[i].id) in t[i + 1..]
  }

  lemma BarrierConcat(a: seq<Event>, b: seq<Event>)
    requires BarrierHolds(a) && Closed(a) && BarrierHolds(b)
    ensures BarrierHolds(a + b)
  {
    var t := a + b;
    forall i, m, j | 0 <= i < m < j < |t| && t[i].Submit? && t[m].Join? && t[j].Submit?
      ensures Join(t[i].id) in t[i + 1..j]
    {
      if j < |a| {
        BarrierInFront(a, b, i, m, j);
      } else if i < |a| {
        ClosedInFront(a, b, i, j);
      } else {
        BarrierInBack(a, b, i, m, j);
      }
    }
  }

  lemma BarrierInFront(a: seq<Event>, b: seq<Event>, i: nat, m: nat, j: nat)
    requires BarrierHolds(a) && i < m < j < |a|
    requires (a + b)[i].Submit? && (a + b)[m].Join? && (a + b)[j].Submit?
    ensures Join((a + b)[i].id) in (a + b)[i + 1..j]
  {
    assert (a + b)[i] == a[i] && (a + b)[m] == a[m] && (a + b)[j] == a[j];
    assert (a + b)[i + 1..j] == a[i + 1..j];
  }

  lemma ClosedInFront(a: seq<Event>, b: seq<Event>, i: nat, j: nat)
    requires Closed(a) && i < |a| <= j <= |a + b|
    requires (a + b)[i].Submit?
    ensures Join((a + b)[i].id) in (a + b)[i + 1..j]
  {
    assert (a + b)[i] == a[i];
    var w := Join(a[i].id);
    assert w in a[i + 1..];
    var k :| 0 <= k < |a[i + 1..]| && a[i + 1..][k] == w;
    assert (a + b)[i + 1..j][k] == w;
  }

  lemma BarrierInBack(a: seq<Event>, b: seq<Event>, i: nat, m: nat, j: nat)
    requires BarrierHolds(b) && |a| <= i < m < j < |a + b|
    requires (a + b)[i].Submit? && (a + b)[m].Join? && (a + b)[j].Submit?
    ensures Join((a + b)[i].id) in (a + b)[i + 1..j]
  {
    var i', m', j' := i - |a|, m - |a|, j - |a|;
    assert b[i'] == (a + b)[i] && b[m'] == (a + b)[m] && b[j'] == (a + b)[j];
    assert (a + b)[i + 1..j] == b[i' + 1..j'];
  }

  /** A step on its own keeps the barrier: a round submits all its tasks before it joins any. */
  lemma StepBarrier(base: nat, s: Step)
    ensures BarrierHolds(StepEvents(base, s))
  {
    if s.Round? {
      var t := StepEvents(base, s);
      assert forall k | 0 <= k < |t| :: t[k].Submit? <==> k < |s.tasks|;
    }
  }

  /** A step on its own joins every task it submits. */
  lemma StepClosed(base: nat, s: Step)
    ensures Closed(StepEvents(base, s))
  {
    if s.Round? {
      var t := StepEvents(base, s);
      var n := |s.tasks|;
      assert forall k | 0 <= k < |t| :: t[k].Submit? <==> k < n;
      forall i | 0 <= i < |t| && t[i].Submit?
        ensures Join(t[i].id) in t[i + 1..]
      {
        assert t[n + i] == Join(base + i);
        assert t[i + 1..][n - 1] == t[n + i];
      }
    }
  }

  /** Every plan yields a trace with the barrier discipline. */
  lemma {:induction false} EventsBarrier(base: nat, steps: seq<Step>)
    ensures BarrierHolds(Events(base, steps))
    decreases |steps|
  {
    if |steps| > 0 {
      var s := steps[0];
      var rest := Events(base + StepTasks(s), steps[1..]);
      EventsBarrier(base + StepTasks(s), steps[1..]);
      StepThenBarrier(base, s, rest);
      assert Events(base, steps) == StepEvents(base, s) + rest;
    }
  }

  /** A step followed by events that keep the barrier keeps it too. */
  lemma StepThenBarrier(base: nat, s: Step, rest: seq<Event>)
    requires BarrierHolds(rest)
    ensures BarrierHolds(StepEvents(base, s) + rest)
  {
    StepBarrier(base, s);
    StepClosed(base, s);
    BarrierConcat(StepEvents(base, s), rest);
  }

  /** A complete plan joins every task it submits. */
  lemma {:induction false} EventsClosed(base: nat, steps: seq<Step>)
    ensures Closed(Events(base, steps))
    decreases |steps|
  {
    if |steps| > 0 {
      var s := steps[0];
      var rest := Events(base + StepTasks(s), steps[1..]);
      assert Events(base, steps) == StepEvents(base, s) + rest;
      EventsClosed(base + StepTasks(s), steps[1..]);
      StepThenClosed(base, s, rest);
    }
  }

  /** A step followed by events that join all they submit joins all it submits. */
  lemma StepThenClosed(base: nat, s: Step, rest: seq<Event>)
    requires Closed(rest)
    ensures Closed(StepEvents(base, s) + rest)
  {
    StepClosed(base, s);
    ClosedConcat(StepEvents(base, s), rest);
  }

  lemma ClosedConcat(a: seq<Event>, b: seq<Event>)
    requires Closed(a) && Closed(b)
    ensures Closed(a + b)
  {
    var t := a + b;
    forall i | 0 <= i < |t| && t[i].Submit?
      ensures Join(t[i].id) in t[i + 1..]
    {
      if i < |a| {
        assert a[i] == t[i];
        var k :| 0 <= k < |a[i + 1..]| && a[i + 1..][k] == Join(a[i].id);
        assert t[i + 1..][k] == Join(a[i].id);
      } else {
        assert b[i - |a|] == t[i];
        assert t[i + 1..] == b[i - |a| + 1..];
      }
    }
  }

  /** A run cut short keeps the barrier discipline of its plan. */
  lemma BarrierPrefix(t: seq<Event>, u: seq<Event>)
    requires BarrierHolds(u) && t <= u
    ensures BarrierHolds(t)
  {
    forall i, m, j | 0 <= i < m < j < |t| && t[i].Submit? && t[m].Join? && t[j].Submit?
      ensures Join(t[i].id) in t[i + 1..j]
    {
      assert u[i] == t[i] && u[m] == t[m] && u[j] == t[j];
      assert t[i + 1..j] == u[i + 1..j];
    }
  }

  /**
   * The first task in `[lo, hi)` whose `.result()` raises, if any.
   */
  function FirstFailure(failing: set<nat>, lo: nat, hi: nat): (r: Option<nat>)
    requires lo <= hi
    ensures r.None? <==> forall i | lo <= i < hi :: Outcome(i, failing).Ok?
    ensures r.Some? ==>
      && lo <= r.value < hi
      && Outcome(r.value, failing).Err?
      && forall i | lo <= i < r.value :: Outcome(i, failing).Ok?
    decreases hi - lo
  {
    if lo == hi then None
    else if Outcome(lo, failing).Err? then Some(lo)
    else FirstFailure(failing, lo + 1, hi)
  }

  /** No task joined in `s` is a failing one. */
  ghost predicate Clean(failing: set<nat>, s: seq<Event>) {
    forall i | 0 <= i < |s| && s[i].Join? :: s[i].id !in failing
  }

  /**
   * Between the traces `t0` and `t` no failing task was joined, except that a
   * run reporting a task failure ends right at the join of that task.
   */
  ghost predicate StopsAtFailure<T>(failing: set<nat>, t0: seq<Event>, t: seq<Event>, r: Result<T>) {
    && t0 <= t
    && if r.Err? && r.error.TaskFailed? then
         && |t| > |t0|
         && t[|t| - 1] == Join(r.error.task)
         && r.error.task in failing
         && Clean(failing, t[|t0|..|t| - 1])
       else Clean(failing, t[|t0|..])
  }

  lemma CleanConcat(failing: set<nat>, a: seq<Event>, b: seq<Event>)
    requires Clean(failing, a) && Clean(failing, b)
    ensures Clean(failing, a + b)
  {
    forall i | 0 <= i < |a + b| && (a + b)[i].Join?
      ensures (a + b)[i].id !in failing
    {
      if i >= |a| {
        assert (a + b)[i] == b[i - |a|];
      }
    }
  }

  /** Submissions join nothing. */
  lemma SubmitsClean(failing: set<nat>, base: nat, ts: seq<Task>)
    ensures Clean(failing, Submits(base, ts))
  {
  }

  /** The joins of tasks none of which fails are clean. */
  lemma JoinsClean(failing: set<nat>, base: nat, n: nat)
    requires FirstFailure(failing, base, base + n).None?
    ensures Clean(failing, Joins(base, n))
  {
    forall i | 0 <= i < n
      ensures Joins(base, n)[i].id !in failing
    {
      assert Outcome(base + i, failing).Ok?;
    }
  }

  /** Appending clean events to a trace stops at no failure. */
  lemma StopsClean<T>(failing: set<nat>, t0: seq<Event>, u: seq<Event>, r: Result<T>)
    requires Clean(failing, u)
    requires !(r.Err? && r.error.TaskFailed?)
    ensures StopsAtFailure(failing, t0, t0 + u, r)
  {
    DropFront(t0, u);
  }

  /** A run that has done nothing yet has stopped at no failure. */
  lemma StopsNothing<T>(failing: set<nat>, t0: seq<Event>, r: Result<T>)
    requires !(r.Err? && r.error.TaskFailed?)
    ensures StopsAtFailure(failing, t0, t0, r)
  {
    StopsClean(failing, t0, [], r);
    assert t0 + [] == t0;
  }

  /** A part that ended normally, followed by one that stops at a failure, stops at that failure. */
  lemma StopsTrans<T>(failing: set<nat>, t0: seq<Event>, t1: seq<Event>, t: seq<Event>, r: Result<T>)
    requires StopsAtFailure(failing, t0, t1, Ok(()))
    requires StopsAtFailure(failing, t1, t, r)
    ensures StopsAtFailure(failing, t0, t, r)
  {
    PrefixTrans(t0, t1, t);
    var a := t1[|t0|..];
    if r.Err? && r.error.TaskFailed? {
      var b := t[|t1|..|t| - 1];
      CleanConcat(failing, a, b);
      assert t[|t0|..|t| - 1] == a + b;
    } else {
      var b := t[|t1|..];
      CleanConcat(failing, a, b);
      assert t[|t0|..] == a + b;
    }
  }

  /** The first failure among tasks that are all joined stops the run. */
  lemma JoinStops(failing: set<nat>, t0: seq<Event>, id: nat)
    ensures StopsAtFailure(failing, t0, t0 + [Join(id)], Outcome(id, failing))
  {
    var t := t0 + [Join(id)];
    assert t[|t0|..] == [Join(id)];
    assert t[|t0|..|t| - 1] == [];
  }

  /** Every join in a step's events is of one of the step's own tasks. */
  lemma StepJoinIds(base: nat, s: Step, i: nat)
    requires i < |StepEvents(base, s)| && StepEvents(base, s)[i].Join?
    ensures base <= StepEvents(base, s)[i].id < base + StepTasks(s)
  {
    if s.Round? {
      var n := |s.tasks|;
      var a, b := Submits(base, s.tasks), Joins(base, n);
      assert StepEvents(base, s) == a + b + (if s.rejoin then b else []);
      if i >= 2 * n {
        assert StepEvents(base, s)[i] == b[i - 2 * n];
      } else if i >= n {
        assert StepEvents(base, s)[i] == b[i - n];
      }
    }
  }

  /** Every join in the trace of a plan is of one of the plan's tasks. */
  lemma {:induction false} EventsJoinIds(base: nat, steps: seq<Step>, i: nat)
    requires i < |Events(base, steps)| && Events(base, steps)[i].Join?
    ensures base <= Events(base, steps)[i].id < base + TaskCount(steps)
    decreases |steps|
  {
    var head, b1 := StepEvents(base, steps[0]), base + StepTasks(steps[0]);
    var rest := Events(b1, steps[1..]);
    assert Events(base, steps) == head + rest;
    if i < |head| {
      StepJoinIds(base, steps[0], i);
    } else {
      assert Events(base, steps)[i] == rest[i - |head|];
      EventsJoinIds(b1, steps[1..], i - |head|);
    }
  }

  /** Every task of a plan is joined somewhere in the plan's trace. */
  lemma {:induction false} EventsJoinAll(base: nat, steps: seq<Step>, id: nat)
    requires base <= id < base + TaskCount(steps)
    ensures Join(id) in Events(base, steps)
    decreases |steps|
  {
    var head, b1 := StepEvents(base, steps[0]), base + StepTasks(steps[0]);
    assert Events(base, steps) == head + Events(b1, steps[1..]);
    if id < b1 {
      var n := |steps[0].tasks|;
      assert head[n + (id - base)] == Join(id);
    } else {
      EventsJoinAll(b1, steps[1..], id);
    }
  }

  class DataFlowKernel {
    /** Every task submitted so far; a task's number is its position. */
    var tasks: seq<Task>
    /** The tasks whose external command exits with an error. */
    const failing: set<nat>
    ghost var trace: seq<Event>

    constructor (failing: set<nat>)
      ensures tasks == [] && trace == [] && this.failing == failing
    {
      tasks := [];
      trace := [];
      this.failing := failing;
    }

    /** Calling an app: the task is queued and its number returned as the future. */
    method SubmitTask(t: Task) returns (id: nat)
      modifies this
      ensures id == |old(tasks)|
      ensures tasks == old(tasks) + [t]
      ensures trace == old(trace) + [Submit(id, t)]
      ensures StopsAtFailure(failing, old(trace), trace, Ok(()))
    {
      StopsClean(failing, trace, [Submit(|tasks|, t)], Ok(()));
      id := |tasks|;
      tasks := tasks + [t];
      trace := trace + [Submit(id, t)];
    }

    /** `future.result()`. */
    method Result(id: nat) returns (r: Result<()>)
      requires id < |tasks|
      modifies this
      ensures tasks == old(tasks)
      ensures r == Outcome(id, failing)
      ensures trace == old(trace) + [Join(id)]
      ensures StopsAtFailure(failing, old(trace), trace, r)
    {
      JoinStops(failing, trace, id);
      r := Outcome(id, failing);
      trace := trace + [Join(id)];
    }

    /**
     * `[x.result() for x in futures]` over the tasks numbered `lo` to `hi`:
     * joins them in order and stops at the first one that raises.
     */
    method JoinRange(lo: nat, hi: nat) returns (r: Result<()>)
      requires lo <= hi <= |tasks|
      modifies this
      ensures tasks == old(tasks)
      ensures FirstFailure(failing, lo, hi).None? ==>
        r == Ok(()) && trace == old(trace) + Joins(lo, hi - lo)
      ensures FirstFailure(failing, lo, hi).Some? ==>
        var f := FirstFailure(failing, lo, hi).value;
        r == Outcome(f, failing) && trace == old(trace) + Joins(lo, f + 1 - lo)
      ensures StopsAtFailure(failing, old(trace), trace, r)
    {
      StopsNothing(failing, trace, Ok(()));
      var k := lo;
      while k < hi
        invariant lo <= k <= hi
        invariant tasks == old(tasks)
        invariant trace == old(trace) + Joins(lo, k - lo)
        invariant forall i | lo <= i < k :: Outcome(i, failing).Ok?
        invariant StopsAtFailure(failing, old(trace), trace, Ok(()))
      {
        ghost var mid := trace;
        var x := Result(k);
        StopsTrans(failing, old(trace), mid, trace, x);
        if x.Err? {
          assert Joins(lo, k + 1 - lo) == Joins(lo, k - lo) + [Join(k)];
          assert FirstFailure(failing, lo, hi) == Some(k);
          return x;
        }
        k := k + 1;
      }
      r := Ok(());
    }

    /** Opening the registry is recorded in the trace; it submits nothing. */
    ghost method NoteRegistryOpened()
      modifies this
      ensures tasks == old(tasks)
      ensures trace == old(trace) + [RegistryOpened]
      ensures StopsAtFailure(failing, old(trace), trace, Ok(()))
    {
      StopsClean(failing, trace, [RegistryOpened], Ok(()));
      trace := trace + [RegistryOpened];
    }
  }
}
