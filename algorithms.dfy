/**
 * The batch-scheduling algorithms of the scheduler (beeflow/scheduler/algorithms.py):
 * FCFS, Backfill, the list of candidate allocations of a task, and the
 * choice of algorithm. The resource arithmetic of `sched_types` and `util`
 * is not part of this model: it enters as the functions of an `Env`, and
 * `time.time()` as the parameter `now`.
 */
module Algorithms {
  import opened Wrappers
  import opened PyText

  datatype Requirements = Requirements(maxRuntime: int, nodes: int)

  datatype Allocation = Allocation(resource: string, startTime: int, maxRuntime: int) {
    function End(): int { startTime + maxRuntime }
  }

  /** A task to schedule; `allocations` is what `schedule_all` assigns to `task.allocations`. */
  datatype SchedTask = SchedTask(name: string, requirements: Requirements, allocations: seq<Allocation>)

  /**
   * The resource helpers, over the fixed list of resources of one call:
   *   fitsTotal(req)            rsum(*resources).fits_requirements(req)
   *   fitsDiff(ov, req)         diff(rsum(*resources), rsum(*ov)).fits_requirements(req)
   *   fitsRemaining(ov, req)    calculate_remaining(resources, ov).fits_requirements(req)
   *   overlap(allocs, t, n)     calculate_overlap(allocs, t, n)
   *   allocate(ov, name, req, t) allocate_aggregate(resources, ov, task, t)
   */
  datatype Env = Env(
    fitsTotal: Requirements -> bool,
    fitsDiff: (seq<Allocation>, Requirements) -> bool,
    fitsRemaining: (seq<Allocation>, Requirements) -> bool,
    overlap: (seq<Allocation>, int, int) -> seq<Allocation>,
    allocate: (seq<Allocation>, string, Requirements, int) -> seq<Allocation>)

  /**
   * The one property FCFS needs of `calculate_overlap`: the allocations it
   * returns come from the list and end after the time asked about.
   */
  ghost predicate OverlapWithin(env: Env) {
    forall allocs, t, n, a :: a in env.overlap(allocs, t, n) ==> a in allocs && a.End() > t
  }

  /** The allocations the task gets at `t`. */
  function AllocateAt(env: Env, task: SchedTask, allocs: seq<Allocation>, t: int): seq<Allocation> {
    env.allocate(env.overlap(allocs, t, task.requirements.maxRuntime), task.name, task.requirements, t)
  }

  /** The task placed at `s` against the allocations `allocs`. */
  predicate PlacedAt(env: Env, before: SchedTask, after: SchedTask, allocs: seq<Allocation>, s: int) {
    after == before.(allocations := AllocateAt(env, before, allocs, s))
  }

  // ---------------------------------------------------------------- FCFS

  predicate FitsDiffAt(env: Env, allocs: seq<Allocation>, t: int, req: Requirements) {
    env.fitsDiff(env.overlap(allocs, t, req.maxRuntime), req)
  }

  /** How many allocations end after `t`: what decreases while FCFS searches for a start time. */
  function CountAfter(allocs: seq<Allocation>, t: int): nat {
    if allocs == [] then 0
    else (if allocs[0].End() > t then 1 else 0) + CountAfter(allocs[1..], t)
  }

  lemma {:induction false} CountAfterMono(allocs: seq<Allocation>, t: int, u: int)
    requires t <= u
    ensures CountAfter(allocs, u) <= CountAfter(allocs, t)
  {
    if allocs != [] {
      CountAfterMono(allocs[1..], t, u);
    }
  }

  lemma {:induction false} CountAfterDrops(allocs: seq<Allocation>, t: int, a: Allocation)
    requires a in allocs && a.End() > t
    ensures CountAfter(allocs, a.End()) < CountAfter(allocs, t)
  {
    if allocs[0] == a {
      CountAfterMono(allocs[1..], t, a.End());
    } else {
      assert a in allocs[1..];
      CountAfterDrops(allocs[1..], t, a);
    }
  }

  /** The allocation of `ov` that ends first. */
  function Earliest(ov: seq<Allocation>): (a: Allocation)
    requires ov != []
    ensures a in ov && forall b :: b in ov ==> a.End() <= b.End()
  {
    if |ov| == 1 then ov[0]
    else
      var rest := Earliest(ov[1..]);
      assert forall b :: b in ov ==> b == ov[0] || b in ov[1..];
      if ov[0].End() <= rest.End() then ov[0] else rest
  }

  /** The `ValueError` of Python's `min` on an empty sequence. */
  const EmptyMin := "min() arg is an empty sequence"

  /**
   * The inner search of FCFS: from `t`, as long as what the overlapping
   * allocations leave does not fit, move on to the earliest end among
   * them. With nothing overlapping and still no fit, `min` fails.
   */
  function FcfsStart(env: Env, allocs: seq<Allocation>, t: int, req: Requirements): Result<int>
    requires OverlapWithin(env)
    decreases CountAfter(allocs, t)
  {
    var ov := env.overlap(allocs, t, req.maxRuntime);
    if env.fitsDiff(ov, req) then Ok(t)
    else if ov == [] then Err(EmptyMin)
    else
      var e := Earliest(ov);
      CountAfterDrops(allocs, t, e);
      FcfsStart(env, allocs, e.End(), req)
  }

  /**
   * The start time found fits, is no earlier than the search's start, and
   * is either that start or the end of an existing allocation; the search
   * fails only where nothing overlaps and the requirements still do not fit.
   */
  lemma {:induction false} FcfsStartFits(env: Env, allocs: seq<Allocation>, t: int, req: Requirements)
    requires OverlapWithin(env)
    ensures FcfsStart(env, allocs, t, req).Ok? ==>
      var s := FcfsStart(env, allocs, t, req).value;
      s >= t && FitsDiffAt(env, allocs, s, req) && (s == t || exists a :: a in allocs && a.End() == s)
    ensures FcfsStart(env, allocs, t, req).Err? ==>
      exists u :: u >= t && env.overlap(allocs, u, req.maxRuntime) == [] && !FitsDiffAt(env, allocs, u, req)
    decreases CountAfter(allocs, t)
  {
    var ov := env.overlap(allocs, t, req.maxRuntime);
    if !env.fitsDiff(ov, req) && ov != [] {
      var e := Earliest(ov);
      CountAfterDrops(allocs, t, e);
      FcfsStartFits(env, allocs, e.End(), req);
    }
  }

  /**
   * FCFS on one task, given the allocations so far and the current start
   * time: a task that cannot run at all is skipped; any other is allocated
   * at the start time the search finds, which becomes the current one.
   */
  function FcfsStep(env: Env, task: SchedTask, allocs: seq<Allocation>, t: int): Result<(SchedTask, seq<Allocation>, int)>
    requires OverlapWithin(env)
  {
    if !env.fitsTotal(task.requirements) then Ok((task, allocs, t))
    else
      match FcfsStart(env, allocs, t, task.requirements)
      case Err(e) => Err(e)
      case Ok(s) =>
        var a := AllocateAt(env, task, allocs, s);
        Ok((task.(allocations := a), allocs + a, s))
  }

  /**
   * FCFS over the tasks from index `i` on, given the allocations made so
   * far and the current start time: those tasks as updated, and the error
   * that stopped the run, if any. The tasks from the failing one on are
   * left as they were.
   */
  function FcfsRun(env: Env, tasks: seq<SchedTask>, i: nat, allocs: seq<Allocation>, t: int): (r: (seq<SchedTask>, Option<string>))
    requires OverlapWithin(env) && i <= |tasks|
    ensures |r.0| == |tasks| - i
    decreases |tasks| - i
  {
    if i == |tasks| then ([], None)
    else
      match FcfsStep(env, tasks[i], allocs, t)
      case Err(e) => (tasks[i..], Some(e))
      case Ok((task, allocs', t')) =>
        var next := FcfsRun(env, tasks, i + 1, allocs', t');
        ([task] + next.0, next.1)
  }

  /** What FCFS adds to its allocation list for one task: the task's new allocations, or nothing when it is skipped. */
  function Part(env: Env, before: SchedTask, after: SchedTask): seq<Allocation> {
    if env.fitsTotal(before.requirements) then after.allocations else []
  }

  /** The allocations FCFS has made for the first `j` of the tasks from index `i` on, given them as updated in `out`. */
  function Made(env: Env, tasks: seq<SchedTask>, i: nat, out: seq<SchedTask>, j: nat): seq<Allocation>
    requires i + j <= |tasks| && j <= |out|
  {
    if j == 0 then [] else Made(env, tasks, i, out, j - 1) + Part(env, tasks[i + j - 1], out[j - 1])
  }

  lemma {:induction false} MadeCons(env: Env, tasks: seq<SchedTask>, i: nat, x: SchedTask, rest: seq<SchedTask>, j: nat)
    requires i + j + 1 <= |tasks| && j <= |rest|
    ensures Made(env, tasks, i, [x] + rest, j + 1) == Part(env, tasks[i], x) + Made(env, tasks, i + 1, rest, j)
  {
    if j > 0 {
      MadeCons(env, tasks, i, x, rest, j - 1);
      assert ([x] + rest)[j] == rest[j - 1];
    }
  }

  /**
   * Placed by FCFS against the allocations `allocs`: at a start time no
   * earlier than `t` where what the overlapping allocations leave fits.
   */
  ghost predicate FcfsPlaced(env: Env, before: SchedTask, after: SchedTask, allocs: seq<Allocation>, t: int) {
    exists s :: s >= t && FitsDiffAt(env, allocs, s, before.requirements) && PlacedAt(env, before, after, allocs, s)
  }

  /**
   * One step leaves a task that cannot run at all as it was and places
   * any other where the resources left fit it, no earlier than `t`; the
   * current start time never goes back.
   */
  lemma FcfsStepPlaces(env: Env, task: SchedTask, allocs: seq<Allocation>, t: int)
    requires OverlapWithin(env)
    ensures FcfsStep(env, task, allocs, t).Ok? ==>
      var (after, _, t') := FcfsStep(env, task, allocs, t).value;
      t' >= t &&
      (!env.fitsTotal(task.requirements) ==> after == task) &&
      (env.fitsTotal(task.requirements) ==> PlacedAt(env, task, after, allocs, t') && FitsDiffAt(env, allocs, t', task.requirements))
  {
    FcfsStartFits(env, allocs, t, task.requirements);
  }

  /** The run from `i` is the step on task `i` followed by the run from `i + 1`, or stops there. */
  lemma FcfsRunStep(env: Env, tasks: seq<SchedTask>, i: nat, allocs: seq<Allocation>, t: int)
    requires OverlapWithin(env) && i < |tasks|
    ensures FcfsStep(env, tasks[i], allocs, t).Err? ==>
      FcfsRun(env, tasks, i, allocs, t) == (tasks[i..], Some(FcfsStep(env, tasks[i], allocs, t).error))
    ensures FcfsStep(env, tasks[i], allocs, t).Ok? ==>
      var (task, allocs', t') := FcfsStep(env, tasks[i], allocs, t).value;
      FcfsRun(env, tasks, i, allocs, t).0 == [task] + FcfsRun(env, tasks, i + 1, allocs', t').0 &&
      FcfsRun(env, tasks, i, allocs, t).1 == FcfsRun(env, tasks, i + 1, allocs', t').1
  {
  }

  /** A task whose requirements do not fit the sum of all resources is skipped and left as it was. */
  lemma {:induction false} FcfsRunSkips(env: Env, tasks: seq<SchedTask>, i: nat, allocs: seq<Allocation>, t: int)
    requires OverlapWithin(env) && i <= |tasks|
    ensures forall j :: 0 <= j < |tasks| - i && !env.fitsTotal(tasks[i + j].requirements) ==>
      FcfsRun(env, tasks, i, allocs, t).0[j] == tasks[i + j]
    decreases |tasks| - i
  {
    if i < |tasks| {
      var out := FcfsRun(env, tasks, i, allocs, t).0;
      FcfsRunStep(env, tasks, i, allocs, t);
      FcfsStepPlaces(env, tasks[i], allocs, t);
      if FcfsStep(env, tasks[i], allocs, t).Ok? {
        var (task, allocs', t') := FcfsStep(env, tasks[i], allocs, t).value;
        FcfsRunSkips(env, tasks, i + 1, allocs', t');
        var rest := FcfsRun(env, tasks, i + 1, allocs', t').0;
        forall j | 1 <= j < |out|
          ensures out[j] == rest[j - 1] && tasks[i + j] == tasks[(i + 1) + (j - 1)]
        {
        }
      }
    }
  }

  /**
   * What FCFS does to one task: it is left as it was because the run failed
   * or it cannot run at all, or it is placed against `allocs`, no earlier
   * than `t`.
   */
  ghost predicate FcfsOutcome(env: Env, before: SchedTask, after: SchedTask, allocs: seq<Allocation>, t: int, failed: bool) {
    (after == before && (failed || !env.fitsTotal(before.requirements))) || FcfsPlaced(env, before, after, allocs, t)
  }

  /**
   * Every task FCFS changes is placed, no earlier than the start time the
   * run began with, where what is left beside the allocations made so far
   * (`allocs` and those FCFS made for the tasks before it) fits it; when
   * the run does not fail, that holds of every task that can run at all.
   */
  lemma {:induction false} FcfsRunPlaces(env: Env, tasks: seq<SchedTask>, i: nat, allocs: seq<Allocation>, t: int)
    requires OverlapWithin(env) && i <= |tasks|
    ensures var (out, err) := FcfsRun(env, tasks, i, allocs, t);
      forall j :: 0 <= j < |tasks| - i ==> FcfsOutcome(env, tasks[i + j], out[j], allocs + Made(env, tasks, i, out, j), t, err.Some?)
    decreases |tasks| - i
  {
    if i < |tasks| {
      var (out, err) := FcfsRun(env, tasks, i, allocs, t);
      FcfsRunStep(env, tasks, i, allocs, t);
      FcfsStepPlaces(env, tasks[i], allocs, t);
      if FcfsStep(env, tasks[i], allocs, t).Ok? {
        var (task, allocs', t') := FcfsStep(env, tasks[i], allocs, t).value;
        var (rest, err') := FcfsRun(env, tasks, i + 1, allocs', t');
        assert out == [task] + rest && err == err';
        FcfsRunPlaces(env, tasks, i + 1, allocs', t');
        forall j | 0 <= j < |out|
          ensures FcfsOutcome(env, tasks[i + j], out[j], allocs + Made(env, tasks, i, out, j), t, err.Some?)
        {
          if j == 0 {
            assert allocs + Made(env, tasks, i, out, 0) == allocs;
            if env.fitsTotal(tasks[i].requirements) {
              assert FcfsPlaced(env, tasks[i], task, allocs, t);
            }
          } else {
            assert FcfsOutcome(env, tasks[i + 1 + (j - 1)], rest[j - 1], allocs' + Made(env, tasks, i + 1, rest, j - 1), t', err'.Some?);
            FcfsOutcomeShift(env, tasks, i, allocs, task, rest, allocs', t, t', err.Some?, j);
          }
        }
      }
    }
  }

  /** The outcome of the task `j` places after the first, seen from the start of the run. */
  lemma FcfsOutcomeShift(env: Env, tasks: seq<SchedTask>, i: nat, allocs: seq<Allocation>, task: SchedTask, rest: seq<SchedTask>,
                         allocs': seq<Allocation>, t: int, t': int, failed: bool, j: nat)
    requires 1 <= j <= |rest| && i + j < |tasks| && t <= t'
    requires allocs' == allocs + Part(env, tasks[i], task)
    requires FcfsOutcome(env, tasks[i + 1 + (j - 1)], rest[j - 1], allocs' + Made(env, tasks, i + 1, rest, j - 1), t', failed)
    ensures FcfsOutcome(env, tasks[i + j], ([task] + rest)[j], allocs + Made(env, tasks, i, [task] + rest, j), t, failed)
  {
    MadeCons(env, tasks, i, task, rest, j - 1);
    var A := allocs' + Made(env, tasks, i + 1, rest, j - 1);
    assert A == allocs + Made(env, tasks, i, [task] + rest, j);
    assert ([task] + rest)[j] == rest[j - 1] && i + j == i + 1 + (j - 1);
    if FcfsPlaced(env, tasks[i + j], rest[j - 1], A, t') {
      FcfsPlacedEarlier(env, tasks[i + j], rest[j - 1], A, t', t);
    }
  }

  lemma FcfsPlacedEarlier(env: Env, before: SchedTask, after: SchedTask, allocs: seq<Allocation>, t: int, u: int)
    requires u <= t && FcfsPlaced(env, before, after, allocs, t)
    ensures FcfsPlaced(env, before, after, allocs, u)
  {
    var s :| s >= t && FitsDiffAt(env, allocs, s, before.requirements) && PlacedAt(env, before, after, allocs, s);
  }

  /**
   * The `while True` loop of `FCFS.schedule_all`: from `startTime`, move to
   * the earliest end among the overlapping allocations until what they
   * leave fits the task.
   */
  method FcfsSearch(env: Env, allocations: seq<Allocation>, startTime: int, task: SchedTask) returns (r: Result<int>)
    requires OverlapWithin(env)
    ensures r == FcfsStart(env, allocations, startTime, task.requirements)
  {
    var t := startTime;
    var maxRuntime := task.requirements.maxRuntime;
    while true
      invariant FcfsStart(env, allocations, t, task.requirements) == FcfsStart(env, allocations, startTime, task.requirements)
      decreases CountAfter(allocations, t)
    {
      var overlap := env.overlap(allocations, t, maxRuntime);
      if env.fitsDiff(overlap, task.requirements) {
        return Ok(t);
      }
      if overlap == [] {
        return Err(EmptyMin);
      }
      var e := Earliest(overlap);
      CountAfterDrops(allocations, t, e);
      t := e.End();
    }
  }

  /** The run of FCFS so far, advanced by one successful step. */
  lemma FcfsRunAdvance(env: Env, tasks: seq<SchedTask>, i: nat, out: seq<SchedTask>, allocs: seq<Allocation>, t: int,
                       updated: SchedTask, allocs': seq<Allocation>, t': int)
    requires OverlapWithin(env) && i < |tasks| == |out|
    requires FcfsStep(env, tasks[i], allocs, t) == Ok((updated, allocs', t'))
    ensures FcfsRun(env, tasks, i, allocs, t).0 == [updated] + FcfsRun(env, tasks, i + 1, allocs', t').0
    ensures out[..i] + FcfsRun(env, tasks, i, allocs, t).0 == out[i := updated][..i + 1] + FcfsRun(env, tasks, i + 1, allocs', t').0
    ensures FcfsRun(env, tasks, i, allocs, t).1 == FcfsRun(env, tasks, i + 1, allocs', t').1
  {
    FcfsRunStep(env, tasks, i, allocs, t);
    var next := FcfsRun(env, tasks, i + 1, allocs', t').0;
    assert out[i := updated][..i + 1] == out[..i] + [updated];
    assert out[..i] + ([updated] + next) == (out[..i] + [updated]) + next;
  }

  /**
   * One pass of the loop of `FCFS.schedule_all`: a task that cannot run at
   * all is left as it is; any other is searched a start time for and
   * allocated there.
   */
  method FcfsScheduleOne(env: Env, task: SchedTask, allocations: seq<Allocation>, startTime: int)
    returns (r: Result<(SchedTask, seq<Allocation>, int)>)
    requires OverlapWithin(env)
    ensures r == FcfsStep(env, task, allocations, startTime)
  {
    if !env.fitsTotal(task.requirements) {
      return Ok((task, allocations, startTime));
    }
    var found := FcfsSearch(env, allocations, startTime, task);
    if found.Err? {
      return Err(found.error);
    }
    var t := found.value;
    var allocs := env.allocate(env.overlap(allocations, t, task.requirements.maxRuntime), task.name, task.requirements, t);
    r := Ok((task.(allocations := allocs), allocations + allocs, t));
  }

  /**
   * `FCFS.schedule_all`: each task in turn, unless it cannot run at all,
   * is allocated at the first start time found that fits, searching on
   * from the previous task's start time.
   */
  method FcfsScheduleAll(tasks: seq<SchedTask>, env: Env, now: int) returns (out: seq<SchedTask>, err: Option<string>)
    requires OverlapWithin(env)
    ensures out == FcfsRun(env, tasks, 0, [], now).0 && err == FcfsRun(env, tasks, 0, [], now).1
  {
    var allocations: seq<Allocation> := [];
    var startTime := now;
    out := tasks;
    var i := 0;
    while i < |tasks|
      invariant 0 <= i <= |tasks| && |out| == |tasks|
      invariant forall k :: i <= k < |tasks| ==> out[k] == tasks[k]
      invariant FcfsRun(env, tasks, 0, [], now).0 == out[..i] + FcfsRun(env, tasks, i, allocations, startTime).0
      invariant FcfsRun(env, tasks, 0, [], now).1 == FcfsRun(env, tasks, i, allocations, startTime).1
    {
      var step := FcfsScheduleOne(env, tasks[i], allocations, startTime);
      if step.Err? {
        FcfsRunStep(env, tasks, i, allocations, startTime);
        assert out == out[..i] + tasks[i..];
        return out, Some(step.error);
      }
      var (updated, allocations', startTime') := step.value;
      FcfsRunAdvance(env, tasks, i, out, allocations, startTime, updated, allocations', startTime');
      out := out[i := updated];
      allocations, startTime := allocations', startTime';
      i := i + 1;
    }
    assert out[..i] == out;
    err := None;
  }

  // ------------------------------------------------------------ Backfill

  predicate FitsLeftAt(env: Env, allocs: seq<Allocation>, t: int, req: Requirements) {
    env.fitsRemaining(env.overlap(allocs, t, req.maxRuntime), req)
  }

  /** `[a.start_time + a.max_runtime for a in allocations]`. */
  function Ends(allocs: seq<Allocation>): (r: seq<int>)
    ensures |r| == |allocs| && forall k :: 0 <= k < |r| ==> r[k] == allocs[k].End()
  {
    seq(|allocs|, k requires 0 <= k < |allocs| => allocs[k].End())
  }

  /** The times of `ts`, in order, at which a task of runtime `mr` would end by the shadow time. */
  function EndingBy(ts: seq<int>, mr: int, shadow: int): (r: seq<int>)
    ensures forall t :: t in r <==> t in ts && t + mr <= shadow
  {
    if ts == [] then []
    else
      var rest := EndingBy(ts[1..], mr, shadow);
      assert forall t :: t in ts <==> t == ts[0] || t in ts[1..];
      if ts[0] + mr <= shadow then [ts[0]] + rest else rest
  }

  /** The times a queued task may be backfilled at: now and the end of every allocation, sorted. */
  function BackfillTimes(now: int, allocs: seq<Allocation>, mr: int, shadow: int): seq<int> {
    Sort(EndingBy([now] + Ends(allocs), mr, shadow))
  }

  /**
   * The backfill times are in ascending order, and they are exactly now and
   * the allocation ends at which a task of runtime `mr` ends by the shadow time.
   */
  lemma BackfillTimesHold(now: int, allocs: seq<Allocation>, mr: int, shadow: int)
    ensures Sorted(BackfillTimes(now, allocs, mr, shadow))
    ensures forall t :: t in BackfillTimes(now, allocs, mr, shadow) <==> (t == now || t in Ends(allocs)) && t + mr <= shadow
  {
    forall t
      ensures t in BackfillTimes(now, allocs, mr, shadow) <==> (t == now || t in Ends(allocs)) && t + mr <= shadow
    {
      SortMembers(EndingBy([now] + Ends(allocs), mr, shadow), t);
    }
  }

  /** The first of `times` at which what `calculate_remaining` leaves fits `req`. */
  function FirstFit(env: Env, allocs: seq<Allocation>, times: seq<int>, req: Requirements): Option<int>
    decreases |times|
  {
    if times == [] then None
    else if FitsLeftAt(env, allocs, times[0], req) then Some(times[0])
    else FirstFit(env, allocs, times[1..], req)
  }

  /**
   * Over times in ascending order the first fit is the earliest time that
   * fits, and there is none only when no time fits.
   */
  lemma {:induction false} FirstFitEarliest(env: Env, allocs: seq<Allocation>, times: seq<int>, req: Requirements)
    requires Sorted(times)
    ensures FirstFit(env, allocs, times, req).Some? ==>
      FirstFit(env, allocs, times, req).value in times && FitsLeftAt(env, allocs, FirstFit(env, allocs, times, req).value, req) &&
      forall u :: u in times && FitsLeftAt(env, allocs, u, req) ==> FirstFit(env, allocs, times, req).value <= u
    ensures FirstFit(env, allocs, times, req).None? ==> forall u :: u in times ==> !FitsLeftAt(env, allocs, u, req)
    decreases |times|
  {
    if times != [] {
      assert Sorted(times[1..]) by {
        forall i, j | 0 <= i < j < |times[1..]|
          ensures times[1..][i] <= times[1..][j]
        {
          assert times[1..][i] == times[i + 1] && times[1..][j] == times[j + 1];
        }
      }
      FirstFitEarliest(env, allocs, times[1..], req);
      forall u | u in times
        ensures u == times[0] || u in times[1..]
        ensures times[0] <= u
      {
        var k :| 0 <= k < |times| && times[k] == u;
        if k > 0 {
          assert times[1..][k - 1] == u;
        }
      }
    }
  }

  /** The task allocated at the first of `times` that fits it, with the allocations extended by its own; otherwise both as they were. */
  function TryPlace(env: Env, task: SchedTask, allocs: seq<Allocation>, times: seq<int>): (SchedTask, seq<Allocation>) {
    match FirstFit(env, allocs, times, task.requirements)
    case None => (task, allocs)
    case Some(s) =>
      var a := AllocateAt(env, task, allocs, s);
      (task.(allocations := a), allocs + a)
  }

  /**
   * What Backfill works on: the tasks, by their position in the list it was
   * given (the objects whose `allocations` it sets), the allocations made so
   * far, and a queue of positions.
   */
  datatype BackfillState = BackfillState(tasks: seq<SchedTask>, allocs: seq<Allocation>, queue: seq<nat>)

  predicate Indexes(q: seq<nat>, n: int) {
    forall k :: 0 <= k < |q| ==> q[k] < n
  }

  /** The positions `0, ..., n - 1`: the queue `tasks[:]` starts as. */
  function Positions(n: nat): (r: seq<nat>)
    ensures |r| == n && forall k :: 0 <= k < n ==> r[k] == k
  {
    if n == 0 then [] else Positions(n - 1) + [n - 1]
  }

  /**
   * The backfill pass on the task at position `idx`: allocated at the first
   * of its backfill times that fits, and put on the list of tasks left
   * (`st.queue`) if it then has no allocations.
   */
  function BackfillStep(env: Env, st: BackfillState, idx: nat, shadow: int, now: int): (r: BackfillState)
    requires idx < |st.tasks|
    ensures |r.tasks| == |st.tasks| && st.allocs <= r.allocs
    ensures r.queue == st.queue || r.queue == st.queue + [idx]
    ensures forall k :: 0 <= k < |st.tasks| && k != idx ==> r.tasks[k] == st.tasks[k]
  {
    var task := st.tasks[idx];
    var (placed, allocs) := TryPlace(env, task, st.allocs, BackfillTimes(now, st.allocs, task.requirements.maxRuntime, shadow));
    BackfillState(st.tasks[idx := placed], allocs, st.queue + (if placed.allocations == [] then [idx] else []))
  }

  /** The backfill pass over the tasks queued behind the head, those at positions `rest[i..]`. */
  function BackfillPass(env: Env, st: BackfillState, rest: seq<nat>, i: nat, shadow: int, now: int): (r: BackfillState)
    requires Indexes(rest, |st.tasks|) && i <= |rest|
    ensures |r.tasks| == |st.tasks| && |r.queue| <= |st.queue| + (|rest| - i)
    ensures Indexes(st.queue, |st.tasks|) ==> Indexes(r.queue, |st.tasks|)
    decreases |rest| - i
  {
    if i == |rest| then st
    else BackfillPass(env, BackfillStep(env, st, rest[i], shadow, now), rest, i + 1, shadow, now)
  }

  /**
   * One turn of the `while tasks` loop of `Backfill.schedule_all`. The head
   * of the queue is dropped if it cannot run at all, and allocated now if it
   * fits now; either way the others wait for the next turn. Otherwise it is
   * allocated at the first allocation end at which it fits, which becomes
   * the shadow time (now, if there is none), and the backfill pass runs over
   * the others.
   */
  function BackfillRound(env: Env, st: BackfillState, now: int): (r: BackfillState)
    requires st.queue != [] && Indexes(st.queue, |st.tasks|)
    ensures |r.tasks| == |st.tasks| && |r.queue| < |st.queue| && Indexes(r.queue, |r.tasks|)
  {
    var h := st.queue[0];
    var rest := st.queue[1..];
    var task := st.tasks[h];
    if !env.fitsTotal(task.requirements) then st.(queue := rest)
    else if FitsLeftAt(env, st.allocs, now, task.requirements) then
      var a := AllocateAt(env, task, st.allocs, now);
      BackfillState(st.tasks[h := task.(allocations := a)], st.allocs + a, rest)
    else
      var ends := Sort(Ends(st.allocs));
      var (head, allocs) := TryPlace(env, task, st.allocs, ends);
      var shadow := FirstFit(env, st.allocs, ends, task.requirements).GetOr(now);
      BackfillPass(env, BackfillState(st.tasks[h := head], allocs, []), rest, 0, shadow, now)
  }

  /** The state the `while tasks` loop of `Backfill.schedule_all` ends in, once the queue is empty. */
  function BackfillFinal(env: Env, st: BackfillState, now: int): (r: BackfillState)
    requires Indexes(st.queue, |st.tasks|)
    ensures |r.tasks| == |st.tasks| && st.allocs <= r.allocs
    decreases |st.queue|
  {
    if st.queue == [] then st
    else
      BackfillRoundGrows(env, st, now);
      BackfillFinal(env, BackfillRound(env, st, now), now)
  }

  /** The tasks as the `while tasks` loop leaves them. */
  function BackfillLoop(env: Env, st: BackfillState, now: int): (r: seq<SchedTask>)
    requires Indexes(st.queue, |st.tasks|)
    ensures |r| == |st.tasks|
  {
    BackfillFinal(env, st, now).tasks
  }

  /** `Backfill.schedule_all` on the tasks as given, with `now` for `time.time()`. */
  function Backfill(env: Env, tasks: seq<SchedTask>, now: int): (r: seq<SchedTask>)
    ensures |r| == |tasks|
  {
    BackfillLoop(env, BackfillState(tasks, [], Positions(|tasks|)), now)
  }

  /** The list `allocations` that `Backfill.schedule_all` builds. */
  function BackfillAllocations(env: Env, tasks: seq<SchedTask>, now: int): seq<Allocation> {
    BackfillFinal(env, BackfillState(tasks, [], Positions(|tasks|)), now).allocs
  }

  /**
   * Backfilled in a pass: placed at now or at the end of an allocation made
   * before it, where what the overlapping allocations among those made
   * before it (`A`) leave fits it, and ending by the shadow time; `A`
   * followed by the task's own allocations begins the list `allocs`.
   */
  ghost predicate BackfilledBy(env: Env, before: SchedTask, after: SchedTask, allocs: seq<Allocation>, shadow: int, now: int) {
    exists A, s :: A + after.allocations <= allocs && s + before.requirements.maxRuntime <= shadow && (s == now || s in Ends(A)) &&
      FitsLeftAt(env, A, s, before.requirements) && PlacedAt(env, before, after, A, s)
  }

  /**
   * What Backfill may do to a task: leave it as it was, or allocate it at a
   * time where what is left beside the allocations made before it fits
   * it; those allocations followed by the task's own begin `allocs`.
   */
  ghost predicate Backfilled(env: Env, before: SchedTask, after: SchedTask, allocs: seq<Allocation>) {
    after.name == before.name && after.requirements == before.requirements &&
    (after.allocations == before.allocations ||
     exists A, s :: A + after.allocations <= allocs && FitsLeftAt(env, A, s, before.requirements) &&
       after.allocations == AllocateAt(env, before, A, s))
  }

  lemma BackfilledBySame(env: Env, before: SchedTask, mid: SchedTask, after: SchedTask, allocs: seq<Allocation>, shadow: int, now: int)
    requires mid.name == before.name && mid.requirements == before.requirements
    requires BackfilledBy(env, mid, after, allocs, shadow, now)
    ensures BackfilledBy(env, before, after, allocs, shadow, now)
  {
    var A, s :| A + after.allocations <= allocs && s + mid.requirements.maxRuntime <= shadow && (s == now || s in Ends(A)) &&
      FitsLeftAt(env, A, s, mid.requirements) && PlacedAt(env, mid, after, A, s);
    assert PlacedAt(env, before, after, A, s);
  }

  lemma BackfilledByBackfilled(env: Env, before: SchedTask, after: SchedTask, allocs: seq<Allocation>, shadow: int, now: int)
    requires BackfilledBy(env, before, after, allocs, shadow, now)
    ensures Backfilled(env, before, after, allocs)
  {
    var A, s :| A + after.allocations <= allocs && s + before.requirements.maxRuntime <= shadow && (s == now || s in Ends(A)) &&
      FitsLeftAt(env, A, s, before.requirements) && PlacedAt(env, before, after, A, s);
    assert after.allocations == AllocateAt(env, before, A, s);
  }

  lemma BackfilledTrans(env: Env, before: SchedTask, mid: SchedTask, after: SchedTask, allocs: seq<Allocation>, more: seq<Allocation>)
    requires allocs <= more && Backfilled(env, before, mid, allocs) && Backfilled(env, mid, after, more)
    ensures Backfilled(env, before, after, more)
  {
    if after.allocations != mid.allocations {
      var A, s :| A + after.allocations <= more && FitsLeftAt(env, A, s, mid.requirements) && after.allocations == AllocateAt(env, mid, A, s);
      assert AllocateAt(env, before, A, s) == AllocateAt(env, mid, A, s);
    } else if after.allocations != before.allocations {
      var A, s :| A + mid.allocations <= allocs && FitsLeftAt(env, A, s, before.requirements) && mid.allocations == AllocateAt(env, before, A, s);
      assert A + after.allocations <= more;
    }
  }

  /** The pass only adds to the list of tasks left, and only tasks it goes over. */
  lemma {:induction false} BackfillPassLeft(env: Env, st: BackfillState, rest: seq<nat>, i: nat, shadow: int, now: int)
    requires Indexes(rest, |st.tasks|) && i <= |rest|
    ensures forall x :: x in st.queue ==> x in BackfillPass(env, st, rest, i, shadow, now).queue
    ensures forall x :: x in BackfillPass(env, st, rest, i, shadow, now).queue ==> x in st.queue || x in rest[i..]
    decreases |rest| - i
  {
    if i < |rest| {
      var st' := BackfillStep(env, st, rest[i], shadow, now);
      BackfillPassLeft(env, st', rest, i + 1, shadow, now);
      assert rest[i..] == [rest[i]] + rest[i + 1..];
    }
  }

  /** The pass only adds to the allocations. */
  lemma {:induction false} BackfillPassGrows(env: Env, st: BackfillState, rest: seq<nat>, i: nat, shadow: int, now: int)
    requires Indexes(rest, |st.tasks|) && i <= |rest|
    ensures st.allocs <= BackfillPass(env, st, rest, i, shadow, now).allocs
    decreases |rest| - i
  {
    if i < |rest| {
      var st' := BackfillStep(env, st, rest[i], shadow, now);
      BackfillPassGrows(env, st', rest, i + 1, shadow, now);
    }
  }

  /** The pass changes no task but those it goes over. */
  lemma {:induction false} BackfillPassFrame(env: Env, st: BackfillState, rest: seq<nat>, i: nat, shadow: int, now: int)
    requires Indexes(rest, |st.tasks|) && i <= |rest|
    ensures forall k :: 0 <= k < |st.tasks| && k !in rest[i..] ==> BackfillPass(env, st, rest, i, shadow, now).tasks[k] == st.tasks[k]
    decreases |rest| - i
  {
    if i < |rest| {
      var st' := BackfillStep(env, st, rest[i], shadow, now);
      BackfillPassFrame(env, st', rest, i + 1, shadow, now);
      assert rest[i..] == [rest[i]] + rest[i + 1..];
    }
  }

  /** A task the step changes is backfilled against the allocations made so far. */
  lemma BackfillStepPlaces(env: Env, st: BackfillState, idx: nat, shadow: int, now: int)
    requires idx < |st.tasks|
    ensures BackfillStep(env, st, idx, shadow, now).tasks[idx] == st.tasks[idx] ||
      BackfilledBy(env, st.tasks[idx], BackfillStep(env, st, idx, shadow, now).tasks[idx], BackfillStep(env, st, idx, shadow, now).allocs, shadow, now)
    ensures BackfillStep(env, st, idx, shadow, now).queue == st.queue + [idx] <==> BackfillStep(env, st, idx, shadow, now).tasks[idx].allocations == []
  {
    var task := st.tasks[idx];
    var times := BackfillTimes(now, st.allocs, task.requirements.maxRuntime, shadow);
    if FirstFit(env, st.allocs, times, task.requirements).Some? {
      var s := FirstFit(env, st.allocs, times, task.requirements).value;
      BackfillTimesHold(now, st.allocs, task.requirements.maxRuntime, shadow);
      FirstFitEarliest(env, st.allocs, times, task.requirements);
      assert PlacedAt(env, task, BackfillStep(env, st, idx, shadow, now).tasks[idx], st.allocs, s);
    }
  }

  lemma BackfilledByMore(env: Env, before: SchedTask, after: SchedTask, allocs: seq<Allocation>, more: seq<Allocation>, shadow: int, now: int)
    requires allocs <= more && BackfilledBy(env, before, after, allocs, shadow, now)
    ensures BackfilledBy(env, before, after, more, shadow, now)
  {
    var A, s :| A + after.allocations <= allocs && s + before.requirements.maxRuntime <= shadow && (s == now || s in Ends(A)) &&
      FitsLeftAt(env, A, s, before.requirements) && PlacedAt(env, before, after, A, s);
    assert A + after.allocations <= more;
  }

  /**
   * Every task the pass changes is backfilled: placed at now or at the end
   * of an allocation, where the remaining resources fit it, and ending by
   * the shadow time.
   */
  lemma {:induction false} BackfillPassPlaces(env: Env, st: BackfillState, rest: seq<nat>, i: nat, shadow: int, now: int)
    requires Indexes(rest, |st.tasks|) && i <= |rest|
    ensures forall k :: 0 <= k < |st.tasks| ==>
      (BackfillPass(env, st, rest, i, shadow, now).tasks[k] == st.tasks[k] ||
       BackfilledBy(env, st.tasks[k], BackfillPass(env, st, rest, i, shadow, now).tasks[k], BackfillPass(env, st, rest, i, shadow, now).allocs, shadow, now))
    decreases |rest| - i
  {
    if i < |rest| {
      var idx := rest[i];
      var st' := BackfillStep(env, st, idx, shadow, now);
      var r := BackfillPass(env, st', rest, i + 1, shadow, now);
      BackfillPassPlaces(env, st', rest, i + 1, shadow, now);
      BackfillPassGrows(env, st', rest, i + 1, shadow, now);
      BackfillStepPlaces(env, st, idx, shadow, now);
      if st'.tasks[idx] != st.tasks[idx] {
        BackfilledByMore(env, st.tasks[idx], st'.tasks[idx], st'.allocs, r.allocs, shadow, now);
        if r.tasks[idx] != st'.tasks[idx] {
          BackfilledBySame(env, st.tasks[idx], st'.tasks[idx], r.tasks[idx], r.allocs, shadow, now);
        }
      }
    }
  }

  /**
   * With each task queued once, a task the pass goes over ends up on the
   * list of tasks left exactly when it has no allocations afterwards.
   */
  lemma {:induction false} BackfillPassRequeues(env: Env, st: BackfillState, rest: seq<nat>, i: nat, shadow: int, now: int)
    requires Indexes(rest, |st.tasks|) && i <= |rest| && Distinct(rest)
    requires forall j :: i <= j < |rest| ==> rest[j] !in st.queue
    ensures forall j :: i <= j < |rest| ==>
      (rest[j] in BackfillPass(env, st, rest, i, shadow, now).queue <==> BackfillPass(env, st, rest, i, shadow, now).tasks[rest[j]].allocations == [])
    decreases |rest| - i
  {
    if i < |rest| {
      var idx := rest[i];
      var st' := BackfillStep(env, st, idx, shadow, now);
      var r := BackfillPass(env, st', rest, i + 1, shadow, now);
      assert forall j :: i + 1 <= j < |rest| ==> rest[j] != idx;
      BackfillPassRequeues(env, st', rest, i + 1, shadow, now);
      BackfillPassLeft(env, st', rest, i + 1, shadow, now);
      BackfillPassFrame(env, st', rest, i + 1, shadow, now);
      BackfillStepPlaces(env, st, idx, shadow, now);
      assert idx !in rest[i + 1..];
      assert r == BackfillPass(env, st, rest, i, shadow, now);
      forall j | i <= j < |rest|
        ensures rest[j] in r.queue <==> r.tasks[rest[j]].allocations == []
      {
        if j == i {
          assert r.tasks[idx] == st'.tasks[idx];
          assert idx in r.queue <==> idx in st'.queue;
          assert idx in st'.queue <==> st'.queue == st.queue + [idx];
        }
      }
    }
  }

  /**
   * The head of a turn's queue: left as it was if it cannot run at all;
   * allocated now if it fits now, the others left waiting; otherwise
   * allocated at the earliest allocation end at which it fits, or left as
   * it was if there is none, and in both cases off the queue.
   */
  lemma BackfillRoundHead(env: Env, st: BackfillState, now: int, h: nat, task: SchedTask)
    requires st.queue != [] && Indexes(st.queue, |st.tasks|)
    requires h == st.queue[0] && h !in st.queue[1..] && task == st.tasks[h]
    ensures !env.fitsTotal(task.requirements) ==> BackfillRound(env, st, now) == st.(queue := st.queue[1..])
    ensures env.fitsTotal(task.requirements) && FitsLeftAt(env, st.allocs, now, task.requirements) ==>
      PlacedAt(env, task, BackfillRound(env, st, now).tasks[h], st.allocs, now) && BackfillRound(env, st, now).queue == st.queue[1..]
    ensures env.fitsTotal(task.requirements) && !FitsLeftAt(env, st.allocs, now, task.requirements) ==>
      h !in BackfillRound(env, st, now).queue &&
      ((BackfillRound(env, st, now).tasks[h] == task && forall u :: u in Ends(st.allocs) ==> !FitsLeftAt(env, st.allocs, u, task.requirements)) ||
       exists s :: (s in Ends(st.allocs) && FitsLeftAt(env, st.allocs, s, task.requirements) &&
                    PlacedAt(env, task, BackfillRound(env, st, now).tasks[h], st.allocs, s) &&
                    forall u :: u in Ends(st.allocs) && FitsLeftAt(env, st.allocs, u, task.requirements) ==> s <= u))
  {
    if env.fitsTotal(task.requirements) && !FitsLeftAt(env, st.allocs, now, task.requirements) {
      var ends := Sort(Ends(st.allocs));
      var (head, allocs) := TryPlace(env, task, st.allocs, ends);
      var shadow := FirstFit(env, st.allocs, ends, task.requirements).GetOr(now);
      var rest := st.queue[1..];
      var st0 := BackfillState(st.tasks[h := head], allocs, []);
      assert BackfillRound(env, st, now) == BackfillPass(env, st0, rest, 0, shadow, now);
      BackfillPassLeft(env, st0, rest, 0, shadow, now);
      BackfillPassFrame(env, st0, rest, 0, shadow, now);
      assert rest[0..] == rest;
      FirstFitEarliest(env, st.allocs, ends, task.requirements);
      forall u
        ensures u in ends <==> u in Ends(st.allocs)
      {
        SortMembers(Ends(st.allocs), u);
      }
    }
  }

  /** A turn only adds to the allocations. */
  lemma BackfillRoundGrows(env: Env, st: BackfillState, now: int)
    requires st.queue != [] && Indexes(st.queue, |st.tasks|)
    ensures st.allocs <= BackfillRound(env, st, now).allocs
  {
    var task := st.tasks[st.queue[0]];
    if env.fitsTotal(task.requirements) && !FitsLeftAt(env, st.allocs, now, task.requirements) {
      var ends := Sort(Ends(st.allocs));
      var (head, allocs) := TryPlace(env, task, st.allocs, ends);
      var shadow := FirstFit(env, st.allocs, ends, task.requirements).GetOr(now);
      BackfillPassGrows(env, BackfillState(st.tasks[st.queue[0] := head], allocs, []), st.queue[1..], 0, shadow, now);
    }
  }

  /**
   * A turn changes a task only by allocating it where what is left beside
   * the allocations made before it fits it, its allocations following
   * those in the turn's list.
   */
  lemma BackfillRoundBackfilled(env: Env, st: BackfillState, now: int)
    requires st.queue != [] && Indexes(st.queue, |st.tasks|)
    ensures forall k :: 0 <= k < |st.tasks| ==>
      Backfilled(env, st.tasks[k], BackfillRound(env, st, now).tasks[k], BackfillRound(env, st, now).allocs)
  {
    var h := st.queue[0];
    var task := st.tasks[h];
    var r := BackfillRound(env, st, now);
    if !env.fitsTotal(task.requirements) {
    } else if FitsLeftAt(env, st.allocs, now, task.requirements) {
      assert r.tasks[h].allocations == AllocateAt(env, task, st.allocs, now);
      assert st.allocs + r.tasks[h].allocations == r.allocs;
    } else {
      var ends := Sort(Ends(st.allocs));
      var (head, allocs) := TryPlace(env, task, st.allocs, ends);
      var shadow := FirstFit(env, st.allocs, ends, task.requirements).GetOr(now);
      var st0 := BackfillState(st.tasks[h := head], allocs, []);
      assert r == BackfillPass(env, st0, st.queue[1..], 0, shadow, now);
      BackfillPassPlaces(env, st0, st.queue[1..], 0, shadow, now);
      BackfillPassGrows(env, st0, st.queue[1..], 0, shadow, now);
      assert Backfilled(env, task, head, allocs) by {
        if head != task {
          var s := FirstFit(env, st.allocs, ends, task.requirements).value;
          FirstFitEarliest(env, st.allocs, ends, task.requirements);
          assert head.allocations == AllocateAt(env, task, st.allocs, s);
          assert st.allocs + head.allocations == allocs;
        }
      }
      forall k | 0 <= k < |st.tasks|
        ensures Backfilled(env, st.tasks[k], r.tasks[k], r.allocs)
      {
        assert Backfilled(env, st.tasks[k], st0.tasks[k], st0.allocs);
        if r.tasks[k] != st0.tasks[k] {
          BackfilledByBackfilled(env, st0.tasks[k], r.tasks[k], r.allocs, shadow, now);
        }
        BackfilledTrans(env, st.tasks[k], st0.tasks[k], r.tasks[k], st0.allocs, r.allocs);
      }
    }
  }

  /** The same of the whole loop, against the allocation list it ends with. */
  lemma {:induction false} BackfillLoopBackfilled(env: Env, st: BackfillState, now: int)
    requires Indexes(st.queue, |st.tasks|)
    ensures forall k :: 0 <= k < |st.tasks| ==>
      Backfilled(env, st.tasks[k], BackfillLoop(env, st, now)[k], BackfillFinal(env, st, now).allocs)
    decreases |st.queue|
  {
    if st.queue != [] {
      var r := BackfillRound(env, st, now);
      BackfillRoundBackfilled(env, st, now);
      BackfillLoopBackfilled(env, r, now);
      assert BackfillFinal(env, st, now) == BackfillFinal(env, r, now);
      forall k | 0 <= k < |st.tasks|
        ensures Backfilled(env, st.tasks[k], BackfillLoop(env, st, now)[k], BackfillFinal(env, st, now).allocs)
      {
        BackfilledTrans(env, st.tasks[k], r.tasks[k], BackfillLoop(env, st, now)[k], r.allocs, BackfillFinal(env, r, now).allocs);
      }
    }
  }

  /**
   * Backfill keeps every task's name and requirements, and either leaves
   * its allocations as they were or allocates it where what is left beside
   * the allocations it made before fits it; those allocations followed by
   * the task's own begin the list Backfill builds.
   */
  lemma BackfillOnlyPlaces(env: Env, tasks: seq<SchedTask>, now: int)
    ensures forall k :: 0 <= k < |tasks| ==>
      Backfilled(env, tasks[k], Backfill(env, tasks, now)[k], BackfillAllocations(env, tasks, now))
  {
    BackfillLoopBackfilled(env, BackfillState(tasks, [], Positions(|tasks|)), now);
  }

  /** The `for start_time in times` searches of Backfill: the first of `times` that fits. */
  method FirstFitSearch(env: Env, allocations: seq<Allocation>, times: seq<int>, req: Requirements) returns (r: Option<int>)
    ensures r == FirstFit(env, allocations, times, req)
  {
    var k := 0;
    assert times[0..] == times;
    while k < |times|
      invariant 0 <= k <= |times|
      invariant FirstFit(env, allocations, times[k..], req) == FirstFit(env, allocations, times, req)
    {
      var overlap := env.overlap(allocations, times[k], req.maxRuntime);
      if env.fitsRemaining(overlap, req) {
        return Some(times[k]);
      }
      assert times[k..][1..] == times[k + 1..];
      k := k + 1;
    }
    return None;
  }

  /** The `for task in tasks` backfill pass of `Backfill.schedule_all`, with the list of tasks left it builds. */
  method BackfillRest(env: Env, tasks: seq<SchedTask>, allocations: seq<Allocation>, rest: seq<nat>, shadow: int, now: int)
    returns (out: seq<SchedTask>, allocs: seq<Allocation>, left: seq<nat>)
    requires Indexes(rest, |tasks|)
    ensures BackfillState(out, allocs, left) == BackfillPass(env, BackfillState(tasks, allocations, []), rest, 0, shadow, now)
  {
    out, allocs, left := tasks, allocations, [];
    var i := 0;
    while i < |rest|
      invariant 0 <= i <= |rest| && |out| == |tasks|
      invariant BackfillPass(env, BackfillState(out, allocs, left), rest, i, shadow, now) ==
                BackfillPass(env, BackfillState(tasks, allocations, []), rest, 0, shadow, now)
    {
      var idx := rest[i];
      var task := out[idx];
      var maxRuntime := task.requirements.maxRuntime;
      var times := Sort(EndingBy([now] + Ends(allocs), maxRuntime, shadow));
      var found := FirstFitSearch(env, allocs, times, task.requirements);
      if found.Some? {
        var a := env.allocate(env.overlap(allocs, found.value, maxRuntime), task.name, task.requirements, found.value);
        allocs := allocs + a;
        task := task.(allocations := a);
      }
      if task.allocations == [] {
        left := left + [idx];
      }
      out := out[idx := task];
      i := i + 1;
    }
  }

  /**
   * `Backfill.schedule_all`: while any task is queued, take the first; run
   * it now if it fits now, and otherwise at the earliest allocation end at
   * which it fits, backfilling the others into the time before that.
   */
  method BackfillScheduleAll(tasks: seq<SchedTask>, env: Env, now: int) returns (out: seq<SchedTask>)
    ensures out == Backfill(env, tasks, now)
  {
    out := tasks;
    var allocations: seq<Allocation> := [];
    var queue := Positions(|tasks|);
    while queue != []
      invariant |out| == |tasks| && Indexes(queue, |out|)
      invariant BackfillLoop(env, BackfillState(out, allocations, queue), now) == Backfill(env, tasks, now)
      decreases |queue|
    {
      ghost var st := BackfillState(out, allocations, queue);
      BackfillLoopStep(env, st, now);
      BackfillRoundCases(env, st, now);
      var h := queue[0];
      queue := queue[1..];
      var task := out[h];
      var maxRuntime := task.requirements.maxRuntime;
      if !env.fitsTotal(task.requirements) {
        assert BackfillState(out, allocations, queue) == BackfillRound(env, st, now);
      } else {
        var overlap := env.overlap(allocations, now, maxRuntime);
        if env.fitsRemaining(overlap, task.requirements) {
          var allocs := env.allocate(overlap, task.name, task.requirements, now);
          allocations := allocations + allocs;
          out := out[h := task.(allocations := allocs)];
          assert BackfillState(out, allocations, queue) == BackfillRound(env, st, now);
        } else {
          var ends := Sort(Ends(allocations));
          var shadow := now;
          var found := FirstFitSearch(env, allocations, ends, task.requirements);
          if found.Some? {
            shadow := found.value;
            var allocs := env.allocate(env.overlap(allocations, shadow, maxRuntime), task.name, task.requirements, shadow);
            allocations := allocations + allocs;
            out := out[h := task.(allocations := allocs)];
          }
          assert (out[h], allocations) == TryPlace(env, task, st.allocs, ends);
          assert out == st.tasks[h := TryPlace(env, task, st.allocs, ends).0];
          assert shadow == FirstFit(env, st.allocs, ends, task.requirements).GetOr(now);
          out, allocations, queue := BackfillRest(env, out, allocations, queue, shadow, now);
          assert BackfillState(out, allocations, queue) == BackfillRound(env, st, now);
        }
      }
    }
  }

  lemma BackfillLoopStep(env: Env, st: BackfillState, now: int)
    requires st.queue != [] && Indexes(st.queue, |st.tasks|)
    ensures BackfillLoop(env, st, now) == BackfillLoop(env, BackfillRound(env, st, now), now)
  {
  }

  /** The three ways a turn goes, each written out. */
  lemma BackfillRoundCases(env: Env, st: BackfillState, now: int)
    requires st.queue != [] && Indexes(st.queue, |st.tasks|)
    ensures !env.fitsTotal(st.tasks[st.queue[0]].requirements) ==> BackfillRound(env, st, now) == st.(queue := st.queue[1..])
    ensures env.fitsTotal(st.tasks[st.queue[0]].requirements) && FitsLeftAt(env, st.allocs, now, st.tasks[st.queue[0]].requirements) ==>
      BackfillRound(env, st, now) ==
      BackfillState(st.tasks[st.queue[0] := st.tasks[st.queue[0]].(allocations := AllocateAt(env, st.tasks[st.queue[0]], st.allocs, now))],
                    st.allocs + AllocateAt(env, st.tasks[st.queue[0]], st.allocs, now), st.queue[1..])
    ensures env.fitsTotal(st.tasks[st.queue[0]].requirements) && !FitsLeftAt(env, st.allocs, now, st.tasks[st.queue[0]].requirements) ==>
      BackfillRound(env, st, now) ==
      BackfillPass(env, BackfillState(st.tasks[st.queue[0] := TryPlace(env, st.tasks[st.queue[0]], st.allocs, Sort(Ends(st.allocs))).0],
                                      TryPlace(env, st.tasks[st.queue[0]], st.allocs, Sort(Ends(st.allocs))).1, []),
                   st.queue[1..], 0, FirstFit(env, st.allocs, Sort(Ends(st.allocs)), st.tasks[st.queue[0]].requirements).GetOr(now), now)
  {
  }

  // ---------------------------------------------------- allocation list

  /** `task.allocations[0].start_time + task.requirements.max_runtime` for every task that has allocations. */
  function FinishTimes(tasks: seq<SchedTask>): (r: seq<int>)
    ensures forall t :: t in r <==> (exists k :: (0 <= k < |tasks| && tasks[k].allocations != [] &&
                                                  t == tasks[k].allocations[0].startTime + tasks[k].requirements.maxRuntime))
  {
    if tasks == [] then []
    else
      var rest := FinishTimes(tasks[1..]);
      assert forall k :: 0 < k < |tasks| ==> tasks[k] == tasks[1..][k - 1];
      var task := tasks[0];
      if task.allocations != [] then [task.allocations[0].startTime + task.requirements.maxRuntime] + rest
      else rest
  }

  /** The start times `build_allocation_list` tries: the finish times, once each, and now, in ascending order. */
  function CandidateTimes(tasks: seq<SchedTask>, now: int): seq<int> {
    Sort(Dedup(FinishTimes(tasks)) + [now])
  }

  lemma CandidateTimesHold(tasks: seq<SchedTask>, now: int)
    ensures Sorted(CandidateTimes(tasks, now))
    ensures forall t :: t in CandidateTimes(tasks, now) <==> t == now || t in FinishTimes(tasks)
  {
    forall t
      ensures t in CandidateTimes(tasks, now) <==> t == now || t in FinishTimes(tasks)
    {
      SortMembers(Dedup(FinishTimes(tasks)) + [now], t);
    }
  }

  /** The times of `times` at which the task fits, in order. */
  function FittingTimes(env: Env, task: SchedTask, curr: seq<Allocation>, times: seq<int>): (r: seq<int>)
    ensures |r| <= |times|
    ensures forall t :: t in r <==> t in times && FitsDiffAt(env, curr, t, task.requirements)
  {
    if times == [] then []
    else
      var last := times[|times| - 1];
      var rest := FittingTimes(env, task, curr, times[..|times| - 1]);
      assert forall t :: t in times <==> t in times[..|times| - 1] || t == last;
      if FitsDiffAt(env, curr, last, task.requirements) then rest + [last] else rest
  }

  /** One allocation list for each of `times` at which the task fits, in the order of `times`. */
  function AllocationsAt(env: Env, task: SchedTask, curr: seq<Allocation>, times: seq<int>): seq<seq<Allocation>> {
    if times == [] then []
    else
      var last := times[|times| - 1];
      var rest := AllocationsAt(env, task, curr, times[..|times| - 1]);
      if FitsDiffAt(env, curr, last, task.requirements) then rest + [AllocateAt(env, task, curr, last)] else rest
  }

  /**
   * The candidate allocations are those made at the times tried where the
   * task fits, one for each such time, in the order of the times.
   */
  lemma {:induction false} AllocationsAtFit(env: Env, task: SchedTask, curr: seq<Allocation>, times: seq<int>)
    ensures var r := AllocationsAt(env, task, curr, times);
      var fit := FittingTimes(env, task, curr, times);
      |r| == |fit| && forall k :: 0 <= k < |r| ==> r[k] == AllocateAt(env, task, curr, fit[k])
  {
    if times != [] {
      AllocationsAtFit(env, task, curr, times[..|times| - 1]);
    }
  }

  /** `build_allocation_list`: the allocations the task would get at each candidate time that fits. */
  method BuildAllocationList(task: SchedTask, tasks: seq<SchedTask>, env: Env, curr: seq<Allocation>, now: int)
    returns (allocations: seq<seq<Allocation>>)
    ensures allocations == AllocationsAt(env, task, curr, CandidateTimes(tasks, now))
  {
    var times := CandidateTimes(tasks, now);
    allocations := [];
    var k := 0;
    while k < |times|
      invariant 0 <= k <= |times|
      invariant allocations == AllocationsAt(env, task, curr, times[..k])
    {
      var overlap := env.overlap(curr, times[k], task.requirements.maxRuntime);
      assert times[..k + 1][..k] == times[..k];
      if env.fitsDiff(overlap, task.requirements) {
        allocations := allocations + [env.allocate(overlap, task.name, task.requirements, times[k])];
      }
      k := k + 1;
    }
    assert times[..k] == times;
  }

  // ------------------------------------------------------------- choose

  /** The number of tasks from which on MARS is chosen. */
  const Median := 2

  datatype AlgorithmKind = BackfillKind | MarsKind

  /** `Logger(cls)`: the chosen algorithm, wrapped so that its decisions are logged. */
  datatype Chosen = Logger(algorithm: AlgorithmKind)

  function Choose(tasks: seq<SchedTask>): (r: Chosen)
    ensures r.algorithm == BackfillKind <==> |tasks| < 2
    ensures r.algorithm == MarsKind <==> |tasks| >= 2
  {
    Logger(if |tasks| < Median then BackfillKind else MarsKind)
  }
}
