/**
 * The scheduler's time-slot allocator: tasks, time slots, partitions that
 * keep an ordered list of slots, clusters of partitions, workflows made of
 * dependency levels, and the first-come-first-served placement of a
 * workflow's tasks level by level.
 */
module Allocation {
  import opened Wrappers

  /** A schedulable task: a name and an estimated runtime in seconds. */
  datatype Task = Task(name: string, runtime: int)

  /**
   * A time slot of a partition. `task == None` marks an open (free) slot.
   * The back-pointer to the owning partition is not kept.
   */
  datatype TimeSlot = TimeSlot(startTime: int, task: Option<Task>, runtime: int) {
    predicate Open() { task.None? }

    /** The end of the slot. */
    function End(): int { startTime + runtime }

    /** The slot is open and long enough, from `minStart` on, for `t`. */
    predicate Fits(t: Task, minStart: int) {
      Open() && startTime + runtime >= minStart + t.runtime && t.runtime <= runtime
    }
  }

  function Max(a: int, b: int): int { if a < b then b else a }

  /**
   * The slot the constructor builds: with a task, its runtime is the task's
   * runtime whatever `runtime` says.
   */
  function MakeSlot(startTime: int, task: Option<Task>, runtime: int): (s: TimeSlot)
    ensures s.startTime == startTime && s.task == task
    ensures s.Open() <==> task.None?
    ensures task.Some? ==> s.runtime == task.value.runtime
    ensures task.None? ==> s.runtime == runtime
  {
    TimeSlot(startTime, task, if task.Some? then task.value.runtime else runtime)
  }

  /** `fits` means exactly: open, and the task placed at the later of `minStart` and the slot's start still ends inside the slot. */
  lemma FitsMeansRoom(s: TimeSlot, t: Task, minStart: int)
    ensures s.Fits(t, minStart) <==> s.Open() && Max(minStart, s.startTime) + t.runtime <= s.End()
  {
  }

  /** The total runtime of a list of slots (Python's `sum(slot.runtime for slot in slots)`). */
  function SumRuntimes(slots: seq<TimeSlot>): int {
    if slots == [] then 0 else slots[0].runtime + SumRuntimes(slots[1..])
  }

  lemma {:induction false} SumRuntimesConcat(a: seq<TimeSlot>, b: seq<TimeSlot>)
    ensures SumRuntimes(a + b) == SumRuntimes(a) + SumRuntimes(b)
  {
    if a != [] {
      assert (a + b)[1..] == a[1..] + b;
      SumRuntimesConcat(a[1..], b);
    } else {
      assert a + b == b;
    }
  }

  /** The accumulated runtime of the slots before index `k`: where slot `k` starts when slots are packed. */
  function Offset(slots: seq<TimeSlot>, k: nat): int
    requires k <= |slots|
  {
    SumRuntimes(slots[..k])
  }

  lemma OffsetNext(slots: seq<TimeSlot>, k: nat)
    requires k < |slots|
    ensures Offset(slots, k + 1) == Offset(slots, k) + slots[k].runtime
  {
    assert slots[..k + 1] == slots[..k] + [slots[k]];
    SumRuntimesConcat(slots[..k], [slots[k]]);
  }

  /**
   * The slots are packed from time `t` on: every slot starts where the
   * previous one ends.
   */
  predicate PackedFrom(slots: seq<TimeSlot>, t: int) {
    slots == [] || (slots[0].startTime == t && PackedFrom(slots[1..], t + slots[0].runtime))
  }

  lemma {:induction false} PackedConcat(a: seq<TimeSlot>, b: seq<TimeSlot>, t: int)
    ensures PackedFrom(a + b, t) <==> PackedFrom(a, t) && PackedFrom(b, t + SumRuntimes(a))
  {
    if a != [] {
      assert (a + b)[1..] == a[1..] + b;
      assert (a + b)[0] == a[0];
      PackedConcat(a[1..], b, t + a[0].runtime);
    } else {
      assert a + b == b;
    }
  }

  /**
   * The index `insert` chooses, scanning from `i`: the first open slot whose
   * accumulated offset is at least `start`, or `|slots|` when there is none.
   */
  function FirstOpen(slots: seq<TimeSlot>, start: int, i: nat): (k: nat)
    requires i <= |slots|
    ensures i <= k <= |slots|
    decreases |slots| - i
  {
    if i == |slots| then |slots|
    else if Offset(slots, i) >= start && slots[i].Open() then i
    else FirstOpen(slots, start, i + 1)
  }

  /** `FirstOpen` returns the first index that satisfies the test, or `|slots|` when none does. */
  lemma {:induction false} FirstOpenIsFirst(slots: seq<TimeSlot>, start: int, i: nat)
    requires i <= |slots|
    ensures var k := FirstOpen(slots, start, i);
      (k < |slots| ==> Offset(slots, k) >= start && slots[k].Open()) &&
      forall j :: i <= j < k ==> !(Offset(slots, j) >= start && slots[j].Open())
    decreases |slots| - i
  {
    if i < |slots| && !(Offset(slots, i) >= start && slots[i].Open()) {
      FirstOpenIsFirst(slots, start, i + 1);
    }
  }

  /** The open slot holding the `n` time units from `start` on. */
  function OpenSlot(start: int, n: int): TimeSlot { TimeSlot(start, None, n) }

  /** The slot of `task` placed at `start`. */
  function TaskSlot(task: Task, start: int): TimeSlot { MakeSlot(start, Some(task), 0) }

  /**
   * What `insert` does to the slots when it picks the open slot at `k`,
   * whose accumulated offset is `t`: the slot is replaced by a leading open
   * slot (when the old slot starts before `t`), the task slot at `t` and a
   * trailing open slot (when time is left after the task).
   */
  function SplitSlot(slots: seq<TimeSlot>, k: nat, task: Task, t: int): seq<TimeSlot>
    requires k < |slots|
  {
    var old_ := slots[k];
    var lead := if old_.startTime < t then [OpenSlot(old_.startTime, t - old_.startTime)] else [];
    var left := old_.End() - (t + task.runtime);
    var trail := if left > 0 then [OpenSlot(t + task.runtime, left)] else [];
    slots[..k] + lead + [TaskSlot(task, t)] + trail + slots[k + 1..]
  }

  /**
   * What `insert` does when no open slot qualifies: an open gap up to
   * `start` when `start` lies beyond the total time, then the task slot.
   */
  function AppendTask(slots: seq<TimeSlot>, task: Task, start: int): seq<TimeSlot> {
    var total := SumRuntimes(slots);
    var gap := if start > total then [OpenSlot(total, start - total)] else [];
    slots + gap + [TaskSlot(task, start)]
  }

  /** The new slots and the returned slot of `Partition.insert`. */
  function Inserted(slots: seq<TimeSlot>, task: Task, start: int): (seq<TimeSlot>, TimeSlot) {
    var k := FirstOpen(slots, start, 0);
    if k < |slots| then
      var t := Offset(slots, k);
      (SplitSlot(slots, k, task, t), TaskSlot(task, t))
    else
      (AppendTask(slots, task, start), TaskSlot(task, start))
  }

  /**
   * The returned slot holds the task, starts no earlier than the requested
   * time, and is one of the new slots.
   */
  lemma InsertedHoldsTask(slots: seq<TimeSlot>, task: Task, start: int)
    ensures var (s, slot) := Inserted(slots, task, start);
      slot in s && slot.task == Some(task) && slot.runtime == task.runtime && slot.startTime >= start
  {
    var k := FirstOpen(slots, start, 0);
    FirstOpenIsFirst(slots, start, 0);
    if k < |slots| {
      var s := SplitSlot(slots, k, task, Offset(slots, k));
      var old_ := slots[k];
      var lead := if old_.startTime < Offset(slots, k) then [OpenSlot(old_.startTime, Offset(slots, k) - old_.startTime)] else [];
      assert s[k + |lead|] == TaskSlot(task, Offset(slots, k));
    } else {
      var s := AppendTask(slots, task, start);
      assert s[|s| - 1] == TaskSlot(task, start);
    }
  }

  /**
   * Append branch: beyond the total time, an open gap of `start - total`
   * precedes the task, which then ends the partition; before it, the task is
   * appended all the same and the total grows by its runtime.
   */
  lemma AppendBranch(slots: seq<TimeSlot>, task: Task, start: int)
    requires FirstOpen(slots, start, 0) == |slots|
    ensures var total := SumRuntimes(slots);
      var s := Inserted(slots, task, start).0;
      (start > total ==> s == slots + [OpenSlot(total, start - total), TaskSlot(task, start)]) &&
      (start <= total ==> s == slots + [TaskSlot(task, start)]) &&
      SumRuntimes(s) == Max(start, total) + task.runtime
  {
    var total := SumRuntimes(slots);
    var gap := if start > total then [OpenSlot(total, start - total)] else [];
    SumRuntimesConcat(slots + gap, [TaskSlot(task, start)]);
    SumRuntimesConcat(slots, gap);
  }

  lemma SplitPieces(slots: seq<TimeSlot>, k: nat, task: Task, t: int)
    requires k < |slots|
    ensures var old_ := slots[k];
      var lead := if old_.startTime < t then [OpenSlot(old_.startTime, t - old_.startTime)] else [];
      var left := old_.End() - (t + task.runtime);
      var trail := if left > 0 then [OpenSlot(t + task.runtime, left)] else [];
      SplitSlot(slots, k, task, t) == slots[..k] + (lead + [TaskSlot(task, t)] + trail) + slots[k + 1..] &&
      slots == slots[..k] + [old_] + slots[k + 1..]
  {
    assert slots == slots[..k] + [slots[k]] + slots[k + 1..];
  }

  /**
   * Split branch: when the task lies inside the chosen open slot, the
   * pieces that replace it have the old slot's runtime, so the partition's
   * total time does not change.
   */
  lemma SplitKeepsTotal(slots: seq<TimeSlot>, task: Task, start: int)
    requires FirstOpen(slots, start, 0) < |slots|
    requires var k := FirstOpen(slots, start, 0);
      slots[k].startTime <= Offset(slots, k) && Offset(slots, k) + task.runtime <= slots[k].End()
    ensures SumRuntimes(Inserted(slots, task, start).0) == SumRuntimes(slots)
  {
    var k := FirstOpen(slots, start, 0);
    var t := Offset(slots, k);
    var old_ := slots[k];
    var lead := if old_.startTime < t then [OpenSlot(old_.startTime, t - old_.startTime)] else [];
    var left := old_.End() - (t + task.runtime);
    var trail := if left > 0 then [OpenSlot(t + task.runtime, left)] else [];
    var pre, post := slots[..k], slots[k + 1..];
    SplitPieces(slots, k, task, t);
    SumRuntimesConcat(pre + [old_], post);
    SumRuntimesConcat(pre, [old_]);
    SumRuntimesConcat(pre + (lead + [TaskSlot(task, t)] + trail), post);
    SumRuntimesConcat(pre, lead + [TaskSlot(task, t)] + trail);
    SumRuntimesConcat(lead + [TaskSlot(task, t)], trail);
    SumRuntimesConcat(lead, [TaskSlot(task, t)]);
  }

  lemma {:induction false} PackedStart(slots: seq<TimeSlot>, t: int, k: nat)
    requires PackedFrom(slots, t) && k < |slots|
    ensures slots[k].startTime == t + Offset(slots, k)
    decreases k
  {
    if k > 0 {
      PackedStart(slots[1..], t + slots[0].runtime, k - 1);
      assert slots[..k] == [slots[0]] + slots[1..][..k - 1];
    }
  }

  /**
   * On packed slots, inserting a task no longer than the chosen open slot
   * keeps the slots packed (the leading piece never appears).
   */
  lemma SplitKeepsPacked(slots: seq<TimeSlot>, task: Task, start: int)
    requires PackedFrom(slots, 0)
    requires FirstOpen(slots, start, 0) < |slots|
    requires 0 <= task.runtime <= slots[FirstOpen(slots, start, 0)].runtime
    ensures PackedFrom(Inserted(slots, task, start).0, 0)
  {
    var k := FirstOpen(slots, start, 0);
    SplitSlotPacked(slots, k, task);
  }

  lemma SplitSlotPacked(slots: seq<TimeSlot>, k: nat, task: Task)
    requires PackedFrom(slots, 0) && k < |slots|
    requires 0 <= task.runtime <= slots[k].runtime
    ensures PackedFrom(SplitSlot(slots, k, task, Offset(slots, k)), 0)
  {
    var t := Offset(slots, k);
    var old_ := slots[k];
    PackedStart(slots, 0, k);
    var left := old_.runtime - task.runtime;
    var mid := [TaskSlot(task, t)] + if left > 0 then [OpenSlot(t + task.runtime, left)] else [];
    SplitNoLead(slots, k, task, t, mid);
    TaskThenRest(task, t, old_.runtime, left, mid);
    ReplacePacked(slots[..k], old_, mid, slots[k + 1..]);
  }

  /** A slot that starts at `t` is split with no leading open piece. */
  lemma SplitNoLead(slots: seq<TimeSlot>, k: nat, task: Task, t: int, mid: seq<TimeSlot>)
    requires k < |slots| && slots[k].startTime == t
    requires var left := slots[k].runtime - task.runtime;
      mid == [TaskSlot(task, t)] + if left > 0 then [OpenSlot(t + task.runtime, left)] else []
    ensures SplitSlot(slots, k, task, t) == slots[..k] + mid + slots[k + 1..]
    ensures slots == slots[..k] + [slots[k]] + slots[k + 1..]
  {
    assert slots == slots[..k] + [slots[k]] + slots[k + 1..];
  }

  /** Replacing a slot of packed slots by packed pieces of the same total keeps them packed. */
  lemma ReplacePacked(pre: seq<TimeSlot>, x: TimeSlot, mid: seq<TimeSlot>, post: seq<TimeSlot>)
    requires PackedFrom(pre + [x] + post, 0)
    requires PackedFrom(mid, SumRuntimes(pre)) && SumRuntimes(mid) == x.runtime
    ensures PackedFrom(pre + mid + post, 0)
  {
    PackedParts(pre, [x], post, 0);
    assert SumRuntimes([x]) == x.runtime;
    PackedJoin(pre, mid, post, 0);
  }

  lemma PackedParts(a: seq<TimeSlot>, b: seq<TimeSlot>, c: seq<TimeSlot>, t: int)
    requires PackedFrom(a + b + c, t)
    ensures PackedFrom(a, t) && PackedFrom(c, t + SumRuntimes(a) + SumRuntimes(b))
  {
    PackedConcat(a + b, c, t);
    PackedConcat(a, b, t);
    SumRuntimesConcat(a, b);
  }

  lemma PackedJoin(a: seq<TimeSlot>, b: seq<TimeSlot>, c: seq<TimeSlot>, t: int)
    requires PackedFrom(a, t) && PackedFrom(b, t + SumRuntimes(a))
    requires PackedFrom(c, t + SumRuntimes(a) + SumRuntimes(b))
    ensures PackedFrom(a + b + c, t)
  {
    PackedConcat(a, b, t);
    SumRuntimesConcat(a, b);
    PackedConcat(a + b, c, t);
  }

  /** The task slot at `t` and the open rest of an `n`-unit slot are packed and last `n` units. */
  lemma TaskThenRest(task: Task, t: int, n: int, left: int, mid: seq<TimeSlot>)
    requires 0 <= task.runtime <= n && left == n - task.runtime
    requires mid == [TaskSlot(task, t)] + if left > 0 then [OpenSlot(t + task.runtime, left)] else []
    ensures PackedFrom(mid, t) && SumRuntimes(mid) == n
  {
    var trail := if left > 0 then [OpenSlot(t + task.runtime, left)] else [];
    PackedConcat([TaskSlot(task, t)], trail, t);
    SumRuntimesConcat([TaskSlot(task, t)], trail);
  }

  /** Appending at or after the total time keeps packed slots packed. */
  lemma AppendKeepsPacked(slots: seq<TimeSlot>, task: Task, start: int)
    requires PackedFrom(slots, 0)
    requires FirstOpen(slots, start, 0) == |slots| && start >= SumRuntimes(slots)
    ensures PackedFrom(Inserted(slots, task, start).0, 0)
  {
    var total := SumRuntimes(slots);
    var gap := if start > total then [OpenSlot(total, start - total)] else [];
    PackedConcat(slots + gap, [TaskSlot(task, start)], 0);
    PackedConcat(slots, gap, 0);
    SumRuntimesConcat(slots, gap);
  }

  /**
   * `insert` does not check for overlap: one open slot of 10 units, a task
   * of 2 asked for at time 3. No open slot starts at offset 3 or later, so
   * the task is appended after the open slot, yet its slot says it starts
   * at 3, inside the open slot; the slots are no longer packed.
   */
  lemma InsertOverlaps()
    ensures var slots := [OpenSlot(0, 10)];
      var task := Task("t", 2);
      var s := Inserted(slots, task, 3).0;
      s == [OpenSlot(0, 10), TaskSlot(task, 3)] && PackedFrom(slots, 0) && !PackedFrom(s, 0)
  {
    var slots := [OpenSlot(0, 10)];
    assert Offset(slots, 0) == 0;
    assert FirstOpen(slots, 3, 1) == 1;
    assert SumRuntimes(slots) == 10;
    var s := [OpenSlot(0, 10), TaskSlot(Task("t", 2), 3)];
    assert s[1..][0].startTime == 3;
  }

  /**
   * `fit`'s scan: the first open slot that ends at or after `start` plus
   * the task's runtime gives the later of `start` and the slot's start;
   * without one, the later of `start` and the total time.
   */
  function FitIn(slots: seq<TimeSlot>, task: Task, start: int, total: int): (r: int)
    ensures r >= start
    ensures r == start || r == total || exists k :: 0 <= k < |slots| && r == slots[k].startTime
  {
    if slots == [] then (if total < start then start else total)
    else if slots[0].Open() && slots[0].End() >= start + task.runtime then
      (if slots[0].startTime < start then start else slots[0].startTime)
    else
      var r := FitIn(slots[1..], task, start, total);
      assert r != start && r != total ==> exists k :: 0 <= k < |slots| && r == slots[k].startTime by {
        if r != start && r != total {
          var k :| 0 <= k < |slots[1..]| && r == slots[1..][k].startTime;
          assert r == slots[k + 1].startTime;
        }
      }
      r
  }

  /**
   * `fit` ignores the slot's length: an open slot from 10 to 12 and a task
   * of 5 asked for at 7. The slot ends at 12 = 7 + 5, so 10 is returned,
   * though the task would run until 15, past the slot; the slot does not
   * `fits` the task.
   */
  lemma FitOverrunsSlot()
    ensures var slot := OpenSlot(10, 2);
      var task := Task("t", 5);
      FitIn([slot], task, 7, 2) == 10 && 10 + task.runtime > slot.End() && !slot.Fits(task, 7)
  {
  }

  /**
   * A corrected `fit` that accepts an open slot only when the task fits in
   * it from the later of `start` and the slot's start.
   */
  function FitInSlot(slots: seq<TimeSlot>, task: Task, start: int, total: int): (r: int)
    ensures r >= start
  {
    if slots == [] then Max(start, total)
    else if slots[0].Fits(task, start) then Max(start, slots[0].startTime)
    else FitInSlot(slots[1..], task, start, total)
  }

  /**
   * When the corrected `fit` picks a slot, the task placed at the returned
   * time lies inside that open slot.
   */
  lemma {:induction false} FitInSlotInside(slots: seq<TimeSlot>, task: Task, start: int, total: int)
    requires exists k :: 0 <= k < |slots| && slots[k].Fits(task, start)
    ensures exists k :: (0 <= k < |slots| && slots[k].Open() &&
      slots[k].startTime <= FitInSlot(slots, task, start, total) &&
      FitInSlot(slots, task, start, total) + task.runtime <= slots[k].End())
  {
    if slots[0].Fits(task, start) {
      FitsMeansRoom(slots[0], task, start);
    } else {
      var k :| 0 <= k < |slots| && slots[k].Fits(task, start);
      assert slots[1..][k - 1] == slots[k];
      FitInSlotInside(slots[1..], task, start, total);
      var j :| 0 <= j < |slots[1..]| && slots[1..][j].Open() &&
        slots[1..][j].startTime <= FitInSlot(slots[1..], task, start, total) &&
        FitInSlot(slots[1..], task, start, total) + task.runtime <= slots[1..][j].End();
      assert slots[j + 1] == slots[1..][j];
    }
  }

  /** A partition: a name and its time slots, which `insert` edits in place. */
  class Partition {
    var name: string
    var slots: seq<TimeSlot>

    /** The constructor takes a `slots` argument but always starts empty. */
    constructor (name: string, slots: seq<TimeSlot>)
      ensures this.name == name && this.slots == []
    {
      this.name := name;
      this.slots := [];
    }

    /** `total_time`: the sum of the slots' runtimes. */
    function TotalTime(): int
      reads this
    {
      SumRuntimes(slots)
    }

    /** `fit`: the earliest start time it offers for `task` from `startTime` on. */
    function Fit(task: Task, startTime: int): (r: int)
      reads this
      ensures r >= startTime
    {
      FitIn(slots, task, startTime, TotalTime())
    }

    /**
     * `insert`: places the task as `Inserted` describes and returns the task's
     * slot, which starts no earlier than `startTime`.
     */
    method Insert(task: Task, startTime: int) returns (slot: TimeSlot)
      modifies this
      ensures (slots, slot) == Inserted(old(slots), task, startTime)
      ensures name == old(name)
      ensures slot in slots && slot.task == Some(task) && slot.runtime == task.runtime && slot.startTime >= startTime
    {
      ghost var was := slots;
      var index := |slots|;
      var t := 0;
      var start := startTime;
      var i := 0;
      while i < |slots|
        invariant 0 <= i <= |slots| && slots == was && name == old(name)
        invariant t == Offset(slots, i)
        invariant FirstOpen(slots, startTime, 0) == FirstOpen(slots, startTime, i)
      {
        if t >= start && slots[i].Open() {
          start := t;
          index := i;
          break;
        }
        OffsetNext(slots, i);
        t := t + slots[i].runtime;
        i := i + 1;
      }
      if index < |slots| {
        assert FirstOpen(slots, startTime, 0) == index && start == Offset(slots, index);
        var oldSlot := slots[index];
        var pre, post := slots[..index], slots[index + 1..];
        slots := pre + post;
        var lead: seq<TimeSlot> := [];
        if oldSlot.startTime < start {
          lead := [OpenSlot(oldSlot.startTime, start - oldSlot.startTime)];
          slots := pre + lead + post;
        }
        slot := TaskSlot(task, start);
        slots := pre + lead + [slot] + post;
        var runtimeLeft := (oldSlot.startTime + oldSlot.runtime) - (start + task.runtime);
        var trail: seq<TimeSlot> := [];
        if runtimeLeft > 0 {
          trail := [OpenSlot(start + task.runtime, runtimeLeft)];
        }
        slots := pre + lead + [slot] + trail + post;
        assert slots == SplitSlot(was, index, task, start);
      } else {
        assert FirstOpen(was, startTime, 0) == |was| && start == startTime;
        var totalTime := TotalTime();
        var gap: seq<TimeSlot> := [];
        if start > totalTime {
          gap := [OpenSlot(totalTime, start - totalTime)];
        }
        slot := TaskSlot(task, start);
        slots := slots + gap + [slot];
        assert slots == AppendTask(was, task, startTime);
      }
      InsertedHoldsTask(was, task, startTime);
    }
  }

  /** A cluster and its partitions. */
  class Cluster {
    var name: string
    var partitions: seq<Partition>

    constructor (name: string, partitions: seq<Partition>)
      ensures this.name == name && this.partitions == partitions
    {
      this.name := name;
      this.partitions := partitions;
    }

    /** `insert_partition`: appends a partition. */
    method InsertPartition(p: Partition)
      modifies this
      ensures partitions == old(partitions) + [p] && name == old(name)
    {
      partitions := partitions + [p];
    }
  }

  /**
   * The partitions of all clusters, in the order `schedule_next_fcfs`
   * visits them (cluster by cluster).
   */
  function AllPartitions(clusters: seq<Cluster>): seq<Partition>
    reads set c | c in clusters
  {
    if clusters == [] then []
    else AllPartitions(clusters[..|clusters| - 1]) + clusters[|clusters| - 1].partitions
  }

  /**
   * `b` is the partition `schedule_next_fcfs` keeps among `ps`: its fit time
   * is the smallest, and every earlier partition's is strictly larger.
   */
  predicate FirstMinimum(ps: seq<Partition>, b: nat, task: Task, start: int)
    reads set p | p in ps
  {
    b < |ps| &&
    (forall j :: 0 <= j < |ps| ==> ps[b].Fit(task, start) <= ps[j].Fit(task, start)) &&
    (forall j :: 0 <= j < b ==> ps[j].Fit(task, start) > ps[b].Fit(task, start))
  }

  /**
   * The search loops of `schedule_next_fcfs`: visits every partition of
   * every cluster and keeps the first one with the strictly smallest fit
   * time, with that time; `None` when there is no partition at all.
   */
  method BestPartition(task: Task, clusters: seq<Cluster>, minStartTime: int)
    returns (best: Option<(Partition, int)>, ghost b: nat)
    ensures best.None? <==> |AllPartitions(clusters)| == 0
    ensures best.Some? ==> (FirstMinimum(AllPartitions(clusters), b, task, minStartTime) &&
      best.value == (AllPartitions(clusters)[b], AllPartitions(clusters)[b].Fit(task, minStartTime)))
  {
    best := None;
    b := 0;
    ghost var seen: seq<Partition> := [];
    var ci := 0;
    while ci < |clusters|
      invariant 0 <= ci <= |clusters|
      invariant seen == AllPartitions(clusters[..ci])
      invariant best.None? <==> seen == []
      invariant best.Some? ==> FirstMinimum(seen, b, task, minStartTime) && best.value == (seen[b], seen[b].Fit(task, minStartTime))
    {
      var cluster := clusters[ci];
      var pi := 0;
      while pi < |cluster.partitions|
        invariant 0 <= pi <= |cluster.partitions|
        invariant seen == AllPartitions(clusters[..ci]) + cluster.partitions[..pi]
        invariant best.None? <==> seen == []
        invariant best.Some? ==> FirstMinimum(seen, b, task, minStartTime) && best.value == (seen[b], seen[b].Fit(task, minStartTime))
      {
        var partition := cluster.partitions[pi];
        var t := partition.Fit(task, minStartTime);
        if best.None? || t < best.value.1 {
          best := Some((partition, t));
          b := |seen|;
        }
        seen := seen + [partition];
        assert cluster.partitions[..pi + 1] == cluster.partitions[..pi] + [partition];
        pi := pi + 1;
      }
      assert clusters[..ci + 1][..ci] == clusters[..ci];
      assert cluster.partitions[..pi] == cluster.partitions;
      ci := ci + 1;
    }
    assert clusters[..ci] == clusters;
  }

  /**
   * `schedule_next_fcfs`: inserts the task, at its fit time, into the first
   * partition with the smallest fit time. Without any partition it fails
   * (`best_partition` is `None`).
   */
  method ScheduleNextFcfs(task: Task, clusters: seq<Cluster>, minStartTime: int) returns (r: Result<TimeSlot>)
    modifies set p | p in AllPartitions(clusters)
    ensures r.Err? <==> |AllPartitions(clusters)| == 0
    ensures r.Ok? ==> exists b: nat ::
      old(FirstMinimum(AllPartitions(clusters), b, task, minStartTime)) &&
      var p := AllPartitions(clusters)[b];
      (p.slots, r.value) == Inserted(old(p.slots), task, old(p.Fit(task, minStartTime))) &&
      forall q :: q in AllPartitions(clusters) && q != p ==> q.slots == old(q.slots)
    ensures r.Ok? ==> r.value.task == Some(task) && r.value.runtime == task.runtime && r.value.startTime >= minStartTime
  {
    var best, b := BestPartition(task, clusters, minStartTime);
    if best.None? {
      return Err("'NoneType' object has no attribute 'insert'");
    }
    ghost var ps := AllPartitions(clusters);
    assert FirstMinimum(ps, b, task, minStartTime);
    var slot := best.value.0.Insert(task, best.value.1);
    r := Ok(slot);
    assert AllPartitions(clusters) == ps;
    assert old(FirstMinimum(AllPartitions(clusters), b, task, minStartTime));
  }

  /** The value `encode` produces for a field: a string or an integer. */
  datatype FieldValue = Str(s: string) | Int(i: int)

  /** `Task.encode`: the dictionary of the task's attributes. */
  function EncodeTask(t: Task): map<string, FieldValue> {
    map["name" := Str(t.name), "runtime" := Int(t.runtime)]
  }

  /**
   * `Task.decode`: `Task(**data)`. Keyword arguments other than exactly
   * `name` and `runtime` raise TypeError; values of another type than the
   * model's fields are refused too.
   */
  function DecodeTask(d: map<string, FieldValue>): Result<Task> {
    if d.Keys != {"name", "runtime"} then Err("TypeError: Task() takes name and runtime")
    else if !d["name"].Str? || !d["runtime"].Int? then Err("field of unsupported type")
    else Ok(Task(d["name"].s, d["runtime"].i))
  }

  /** Decoding an encoded task gives back the same name and runtime. */
  lemma DecodeEncodeTask(t: Task)
    ensures DecodeTask(EncodeTask(t)) == Ok(t)
  {
    assert EncodeTask(t).Keys == {"name", "runtime"};
  }

  /** Every dictionary that decodes is the encoding of what it decodes to. */
  lemma EncodeDecodeTask(d: map<string, FieldValue>)
    requires DecodeTask(d).Ok?
    ensures EncodeTask(DecodeTask(d).value) == d
  {
    var e := EncodeTask(DecodeTask(d).value);
    assert e.Keys == d.Keys;
    forall k | k in d.Keys ensures e[k] == d[k] {
      assert k == "name" || k == "runtime";
    }
  }

  /**
   * The levels after `Workflow.insert(task, level)`. A non-negative level
   * first grows the list with empty levels up to it; a negative one counts
   * from the end as Python indexing does, and one before the first level
   * raises IndexError.
   */
  function InsertAtLevel(levels: seq<seq<Task>>, task: Task, level: int): Result<seq<seq<Task>>> {
    if level >= 0 then
      var grown := if |levels| <= level then levels + seq(level + 1 - |levels|, _ => []) else levels;
      Ok(grown[level := grown[level] + [task]])
    else if -level <= |levels| then
      var i := |levels| + level;
      Ok(levels[i := levels[i] + [task]])
    else Err("IndexError: list index out of range")
  }

  /**
   * Inserting at a non-negative level creates empty levels up to it,
   * appends the task to that level only, and leaves every other level as it
   * was.
   */
  lemma InsertAtLevelFrame(levels: seq<seq<Task>>, task: Task, level: int)
    requires level >= 0
    ensures var r := InsertAtLevel(levels, task, level);
      r.Ok? && |r.value| == Max(|levels|, level + 1) &&
      r.value[level] == (if level < |levels| then levels[level] else []) + [task] &&
      (forall j :: 0 <= j < |r.value| && j != level ==>
        r.value[j] == if j < |levels| then levels[j] else [])
  {
  }

  /** A negative level is an index from the end; one too far back fails and changes nothing. */
  lemma InsertAtNegativeLevel(levels: seq<seq<Task>>, task: Task, level: int)
    requires level < 0
    ensures InsertAtLevel(levels, task, level).Ok? <==> -level <= |levels|
    ensures InsertAtLevel(levels, task, level).Ok? ==>
      var r := InsertAtLevel(levels, task, level).value;
      |r| == |levels| && r[|levels| + level] == levels[|levels| + level] + [task] &&
      forall j :: 0 <= j < |r| && j != |levels| + level ==> r[j] == levels[j]
  {
  }

  /** A workflow: its tasks in dependency levels, level 0 first. */
  class Workflow {
    var name: string
    var levels: seq<seq<Task>>

    /** Each workflow gets its own list of levels. */
    constructor (name: string, levels: seq<seq<Task>>)
      ensures this.name == name && this.levels == levels
    {
      this.name := name;
      this.levels := levels;
    }

    /** `insert(task, level)`; `ok` is false where Python raises IndexError. */
    method Insert(task: Task, level: int) returns (ok: bool)
      modifies this
      ensures name == old(name)
      ensures var r := InsertAtLevel(old(levels), task, level);
        ok == r.Ok? && levels == if ok then r.value else old(levels)
    {
      while |levels| <= level
        invariant name == old(name)
        invariant old(levels) <= levels
        invariant |levels| <= Max(|old(levels)|, level + 1)
        invariant forall j :: |old(levels)| <= j < |levels| ==> levels[j] == []
        decreases level + 1 - |levels|
      {
        levels := levels + [[]];
      }
      var i := level;
      if level < 0 {
        if -level > |levels| {
          return false;
        }
        i := |levels| + level;
      }
      assert level >= 0 ==> levels == if |old(levels)| <= level then old(levels) + seq(level + 1 - |old(levels)|, _ => []) else old(levels);
      levels := levels[i := levels[i] + [task]];
      ok := true;
    }
  }

  /** The names of the tasks of one level. */
  function Names(level: seq<Task>): set<string> {
    if level == [] then {} else Names(level[..|level| - 1]) + {level[|level| - 1].name}
  }

  lemma NamesSnoc(level: seq<Task>, k: nat)
    requires k < |level|
    ensures Names(level[..k + 1]) == Names(level[..k]) + {level[k].name}
  {
    assert level[..k + 1][..k] == level[..k];
  }

  /** The names of the tasks of all levels. */
  function AllNames(levels: seq<seq<Task>>): set<string> {
    if levels == [] then {} else AllNames(levels[..|levels| - 1]) + Names(levels[|levels| - 1])
  }

  /** The last level holding a task named `n`, or -1. */
  function LastLevel(levels: seq<seq<Task>>, n: string): int {
    if levels == [] then -1
    else if n in Names(levels[|levels| - 1]) then |levels| - 1
    else LastLevel(levels[..|levels| - 1], n)
  }

  lemma {:induction false} LastLevelBounds(levels: seq<seq<Task>>, n: string)
    ensures -1 <= LastLevel(levels, n) < |levels|
    ensures LastLevel(levels, n) >= 0 <==> n in AllNames(levels)
  {
    if levels != [] {
      LastLevelBounds(levels[..|levels| - 1], n);
    }
  }

  lemma {:induction false} NamesHas(level: seq<Task>, k: nat)
    requires k < |level|
    ensures level[k].name in Names(level)
  {
    if k < |level| - 1 {
      NamesHas(level[..|level| - 1], k);
    }
  }

  lemma {:induction false} AllNamesHas(levels: seq<seq<Task>>, i: nat, k: nat)
    requires i < |levels| && k < |levels[i]|
    ensures levels[i][k].name in AllNames(levels)
  {
    if i == |levels| - 1 {
      NamesHas(levels[i], k);
    } else {
      AllNamesHas(levels[..|levels| - 1], i, k);
    }
  }

  /**
   * The schedule `fcfs` returns: an entry for every task name, holding that
   * task, no earlier than the workflow's start; a task whose last level is
   * later than another's starts once that other task has finished.
   */
  predicate OrderedSchedule(levels: seq<seq<Task>>, provision: map<string, TimeSlot>, startTime: int) {
    provision.Keys == AllNames(levels) &&
    (forall n :: n in provision ==>
      provision[n].task.Some? && provision[n].task.value.name == n &&
      provision[n].runtime == provision[n].task.value.runtime && provision[n].startTime >= startTime) &&
    (forall n, m :: n in provision && m in provision && LastLevel(levels, n) < LastLevel(levels, m) ==>
      provision[m].startTime >= provision[n].End())
  }

  /** The slot `fcfs` records for the task named `n`: that task, no earlier than `time`. */
  predicate SlotFor(slot: TimeSlot, n: string, time: int) {
    slot.task.Some? && slot.task.value.name == n &&
    slot.runtime == slot.task.value.runtime && slot.startTime >= time
  }

  /** Recording the slot of task `k` of a level extends what the inner loop of `fcfs` keeps. */
  lemma RecordSlot(level: seq<Task>, k: nat, provision0: map<string, TimeSlot>, provision: map<string, TimeSlot>,
                   time: int, maxTime: int, slot: TimeSlot, newMax: int)
    requires k < |level|
    requires provision.Keys == provision0.Keys + Names(level[..k])
    requires forall n :: n in Names(level[..k]) ==> SlotFor(provision[n], n, time) && provision[n].End() <= maxTime
    requires forall n :: n in provision0 && n !in Names(level[..k]) ==> provision[n] == provision0[n]
    requires SlotFor(slot, level[k].name, time) && maxTime <= newMax && slot.End() <= newMax
    ensures var after := provision[level[k].name := slot];
      after.Keys == provision0.Keys + Names(level[..k + 1]) &&
      (forall n :: n in Names(level[..k + 1]) ==> SlotFor(after[n], n, time) && after[n].End() <= newMax) &&
      (forall n :: n in provision0 && n !in Names(level[..k + 1]) ==> after[n] == provision0[n])
  {
    NamesSnoc(level, k);
  }

  /**
   * The inner loop of `fcfs`: schedules every task of one level at or after
   * `time`, records their slots and returns the latest finish, which is at
   * least `time`. Entries of other names are kept.
   */
  method ScheduleLevel(level: seq<Task>, clusters: seq<Cluster>, time: int, provision0: map<string, TimeSlot>)
    returns (r: Result<(map<string, TimeSlot>, int)>)
    modifies set p | p in AllPartitions(clusters)
    ensures r.Err? <==> |AllPartitions(clusters)| == 0 && level != []
    ensures r.Ok? ==>
      var (provision, maxTime) := r.value;
      maxTime >= time && provision.Keys == provision0.Keys + Names(level) &&
      (forall n :: n in Names(level) ==> SlotFor(provision[n], n, time) && provision[n].End() <= maxTime) &&
      (forall n :: n in provision0 && n !in Names(level) ==> provision[n] == provision0[n])
  {
    var provision := provision0;
    var maxTime := time;
    var k := 0;
    while k < |level|
      invariant 0 <= k <= |level|
      invariant time <= maxTime
      invariant AllPartitions(clusters) == old(AllPartitions(clusters))
      invariant |AllPartitions(clusters)| == 0 ==> k == 0
      invariant provision.Keys == provision0.Keys + Names(level[..k])
      invariant forall n :: n in Names(level[..k]) ==> SlotFor(provision[n], n, time) && provision[n].End() <= maxTime
      invariant forall n :: n in provision0 && n !in Names(level[..k]) ==> provision[n] == provision0[n]
    {
      var task := level[k];
      var slot := ScheduleNextFcfs(task, clusters, time);
      if slot.Err? {
        return Err(slot.error);
      }
      var t := slot.value.startTime + task.runtime;
      var newMax := if t > maxTime then t else maxTime;
      RecordSlot(level, k, provision0, provision, time, maxTime, slot.value, newMax);
      provision := provision[task.name := slot.value];
      maxTime := newMax;
      k := k + 1;
    }
    assert level[..k] == level;
    r := Ok((provision, maxTime));
  }

  /**
   * One level of `fcfs` keeps the schedule ordered: its tasks start after
   * every earlier task has finished, and all tasks so far finish by the
   * level's latest finish.
   */
  lemma LevelKeepsOrder(prev: seq<seq<Task>>, level: seq<Task>, before: map<string, TimeSlot>,
                        after: map<string, TimeSlot>, startTime: int, time: int, maxTime: int)
    requires time >= startTime && maxTime >= time
    requires before.Keys == AllNames(prev)
    requires forall n :: n in before ==> SlotFor(before[n], n, startTime) && before[n].End() <= time
    requires forall n, m :: n in before && m in before && LastLevel(prev, n) < LastLevel(prev, m) ==>
      before[m].startTime >= before[n].End()
    requires after.Keys == before.Keys + Names(level)
    requires forall n :: n in Names(level) ==> SlotFor(after[n], n, time) && after[n].End() <= maxTime
    requires forall n :: n in before && n !in Names(level) ==> after[n] == before[n]
    ensures after.Keys == AllNames(prev + [level])
    ensures forall n :: n in after ==> SlotFor(after[n], n, startTime) && after[n].End() <= maxTime
    ensures forall n, m ::
      (n in after && m in after && LastLevel(prev + [level], n) < LastLevel(prev + [level], m) ==>
        after[m].startTime >= after[n].End())
  {
    var done := prev + [level];
    assert done[..|done| - 1] == prev;
    forall n | n in after
      ensures LastLevel(done, n) == if n in Names(level) then |prev| else LastLevel(prev, n)
      ensures LastLevel(prev, n) < |prev|
    {
      LastLevelBounds(prev, n);
    }
  }

  /**
   * `fcfs`: schedules the workflow level by level. Every task of a level
   * asks for the level's start time; the next level starts at the latest
   * finish of this one. Each task's slot is recorded under its name (a
   * later task of the same name replaces the entry). Without any partition
   * the first task fails.
   */
  method Fcfs(workflow: Workflow, clusters: seq<Cluster>, startTime: int) returns (r: Result<map<string, TimeSlot>>)
    modifies set p | p in AllPartitions(clusters)
    ensures r.Err? <==> |AllPartitions(clusters)| == 0 && AllNames(workflow.levels) != {}
    ensures r.Ok? ==> OrderedSchedule(workflow.levels, r.value, startTime)
  {
    var levels := workflow.levels;
    var provision: map<string, TimeSlot> := map[];
    var time := startTime;
    var li := 0;
    while li < |levels|
      invariant 0 <= li <= |levels| && levels == workflow.levels
      invariant time >= startTime
      invariant provision.Keys == AllNames(levels[..li])
      invariant |AllPartitions(clusters)| == 0 ==> AllNames(levels[..li]) == {}
      invariant forall n :: n in provision ==> SlotFor(provision[n], n, startTime) && provision[n].End() <= time
      invariant forall n, m ::
        (n in provision && m in provision && LastLevel(levels[..li], n) < LastLevel(levels[..li], m) ==>
          provision[m].startTime >= provision[n].End())
    {
      ghost var before := provision;
      var step := ScheduleLevel(levels[li], clusters, time, provision);
      if step.Err? {
        AllNamesHas(levels, li, 0);
        return Err(step.error);
      }
      assert levels[..li + 1] == levels[..li] + [levels[li]];
      provision := step.value.0;
      LevelKeepsOrder(levels[..li], levels[li], before, provision, startTime, time, step.value.1);
      time := step.value.1;
      li := li + 1;
    }
    assert levels[..li] == levels;
    r := Ok(provision);
  }
}
