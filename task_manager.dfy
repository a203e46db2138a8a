/**
 * The task manager's queues (beeflow/task_manager/task_manager.py): tasks
 * received from the workflow manager wait in `submit_queue`, are submitted
 * to the batch worker, and are then monitored in `job_queue` until they
 * finish. The worker is an oracle (`Worker`), and each `update_task_state`
 * call to the workflow manager is recorded in a log instead of being sent.
 */
module TaskManager {
  import opened Wrappers
  import opened PyText

  /** The fields of a task the task manager reads. */
  datatype TmTask = TmTask(id: string, name: string)

  /** An entry of `job_queue`: `{task_id: {'name': name, 'job_id': job_id, 'job_state': job_state}}`. */
  datatype Job = Job(taskId: string, name: string, jobId: int, jobState: string)

  /** One `update_task_state(task_id, job_state)` call. */
  datatype Update = Update(taskId: string, jobState: string)

  /**
   * The batch worker: `submit_task(task)` gives `(job_id, job_state)`,
   * `query_task(job_id)` gives `(status, job_state)`, and
   * `cancel_task(job_id)` gives `(success, job_state)`, `success` as the
   * text the message shows.
   */
  datatype Worker = Worker(submit: TmTask -> (int, string), query: int -> (int, string), cancel: int -> (string, string))

  const SubmitFail := "SUBMIT_FAIL"
  const Zombie := "ZOMBIE"

  // ------------------------------------------------------------ submit

  /** The state reported for a submitted task: `SUBMIT_FAIL` when the worker's job id is -1. */
  function SubmitState(w: Worker, entry: (string, TmTask)): string {
    if w.submit(entry.1).0 == -1 then SubmitFail else w.submit(entry.1).1
  }

  /** The jobs `submit_jobs` starts monitoring for the entries `q`, in order. */
  function SubmittedJobs(w: Worker, q: seq<(string, TmTask)>): (r: seq<Job>)
    ensures |r| <= |q|
  {
    if q == [] then []
    else
      var e := q[|q| - 1];
      var rest := SubmittedJobs(w, q[..|q| - 1]);
      if w.submit(e.1).0 == -1 then rest else rest + [Job(e.0, e.1.name, w.submit(e.1).0, w.submit(e.1).1)]
  }

  /** The `update_task_state` calls `submit_jobs` makes for the entries `q`, in order. */
  function SubmitUpdates(w: Worker, q: seq<(string, TmTask)>): seq<Update> {
    if q == [] then []
    else SubmitUpdates(w, q[..|q| - 1]) + [Update(q[|q| - 1].0, SubmitState(w, q[|q| - 1]))]
  }

  /** Each task taken from the submit queue is reported exactly once, in queue order. */
  lemma {:induction false} SubmitUpdatesOnePerTask(w: Worker, q: seq<(string, TmTask)>)
    ensures |SubmitUpdates(w, q)| == |q|
    ensures forall k :: 0 <= k < |q| ==> SubmitUpdates(w, q)[k] == Update(q[k].0, SubmitState(w, q[k]))
  {
    if q != [] {
      SubmitUpdatesOnePerTask(w, q[..|q| - 1]);
    }
  }

  /**
   * A job is monitored exactly when it comes from a task whose submission
   * gave a job id other than -1, under that task's id and name, with the
   * job id and state the worker gave.
   */
  lemma {:induction false} SubmittedJobsSucceeded(w: Worker, q: seq<(string, TmTask)>)
    ensures forall j :: j in SubmittedJobs(w, q) <==>
      (exists k :: 0 <= k < |q| && w.submit(q[k].1).0 != -1 && j == Job(q[k].0, q[k].1.name, w.submit(q[k].1).0, w.submit(q[k].1).1))
  {
    if q != [] {
      var p := q[..|q| - 1];
      SubmittedJobsSucceeded(w, p);
      assert forall k :: 0 <= k < |p| ==> p[k] == q[k];
    }
  }

  // ------------------------------------------------------- update_jobs

  /** `state[1]` when the worker's query gives `(1, state)`; `ZOMBIE` for anything else. */
  function QueryState(w: Worker, jobId: int): string {
    if w.query(jobId).0 == 1 then w.query(jobId).1 else Zombie
  }

  predicate Terminal(s: string) {
    s == "COMPLETED" || s == "CANCELLED" || s == Zombie
  }

  /** The job with the state the worker now reports. */
  function Refreshed(w: Worker, job: Job): Job {
    job.(jobState := QueryState(w, job.jobId))
  }

  /** `list.remove(x)`: the list without the first element equal to `x`. */
  function RemoveFirst(q: seq<Job>, x: Job): (r: seq<Job>)
    requires x in q
    ensures |r| == |q| - 1
  {
    if q[0] == x then q[1..]
    else
      assert x in q[1..] by {
        var k :| 0 <= k < |q| && q[k] == x;
        assert q[1..][k - 1] == x;
      }
      [q[0]] + RemoveFirst(q[1..], x)
  }

  lemma {:induction false} RemoveFirstMembers(q: seq<Job>, x: Job)
    requires x in q
    ensures forall y :: y in RemoveFirst(q, x) ==> y in q
  {
    if q[0] != x {
      assert x in q[1..] by {
        var k :| 0 <= k < |q| && q[k] == x;
        assert q[1..][k - 1] == x;
      }
      RemoveFirstMembers(q[1..], x);
    }
  }

  /**
   * `update_jobs` as written: the `for job in job_queue` loop by index,
   * over the list it removes finished jobs from (`q`), with the calls made
   * so far. A removal moves the next job into the place just visited, so
   * the loop does not visit it.
   */
  function UpdateRun(w: Worker, q: seq<Job>, i: nat, sent: seq<Update>): (r: (seq<Job>, seq<Update>))
    decreases |q| - i
  {
    if i >= |q| then (q, sent)
    else
      var job := q[i];
      var s := QueryState(w, job.jobId);
      var current := if s != job.jobState then job.(jobState := s) else job;
      var q1 := q[i := current];
      var sent1 := if s != job.jobState then sent + [Update(job.taskId, s)] else sent;
      assert q1[i] == current;
      var q2 := if Terminal(s) then RemoveFirst(q1, current) else q1;
      UpdateRun(w, q2, i + 1, sent1)
  }

  /** A job of `q0`, as it was or with the state the worker reports. */
  ghost predicate Known(w: Worker, x: Job, q0: seq<Job>) {
    exists y :: y in q0 && (x == y || x == Refreshed(w, y))
  }

  /** A call reporting a job of `q0` whose state the worker reports as changed. */
  ghost predicate Reports(w: Worker, u: Update, q0: seq<Job>) {
    exists y :: y in q0 && QueryState(w, y.jobId) != y.jobState && u == Update(y.taskId, QueryState(w, y.jobId))
  }

  /**
   * `update_jobs` keeps in the queue only jobs it was given, each as it was
   * or with the state the worker reports, and notifies the workflow manager
   * only of jobs whose reported state differs from the stored one, with
   * that new state.
   */
  lemma {:induction false} UpdateRunSound(w: Worker, q: seq<Job>, i: nat, sent: seq<Update>, q0: seq<Job>, sent0: seq<Update>)
    requires forall x :: x in q ==> Known(w, x, q0)
    requires forall u :: u in sent ==> u in sent0 || Reports(w, u, q0)
    ensures forall x :: x in UpdateRun(w, q, i, sent).0 ==> Known(w, x, q0)
    ensures forall u :: u in UpdateRun(w, q, i, sent).1 ==> u in sent0 || Reports(w, u, q0)
    decreases |q| - i
  {
    if i < |q| {
      var job := q[i];
      var s := QueryState(w, job.jobId);
      var current := if s != job.jobState then job.(jobState := s) else job;
      var q1 := q[i := current];
      var sent1 := if s != job.jobState then sent + [Update(job.taskId, s)] else sent;
      assert q1[i] == current && job in q;
      var q2 := if Terminal(s) then RemoveFirst(q1, current) else q1;
      var y :| y in q0 && (job == y || job == Refreshed(w, y));
      assert current == Refreshed(w, y);
      forall x | x in q1
        ensures Known(w, x, q0)
      {
        if x != current {
          var k :| 0 <= k < |q1| && q1[k] == x;
          assert q[k] == x;
        }
      }
      if s != job.jobState {
        assert job == y;
        assert Reports(w, Update(job.taskId, s), q0);
      }
      if Terminal(s) {
        RemoveFirstMembers(q1, current);
      }
      UpdateRunSound(w, q2, i + 1, sent1, q0, sent0);
    }
  }

  /** Every job appears in the queue `update_jobs` begins with, as it was. */
  lemma UpdateJobsSound(w: Worker, q: seq<Job>, sent: seq<Update>)
    ensures forall x :: x in UpdateRun(w, q, 0, sent).0 ==> Known(w, x, q)
    ensures forall u :: u in UpdateRun(w, q, 0, sent).1 ==> u in sent || Reports(w, u, q)
  {
    UpdateRunSound(w, q, 0, sent, q, sent);
  }

  /**
   * `update_jobs` as evidently intended, visiting every job: the jobs kept,
   * with their new states, and the calls made, in queue order.
   */
  function UpdateAll(w: Worker, q: seq<Job>): (r: (seq<Job>, seq<Update>)) {
    if q == [] then ([], [])
    else
      var job := q[0];
      var s := QueryState(w, job.jobId);
      var rest := UpdateAll(w, q[1..]);
      ((if Terminal(s) then [] else [Refreshed(w, job)]) + rest.0,
       (if s != job.jobState then [Update(job.taskId, s)] else []) + rest.1)
  }

  /**
   * Visiting every job, a job stays queued, with the state the worker
   * reports, exactly when that state is not final, and the workflow manager
   * hears exactly of the jobs whose state changed.
   */
  lemma {:induction false} UpdateAllEvery(w: Worker, q: seq<Job>)
    ensures forall x :: x in UpdateAll(w, q).0 <==> (exists y :: y in q && !Terminal(QueryState(w, y.jobId)) && x == Refreshed(w, y))
    ensures forall u :: u in UpdateAll(w, q).1 <==> Reports(w, u, q)
  {
    if q != [] {
      UpdateAllEvery(w, q[1..]);
      assert forall y :: y in q <==> y == q[0] || y in q[1..];
    }
  }

  /** A worker that reports job 1 as completed and every other job as running. */
  const FirstDone := Worker(t => (-1, ""), id => if id == 1 then (1, "COMPLETED") else (1, "RUNNING"), id => ("", ""))

  /**
   * With jobs 1 and 2 queued and job 1 reported completed, `update_jobs`
   * removes job 1 and never looks at job 2: it stays `PENDING` and the
   * workflow manager is not told it is running. Visiting every job, it is.
   */
  lemma UpdateJobsSkipsNext()
    ensures UpdateRun(FirstDone, [Job("a", "a", 1, "RUNNING"), Job("b", "b", 2, "PENDING")], 0, []) ==
      ([Job("b", "b", 2, "PENDING")], [Update("a", "COMPLETED")])
    ensures UpdateAll(FirstDone, [Job("a", "a", 1, "RUNNING"), Job("b", "b", 2, "PENDING")]) ==
      ([Job("b", "b", 2, "RUNNING")], [Update("a", "COMPLETED"), Update("b", "RUNNING")])
  {
    var a, b := Job("a", "a", 1, "RUNNING"), Job("b", "b", 2, "PENDING");
    var a' := a.(jobState := "COMPLETED");
    var b' := b.(jobState := "RUNNING");
    assert QueryState(FirstDone, 1) == "COMPLETED" && QueryState(FirstDone, 2) == "RUNNING";
    assert "RUNNING"[0] != "PENDING"[0];
    assert "COMPLETED" != a.jobState && Terminal("COMPLETED") && !Terminal("RUNNING");
    assert [a, b][0 := a'] == [a', b];
    assert RemoveFirst([a', b], a') == [b];
    assert UpdateRun(FirstDone, [a, b], 0, []) == UpdateRun(FirstDone, [b], 1, [] + [Update("a", "COMPLETED")]);
    assert [b][1..] == [] && [a, b][1..] == [b];
    assert UpdateRun(FirstDone, [b], 1, [Update("a", "COMPLETED")]) == ([b], [Update("a", "COMPLETED")]);
    assert [] + [Update("a", "COMPLETED")] == [Update("a", "COMPLETED")];
    assert UpdateAll(FirstDone, []) == ([], []);
    assert UpdateAll(FirstDone, [b]) == ([b'] + [], [Update("b", "RUNNING")] + []);
    assert UpdateAll(FirstDone, [a, b]) == ([] + UpdateAll(FirstDone, [b]).0, [Update("a", "COMPLETED")] + UpdateAll(FirstDone, [b]).1);
    assert [b'] + [] == [b'] && [] + [b'] == [b'];
    assert [Update("b", "RUNNING")] + [] == [Update("b", "RUNNING")];
    assert [Update("a", "COMPLETED")] + [Update("b", "RUNNING")] == [Update("a", "COMPLETED"), Update("b", "RUNNING")];
  }

  // ------------------------------------------------------------ delete

  /** The part of the cancel message for one job: `f"{name} {task_id} {success} {job_id} {job_state}"`. */
  function CancelEntry(w: Worker, job: Job): string {
    job.name + " " + job.taskId + " " + w.cancel(job.jobId).0 + " " + IntToString(job.jobId) + " " + w.cancel(job.jobId).1
  }

  /**
   * `TaskActions.delete` as written: the `for job in job_queue` loop by
   * index over the list it removes each job from, with the message and the
   * job ids cancelled so far.
   */
  function DeleteRun(w: Worker, q: seq<Job>, i: nat, msg: string, cancelled: seq<int>): (r: (seq<Job>, string, seq<int>))
    decreases |q| - i
  {
    if i >= |q| then (q, msg, cancelled)
    else
      var job := q[i];
      DeleteRun(w, RemoveFirst(q, job), i + 1, msg + CancelEntry(w, job), cancelled + [job.jobId])
  }

  /** The elements at odd positions: `s[1], s[3], ...`. */
  function Odds<T>(s: seq<T>): seq<T> {
    if |s| < 2 then [] else [s[1]] + Odds(s[2..])
  }

  /** The elements at even positions: `s[0], s[2], ...`. */
  function Evens<T>(s: seq<T>): seq<T> {
    if s == [] then [] else [s[0]] + (if |s| < 2 then [] else Evens(s[2..]))
  }

  function JobIds(q: seq<Job>): (r: seq<int>)
    ensures |r| == |q| && forall k :: 0 <= k < |q| ==> r[k] == q[k].jobId
  {
    seq(|q|, k requires 0 <= k < |q| => q[k].jobId)
  }

  lemma RemoveFirstAfter(pre: seq<Job>, x: Job, rest: seq<Job>)
    requires x !in pre
    ensures RemoveFirst(pre + [x] + rest, x) == pre + rest
    decreases |pre|
  {
    if pre != [] {
      assert (pre + [x] + rest)[1..] == pre[1..] + [x] + rest;
      RemoveFirstAfter(pre[1..], x, rest);
      assert pre == [pre[0]] + pre[1..];
    }
  }

  lemma DistinctSkip(pre: seq<Job>, x: Job, y: Job, rest: seq<Job>)
    requires Distinct(pre + [x, y] + rest)
    ensures x !in pre && Distinct((pre + [y]) + rest)
  {
    var s := pre + [x, y] + rest;
    var t := (pre + [y]) + rest;
    forall k | 0 <= k < |pre|
      ensures pre[k] != x
    {
      assert s[k] == pre[k] && s[|pre|] == x;
    }
    forall i, j | 0 <= i < j < |t|
      ensures t[i] != t[j]
    {
      var i' := if i < |pre| then i else i + 1;
      var j' := if j < |pre| then j else j + 1;
      assert t[i] == s[i'] && t[j] == s[j'];
    }
  }

  lemma DistinctLast(pre: seq<Job>, x: Job)
    requires Distinct(pre + [x])
    ensures x !in pre
  {
    forall k | 0 <= k < |pre|
      ensures pre[k] != x
    {
      assert (pre + [x])[k] == pre[k] && (pre + [x])[|pre|] == x;
    }
  }

  lemma DeleteRunStep(w: Worker, q: seq<Job>, i: nat, msg: string, cancelled: seq<int>)
    requires i < |q|
    ensures DeleteRun(w, q, i, msg, cancelled) ==
      DeleteRun(w, RemoveFirst(q, q[i]), i + 1, msg + CancelEntry(w, q[i]), cancelled + [q[i].jobId])
  {
  }

  /** Removing the job at position `|pre|` brings the following job to that position. */
  lemma DeleteRunSkip(w: Worker, pre: seq<Job>, x: Job, y: Job, rest: seq<Job>, msg: string, cancelled: seq<int>)
    requires Distinct(pre + [x, y] + rest)
    ensures DeleteRun(w, pre + [x, y] + rest, |pre|, msg, cancelled) ==
      DeleteRun(w, pre + [y] + rest, |pre| + 1, msg + CancelEntry(w, x), cancelled + [x.jobId])
  {
    var q := pre + [x, y] + rest;
    assert q[|pre|] == x;
    DeleteRunStep(w, q, |pre|, msg, cancelled);
    assert q == pre + [x] + ([y] + rest);
    DistinctSkip(pre, x, y, rest);
    RemoveFirstAfter(pre, x, [y] + rest);
    assert pre + ([y] + rest) == pre + [y] + rest;
  }

  /** Removing the last job ends the loop. */
  lemma DeleteRunLast(w: Worker, pre: seq<Job>, x: Job, msg: string, cancelled: seq<int>)
    requires Distinct(pre + [x])
    ensures DeleteRun(w, pre + [x], |pre|, msg, cancelled) == (pre, msg + CancelEntry(w, x), cancelled + [x.jobId])
  {
    var q := pre + [x];
    assert q[|pre|] == x;
    DeleteRunStep(w, q, |pre|, msg, cancelled);
    assert q == pre + [x] + [];
    DistinctLast(pre, x);
    RemoveFirstAfter(pre, x, []);
    assert RemoveFirst(q, x) == pre;
  }

  /** The jobs the loop of `delete` keeps: those at odd positions of the rest. */
  lemma {:induction false} DeleteRunKeepsOdds(w: Worker, pre: seq<Job>, suf: seq<Job>, msg: string, cancelled: seq<int>)
    requires Distinct(pre + suf)
    ensures DeleteRun(w, pre + suf, |pre|, msg, cancelled).0 == pre + Odds(suf)
    decreases |suf|
  {
    if suf == [] {
      assert pre + suf == pre;
    } else if |suf| == 1 {
      var x := suf[0];
      assert pre + suf == pre + [x];
      DeleteRunLast(w, pre, x, msg, cancelled);
    } else {
      var x, y, rest := suf[0], suf[1], suf[2..];
      assert pre + suf == pre + [x, y] + rest;
      DeleteRunSkip(w, pre, x, y, rest, msg, cancelled);
      DistinctSkip(pre, x, y, rest);
      DeleteRunKeepsOdds(w, pre + [y], rest, msg + CancelEntry(w, x), cancelled + [x.jobId]);
      assert Odds(suf) == [y] + Odds(rest);
    }
  }

  lemma EvenIdsStep(suf: seq<Job>, x: Job, rest: seq<Job>, cancelled: seq<int>)
    requires |suf| >= 2 && x == suf[0] && rest == suf[2..]
    ensures cancelled + JobIds(Evens(suf)) == cancelled + [x.jobId] + JobIds(Evens(rest))
  {
    assert Evens(suf) == [x] + Evens(rest);
    var e := Evens(rest);
    assert JobIds([x] + e) == [x.jobId] + JobIds(e);
  }

  /** The jobs the loop of `delete` cancels: those at even positions of the rest. */
  lemma {:induction false} DeleteRunCancelsEvens(w: Worker, pre: seq<Job>, suf: seq<Job>, msg: string, cancelled: seq<int>)
    requires Distinct(pre + suf)
    ensures DeleteRun(w, pre + suf, |pre|, msg, cancelled).2 == cancelled + JobIds(Evens(suf))
    decreases |suf|
  {
    if suf == [] {
      assert pre + suf == pre;
    } else if |suf| == 1 {
      var x := suf[0];
      assert pre + suf == pre + [x];
      DeleteRunLast(w, pre, x, msg, cancelled);
      assert Evens(suf) == [x];
    } else {
      var x, y, rest := suf[0], suf[1], suf[2..];
      assert pre + suf == pre + [x, y] + rest;
      DeleteRunSkip(w, pre, x, y, rest, msg, cancelled);
      DistinctSkip(pre, x, y, rest);
      DeleteRunCancelsEvens(w, pre + [y], rest, msg + CancelEntry(w, x), cancelled + [x.jobId]);
      EvenIdsStep(suf, x, rest, cancelled);
    }
  }

  /**
   * With jobs all different, `delete` cancels and removes only the jobs at
   * even positions of the queue; those at odd positions stay queued, still
   * running.
   */
  lemma DeleteLeavesEveryOther(w: Worker, q: seq<Job>)
    requires Distinct(q)
    ensures DeleteRun(w, q, 0, "", []).0 == Odds(q)
    ensures DeleteRun(w, q, 0, "", []).2 == JobIds(Evens(q))
  {
    assert [] + q == q;
    DeleteRunKeepsOdds(w, [], q, "", []);
    DeleteRunCancelsEvens(w, [], q, "", []);
  }

  /** `delete` as evidently intended: every job cancelled, in queue order; the message and the job ids cancelled. */
  function DeleteAll(w: Worker, q: seq<Job>): (r: (string, seq<int>)) {
    if q == [] then ("", [])
    else
      var rest := DeleteAll(w, q[1..]);
      (CancelEntry(w, q[0]) + rest.0, [q[0].jobId] + rest.1)
  }

  /** Cancelling every job asks the worker to cancel each job of the queue once, in order. */
  lemma {:induction false} DeleteAllCancelsEvery(w: Worker, q: seq<Job>)
    ensures DeleteAll(w, q).1 == JobIds(q)
  {
    if q != [] {
      DeleteAllCancelsEvery(w, q[1..]);
      assert JobIds(q) == [q[0].jobId] + JobIds(q[1..]);
    }
  }

  // ------------------------------------------------------------ globals

  /** The module globals `submit_queue` and `job_queue`, and what has been sent to the workflow manager and the worker. */
  class Queues {
    var submitQueue: seq<(string, TmTask)>
    var jobQueue: seq<Job>
    /** The `update_task_state` calls made so far, in order. */
    var sent: seq<Update>
    /** The job ids the worker has been asked to cancel, in order. */
    var cancelled: seq<int>

    constructor ()
      ensures submitQueue == [] && jobQueue == [] && sent == [] && cancelled == []
    {
      submitQueue, jobQueue, sent, cancelled := [], [], [], [];
    }

    /** `update_task_state`: the call is made; its response only decides what is printed. */
    method UpdateTaskState(taskId: string, jobState: string)
      modifies this
      ensures sent == old(sent) + [Update(taskId, jobState)]
      ensures submitQueue == old(submitQueue) && jobQueue == old(jobQueue) && cancelled == old(cancelled)
    {
      sent := sent + [Update(taskId, jobState)];
    }

    /** `submit_jobs`: drain the submit queue in order, monitoring each job the worker accepted. */
    method SubmitJobs(w: Worker)
      modifies this
      ensures submitQueue == []
      ensures jobQueue == old(jobQueue) + SubmittedJobs(w, old(submitQueue))
      ensures sent == old(sent) + SubmitUpdates(w, old(submitQueue))
      ensures cancelled == old(cancelled)
    {
      ghost var q0 := submitQueue;
      ghost var k := 0;
      while |submitQueue| >= 1
        invariant 0 <= k <= |q0| && submitQueue == q0[k..]
        invariant jobQueue == old(jobQueue) + SubmittedJobs(w, q0[..k])
        invariant sent == old(sent) + SubmitUpdates(w, q0[..k])
        invariant cancelled == old(cancelled)
        decreases |submitQueue|
      {
        var temp := submitQueue[0];
        submitQueue := submitQueue[1..];
        var taskId := temp.0;
        var task := temp.1;
        var submitted := w.submit(task);
        var jobId := submitted.0;
        var jobState := submitted.1;
        if jobId == -1 {
          jobState := SubmitFail;
        } else {
          jobQueue := jobQueue + [Job(taskId, task.name, jobId, jobState)];
        }
        UpdateTaskState(taskId, jobState);
        assert q0[..k + 1][..k] == q0[..k] && q0[k] == temp;
        k := k + 1;
      }
      assert q0[..k] == q0;
    }

    /** `update_jobs`: query each job it visits, report changed states, drop finished jobs. */
    method UpdateJobs(w: Worker)
      modifies this
      ensures (jobQueue, sent) == UpdateRun(w, old(jobQueue), 0, old(sent))
      ensures submitQueue == old(submitQueue) && cancelled == old(cancelled)
    {
      var i := 0;
      while i < |jobQueue|
        invariant UpdateRun(w, jobQueue, i, sent) == UpdateRun(w, old(jobQueue), 0, old(sent))
        invariant submitQueue == old(submitQueue) && cancelled == old(cancelled)
        decreases |jobQueue| - i
      {
        var job := jobQueue[i];
        var taskId := job.taskId;
        var state := w.query(job.jobId);
        var jobState := if state.0 == 1 then state.1 else Zombie;
        var current := job;
        if jobState != current.jobState {
          current := current.(jobState := jobState);
          jobQueue := jobQueue[i := current];
          UpdateTaskState(taskId, jobState);
        } else {
          assert jobQueue[i := current] == jobQueue;
        }
        assert jobQueue[i] == current;
        if jobState == "COMPLETED" || jobState == "CANCELLED" || jobState == Zombie {
          jobQueue := RemoveFirst(jobQueue, current);
        }
        i := i + 1;
      }
    }

    /** `check_tasks`: one run of the background job. */
    method CheckTasks(w: Worker)
      modifies this
      ensures submitQueue == [] && cancelled == old(cancelled)
      ensures (jobQueue, sent) == UpdateRun(w, old(jobQueue) + SubmittedJobs(w, old(submitQueue)), 0,
                                            old(sent) + SubmitUpdates(w, old(submitQueue)))
    {
      SubmitJobs(w);
      UpdateJobs(w);
    }

    /** `TaskSubmit.post`: queue the decoded task under its id. */
    method Post(task: TmTask) returns (resp: Response)
      modifies this
      ensures submitQueue == old(submitQueue) + [(task.id, task)]
      ensures jobQueue == old(jobQueue) && sent == old(sent) && cancelled == old(cancelled)
      ensures resp == Response("Task Added!", "ok", 200)
    {
      submitQueue := submitQueue + [(task.id, task)];
      resp := Response("Task Added!", "ok", 200);
    }

    /** `TaskActions.delete`: remove and cancel each job the loop visits. */
    method Delete(w: Worker) returns (resp: Response)
      modifies this
      ensures (jobQueue, resp.msg, cancelled) == DeleteRun(w, old(jobQueue), 0, "", old(cancelled))
      ensures resp.status == "ok" && resp.code == 200
      ensures submitQueue == old(submitQueue) && sent == old(sent)
    {
      var cancelMsg := "";
      var i := 0;
      while i < |jobQueue|
        invariant DeleteRun(w, jobQueue, i, cancelMsg, cancelled) == DeleteRun(w, old(jobQueue), 0, "", old(cancelled))
        invariant submitQueue == old(submitQueue) && sent == old(sent)
        decreases |jobQueue| - i
      {
        var job := jobQueue[i];
        jobQueue := RemoveFirst(jobQueue, job);
        cancelled := cancelled + [job.jobId];
        cancelMsg := cancelMsg + CancelEntry(w, job);
        i := i + 1;
      }
      resp := Response(cancelMsg, "ok", 200);
    }
  }
}
