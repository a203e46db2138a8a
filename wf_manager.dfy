/**
 * The workflow manager's control logic (src/beeflow/wf_manager.py): the
 * check of the hard-coded workflow id, the pause/resume flag with the task
 * saved while paused, the conversion of tasks for the scheduler, the task
 * status listing and the handling of a task-state update.  The graph
 * database behind `wfi` is an oracle (`Wfi`); what is sent to the task
 * manager and to the scheduler is recorded in logs.
 */
module WfManager {
  import opened Wrappers
  import opened PyText

  /** The fields of a workflow task the workflow manager reads. */
  datatype WfTask = WfTask(id: string, name: string)

  /** A task as the scheduler receives it. */
  datatype SchedTask = SchedTask(workflowName: string, taskName: string, maxRuntime: int, nodes: int)

  /** The only workflow id the handlers accept. */
  const WorkflowId := 42

  const NotFound := Response("", "wf_id not found", 404)

  /**
   * `validate_wf_id`: `int(wf_id)` raises on a non-number; any id but 42 is
   * answered with 404 before the handler runs; `Ok(None)` lets the handler run.
   */
  function ValidateWfId(wfId: string): (r: Result<Option<Response>>)
    ensures r.Err? <==> ParseInt(wfId).None?
    ensures r == Ok(None) <==> ParseInt(wfId) == Some(WorkflowId)
    ensures r.Ok? && r.value.Some? ==> r.value.value == NotFound
  {
    match ParseInt(wfId)
    case None => Err("ValueError: invalid literal for int() with base 10")
    case Some(n) => if n != WorkflowId then Ok(Some(NotFound)) else Ok(None)
  }

  /** The decimal text of 42 passes the check; that of any other number is refused with 404. */
  lemma ValidateWfIdNumbers(n: int)
    ensures ValidateWfId(IntToString(n)) == if n == WorkflowId then Ok(None) else Ok(Some(NotFound))
  {
    ParseIntToString(n);
  }

  // ---------------------------------------------------------------------
  // Submitting to the task manager
  // ---------------------------------------------------------------------

  /** The argument of `submit_tasks_tm`: a list of tasks, or a single task object. */
  datatype TmArg = Tasks(ts: seq<WfTask>) | Single(t: WfTask)

  function Names(ts: seq<WfTask>): (r: seq<string>)
    ensures |r| == |ts| && forall k :: 0 <= k < |ts| ==> r[k] == ts[k].name
  {
    seq(|ts|, k requires 0 <= k < |ts| => ts[k].name)
  }

  /**
   * `submit_tasks_tm`: the names of the submitted tasks, collected by
   * iterating over the argument; a single task object is not iterable.
   */
  function SubmitTasksTm(arg: TmArg): (r: Result<seq<string>>)
    ensures r.Err? <==> arg.Single?
    ensures arg.Tasks? ==> r.Ok? && |r.value| == |arg.ts|
  {
    match arg
    case Single(_) => Err("TypeError: 'Task' object is not iterable")
    case Tasks(ts) => Ok(Names(ts))
  }

  /**
   * `resume` as written: the saved task itself is passed to
   * `submit_tasks_tm`.  The outcome of the submission and the saved task afterwards.
   */
  function ResumeAsWritten(saved: Option<WfTask>): (Result<seq<string>>, Option<WfTask>) {
    if saved.None? then (Ok([]), None)
    else
      var sub := SubmitTasksTm(Single(saved.value));
      if sub.Err? then (sub, saved) else (sub, None)
  }

  /**
   * As written, resuming with a saved task raises before anything reaches
   * the task manager, and the task stays saved.
   */
  lemma ResumeSavedTaskFails(t: WfTask)
    ensures ResumeAsWritten(Some(t)).0.Err?
    ensures ResumeAsWritten(Some(t)).1 == Some(t)
  {
  }

  /** `resume` sending the saved task as a one-element list. */
  function ResumeFixed(saved: Option<WfTask>): (r: (Result<seq<string>>, Option<WfTask>))
    ensures r.1 == None
    ensures r.0 == Ok(if saved.Some? then [saved.value.name] else [])
  {
    if saved.None? then (Ok([]), None)
    else
      var sub := SubmitTasksTm(Tasks([saved.value]));
      var names := Names([saved.value]);
      assert |names| == 1 && names[0] == saved.value.name;
      assert names == [saved.value.name];
      (sub, None)
  }

  // ---------------------------------------------------------------------
  // Scheduler tasks and the status listing
  // ---------------------------------------------------------------------

  /** `tasks_to_sched`: one scheduler task per task, in order, with fixed requirements. */
  method TasksToSched(tasks: seq<WfTask>) returns (sched: seq<SchedTask>)
    ensures |sched| == |tasks|
    ensures forall k :: 0 <= k < |tasks| ==> sched[k] == SchedTask("workflow", tasks[k].name, 1, 1)
  {
    sched := [];
    for i := 0 to |tasks|
      invariant |sched| == i
      invariant forall k :: 0 <= k < i ==> sched[k] == SchedTask("workflow", tasks[k].name, 1, 1)
    {
      sched := sched + [SchedTask("workflow", tasks[i].name, 1, 1)];
    }
  }

  /** The tasks every workflow has around the user's tasks. */
  predicate Hidden(t: WfTask) {
    t.name == "bee_init" || t.name == "bee_exit"
  }

  function StatusLine(t: WfTask, state: string): string {
    t.name + "--" + state + "\n"
  }

  /** The status text of the first tasks, built as the loop of `JobActions.get` does. */
  function StatusText(ts: seq<WfTask>, stateOf: WfTask -> string): string
    decreases |ts|
  {
    if ts == [] then ""
    else
      var last := ts[|ts| - 1];
      StatusText(ts[..|ts| - 1], stateOf) + (if Hidden(last) then "" else StatusLine(last, stateOf(last)))
  }

  /** The tasks other than the two hidden ones, in order. */
  function Visible(ts: seq<WfTask>): (r: seq<WfTask>)
    ensures forall t :: t in r <==> t in ts && !Hidden(t)
  {
    if ts == [] then []
    else (if Hidden(ts[0]) then [] else [ts[0]]) + Visible(ts[1..])
  }

  /** One status line per task, in order. */
  function Lines(ts: seq<WfTask>, stateOf: WfTask -> string): string {
    if ts == [] then "" else StatusLine(ts[0], stateOf(ts[0])) + Lines(ts[1..], stateOf)
  }

  lemma {:induction false} LinesSnoc(ts: seq<WfTask>, t: WfTask, stateOf: WfTask -> string)
    ensures Lines(ts + [t], stateOf) == Lines(ts, stateOf) + StatusLine(t, stateOf(t))
    decreases |ts|
  {
    if ts == [] {
      assert [] + [t] == [t];
      assert [t][1..] == [];
    } else {
      assert (ts + [t])[1..] == ts[1..] + [t];
      LinesSnoc(ts[1..], t, stateOf);
    }
  }

  lemma {:induction false} VisibleSnoc(ts: seq<WfTask>, t: WfTask)
    ensures Visible(ts + [t]) == Visible(ts) + (if Hidden(t) then [] else [t])
    decreases |ts|
  {
    if ts == [] {
      assert [] + [t] == [t];
      assert [t][1..] == [];
    } else {
      assert (ts + [t])[1..] == ts[1..] + [t];
      VisibleSnoc(ts[1..], t);
    }
  }

  /** The status text is one `name--state` line per task other than `bee_init` and `bee_exit`, in order. */
  lemma {:induction false} StatusTextLines(ts: seq<WfTask>, stateOf: WfTask -> string)
    ensures StatusText(ts, stateOf) == Lines(Visible(ts), stateOf)
    decreases |ts|
  {
    if ts != [] {
      var front, last := ts[..|ts| - 1], ts[|ts| - 1];
      StatusTextLines(front, stateOf);
      assert front + [last] == ts;
      VisibleSnoc(front, last);
      if !Hidden(last) {
        LinesSnoc(Visible(front), last, stateOf);
      } else {
        assert Visible(front) + [] == Visible(front);
      }
    }
  }

  /** `JobActions.get`: the status of every task but the two hidden ones. */
  method JobActionsGet(wfId: string, tasks: seq<WfTask>, stateOf: WfTask -> string) returns (r: Result<Response>)
    ensures ValidateWfId(wfId).Err? ==> r.Err?
    ensures ValidateWfId(wfId) == Ok(Some(NotFound)) ==> r == Ok(NotFound)
    ensures ValidateWfId(wfId) == Ok(None) ==> r == Ok(Response(Lines(Visible(tasks), stateOf), "ok", 200))
  {
    var v := ValidateWfId(wfId);
    if v.Err? {
      return Err(v.error);
    }
    if v.value.Some? {
      return Ok(v.value.value);
    }
    var status := "";
    for i := 0 to |tasks|
      invariant status == StatusText(tasks[..i], stateOf)
    {
      assert tasks[..i + 1][..i] == tasks[..i];
      var task := tasks[i];
      if task.name != "bee_init" && task.name != "bee_exit" {
        status := status + StatusLine(task, stateOf(task));
      }
    }
    assert tasks[..|tasks|] == tasks;
    StatusTextLines(tasks, stateOf);
    r := Ok(Response(status, "ok", 200));
  }

  // ---------------------------------------------------------------------
  // Task-state updates
  // ---------------------------------------------------------------------

  /** The graph database as the update handler sees it. */
  datatype Wfi = Wfi(
    tasks: map<string, WfTask>,        // `get_task_by_id`
    finalize: WfTask -> seq<WfTask>,   // `finalize_task`: the tasks made ready
    completed: bool)                   // `workflow_completed` after the update

  /** What `JobUpdate.put` does after setting the state. */
  datatype UpdateAction = NoAction | SaveTask | Submit(ready: seq<WfTask>)

  /**
   * Only COMPLETED finalizes the task.  While paused the task is saved;
   * otherwise the ready tasks are submitted unless the workflow is complete
   * or none is ready.
   */
  function UpdateDecision(jobState: string, paused: bool, completed: bool, ready: seq<WfTask>): (r: UpdateAction)
    ensures r == SaveTask <==> jobState == "COMPLETED" && paused
    ensures r.Submit? <==> jobState == "COMPLETED" && !paused && !completed && ready != []
    ensures r.Submit? ==> r.ready == ready
  {
    if jobState != "COMPLETED" then NoAction
    else if paused then SaveTask
    else if completed || ready == [] then NoAction
    else Submit(ready)
  }

  /** The workflow manager's globals and what it has sent to the other services. */
  class WorkflowManager {
    var paused: bool
    var saved: Option<WfTask>
    var states: map<string, string>
    var tmLog: seq<seq<WfTask>>
    var schedLog: seq<seq<SchedTask>>

    /** A saved task exists only while the workflow is paused. */
    ghost predicate SavedOnlyWhilePaused()
      reads this
    {
      saved.Some? ==> paused
    }

    constructor()
      ensures SavedOnlyWhilePaused()
      ensures !paused && saved == None && states == map[] && tmLog == [] && schedLog == []
    {
      paused := false;
      saved := None;
      states := map[];
      tmLog := [];
      schedLog := [];
    }

    /** `save_task`: the task replaces any saved before. */
    method SaveTaskOf(task: WfTask)
      modifies this
      ensures saved == Some(task)
      ensures paused == old(paused) && states == old(states) && tmLog == old(tmLog) && schedLog == old(schedLog)
    {
      saved := Some(task);
    }

    /**
     * `resume` as written: a saved task is passed itself to
     * `submit_tasks_tm`, which fails on collecting its names, before the
     * request to the task manager and before the task is cleared.
     */
    method Resume() returns (r: Result<seq<string>>)
      modifies this
      ensures (r, saved) == ResumeAsWritten(old(saved))
      ensures paused == old(paused) && states == old(states) && tmLog == old(tmLog) && schedLog == old(schedLog)
    {
      if saved.Some? {
        r := SubmitTasksTm(Single(saved.value));
        if r.Err? {
          return;
        }
      } else {
        r := Ok([]);
      }
      saved := None;
    }

    /**
     * `JobActions.patch`: 'pause' sets the flag; 'resume' clears a set flag
     * and resumes the saved task, which as written raises when a task is
     * saved (the request fails, the flag stays cleared and the task saved);
     * any other option is refused with 400.
     */
    method Patch(wfId: string, option: Option<string>) returns (r: Result<Response>)
      modifies this
      ensures ValidateWfId(wfId).Err? ==> r.Err?
      ensures ValidateWfId(wfId) != Ok(None) ==> unchanged(this)
      ensures ValidateWfId(wfId) == Ok(Some(NotFound)) ==> r == Ok(NotFound)
      ensures ValidateWfId(wfId) == Ok(None) && option == Some("pause") ==>
        && r == Ok(Response("", "Workflow Paused", 200))
        && paused && saved == old(saved) && tmLog == old(tmLog)
      ensures ValidateWfId(wfId) == Ok(None) && option == Some("resume") ==>
        && !paused && tmLog == old(tmLog)
        && (old(paused) && old(saved).Some? ==> r.Err? && saved == old(saved))
        && (!(old(paused) && old(saved).Some?) ==>
              r == Ok(Response("", "Workflow Resumed", 200)) && saved == (if old(paused) then None else old(saved)))
      ensures ValidateWfId(wfId) == Ok(None) && option != Some("pause") && option != Some("resume") ==>
        r == Ok(Response("", "Invalid option for pause/resume", 400)) && unchanged(this)
      ensures states == old(states) && schedLog == old(schedLog)
    {
      var v := ValidateWfId(wfId);
      if v.Err? {
        return Err(v.error);
      }
      if v.value.Some? {
        return Ok(v.value.value);
      }
      if option == Some("pause") {
        paused := true;
        return Ok(Response("", "Workflow Paused", 200));
      }
      if option == Some("resume") {
        if paused {
          paused := false;
          var resumed := Resume();
          if resumed.Err? {
            return Err(resumed.error);
          }
        }
        return Ok(Response("", "Workflow Resumed", 200));
      }
      r := Ok(Response("", "Invalid option for pause/resume", 400));
    }

    /**
     * `JobUpdate.put`: the reported state is always set; a COMPLETED task is
     * finalized, then saved while paused, or its ready tasks are sent to the
     * scheduler and then to the task manager.
     */
    method JobUpdatePut(taskId: string, jobState: string, wfi: Wfi) returns (r: Result<Response>)
      modifies this
      ensures taskId !in wfi.tasks ==> r.Err? && unchanged(this)
      ensures taskId in wfi.tasks ==>
        var task := wfi.tasks[taskId];
        var act := UpdateDecision(jobState, old(paused), wfi.completed, wfi.finalize(task));
        && r == Ok(Response("", "Task " + taskId + " set to " + jobState, 200))
        && states == old(states)[taskId := jobState]
        && paused == old(paused)
        && saved == (if act == SaveTask then Some(task) else old(saved))
        && tmLog == old(tmLog) + (if act.Submit? then [act.ready] else [])
        && |schedLog| == |old(schedLog)| + (if act.Submit? then 1 else 0)
        && schedLog[..|old(schedLog)|] == old(schedLog)
        && (act.Submit? ==> |schedLog[|old(schedLog)|]| == |act.ready| && forall k :: 0 <= k < |act.ready| ==>
              schedLog[|old(schedLog)|][k] == SchedTask("workflow", act.ready[k].name, 1, 1))
      ensures old(SavedOnlyWhilePaused()) ==> SavedOnlyWhilePaused()
    {
      if taskId !in wfi.tasks {
        return Err("TypeError: 'NoneType' object is not subscriptable");
      }
      var task := wfi.tasks[taskId];
      states := states[taskId := jobState];
      if jobState == "COMPLETED" {
        var ready := wfi.finalize(task);
        if paused {
          SaveTaskOf(task);
        } else if !wfi.completed && ready != [] {
          var sched := TasksToSched(ready);
          schedLog := schedLog + [sched];
          tmLog := tmLog + [ready];
        }
      }
      r := Ok(Response("", "Task " + taskId + " set to " + jobState, 200));
    }
  }
}
