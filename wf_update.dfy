/**
 * The decisions of the workflow-update handler
 * (beeflow/wf_manager/resources/wf_update.py): what a task-state report
 * from the task manager writes into the graph interface and the workflow
 * database, when a checkpointed task is restarted or the workflow failed,
 * which outputs are set, when the ready tasks are submitted and when the
 * workflow is archived.  Both stores are maps; the graph interface's
 * queries are an oracle (`WfUpdateEnv`).
 */
module WfUpdate {
  import opened Wrappers

  datatype UOutput = UOutput(id: string, glob: Option<string>)
  datatype UTask = UTask(id: string, name: string, outputs: seq<UOutput>)

  /** Task metadata, a JSON object of strings. */
  type Metadata = map<string, string>

  /** A row `add_task(task_id, wf_id, name, state)` of the workflow database. */
  datatype TaskRow = TaskRow(taskId: string, wfId: string, name: string, state: string)

  /**
   * The stores the handler writes: the graph interface's task states,
   * metadata and output values; the database's task states, task rows and
   * workflow states; the workflow status files; the calls of
   * `schedule_submit_tasks`; the graph-database processes killed.
   */
  datatype Stores = Stores(
    gdbState: map<string, string>,
    metadata: map<string, Metadata>,
    outputs: map<(string, string), string>,
    dbState: map<(string, string), string>,
    dbTasks: seq<TaskRow>,
    dbWfState: map<string, string>,
    wfStatus: map<string, string>,
    submitted: seq<(string, seq<UTask>)>,
    killed: seq<int>)

  /** The graph interface's answers. */
  datatype WfUpdateEnv = WfUpdateEnv(
    tasks: map<string, UTask>,                 // `get_task_by_id`
    restart: (UTask, string) -> Option<UTask>,  // `restart_task(task, checkpoint_file)`
    finalize: UTask -> seq<UTask>,             // `finalize_task`: the tasks made ready
    wfState: string,                           // `get_workflow_state` after finalizing
    completed: bool,                           // `workflow_completed` after finalizing
    workflowId: string,                        // `wfi.workflow_id`
    gdbPid: string -> int)                     // `get_gdb_pid`

  /** The JSON body of the PUT request; absent optional fields are `None`. */
  datatype Request = Request(
    wfId: string, taskId: string, jobState: string,
    metadata: Option<Metadata>,
    taskInfo: Option<map<string, string>>)

  /** The old metadata updated with the new: new keys win, the others stay. */
  function Merge(prev: Metadata, upd: Metadata): (r: Metadata)
    ensures r.Keys == prev.Keys + upd.Keys
    ensures forall k :: k in upd ==> r[k] == upd[k]
    ensures forall k :: k in prev && k !in upd ==> r[k] == prev[k]
  {
    map k | k in prev.Keys + upd.Keys :: if k in upd then upd[k] else prev[k]
  }

  /** The metadata stored for a task, empty before any was set. */
  function MetadataOf(st: Stores, id: string): Metadata {
    if id in st.metadata then st.metadata[id] else map[]
  }

  /** The value an output gets when its task finishes: its glob, or "temp" without one. */
  function OutputValue(o: UOutput): (r: string)
    ensures o.glob.Some? ==> r == o.glob.value
    ensures o.glob.None? ==> r == "temp"
  {
    o.glob.GetOr("temp")
  }

  /** The output values of a finished task, set output by output. */
  function SetOutputs(outs: map<(string, string), string>, taskId: string, os: seq<UOutput>): (r: map<(string, string), string>)
    ensures forall k :: k in r <==> k in outs || (k.0 == taskId && exists o :: o in os && o.id == k.1)
    ensures forall k :: k in outs && (k.0 != taskId || forall o :: o in os ==> o.id != k.1) ==> r[k] == outs[k]
    decreases |os|
  {
    if os == [] then outs
    else
      var r := SetOutputs(outs[(taskId, os[0].id) := OutputValue(os[0])], taskId, os[1..]);
      assert forall o :: o in os[1..] ==> o in os;
      assert forall o :: o in os && o != os[0] ==> o in os[1..];
      r
  }

  /** An output of the task no later output shares an id with holds its glob, or "temp". */
  lemma {:induction false} SetOutputsValue(outs: map<(string, string), string>, taskId: string, os: seq<UOutput>, j: nat)
    requires j < |os| && forall m :: j < m < |os| ==> os[m].id != os[j].id
    ensures SetOutputs(outs, taskId, os)[(taskId, os[j].id)] == OutputValue(os[j])
    decreases |os|
  {
    var outs1 := outs[(taskId, os[0].id) := OutputValue(os[0])];
    if j == 0 {
      forall o | o in os[1..]
        ensures o.id != os[0].id
      {
        var m :| 0 <= m < |os[1..]| && os[1..][m] == o;
        assert os[m + 1] == o;
      }
      assert (taskId, os[0].id) in outs1;
    } else {
      SetOutputsValue(outs1, taskId, os[1..], j - 1);
    }
  }

  /** `archive_workflow`: the workflow is marked 'Archived' in the database and in its status. */
  function Archive(st: Stores, wfId: string): (r: Stores)
    ensures r.dbWfState == st.dbWfState[wfId := "Archived"] && r.wfStatus == st.wfStatus[wfId := "Archived"]
  {
    st.(dbWfState := st.dbWfState[wfId := "Archived"], wfStatus := st.wfStatus[wfId := "Archived"])
  }

  /** Archive the graph interface's workflow and kill its graph database. */
  function ArchiveAndKill(st: Stores, env: WfUpdateEnv): (r: Stores)
    ensures r == st.(dbWfState := st.dbWfState[env.workflowId := "Archived"],
                     wfStatus := st.wfStatus[env.workflowId := "Archived"],
                     killed := st.killed + [env.gdbPid(env.workflowId)])
  {
    var a := Archive(st, env.workflowId);
    a.(killed := a.killed + [env.gdbPid(env.workflowId)])
  }

  /** The state written into both stores, and the metadata merged. */
  function Record(st: Stores, req: Request): (r: Stores)
    ensures r.gdbState == st.gdbState[req.taskId := req.jobState]
    ensures r.dbState == st.dbState[(req.taskId, req.wfId) := req.jobState]
    ensures req.metadata.None? ==> r.metadata == st.metadata
    ensures req.metadata.Some? ==> r.metadata == st.metadata[req.taskId := Merge(MetadataOf(st, req.taskId), req.metadata.value)]
    ensures r.outputs == st.outputs && r.dbTasks == st.dbTasks && r.dbWfState == st.dbWfState
      && r.wfStatus == st.wfStatus && r.submitted == st.submitted && r.killed == st.killed
  {
    var s1 := st.(gdbState := st.gdbState[req.taskId := req.jobState],
                  dbState := st.dbState[(req.taskId, req.wfId) := req.jobState]);
    match req.metadata
    case None => s1
    case Some(m) =>
      // set_task_metadata(m), then the old metadata updated with m is set again
      var once := Merge(MetadataOf(s1, req.taskId), m);
      var twice := Merge(once, m);
      assert twice == once;
      s1.(metadata := s1.metadata[req.taskId := twice])
  }

  /** The outcome of a request, and the stores after it, also after an exception. */
  datatype Outcome = Outcome(stores: Stores, response: Result<Response>)

  /** A checkpointed task: restarted and submitted alone, or the workflow fails. */
  function Restart(s1: Stores, env: WfUpdateEnv, req: Request, task: UTask, checkpoint: string): (r: Outcome)
    ensures r.response.Ok? && r.response.value.code == 200
    ensures env.restart(task, checkpoint).None? ==>
      && r.stores == s1.(wfStatus := s1.wfStatus[req.wfId := "Failed"], dbWfState := s1.dbWfState[req.wfId := "Failed"])
      && r.stores.wfStatus[req.wfId] == "Failed" && r.stores.dbWfState[req.wfId] == "Failed"
    ensures env.restart(task, checkpoint).Some? ==>
      var nt := env.restart(task, checkpoint).value;
      r.stores == s1.(dbTasks := s1.dbTasks + [TaskRow(nt.id, req.wfId, nt.name, "WAITING")],
                      submitted := s1.submitted + [(req.wfId, [nt])])
  {
    match env.restart(task, checkpoint)
    case None =>
      Outcome(s1.(wfStatus := s1.wfStatus[req.wfId := "Failed"], dbWfState := s1.dbWfState[req.wfId := "Failed"]),
              Ok(Response("", "Task " + req.taskId + " set to " + req.jobState, 200)))
    case Some(nt) =>
      Outcome(s1.(dbTasks := s1.dbTasks + [TaskRow(nt.id, req.wfId, nt.name, "WAITING")],
                  submitted := s1.submitted + [(req.wfId, [nt])]),
              Ok(Response("", "Task {task_id} restarted", 200)))
  }

  /**
   * A COMPLETED or FAILED task: each output is set; the ready tasks are
   * submitted exactly when there are some and the workflow is not paused;
   * a completed or failed workflow is archived and its graph database killed.
   */
  function Finish(s1: Stores, env: WfUpdateEnv, req: Request, task: UTask): (r: Outcome)
    ensures var ready := env.finalize(task);
      var submit := ready != [] && env.wfState != "PAUSED";
      var archives := (if env.completed then 1 else 0) + (if env.wfState == "FAILED" then 1 else 0);
      && r.stores.outputs == SetOutputs(s1.outputs, task.id, task.outputs)
      && r.stores.submitted == s1.submitted + (if submit then [(req.wfId, ready)] else [])
      && |r.stores.killed| == |s1.killed| + archives
      && (archives > 0 ==>
            && env.workflowId in r.stores.dbWfState && r.stores.dbWfState[env.workflowId] == "Archived"
            && env.workflowId in r.stores.wfStatus && r.stores.wfStatus[env.workflowId] == "Archived")
      && (archives == 0 ==> r.stores.dbWfState == s1.dbWfState && r.stores.wfStatus == s1.wfStatus)
    ensures r.stores.dbTasks == s1.dbTasks && r.stores.gdbState == s1.gdbState
      && r.stores.dbState == s1.dbState && r.stores.metadata == s1.metadata
    ensures r.response.Ok? && r.response.value.code == 200
  {
    var s2 := s1.(outputs := SetOutputs(s1.outputs, task.id, task.outputs));
    var ready := env.finalize(task);
    var s3 := if ready != [] && env.wfState != "PAUSED" then s2.(submitted := s2.submitted + [(req.wfId, ready)]) else s2;
    var s4 := if env.completed then ArchiveAndKill(s3, env) else s3;
    var s5 := if env.wfState == "FAILED" then ArchiveAndKill(s4, env) else s4;
    var wfId := if env.completed || env.wfState == "FAILED" then env.workflowId else req.wfId;
    Outcome(s5, Ok(Response("", "Task " + req.taskId + " belonging to WF " + wfId + " set to" + req.jobState, 200)))
  }

  /** What follows the recording of the state; it leaves the recorded state and metadata alone. */
  function AfterRecord(s1: Stores, env: WfUpdateEnv, req: Request, task: UTask): (r: Outcome)
    ensures r.stores.gdbState == s1.gdbState && r.stores.dbState == s1.dbState && r.stores.metadata == s1.metadata
  {
    if req.taskInfo.Some? then
      if "checkpoint_file" !in req.taskInfo.value then Outcome(s1, Err("KeyError: 'checkpoint_file'"))
      else Restart(s1, env, req, task, req.taskInfo.value["checkpoint_file"])
    else if req.jobState == "COMPLETED" || req.jobState == "FAILED" then Finish(s1, env, req, task)
    else Outcome(s1, Ok(Response("", "Task " + req.taskId + " belonging to WF " + req.wfId + " set to" + req.jobState, 200)))
  }

  /** `WFUpdate.put` as a function of the stores before the request. */
  function PutOutcome(st: Stores, env: WfUpdateEnv, req: Request): Outcome {
    if req.taskId !in env.tasks then Outcome(st, Err("TypeError: 'NoneType' object is not subscriptable"))
    else AfterRecord(Record(st, req), env, req, env.tasks[req.taskId])
  }

  /** A request for a task the graph interface does not know changes nothing. */
  lemma PutUnknownTask(st: Stores, env: WfUpdateEnv, req: Request)
    requires req.taskId !in env.tasks
    ensures PutOutcome(st, env, req).stores == st && PutOutcome(st, env, req).response.Err?
  {
  }

  /**
   * The reported state is in both stores whatever else the request does,
   * and the new metadata is merged into the old: its keys take the new
   * values, the other keys keep theirs.
   */
  lemma PutRecordsState(st: Stores, env: WfUpdateEnv, req: Request)
    requires req.taskId in env.tasks
    ensures var r := PutOutcome(st, env, req).stores;
      && r.gdbState[req.taskId] == req.jobState
      && r.dbState[(req.taskId, req.wfId)] == req.jobState
      && (req.metadata.Some? ==>
            && req.taskId in r.metadata
            && (forall k :: k in req.metadata.value ==>
                  (k in r.metadata[req.taskId] && r.metadata[req.taskId][k] == req.metadata.value[k]))
            && (forall k :: k in MetadataOf(st, req.taskId) && k !in req.metadata.value ==>
                  (k in r.metadata[req.taskId] && r.metadata[req.taskId][k] == MetadataOf(st, req.taskId)[k])))
  {
    var s1 := Record(st, req);
    assert PutOutcome(st, env, req).stores.metadata == s1.metadata;
  }

  /**
   * With a checkpoint: when no restart is left the workflow is 'Failed' in
   * both stores and nothing is submitted; otherwise the new task is added
   * as WAITING and submitted alone.
   */
  lemma PutRestart(st: Stores, env: WfUpdateEnv, req: Request)
    requires req.taskId in env.tasks && req.taskInfo.Some? && "checkpoint_file" in req.taskInfo.value
    ensures var task := env.tasks[req.taskId];
      var nt := env.restart(task, req.taskInfo.value["checkpoint_file"]);
      var r := PutOutcome(st, env, req);
      && r.response.Ok? && r.response.value.code == 200
      && r.stores.outputs == st.outputs && r.stores.killed == st.killed
      && (nt.None? ==>
            && r.stores.wfStatus[req.wfId] == "Failed" && r.stores.dbWfState[req.wfId] == "Failed"
            && r.stores.submitted == st.submitted && r.stores.dbTasks == st.dbTasks)
      && (nt.Some? ==>
            && r.stores.dbTasks == st.dbTasks + [TaskRow(nt.value.id, req.wfId, nt.value.name, "WAITING")]
            && r.stores.submitted == st.submitted + [(req.wfId, [nt.value])]
            && r.stores.wfStatus == st.wfStatus && r.stores.dbWfState == st.dbWfState)
  {
  }

  /** A COMPLETED or FAILED task without checkpoint finishes as `Finish` says. */
  lemma PutFinished(st: Stores, env: WfUpdateEnv, req: Request)
    requires req.taskId in env.tasks && req.taskInfo.None?
    requires req.jobState == "COMPLETED" || req.jobState == "FAILED"
    ensures PutOutcome(st, env, req) == Finish(Record(st, req), env, req, env.tasks[req.taskId])
  {
  }

  /** Any other state, without checkpoint, only records the state and the metadata. */
  lemma PutOtherState(st: Stores, env: WfUpdateEnv, req: Request)
    requires req.taskId in env.tasks && req.taskInfo.None?
    requires req.jobState != "COMPLETED" && req.jobState != "FAILED"
    ensures PutOutcome(st, env, req).stores == Record(st, req)
    ensures PutOutcome(st, env, req).response.Ok? && PutOutcome(st, env, req).response.value.code == 200
  {
  }

  /**
   * The `WFUpdate` resource over the stores it changes in place, statement
   * by statement as `put` runs.
   */
  class UpdateResource {
    var stores: Stores

    constructor (st: Stores)
      ensures stores == st
    {
      stores := st;
    }

    /** `for output in task.outputs`: one `set_task_output` per output, in order. */
    method SetTaskOutputs(taskId: string, os: seq<UOutput>)
      modifies this
      ensures stores == old(stores).(outputs := SetOutputs(old(stores).outputs, taskId, os))
    {
      var i := 0;
      while i < |os|
        invariant 0 <= i <= |os|
        invariant stores == old(stores).(outputs := stores.outputs)
        invariant SetOutputs(stores.outputs, taskId, os[i..]) == SetOutputs(old(stores).outputs, taskId, os)
      {
        assert os[i..][1..] == os[i + 1..];
        stores := stores.(outputs := stores.outputs[(taskId, os[i].id) := OutputValue(os[i])]);
        i := i + 1;
      }
    }

    /** `put`: the stores end as `PutOutcome` describes, with its response or exception. */
    method Put(env: WfUpdateEnv, req: Request) returns (resp: Result<Response>)
      modifies this
      ensures Outcome(stores, resp) == PutOutcome(old(stores), env, req)
    {
      if req.taskId !in env.tasks {
        return Err("TypeError: 'NoneType' object is not subscriptable");
      }
      var task := env.tasks[req.taskId];
      stores := Record(stores, req);
      if req.taskInfo.Some? {
        if "checkpoint_file" !in req.taskInfo.value {
          return Err("KeyError: 'checkpoint_file'");
        }
        var restarted := env.restart(task, req.taskInfo.value["checkpoint_file"]);
        if restarted.None? {
          stores := stores.(wfStatus := stores.wfStatus[req.wfId := "Failed"],
                            dbWfState := stores.dbWfState[req.wfId := "Failed"]);
          return Ok(Response("", "Task " + req.taskId + " set to " + req.jobState, 200));
        }
        var nt := restarted.value;
        stores := stores.(dbTasks := stores.dbTasks + [TaskRow(nt.id, req.wfId, nt.name, "WAITING")]);
        stores := stores.(submitted := stores.submitted + [(req.wfId, [nt])]);
        return Ok(Response("", "Task {task_id} restarted", 200));
      }
      var wfId := req.wfId;
      if req.jobState == "COMPLETED" || req.jobState == "FAILED" {
        SetTaskOutputs(task.id, task.outputs);
        var ready := env.finalize(task);
        if ready != [] && env.wfState != "PAUSED" {
          stores := stores.(submitted := stores.submitted + [(req.wfId, ready)]);
        }
        if env.completed {
          wfId := env.workflowId;
          stores := ArchiveAndKill(stores, env);
        }
        if env.wfState == "FAILED" {
          wfId := env.workflowId;
          stores := ArchiveAndKill(stores, env);
        }
      }
      resp := Ok(Response("", "Task " + req.taskId + " belonging to WF " + wfId + " set to" + req.jobState, 200));
    }
  }
}
