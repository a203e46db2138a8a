/**
 * The worker for a machine without a workload manager
 * (src/beeflow/common/worker/simple_worker.py): each task runs as a child
 * process recorded under the task's id, and its state follows from the
 * process's return code.  Processes are identities; whether one has exited,
 * and with which code, is an oracle.
 */
module SimpleWorker {
  import opened Wrappers

  /** A child process started by `subprocess.Popen`. */
  type Proc = int

  /** `Popen.poll()`: `None` while the process runs, its return code after. */
  type Poll = Proc -> Option<int>

  /** The state a return code stands for: running, completed on 0, failed on anything else. */
  function StateOf(rc: Option<int>): (r: string)
    ensures r == "RUNNING" <==> rc.None?
    ensures r == "COMPLETED" <==> rc == Some(0)
    ensures r == "FAILED" <==> rc.Some? && rc.value != 0
  {
    match rc
    case None => "RUNNING"
    case Some(code) => if code == 0 then "COMPLETED" else "FAILED"
  }

  class SimpleWorker {
    /** The processes by task id. */
    var tasks: map<string, Proc>
    /** The processes killed, in order. */
    var killed: seq<Proc>

    constructor ()
      ensures tasks == map[] && killed == []
    {
      tasks := map[];
      killed := [];
    }

    /**
     * `submit_task`: the process started for the task is recorded under its
     * id, replacing any earlier one; the job id is the task id and the state
     * PENDING.  Writing the script is not modelled.
     */
    method SubmitTask(taskId: string, proc: Proc) returns (jobId: string, jobState: string)
      modifies this
      ensures tasks == old(tasks)[taskId := proc] && killed == old(killed)
      ensures jobId == taskId && jobState == "PENDING"
    {
      tasks := tasks[taskId := proc];
      jobId, jobState := taskId, "PENDING";
    }

    /** `cancel_task`: the job's process is killed; an unknown job is a KeyError. */
    method CancelTask(jobId: string) returns (r: Result<string>)
      modifies this
      ensures jobId in old(tasks) ==> r == Ok("CANCELLED") && killed == old(killed) + [old(tasks)[jobId]]
      ensures jobId !in old(tasks) ==> r.Err? && killed == old(killed)
      ensures tasks == old(tasks)
    {
      if jobId !in tasks {
        return Err("KeyError");
      }
      killed := killed + [tasks[jobId]];
      r := Ok("CANCELLED");
    }

    /** `query_task`: the state of the job's process; an unknown job is a KeyError. */
    method QueryTask(jobId: string, poll: Poll) returns (r: Result<string>)
      ensures jobId in tasks ==> r == Ok(StateOf(poll(tasks[jobId])))
      ensures jobId !in tasks ==> r.Err?
    {
      if jobId !in tasks {
        return Err("KeyError");
      }
      var rc := poll(tasks[jobId]);
      if rc.None? {
        r := Ok("RUNNING");
      } else if rc.value == 0 {
        r := Ok("COMPLETED");
      } else {
        r := Ok("FAILED");
      }
    }
  }

  /** A query after a submit asks the process just started, whatever ran under that id before. */
  method SubmitThenQuery(w: SimpleWorker, taskId: string, proc: Proc, poll: Poll) returns (r: Result<string>)
    modifies w
    ensures r == Ok(StateOf(poll(proc)))
  {
    var jobId, _ := w.SubmitTask(taskId, proc);
    r := w.QueryTask(jobId, poll);
  }
}
