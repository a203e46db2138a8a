/**
 * The LSF worker of the task manager (src/beeflow/common/worker/lsf_worker.py):
 * the table that turns LSF job states into BEE states, the reading of the
 * `bjobs` and `bsub` answers, the script's path and the script text.  The
 * programs' answers, the file contents, the container runtime's commands
 * and the two template engines are parameters.
 */
module LsfWorker {
  import opened Wrappers
  import opened PyText

  /** The part of a task the worker reads. */
  datatype LsfTask = LsfTask(
    id: string, name: string, workflowId: string,
    hints: map<string, map<string, string>>)

  /** LSF job states and the BEE state each stands for. */
  const BeeStates: map<string, string> := map[
    "PEND" := "PENDING",
    "RUN" := "RUNNING",
    "DONE" := "COMPLETED",
    "QUIT" := "FAILED",
    "PSUSP" := "PAUSED",
    "USUSP" := "PAUSED",
    "SSUSP" := "PAUSED"]

  /** Seven LSF states: the three suspended ones are all PAUSED and nothing else is. */
  lemma BeeStatesTable()
    ensures BeeStates.Keys == {"PEND", "RUN", "DONE", "QUIT", "PSUSP", "USUSP", "SSUSP"}
    ensures forall k :: k in BeeStates ==> (BeeStates[k] == "PAUSED" <==> k in {"PSUSP", "USUSP", "SSUSP"})
    ensures BeeStates.Values == {"PENDING", "RUNNING", "COMPLETED", "FAILED", "PAUSED"}
  {
  }

  /** `string.Template(text).substitute(mapping)`; an error for a placeholder it cannot fill. */
  type Substituter = (string, map<string, string>) -> Result<string>

  /** `jinja2.Template(text).render(task=..., commands=..., info=...)`. */
  type Renderer = (string, LsfTask, seq<string>, map<string, string>) -> string

  /** The directory a task's files go to. */
  function TaskDir(workdir: string, task: LsfTask): string {
    workdir + "/workflows/" + task.workflowId + "/" + task.name + "-" + task.id
  }

  /** The `#BSUB` lines `build_text` puts in front of the template. */
  function Header(workdir: string, task: LsfTask): string {
    var dir := TaskDir(workdir, task);
    "#! /bin/bash\n"
      + "#BSUB -J " + task.name + "-" + task.id + "\n"
      + "#BSUB -o " + dir + "/" + task.name + "-" + task.id + ".out\n"
      + "#BSUB -e " + dir + "/" + task.name + "-" + task.id + ".err\n"
  }

  class LsfWorker {
    const workdir: string
    const templateText: string
    const beeStates: map<string, string>
    const runnerOpts: string

    /**
     * `jobTemplate` is the configured template file ("" for none) and
     * `readFile` its contents, `None` when it cannot be opened or read;
     * `runnerOpts` is `None` when the option is not configured.
     */
    constructor (beeWorkdir: string, jobTemplate: string, readFile: string -> Option<string>, runnerOpts: Option<string>)
      ensures workdir == beeWorkdir
      ensures templateText == if jobTemplate != "" && readFile(jobTemplate).Some? then readFile(jobTemplate).value else ""
      ensures beeStates == BeeStates
      ensures this.runnerOpts == runnerOpts.GetOr("")
    {
      workdir := beeWorkdir;
      var text := "";
      if jobTemplate != "" {
        match readFile(jobTemplate)
        case Some(t) => text := t;
        case None =>
      }
      templateText := text;
      beeStates := BeeStates;
      this.runnerOpts := runnerOpts.GetOr("");
    }

    /**
     * `build_text`: the header is built and substituted, and fails the call
     * when it cannot be substituted, but the text returned is the rendered
     * template alone.
     */
    method BuildText(task: LsfTask, substitute: Substituter, commands: seq<string>, render: Renderer) returns (r: Result<string>)
      ensures substitute(Header(workdir, task) + templateText, Fields(task)).Err? ==> r.Err?
      ensures substitute(Header(workdir, task) + templateText, Fields(task)).Ok? ==>
        r == Ok(render(templateText, task, commands, Info(task)))
    {
      var text := Header(workdir, task);
      text := text + templateText;
      var jobText := substitute(text, Fields(task));
      if jobText.Err? {
        return Err(jobText.error);
      }
      if "beeflow:MPIRequirement" in task.hints && "nodes" in task.hints["beeflow:MPIRequirement"] {
        text := text + "#BSUB -nnodes " + task.hints["beeflow:MPIRequirement"]["nodes"] + "\n";
      }
      r := Ok(render(templateText, task, commands, Info(task)));
    }

    /** `write_script`: the path of the script; the directory and the file are not modelled. */
    method WriteScript(task: LsfTask, substitute: Substituter, commands: seq<string>, render: Renderer) returns (r: Result<string>)
      ensures substitute(Header(workdir, task) + templateText, Fields(task)).Err? ==> r.Err?
      ensures substitute(Header(workdir, task) + templateText, Fields(task)).Ok? ==> r == Ok(ScriptPath(task))
    {
      var text := BuildText(task, substitute, commands, render);
      if text.Err? {
        return Err(text.error);
      }
      r := Ok(ScriptPath(task));
    }

    /** `{workdir}/workflows/{workflow_id}/{name}-{id}/{name}-{id}.sh` */
    function ScriptPath(task: LsfTask): (r: string)
      ensures r == TaskDir(workdir, task) + "/" + task.name + "-" + task.id + ".sh"
      ensures StartsWith(r, workdir + "/workflows/" + task.workflowId + "/")
    {
      var dir := TaskDir(workdir, task);
      assert (dir + "/" + task.name + "-" + task.id + ".sh")[..|workdir + "/workflows/" + task.workflowId + "/"|]
        == workdir + "/workflows/" + task.workflowId + "/";
      dir + "/" + task.name + "-" + task.id + ".sh"
    }

    /**
     * `query_job` on the output of `bjobs`: a failure when the job is not
     * found, when the answer has fewer than three fields or when its third
     * field is not an LSF state of the table.
     */
    function QueryJob(jobSt: string): (r: Result<string>)
      ensures r.Ok? <==> !Contains(jobSt, "not found") && |Split(jobSt)| >= 3 && Split(jobSt)[2] in beeStates
      ensures r.Ok? ==> r.value == beeStates[Split(jobSt)[2]]
    {
      if Contains(jobSt, "not found") then Err("Exception")
      else
        var fields := Split(jobSt);
        if |fields| < 3 then Err("IndexError")
        else if fields[2] !in beeStates then Err("KeyError")
        else Ok(beeStates[fields[2]])
    }

    /** `submit_job`: the answer of `bsub` gives the job id, the one of `bjobs` its state. */
    function SubmitJob(bsubOut: string, bjobsOut: string): (r: Result<(int, string)>)
      ensures r.Ok? <==> JobId(bsubOut).Ok? && QueryJob(bjobsOut).Ok?
      ensures r.Ok? ==> r.value == (JobId(bsubOut).value, QueryJob(bjobsOut).value)
    {
      var id :- JobId(bsubOut);
      var state :- QueryJob(bjobsOut);
      Ok((id, state))
    }

    /** `submit_task`: write the script, then submit it. */
    method SubmitTask(task: LsfTask, substitute: Substituter, commands: seq<string>, render: Renderer, bsubOut: string, bjobsOut: string)
      returns (r: Result<(int, string)>)
      ensures substitute(Header(workdir, task) + templateText, Fields(task)).Err? ==> r.Err?
      ensures substitute(Header(workdir, task) + templateText, Fields(task)).Ok? ==> r == SubmitJob(bsubOut, bjobsOut)
    {
      var script := WriteScript(task, substitute, commands, render);
      if script.Err? {
        return Err(script.error);
      }
      r := SubmitJob(bsubOut, bjobsOut);
    }

    /** `query_task` asks `query_job`. */
    function QueryTask(bjobsOut: string): Result<string> {
      QueryJob(bjobsOut)
    }

    /**
     * `cancel_task`: `bkill` is run on the job through `check_output`, which
     * raises CalledProcessError when it exits with a non-zero status;
     * otherwise the state is CANCELLED.  `bkill` maps the command line to
     * its exit status.
     */
    function CancelTask(jobId: int, bkill: seq<string> -> int): (r: Result<string>)
      ensures r.Ok? <==> bkill(CancelCommand(jobId)) == 0
      ensures r.Ok? ==> r.value == "CANCELLED"
    {
      if bkill(CancelCommand(jobId)) == 0 then Ok("CANCELLED") else Err("CalledProcessError")
    }
  }

  /** The command line of `cancel_task`: `bkill` and the job id, which reads back as that id. */
  function CancelCommand(jobId: int): (r: seq<string>)
    ensures |r| == 2 && r[0] == "bkill" && ParseInt(r[1]) == Some(jobId)
  {
    ParseIntToString(jobId);
    ["bkill", IntToString(jobId)]
  }

  /** The names `string.Template.substitute` fills in. */
  function Fields(task: LsfTask): map<string, string> {
    map["WorkflowID" := task.workflowId, "name" := task.name, "id" := task.id]
  }

  /** The task's `bee:MPIRequirement` hint, or nothing. */
  function Info(task: LsfTask): map<string, string> {
    if "bee:MPIRequirement" in task.hints then task.hints["bee:MPIRequirement"] else map[]
  }

  /**
   * The job id in the answer of `bsub`: its second field without its first
   * and last characters, read as an integer.
   */
  function JobId(bsubOut: string): (r: Result<int>)
    ensures r.Ok? <==> |Split(bsubOut)| >= 2 && ParseInt(Unbracket(Split(bsubOut)[1])).Some?
    ensures r.Ok? ==> (|Split(bsubOut)| >= 2 && r.value == ParseInt(Unbracket(Split(bsubOut)[1])).value)
  {
    var fields := Split(bsubOut);
    if |fields| < 2 then Err("IndexError")
    else
      var n := ParseInt(Unbracket(fields[1]));
      if n.None? then Err("ValueError") else Ok(n.value)
  }

  /** Python's `f[1:-1]`: the text without its first and last characters. */
  function Unbracket(f: string): (r: string)
    ensures |f| >= 2 ==> r == f[1..|f| - 1]
    ensures |f| < 2 ==> r == ""
  {
    if |f| >= 2 then f[1..|f| - 1] else ""
  }

  lemma IntToStringIsWord(i: int)
    ensures IsWord(IntToString(i))
  {
    var d := NatToString(if i < 0 then -i else i);
    assert forall k :: 0 <= k < |d| ==> IsDigit(d[k]);
    if i < 0 {
      assert IntToString(i) == "-" + d;
    }
  }

  /** The usual answer `Job <id> is submitted to queue <q>.` gives back the id. */
  lemma JobIdOfBsubAnswer(i: int, rest: seq<string>)
    requires AllWords(rest)
    ensures JobId(Join(" ", ["Job", "<" + IntToString(i) + ">"] + rest)) == Ok(i)
  {
    var f := "<" + IntToString(i) + ">";
    IntToStringIsWord(i);
    assert IsWord(f) by {
      forall k | 0 <= k < |f|
        ensures !IsSpace(f[k])
      {
        if 0 < k < |f| - 1 {
          assert f[k] == IntToString(i)[k - 1];
        }
      }
    }
    var words := ["Job", f] + rest;
    assert words[1..] == [f] + rest;
    assert words[1..][1..] == rest;
    assert AllWords(words);
    SplitJoin(words);
    assert Unbracket(f) == IntToString(i);
    ParseIntToString(i);
  }

  /** A `bjobs` line whose STAT field is an LSF state maps to that state's BEE state. */
  lemma QueryJobOfBjobsLine(w: LsfWorker, jobId: string, user: string, stat: string, rest: seq<string>)
    requires w.beeStates == BeeStates && stat in BeeStates
    requires AllWords([jobId, user, stat] + rest)
    requires !Contains(Join(" ", [jobId, user, stat] + rest), "not found")
    ensures w.QueryJob(Join(" ", [jobId, user, stat] + rest)) == Ok(BeeStates[stat])
  {
    SplitJoin([jobId, user, stat] + rest);
  }

  /** A job that `bjobs` does not know is never given a state. */
  lemma QueryJobNotFound(w: LsfWorker, jobSt: string)
    requires Contains(jobSt, "not found")
    ensures w.QueryJob(jobSt).Err?
  {
  }
}
