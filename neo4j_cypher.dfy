/**
 * The meaning of the Cypher transaction functions that store a workflow in
 * Neo4j, over an abstract in-memory graph: the workflow's inputs and
 * outputs, the task nodes with their inputs and outputs, one metadata node
 * per task, and the DEPENDS and BEGINS edges.  Each query is a function from
 * graph to graph; `GraphDatabase` applies them to a stored graph.
 */
module Cypher {
  import opened Wrappers
  import opened PyText

  const Waiting := "WAITING"
  const Ready := "READY"
  const Running := "RUNNING"
  const Paused := "PAUSED"
  const Completed := "COMPLETED"

  /** A property value of a metadata node: a string, or any other literal as its text. */
  datatype MetaValue = Str(s: string) | Lit(text: string)

  type Metadata = map<string, MetaValue>

  datatype Input = Input(id: string, value: Option<string>, default: Option<string>, source: string)
  datatype Output = Output(id: string, value: Option<string>, glob: Option<string>)
  datatype TaskNode = TaskNode(inputs: seq<Input>, outputs: seq<Output>)
  datatype WfInput = WfInput(id: string, value: Option<string>)
  datatype WfOutput = WfOutput(id: string, value: Option<string>, source: string)

  /**
   * The stored graph.  `tasks` and `meta` are keyed by task id (task ids are
   * unique); `depends` holds the pairs (s, t) with an edge `s DEPENDS t`;
   * `begins` holds the tasks with an edge `BEGINS` to the workflow.
   */
  datatype Graph = Graph(
    workflow: Option<string>,
    wfInputs: seq<WfInput>,
    wfOutputs: seq<WfOutput>,
    tasks: map<string, TaskNode>,
    meta: map<string, Metadata>,
    depends: set<(string, string)>,
    begins: set<string>)

  /** Every edge and every metadata node hangs off stored nodes. */
  ghost predicate Valid(g: Graph) {
    && g.meta.Keys <= g.tasks.Keys
    && g.begins <= g.tasks.Keys
    && (forall e :: e in g.depends ==> e.0 in g.tasks && e.1 in g.tasks)
    && (g.workflow.None? ==> g.wfInputs == [] && g.wfOutputs == [])
  }

  const EmptyGraph := Graph(None, [], [], map[], map[], {}, {})

  predicate IsState(m: Metadata, s: string) {
    "state" in m && m["state"] == Str(s)
  }

  function WithState(m: Metadata, s: string): (r: Metadata)
    ensures IsState(r, s)
    ensures forall k :: k in r <==> k in m || k == "state"
    ensures forall k :: k in m && k != "state" ==> r[k] == m[k]
  {
    m["state" := Str(s)]
  }

  /** Some input of `consumer` names an output of `producer` as its source. */
  predicate Feeds(consumer: TaskNode, producer: TaskNode) {
    exists i, o :: i in consumer.inputs && o in producer.outputs && i.source == o.id
  }

  /** Some input of `consumer` names a workflow input as its source. */
  predicate StartsFrom(consumer: TaskNode, ws: seq<WfInput>) {
    exists i, w :: i in consumer.inputs && w in ws && i.source == w.id
  }

  // ---------------------------------------------------------------------
  // Loading a task
  // ---------------------------------------------------------------------

  /**
   * `create_task` with its input and output nodes.  The uniqueness
   * constraint on task ids makes a second task with a stored id fail.
   */
  function CreateTask(g: Graph, id: string, node: TaskNode): (r: Result<Graph>)
    ensures id in g.tasks <==> r.Err?
    ensures r.Ok? ==> (r.value.tasks == g.tasks[id := node] && r.value.meta == g.meta
                       && r.value.depends == g.depends && r.value.begins == g.begins)
    ensures r.Ok? && Valid(g) ==> Valid(r.value)
  {
    if id in g.tasks then Err("Node already exists with label Task and property id")
    else Ok(g.(tasks := g.tasks[id := node]))
  }

  /** `create_task_metadata_node`: a task that is stored gets a metadata node in state WAITING. */
  function CreateTaskMetadataNode(g: Graph, id: string): (r: Graph)
    ensures id in g.tasks ==> id in r.meta && r.meta[id] == map["state" := Str(Waiting)]
    ensures id !in g.tasks ==> r == g
    ensures forall t :: t != id ==> (t in r.meta <==> t in g.meta)
    ensures forall t :: t != id && t in g.meta ==> r.meta[t] == g.meta[t]
    ensures r.tasks == g.tasks && r.depends == g.depends && r.begins == g.begins
    ensures Valid(g) ==> Valid(r)
  {
    if id in g.tasks then g.(meta := g.meta[id := map["state" := Str(Waiting)]]) else g
  }

  /** The edges `id DEPENDS t` the first half of the dependency query merges. */
  function Upstream(g: Graph, id: string): (r: set<(string, string)>)
    requires id in g.tasks
    ensures forall e :: e in r <==> e.0 == id && e.1 in g.tasks && Feeds(g.tasks[id], g.tasks[e.1])
  {
    set t | t in g.tasks && Feeds(g.tasks[id], g.tasks[t]) :: (id, t)
  }

  /** The edges `t DEPENDS id` the second half of the dependency query merges. */
  function Downstream(g: Graph, id: string): (r: set<(string, string)>)
    requires id in g.tasks
    ensures forall e :: e in r <==> e.1 == id && e.0 in g.tasks && Feeds(g.tasks[e.0], g.tasks[id])
  {
    set t | t in g.tasks && Feeds(g.tasks[t], g.tasks[id]) :: (t, id)
  }

  /**
   * `add_dependencies` as written.  The BEGINS edge is merged when an input
   * of the task reads a workflow input.  The dependency query merges
   * `id DEPENDS t` for every producer `t` of one of its inputs, and then,
   * on the rows that remain, `t DEPENDS id` for every consumer `t` of one of
   * its outputs: when the task has no producer no row remains, and its
   * consumers get no edge.
   */
  function AddDependencies(g: Graph, id: string): (r: Graph)
    ensures id !in g.tasks ==> r == g
    ensures r.tasks == g.tasks && r.meta == g.meta && r.wfInputs == g.wfInputs
      && r.wfOutputs == g.wfOutputs && r.workflow == g.workflow
    ensures id in g.tasks ==> forall t :: t in r.begins <==> t in g.begins || (t == id && StartsFrom(g.tasks[id], g.wfInputs))
    ensures id in g.tasks ==> forall e :: e in r.depends <==>
      || e in g.depends
      || (e.0 == id && e.1 in g.tasks && Feeds(g.tasks[id], g.tasks[e.1]))
      || (e.1 == id && e.0 in g.tasks && Feeds(g.tasks[e.0], g.tasks[id])
          && exists t :: t in g.tasks && Feeds(g.tasks[id], g.tasks[t]))
    ensures Valid(g) ==> Valid(r)
  {
    if id !in g.tasks then g
    else
      var ups := Upstream(g, id);
      assert ups == {} <==> !exists t :: t in g.tasks && Feeds(g.tasks[id], g.tasks[t]) by {
        if ups != {} {
          var e :| e in ups;
          assert e.1 in g.tasks && Feeds(g.tasks[id], g.tasks[e.1]);
        }
        forall t | t in g.tasks && Feeds(g.tasks[id], g.tasks[t])
          ensures ups != {}
        {
          assert (id, t) in ups;
        }
      }
      g.(begins := if StartsFrom(g.tasks[id], g.wfInputs) then g.begins + {id} else g.begins,
         depends := g.depends + ups + (if ups == {} then {} else Downstream(g, id)))
  }

  /** `add_dependencies` with the two halves of the dependency query run independently. */
  function AddDependenciesBoth(g: Graph, id: string): (r: Graph)
    ensures id !in g.tasks ==> r == g
    ensures r.tasks == g.tasks && r.meta == g.meta && r.wfInputs == g.wfInputs
      && r.wfOutputs == g.wfOutputs && r.workflow == g.workflow
    ensures id in g.tasks ==> forall t :: t in r.begins <==> t in g.begins || (t == id && StartsFrom(g.tasks[id], g.wfInputs))
    ensures id in g.tasks ==> forall e :: e in r.depends <==>
      || e in g.depends
      || (e.0 == id && e.1 in g.tasks && Feeds(g.tasks[id], g.tasks[e.1]))
      || (e.1 == id && e.0 in g.tasks && Feeds(g.tasks[e.0], g.tasks[id]))
    ensures Valid(g) ==> Valid(r)
  {
    if id !in g.tasks then g
    else
      g.(begins := if StartsFrom(g.tasks[id], g.wfInputs) then g.begins + {id} else g.begins,
         depends := g.depends + Upstream(g, id) + Downstream(g, id))
  }

  /** Loading one task: its node, its metadata node, then its dependencies. */
  function LoadTask(g: Graph, id: string, node: TaskNode): (r: Result<Graph>)
    ensures id in g.tasks <==> r.Err?
  {
    match CreateTask(g, id, node)
    case Err(e) => Err(e)
    case Ok(g1) => Ok(AddDependencies(CreateTaskMetadataNode(g1, id), id))
  }

  function LoadTaskBoth(g: Graph, id: string, node: TaskNode): (r: Result<Graph>)
    ensures id in g.tasks <==> r.Err?
  {
    match CreateTask(g, id, node)
    case Err(e) => Err(e)
    case Ok(g1) => Ok(AddDependenciesBoth(CreateTaskMetadataNode(g1, id), id))
  }

  /** The dependency edges a set of stored tasks calls for: consumer to producer. */
  ghost predicate DependsExactly(g: Graph) {
    forall s, t :: (s, t) in g.depends <==> s in g.tasks && t in g.tasks && Feeds(g.tasks[s], g.tasks[t])
  }

  /**
   * With both halves run, loading a task keeps the edges exactly those
   * demanded by inputs and outputs, whichever tasks came before it.
   */
  lemma LoadTaskBothKeepsDepends(g: Graph, id: string, node: TaskNode)
    requires DependsExactly(g)
    ensures LoadTaskBoth(g, id, node).Ok? ==> DependsExactly(LoadTaskBoth(g, id, node).value)
  {
    if id !in g.tasks {
      var g1 := CreateTask(g, id, node).value;
      var g2 := CreateTaskMetadataNode(g1, id);
      var r := AddDependenciesBoth(g2, id);
      assert r == LoadTaskBoth(g, id, node).value;
      assert g2.tasks == g.tasks[id := node];
      forall s, t
        ensures (s, t) in r.depends <==> s in r.tasks && t in r.tasks && Feeds(r.tasks[s], r.tasks[t])
      {
        if s != id && t != id {
          assert (s, t) in r.depends <==> (s, t) in g.depends;
        }
      }
    }
  }

  /** Loading the tasks of a list in order. */
  function LoadAll(g: Graph, ts: seq<(string, TaskNode)>, both: bool): (r: Result<Graph>)
    decreases |ts|
  {
    if ts == [] then Ok(g)
    else
      match LoadAll(g, ts[..|ts| - 1], both)
      case Err(e) => Err(e)
      case Ok(g1) =>
        var (id, node) := ts[|ts| - 1];
        if both then LoadTaskBoth(g1, id, node) else LoadTask(g1, id, node)
  }

  /**
   * With both halves run, loading a workflow's tasks in any order into a
   * graph without tasks gives exactly the dependency edges the inputs and
   * outputs call for.
   */
  lemma {:induction false} LoadAllBothDepends(g: Graph, ts: seq<(string, TaskNode)>)
    requires g.tasks == map[] && g.depends == {}
    ensures LoadAll(g, ts, true).Ok? ==> DependsExactly(LoadAll(g, ts, true).value)
    decreases |ts|
  {
    if ts == [] {
    } else {
      LoadAllBothDepends(g, ts[..|ts| - 1]);
      var prev := LoadAll(g, ts[..|ts| - 1], true);
      if prev.Ok? {
        var (id, node) := ts[|ts| - 1];
        LoadTaskBothKeepsDepends(prev.value, id, node);
      }
    }
  }

  /** A consumer loaded before a producer that reads only a workflow input. */
  const Consumer := TaskNode([Input("in", None, None, "made")], [])
  const Producer := TaskNode([Input("arg", None, None, "start")], [Output("made", None, None)])
  const ConsumerFirst: seq<(string, TaskNode)> := [("consumer", Consumer), ("producer", Producer)]
  const StartGraph := Graph(Some("wf"), [WfInput("start", Some("x"))], [], map[], map[], {}, {})

  /** The graph after the consumer alone is loaded: no dependency edge yet. */
  lemma ConsumerLoaded()
    ensures LoadAll(StartGraph, ConsumerFirst[..1], false).Ok?
    ensures LoadAll(StartGraph, ConsumerFirst[..1], false).value.tasks == map["consumer" := Consumer]
    ensures LoadAll(StartGraph, ConsumerFirst[..1], false).value.depends == {}
  {
    var s1 := ConsumerFirst[..1];
    assert s1 == [("consumer", Consumer)];
    assert s1[..0] == [];
    assert LoadAll(StartGraph, s1, false) == LoadTask(StartGraph, "consumer", Consumer);
    assert !Feeds(Consumer, Consumer);
  }

  /**
   * As written, loading a consumer before its producer leaves out the edge
   * `consumer DEPENDS producer`, though the consumer reads the producer's output.
   */
  lemma AddDependenciesMissesConsumer()
    ensures LoadAll(StartGraph, ConsumerFirst, false).Ok?
    ensures var r := LoadAll(StartGraph, ConsumerFirst, false).value;
      && "consumer" in r.tasks && "producer" in r.tasks
      && Feeds(r.tasks["consumer"], r.tasks["producer"])
      && ("consumer", "producer") !in r.depends
  {
    ConsumerLoaded();
    var g1 := LoadAll(StartGraph, ConsumerFirst[..1], false).value;
    assert ConsumerFirst[..|ConsumerFirst| - 1] == ConsumerFirst[..1];
    assert LoadAll(StartGraph, ConsumerFirst, false) == LoadTask(g1, "producer", Producer);
    var r := LoadTask(g1, "producer", Producer).value;
    assert r.tasks == map["consumer" := Consumer, "producer" := Producer];
    assert !exists t :: t in r.tasks && Feeds(Producer, r.tasks[t]) by {
      forall t | t in r.tasks
        ensures !Feeds(Producer, r.tasks[t])
      {
        assert t == "consumer" || t == "producer";
        assert "start" != "made";
      }
    }
    assert Feeds(Consumer, Producer) by {
      assert Consumer.inputs[0] in Consumer.inputs && Producer.outputs[0] in Producer.outputs;
    }
  }

  // ---------------------------------------------------------------------
  // Task states
  // ---------------------------------------------------------------------

  /** `set_task_state`: the state of a task with a metadata node. */
  function SetTaskState(g: Graph, id: string, s: string): (r: Graph)
    ensures id in g.meta ==> id in r.meta && IsState(r.meta[id], s)
    ensures r.meta.Keys == g.meta.Keys
    ensures forall t :: t in g.meta && t != id ==> r.meta[t] == g.meta[t]
    ensures r.tasks == g.tasks && r.depends == g.depends && r.begins == g.begins
    ensures Valid(g) ==> Valid(r)
  {
    if id in g.meta then g.(meta := g.meta[id := WithState(g.meta[id], s)]) else g
  }

  /** The task has an edge DEPENDS to some task. */
  predicate HasDependency(g: Graph, t: string) {
    exists e :: e in g.depends && e.0 == t
  }

  /** `set_init_tasks_to_ready`: tasks that begin the workflow and depend on nothing become READY. */
  function SetInitTasksToReady(g: Graph): (r: Graph)
    ensures r.meta.Keys == g.meta.Keys
    ensures forall t :: t in g.meta && t in g.begins && !HasDependency(g, t) ==> r.meta[t] == WithState(g.meta[t], Ready)
    ensures forall t :: t in g.meta && !(t in g.begins && !HasDependency(g, t)) ==> r.meta[t] == g.meta[t]
    ensures r.tasks == g.tasks && r.depends == g.depends && r.begins == g.begins
    ensures Valid(g) ==> Valid(r)
  {
    g.(meta := map t | t in g.meta ::
      if t in g.begins && !HasDependency(g, t) then WithState(g.meta[t], Ready) else g.meta[t])
  }

  /** Every input of the task has a value. */
  predicate AllValued(n: TaskNode) {
    forall i :: i in n.inputs ==> i.value.Some?
  }

  /** A WAITING task with at least one input, all of them with values. */
  predicate Runnable(g: Graph, t: string)
    requires t in g.meta
  {
    t in g.tasks && g.tasks[t].inputs != [] && IsState(g.meta[t], Waiting) && AllValued(g.tasks[t])
  }

  /**
   * `set_runnable_tasks_to_ready`: a WAITING task with at least one input,
   * all of them with values, becomes READY.
   */
  function SetRunnableTasksToReady(g: Graph): (r: Graph)
    ensures r.meta.Keys == g.meta.Keys
    ensures forall t :: t in g.meta && Runnable(g, t) ==> r.meta[t] == WithState(g.meta[t], Ready)
    ensures forall t :: t in g.meta && !Runnable(g, t) ==> r.meta[t] == g.meta[t]
    ensures r.tasks == g.tasks && r.depends == g.depends && r.begins == g.begins
    ensures Valid(g) ==> Valid(r)
  {
    g.(meta := map t | t in g.meta :: if Runnable(g, t) then WithState(g.meta[t], Ready) else g.meta[t])
  }

  /** A runnable-task pass changes only WAITING tasks, and never one without inputs. */
  lemma RunnableOnlyWaiting(g: Graph, t: string)
    requires t in g.meta
    requires !IsState(g.meta[t], Waiting) || (t in g.tasks && g.tasks[t].inputs == [])
    ensures SetRunnableTasksToReady(g).meta[t] == g.meta[t]
  {
  }

  /** Every task in state `from` moves to state `to`; every other task keeps its metadata. */
  function Rename(g: Graph, from: string, to: string): (r: Graph)
    ensures r.meta.Keys == g.meta.Keys
    ensures forall t :: t in g.meta && IsState(g.meta[t], from) ==> r.meta[t] == WithState(g.meta[t], to)
    ensures forall t :: t in g.meta && !IsState(g.meta[t], from) ==> r.meta[t] == g.meta[t]
    ensures r.tasks == g.tasks && r.depends == g.depends && r.begins == g.begins
    ensures Valid(g) ==> Valid(r)
  {
    g.(meta := map t | t in g.meta :: if IsState(g.meta[t], from) then WithState(g.meta[t], to) else g.meta[t])
  }

  /** `set_running_tasks_to_paused`. */
  function SetRunningTasksToPaused(g: Graph): (r: Graph)
    ensures forall t :: t in r.meta <==> t in g.meta
    ensures forall t :: t in g.meta ==> (IsState(r.meta[t], Paused) <==> IsState(g.meta[t], Running) || IsState(g.meta[t], Paused))
  {
    Rename(g, Running, Paused)
  }

  /** `set_paused_tasks_to_running`. */
  function SetPausedTasksToRunning(g: Graph): (r: Graph)
    ensures forall t :: t in r.meta <==> t in g.meta
    ensures forall t :: t in g.meta ==> !IsState(r.meta[t], Paused)
    ensures forall t :: t in g.meta ==> (IsState(r.meta[t], Running) <==> IsState(g.meta[t], Running) || IsState(g.meta[t], Paused))
  {
    Rename(g, Paused, Running)
  }

  /**
   * Pausing then resuming leaves no task PAUSED: the tasks that were
   * RUNNING or PAUSED are RUNNING, every other task keeps its metadata.
   */
  lemma PauseResume(g: Graph)
    ensures var r := SetPausedTasksToRunning(SetRunningTasksToPaused(g));
      && r.meta.Keys == g.meta.Keys
      && (forall t :: t in g.meta ==> !IsState(r.meta[t], Paused))
      && (forall t :: t in g.meta && (IsState(g.meta[t], Running) || IsState(g.meta[t], Paused)) ==>
            r.meta[t] == WithState(g.meta[t], Running))
      && (forall t :: t in g.meta && !IsState(g.meta[t], Running) && !IsState(g.meta[t], Paused) ==>
            r.meta[t] == g.meta[t])
  {
    var p := SetRunningTasksToPaused(g);
    var r := SetPausedTasksToRunning(p);
    forall t | t in g.meta && IsState(g.meta[t], Running)
      ensures r.meta[t] == WithState(g.meta[t], Running)
    {
      assert p.meta[t] == WithState(g.meta[t], Paused);
      assert WithState(WithState(g.meta[t], Paused), Running) == WithState(g.meta[t], Running);
    }
  }

  /** `reset_tasks_metadata`: every metadata node is replaced by a fresh one in state WAITING. */
  function ResetTasksMetadata(g: Graph): (r: Graph)
    ensures r.meta.Keys == g.meta.Keys
    ensures forall t :: t in g.meta ==> r.meta[t] == map["state" := Str(Waiting)]
    ensures r.tasks == g.tasks && r.depends == g.depends && r.begins == g.begins
    ensures Valid(g) ==> Valid(r)
  {
    g.(meta := map t | t in g.meta :: map["state" := Str(Waiting)])
  }

  /** The tasks whose metadata carries a state other than COMPLETED. */
  function NotCompleted(g: Graph): set<string> {
    set t | t in g.meta && "state" in g.meta[t] && g.meta[t]["state"] != Str(Completed)
  }

  /**
   * `all_tasks_completed`: no metadata node has a state other than
   * COMPLETED.  A node without a state does not count against it.
   */
  function AllTasksCompleted(g: Graph): (r: bool)
    ensures r <==> forall t :: t in g.meta && "state" in g.meta[t] ==> IsState(g.meta[t], Completed)
    ensures g.meta == map[] ==> r
  {
    var nc := NotCompleted(g);
    assert nc == {} <==> forall t :: t in g.meta && "state" in g.meta[t] ==> IsState(g.meta[t], Completed) by {
      forall t | t in g.meta && "state" in g.meta[t] && !IsState(g.meta[t], Completed)
        ensures t in nc
      {
      }
    }
    nc == {}
  }

  /** After a reset, a workflow with tasks is not completed. */
  lemma ResetNotCompleted(g: Graph)
    requires g.meta != map[]
    ensures !AllTasksCompleted(ResetTasksMetadata(g))
  {
    var t :| t in g.meta;
    var r := ResetTasksMetadata(g);
    assert r.meta[t]["state"] == Str(Waiting);
    assert Waiting != Completed by { assert Waiting[0] != Completed[0]; }
  }

  /** The number of nodes stored. */
  function NodeCount(g: Graph): nat {
    (if g.workflow.Some? then 1 else 0) + |g.wfInputs| + |g.wfOutputs| + |g.tasks| + |g.meta|
  }

  /** `is_empty`: no node is stored. */
  function IsEmpty(g: Graph): (r: bool)
    ensures r <==> g.workflow.None? && g.wfInputs == [] && g.wfOutputs == [] && g.tasks == map[] && g.meta == map[]
  {
    if NodeCount(g) == 0 then
      assert |g.tasks| == 0 && |g.meta| == 0;
      true
    else
      assert g.tasks == map[] ==> |g.tasks| == 0;
      assert g.meta == map[] ==> |g.meta| == 0;
      false
  }

  // ---------------------------------------------------------------------
  // Input and output values
  // ---------------------------------------------------------------------

  /** The value of the first workflow input with id `src` whose value is set. */
  function WfValue(ws: seq<WfInput>, src: string): (r: Option<string>)
    ensures r.Some? <==> exists w :: w in ws && w.id == src && w.value.Some?
    ensures r.Some? ==> exists w :: w in ws && w.id == src && w.value == r
  {
    if ws == [] then None
    else if ws[0].id == src && ws[0].value.Some? then ws[0].value
    else
      var r := WfValue(ws[1..], src);
      assert forall w :: w in ws[1..] ==> w in ws;
      assert forall w :: w in ws && w != ws[0] ==> w in ws[1..];
      r
  }

  predicate IsWfInput(ws: seq<WfInput>, src: string) {
    exists w :: w in ws && w.id == src
  }

  /**
   * One input of a task that begins the workflow: it takes the value of the
   * workflow input it reads, and if that leaves it without a value, its default.
   */
  function InitInput(ws: seq<WfInput>, i: Input): (r: Input)
    ensures r.id == i.id && r.default == i.default && r.source == i.source
    ensures WfValue(ws, i.source).Some? ==> r.value == WfValue(ws, i.source)
    ensures WfValue(ws, i.source).None? && i.value.None? && IsWfInput(ws, i.source) ==> r.value == i.default
    ensures !IsWfInput(ws, i.source) ==> r == i
    ensures i.value.Some? ==> r.value.Some?
  {
    var i1 := if WfValue(ws, i.source).Some? then i.(value := WfValue(ws, i.source)) else i;
    if i1.value.None? && i1.default.Some? && IsWfInput(ws, i.source) then i1.(value := i1.default) else i1
  }

  function MapInputs(n: TaskNode, f: Input -> Input): (r: TaskNode)
    ensures |r.inputs| == |n.inputs| && r.outputs == n.outputs
    ensures forall k :: 0 <= k < |n.inputs| ==> r.inputs[k] == f(n.inputs[k])
  {
    n.(inputs := seq(|n.inputs|, k requires 0 <= k < |n.inputs| => f(n.inputs[k])))
  }

  /** `set_init_task_inputs`: the inputs of the tasks that begin the workflow. */
  function SetInitTaskInputs(g: Graph): (r: Graph)
    ensures r.tasks.Keys == g.tasks.Keys
    ensures forall t :: t in g.tasks && t in g.begins ==>
      r.tasks[t] == MapInputs(g.tasks[t], i => InitInput(g.wfInputs, i))
    ensures forall t :: t in g.tasks && t !in g.begins ==> r.tasks[t] == g.tasks[t]
    ensures r.meta == g.meta && r.depends == g.depends && r.begins == g.begins && r.wfInputs == g.wfInputs
    ensures Valid(g) ==> Valid(r)
  {
    g.(tasks := map t | t in g.tasks ::
      if t in g.begins then MapInputs(g.tasks[t], i => InitInput(g.wfInputs, i)) else g.tasks[t])
  }

  /**
   * After `set_init_task_inputs`, an input of a beginning task that reads a
   * workflow input with a value holds one of those values; one that reads
   * workflow inputs none of which has a value falls back to its default
   * when it had no value.  No input loses its value.
   */
  lemma {:induction false} InitInputsTakeValues(g: Graph, t: string, k: nat)
    requires t in g.tasks && t in g.begins && k < |g.tasks[t].inputs|
    ensures var i := g.tasks[t].inputs[k];
      var r := SetInitTaskInputs(g).tasks[t].inputs[k];
      && r.source == i.source && r.default == i.default
      && ((exists w :: w in g.wfInputs && w.id == i.source && w.value.Some?) ==>
            exists w :: w in g.wfInputs && w.id == i.source && w.value == r.value)
      && (((!exists w :: w in g.wfInputs && w.id == i.source && w.value.Some?)
           && IsWfInput(g.wfInputs, i.source) && i.value.None?) ==> r.value == i.default)
      && (i.value.Some? ==> r.value.Some?)
  {
    var i := g.tasks[t].inputs[k];
    var r := SetInitTaskInputs(g).tasks[t].inputs[k];
    assert r == InitInput(g.wfInputs, i);
  }

  /** The value of the first output with id `src` whose value is set. */
  function OutValue(os: seq<Output>, src: string): (r: Option<string>)
    ensures r.Some? <==> exists o :: o in os && o.id == src && o.value.Some?
    ensures r.Some? ==> exists o :: o in os && o.id == src && o.value == r
  {
    if os == [] then None
    else if os[0].id == src && os[0].value.Some? then os[0].value
    else
      var r := OutValue(os[1..], src);
      assert forall o :: o in os[1..] ==> o in os;
      assert forall o :: o in os && o != os[0] ==> o in os[1..];
      r
  }

  /** The first output with id `src`, whatever its value. */
  function FindOutput(os: seq<Output>, src: string): (r: Option<Output>)
    ensures r.None? <==> forall o :: o in os ==> o.id != src
    ensures r.Some? ==> r.value in os && r.value.id == src
  {
    if os == [] then None
    else if os[0].id == src then Some(os[0])
    else
      var r := FindOutput(os[1..], src);
      assert forall o :: o in os[1..] ==> o in os;
      assert forall o :: o in os && o != os[0] ==> o in os[1..];
      r
  }

  /**
   * The condition of the defaults query for a dependent `d` of the finished
   * task `id`: the pattern matches `d`'s DEPENDS edges to tasks with a
   * metadata node other than its edge to `id` (the two DEPENDS
   * relationships of one pattern are distinct), so there must be at least
   * one such task, and all of them must be COMPLETED.
   */
  predicate DepsCompleted(g: Graph, d: string, id: string) {
    && (exists x :: (d, x) in g.depends && x != id && x in g.meta)
    && (forall x :: (d, x) in g.depends && x != id && x in g.meta ==> IsState(g.meta[x], Completed))
  }

  /**
   * One input of a task that depends on the finished task: the value of the
   * output it reads, then its default when `ready`, the condition
   * `DepsCompleted` of the defaults query, holds.
   */
  function CopyInput(outs: seq<Output>, ready: bool, i: Input): (r: Input)
    ensures r.id == i.id && r.default == i.default && r.source == i.source
    ensures OutValue(outs, i.source).Some? ==> r.value == OutValue(outs, i.source)
    ensures OutValue(outs, i.source).None? ==> r.value == (if ready && i.value.None? then i.default else i.value)
  {
    var i1 := if OutValue(outs, i.source).Some? then i.(value := OutValue(outs, i.source)) else i;
    if ready && i1.value.None? && i1.default.Some? then i1.(value := i1.default) else i1
  }

  /** A workflow output reading an output of the finished task takes its value, set or not. */
  function CopyWfOutput(outs: seq<Output>, wo: WfOutput): (r: WfOutput)
    ensures r.id == wo.id && r.source == wo.source
    ensures FindOutput(outs, wo.source).Some? ==> r.value == FindOutput(outs, wo.source).value.value
    ensures FindOutput(outs, wo.source).None? ==> r == wo
  {
    match FindOutput(outs, wo.source)
    case Some(o) => wo.(value := o.value)
    case None => wo
  }

  /**
   * `copy_task_outputs`: the inputs of the tasks that depend on `id` read
   * its outputs and fall back to their defaults, and the workflow outputs
   * read its outputs.
   */
  function CopyTaskOutputs(g: Graph, id: string): (r: Graph)
    ensures id !in g.tasks ==> r == g
    ensures r.tasks.Keys == g.tasks.Keys
    ensures id in g.tasks ==> forall d :: d in g.tasks && (d, id) in g.depends ==>
      r.tasks[d] == MapInputs(g.tasks[d], i => CopyInput(g.tasks[id].outputs, DepsCompleted(g, d, id), i))
    ensures forall d :: d in g.tasks && (d, id) !in g.depends ==> r.tasks[d] == g.tasks[d]
    ensures id in g.tasks ==> |r.wfOutputs| == |g.wfOutputs| && forall k :: 0 <= k < |g.wfOutputs| ==>
      r.wfOutputs[k] == CopyWfOutput(g.tasks[id].outputs, g.wfOutputs[k])
    ensures r.meta == g.meta && r.depends == g.depends && r.begins == g.begins && r.wfInputs == g.wfInputs
    ensures Valid(g) ==> Valid(r)
  {
    if id !in g.tasks then g
    else
      var outs := g.tasks[id].outputs;
      g.(tasks := map d | d in g.tasks ::
           if (d, id) in g.depends then MapInputs(g.tasks[d], i => CopyInput(outs, DepsCompleted(g, d, id), i))
           else g.tasks[d],
         wfOutputs := seq(|g.wfOutputs|, k requires 0 <= k < |g.wfOutputs| => CopyWfOutput(outs, g.wfOutputs[k])))
  }

  /**
   * After `copy_task_outputs`, an input of a dependent that reads an output
   * of the finished task with a value holds that value; a dependent input
   * still without a value takes its default exactly when the dependent has
   * another dependency with a metadata node and all of those are COMPLETED.
   */
  lemma {:induction false} CopyOutputsFeedDependents(g: Graph, id: string, d: string, k: nat)
    requires id in g.tasks && d in g.tasks && (d, id) in g.depends && k < |g.tasks[d].inputs|
    ensures var i := g.tasks[d].inputs[k];
      var r := CopyTaskOutputs(g, id).tasks[d].inputs[k];
      && ((exists o :: o in g.tasks[id].outputs && o.id == i.source && o.value.Some?) ==>
            exists o :: o in g.tasks[id].outputs && o.id == i.source && r.value == o.value)
      && ((!exists o :: o in g.tasks[id].outputs && o.id == i.source && o.value.Some?) && i.value.None? ==>
            r.value == (if DepsCompleted(g, d, id) then i.default else None))
  {
    var i := g.tasks[d].inputs[k];
    var r := CopyTaskOutputs(g, id).tasks[d].inputs[k];
    assert r == CopyInput(g.tasks[id].outputs, DepsCompleted(g, d, id), i);
  }

  /**
   * A dependent whose only dependency is the finished task gets no default:
   * its one DEPENDS edge cannot stand for both relationships of the pattern.
   */
  lemma CopyOnlyDependencyNoDefault(g: Graph, id: string, d: string, k: nat)
    requires id in g.tasks && d in g.tasks && (d, id) in g.depends && k < |g.tasks[d].inputs|
    requires forall x :: (d, x) in g.depends ==> x == id
    requires OutValue(g.tasks[id].outputs, g.tasks[d].inputs[k].source).None?
    ensures CopyTaskOutputs(g, id).tasks[d].inputs[k] == g.tasks[d].inputs[k]
  {
    assert !DepsCompleted(g, d, id);
    assert CopyTaskOutputs(g, id).tasks[d].inputs[k] == CopyInput(g.tasks[id].outputs, false, g.tasks[d].inputs[k]);
  }

  // ---------------------------------------------------------------------
  // Metadata
  // ---------------------------------------------------------------------

  const MetadataMatch := "MATCH (m:Metadata)-[:DESCRIBES]->(:Task {id: $task_id})"

  /** A value as it is written into the query: strings in single quotes, anything else as is. */
  function Render(v: MetaValue): string {
    match v
    case Str(s) => "'" + s + "'"
    case Lit(t) => t
  }

  function SetClause(k: string, v: MetaValue): string {
    " SET m." + k + " = " + Render(v)
  }

  /** The query `set_task_metadata` sends: one SET clause per item, in order. */
  function MetadataQuery(items: seq<(string, MetaValue)>): (r: string)
    decreases |items|
  {
    if items == [] then MetadataMatch
    else MetadataQuery(items[..|items| - 1]) + SetClause(items[|items| - 1].0, items[|items| - 1].1)
  }

  /** The clauses of the items in order, without the leading MATCH. */
  function Clauses(items: seq<(string, MetaValue)>): string
    decreases |items|
  {
    if items == [] then "" else SetClause(items[0].0, items[0].1) + Clauses(items[1..])
  }

  /** The query is the MATCH followed by the clauses of the items, from first to last. */
  lemma {:induction false} MetadataQueryClauses(items: seq<(string, MetaValue)>)
    ensures MetadataQuery(items) == MetadataMatch + Clauses(items)
    decreases |items|
  {
    if items != [] {
      var front, last := items[..|items| - 1], items[|items| - 1];
      MetadataQueryClauses(front);
      assert front + [last] == items;
      ClausesSnoc(front, last);
      assert MetadataQuery(items) == MetadataQuery(front) + SetClause(last.0, last.1);
      assert MetadataMatch + Clauses(front) + SetClause(last.0, last.1)
          == MetadataMatch + (Clauses(front) + SetClause(last.0, last.1));
    }
  }

  lemma {:induction false} ClausesSnoc(items: seq<(string, MetaValue)>, x: (string, MetaValue))
    ensures Clauses(items + [x]) == Clauses(items) + SetClause(x.0, x.1)
    decreases |items|
  {
    if items == [] {
      assert [] + [x] == [x];
      assert [x][1..] == [];
    } else {
      assert (items + [x])[0] == items[0];
      assert (items + [x])[1..] == items[1..] + [x];
      ClausesSnoc(items[1..], x);
    }
  }

  /** A string item's clause ends its value in single quotes; any other item's clause ends in its text. */
  lemma SetClauseQuotes(k: string, v: MetaValue)
    ensures v.Str? ==> SetClause(k, v) == " SET m." + k + " = '" + v.s + "'"
    ensures v.Lit? ==> SetClause(k, v) == " SET m." + k + " = " + v.text
  {
  }

  /** The metadata node after the SET clauses of the items, first to last. */
  function ApplyItems(m: Metadata, items: seq<(string, MetaValue)>): (r: Metadata)
    ensures forall k :: k in r <==> k in m || exists j :: 0 <= j < |items| && items[j].0 == k
    decreases |items|
  {
    if items == [] then m
    else
      var r := ApplyItems(m, items[..|items| - 1])[items[|items| - 1].0 := items[|items| - 1].1];
      assert forall j :: 0 <= j < |items| - 1 ==> items[..|items| - 1][j] == items[j];
      r
  }

  /** With distinct keys, as in a dictionary, each item's key holds that item's value. */
  lemma {:induction false} ApplyItemsLookup(m: Metadata, items: seq<(string, MetaValue)>, j: nat)
    requires j < |items|
    requires forall a, b :: 0 <= a < b < |items| ==> items[a].0 != items[b].0
    ensures items[j].0 in ApplyItems(m, items) && ApplyItems(m, items)[items[j].0] == items[j].1
    decreases |items|
  {
    if j < |items| - 1 {
      var front := items[..|items| - 1];
      assert front[j] == items[j];
      ApplyItemsLookup(m, front, j);
      assert items[|items| - 1].0 != items[j].0;
    }
  }

  /** The keys no item names keep their values. */
  lemma {:induction false} ApplyItemsKeeps(m: Metadata, items: seq<(string, MetaValue)>, k: string)
    requires k in m && forall j :: 0 <= j < |items| ==> items[j].0 != k
    ensures ApplyItems(m, items)[k] == m[k]
    decreases |items|
  {
    if items != [] {
      var front := items[..|items| - 1];
      assert forall j :: 0 <= j < |front| ==> front[j] == items[j];
      ApplyItemsKeeps(m, front, k);
    }
  }

  /** `set_task_metadata`'s effect: the items are set on the task's metadata node. */
  function SetTaskMetadata(g: Graph, id: string, items: seq<(string, MetaValue)>): (r: Graph)
    ensures r.meta.Keys == g.meta.Keys
    ensures id in g.meta ==> r.meta[id] == ApplyItems(g.meta[id], items)
    ensures forall t :: t in g.meta && t != id ==> r.meta[t] == g.meta[t]
    ensures r.tasks == g.tasks && r.depends == g.depends && r.begins == g.begins
    ensures Valid(g) ==> Valid(r)
  {
    if id in g.meta then g.(meta := g.meta[id := ApplyItems(g.meta[id], items)]) else g
  }

  /** Builds the query of `set_task_metadata` clause by clause. */
  method BuildMetadataQuery(items: seq<(string, MetaValue)>) returns (query: string)
    ensures query == MetadataMatch + Clauses(items)
  {
    query := MetadataMatch;
    var j := 0;
    while j < |items|
      invariant 0 <= j <= |items|
      invariant query == MetadataQuery(items[..j])
    {
      assert items[..j + 1][..j] == items[..j];
      query := query + SetClause(items[j].0, items[j].1);
      j := j + 1;
    }
    assert items[..|items|] == items;
    MetadataQueryClauses(items);
  }

  /** The stored graph of a Neo4j database and the write transactions on it. */
  class GraphDatabase {
    var graph: Graph

    constructor()
      ensures graph == EmptyGraph
    {
      graph := EmptyGraph;
    }

    method CreateTaskMetadataNodeTx(id: string)
      modifies this
      ensures graph == CreateTaskMetadataNode(old(graph), id)
    {
      graph := CreateTaskMetadataNode(graph, id);
    }

    method AddDependenciesTx(id: string)
      modifies this
      ensures graph == AddDependencies(old(graph), id)
    {
      graph := AddDependencies(graph, id);
    }

    method SetTaskStateTx(id: string, s: string)
      modifies this
      ensures graph == SetTaskState(old(graph), id, s)
    {
      graph := SetTaskState(graph, id, s);
    }

    method SetTaskMetadataTx(id: string, items: seq<(string, MetaValue)>) returns (query: string)
      modifies this
      ensures query == MetadataMatch + Clauses(items)
      ensures graph == SetTaskMetadata(old(graph), id, items)
    {
      query := BuildMetadataQuery(items);
      graph := SetTaskMetadata(graph, id, items);
    }

    method SetInitTasksToReadyTx()
      modifies this
      ensures graph == SetInitTasksToReady(old(graph))
    {
      graph := SetInitTasksToReady(graph);
    }

    method SetInitTaskInputsTx()
      modifies this
      ensures graph == SetInitTaskInputs(old(graph))
    {
      graph := SetInitTaskInputs(graph);
    }

    method CopyTaskOutputsTx(id: string)
      modifies this
      ensures graph == CopyTaskOutputs(old(graph), id)
    {
      graph := CopyTaskOutputs(graph, id);
    }

    method SetRunningTasksToPausedTx()
      modifies this
      ensures graph == SetRunningTasksToPaused(old(graph))
    {
      graph := SetRunningTasksToPaused(graph);
    }

    method SetPausedTasksToRunningTx()
      modifies this
      ensures graph == SetPausedTasksToRunning(old(graph))
    {
      graph := SetPausedTasksToRunning(graph);
    }

    method SetRunnableTasksToReadyTx()
      modifies this
      ensures graph == SetRunnableTasksToReady(old(graph))
    {
      graph := SetRunnableTasksToReady(graph);
    }

    method ResetTasksMetadataTx()
      modifies this
      ensures graph == ResetTasksMetadata(old(graph))
    {
      graph := ResetTasksMetadata(graph);
    }

    function AllTasksCompletedTx(): bool
      reads this
    {
      AllTasksCompleted(graph)
    }

    function IsEmptyTx(): bool
      reads this
    {
      IsEmpty(graph)
    }
  }
}
