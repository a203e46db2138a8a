/**
 * The start-up script of BEE (src/beeflow/cli.py): which services `main`
 * starts and in which order, when it gives up, the default configuration
 * sections and ports the `Start*` helpers write, and the `neo4j.conf` edit
 * of the graph database.  The user configuration is a map of sections; the
 * processes, the user id and the login name are parameters.
 */
module BeeStart {
  import opened Wrappers
  import opened PyText

  datatype Service = Restd | Sched | Gdb | Wfm | Tm

  /** The command-line options `main` reads; an absent option is `None`. */
  datatype Args = Args(
    debug: bool, wfm: bool, tm: bool, gdb: bool, restd: bool, sched: bool,
    userconfigFile: Option<string>, beeWorkdir: Option<string>, jobTemplate: Option<string>,
    workloadScheduler: Option<string>, configOnly: bool)

  /** The user configuration: option values by section. */
  type Config = map<string, map<string, string>>

  /** A started process. */
  type Proc = int

  /** Whether the process for a service could be started. */
  type Launcher = Service -> Option<Proc>

  /** An option string that Python treats as true: given and not empty. */
  predicate Given(o: Option<string>) {
    o.Some? && o.value != ""
  }

  // The service flags and the two checks at the top of `main`.

  function ServiceFlags(a: Args): seq<bool> {
    [a.wfm, a.tm, a.gdb, a.restd, a.sched]
  }

  /** `sum(flags)` */
  function Count(bs: seq<bool>): nat {
    if bs == [] then 0 else (if bs[0] then 1 else 0) + Count(bs[1..])
  }

  lemma {:induction false} CountNone(bs: seq<bool>)
    ensures Count(bs) == 0 <==> forall i :: 0 <= i < |bs| ==> !bs[i]
  {
    if bs != [] {
      CountNone(bs[1..]);
      assert forall i :: 1 <= i < |bs| ==> bs[i] == bs[1..][i - 1];
    }
  }

  lemma {:induction false} CountAll(bs: seq<bool>)
    ensures Count(bs) <= |bs|
    ensures Count(bs) == |bs| <==> forall i :: 0 <= i < |bs| ==> bs[i]
  {
    if bs != [] {
      CountAll(bs[1..]);
      assert forall i :: 1 <= i < |bs| ==> bs[i] == bs[1..][i - 1];
    }
  }

  /** `start_all`: `not any(flags) or all(flags)` over the five service flags. */
  function StartAll(a: Args): bool {
    !(a.wfm || a.tm || a.gdb || a.restd || a.sched) || (a.wfm && a.tm && a.gdb && a.restd && a.sched)
  }

  /** Starting everything means no service flag at all, or all five of them. */
  lemma StartAllCount(a: Args)
    ensures StartAll(a) <==> Count(ServiceFlags(a)) == 0 || Count(ServiceFlags(a)) == 5
  {
    var flags := ServiceFlags(a);
    CountNone(flags);
    CountAll(flags);
    assert (forall i :: 0 <= i < |flags| ==> !flags[i]) <==> !(a.wfm || a.tm || a.gdb || a.restd || a.sched) by {
      if a.wfm || a.tm || a.gdb || a.restd || a.sched {
        assert flags[0] || flags[1] || flags[2] || flags[3] || flags[4];
      }
    }
    assert (forall i :: 0 <= i < |flags| ==> flags[i]) <==> (a.wfm && a.tm && a.gdb && a.restd && a.sched) by {
      if !(a.wfm && a.tm && a.gdb && a.restd && a.sched) {
        assert !flags[0] || !flags[1] || !flags[2] || !flags[3] || !flags[4];
      }
    }
  }

  /** Debugging needs exactly one service. */
  predicate DebugRefused(a: Args) {
    a.debug && Count(ServiceFlags(a)) != 1
  }

  // Default ports.

  const BoltBase := 7687
  const HttpBase := 7474
  const HttpsBase := 7473
  const WfmBase := 5000
  const TmBase := 5050
  const SchedBase := 5100

  /** `os.getuid() % 100`, or the parent's process id on Windows. */
  function Offset(id: nat): (r: nat)
    ensures r < 100
  {
    id % 100
  }

  /** A default port: the base plus the user's offset. */
  function DefaultPort(base: nat, id: nat): (p: nat)
    ensures base <= p <= base + 99
    ensures p - base == id % 100
  {
    base + Offset(id)
  }

  /** Two users whose ids agree modulo 100 get the same ports; the others get different ones. */
  lemma DefaultPortsPerUser(base: nat, id1: nat, id2: nat)
    ensures DefaultPort(base, id1) == DefaultPort(base, id2) <==> id1 % 100 == id2 % 100
  {
  }

  function SectionName(s: Service): string {
    match s
    case Restd => "slurmrestd"
    case Sched => "scheduler"
    case Gdb => "graphdb"
    case Wfm => "workflow_manager"
    case Tm => "task_manager"
  }

  lemma SectionNamesDistinct(s: Service, t: Service)
    ensures SectionName(s) == SectionName(t) <==> s == t
  {
  }

  /** The section a `Start*` helper writes when the configuration has none. */
  function DefaultSection(s: Service, id: nat, login: string): map<string, string> {
    match s
    case Restd => map["slurm_socket" := "/tmp/slurm_" + login + "_" + IntToString(100 + Offset(id)) + ".sock"]
    case Sched => map["listen_port" := IntToString(DefaultPort(SchedBase, id))]
    case Gdb => map[
      "hostname" := "localhost",
      "dbpass" := "password",
      "bolt_port" := IntToString(DefaultPort(BoltBase, id)),
      "http_port" := IntToString(DefaultPort(HttpBase, id)),
      "https_port" := IntToString(DefaultPort(HttpsBase, id)),
      "gdb_image" := "/usr/projects/beedev/neo4j-3-5-17-ch.tar.gz",
      "gdb_image_mntdir" := "/tmp"]
    case Wfm => map["listen_port" := IntToString(DefaultPort(WfmBase, id))]
    case Tm => map["listen_port" := IntToString(DefaultPort(TmBase, id)), "container_runtime" := "Charliecloud"]
  }

  /** A default port written out reads back as the base plus the offset. */
  lemma DefaultPortText(base: nat, id: nat)
    ensures ParseInt(IntToString(DefaultPort(base, id))) == Some(base + id % 100)
  {
    ParseIntToString(DefaultPort(base, id));
  }

  /** `bc.modify_section('user', name, d)`: the options of `d` are set in the section. */
  function ModifySection(cfg: Config, name: string, d: map<string, string>): (r: Config)
    ensures r.Keys == cfg.Keys + {name}
    ensures r[name].Keys == (if name in cfg then cfg[name].Keys else {}) + d.Keys
    ensures forall k :: k in d ==> r[name][k] == d[k]
    ensures forall n :: n in cfg && n != name ==> r[n] == cfg[n]
  {
    cfg[name := (if name in cfg then cfg[name] else map[]) + d]
  }

  /** `bee_workdir` of the DEFAULT section. */
  function BeeWorkdir(cfg: Config): string {
    if "DEFAULT" in cfg && "bee_workdir" in cfg["DEFAULT"] then cfg["DEFAULT"]["bee_workdir"] else ""
  }

  // The `Start*` helpers.

  datatype Started = Started(cfg: Config, proc: Option<Proc>)

  /** The default section, written when the configuration has none. */
  function WithDefaults(s: Service, cfg: Config, id: nat, login: string): (r: Config)
    ensures SectionName(s) in r
    ensures SectionName(s) in cfg ==> r == cfg
    ensures forall n :: n in cfg && n != SectionName(s) ==> n in r && r[n] == cfg[n]
    ensures r.Keys == cfg.Keys + {SectionName(s)}
  {
    if SectionName(s) in cfg then cfg else ModifySection(cfg, SectionName(s), DefaultSection(s, id, login))
  }

  /**
   * `StartTaskManager` as written: without a task_manager section it writes
   * the defaults and gives no process, even when everything else is
   * configured; with one it starts the process even under `--config-only`.
   * A job template given on the command line is written in both cases.
   */
  function StartTaskManager(cfg: Config, a: Args, id: nat, login: string, launch: Launcher): (r: Started)
    ensures "task_manager" !in cfg ==> r.proc.None?
    ensures "task_manager" in cfg ==> r.proc == launch(Tm)
    ensures Given(a.jobTemplate) ==>
      "task_manager" in r.cfg && "job_template" in r.cfg["task_manager"] && r.cfg["task_manager"]["job_template"] == a.jobTemplate.value
  {
    var cfg1 := WithDefaults(Tm, cfg, id, login);
    var cfg2 := if Given(a.jobTemplate) then ModifySection(cfg1, "task_manager", map["job_template" := a.jobTemplate.value]) else cfg1;
    Started(cfg2, if "task_manager" !in cfg then None else launch(Tm))
  }

  /** `StartTaskManager` as the other helpers behave: no process only under `--config-only`. */
  function StartTaskManagerFixed(cfg: Config, a: Args, id: nat, login: string, launch: Launcher): (r: Started)
    ensures a.configOnly ==> r.proc.None?
    ensures !a.configOnly ==> r.proc == launch(Tm)
    ensures r.cfg.Keys == cfg.Keys + {"task_manager"}
  {
    var cfg1 := WithDefaults(Tm, cfg, id, login);
    var cfg2 := if Given(a.jobTemplate) then ModifySection(cfg1, "task_manager", map["job_template" := a.jobTemplate.value]) else cfg1;
    Started(cfg2, if a.configOnly then None else launch(Tm))
  }

  /**
   * One `Start*` helper: the defaults first, then no process under
   * `--config-only`, else the process as launched.  slurmrestd also gets a
   * log file under the work directory when none is configured.
   */
  function StartService(s: Service, cfg: Config, a: Args, id: nat, login: string, launch: Launcher, tmFixed: bool): (r: Started)
    ensures SectionName(s) in r.cfg
    ensures forall n :: n in cfg && n != SectionName(s) ==> n in r.cfg && r.cfg[n] == cfg[n]
    ensures r.cfg.Keys == cfg.Keys + {SectionName(s)}
    ensures s != Tm || tmFixed ==> (a.configOnly ==> r.proc.None?) && (!a.configOnly ==> r.proc == launch(s))
  {
    if s == Tm then
      if tmFixed then StartTaskManagerFixed(cfg, a, id, login, launch) else StartTaskManager(cfg, a, id, login, launch)
    else
      var cfg1 := WithDefaults(s, cfg, id, login);
      if a.configOnly then Started(cfg1, None)
      else if s == Restd && "log" !in cfg1["slurmrestd"] then
        Started(ModifySection(cfg1, "slurmrestd", map["log" := Join("/", [BeeWorkdir(cfg1), "logs", "slurmrestd.log"])]), launch(Restd))
      else Started(cfg1, launch(s))
  }

  /** A `Start*` helper applied to a service and the configuration so far. */
  type Starter = (Service, Config) -> Started

  /** The `Start*` helpers of this run of `main`. */
  function StarterOf(a: Args, id: nat, login: string, launch: Launcher, tmFixed: bool): Starter {
    (s: Service, c: Config) => StartService(s, c, a, id, login, launch, tmFixed)
  }

  // The plan `main` follows.

  /** The services `main` tries, in its order; slurmrestd only under Slurm. */
  function Plan(a: Args, ws: string): seq<Service> {
    Opt(Wanted(a, ws, Restd), Restd)
      + (Opt(Wanted(a, ws, Sched), Sched)
      + (Opt(Wanted(a, ws, Gdb), Gdb)
      + (Opt(Wanted(a, ws, Wfm), Wfm)
      + Opt(Wanted(a, ws, Tm), Tm))))
  }

  /** The service when it is wanted. */
  function Opt(wanted: bool, s: Service): seq<Service> {
    if wanted then [s] else []
  }

  function Wanted(a: Args, ws: string, s: Service): bool {
    var all := StartAll(a);
    match s
    case Restd => ws == "Slurm" && (a.restd || all)
    case Sched => a.sched || all
    case Gdb => a.gdb || all
    case Wfm => a.wfm || all
    case Tm => a.tm || all
  }

  /** Starting everything: the four services, after slurmrestd under Slurm. */
  lemma PlanAll(a: Args, ws: string)
    requires StartAll(a)
    ensures Plan(a, ws) == (if ws == "Slurm" then [Restd] else []) + [Sched, Gdb, Wfm, Tm]
  {
  }

  /** Each service is tried exactly when it is wanted, and at most once. */
  lemma PlanWanted(a: Args, ws: string, s: Service)
    ensures s in Plan(a, ws) <==> Wanted(a, ws, s)
    ensures multiset(Plan(a, ws))[s] <= 1
  {
  }

  /** The services `main` waits for, and the names it gives them. */
  function WaitName(s: Service): Option<string> {
    match s
    case Sched => Some("Scheduler")
    case Wfm => Some("Workflow Manager")
    case Tm => Some("Task Manager")
    case _ => None
  }

  datatype MainResult = MainResult(code: int, cfg: Config, tried: seq<Service>, waitList: seq<(string, Proc)>)

  /**
   * The services of a plan tried in order: the first that gives no process
   * ends the run with 1, unless only the configuration is written.
   */
  function RunPlan(plan: seq<Service>, cfg: Config, configOnly: bool, start: Starter): MainResult
    decreases |plan|
  {
    if plan == [] then MainResult(0, cfg, [], [])
    else
      var st := start(plan[0], cfg);
      if !configOnly && st.proc.None? then MainResult(1, st.cfg, [plan[0]], [])
      else
        var rest := RunPlan(plan[1..], st.cfg, configOnly, start);
        var waited := if !configOnly && WaitName(plan[0]).Some? then [(WaitName(plan[0]).value, st.proc.value)] else [];
        MainResult(rest.code, rest.cfg, [plan[0]] + rest.tried, waited + rest.waitList)
  }

  /** The configuration once the command-line work directory and scheduler are written. */
  function Configured(a: Args, cfg0: Config, resolve: string -> string): (r: Config)
    ensures Given(a.beeWorkdir) ==> "DEFAULT" in r && "bee_workdir" in r["DEFAULT"] && r["DEFAULT"]["bee_workdir"] == resolve(a.beeWorkdir.value)
    ensures Given(a.workloadScheduler) ==>
      "DEFAULT" in r && "workload_scheduler" in r["DEFAULT"] && r["DEFAULT"]["workload_scheduler"] == a.workloadScheduler.value
    ensures !Given(a.beeWorkdir) && !Given(a.workloadScheduler) ==> r == cfg0
  {
    var cfg1 := if Given(a.beeWorkdir) then ModifySection(cfg0, "DEFAULT", map["bee_workdir" := resolve(a.beeWorkdir.value)]) else cfg0;
    if Given(a.workloadScheduler) then ModifySection(cfg1, "DEFAULT", map["workload_scheduler" := a.workloadScheduler.value]) else cfg1
  }

  /** The configured workload scheduler, and the configuration with 'Slurm' written when there is none. */
  function Scheduler(cfg: Config): (r: (string, Config))
    ensures "DEFAULT" in r.1 && "workload_scheduler" in r.1["DEFAULT"] && r.1["DEFAULT"]["workload_scheduler"] == r.0
    ensures !("DEFAULT" in cfg && "workload_scheduler" in cfg["DEFAULT"]) ==> r.0 == "Slurm"
    ensures "DEFAULT" in cfg && "workload_scheduler" in cfg["DEFAULT"] ==> r == (cfg["DEFAULT"]["workload_scheduler"], cfg)
  {
    if "DEFAULT" in cfg && "workload_scheduler" in cfg["DEFAULT"] then (cfg["DEFAULT"]["workload_scheduler"], cfg)
    else ("Slurm", ModifySection(cfg, "DEFAULT", map["workload_scheduler" := "Slurm"]))
  }

  /** The run of the rest of a plan, after what was already done. */
  function Then(done: MainResult, r: MainResult): MainResult {
    MainResult(r.code, r.cfg, done.tried + r.tried, done.waitList + r.waitList)
  }

  /**
   * One block of `main`: a wanted service is started; when it gives no
   * process and more than the configuration is asked for, `main` stops
   * with 1; a started scheduler, workflow manager or task manager is
   * added to the processes waited for.
   */
  method StartIfWanted(s: Service, wanted: bool, acc: MainResult, configOnly: bool, start: Starter,
                       ghost rest: seq<Service>, ghost goal: MainResult)
    returns (next: MainResult, stop: bool)
    requires goal == Then(acc, RunPlan(Opt(wanted, s) + rest, acc.cfg, configOnly, start))
    ensures stop ==> next == goal && next.code == 1
    ensures !stop ==> next.code == 0 && goal == Then(next, RunPlan(rest, next.cfg, configOnly, start))
  {
    if !wanted {
      assert [] + rest == rest;
      return MainResult(0, acc.cfg, acc.tried, acc.waitList), false;
    }
    var st := start(s, acc.cfg);
    assert ([s] + rest)[1..] == rest;
    next := MainResult(0, st.cfg, acc.tried + [s], acc.waitList);
    stop := false;
    if !configOnly {
      if st.proc.None? {
        next := MainResult(1, st.cfg, acc.tried + [s], acc.waitList);
        stop := true;
        return;
      }
      var name := WaitName(s);
      if name.Some? {
        next := MainResult(0, st.cfg, acc.tried + [s], acc.waitList + [(name.value, st.proc.value)]);
      }
    }
  }

  /**
   * `main`: the debug check, the configuration from the command line, then
   * slurmrestd, scheduler, graph database, workflow manager and task
   * manager, each when wanted, stopping at the first that gives no process.
   * Sleeping and polling afterwards only log.
   */
  method RunMain(a: Args, cfg0: Config, id: nat, login: string, launch: Launcher, resolve: string -> string)
    returns (r: MainResult)
    ensures DebugRefused(a) ==> r == MainResult(1, cfg0, [], [])
    ensures !DebugRefused(a) ==>
      var cfgS := Scheduler(Configured(a, cfg0, resolve));
      r == RunPlan(Plan(a, cfgS.0), cfgS.1, a.configOnly, StarterOf(a, id, login, launch, false))
  {
    if a.debug && Count(ServiceFlags(a)) != 1 {
      return MainResult(1, cfg0, [], []);
    }
    var cfg := cfg0;
    if Given(a.beeWorkdir) {
      cfg := ModifySection(cfg, "DEFAULT", map["bee_workdir" := resolve(a.beeWorkdir.value)]);
    }
    if Given(a.workloadScheduler) {
      cfg := ModifySection(cfg, "DEFAULT", map["workload_scheduler" := a.workloadScheduler.value]);
    }
    assert cfg == Configured(a, cfg0, resolve);
    var sched := Scheduler(cfg);
    r := StartServices(a, sched.0, sched.1, StarterOf(a, id, login, launch, false));
  }

  /** The five blocks of `main`, in order, each run when its service is wanted. */
  method StartServices(a: Args, ws: string, cfg: Config, start: Starter) returns (r: MainResult)
    ensures r == RunPlan(Plan(a, ws), cfg, a.configOnly, start)
  {
    ghost var goal := RunPlan(Plan(a, ws), cfg, a.configOnly, start);
    r := MainResult(0, cfg, [], []);
    assert goal == Then(r, goal);
    var stop;
    r, stop := StartIfWanted(Restd, Wanted(a, ws, Restd), r, a.configOnly, start,
      Opt(Wanted(a, ws, Sched), Sched) + (Opt(Wanted(a, ws, Gdb), Gdb) + (Opt(Wanted(a, ws, Wfm), Wfm) + Opt(Wanted(a, ws, Tm), Tm))), goal);
    if stop {
      return;
    }
    r, stop := StartIfWanted(Sched, Wanted(a, ws, Sched), r, a.configOnly, start,
      Opt(Wanted(a, ws, Gdb), Gdb) + (Opt(Wanted(a, ws, Wfm), Wfm) + Opt(Wanted(a, ws, Tm), Tm)), goal);
    if stop {
      return;
    }
    r := StartLastThree(a, ws, r, start, goal);
  }

  /** The graph database, workflow manager and task manager blocks of `main`. */
  method StartLastThree(a: Args, ws: string, acc: MainResult, start: Starter, ghost goal: MainResult) returns (r: MainResult)
    requires goal == Then(acc, RunPlan(Opt(Wanted(a, ws, Gdb), Gdb) + (Opt(Wanted(a, ws, Wfm), Wfm) + Opt(Wanted(a, ws, Tm), Tm)),
                                       acc.cfg, a.configOnly, start))
    ensures r == goal
  {
    var stop;
    r, stop := StartIfWanted(Gdb, Wanted(a, ws, Gdb), acc, a.configOnly, start,
      Opt(Wanted(a, ws, Wfm), Wfm) + Opt(Wanted(a, ws, Tm), Tm), goal);
    if stop {
      return;
    }
    r, stop := StartIfWanted(Wfm, Wanted(a, ws, Wfm), r, a.configOnly, start, Opt(Wanted(a, ws, Tm), Tm), goal);
    if stop {
      return;
    }
    assert Opt(Wanted(a, ws, Tm), Tm) + [] == Opt(Wanted(a, ws, Tm), Tm);
    r, stop := StartIfWanted(Tm, Wanted(a, ws, Tm), r, a.configOnly, start, [], goal);
    if !stop {
      assert goal == Then(r, MainResult(0, r.cfg, [], []));
      assert r.tried + [] == r.tried && r.waitList + [] == r.waitList;
    }
  }

  // What the plan run guarantees.

  /** Every helper writes its own section and drops none. */
  ghost predicate WritesSections(start: Starter) {
    forall s, c :: SectionName(s) in start(s, c).cfg && c.Keys <= start(s, c).cfg.Keys
  }

  lemma StarterWritesSections(a: Args, id: nat, login: string, launch: Launcher, tmFixed: bool)
    ensures WritesSections(StarterOf(a, id, login, launch, tmFixed))
  {
    var start := StarterOf(a, id, login, launch, tmFixed);
    forall s, c
      ensures SectionName(s) in start(s, c).cfg && c.Keys <= start(s, c).cfg.Keys
    {
      assert start(s, c) == StartService(s, c, a, id, login, launch, tmFixed);
    }
  }

  /** Sections once written stay. */
  lemma {:induction false} RunPlanKeepsSections(plan: seq<Service>, cfg: Config, configOnly: bool, start: Starter)
    requires WritesSections(start)
    ensures cfg.Keys <= RunPlan(plan, cfg, configOnly, start).cfg.Keys
    decreases |plan|
  {
    if plan != [] {
      var st := start(plan[0], cfg);
      if configOnly || st.proc.Some? {
        RunPlanKeepsSections(plan[1..], st.cfg, configOnly, start);
      }
    }
  }

  /** With `--config-only` every wanted service is configured, none is waited for, and the code is 0. */
  lemma {:induction false} RunPlanConfigOnly(plan: seq<Service>, cfg: Config, start: Starter)
    requires WritesSections(start)
    ensures var r := RunPlan(plan, cfg, true, start);
      r.code == 0 && r.tried == plan && r.waitList == []
      && forall s :: s in plan ==> SectionName(s) in r.cfg
    decreases |plan|
  {
    if plan != [] {
      var st := start(plan[0], cfg);
      RunPlanConfigOnly(plan[1..], st.cfg, start);
      RunPlanKeepsSections(plan[1..], st.cfg, true, start);
      assert plan == [plan[0]] + plan[1..];
    }
  }

  /**
   * The services tried are a prefix of the plan; a run ends with 0 or 1,
   * and with 0 only after trying the whole plan.
   */
  lemma {:induction false} RunPlanPrefix(plan: seq<Service>, cfg: Config, configOnly: bool, start: Starter)
    ensures var r := RunPlan(plan, cfg, configOnly, start);
      && |r.tried| <= |plan| && r.tried == plan[..|r.tried|]
      && (r.code == 0 || r.code == 1)
      && (r.code == 0 ==> r.tried == plan)
      && (r.code == 1 ==> r.tried != [])
    decreases |plan|
  {
    if plan != [] {
      var st := start(plan[0], cfg);
      if configOnly || st.proc.Some? {
        RunPlanPrefix(plan[1..], st.cfg, configOnly, start);
        var r := RunPlan(plan, cfg, configOnly, start);
        var rest := RunPlan(plan[1..], st.cfg, configOnly, start);
        assert r.tried == [plan[0]] + rest.tried;
        assert plan == [plan[0]] + plan[1..];
        assert r.tried == plan[..|r.tried|];
      } else {
        assert [plan[0]] == plan[..1];
      }
    }
  }

  /** The names of the services of a plan that `main` waits for, in order. */
  function WaitedNames(plan: seq<Service>): seq<string> {
    if plan == [] then []
    else (if WaitName(plan[0]).Some? then [WaitName(plan[0]).value] else []) + WaitedNames(plan[1..])
  }

  /** When every service can be started, every wanted service is started and waited for as named. */
  lemma {:induction false} RunPlanAllStarted(plan: seq<Service>, cfg: Config, start: Starter)
    requires forall s, c :: start(s, c).proc.Some?
    ensures var r := RunPlan(plan, cfg, false, start);
      r.code == 0 && r.tried == plan && |r.waitList| == |WaitedNames(plan)|
      && forall i :: 0 <= i < |r.waitList| ==> r.waitList[i].0 == WaitedNames(plan)[i]
    decreases |plan|
  {
    if plan != [] {
      var st := start(plan[0], cfg);
      RunPlanAllStarted(plan[1..], st.cfg, start);
      assert plan == [plan[0]] + plan[1..];
    }
  }

  /** A plan ending in the task manager, before which everything starts, fails on it when it has no section. */
  lemma {:induction false} TmStartsLast(plan: seq<Service>, cfg: Config, start: Starter)
    requires forall s, c :: s != Tm ==> start(s, c).proc.Some? && ("task_manager" !in c ==> "task_manager" !in start(s, c).cfg)
    requires forall c :: "task_manager" !in c ==> start(Tm, c).proc.None?
    requires plan != [] && plan[|plan| - 1] == Tm && Tm !in plan[..|plan| - 1] && "task_manager" !in cfg
    ensures var r := RunPlan(plan, cfg, false, start);
      r.code == 1 && r.tried == plan
    decreases |plan|
  {
    if |plan| > 1 {
      var st := start(plan[0], cfg);
      assert plan[0] in plan[..|plan| - 1];
      assert plan[1..][..|plan[1..]| - 1] == plan[..|plan| - 1][1..];
      TmStartsLast(plan[1..], st.cfg, start);
      assert plan == [plan[0]] + plan[1..];
    }
  }

  /** The helpers as written: all but the task manager start; without its section the task manager does not. */
  lemma StarterAsWritten(a: Args, id: nat, login: string, launch: Launcher)
    requires !a.configOnly && forall s :: launch(s).Some?
    ensures var start := StarterOf(a, id, login, launch, false);
      && (forall s, c :: s != Tm ==> start(s, c).proc.Some? && ("task_manager" !in c ==> "task_manager" !in start(s, c).cfg))
      && (forall c :: "task_manager" !in c ==> start(Tm, c).proc.None?)
  {
    var start := StarterOf(a, id, login, launch, false);
    forall s, c | s != Tm
      ensures start(s, c).proc.Some? && ("task_manager" !in c ==> "task_manager" !in start(s, c).cfg)
    {
      assert start(s, c) == StartService(s, c, a, id, login, launch, false);
      SectionNamesDistinct(s, Tm);
    }
    forall c | "task_manager" !in c
      ensures start(Tm, c).proc.None?
    {
      assert start(Tm, c) == StartService(Tm, c, a, id, login, launch, false);
    }
  }

  /** The helpers with the task manager fixed: every one starts. */
  lemma StarterFixedStarts(a: Args, id: nat, login: string, launch: Launcher)
    requires !a.configOnly && forall s :: launch(s).Some?
    ensures var start := StarterOf(a, id, login, launch, true);
      forall s, c :: start(s, c).proc.Some?
  {
    var start := StarterOf(a, id, login, launch, true);
    forall s, c
      ensures start(s, c).proc.Some?
    {
      assert start(s, c) == StartService(s, c, a, id, login, launch, true);
    }
  }

  const FirstArgs := Args(false, false, false, false, false, false, None, None, None, None, false)

  /**
   * As written, the first start without a task_manager section ends with 1
   * even though every process could be started: StartTaskManager gives
   * none after writing the defaults.
   */
  lemma FirstStartExitsWithOne(cfg0: Config, id: nat, login: string, launch: Launcher, resolve: string -> string)
    requires "task_manager" !in cfg0 && forall s :: launch(s).Some?
    ensures var cfgS := Scheduler(Configured(FirstArgs, cfg0, resolve));
      var r := RunPlan(Plan(FirstArgs, cfgS.0), cfgS.1, false, StarterOf(FirstArgs, id, login, launch, false));
      r.code == 1 && r.tried == Plan(FirstArgs, cfgS.0) && r.tried[|r.tried| - 1] == Tm
  {
    var cfgS := Scheduler(Configured(FirstArgs, cfg0, resolve));
    var start := StarterOf(FirstArgs, id, login, launch, false);
    var plan := Plan(FirstArgs, cfgS.0);
    assert StartAll(FirstArgs);
    PlanAll(FirstArgs, cfgS.0);
    assert plan[..|plan| - 1] == if cfgS.0 == "Slurm" then [Restd, Sched, Gdb, Wfm] else [Sched, Gdb, Wfm];
    StarterAsWritten(FirstArgs, id, login, launch);
    TmStartsLast(plan, cfgS.1, start);
  }

  /** With the task manager started like the others, the same first start starts all and ends with 0. */
  lemma AllStartedExitsZero(cfg0: Config, id: nat, login: string, launch: Launcher, resolve: string -> string)
    requires forall s :: launch(s).Some?
    ensures var cfgS := Scheduler(Configured(FirstArgs, cfg0, resolve));
      var r := RunPlan(Plan(FirstArgs, cfgS.0), cfgS.1, false, StarterOf(FirstArgs, id, login, launch, true));
      r.code == 0 && r.tried == Plan(FirstArgs, cfgS.0) && |r.waitList| == 3
  {
    var cfgS := Scheduler(Configured(FirstArgs, cfg0, resolve));
    var start := StarterOf(FirstArgs, id, login, launch, true);
    var plan := Plan(FirstArgs, cfgS.0);
    assert StartAll(FirstArgs);
    PlanAll(FirstArgs, cfgS.0);
    StarterFixedStarts(FirstArgs, id, login, launch);
    RunPlanAllStarted(plan, cfgS.1, start);
    WaitedNamesOfAll(cfgS.0 == "Slurm");
  }

  lemma WaitedNamesOfAll(slurm: bool)
    ensures |WaitedNames((if slurm then [Restd] else []) + [Sched, Gdb, Wfm, Tm])| == 3
  {
    if !slurm {
      assert [] + [Sched, Gdb, Wfm, Tm] == [Sched, Gdb, Wfm, Tm];
    }
    assert WaitedNames([Tm]) == ["Task Manager"];
    assert WaitedNames([Wfm, Tm]) == ["Workflow Manager", "Task Manager"];
    assert WaitedNames([Gdb, Wfm, Tm]) == ["Workflow Manager", "Task Manager"];
    assert WaitedNames([Sched, Gdb, Wfm, Tm]) == ["Scheduler", "Workflow Manager", "Task Manager"];
    assert [Restd] + [Sched, Gdb, Wfm, Tm] == [Restd, Sched, Gdb, Wfm, Tm];
    assert [Restd, Sched, Gdb, Wfm, Tm][1..] == [Sched, Gdb, Wfm, Tm];
  }

  // The `neo4j.conf` edit of `StartGDB`.

  const BoltComment := "#dbms.connector.bolt.listen_address=:7687"
  const HttpComment := "#dbms.connector.http.listen_address=:7474"
  const HttpsComment := "#dbms.connector.https.listen_address=:7473"

  function ListenLine(connector: string, port: string): string {
    "dbms.connector." + connector + ".listen_address=:" + port
  }

  /** The three `data.replace` calls on the configuration text. */
  function Neo4jConf(data: string, bolt: string, http: string, https: string): string {
    Uncomment(data, ListenLine("bolt", bolt), ListenLine("http", http), ListenLine("https", https))
  }

  /** Each commented listen address replaced by its line, in the source's order. */
  function Uncomment(data: string, lb: string, lh: string, ls: string): string {
    Replace(Replace(Replace(data, BoltComment, lb), HttpComment, lh), HttpsComment, ls)
  }

  /** What happens to one line: a commented listen address becomes its uncommented line. */
  function ConfLine(line: string, lb: string, lh: string, ls: string): string {
    if line == BoltComment then lb
    else if line == HttpComment then lh
    else if line == HttpsComment then ls
    else line
  }

  function ConfLines(lines: seq<string>, lb: string, lh: string, ls: string): (r: seq<string>)
    ensures |r| == |lines|
    ensures forall i :: 0 <= i < |lines| ==> r[i] == ConfLine(lines[i], lb, lh, ls)
  {
    if lines == [] then [] else [ConfLine(lines[0], lb, lh, ls)] + ConfLines(lines[1..], lb, lh, ls)
  }

  function ReplaceEach(lines: seq<string>, pat: string, rep: string): (r: seq<string>)
    requires |pat| > 0
    ensures |r| == |lines| && forall i :: 0 <= i < |lines| ==> r[i] == Replace(lines[i], pat, rep)
  {
    if lines == [] then [] else [Replace(lines[0], pat, rep)] + ReplaceEach(lines[1..], pat, rep)
  }

  predicate NoNewline(pat: string) {
    forall k :: 0 <= k < |pat| ==> pat[k] != '\n'
  }

  /** Replacing in the whole text is replacing line by line. */
  lemma {:induction false} ReplaceJoin(lines: seq<string>, pat: string, rep: string)
    requires |pat| > 0 && NoNewline(pat)
    ensures Replace(Join("\n", lines), pat, rep) == Join("\n", ReplaceEach(lines, pat, rep))
  {
    if |lines| == 0 {
    } else if |lines| == 1 {
    } else {
      ReplaceJoin(lines[1..], pat, rep);
      ReplaceAroundNewline(lines[0], Join("\n", lines[1..]), pat, rep);
      assert ReplaceEach(lines, pat, rep)[1..] == ReplaceEach(lines[1..], pat, rep);
    }
  }

  /** A line that is the pattern becomes the replacement; one that does not contain it is left alone. */
  lemma ReplaceLine(line: string, pat: string, rep: string)
    requires |pat| > 0 && (line == pat || !Contains(line, pat))
    ensures Replace(line, pat, rep) == if line == pat then rep else line
  {
    if line == pat {
      ReplaceWhole(pat, rep);
    } else {
      ReplaceAbsent(line, pat, rep);
    }
  }

  predicate NoHash(s: string) {
    forall k :: 0 <= k < |s| ==> s[k] != '#'
  }

  lemma ListenLineNoHash(connector: string, port: string)
    requires NoHash(connector) && NoHash(port)
    ensures NoHash(ListenLine(connector, port))
  {
    var l := ListenLine(connector, port);
    var p1 := "dbms.connector.";
    var p2 := ".listen_address=:";
    assert l == p1 + connector + p2 + port;
    forall k | 0 <= k < |l|
      ensures l[k] != '#'
    {
      if k < |p1| {
        assert l[k] == p1[k];
      } else if k < |p1| + |connector| {
        assert l[k] == connector[k - |p1|];
      } else if k < |p1| + |connector| + |p2| {
        assert l[k] == p2[k - |p1| - |connector|];
      } else {
        assert l[k] == port[k - |p1| - |connector| - |p2|];
      }
    }
  }

  /** A line of the configuration the edit may touch: one of the three, or free of all three. */
  predicate PlainOrListen(line: string) {
    line == BoltComment || line == HttpComment || line == HttpsComment
    || (!Contains(line, BoltComment) && !Contains(line, HttpComment) && !Contains(line, HttpsComment))
  }

  /** None of the three commented lines contains another. */
  lemma CommentsApart()
    ensures !Contains(HttpComment, BoltComment) && !Contains(HttpsComment, BoltComment)
    ensures !Contains(BoltComment, HttpComment) && !Contains(HttpsComment, HttpComment)
    ensures !Contains(BoltComment, HttpsComment) && !Contains(HttpComment, HttpsComment)
  {
    BoltNotInHttp();
    BoltNotInHttps();
    HttpNotInBolt();
    HttpNotInHttps();
    HttpsNotInBolt();
    HttpsNotInHttp();
  }

  lemma BoltNotInHttp() ensures !Contains(HttpComment, BoltComment) { NotInDiffering(HttpComment, BoltComment, 16); }
  lemma BoltNotInHttps() ensures !Contains(HttpsComment, BoltComment) { NotInDiffering(HttpsComment, BoltComment, 16); }
  lemma HttpNotInBolt() ensures !Contains(BoltComment, HttpComment) { NotInDiffering(BoltComment, HttpComment, 16); }
  lemma HttpNotInHttps() ensures !Contains(HttpsComment, HttpComment) { NotInDiffering(HttpsComment, HttpComment, 20); }
  lemma HttpsNotInBolt() ensures !Contains(BoltComment, HttpsComment) { NotInShort(BoltComment, HttpsComment); }
  lemma HttpsNotInHttp() ensures !Contains(HttpComment, HttpsComment) { NotInShort(HttpComment, HttpsComment); }

  /** A text no longer than the pattern contains it only by being it. */
  lemma {:induction false} NotInShort(s: string, pat: string)
    requires |s| <= |pat| && s != pat && |pat| > 0
    ensures !Contains(s, pat)
  {
    if s != [] {
      assert !StartsWith(s, pat) by {
        if |pat| <= |s| {
          assert s[..|pat|] == s;
        }
      }
      NotInShort(s[1..], pat);
    }
  }

  /** A text at most one longer than the pattern, differing from it early enough, does not contain it. */
  lemma NotInDiffering(s: string, pat: string, k: nat)
    requires |pat| <= |s| <= |pat| + 1 && k < |pat| && s[k] != pat[k]
    requires |s| == |pat| + 1 ==> s[1] != pat[0]
    ensures !Contains(s, pat)
  {
    assert s[..|pat|][k] != pat[k];
    assert s[1..] != pat by {
      if |s[1..]| == |pat| {
        assert s[1..][0] != pat[0];
      }
    }
    NotInShort(s[1..], pat);
  }

  /**
   * Three replacements of patterns none of which contains another, on a
   * line that is one of them or contains none: the line becomes its
   * replacement, as long as no replacement brings in a later pattern.
   */
  lemma ThreeReplaces(line: string, p1: string, r1: string, p2: string, r2: string, p3: string, r3: string)
    requires |p1| > 0 && |p2| > 0 && |p3| > 0
    requires line == p1 || line == p2 || line == p3 || (!Contains(line, p1) && !Contains(line, p2) && !Contains(line, p3))
    requires !Contains(p2, p1) && !Contains(p3, p1) && !Contains(p1, p2) && !Contains(p3, p2) && !Contains(p1, p3) && !Contains(p2, p3)
    requires !Contains(r1, p2) && !Contains(r1, p3) && !Contains(r2, p3)
    ensures Replace(Replace(Replace(line, p1, r1), p2, r2), p3, r3)
      == if line == p1 then r1 else if line == p2 then r2 else if line == p3 then r3 else line
  {
    ReplaceLine(line, p1, r1);
    var l1 := Replace(line, p1, r1);
    ReplaceLine(l1, p2, r2);
    var l2 := Replace(l1, p2, r2);
    ReplaceLine(l2, p3, r3);
  }

  /** One line through the three replacements, when the new lines bring in no `#`. */
  lemma UncommentLine(line: string, lb: string, lh: string, ls: string)
    requires PlainOrListen(line) && NoHash(lb) && NoHash(lh)
    ensures Uncomment(line, lb, lh, ls) == ConfLine(line, lb, lh, ls)
  {
    CommentsApart();
    NoFirstCharNoMatch(lb, HttpComment);
    NoFirstCharNoMatch(lb, HttpsComment);
    NoFirstCharNoMatch(lh, HttpsComment);
    ThreeReplaces(line, BoltComment, lb, HttpComment, lh, HttpsComment, ls);
  }

  /** The edit of the whole text is the edit of each line. */
  lemma UncommentLines(lines: seq<string>, lb: string, lh: string, ls: string)
    requires forall i :: 0 <= i < |lines| ==> PlainOrListen(lines[i])
    requires NoHash(lb) && NoHash(lh)
    ensures Uncomment(Join("\n", lines), lb, lh, ls) == Join("\n", ConfLines(lines, lb, lh, ls))
  {
    ReplaceJoin(lines, BoltComment, lb);
    var e1 := ReplaceEach(lines, BoltComment, lb);
    ReplaceJoin(e1, HttpComment, lh);
    var e2 := ReplaceEach(e1, HttpComment, lh);
    ReplaceJoin(e2, HttpsComment, ls);
    var e3 := ReplaceEach(e2, HttpsComment, ls);
    forall i | 0 <= i < |lines|
      ensures e3[i] == ConfLines(lines, lb, lh, ls)[i]
    {
      UncommentLine(lines[i], lb, lh, ls);
    }
    assert e3 == ConfLines(lines, lb, lh, ls);
  }

  /**
   * On a configuration whose lines are the three commented listen
   * addresses or contain none of them, the edit uncomments exactly those
   * lines with the configured ports and leaves every other line alone.
   */
  lemma Neo4jConfLines(lines: seq<string>, bolt: string, http: string, https: string)
    requires forall i :: 0 <= i < |lines| ==> PlainOrListen(lines[i])
    requires NoHash(bolt) && NoHash(http)
    ensures Neo4jConf(Join("\n", lines), bolt, http, https)
      == Join("\n", ConfLines(lines, ListenLine("bolt", bolt), ListenLine("http", http), ListenLine("https", https)))
  {
    ListenLinesNoHash(bolt, http);
    Neo4jConfEdit(lines, bolt, http, https);
  }

  lemma ListenLinesNoHash(bolt: string, http: string)
    requires NoHash(bolt) && NoHash(http)
    ensures NoHash(ListenLine("bolt", bolt)) && NoHash(ListenLine("http", http))
  {
    ListenLineNoHash("bolt", bolt);
    ListenLineNoHash("http", http);
  }

  lemma Neo4jConfEdit(lines: seq<string>, bolt: string, http: string, https: string)
    requires forall i :: 0 <= i < |lines| ==> PlainOrListen(lines[i])
    requires NoHash(ListenLine("bolt", bolt)) && NoHash(ListenLine("http", http))
    ensures Neo4jConf(Join("\n", lines), bolt, http, https)
      == Join("\n", ConfLines(lines, ListenLine("bolt", bolt), ListenLine("http", http), ListenLine("https", https)))
  {
    UncommentLines(lines, ListenLine("bolt", bolt), ListenLine("http", http), ListenLine("https", https));
  }
}
