/** The display service: page defaults and the mapping of listed reports, the
    mapping of one grouped report, and the registry of background report tasks
    with its pending, running, completed or failed lifecycle. The use-case
    layer and the authentication of the caller are inputs. */
module Display {
  import opened Base
  import opened FanIn
  import opened Engine
  import Model

  /** A kratos error: an HTTP code, a reason and a message; or an error another
      layer returned, passed on unchanged. */
  datatype Fault = Status(code: int, reason: Bytes, message: Bytes) | Passed(err: Error)

  function EngineNotInit(): Fault
  {
    Status(500, Ascii("ENGINE_NOT_INIT"), Ascii("domain radar engine not initialized"))
  }

  function NoDomains(): Fault
  {
    Status(400, Ascii("NO_DOMAINS"), Ascii("please configure interested domains in profile first"))
  }

  function TaskNotFound(): Fault
  {
    Status(404, Ascii("TASK_NOT_FOUND"), Ascii("task not found"))
  }

  /** Go's `int32(x)`: the low 32 bits, read as a two's-complement value. */
  function Int32(x: int): (r: int)
    ensures -0x8000_0000 <= r < 0x8000_0000
    ensures -0x8000_0000 <= x < 0x8000_0000 ==> r == x
  {
    var low := x % 0x1_0000_0000;
    if low < 0x8000_0000 then low else low - 0x1_0000_0000
  }

  // ---- ListReports --------------------------------------------------------------

  datatype ReportSummary = ReportSummary(id: int, title: Bytes, date: Bytes, domainCount: int, averageScore: int)

  /** v1.ReportSummary: the same fields, the numbers as int32. */
  datatype SummaryReply = SummaryReply(id: int, title: Bytes, date: Bytes, domainCount: int, averageScore: int)

  datatype ListReply = ListReply(reports: seq<SummaryReply>, total: int)

  /** The use-case calls: List(page, pageSize) answers the summaries of that page
      and the total; GetByID(reportID, userID) answers one grouped report. */
  datatype Reports = Reports(
    list: (int, int) -> Result<(seq<ReportSummary>, int), Error>,
    getByID: (int, int) -> Result<GroupedReport, Error>)

  /** The page and page size ListReports asks for. */
  function NormalizePage(page: int, pageSize: int): (r: (int, int))
  {
    (if page < 1 then 1 else page, if pageSize < 1 then 10 else pageSize)
  }

  function SummaryOf(s: ReportSummary): SummaryReply
  {
    SummaryReply(Int32(s.id), s.title, s.date, Int32(s.domainCount), Int32(s.averageScore))
  }

  /** DisplayService.ListReports: normalise the page, ask the use case, map its
      summaries in order. */
  method ListReports(uc: Reports, page: int, pageSize: int) returns (r: Result<ListReply, Fault>)
    ensures uc.list(NormalizePage(page, pageSize).0, NormalizePage(page, pageSize).1).Err? ==>
      r == Err(Passed(uc.list(NormalizePage(page, pageSize).0, NormalizePage(page, pageSize).1).error))
    ensures uc.list(NormalizePage(page, pageSize).0, NormalizePage(page, pageSize).1).Ok? ==>
      var (summaries, total) := uc.list(NormalizePage(page, pageSize).0, NormalizePage(page, pageSize).1).value;
      r.Ok? && r.value.total == Int32(total) && |r.value.reports| == |summaries| &&
      forall k :: 0 <= k < |summaries| ==> r.value.reports[k] == SummaryOf(summaries[k])
  {
    var p := page;
    if p < 1 {
      p := 1;
    }
    var ps := pageSize;
    if ps < 1 {
      ps := 10;
    }
    var answer := uc.list(p, ps);
    if answer.Err? {
      return Err(Passed(answer.error));
    }
    var (summaries, total) := answer.value;
    var list: seq<SummaryReply> := [];
    for k := 0 to |summaries|
      invariant |list| == k
      invariant forall j :: 0 <= j < k ==> list[j] == SummaryOf(summaries[j])
    {
      list := list + [SummaryOf(summaries[k])];
    }
    r := Ok(ListReply(list, Int32(total)));
  }

  // ---- GetReport ----------------------------------------------------------------

  datatype Article = Article(title: Bytes, link: Bytes, source: Bytes, pubDate: Bytes)

  datatype Report = Report(
    id: int, domainName: Bytes, score: int, overview: Bytes, trends: Bytes,
    keyEvents: seq<Bytes>, articles: seq<Article>, createdAt: Bytes)

  datatype DeepAnalysisResult = DeepAnalysisResult(
    macroTrends: Bytes, opportunities: Bytes, risks: Bytes, actionGuides: seq<Bytes>)

  datatype GroupedReport = GroupedReport(id: int, date: Bytes, domains: seq<Report>, deep: Option<DeepAnalysisResult>)

  /** v1.DomainReport: the report without its creation time, numbers as int32. */
  datatype DomainReply = DomainReply(
    id: int, domainName: Bytes, overview: Bytes, trends: Bytes, score: int,
    keyEvents: seq<Bytes>, articles: seq<Article>)

  datatype ReportReply = ReportReply(id: int, date: Bytes, domains: seq<DomainReply>, deep: Option<DeepAnalysisResult>)

  /** The caller as the JWT claims and GetProfile resolve it: a user, or the
      UNAUTHORIZED fault or the profile error. */
  datatype User = User(id: int, domains: seq<Bytes>, persona: Bytes)

  function DomainOf(d: Report): DomainReply
  {
    DomainReply(Int32(d.id), d.domainName, d.overview, d.trends, Int32(d.score), d.keyEvents, d.articles)
  }

  /** One domain: its articles copied one by one, then the report's fields. */
  method MapDomain(d: Report) returns (out: DomainReply)
    ensures out == DomainOf(d)
  {
    var articles: seq<Article> := [];
    for k := 0 to |d.articles|
      invariant articles == d.articles[..k]
    {
      var a := d.articles[k];
      articles := articles + [Article(a.title, a.link, a.source, a.pubDate)];
    }
    assert articles == d.articles;
    out := DomainReply(Int32(d.id), d.domainName, d.overview, d.trends, Int32(d.score), d.keyEvents, articles);
  }

  /** DisplayService.GetReport: the caller's report `reportID`, its domains
      mapped in order and the deep analysis attached only when there is one. */
  method GetReport(uc: Reports, caller: Result<User, Fault>, reportID: int) returns (r: Result<ReportReply, Fault>)
    ensures caller.Err? ==> r == Err(caller.error)
    ensures caller.Ok? && uc.getByID(Int32(reportID), caller.value.id).Err? ==>
      r == Err(Passed(uc.getByID(Int32(reportID), caller.value.id).error))
    ensures caller.Ok? && uc.getByID(Int32(reportID), caller.value.id).Ok? ==>
      var g := uc.getByID(Int32(reportID), caller.value.id).value;
      r.Ok? && r.value.id == Int32(g.id) && r.value.date == g.date && r.value.deep == g.deep &&
      |r.value.domains| == |g.domains| &&
      forall k :: 0 <= k < |g.domains| ==> r.value.domains[k] == DomainOf(g.domains[k])
  {
    if caller.Err? {
      return Err(caller.error);
    }
    var answer := uc.getByID(Int32(reportID), caller.value.id);
    if answer.Err? {
      return Err(Passed(answer.error));
    }
    var g := answer.value;
    var domains: seq<DomainReply> := [];
    for k := 0 to |g.domains|
      invariant |domains| == k
      invariant forall j :: 0 <= j < k ==> domains[j] == DomainOf(g.domains[j])
    {
      var d := MapDomain(g.domains[k]);
      domains := domains + [d];
    }
    var deep: Option<DeepAnalysisResult> := None;
    if g.deep.Some? {
      var a := g.deep.value;
      deep := Some(DeepAnalysisResult(a.macroTrends, a.opportunities, a.risks, a.actionGuides));
    }
    r := Ok(ReportReply(Int32(g.id), g.date, domains, deep));
  }

  // ---- tasks --------------------------------------------------------------------

  datatype TaskStatus = TaskStatus(status: Bytes, progress: int, message: Bytes)

  /** One `tasks.Store(id, status)`. */
  datatype TaskUpdate = TaskUpdate(id: Bytes, status: TaskStatus)

  datatype TriggerReply = TriggerReply(taskID: Bytes, message: Bytes)

  datatype StatusReply = StatusReply(status: Bytes, progress: int, message: Bytes)

  const Pending: Bytes := [112, 101, 110, 100, 105, 110, 103]       // "pending"
  const Running: Bytes := [114, 117, 110, 110, 105, 110, 103]       // "running"
  const Completed: Bytes := [99, 111, 109, 112, 108, 101, 116, 101, 100]  // "completed"
  const Failed: Bytes := [102, 97, 105, 108, 101, 100]              // "failed"

  const Initializing: TaskStatus := TaskStatus(Pending, 0, [73, 110, 105, 116, 105, 97, 108, 105, 122, 105, 110, 103, 46, 46, 46])  // "Initializing..."
  const Starting: TaskStatus := TaskStatus(Running, 5, [83, 116, 97, 114, 116, 105, 110, 103, 46, 46, 46])  // "Starting..."
  const TaskStarted: Bytes := [84, 97, 115, 107, 32, 115, 116, 97, 114, 116, 101, 100]  // "Task started"
  const InternalPanic: Bytes := [73, 110, 116, 101, 114, 110, 97, 108, 32, 80, 97, 110, 105, 99]  // "Internal Panic"
  const CompletedMessage: Bytes := [67, 111, 109, 112, 108, 101, 116, 101, 100]  // "Completed"

  /** TriggerReport's answer: the engine check comes before anything about the
      caller, and a user without domains gets no task. */
  function Triggered(engineReady: bool, caller: Result<User, Fault>, taskID: Bytes): Result<TriggerReply, Fault>
  {
    if !engineReady then Err(EngineNotInit())
    else if caller.Err? then Err(caller.error)
    else if |caller.value.domains| == 0 then Err(NoDomains())
    else Ok(TriggerReply(taskID, TaskStarted))
  }

  /** The options the background run is started with. */
  function TaskOptions(u: User): RunOptions
  {
    RunOptions(u.id, u.domains, u.persona, true)
  }

  /** The callbacks a run gets to make: all of them, or the first `k` when it
      panics after `k`. */
  function Shown(events: seq<Event>, panicAfter: Option<nat>): (s: seq<Event>)
    ensures |s| <= |events| && s == events[..|s|]
  {
    if panicAfter.Some? && panicAfter.value < |events| then events[..panicAfter.value] else events
  }

  /** The statuses the progress callback stores. */
  function Callbacks(events: seq<Event>): (ss: seq<TaskStatus>)
    ensures |ss| == |events|
  {
    if events == [] then []
    else Callbacks(events[..|events| - 1]) + [TaskStatus(Running, events[|events| - 1].progress, events[|events| - 1].status)]
  }

  /** The last status stored: the recovered panic, the run's error, or success. */
  function Terminal(err: Option<Error>, panicAfter: Option<nat>): TaskStatus
  {
    if panicAfter.Some? then TaskStatus(Failed, 100, InternalPanic)
    else if err.Some? then TaskStatus(Failed, 100, ErrorText(err.value))
    else TaskStatus(Completed, 100, CompletedMessage)
  }

  /** Every status the background goroutine stores for its task, in order. */
  function Lifecycle(log: RunLog, panicAfter: Option<nat>): (life: seq<TaskStatus>)
    ensures |life| >= 2 && life[0] == Starting
  {
    [Starting] + Callbacks(Shown(log.events, panicAfter)) + [Terminal(log.err, panicAfter)]
  }

  function Tagged(id: Bytes, ss: seq<TaskStatus>): (us: seq<TaskUpdate>)
    ensures |us| == |ss|
    ensures forall k :: 0 <= k < |ss| ==> us[k] == TaskUpdate(id, ss[k])
  {
    if ss == [] then [] else Tagged(id, ss[..|ss| - 1]) + [TaskUpdate(id, ss[|ss| - 1])]
  }

  function StatusOf(tasks: map<Bytes, TaskStatus>, id: Bytes): Result<StatusReply, Fault>
  {
    if id !in tasks then Err(TaskNotFound())
    else Ok(StatusReply(tasks[id].status, Int32(tasks[id].progress), tasks[id].message))
  }

  class DisplayService {
    /** The engine, if NewDisplayService could build one. */
    var engine: Option<Engine.Env>
    /** The registry of tasks (a sync.Map from task id to status). */
    var tasks: map<Bytes, TaskStatus>
    /** Every Store on the registry, in order: what concurrent GetTaskStatus
        calls may observe. */
    var updates: seq<TaskUpdate>

    constructor(engine: Option<Engine.Env>)
      ensures this.engine == engine && tasks == map[] && updates == []
    {
      this.engine := engine;
      tasks := map[];
      updates := [];
    }

    method Store(id: Bytes, st: TaskStatus)
      modifies this
      ensures engine == old(engine)
      ensures tasks == old(tasks)[id := st] && updates == old(updates) + [TaskUpdate(id, st)]
    {
      tasks := tasks[id := st];
      updates := updates + [TaskUpdate(id, st)];
    }

    /** DisplayService.TriggerReport up to the start of the goroutine: the new
        task is registered as pending before the reply is returned. */
    method TriggerReport(caller: Result<User, Fault>, taskID: Bytes) returns (r: Result<TriggerReply, Fault>)
      modifies this
      ensures r == Triggered(old(engine).Some?, caller, taskID)
      ensures engine == old(engine)
      ensures r.Ok? ==> tasks == old(tasks)[taskID := Initializing] && updates == old(updates) + [TaskUpdate(taskID, Initializing)]
      ensures r.Err? ==> tasks == old(tasks) && updates == old(updates)
    {
      if engine.None? {
        return Err(EngineNotInit());
      }
      if caller.Err? {
        return Err(caller.error);
      }
      if |caller.value.domains| == 0 {
        return Err(NoDomains());
      }
      Store(taskID, Initializing);
      r := Ok(TriggerReply(taskID, TaskStarted));
    }

    /** The goroutine TriggerReport starts for user `u`: running at 5, one
        running status per progress callback, then the terminal status; a panic
        after `panicAfter` callbacks, in this goroutine, is recovered as a
        failure. `order` is the order in which the engine's domain goroutines
        finish. The run itself stores nothing, so every store is made here, in
        the order of the lifecycle. */
    method RunTask(taskID: Bytes, u: User, order: seq<nat>, panicAfter: Option<nat>) returns (log: RunLog)
      requires engine.Some? && IsOrder(order, |u.domains|) && StripsFences(engine.value)
      modifies this
      ensures engine == old(engine)
      ensures log == RunSpec(old(engine).value, TaskOptions(u), order, log.reports)
      ensures var life := Lifecycle(log, panicAfter);
        tasks == old(tasks)[taskID := life[|life| - 1]] && updates == old(updates) + Tagged(taskID, life)
    {
      var env := engine.value;
      log := Run(env, TaskOptions(u), order);
      StoreAll(taskID, Lifecycle(log, panicAfter));
    }

    /** The stores of a task, in order. */
    method StoreAll(id: Bytes, ss: seq<TaskStatus>)
      modifies this
      ensures engine == old(engine) && updates == old(updates) + Tagged(id, ss)
      ensures tasks == if ss == [] then old(tasks) else old(tasks)[id := ss[|ss| - 1]]
    {
      for k := 0 to |ss|
        invariant engine == old(engine) && updates == old(updates) + Tagged(id, ss[..k])
        invariant tasks == if k == 0 then old(tasks) else old(tasks)[id := ss[k - 1]]
      {
        Store(id, ss[k]);
        TaggedAppend(id, ss[..k], ss[k]);
        assert ss[..k + 1] == ss[..k] + [ss[k]];
      }
      assert ss[..|ss|] == ss;
    }

    /** DisplayService.GetTaskStatus: the most recently stored status. */
    method GetTaskStatus(id: Bytes) returns (r: Result<StatusReply, Fault>)
      ensures r == StatusOf(tasks, id)
      ensures r.Err? <==> id !in tasks
      ensures id in tasks ==> r == Ok(StatusReply(tasks[id].status, Int32(tasks[id].progress), tasks[id].message))
    {
      if id !in tasks {
        return Err(TaskNotFound());
      }
      var st := tasks[id];
      r := Ok(StatusReply(st.status, Int32(st.progress), st.message));
    }
  }

  // ---- properties ---------------------------------------------------------------

  /** A page or page size below 1 takes its default, 1 or 10; any other value
      is kept, and normalising twice changes nothing. */
  lemma PageDefaults(page: int, pageSize: int)
    ensures var (p, ps) := NormalizePage(page, pageSize);
      p >= 1 && ps >= 1 &&
      (page >= 1 ==> p == page) && (page < 1 ==> p == 1) &&
      (pageSize >= 1 ==> ps == pageSize) && (pageSize < 1 ==> ps == 10) &&
      NormalizePage(p, ps) == (p, ps)
  {
  }

  /** Without an engine the answer is ENGINE_NOT_INIT whoever asks; a known
      user without domains gets NO_DOMAINS; a task is started exactly for a
      known user with domains, under the id it was given. */
  lemma TriggerRules(engineReady: bool, caller: Result<User, Fault>, taskID: Bytes)
    ensures !engineReady ==> Triggered(engineReady, caller, taskID) == Err(EngineNotInit())
    ensures engineReady && caller.Ok? && caller.value.domains == [] ==> Triggered(engineReady, caller, taskID) == Err(NoDomains())
    ensures Triggered(engineReady, caller, taskID).Ok? <==> engineReady && caller.Ok? && caller.value.domains != []
    ensures Triggered(engineReady, caller, taskID).Ok? ==> Triggered(engineReady, caller, taskID).value.taskID == taskID
  {
  }

  /** The `k`-th status the callback stores carries the `k`-th callback's
      progress and message. */
  lemma {:induction false} CallbacksAt(events: seq<Event>, k: nat)
    requires k < |events|
    ensures Callbacks(events)[k] == TaskStatus(Running, events[k].progress, events[k].status)
    decreases |events|
  {
    if k < |events| - 1 {
      CallbacksAt(events[..|events| - 1], k);
    }
  }

  /** A task starts running at 5, is running at every intermediate store, one
      per callback made, and ends at 100: completed exactly when the run neither
      panicked nor failed, failed with the error's text when it failed, failed
      with "Internal Panic" when it panicked. */
  lemma LifecycleShape(log: RunLog, panicAfter: Option<nat>)
    ensures var life := Lifecycle(log, panicAfter);
      life[0] == Starting &&
      |life| == |Shown(log.events, panicAfter)| + 2 &&
      (panicAfter.None? ==> |life| == |log.events| + 2) &&
      (forall k :: 0 < k < |life| - 1 ==> life[k].status == Running)
    ensures var last := Lifecycle(log, panicAfter)[|Lifecycle(log, panicAfter)| - 1];
      last.progress == 100 && (last.status == Completed || last.status == Failed) &&
      (last.status == Completed <==> panicAfter.None? && log.err.None?) &&
      (panicAfter.None? && log.err.Some? ==> last.message == ErrorText(log.err.value)) &&
      (panicAfter.Some? ==> last.message == InternalPanic)
  {
    var life := Lifecycle(log, panicAfter);
    var shown := Shown(log.events, panicAfter);
    forall k | 0 < k < |life| - 1
      ensures life[k].status == Running
    {
      CallbacksAt(shown, k - 1);
    }
  }

  /** For the engine's own run, every status a poller can see is between 0 and
      100, and after the first store the progress never goes down. */
  lemma LifecycleProgress(env: Env, u: User, order: seq<nat>, sorted: seq<Model.DomainReport>, panicAfter: Option<nat>)
    requires IsOrder(order, |u.domains|)
    ensures var life := Lifecycle(RunSpec(env, TaskOptions(u), order, sorted), panicAfter);
      forall k :: 0 <= k < |life| ==> 0 <= life[k].progress <= 100
    ensures var life := Lifecycle(RunSpec(env, TaskOptions(u), order, sorted), panicAfter);
      forall k, l :: 1 <= k < l < |life| ==> life[k].progress <= life[l].progress
  {
    RunProgressMonotone(env, TaskOptions(u), order, sorted);
    LifecycleBounded(RunSpec(env, TaskOptions(u), order, sorted), panicAfter);
  }

  /** Callbacks whose progress is sorted and within 0..100 give a lifecycle
      that is, after its first status. */
  lemma LifecycleBounded(log: RunLog, panicAfter: Option<nat>)
    requires ProgressSorted(log.events) && ProgressWithin(log.events, 0, 100)
    ensures var life := Lifecycle(log, panicAfter);
      (forall k :: 0 <= k < |life| ==> 0 <= life[k].progress <= 100) &&
      forall k, l :: 1 <= k < l < |life| ==> life[k].progress <= life[l].progress
  {
    var life := Lifecycle(log, panicAfter);
    var shown := Shown(log.events, panicAfter);
    assert |life| == |shown| + 2;
    forall k | 1 <= k < |life| - 1
      ensures life[k].progress == shown[k - 1].progress && shown[k - 1] == log.events[k - 1]
    {
      CallbacksAt(shown, k - 1);
    }
  }

  /** The engine's first callback, "starting" at 0, takes the progress back
      below the 5 stored before the run. */
  lemma FirstCallback(env: Env, u: User, order: seq<nat>, sorted: seq<Model.DomainReport>, panicAfter: Option<nat>)
    requires InRange(order, |u.domains|) && panicAfter != Some(0)
    ensures var life := Lifecycle(RunSpec(env, TaskOptions(u), order, sorted), panicAfter);
      life[0].progress == 5 && life[1] == TaskStatus(Running, 0, StartingText)
  {
    var log := RunSpec(env, TaskOptions(u), order, sorted);
    assert log.events[0] == Event(StartingText, 0);
    CallbacksAt(Shown(log.events, panicAfter), 0);
  }

  /** With at least one domain and no panic, a task completes exactly when some
      domain of the user brought a report, and otherwise fails with
      "no domain reports generated". */
  lemma TaskOutcome(env: Env, u: User, order: seq<nat>, sorted: seq<Model.DomainReport>)
    requires InRange(order, |u.domains|) && |u.domains| > 0
    ensures var life := Lifecycle(RunSpec(env, TaskOptions(u), order, sorted), None);
      life[|life| - 1] ==
        if forall t :: 0 <= t < |order| ==> Outcomes(env, u.domains)(order[t]).None?
        then TaskStatus(Failed, 100, NoDomainReports)
        else TaskStatus(Completed, 100, CompletedMessage)
  {
    RunFails(env, TaskOptions(u), order, sorted);
  }

  lemma TaggedAppend(id: Bytes, ss: seq<TaskStatus>, s: TaskStatus)
    ensures Tagged(id, ss + [s]) == Tagged(id, ss) + [TaskUpdate(id, s)]
  {
    assert (ss + [s])[..|ss|] == ss;
  }
}
