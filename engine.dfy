/** The report engine: Run searches every domain, selects articles, has the
    chat model write a report per domain, keeps the domains that succeed,
    sorts the reports by score, optionally asks for a deep analysis across
    the domains, and reports progress through a callback.

    The goroutine per domain is modelled as one turn of a sequential loop, the
    turns taken in `order`, the order in which the goroutines reach the mutex;
    everything a goroutine does happens in its turn. The storage calls are
    recorded, not performed: their errors are only logged, so they cannot
    change what Run does next (the storage effects themselves are Storage's). */
module Engine {
  import opened Base
  import opened Text
  import opened Model
  import opened Selection
  import opened Retry
  import opened Sorting
  import opened FanIn

  /** Messages of the run's progress events and errors. */
  const ProcessedDomain: Bytes := [112, 114, 111, 99, 101, 115, 115, 101, 100, 32, 100, 111, 109, 97, 105, 110, 58, 32] // "processed domain: "
  const StartingText: Bytes := [115, 116, 97, 114, 116, 105, 110, 103] // "starting"
  const NoDomainsProvided: Bytes := [110, 111, 32, 100, 111, 109, 97, 105, 110, 115, 32, 112, 114, 111, 118, 105, 100, 101, 100] // "no domains provided"
  const NoDomainReports: Bytes := [110, 111, 32, 100, 111, 109, 97, 105, 110, 32, 114, 101, 112, 111, 114, 116, 115, 32, 103, 101, 110, 101, 114, 97, 116, 101, 100] // "no domain reports generated"
  const GeneratingDeep: Bytes := [103, 101, 110, 101, 114, 97, 116, 105, 110, 103, 32, 100, 101, 101, 112, 32, 97, 110, 97, 108, 121, 115, 105, 115] // "generating deep analysis"
  const CompletedText: Bytes := [99, 111, 109, 112, 108, 101, 116, 101, 100] // "completed"

  /** A call of the progress callback. */
  datatype Event = Event(status: Bytes, progress: int)

  /** A call Run makes on the store. */
  datatype StoreCall =
    | CreateRun
    | SaveDomainReport(runID: int, report: DomainReport)
    | SaveDeepAnalysis(runID: int, userID: int, analysis: DeepAnalysis)
    | UpdateRunTitle(runID: int, title: Bytes)

  /** The collaborators, as oracles. `search(i)`, `fetch(i)` and `generate(i)`
      answer for the `i`-th domain; `deep(text)` answers the deep-analysis
      prompt built from `text`. The parsers' decoders stand for json.Unmarshal
      into the two result types; their clean-up is the fence stripping
      (StripsFences), which Run requires. */
  datatype Env = Env(
    hasStore: bool,
    createRun: Result<int, Error>,
    search: nat -> Result<seq<SearchResult>, Error>,
    fetch: nat -> Fetches,
    generate: nat -> Attempts,
    reportParser: Parser<DomainReport>,
    deep: Bytes -> Attempts,
    deepParser: Parser<DeepAnalysis>)

  datatype RunOptions = RunOptions(userID: int, domains: seq<Bytes>, persona: Bytes, hasCallback: bool)

  /** What a run did: the error it returned, the callback calls, the store
      calls, and, for stating properties, the sorted reports and the deep
      analysis it produced. */
  datatype RunLog = RunLog(
    err: Option<Error>,
    events: seq<Event>,
    calls: seq<StoreCall>,
    reports: seq<DomainReport>,
    deep: Option<DeepAnalysis>)

  /** Both replies are cleaned by cleanJSONResponse before they are decoded. */
  ghost predicate StripsFences(env: Env)
  {
    env.reportParser.clean == StripFences && env.deepParser.clean == StripFences
  }

  // ---- one domain ---------------------------------------------------------

  /** generateDomainReport for domain `i`: the retry loop, then the domain name
      is set on the decoded report. */
  function GenerateReport(env: Env, i: nat, domain: Bytes): Result<DomainReport, Error>
  {
    var o := GenerateSpec(env.generate(i), env.reportParser, 0);
    if o.result.Ok? then Ok(o.result.value.(domainName := domain)) else Err(o.result.error)
  }

  method GenerateDomainReport(env: Env, i: nat, domain: Bytes) returns (r: Result<DomainReport, Error>)
    ensures r == GenerateReport(env, i, domain)
  {
    var o := GenerateWithRetry(env.generate(i), env.reportParser);
    if o.result.Err? {
      return Err(o.result.error);
    }
    var report := o.result.value;
    report := report.(domainName := domain);
    return Ok(report);
  }

  /** The goroutine of domain `i` up to the mutex: None when the search fails,
      no article is long enough or the report cannot be generated. */
  function DomainResult(env: Env, i: nat, domain: Bytes): Option<DomainReport>
  {
    match env.search(i)
    case Err(_) => None
    case Ok(items) =>
      var valid := Selected(domain, items, env.fetch(i));
      if |valid| < 1 then None
      else
        match GenerateReport(env, i, domain)
        case Err(_) => None
        case Ok(report) => Some(report.(articles := valid))
  }

  method ProcessDomain(env: Env, i: nat, domain: Bytes) returns (r: Option<DomainReport>)
    ensures r == DomainResult(env, i, domain)
  {
    var resp := env.search(i);
    if resp.Err? {
      return None;
    }
    var valid := SelectArticles(domain, resp.value, env.fetch(i));
    if |valid| < 1 {
      return None;
    }
    var report := GenerateDomainReport(env, i, domain);
    if report.Err? {
      return None;
    }
    var rep := report.value;
    rep := rep.(articles := valid);
    return Some(rep);
  }

  /** A domain's report names the domain and cites the articles selected for it. */
  lemma DomainResultOrigin(env: Env, i: nat, domain: Bytes)
    requires DomainResult(env, i, domain).Some?
    ensures var r := DomainResult(env, i, domain).value;
      env.search(i).Ok? &&
      r.domainName == domain &&
      r.articles == Selected(domain, env.search(i).value, env.fetch(i)) &&
      1 <= |r.articles| <= 6
  {
    SelectedBounds(domain, env.search(i).value, env.fetch(i));
  }

  // ---- the fan-out ----------------------------------------------------------

  /** What each domain's goroutine brings to the mutex (None past the last domain). */
  function Outcomes(env: Env, domains: seq<Bytes>): nat -> Option<DomainReport>
  {
    (j: nat) => if j < |domains| then DomainResult(env, j, domains[j]) else None
  }

  /** `res` gives the goroutine outcome of every domain. */
  ghost predicate IsOutcomes(res: nat -> Option<DomainReport>, env: Env, domains: seq<Bytes>)
  {
    forall j: nat {:trigger DomainResult(env, j, domains[j])} :: j < |domains| ==> res(j) == DomainResult(env, j, domains[j])
  }

  lemma OutcomesAreDomainResults(env: Env, domains: seq<Bytes>)
    ensures IsOutcomes(Outcomes(env, domains), env, domains)
  {
  }

  /** The progress value after `k` of `n` domains: `10 + int(k/n * 70)` with
      the float quotient taken exactly. */
  function DomainProgress(k: nat, n: nat): int
    requires n > 0
  {
    10 + k * 70 / n
  }

  /** The callback calls made under the mutex, one per report. */
  function Progress(res: nat -> Option<DomainReport>, domains: seq<Bytes>, order: seq<nat>): (es: seq<Event>)
    requires InRange(order, |domains|)
    ensures |es| == |Collected(res, order)|
  {
    if order == [] then []
    else
      var pre, i := order[..|order| - 1], order[|order| - 1];
      Progress(res, domains, pre) +
        if res(i).Some? then
          [Event(ProcessedDomain + domains[i], DomainProgress(|Collected(res, pre)| + 1, |domains|))]
        else []
  }

  /** SaveDomainReport for each appended report, when there is a store and a run. */
  function Saves(hasStore: bool, runID: int, reports: seq<DomainReport>): (cs: seq<StoreCall>)
    ensures |cs| <= |reports|
  {
    if reports == [] then []
    else
      Saves(hasStore, runID, reports[..|reports| - 1]) +
        if hasStore && runID > 0 then [SaveDomainReport(runID, reports[|reports| - 1])] else []
  }

  /** The loop over the domains, in the order the goroutines finish. */
  method FanOut(env: Env, opts: RunOptions, order: seq<nat>, runID: int, ghost res: nat -> Option<DomainReport>)
    returns (reports: seq<DomainReport>, events: seq<Event>, calls: seq<StoreCall>)
    requires InRange(order, |opts.domains|) && IsOutcomes(res, env, opts.domains)
    ensures reports == Collected(res, order)
    ensures events == if opts.hasCallback then Progress(res, opts.domains, order) else []
    ensures calls == Saves(env.hasStore, runID, reports)
  {
    reports, events, calls := [], [], [];
    var completed := 0;
    for t := 0 to |order|
      invariant reports == Collected(res, order[..t]) && completed == |reports|
      invariant events == if opts.hasCallback then Progress(res, opts.domains, order[..t]) else []
      invariant calls == Saves(env.hasStore, runID, reports)
    {
      var i := order[t];
      var r := ProcessDomain(env, i, opts.domains[i]);
      reports, events, calls, completed := FanOutStep(res, opts, env.hasStore, runID, order, t, r, reports, events, calls, completed);
    }
    assert order[..|order|] == order;
  }

  /** One goroutine's turn once its outcome `r` is known: on success save the
      report, append it, count it and report progress. */
  method FanOutStep(ghost res: nat -> Option<DomainReport>, opts: RunOptions, hasStore: bool, runID: int,
                    order: seq<nat>, t: nat, r: Option<DomainReport>,
                    reports: seq<DomainReport>, events: seq<Event>, calls: seq<StoreCall>, completed: nat)
    returns (reports': seq<DomainReport>, events': seq<Event>, calls': seq<StoreCall>, completed': nat)
    requires InRange(order, |opts.domains|) && t < |order| && r == res(order[t])
    requires reports == Collected(res, order[..t]) && completed == |reports|
    requires events == if opts.hasCallback then Progress(res, opts.domains, order[..t]) else []
    requires calls == Saves(hasStore, runID, reports)
    ensures reports' == Collected(res, order[..t + 1]) && completed' == |reports'|
    ensures events' == if opts.hasCallback then Progress(res, opts.domains, order[..t + 1]) else []
    ensures calls' == Saves(hasStore, runID, reports')
  {
    reports', events', calls', completed' := Record(opts, runID, hasStore, opts.domains[order[t]], r, reports, events, calls, completed);
    FanOutUnfold(res, opts.domains, order, t, reports);
    StepEvents(res, opts, order, t, reports, events, events');
    StepCalls(hasStore, runID, reports, r, calls, calls');
  }

  /** The progress calls of one more turn. */
  lemma StepEvents(res: nat -> Option<DomainReport>, opts: RunOptions, order: seq<nat>, t: nat,
                   reports: seq<DomainReport>, events: seq<Event>, events': seq<Event>)
    requires InRange(order, |opts.domains|) && t < |order| && reports == Collected(res, order[..t])
    requires events == if opts.hasCallback then Progress(res, opts.domains, order[..t]) else []
    requires events' == events +
      if opts.hasCallback && res(order[t]).Some? then
        [Event(ProcessedDomain + opts.domains[order[t]], DomainProgress(|reports| + 1, |opts.domains|))]
      else []
    ensures events' == if opts.hasCallback then Progress(res, opts.domains, order[..t + 1]) else []
  {
    FanOutUnfold(res, opts.domains, order, t, reports);
  }

  /** The store calls of one more turn. */
  lemma StepCalls(hasStore: bool, runID: int, reports: seq<DomainReport>, r: Option<DomainReport>,
                  calls: seq<StoreCall>, calls': seq<StoreCall>)
    requires calls == Saves(hasStore, runID, reports)
    requires calls' == calls + if r.Some? && hasStore && runID > 0 then [SaveDomainReport(runID, r.value)] else []
    ensures calls' == Saves(hasStore, runID, if r.Some? then reports + [r.value] else reports)
  {
    if r.Some? {
      SavesAppend(hasStore, runID, reports, r.value);
    }
  }

  /** The locked part of a goroutine, and the save before it. */
  method Record(opts: RunOptions, runID: int, hasStore: bool, domain: Bytes, r: Option<DomainReport>,
                reports: seq<DomainReport>, events: seq<Event>, calls: seq<StoreCall>, completed: nat)
    returns (reports': seq<DomainReport>, events': seq<Event>, calls': seq<StoreCall>, completed': nat)
    requires |opts.domains| > 0 && completed == |reports|
    ensures reports' == (if r.Some? then reports + [r.value] else reports) && completed' == |reports'|
    ensures events' == events +
      if opts.hasCallback && r.Some? then [Event(ProcessedDomain + domain, DomainProgress(completed + 1, |opts.domains|))] else []
    ensures calls' == calls + if r.Some? && hasStore && runID > 0 then [SaveDomainReport(runID, r.value)] else []
  {
    reports', events', calls', completed' := reports, events, calls, completed;
    if r.Some? {
      if hasStore && runID > 0 {
        calls' := calls' + [SaveDomainReport(runID, r.value)];
      }
      reports' := reports' + [r.value];
      completed' := completed' + 1;
      var progress := 10 + completed' * 70 / |opts.domains|;
      if opts.hasCallback {
        events' := events' + [Event(ProcessedDomain + domain, progress)];
      }
    }
  }

  /** Collected and Progress of one more turn. */
  lemma FanOutUnfold(res: nat -> Option<DomainReport>, domains: seq<Bytes>, order: seq<nat>, t: nat, reports: seq<DomainReport>)
    requires InRange(order, |domains|) && t < |order| && reports == Collected(res, order[..t])
    ensures Collected(res, order[..t + 1]) == if res(order[t]).Some? then reports + [res(order[t]).value] else reports
    ensures Progress(res, domains, order[..t + 1]) == Progress(res, domains, order[..t]) +
      if res(order[t]).Some? then [Event(ProcessedDomain + domains[order[t]], DomainProgress(|reports| + 1, |domains|))] else []
  {
    assert order[..t + 1][..t] == order[..t];
    CollectedUnfold(res, order, t);
  }

  lemma SavesAppend(hasStore: bool, runID: int, reports: seq<DomainReport>, r: DomainReport)
    ensures Saves(hasStore, runID, reports + [r]) ==
      Saves(hasStore, runID, reports) + if hasStore && runID > 0 then [SaveDomainReport(runID, r)] else []
  {
    assert (reports + [r])[..|reports|] == reports;
  }

  // ---- after the fan-out ----------------------------------------------------------

  // The UTF-8 bytes of the literal text of a block.
  const DomainHeading: Bytes := [35, 35, 32, 233, 162, 134, 229, 159, 159, 239, 188, 154] // "## 领域："
  const ScoreOpen: Bytes := [32, 40, 232, 175, 132, 229, 136, 134, 58, 32]               // " (评分: "
  const OverviewHeading: Bytes := [41, 10, 35, 35, 35, 32, 231, 187, 188, 232, 191, 176, 10] // ")\n### 综述\n"
  const TrendsHeading: Bytes := [10, 35, 35, 35, 32, 232, 182, 139, 229, 138, 191, 10]   // "\n### 趋势\n"
  const EventsHeading: Bytes :=                                                          // "\n### 关键事件\n- "
    [10, 35, 35, 35, 32, 229, 133, 179, 233, 148, 174, 228, 186, 139, 228, 187, 182, 10, 45, 32]
  const EventSeparator: Bytes := [10, 45, 32]                                            // "\n- "
  const BlockEnd: Bytes := [10, 10]                                                      // "\n\n"

  /** The block of the deep-analysis input for one report: the four Fprintf calls. */
  function Block(r: DomainReport): Bytes
  {
    DomainHeading + r.domainName + ScoreOpen + FormatInt(r.score) +
    OverviewHeading + r.overview +
    TrendsHeading + r.trends +
    EventsHeading + Join(r.keyEvents, EventSeparator) + BlockEnd
  }

  /** The strings.Builder contents: one block per report, in the given order. */
  function SummaryText(rs: seq<DomainReport>): Bytes
  {
    ConcatMap(rs, Block)
  }

  /** The summary of `a + b` is the summary of `a` followed by that of `b`. */
  lemma SummaryTextAppend(a: seq<DomainReport>, b: seq<DomainReport>)
    ensures SummaryText(a + b) == SummaryText(a) + SummaryText(b)
  {
    ConcatMapAppend(a, b, Block);
  }

  /** The summary starts with the block of the best-scored report. */
  lemma SummaryTextFirst(rs: seq<DomainReport>)
    requires rs != []
    ensures SummaryText(rs) == Block(rs[0]) + SummaryText(rs[1..])
  {
    ConcatMapFirst(rs, Block);
  }

  /** Copies `reports` into an array and sorts it by score, highest first. */
  method SortReports(reports: seq<DomainReport>) returns (sorted: seq<DomainReport>)
    ensures NonIncreasing(sorted, ScoreOf)
    ensures multiset(sorted) == multiset(reports)
  {
    var a := new DomainReport[|reports|](k requires 0 <= k < |reports| => reports[k]);
    assert a[..] == reports;
    SortByKeyDesc(a, ScoreOf);
    sorted := a[..];
  }

  function RunID(env: Env): int
  {
    if env.hasStore && env.createRun.Ok? then env.createRun.value else 0
  }

  function StartEvents(opts: RunOptions): seq<Event>
  {
    if opts.hasCallback then [Event(StartingText, 0)] else []
  }

  /** The deep-analysis step on the sorted reports: the analysis, if the persona
      is set and the retry loop succeeds, and the store calls it leads to. */
  function DeepStep(env: Env, opts: RunOptions, sorted: seq<DomainReport>): (Option<DeepAnalysis>, seq<StoreCall>)
  {
    if opts.persona == [] then (None, [])
    else
      var o := DeepSpec(env.deep(SummaryText(sorted)), env.deepParser, 0, None);
      if o.result.Err? then (None, [])
      else
        var a := o.result.value;
        var runID := RunID(env);
        (Some(a),
         if env.hasStore && runID > 0 then
           [SaveDeepAnalysis(runID, opts.userID, a)] + (if a.title != [] then [UpdateRunTitle(runID, a.title)] else [])
         else [])
  }

  /** Everything Run does, given the order the goroutines finish in and the
      order sort.Slice leaves the reports in. */
  function RunSpec(env: Env, opts: RunOptions, order: seq<nat>, sorted: seq<DomainReport>): RunLog
    requires InRange(order, |opts.domains|)
  {
    var start := StartEvents(opts);
    if |opts.domains| == 0 then RunLog(Some(Plain(NoDomainsProvided)), start, [], [], None)
    else
      var runID := RunID(env);
      var open := if env.hasStore then [CreateRun] else [];
      var res := Outcomes(env, opts.domains);
      var reports := Collected(res, order);
      var events := start + if opts.hasCallback then Progress(res, opts.domains, order) else [];
      var calls := open + Saves(env.hasStore, runID, reports);
      if |reports| == 0 then RunLog(Some(Plain(NoDomainReports)), events, calls, [], None)
      else
        var deep := DeepStep(env, opts, sorted);
        RunLog(None,
               events + if opts.hasCallback then [Event(GeneratingDeep, 85), Event(CompletedText, 100)] else [],
               calls + deep.1, sorted, deep.0)
  }

  /** Engine.Run. */
  method Run(env: Env, opts: RunOptions, order: seq<nat>) returns (log: RunLog)
    requires IsOrder(order, |opts.domains|) && StripsFences(env)
    ensures log == RunSpec(env, opts, order, log.reports)
    ensures log.err.None? ==>
      NonIncreasing(log.reports, ScoreOf) && multiset(log.reports) == multiset(Collected(Outcomes(env, opts.domains), order))
  {
    var events := StartEvents(opts);
    if |opts.domains| == 0 {
      return RunLog(Some(Plain(NoDomainsProvided)), events, [], [], None);
    }
    var calls: seq<StoreCall> := [];
    var runID := 0;
    if env.hasStore {
      calls := [CreateRun];
      if env.createRun.Ok? {
        runID := env.createRun.value;
      }
    }
    OutcomesAreDomainResults(env, opts.domains);
    var reports, progress, saves := FanOut(env, opts, order, runID, Outcomes(env, opts.domains));
    events := events + progress;
    calls := calls + saves;
    if |reports| == 0 {
      return RunLog(Some(Plain(NoDomainReports)), events, calls, [], None);
    }
    var sorted := SortReports(reports);
    var deep, deepCalls := DeepInterpret(env, opts, sorted, runID);
    if opts.hasCallback {
      events := events + [Event(GeneratingDeep, 85), Event(CompletedText, 100)];
    }
    log := RunLog(None, events, calls + deepCalls, sorted, deep);
  }

  /** The deep-analysis block of Run, after the reports are sorted. */
  method DeepInterpret(env: Env, opts: RunOptions, sorted: seq<DomainReport>, runID: int)
    returns (deep: Option<DeepAnalysis>, calls: seq<StoreCall>)
    requires runID == RunID(env)
    ensures (deep, calls) == DeepStep(env, opts, sorted)
  {
    deep, calls := None, [];
    if opts.persona != [] {
      var o := DeepWithRetry(env.deep(SummaryText(sorted)), env.deepParser);
      if o.result.Ok? {
        var analysis := o.result.value;
        deep := Some(analysis);
        assert DeepStep(env, opts, sorted).0 == Some(analysis);
        if env.hasStore && runID > 0 {
          calls := [SaveDeepAnalysis(runID, opts.userID, analysis)];
          if analysis.title != [] {
            calls := calls + [UpdateRunTitle(runID, analysis.title)];
          }
        }
        assert DeepStep(env, opts, sorted).1 == calls;
      }
    }
  }

  // ---- properties ----------------------------------------------------------------

  /** Every collected report is the report of one of the domains, named after
      it and citing its 1 to 6 selected articles. */
  lemma ReportOrigin(env: Env, domains: seq<Bytes>, order: seq<nat>, r: DomainReport) returns (t: nat)
    requires InRange(order, |domains|) && r in Collected(Outcomes(env, domains), order)
    ensures t < |order| && DomainResult(env, order[t], domains[order[t]]) == Some(r)
    ensures var i := order[t];
      env.search(i).Ok? && r.domainName == domains[i] &&
      r.articles == Selected(domains[i], env.search(i).value, env.fetch(i)) && 1 <= |r.articles| <= 6
  {
    var res := Outcomes(env, domains);
    CollectedFrom(res, order, r);
    t :| 0 <= t < |order| && res(order[t]) == Some(r);
    DomainResultOrigin(env, order[t], domains[order[t]]);
  }

  /** The `k`-th progress call reports `k + 1` domains done. */
  lemma {:induction false} ProgressValues(res: nat -> Option<DomainReport>, domains: seq<Bytes>, order: seq<nat>)
    requires InRange(order, |domains|)
    ensures forall k :: 0 <= k < |Progress(res, domains, order)| ==>
      |domains| > 0 && Progress(res, domains, order)[k].progress == DomainProgress(k + 1, |domains|)
    decreases |order|
  {
    if order != [] {
      var pre, i := order[..|order| - 1], order[|order| - 1];
      assert InRange(pre, |domains|);
      ProgressValues(res, domains, pre);
      var ps, es := Progress(res, domains, pre), Progress(res, domains, order);
      var tail := if res(i).Some? then [Event(ProcessedDomain + domains[i], DomainProgress(|ps| + 1, |domains|))] else [];
      assert es == ps + tail;
      forall k | 0 <= k < |es|
        ensures |domains| > 0 && es[k].progress == DomainProgress(k + 1, |domains|)
      {
        if k < |ps| {
          assert es[k] == ps[k];
          assert ps[k].progress == DomainProgress(k + 1, |domains|);
        } else {
          assert k == |ps|;
          assert es[k] == tail[0];
          assert tail[0].progress == DomainProgress(|ps| + 1, |domains|);
        }
      }
    }
  }

  /** Progress after `k` of `n` domains grows with `k`, from 10 up to 80. */
  lemma DomainProgressBounds(k: nat, l: nat, n: nat)
    requires 0 < n && k <= l <= n
    ensures 10 <= DomainProgress(k, n) <= DomainProgress(l, n) <= 80
  {
    DivMonotone(k * 70, l * 70, n);
    DivMonotone(l * 70, n * 70, n);
    assert n * 70 / n == 70;
  }

  lemma DivMonotone(a: nat, b: nat, n: nat)
    requires 0 < n && a <= b
    ensures a / n <= b / n
  {
    var q1, q2 := a / n, b / n;
    assert n * q1 <= a && b < n * q2 + n;
    MulMonotone(n, q1, q2 + 1);
  }

  lemma {:induction false} MulMonotone(n: nat, x: int, y: int)
    ensures y <= x ==> n * y <= n * x
    decreases if y <= x then x - y else 0
  {
    if y < x {
      MulMonotone(n, x - 1, y);
    }
  }

  /** The progress values of `es` never go down. */
  ghost predicate ProgressSorted(es: seq<Event>)
  {
    forall k, l :: 0 <= k < l < |es| ==> es[k].progress <= es[l].progress
  }

  /** The progress values of `es` lie within `lo..hi`. */
  ghost predicate ProgressWithin(es: seq<Event>, lo: int, hi: int)
  {
    forall k :: 0 <= k < |es| ==> lo <= es[k].progress <= hi
  }

  lemma ProgressConcat(a: seq<Event>, b: seq<Event>, lo: int, mid: int, hi: int)
    requires lo <= mid <= hi
    requires ProgressSorted(a) && ProgressWithin(a, lo, mid)
    requires ProgressSorted(b) && ProgressWithin(b, mid, hi)
    ensures ProgressSorted(a + b) && ProgressWithin(a + b, lo, hi)
  {
    var c := a + b;
    forall k | 0 <= k < |c|
      ensures lo <= c[k].progress <= hi
    {
      if k < |a| {
        assert c[k] == a[k];
      } else {
        assert c[k] == b[k - |a|];
      }
    }
    forall k, l | 0 <= k < l < |c|
      ensures c[k].progress <= c[l].progress
    {
      if l < |a| {
        assert c[k] == a[k] && c[l] == a[l];
      } else if k < |a| {
        assert c[k] == a[k] && c[l] == b[l - |a|];
      } else {
        assert c[k] == b[k - |a|] && c[l] == b[l - |a|];
      }
    }
  }

  /** The progress calls of the fan-out report 10..80, never going down. */
  lemma ProgressBounded(res: nat -> Option<DomainReport>, domains: seq<Bytes>, order: seq<nat>)
    requires InRange(order, |domains|) && |order| <= |domains|
    ensures ProgressSorted(Progress(res, domains, order)) && ProgressWithin(Progress(res, domains, order), 10, 80)
  {
    ProgressValues(res, domains, order);
    if order != [] {
      DomainProgressSeq(Progress(res, domains, order), |domains|);
    }
  }

  /** Progress values `DomainProgress(1, n)`, `DomainProgress(2, n)`, ... for at most `n` calls. */
  lemma DomainProgressSeq(ps: seq<Event>, n: nat)
    requires 0 < n && |ps| <= n
    requires forall k :: 0 <= k < |ps| ==> ps[k].progress == DomainProgress(k + 1, n)
    ensures ProgressSorted(ps) && ProgressWithin(ps, 10, 80)
  {
    forall k, l | 0 <= k < l < |ps|
      ensures ps[k].progress <= ps[l].progress
    {
      DomainProgressBounds(k + 1, l + 1, n);
    }
    forall k | 0 <= k < |ps|
      ensures 10 <= ps[k].progress <= 80
    {
      DomainProgressBounds(k + 1, k + 1, n);
    }
  }

  /** The callback calls Run makes when the goroutines finish in `order`. */
  function RunEvents(opts: RunOptions, res: nat -> Option<DomainReport>, order: seq<nat>): seq<Event>
    requires InRange(order, |opts.domains|)
  {
    var start := StartEvents(opts);
    if |opts.domains| == 0 || !opts.hasCallback then start
    else if |Collected(res, order)| == 0 then start + Progress(res, opts.domains, order)
    else start + Progress(res, opts.domains, order) + [Event(GeneratingDeep, 85), Event(CompletedText, 100)]
  }

  lemma RunSpecEvents(env: Env, opts: RunOptions, order: seq<nat>, sorted: seq<DomainReport>)
    requires InRange(order, |opts.domains|)
    ensures RunSpec(env, opts, order, sorted).events == RunEvents(opts, Outcomes(env, opts.domains), order)
  {
  }

  lemma RunEventsMonotone(opts: RunOptions, res: nat -> Option<DomainReport>, order: seq<nat>)
    requires InRange(order, |opts.domains|) && |order| <= |opts.domains|
    ensures ProgressSorted(RunEvents(opts, res, order)) && ProgressWithin(RunEvents(opts, res, order), 0, 100)
  {
    var start := StartEvents(opts);
    if |opts.domains| > 0 && opts.hasCallback {
      var ps := Progress(res, opts.domains, order);
      ProgressBounded(res, opts.domains, order);
      ProgressConcat(start, ps, 0, 10, 80);
      if |Collected(res, order)| > 0 {
        ProgressConcat(start + ps, [Event(GeneratingDeep, 85), Event(CompletedText, 100)], 0, 85, 100);
      }
    }
  }

  /** The progress Run reports stays within 0..100 and never goes down. */
  lemma RunProgressMonotone(env: Env, opts: RunOptions, order: seq<nat>, sorted: seq<DomainReport>)
    requires IsOrder(order, |opts.domains|)
    ensures ProgressSorted(RunSpec(env, opts, order, sorted).events)
    ensures ProgressWithin(RunSpec(env, opts, order, sorted).events, 0, 100)
  {
    RunSpecEvents(env, opts, order, sorted);
    RunEventsMonotone(opts, Outcomes(env, opts.domains), order);
  }

  /** SaveDomainReport is called once per report, in order, exactly when there is
      a store and a run. */
  lemma {:induction false} SavesAre(hasStore: bool, runID: int, reports: seq<DomainReport>)
    ensures |Saves(hasStore, runID, reports)| == (if hasStore && runID > 0 then |reports| else 0)
    ensures forall k :: 0 <= k < |Saves(hasStore, runID, reports)| ==>
      Saves(hasStore, runID, reports)[k] == SaveDomainReport(runID, reports[k])
    decreases |reports|
  {
    if reports != [] {
      SavesAre(hasStore, runID, reports[..|reports| - 1]);
    }
  }

  /** Run fails exactly when there is no domain or no goroutine brings a report;
      it then has no reports, no deep analysis, no store call but CreateRun, and
      never reports completion. */
  lemma RunFails(env: Env, opts: RunOptions, order: seq<nat>, sorted: seq<DomainReport>)
    requires InRange(order, |opts.domains|)
    ensures var log := RunSpec(env, opts, order, sorted);
      log.err.Some? <==>
        |opts.domains| == 0 || forall t :: 0 <= t < |order| ==> Outcomes(env, opts.domains)(order[t]).None?
    ensures var log := RunSpec(env, opts, order, sorted);
      log.err.Some? ==>
        log.reports == [] && log.deep.None? &&
        log.calls == (if env.hasStore && |opts.domains| > 0 then [CreateRun] else []) &&
        forall k :: 0 <= k < |log.events| ==> log.events[k].progress < 100
  {
    var res := Outcomes(env, opts.domains);
    CollectedEmpty(res, order);
  }

  /** The deep analysis is asked for only with a persona, and is what the decoder
      made of one of the replies; it is saved only when there is a store and a
      run, and the run is retitled only when the analysis has a title. */
  lemma DeepStepCalls(env: Env, opts: RunOptions, sorted: seq<DomainReport>)
    ensures var d := DeepStep(env, opts, sorted);
      opts.persona == [] ==> d.0.None? && d.1 == []
    ensures var d := DeepStep(env, opts, sorted);
      d.0.Some? ==> exists j :: 0 <= j <= 3 && DecodedAt(env.deep(SummaryText(sorted)), env.deepParser, j, d.0.value)
    ensures var d := DeepStep(env, opts, sorted);
      (d.1 != [] <==> d.0.Some? && env.hasStore && RunID(env) > 0) &&
      (d.1 != [] ==>
        d.1[0] == SaveDeepAnalysis(RunID(env), opts.userID, d.0.value) &&
        (|d.1| == 2 <==> d.0.value.title != []) && |d.1| <= 2 &&
        (|d.1| == 2 ==> d.1[1] == UpdateRunTitle(RunID(env), d.0.value.title)))
  {
    if opts.persona != [] {
      DeepResultIsDecodedReply(env.deep(SummaryText(sorted)), env.deepParser, 0, None);
    }
  }

  /** A first reply that is a ```json fence around the report's JSON decodes to
      that report, renamed after the domain. */
  lemma FencedReportDecodes(env: Env, i: nat, domain: Bytes, body: Bytes, v: DomainReport)
    requires StripsFences(env)
    requires env.generate(i)(0) == Attempt(None, Replied(JsonFence() + body + Fence()), false)
    requires body == [] || body[0] != 96
    requires env.reportParser.decode(body) == Ok(v)
    ensures GenerateReport(env, i, domain) == Ok(v.(domainName := domain))
  {
    StripFencesJsonFenced(body);
    var att, p := env.generate(i), env.reportParser;
    assert StepOf(att(0), p) == Decoded(v);
    assert GenerateSpec(att, p, 0).result == Ok(v);
  }
}
