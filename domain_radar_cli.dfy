/** The command-line domain radar, the engine's predecessor: the same search,
    selection and report generation per domain (Engine.ProcessDomain), but no
    run record. A report is saved without a run as soon as it is generated,
    the number of selected articles is summed under the mutex, and the page
    shows that count, the reports sorted by score and the deep analysis.

    The collaborators are those of Engine.Env; `createRun` plays no part here. */
module DomainRadarCli {
  import opened Base
  import opened Model
  import opened Selection
  import opened Retry
  import opened Sorting
  import opened FanIn
  import opened Engine

  /** A call the command makes on the store. */
  datatype CliCall = SaveReport(report: DomainReport) | SaveAnalysis(analysis: DeepAnalysis)

  /** The data handed to the page template. */
  datatype Page = Page(count: int, reports: seq<DomainReport>, deep: Option<DeepAnalysis>)

  /** `totalArticles`: the selected articles of `rs`, counted. */
  function ArticleCount(rs: seq<DomainReport>): int
  {
    if rs == [] then 0 else ArticleCount(rs[..|rs| - 1]) + |rs[|rs| - 1].articles|
  }

  /** SaveDomainReport for each appended report, when there is a store. */
  function ReportSaves(hasStore: bool, rs: seq<DomainReport>): (cs: seq<CliCall>)
    ensures |cs| == if hasStore then |rs| else 0
  {
    if rs == [] || !hasStore then [] else ReportSaves(hasStore, rs[..|rs| - 1]) + [SaveReport(rs[|rs| - 1])]
  }

  /** The goroutines, in the order they reach the mutex. */
  method Gather(env: Env, domains: seq<Bytes>, order: seq<nat>, ghost res: nat -> Option<DomainReport>)
    returns (reports: seq<DomainReport>, total: int, calls: seq<CliCall>)
    requires InRange(order, |domains|) && IsOutcomes(res, env, domains)
    ensures reports == Collected(res, order)
    ensures total == ArticleCount(reports)
    ensures calls == ReportSaves(env.hasStore, reports)
  {
    reports, total, calls := [], 0, [];
    for t := 0 to |order|
      invariant reports == Collected(res, order[..t])
      invariant total == ArticleCount(reports)
      invariant calls == ReportSaves(env.hasStore, reports)
    {
      var i := order[t];
      var r := ProcessDomain(env, i, domains[i]);
      CollectedUnfold(res, order, t);
      reports, total, calls := GatherStep(env.hasStore, r, reports, total, calls);
    }
    assert order[..|order|] == order;
  }

  /** One goroutine's turn once its outcome `r` is known: save, append, count. */
  method GatherStep(hasStore: bool, r: Option<DomainReport>, reports: seq<DomainReport>, total: int, calls: seq<CliCall>)
    returns (reports': seq<DomainReport>, total': int, calls': seq<CliCall>)
    requires total == ArticleCount(reports) && calls == ReportSaves(hasStore, reports)
    ensures reports' == if r.Some? then reports + [r.value] else reports
    ensures total' == ArticleCount(reports') && calls' == ReportSaves(hasStore, reports')
  {
    reports', total', calls' := reports, total, calls;
    if r.Some? {
      if hasStore {
        calls' := calls' + [SaveReport(r.value)];
      }
      reports' := reports' + [r.value];
      total' := total' + |r.value.articles|;
      assert reports'[..|reports'| - 1] == reports;
    }
  }

  /** The deep-analysis step: asked for only with a persona and at least one
      report; a failure leaves it nil; a success is saved when there is a store. */
  function CliDeep(env: Env, persona: Bytes, sorted: seq<DomainReport>): (Option<DeepAnalysis>, seq<CliCall>)
  {
    if persona == [] || |sorted| == 0 then (None, [])
    else
      var o := DeepSpec(env.deep(SummaryText(sorted)), env.deepParser, 0, None);
      if o.result.Err? then (None, [])
      else (Some(o.result.value), if env.hasStore then [SaveAnalysis(o.result.value)] else [])
  }

  method DeepInterpretCli(env: Env, persona: Bytes, sorted: seq<DomainReport>)
    returns (deep: Option<DeepAnalysis>, calls: seq<CliCall>)
    ensures (deep, calls) == CliDeep(env, persona, sorted)
  {
    deep, calls := None, [];
    if persona != [] && |sorted| > 0 {
      var o := DeepWithRetry(env.deep(SummaryText(sorted)), env.deepParser);
      if o.result.Ok? {
        deep := Some(o.result.value);
        if env.hasStore {
          calls := [SaveAnalysis(o.result.value)];
        }
      }
    }
  }

  /** main, from the fan-out to the page data. */
  method RunCli(env: Env, domains: seq<Bytes>, persona: Bytes, order: seq<nat>)
    returns (page: Page, calls: seq<CliCall>)
    requires IsOrder(order, |domains|) && StripsFences(env)
    ensures var reports := Collected(Outcomes(env, domains), order);
      NonIncreasing(page.reports, ScoreOf) && multiset(page.reports) == multiset(reports) &&
      page.count == ArticleCount(reports) &&
      page.deep == CliDeep(env, persona, page.reports).0 &&
      calls == ReportSaves(env.hasStore, reports) + CliDeep(env, persona, page.reports).1
  {
    OutcomesAreDomainResults(env, domains);
    var reports, total, saves := Gather(env, domains, order, Outcomes(env, domains));
    var sorted := SortReports(reports);
    var deep, deepCalls := DeepInterpretCli(env, persona, sorted);
    page := Page(total, sorted, deep);
    calls := saves + deepCalls;
  }

  // ---- properties ----------------------------------------------------------------

  lemma {:induction false} ArticleCountAppend(a: seq<DomainReport>, b: seq<DomainReport>)
    ensures ArticleCount(a + b) == ArticleCount(a) + ArticleCount(b)
    decreases |b|
  {
    if b == [] {
      assert a + b == a;
    } else {
      var b' := b[..|b| - 1];
      assert (a + b)[..|a + b| - 1] == a + b';
      ArticleCountAppend(a, b');
    }
  }

  /** The count does not depend on the order of the reports: it is also the
      count over the sorted reports the page shows. */
  lemma {:induction false} ArticleCountPermutation(a: seq<DomainReport>, b: seq<DomainReport>)
    requires multiset(a) == multiset(b)
    ensures ArticleCount(a) == ArticleCount(b)
    decreases |a|
  {
    if a == [] {
      assert |b| == |multiset(b)| == 0;
    } else {
      var x, a' := a[|a| - 1], a[..|a| - 1];
      assert a == a' + [x];
      var b1, b2 := RemoveOne(a', x, b);
      ArticleCountPermutation(a', b1 + b2);
      ArticleCountAppend(b1 + [x], b2);
      ArticleCountAppend(b1, [x]);
      ArticleCountAppend(b1, b2);
      assert [x][..0] == [];
    }
  }

  /** Every report brings between one and six articles to the count. */
  lemma {:induction false} ArticleCountBounds(rs: seq<DomainReport>)
    requires forall k :: 0 <= k < |rs| ==> 1 <= |rs[k].articles| <= 6
    ensures |rs| <= ArticleCount(rs) <= 6 * |rs|
    decreases |rs|
  {
    if rs != [] {
      ArticleCountBounds(rs[..|rs| - 1]);
    }
  }

  /** The page's count is that of the reports it shows, between one and six
      articles per report. */
  lemma PageCount(env: Env, domains: seq<Bytes>, order: seq<nat>, sorted: seq<DomainReport>)
    requires InRange(order, |domains|)
    requires multiset(sorted) == multiset(Collected(Outcomes(env, domains), order))
    ensures ArticleCount(Collected(Outcomes(env, domains), order)) == ArticleCount(sorted)
    ensures |sorted| <= ArticleCount(sorted) <= 6 * |sorted|
  {
    var reports := Collected(Outcomes(env, domains), order);
    ArticleCountPermutation(reports, sorted);
    forall k | 0 <= k < |sorted|
      ensures 1 <= |sorted[k].articles| <= 6
    {
      assert sorted[k] in multiset(reports);
      var t := ReportOrigin(env, domains, order, sorted[k]);
    }
    ArticleCountBounds(sorted);
  }

  /** The deep analysis exists only with a persona and a report, and then it is
      what the decoder made of one of the replies; it is saved exactly when it
      exists and there is a store. */
  lemma CliDeepGating(env: Env, persona: Bytes, sorted: seq<DomainReport>)
    ensures var d := CliDeep(env, persona, sorted);
      d.0.Some? ==> (persona != [] && sorted != [] &&
        exists j :: 0 <= j <= 3 && DecodedAt(env.deep(SummaryText(sorted)), env.deepParser, j, d.0.value))
    ensures var d := CliDeep(env, persona, sorted);
      d.1 == (if d.0.Some? && env.hasStore then [SaveAnalysis(d.0.value)] else [])
  {
    if persona != [] && |sorted| > 0 {
      DeepResultIsDecodedReply(env.deep(SummaryText(sorted)), env.deepParser, 0, None);
    }
  }
}
