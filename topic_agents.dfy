/** The two topic agents: the news agent and the older topic radar. Both
    search every topic in turn, skip a topic whose search fails, and start one
    goroutine per search result. A goroutine settles the content (the snippet,
    or the fetched page when the snippet is under 200 bytes and the page is
    longer, cut to 6000 bytes), has the model summarize it with
    summarizeContent's retry loop, and brings an article titled with the
    model's Chinese title when it gave one, or nothing when the summary
    failed. The articles are sorted by score. The topic radar then asks for a
    deep analysis of the numbered article list when a persona is configured.

    The collaborators are oracles: `search(k)` answers for topic `k`;
    `fetch(w)` and `summarize(w, title, content)` for job `w`, the latter
    given the title and content its prompt is built from; `deep(text)` for
    the deep-analysis prompt built from `text`. */
module TopicAgents {
  import opened Base
  import opened Text
  import opened Model
  import opened Selection
  import opened Retry
  import opened Sorting
  import opened FanIn
  import opened Agents

  /** `LLMResponse`: what summarizeContent decodes. */
  datatype Summary = Summary(titleZh: Bytes, summary: Bytes, category: Bytes, score: int)

  /** `DeepAnalysisResult` of the topic radar. */
  datatype TopicAnalysis = TopicAnalysis(macroTrends: Bytes, opportunities: Bytes, risks: Bytes, actionGuides: seq<Bytes>)

  datatype Env = Env(
    search: nat -> Result<seq<SearchResult>, Error>,
    fetch: nat -> Option<Bytes>,
    summarize: (nat, Bytes, Bytes) -> Attempts,
    parser: Parser<Summary>,
    deep: Bytes -> Attempts,
    deepParser: Parser<TopicAnalysis>)

  /** Both replies are stripped of their fences before they are decoded. */
  ghost predicate StripsFences(env: Env)
  {
    env.parser.clean == StripFences && env.deepParser.clean == StripFences
  }

  // ---- the topic loop ----------------------------------------------------------

  /** Topic `k` read as a source named after the topic. */
  function Feeds(env: Env, topics: seq<Bytes>): nat -> Result<Feed<SearchResult>, Error>
  {
    (k: nat) =>
      if k >= |topics| then Ok(Feed([], []))
      else match env.search(k)
        case Ok(items) => Ok(Feed(topics[k], items))
        case Err(e) => Err(e)
  }

  /** Every search result gets a goroutine. */
  function KeepAll(item: SearchResult): bool { true }

  function TopicJobs(env: Env, topics: seq<Bytes>): seq<Job<SearchResult>>
  {
    Jobs(Feeds(env, topics), |topics|, KeepAll)
  }

  // ---- one goroutine ---------------------------------------------------------------

  /** The content summarized for a search result, given what fetching its page gives. */
  function ItemContent(item: SearchResult, fetched: Option<Bytes>): Bytes
  {
    Truncate(ChooseContent(item.content, fetched, 200), 6000)
  }

  /** The title shown: the model's Chinese title unless it is empty. */
  function FinalTitle(title: Bytes, titleZh: Bytes): (t: Bytes)
    ensures t == titleZh || (titleZh == [] && t == title)
    ensures titleZh != [] ==> t == titleZh
    ensures t == [] <==> title == [] && titleZh == []
  {
    if titleZh != [] then titleZh else title
  }

  /** The goroutine of job `w`: the article it appends, if any. */
  function ItemResult(env: Env, w: nat, job: Job<SearchResult>): Option<NewsArticle>
  {
    var item := job.item;
    var o := SummarizeSpec(env.summarize(w, item.title, ItemContent(item, env.fetch(w))), env.parser, 0);
    if o.result.Err? then None
    else
      var s := o.result.value;
      Some(NewsArticle(FinalTitle(item.title, s.titleZh), item.url, job.source, s.summary, item.publishedDate, s.category, s.score))
  }

  method ProcessItem(env: Env, w: nat, job: Job<SearchResult>) returns (r: Option<NewsArticle>)
    ensures r == ItemResult(env, w, job)
  {
    var item := job.item;
    var content := item.content;
    if |content| < 200 {
      var fetched := env.fetch(w);
      if fetched.Some? && |fetched.value| > |content| {
        content := fetched.value;
      }
    }
    if |content| > 6000 {
      content := content[..6000];
    }
    var o := SummarizeWithRetry(env.summarize(w, item.title, content), env.parser);
    if o.result.Err? {
      return None;
    }
    var s := o.result.value;
    var finalTitle := item.title;
    if s.titleZh != [] {
      finalTitle := s.titleZh;
    }
    return Some(NewsArticle(finalTitle, item.url, job.source, s.summary, item.publishedDate, s.category, s.score));
  }

  // ---- the fan-in -------------------------------------------------------------------

  function Outcomes(env: Env, jobs: seq<Job<SearchResult>>): nat -> Option<NewsArticle>
  {
    (w: nat) => if w < |jobs| then ItemResult(env, w, jobs[w]) else None
  }

  ghost predicate IsOutcomes(res: nat -> Option<NewsArticle>, env: Env, jobs: seq<Job<SearchResult>>)
  {
    forall w: nat {:trigger ItemResult(env, w, jobs[w])} :: w < |jobs| ==> res(w) == ItemResult(env, w, jobs[w])
  }

  lemma OutcomesAreItemResults(env: Env, jobs: seq<Job<SearchResult>>)
    ensures IsOutcomes(Outcomes(env, jobs), env, jobs)
  {
  }

  /** The goroutines, in the order they reach the mutex. */
  method Gather(env: Env, jobs: seq<Job<SearchResult>>, order: seq<nat>, ghost res: nat -> Option<NewsArticle>)
    returns (articles: seq<NewsArticle>)
    requires InRange(order, |jobs|) && IsOutcomes(res, env, jobs)
    ensures articles == Collected(res, order)
  {
    articles := [];
    for t := 0 to |order|
      invariant articles == Collected(res, order[..t])
    {
      var w := order[t];
      var r := ProcessItem(env, w, jobs[w]);
      CollectedUnfold(res, order, t);
      if r.Some? {
        articles := articles + [r.value];
      }
    }
    assert order[..|order|] == order;
  }

  /** The news agent's main up to the page: search, summarize, sort. */
  method RunNewsAgent(env: Env, topics: seq<Bytes>, order: seq<nat>) returns (articles: seq<NewsArticle>)
    requires IsOrder(order, |TopicJobs(env, topics)|) && StripsFences(env)
    ensures NonIncreasing(articles, NewsScore)
    ensures multiset(articles) == multiset(Collected(Outcomes(env, TopicJobs(env, topics)), order))
  {
    var jobs := Spawn(Feeds(env, topics), |topics|, KeepAll);
    OutcomesAreItemResults(env, jobs);
    var gathered := Gather(env, jobs, order, Outcomes(env, jobs));
    articles := SortArticles(gathered);
  }

  // ---- the topic radar's deep analysis ------------------------------------------------

  // The UTF-8 bytes of the literal text of an entry.
  const TitleLabel: Bytes := [46, 32, 230, 160, 135, 233, 162, 152, 239, 188, 154]       // ". 标题："
  const CategoryLabel: Bytes := [10, 32, 32, 32, 229, 136, 134, 231, 177, 187, 239, 188, 154] // "\n   分类："
  const SummaryLabel: Bytes := [10, 32, 32, 32, 230, 145, 152, 232, 166, 129, 239, 188, 154]  // "\n   摘要："
  const ScoreLabel: Bytes := [10, 32, 32, 32, 232, 175, 132, 229, 136, 134, 239, 188, 154]    // "\n   评分："
  const EntryEnd: Bytes := [10, 10]                                                          // "\n\n"

  /** The entry of article `a` numbered `k`. */
  function Entry(k: int, a: NewsArticle): Bytes
  {
    FormatInt(k) + TitleLabel + a.title + CategoryLabel + a.category +
    SummaryLabel + a.summary + ScoreLabel + FormatInt(a.score) + EntryEnd
  }

  /** The strings.Builder contents: the articles numbered from 1, in order. */
  function Digest(articles: seq<NewsArticle>): Bytes
  {
    NumberedConcat(articles, Entry)
  }

  /** The loop that fills the builder. */
  method BuildDigest(articles: seq<NewsArticle>) returns (text: Bytes)
    ensures text == Digest(articles)
  {
    text := [];
    for i := 0 to |articles|
      invariant text == Digest(articles[..i])
    {
      assert articles[..i + 1][..i] == articles[..i];
      assert NumberedConcat(articles[..i + 1], Entry) == NumberedConcat(articles[..i], Entry) + Entry(i + 1, articles[i]);
      text := text + Entry(i + 1, articles[i]);
    }
    assert articles[..|articles|] == articles;
  }

  /** The deep analysis: asked for only with a persona and at least one
      article, with summarizeContent's retry policy; nil when it fails. */
  function TopicDeep(env: Env, persona: Bytes, sorted: seq<NewsArticle>): Option<TopicAnalysis>
  {
    if persona == [] || |sorted| == 0 then None
    else
      var o := SummarizeSpec(env.deep(Digest(sorted)), env.deepParser, 0);
      if o.result.Err? then None else Some(o.result.value)
  }

  method DeepInterpretTopics(env: Env, persona: Bytes, sorted: seq<NewsArticle>) returns (deep: Option<TopicAnalysis>)
    ensures deep == TopicDeep(env, persona, sorted)
  {
    deep := None;
    if persona != [] && |sorted| > 0 {
      var text := BuildDigest(sorted);
      var o := SummarizeWithRetry(env.deep(text), env.deepParser);
      if o.result.Ok? {
        deep := Some(o.result.value);
      }
    }
  }

  /** The topic radar's main up to the page: the news agent's pipeline, then
      the deep analysis of the sorted articles. */
  method RunTopicRadar(env: Env, topics: seq<Bytes>, persona: Bytes, order: seq<nat>)
    returns (articles: seq<NewsArticle>, deep: Option<TopicAnalysis>)
    requires IsOrder(order, |TopicJobs(env, topics)|) && StripsFences(env)
    ensures NonIncreasing(articles, NewsScore)
    ensures multiset(articles) == multiset(Collected(Outcomes(env, TopicJobs(env, topics)), order))
    ensures deep == TopicDeep(env, persona, articles)
  {
    articles := RunNewsAgent(env, topics, order);
    deep := DeepInterpretTopics(env, persona, articles);
  }

  // ---- properties ----------------------------------------------------------------

  /** A search result gets a goroutine exactly when it is a result of a topic
      whose search succeeded; it carries that topic as its source. */
  lemma TopicJobMembers(env: Env, topics: seq<Bytes>, j: Job<SearchResult>)
    ensures j in TopicJobs(env, topics) <==>
      exists k :: 0 <= k < |topics| && env.search(k).Ok? && j.source == topics[k] && j.item in env.search(k).value
  {
    var feeds := Feeds(env, topics);
    JobsMembers(feeds, |topics|, KeepAll, j);
    if exists k :: 0 <= k < |topics| && env.search(k).Ok? && j.source == topics[k] && j.item in env.search(k).value {
      var k :| 0 <= k < |topics| && env.search(k).Ok? && j.source == topics[k] && j.item in env.search(k).value;
      assert InFeed(feeds(k), j, KeepAll);
    }
    if exists k :: 0 <= k < |topics| && InFeed(feeds(k), j, KeepAll) {
      var k :| 0 <= k < |topics| && InFeed(feeds(k), j, KeepAll);
      assert env.search(k).Ok? && j.source == topics[k] && j.item in env.search(k).value;
    }
  }

  /** The content rule: the fetched page replaces the snippet exactly when the
      snippet is under 200 bytes and the page is strictly longer; either is cut
      to 6000 bytes; there is no lower bound. */
  lemma ItemContentRule(item: SearchResult, fetched: Option<Bytes>)
    ensures var c := ItemContent(item, fetched);
      |c| <= 6000 &&
      (if |item.content| < 200 && fetched.Some? && |fetched.value| > |item.content|
       then c == Truncate(fetched.value, 6000)
       else c == Truncate(item.content, 6000))
  {
  }

  /** An article is the summary the model gave for its search result, with the
      result's link and date and the topic as its source; its title is the
      model's Chinese title unless that is empty. A goroutine brings nothing
      exactly when summarizing fails. */
  lemma ArticleOrigin(env: Env, w: nat, job: Job<SearchResult>) returns (s: Summary, j: nat)
    requires ItemResult(env, w, job).Some?
    ensures var item := job.item; var a := ItemResult(env, w, job).value;
      j <= 3 && DecodedAt(env.summarize(w, item.title, ItemContent(item, env.fetch(w))), env.parser, j, s) &&
      a.title == (if s.titleZh != [] then s.titleZh else item.title) &&
      a.link == item.url && a.source == job.source && a.pubDate == item.publishedDate &&
      a.summary == s.summary && a.category == s.category && a.score == s.score
  {
    var item := job.item;
    var att := env.summarize(w, item.title, ItemContent(item, env.fetch(w)));
    SummarizeResultIsDecodedReply(att, env.parser, 0);
    var o := SummarizeSpec(att, env.parser, 0);
    s, j := o.result.value, o.calls - 1;
  }

  lemma ArticleDropped(env: Env, w: nat, job: Job<SearchResult>)
    ensures ItemResult(env, w, job).None? <==>
      SummarizeSpec(env.summarize(w, job.item.title, ItemContent(job.item, env.fetch(w))), env.parser, 0).result.Err?
  {
  }

  /** Entry `m + 1` of the digest is that of the `m`-th article, after the
      entries of the articles before it. */
  lemma DigestEntry(articles: seq<NewsArticle>, m: nat)
    requires m < |articles|
    ensures HasPrefix(Digest(articles), Digest(articles[..m]) + Entry(m + 1, articles[m]))
  {
    NumberedConcatPrefix(articles, m, Entry);
  }

  /** The deep analysis exists only with a persona and an article, and then it
      is what the decoder made of one of the replies to the digest. */
  lemma TopicDeepGating(env: Env, persona: Bytes, sorted: seq<NewsArticle>)
    ensures TopicDeep(env, persona, sorted).Some? ==> (persona != [] && sorted != [] &&
      exists j :: 0 <= j <= 3 && DecodedAt(env.deep(Digest(sorted)), env.deepParser, j, TopicDeep(env, persona, sorted).value))
  {
    if persona != [] && |sorted| > 0 {
      SummarizeResultIsDecodedReply(env.deep(Digest(sorted)), env.deepParser, 0);
    }
  }
}
