/** The RSS agent: it reads every configured feed in turn, skips a feed that
    cannot be parsed and every item published more than a day ago, and starts
    one goroutine per remaining item. A goroutine takes the fetched page as the
    content when the fetch succeeds and the item's description otherwise, cuts
    it to 6000 bytes, asks the model once for a summary, and brings an article
    under the item's own title, or nothing when that call fails. The articles
    are sorted by score.

    The collaborators are oracles: `feeds(k)` parses the `k`-th feed;
    `fetch(w)` and `summarize(w, content)` answer for job `w`, the latter
    given the content its prompt is built from. Whether an item is older than
    a day is part of the item: the clock is not modelled. */
module RssAgent {
  import opened Base
  import opened Text
  import opened Retry
  import opened Sorting
  import opened FanIn
  import opened Agents

  /** A gofeed item: `hasTime` says whether PublishedParsed is set and
      `olderThanDay` whether that time lies more than 24 hours back. */
  datatype FeedItem = FeedItem(
    title: Bytes, link: Bytes, description: Bytes, published: Bytes, hasTime: bool, olderThanDay: bool)

  /** The agent's `LLMResponse`. */
  datatype Summary = Summary(summary: Bytes, category: Bytes, score: int)

  datatype Env = Env(
    feeds: nat -> Result<Feed<FeedItem>, Error>,
    fetch: nat -> Option<Bytes>,
    summarize: (nat, Bytes) -> Attempt,
    parser: Parser<Summary>)

  /** The reply is stripped of its fences before it is decoded. */
  ghost predicate StripsFences(env: Env)
  {
    env.parser.clean == StripFences
  }

  /** An item is processed unless it has a publish time older than a day. */
  predicate Fresh(item: FeedItem)
  {
    !(item.hasTime && item.olderThanDay)
  }

  function FeedJobsAll(env: Env, n: nat): seq<Job<FeedItem>>
  {
    Jobs(env.feeds, n, Fresh)
  }

  /** The content summarized for an item, given what fetching its link gives. */
  function ItemContent(item: FeedItem, fetched: Option<Bytes>): Bytes
  {
    Truncate(if fetched.Some? then fetched.value else item.description, 6000)
  }

  /** The goroutine of job `w`: the article it appends, if any. */
  function ItemResult(env: Env, w: nat, job: Job<FeedItem>): Option<NewsArticle>
  {
    var item := job.item;
    var o := SummarizeOnce(env.summarize(w, ItemContent(item, env.fetch(w))), env.parser);
    if o.result.Err? then None
    else
      var s := o.result.value;
      Some(NewsArticle(item.title, item.link, job.source, s.summary, item.published, s.category, s.score))
  }

  method ProcessItem(env: Env, w: nat, job: Job<FeedItem>) returns (r: Option<NewsArticle>)
    ensures r == ItemResult(env, w, job)
  {
    var item := job.item;
    var content: Bytes;
    var fetched := env.fetch(w);
    if fetched.Some? {
      content := fetched.value;
    } else {
      content := item.description;
    }
    if |content| > 6000 {
      content := content[..6000];
    }
    var o := SummarizeOnceCall(env.summarize(w, content), env.parser);
    if o.result.Err? {
      return None;
    }
    var s := o.result.value;
    return Some(NewsArticle(item.title, item.link, job.source, s.summary, item.published, s.category, s.score));
  }

  function Outcomes(env: Env, jobs: seq<Job<FeedItem>>): nat -> Option<NewsArticle>
  {
    (w: nat) => if w < |jobs| then ItemResult(env, w, jobs[w]) else None
  }

  ghost predicate IsOutcomes(res: nat -> Option<NewsArticle>, env: Env, jobs: seq<Job<FeedItem>>)
  {
    forall w: nat {:trigger ItemResult(env, w, jobs[w])} :: w < |jobs| ==> res(w) == ItemResult(env, w, jobs[w])
  }

  lemma OutcomesAreItemResults(env: Env, jobs: seq<Job<FeedItem>>)
    ensures IsOutcomes(Outcomes(env, jobs), env, jobs)
  {
  }

  /** The goroutines, in the order they reach the mutex. */
  method Gather(env: Env, jobs: seq<Job<FeedItem>>, order: seq<nat>, ghost res: nat -> Option<NewsArticle>)
    returns (articles: seq<NewsArticle>)
    requires InRange(order, |jobs|) && IsOutcomes(res, env, jobs)
    ensures articles == Collected(res, order)
  {
    articles := [];
    for t := 0 to |order|
      invariant articles == Collected(res, order[..t])
    {
      var w := order[t];
      var r := ProcessItem(env, w, jobs[w]);
      CollectedUnfold(res, order, t);
      if r.Some? {
        articles := articles + [r.value];
      }
    }
    assert order[..|order|] == order;
  }

  /** main up to the page, for `n` configured feeds. */
  method RunRssAgent(env: Env, n: nat, order: seq<nat>) returns (articles: seq<NewsArticle>)
    requires IsOrder(order, |FeedJobsAll(env, n)|) && StripsFences(env)
    ensures NonIncreasing(articles, NewsScore)
    ensures multiset(articles) == multiset(Collected(Outcomes(env, FeedJobsAll(env, n)), order))
  {
    var jobs := Spawn(env.feeds, n, Fresh);
    OutcomesAreItemResults(env, jobs);
    var gathered := Gather(env, jobs, order, Outcomes(env, jobs));
    articles := SortArticles(gathered);
  }

  // ---- properties ----------------------------------------------------------------

  /** An item gets a goroutine exactly when its feed was parsed and it has no
      publish time or one within the last day; it carries the feed's title as
      its source. */
  lemma FeedJobMembers(env: Env, n: nat, j: Job<FeedItem>)
    ensures j in FeedJobsAll(env, n) <==>
      (!j.item.hasTime || !j.item.olderThanDay) &&
      exists k :: 0 <= k < n && env.feeds(k).Ok? && j.source == env.feeds(k).value.name && j.item in env.feeds(k).value.items
  {
    JobsMembers(env.feeds, n, Fresh, j);
    if exists k :: 0 <= k < n && env.feeds(k).Ok? && j.source == env.feeds(k).value.name && j.item in env.feeds(k).value.items {
      var k :| 0 <= k < n && env.feeds(k).Ok? && j.source == env.feeds(k).value.name && j.item in env.feeds(k).value.items;
      if Fresh(j.item) {
        assert InFeed(env.feeds(k), j, Fresh);
      }
    }
  }

  /** The content is the fetched page whenever the fetch succeeds, even a
      shorter one, and the description otherwise, cut to 6000 bytes. */
  lemma ItemContentRule(item: FeedItem, fetched: Option<Bytes>)
    ensures var c := ItemContent(item, fetched);
      |c| <= 6000 &&
      (fetched.Some? ==> HasPrefix(fetched.value, c) && (|fetched.value| <= 6000 ==> c == fetched.value)) &&
      (fetched.None? ==> HasPrefix(item.description, c) && (|item.description| <= 6000 ==> c == item.description))
  {
  }

  /** An article keeps its item's title, link and publish string, names its
      feed, and carries what the decoder made of the one reply; a goroutine
      brings nothing exactly when that one call fails. */
  lemma ArticleOrigin(env: Env, w: nat, job: Job<FeedItem>)
    ensures var a := env.summarize(w, ItemContent(job.item, env.fetch(w)));
      ItemResult(env, w, job).None? <==> SummarizeOnce(a, env.parser).result.Err?
    ensures var a := env.summarize(w, ItemContent(job.item, env.fetch(w)));
      ItemResult(env, w, job).Some? ==>
        var r := ItemResult(env, w, job).value;
        a.reply.Replied? && r.title == job.item.title && r.link == job.item.link &&
        r.source == job.source && r.pubDate == job.item.published &&
        env.parser.decode(env.parser.clean(a.reply.content)) == Ok(Summary(r.summary, r.category, r.score))
  {
  }
}
