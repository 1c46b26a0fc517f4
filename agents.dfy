/** The parts shared by the three article agents (the RSS agent, the news agent
    and the older topic radar): a sequential loop over the sources starts one
    goroutine per kept item of every source that could be read, each goroutine
    may bring one scored article, and the articles are sorted by score. */
module Agents {
  import opened Base
  import opened Text
  import opened Sorting

  /** A source that could be read: its name and its items, in order. */
  datatype Feed<I> = Feed(name: Bytes, items: seq<I>)

  /** The arguments of one goroutine: the item and the name of its source. */
  datatype Job<I> = Job(source: Bytes, item: I)

  /** The `Article` of the agents. */
  datatype NewsArticle = NewsArticle(
    title: Bytes, link: Bytes, source: Bytes, summary: Bytes, pubDate: Bytes, category: Bytes, score: int)

  function NewsScore(a: NewsArticle): int { a.score }

  /** The goroutines started for one source: one per kept item, in order. */
  function Picked<I>(name: Bytes, items: seq<I>, keep: I -> bool): (js: seq<Job<I>>)
    ensures |js| <= |items|
  {
    if items == [] then []
    else
      var x := items[|items| - 1];
      Picked(name, items[..|items| - 1], keep) + if keep(x) then [Job(name, x)] else []
  }

  /** The goroutines started for one source, or none when it could not be read. */
  function FeedJobs<I>(r: Result<Feed<I>, Error>, keep: I -> bool): seq<Job<I>>
  {
    if r.Err? then [] else Picked(r.value.name, r.value.items, keep)
  }

  /** The goroutines started for the first `n` sources, in the order they start. */
  function Jobs<I>(feeds: nat -> Result<Feed<I>, Error>, n: nat, keep: I -> bool): seq<Job<I>>
  {
    if n == 0 then [] else Jobs(feeds, n - 1, keep) + FeedJobs(feeds(n - 1), keep)
  }

  /** The loop over the sources: source `k` is read as `feeds(k)`; one that
      fails is skipped. */
  method Spawn<I>(feeds: nat -> Result<Feed<I>, Error>, n: nat, keep: I -> bool) returns (jobs: seq<Job<I>>)
    ensures jobs == Jobs(feeds, n, keep)
  {
    jobs := [];
    for k := 0 to n
      invariant jobs == Jobs(feeds, k, keep)
    {
      var r := feeds(k);
      if r.Err? {
        continue;
      }
      var started := SpawnFeed(r.value.name, r.value.items, keep);
      jobs := jobs + started;
    }
  }

  /** The loop over the items of one source. */
  method SpawnFeed<I>(name: Bytes, items: seq<I>, keep: I -> bool) returns (started: seq<Job<I>>)
    ensures started == Picked(name, items, keep)
  {
    started := [];
    for m := 0 to |items|
      invariant started == Picked(name, items[..m], keep)
    {
      assert items[..m + 1][..m] == items[..m];
      if keep(items[m]) {
        started := started + [Job(name, items[m])];
      } else {
        assert started + [] == started;
      }
    }
    assert items[..|items|] == items;
  }

  /** Copies the articles into an array and sorts it by score, highest first. */
  method SortArticles(articles: seq<NewsArticle>) returns (sorted: seq<NewsArticle>)
    ensures NonIncreasing(sorted, NewsScore)
    ensures multiset(sorted) == multiset(articles)
  {
    var a := new NewsArticle[|articles|](k requires 0 <= k < |articles| => articles[k]);
    assert a[..] == articles;
    SortByKeyDesc(a, NewsScore);
    sorted := a[..];
  }

  // ---- properties ----------------------------------------------------------------

  /** `j` is a job of the source read as `r`. */
  predicate InFeed<I(==)>(r: Result<Feed<I>, Error>, j: Job<I>, keep: I -> bool)
  {
    r.Ok? && j.source == r.value.name && j.item in r.value.items && keep(j.item)
  }

  /** A goroutine is started for an item exactly when its source was read and
      the item is kept. */
  lemma {:induction false} PickedMembers<I>(name: Bytes, items: seq<I>, keep: I -> bool, j: Job<I>)
    ensures j in Picked(name, items, keep) <==> j.source == name && j.item in items && keep(j.item)
    decreases |items|
  {
    if items != [] {
      var pre, x := items[..|items| - 1], items[|items| - 1];
      PickedMembers(name, pre, keep, j);
      assert items == pre + [x];
      if j.item in items && j.item != x {
        assert j.item in pre;
      }
    }
  }

  lemma {:induction false} JobsMembers<I>(feeds: nat -> Result<Feed<I>, Error>, n: nat, keep: I -> bool, j: Job<I>)
    ensures j in Jobs(feeds, n, keep) <==> exists k :: 0 <= k < n && InFeed(feeds(k), j, keep)
    decreases n
  {
    if n > 0 {
      var before, last := Jobs(feeds, n - 1, keep), FeedJobs(feeds(n - 1), keep);
      assert Jobs(feeds, n, keep) == before + last;
      JobsMembers(feeds, n - 1, keep, j);
      FeedJobsMembers(feeds(n - 1), keep, j);
      if j in before + last {
        if j in last {
          assert InFeed(feeds(n - 1), j, keep);
        } else {
          assert j in before;
        }
      }
      if exists k :: 0 <= k < n && InFeed(feeds(k), j, keep) {
        var k :| 0 <= k < n && InFeed(feeds(k), j, keep);
        if k < n - 1 {
          assert j in before;
        } else {
          assert j in last;
        }
      }
    }
  }

  lemma FeedJobsMembers<I>(r: Result<Feed<I>, Error>, keep: I -> bool, j: Job<I>)
    ensures j in FeedJobs(r, keep) <==> InFeed(r, j, keep)
  {
    if r.Ok? {
      PickedMembers(r.value.name, r.value.items, keep, j);
    }
  }

  /** With every item kept, the jobs of a source are its items, in order. */
  lemma {:induction false} PickedAll<I>(name: Bytes, items: seq<I>, keep: I -> bool)
    requires forall m :: 0 <= m < |items| ==> keep(items[m])
    ensures |Picked(name, items, keep)| == |items|
    ensures forall m :: 0 <= m < |items| ==> Picked(name, items, keep)[m] == Job(name, items[m])
    decreases |items|
  {
    if items != [] {
      var pre := items[..|items| - 1];
      PickedAll(name, pre, keep);
    }
  }

  /** The jobs of the first `n` sources are those of the first `n - 1`, then
      those of source `n - 1`: a source's jobs never mix with another's. */
  lemma {:induction false} JobsGrow<I>(feeds: nat -> Result<Feed<I>, Error>, m: nat, n: nat, keep: I -> bool)
    requires m <= n
    ensures HasPrefix(Jobs(feeds, n, keep), Jobs(feeds, m, keep))
    decreases n - m
  {
    if m < n {
      JobsGrow(feeds, m, n - 1, keep);
    }
  }
}
