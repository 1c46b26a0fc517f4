/** How a domain's search results become the articles its report is built from
    (the same loop in the engine's Run and in the domain radar command): the
    snippet is replaced by the fetched page when it is short and the page is
    longer, the text is cut to 5000 bytes, texts of 100 bytes or less are
    dropped, and the loop stops once 6 articles are kept. */
module Selection {
  import opened Base
  import opened Text
  import opened Model

  /** What fetching the page of the `k`-th search result gives: its text, or
      None when the fetch fails. */
  type Fetches = nat -> Option<Bytes>

  /** The content rule shared by every variant that starts from a search
      snippet: the fetched text replaces `supplied` exactly when `supplied` is
      shorter than `below` bytes, the fetch succeeds and its text is strictly
      longer. */
  function ChooseContent(supplied: Bytes, fetched: Option<Bytes>, below: nat): (c: Bytes)
    ensures c == supplied || (|supplied| < below && fetched == Some(c) && |c| > |supplied|)
    ensures |supplied| < below && fetched.Some? && |fetched.value| > |supplied| ==> c == fetched.value
    ensures |c| >= |supplied|
  {
    if |supplied| < below && fetched.Some? && |fetched.value| > |supplied| then fetched.value else supplied
  }

  /** The article made of search result `item` when its content is long enough. */
  function Candidate(domain: Bytes, item: SearchResult, fetched: Option<Bytes>): (a: Option<Article>)
    ensures a.Some? ==> 100 < |a.value.content| <= 5000 && a.value.source == domain
    ensures a.Some? ==> a.value.title == item.title && a.value.link == item.url && a.value.pubDate == item.publishedDate
  {
    var content := Truncate(ChooseContent(item.content, fetched, 500), 5000);
    if |content| > 100 then Some(Article(item.title, item.url, domain, item.publishedDate, content)) else None
  }

  /** Every article of `items`, in order, as if there were no limit. */
  function Candidates(domain: Bytes, items: seq<SearchResult>, fetch: Fetches): (cs: seq<Article>)
    ensures |cs| <= |items|
  {
    if items == [] then []
    else
      var k := |items| - 1;
      Candidates(domain, items[..k], fetch) + Kept(Candidate(domain, items[k], fetch(k)))
  }

  function Take<T>(s: seq<T>, n: nat): (r: seq<T>)
    ensures |r| <= n && r <= s
    ensures |s| <= n ==> r == s
  {
    if |s| <= n then s else s[..n]
  }

  /** The articles the selection loop keeps: the first 6 candidates. */
  function Selected(domain: Bytes, items: seq<SearchResult>, fetch: Fetches): seq<Article>
  {
    Take(Candidates(domain, items, fetch), 6)
  }

  /** The selection loop of Run. */
  method SelectArticles(domain: Bytes, items: seq<SearchResult>, fetch: Fetches) returns (valid: seq<Article>)
    ensures valid == Selected(domain, items, fetch)
  {
    valid := [];
    var k := 0;
    while k < |items|
      invariant k <= |items|
      invariant valid == Candidates(domain, items[..k], fetch) && |valid| < 6
    {
      valid := SelectStep(domain, items, fetch, k, valid);
      if |valid| >= 6 {
        StopAtSix(domain, items, fetch, k + 1, valid);
        return;
      }
      k := k + 1;
    }
    StopAtSix(domain, items, fetch, k, valid);
  }

  /** The loop's result when it stops after `k` results, either with 6 articles
      or at the end of the results. */
  lemma StopAtSix(domain: Bytes, items: seq<SearchResult>, fetch: Fetches, k: nat, valid: seq<Article>)
    requires k <= |items| && valid == Candidates(domain, items[..k], fetch)
    requires |valid| == 6 || (k == |items| && |valid| < 6)
    ensures valid == Selected(domain, items, fetch)
  {
    CandidatesGrow(domain, items, fetch, k);
    assert items[..|items|] == items;
  }

  /** One turn of the selection loop: the content of result `k` is chosen,
      truncated and kept when long enough. */
  method SelectStep(domain: Bytes, items: seq<SearchResult>, fetch: Fetches, k: nat, valid: seq<Article>)
    returns (valid': seq<Article>)
    requires k < |items| && valid == Candidates(domain, items[..k], fetch)
    ensures valid' == Candidates(domain, items[..k + 1], fetch)
    ensures |valid'| <= |valid| + 1
  {
    var item := items[k];
    var content := item.content;
    if |content| < 500 {
      var fetched := fetch(k);
      if fetched.Some? && |fetched.value| > |content| {
        content := fetched.value;
      }
    }
    if |content| > 5000 {
      content := content[..5000];
    }
    valid' := valid;
    if |content| > 100 {
      valid' := valid' + [Article(item.title, item.url, domain, item.publishedDate, content)];
    }
    assert items[..k + 1][..k] == items[..k];
  }

  /** Candidates of a prefix of the results are a prefix of all candidates, so
      stopping early keeps exactly the first ones. */
  lemma {:induction false} CandidatesGrow(domain: Bytes, items: seq<SearchResult>, fetch: Fetches, k: nat)
    requires k <= |items|
    ensures Candidates(domain, items[..k], fetch) <= Candidates(domain, items, fetch)
    ensures |Candidates(domain, items[..k], fetch)| >= 6 ==>
      Selected(domain, items, fetch) == Take(Candidates(domain, items[..k], fetch), 6)
    decreases |items| - k
  {
    if k < |items| {
      CandidatesGrow(domain, items, fetch, k + 1);
      assert items[..k + 1][..k] == items[..k];
    } else {
      assert items[..k] == items;
    }
  }

  /** Every kept article is longer than 100 and at most 5000 bytes, comes from
      the domain's search, and there are at most 6 of them. */
  lemma SelectedBounds(domain: Bytes, items: seq<SearchResult>, fetch: Fetches)
    ensures |Selected(domain, items, fetch)| <= 6
    ensures forall a :: a in Selected(domain, items, fetch) ==> 100 < |a.content| <= 5000 && a.source == domain
  {
    CandidatesBounds(domain, items, fetch);
  }

  lemma {:induction false} CandidatesBounds(domain: Bytes, items: seq<SearchResult>, fetch: Fetches)
    ensures forall a :: a in Candidates(domain, items, fetch) ==> 100 < |a.content| <= 5000 && a.source == domain
  {
    if items != [] {
      CandidatesBounds(domain, items[..|items| - 1], fetch);
    }
  }

  /** The kept articles keep the search order: article `t` is the candidate of
      result `idx[t]`, and the indices increase. */
  lemma {:induction false} CandidatesInOrder(domain: Bytes, items: seq<SearchResult>, fetch: Fetches)
    returns (idx: seq<nat>)
    ensures |idx| == |Candidates(domain, items, fetch)|
    ensures forall t :: 0 <= t < |idx| ==>
      idx[t] < |items| && Candidate(domain, items[idx[t]], fetch(idx[t])) == Some(Candidates(domain, items, fetch)[t])
    ensures forall s, t :: 0 <= s < t < |idx| ==> idx[s] < idx[t]
  {
    if items == [] {
      idx := [];
    } else {
      var k := |items| - 1;
      var front := items[..k];
      var pre := CandidatesInOrder(domain, front, fetch);
      var cs, last := Candidates(domain, front, fetch), Candidate(domain, items[k], fetch(k));
      assert Candidates(domain, items, fetch) == cs + Kept(last);
      idx := pre + if last.Some? then [k] else [];
      forall t | 0 <= t < |idx|
        ensures idx[t] < |items| && Candidate(domain, items[idx[t]], fetch(idx[t])) == Some((cs + Kept(last))[t])
      {
        if t < |pre| {
          assert items[pre[t]] == front[pre[t]];
        }
      }
    }
  }
}
