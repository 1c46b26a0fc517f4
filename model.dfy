/** The records the domain-radar pipeline passes around. */
module Model {
  import opened Base

  /** One search hit as the searcher returns it. Its relevance score is a float
      that nothing downstream reads, so it is left out. */
  datatype SearchResult = SearchResult(title: Bytes, url: Bytes, content: Bytes, publishedDate: Bytes)

  /** An article a report cites; `content` is only fed to the model and stored. */
  datatype Article = Article(title: Bytes, link: Bytes, source: Bytes, pubDate: Bytes, content: Bytes)

  /** A domain report: the decoded model reply plus the domain and the articles
      its prompt was built from. */
  datatype DomainReport = DomainReport(
    domainName: Bytes,
    overview: Bytes,
    keyEvents: seq<Bytes>,
    trends: Bytes,
    score: int,
    articles: seq<Article>)

  /** The cross-domain deep analysis. */
  datatype DeepAnalysis = DeepAnalysis(
    title: Bytes,
    macroTrends: Bytes,
    opportunities: Bytes,
    risks: Bytes,
    actionGuides: seq<Bytes>)

  function ScoreOf(r: DomainReport): int { r.score }
}
