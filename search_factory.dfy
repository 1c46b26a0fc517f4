/** NewSearcher: which search client the configuration selects. An empty
    provider falls back to Tavily when either Tavily key is set; the Tavily
    client prefers the key of the `search` section over the deprecated
    top-level one. */
module SearchFactory {
  import opened Base

  /** The configuration fields NewSearcher reads. */
  datatype SearchConfig = SearchConfig(
    legacyTavilyKey: Bytes,   // tavily_api_key (deprecated)
    provider: Bytes,          // search.provider
    tavilyKey: Bytes,         // search.tavily.api_key
    searxngURL: Bytes,        // search.searxng.base_url
    searxngTimeout: int)      // search.searxng.timeout

  /** The searcher built: a client and what it is built from. */
  datatype Searcher = TavilyClient(apiKey: Bytes) | SearxngClient(baseURL: Bytes, timeout: int)

  const Tavily: Bytes := [116, 97, 118, 105, 108, 121]        // "tavily"
  const Searxng: Bytes := [115, 101, 97, 114, 120, 110, 103]  // "searxng"

  /** The provider after the fallback for an empty one; None when the provider
      is empty and no Tavily key is set. */
  function ResolvedProvider(cfg: SearchConfig): Option<Bytes>
  {
    if cfg.provider != [] then Some(cfg.provider)
    else if cfg.legacyTavilyKey != [] || cfg.tavilyKey != [] then Some(Tavily)
    else None
  }

  function NewSearcher(cfg: SearchConfig): (r: Result<Searcher, Error>)
  {
    match ResolvedProvider(cfg)
    case None => Err(Plain(Ascii("search provider not configured")))
    case Some(provider) =>
      if provider == Tavily then
        var apiKey := if cfg.tavilyKey != [] then cfg.tavilyKey else cfg.legacyTavilyKey;
        if apiKey == [] then Err(Plain(Ascii("tavily api key is missing"))) else Ok(TavilyClient(apiKey))
      else if provider == Searxng then
        if cfg.searxngURL == [] then Err(Plain(Ascii("searxng base url is missing")))
        else Ok(SearxngClient(cfg.searxngURL, cfg.searxngTimeout))
      else Err(Plain(Ascii("unknown search provider: ") + provider))
  }

  // ---- properties ----------------------------------------------------------------

  /** An empty provider means Tavily when either key is set, and is an error
      otherwise. */
  lemma EmptyProvider(cfg: SearchConfig)
    requires cfg.provider == []
    ensures cfg.legacyTavilyKey != [] || cfg.tavilyKey != [] ==>
      NewSearcher(cfg) == Ok(TavilyClient(if cfg.tavilyKey != [] then cfg.tavilyKey else cfg.legacyTavilyKey))
    ensures cfg.legacyTavilyKey == [] && cfg.tavilyKey == [] ==>
      NewSearcher(cfg) == Err(Plain(Ascii("search provider not configured")))
  {
  }

  /** Tavily takes the `search` section's key, else the deprecated key, and
      needs one of them. */
  lemma TavilyKey(cfg: SearchConfig)
    requires ResolvedProvider(cfg) == Some(Tavily)
    ensures cfg.tavilyKey != [] ==> NewSearcher(cfg) == Ok(TavilyClient(cfg.tavilyKey))
    ensures cfg.tavilyKey == [] && cfg.legacyTavilyKey != [] ==> NewSearcher(cfg) == Ok(TavilyClient(cfg.legacyTavilyKey))
    ensures cfg.tavilyKey == [] && cfg.legacyTavilyKey == [] ==> NewSearcher(cfg) == Err(Plain(Ascii("tavily api key is missing")))
  {
  }

  /** SearXNG needs a base URL and gets the configured URL and timeout. */
  lemma SearxngURL(cfg: SearchConfig)
    requires cfg.provider == Searxng
    ensures cfg.searxngURL == [] <==> NewSearcher(cfg).Err?
    ensures cfg.searxngURL == [] ==> NewSearcher(cfg) == Err(Plain(Ascii("searxng base url is missing")))
    ensures cfg.searxngURL != [] ==> NewSearcher(cfg) == Ok(SearxngClient(cfg.searxngURL, cfg.searxngTimeout))
  {
  }

  /** Any other non-empty provider is unknown, and the error names it. */
  lemma UnknownProvider(cfg: SearchConfig)
    requires cfg.provider != [] && cfg.provider != Tavily && cfg.provider != Searxng
    ensures NewSearcher(cfg) == Err(Plain(Ascii("unknown search provider: ") + cfg.provider))
  {
  }

  /** A searcher is built exactly when the resolved provider is Tavily with a
      key or SearXNG with a base URL; a Tavily client never gets an empty key. */
  lemma SearcherBuilt(cfg: SearchConfig)
    ensures NewSearcher(cfg).Ok? <==>
      (ResolvedProvider(cfg) == Some(Tavily) && (cfg.tavilyKey != [] || cfg.legacyTavilyKey != [])) ||
      (ResolvedProvider(cfg) == Some(Searxng) && cfg.searxngURL != [])
    ensures NewSearcher(cfg).Ok? && NewSearcher(cfg).value.TavilyClient? ==> NewSearcher(cfg).value.apiKey != []
  {
  }
}
