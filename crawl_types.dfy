/** configs/crawl4ai/types.py: the enums of the crawl layer, the rule record with its
    defaults, and the tag-keyed dispatch that turns a rule into crawl4ai strategy
    settings. The crawl4ai objects themselves are described by plain datatypes that
    keep the arguments the rule passes to them. */
module CrawlTypes {
  import opened Text

  datatype TaskStatus = Processing | Failed | Completed

  /** The string value a `TaskStatus` member stands for. */
  function TaskStatusValue(s: TaskStatus): (r: string)
    ensures r != "" && Lower(r) == r
  {
    LowerOfLowercase(["processing", "failed", "completed"]);
    match s
    case Processing => "processing"
    case Failed => "failed"
    case Completed => "completed"
  }

  datatype FilterType = Raw | Fit | Bm25 | Llm

  datatype CrawlMode = Classic | Adaptive

  datatype CrawlResultType = Html | Markdown | Pdf

  /** A parse result: the member, or the `ValueError` the classmethod raises. */
  datatype Parsed<T> = Ok(value: T) | ValueError(message: string)

  predicate IsLowercaseAscii(s: string)
  {
    forall i :: 0 <= i < |s| ==> 'a' <= s[i] <= 'z'
  }

  lemma LowerOfLowercase(words: seq<string>)
    requires forall k :: 0 <= k < |words| ==> IsLowercaseAscii(words[k])
    ensures forall k :: 0 <= k < |words| ==> Lower(words[k]) == words[k]
  {
    forall k | 0 <= k < |words| ensures Lower(words[k]) == words[k] {
      assert forall i :: 0 <= i < |words[k]| ==> LowerChar(words[k][i]) == words[k][i];
    }
  }

  /** `CrawlMode.value_of` */
  function CrawlModeValueOf(m: CrawlMode): (r: string)
    ensures Lower(r) == r
  {
    LowerOfLowercase(["classic", "adaptive"]);
    match m
    case Classic => "classic"
    case Adaptive => "adaptive"
  }

  /** `CrawlMode.to_original`: matches the lower-cased text against the member values. */
  function CrawlModeToOriginal(value: string): (r: Parsed<CrawlMode>)
    ensures r.Ok? <==> exists m :: CrawlModeValueOf(m) == Lower(value)
    ensures r.Ok? ==> CrawlModeValueOf(r.value) == Lower(value)
    ensures r.ValueError? ==> r.message == "Unknown crawl mode: " + value
  {
    var v := Lower(value);
    if v == "classic" then assert CrawlModeValueOf(Classic) == v; Ok(Classic)
    else if v == "adaptive" then assert CrawlModeValueOf(Adaptive) == v; Ok(Adaptive)
    else
      assert forall m :: CrawlModeValueOf(m) != v;
      ValueError("Unknown crawl mode: " + value)
  }

  /** Printing a member and parsing the text gives the member back. */
  lemma CrawlModeRoundTrip(m: CrawlMode)
    ensures CrawlModeToOriginal(CrawlModeValueOf(m)) == Ok(m)
  {
    var s := CrawlModeValueOf(m);
    assert Lower(s) == s;
  }

  /** Parsing ignores case. */
  lemma CrawlModeCaseInsensitive(value: string)
    ensures CrawlModeToOriginal(value).Ok? == CrawlModeToOriginal(Lower(value)).Ok?
    ensures CrawlModeToOriginal(value).Ok? ==> CrawlModeToOriginal(value) == CrawlModeToOriginal(Lower(value))
  {
    LowerIdempotent(value);
  }

  /** `CrawlResultType.value_of` */
  function CrawlResultTypeValueOf(t: CrawlResultType): (r: string)
    ensures Lower(r) == r
  {
    LowerOfLowercase(["html", "markdown", "pdf"]);
    match t
    case Html => "html"
    case Markdown => "markdown"
    case Pdf => "pdf"
  }

  /** `CrawlResultType.to_original` */
  function CrawlResultTypeToOriginal(value: string): (r: Parsed<CrawlResultType>)
    ensures r.Ok? <==> exists t :: CrawlResultTypeValueOf(t) == Lower(value)
    ensures r.Ok? ==> CrawlResultTypeValueOf(r.value) == Lower(value)
    ensures r.ValueError? ==> r.message == "Unknown crawl type: " + value
  {
    var v := Lower(value);
    if v == "html" then assert CrawlResultTypeValueOf(Html) == v; Ok(Html)
    else if v == "markdown" then assert CrawlResultTypeValueOf(Markdown) == v; Ok(Markdown)
    else if v == "pdf" then assert CrawlResultTypeValueOf(Pdf) == v; Ok(Pdf)
    else
      assert forall t :: CrawlResultTypeValueOf(t) != v;
      ValueError("Unknown crawl type: " + value)
  }

  lemma CrawlResultTypeRoundTrip(t: CrawlResultType)
    ensures CrawlResultTypeToOriginal(CrawlResultTypeValueOf(t)) == Ok(t)
  {
    var s := CrawlResultTypeValueOf(t);
    assert Lower(s) == s;
  }

  lemma CrawlResultTypeCaseInsensitive(value: string)
    ensures CrawlResultTypeToOriginal(value).Ok? == CrawlResultTypeToOriginal(Lower(value)).Ok?
    ensures CrawlResultTypeToOriginal(value).Ok? ==> CrawlResultTypeToOriginal(value) == CrawlResultTypeToOriginal(Lower(value))
  {
    LowerIdempotent(value);
  }

  /** A crawl rule. The float `deep_crawl_threshold` is kept in thousandths. */
  datatype CrawlRule = CrawlRule(
    name: string,
    url: string,
    searchEngineUrl: Option<string>,
    crawlMode: CrawlMode,
    adaptiveCrawlMethod: string,
    crawlResultType: CrawlResultType,
    cssSelector: Option<string>,
    filterType: FilterType,
    deepCrawl: bool,
    deepCrawlMethod: Option<string>,
    deepCrawlMaxDepth: int,
    deepCrawlMaxPages: int,
    deepCrawlThresholdMilli: int,
    extractionStrategy: Option<string>)

  /** A rule given only its name and url: every other field takes its declared default. */
  function DefaultRule(name: string, url: string): (r: CrawlRule)
    ensures r.name == name && r.url == url
    ensures r.searchEngineUrl.None? && r.crawlMode == Classic && r.adaptiveCrawlMethod == "statistical"
    ensures r.crawlResultType == Markdown && r.cssSelector.None? && r.filterType == Fit
    ensures !r.deepCrawl && r.deepCrawlMethod.None? && r.deepCrawlMaxDepth == 1 && r.deepCrawlMaxPages == 2
    ensures r.deepCrawlThresholdMilli == 700 && r.extractionStrategy.None?
  {
    CrawlRule(name, url, None, Classic, "statistical", Markdown, None, Fit, false, None, 1, 2, 700, None)
  }

  datatype DeepCrawlStrategy<Q> =
    | BfsSeoFilter(maxDepth: int, maxPages: int, thresholdMilli: int, keywords: Q)
    | BestFirstKeywordScorer(maxDepth: int, maxPages: int, weightMilli: int, keywords: Q)
    | BfsContentRelevanceFilter(maxDepth: int, maxPages: int, thresholdMilli: int, query: Q)

  /** `build_deep_crawl_strategy(query)`: a strategy for the tags "seo", "keyword" and
      "relevance", carrying the rule's depth, page and threshold settings; None for any
      other tag and for no tag. */
  function BuildDeepCrawlStrategy<Q>(rule: CrawlRule, query: Q): (r: Option<DeepCrawlStrategy<Q>>)
    ensures r.Some? <==> rule.deepCrawlMethod in {Some("seo"), Some("keyword"), Some("relevance")}
    ensures r.Some? ==> r.value.maxDepth == rule.deepCrawlMaxDepth && r.value.maxPages == rule.deepCrawlMaxPages
    ensures r.Some? && r.value.BestFirstKeywordScorer? ==> r.value.weightMilli == rule.deepCrawlThresholdMilli && r.value.keywords == query
    ensures r.Some? && r.value.BfsSeoFilter? ==> r.value.thresholdMilli == rule.deepCrawlThresholdMilli && r.value.keywords == query
    ensures r.Some? && r.value.BfsContentRelevanceFilter? ==> r.value.thresholdMilli == rule.deepCrawlThresholdMilli && r.value.query == query
    ensures r.Some? ==> (r.value.BfsSeoFilter? <==> rule.deepCrawlMethod == Some("seo"))
    ensures r.Some? ==> (r.value.BestFirstKeywordScorer? <==> rule.deepCrawlMethod == Some("keyword"))
  {
    match rule.deepCrawlMethod
    case Some(m) =>
      if m == "seo" then
        Some(BfsSeoFilter(rule.deepCrawlMaxDepth, rule.deepCrawlMaxPages, rule.deepCrawlThresholdMilli, query))
      else if m == "keyword" then
        Some(BestFirstKeywordScorer(rule.deepCrawlMaxDepth, rule.deepCrawlMaxPages, rule.deepCrawlThresholdMilli, query))
      else if m == "relevance" then
        Some(BfsContentRelevanceFilter(rule.deepCrawlMaxDepth, rule.deepCrawlMaxPages, rule.deepCrawlThresholdMilli, query))
      else None
    case None => None
  }

  datatype ContentFilter<Q> =
    | PruningFilter(userQuery: Q)
    | Bm25Filter(userQuery: Q, useStemming: bool)
    | LlmFilter(provider: string, chunkTokenThreshold: int)

  /** `DefaultMarkdownGenerator(content_filter=...)` */
  datatype MarkdownGenerator<Q> = MarkdownGenerator(contentFilter: Option<ContentFilter<Q>>)

  /** `build_markdown_generator(query)`. The model of the LLM filter keeps the provider
      (`"hosted_vllm/"` and the configured model name) and the chunk size. */
  function BuildMarkdownGenerator<Q>(rule: CrawlRule, query: Q, llmModel: string): (r: MarkdownGenerator<Q>)
    ensures r.contentFilter.None? <==> rule.filterType == Raw
    ensures rule.filterType == Fit ==> r.contentFilter == Some(PruningFilter(query))
    ensures rule.filterType == Bm25 ==> r.contentFilter == Some(Bm25Filter(query, false))
    ensures rule.filterType == Llm ==> r.contentFilter.Some? && r.contentFilter.value.LlmFilter?
                                        && StartsWith(r.contentFilter.value.provider, "hosted_vllm/")
  {
    match rule.filterType
    case Raw => MarkdownGenerator(None)
    case Fit => MarkdownGenerator(Some(PruningFilter(query)))
    case Bm25 => MarkdownGenerator(Some(Bm25Filter(query, false)))
    case Llm =>
      var p := "hosted_vllm/" + llmModel;
      assert p[..|"hosted_vllm/"|] == "hosted_vllm/";
      MarkdownGenerator(Some(LlmFilter(p, 4096)))
  }

  /** `AdaptiveConfig(...)`; the confidence threshold is kept in thousandths. */
  datatype AdaptiveConfig = AdaptiveConfig(
    strategy: string, confidenceMilli: int, topKLinks: int, maxDepth: int, maxPages: int,
    usesEmbeddingModel: bool)

  datatype AdaptiveCrawler<H> = AdaptiveCrawler(crawler: H, config: AdaptiveConfig)

  /** `build_adaptive_crawler(crawler)`: "statistical" and "embedding" give a crawler on the
      given handle with the fixed search limits; any other method gives None. */
  function BuildAdaptiveCrawler<H>(rule: CrawlRule, crawler: H): (r: Option<AdaptiveCrawler<H>>)
    ensures r.Some? <==> rule.adaptiveCrawlMethod == "statistical" || rule.adaptiveCrawlMethod == "embedding"
    ensures r.Some? ==> r.value.crawler == crawler
                        && r.value.config.strategy == rule.adaptiveCrawlMethod
                        && r.value.config.confidenceMilli == 800
                        && r.value.config.topKLinks == 5
                        && r.value.config.maxDepth == 5
                        && r.value.config.maxPages == 10
                        && (r.value.config.usesEmbeddingModel <==> rule.adaptiveCrawlMethod == "embedding")
  {
    var m := rule.adaptiveCrawlMethod;
    if m == "statistical" || m == "embedding" then
      Some(AdaptiveCrawler(crawler, AdaptiveConfig(m, 800, 5, 5, 10, m == "embedding")))
    else None
  }

  /** The module-level `web_content_llm_extraction_strategy`. */
  datatype ExtractionStrategy = LlmExtraction(
    provider: string, extractionType: string, chunkTokenThreshold: int, inputFormat: string)

  function WebContentLlmExtraction(llmModel: string): ExtractionStrategy
  {
    LlmExtraction("hosted_vllm/" + llmModel, "schema", 4096, "markdown")
  }

  /** `get_extraction_strategy()`: every tag ("web_content", "web_search", anything else
      or none) selects the one shared strategy. */
  function GetExtractionStrategy(rule: CrawlRule, llmModel: string): (r: ExtractionStrategy)
    ensures r == WebContentLlmExtraction(llmModel)
  {
    match rule.extractionStrategy
    case Some(t) =>
      if t == "web_content" then WebContentLlmExtraction(llmModel)
      else if t == "web_search" then WebContentLlmExtraction(llmModel)
      else WebContentLlmExtraction(llmModel)
    case None => WebContentLlmExtraction(llmModel)
  }

  /** What the defaults of a rule mean for the crawl: no deep crawl strategy, a markdown
      generator with the pruning filter, a statistical adaptive crawler, markdown output. */
  lemma DefaultRuleBehaviour<Q, H>(name: string, url: string, query: Q, crawler: H, llmModel: string)
    ensures var rule := DefaultRule(name, url);
            && BuildDeepCrawlStrategy(rule, query).None?
            && BuildMarkdownGenerator(rule, query, llmModel).contentFilter == Some(PruningFilter(query))
            && BuildAdaptiveCrawler(rule, crawler).Some?
            && BuildAdaptiveCrawler(rule, crawler).value.config.strategy == "statistical"
            && rule.crawlMode == Classic && rule.crawlResultType == Markdown
            && !rule.deepCrawl && rule.cssSelector.None? && rule.searchEngineUrl.None?
            && rule.deepCrawlMaxDepth == 1 && rule.deepCrawlMaxPages == 2
  {
  }

  datatype CrawlRuleGroup = CrawlRuleGroup(name: string, rules: seq<CrawlRule>)

  /** The position of the first group named `name`, if any. */
  function FindGroup(groups: seq<CrawlRuleGroup>, name: string): (r: Option<nat>)
    ensures r.Some? ==> r.value < |groups| && groups[r.value].name == name
    ensures r.Some? ==> forall j :: 0 <= j < r.value ==> groups[j].name != name
    ensures r.None? <==> forall j :: 0 <= j < |groups| ==> groups[j].name != name
  {
    if |groups| == 0 then None
    else if groups[0].name == name then Some(0)
    else
      match FindGroup(groups[1..], name)
      case Some(i) => Some(i + 1)
      case None => None
  }

  /** `CrawlRuleGroup.get_rules_by_name(groups, name)`: the rules of the first group with
      that name, or no rules. */
  function GetRulesByName(groups: seq<CrawlRuleGroup>, name: string): (r: seq<CrawlRule>)
    ensures (exists i :: 0 <= i < |groups| && groups[i].name == name
                         && (forall j :: 0 <= j < i ==> groups[j].name != name)
                         && r == groups[i].rules)
            || ((forall j :: 0 <= j < |groups| ==> groups[j].name != name) && r == [])
  {
    match FindGroup(groups, name)
    case Some(i) => groups[i].rules
    case None => []
  }
}
