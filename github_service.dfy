/** service/github_service.py: `GitHubService.search_repositories`, which picks what
    to search for, builds one search-page URL per page from the rule's
    `search_engine_url` and collects the crawl text of every result.

    The rule table is a parameter (the groups `CrawlRules.get_rule_by_name` searches);
    the crawl itself (`Crawl4AIService.handle_crawl_request` followed by
    `CrawlJobResponse.model_validate`) is a parameter that maps the URL list to the
    response's results or to the exception it raised. */
module GithubService {
  import opened Text
  import opened Values
  import CT = CrawlTypes
  import CrawlRules

  // ---------------------------------------------------------------------------
  // `str.format` with keyword arguments
  // ---------------------------------------------------------------------------

  /** A result with a text put in front of it. */
  function Prefixed(p: string, o: Outcome<string>): (r: Outcome<string>)
    ensures r.Ok? <==> o.Ok?
    ensures r.Ok? ==> r.value == p + o.value
    ensures r.Err? ==> r.error == o.error
  {
    match o
    case Ok(s) => Ok(p + s)
    case Err(e) => Err(e)
  }

  lemma PrefixedTwice(a: string, b: string, o: Outcome<string>)
    ensures Prefixed(a, Prefixed(b, o)) == Prefixed(a + b, o)
  {
    if o.Ok? {
      assert a + (b + o.value) == (a + b) + o.value;
    }
  }

  /** `template.format(**fields)`: `{{` and `}}` stand for single braces, `{name}` is
      replaced by the keyword argument `name`; an unknown name raises `KeyError`, an
      empty one (automatic numbering) `IndexError`, and an unpaired brace
      `ValueError`. */
  function Format(template: string, fields: map<string, string>): Outcome<string>
    decreases |template|
  {
    if template == [] then Ok("")
    else if template[0] == '{' then
      if |template| > 1 && template[1] == '{' then Prefixed("{", Format(template[2..], fields))
      else if |template| == 1 then Err(PyError("ValueError", "Single '{' encountered in format string"))
      else
        match IndexOf(template[1..], "}")
        case None => Err(PyError("ValueError", "expected '}' before end of string"))
        case Some(i) =>
          var name := template[1..1 + i];
          if name == "" then Err(PyError("IndexError", "Replacement index 0 out of range for positional args tuple"))
          else if name !in fields then Err(KeyError(name))
          else Prefixed(fields[name], Format(template[i + 2..], fields))
    else if template[0] == '}' then
      if |template| > 1 && template[1] == '}' then Prefixed("}", Format(template[2..], fields))
      else Err(PyError("ValueError", "Single '}' encountered in format string"))
    else Prefixed(template[..1], Format(template[1..], fields))
  }

  /** A text with no braces. */
  predicate BraceFree(s: string)
  {
    !ContainsChar(s, '{') && !ContainsChar(s, '}')
  }

  /** Literal text is copied unchanged in front of what follows it. */
  lemma {:induction false} FormatLiteral(p: string, rest: string, fields: map<string, string>)
    requires BraceFree(p)
    ensures Format(p + rest, fields) == Prefixed(p, Format(rest, fields))
    decreases |p|
  {
    if p != [] {
      var t := p + rest;
      assert t[0] == p[0] && t[0] != '{' && t[0] != '}';
      assert t[..1] == p[..1] && t[1..] == p[1..] + rest;
      assert BraceFree(p[1..]);
      FormatLiteral(p[1..], rest, fields);
      PrefixedTwice(p[..1], p[1..], Format(rest, fields));
      assert p[..1] + p[1..] == p;
    } else {
      assert p + rest == rest;
      if Format(rest, fields).Ok? {
        assert p + Format(rest, fields).value == Format(rest, fields).value;
      }
    }
  }

  /** A template with no braces formats to itself. */
  lemma FormatPlain(template: string, fields: map<string, string>)
    requires BraceFree(template)
    ensures Format(template, fields) == Ok(template)
  {
    FormatLiteral(template, "", fields);
    assert template + "" == template;
  }

  /** In `{name}rest` with a brace-free name, the first `}` closes the name. */
  lemma FieldSplit(name: string, rest: string)
    requires name != "" && BraceFree(name)
    ensures var t := "{" + name + "}" + rest;
            |t| > 1 && t[1] == name[0] &&
            IndexOf(t[1..], "}") == Some(|name|) &&
            t[1..1 + |name|] == name && t[|name| + 2..] == rest
  {
    var t := "{" + name + "}" + rest;
    var u := name + "}" + rest;
    assert t[1..] == u;
    assert u[|name|..|name| + 1] == "}";
    forall i | 0 <= i < |name| ensures u[i] != "}"[0] {
      assert u[i] == name[i];
    }
    IndexOfFirst(u, "}", |name|);
    assert t[1..1 + |name|] == name;
    assert t[|name| + 2..] == rest;
  }

  /** `{name}` is replaced by the value given for `name`. */
  lemma FormatField(name: string, rest: string, fields: map<string, string>)
    requires name != "" && BraceFree(name) && name in fields
    ensures Format("{" + name + "}" + rest, fields) == Prefixed(fields[name], Format(rest, fields))
  {
    var t := "{" + name + "}" + rest;
    FieldSplit(name, rest);
    assert t[0] == '{' && |t| > 1 && t[1] != '{';
  }

  /** `{name}` with no value for `name` raises `KeyError(name)`. */
  lemma FormatUnknownField(name: string, rest: string, fields: map<string, string>)
    requires name != "" && BraceFree(name) && name !in fields
    ensures Format("{" + name + "}" + rest, fields) == Err(KeyError(name))
  {
    var t := "{" + name + "}" + rest;
    FieldSplit(name, rest);
    assert t[0] == '{' && |t| > 1 && t[1] != '{';
  }

  // ---------------------------------------------------------------------------
  // search_repositories
  // ---------------------------------------------------------------------------

  /** What is searched for: the first non-empty one of repository name, code snippet
      and issue snippet decides the search type; with all three empty the type is
      "repositories" and the query the (empty) repository name. */
  function Selection(repoName: string, codeSnippet: string, issueSnippet: string): (r: (string, string))
    ensures repoName != "" ==> r == ("repositories", repoName)
    ensures repoName == "" && codeSnippet != "" ==> r == ("code", codeSnippet)
    ensures repoName == "" && codeSnippet == "" && issueSnippet != "" ==> r == ("issues", issueSnippet)
    ensures repoName == "" && codeSnippet == "" && issueSnippet == "" ==> r == ("repositories", "")
  {
    if repoName != "" then ("repositories", repoName)
    else if codeSnippet != "" then ("code", codeSnippet)
    else if issueSnippet != "" then ("issues", issueSnippet)
    else ("repositories", repoName)
  }

  /** `rule.search_engine_url.format(query=query, type=type, page=page)`; a missing rule
      or a rule without a search URL fails on the attribute access. */
  function SearchUrl(rule: Option<CT.CrawlRule>, query: string, searchType: string, page: int): (r: Outcome<string>)
    ensures rule.None? ==> r == Err(NoAttribute("NoneType", "search_engine_url"))
    ensures rule.Some? && rule.value.searchEngineUrl.None? ==> r == Err(NoAttribute("NoneType", "format"))
  {
    match rule
    case None => Err(NoAttribute("NoneType", "search_engine_url"))
    case Some(rl) =>
      match rl.searchEngineUrl
      case None => Err(NoAttribute("NoneType", "format"))
      case Some(template) => Format(template, map["query" := query, "type" := searchType, "page" := IntToDecimal(page)])
  }

  /** A list result with a list put in front of it. */
  function PrefixedList(p: seq<string>, o: Outcome<seq<string>>): Outcome<seq<string>>
  {
    match o
    case Ok(s) => Ok(p + s)
    case Err(e) => Err(e)
  }

  lemma PrefixedListTwice(a: seq<string>, b: seq<string>, o: Outcome<seq<string>>)
    ensures PrefixedList(a, PrefixedList(b, o)) == PrefixedList(a + b, o)
  {
    if o.Ok? {
      assert a + (b + o.value) == (a + b) + o.value;
    }
  }

  /** The URLs for pages `first` to `pages`, in that order, or the first error. */
  function UrlsFrom(rule: Option<CT.CrawlRule>, query: string, searchType: string, first: int, pages: int): (r: Outcome<seq<string>>)
    ensures r.Ok? ==> |r.value| == (if first > pages then 0 else pages - first + 1)
    ensures r.Ok? ==> forall k :: 0 <= k < |r.value| ==> SearchUrl(rule, query, searchType, first + k) == Ok(r.value[k])
    ensures r.Err? ==> exists k :: first <= k <= pages && SearchUrl(rule, query, searchType, k) == Err(r.error)
    decreases pages - first + 1
  {
    if first > pages then Ok([])
    else
      match SearchUrl(rule, query, searchType, first)
      case Err(e) => Err(e)
      case Ok(u) => PrefixedList([u], UrlsFrom(rule, query, searchType, first + 1, pages))
  }

  /** The loop `for page in range(1, pages + 1)` that builds `urls`. */
  method PageUrls(rule: Option<CT.CrawlRule>, query: string, searchType: string, pages: int)
    returns (r: Outcome<seq<string>>)
    ensures r == UrlsFrom(rule, query, searchType, 1, pages)
  {
    var urls: seq<string> := [];
    var page := 1;
    if UrlsFrom(rule, query, searchType, 1, pages).Ok? {
      assert urls + UrlsFrom(rule, query, searchType, 1, pages).value == UrlsFrom(rule, query, searchType, 1, pages).value;
    }
    while page < pages + 1
      invariant 1 <= page && (page == 1 || page <= pages + 1)
      invariant PrefixedList(urls, UrlsFrom(rule, query, searchType, page, pages)) == UrlsFrom(rule, query, searchType, 1, pages)
      decreases pages + 1 - page
    {
      var url := SearchUrl(rule, query, searchType, page);
      if url.Err? {
        return Err(url.error);
      }
      assert UrlsFrom(rule, query, searchType, page, pages)
             == PrefixedList([url.value], UrlsFrom(rule, query, searchType, page + 1, pages));
      PrefixedListTwice(urls, [url.value], UrlsFrom(rule, query, searchType, page + 1, pages));
      urls := urls + [url.value];
      page := page + 1;
    }
    assert UrlsFrom(rule, query, searchType, page, pages) == Ok([]);
    assert urls + [] == urls;
    r := Ok(urls);
  }

  /** The loop that collects `item.crawl_text` for every result. */
  method ContentList<R>(results: seq<R>, crawlText: R -> string) returns (content: seq<string>)
    ensures |content| == |results|
    ensures forall i :: 0 <= i < |results| ==> content[i] == crawlText(results[i])
  {
    content := [];
    for i := 0 to |results|
      invariant |content| == i
      invariant forall j :: 0 <= j < i ==> content[j] == crawlText(results[j])
    {
      content := content + [crawlText(results[i])];
    }
  }

  /** The crawl texts of a response's results, in result order. */
  function Texts<R>(results: seq<R>, crawlText: R -> string): seq<string>
  {
    seq(|results|, i requires 0 <= i < |results| => crawlText(results[i]))
  }

  /** What `search_repositories` returns or raises. */
  function Search<R>(groups: seq<CT.CrawlRuleGroup>, repoName: string, codeSnippet: string, issueSnippet: string, pages: int,
                     crawl: seq<string> -> Outcome<seq<R>>, crawlText: R -> string): Outcome<seq<string>>
  {
    var rule := CrawlRules.GetRuleByName(groups, "git_repo_search", "github");
    var (searchType, query) := Selection(repoName, codeSnippet, issueSnippet);
    match UrlsFrom(rule, query, searchType, 1, pages)
    case Err(e) => Err(e)
    case Ok(urls) =>
      match crawl(urls)
      case Err(e) => Err(e)
      case Ok(results) => Ok(Texts(results, crawlText))
  }

  /** `GitHubService.search_repositories`. */
  method SearchRepositories<R>(groups: seq<CT.CrawlRuleGroup>, repoName: string, codeSnippet: string, issueSnippet: string,
                               pages: int, crawl: seq<string> -> Outcome<seq<R>>, crawlText: R -> string)
    returns (r: Outcome<seq<string>>)
    ensures r == Search(groups, repoName, codeSnippet, issueSnippet, pages, crawl, crawlText)
  {
    var rule := CrawlRules.GetRuleByName(groups, "git_repo_search", "github");
    var searchType := "repositories";
    var query := repoName;
    if repoName != "" {
      searchType := "repositories";
      query := repoName;
    } else if codeSnippet != "" {
      searchType := "code";
      query := codeSnippet;
    } else if issueSnippet != "" {
      searchType := "issues";
      query := issueSnippet;
    }
    var urls := PageUrls(rule, query, searchType, pages);
    if urls.Err? {
      return Err(urls.error);
    }
    var content := crawl(urls.value);
    if content.Err? {
      return Err(content.error);
    }
    var texts := ContentList(content.value, crawlText);
    assert texts == Texts(content.value, crawlText);
    assert (searchType, query) == Selection(repoName, codeSnippet, issueSnippet);
    r := Ok(texts);
  }

  /** Exactly `pages` URLs are built, page 1 first, each the template with the query,
      the type and the page number filled in; none when `pages <= 0`, whatever the
      rule. */
  lemma PageUrlsNumbered(rule: Option<CT.CrawlRule>, query: string, searchType: string, pages: int)
    ensures pages <= 0 ==> UrlsFrom(rule, query, searchType, 1, pages) == Ok([])
    ensures UrlsFrom(rule, query, searchType, 1, pages).Ok? ==>
      var urls := UrlsFrom(rule, query, searchType, 1, pages).value;
      && |urls| == (if pages <= 0 then 0 else pages)
      && forall k :: 0 <= k < |urls| ==>
           Format(rule.value.searchEngineUrl.value,
                  map["query" := query, "type" := searchType, "page" := IntToDecimal(k + 1)]) == Ok(urls[k])
  {
    var r := UrlsFrom(rule, query, searchType, 1, pages);
    if r.Ok? && pages >= 1 {
      assert SearchUrl(rule, query, searchType, 1) == Ok(r.value[0]);
    }
  }

  /** With the shipped rule table the lookup of "github" in "git_repo_search" finds
      nothing, so a search over at least one page raises `AttributeError` before any
      crawl, and a search over no page crawls an empty URL list. */
  lemma ShippedTableSearch<R>(repoName: string, codeSnippet: string, issueSnippet: string, pages: int,
                              crawl: seq<string> -> Outcome<seq<R>>, crawlText: R -> string)
    ensures pages >= 1 ==> Search(CrawlRules.DefaultTable, repoName, codeSnippet, issueSnippet, pages, crawl, crawlText)
                           == Err(NoAttribute("NoneType", "search_engine_url"))
    ensures pages <= 0 && crawl([]).Ok? ==>
      Search(CrawlRules.DefaultTable, repoName, codeSnippet, issueSnippet, pages, crawl, crawlText)
      == Ok(Texts(crawl([]).value, crawlText))
  {
    CrawlRules.GitRepoSearchHasNoGithub();
  }

  /** A template with a single field and brace-free text around it. */
  lemma FormatOneField(prefix: string, name: string, suffix: string, fields: map<string, string>)
    requires BraceFree(prefix) && BraceFree(suffix) && name != "" && BraceFree(name) && name in fields
    ensures Format(prefix + "{" + name + "}" + suffix, fields) == Ok(prefix + fields[name] + suffix)
  {
    var field := "{" + name + "}" + suffix;
    assert prefix + "{" + name + "}" + suffix == prefix + field;
    FormatLiteral(prefix, field, fields);
    FormatField(name, suffix, fields);
    FormatPlain(suffix, fields);
    PrefixedTwice(prefix, fields[name], Ok(suffix));
  }

  /** A template `prefix{query}suffix` with brace-free ends gives `prefix + query +
      suffix` for every page. */
  lemma QueryTemplateUrl(rule: CT.CrawlRule, prefix: string, suffix: string, query: string, searchType: string, page: int)
    requires rule.searchEngineUrl == Some(prefix + "{query}" + suffix)
    requires BraceFree(prefix) && BraceFree(suffix)
    ensures SearchUrl(Some(rule), query, searchType, page) == Ok(prefix + query + suffix)
  {
    var fields := map["query" := query, "type" := searchType, "page" := IntToDecimal(page)];
    assert prefix + "{query}" + suffix == prefix + "{" + "query" + "}" + suffix;
    assert !ContainsChar("query", '{') && !ContainsChar("query", '}');
    FormatOneField(prefix, "query", suffix, fields);
  }
}
