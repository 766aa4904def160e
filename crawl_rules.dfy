/** configs/crawl4ai/crawl_rule.py: the built-in rule table and its three lookups
    (by group and rule name, by group name, by the domain key of a URL). */
module CrawlRules {
  import opened Text
  import opened Net
  import opened CrawlTypes

  /** A blog rule: defaults plus the "web_content" extraction tag. */
  function BlogRule(name: string, url: string): CrawlRule
  {
    DefaultRule(name, url).(extractionStrategy := Some("web_content"))
  }

  /** A search-engine rule: html output, the "relevance" deep-crawl tag with depth 1 and
      2 pages, deep crawl off, and the "web_search" extraction tag. */
  function SearchEngineRule(name: string, url: string, searchUrl: string): CrawlRule
  {
    DefaultRule(name, url).(searchEngineUrl := Some(searchUrl), crawlResultType := Html,
                            deepCrawlMethod := Some("relevance"), deepCrawlMaxDepth := 1,
                            deepCrawlMaxPages := 2, extractionStrategy := Some("web_search"))
  }

  /** `CrawlRules().crawl_rules`, validated into groups. */
  const DefaultTable: seq<CrawlRuleGroup> := [
    CrawlRuleGroup("default", [DefaultRule("default", "default")]),
    CrawlRuleGroup("it_blog", [BlogRule("cnblogs", "www.cnblogs.com"), BlogRule("csdn", "blog.csdn.net")]),
    CrawlRuleGroup("git_repo", [DefaultRule("github", "github.com"), DefaultRule("gitlab", "gitlab.com")]),
    CrawlRuleGroup("common_search_engine", [
      SearchEngineRule("baidu", "www.baidu.com", "https://www.baidu.com/s?wd={query}"),
      SearchEngineRule("google", "www.google.com", "https://www.google.com/search?q={query}"),
      SearchEngineRule("bing", "www.bing.com", "https://www.bing.com/search?q={query}"),
      SearchEngineRule("brave", "search.brave.com", "https://search.brave.com/search?q={query}"),
      SearchEngineRule("yandex", "yandex.com", "https://yandex.com/search/?text={query}")])
  ]

  /** The rules of all groups, in table order. */
  function AllRules(groups: seq<CrawlRuleGroup>): (r: seq<CrawlRule>)
    ensures forall x :: x in r <==> exists i :: 0 <= i < |groups| && x in groups[i].rules
  {
    if |groups| == 0 then [] else groups[0].rules + AllRules(groups[1..])
  }

  /** The first rule named `name`, if any. */
  function FirstNamed(rules: seq<CrawlRule>, name: string): (r: Option<nat>)
    ensures r.Some? ==> r.value < |rules| && rules[r.value].name == name
    ensures r.Some? ==> forall j :: 0 <= j < r.value ==> rules[j].name != name
    ensures r.None? <==> forall j :: 0 <= j < |rules| ==> rules[j].name != name
  {
    if |rules| == 0 then None
    else if rules[0].name == name then Some(0)
    else
      match FirstNamed(rules[1..], name)
      case Some(i) => Some(i + 1)
      case None => None
  }

  /** The first rule whose url is `key`, if any. */
  function FirstWithUrl(rules: seq<CrawlRule>, key: string): (r: Option<nat>)
    ensures r.Some? ==> r.value < |rules| && rules[r.value].url == key
    ensures r.Some? ==> forall j :: 0 <= j < r.value ==> rules[j].url != key
    ensures r.None? <==> forall j :: 0 <= j < |rules| ==> rules[j].url != key
  {
    if |rules| == 0 then None
    else if rules[0].url == key then Some(0)
    else
      match FirstWithUrl(rules[1..], key)
      case Some(i) => Some(i + 1)
      case None => None
  }

  /** The rule named `ruleName` within the groups named `groupName`. The scan does not stop
      at the first group with that name: a later group of the same name is searched too. */
  function GetRuleByName(groups: seq<CrawlRuleGroup>, groupName: string, ruleName: string): (r: Option<CrawlRule>)
    ensures r.Some? ==> r.value.name == ruleName
                        && exists i :: 0 <= i < |groups| && groups[i].name == groupName && r.value in groups[i].rules
    ensures r.None? <==> forall i, k :: 0 <= i < |groups| && groups[i].name == groupName && 0 <= k < |groups[i].rules|
                                        ==> groups[i].rules[k].name != ruleName
  {
    if |groups| == 0 then None
    else
      var found := if groups[0].name == groupName then FirstNamed(groups[0].rules, ruleName) else None;
      match found
      case Some(k) => Some(groups[0].rules[k])
      case None =>
        var rest := GetRuleByName(groups[1..], groupName, ruleName);
        assert forall i :: 1 <= i < |groups| ==> groups[i] == groups[1..][i - 1];
        if rest.Some? then
          var i :| 0 <= i < |groups[1..]| && groups[1..][i].name == groupName && rest.value in groups[1..][i].rules;
          assert groups[i + 1] == groups[1..][i];
          rest
        else
          rest
  }

  /** When the first group named `groupName` holds a rule named `ruleName`, the lookup
      returns the first such rule of that group. */
  lemma {:induction false} GetRuleByNameFirstGroup(groups: seq<CrawlRuleGroup>, groupName: string, ruleName: string, i: nat)
    requires i < |groups| && groups[i].name == groupName
    requires forall j :: 0 <= j < i ==> groups[j].name != groupName
    requires FirstNamed(groups[i].rules, ruleName).Some?
    ensures GetRuleByName(groups, groupName, ruleName) == Some(groups[i].rules[FirstNamed(groups[i].rules, ruleName).value])
    decreases i
  {
    if i > 0 {
      GetRuleByNameFirstGroup(groups[1..], groupName, ruleName, i - 1);
    }
  }

  /** `CrawlRules.get_rules_by_group`: the first group with that name, or None. */
  function GetRulesByGroup(groups: seq<CrawlRuleGroup>, groupName: string): (r: Option<CrawlRuleGroup>)
    ensures r.Some? ==> r.value.name == groupName
    ensures r.Some? ==> exists i :: 0 <= i < |groups| && groups[i] == r.value
                                    && forall j :: 0 <= j < i ==> groups[j].name != groupName
    ensures r.None? <==> forall j :: 0 <= j < |groups| ==> groups[j].name != groupName
  {
    match FindGroup(groups, groupName)
    case Some(i) => Some(groups[i])
    case None => None
  }

  /** `CrawlRules.get_rule_by_url`: the first rule in table order whose url is the domain
      key of `url`; None when there is none (no "default" fallback here). */
  function GetRuleByUrl(groups: seq<CrawlRuleGroup>, url: string): (r: Option<CrawlRule>)
    ensures r.Some? ==> r.value.url == GetDomainUrl(url)
    ensures r.Some? ==> exists k :: 0 <= k < |AllRules(groups)| && AllRules(groups)[k] == r.value
                                    && forall j :: 0 <= j < k ==> AllRules(groups)[j].url != GetDomainUrl(url)
    ensures r.None? <==> forall x :: x in AllRules(groups) ==> x.url != GetDomainUrl(url)
  {
    var all := AllRules(groups);
    match FirstWithUrl(all, GetDomainUrl(url))
    case Some(k) => Some(all[k])
    case None => None
  }

  /** Rule urls are pairwise distinct across the whole table. */
  predicate UrlsDistinct(groups: seq<CrawlRuleGroup>)
  {
    var all := AllRules(groups);
    forall i, j :: 0 <= i < j < |all| ==> all[i].url != all[j].url
  }

  lemma DefaultTableRules()
    ensures AllRules(DefaultTable) == DefaultTable[0].rules + DefaultTable[1].rules + DefaultTable[2].rules + DefaultTable[3].rules
  {
    var t := DefaultTable;
    assert AllRules(t[3..]) == t[3].rules + AllRules(t[4..]);
    assert AllRules(t[2..]) == t[2].rules + AllRules(t[2..][1..]);
    assert t[2..][1..] == t[3..];
    assert AllRules(t[1..]) == t[1].rules + AllRules(t[1..][1..]);
    assert t[1..][1..] == t[2..];
  }

  /** The built-in table has pairwise distinct rule urls. */
  lemma DefaultTableUrlsDistinct()
    ensures UrlsDistinct(DefaultTable)
  {
    DefaultTableRules();
    var urls := ["default", "www.cnblogs.com", "blog.csdn.net", "github.com", "gitlab.com",
                 "www.baidu.com", "www.google.com", "www.bing.com", "search.brave.com", "yandex.com"];
    var all := AllRules(DefaultTable);
    assert |all| == 10;
    assert forall k :: 0 <= k < 10 ==> all[k].url == urls[k];
    DistinctByFirstChars(urls);
  }

  /** Ten literal keys, distinct by their length and first characters. */
  lemma DistinctByFirstChars(urls: seq<string>)
    requires urls == ["default", "www.cnblogs.com", "blog.csdn.net", "github.com", "gitlab.com",
                      "www.baidu.com", "www.google.com", "www.bing.com", "search.brave.com", "yandex.com"]
    ensures forall i, j :: 0 <= i < j < |urls| ==> urls[i] != urls[j]
  {
    forall i, j | 0 <= i < j < |urls| ensures urls[i] != urls[j] {
      assert |urls[i]| != |urls[j]| || urls[i][4] != urls[j][4] || urls[i][0] != urls[j][0];
    }
  }

  /** The table's first group is "default" with a rule whose url is "default", so a
      fallback lookup of "default" finds a rule. */
  lemma DefaultTableHasDefault()
    ensures DefaultTable[0].name == "default" && DefaultTable[0].rules[0].url == "default"
    ensures GetRuleByUrl(DefaultTable, "default").Some?
    ensures GetRuleByUrl(DefaultTable, "default").value.name == "default"
  {
    GetDomainUrlOfDefault();
    DefaultTableRules();
    assert AllRules(DefaultTable)[0] == DefaultRule("default", "default");
  }

  /** A `blog.csdn.net` URL selects the rule named "csdn". */
  lemma CsdnUrlResolves(path: string)
    requires path == [] || path[0] == '/'
    ensures GetRuleByUrl(DefaultTable, "https" + "://" + "blog.csdn.net" + path) == Some(BlogRule("csdn", "blog.csdn.net"))
  {
    CsdnDomain(path);
    CsdnKey();
  }

  lemma CsdnDomain(path: string)
    requires path == [] || path[0] == '/'
    ensures GetDomainUrl("https" + "://" + "blog.csdn.net" + path) == "blog.csdn.net"
  {
    var host := "blog.csdn.net";
    assert !ContainsChar("https", ':');
    assert !ContainsChar(host, '/');
    GetDomainUrlOfParts("https", host, path);
  }

  lemma CsdnKey()
    ensures FirstWithUrl(AllRules(DefaultTable), "blog.csdn.net") == Some(2)
    ensures AllRules(DefaultTable)[2] == BlogRule("csdn", "blog.csdn.net")
  {
    DefaultTableRules();
    var all := AllRules(DefaultTable);
    assert all[2] == BlogRule("csdn", "blog.csdn.net");
    assert all[0].url != "blog.csdn.net" && all[1].url != "blog.csdn.net";
  }

  /** "github" is in group "git_repo", so asking for it in "git_repo_search" finds nothing. */
  lemma GitRepoSearchHasNoGithub()
    ensures GetRuleByName(DefaultTable, "git_repo_search", "github").None?
  {
    var t := DefaultTable;
    var wanted := "git_repo_search";
    assert |wanted| == 15 && wanted[0] == 'g';
    assert |t| == 4;
    assert t[0].name[0] == 'd' && t[1].name[0] == 'i' && |t[2].name| == 8 && t[3].name[0] == 'c';
    forall i | 0 <= i < |t| ensures t[i].name != wanted {
      if i == 0 {} else if i == 1 {} else if i == 2 {} else {}
    }
  }
}
