/** component/crawl4ai/crawler_pool.py: the pool of started browser crawlers keyed by a
    configuration signature, its idle-eviction pass, the live rule table with its URL
    resolver, and the registry of HTML parsers.

    Each pool operation runs under one lock in the source; here each is one atomic
    method. The clock, the sampled memory percentage and the outcome of constructing
    and starting a crawler are parameters. */
module CrawlerPool {
  import opened Text
  import opened Net
  import opened CrawlTypes
  import CrawlRules

  /** `config.MEMORY_THRESHOLD_PRECENT` */
  const MemoryThresholdPercent: real := 80.0
  /** `config.IDLE_TTL_SEC` */
  const IdleTtlSec: real := 1800.0

  const DeniedMessage: string := "RAM pressure \U{2013} new browser denied"

  /** What constructing and starting a new crawler did: it started, or it raised a
      `MemoryError` (with its message), or it raised any other exception. */
  datatype StartOutcome<H> = Started(crawler: H) | StartMemoryError(message: string) | StartFailed

  /** What `get_crawler` gives its caller: a crawler, None, or a raised `MemoryError`. */
  datatype Acquired<H> = Crawler(crawler: H) | NoCrawler | RaisedMemoryError(message: string)

  /** The keys a janitor pass at time `now` finds idle for longer than the TTL. */
  function IdleKeys(lastUsed: map<string, real>, now: real): (r: set<string>)
    ensures forall k :: k in r <==> k in lastUsed && now - lastUsed[k] > IdleTtlSec
  {
    set k | k in lastUsed && now - lastUsed[k] > IdleTtlSec
  }

  /** The idle keys among those visited so far. */
  function IdleAmong(lastUsed: map<string, real>, now: real, visited: seq<string>): set<string>
  {
    set k | k in visited && k in lastUsed && now - lastUsed[k] > IdleTtlSec
  }

  /** Visiting one more key adds it to the idle keys seen exactly when it is idle; it
      was not among the keys visited before. */
  lemma IdleAmongStep(lastUsed: map<string, real>, now: real, keys: seq<string>, i: nat)
    requires i < |keys|
    requires forall a, b :: 0 <= a < b < |keys| ==> keys[a] != keys[b]
    ensures keys[i] !in IdleAmong(lastUsed, now, keys[..i])
    ensures IdleAmong(lastUsed, now, keys[..i + 1]) ==
      IdleAmong(lastUsed, now, keys[..i]) + (if keys[i] in lastUsed && now - lastUsed[keys[i]] > IdleTtlSec then {keys[i]} else {})
  {
    assert keys[..i + 1] == keys[..i] + [keys[i]];
    assert keys[i] !in keys[..i];
  }

  /** Removing one more key from a map that has had the keys `gone` removed. */
  lemma RemoveOneMore<V>(m: map<string, V>, base: map<string, V>, gone: set<string>, k: string)
    requires m == base - gone
    ensures m - {k} == base - (gone + {k})
  {
  }

  /** The result of a rule lookup that falls back to the "default" rule. Where the
      source would recurse without end, the model gives `RecursionError`. */
  datatype Resolution = Found(rule: CrawlRule) | RecursionError

  /** The value `res` holds after the scan: the first matching rule of the LAST group that
      has a rule with url `key` (the `break` leaves only the inner loop). */
  function LastGroupMatch(groups: seq<CrawlRuleGroup>, key: string): (r: Option<CrawlRule>)
    ensures r.Some? ==> r.value.url == key && r.value in CrawlRules.AllRules(groups)
    ensures r.None? <==> forall x :: x in CrawlRules.AllRules(groups) ==> x.url != key
  {
    if |groups| == 0 then None
    else
      var last := groups[|groups| - 1];
      var front := groups[..|groups| - 1];
      assert groups == front + [last];
      AllRulesAppend(front, last);
      match CrawlRules.FirstWithUrl(last.rules, key)
      case Some(k) => Some(last.rules[k])
      case None => LastGroupMatch(front, key)
  }

  /** The scan's `res` is the match of the last group that has one: that group's
      first rule with url `key`, and no later group has a rule with that url. */
  lemma {:induction false} LastGroupMatchIsLastGroup(groups: seq<CrawlRuleGroup>, key: string)
    ensures var r := LastGroupMatch(groups, key);
            r.Some? ==> exists g :: 0 <= g < |groups| && MatchIn(groups[g], key) == r &&
                                    forall h :: g < h < |groups| ==> MatchIn(groups[h], key).None?
  {
    if |groups| > 0 {
      var last := groups[|groups| - 1];
      var front := groups[..|groups| - 1];
      assert LastGroupMatch(groups, key) == if MatchIn(last, key).Some? then MatchIn(last, key) else LastGroupMatch(front, key);
      if MatchIn(last, key).None? {
        LastGroupMatchIsLastGroup(front, key);
        var r := LastGroupMatch(front, key);
        if r.Some? {
          var g :| 0 <= g < |front| && MatchIn(front[g], key) == r &&
                   forall h :: g < h < |front| ==> MatchIn(front[h], key).None?;
          NoMatchAfter(groups, front, key, g);
        }
      }
    }
  }

  /** A later group without a match keeps a group the last with one. */
  lemma NoMatchAfter(groups: seq<CrawlRuleGroup>, front: seq<CrawlRuleGroup>, key: string, g: nat)
    requires |groups| > 0 && front == groups[..|groups| - 1]
    requires g < |front| && MatchIn(groups[|groups| - 1], key).None?
    requires forall h :: g < h < |front| ==> MatchIn(front[h], key).None?
    ensures front[g] == groups[g]
    ensures forall h :: g < h < |groups| ==> MatchIn(groups[h], key).None?
  {
    forall h | g < h < |groups| ensures MatchIn(groups[h], key).None? {
      if h < |front| {
        assert front[h] == groups[h];
      }
    }
  }

  /** The first rule of one group whose url is `key` (the inner loop with its `break`). */
  function MatchIn(group: CrawlRuleGroup, key: string): Option<CrawlRule>
  {
    match CrawlRules.FirstWithUrl(group.rules, key)
    case Some(k) => Some(group.rules[k])
    case None => None
  }

  lemma {:induction false} AllRulesAppend(front: seq<CrawlRuleGroup>, last: CrawlRuleGroup)
    ensures CrawlRules.AllRules(front + [last]) == CrawlRules.AllRules(front) + last.rules
  {
    if |front| == 0 {
      assert (front + [last])[1..] == [];
    } else {
      assert (front + [last])[1..] == front[1..] + [last];
      AllRulesAppend(front[1..], last);
    }
  }

  /** `get_rule_by_url(url)`: the last-group match for the domain key of `url`, else the
      lookup of "default"; with no "default" rule either, the recursion never ends. */
  function ResolveRule(groups: seq<CrawlRuleGroup>, url: string): (r: Resolution)
    ensures r.Found? ==> r.rule in CrawlRules.AllRules(groups)
    ensures r.Found? ==> r.rule.url == GetDomainUrl(url)
                         || (r.rule.url == "default" && forall x :: x in CrawlRules.AllRules(groups) ==> x.url != GetDomainUrl(url))
    ensures r.RecursionError? <==> forall x :: x in CrawlRules.AllRules(groups) ==> x.url != GetDomainUrl(url) && x.url != "default"
  {
    GetDomainUrlOfDefault();
    match LastGroupMatch(groups, GetDomainUrl(url))
    case Some(rule) => Found(rule)
    case None =>
      match LastGroupMatch(groups, GetDomainUrl("default"))
      case Some(rule) => Found(rule)
      case None => RecursionError
  }

  /** When rule urls are pairwise distinct, the last-group scan and the first-match lookup
      of the static table agree. */
  lemma LastAndFirstMatchAgree(groups: seq<CrawlRuleGroup>, url: string)
    requires CrawlRules.UrlsDistinct(groups)
    ensures LastGroupMatch(groups, GetDomainUrl(url)) == CrawlRules.GetRuleByUrl(groups, url)
  {
    var key := GetDomainUrl(url);
    var last := LastGroupMatch(groups, key);
    var first := CrawlRules.GetRuleByUrl(groups, url);
    var all := CrawlRules.AllRules(groups);
    if last.Some? {
      var k :| 0 <= k < |all| && all[k] == first.value;
      var m :| 0 <= m < |all| && all[m] == last.value;
      assert all[k].url == all[m].url;
    }
  }

  /** With two groups holding a rule for the same key, the later group's rule wins. */
  lemma LaterGroupWins(a: CrawlRule, b: CrawlRule, url: string)
    requires a.url == GetDomainUrl(url) && b.url == GetDomainUrl(url)
    ensures ResolveRule([CrawlRuleGroup("g1", [a]), CrawlRuleGroup("g2", [b])], url) == Found(b)
    ensures CrawlRules.GetRuleByUrl([CrawlRuleGroup("g1", [a]), CrawlRuleGroup("g2", [b])], url) == Some(a)
  {
    var groups := [CrawlRuleGroup("g1", [a]), CrawlRuleGroup("g2", [b])];
    assert CrawlRules.AllRules(groups[1..]) == [b] + CrawlRules.AllRules(groups[2..]);
    assert CrawlRules.AllRules(groups) == [a, b];
    assert groups[..1] == [CrawlRuleGroup("g1", [a])];
  }

  /** On the built-in table the resolver always finds a rule: the url's own rule when the
      table has one, the "default" rule otherwise. */
  lemma DefaultTableResolves(url: string)
    ensures ResolveRule(CrawlRules.DefaultTable, url).Found?
    ensures CrawlRules.GetRuleByUrl(CrawlRules.DefaultTable, url).Some? ==>
              ResolveRule(CrawlRules.DefaultTable, url) == Found(CrawlRules.GetRuleByUrl(CrawlRules.DefaultTable, url).value)
  {
    CrawlRules.DefaultTableHasDefault();
    CrawlRules.DefaultTableUrlsDistinct();
    ResolvesWithDefault(CrawlRules.DefaultTable, url);
  }

  /** On a table with distinct rule urls and a "default" rule the resolver always finds
      a rule, and the url's own rule when the table has one. */
  lemma ResolvesWithDefault(groups: seq<CrawlRuleGroup>, url: string)
    requires CrawlRules.UrlsDistinct(groups)
    requires CrawlRules.GetRuleByUrl(groups, "default").Some?
    ensures ResolveRule(groups, url).Found?
    ensures CrawlRules.GetRuleByUrl(groups, url).Some? ==>
              ResolveRule(groups, url) == Found(CrawlRules.GetRuleByUrl(groups, url).value)
  {
    LastAndFirstMatchAgree(groups, url);
    GetDomainUrlOfDefault();
    var d := CrawlRules.GetRuleByUrl(groups, "default").value;
    assert d in CrawlRules.AllRules(groups) && d.url == "default";
  }

  /** `change_crawl_rule`: the groups that validate, in input order. */
  function ValidGroups<D>(input: seq<D>, validate: D -> Option<CrawlRuleGroup>): (r: seq<CrawlRuleGroup>)
    ensures |r| <= |input|
    ensures forall g :: g in r <==> exists i :: 0 <= i < |input| && validate(input[i]) == Some(g)
  {
    if |input| == 0 then []
    else
      var front := ValidGroups(input[..|input| - 1], validate);
      assert forall i :: 0 <= i < |input| - 1 ==> input[..|input| - 1][i] == input[i];
      match validate(input[|input| - 1])
      case Some(g) => front + [g]
      case None => front
  }

  /** Validating two lists one after the other gives the groups of the first list
      followed by those of the second. */
  lemma {:induction false} ValidGroupsAppend<D>(a: seq<D>, b: seq<D>, validate: D -> Option<CrawlRuleGroup>)
    ensures ValidGroups(a + b, validate) == ValidGroups(a, validate) + ValidGroups(b, validate)
  {
    if |b| == 0 {
      assert a + b == a;
    } else {
      var b' := b[..|b| - 1];
      assert (a + b)[..|a + b| - 1] == a + b';
      assert (a + b)[|a + b| - 1] == b[|b| - 1];
      ValidGroupsAppend(a, b', validate);
    }
  }

  /** One entry validates to its own group or to nothing. */
  lemma ValidGroupsSingle<D>(d: D, validate: D -> Option<CrawlRuleGroup>)
    ensures ValidGroups([d], validate) == if validate(d).Some? then [validate(d).value] else []
  {
    assert [d][..0] == [];
  }

  /** The pool with the two maps `POOL` and `LAST_USED` and the rule list `CRAWL_RULES`.
      `sigOf` stands for `_sig`: the SHA-1 of the canonical JSON dump of a configuration,
      a deterministic function of it. */
  class Pool<C, H> {
    const sigOf: C -> string
    var pool: map<string, H>
    var lastUsed: map<string, real>
    var crawlRules: seq<CrawlRuleGroup>

    /** Every pooled crawler has a last-use time and every time belongs to a crawler. */
    predicate Valid()
      reads this
    {
      pool.Keys == lastUsed.Keys
    }

    constructor (sigOf: C -> string)
      ensures Valid() && this.sigOf == sigOf
      ensures pool == map[] && lastUsed == map[] && crawlRules == []
    {
      this.sigOf := sigOf;
      pool := map[];
      lastUsed := map[];
      crawlRules := [];
    }

    /** `get_crawler(cfg)`, including its `except` and `finally` blocks. */
    method GetCrawler(cfg: C, now: real, memoryPercent: real, start: StartOutcome<H>) returns (r: Acquired<H>)
      requires Valid()
      modifies this
      ensures Valid() && crawlRules == old(crawlRules)
      // cache hit: the stored crawler, nothing constructed, its time refreshed
      ensures sigOf(cfg) in old(pool) ==>
                r == Crawler(old(pool)[sigOf(cfg)]) && pool == old(pool) && lastUsed == old(lastUsed)[sigOf(cfg) := now]
      // admission denied under memory pressure: MemoryError, both maps unchanged
      ensures sigOf(cfg) !in old(pool) && memoryPercent >= MemoryThresholdPercent ==>
                r == RaisedMemoryError(DeniedMessage + ": " + DeniedMessage) && pool == old(pool) && lastUsed == old(lastUsed)
      // successful miss: exactly one new entry
      ensures sigOf(cfg) !in old(pool) && memoryPercent < MemoryThresholdPercent && start.Started? ==>
                r == Crawler(start.crawler) && pool == old(pool)[sigOf(cfg) := start.crawler]
                && lastUsed == old(lastUsed)[sigOf(cfg) := now]
      // a MemoryError while starting is raised again, wrapped
      ensures sigOf(cfg) !in old(pool) && memoryPercent < MemoryThresholdPercent && start.StartMemoryError? ==>
                r == RaisedMemoryError(DeniedMessage + ": " + start.message) && pool == old(pool) && lastUsed == old(lastUsed)
      // any other failure is swallowed: None, and the key is in neither map
      ensures sigOf(cfg) !in old(pool) && memoryPercent < MemoryThresholdPercent && start.StartFailed? ==>
                r == NoCrawler && pool == old(pool) && lastUsed == old(lastUsed) && sigOf(cfg) !in lastUsed
    {
      var sig := sigOf(cfg);
      if sig in pool {
        lastUsed := lastUsed[sig := now];
        r := Crawler(pool[sig]);
      } else if memoryPercent >= MemoryThresholdPercent {
        r := RaisedMemoryError(DeniedMessage + ": " + DeniedMessage);
      } else {
        match start
        case Started(c) =>
          pool := pool[sig := c];
          lastUsed := lastUsed[sig := now];
          r := Crawler(c);
        case StartMemoryError(m) =>
          r := RaisedMemoryError(DeniedMessage + ": " + m);
        case StartFailed =>
          r := NoCrawler;
      }
      // finally
      if sig in pool {
        lastUsed := lastUsed[sig := now];
      } else {
        pool := pool - {sig};
        lastUsed := lastUsed - {sig};
      }
    }

    /** One pass of `janitor()` at time `now`. `keys` is the order of `list(POOL.items())`;
        `closeFails` are the crawlers whose `close()` raises, which the pass suppresses.
        Returns the keys it evicted, in visiting order, and those whose close failed. */
    method JanitorPass(now: real, keys: seq<string>, closeFails: set<string>) returns (evicted: seq<string>, failedCloses: seq<string>)
      requires Valid()
      requires forall k :: k in keys <==> k in pool
      requires forall i, j :: 0 <= i < j < |keys| ==> keys[i] != keys[j]
      modifies this
      ensures Valid() && crawlRules == old(crawlRules)
      ensures pool == old(pool) - IdleKeys(old(lastUsed), now)
      ensures lastUsed == old(lastUsed) - IdleKeys(old(lastUsed), now)
      ensures forall k :: k in evicted <==> k in IdleKeys(old(lastUsed), now)
      ensures forall k :: k in failedCloses <==> k in IdleKeys(old(lastUsed), now) && k in closeFails
    {
      ghost var used := lastUsed;
      evicted := [];
      failedCloses := [];
      var i := 0;
      while i < |keys|
        invariant 0 <= i <= |keys|
        invariant crawlRules == old(crawlRules)
        invariant pool == old(pool) - IdleAmong(used, now, keys[..i])
        invariant lastUsed == used - IdleAmong(used, now, keys[..i])
        invariant forall k :: k in evicted <==> k in IdleAmong(used, now, keys[..i])
        invariant forall k :: k in failedCloses <==> k in IdleAmong(used, now, keys[..i]) && k in closeFails
      {
        var sig := keys[i];
        IdleAmongStep(used, now, keys, i);
        ghost var seen := IdleAmong(used, now, keys[..i]);
        assert sig in lastUsed && lastUsed[sig] == used[sig];
        if now - lastUsed[sig] > IdleTtlSec {
          if sig in closeFails {
            failedCloses := failedCloses + [sig];
          }
          evicted := evicted + [sig];
          RemoveOneMore(pool, old(pool), seen, sig);
          RemoveOneMore(lastUsed, used, seen, sig);
          pool := pool - {sig};
          lastUsed := lastUsed - {sig};
        }
        i := i + 1;
      }
      assert keys[..|keys|] == keys;
      assert IdleAmong(used, now, keys) == IdleKeys(used, now);
    }

    /** `close_all()`: every crawler is closed (errors collected, not raised) and both
        maps are emptied. */
    method CloseAll()
      modifies this
      ensures Valid() && pool == map[] && lastUsed == map[] && crawlRules == old(crawlRules)
    {
      pool := map[];
      lastUsed := map[];
    }

    /** The scan of `get_rule_by_url` over `CRAWL_RULES` for one key. */
    method ScanGroups(key: string) returns (res: Option<CrawlRule>)
      ensures res == LastGroupMatch(crawlRules, key)
    {
      res := None;
      var i := 0;
      while i < |crawlRules|
        invariant 0 <= i <= |crawlRules|
        invariant res == LastGroupMatch(crawlRules[..i], key)
      {
        assert crawlRules[..i + 1][..i] == crawlRules[..i];
        var rules := crawlRules[i].rules;
        var j := 0;
        while j < |rules|
          invariant 0 <= j <= |rules|
          invariant forall k :: 0 <= k < j ==> rules[k].url != key
          invariant res == LastGroupMatch(crawlRules[..i], key)
        {
          if rules[j].url == key {
            res := Some(rules[j]);
            assert CrawlRules.FirstWithUrl(rules, key) == Some(j);
            assert res == LastGroupMatch(crawlRules[..i + 1], key);
            break;
          }
          j := j + 1;
        }
        i := i + 1;
      }
      assert crawlRules[..i] == crawlRules;
    }

    /** `get_rule_by_url(url)`: a scan for the url's domain key, then the recursive call
        for "default", which itself recurses again when it finds nothing. */
    method GetRuleByUrl(url: string) returns (r: Resolution)
      ensures r == ResolveRule(crawlRules, url)
    {
      var res := ScanGroups(GetDomainUrl(url));
      if res.Some? {
        return Found(res.value);
      }
      var again := ScanGroups(GetDomainUrl("default"));
      if again.Some? {
        return Found(again.value);
      }
      r := RecursionError;
    }

    /** `get_rules_by_group(group_name)`: the first live group with that name, or None. */
    function GetRulesByGroup(groupName: string): (r: Option<CrawlRuleGroup>)
      reads this
      ensures r.Some? ==> r.value.name == groupName
      ensures r.Some? ==> exists i :: 0 <= i < |crawlRules| && crawlRules[i] == r.value
                                      && forall j :: 0 <= j < i ==> crawlRules[j].name != groupName
      ensures r.None? <==> forall j :: 0 <= j < |crawlRules| ==> crawlRules[j].name != groupName
    {
      CrawlRules.GetRulesByGroup(crawlRules, groupName)
    }

    /** `change_crawl_rule(new_rules)`: the list is cleared, then every entry that
        validates is appended; the others are logged and skipped. */
    method ChangeCrawlRule<D>(newRules: seq<D>, validate: D -> Option<CrawlRuleGroup>)
      modifies this
      ensures crawlRules == ValidGroups(newRules, validate)
      ensures pool == old(pool) && lastUsed == old(lastUsed)
    {
      crawlRules := [];
      var i := 0;
      while i < |newRules|
        invariant 0 <= i <= |newRules|
        invariant crawlRules == ValidGroups(newRules[..i], validate)
        invariant pool == old(pool) && lastUsed == old(lastUsed)
      {
        assert newRules[..i + 1][..i] == newRules[..i];
        match validate(newRules[i]) {
          case Some(g) => crawlRules := crawlRules + [g];
          case None =>
        }
        i := i + 1;
      }
      assert newRules[..i] == newRules;
    }
  }

  /** `PARSER_CACHE` with the `html_parser` decorator and `get_html_parser`. */
  class ParserRegistry<P> {
    var cache: map<string, P>

    constructor ()
      ensures cache == map[]
    {
      cache := map[];
    }

    /** `get_html_parser(name)` */
    function Get(name: string): (r: Option<P>)
      reads this
      ensures r.Some? <==> name in cache
      ensures r.Some? ==> r.value == cache[name]
    {
      if name in cache then Some(cache[name]) else None
    }

    /** `html_parser(name)` applied to a class: its instance is stored under `name`,
        replacing (with a warning) any parser already there. */
    method Register(name: string, parser: P) returns (overwrote: bool)
      modifies this
      ensures overwrote <==> old(Get(name)).Some?
      ensures Get(name) == Some(parser)
      ensures forall other :: other != name ==> Get(other) == old(Get(other))
    {
      overwrote := name in cache;
      cache := cache[name := parser];
    }
  }
}
