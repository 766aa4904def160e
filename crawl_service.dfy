/** service/crawl4ai_service.py: the Redis-backed crawl job (a hash per task under
    "aduib_task:<id>"), its status endpoint, the URL normalisation of a crawl request,
    the per-result record handed back to clients and the streamed-results generator.
    Redis is a map from key to hash (a map of field to text) plus the expiry set on a
    key; the browser run itself is an input, its outcome. */
module CrawlService {
  import opened Text
  import opened Values
  import opened JsonText
  import Base64
  import CT = CrawlTypes

  /* ---------------- URL normalisation ---------------- */

  /** A URL the crawler takes as it is: http, https or a `raw:` document. */
  predicate HasCrawlScheme(u: string)
  {
    StartsWith(u, "http://") || StartsWith(u, "https://") || StartsWith(u, "raw:") || StartsWith(u, "raw://")
  }

  /** One URL of a crawl request, with "https://" put in front of a bare host. */
  function NormalizeUrl(u: string): (r: string)
    ensures HasCrawlScheme(u) ==> r == u
    ensures !HasCrawlScheme(u) ==> r == "https://" + u
    ensures HasCrawlScheme(r)
  {
    if HasCrawlScheme(u) then u
    else
      assert ("https://" + u)[..8] == "https://";
      "https://" + u
  }

  function NormalizeUrls(urls: seq<string>): (r: seq<string>)
    ensures |r| == |urls|
    ensures forall i :: 0 <= i < |urls| ==> r[i] == NormalizeUrl(urls[i])
  {
    seq(|urls|, i requires 0 <= i < |urls| => NormalizeUrl(urls[i]))
  }

  /** Normalising twice changes nothing more. */
  lemma NormalizeUrlsIdempotent(urls: seq<string>)
    ensures NormalizeUrls(NormalizeUrls(urls)) == NormalizeUrls(urls)
  {
    var once := NormalizeUrls(urls);
    forall i | 0 <= i < |once| ensures NormalizeUrl(once[i]) == once[i] {
      assert HasCrawlScheme(once[i]);
    }
  }

  /** A bare URL keeps its text after the added scheme. */
  lemma NormalizeKeepsHost(u: string)
    requires !HasCrawlScheme(u)
    ensures NormalizeUrl(u)[8..] == u
  {
  }

  /* ---------------- the processed result of one crawl ---------------- */

  /** `.get(key)` on the value of a `markdown` field: only a dict has a `get`. */
  function GetField(holder: Value, key: string): (r: Outcome<Value>)
    ensures holder.VDict? ==> r == Ok(GetOr(holder.entries, key, VNone))
    ensures !holder.VDict? ==> r == Err(NoAttribute(TypeName(holder), "get"))
  {
    if holder.VDict? then Ok(GetOr(holder.entries, key, VNone))
    else Err(NoAttribute(TypeName(holder), "get"))
  }

  /** The `crawl_text` of a result: for markdown the fit markdown, else the raw one; for
      a pdf its bytes in base64; for html the cleaned html, else the fit html. */
  function SelectContent(t: CT.CrawlResultType, dump: seq<(string, Value)>): (r: Outcome<Value>)
    ensures t == CT.Html ==> r.Ok?
    ensures t == CT.Html && GetOr(dump, "cleaned_html", VNone) != VNone ==> r == Ok(GetOr(dump, "cleaned_html", VNone))
    ensures t == CT.Html && GetOr(dump, "cleaned_html", VNone) == VNone ==> r == Ok(GetOr(dump, "fit_html", VNone))
    ensures t == CT.Markdown && GetOr(dump, "markdown", VNone) == VNone ==> r == Ok(VNone)
    ensures t == CT.Markdown && GetOr(dump, "markdown", VNone).VDict? ==>
              var md := GetOr(dump, "markdown", VNone).entries;
              r == Ok(if GetOr(md, "fit_markdown", VNone) != VNone then GetOr(md, "fit_markdown", VNone)
                      else GetOr(md, "raw_markdown", VNone))
    ensures t == CT.Pdf && GetOr(dump, "pdf", VNone) == VNone ==> r == Ok(VNone)
    ensures t == CT.Pdf && GetOr(dump, "pdf", VNone).VBytes? ==>
              r == Ok(VStr(Base64.Encode(GetOr(dump, "pdf", VNone).bytes)))
    ensures r.Err? ==> r.error.kind in {"AttributeError", "TypeError"}
  {
    match t
    case Markdown =>
      var md := GetOr(dump, "markdown", VNone);
      var fit := GetField(md, "fit_markdown");
      if md == VNone then Ok(VNone)
      else if fit.Err? then Err(fit.error)
      else if fit.value != VNone then fit
      else GetField(md, "raw_markdown")
    case Pdf =>
      var pdf := GetOr(dump, "pdf", VNone);
      if pdf == VNone then Ok(VNone)
      else if pdf.VBytes? then Ok(VStr(Base64.Encode(pdf.bytes)))
      else Err(PyError("TypeError", "a bytes-like object is required, not '" + TypeName(pdf) + "'"))
    case Html =>
      var cleaned := GetOr(dump, "cleaned_html", VNone);
      if cleaned != VNone then Ok(cleaned) else Ok(GetOr(dump, "fit_html", VNone))
  }

  /** The text sent for a pdf gives back the pdf's bytes when base64-decoded. */
  lemma PdfContentDecodes(dump: seq<(string, Value)>, pdf: seq<byte>)
    requires Lookup(dump, "pdf") == Some(VBytes(pdf))
    ensures SelectContent(CT.Pdf, dump).Ok? && SelectContent(CT.Pdf, dump).value.VStr?
    ensures Base64.Decode(SelectContent(CT.Pdf, dump).value.s) == Some(pdf)
  {
    Base64.RoundTrip(pdf);
  }

  /** The keys of a processed result, in order. */
  const ProcessedKeys: seq<string> := ["url", "crawl_text", "crawl_type", "crawl_media", "screenshot", "metadata"]

  function Keys(entries: seq<(string, Value)>): seq<string>
  {
    seq(|entries|, i requires 0 <= i < |entries| => entries[i].0)
  }

  /** `create_processed_result` as evidently intended: the rule's result type chooses the
      content. The remaining fields are copied from the result with their defaults.
      A missing rule (None) is read here as html; the source would raise
      AttributeError on `crawl_rule.crawler_result_type`, but no caller passes None,
      because `handle_crawl_request` reads the rule's fields before it gets there. */
  function ProcessedResult(rule: Option<CT.CrawlRule>, dump: seq<(string, Value)>): Outcome<seq<(string, Value)>>
  {
    var t := if rule.Some? then rule.value.crawlResultType else CT.Html;
    match SelectContent(t, dump)
    case Err(e) => Err(e)
    case Ok(data) =>
      Ok([("url", GetOr(dump, "url", VStr(""))),
          ("crawl_text", data),
          ("crawl_type", VStr(CT.CrawlResultTypeValueOf(t))),
          ("crawl_media", GetOr(dump, "media", VDict([]))),
          ("screenshot", GetOr(dump, "screenshot", VStr(""))),
          ("metadata", GetOr(dump, "metadata", VDict([])))])
  }

  /** A processed result has the six fields in order, the content the rule's type
      selects, the type's name, and the result's url; it fails exactly when the content
      cannot be selected. */
  lemma ProcessedResultFields(rule: Option<CT.CrawlRule>, dump: seq<(string, Value)>)
    ensures var t := if rule.Some? then rule.value.crawlResultType else CT.Html;
            var r := ProcessedResult(rule, dump);
            (r.Ok? <==> SelectContent(t, dump).Ok?) &&
            (r.Err? ==> r.error == SelectContent(t, dump).error) &&
            (r.Ok? ==> Keys(r.value) == ProcessedKeys &&
                       Lookup(r.value, "crawl_text") == Some(SelectContent(t, dump).value) &&
                       Lookup(r.value, "crawl_type") == Some(VStr(CT.CrawlResultTypeValueOf(t))) &&
                       Lookup(r.value, "url") == Some(GetOr(dump, "url", VStr(""))))
  {
    var r := ProcessedResult(rule, dump);
    if r.Ok? {
      var entries := r.value;
      assert Keys(entries) == ProcessedKeys;
      LookupFirst(entries, 0, "url");
      LookupFirst(entries, 1, "crawl_text");
      LookupFirst(entries, 2, "crawl_type");
    }
  }

  /** The media, screenshot and metadata of a processed result are the crawl result's,
      or an empty dict, an empty string and an empty dict when it has none. */
  lemma ProcessedResultCopies(rule: Option<CT.CrawlRule>, dump: seq<(string, Value)>)
    requires ProcessedResult(rule, dump).Ok?
    ensures Lookup(ProcessedResult(rule, dump).value, "crawl_media") == Some(GetOr(dump, "media", VDict([])))
    ensures Lookup(ProcessedResult(rule, dump).value, "screenshot") == Some(GetOr(dump, "screenshot", VStr("")))
    ensures Lookup(ProcessedResult(rule, dump).value, "metadata") == Some(GetOr(dump, "metadata", VDict([])))
  {
    var entries := ProcessedResult(rule, dump).value;
    MediaCopied(entries);
    TailCopied(entries);
  }

  lemma MediaCopied(entries: seq<(string, Value)>)
    requires |entries| == 6 && entries[0].0 == "url" && entries[1].0 == "crawl_text"
    requires entries[2].0 == "crawl_type" && entries[3].0 == "crawl_media"
    ensures Lookup(entries, "crawl_media") == Some(entries[3].1)
  {
    var k := "crawl_media";
    assert |entries[0].0| == 3 && |entries[1].0| == 10 && |entries[2].0| == 10 && |k| == 11;
    LookupFirst(entries, 3, k);
  }

  lemma TailCopied(entries: seq<(string, Value)>)
    requires |entries| == 6 && |entries[0].0| > 0 && |entries[1].0| > 0 && |entries[2].0| > 0 && |entries[3].0| > 0
    requires entries[0].0[0] == 'u' && entries[1].0[0] == 'c' && entries[2].0[0] == 'c' && entries[3].0[0] == 'c'
    requires entries[4].0 == "screenshot" && entries[5].0 == "metadata"
    ensures Lookup(entries, "screenshot") == Some(entries[4].1)
    ensures Lookup(entries, "metadata") == Some(entries[5].1)
  {
    assert "screenshot"[0] == 's' && "metadata"[0] == 'm';
    LookupPastHeads(entries, 4, "screenshot");
    LookupPastHeads(entries, 5, "metadata");
  }

  /** `create_processed_result` as written: the rule is asked for `crawler_result_type`,
      an attribute neither a `CrawlRule` (whose field is `crawl_result_type`) nor `None`
      has, before anything else is read. */
  function ProcessedResultAsWritten(rule: Option<CT.CrawlRule>, dump: seq<(string, Value)>): (r: Outcome<seq<(string, Value)>>)
    ensures r.Err? && r.error.kind == "AttributeError"
  {
    Err(NoAttribute(if rule.Some? then "CrawlRule" else "NoneType", "crawler_result_type"))
  }

  /** The misspelt attribute loses every result, where the intended reading returns the
      page: an html rule and a result with cleaned html. */
  lemma ProcessedResultAsWrittenLosesContent(rule: CT.CrawlRule, dump: seq<(string, Value)>, html: string)
    requires rule.crawlResultType == CT.Html
    requires Lookup(dump, "cleaned_html") == Some(VStr(html))
    ensures ProcessedResultAsWritten(Some(rule), dump).Err?
    ensures ProcessedResult(Some(rule), dump).Ok?
    ensures Lookup(ProcessedResult(Some(rule), dump).value, "crawl_text") == Some(VStr(html))
  {
    ProcessedResultFields(Some(rule), dump);
  }

  /* ---------------- streaming ---------------- */

  /** One crawl result as the stream sees it: its `model_dump()` and its `url`
      attribute (`getattr(result, 'url', 'unknown')`). */
  datatype StreamItem = StreamItem(dump: seq<(string, Value)>, url: Value)

  /** The line sent for a result that failed: `json.dumps({"error": ..., "url": ...})`
      with the default ASCII escaping. It fails itself when the url cannot be
      serialised, and then the exception leaves the generator. */
  function ErrorLine(message: string, url: Value): (r: Dumped)
    ensures r.Text? ==> |r.text| > 0 && r.text[|r.text| - 1] == '\n'
    ensures url.VStr? ==> r.Text?
  {
    match Dumps(VDict([("error", VStr(message)), ("url", url)]), NoDefault, true)
    case Text(t) => Text(t + "\n")
    case Unserialisable(e) => Unserialisable(e)
  }

  /** An error line is printable ASCII up to its newline and starts with its "error" key. */
  lemma ErrorLineShape(message: string, url: Value)
    requires ErrorLine(message, url).Text?
    ensures var t := ErrorLine(message, url).text;
            AllPrintableAscii(t[..|t| - 1]) && StartsWith(t, "{" + Quote("error", true) + ": ")
  {
    var v := VDict([("error", VStr(message)), ("url", url)]);
    var t := Dumps(v, NoDefault, true).text;
    DumpsAscii(v, NoDefault);
    DumpsDictPrefix(v.entries, NoDefault, true);
    assert (t + "\n")[..|t|] == t;
  }

  /** The line streamed for one result, as evidently intended: the processed result,
      serialised with the datetime handler and without ASCII escaping; a result that
      cannot be processed or serialised gives its error line instead. */
  function StreamLine(rule: Option<CT.CrawlRule>, item: StreamItem): (r: Dumped)
    ensures r.Text? ==> |r.text| > 0 && r.text[|r.text| - 1] == '\n'
    ensures ProcessedResult(rule, item.dump).Err? ==>
              r == ErrorLine(ProcessedResult(rule, item.dump).error.message, item.url)
    ensures ProcessedResult(rule, item.dump).Ok? &&
            Dumps(VDict(ProcessedResult(rule, item.dump).value), DatetimeHandler, false).Unserialisable? ==>
              r == ErrorLine(Dumps(VDict(ProcessedResult(rule, item.dump).value), DatetimeHandler, false).error.message, item.url)
    ensures item.url.VStr? ==> r.Text?
  {
    match ProcessedResult(rule, item.dump)
    case Err(e) => ErrorLine(e.message, item.url)
    case Ok(entries) =>
      match Dumps(VDict(entries), DatetimeHandler, false)
      case Text(t) => Text(t + "\n")
      case Unserialisable(e) => ErrorLine(e.message, item.url)
  }

  /** The line streamed for one result as written: the un-awaited coroutine of
      `create_processed_result` reaches `json.dumps`, whose handler rejects it. */
  function StreamLineAsWritten(item: StreamItem): (r: Dumped)
    ensures r == ErrorLine("Unknown type", item.url)
  {
    var d := Dumps(VObject("coroutine"), DatetimeHandler, false);
    assert d == Unserialisable(PyError("TypeError", "Unknown type"));
    ErrorLine(d.error.message, item.url)
  }

  /** How an error line and a processed-result line begin. */
  function ErrorLinePrefix(): string { "{" + Quote("error", true) + ": " }
  function ResultLinePrefix(): string { "{" + Quote("url", false) + ": " }

  lemma PrefixesDiffer()
    ensures |ErrorLinePrefix()| > 2 && ErrorLinePrefix()[2] == 'e'
    ensures |ResultLinePrefix()| > 2 && ResultLinePrefix()[2] == 'u'
  {
    EscapePlain("error", true);
    EscapePlain("url", false);
  }

  /** As written every streamed line of a result with a url is an error line. */
  lemma StreamAsWrittenOnlyErrors(item: StreamItem)
    requires item.url.VStr?
    ensures StreamLineAsWritten(item).Text? && StartsWith(StreamLineAsWritten(item).text, ErrorLinePrefix())
  {
    ErrorLineShape("Unknown type", item.url);
  }

  /** A processed, serialisable result is streamed as its JSON text and a newline. */
  lemma IntendedLine(rule: Option<CT.CrawlRule>, item: StreamItem)
    requires ProcessedResult(rule, item.dump).Ok?
    requires Dumps(VDict(ProcessedResult(rule, item.dump).value), DatetimeHandler, false).Text?
    ensures StreamLine(rule, item) == Text(Dumps(VDict(ProcessedResult(rule, item.dump).value), DatetimeHandler, false).text + "\n")
  {
  }

  /** The line of a record whose first key is "url" begins with that key. */
  lemma ResultLineBegins(p: seq<(string, Value)>)
    requires |p| > 0 && p[0].0 == "url"
    requires Dumps(VDict(p), DatetimeHandler, false).Text?
    ensures var line := Dumps(VDict(p), DatetimeHandler, false).text + "\n";
            StartsWith(line, ResultLinePrefix()) && |line| > 2 && line[2] == 'u'
  {
    DumpsDictPrefix(p, DatetimeHandler, false);
    PrefixesDiffer();
  }

  /** As intended a processed, serialisable result streams as its own record, which
      begins with its url, and so differs from the line the code as written sends. */
  lemma StreamLineCarriesResult(rule: Option<CT.CrawlRule>, item: StreamItem)
    requires item.url.VStr?
    requires ProcessedResult(rule, item.dump).Ok?
    requires Dumps(VDict(ProcessedResult(rule, item.dump).value), DatetimeHandler, false).Text?
    ensures StreamLine(rule, item).Text? && StartsWith(StreamLine(rule, item).text, ResultLinePrefix())
    ensures StreamLine(rule, item) != StreamLineAsWritten(item)
  {
    ProcessedResultFields(rule, item.dump);
    var p := ProcessedResult(rule, item.dump).value;
    assert p[0].0 == Keys(p)[0] == "url";
    IntendedLine(rule, item);
    ResultLineBegins(p);
    PrefixesDiffer();
    StreamAsWrittenOnlyErrors(item);
    assert StreamLineAsWritten(item).text[2] == 'e';
  }

  /** How the stream ended: every result sent, the client gone (CancelledError while
      awaiting result `cancelAt`), or an exception raised by an error line. */
  datatype StreamEnd = Exhausted | Cancelled | Raised(error: PyError)

  /** `stream_results`: one line per result, in order, until the results run out, the
      client disconnects, or an error line itself cannot be serialised. `render` is
      what the generator does with one result: `StreamLine(rule, ·)` as intended,
      `StreamLineAsWritten` as written. */
  method StreamResults(items: seq<StreamItem>, render: StreamItem -> Dumped, cancelAt: Option<nat>)
    returns (lines: seq<string>, end: StreamEnd)
    ensures |lines| <= |items|
    ensures forall i :: 0 <= i < |lines| ==> render(items[i]) == Text(lines[i])
    ensures end == Exhausted <==> |lines| == |items| && (cancelAt.None? || cancelAt.value > |items|)
    ensures end == Cancelled ==> cancelAt == Some(|lines|)
    ensures end.Raised? ==> |lines| < |items| && render(items[|lines|]) == Unserialisable(end.error)
  {
    lines := [];
    var i := 0;
    while i < |items|
      invariant i == |lines| <= |items|
      invariant forall k :: 0 <= k < i ==> render(items[k]) == Text(lines[k])
      invariant cancelAt.None? || cancelAt.value >= i
    {
      if cancelAt == Some(i) {
        return lines, Cancelled;
      }
      var line := render(items[i]);
      if line.Unserialisable? {
        return lines, Raised(line.error);
      }
      lines := lines + [line.text];
      i := i + 1;
    }
    if cancelAt == Some(i) {
      return lines, Cancelled;
    }
    end := Exhausted;
  }

  /** `stream_results` as evidently intended: every result rendered by `StreamLine`.
      A result whose url is a string never ends the stream with an exception, so
      without a disconnect every result gets exactly one line, in order. */
  method StreamIntended(rule: Option<CT.CrawlRule>, items: seq<StreamItem>, cancelAt: Option<nat>)
    returns (lines: seq<string>, end: StreamEnd)
    ensures |lines| <= |items|
    ensures forall i :: 0 <= i < |lines| ==> StreamLine(rule, items[i]) == Text(lines[i])
    ensures (forall i :: 0 <= i < |items| ==> items[i].url.VStr?) ==> !end.Raised?
    ensures (forall i :: 0 <= i < |items| ==> items[i].url.VStr?) && cancelAt.None? ==>
              end == Exhausted && |lines| == |items|
    ensures end == Cancelled ==> cancelAt == Some(|lines|)
  {
    lines, end := StreamResults(items, item => StreamLine(rule, item), cancelAt);
    if end.Raised? {
      assert StreamLine(rule, items[|lines|]).Unserialisable?;
    }
  }

  /* ---------------- task records ---------------- */

  /** A task hash as the status endpoint decodes it. */
  type Record = map<string, string>

  const TaskTtlSeconds: real := 3600.0
  const ResultExpirySeconds: real := 604800.0   // seven days
  const NotFound: PyError := PyError("HTTPException", "404: aduib_task not found")

  function TaskKey(taskId: string): string
  {
    "aduib_task:" + taskId
  }

  function SelfLink(baseUrl: string, taskId: string): Value
  {
    VDict([("href", VStr(baseUrl + "/llm/" + taskId))])
  }

  function Completed(): string { CT.TaskStatusValue(CT.Completed) }
  function Failed(): string { CT.TaskStatusValue(CT.Failed) }
  function Processing(): string { CT.TaskStatusValue(CT.Processing) }

  /** The fields every task response carries. */
  function ResponseBase(taskId: string, status: string, createdAt: string, url: string, baseUrl: string)
    : (r: seq<(string, Value)>)
    ensures Lookup(r, "task_id") == Some(VStr(taskId))
    ensures Lookup(r, "status") == Some(VStr(status))
    ensures Lookup(r, "url") == Some(VStr(url))
    ensures Lookup(r, "result").None? && Lookup(r, "error").None?
  {
    var links := ("_links", Links(baseUrl, taskId));
    var tail := [("url", VStr(url)), links];
    var r := [("task_id", VStr(taskId))] + ([("status", VStr(status))] + ([("created_at", VStr(createdAt))] + tail));
    assert "task_id"[0] == 't' && "status"[0] == 's' && "created_at"[0] == 'c' && "url"[0] == 'u';
    assert "result"[0] == 'r' && "error"[0] == 'e' && links.0[0] == '_';
    LookupHead(("task_id", VStr(taskId)), [("status", VStr(status))] + ([("created_at", VStr(createdAt))] + tail));
    StatusPastHead(taskId, status, createdAt, tail);
    UrlPastHeads(taskId, status, createdAt, url, links);
    AbsentPastHeads(taskId, status, createdAt, url, links, "result");
    AbsentPastHeads(taskId, status, createdAt, url, links, "error");
    r
  }

  lemma StatusPastHead(taskId: string, status: string, createdAt: string, tail: seq<(string, Value)>)
    ensures Lookup([("task_id", VStr(taskId))] + ([("status", VStr(status))] + ([("created_at", VStr(createdAt))] + tail)), "status")
            == Some(VStr(status))
  {
    assert "task_id"[0] == 't' && "status"[0] == 's';
    LookupSkipHead(("task_id", VStr(taskId)), [("status", VStr(status))] + ([("created_at", VStr(createdAt))] + tail), "status");
    LookupHead(("status", VStr(status)), [("created_at", VStr(createdAt))] + tail);
  }

  lemma UrlPastHeads(taskId: string, status: string, createdAt: string, url: string, links: (string, Value))
    requires |links.0| > 0 && links.0[0] == '_'
    ensures Lookup([("task_id", VStr(taskId))] + ([("status", VStr(status))] + ([("created_at", VStr(createdAt))] + [("url", VStr(url)), links])), "url")
            == Some(VStr(url))
  {
    var tail := [("url", VStr(url)), links];
    var k := "url";
    assert "task_id"[0] == 't' && "status"[0] == 's' && "created_at"[0] == 'c' && k[0] == 'u';
    LookupSkipHead(("task_id", VStr(taskId)), [("status", VStr(status))] + ([("created_at", VStr(createdAt))] + tail), k);
    LookupSkipHead(("status", VStr(status)), [("created_at", VStr(createdAt))] + tail, k);
    LookupSkipHead(("created_at", VStr(createdAt)), tail, k);
    assert tail == [tail[0]] + [links];
    LookupHead(tail[0], [links]);
  }

  lemma AbsentPastHeads(taskId: string, status: string, createdAt: string, url: string, links: (string, Value), k: string)
    requires |k| > 0 && k[0] != 't' && k[0] != 's' && k[0] != 'c' && k[0] != 'u'
    requires |links.0| > 0 && links.0[0] != k[0]
    ensures Lookup([("task_id", VStr(taskId))] + ([("status", VStr(status))] + ([("created_at", VStr(createdAt))] + [("url", VStr(url)), links])), k).None?
  {
    var tail := [("url", VStr(url)), links];
    assert "task_id"[0] == 't' && "status"[0] == 's' && "created_at"[0] == 'c' && "url"[0] == 'u';
    LookupSkipHead(("task_id", VStr(taskId)), [("status", VStr(status))] + ([("created_at", VStr(createdAt))] + tail), k);
    LookupSkipHead(("status", VStr(status)), [("created_at", VStr(createdAt))] + tail, k);
    LookupSkipHead(("created_at", VStr(createdAt)), tail, k);
    LookupSkipHead(tail[0], [links], k);
    assert tail == [tail[0]] + [links];
    LookupSkipHead(links, [], k);
  }

  /** The creation time and the `_links` of every task response. */
  lemma ResponseBaseTimeAndLinks(taskId: string, status: string, createdAt: string, url: string, baseUrl: string)
    ensures Lookup(ResponseBase(taskId, status, createdAt, url, baseUrl), "created_at") == Some(VStr(createdAt))
    ensures Lookup(ResponseBase(taskId, status, createdAt, url, baseUrl), "_links") == Some(Links(baseUrl, taskId))
  {
    var links := ("_links", Links(baseUrl, taskId));
    var tail := [("url", VStr(url)), links];
    assert "task_id"[0] == 't' && "status"[0] == 's' && "created_at"[0] == 'c' && "url"[0] == 'u' && "_links"[0] == '_';
    LookupSkipHead(("task_id", VStr(taskId)), [("status", VStr(status))] + ([("created_at", VStr(createdAt))] + tail), "created_at");
    LookupSkipHead(("status", VStr(status)), [("created_at", VStr(createdAt))] + tail, "created_at");
    LookupHead(("created_at", VStr(createdAt)), tail);
    LinksPastHeads(taskId, status, createdAt, url, links);
  }

  lemma LinksPastHeads(taskId: string, status: string, createdAt: string, url: string, links: (string, Value))
    requires links.0 == "_links"
    ensures Lookup([("task_id", VStr(taskId))] + ([("status", VStr(status))] + ([("created_at", VStr(createdAt))] + [("url", VStr(url)), links])), "_links")
            == Some(links.1)
  {
    var tail := [("url", VStr(url)), links];
    var k := "_links";
    assert "task_id"[0] == 't' && "status"[0] == 's' && "created_at"[0] == 'c' && "url"[0] == 'u' && k[0] == '_';
    LookupSkipHead(("task_id", VStr(taskId)), [("status", VStr(status))] + ([("created_at", VStr(createdAt))] + tail), k);
    LookupSkipHead(("status", VStr(status)), [("created_at", VStr(createdAt))] + tail, k);
    LookupSkipHead(("created_at", VStr(createdAt)), tail, k);
    assert tail == [tail[0]] + [links];
    LookupSkipHead(tail[0], [links], k);
    LookupHead(links, []);
  }

  /** The `_links` of a task response: `self` and `refresh` both point at the task's
      status endpoint. */
  function Links(baseUrl: string, taskId: string): (r: Value)
    ensures r.VDict? && Lookup(r.entries, "self") == Some(SelfLink(baseUrl, taskId))
    ensures Lookup(r.entries, "refresh") == Some(SelfLink(baseUrl, taskId))
  {
    var r := [("self", SelfLink(baseUrl, taskId)), ("refresh", SelfLink(baseUrl, taskId))];
    assert r[0].0[0] == 's' && "refresh"[0] == 'r';
    LookupPastHeads(r, 0, "self");
    LookupPastHeads(r, 1, "refresh");
    VDict(r)
  }

  /** A key the entries do not hold, set last: it finds the new value and every other
      key what it found before. */
  lemma AppendNewKey(base: seq<(string, Value)>, k: string, v: Value)
    requires Lookup(base, k).None?
    ensures Lookup(base + [(k, v)], k) == Some(v)
    ensures forall other :: other != k ==> Lookup(base + [(k, v)], other) == Lookup(base, other)
  {
    LookupAppend(base, [(k, v)], k);
    forall other | other != k ensures Lookup(base + [(k, v)], other) == Lookup(base, other) {
      LookupAppend(base, [(k, v)], other);
    }
  }

  /** `create_task_response`: the task's fields, links to itself, and the parsed result
      of a completed task or the error of a failed one. A missing field raises the
      KeyError of the first one read; an unreadable result the parser's error. */
  function CreateTaskResponse(task: Record, taskId: string, baseUrl: string, parseJson: string -> Outcome<Value>)
    : (r: Outcome<seq<(string, Value)>>)
    ensures r.Ok? <==> "status" in task && "created_at" in task && "url" in task &&
                       (task["status"] == Completed() ==> "result" in task && parseJson(task["result"]).Ok?) &&
                       (task["status"] == Failed() ==> "error" in task)
    ensures "status" !in task ==> r == Err(KeyError("status"))
    ensures r.Ok? ==> Lookup(r.value, "task_id") == Some(VStr(taskId)) &&
                      Lookup(r.value, "status") == Some(VStr(task["status"])) &&
                      Lookup(r.value, "url") == Some(VStr(task["url"]))
    ensures r.Ok? ==> (Lookup(r.value, "result").Some? <==> task["status"] == Completed()) &&
                      (Lookup(r.value, "error").Some? <==> task["status"] == Failed())
    ensures r.Ok? && task["status"] == Completed() ==> Lookup(r.value, "result") == Some(parseJson(task["result"]).value)
    ensures r.Ok? && task["status"] == Failed() ==> Lookup(r.value, "error") == Some(VStr(task["error"]))
  {
    if "status" !in task then Err(KeyError("status"))
    else if "created_at" !in task then Err(KeyError("created_at"))
    else if "url" !in task then Err(KeyError("url"))
    else FinishResponse(ResponseBase(taskId, task["status"], task["created_at"], task["url"], baseUrl), task, parseJson)
  }

  /** The part of `create_task_response` that depends on the status: a completed task
      adds its parsed result, a failed one its error, any other status nothing. */
  function FinishResponse(base: seq<(string, Value)>, task: Record, parseJson: string -> Outcome<Value>)
    : (r: Outcome<seq<(string, Value)>>)
    requires "status" in task
    requires Lookup(base, "result").None? && Lookup(base, "error").None?
    ensures r.Ok? <==> (task["status"] == Completed() ==> "result" in task && parseJson(task["result"]).Ok?) &&
                       (task["status"] == Failed() ==> "error" in task)
    ensures r.Ok? ==> forall k :: k != "result" && k != "error" ==> Lookup(r.value, k) == Lookup(base, k)
    ensures r.Ok? ==> (Lookup(r.value, "result").Some? <==> task["status"] == Completed()) &&
                      (Lookup(r.value, "error").Some? <==> task["status"] == Failed())
    ensures r.Ok? && task["status"] == Completed() ==> Lookup(r.value, "result") == Some(parseJson(task["result"]).value)
    ensures r.Ok? && task["status"] == Failed() ==> Lookup(r.value, "error") == Some(VStr(task["error"]))
  {
    StatusValuesDiffer();
    if task["status"] == Completed() then
      if "result" !in task then Err(KeyError("result"))
      else
        match parseJson(task["result"])
        case Err(e) => Err(e)
        case Ok(v) =>
          AppendNewKey(base, "result", v);
          Ok(base + [("result", v)])
    else if task["status"] == Failed() then
      if "error" !in task then Err(KeyError("error"))
      else
        AppendNewKey(base, "error", VStr(task["error"]));
        Ok(base + [("error", VStr(task["error"]))])
    else Ok(base)
  }

  /** A task response carries the task's creation time and links to the task's
      status endpoint. */
  lemma CreateTaskResponseTimeAndLinks(task: Record, taskId: string, baseUrl: string, parseJson: string -> Outcome<Value>)
    requires CreateTaskResponse(task, taskId, baseUrl, parseJson).Ok?
    ensures Lookup(CreateTaskResponse(task, taskId, baseUrl, parseJson).value, "created_at") == Some(VStr(task["created_at"]))
    ensures Lookup(CreateTaskResponse(task, taskId, baseUrl, parseJson).value, "_links") == Some(Links(baseUrl, taskId))
  {
    var base := ResponseBase(taskId, task["status"], task["created_at"], task["url"], baseUrl);
    ResponseBaseTimeAndLinks(taskId, task["status"], task["created_at"], task["url"], baseUrl);
    assert "created_at"[0] == 'c' && "_links"[0] == '_' && "result"[0] == 'r' && "error"[0] == 'e';
    assert "created_at" != "result" && "created_at" != "error" && "_links" != "result" && "_links" != "error";
  }

  /** The completed and failed status values, and the keys `result` and `error`, differ. */
  lemma StatusValuesDiffer()
    ensures Completed() != Failed() && "result" != "error"
  {
    var r := "result";
    assert |Completed()| != |Failed()| && r[0] != "error"[0];
  }

  /** Whether a status request removes the task: only a finished task, only without
      `keep`, only once it is strictly older than an hour. An unreadable `created_at`
      raises the ValueError of `datetime.fromisoformat`. */
  function CleanupDecision(task: Record, keep: bool, now: real, parseIso: string -> Option<real>): (r: Outcome<bool>)
    requires "status" in task && "created_at" in task
    ensures r == Ok(true) <==> (task["status"] == Completed() || task["status"] == Failed()) && !keep &&
                               parseIso(task["created_at"]).Some? && now - parseIso(task["created_at"]).value > TaskTtlSeconds
    ensures r.Err? <==> (task["status"] == Completed() || task["status"] == Failed()) && !keep &&
                        parseIso(task["created_at"]).None?
    ensures r.Err? ==> r.error == PyError("ValueError", "Invalid isoformat string: '" + task["created_at"] + "'")
  {
    if !(task["status"] == Completed() || task["status"] == Failed()) || keep then Ok(false)
    else
      match parseIso(task["created_at"])
      case None => Err(PyError("ValueError", "Invalid isoformat string: '" + task["created_at"] + "'"))
      case Some(created) => Ok(now - created > TaskTtlSeconds)
  }

  /** The fields `handle_crawl_job` writes for a new task. */
  function JobFields(urls: seq<string>, createdAt: string): (r: Record)
    ensures r.Keys == {"status", "created_at", "url", "result", "error"}
    ensures r["status"] == Processing() && r["created_at"] == createdAt && r["url"] == DumpStrings(urls)
    ensures r["result"] == "" && r["error"] == ""
  {
    map["status" := Processing(), "created_at" := createdAt, "url" := DumpStrings(urls), "result" := "", "error" := ""]
  }

  /** A job just created reads back as processing, with its url list and neither a
      result nor an error. */
  lemma NewJobReadsProcessing(urls: seq<string>, createdAt: string, taskId: string, baseUrl: string,
                              parseJson: string -> Outcome<Value>)
    ensures var r := CreateTaskResponse(JobFields(urls, createdAt), taskId, baseUrl, parseJson);
            r.Ok? && Lookup(r.value, "status") == Some(VStr("processing")) &&
            Lookup(r.value, "url") == Some(VStr(DumpStrings(urls))) &&
            Lookup(r.value, "result").None? && Lookup(r.value, "error").None?
  {
    var f := JobFields(urls, createdAt);
    assert f["status"] == "processing";
    assert f["status"] != Completed() && f["status"] != Failed();
  }

  /** `hset(key, mapping=fields)`: the fields are added to the hash, replacing those of
      the same name; a missing hash is created. */
  function HSet(records: map<string, Record>, key: string, fields: Record): (r: map<string, Record>)
    ensures key in r && r[key].Keys == (if key in records then records[key].Keys else {}) + fields.Keys
    ensures forall f :: f in fields ==> r[key][f] == fields[f]
    ensures forall f :: f in r[key] && f !in fields ==> r[key][f] == records[key][f]
    ensures forall k :: k != key ==> (k in r <==> k in records) && (k in r ==> r[k] == records[k])
  {
    records[key := (if key in records then records[key] else map[]) + fields]
  }

  /** The hashes `_runner` writes, in order. */
  function ApplyWrites(records: map<string, Record>, key: string, writes: seq<Record>): map<string, Record>
    decreases |writes|
  {
    if |writes| == 0 then records else ApplyWrites(HSet(records, key, writes[0]), key, writes[1..])
  }

  function CompletedFields(resultText: string): Record
  {
    map["status" := Completed(), "result" := resultText]
  }

  function FailedFields(message: string): Record
  {
    map["status" := Failed(), "error" := message]
  }

  /** The notify handler exists only when a notify url was given (`if notify_url`). */
  predicate HasNotifyHandler(notifyUrl: Option<string>)
  {
    notifyUrl.Some? && notifyUrl.value != ""
  }

  /** `CrawlResultNotifyHandler.notify(result)` reads `result.notify_url`; the values a
      crawl request returns (a dict, None) have no such attribute. */
  function NotifyError(result: Value): PyError
  {
    NoAttribute(TypeName(result), "notify_url")
  }

  /** The hash writes of `_runner` as written: `notify` is awaited on the handler even
      when there is none. */
  function RunnerWritesAsWritten(run: Outcome<Value>, notifyUrl: Option<string>): (r: seq<Record>)
    ensures |r| > 0
  {
    match run
    case Err(e) => [FailedFields(e.message)]
    case Ok(result) =>
      match Dumps(result, NoDefault, true)
      case Unserialisable(e) => [FailedFields(e.message)]
      case Text(t) =>
        var notifyFailure := if HasNotifyHandler(notifyUrl) then NotifyError(result)
                             else NoAttribute("NoneType", "notify");
        [CompletedFields(t), FailedFields(notifyFailure.message)]
  }

  /** The hash writes of `_runner` with the notification made only when a handler exists. */
  function RunnerWrites(run: Outcome<Value>, notifyUrl: Option<string>): (r: seq<Record>)
    ensures 0 < |r| <= 2
  {
    match run
    case Err(e) => [FailedFields(e.message)]
    case Ok(result) =>
      match Dumps(result, NoDefault, true)
      case Unserialisable(e) => [FailedFields(e.message)]
      case Text(t) =>
        if HasNotifyHandler(notifyUrl) then [CompletedFields(t), FailedFields(NotifyError(result).message)]
        else [CompletedFields(t)]
  }

  /** As written no job ends completed: the last write always marks it failed. */
  lemma RunnerAsWrittenAlwaysFails(run: Outcome<Value>, notifyUrl: Option<string>)
    ensures var w := RunnerWritesAsWritten(run, notifyUrl);
            w[|w| - 1]["status"] == "failed"
  {
  }

  /** With the handler checked, a run without a notify url whose result serialises ends
      completed and keeps the serialised result; a failed run records its error. */
  lemma RunnerCompletes(run: Outcome<Value>, notifyUrl: Option<string>)
    ensures run.Ok? && Dumps(run.value, NoDefault, true).Text? && !HasNotifyHandler(notifyUrl) ==>
              var w := RunnerWrites(run, notifyUrl);
              w[|w| - 1]["status"] == "completed" && w[|w| - 1]["result"] == Dumps(run.value, NoDefault, true).text
    ensures run.Err? ==> RunnerWrites(run, notifyUrl) == [map["status" := "failed", "error" := run.error.message]]
  {
  }

  /** Redis as the task service uses it: a hash per key and the expiry set on a key. */
  class TaskStore {
    var records: map<string, Record>
    var expiresAt: map<string, real>

    constructor()
      ensures records == map[] && expiresAt == map[]
    {
      records := map[];
      expiresAt := map[];
    }

    /** `handle_task_status`: 404 for an unknown or empty task; otherwise the response,
        after removing a finished task that is older than an hour unless `keep`. */
    method HandleTaskStatus(taskId: string, baseUrl: string, keep: bool, now: real,
                            parseIso: string -> Option<real>, parseJson: string -> Outcome<Value>)
      returns (r: Outcome<seq<(string, Value)>>)
      modifies this
      ensures var key := TaskKey(taskId);
              (key !in old(records) || old(records)[key] == map[]) ==> r == Err(NotFound) && records == old(records)
      ensures var key := TaskKey(taskId);
              key in old(records) && old(records)[key] != map[] ==>
                var task := old(records)[key];
                var response := CreateTaskResponse(task, taskId, baseUrl, parseJson);
                if response.Err? then r == response && records == old(records)
                else
                  var decision := CleanupDecision(task, keep, now, parseIso);
                  (decision.Err? ==> r == Err(decision.error) && records == old(records)) &&
                  (decision.Ok? ==> r == response &&
                                    records == if decision.value then old(records) - {key} else old(records))
      ensures expiresAt == if records == old(records) then old(expiresAt) else old(expiresAt) - {TaskKey(taskId)}
    {
      var key := TaskKey(taskId);
      if key !in records || records[key] == map[] {
        return Err(NotFound);
      }
      var task := records[key];
      var response := CreateTaskResponse(task, taskId, baseUrl, parseJson);
      if response.Err? {
        return response;
      }
      var decision := CleanupDecision(task, keep, now, parseIso);
      if decision.Err? {
        return Err(decision.error);
      }
      if decision.value {
        records := records - {key};
        expiresAt := expiresAt - {key};
      }
      r := response;
    }

    /** `handle_crawl_job`: a new task "crawl_<token>" in state processing, whose work
        is left to `Runner`. `token` stands for the first eight hex digits of a uuid4. */
    method HandleCrawlJob(urls: seq<string>, token: string, createdAt: string)
      returns (taskId: string, response: seq<(string, Value)>)
      modifies this
      ensures taskId == "crawl_" + token
      ensures records == HSet(old(records), TaskKey(taskId), JobFields(urls, createdAt))
      ensures expiresAt == old(expiresAt)
      ensures response == [("task_id", VStr(taskId))]
    {
      taskId := "crawl_" + token;
      records := HSet(records, TaskKey(taskId), JobFields(urls, createdAt));
      response := [("task_id", VStr(taskId))];
    }

    /** `_runner` as evidently intended, with the notification made only when a
        handler exists (`RunnerWrites`; the code as written is `RunnerWritesAsWritten`):
        records the outcome of the crawl (`run`) on the task, sets the seven-day expiry
        once the result is stored, then notifies. */
    method Runner(taskId: string, run: Outcome<Value>, notifyUrl: Option<string>, now: real)
      modifies this
      ensures records == ApplyWrites(old(records), TaskKey(taskId), RunnerWrites(run, notifyUrl))
      ensures expiresAt == if RunnerWrites(run, notifyUrl)[0]["status"] == "completed"
                           then old(expiresAt)[TaskKey(taskId) := now + ResultExpirySeconds]
                           else old(expiresAt)
    {
      var key := TaskKey(taskId);
      ghost var writes := RunnerWrites(run, notifyUrl);
      assert Completed() == "completed" && Failed() == "failed";
      if run.Err? {
        records := HSet(records, key, FailedFields(run.error.message));
        return;
      }
      var result := run.value;
      var dumped := Dumps(result, NoDefault, true);
      if dumped.Unserialisable? {
        records := HSet(records, key, FailedFields(dumped.error.message));
        return;
      }
      ghost var before := records;
      records := HSet(records, key, CompletedFields(dumped.text));
      expiresAt := expiresAt[key := now + ResultExpirySeconds];
      if HasNotifyHandler(notifyUrl) {
        records := HSet(records, key, FailedFields(NotifyError(result).message));
        assert writes == [CompletedFields(dumped.text), FailedFields(NotifyError(result).message)];
        assert writes[1..] == [FailedFields(NotifyError(result).message)];
        ghost var mid := HSet(before, key, writes[0]);
        assert ApplyWrites(before, key, writes) == ApplyWrites(mid, key, writes[1..]);
        assert writes[1..][1..] == [];
        assert ApplyWrites(mid, key, writes[1..]) == ApplyWrites(HSet(mid, key, writes[1]), key, []);
      } else {
        assert writes == [CompletedFields(dumped.text)];
      }
    }
  }

  /** A finished job, read back: the status request reports the stored result. */
  lemma CompletedJobReadsBack(task: Record, resultText: string, taskId: string, baseUrl: string,
                              parseJson: string -> Outcome<Value>)
    requires "created_at" in task && "url" in task
    requires parseJson(resultText).Ok?
    ensures var t := task + CompletedFields(resultText);
            var r := CreateTaskResponse(t, taskId, baseUrl, parseJson);
            r.Ok? && Lookup(r.value, "status") == Some(VStr("completed")) &&
            Lookup(r.value, "result") == Some(parseJson(resultText).value)
  {
    var t := task + CompletedFields(resultText);
    assert t["status"] == Completed();
  }
}
