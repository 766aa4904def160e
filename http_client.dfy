/** utils/http.py: `BaseClient`, the synchronous HTTP client behind the crawl-result
    notifications. `request` defaults the headers and serialises JSON bodies before
    handing the request to `requests`; the streaming helpers clean server-sent lines
    and turn them into events.

    The transport is a parameter: what `requests.request` returns or raises for the
    prepared request. The lines `iter_lines` splits a streamed body into are taken as
    given. */
module HttpClient {
  import opened Text
  import opened Values
  import JsonText
  import Utf8

  /** A caller's headers dict, which `request` may update in place. */
  class HeaderDict {
    var entries: seq<(string, Value)>

    constructor(entries: seq<(string, Value)>)
      ensures this.entries == entries
    {
      this.entries := entries;
    }
  }

  /** The arguments handed to `requests.request`. */
  datatype Prepared = Prepared(verb: string, url: string, headers: seq<(string, Value)>, data: Value, stream: bool)

  /** What `requests.request` did: returned a response, or raised. */
  datatype Sent<R> = Received(response: R) | Raised(error: PyError)

  /** What `request` gives its caller: the response, the `InnerError` a connection
      failure becomes, or another exception passed through. */
  datatype RequestResult<R> = Response(response: R) | InnerError(code: int, message: string) | Failed(error: PyError)

  const AcceptEncoding: string := "gzip, deflate, br"

  /** `requests.exceptions.ConnectionError` and its subclasses. */
  predicate IsConnectionError(kind: string)
  {
    kind in {"ConnectionError", "ProxyError", "SSLError", "ConnectTimeout"}
  }

  /** The headers sent: the caller's (an empty or missing dict replaced by a new one)
      with `Accept-Encoding` set. */
  function SentHeaders(given: seq<(string, Value)>): (r: seq<(string, Value)>)
    ensures Lookup(r, "Accept-Encoding") == Some(VStr(AcceptEncoding))
    ensures forall k :: k != "Accept-Encoding" ==> Lookup(r, k) == Lookup(given, k)
  {
    Put(given, "Accept-Encoding", VStr(AcceptEncoding))
  }

  /** The body sent: a dict is serialised when `Content-Type` is exactly
      `application/json`; anything else goes as given. */
  function SentData(headers: seq<(string, Value)>, data: Value): (r: Outcome<Value>)
    ensures !(Lookup(headers, "Content-Type") == Some(VStr("application/json")) && data.VDict?) ==> r == Ok(data)
    ensures r.Ok? && r.value != data ==> r.value.VStr? && data.VDict?
  {
    if Lookup(headers, "Content-Type") == Some(VStr("application/json")) && data.VDict? then
      match JsonText.Dumps(data, JsonText.NoDefault, true)
      case Text(t) => Ok(VStr(t))
      case Unserialisable(e) => Err(e)
    else Ok(data)
  }

  /** `"Request to {} failed".format(url)` */
  function FailedMessage(url: string): string
  {
    "Request to " + url + " failed"
  }

  /** `BaseClient.request(method, path, headers, data, ..., stream)`; `sent` is what was
      handed to the transport, if anything was. */
  method Request<R>(verb: string, path: string, headers: HeaderDict?, data: Value, stream: bool, send: Prepared -> Sent<R>)
    returns (r: RequestResult<R>, sent: Option<Prepared>)
    modifies headers
    // a non-empty dict of the caller's is updated in place; an empty one is left alone
    ensures headers != null && old(headers.entries) != [] ==> headers.entries == SentHeaders(old(headers.entries))
    ensures headers != null && old(headers.entries) == [] ==> headers.entries == []
    ensures var given := if headers == null then [] else old(headers.entries);
      var sh := SentHeaders(given);
      match SentData(sh, data)
      case Err(e) => r == Failed(e) && sent.None?
      case Ok(body) =>
        && sent == Some(Prepared(verb, path, sh, body, stream))
        && match send(sent.value)
           case Received(resp) => r == Response(resp)
           case Raised(e) =>
             r == if IsConnectionError(e.kind) then InnerError(500, FailedMessage(path)) else Failed(e)
  {
    var h: seq<(string, Value)>;
    if headers != null && headers.entries != [] {
      headers.entries := Put(headers.entries, "Accept-Encoding", VStr(AcceptEncoding));
      h := headers.entries;
    } else {
      h := Put([], "Accept-Encoding", VStr(AcceptEncoding));
    }
    var body := SentData(h, data);
    if body.Err? {
      return Failed(body.error), None;
    }
    var prepared := Prepared(verb, path, h, body.value, stream);
    sent := Some(prepared);
    match send(prepared) {
      case Received(resp) =>
        r := Response(resp);
      case Raised(e) =>
        if IsConnectionError(e.kind) {
          r := InnerError(500, FailedMessage(path));
        } else {
          r := Failed(e);
        }
    }
  }

  /** A JSON content type with a dict body sends the body's JSON text. */
  lemma JsonBodySerialised(headers: seq<(string, Value)>, entries: seq<(string, Value)>)
    requires Lookup(headers, "Content-Type") == Some(VStr("application/json"))
    requires JsonText.Dumps(VDict(entries), JsonText.NoDefault, true).Text?
    ensures SentData(SentHeaders(headers), VDict(entries))
            == Ok(VStr(JsonText.Dumps(VDict(entries), JsonText.NoDefault, true).text))
  {
    assert Lookup(SentHeaders(headers), "Content-Type") == Lookup(headers, "Content-Type");
  }

  // ---------------------------------------------------------------------------
  // Streaming
  // ---------------------------------------------------------------------------

  /** A line with surrounding white space removed and one leading `data:` dropped. */
  function CleanLine(line: string): (r: string)
    ensures HasNoOuterSpace(r)
  {
    var s := Strip(line);
    if StartsWith(s, "data:") then Strip(s[5..]) else s
  }

  /** A clean line that does not start with `data:` is kept as it is. */
  lemma CleanLineKeepsClean(line: string)
    requires HasNoOuterSpace(line) && !StartsWith(line, "data:")
    ensures CleanLine(line) == line
  {
    StripNoOuterSpace(line);
  }

  /** The payload of a server-sent `data:` line comes back without the field name. */
  lemma CleanLineDropsField(payload: string)
    requires payload != "" && HasNoOuterSpace(payload)
    ensures CleanLine("data: " + payload) == payload
  {
    var line := "data: " + payload;
    assert line[0] == 'd' && line[|line| - 1] == payload[|payload| - 1];
    StripNoOuterSpace(line);
    assert line[..5] == "data:";
    var tail := line[5..];
    assert tail == " " + payload;
    assert TrimEnd(tail) == tail;
    assert tail[1..] == payload;
    assert TrimStart(tail) == TrimStart(payload);
    StripNoOuterSpace(payload);
    assert TrimEnd(payload) == payload;
  }

  /** Each line of the body decoded as UTF-8; None where `decode` raises. */
  function Decoded(lines: seq<seq<byte>>): (r: seq<Option<string>>)
    ensures |r| == |lines|
    ensures forall i :: 0 <= i < |lines| ==> r[i] == Utf8.DecodeStrict(lines[i])
  {
    seq(|lines|, i requires 0 <= i < |lines| => Utf8.DecodeStrict(lines[i]))
  }

  const DecodeFailure := PyError("UnicodeDecodeError", "'utf-8' codec can't decode line")

  /** Each decoded line with surrounding white space and a leading `data:` removed;
      a line that did not decode stays None. */
  function CleanedLines(texts: seq<Option<string>>): (r: seq<Option<string>>)
    ensures |r| == |texts|
    ensures forall i :: 0 <= i < |texts| ==> (r[i].None? <==> texts[i].None?)
    ensures forall i :: 0 <= i < |texts| && texts[i].Some? ==> r[i] == Some(CleanLine(texts[i].value))
  {
    seq(|texts|, i requires 0 <= i < |texts| => if texts[i].Some? then Some(CleanLine(texts[i].value)) else None)
  }

  /** The lines `_stream_request` yields for the cleaned lines of the body, and the
      `UnicodeDecodeError` that ends the stream at the first line that is not UTF-8:
      empty lines are skipped. */
  function StreamOf(cleaned: seq<Option<string>>): (r: (seq<string>, Option<PyError>))
    ensures |r.0| <= |cleaned|
  {
    if cleaned == [] then ([], None)
    else if cleaned[0].None? then ([], Some(DecodeFailure))
    else
      var rest := StreamOf(cleaned[1..]);
      if cleaned[0].value != "" then ([cleaned[0].value] + rest.0, rest.1) else rest
  }

  /** What `_stream_request` yields for the raw lines of the body. */
  function StreamFrom(lines: seq<seq<byte>>): (r: (seq<string>, Option<PyError>))
    ensures |r.0| <= |lines|
  {
    StreamOf(CleanedLines(Decoded(lines)))
  }

  /** Every yielded line is a non-empty line of the input. */
  lemma {:induction false} StreamOfYieldsNonEmpty(cleaned: seq<Option<string>>)
    ensures forall k :: 0 <= k < |StreamOf(cleaned).0| ==>
      StreamOf(cleaned).0[k] != "" && Some(StreamOf(cleaned).0[k]) in cleaned
  {
    if cleaned != [] && cleaned[0].Some? {
      StreamOfYieldsNonEmpty(cleaned[1..]);
      var rest := StreamOf(cleaned[1..]).0;
      forall k | 0 <= k < |rest| ensures Some(rest[k]) in cleaned {
        assert Some(rest[k]) in cleaned[1..];
      }
    }
  }

  /** Every yielded line is non-empty and has no surrounding white space. */
  lemma StreamLinesAreClean(texts: seq<Option<string>>)
    ensures forall k :: 0 <= k < |StreamOf(CleanedLines(texts)).0| ==>
      StreamOf(CleanedLines(texts)).0[k] != "" && HasNoOuterSpace(StreamOf(CleanedLines(texts)).0[k])
  {
    var cleaned := CleanedLines(texts);
    StreamOfYieldsNonEmpty(cleaned);
    forall k | 0 <= k < |StreamOf(cleaned).0|
      ensures HasNoOuterSpace(StreamOf(cleaned).0[k])
    {
      var j :| 0 <= j < |cleaned| && cleaned[j] == Some(StreamOf(cleaned).0[k]);
      assert cleaned[j] == Some(CleanLine(texts[j].value));
    }
  }

  /** The stream stops with an error exactly when some line is None. */
  lemma {:induction false} StreamOfErrorIffNone(cleaned: seq<Option<string>>)
    ensures StreamOf(cleaned).1.Some? <==> exists i :: 0 <= i < |cleaned| && cleaned[i].None?
  {
    if cleaned != [] {
      StreamOfErrorIffNone(cleaned[1..]);
      if cleaned[0].Some? && StreamOf(cleaned).1.None? {
        forall i | 0 <= i < |cleaned|
          ensures cleaned[i].Some?
        {
          if i > 0 {
            assert cleaned[1..][i - 1] == cleaned[i];
          }
        }
      }
      if cleaned[0].Some? && StreamOf(cleaned).1.Some? {
        var j :| 0 <= j < |cleaned[1..]| && cleaned[1..][j].None?;
        assert cleaned[j + 1].None?;
      }
    }
  }

  /** The stream stops with an error exactly when some line fails to decode. */
  lemma StreamErrorIffUndecodable(texts: seq<Option<string>>)
    ensures StreamOf(CleanedLines(texts)).1.Some? <==> exists i :: 0 <= i < |texts| && texts[i].None?
  {
    var cleaned := CleanedLines(texts);
    StreamOfErrorIffNone(cleaned);
    if exists i :: 0 <= i < |texts| && texts[i].None? {
      var i :| 0 <= i < |texts| && texts[i].None?;
      assert cleaned[i].None?;
    }
  }

  /** One step of the stream: the next line either ends it with the decode error or,
      when non-empty, is yielded before the rest. */
  lemma StreamStep(cleaned: seq<Option<string>>, i: nat)
    requires i < |cleaned|
    ensures cleaned[i].None? ==> StreamOf(cleaned[i..]) == ([], Some(DecodeFailure))
    ensures cleaned[i].Some? && cleaned[i].value != "" ==>
      StreamOf(cleaned[i..]) == ([cleaned[i].value] + StreamOf(cleaned[i + 1..]).0, StreamOf(cleaned[i + 1..]).1)
    ensures cleaned[i].Some? && cleaned[i].value == "" ==> StreamOf(cleaned[i..]) == StreamOf(cleaned[i + 1..])
  {
    var rest := cleaned[i..];
    assert rest[0] == cleaned[i];
    assert rest[1..] == cleaned[i + 1..];
  }

  /** What one turn of the loop in `StreamLines` keeps: the lines yielded so far
      followed by the stream of the remaining lines are the whole stream `whole`. */
  lemma StreamAdvance(cleaned: seq<Option<string>>, i: nat, yielded: seq<string>, whole: (seq<string>, Option<PyError>))
    requires i < |cleaned|
    requires yielded + StreamOf(cleaned[i..]).0 == whole.0
    requires StreamOf(cleaned[i..]).1 == whole.1
    ensures cleaned[i].None? ==> (yielded, Some(DecodeFailure)) == whole
    ensures cleaned[i].Some? ==>
      var next := if cleaned[i].value != "" then yielded + [cleaned[i].value] else yielded;
      next + StreamOf(cleaned[i + 1..]).0 == whole.0 && StreamOf(cleaned[i + 1..]).1 == whole.1
  {
    StreamStep(cleaned, i);
    if cleaned[i].None? {
      assert yielded + [] == yielded;
    } else if cleaned[i].value != "" {
      var rest := StreamOf(cleaned[i + 1..]).0;
      assert yielded + ([cleaned[i].value] + rest) == (yielded + [cleaned[i].value]) + rest;
    }
  }

  /** The loop of `_stream_request` over the lines of a streamed body. */
  method StreamLines(lines: seq<seq<byte>>) returns (yielded: seq<string>, error: Option<PyError>)
    ensures (yielded, error) == StreamFrom(lines)
  {
    ghost var cleaned := CleanedLines(Decoded(lines));
    yielded := [];
    error := None;
    var i := 0;
    assert cleaned[0..] == cleaned;
    assert yielded + StreamOf(cleaned).0 == StreamOf(cleaned).0;
    while i < |lines|
      invariant 0 <= i <= |lines|
      invariant yielded + StreamOf(cleaned[i..]).0 == StreamOf(cleaned).0
      invariant StreamOf(cleaned[i..]).1 == StreamOf(cleaned).1
    {
      var text := Utf8.DecodeStrict(lines[i]);
      StreamAdvance(cleaned, i, yielded, StreamOf(cleaned));
      if text.None? {
        error := Some(DecodeFailure);
        return;
      }
      var line := CleanLine(text.value);
      assert cleaned[i] == Some(line);
      if line != "" {
        yielded := yielded + [line];
      }
      i := i + 1;
    }
    assert cleaned[i..] == [];
    assert yielded + [] == yielded;
  }

  /** A stream whose lines all decode yields every non-empty cleaned line, in order. */
  function Cleaned(texts: seq<string>): (r: seq<string>)
  {
    NonEmpty(seq(|texts|, i requires 0 <= i < |texts| => CleanLine(texts[i])))
  }

  /** With no line None the stream ends without error and yields the non-empty lines. */
  lemma {:induction false} StreamOfAllPresent(cleaned: seq<Option<string>>)
    requires forall i :: 0 <= i < |cleaned| ==> cleaned[i].Some?
    ensures StreamOf(cleaned) == (NonEmpty(seq(|cleaned|, i requires 0 <= i < |cleaned| => cleaned[i].value)), None)
  {
    if cleaned != [] {
      var tail := cleaned[1..];
      assert forall i :: 0 <= i < |tail| ==> tail[i] == cleaned[i + 1];
      StreamOfAllPresent(tail);
      var all := seq(|cleaned|, i requires 0 <= i < |cleaned| => cleaned[i].value);
      assert all[1..] == seq(|tail|, i requires 0 <= i < |tail| => tail[i].value);
      assert all[0] == cleaned[0].value;
    }
  }

  /** When every line decodes the stream ends without error and yields exactly the
      non-empty cleaned lines, in input order. */
  lemma StreamYieldsCleaned(texts: seq<Option<string>>)
    requires forall i :: 0 <= i < |texts| ==> texts[i].Some?
    ensures StreamOf(CleanedLines(texts)).1.None?
    ensures StreamOf(CleanedLines(texts)).0 == Cleaned(seq(|texts|, i requires 0 <= i < |texts| => texts[i].value))
  {
    var cleaned := CleanedLines(texts);
    StreamOfAllPresent(cleaned);
    var values := seq(|texts|, i requires 0 <= i < |texts| => texts[i].value);
    assert seq(|cleaned|, i requires 0 <= i < |cleaned| => cleaned[i].value)
        == seq(|values|, i requires 0 <= i < |values| => CleanLine(values[i]));
  }

  /** One event of `_stream_request_with_model`: the done marker, or a line handed to
      `json.loads` and the model's constructor. */
  datatype StreamEvent = DoneMarker | JsonLine(text: string)

  /** The events for the yielded lines. */
  function Events(yielded: seq<string>): (r: seq<StreamEvent>)
    ensures |r| == |yielded|
    ensures forall i :: 0 <= i < |yielded| ==> (r[i] == DoneMarker <==> yielded[i] == "[DONE]")
    ensures forall i :: 0 <= i < |yielded| && yielded[i] != "[DONE]" ==> r[i] == JsonLine(yielded[i])
  {
    seq(|yielded|, i requires 0 <= i < |yielded| => if yielded[i] == "[DONE]" then DoneMarker else JsonLine(yielded[i]))
  }

  /** The loop of `_stream_request_with_model`. */
  method StreamEvents(yielded: seq<string>) returns (events: seq<StreamEvent>)
    ensures events == Events(yielded)
  {
    events := [];
    for i := 0 to |yielded|
      invariant events == Events(yielded[..i])
    {
      assert yielded[..i + 1] == yielded[..i] + [yielded[i]];
      if yielded[i] == "[DONE]" {
        events := events + [DoneMarker];
      } else {
        events := events + [JsonLine(yielded[i])];
      }
    }
    assert yielded[..|yielded|] == yielded;
  }

  /** `_stream_request` as written: it calls `self._request`, which `BaseClient` does not
      define, so the first step of the generator raises. */
  function StreamRequestAsWritten(typeName: string): Sent<seq<string>>
  {
    Raised(NoAttribute(typeName, "_request"))
  }

  /** `_stream_request` as intended, calling `request` with `stream=True` and then
      cleaning the body's lines. */
  method StreamRequest<R>(verb: string, path: string, headers: HeaderDict?, data: Value, send: Prepared -> Sent<R>,
                          bodyLines: R -> seq<seq<byte>>)
    returns (r: RequestResult<(seq<string>, Option<PyError>)>)
    modifies headers
    ensures headers != null && old(headers.entries) != [] ==> headers.entries == SentHeaders(old(headers.entries))
    ensures headers != null && old(headers.entries) == [] ==> headers.entries == []
    ensures var given := if headers == null then [] else old(headers.entries);
      var sh := SentHeaders(given);
      match SentData(sh, data)
      case Err(e) => r == Failed(e)
      case Ok(body) =>
        match send(Prepared(verb, path, sh, body, true))
        case Received(resp) => r == Response(StreamFrom(bodyLines(resp)))
        case Raised(e) =>
          r == if IsConnectionError(e.kind) then InnerError(500, FailedMessage(path)) else Failed(e)
  {
    var response, sent := Request(verb, path, headers, data, true, send);
    match response {
      case Response(resp) =>
        var yielded, error := StreamLines(bodyLines(resp));
        r := Response((yielded, error));
      case InnerError(code, message) =>
        r := InnerError(code, message);
      case Failed(e) =>
        r := Failed(e);
    }
  }

  /** As written, a stream never yields: every call raises `AttributeError`; with
      `request` in place of `_request`, a response whose body is one server-sent data
      line yields that line's payload. */
  lemma StreamRequestDiscrepancy(line: seq<byte>, payload: string)
    requires payload != "" && HasNoOuterSpace(payload)
    requires Utf8.DecodeStrict(line) == Some("data: " + payload)
    ensures StreamRequestAsWritten("BaseClient").Raised?
    ensures StreamFrom([line]) == ([payload], None)
  {
    CleanLineDropsField(payload);
    var cleaned := CleanedLines(Decoded([line]));
    assert cleaned == [Some(payload)];
    assert StreamOf(cleaned[1..]) == ([], None);
    assert [payload] + [] == [payload];
  }
}
