/** service/github_graphql_client.py: the search strings the GitHub GraphQL client builds,
    the way it classifies a reply as a rate limit, an authentication failure or another
    error, and how the list endpoints pull their nodes out of the returned data.

    The HTTP exchange is a parameter: what `post` gave (a timeout, a request error, or a
    response with its status, headers and decoded JSON body). */
module GithubGraphql {
  import opened Text
  import opened Values

  // ---------------------------------------------------------------------------
  // Python's int() on a header value
  // ---------------------------------------------------------------------------

  predicate IsDigit(c: char)
  {
    '0' <= c <= '9'
  }

  /** Digits, possibly grouped by single underscores, as `int()` accepts them. */
  predicate IsDigitGroups(s: string)
  {
    && |s| > 0 && IsDigit(s[0]) && IsDigit(s[|s| - 1])
    && (forall i :: 0 <= i < |s| ==> IsDigit(s[i]) || s[i] == '_')
    && (forall i :: 0 <= i < |s| - 1 ==> s[i] == '_' ==> s[i + 1] != '_')
  }

  /** The number the digits of `s` spell, underscores skipped. */
  function DigitsValue(s: string): nat
  {
    if |s| == 0 then 0
    else if IsDigit(s[|s| - 1]) then DigitsValue(s[..|s| - 1]) * 10 + (s[|s| - 1] as int - '0' as int)
    else DigitsValue(s[..|s| - 1])
  }

  /** `int(s)` for a string: surrounding white space, an optional sign, then digit
      groups; None where Python raises `ValueError`. */
  function ParseInt(text: string): (r: Option<int>)
  {
    ParseSigned(Strip(text))
  }

  /** `int(s)` once the white space is stripped. */
  function ParseSigned(s: string): (r: Option<int>)
    ensures r.Some? ==> |s| > 0
  {
    if |s| > 0 && (s[0] == '+' || s[0] == '-') then
      var v: int := DigitsValue(s[1..]);
      if IsDigitGroups(s[1..]) then Some(if s[0] == '-' then -v else v) else None
    else if IsDigitGroups(s) then Some(DigitsValue(s))
    else None
  }

  lemma {:induction false} NatDigitsParse(n: nat)
    ensures IsDigitGroups(NatToDecimal(n)) && DigitsValue(NatToDecimal(n)) == n
  {
    var d := NatToDecimal(n);
    if n >= 10 {
      NatDigitsParse(n / 10);
      assert d[..|d| - 1] == NatToDecimal(n / 10);
    } else {
      assert d[..0] == [];
    }
  }

  lemma ParseNatDigits(m: nat)
    ensures ParseSigned(NatToDecimal(m)) == Some(m)
    ensures ParseSigned("-" + NatToDecimal(m)) == Some(0 - m)
  {
    var d := NatToDecimal(m);
    NatDigitsParse(m);
    assert IsDigit(d[0]);
    assert ("-" + d)[1..] == d;
  }

  /** Text with no surrounding white space is parsed as it stands. */
  lemma ParseIntOfClean(d: string)
    requires HasNoOuterSpace(d)
    ensures ParseInt(d) == ParseSigned(d)
  {
    StripNoOuterSpace(d);
  }

  /** `int(str(n)) == n` */
  lemma ParseIntRoundTrip(n: int)
    ensures ParseInt(IntToDecimal(n)) == Some(n)
  {
    ParseIntOfClean(IntToDecimal(n));
    ParseDecimal(n);
  }

  /** The digits `str` writes, with their sign, parse back to the number. */
  lemma ParseDecimal(n: int)
    ensures ParseSigned(IntToDecimal(n)) == Some(n)
  {
    if n < 0 {
      ParseNatDigits(-n);
    } else {
      ParseNatDigits(n);
    }
  }

  // ---------------------------------------------------------------------------
  // Query builders
  // ---------------------------------------------------------------------------

  /** `" ".join(part for part in parts if part).strip()`, how both builders finish. */
  function SearchString(parts: seq<string>): string
  {
    Strip(Join(NonEmpty(parts), " "))
  }

  /** The parts `_build_repository_search_query` collects. */
  function RepositoryQueryParts(query: string, language: Option<string>, minStars: Option<int>): seq<string>
  {
    (if query != "" then [Strip(query)] else [])
    + (if language.Some? && language.value != "" then ["language:" + language.value] else [])
    + (if minStars.Some? then ["stars:>=" + IntToDecimal(minStars.value)] else [])
  }

  /** `_build_repository_search_query(query, language, min_stars)` */
  function RepositorySearchQuery(query: string, language: Option<string>, minStars: Option<int>): string
  {
    SearchString(RepositoryQueryParts(query, language, minStars))
  }

  /** The parts `_build_issue_search_query` collects. */
  function IssueQueryParts(query: string, state: Option<string>): seq<string>
  {
    (if query != "" then [Strip(query)] else [])
    + ["is:issue"]
    + (if state.Some? && state.value != "" then ["state:" + Lower(state.value)] else [])
  }

  /** `_build_issue_search_query(query, state)` */
  function IssueSearchQuery(query: string, state: Option<string>): string
  {
    SearchString(IssueQueryParts(query, state))
  }

  /** A stripped text that is not empty starts with a character that is not white
      space. */
  lemma StrippedStart(s: string)
    requires Strip(s) != ""
    ensures |Strip(s)| > 0 && !IsSpace(Strip(s)[0]) && !IsSpace(Strip(s)[|Strip(s)| - 1])
  {
    StripShape(s);
  }

  /** The star-bound part ends in a digit. */
  lemma StarsPartEnds(stars: int)
    ensures var n := "stars:>=" + IntToDecimal(stars); |n| > 0 && !IsSpace(n[|n| - 1])
  {
    var d := IntToDecimal(stars);
    var n := "stars:>=" + d;
    assert n[|n| - 1] == d[|d| - 1];
  }

  /** The state part ends as the state does. */
  lemma StatePartEnds(state: string)
    requires state != "" && !IsSpace(state[|state| - 1])
    ensures var p := "state:" + Lower(state); |p| > 0 && !IsSpace(p[|p| - 1])
  {
    var p := "state:" + Lower(state);
    assert p[|p| - 1] == LowerChar(state[|state| - 1]);
  }

  /** An empty part is skipped. */
  lemma SearchStringSkipsEmpty(rest: seq<string>)
    ensures SearchString([""] + rest) == SearchString(rest)
  {
    assert ([""] + rest)[1..] == rest;
  }

  lemma SearchStringOne(a: string)
    requires |a| > 0 && !IsSpace(a[0]) && !IsSpace(a[|a| - 1])
    ensures SearchString([a]) == a
  {
    assert a != [] && [a][1..] == [];
    assert NonEmpty([a]) == [a];
    assert Join([a], " ") == a;
    StripNoOuterSpace(a);
  }

  lemma SearchStringTwo(a: string, b: string)
    requires |a| > 0 && |b| > 0 && !IsSpace(a[0]) && !IsSpace(b[|b| - 1])
    ensures SearchString([a, b]) == a + " " + b
  {
    assert a != [] && b != [];
    assert [a, b][1..] == [b] && [b][1..] == [];
    assert NonEmpty([b]) == [b];
    assert NonEmpty([a, b]) == [a, b];
    var j := a + " " + b;
    assert Join([b], " ") == b;
    assert Join([a, b], " ") == j;
    assert j[0] == a[0] && j[|j| - 1] == b[|b| - 1];
    StripNoOuterSpace(j);
  }

  lemma SearchStringThree(a: string, b: string, c: string)
    requires |a| > 0 && |b| > 0 && |c| > 0 && !IsSpace(a[0]) && !IsSpace(c[|c| - 1])
    ensures SearchString([a, b, c]) == a + " " + b + " " + c
  {
    var parts := [a, b, c];
    assert parts[1..] == [b, c] && [b, c][1..] == [c] && [c][1..] == [];
    assert a != [] && b != [] && c != [];
    assert NonEmpty([c]) == [c];
    assert NonEmpty([b, c]) == [b, c];
    assert NonEmpty(parts) == parts;
    var j := a + " " + (b + " " + c);
    assert Join([c], " ") == c;
    assert Join([b, c], " ") == b + " " + c;
    assert Join(parts, " ") == j;
    assert j[0] == a[0];
    assert j[|j| - 1] == c[|c| - 1];
    StripNoOuterSpace(j);
  }

  /** With a query, a language and a star bound the search string is the stripped
      query, `language:L` and `stars:>=N`, each once and in that order, separated by
      single spaces; a zero bound is kept. */
  lemma RepositoryQueryAllParts(query: string, language: string, stars: int)
    requires Strip(query) != "" && language != ""
    ensures RepositorySearchQuery(query, Some(language), Some(stars))
            == Strip(query) + " " + ("language:" + language) + " " + ("stars:>=" + IntToDecimal(stars))
  {
    var q := Strip(query);
    assert RepositoryQueryParts(query, Some(language), Some(stars)) == [q, "language:" + language, "stars:>=" + IntToDecimal(stars)];
    StrippedStart(query);
    StarsPartEnds(stars);
    SearchStringThree(q, "language:" + language, "stars:>=" + IntToDecimal(stars));
  }

  /** Without a language or a star bound the search string is the stripped query. */
  lemma RepositoryQueryOnlyText(query: string, language: Option<string>)
    requires language.None? || language == Some("")
    ensures RepositorySearchQuery(query, language, None) == Strip(query)
  {
    if query != "" {
      assert RepositoryQueryParts(query, language, None) == [Strip(query)];
      if Strip(query) == "" {
        SearchStringSkipsEmpty([]);
      } else {
        StrippedStart(query);
        SearchStringOne(Strip(query));
      }
    } else {
      assert RepositoryQueryParts(query, language, None) == [];
    }
  }

  /** A star bound alone, zero included, gives `stars:>=N`. */
  lemma RepositoryQueryOnlyStars(stars: int)
    ensures RepositorySearchQuery("", None, Some(stars)) == "stars:>=" + IntToDecimal(stars)
  {
    var n := "stars:>=" + IntToDecimal(stars);
    assert RepositoryQueryParts("", None, Some(stars)) == [n];
    StarsPartEnds(stars);
    SearchStringOne(n);
  }

  /** A query that strips to nothing contributes no part. */
  lemma IssueQueryBlank(query: string, state: Option<string>)
    requires Strip(query) == ""
    ensures IssueSearchQuery(query, state) == IssueSearchQuery("", state)
  {
    if query != "" {
      IssueQueryHead(query, state);
      SearchStringSkipsEmpty(IssueQueryParts("", state));
    }
  }

  /** A query that is not empty adds its stripped text ahead of the other parts. */
  lemma IssueQueryHead(query: string, state: Option<string>)
    requires query != ""
    ensures IssueSearchQuery(query, state) == SearchString([Strip(query)] + IssueQueryParts("", state))
  {
    var tail: seq<string> := if state.Some? && state.value != "" then ["state:" + Lower(state.value)] else [];
    var q := Strip(query);
    assert IssueQueryParts("", state) == ["is:issue"] + tail;
    assert IssueQueryParts(query, state) == [q] + ["is:issue"] + tail;
    assert [q] + ["is:issue"] + tail == [q] + (["is:issue"] + tail);
  }

  /** A query that does not strip to nothing leads the parts. */
  lemma IssueQueryLeads(query: string, state: Option<string>)
    requires Strip(query) != ""
    ensures IssueQueryParts(query, state) == [Strip(query)] + IssueQueryParts("", state)
  {
  }

  /** Without a state the issue search string is the stripped query, when there is
      one, followed by `is:issue`. */
  lemma IssueQueryNoState(query: string)
    ensures Strip(query) != "" ==> IssueSearchQuery(query, None) == Strip(query) + " " + "is:issue"
    ensures Strip(query) == "" ==> IssueSearchQuery(query, None) == "is:issue"
  {
    assert IssueQueryParts("", None) == ["is:issue"];
    if Strip(query) != "" {
      var q := Strip(query);
      IssueQueryLeads(query, None);
      assert IssueQueryParts(query, None) == [q, "is:issue"];
      StrippedStart(query);
      IssueTextThenMarker(q);
    } else {
      IssueQueryBlank(query, None);
      IssueMarkerAlone();
    }
  }

  /** The `is:issue` marker alone is its own search string. */
  lemma IssueMarkerAlone()
    ensures SearchString(["is:issue"]) == "is:issue"
  {
    var m := "is:issue";
    assert |m| == 8 && m[0] == 'i' && m[7] == 'e';
    SearchStringOne(m);
  }

  /** A clean query text followed by the `is:issue` marker. */
  lemma IssueTextThenMarker(q: string)
    requires |q| > 0 && !IsSpace(q[0])
    ensures SearchString([q, "is:issue"]) == q + " " + "is:issue"
  {
    var m := "is:issue";
    assert |m| == 8 && m[7] == 'e';
    SearchStringTwo(q, m);
  }

  /** With a state the issue search string also ends in `state:` and the lower-cased
      state. */
  lemma IssueQueryWithState(query: string, state: string)
    requires state != "" && !IsSpace(state[|state| - 1])
    ensures Strip(query) != "" ==>
      IssueSearchQuery(query, Some(state)) == Strip(query) + " " + "is:issue" + " " + ("state:" + Lower(state))
    ensures Strip(query) == "" ==>
      IssueSearchQuery(query, Some(state)) == "is:issue" + " " + ("state:" + Lower(state))
  {
    StatePartEnds(state);
    if Strip(query) != "" {
      IssueTextWithState(query, state);
    } else {
      IssueQueryBlank(query, Some(state));
      IssueStateAlone(state);
    }
  }

  /** The parts of a search with a state and a clean query text. */
  lemma IssueTextWithState(query: string, state: string)
    requires Strip(query) != "" && state != "" && !IsSpace(state[|state| - 1])
    ensures IssueSearchQuery(query, Some(state)) == Strip(query) + " " + "is:issue" + " " + ("state:" + Lower(state))
  {
    var st := "state:" + Lower(state);
    var q := Strip(query);
    assert IssueQueryParts("", Some(state)) == ["is:issue", st];
    IssueQueryLeads(query, Some(state));
    assert IssueQueryParts(query, Some(state)) == [q, "is:issue", st];
    StrippedStart(query);
    StatePartEnds(state);
    SearchStringThree(q, "is:issue", st);
  }

  /** The marker and the state part, with no query text. */
  lemma IssueStateAlone(state: string)
    requires state != "" && !IsSpace(state[|state| - 1])
    ensures IssueSearchQuery("", Some(state)) == "is:issue" + " " + ("state:" + Lower(state))
  {
    var st := "state:" + Lower(state);
    assert IssueQueryParts("", Some(state)) == ["is:issue", st];
    StatePartEnds(state);
    SearchStringTwo("is:issue", st);
  }


  // ---------------------------------------------------------------------------
  // Walking a decoded JSON reply
  // ---------------------------------------------------------------------------

  /** `(err.get("message") or "").lower()` */
  function LoweredMessage(err: Value): (r: Outcome<string>)
    ensures r.Ok? <==> err.VDict? && (var m := Or(GetOr(err.entries, "message", VNone), VStr("")); m.VStr?)
  {
    match err
    case VDict(entries) =>
      var m := Or(GetOr(entries, "message", VNone), VStr(""));
      if m.VStr? then Ok(Lower(m.s)) else Err(NoAttribute(TypeName(m), "lower"))
    case _ => Err(NoAttribute(TypeName(err), "get"))
  }

  /** An error entry the scans can read: a dict whose message, when truthy, is text. */
  predicate WellFormedError(err: Value)
  {
    err.VDict? && var m := GetOr(err.entries, "message", VNone); !Truthy(m) || m.VStr?
  }

  /** An error entry that signals a rate limit. */
  predicate RateSignal(err: Value)
    requires WellFormedError(err)
  {
    var m := LoweredMessage(err).value;
    Contains(m, "rate limit") || Contains(m, "rate-limit") || GetOr(err.entries, "type", VNone) == VStr("RATE_LIMITED")
  }

  /** The loop over `payload["errors"]` in `_is_rate_limited`, stopping at the first
      signal; an entry it cannot read raises. */
  function RateLimitedErrors(errs: seq<Value>): Outcome<bool>
  {
    if |errs| == 0 then Ok(false)
    else match LoweredMessage(errs[0])
      case Err(e) => Err(e)
      case Ok(m) =>
        if Contains(m, "rate limit") || Contains(m, "rate-limit") then Ok(true)
        else if errs[0].VDict? && GetOr(errs[0].entries, "type", VNone) == VStr("RATE_LIMITED") then Ok(true)
        else RateLimitedErrors(errs[1..])
  }

  lemma {:induction false} RateLimitedErrorsIff(errs: seq<Value>)
    requires forall i :: 0 <= i < |errs| ==> WellFormedError(errs[i])
    ensures RateLimitedErrors(errs) == Ok(exists i :: 0 <= i < |errs| && RateSignal(errs[i]))
  {
    if |errs| > 0 {
      RateLimitedErrorsIff(errs[1..]);
      assert forall i :: 1 <= i < |errs| ==> errs[i] == errs[1..][i - 1];
    }
  }

  /** A response's headers, as `(name, value)` pairs in the order received. */
  type Headers = seq<(string, string)>

  /** The values of the headers whose name matches `name` case-insensitively. */
  function HeaderValues(headers: Headers, name: string): seq<string>
  {
    if |headers| == 0 then []
    else (if Lower(headers[0].0) == Lower(name) then [headers[0].1] else []) + HeaderValues(headers[1..], name)
  }

  /** `response.headers.get(name)`: several values are joined with ", ". */
  function HeaderGet(headers: Headers, name: string): (r: Option<string>)
    ensures r.None? <==> HeaderValues(headers, name) == []
  {
    var vs := HeaderValues(headers, name);
    if vs == [] then None else Some(Join(vs, ", "))
  }

  /** The header says no requests remain. */
  predicate NoneRemaining(headers: Headers)
  {
    var h := HeaderGet(headers, "X-RateLimit-Remaining");
    h.Some? && ParseInt(h.value) == Some(0)
  }

  /** `_is_rate_limited(response, payload)` */
  function IsRateLimited(headers: Headers, payload: Option<Value>): Outcome<bool>
  {
    if NoneRemaining(headers) then Ok(true)
    else if payload.Some? && Truthy(payload.value) then
      match payload.value
      case VDict(entries) =>
        (match Iterate(GetOr(entries, "errors", VList([])))
         case Err(e) => Err(e)
         case Ok(errs) => RateLimitedErrors(errs))
      case _ => Err(NoAttribute(TypeName(payload.value), "get"))
    else Ok(false)
  }

  /** A reply is rate limited exactly when the remaining-requests header reads as the
      integer 0 (a value `int()` rejects is ignored), or when some error entry mentions
      a rate limit in its message, in any case, or has type `RATE_LIMITED`. */
  lemma IsRateLimitedIff(headers: Headers, entries: seq<(string, Value)>, errs: seq<Value>)
    requires |entries| > 0 && GetOr(entries, "errors", VList([])) == VList(errs)
    requires forall i :: 0 <= i < |errs| ==> WellFormedError(errs[i])
    ensures IsRateLimited(headers, Some(VDict(entries)))
            == Ok(NoneRemaining(headers) || exists i :: 0 <= i < |errs| && RateSignal(errs[i]))
    ensures IsRateLimited(headers, None) == Ok(NoneRemaining(headers))
  {
    RateLimitedErrorsIff(errs);
  }

  /** The header check reads `X-RateLimit-Remaining: 0` whatever the case of its name. */
  lemma ZeroRemainingIsRateLimited(name: string)
    requires Lower(name) == Lower("X-RateLimit-Remaining")
    ensures IsRateLimited([(name, "0")], None) == Ok(true)
  {
    SingleHeader(name, "0", "X-RateLimit-Remaining");
    ParseIntRoundTrip(0);
    assert IntToDecimal(0) == "0";
    assert NoneRemaining([(name, "0")]);
  }

  /** A lone header is read back under any name equal to its own up to case. */
  lemma SingleHeader(name: string, value: string, key: string)
    requires Lower(name) == Lower(key)
    ensures HeaderGet([(name, value)], key) == Some(value)
  {
    assert [(name, value)][1..] == [];
    assert HeaderValues([(name, value)], key) == [value];
  }

  /** An error entry that signals an authentication or authorisation failure. */
  predicate AuthSignal(err: Value)
    requires WellFormedError(err)
  {
    var m := LoweredMessage(err).value;
    var t := GetOr(err.entries, "type", VNone);
    || Contains(m, "bad credentials") || Contains(m, "authentication")
    || Contains(m, "requires authentication") || Contains(m, "must have")
    || t == VStr("FORBIDDEN") || t == VStr("INSUFFICIENT_SCOPES")
  }

  /** The entry's type, when present, can be looked up in a set. */
  predicate HashableType(err: Value)
  {
    err.VDict? && var t := GetOr(err.entries, "type", VNone); !t.VList? && !t.VDict?
  }

  /** `_contains_auth_error(errors)`; testing a list or dict type against the set of
      names raises, as unhashable. */
  function ContainsAuthError(errs: seq<Value>): Outcome<bool>
  {
    if |errs| == 0 then Ok(false)
    else match LoweredMessage(errs[0])
      case Err(e) => Err(e)
      case Ok(m) =>
        if Contains(m, "bad credentials") || Contains(m, "authentication") then Ok(true)
        else if Contains(m, "requires authentication") || Contains(m, "must have") then Ok(true)
        else
          var t := if errs[0].VDict? then GetOr(errs[0].entries, "type", VNone) else VNone;
          if t.VList? || t.VDict? then Err(PyError("TypeError", "unhashable type: '" + TypeName(t) + "'"))
          else if t == VStr("FORBIDDEN") || t == VStr("INSUFFICIENT_SCOPES") then Ok(true)
          else ContainsAuthError(errs[1..])
  }

  /** Over well-formed entries whose types are not lists or dicts, the scan reports an
      authentication error exactly when some entry signals one. */
  lemma {:induction false} ContainsAuthErrorIff(errs: seq<Value>)
    requires forall i :: 0 <= i < |errs| ==> WellFormedError(errs[i]) && HashableType(errs[i])
    ensures ContainsAuthError(errs) == Ok(exists i :: 0 <= i < |errs| && AuthSignal(errs[i]))
  {
    if |errs| > 0 {
      ContainsAuthErrorStep(errs);
      ContainsAuthErrorIff(errs[1..]);
      assert forall i :: 1 <= i < |errs| ==> errs[i] == errs[1..][i - 1];
    }
  }

  /** One step of the scan: a hashable, well-formed first entry either signals an
      authentication failure or hands the decision to the rest. */
  lemma ContainsAuthErrorStep(errs: seq<Value>)
    requires |errs| > 0 && WellFormedError(errs[0]) && HashableType(errs[0])
    ensures ContainsAuthError(errs)
            == if AuthSignal(errs[0]) then Ok(true) else ContainsAuthError(errs[1..])
  {
  }

  // ---------------------------------------------------------------------------
  // _execute
  // ---------------------------------------------------------------------------

  /** What posting the query gave: a timeout, another request error (with its text),
      or a response with its status, headers and body, the body None when it is not
      valid JSON. */
  datatype Exchange =
    | TimedOut
    | RequestFailed(reason: string)
    | Received(status: int, headers: Headers, body: Option<Value>)

  function GraphQLError(message: string): PyError { PyError("GitHubGraphQLError", message) }

  const RateLimitMessage: string := "GitHub API rate limit exceeded"

  /** `str(x)` of a JSON value that can be an error entry's falsy or text message. */
  function TextOf(v: Value): string
  {
    match v
    case VStr(s) => s
    case VNone => "None"
    case VBool(b) => if b then "True" else "False"
    case VInt(i) => IntToDecimal(i)
    case VList(items) => if items == [] then "[]" else "[...]"
    case VDict(entries) => if entries == [] then "{}" else "{...}"
    case _ => TypeName(v)
  }

  /** `"; ".join(err.get("message", "Unknown error") for err in errors)`: a message that
      is not text raises. */
  function JoinMessages(errs: seq<Value>, index: nat): (r: Outcome<string>)
    decreases |errs|
  {
    if |errs| == 0 then Ok("")
    else
      var m: Outcome<Value> := match errs[0]
        case VDict(entries) => Ok(GetOr(entries, "message", VStr("Unknown error")))
        case _ => Err(NoAttribute(TypeName(errs[0]), "get"));
      match m
      case Err(e) => Err(e)
      case Ok(v) =>
        if !v.VStr? then
          Err(PyError("TypeError", "sequence item " + IntToDecimal(index) + ": expected str instance, " + TypeName(v) + " found"))
        else if |errs| == 1 then Ok(v.s)
        else
          match JoinMessages(errs[1..], index + 1)
          case Err(e) => Err(e)
          case Ok(rest) => Ok(v.s + "; " + rest)
  }

  lemma {:induction false} JoinMessagesText(errs: seq<Value>, index: nat)
    requires forall i :: 0 <= i < |errs| ==> errs[i].VDict? && GetOr(errs[i].entries, "message", VStr("Unknown error")).VStr?
    ensures JoinMessages(errs, index)
            == Ok(Join(seq(|errs|, i requires 0 <= i < |errs| => GetOr(errs[i].entries, "message", VStr("Unknown error")).s), "; "))
    decreases |errs|
  {
    if |errs| > 1 {
      JoinMessagesText(errs[1..], index + 1);
      var ms := seq(|errs|, i requires 0 <= i < |errs| => GetOr(errs[i].entries, "message", VStr("Unknown error")).s);
      assert ms[1..] == seq(|errs[1..]|, i requires 0 <= i < |errs[1..]| => GetOr(errs[1..][i].entries, "message", VStr("Unknown error")).s);
    }
  }

  /** The payload-level checks of `_execute` on a decoded JSON body. */
  function CheckPayload(headers: Headers, payload: Value): (r: Outcome<Value>)
  {
    match IsRateLimited(headers, Some(payload))
    case Err(e) => Err(e)
    case Ok(true) => Err(PyError("RateLimitError", RateLimitMessage))
    case Ok(false) =>
      match payload
      case VDict(entries) =>
        var errors := Or(GetOr(entries, "errors", VNone), VList([]));
        if Truthy(errors) then
          match Iterate(errors)
          case Err(e) => Err(e)
          case Ok(errs) =>
            match ContainsAuthError(errs)
            case Err(e) => Err(e)
            case Ok(true) =>
              (match errs[0]
               case VDict(first) => Err(PyError("AuthenticationError", TextOf(GetOr(first, "message", VStr("Authentication failed")))))
               case _ => Err(NoAttribute(TypeName(errs[0]), "get")))
            case Ok(false) =>
              match JoinMessages(errs, 0)
              case Err(e) => Err(e)
              case Ok(messages) => Err(GraphQLError("GitHub GraphQL error(s): " + messages))
        else
          var data := GetOr(entries, "data", VNone);
          if data.VNone? then Err(GraphQLError("GitHub GraphQL response missing data")) else Ok(data)
      case _ => Err(NoAttribute(TypeName(payload), "get"))
  }

  /** `_execute`: the data of a successful reply, or the error it raises. */
  function Execute(exchange: Exchange): (r: Outcome<Value>)
  {
    match exchange
    case TimedOut => Err(PyError("NetworkTimeoutError", "GitHub GraphQL request timed out"))
    case RequestFailed(reason) => Err(GraphQLError("Network error while requesting GitHub: " + reason))
    case Received(status, headers, body) =>
      if !(200 <= status < 300) then
        if status == 401 then Err(PyError("AuthenticationError", "GitHub authentication failed"))
        else if status == 403 && IsRateLimited(headers, None) == Ok(true) then Err(PyError("RateLimitError", RateLimitMessage))
        else Err(GraphQLError("GitHub HTTP error: " + IntToDecimal(status)))
      else if body.None? then Err(GraphQLError("Invalid JSON response from GitHub"))
      else CheckPayload(headers, body.value)
  }

  /** The HTTP-level classification: a timeout, a 401, a 403 with no requests
      remaining, and any other non-2xx status or request error each raise their own
      kind, and an undecodable body raises before any payload check. */
  lemma ExecuteTransportErrors(exchange: Exchange)
    ensures exchange.TimedOut? ==> Execute(exchange).Err? && Execute(exchange).error.kind == "NetworkTimeoutError"
    ensures exchange.RequestFailed? ==> Execute(exchange).Err? && Execute(exchange).error.kind == "GitHubGraphQLError"
    ensures exchange.Received? && exchange.status == 401 ==> Execute(exchange) == Err(PyError("AuthenticationError", "GitHub authentication failed"))
    ensures exchange.Received? && exchange.status == 403 ==>
              (Execute(exchange).error.kind == "RateLimitError" <==> NoneRemaining(exchange.headers))
    ensures (exchange.Received? && !(200 <= exchange.status < 300) && exchange.status != 401
              && !(exchange.status == 403 && NoneRemaining(exchange.headers)))
              ==> Execute(exchange) == Err(GraphQLError("GitHub HTTP error: " + IntToDecimal(exchange.status)))
    ensures (exchange.Received? && 200 <= exchange.status < 300 && exchange.body.None?)
              ==> Execute(exchange) == Err(GraphQLError("Invalid JSON response from GitHub"))
  {
  }

  /** A 2xx reply with a JSON body is judged by its payload. */
  lemma ExecuteChecksPayload(status: int, headers: Headers, payload: Value)
    requires 200 <= status < 300
    ensures Execute(Received(status, headers, Some(payload))) == CheckPayload(headers, payload)
  {
  }

  /** The payload-level checks on a dict whose `errors` (missing, null or a list)
      holds well-formed entries. */
  predicate WellFormedPayload(entries: seq<(string, Value)>, errs: seq<Value>)
  {
    && |entries| > 0
    && (var e := GetOr(entries, "errors", VNone); e == VList(errs) || (errs == [] && e == VNone && Lookup(entries, "errors").None?))
    && forall i :: 0 <= i < |errs| ==> WellFormedError(errs[i]) && HashableType(errs[i])
  }

  lemma WellFormedPayloadErrors(entries: seq<(string, Value)>, errs: seq<Value>)
    requires WellFormedPayload(entries, errs)
    ensures GetOr(entries, "errors", VList([])) == VList(errs)
    ensures Or(GetOr(entries, "errors", VNone), VList([])) == VList(errs)
  {
  }

  /** A rate limit is reported before any error entry is looked at. */
  lemma RateLimitComesFirst(headers: Headers, entries: seq<(string, Value)>, errs: seq<Value>)
    requires WellFormedPayload(entries, errs)
    requires NoneRemaining(headers) || exists i :: 0 <= i < |errs| && RateSignal(errs[i])
    ensures CheckPayload(headers, VDict(entries)) == Err(PyError("RateLimitError", RateLimitMessage))
  {
    WellFormedPayloadErrors(entries, errs);
    IsRateLimitedIff(headers, entries, errs);
  }

  /** Without a rate limit, an authentication error among the entries is reported
      with the first entry's message, or "Authentication failed" when it has none. */
  lemma AuthErrorReported(headers: Headers, entries: seq<(string, Value)>, errs: seq<Value>)
    requires WellFormedPayload(entries, errs)
    requires !NoneRemaining(headers) && forall i :: 0 <= i < |errs| ==> !RateSignal(errs[i])
    requires exists i :: 0 <= i < |errs| && AuthSignal(errs[i])
    ensures CheckPayload(headers, VDict(entries))
            == Err(PyError("AuthenticationError", TextOf(GetOr(errs[0].entries, "message", VStr("Authentication failed")))))
  {
    WellFormedPayloadErrors(entries, errs);
    IsRateLimitedIff(headers, entries, errs);
    ContainsAuthErrorIff(errs);
  }

  /** Other error entries are reported together, their messages joined with "; "
      ("Unknown error" for an entry without one). */
  lemma OtherErrorsReported(headers: Headers, entries: seq<(string, Value)>, errs: seq<Value>)
    requires WellFormedPayload(entries, errs) && errs != []
    requires !NoneRemaining(headers) && forall i :: 0 <= i < |errs| ==> !RateSignal(errs[i]) && !AuthSignal(errs[i])
    requires forall i :: 0 <= i < |errs| ==> GetOr(errs[i].entries, "message", VStr("Unknown error")).VStr?
    ensures CheckPayload(headers, VDict(entries))
            == Err(GraphQLError("GitHub GraphQL error(s): "
                   + Join(seq(|errs|, i requires 0 <= i < |errs| => GetOr(errs[i].entries, "message", VStr("Unknown error")).s), "; ")))
  {
    WellFormedPayloadErrors(entries, errs);
    IsRateLimitedIff(headers, entries, errs);
    ContainsAuthErrorIff(errs);
    JoinMessagesText(errs, 0);
  }

  /** A reply without errors gives its data, and an error when the data is missing or
      null. */
  lemma DataReturned(headers: Headers, entries: seq<(string, Value)>)
    requires WellFormedPayload(entries, [])
    requires !NoneRemaining(headers)
    ensures var data := GetOr(entries, "data", VNone);
            CheckPayload(headers, VDict(entries))
            == if data.VNone? then Err(GraphQLError("GitHub GraphQL response missing data")) else Ok(data)
  {
    WellFormedPayloadErrors(entries, []);
    IsRateLimitedIff(headers, entries, []);
  }

  // ---------------------------------------------------------------------------
  // Reading the data
  // ---------------------------------------------------------------------------

  /** One step into the data: `d.get(key, {})` when `orEmpty` is false, `d.get(key) or
      {}` when it is true. */
  function Descend(v: Value, key: string, orEmpty: bool): (r: Outcome<Value>)
    ensures r.Ok? <==> v.VDict?
  {
    match v
    case VDict(entries) =>
      if orEmpty then Ok(Or(GetOr(entries, key, VNone), VDict([]))) else Ok(GetOr(entries, key, VDict([])))
    case _ => Err(NoAttribute(TypeName(v), "get"))
  }

  /** `[node for node in nodes if node]` */
  function Truthful(items: seq<Value>): (r: seq<Value>)
    ensures |r| <= |items|
    ensures forall i :: 0 <= i < |r| ==> Truthy(r[i])
    ensures forall v :: v in r <==> v in items && Truthy(v)
  {
    if |items| == 0 then []
    else (if Truthy(items[0]) then [items[0]] else []) + Truthful(items[1..])
  }

  /** Filtering two lists one after the other gives the kept nodes of the first
      followed by those of the second: order and repetitions are kept. */
  lemma {:induction false} TruthfulAppend(a: seq<Value>, b: seq<Value>)
    ensures Truthful(a + b) == Truthful(a) + Truthful(b)
  {
    if |a| > 0 {
      assert (a + b)[0] == a[0] && (a + b)[1..] == a[1..] + b;
      TruthfulAppend(a[1..], b);
    } else {
      assert a + b == b;
    }
  }

  /** One node is kept exactly when it is truthy. */
  lemma TruthfulSingle(v: Value)
    ensures Truthful([v]) == if Truthy(v) then [v] else []
  {
    assert [v][1..] == [];
  }

  /** Dropping falsy nodes keeps every truthy node in its place. */
  lemma {:induction false} TruthfulKeepsTruthy(items: seq<Value>)
    requires forall i :: 0 <= i < |items| ==> Truthy(items[i])
    ensures Truthful(items) == items
  {
    if |items| > 0 {
      TruthfulKeepsTruthy(items[1..]);
    }
  }

  /** The nodes a list endpoint returns: the containers along `path` are entered in
      turn, then `container.get("nodes") or []` is iterated and its falsy nodes
      dropped. */
  function ListNodes(data: Value, path: seq<(string, bool)>): (r: Outcome<seq<Value>>)
    ensures r.Ok? ==> forall i :: 0 <= i < |r.value| ==> Truthy(r.value[i])
    decreases |path|
  {
    if |path| == 0 then
      match data
      case VDict(entries) =>
        (match Iterate(Or(GetOr(entries, "nodes", VNone), VList([])))
         case Err(e) => Err(e)
         case Ok(items) => Ok(Truthful(items)))
      case _ => Err(NoAttribute(TypeName(data), "get"))
    else
      match Descend(data, path[0].0, path[0].1)
      case Err(e) => Err(e)
      case Ok(inner) => ListNodes(inner, path[1..])
  }

  /** The paths the list endpoints follow: the search endpoints use `get(key, {})`,
      which lets a null container through; the repository endpoints use `or {}`. */
  const SearchPath: seq<(string, bool)> := [("search", false)]
  const PullRequestsPath: seq<(string, bool)> := [("repository", true), ("pullRequests", true)]
  const CommitsPath: seq<(string, bool)> := [("repository", true), ("defaultBranchRef", true), ("target", true), ("history", true)]
  const ReleasesPath: seq<(string, bool)> := [("repository", true), ("releases", true)]

  /** Along an `or {}` path, a missing or null container reads as empty and yields no
      nodes. */
  lemma {:induction false} MissingContainerIsEmpty(path: seq<(string, bool)>)
    requires forall i :: 0 <= i < |path| ==> path[i].1
    ensures ListNodes(VDict([]), path) == Ok([])
    ensures |path| > 0 ==> ListNodes(VDict([(path[0].0, VNone)]), path) == Ok([])
    decreases |path|
  {
    if |path| > 0 {
      MissingContainerIsEmpty(path[1..]);
    }
  }

  /** The search endpoints do not guard against `"search": null`: reading nodes from
      it raises. */
  lemma NullSearchRaises()
    ensures ListNodes(VDict([("search", VNone)]), SearchPath) == Err(NoAttribute("NoneType", "get"))
  {
  }

  /** Nodes come back in the order received, with the null ones dropped. */
  lemma ListedNodesInOrder(nodes: seq<Value>)
    requires forall i :: 0 <= i < |nodes| ==> Truthy(nodes[i])
    ensures ListNodes(VDict([("search", VDict([("nodes", VList(nodes + [VNone]))]))]), SearchPath) == Ok(nodes)
  {
    var items := nodes + [VNone];
    var inner := VDict([("nodes", VList(items))]);
    var data := VDict([("search", VDict([("nodes", VList(items))]))]);
    assert Descend(data, "search", false) == Ok(inner);
    assert SearchPath[0] == ("search", false) && SearchPath[1..] == [];
    assert ListNodes(data, SearchPath) == ListNodes(inner, []);
    assert ListNodes(inner, []) == Ok(Truthful(items));
    TruthfulKeepsTruthy(nodes);
    TruthfulAppendFalsy(nodes);
  }

  lemma {:induction false} TruthfulAppendFalsy(items: seq<Value>)
    ensures Truthful(items + [VNone]) == Truthful(items)
  {
    if |items| > 0 {
      assert (items + [VNone])[1..] == items[1..] + [VNone];
      TruthfulAppendFalsy(items[1..]);
    } else {
      assert ([] + [VNone])[1..] == [];
    }
  }

  /** `get_pull_requests`: the states, upper-cased, or None when none are given. */
  function PullRequestStates(states: Option<seq<string>>): (r: Option<seq<string>>)
    ensures r.Some? <==> states.Some? && states.value != []
    ensures r.Some? ==> |r.value| == |states.value| && forall i :: 0 <= i < |r.value| ==> r.value[i] == Upper(states.value[i])
  {
    if states.Some? && states.value != [] then Some(seq(|states.value|, i requires 0 <= i < |states.value| => Upper(states.value[i])))
    else None
  }

  /** The client's fixed endpoint and request headers. */
  datatype ClientSettings = ClientSettings(endpoint: string, headers: seq<(string, string)>)

  /** The constructor: an empty token is refused. */
  function NewClient(token: string): (r: Outcome<ClientSettings>)
    ensures r.Err? <==> token == ""
    ensures r.Err? ==> r.error == PyError("ValueError", "GitHub token is required")
    ensures r.Ok? ==> (r.value.endpoint == "https://api.github.com/graphql" && |r.value.headers| == 3
                       && r.value.headers[0] == ("Authorization", "Bearer " + token))
  {
    if token == "" then Err(PyError("ValueError", "GitHub token is required"))
    else Ok(ClientSettings("https://api.github.com/graphql",
                           [("Authorization", "Bearer " + token),
                            ("Accept", "application/vnd.github+json, application/vnd.github.text-match+json"),
                            ("Content-Type", "application/json")]))
  }

  /** `get_readme`: the object expression the query asks for. */
  function ReadmeExpression(path: string): (r: string)
    ensures StartsWith(r, "HEAD:") && r[5..] == path
  {
    "HEAD:" + path
  }

  /** `get_readme`: the README text, `""` when the repository, the object or its text
      is missing or empty. */
  function ReadmeText(data: Value): (r: Outcome<Value>)
  {
    match Descend(data, "repository", true)
    case Err(e) => Err(e)
    case Ok(repository) =>
      match Descend(repository, "object", true)
      case Err(e) => Err(e)
      case Ok(obj) =>
        match obj
        case VDict(entries) => Ok(Or(GetOr(entries, "text", VNone), VStr("")))
        case _ => Err(NoAttribute(TypeName(obj), "get"))
  }

  lemma ReadmeTextFound(text: string)
    ensures ReadmeText(VDict([("repository", VDict([("object", VDict([("text", VStr(text))]))]))])) == Ok(VStr(text))
    ensures ReadmeText(VDict([("repository", VNone)])) == Ok(VStr(""))
  {
  }
}
