/** component/crawl4ai/html_parser/search/bing_html_parser.py, `decode_bing_url`: a Bing
    result link carries the target in its `u` query parameter as "a1" followed by the
    base64 of the target's UTF-8 bytes. The query is read as `urllib.parse.urlparse`
    and `parse_qs` read it, the value decoded as `base64.b64decode` and
    `bytes.decode('utf-8')` decode it; every failure gives back the link unchanged. */
module BingUrl {
  import opened Text
  import opened Values
  import Base64
  import Utf8

  /* ---------------- urlsplit ---------------- */

  /** The C0 controls and space, stripped from the front of a URL. */
  predicate IsC0OrSpace(c: char)
  {
    c <= ' '
  }

  function LStripC0(s: string): (r: string)
    ensures |r| <= |s| && r == s[|s| - |r|..]
    ensures r == [] || !IsC0OrSpace(r[0])
    decreases |s|
  {
    if |s| > 0 && IsC0OrSpace(s[0]) then LStripC0(s[1..]) else s
  }

  /** Tab, carriage return and line feed, removed from anywhere in a URL. */
  predicate IsUnsafeUrlChar(c: char)
  {
    c == '\t' || c == '\r' || c == '\n'
  }

  function RemoveUnsafe(s: string): (r: string)
    ensures forall i :: 0 <= i < |r| ==> !IsUnsafeUrlChar(r[i])
    ensures |r| <= |s|
  {
    if |s| == 0 then ""
    else if IsUnsafeUrlChar(s[0]) then RemoveUnsafe(s[1..])
    else [s[0]] + RemoveUnsafe(s[1..])
  }

  predicate IsAsciiLetter(c: char)
  {
    'a' <= c <= 'z' || 'A' <= c <= 'Z'
  }

  predicate IsSchemeChar(c: char)
  {
    IsAsciiLetter(c) || '0' <= c <= '9' || c == '+' || c == '-' || c == '.'
  }

  /** The URL after its scheme: the text before the first ':' is a scheme when it is
      non-empty, starts with a letter and holds only scheme characters. */
  function AfterScheme(url: string): (r: string)
    ensures |r| <= |url|
  {
    match IndexOf(url, ":")
    case None => url
    case Some(i) =>
      if i > 0 && IsAsciiLetter(url[0]) && forall k :: 0 <= k < i ==> IsSchemeChar(url[k]) then url[i + 1..]
      else url
  }

  /** Where the network location ends: at the first '/', '?' or '#'. */
  function NetlocLength(s: string): (n: nat)
    ensures n <= |s|
    ensures forall k :: 0 <= k < n ==> s[k] != '/' && s[k] != '?' && s[k] != '#'
    ensures n < |s| ==> s[n] == '/' || s[n] == '?' || s[n] == '#'
  {
    if |s| == 0 || s[0] == '/' || s[0] == '?' || s[0] == '#' then 0 else 1 + NetlocLength(s[1..])
  }

  /** `urlsplit(url).query`; None for the ValueError of a network location with one
      bracket but not the other. */
  function UrlQuery(url: string): (r: Option<string>)
    ensures r.Some? ==> !ContainsChar(r.value, '#')
  {
    var cleaned := RemoveUnsafe(LStripC0(url));
    var rest := AfterScheme(cleaned);
    var hasNetloc := StartsWith(rest, "//");
    var netloc := if hasNetloc then rest[2..2 + NetlocLength(rest[2..])] else "";
    var path := if hasNetloc then rest[2 + |netloc|..] else rest;
    if ContainsChar(netloc, '[') != ContainsChar(netloc, ']') then None
    else
      var beforeFragment := BeforeFirst(path, "#");
      BeforeFirstCharFree(path, '#');
      if ContainsChar(beforeFragment, '?') then
        var q := AfterFirst(beforeFragment, "?");
        QueryHasNoFragment(beforeFragment, q);
        Some(q)
      else Some("")
  }

  lemma QueryHasNoFragment(s: string, q: string)
    requires !ContainsChar(s, '#') && q == AfterFirst(s, "?")
    ensures !ContainsChar(q, '#')
  {
    match IndexOf(s, "?")
    case None =>
    case Some(i) =>
      assert forall k :: 0 <= k < |q| ==> q[k] == s[i + 1 + k];
  }

  /* ---------------- unquote ---------------- */

  predicate IsAsciiChar(c: char)
  {
    c as int < 128
  }

  function HexValue(c: char): (r: Option<nat>)
    ensures r.Some? ==> r.value < 16
  {
    if '0' <= c <= '9' then Some(c as int - '0' as int)
    else if 'a' <= c <= 'f' then Some(c as int - 'a' as int + 10)
    else if 'A' <= c <= 'F' then Some(c as int - 'A' as int + 10)
    else None
  }

  /** `unquote_to_bytes` of a run of ASCII characters: "%XY" with two hex digits is the
      byte XY, every other character its own byte. */
  function PercentBytes(s: string): (r: seq<byte>)
    requires forall i :: 0 <= i < |s| ==> IsAsciiChar(s[i])
    decreases |s|
  {
    if |s| == 0 then []
    else if s[0] == '%' && |s| >= 3 && HexValue(s[1]).Some? && HexValue(s[2]).Some? then
      [(HexValue(s[1]).value * 16 + HexValue(s[2]).value) as byte] + PercentBytes(s[3..])
    else
      assert IsAsciiChar(s[0]);
      [s[0] as int as byte] + PercentBytes(s[1..])
  }

  /** The length of the run of ASCII characters `s` starts with. */
  function AsciiRunLength(s: string): (k: nat)
    ensures k <= |s|
    ensures forall i :: 0 <= i < k ==> IsAsciiChar(s[i])
    ensures k < |s| ==> !IsAsciiChar(s[k])
  {
    if |s| == 0 || !IsAsciiChar(s[0]) then 0 else 1 + AsciiRunLength(s[1..])
  }

  /** Each maximal ASCII run is percent-decoded to bytes and read as UTF-8 with
      replacement; other characters are kept. */
  function UnquoteRuns(s: string): string
    decreases |s|
  {
    if |s| == 0 then ""
    else if !IsAsciiChar(s[0]) then [s[0]] + UnquoteRuns(s[1..])
    else
      var k := AsciiRunLength(s);
      Utf8.DecodeReplace(PercentBytes(s[..k])) + UnquoteRuns(s[k..])
  }

  /** `urllib.parse.unquote(s)` with UTF-8 and `errors='replace'`. */
  function Unquote(s: string): (r: string)
    ensures !ContainsChar(s, '%') ==> r == s
  {
    if ContainsChar(s, '%') then UnquoteRuns(s) else s
  }

  /** The upper-case hex digit of a value below 16. */
  function HexDigit(n: nat): (c: char)
    requires n < 16
    ensures IsAsciiChar(c) && HexValue(c) == Some(n)
  {
    if n < 10 then ('0' as int + n) as char else ('A' as int + n - 10) as char
  }

  /** Every character of an ASCII text written as "%XY". */
  function PercentEncode(s: string): (r: string)
    requires forall i :: 0 <= i < |s| ==> IsAsciiChar(s[i])
    ensures |r| == 3 * |s|
    ensures forall i :: 0 <= i < |r| ==> IsAsciiChar(r[i])
  {
    if |s| == 0 then ""
    else
      assert IsAsciiChar(s[0]);
      ['%', HexDigit(s[0] as int / 16), HexDigit(s[0] as int % 16)] + PercentEncode(s[1..])
  }

  function AsciiBytes(s: string): (b: seq<byte>)
    requires forall i :: 0 <= i < |s| ==> IsAsciiChar(s[i])
    ensures Utf8.AllAsciiBytes(b) && Utf8.AsciiChars(b) == s
  {
    var b := seq(|s|, i requires 0 <= i < |s| => assert IsAsciiChar(s[i]); s[i] as int as byte);
    forall i | 0 <= i < |b| ensures b[i] < 0x80 {
      assert IsAsciiChar(s[i]);
    }
    assert Utf8.AsciiChars(b) == s;
    b
  }

  lemma {:induction false} PercentBytesOfEncoded(s: string)
    requires forall i :: 0 <= i < |s| ==> IsAsciiChar(s[i])
    ensures PercentBytes(PercentEncode(s)) == AsciiBytes(s)
  {
    if |s| > 0 {
      var e := PercentEncode(s);
      assert IsAsciiChar(s[0]);
      var hi := HexDigit(s[0] as int / 16);
      var lo := HexDigit(s[0] as int % 16);
      assert e[0] == '%' && e[1] == hi && e[2] == lo;
      assert e[3..] == PercentEncode(s[1..]);
      PercentBytesOfEncoded(s[1..]);
      assert AsciiBytes(s) == [s[0] as int as byte] + AsciiBytes(s[1..]);
    }
  }

  /** `unquote(quote(s))` gives `s` back for ASCII text quoted character by character. */
  lemma UnquotePercentEncoded(s: string)
    requires forall i :: 0 <= i < |s| ==> IsAsciiChar(s[i])
    ensures Unquote(PercentEncode(s)) == s
  {
    if |s| > 0 {
      var e := PercentEncode(s);
      UnquoteAsciiRun(e);
      PercentBytesOfEncoded(s);
      AsciiBytesDecode(s);
    }
  }

  /** A text of ASCII characters with a '%' in front is one run: it unquotes to the
      replacing decode of its percent-decoded bytes. */
  lemma UnquoteAsciiRun(e: string)
    requires |e| > 0 && e[0] == '%'
    requires forall i :: 0 <= i < |e| ==> IsAsciiChar(e[i])
    ensures Unquote(e) == Utf8.DecodeReplace(PercentBytes(e))
  {
    assert ContainsChar(e, '%') by { assert e[0] == '%'; }
    var k := AsciiRunLength(e);
    assert k == |e|;
    assert e[..k] == e && e[k..] == "";
    assert IsAsciiChar(e[0]);
    assert UnquoteRuns(e) == Utf8.DecodeReplace(PercentBytes(e[..k])) + UnquoteRuns(e[k..]);
  }

  /** The bytes of an ASCII text decode back to it, also with replacement. */
  lemma AsciiBytesDecode(s: string)
    requires forall i :: 0 <= i < |s| ==> IsAsciiChar(s[i])
    ensures Utf8.DecodeReplace(AsciiBytes(s)) == s
  {
    var b := AsciiBytes(s);
    Utf8.AsciiDecodes(b);
    Utf8.ReplaceAgreesWithStrict(b);
  }

  /* ---------------- parse_qs ---------------- */

  function PlusToSpace(s: string): (r: string)
    ensures |r| == |s|
    ensures forall i :: 0 <= i < |s| ==> r[i] == if s[i] == '+' then ' ' else s[i]
  {
    seq(|s|, i requires 0 <= i < |s| => if s[i] == '+' then ' ' else s[i])
  }

  /** The pairs of pieces "name=value" with a non-empty value, decoded; other pieces are
      dropped (no `keep_blank_values`, no `strict_parsing`). */
  function Pairs(pieces: seq<string>): (r: seq<(string, string)>)
    ensures |r| <= |pieces|
  {
    if |pieces| == 0 then []
    else
      var p := pieces[0];
      match IndexOf(p, "=")
      case None => Pairs(pieces[1..])
      case Some(i) =>
        if i + 1 == |p| then Pairs(pieces[1..])
        else [(Unquote(PlusToSpace(p[..i])), Unquote(PlusToSpace(p[i + 1..])))] + Pairs(pieces[1..])
  }

  /** `parse_qsl(qs)`: pieces separated by '&'. */
  function ParseQsl(qs: string): seq<(string, string)>
  {
    Pairs(SplitOn(qs, '&'))
  }

  /** `parse_qs(qs).get(name)[0]`: the first value given to `name`. */
  function FirstValue(pairs: seq<(string, string)>, name: string): (r: Option<string>)
    ensures r.Some? <==> exists i :: 0 <= i < |pairs| && pairs[i].0 == name
    ensures r.Some? ==> exists i :: 0 <= i < |pairs| && pairs[i] == (name, r.value) &&
                                    forall j :: 0 <= j < i ==> pairs[j].0 != name
  {
    if |pairs| == 0 then None
    else if pairs[0].0 == name then Some(pairs[0].1)
    else
      var r := FirstValue(pairs[1..], name);
      assert forall i :: 1 <= i < |pairs| ==> pairs[i] == pairs[1..][i - 1];
      if r.Some? then
        var i :| 0 <= i < |pairs[1..]| && pairs[1..][i] == (name, r.value) &&
                 forall j :: 0 <= j < i ==> pairs[1..][j].0 != name;
        assert pairs[i + 1] == (name, r.value);
        r
      else r
  }

  /** A query of one parameter, with no characters that parsing would change, reads
      back as that parameter. */
  lemma ParseSingleParameter(name: string, value: string)
    requires value != ""
    requires !ContainsChar(name, '=') && !ContainsChar(name, '&') && !ContainsChar(name, '+') && !ContainsChar(name, '%')
    requires !ContainsChar(value, '&') && !ContainsChar(value, '+') && !ContainsChar(value, '%')
    ensures ParseQsl(name + "=" + value) == [(name, value)]
  {
    var qs := name + "=" + value;
    assert !ContainsChar(qs, '&') by {
      forall k | 0 <= k < |qs| ensures qs[k] != '&' {
        if k < |name| { assert qs[k] == name[k]; }
        else if k > |name| { assert qs[k] == value[k - |name| - 1]; }
      }
    }
    BeforeFirstCharFree(qs, '&');
    assert SplitOn(qs, '&') == [qs];
    assert OccursAt(qs, "=", |name|);
    IndexOfFirst(qs, "=", |name|);
    assert qs[..|name|] == name;
    assert qs[|name| + 1..] == value;
    assert PlusToSpace(name) == name;
    assert PlusToSpace(value) == value;
  }

  /* ---------------- decode_bing_url ---------------- */

  /** What follows the query lookup: drop the two-character prefix, base64-decode,
      read as UTF-8, and accept only a text starting with "http". */
  function DecodeTarget(encoded: string): (r: Option<string>)
    ensures r.Some? ==> StartsWith(r.value, "http")
  {
    var base64Part := if |encoded| >= 2 then encoded[2..] else "";
    match Base64.Decode(base64Part)
    case None => None
    case Some(bytes) =>
      match Utf8.DecodeStrict(bytes)
      case None => None
      case Some(text) => if StartsWith(text, "http") then Some(text) else None
  }

  /** `decode_bing_url` once the query has been parsed into `pairs`: the first `u`
      value, when non-empty and decodable, gives the target; anything else the link. */
  function DecodeFromPairs(bingUrl: string, pairs: seq<(string, string)>): (r: string)
    ensures r == bingUrl || StartsWith(r, "http")
  {
    match FirstValue(pairs, "u")
    case None => bingUrl
    case Some(encoded) =>
      if encoded == "" then bingUrl
      else
        match DecodeTarget(encoded)
        case None => bingUrl
        case Some(target) => target
  }

  /** `decode_bing_url`: the target of a Bing link, or the link itself. */
  function DecodeBingUrl(bingUrl: string): (r: string)
    ensures r == bingUrl || StartsWith(r, "http")
  {
    match UrlQuery(bingUrl)
    case None => bingUrl
    case Some(q) => DecodeFromPairs(bingUrl, ParseQsl(q))
  }

  /** A `u` value made as Bing makes it, "a1" and the base64 of an ASCII target that
      starts with "http", decodes to the target. */
  lemma DecodeTargetRoundTrip(prefix: string, target: string)
    requires |prefix| == 2
    requires forall i :: 0 <= i < |target| ==> IsAsciiChar(target[i])
    requires StartsWith(target, "http")
    ensures DecodeTarget(prefix + Base64.Encode(AsciiBytes(target))) == Some(target)
  {
    var b := AsciiBytes(target);
    var encoded := prefix + Base64.Encode(b);
    assert encoded[2..] == Base64.Encode(b);
    Base64.RoundTrip(b);
    Utf8.AsciiDecodes(b);
  }

  /** A link whose query gives `u` that value decodes to the value's target, and to
      itself when the value does not decode. */
  lemma DecodeBingUrlUsesFirstU(bingUrl: string, q: string, encoded: string)
    requires UrlQuery(bingUrl) == Some(q)
    requires FirstValue(ParseQsl(q), "u") == Some(encoded) && encoded != ""
    ensures DecodeTarget(encoded).Some? ==> DecodeBingUrl(bingUrl) == DecodeTarget(encoded).value
    ensures DecodeTarget(encoded).None? ==> DecodeBingUrl(bingUrl) == bingUrl
  {
    DecodeThroughPairs(bingUrl);
    FirstUPair(ParseQsl(q), bingUrl, encoded);
  }

  /** Pairs whose first `u` value is `encoded` decode to its target, or to the link. */
  lemma FirstUPair(pairs: seq<(string, string)>, bingUrl: string, encoded: string)
    requires FirstValue(pairs, "u") == Some(encoded) && encoded != ""
    ensures DecodeFromPairs(bingUrl, pairs)
            == if DecodeTarget(encoded).Some? then DecodeTarget(encoded).value else bingUrl
  {
  }

  /** A link without a `u` parameter is returned as it is. */
  lemma NoTargetKeepsLink(bingUrl: string)
    requires UrlQuery(bingUrl).Some?
    requires forall i :: 0 <= i < |ParseQsl(UrlQuery(bingUrl).value)| ==> ParseQsl(UrlQuery(bingUrl).value)[i].0 != "u"
    ensures DecodeBingUrl(bingUrl) == bingUrl
  {
    DecodeThroughPairs(bingUrl);
    NoUPair(ParseQsl(UrlQuery(bingUrl).value), bingUrl);
  }

  /** A link with a query is decoded from that query's pairs. */
  lemma DecodeThroughPairs(bingUrl: string)
    requires UrlQuery(bingUrl).Some?
    ensures DecodeBingUrl(bingUrl) == DecodeFromPairs(bingUrl, ParseQsl(UrlQuery(bingUrl).value))
  {
  }

  /** Pairs without a `u` name leave the link as it is. */
  lemma NoUPair(pairs: seq<(string, string)>, bingUrl: string)
    requires forall i :: 0 <= i < |pairs| ==> pairs[i].0 != "u"
    ensures DecodeFromPairs(bingUrl, pairs) == bingUrl
  {
    assert FirstValue(pairs, "u").None?;
  }
}
