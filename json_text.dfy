/** `json.dumps` with its default separators (", " and ": "), for the values the server
    serialises: task records, streamed results and error lines. */
module JsonText {
  import opened Text
  import opened Values

  const HexDigits: string := "0123456789abcdef"

  function Hex4(n: nat): (r: string)
    requires n < 0x1_0000
    ensures |r| == 4 && forall i :: 0 <= i < 4 ==> r[i] in HexDigits
  {
    [HexDigits[n / 4096], HexDigits[(n / 256) % 16], HexDigits[(n / 16) % 16], HexDigits[n % 16]]
  }

  predicate IsPrintableAscii(c: char)
  {
    ' ' <= c <= '~'
  }

  /** One character of a JSON string literal, escaped as `json.dumps` escapes it. With
      `asciiOnly` (`ensure_ascii=True`) every character outside ' '..'~' becomes a
      `\uXXXX` escape, characters beyond the basic plane a surrogate pair. */
  function EscapeChar(c: char, asciiOnly: bool): (r: string)
    ensures asciiOnly ==> forall i :: 0 <= i < |r| ==> IsPrintableAscii(r[i])
    ensures |r| >= 1
  {
    if c == '"' then "\\\""
    else if c == '\\' then "\\\\"
    else if c == '\n' then "\\n"
    else if c == '\r' then "\\r"
    else if c == '\t' then "\\t"
    else if c == '\U{8}' then "\\b"
    else if c == '\U{C}' then "\\f"
    else if c < ' ' then "\\u" + Hex4(c as nat)
    else if !asciiOnly || c <= '~' then [c]
    else if c as int < 0x1_0000 then "\\u" + Hex4(c as nat)
    else
      var v := c as int - 0x1_0000;
      "\\u" + Hex4(0xD800 + v / 1024) + "\\u" + Hex4(0xDC00 + v % 1024)
  }

  function EscapeString(s: string, asciiOnly: bool): (r: string)
    ensures asciiOnly ==> forall i :: 0 <= i < |r| ==> IsPrintableAscii(r[i])
  {
    if |s| == 0 then "" else EscapeChar(s[0], asciiOnly) + EscapeString(s[1..], asciiOnly)
  }

  /** A JSON string literal. */
  function Quote(s: string, asciiOnly: bool): (r: string)
    ensures |r| >= 2 && r[0] == '"' && r[|r| - 1] == '"'
    ensures asciiOnly ==> forall i :: 0 <= i < |r| ==> IsPrintableAscii(r[i])
  {
    "\"" + EscapeString(s, asciiOnly) + "\""
  }

  /** The outcome of serialising: the text, or the `TypeError` raised for a value JSON
      cannot hold. */
  datatype Dumped = Text(text: string) | Unserialisable(error: PyError)

  /** How `json.dumps` treats a value it cannot serialise: with the `default=` handler of
      the stream endpoint (which turns a datetime into its isoformat and raises
      `TypeError("Unknown type")` for anything else), or without one. */
  datatype Fallback = NoDefault | DatetimeHandler

  function Unsupported(v: Value, fallback: Fallback, asciiOnly: bool): (r: Dumped)
    requires v.VBytes? || v.VDateTime? || v.VObject?
    ensures r.Text? ==> fallback == DatetimeHandler && v.VDateTime?
  {
    match fallback
    case DatetimeHandler =>
      if v.VDateTime? then Text(Quote(v.iso, asciiOnly)) else Unserialisable(PyError("TypeError", "Unknown type"))
    case NoDefault =>
      Unserialisable(PyError("TypeError", "Object of type " + TypeName(v) + " is not JSON serializable"))
  }

  /** The first failure among the parts, or their texts joined by ", ". */
  function JoinParts(parts: seq<Dumped>): (r: Dumped)
    ensures r.Unserialisable? <==> exists i :: 0 <= i < |parts| && parts[i].Unserialisable?
  {
    if |parts| == 0 then Text("")
    else if parts[0].Unserialisable? then parts[0]
    else
      match JoinParts(parts[1..])
      case Unserialisable(e) => Unserialisable(e)
      case Text(rest) =>
        assert forall i :: 1 <= i < |parts| ==> parts[i] == parts[1..][i - 1];
        Text(if |parts| == 1 then parts[0].text else parts[0].text + ", " + rest)
  }

  /** `json.dumps(v)`. */
  function Dumps(v: Value, fallback: Fallback, asciiOnly: bool): (r: Dumped)
    decreases v
  {
    match v
    case VNone => Text("null")
    case VBool(b) => Text(if b then "true" else "false")
    case VInt(i) => Text(IntToDecimal(i))
    case VStr(s) => Text(Quote(s, asciiOnly))
    case VList(items) =>
      var parts := seq(|items|, i requires 0 <= i < |items| => Dumps(items[i], fallback, asciiOnly));
      var joined := JoinParts(parts);
      if joined.Text? then Text("[" + joined.text + "]") else joined
    case VDict(entries) =>
      var parts := seq(|entries|, i requires 0 <= i < |entries| =>
                         DumpEntry(entries[i].0, Dumps(entries[i].1, fallback, asciiOnly), asciiOnly));
      var joined := JoinParts(parts);
      if joined.Text? then Text("{" + joined.text + "}") else joined
    case _ => Unsupported(v, fallback, asciiOnly)
  }

  function DumpEntry(k: string, value: Dumped, asciiOnly: bool): Dumped
  {
    match value
    case Text(t) => Text(Quote(k, asciiOnly) + ": " + t)
    case Unserialisable(e) => Unserialisable(e)
  }

  predicate AllPrintableAscii(s: string)
  {
    forall i :: 0 <= i < |s| ==> IsPrintableAscii(s[i])
  }

  lemma {:induction false} JoinPartsAscii(parts: seq<Dumped>)
    requires forall i :: 0 <= i < |parts| && parts[i].Text? ==> AllPrintableAscii(parts[i].text)
    ensures JoinParts(parts).Text? ==> AllPrintableAscii(JoinParts(parts).text)
  {
    if |parts| > 0 && parts[0].Text? {
      JoinPartsAscii(parts[1..]);
    }
  }

  /** With `ensure_ascii=True` the serialised text is printable ASCII only. */
  lemma {:induction false} DumpsAscii(v: Value, fallback: Fallback)
    ensures Dumps(v, fallback, true).Text? ==> AllPrintableAscii(Dumps(v, fallback, true).text)
    decreases v
  {
    match v
    case VInt(i) => NatDigitsAscii(i);
    case VList(items) =>
      var parts := seq(|items|, i requires 0 <= i < |items| => Dumps(items[i], fallback, true));
      forall i | 0 <= i < |items| ensures parts[i].Text? ==> AllPrintableAscii(parts[i].text) {
        DumpsAscii(items[i], fallback);
      }
      JoinPartsAscii(parts);
    case VDict(entries) =>
      var parts := seq(|entries|, i requires 0 <= i < |entries| =>
                         DumpEntry(entries[i].0, Dumps(entries[i].1, fallback, true), true));
      forall i | 0 <= i < |entries| ensures parts[i].Text? ==> AllPrintableAscii(parts[i].text) {
        DumpsAscii(entries[i].1, fallback);
      }
      JoinPartsAscii(parts);
    case _ =>
  }

  lemma NatDigitsAscii(i: int)
    ensures AllPrintableAscii(IntToDecimal(i))
  {
    if i < 0 {
      assert IntToDecimal(i) == "-" + NatToDecimal(-i);
    }
  }

  /** `json.dumps(list_of_str)`, e.g. the `url` field of a task record. */
  function DumpStrings(xs: seq<string>): (r: string)
    ensures |r| >= 2 && r[0] == '[' && r[|r| - 1] == ']'
    ensures AllPrintableAscii(r)
  {
    var v := VList(seq(|xs|, i requires 0 <= i < |xs| => VStr(xs[i])));
    var d := Dumps(v, NoDefault, true);
    DumpsAscii(v, NoDefault);
    StringsSerialisable(xs);
    d.text
  }

  lemma StringsSerialisable(xs: seq<string>)
    ensures var v := VList(seq(|xs|, i requires 0 <= i < |xs| => VStr(xs[i])));
            var d := Dumps(v, NoDefault, true);
            d.Text? && |d.text| >= 2 && d.text[0] == '[' && d.text[|d.text| - 1] == ']'
  {
    var items := seq(|xs|, i requires 0 <= i < |xs| => VStr(xs[i]));
    var parts := seq(|items|, i requires 0 <= i < |items| => Dumps(items[i], NoDefault, true));
    assert forall i :: 0 <= i < |parts| ==> parts[i].Text?;
  }
  /** A character `json.dumps` copies unchanged into a string literal. */
  predicate Plain(c: char)
  {
    IsPrintableAscii(c) && c != '"' && c != '\\'
  }

  lemma {:induction false} EscapePlain(s: string, asciiOnly: bool)
    requires forall i :: 0 <= i < |s| ==> Plain(s[i])
    ensures EscapeString(s, asciiOnly) == s
  {
    if |s| > 0 {
      EscapePlain(s[1..], asciiOnly);
      assert s == [s[0]] + s[1..];
    }
  }

  /** The text of a serialised non-empty dict begins with its first key. */
  lemma DumpsDictPrefix(entries: seq<(string, Value)>, fallback: Fallback, asciiOnly: bool)
    requires |entries| > 0 && Dumps(VDict(entries), fallback, asciiOnly).Text?
    ensures StartsWith(Dumps(VDict(entries), fallback, asciiOnly).text, "{" + Quote(entries[0].0, asciiOnly) + ": ")
  {
    var parts := seq(|entries|, i requires 0 <= i < |entries| =>
                       DumpEntry(entries[i].0, Dumps(entries[i].1, fallback, asciiOnly), asciiOnly));
    var joined := JoinParts(parts);
    assert joined.Text?;
    assert parts[0].Text?;
    var p := Quote(entries[0].0, asciiOnly) + ": ";
    assert StartsWith(parts[0].text, p);
    assert StartsWith(joined.text, parts[0].text);
    assert Dumps(VDict(entries), fallback, asciiOnly).text == "{" + joined.text + "}";
  }
}
