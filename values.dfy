/** The Python values the server passes around: dicts from `model_dump()`, JSON
    payloads, query results. A dict keeps its entries in insertion order, as Python's
    does, so that serialising it gives the same text. */
module Values {
  import opened Text

  newtype byte = x: int | 0 <= x < 256

  datatype Value =
    | VNone
    | VBool(b: bool)
    | VInt(i: int)
    | VStr(s: string)
    | VBytes(bytes: seq<byte>)
    | VList(items: seq<Value>)
    | VDict(entries: seq<(string, Value)>)
    | VDateTime(iso: string)     // a `datetime`, by its `isoformat()`
    | VObject(typeName: string)  // any other object, by the name of its type

  /** A raised Python exception: the name of its class and `str(exc)`. */
  datatype PyError = PyError(kind: string, message: string)

  /** A value, or the exception raised instead of producing it. */
  datatype Outcome<T> = Ok(value: T) | Err(error: PyError)

  /** `KeyError(k)`, whose `str` is the quoted key. */
  function KeyError(k: string): PyError
  {
    PyError("KeyError", "'" + k + "'")
  }

  /** `d.get(k)`: the value of the first entry with key `k`. */
  function Lookup(entries: seq<(string, Value)>, k: string): (r: Option<Value>)
    ensures r.Some? <==> exists i :: 0 <= i < |entries| && entries[i].0 == k
    ensures r.Some? ==> exists i :: 0 <= i < |entries| && entries[i] == (k, r.value)
  {
    if |entries| == 0 then None
    else if entries[0].0 == k then Some(entries[0].1)
    else
      var r := Lookup(entries[1..], k);
      assert forall i :: 1 <= i < |entries| ==> entries[i] == entries[1..][i - 1];
      if r.Some? then
        var i :| 0 <= i < |entries[1..]| && entries[1..][i] == (k, r.value);
        assert entries[i + 1] == (k, r.value);
        r
      else r
  }

  /** The entry found is the first with the key. */
  lemma {:induction false} LookupFirst(entries: seq<(string, Value)>, i: nat, k: string)
    requires i < |entries| && entries[i].0 == k
    requires forall j :: 0 <= j < i ==> entries[j].0 != k
    ensures Lookup(entries, k) == Some(entries[i].1)
  {
    if i > 0 {
      LookupFirst(entries[1..], i - 1, k);
    }
  }
  /** A key is found at position `i` when every key before it starts with another
      letter. */
  lemma LookupPastHeads(r: seq<(string, Value)>, i: nat, k: string)
    requires i < |r| && r[i].0 == k && |k| > 0
    requires forall j :: 0 <= j < i ==> |r[j].0| > 0 && r[j].0[0] != k[0]
    ensures Lookup(r, k) == Some(r[i].1)
  {
    LookupFirst(r, i, k);
  }


  /** An entry put in front answers a lookup of its own key. */
  lemma LookupHead(e: (string, Value), rest: seq<(string, Value)>)
    ensures Lookup([e] + rest, e.0) == Some(e.1)
  {
  }

  /** An entry put in front whose key starts with another letter leaves the lookup to
      the entries behind it. */
  lemma LookupSkipHead(e: (string, Value), rest: seq<(string, Value)>, k: string)
    requires |e.0| > 0 && |k| > 0 && e.0[0] != k[0]
    ensures Lookup([e] + rest, k) == Lookup(rest, k)
  {
    assert ([e] + rest)[1..] == rest;
  }

  /** Looking up in appended entries finds the first part's entry first. */
  lemma {:induction false} LookupAppend(a: seq<(string, Value)>, b: seq<(string, Value)>, k: string)
    ensures Lookup(a + b, k) == if Lookup(a, k).Some? then Lookup(a, k) else Lookup(b, k)
  {
    if |a| > 0 {
      assert (a + b)[1..] == a[1..] + b;
      LookupAppend(a[1..], b, k);
    } else {
      assert a + b == b;
    }
  }

  /** `d.get(k, default)` */
  function GetOr(entries: seq<(string, Value)>, k: string, default: Value): (r: Value)
    ensures Lookup(entries, k).None? ==> r == default
    ensures Lookup(entries, k).Some? ==> r == Lookup(entries, k).value
  {
    match Lookup(entries, k)
    case Some(v) => v
    case None => default
  }

  /** `d[k] = v`: an existing key keeps its position, a new key goes last. */
  function Put(entries: seq<(string, Value)>, k: string, v: Value): (r: seq<(string, Value)>)
    ensures Lookup(r, k) == Some(v)
    ensures forall other :: other != k ==> Lookup(r, other) == Lookup(entries, other)
    ensures forall i :: 0 <= i < |r| ==> r[i].0 == k || r[i] in entries
  {
    if |entries| == 0 then [(k, v)]
    else if entries[0].0 == k then [(k, v)] + entries[1..]
    else
      var rest := Put(entries[1..], k, v);
      assert ([entries[0]] + rest)[1..] == rest;
      [entries[0]] + rest
  }

  /** Python truthiness, `bool(v)`. */
  predicate Truthy(v: Value)
  {
    match v
    case VNone => false
    case VBool(b) => b
    case VInt(i) => i != 0
    case VStr(s) => s != ""
    case VBytes(b) => b != []
    case VList(items) => items != []
    case VDict(entries) => entries != []
    case VDateTime(_) => true
    case VObject(_) => true
  }

  /** `x or default` */
  function Or(v: Value, default: Value): (r: Value)
    ensures Truthy(v) ==> r == v
    ensures !Truthy(v) ==> r == default
  {
    if Truthy(v) then v else default
  }

  /** The name `type(v).__name__` reports. */
  function TypeName(v: Value): string
  {
    match v
    case VNone => "NoneType"
    case VBool(_) => "bool"
    case VInt(_) => "int"
    case VStr(_) => "str"
    case VBytes(_) => "bytes"
    case VList(_) => "list"
    case VDict(_) => "dict"
    case VDateTime(_) => "datetime"
    case VObject(t) => t
  }

  /** The `AttributeError` an attribute read on an object without it raises. */
  function NoAttribute(typeName: string, attribute: string): PyError
  {
    PyError("AttributeError", "'" + typeName + "' object has no attribute '" + attribute + "'")
  }

  /** `item[key]` on a value decoded from JSON. */
  function Subscript(v: Value, key: string): (r: Outcome<Value>)
    ensures r.Ok? <==> v.VDict? && Lookup(v.entries, key).Some?
    ensures r.Ok? ==> r.value == Lookup(v.entries, key).value
    ensures v.VDict? && r.Err? ==> r.error == KeyError(key)
  {
    match v
    case VDict(entries) =>
      (match Lookup(entries, key)
       case Some(x) => Ok(x)
       case None => Err(KeyError(key)))
    case VList(_) => Err(PyError("TypeError", "list indices must be integers or slices, not str"))
    case VStr(_) => Err(PyError("TypeError", "string indices must be integers, not 'str'"))
    case VBytes(_) => Err(PyError("TypeError", "byte indices must be integers or slices, not str"))
    case _ => Err(PyError("TypeError", "'" + TypeName(v) + "' object is not subscriptable"))
  }

  /** `for x in v`: the items a JSON value yields when iterated (a dict yields its keys,
      a string its characters), or the `TypeError` for a value that is not iterable. */
  function Iterate(v: Value): (r: Outcome<seq<Value>>)
    ensures v.VList? ==> r == Ok(v.items)
    ensures (v.VNone? || v.VBool? || v.VInt?) ==> r.Err? && r.error.kind == "TypeError"
  {
    match v
    case VList(items) => Ok(items)
    case VDict(entries) => Ok(seq(|entries|, i requires 0 <= i < |entries| => VStr(entries[i].0)))
    case VStr(s) => Ok(seq(|s|, i requires 0 <= i < |s| => VStr([s[i]])))
    case VBytes(b) => Ok(seq(|b|, i requires 0 <= i < |b| => VInt(b[i] as int)))
    case _ => Err(PyError("TypeError", "'" + TypeName(v) + "' object is not iterable"))
  }

  // ---------------------------------------------------------------------------
  // `str` and `repr`
  // ---------------------------------------------------------------------------

  /** `\xhh` with two lower-case hexadecimal digits. */
  function HexEscape(n: nat): string
    requires n < 256
  {
    var digits := "0123456789abcdef";
    ['\\', 'x', digits[n / 16], digits[n % 16]]
  }

  /** The quote `repr` puts around a text: a double quote when the text holds a single
      quote and no double quote, a single quote otherwise. */
  function QuoteFor(s: string): char
  {
    if ContainsChar(s, '\'') && !ContainsChar(s, '"') then '"' else '\''
  }

  /** One character of a string literal as `repr` writes it. */
  function ReprChar(c: char, quote: char): string
  {
    if c == quote || c == '\\' then ['\\', c]
    else if c == '\t' then "\\t"
    else if c == '\n' then "\\n"
    else if c == '\r' then "\\r"
    else if c < ' ' || c == '\U{7F}' then HexEscape(c as nat)
    else [c]
  }

  function ReprChars(s: string, quote: char): string
  {
    if s == [] then "" else ReprChar(s[0], quote) + ReprChars(s[1..], quote)
  }

  /** One byte of a bytes literal as `repr` writes it. */
  function ReprByte(b: byte, quote: char): string
  {
    if b as int == 92 || b as int == quote as int then ['\\', b as int as char]
    else if b == 9 then "\\t"
    else if b == 10 then "\\n"
    else if b == 13 then "\\r"
    else if b < 32 || b >= 127 then HexEscape(b as nat)
    else [b as int as char]
  }

  function ReprBytes(bs: seq<byte>, quote: char): string
  {
    if bs == [] then "" else ReprByte(bs[0], quote) + ReprBytes(bs[1..], quote)
  }

  /** The characters a bytes value stands for, byte by byte. */
  function Latin1(bs: seq<byte>): string
  {
    seq(|bs|, i requires 0 <= i < |bs| => bs[i] as int as char)
  }

  /** `repr` of a text. */
  function ReprText(s: string): string
  {
    var q := QuoteFor(s);
    [q] + ReprChars(s, q) + [q]
  }

  /** `str` of a datetime: its ISO form with a space between date and time. */
  function IsoText(iso: string): string
  {
    if |iso| > 10 && iso[10] == 'T' then iso[..10] + " " + iso[11..] else iso
  }

  /** `repr(v)`; a datetime or other object inside a container is written by its
      `str` form or type name. */
  function Repr(v: Value): string
    decreases v, 1
  {
    match v
    case VNone => "None"
    case VBool(b) => if b then "True" else "False"
    case VInt(i) => IntToDecimal(i)
    case VStr(s) => ReprText(s)
    case VBytes(bs) => var q := QuoteFor(Latin1(bs)); "b" + [q] + ReprBytes(bs, q) + [q]
    case VList(items) => "[" + ReprItems(items) + "]"
    case VDict(entries) => "{" + ReprEntries(entries) + "}"
    case VDateTime(iso) => IsoText(iso)
    case VObject(t) => "<" + t + " object>"
  }

  function ReprItems(items: seq<Value>): string
    decreases items, 0
  {
    if items == [] then ""
    else if |items| == 1 then Repr(items[0])
    else Repr(items[0]) + ", " + ReprItems(items[1..])
  }

  function ReprEntries(entries: seq<(string, Value)>): string
    decreases entries, 0
  {
    if entries == [] then ""
    else
      var (k, x) := entries[0];
      assert x < entries[0];
      var first := ReprText(k) + ": " + Repr(x);
      if |entries| == 1 then first else first + ", " + ReprEntries(entries[1..])
  }

  /** `str(v)`, as an f-string field renders it: a text is itself, a datetime its
      `isoformat(" ")`, anything else its `repr`. */
  function Str(v: Value): (r: string)
    ensures v.VStr? ==> r == v.s
    ensures v.VNone? ==> r == "None"
  {
    match v
    case VStr(s) => s
    case VDateTime(iso) => IsoText(iso)
    case _ => Repr(v)
  }
}
