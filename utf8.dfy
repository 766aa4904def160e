/** UTF-8 decoding as Python's `bytes.decode('utf-8')` does it: strict (the default,
    which raises `UnicodeDecodeError`) and with `errors='replace'`, which puts one U+FFFD
    in place of each maximal ill-formed subpart (section 3.9 of the Unicode Standard). */
module Utf8 {
  import opened Text
  import opened Values

  predicate InRange(x: byte, lo: int, hi: int)
  {
    lo <= x as int <= hi
  }

  /** At the start of `b`: whether a well-formed sequence begins there, and its length;
      or, when none does, the length of the maximal ill-formed subpart. */
  function Scan(b: seq<byte>): (r: (bool, nat))
    requires |b| > 0
    ensures 1 <= r.1 <= |b| && r.1 <= 4
  {
    var b0 := b[0] as int;
    if b0 < 0x80 then (true, 1)
    else if 0xC2 <= b0 <= 0xDF then
      if |b| >= 2 && InRange(b[1], 0x80, 0xBF) then (true, 2) else (false, 1)
    else if 0xE0 <= b0 <= 0xEF then
      var lo := if b0 == 0xE0 then 0xA0 else 0x80;
      var hi := if b0 == 0xED then 0x9F else 0xBF;
      if |b| < 2 || !InRange(b[1], lo, hi) then (false, 1)
      else if |b| < 3 || !InRange(b[2], 0x80, 0xBF) then (false, 2)
      else (true, 3)
    else if 0xF0 <= b0 <= 0xF4 then
      var lo := if b0 == 0xF0 then 0x90 else 0x80;
      var hi := if b0 == 0xF4 then 0x8F else 0xBF;
      if |b| < 2 || !InRange(b[1], lo, hi) then (false, 1)
      else if |b| < 3 || !InRange(b[2], 0x80, 0xBF) then (false, 2)
      else if |b| < 4 || !InRange(b[3], 0x80, 0xBF) then (false, 3)
      else (true, 4)
    else (false, 1)
  }

  /** The character a well-formed sequence at the start of `b` encodes. */
  function CodePoint(b: seq<byte>): (c: char)
    requires |b| > 0 && Scan(b).0
    ensures Scan(b).1 == 1 <==> c as int < 0x80
  {
    var b0 := b[0] as int;
    match Scan(b).1
    case 1 => b0 as char
    case 2 => ((b0 - 0xC0) * 64 + (b[1] as int - 0x80)) as char
    case 3 => ((b0 - 0xE0) * 4096 + (b[1] as int - 0x80) * 64 + (b[2] as int - 0x80)) as char
    case 4 => ((b0 - 0xF0) * 262144 + (b[1] as int - 0x80) * 4096 + (b[2] as int - 0x80) * 64 + (b[3] as int - 0x80)) as char
  }

  /** `b.decode('utf-8')`; None where Python raises `UnicodeDecodeError`. */
  function DecodeStrict(b: seq<byte>): (r: Option<string>)
    decreases |b|
  {
    if |b| == 0 then Some("")
    else
      var (ok, n) := Scan(b);
      if !ok then None
      else
        match DecodeStrict(b[n..])
        case Some(rest) => Some([CodePoint(b)] + rest)
        case None => None
  }

  /** `b.decode('utf-8', errors='replace')` */
  function DecodeReplace(b: seq<byte>): (r: string)
    decreases |b|
  {
    if |b| == 0 then ""
    else
      var (ok, n) := Scan(b);
      if ok then [CodePoint(b)] + DecodeReplace(b[n..])
      else "\U{FFFD}" + DecodeReplace(b[n..])
  }

  /** On well-formed input the replacing decoder agrees with the strict one. */
  lemma {:induction false} ReplaceAgreesWithStrict(b: seq<byte>)
    requires DecodeStrict(b).Some?
    ensures DecodeReplace(b) == DecodeStrict(b).value
    decreases |b|
  {
    if |b| > 0 {
      ReplaceAgreesWithStrict(b[Scan(b).1..]);
    }
  }

  predicate AllAsciiBytes(b: seq<byte>)
  {
    forall i :: 0 <= i < |b| ==> b[i] < 0x80
  }

  /** The characters of ASCII bytes, one for one. */
  function AsciiChars(b: seq<byte>): (r: string)
    requires AllAsciiBytes(b)
    ensures |r| == |b| && forall i :: 0 <= i < |b| ==> r[i] as int == b[i] as int
  {
    seq(|b|, i requires 0 <= i < |b| => b[i] as int as char)
  }

  /** ASCII bytes decode, strictly, to the same characters. */
  lemma {:induction false} AsciiDecodes(b: seq<byte>)
    requires AllAsciiBytes(b)
    ensures DecodeStrict(b) == Some(AsciiChars(b))
    decreases |b|
  {
    if |b| > 0 {
      AsciiDecodes(b[1..]);
      assert [CodePoint(b)] + AsciiChars(b[1..]) == AsciiChars(b);
    }
  }
}
