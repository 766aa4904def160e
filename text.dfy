/** String operations that mirror the Python `str` methods the server relies on
    (`strip`, `startswith`, `in`, `split`, `join`, `lower`, `upper`, `str(int)`). */
module Text {

  datatype Option<T> = None | Some(value: T)

  /** Python's `str.isspace()` for a single character: the characters that
      `strip()` with no argument removes. */
  predicate IsSpace(c: char)
  {
    || c == ' ' || c == '\t' || c == '\n' || c == '\r'
    || c == '\U{B}' || c == '\U{C}'
    || ('\U{1C}' <= c <= '\U{1F}')
    || c == '\U{85}' || c == '\U{A0}' || c == '\U{1680}'
    || ('\U{2000}' <= c <= '\U{200A}')
    || c == '\U{2028}' || c == '\U{2029}' || c == '\U{202F}' || c == '\U{205F}' || c == '\U{3000}'
  }

  /** `s.lstrip()` */
  function TrimStart(s: string): (r: string)
    ensures |r| <= |s| && r == s[|s| - |r|..]
    ensures r == [] || !IsSpace(r[0])
    ensures forall i :: 0 <= i < |s| - |r| ==> IsSpace(s[i])
  {
    if |s| > 0 && IsSpace(s[0]) then TrimStart(s[1..]) else s
  }

  /** `s.rstrip()` */
  function TrimEnd(s: string): (r: string)
    ensures |r| <= |s| && r == s[..|r|]
    ensures r == [] || !IsSpace(r[|r| - 1])
    ensures forall i :: |r| <= i < |s| ==> IsSpace(s[i])
  {
    if |s| > 0 && IsSpace(s[|s| - 1]) then TrimEnd(s[..|s| - 1]) else s
  }

  /** `s.strip()` */
  function Strip(s: string): (r: string)
    ensures HasNoOuterSpace(r)
  {
    var e := TrimEnd(s);
    var r := TrimStart(e);
    assert r != [] ==> r[|r| - 1] == e[|e| - 1];
    r
  }

  predicate HasNoOuterSpace(s: string)
  {
    s == [] || (!IsSpace(s[0]) && !IsSpace(s[|s| - 1]))
  }

  lemma StripShape(s: string)
    ensures HasNoOuterSpace(Strip(s))
    ensures exists i, j :: 0 <= i <= j <= |s| && Strip(s) == s[i..j]
  {
    var e := TrimEnd(s);
    var r := TrimStart(e);
    assert Strip(s) == r;
    assert e == s[..|e|] && r == e[|e| - |r|..];
    assert r == s[|e| - |r|..|e|];
  }

  /** Stripping text that already has no surrounding white space changes nothing. */
  lemma StripNoOuterSpace(s: string)
    requires HasNoOuterSpace(s)
    ensures Strip(s) == s
  {
  }

  lemma StripIdempotent(s: string)
    ensures Strip(Strip(s)) == Strip(s)
  {
    StripShape(s);
    StripNoOuterSpace(Strip(s));
  }

  /** `s.startswith(p)` */
  predicate StartsWith(s: string, p: string)
  {
    |p| <= |s| && s[..|p|] == p
  }

  /** `p` occurs in `s` starting at position `i`. */
  predicate OccursAt(s: string, p: string, i: nat)
  {
    i + |p| <= |s| && s[i..i + |p|] == p
  }

  lemma OccursShift(s: string, p: string, i: nat)
    requires 1 <= i && |s| > 0
    ensures OccursAt(s, p, i) == OccursAt(s[1..], p, i - 1)
  {
    if i + |p| <= |s| {
      var a, b := s[i..i + |p|], s[1..][i - 1..i - 1 + |p|];
      assert |a| == |b| == |p|;
      forall k | 0 <= k < |p| ensures a[k] == b[k] {
        assert a[k] == s[i + k];
        assert b[k] == s[1..][i - 1 + k];
      }
      assert a == b;
    }
  }

  /** `p in s` */
  predicate Contains(s: string, p: string)
  {
    exists i: nat | i <= |s| :: OccursAt(s, p, i)
  }

  predicate ContainsChar(s: string, c: char)
  {
    exists i | 0 <= i < |s| :: s[i] == c
  }

  /** `s.find(p)`: the first position where `p` occurs, or None. */
  function IndexOf(s: string, p: string): (r: Option<nat>)
    ensures r.Some? ==> OccursAt(s, p, r.value)
    ensures r.Some? ==> forall i: nat :: i < r.value ==> !OccursAt(s, p, i)
    ensures r.None? <==> !Contains(s, p)
    decreases |s|
  {
    if StartsWith(s, p) then
      assert OccursAt(s, p, 0);
      Some(0)
    else if |s| <= |p| then
      assert forall i: nat | i <= |s| :: !OccursAt(s, p, i);
      None
    else
      var rest := IndexOf(s[1..], p);
      forall i: nat | 1 <= i ensures OccursAt(s, p, i) == OccursAt(s[1..], p, i - 1) {
        OccursShift(s, p, i);
      }
      assert !OccursAt(s, p, 0);
      if rest.None? then
        assert forall i: nat | i <= |s| :: !OccursAt(s, p, i) by {
          forall i: nat | i <= |s| ensures !OccursAt(s, p, i) {
            if i >= 1 { assert !OccursAt(s[1..], p, i - 1); }
          }
        }
        None
      else
        Some(rest.value + 1)
  }

  /** `s.split(p)[0]` for a non-empty separator `p`: the text before the first `p`. */
  function BeforeFirst(s: string, p: string): (r: string)
    ensures StartsWith(s, r)
  {
    match IndexOf(s, p)
    case Some(i) => s[..i]
    case None => s
  }

  /** `s.split(p, 1)[1]`: the text after the first `p` (the whole text when there is none). */
  function AfterFirst(s: string, p: string): (r: string)
    ensures |r| <= |s|
  {
    match IndexOf(s, p)
    case Some(i) => s[i + |p|..]
    case None => s
  }

  /** The text before a character never contains that character. */
  lemma BeforeFirstCharFree(s: string, c: char)
    ensures !ContainsChar(BeforeFirst(s, [c]), c)
    ensures ContainsChar(s, c) <==> Contains(s, [c])
  {
    var r := BeforeFirst(s, [c]);
    if ContainsChar(r, c) {
      var k :| 0 <= k < |r| && r[k] == c;
      assert s[k..k + 1] == [c];
      assert OccursAt(s, [c], k);
    }
    if ContainsChar(s, c) {
      var k :| 0 <= k < |s| && s[k] == c;
      assert s[k..k + 1] == [c];
      assert OccursAt(s, [c], k);
    }
    if Contains(s, [c]) {
      var k: nat :| k <= |s| && OccursAt(s, [c], k);
      assert s[k..k + 1][0] == c;
    }
  }

  /** A text containing `p` contains every character of `p`. */
  lemma ContainsCharOf(s: string, p: string, k: nat)
    requires Contains(s, p) && k < |p|
    ensures ContainsChar(s, p[k])
  {
    var i: nat :| i <= |s| && OccursAt(s, p, i);
    assert s[i..i + |p|][k] == p[k];
  }

  /** Locates the first occurrence of `p` when no earlier position holds its first character. */
  lemma IndexOfFirst(s: string, p: string, k: nat)
    requires |p| > 0 && OccursAt(s, p, k)
    requires forall i :: 0 <= i < k ==> s[i] != p[0]
    ensures IndexOf(s, p) == Some(k)
  {
    forall i: nat | i < k ensures !OccursAt(s, p, i) {
      if i + |p| <= |s| { assert s[i..i + |p|][0] == s[i]; }
    }
  }

  /** A text lacking the first character of `p` does not contain `p`. */
  lemma AbsentByFirstChar(s: string, p: string)
    requires |p| > 0 && !ContainsChar(s, p[0])
    ensures !Contains(s, p)
  {
    if Contains(s, p) { ContainsCharOf(s, p, 0); }
  }

  /** When `s` has no `p`, `BeforeFirst` keeps all of it. */
  lemma BeforeFirstAbsent(s: string, p: string)
    requires !Contains(s, p)
    ensures BeforeFirst(s, p) == s
  {
  }

  /** `s.split(sep)` for a one-character separator, as Python does it:
      empty pieces are kept ("a  b".split(" ") == ["a", "", "b"]). */
  function SplitOn(s: string, sep: char): (r: seq<string>)
    ensures |r| >= 1
    decreases |s|
  {
    match IndexOf(s, [sep])
    case None => [s]
    case Some(i) => [s[..i]] + SplitOn(s[i + 1..], sep)
  }

  /** `sep.join(parts)` */
  function Join(parts: seq<string>, sep: string): (r: string)
  {
    if |parts| == 0 then ""
    else if |parts| == 1 then parts[0]
    else parts[0] + sep + Join(parts[1..], sep)
  }

  /** Joining the pieces of a split with the separator gives the text back. */
  lemma {:induction false} JoinSplitOn(s: string, sep: char)
    ensures Join(SplitOn(s, sep), [sep]) == s
    decreases |s|
  {
    match IndexOf(s, [sep])
    case None =>
    case Some(i) =>
      var rest := s[i + 1..];
      var tail := SplitOn(rest, sep);
      JoinSplitOn(rest, sep);
      assert SplitOn(s, sep) == [s[..i]] + tail;
      JoinCons(s[..i], tail, [sep]);
      SplitAround(s, i, sep);
  }

  lemma JoinCons(p: string, parts: seq<string>, sep: string)
    requires |parts| >= 1
    ensures Join([p] + parts, sep) == p + sep + Join(parts, sep)
  {
    assert ([p] + parts)[1..] == parts;
  }

  lemma SplitAround(s: string, i: nat, sep: char)
    requires OccursAt(s, [sep], i)
    ensures s == s[..i] + [sep] + s[i + 1..]
  {
    assert s[i..i + 1] == [sep];
  }

  /** When the separator occurs in `s`, every piece of the split is shorter than `s`. */
  lemma {:induction false} SplitPiecesShorter(s: string, sep: char)
    requires Contains(s, [sep])
    ensures forall k :: 0 <= k < |SplitOn(s, sep)| ==> |SplitOn(s, sep)[k]| < |s|
    decreases |s|
  {
    var i := IndexOf(s, [sep]).value;
    var rest := s[i + 1..];
    var parts := [s[..i]] + SplitOn(rest, sep);
    assert SplitOn(s, sep) == parts;
    if Contains(rest, [sep]) {
      SplitPiecesShorter(rest, sep);
    } else {
      assert SplitOn(rest, sep) == [rest];
    }
    forall k | 0 <= k < |parts|
      ensures |parts[k]| < |s|
    {
      if k > 0 {
        assert parts[k] == SplitOn(rest, sep)[k - 1];
      }
    }
  }

  /** `[p for p in parts if p]` */
  function NonEmpty(parts: seq<string>): (r: seq<string>)
    ensures forall k :: 0 <= k < |r| ==> r[k] != ""
    ensures forall p :: p in r <==> p in parts && p != ""
  {
    if |parts| == 0 then []
    else if parts[0] == "" then NonEmpty(parts[1..])
    else [parts[0]] + NonEmpty(parts[1..])
  }

  function LowerChar(c: char): char
  {
    if 'A' <= c <= 'Z' then (c as int + 32) as char
    else if c == '\U{212A}' then 'k'  // KELVIN SIGN lower-cases to an ASCII letter
    else c
  }

  function UpperChar(c: char): char
  {
    if 'a' <= c <= 'z' then (c as int - 32) as char else c
  }

  /** `s.lower()` (see README for the case mapping covered). */
  function Lower(s: string): (r: string)
    ensures |r| == |s| && forall i :: 0 <= i < |s| ==> r[i] == LowerChar(s[i])
  {
    seq(|s|, i requires 0 <= i < |s| => LowerChar(s[i]))
  }

  /** `s.upper()` on ASCII letters only (see README for the case mapping covered). */
  function Upper(s: string): (r: string)
    ensures |r| == |s| && forall i :: 0 <= i < |s| ==> r[i] == UpperChar(s[i])
  {
    seq(|s|, i requires 0 <= i < |s| => UpperChar(s[i]))
  }

  lemma LowerIdempotent(s: string)
    ensures Lower(Lower(s)) == Lower(s)
  {
  }

  function DigitChar(d: nat): char
    requires d < 10
  {
    ('0' as int + d) as char
  }

  function NatToDecimal(n: nat): (r: string)
    ensures |r| >= 1
    ensures forall i :: 0 <= i < |r| ==> '0' <= r[i] <= '9'
  {
    if n < 10 then [DigitChar(n)] else NatToDecimal(n / 10) + [DigitChar(n % 10)]
  }

  /** `str(n)` for a Python `int`. */
  function IntToDecimal(n: int): (r: string)
    ensures |r| >= 1 && !IsSpace(r[0]) && !IsSpace(r[|r| - 1])
  {
    if n < 0 then "-" + NatToDecimal(-n) else NatToDecimal(n)
  }
}
