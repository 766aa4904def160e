/** Base64 as section 4 of RFC 4648 defines it, with Python's `base64.b64encode` and the
    lenient decoding of `base64.b64decode` (no `validate=`): characters outside the
    alphabet are skipped, and decoding stops at the padding that completes a quantum. */
module Base64 {
  import opened Text
  import opened Values

  /** The character for a 6-bit value (table 1 of RFC 4648). */
  function SextetChar(v: nat): (c: char)
    requires v < 64
  {
    if v < 26 then ('A' as int + v) as char
    else if v < 52 then ('a' as int + (v - 26)) as char
    else if v < 62 then ('0' as int + (v - 52)) as char
    else if v == 62 then '+'
    else '/'
  }

  /** The 6-bit value of an alphabet character; None for any other character. */
  function SextetOf(c: char): (r: Option<nat>)
    ensures r.Some? ==> r.value < 64 && SextetChar(r.value) == c
  {
    if 'A' <= c <= 'Z' then Some(c as int - 'A' as int)
    else if 'a' <= c <= 'z' then Some(c as int - 'a' as int + 26)
    else if '0' <= c <= '9' then Some(c as int - '0' as int + 52)
    else if c == '+' then Some(62)
    else if c == '/' then Some(63)
    else None
  }

  lemma SextetRoundTrip(v: nat)
    requires v < 64
    ensures SextetOf(SextetChar(v)) == Some(v)
  {
  }

  /** The four characters of a full three-byte group. */
  function EncodeGroup(b0: byte, b1: byte, b2: byte): string
  {
    [SextetChar(b0 as nat / 4), SextetChar((b0 as nat % 4) * 16 + b1 as nat / 16),
     SextetChar((b1 as nat % 16) * 4 + b2 as nat / 64), SextetChar(b2 as nat % 64)]
  }

  /** `base64.b64encode(b).decode()` */
  function Encode(b: seq<byte>): (r: string)
    ensures |r| == (|b| + 2) / 3 * 4
    decreases |b|
  {
    if |b| == 0 then ""
    else if |b| >= 3 then EncodeGroup(b[0], b[1], b[2]) + Encode(b[3..])
    else if |b| == 2 then
      [SextetChar(b[0] as nat / 4), SextetChar((b[0] as nat % 4) * 16 + b[1] as nat / 16),
       SextetChar((b[1] as nat % 16) * 4), '=']
    else
      [SextetChar(b[0] as nat / 4), SextetChar((b[0] as nat % 4) * 16), '=', '=']
  }

  /** The lenient decoding loop of `binascii.a2b_base64`, one character at a time.
      `quad` is the position within the current quantum, `left` the bits carried over,
      `pads` the '=' seen since the last data character. None is `binascii.Error`. */
  function DecodeFrom(s: string, quad: nat, left: nat, pads: nat, acc: seq<byte>): (r: Option<seq<byte>>)
    requires quad < 4
    requires quad == 1 ==> left < 64
    requires quad == 2 ==> left < 16
    requires quad == 3 ==> left < 4
    decreases |s|
  {
    if |s| == 0 then
      if quad != 0 then None else Some(acc)
    else if s[0] == '=' then
      if quad >= 2 && quad + pads + 1 >= 4 then Some(acc)
      else DecodeFrom(s[1..], quad, left, if quad >= 2 then pads + 1 else pads, acc)
    else
      match SextetOf(s[0])
      case None => DecodeFrom(s[1..], quad, left, pads, acc)
      case Some(v) =>
        if quad == 0 then DecodeFrom(s[1..], 1, v, 0, acc)
        else if quad == 1 then DecodeFrom(s[1..], 2, v % 16, 0, acc + [(left * 4 + v / 16) as byte])
        else if quad == 2 then DecodeFrom(s[1..], 3, v % 4, 0, acc + [(left * 16 + v / 4) as byte])
        else DecodeFrom(s[1..], 0, 0, 0, acc + [(left * 64 + v) as byte])
  }

  predicate IsAscii(s: string)
  {
    forall i :: 0 <= i < |s| ==> s[i] as int < 128
  }

  /** `base64.b64decode(s)` for a `str`: a non-ASCII character is a `ValueError`, a
      malformed quantum a `binascii.Error`; both are None here. */
  function Decode(s: string): (r: Option<seq<byte>>)
    ensures !IsAscii(s) ==> r.None?
  {
    if IsAscii(s) then DecodeFrom(s, 0, 0, 0, []) else None
  }

  lemma GroupDecodes(b0: byte, b1: byte, b2: byte, tail: string, acc: seq<byte>)
    ensures DecodeFrom(EncodeGroup(b0, b1, b2) + tail, 0, 0, 0, acc) == DecodeFrom(tail, 0, 0, 0, acc + [b0, b1, b2])
  {
    var s := EncodeGroup(b0, b1, b2) + tail;
    var c0, c1, c2, c3 := b0 as nat / 4, (b0 as nat % 4) * 16 + b1 as nat / 16, (b1 as nat % 16) * 4 + b2 as nat / 64, b2 as nat % 64;
    SextetRoundTrip(c0);
    SextetRoundTrip(c1);
    SextetRoundTrip(c2);
    SextetRoundTrip(c3);
    assert c0 * 4 + c1 / 16 == b0 as nat;
    assert (c1 % 16) * 16 + c2 / 4 == b1 as nat;
    assert (c2 % 4) * 64 + c3 == b2 as nat;
    var s1, s2, s3 := s[1..], s[2..], s[3..];
    assert s[0] == SextetChar(c0) && s1[0] == SextetChar(c1) && s2[0] == SextetChar(c2) && s3[0] == SextetChar(c3);
    assert s1[1..] == s2 && s2[1..] == s3 && s3[1..] == tail;
    assert DecodeFrom(s, 0, 0, 0, acc) == DecodeFrom(s1, 1, c0, 0, acc);
    assert DecodeFrom(s1, 1, c0, 0, acc) == DecodeFrom(s2, 2, c1 % 16, 0, acc + [b0]);
    assert DecodeFrom(s2, 2, c1 % 16, 0, acc + [b0]) == DecodeFrom(s3, 3, c2 % 4, 0, acc + [b0] + [b1]);
    assert DecodeFrom(s3, 3, c2 % 4, 0, acc + [b0] + [b1]) == DecodeFrom(tail, 0, 0, 0, acc + [b0] + [b1] + [b2]);
    assert acc + [b0] + [b1] + [b2] == acc + [b0, b1, b2];
  }

  lemma PairDecodes(b0: byte, b1: byte, acc: seq<byte>)
    ensures DecodeFrom(Encode([b0, b1]), 0, 0, 0, acc) == Some(acc + [b0, b1])
  {
    var c0, c1, c2 := b0 as nat / 4, (b0 as nat % 4) * 16 + b1 as nat / 16, (b1 as nat % 16) * 4;
    SextetRoundTrip(c0);
    SextetRoundTrip(c1);
    SextetRoundTrip(c2);
    var s := Encode([b0, b1]);
    assert c0 * 4 + c1 / 16 == b0 as nat;
    assert (c1 % 16) * 16 + c2 / 4 == b1 as nat;
    var s1, s2, s3 := s[1..], s[2..], s[3..];
    assert s[0] == SextetChar(c0) && s1[0] == SextetChar(c1) && s2[0] == SextetChar(c2) && s3[0] == '=';
    assert s1[1..] == s2 && s2[1..] == s3;
    assert DecodeFrom(s, 0, 0, 0, acc) == DecodeFrom(s1, 1, c0, 0, acc);
    assert DecodeFrom(s1, 1, c0, 0, acc) == DecodeFrom(s2, 2, c1 % 16, 0, acc + [b0]);
    assert DecodeFrom(s2, 2, c1 % 16, 0, acc + [b0]) == DecodeFrom(s3, 3, c2 % 4, 0, acc + [b0] + [b1]);
    assert acc + [b0] + [b1] == acc + [b0, b1];
  }

  lemma SingleDecodes(b0: byte, acc: seq<byte>)
    ensures DecodeFrom(Encode([b0]), 0, 0, 0, acc) == Some(acc + [b0])
  {
    var c0, c1 := b0 as nat / 4, (b0 as nat % 4) * 16;
    SextetRoundTrip(c0);
    SextetRoundTrip(c1);
    var s := Encode([b0]);
    assert c0 * 4 + c1 / 16 == b0 as nat;
    var s1, s2, s3 := s[1..], s[2..], s[3..];
    assert s[0] == SextetChar(c0) && s1[0] == SextetChar(c1) && s2[0] == '=' && s3[0] == '=';
    assert s1[1..] == s2 && s2[1..] == s3;
    assert DecodeFrom(s, 0, 0, 0, acc) == DecodeFrom(s1, 1, c0, 0, acc);
    assert DecodeFrom(s1, 1, c0, 0, acc) == DecodeFrom(s2, 2, c1 % 16, 0, acc + [b0]);
    assert DecodeFrom(s2, 2, c1 % 16, 0, acc + [b0]) == DecodeFrom(s3, 2, c1 % 16, 1, acc + [b0]);
  }

  /** Decoding what `Encode` produced gives the bytes back. */
  lemma {:induction false} DecodeEncode(b: seq<byte>, acc: seq<byte>)
    ensures DecodeFrom(Encode(b), 0, 0, 0, acc) == Some(acc + b)
    decreases |b|
  {
    if |b| == 0 {
      assert Encode(b) == "" && acc + b == acc;
    } else if |b| >= 3 {
      GroupDecodes(b[0], b[1], b[2], Encode(b[3..]), acc);
      DecodeEncode(b[3..], acc + [b[0], b[1], b[2]]);
      assert acc + [b[0], b[1], b[2]] + b[3..] == acc + b;
    } else if |b| == 2 {
      assert b == [b[0], b[1]];
      PairDecodes(b[0], b[1], acc);
    } else {
      assert b == [b[0]];
      SingleDecodes(b[0], acc);
    }
  }

  lemma EncodeAscii(b: seq<byte>)
    ensures IsAscii(Encode(b))
    decreases |b|
  {
    if |b| >= 3 {
      EncodeAscii(b[3..]);
    }
  }

  /** `b64decode(b64encode(b)) == b` */
  lemma RoundTrip(b: seq<byte>)
    ensures Decode(Encode(b)) == Some(b)
  {
    EncodeAscii(b);
    DecodeEncode(b, []);
    assert [] + b == b;
  }
}
