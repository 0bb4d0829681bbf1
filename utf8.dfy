/** UTF-8 as RFC 3629 defines it: what TextEncoder.encode gives the login
    script, and what Python's str.encode() gives the server, before either
    hashes a password. */
module Utf8 {

  newtype byte = x: int | 0 <= x < 256

  datatype Option<T> = None | Some(value: T)

  predicate IsContinuation(b: byte) {
    0x80 <= b <= 0xBF
  }

  /** The one to four bytes of a code point (section 3 of RFC 3629): one byte
      below U+0080, two below U+0800, three below U+10000, four above; the
      first byte gives the length and every later byte is a continuation
      byte. */
  function EncodeChar(c: char): (bs: seq<byte>)
    ensures 1 <= |bs| <= 4
    ensures |bs| == 1 <==> c as int < 0x80
    ensures |bs| == 2 <==> 0x80 <= c as int < 0x800
    ensures |bs| == 3 <==> 0x800 <= c as int < 0x1_0000
    ensures |bs| == 1 ==> bs[0] < 0x80
    ensures |bs| == 2 ==> 0xC2 <= bs[0] <= 0xDF
    ensures |bs| == 3 ==> 0xE0 <= bs[0] <= 0xEF
    ensures |bs| == 4 ==> 0xF0 <= bs[0] <= 0xF4
    ensures forall i :: 1 <= i < |bs| ==> IsContinuation(bs[i])
  {
    var cp := c as int;
    if cp < 0x80 then
      [cp as byte]
    else if cp < 0x800 then
      [(0xC0 + cp / 64) as byte, (0x80 + cp % 64) as byte]
    else if cp < 0x1_0000 then
      [(0xE0 + cp / 4096) as byte, (0x80 + (cp / 64) % 64) as byte, (0x80 + cp % 64) as byte]
    else
      [(0xF0 + cp / 262144) as byte, (0x80 + (cp / 4096) % 64) as byte,
       (0x80 + (cp / 64) % 64) as byte, (0x80 + cp % 64) as byte]
  }

  /** The code point of a two-, three- or four-byte sequence. */
  function Payload2(b0: byte, b1: byte): int {
    (b0 as int - 0xC0) * 64 + (b1 as int - 0x80)
  }

  function Payload3(b0: byte, b1: byte, b2: byte): int {
    (b0 as int - 0xE0) * 4096 + (b1 as int - 0x80) * 64 + (b2 as int - 0x80)
  }

  function Payload4(b0: byte, b1: byte, b2: byte, b3: byte): int {
    (b0 as int - 0xF0) * 262144 + (b1 as int - 0x80) * 4096 + (b2 as int - 0x80) * 64 + (b3 as int - 0x80)
  }

  /** The character at the front of bs and how many bytes it takes, or None
      when the front is not a well-formed sequence: a stray continuation
      byte, a missing continuation byte, an overlong form, a surrogate or a
      code point above U+10FFFF. */
  function DecodeChar(bs: seq<byte>): (r: Option<(char, nat)>)
    requires bs != []
    ensures r.Some? ==> 1 <= r.value.1 <= |bs| && r.value.1 <= 4
  {
    var b0 := bs[0];
    if b0 < 0x80 then
      Some(((b0 as int) as char, 1))
    else if 0xC2 <= b0 <= 0xDF then
      if |bs| >= 2 && IsContinuation(bs[1]) then
        Some((Payload2(b0, bs[1]) as char, 2))
      else None
    else if 0xE0 <= b0 <= 0xEF then
      if |bs| >= 3 && IsContinuation(bs[1]) && IsContinuation(bs[2]) then
        var cp := Payload3(b0, bs[1], bs[2]);
        if 0x800 <= cp && !(0xD800 <= cp <= 0xDFFF) then Some((cp as char, 3)) else None
      else None
    else if 0xF0 <= b0 <= 0xF4 then
      if |bs| >= 4 && IsContinuation(bs[1]) && IsContinuation(bs[2]) && IsContinuation(bs[3]) then
        var cp := Payload4(b0, bs[1], bs[2], bs[3]);
        if 0x1_0000 <= cp <= 0x10_FFFF then Some((cp as char, 4)) else None
      else None
    else None
  }

  /** TextEncoder.encode, and Python's str.encode(): the characters' byte
      sequences one after the other. */
  function Encode(s: string): (bs: seq<byte>)
    ensures |bs| >= |s|
  {
    if s == [] then [] else EncodeChar(s[0]) + Encode(s[1..])
  }

  /** The decoder: the characters of a well-formed byte string, None for
      any other. */
  function Decode(bs: seq<byte>): Option<string>
    decreases |bs|
  {
    if bs == [] then Some("")
    else
      match DecodeChar(bs)
      case None => None
      case Some((c, n)) =>
        match Decode(bs[n..])
        case None => None
        case Some(rest) => Some([c] + rest)
  }

  /** Decoding the front of an encoded character gives the character back
      and consumes exactly its bytes, whatever follows. */
  lemma DecodeEncodeChar(c: char, rest: seq<byte>)
    ensures DecodeChar(EncodeChar(c) + rest) == Some((c, |EncodeChar(c)|))
  {
    var cp := c as int;
    if cp < 0x80 {
    } else if cp < 0x800 {
      DecodeTwo(c, rest);
    } else if cp < 0x1_0000 {
      DecodeThree(c, rest);
    } else {
      DecodeFour(c, rest);
    }
  }

  lemma DecodeTwo(c: char, rest: seq<byte>)
    requires 0x80 <= c as int < 0x800
    ensures DecodeChar(EncodeChar(c) + rest) == Some((c, 2))
  {
    var cp := c as int;
    var q, r := cp / 64, cp % 64;
    assert cp == q * 64 + r;
    var bs := EncodeChar(c) + rest;
    assert bs[0] as int == 0xC0 + q && bs[1] as int == 0x80 + r;
    assert Payload2(bs[0], bs[1]) == cp;
  }

  lemma DecodeThree(c: char, rest: seq<byte>)
    requires 0x800 <= c as int < 0x1_0000
    ensures DecodeChar(EncodeChar(c) + rest) == Some((c, 3))
  {
    var cp := c as int;
    var q, r := cp / 64, cp % 64;
    var q2, r2 := q / 64, q % 64;
    assert cp == q * 64 + r && q == q2 * 64 + r2;
    assert cp / 4096 == q2;
    var bs := EncodeChar(c) + rest;
    assert bs[0] as int == 0xE0 + q2 && bs[1] as int == 0x80 + r2 && bs[2] as int == 0x80 + r;
    assert Payload3(bs[0], bs[1], bs[2]) == cp;
  }

  lemma DecodeFour(c: char, rest: seq<byte>)
    requires 0x1_0000 <= c as int
    ensures DecodeChar(EncodeChar(c) + rest) == Some((c, 4))
  {
    var cp := c as int;
    var q, r := cp / 64, cp % 64;
    var q2, r2 := q / 64, q % 64;
    var q3, r3 := q2 / 64, q2 % 64;
    assert cp == q * 64 + r && q == q2 * 64 + r2 && q2 == q3 * 64 + r3;
    assert cp / 4096 == q2 && cp / 262144 == q3;
    var bs := EncodeChar(c) + rest;
    assert bs[0] as int == 0xF0 + q3 && bs[1] as int == 0x80 + r3;
    assert bs[2] as int == 0x80 + r2 && bs[3] as int == 0x80 + r;
    assert Payload4(bs[0], bs[1], bs[2], bs[3]) == cp;
  }

  /** The decoder inverts the encoder. */
  lemma {:induction false} DecodeEncode(s: string)
    ensures Decode(Encode(s)) == Some(s)
    decreases |s|
  {
    if s != [] {
      var head := EncodeChar(s[0]);
      var tail := Encode(s[1..]);
      DecodeEncodeChar(s[0], tail);
      assert (head + tail)[|head|..] == tail;
      DecodeEncode(s[1..]);
      assert s == [s[0]] + s[1..];
    }
  }

  /** Different strings have different encodings, so hashing the encoding
      loses nothing before the hash itself. */
  lemma EncodeInjective(s: string, t: string)
    requires Encode(s) == Encode(t)
    ensures s == t
  {
    DecodeEncode(s);
    DecodeEncode(t);
  }

  predicate IsAscii(s: string) {
    forall i :: 0 <= i < |s| ==> s[i] as int < 0x80
  }

  /** An ASCII string encodes to its own character codes, byte for byte. */
  lemma {:induction false} EncodeAscii(s: string)
    requires IsAscii(s)
    ensures |Encode(s)| == |s|
    ensures forall i :: 0 <= i < |s| ==> Encode(s)[i] as int == s[i] as int
    decreases |s|
  {
    if s != [] {
      assert IsAscii(s[1..]) by {
        forall i | 0 <= i < |s| - 1 ensures s[1..][i] as int < 0x80 {
          assert s[1..][i] == s[i + 1];
        }
      }
      EncodeAscii(s[1..]);
    }
  }

  /** Sequences that are not UTF-8 are refused: an overlong form of "/", a
      lone surrogate, a stray continuation byte and a cut-off sequence. */
  lemma DecodeRejects()
    ensures Decode([0xC0, 0xAF]) == None
    ensures Decode([0xED, 0xA0, 0x80]) == None
    ensures Decode([0x80]) == None
    ensures Decode([0xE2, 0x82]) == None
  {
    assert Payload3(0xED, 0xA0, 0x80) == 0xD800;
  }
}
