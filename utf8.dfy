/**
 * Bytes and the UTF-8 encoding of text (RFC 3629, section 3), as used when a
 * payload that is not already bytes is turned into `bytes(str(p), 'utf-8')`.
 * A Dafny `char` is a Unicode scalar value, so every string has an encoding.
 */
module Utf8 {
  import opened Wrappers

  type Byte = b: int | 0 <= b < 256

  /** The code point of `c`. */
  function CodePoint(c: char): (cp: int)
    ensures 0 <= cp <= 0x10FFFF
    ensures cp < 0xD800 || 0xE000 <= cp
  {
    c as int
  }

  /** The UTF-8 bytes of one character: 1 to 4 bytes depending on its code point. */
  function EncodeChar(c: char): (bs: seq<Byte>)
  {
    var cp := CodePoint(c);
    if cp < 0x80 then [cp]
    else if cp < 0x800 then [0xC0 + cp / 64, 0x80 + cp % 64]
    else if cp < 0x10000 then [0xE0 + cp / 4096, 0x80 + (cp / 64) % 64, 0x80 + cp % 64]
    else [0xF0 + cp / 262144, 0x80 + (cp / 4096) % 64, 0x80 + (cp / 64) % 64, 0x80 + cp % 64]
  }

  /** Number of bytes of the sequence a lead byte starts. */
  function SequenceLength(lead: Byte): nat {
    if lead < 0x80 then 1 else if lead < 0xE0 then 2 else if lead < 0xF0 then 3 else 4
  }

  function Encode(s: string): seq<Byte>
  {
    if s == [] then [] else EncodeChar(s[0]) + Encode(s[1..])
  }

  /** Whether `b` is a continuation byte, `10xxxxxx`. */
  predicate Continuation(b: Byte) {
    0x80 <= b < 0xC0
  }

  /** The lead byte's announced continuation bytes are all `10xxxxxx`. */
  predicate ContinuationsFollow(bs: seq<Byte>, n: nat)
    requires n <= |bs|
  {
    (n <= 1 || Continuation(bs[1])) && (n <= 2 || Continuation(bs[2])) && (n <= 3 || Continuation(bs[3]))
  }

  /** The code point that the first `n` bytes of `bs` spell out. */
  function Assemble(bs: seq<Byte>, n: nat): int
    requires 1 <= n <= 4 && n <= |bs|
  {
    var b0: int := bs[0];
    if n == 1 then b0
    else
      var b1: int := bs[1] as int - 0x80;
      if n == 2 then (b0 - 0xC0) * 64 + b1
      else
        var b2: int := bs[2] as int - 0x80;
        if n == 3 then (b0 - 0xE0) * 4096 + b1 * 64 + b2
        else
          var b3: int := bs[3] as int - 0x80;
          (b0 - 0xF0) * 262144 + b1 * 4096 + b2 * 64 + b3
  }

  /** The smallest code point an `n`-byte sequence may carry; a smaller one is an overlong form. */
  function MinCodePoint(n: nat): int {
    if n <= 1 then 0 else if n == 2 then 0x80 else if n == 3 then 0x800 else 0x10000
  }

  /**
   * Reads the character at the start of `bs`, with its byte count, if the lead
   * byte's continuation bytes are all there and spell out a scalar value in
   * its shortest form (RFC 3629, section 3, forbids overlong sequences).
   */
  function DecodeChar(bs: seq<Byte>): Option<(char, nat)>
  {
    if bs == [] || |bs| < SequenceLength(bs[0]) then None
    else
      var n := SequenceLength(bs[0]);
      var cp := Assemble(bs, n);
      if ContinuationsFollow(bs, n) && MinCodePoint(n) <= cp
         && (0 <= cp < 0xD800 || 0xE000 <= cp <= 0x10FFFF)
      then Some((cp as char, n))
      else None
  }

  /** Decodes a whole byte string, or fails. */
  function Decode(bs: seq<Byte>): Option<string>
    decreases |bs|
  {
    if bs == [] then Some([])
    else match DecodeChar(bs)
      case None => None
      case Some((c, n)) =>
        if n == 0 then None
        else match Decode(bs[n..])
          case None => None
          case Some(rest) => Some([c] + rest)
  }

  /** Two-byte characters: U+0080 to U+07FF. */
  lemma TwoBytes(cp: int, bs: seq<Byte>)
    requires 0x80 <= cp < 0x800 && |bs| >= 2
    requires bs[0] == 0xC0 + cp / 64 && bs[1] == 0x80 + cp % 64
    ensures SequenceLength(bs[0]) == 2 && ContinuationsFollow(bs, 2) && Assemble(bs, 2) == cp
  {
  }

  /** Three-byte characters: U+0800 to U+FFFF. */
  lemma ThreeBytes(cp: int, bs: seq<Byte>)
    requires 0x800 <= cp < 0x10000 && |bs| >= 3
    requires bs[0] == 0xE0 + cp / 4096 && bs[1] == 0x80 + (cp / 64) % 64 && bs[2] == 0x80 + cp % 64
    ensures SequenceLength(bs[0]) == 3 && ContinuationsFollow(bs, 3) && Assemble(bs, 3) == cp
  {
    var q := cp / 64;
    assert cp == q * 64 + cp % 64;
    assert q == (q / 64) * 64 + q % 64;
    assert q / 64 == cp / 4096;
  }

  /** Four-byte characters: U+10000 to U+10FFFF. */
  lemma FourBytes(cp: int, bs: seq<Byte>)
    requires 0x10000 <= cp <= 0x10FFFF && |bs| >= 4
    requires bs[0] == 0xF0 + cp / 262144 && bs[1] == 0x80 + (cp / 4096) % 64
    requires bs[2] == 0x80 + (cp / 64) % 64 && bs[3] == 0x80 + cp % 64
    ensures SequenceLength(bs[0]) == 4 && ContinuationsFollow(bs, 4) && Assemble(bs, 4) == cp
  {
    var q := cp / 64;
    var r := q / 64;
    assert cp == q * 64 + cp % 64;
    assert q == r * 64 + q % 64;
    assert r == (r / 64) * 64 + r % 64;
    assert r == cp / 4096;
    assert r / 64 == cp / 262144;
  }

  /** One character's bytes start with a lead byte announcing their count and read back as it. */
  lemma EncodeCharDecodes(c: char, tail: seq<Byte>)
    ensures 1 <= |EncodeChar(c)| <= 4
    ensures SequenceLength(EncodeChar(c)[0]) == |EncodeChar(c)|
    ensures DecodeChar(EncodeChar(c) + tail) == Some((c, |EncodeChar(c)|))
  {
    var cp := CodePoint(c);
    var bs := EncodeChar(c) + tail;
    if cp < 0x80 {
    } else if cp < 0x800 {
      TwoBytes(cp, bs);
    } else if cp < 0x10000 {
      ThreeBytes(cp, bs);
    } else {
      FourBytes(cp, bs);
    }
  }

  /** Decoding undoes encoding: the payload text is recoverable from its bytes. */
  lemma {:induction false} DecodeEncode(s: string)
    ensures Decode(Encode(s)) == Some(s)
  {
    if s != [] {
      var head, rest := EncodeChar(s[0]), Encode(s[1..]);
      EncodeCharDecodes(s[0], rest);
      DecodeEncode(s[1..]);
      assert (head + rest)[|head|..] == rest;
      assert [s[0]] + s[1..] == s;
    }
  }

  /** A string of ASCII characters encodes to its own character codes, one byte each. */
  lemma {:induction false} AsciiEncodesToItself(s: string)
    requires forall i :: 0 <= i < |s| ==> s[i] as int < 0x80
    ensures |Encode(s)| == |s|
    ensures forall i :: 0 <= i < |s| ==> Encode(s)[i] == s[i] as int
  {
    if s != [] {
      AsciiEncodesToItself(s[1..]);
      assert forall i :: 1 <= i < |s| ==> s[i] == s[1..][i - 1];
    }
  }

  /** Division by 64, 4096 and 262144, pinned down by quotient and remainder. */
  lemma DivMod64(x: int, q: int, r: int)
    requires 0 <= r < 64 && x == q * 64 + r
    ensures x / 64 == q && x % 64 == r
  {
  }

  lemma DivMod4096(x: int, q: int, r: int)
    requires 0 <= r < 4096 && x == q * 4096 + r
    ensures x / 4096 == q && x % 4096 == r
  {
  }

  lemma DivMod262144(x: int, q: int, r: int)
    requires 0 <= r < 262144 && x == q * 262144 + r
    ensures x / 262144 == q && x % 262144 == r
  {
  }

  /** A character read from the front of `bs` is encoded as exactly the bytes it was read from. */
  lemma DecodeCharEncodes(bs: seq<Byte>)
    requires DecodeChar(bs).Some?
    ensures var (c, n) := DecodeChar(bs).value; 1 <= n <= |bs| && EncodeChar(c) == bs[..n]
  {
    var (c, n) := DecodeChar(bs).value;
    var cp := Assemble(bs, n);
    assert CodePoint(c) == cp;
    if n == 2 {
      var q: int, r: int := bs[0] - 0xC0, bs[1] - 0x80;
      DivMod64(cp, q, r);
      assert EncodeChar(c) == [bs[0], bs[1]];
    } else if n == 3 {
      var q: int, r1: int, r2: int := bs[0] - 0xE0, bs[1] - 0x80, bs[2] - 0x80;
      DivMod64(cp, q * 64 + r1, r2);
      DivMod64(q * 64 + r1, q, r1);
      DivMod4096(cp, q, r1 * 64 + r2);
      assert EncodeChar(c) == [bs[0], bs[1], bs[2]];
    } else if n == 4 {
      var q: int, r1: int, r2: int, r3: int := bs[0] - 0xF0, bs[1] - 0x80, bs[2] - 0x80, bs[3] - 0x80;
      DivMod64(cp, q * 4096 + r1 * 64 + r2, r3);
      DivMod64(q * 4096 + r1 * 64 + r2, q * 64 + r1, r2);
      DivMod4096(cp, q * 64 + r1, r2 * 64 + r3);
      DivMod64(q * 64 + r1, q, r1);
      DivMod262144(cp, q, r1 * 4096 + r2 * 64 + r3);
      assert EncodeChar(c) == [bs[0], bs[1], bs[2], bs[3]];
    }
  }

  /**
   * Encoding undoes decoding: a byte string that decodes is the encoding of
   * its text, so no byte string other than a string's own encoding (an
   * overlong form, say) decodes to it.
   */
  lemma {:induction false} EncodeDecode(bs: seq<Byte>)
    requires Decode(bs).Some?
    ensures Encode(Decode(bs).value) == bs
    decreases |bs|
  {
    if bs != [] {
      var (c, n) := DecodeChar(bs).value;
      DecodeCharEncodes(bs);
      var rest := Decode(bs[n..]).value;
      EncodeDecode(bs[n..]);
      var s := [c] + rest;
      assert Decode(bs).value == s;
      assert s[0] == c && s[1..] == rest;
      assert Encode(s) == EncodeChar(c) + Encode(rest);
      assert bs[..n] + bs[n..] == bs;
    }
  }
}
