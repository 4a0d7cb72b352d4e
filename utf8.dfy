/**
  UTF-8 (RFC 3629, section 3), the encoding `str.encode("utf-8")` applies to the credentials
  before they are base64-encoded. A Dafny `char` is a Unicode scalar value, so every string has
  an encoding. `Decode` is the inverse used to state what the encoding preserves.
 */
module Utf8 {
  import opened Bytes
  import opened Wrappers

  /** Bytes 10xxxxxx follow the first byte of a multi-byte sequence. */
  predicate IsContinuation(b: byte)
  {
    0x80 <= b < 0xC0
  }

  /** Number of bytes the encoding of `c` takes. */
  function Width(c: char): (n: nat)
    ensures 1 <= n <= 4
  {
    var cp := c as int;
    if cp < 0x80 then 1 else if cp < 0x800 then 2 else if cp < 0x10000 then 3 else 4
  }

  /** The first byte of an `n`-byte sequence, as the lead-byte ranges of the ABNF in section 4 of RFC 3629 allow it. */
  predicate IsLead(b: byte, n: nat)
  {
    if n == 1 then b < 0x80
    else if n == 2 then 0xC2 <= b < 0xE0
    else if n == 3 then 0xE0 <= b < 0xF0
    else n == 4 && 0xF0 <= b < 0xF5
  }

  /** The octets of one scalar value, most significant bits first. */
  function EncodeChar(c: char): (bs: seq<byte>)
    ensures |bs| == Width(c)
    ensures IsLead(bs[0], |bs|)
    ensures forall i :: 1 <= i < |bs| ==> IsContinuation(bs[i])
  {
    var cp := c as int;
    if cp < 0x80 then [cp]
    else if cp < 0x800 then [0xC0 + cp / 64, 0x80 + cp % 64]
    else if cp < 0x10000 then [0xE0 + cp / 4096, 0x80 + (cp / 64) % 64, 0x80 + cp % 64]
    else [0xF0 + cp / 262144, 0x80 + (cp / 4096) % 64, 0x80 + (cp / 64) % 64, 0x80 + cp % 64]
  }

  /** `s.encode("utf-8")`: the characters' encodings one after the other. */
  function Encode(s: string): (bs: seq<byte>)
    ensures |s| <= |bs| <= 4 * |s|
  {
    if s == [] then [] else EncodeChar(s[0]) + Encode(s[1..])
  }

  /** Decodes the first scalar value of `bs` and says how many bytes it took. */
  function DecodeFirst(bs: seq<byte>): (r: Option<(char, nat)>)
    requires |bs| > 0
    ensures r.Some? ==> 1 <= r.value.1 <= |bs|
  {
    var b0 := bs[0] as int;
    if b0 < 0x80 then Some((b0 as char, 1))
    else if IsLead(bs[0], 2) && |bs| >= 2 && IsContinuation(bs[1]) then
      var cp := (b0 - 0xC0) * 64 + (bs[1] as int - 0x80);
      Some((cp as char, 2))
    else if IsLead(bs[0], 3) && |bs| >= 3 && IsContinuation(bs[1]) && IsContinuation(bs[2]) then
      var cp := (b0 - 0xE0) * 4096 + (bs[1] as int - 0x80) * 64 + (bs[2] as int - 0x80);
      if cp < 0x800 || (0xD800 <= cp < 0xE000) then None else Some((cp as char, 3))
    else if IsLead(bs[0], 4) && |bs| >= 4 && IsContinuation(bs[1]) && IsContinuation(bs[2])
      && IsContinuation(bs[3]) then
      var cp := (b0 - 0xF0) * 262144 + (bs[1] as int - 0x80) * 4096 + (bs[2] as int - 0x80) * 64
        + (bs[3] as int - 0x80);
      if cp < 0x10000 || cp >= 0x110000 then None else Some((cp as char, 4))
    else None
  }

  /** Decodes a whole byte string; `None` when it is not well-formed UTF-8. */
  function Decode(bs: seq<byte>): Option<string>
    decreases |bs|
  {
    if bs == [] then Some([])
    else
      var first := DecodeFirst(bs);
      if first.None? then None
      else
        var rest := Decode(bs[first.value.1..]);
        if rest.None? then None else Some([first.value.0] + rest.value)
  }

  /** One encoded character is decoded back, whatever follows it. */
  lemma DecodeFirstEncodeChar(c: char, rest: seq<byte>)
    ensures DecodeFirst(EncodeChar(c) + rest) == Some((c, Width(c)))
  {
    var cp := c as int;
    if cp < 0x80 {
    } else if cp < 0x800 {
      TwoBytes(cp, EncodeChar(c) + rest);
    } else if cp < 0x10000 {
      ThreeBytes(cp, EncodeChar(c) + rest);
    } else {
      FourBytes(cp, EncodeChar(c) + rest);
    }
  }

  lemma TwoBytes(cp: int, bs: seq<byte>)
    requires 0x80 <= cp < 0x800 && |bs| >= 2
    requires bs[0] as int == 0xC0 + cp / 64 && bs[1] as int == 0x80 + cp % 64
    ensures DecodeFirst(bs) == Some((cp as char, 2))
  {
    assert (cp / 64) * 64 + cp % 64 == cp;
  }

  lemma ThreeBytes(cp: int, bs: seq<byte>)
    requires 0x800 <= cp < 0x10000 && !(0xD800 <= cp < 0xE000) && |bs| >= 3
    requires bs[0] as int == 0xE0 + cp / 4096 && bs[1] as int == 0x80 + (cp / 64) % 64
    requires bs[2] as int == 0x80 + cp % 64
    ensures DecodeFirst(bs) == Some((cp as char, 3))
  {
    var hi, mid, lo := cp / 4096, (cp / 64) % 64, cp % 64;
    assert cp / 64 == hi * 64 + mid;
    assert cp == (hi * 64 + mid) * 64 + lo;
    assert hi * 4096 + mid * 64 + lo == cp;
  }

  lemma FourBytes(cp: int, bs: seq<byte>)
    requires 0x10000 <= cp < 0x110000 && |bs| >= 4
    requires bs[0] as int == 0xF0 + cp / 262144 && bs[1] as int == 0x80 + (cp / 4096) % 64
    requires bs[2] as int == 0x80 + (cp / 64) % 64 && bs[3] as int == 0x80 + cp % 64
    ensures DecodeFirst(bs) == Some((cp as char, 4))
  {
    var top, hi, mid, lo := cp / 262144, (cp / 4096) % 64, (cp / 64) % 64, cp % 64;
    assert cp / 4096 == top * 64 + hi;
    assert cp / 64 == (cp / 4096) * 64 + mid;
    assert cp == (cp / 64) * 64 + lo;
    assert top * 262144 + hi * 4096 + mid * 64 + lo == cp;
  }

  /** Decoding undoes `str.encode("utf-8")`. */
  lemma {:induction false} DecodeEncode(s: string)
    ensures Decode(Encode(s)) == Some(s)
  {
    if s != [] {
      var rest := Encode(s[1..]);
      DecodeFirstEncodeChar(s[0], rest);
      assert (EncodeChar(s[0]) + rest)[Width(s[0])..] == rest;
      DecodeEncode(s[1..]);
      assert [s[0]] + s[1..] == s;
    }
  }

  /** The encoding of a concatenation is the concatenation of the encodings. */
  lemma {:induction false} EncodeConcat(a: string, b: string)
    ensures Encode(a + b) == Encode(a) + Encode(b)
  {
    if a == [] {
      assert a + b == b;
    } else {
      assert (a + b)[0] == a[0] && (a + b)[1..] == a[1..] + b;
      EncodeConcat(a[1..], b);
      calc {
        Encode(a + b);
        EncodeChar(a[0]) + Encode(a[1..] + b);
        EncodeChar(a[0]) + (Encode(a[1..]) + Encode(b));
        (EncodeChar(a[0]) + Encode(a[1..])) + Encode(b);
      }
    }
  }
}
