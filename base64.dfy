/**
  The base 64 encoding of section 4 of RFC 4648 (alphabet of its Table 1, `=` padding), as
  `base64.b64encode` computes it, with the matching strict decoder. Every output character is
  ASCII, so the `.decode("ascii")` applied to the encoder's bytes is the identity on characters
  and the encoder is modelled as producing the string directly.
 */
module Base64 {
  import opened Bytes
  import opened Wrappers

  /** A six-bit group. */
  type sextet = i: int | 0 <= i < 64

  const Pad: char := '='

  /** A character of the 64-character alphabet. */
  predicate IsAlphabetChar(ch: char)
  {
    ('A' <= ch <= 'Z') || ('a' <= ch <= 'z') || ('0' <= ch <= '9') || ch == '+' || ch == '/'
  }

  /** Table 1: the character that encodes `i`. */
  function CharOf(i: sextet): (ch: char)
    ensures IsAlphabetChar(ch)
  {
    if i < 26 then ('A' as int + i) as char
    else if i < 52 then ('a' as int + (i - 26)) as char
    else if i < 62 then ('0' as int + (i - 52)) as char
    else if i == 62 then '+'
    else '/'
  }

  /** Table 1 read backwards. */
  function ValueOf(ch: char): sextet
    requires IsAlphabetChar(ch)
  {
    if 'A' <= ch <= 'Z' then ch as int - 'A' as int
    else if 'a' <= ch <= 'z' then ch as int - 'a' as int + 26
    else if '0' <= ch <= '9' then ch as int - '0' as int + 52
    else if ch == '+' then 62
    else 63
  }

  lemma ValueOfCharOf(i: sextet)
    ensures ValueOf(CharOf(i)) == i
  {
  }

  lemma CharOfValueOf(ch: char)
    requires IsAlphabetChar(ch)
    ensures CharOf(ValueOf(ch)) == ch
  {
  }

  /** Three octets become four characters (section 4 of RFC 4648, 24-bit groups). */
  function EncodeGroup(a: byte, b: byte, c: byte): string
  {
    [CharOf(a / 4), CharOf((a % 4) * 16 + b / 16), CharOf((b % 16) * 4 + c / 64), CharOf(c % 64)]
  }

  /** The final, partial group: one octet gives two characters and `==`, two give three and `=`. */
  function EncodeTail(b: seq<byte>): string
    requires |b| < 3
  {
    if |b| == 0 then ""
    else if |b| == 1 then [CharOf(b[0] / 4), CharOf((b[0] % 4) * 16), Pad, Pad]
    else [CharOf(b[0] / 4), CharOf((b[0] % 4) * 16 + b[1] / 16), CharOf((b[1] % 16) * 4), Pad]
  }

  /**
    `base64.b64encode(b).decode("ascii")`. The output is four characters per started group of
    three octets, every character is of the alphabet or the pad, and padding only ever occupies
    the last two positions.
   */
  function Encode(b: seq<byte>): (s: string)
    ensures |s| == 4 * ((|b| + 2) / 3)
    ensures forall i :: 0 <= i < |s| ==> IsAlphabetChar(s[i]) || s[i] == Pad
    ensures forall i :: 0 <= i < |s| && s[i] == Pad ==> i >= |s| - 2
    decreases |b|
  {
    if |b| < 3 then EncodeTail(b)
    else
      var g := EncodeGroup(b[0], b[1], b[2]);
      assert forall i :: 0 <= i < |g| ==> IsAlphabetChar(g[i]);
      g + Encode(b[3..])
  }

  /** A colon is neither of the alphabet nor the pad, so no encoding contains one. */
  lemma NoColon(b: seq<byte>)
    ensures ':' !in Encode(b)
  {
  }

  /** Four alphabet characters become three octets. */
  function DecodeGroup(c0: sextet, c1: sextet, c2: sextet, c3: sextet): seq<byte>
  {
    [c0 as int * 4 + c1 as int / 16, (c1 as int % 16) * 16 + c2 as int / 4, (c2 as int % 4) * 64 + c3 as int]
  }

  /** True when the four characters of `s` from `k` on are all of the alphabet. */
  predicate FullGroupAt(s: string, k: nat)
    requires k + 4 <= |s|
  {
    IsAlphabetChar(s[k]) && IsAlphabetChar(s[k + 1]) && IsAlphabetChar(s[k + 2]) && IsAlphabetChar(s[k + 3])
  }

  /**
    Decodes the last group. Only canonical encodings are accepted: the bits an encoder sets to
    zero before the padding must be zero (section 3.5 of RFC 4648).
   */
  function DecodeLast(g: string): Option<seq<byte>>
    requires |g| == 4
  {
    if FullGroupAt(g, 0) then Some(DecodeGroup(ValueOf(g[0]), ValueOf(g[1]), ValueOf(g[2]), ValueOf(g[3])))
    else if IsAlphabetChar(g[0]) && IsAlphabetChar(g[1]) && g[2] == Pad && g[3] == Pad
      && ValueOf(g[1]) % 16 == 0 then
      Some([ValueOf(g[0]) * 4 + ValueOf(g[1]) / 16])
    else if IsAlphabetChar(g[0]) && IsAlphabetChar(g[1]) && IsAlphabetChar(g[2]) && g[3] == Pad
      && ValueOf(g[2]) % 4 == 0 then
      Some([ValueOf(g[0]) * 4 + ValueOf(g[1]) / 16, (ValueOf(g[1]) % 16) * 16 + ValueOf(g[2]) / 4])
    else None
  }

  /** Decodes a padded base 64 string; `None` when it is not the encoding of any octet string. */
  function Decode(s: string): Option<seq<byte>>
    decreases |s|
  {
    if |s| == 0 then Some([])
    else if |s| < 4 then None
    else if |s| == 4 then DecodeLast(s)
    else if !FullGroupAt(s, 0) then None
    else
      var rest := Decode(s[4..]);
      if rest.None? then None
      else Some(DecodeGroup(ValueOf(s[0]), ValueOf(s[1]), ValueOf(s[2]), ValueOf(s[3])) + rest.value)
  }

  lemma GroupRoundTrip(a: byte, b: byte, c: byte)
    ensures var g := EncodeGroup(a, b, c);
      FullGroupAt(g, 0) && DecodeGroup(ValueOf(g[0]), ValueOf(g[1]), ValueOf(g[2]), ValueOf(g[3])) == [a, b, c]
  {
    ValueOfCharOf(a / 4);
    ValueOfCharOf((a % 4) * 16 + b / 16);
    ValueOfCharOf((b % 16) * 4 + c / 64);
    ValueOfCharOf(c % 64);
    var i1, i2 := (a % 4) * 16 + b / 16, (b % 16) * 4 + c / 64;
    assert i1 / 16 == a % 4 && i1 % 16 == b / 16;
    assert i2 / 4 == b % 16 && i2 % 4 == c / 64;
  }

  lemma TailRoundTrip(b: seq<byte>)
    requires 0 < |b| < 3
    ensures DecodeLast(EncodeTail(b)) == Some(b)
  {
    var g := EncodeTail(b);
    if |b| == 1 {
      ValueOfCharOf(b[0] / 4);
      ValueOfCharOf((b[0] % 4) * 16);
      assert ((b[0] % 4) * 16) / 16 == b[0] % 4;
      assert !FullGroupAt(g, 0);
      assert [b[0]] == b;
    } else {
      var i1 := (b[0] % 4) * 16 + b[1] / 16;
      ValueOfCharOf(b[0] / 4);
      ValueOfCharOf(i1);
      ValueOfCharOf((b[1] % 16) * 4);
      assert i1 / 16 == b[0] % 4 && i1 % 16 == b[1] / 16;
      assert ((b[1] % 16) * 4) / 4 == b[1] % 16;
      assert !FullGroupAt(g, 0);
      assert [b[0], b[1]] == b;
    }
  }

  /** A leading full group is decoded on its own, in front of the rest. */
  lemma DecodeCons(g: string, t: string)
    requires |g| == 4 && FullGroupAt(g, 0) && |t| > 0
    ensures Decode(g + t) == if Decode(t).None? then None
      else Some(DecodeGroup(ValueOf(g[0]), ValueOf(g[1]), ValueOf(g[2]), ValueOf(g[3])) + Decode(t).value)
  {
    var s := g + t;
    assert s[..4] == g && s[4..] == t;
    assert FullGroupAt(s, 0);
  }

  /** Decoding undoes `base64.b64encode`. */
  lemma {:induction false} DecodeEncode(b: seq<byte>)
    ensures Decode(Encode(b)) == Some(b)
    decreases |b|
  {
    if |b| == 0 {
    } else if |b| < 3 {
      TailRoundTrip(b);
    } else {
      var g := EncodeGroup(b[0], b[1], b[2]);
      var t := Encode(b[3..]);
      assert Encode(b) == g + t;
      GroupRoundTrip(b[0], b[1], b[2]);
      if |b| == 3 {
        assert b[3..] == [];
        assert Encode(b) == g;
        assert b == [b[0], b[1], b[2]];
      } else {
        assert |t| >= 4 by {
          assert (|b[3..]| + 2) / 3 >= 1;
        }
        DecodeEncode(b[3..]);
        DecodeCons(g, t);
        SplitThree(b);
      }
    }
  }

  lemma SplitThree(b: seq<byte>)
    requires |b| >= 3
    ensures [b[0], b[1], b[2]] + b[3..] == b
  {
    assert b == b[..3] + b[3..];
  }

  /** Conversely, every string the decoder accepts is the encoding of what it decodes to. */
  lemma {:induction false} EncodeDecode(s: string)
    requires Decode(s).Some?
    ensures Encode(Decode(s).value) == s
    decreases |s|
  {
    if |s| == 4 {
      LastGroupCanonical(s);
    } else if |s| > 4 {
      var v := [ValueOf(s[0]), ValueOf(s[1]), ValueOf(s[2]), ValueOf(s[3])];
      var g := DecodeGroup(v[0], v[1], v[2], v[3]);
      EncodeDecode(s[4..]);
      var rest := Decode(s[4..]).value;
      GroupCanonical(s[..4]);
      assert Decode(s).value == g + rest;
      assert (g + rest)[3..] == rest;
      assert Encode(g + rest) == EncodeGroup(g[0], g[1], g[2]) + Encode(rest);
      assert s == s[..4] + s[4..];
    }
  }

  lemma GroupCanonical(g: string)
    requires |g| == 4 && FullGroupAt(g, 0)
    ensures var d := DecodeGroup(ValueOf(g[0]), ValueOf(g[1]), ValueOf(g[2]), ValueOf(g[3]));
      EncodeGroup(d[0], d[1], d[2]) == g
  {
    var v0, v1, v2, v3 := ValueOf(g[0]), ValueOf(g[1]), ValueOf(g[2]), ValueOf(g[3]);
    var d := DecodeGroup(v0, v1, v2, v3);
    GroupArith(v0, v1, v2, v3);
    assert d[0] / 4 == v0;
    assert (d[0] % 4) * 16 + d[1] / 16 == v1;
    assert (d[1] % 16) * 4 + d[2] / 64 == v2;
    assert d[2] % 64 == v3;
    CharOfValueOf(g[0]);
    CharOfValueOf(g[1]);
    CharOfValueOf(g[2]);
    CharOfValueOf(g[3]);
  }

  lemma GroupArith(v0: int, v1: int, v2: int, v3: int)
    requires 0 <= v0 < 64 && 0 <= v1 < 64 && 0 <= v2 < 64 && 0 <= v3 < 64
    ensures var a, b, c := v0 * 4 + v1 / 16, (v1 % 16) * 16 + v2 / 4, (v2 % 4) * 64 + v3;
      a / 4 == v0 && (a % 4) * 16 + b / 16 == v1 && (b % 16) * 4 + c / 64 == v2 && c % 64 == v3
  {
    var a, b, c := v0 * 4 + v1 / 16, (v1 % 16) * 16 + v2 / 4, (v2 % 4) * 64 + v3;
    assert a / 4 == v0 && a % 4 == v1 / 16;
    assert b / 16 == v1 % 16 && b % 16 == v2 / 4;
    assert c / 64 == v2 % 4 && c % 64 == v3;
  }

  lemma LastGroupCanonical(g: string)
    requires |g| == 4 && DecodeLast(g).Some?
    ensures Encode(DecodeLast(g).value) == g
  {
    if FullGroupAt(g, 0) {
      GroupCanonical(g);
      var d := DecodeLast(g).value;
      assert d[3..] == [];
    } else if g[2] == Pad {
      OneOctetCanonical(g);
    } else {
      TwoOctetsCanonical(g);
    }
  }

  /** A group `xy==` that decodes is the encoding of its one octet. */
  lemma OneOctetCanonical(g: string)
    requires |g| == 4 && IsAlphabetChar(g[0]) && IsAlphabetChar(g[1]) && g[2] == Pad && g[3] == Pad
    requires ValueOf(g[1]) % 16 == 0
    ensures var d := [ValueOf(g[0]) * 4 + ValueOf(g[1]) / 16];
      EncodeTail(d) == g
  {
    OneOctetArith(ValueOf(g[0]), ValueOf(g[1]));
    CharOfValueOf(g[0]);
    CharOfValueOf(g[1]);
  }

  lemma OneOctetArith(v0: int, v1: int)
    requires 0 <= v0 < 64 && 0 <= v1 < 64 && v1 % 16 == 0
    ensures var a := v0 * 4 + v1 / 16;
      0 <= a < 256 && a / 4 == v0 && (a % 4) * 16 == v1
  {
  }

  /** A group `xyz=` that decodes is the encoding of its two octets. */
  lemma TwoOctetsCanonical(g: string)
    requires |g| == 4 && IsAlphabetChar(g[0]) && IsAlphabetChar(g[1]) && IsAlphabetChar(g[2]) && g[3] == Pad
    requires ValueOf(g[2]) % 4 == 0
    ensures var d := [ValueOf(g[0]) * 4 + ValueOf(g[1]) / 16, (ValueOf(g[1]) % 16) * 16 + ValueOf(g[2]) / 4];
      EncodeTail(d) == g
  {
    TwoOctetsArith(ValueOf(g[0]), ValueOf(g[1]), ValueOf(g[2]));
    CharOfValueOf(g[0]);
    CharOfValueOf(g[1]);
    CharOfValueOf(g[2]);
  }

  lemma TwoOctetsArith(v0: int, v1: int, v2: int)
    requires 0 <= v0 < 64 && 0 <= v1 < 64 && 0 <= v2 < 64 && v2 % 4 == 0
    ensures var a, b := v0 * 4 + v1 / 16, (v1 % 16) * 16 + v2 / 4;
      && 0 <= a < 256 && 0 <= b < 256
      && a / 4 == v0 && (a % 4) * 16 + b / 16 == v1 && (b % 16) * 4 == v2
  {
    var a, b := v0 * 4 + v1 / 16, (v1 % 16) * 16 + v2 / 4;
    assert a / 4 == v0 && a % 4 == v1 / 16;
    assert b / 16 == v1 % 16 && b % 16 == v2 / 4;
  }
}
