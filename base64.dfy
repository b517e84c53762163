/** The base64 text a chunk travels as (`buffer.toString('base64')`): the
    alphabet of section 4 of RFC 4648, three bytes to four characters, with
    '=' padding for a final group of one or two bytes. `Decode` is the
    reference inverse the encoding is checked against. */
module Base64 {
  import opened Base

  /** The character of a 6-bit value: A-Z, a-z, 0-9, '+', '/'. */
  function CharOf(d: nat): (c: char)
    requires d < 64
    ensures c != '='
  {
    if d < 26 then ('A' as int + d) as char
    else if d < 52 then ('a' as int + d - 26) as char
    else if d < 62 then ('0' as int + d - 52) as char
    else if d == 62 then '+'
    else '/'
  }

  /** The 6-bit value of a character of the alphabet. */
  function SextetOf(c: char): (r: Option<nat>)
    ensures r.Some? ==> r.value < 64
  {
    if 'A' <= c <= 'Z' then Some(c as int - 'A' as int)
    else if 'a' <= c <= 'z' then Some(c as int - 'a' as int + 26)
    else if '0' <= c <= '9' then Some(c as int - '0' as int + 52)
    else if c == '+' then Some(62)
    else if c == '/' then Some(63)
    else None
  }

  lemma SextetOfChar(d: nat)
    requires d < 64
    ensures SextetOf(CharOf(d)) == Some(d)
  {
  }

  /** The four sextets of the 24-bit group `b0 b1 b2`, most significant first:
      the top six bits of `b0`; its low two bits and the top four of `b1`; the
      low four bits of `b1` and the top two of `b2`; the low six bits of `b2`. */
  function Sextets(b0: byte, b1: byte, b2: byte): (v: (nat, nat, nat, nat))
    ensures v.0 < 64 && v.1 < 64 && v.2 < 64 && v.3 < 64
  {
    var x0, x1, x2 := b0 as int, b1 as int, b2 as int;
    (x0 / 4, x0 % 4 * 16 + x1 / 16, x1 % 16 * 4 + x2 / 64, x2 % 64)
  }

  /** The four characters of the group `b0 b1 b2`. */
  function EncodeGroup(b0: byte, b1: byte, b2: byte): (s: string)
    ensures |s| == 4 && '=' !in s
  {
    var v := Sextets(b0, b1, b2);
    [CharOf(v.0), CharOf(v.1), CharOf(v.2), CharOf(v.3)]
  }

  /** The three bytes of the 24-bit group spelled by four sextets. */
  function DecodeGroup(v0: nat, v1: nat, v2: nat, v3: nat): seq<byte>
    requires v0 < 64 && v1 < 64 && v2 < 64 && v3 < 64
  {
    [(v0 * 4 + v1 / 16) as byte, (v1 % 16 * 16 + v2 / 4) as byte, (v2 % 4 * 64 + v3) as byte]
  }

  /** The final one or two bytes, padded with '=' to four characters. */
  function EncodeTail(b: seq<byte>): (s: string)
    requires |b| < 3
    ensures |s| == if |b| == 0 then 0 else 4
  {
    if |b| == 0 then ""
    else if |b| == 1 then EncodeGroup(b[0], 0, 0)[..2] + "=="
    else EncodeGroup(b[0], b[1], 0)[..3] + "="
  }

  function Encode(b: seq<byte>): string
    decreases |b|
  {
    if |b| < 3 then EncodeTail(b)
    else EncodeGroup(b[0], b[1], b[2]) + Encode(b[3..])
  }

  /** Every started group of three bytes takes four characters. */
  lemma {:induction false} EncodeLength(b: seq<byte>)
    ensures |Encode(b)| == 4 * ((|b| + 2) / 3)
    decreases |b|
  {
    if |b| >= 3 {
      EncodeLength(b[3..]);
      assert (|b| + 2) / 3 == (|b[3..]| + 2) / 3 + 1;
    }
  }

  /** The one to three bytes a group of four characters spells; '=' stands
      only at the end of a group. */
  function DecodeQuad(q: string): (r: Option<seq<byte>>)
    requires |q| == 4
    ensures r.Some? ==> 1 <= |r.value| <= 3
  {
    var v0, v1, v2, v3 := SextetOf(q[0]), SextetOf(q[1]), SextetOf(q[2]), SextetOf(q[3]);
    if v0.None? || v1.None? then None
    else if q[2] == '=' && q[3] == '=' then Some(DecodeGroup(v0.value, v1.value, 0, 0)[..1])
    else if v2.None? then None
    else if q[3] == '=' then Some(DecodeGroup(v0.value, v1.value, v2.value, 0)[..2])
    else if v3.None? then None
    else Some(DecodeGroup(v0.value, v1.value, v2.value, v3.value))
  }

  /** Reads four characters at a time; only the last group may be padded. */
  function Decode(s: string): (r: Option<seq<byte>>)
    decreases |s|
  {
    if |s| == 0 then Some([])
    else if |s| < 4 then None
    else
      var head := DecodeQuad(s[..4]);
      if head.None? || (|s| > 4 && |head.value| < 3) then None
      else
        match Decode(s[4..])
        case None => None
        case Some(rest) => Some(head.value + rest)
  }

  /** Splitting three bytes into sextets and joining them again gives them
      back. */
  lemma GroupRoundTrip(b0: byte, b1: byte, b2: byte)
    ensures var v := Sextets(b0, b1, b2);
      DecodeGroup(v.0, v.1, v.2, v.3) == [b0, b1, b2]
  {
    var x0, x1, x2 := b0 as int, b1 as int, b2 as int;
    var v := Sextets(b0, b1, b2);
    assert v.1 / 16 == x0 % 4 && v.1 % 16 == x1 / 16;
    assert v.2 / 4 == x1 % 16 && v.2 % 4 == x2 / 64;
  }

  /** The characters of a group read back as the sextets they were made from. */
  lemma GroupChars(b0: byte, b1: byte, b2: byte)
    ensures var g, v := EncodeGroup(b0, b1, b2), Sextets(b0, b1, b2);
      && SextetOf(g[0]) == Some(v.0) && SextetOf(g[1]) == Some(v.1)
      && SextetOf(g[2]) == Some(v.2) && SextetOf(g[3]) == Some(v.3)
  {
    var v := Sextets(b0, b1, b2);
    SextetOfChar(v.0);
    SextetOfChar(v.1);
    SextetOfChar(v.2);
    SextetOfChar(v.3);
  }

  lemma QuadOfGroup(b0: byte, b1: byte, b2: byte)
    ensures DecodeQuad(EncodeGroup(b0, b1, b2)) == Some([b0, b1, b2])
  {
    GroupChars(b0, b1, b2);
    GroupRoundTrip(b0, b1, b2);
  }

  lemma QuadOfTail(b: seq<byte>)
    requires 1 <= |b| < 3
    ensures DecodeQuad(EncodeTail(b)) == Some(b)
  {
    var b1: byte := if |b| == 2 then b[1] else 0;
    GroupChars(b[0], b1, 0);
    GroupRoundTrip(b[0], b1, 0);
    var g, v := EncodeGroup(b[0], b1, 0), Sextets(b[0], b1, 0);
    var q := EncodeTail(b);
    assert q[0] == g[0] && q[1] == g[1];
    if |b| == 1 {
      assert v.2 == 0 && v.3 == 0;
      assert DecodeGroup(v.0, v.1, 0, 0)[..1] == [b[0]] == b;
    } else {
      assert q[2] == g[2] && q[3] == '=';
      assert v.3 == 0;
      assert DecodeGroup(v.0, v.1, v.2, 0)[..2] == [b[0], b[1]] == b;
    }
  }

  /** Decoding the encoding of any byte sequence gives it back, so distinct
      chunks are sent as distinct texts. */
  lemma {:induction false} DecodeEncode(b: seq<byte>)
    ensures Decode(Encode(b)) == Some(b)
    decreases |b|
  {
    if 1 <= |b| < 3 {
      QuadOfTail(b);
      var s := Encode(b);
      assert |s| == 4;
      assert s[..4] == s && s[4..] == [];
      assert b + [] == b;
    } else if |b| >= 3 {
      var head, rest := b[..3], b[3..];
      QuadOfGroup(b[0], b[1], b[2]);
      assert head == [b[0], b[1], b[2]];
      var s := Encode(b);
      assert s[..4] == EncodeGroup(b[0], b[1], b[2]);
      assert s[4..] == Encode(rest);
      DecodeEncode(rest);
      assert b == head + rest;
    }
  }

  lemma EncodeInjective(a: seq<byte>, b: seq<byte>)
    requires Encode(a) == Encode(b)
    ensures a == b
  {
    DecodeEncode(a);
    DecodeEncode(b);
  }

  /** The test vectors of section 10 of RFC 4648: "f" is "Zg==", "fo" is
      "Zm8=" and "foo" is "Zm9v". */
  lemma {:induction false} EncodeExamples()
    ensures Encode([102]) == "Zg=="
    ensures Encode([102, 111]) == "Zm8="
    ensures Encode([102, 111, 111]) == "Zm9v"
  {
    assert EncodeGroup(102, 0, 0)[..2] == "Zg";
    assert EncodeGroup(102, 111, 0)[..3] == "Zm8";
    var b: seq<byte> := [102, 111, 111];
    assert b[3..] == [];
  }
}
