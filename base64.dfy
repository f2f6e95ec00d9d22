/**
 * Base64 as defined in RFC 4648, without line breaks: the standard
 * alphabet of section 4 (Table 1), which `Base64.NO_WRAP` uses, and the
 * URL- and filename-safe alphabet of section 5, which differs only in the
 * characters for values 62 and 63.
 */
module Base64 {
  import opened Wrappers
  import opened Utf8

  datatype Alphabet = Standard | UrlSafe

  type Sextet = v: int | 0 <= v < 64

  /** The character that stands for `v`. */
  function CharOf(a: Alphabet, v: Sextet): (c: char)
    ensures c != '='
    ensures a.UrlSafe? ==> c != '/' && c != '+'
    ensures a.Standard? ==> (c == '/' <==> v == 63)
  {
    if v < 26 then ('A' as int + v) as char
    else if v < 52 then ('a' as int + v - 26) as char
    else if v < 62 then ('0' as int + v - 52) as char
    else if v == 62 then (if a.Standard? then '+' else '-')
    else (if a.Standard? then '/' else '_')
  }

  /** The value a character stands for, if it belongs to the alphabet. */
  function ValueOf(a: Alphabet, c: char): (r: Option<Sextet>)
    ensures r.Some? ==> CharOf(a, r.value) == c
  {
    if 'A' <= c <= 'Z' then Some(c as int - 'A' as int)
    else if 'a' <= c <= 'z' then Some(c as int - 'a' as int + 26)
    else if '0' <= c <= '9' then Some(c as int - '0' as int + 52)
    else if c == (if a.Standard? then '+' else '-') then Some(62)
    else if c == (if a.Standard? then '/' else '_') then Some(63)
    else None
  }

  lemma ValueOfCharOf(a: Alphabet, v: Sextet)
    ensures ValueOf(a, CharOf(a, v)) == Some(v)
  {
  }

  /** Four characters for three bytes: 24 bits cut into four 6-bit values, most significant first. */
  function EncodeGroup(a: Alphabet, b0: Byte, b1: Byte, b2: Byte): (g: seq<char>) {
    [CharOf(a, b0 / 4), CharOf(a, (b0 % 4) * 16 + b1 / 16),
     CharOf(a, (b1 % 16) * 4 + b2 / 64), CharOf(a, b2 % 64)]
  }

  /** `Base64.encodeToString(bytes, NO_WRAP)` with the chosen alphabet; a final group of one or two bytes is padded with '='. */
  function Encode(a: Alphabet, bs: seq<Byte>): (s: seq<char>)
    ensures |s| == 4 * ((|bs| + 2) / 3)
    decreases |bs|
  {
    if |bs| == 0 then []
    else if |bs| == 1 then [CharOf(a, bs[0] / 4), CharOf(a, (bs[0] % 4) * 16), '=', '=']
    else if |bs| == 2 then
      [CharOf(a, bs[0] / 4), CharOf(a, (bs[0] % 4) * 16 + bs[1] / 16), CharOf(a, (bs[1] % 16) * 4), '=']
    else EncodeGroup(a, bs[0], bs[1], bs[2]) + Encode(a, bs[3..])
  }

  /** The bytes of one group of four characters, of which the last `pad` are '='; `None` if a character is outside the alphabet. */
  function DecodeGroup(a: Alphabet, g: seq<char>, pad: nat): (r: Option<seq<Byte>>)
    requires |g| == 4 && pad <= 2
    ensures r.Some? ==> |r.value| == 3 - pad
  {
    var v0 := ValueOf(a, g[0]);
    var v1 := ValueOf(a, g[1]);
    var v2 := if pad == 2 then Some(0) else ValueOf(a, g[2]);
    var v3 := if pad >= 1 then Some(0) else ValueOf(a, g[3]);
    if v0.None? || v1.None? || v2.None? || v3.None? then None
    else
      var x0: int, x1: int, x2: int, x3: int := v0.value, v1.value, v2.value, v3.value;
      var y0: Byte, y1: Byte, y2: Byte := x0 * 4 + x1 / 16, (x1 % 16) * 16 + x2 / 4, (x2 % 4) * 64 + x3;
      Some(if pad == 2 then [y0] else if pad == 1 then [y0, y1] else [y0, y1, y2])
  }

  /** How many '=' close a group: two, one or none. */
  function Padding(g: seq<char>): (pad: nat)
    requires |g| == 4
    ensures pad <= 2
  {
    if g[2] == '=' && g[3] == '=' then 2 else if g[3] == '=' then 1 else 0
  }

  /**
   * `Base64.decode(s, NO_WRAP)` on strict input: the length is a multiple
   * of four, every character is in the alphabet, and '=' appears only as
   * the padding of the last group. Anything else has no decoding.
   */
  function Decode(a: Alphabet, s: seq<char>): (r: Option<seq<Byte>>)
    ensures r.Some? ==> |s| % 4 == 0
    decreases |s|
  {
    if |s| == 0 then Some([])
    else if |s| < 4 then None
    else if |s| == 4 then DecodeGroup(a, s, Padding(s))
    else
      match DecodeGroup(a, s[..4], 0)
      case None => None
      case Some(head) =>
        match Decode(a, s[4..])
        case None => None
        case Some(tail) => Some(head + tail)
  }

  lemma DivMod16(q: int, r: int)
    requires 0 <= r < 16 && 0 <= q
    ensures (q * 16 + r) / 16 == q && (q * 16 + r) % 16 == r
  {
  }

  lemma DivMod4(q: int, r: int)
    requires 0 <= r < 4 && 0 <= q
    ensures (q * 4 + r) / 4 == q && (q * 4 + r) % 4 == r
  {
  }

  /** The three 6-bit values of two bytes give the two bytes back. */
  lemma RegroupTwo(b0: Byte, b1: Byte)
    ensures (b0 / 4) * 4 + ((b0 % 4) * 16 + b1 / 16) / 16 == b0
    ensures (((b0 % 4) * 16 + b1 / 16) % 16) * 16 + ((b1 % 16) * 4) / 4 == b1
  {
    DivMod16(b0 % 4, b1 / 16);
    DivMod4(b1 % 16, 0);
  }

  lemma DecodeEncodeGroup(a: Alphabet, b0: Byte, b1: Byte, b2: Byte)
    ensures DecodeGroup(a, EncodeGroup(a, b0, b1, b2), 0) == Some([b0, b1, b2])
  {
    var v1 := (b0 % 4) * 16 + b1 / 16;
    var v2 := (b1 % 16) * 4 + b2 / 64;
    ValueOfCharOf(a, b0 / 4);
    ValueOfCharOf(a, v1);
    ValueOfCharOf(a, v2);
    ValueOfCharOf(a, b2 % 64);
    DivMod16(b0 % 4, b1 / 16);
    DivMod4(b1 % 16, b2 / 64);
    var g := EncodeGroup(a, b0, b1, b2);
    assert ValueOf(a, g[0]) == Some(b0 / 4) && ValueOf(a, g[1]) == Some(v1);
    assert ValueOf(a, g[2]) == Some(v2) && ValueOf(a, g[3]) == Some(b2 % 64);
    assert (b0 / 4) * 4 + v1 / 16 == b0;
    assert (v1 % 16) * 16 + v2 / 4 == b1;
    assert (v2 % 4) * 64 + b2 % 64 == b2;
  }

  /** A final group of one byte, padded with "==", decodes to that byte. */
  lemma DecodeEncodeOne(a: Alphabet, bs: seq<Byte>)
    requires |bs| == 1
    ensures Decode(a, Encode(a, bs)) == Some(bs)
  {
    var s := Encode(a, bs);
    ValueOfCharOf(a, bs[0] / 4);
    ValueOfCharOf(a, (bs[0] % 4) * 16);
    assert Padding(s) == 2;
    DivMod16(bs[0] % 4, 0);
    assert ValueOf(a, s[0]) == Some(bs[0] / 4) && ValueOf(a, s[1]) == Some((bs[0] % 4) * 16);
    assert (bs[0] / 4) * 4 + ((bs[0] % 4) * 16) / 16 == bs[0];
    assert DecodeGroup(a, s, 2) == Some([bs[0]]);
    assert bs == [bs[0]];
  }

  /** A final group of two bytes, padded with "=", decodes to those bytes. */
  lemma DecodeEncodeTwo(a: Alphabet, bs: seq<Byte>)
    requires |bs| == 2
    ensures Decode(a, Encode(a, bs)) == Some(bs)
  {
    var s := Encode(a, bs);
    var v1 := (bs[0] % 4) * 16 + bs[1] / 16;
    ValueOfCharOf(a, bs[0] / 4);
    ValueOfCharOf(a, v1);
    ValueOfCharOf(a, (bs[1] % 16) * 4);
    assert Padding(s) == 1;
    RegroupTwo(bs[0], bs[1]);
    assert ValueOf(a, s[0]) == Some(bs[0] / 4) && ValueOf(a, s[1]) == Some(v1);
    assert ValueOf(a, s[2]) == Some((bs[1] % 16) * 4);
    assert DecodeGroup(a, s, 1) == Some([bs[0], bs[1]]);
    assert bs == [bs[0], bs[1]];
  }

  /** A full group followed by more text decodes to the group's bytes followed by the rest's. */
  lemma DecodeFullGroupFirst(a: Alphabet, g: seq<char>, rest: seq<char>, head: seq<Byte>)
    requires |g| == 4 && rest != [] && DecodeGroup(a, g, 0) == Some(head)
    ensures Decode(a, g + rest) == (match Decode(a, rest) case None => None case Some(tail) => Some(head + tail))
  {
    var s := g + rest;
    assert s[..4] == g && s[4..] == rest;
  }

  /** A final group of three bytes, without padding, decodes to those bytes. */
  lemma DecodeEncodeThree(a: Alphabet, bs: seq<Byte>)
    requires |bs| == 3
    ensures Decode(a, Encode(a, bs)) == Some(bs)
  {
    var g := EncodeGroup(a, bs[0], bs[1], bs[2]);
    assert bs[3..] == [];
    assert Encode(a, bs) == g + Encode(a, bs[3..]) == g;
    DecodeEncodeGroup(a, bs[0], bs[1], bs[2]);
    assert Padding(g) == 0 by { assert g[3] == CharOf(a, bs[2] % 64); }
    assert bs == [bs[0], bs[1], bs[2]];
  }

  /** `fromBase64(toBase64(bytes))` gives back the bytes, for either alphabet. */
  lemma {:induction false} DecodeEncode(a: Alphabet, bs: seq<Byte>)
    ensures Decode(a, Encode(a, bs)) == Some(bs)
    decreases |bs|
  {
    if |bs| == 1 {
      DecodeEncodeOne(a, bs);
    } else if |bs| == 2 {
      DecodeEncodeTwo(a, bs);
    } else if |bs| == 3 {
      DecodeEncodeThree(a, bs);
    } else if |bs| > 3 {
      var g := EncodeGroup(a, bs[0], bs[1], bs[2]);
      var rest := Encode(a, bs[3..]);
      assert Encode(a, bs) == g + rest;
      DecodeEncodeGroup(a, bs[0], bs[1], bs[2]);
      DecodeEncode(a, bs[3..]);
      DecodeFullGroupFirst(a, g, rest, [bs[0], bs[1], bs[2]]);
      assert bs == [bs[0], bs[1], bs[2]] + bs[3..];
    }
  }

  /** `toBase64` on a string: the Base64 of its UTF-8 bytes. */
  function EncodeString(a: Alphabet, s: string): (e: string)
    ensures |e| == 4 * ((|Utf8.Encode(s)| + 2) / 3)
    ensures s != "" ==> e != ""
  {
    Encode(a, Utf8.Encode(s))
  }

  /** `fromBase64` on a string: decode, then read the bytes as UTF-8. */
  function DecodeString(a: Alphabet, s: string): (r: Option<string>)
    ensures r.Some? ==> |s| % 4 == 0 && Decode(a, s).Some?
    ensures r.Some? ==> |r.value| <= |Decode(a, s).value|
  {
    match Decode(a, s)
    case None => None
    case Some(bs) => Utf8.Decode(bs)
  }

  /** `fromBase64(toBase64(s)) == s`. */
  lemma DecodeEncodeString(a: Alphabet, s: string)
    ensures DecodeString(a, EncodeString(a, s)) == Some(s)
  {
    DecodeEncode(a, Utf8.Encode(s));
    Utf8.DecodeEncode(s);
  }

  /** A URL-safe encoding never contains '/', so it is always a single path segment. */
  lemma {:induction false} UrlSafeHasNoSlash(bs: seq<Byte>)
    ensures '/' !in Encode(UrlSafe, bs)
    decreases |bs|
  {
    if |bs| >= 3 {
      UrlSafeHasNoSlash(bs[3..]);
    }
  }
}
