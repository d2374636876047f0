/**
 * `base64URLEncode` of the gateway (worker/src/index.js): standard base64 by
 * `btoa`, then `+` becomes `-`, `/` becomes `_` and the trailing `=` run is
 * removed. It is proved equal to the unpadded base64url encoding of section 5
 * of RFC 4648 (as Appendix A of RFC 7636 asks for the PKCE challenge), and a
 * decoder is given with the round trip.
 */
module Base64Url {
  import opened JsValues

  /** Value `i` of the standard alphabet, Table 1 of RFC 4648. */
  function StdChar(i: int): char
    requires 0 <= i < 64
  {
    if i < 26 then ('A' as int + i) as char
    else if i < 52 then ('a' as int + (i - 26)) as char
    else if i < 62 then ('0' as int + (i - 52)) as char
    else if i == 62 then '+'
    else '/'
  }

  /** Value `i` of the URL- and filename-safe alphabet, Table 2 of RFC 4648. */
  function UrlChar(i: int): (c: char)
    requires 0 <= i < 64
    ensures c != '=' && c != '+' && c != '/'
  {
    if i < 26 then ('A' as int + i) as char
    else if i < 52 then ('a' as int + (i - 26)) as char
    else if i < 62 then ('0' as int + (i - 52)) as char
    else if i == 62 then '-'
    else '_'
  }

  /** The value of a character of the URL-safe alphabet, or `None` for any other character. */
  function UrlValue(c: char): (v: Option<int>)
    ensures v.Some? ==> 0 <= v.value < 64 && UrlChar(v.value) == c
  {
    if 'A' <= c <= 'Z' then Some(c as int - 'A' as int)
    else if 'a' <= c <= 'z' then Some(c as int - 'a' as int + 26)
    else if '0' <= c <= '9' then Some(c as int - '0' as int + 52)
    else if c == '-' then Some(62)
    else if c == '_' then Some(63)
    else None
  }

  lemma UrlValueOfUrlChar(i: int)
    requires 0 <= i < 64
    ensures UrlValue(UrlChar(i)) == Some(i)
  {
  }

  /** The four 6-bit groups of the 24 bits of three bytes, most significant first (section 4 of RFC 4648). */
  function Sextet0(x: byte): (v: int) ensures 0 <= v < 64 { x / 4 }
  function Sextet1(x: byte, y: byte): (v: int) ensures 0 <= v < 64 { x % 4 * 16 + y / 16 }
  function Sextet2(y: byte, z: byte): (v: int) ensures 0 <= v < 64 { y % 16 * 4 + z / 64 }
  function Sextet3(z: byte): (v: int) ensures 0 <= v < 64 { z % 64 }

  /** `btoa` to the bytes read as Latin-1 characters: standard base64 with `=` padding (section 4 of RFC 4648). */
  function Btoa(b: seq<byte>): (r: string)
    ensures |r| == 4 * ((|b| + 2) / 3)
  {
    if |b| == 0 then ""
    else if |b| == 1 then
      [StdChar(Sextet0(b[0])), StdChar(Sextet1(b[0], 0)), '=', '=']
    else if |b| == 2 then
      [StdChar(Sextet0(b[0])), StdChar(Sextet1(b[0], b[1])), StdChar(Sextet2(b[1], 0)), '=']
    else
      StdQuad(b[0], b[1], b[2]) + Btoa(b[3..])
  }

  /** `s.replace(/x/g, y)` for single characters. */
  function ReplaceAll(s: string, x: char, y: char): (r: string)
    ensures |r| == |s|
    ensures x != y ==> x !in r
  {
    seq(|s|, i requires 0 <= i < |s| => if s[i] == x then y else s[i])
  }

  /** `s.replace(/=+$/, '')`: the run of `=` at the end removed. */
  function StripTrailingPadding(s: string): (r: string)
    ensures |r| <= |s| && r == s[..|r|]
    ensures r == [] || r[|r| - 1] != '='
    ensures forall i :: |r| <= i < |s| ==> s[i] == '='
  {
    if s == [] || s[|s| - 1] != '=' then s else StripTrailingPadding(s[..|s| - 1])
  }

  /** `base64URLEncode(buffer)` as the gateway writes it. */
  function Base64UrlEncode(b: seq<byte>): (r: string)
    ensures '+' !in r && '/' !in r
    ensures r == [] || r[|r| - 1] != '='
  {
    var s := UrlSafe(Btoa(b));
    var r := StripTrailingPadding(s);
    assert forall i :: 0 <= i < |r| ==> r[i] == s[i];
    r
  }

  /** The reference: base64url without padding, section 5 of RFC 4648 with the padding of section 3.2 omitted. */
  function UnpaddedBase64Url(b: seq<byte>): (r: string)
    ensures forall i :: 0 <= i < |r| ==> UrlValue(r[i]).Some?
  {
    if |b| == 0 then ""
    else if |b| == 1 then
      [UrlChar(Sextet0(b[0])), UrlChar(Sextet1(b[0], 0))]
    else if |b| == 2 then
      [UrlChar(Sextet0(b[0])), UrlChar(Sextet1(b[0], b[1])), UrlChar(Sextet2(b[1], 0))]
    else
      var r := UrlQuad(b[0], b[1], b[2]) + UnpaddedBase64Url(b[3..]);
      assert forall k :: 0 <= k < 4 ==> UrlValue(r[k]).Some? by {
        UrlValueOfUrlChar(Sextet0(b[0]));
        UrlValueOfUrlChar(Sextet1(b[0], b[1]));
        UrlValueOfUrlChar(Sextet2(b[1], b[2]));
        UrlValueOfUrlChar(Sextet3(b[2]));
      }
      r
  }

  /** Four characters for every full group of three bytes, and two or three for a final partial group. */
  lemma {:induction false} UnpaddedLength(b: seq<byte>)
    ensures |UnpaddedBase64Url(b)| == (4 * |b| + 2) / 3
  {
    if |b| > 2 {
      UnpaddedLength(b[3..]);
      UnpaddedGroup(b);
    }
  }

  /** The two replacements of `base64URLEncode`, in the order it applies them. */
  function UrlSafe(s: string): string {
    ReplaceAll(ReplaceAll(s, '+', '-'), '/', '_')
  }

  lemma UrlSafeAt(s: string, i: int)
    requires 0 <= i < |s|
    ensures |UrlSafe(s)| == |s|
    ensures UrlSafe(s)[i] == if s[i] == '+' then '-' else if s[i] == '/' then '_' else s[i]
  {
  }

  /** The replacements work character by character, so they distribute over concatenation. */
  lemma UrlSafeConcat(a: string, b: string)
    ensures UrlSafe(a + b) == UrlSafe(a) + UrlSafe(b)
  {
    var l, r := UrlSafe(a + b), UrlSafe(a) + UrlSafe(b);
    forall i | 0 <= i < |a + b| ensures l[i] == r[i] {
      UrlSafeAt(a + b, i);
      if i < |a| { UrlSafeAt(a, i); } else { UrlSafeAt(b, i - |a|); }
    }
  }

  /** On the characters of the standard alphabet the replacements give the URL-safe alphabet. */
  lemma UrlSafeStd(i: int)
    requires 0 <= i < 64
    ensures UrlSafe([StdChar(i)]) == [UrlChar(i)]
  {
    UrlSafeAt([StdChar(i)], 0);
  }

  lemma UrlSafeQuad(a: string, b: string, c: string, d: string)
    ensures UrlSafe(a + b + c + d) == UrlSafe(a) + UrlSafe(b) + UrlSafe(c) + UrlSafe(d)
  {
    UrlSafeConcat(a + b + c, d);
    UrlSafeConcat(a + b, c);
    UrlSafeConcat(a, b);
  }

  lemma TranslatedBtoa1(b: seq<byte>)
    requires |b| == 1
    ensures UrlSafe(Btoa(b)) == UnpaddedBase64Url(b) + "=="
  {
    var c0, c1 := Sextet0(b[0]), Sextet1(b[0], 0);
    assert Btoa(b) == [StdChar(c0)] + [StdChar(c1)] + "=" + "=";
    UrlSafeQuad([StdChar(c0)], [StdChar(c1)], "=", "=");
    UrlSafeStd(c0); UrlSafeStd(c1);
    UrlSafeAt("=", 0);
  }

  lemma TranslatedBtoa2(b: seq<byte>)
    requires |b| == 2
    ensures UrlSafe(Btoa(b)) == UnpaddedBase64Url(b) + "="
  {
    var c0, c1, c2 := Sextet0(b[0]), Sextet1(b[0], b[1]), Sextet2(b[1], 0);
    assert Btoa(b) == [StdChar(c0)] + [StdChar(c1)] + [StdChar(c2)] + "=";
    UrlSafeQuad([StdChar(c0)], [StdChar(c1)], [StdChar(c2)], "=");
    UrlSafeStd(c0); UrlSafeStd(c1); UrlSafeStd(c2);
    UrlSafeAt("=", 0);
  }

  /** A translated group in front of a translated remainder. */
  lemma TranslatedPrefix(std: string, url: string, stdRest: string, urlRest: string, pad: string)
    requires UrlSafe(std) == url && UrlSafe(stdRest) == urlRest + pad
    ensures UrlSafe(std + stdRest) == url + urlRest + pad
  {
    UrlSafeConcat(std, stdRest);
  }

  /** Translating `btoa`'s output gives the reference followed by the padding. */
  lemma {:induction false} TranslatedBtoa(b: seq<byte>)
    ensures UrlSafe(Btoa(b)) == UnpaddedBase64Url(b) + Padding(|b|)
  {
    if |b| == 0 {
      assert UrlSafe("") == "";
    } else if |b| == 1 {
      TranslatedBtoa1(b);
    } else if |b| == 2 {
      TranslatedBtoa2(b);
    } else {
      TranslatedBtoa(b[3..]);
      TranslatedGroup(b);
    }
  }

  lemma TranslatedGroup(b: seq<byte>)
    requires |b| >= 3
    requires UrlSafe(Btoa(b[3..])) == UnpaddedBase64Url(b[3..]) + Padding(|b[3..]|)
    ensures UrlSafe(Btoa(b)) == UnpaddedBase64Url(b) + Padding(|b|)
  {
    var std, url := StdQuad(b[0], b[1], b[2]), UrlQuad(b[0], b[1], b[2]);
    var stdRest, urlRest, pad := Btoa(b[3..]), UnpaddedBase64Url(b[3..]), Padding(|b[3..]|);
    TranslatedQuad(b[0], b[1], b[2]);
    TranslatedPrefix(std, url, stdRest, urlRest, pad);
    BtoaGroup(b);
    UnpaddedGroup(b);
    PaddingGroup(|b|);
  }

  lemma PaddingGroup(n: nat)
    requires n >= 3
    ensures Padding(n) == Padding(n - 3)
  {
  }

  lemma BtoaGroup(b: seq<byte>)
    requires |b| >= 3
    ensures Btoa(b) == StdQuad(b[0], b[1], b[2]) + Btoa(b[3..])
  {
  }

  lemma UnpaddedGroup(b: seq<byte>)
    requires |b| >= 3
    ensures UnpaddedBase64Url(b) == UrlQuad(b[0], b[1], b[2]) + UnpaddedBase64Url(b[3..])
  {
  }

  /** The four standard-alphabet characters of three bytes. */
  function StdQuad(x: byte, y: byte, z: byte): string {
    [StdChar(Sextet0(x)), StdChar(Sextet1(x, y)), StdChar(Sextet2(y, z)), StdChar(Sextet3(z))]
  }

  /** The four URL-safe characters of three bytes. */
  function UrlQuad(x: byte, y: byte, z: byte): string {
    [UrlChar(Sextet0(x)), UrlChar(Sextet1(x, y)), UrlChar(Sextet2(y, z)), UrlChar(Sextet3(z))]
  }

  lemma TranslatedQuad(x: byte, y: byte, z: byte)
    ensures UrlSafe(StdQuad(x, y, z)) == UrlQuad(x, y, z)
  {
    var c0, c1, c2, c3 := Sextet0(x), Sextet1(x, y), Sextet2(y, z), Sextet3(z);
    assert StdQuad(x, y, z) == [StdChar(c0)] + [StdChar(c1)] + [StdChar(c2)] + [StdChar(c3)];
    UrlSafeQuad([StdChar(c0)], [StdChar(c1)], [StdChar(c2)], [StdChar(c3)]);
    UrlSafeStd(c0); UrlSafeStd(c1); UrlSafeStd(c2); UrlSafeStd(c3);
  }

  /** The `=` characters `btoa` appends for an input of length `n`. */
  function Padding(n: nat): string {
    if n % 3 == 1 then "==" else if n % 3 == 2 then "=" else ""
  }

  /** Stripping the `=` run after a string that does not end in `=` gives back that string. */
  lemma StripPadding(x: string, pad: string)
    requires x == [] || x[|x| - 1] != '='
    requires pad == "" || pad == "=" || pad == "=="
    ensures StripTrailingPadding(x + pad) == x
  {
    if pad == "==" {
      assert (x + pad)[..|x + pad| - 1] == x + "=";
      assert (x + "=")[..|x| ] == x;
    } else if pad == "=" {
      assert (x + pad)[..|x + pad| - 1] == x;
    } else {
      assert x + pad == x;
    }
  }

  /** The gateway's `base64URLEncode` is the unpadded base64url encoding of RFC 4648 section 5. */
  lemma Base64UrlEncodeIsRfc4648Section5(b: seq<byte>)
    ensures Base64UrlEncode(b) == UnpaddedBase64Url(b)
    ensures |Base64UrlEncode(b)| == (4 * |b| + 2) / 3
  {
    TranslatedBtoa(b);
    UnpaddedLength(b);
    var u := UnpaddedBase64Url(b);
    if u != [] {
      assert UrlValue(u[|u| - 1]).Some?;
    }
    StripPadding(u, Padding(|b|));
  }

  /** The bytes a group's sextets spell, each from two neighbouring sextets. */
  function Byte0(v0: int, v1: int): int { v0 * 4 + v1 / 16 }
  function Byte1(v1: int, v2: int): int { v1 % 16 * 16 + v2 / 4 }
  function Byte2(v2: int, v3: int): int { v2 % 4 * 64 + v3 }

  /** One group of two, three or four characters back to one, two or three bytes. */
  function DecodeGroup(g: string): (r: Option<seq<byte>>)
    requires 2 <= |g| <= 4
    ensures r.Some? ==> |r.value| == |g| - 1
  {
    var v0, v1 := UrlValue(g[0]), UrlValue(g[1]);
    if v0.None? || v1.None? then None
    else
      var b0 := Byte0(v0.value, v1.value);
      if |g| == 2 then Some([b0])
      else
        var v2 := UrlValue(g[2]);
        if v2.None? then None
        else
          var b1 := Byte1(v1.value, v2.value);
          if |g| == 3 then Some([b0, b1])
          else
            var v3 := UrlValue(g[3]);
            if v3.None? then None else Some([b0, b1, Byte2(v2.value, v3.value)])
  }

  /** Decoding of unpadded base64url: groups of four characters, the last group possibly of two or three. */
  function Decode(s: string): Option<seq<byte>>
  {
    if |s| == 0 then Some([])
    else if |s| == 1 then None
    else if |s| <= 4 then DecodeGroup(s)
    else
      match (DecodeGroup(s[..4]), Decode(s[4..]))
      case (Some(head), Some(rest)) => Some(head + rest)
      case _ => None
  }

  /** A group whose characters have the given values decodes to the bytes those values spell. */
  lemma DecodeGroupOf(g: string, v0: int, v1: int, v2: int, v3: int)
    requires 2 <= |g| <= 4
    requires UrlValue(g[0]) == Some(v0) && UrlValue(g[1]) == Some(v1)
    requires |g| >= 3 ==> UrlValue(g[2]) == Some(v2)
    requires |g| == 4 ==> UrlValue(g[3]) == Some(v3)
    ensures |g| == 2 ==> DecodeGroup(g) == Some([Byte0(v0, v1)])
    ensures |g| == 3 ==> DecodeGroup(g) == Some([Byte0(v0, v1), Byte1(v1, v2)])
    ensures |g| == 4 ==> DecodeGroup(g) == Some([Byte0(v0, v1), Byte1(v1, v2), Byte2(v2, v3)])
  {
  }

  /** The sextets determine the bytes. */
  lemma ByteSplit(x: byte, y: byte, z: byte)
    ensures Byte0(Sextet0(x), Sextet1(x, y)) == x
    ensures Byte1(Sextet1(x, y), Sextet2(y, z)) == y
    ensures Byte2(Sextet2(y, z), Sextet3(z)) == z
  {
  }

  lemma DecodeQuad(x: byte, y: byte, z: byte)
    ensures DecodeGroup(UrlQuad(x, y, z)) == Some([x, y, z])
  {
    var v0, v1, v2, v3 := Sextet0(x), Sextet1(x, y), Sextet2(y, z), Sextet3(z);
    UrlValueOfUrlChar(v0);
    UrlValueOfUrlChar(v1);
    UrlValueOfUrlChar(v2);
    UrlValueOfUrlChar(v3);
    DecodeGroupOf(UrlQuad(x, y, z), v0, v1, v2, v3);
    ByteSplit(x, y, z);
  }

  /** The two characters of a lone final byte decode back to it. */
  lemma DecodeLastByte(x: byte)
    ensures DecodeGroup([UrlChar(Sextet0(x)), UrlChar(Sextet1(x, 0))]) == Some([x])
  {
    var v0, v1 := Sextet0(x), Sextet1(x, 0);
    UrlValueOfUrlChar(v0);
    UrlValueOfUrlChar(v1);
    DecodeGroupOf([UrlChar(v0), UrlChar(v1)], v0, v1, 0, 0);
    ByteSplit(x, 0, 0);
  }

  /** The three characters of two final bytes decode back to them. */
  lemma DecodeLastBytes(x: byte, y: byte)
    ensures DecodeGroup([UrlChar(Sextet0(x)), UrlChar(Sextet1(x, y)), UrlChar(Sextet2(y, 0))]) == Some([x, y])
  {
    var v0, v1, v2 := Sextet0(x), Sextet1(x, y), Sextet2(y, 0);
    UrlValueOfUrlChar(v0);
    UrlValueOfUrlChar(v1);
    UrlValueOfUrlChar(v2);
    DecodeGroupOf([UrlChar(v0), UrlChar(v1), UrlChar(v2)], v0, v1, v2, 0);
    ByteSplit(x, y, 0);
  }

  lemma DecodeUnpadded1(b: seq<byte>)
    requires |b| == 1
    ensures Decode(UnpaddedBase64Url(b)) == Some(b)
  {
    assert b == [b[0]];
    assert UnpaddedBase64Url(b) == [UrlChar(Sextet0(b[0])), UrlChar(Sextet1(b[0], 0))];
    DecodeLastByte(b[0]);
  }

  lemma DecodeUnpadded2(b: seq<byte>)
    requires |b| == 2
    ensures Decode(UnpaddedBase64Url(b)) == Some(b)
  {
    assert b == [b[0], b[1]];
    assert UnpaddedBase64Url(b) == [UrlChar(Sextet0(b[0])), UrlChar(Sextet1(b[0], b[1])), UrlChar(Sextet2(b[1], 0))];
    DecodeLastBytes(b[0], b[1]);
  }

  lemma DecodeUnpadded3(b: seq<byte>)
    requires |b| == 3
    ensures Decode(UnpaddedBase64Url(b)) == Some(b)
  {
    var g := UrlQuad(b[0], b[1], b[2]);
    UnpaddedGroup(b);
    assert UnpaddedBase64Url(b[3..]) == "";
    assert UnpaddedBase64Url(b) == g;
    DecodeQuad(b[0], b[1], b[2]);
    assert b == [b[0], b[1], b[2]];
  }

  /** `Decode` splits off the first group of a text longer than one group. */
  lemma DecodeSplit(g: string, rest: string, head: seq<byte>, tail: seq<byte>)
    requires |g| == 4 && |rest| >= 1
    requires DecodeGroup(g) == Some(head) && Decode(rest) == Some(tail)
    ensures Decode(g + rest) == Some(head + tail)
  {
    var s := g + rest;
    assert s[..4] == g && s[4..] == rest;
  }

  lemma UnpaddedNonEmpty(b: seq<byte>)
    requires b != []
    ensures |UnpaddedBase64Url(b)| >= 2
  {
  }

  /** The group of three bytes in front of a remainder that decodes. */
  lemma DecodeQuadThen(x: byte, y: byte, z: byte, rest: string, tail: seq<byte>)
    requires |rest| >= 1 && Decode(rest) == Some(tail)
    ensures Decode(UrlQuad(x, y, z) + rest) == Some([x, y, z] + tail)
  {
    DecodeQuad(x, y, z);
    DecodeSplit(UrlQuad(x, y, z), rest, [x, y, z], tail);
  }

  /** A full group in front of a remainder that decodes. */
  lemma DecodeUnpaddedGroup(b: seq<byte>)
    requires |b| > 3
    requires Decode(UnpaddedBase64Url(b[3..])) == Some(b[3..])
    ensures Decode(UnpaddedBase64Url(b)) == Some(b)
  {
    var x, y, z, tail := b[0], b[1], b[2], b[3..];
    var rest := UnpaddedBase64Url(tail);
    assert b == [x, y, z] + tail;
    UnpaddedGroup(b);
    assert UnpaddedBase64Url(b) == UrlQuad(x, y, z) + rest;
    UnpaddedNonEmpty(tail);
    DecodeQuadThen(x, y, z, rest, tail);
  }

  /** Decoding the reference encoding gives back the bytes. */
  lemma {:induction false} DecodeUnpadded(b: seq<byte>)
    ensures Decode(UnpaddedBase64Url(b)) == Some(b)
  {
    if |b| == 0 {
    } else if |b| == 1 {
      DecodeUnpadded1(b);
    } else if |b| == 2 {
      DecodeUnpadded2(b);
    } else if |b| == 3 {
      DecodeUnpadded3(b);
    } else {
      DecodeUnpadded(b[3..]);
      DecodeUnpaddedGroup(b);
    }
  }

  /** Round trip: the gateway's encoding loses nothing. */
  lemma DecodeBase64UrlEncode(b: seq<byte>)
    ensures Decode(Base64UrlEncode(b)) == Some(b)
  {
    Base64UrlEncodeIsRfc4648Section5(b);
    DecodeUnpadded(b);
  }
}
