/**
 * `encodeURIComponent` (section 19.2.6.5 of ECMA-262), which the gateway
 * applies to every query template before sending it upstream and the client
 * applies to the search term and the price-book id, and its inverse
 * `decodeURIComponent`.
 */
module UriComponent {
  import opened JsValues
  import Utf8

  /** The characters `encodeURIComponent` leaves alone: letters, digits and `-_.!~*'()`. */
  predicate IsUnescaped(c: char) {
    'A' <= c <= 'Z' || 'a' <= c <= 'z' || '0' <= c <= '9'
    || c == '-' || c == '_' || c == '.' || c == '!' || c == '~' || c == '*' || c == '\'' || c == '(' || c == ')'
  }

  /** An upper-case hexadecimal digit. */
  function HexDigit(d: int): (c: char)
    requires 0 <= d < 16
    ensures '0' <= c <= '9' || 'A' <= c <= 'F'
  {
    if d < 10 then ('0' as int + d) as char else ('A' as int + (d - 10)) as char
  }

  /** The value of a hexadecimal digit of either case. */
  function HexValue(c: char): (v: Option<int>)
    ensures v.Some? ==> 0 <= v.value < 16
  {
    if '0' <= c <= '9' then Some(c as int - '0' as int)
    else if 'A' <= c <= 'F' then Some(c as int - 'A' as int + 10)
    else if 'a' <= c <= 'f' then Some(c as int - 'a' as int + 10)
    else None
  }

  /** The bytes written as `%XY` triples. */
  function PercentEncode(b: seq<byte>): (r: string)
    ensures |r| == 3 * |b|
  {
    if b == [] then "" else ['%', HexDigit(b[0] / 16), HexDigit(b[0] % 16)] + PercentEncode(b[1..])
  }

  /** A character that can occur in the output of `encodeURIComponent`. */
  predicate IsEncodedChar(c: char) {
    IsUnescaped(c) || c == '%' || '0' <= c <= '9' || 'A' <= c <= 'F'
  }

  /** The text one character becomes: itself when unescaped, otherwise its UTF-8 bytes as `%XY` triples. */
  function EncodeCharText(c: char): (r: string)
    ensures |r| >= 1
    ensures forall i :: 0 <= i < |r| ==> IsEncodedChar(r[i])
  {
    PercentEncodeChars(Utf8.EncodeChar(c));
    if IsUnescaped(c) then [c] else PercentEncode(Utf8.EncodeChar(c))
  }

  /** The concatenation of a sequence of strings. */
  function Concat(parts: seq<string>): string {
    if parts == [] then "" else parts[0] + Concat(parts[1..])
  }

  /**
   * `encodeURIComponent(s)`: each character replaced by its encoded text, in
   * order. It is stated over the sequence of per-character texts, so that the
   * verifier does not expand it on the literal queries of the gateway.
   */
  function EncodeUriComponent(s: string): string {
    Concat(seq(|s|, i requires 0 <= i < |s| => EncodeCharText(s[i])))
  }

  /** The encoding of a non-empty string is its first character's text followed by the encoding of the rest. */
  lemma EncodeUriComponentCons(s: string)
    requires s != []
    ensures EncodeUriComponent(s) == EncodeCharText(s[0]) + EncodeUriComponent(s[1..])
  {
    var parts := seq(|s|, i requires 0 <= i < |s| => EncodeCharText(s[i]));
    assert parts[1..] == seq(|s[1..]|, i requires 0 <= i < |s[1..]| => EncodeCharText(s[1..][i]));
  }

  /** Every character of the encoding is a character `encodeURIComponent` can produce, and the encoding is never shorter. */
  lemma {:induction false} EncodedChars(s: string)
    ensures forall i :: 0 <= i < |EncodeUriComponent(s)| ==> IsEncodedChar(EncodeUriComponent(s)[i])
    ensures |EncodeUriComponent(s)| >= |s|
  {
    if s != [] {
      EncodeUriComponentCons(s);
      EncodedChars(s[1..]);
      var h, t := EncodeCharText(s[0]), EncodeUriComponent(s[1..]);
      forall i | 0 <= i < |h + t| ensures IsEncodedChar((h + t)[i]) {
        if i < |h| { assert (h + t)[i] == h[i]; } else { assert (h + t)[i] == t[i - |h|]; }
      }
    }
  }

  /** Byte `i` becomes the triple at `3 * i`: a `%` and its two upper-case hex digits, high nibble first. */
  lemma {:induction false} PercentEncodeTriples(b: seq<byte>)
    ensures forall i :: 0 <= i < |b| ==>
      PercentEncode(b)[3 * i] == '%'
      && PercentEncode(b)[3 * i + 1] == HexDigit(b[i] / 16)
      && PercentEncode(b)[3 * i + 2] == HexDigit(b[i] % 16)
  {
    if b != [] {
      PercentEncodeTriples(b[1..]);
      var r, t := PercentEncode(b), PercentEncode(b[1..]);
      assert r == ['%', HexDigit(b[0] / 16), HexDigit(b[0] % 16)] + t;
      forall i | 0 <= i < |b|
        ensures r[3 * i] == '%' && r[3 * i + 1] == HexDigit(b[i] / 16) && r[3 * i + 2] == HexDigit(b[i] % 16)
      {
        if i > 0 {
          assert b[i] == b[1..][i - 1];
          assert r[3 * i] == t[3 * (i - 1)];
          assert r[3 * i + 1] == t[3 * (i - 1) + 1];
          assert r[3 * i + 2] == t[3 * (i - 1) + 2];
        }
      }
    }
  }

  lemma {:induction false} PercentEncodeChars(b: seq<byte>)
    ensures forall i :: 0 <= i < |PercentEncode(b)| ==> IsEncodedChar(PercentEncode(b)[i])
  {
    if b != [] {
      PercentEncodeChars(b[1..]);
    }
  }

  /** Hence the encoded text never contains a query or fragment delimiter, a `+`, a space, a `/` or a brace. */
  lemma EncodedIsQuerySafe(s: string)
    ensures var r := EncodeUriComponent(s);
      '&' !in r && '=' !in r && '#' !in r && '?' !in r && '+' !in r && ' ' !in r && '/' !in r && '{' !in r && '}' !in r
  {
    var r := EncodeUriComponent(s);
    EncodedChars(s);
    forall i | 0 <= i < |r|
      ensures r[i] != '&' && r[i] != '=' && r[i] != '#' && r[i] != '?' && r[i] != '+'
      ensures r[i] != ' ' && r[i] != '/' && r[i] != '{' && r[i] != '}'
    {
      assert IsEncodedChar(r[i]);
    }
  }

  /** An unescaped character is an ASCII character that encodes to itself. */
  lemma {:induction false} UnescapedChars(s: string)
    requires forall i :: 0 <= i < |s| ==> IsUnescaped(s[i])
    ensures EncodeUriComponent(s) == s
  {
    if s != [] {
      EncodeUriComponentCons(s);
      UnescapedChars(s[1..]);
      assert s == [s[0]] + s[1..];
    }
  }

  /** The percent-decoding step of `decodeURIComponent`: `%XY` gives a byte, any other character its UTF-8 bytes; a stray `%` is an error. */
  function PercentDecode(s: string): Option<seq<byte>>
  {
    if s == [] then Some([])
    else if s[0] == '%' then
      if |s| < 3 then None
      else
        var hi, lo := HexValue(s[1]), HexValue(s[2]);
        if hi.None? || lo.None? then None
        else match PercentDecode(s[3..])
          case None => None
          case Some(rest) => Some([hi.value * 16 + lo.value] + rest)
    else
      match PercentDecode(s[1..])
      case None => None
      case Some(rest) => Some(Utf8.EncodeChar(s[0]) + rest)
  }

  /** `decodeURIComponent(s)`: `None` where it throws a `URIError`. */
  function DecodeUriComponent(s: string): Option<string> {
    match PercentDecode(s)
    case None => None
    case Some(b) => Utf8.Decode(b)
  }

  lemma HexRoundTrip(d: int)
    requires 0 <= d < 16
    ensures HexValue(HexDigit(d)) == Some(d)
  {
  }

  /** One `%XY` triple decodes to its byte in front of whatever the rest decodes to. */
  lemma PercentDecodeTriple(x: byte, u: string, rest: seq<byte>)
    requires PercentDecode(u) == Some(rest)
    ensures PercentDecode(['%', HexDigit(x / 16), HexDigit(x % 16)] + u) == Some([x] + rest)
  {
    var s := ['%', HexDigit(x / 16), HexDigit(x % 16)] + u;
    HexRoundTrip(x / 16);
    HexRoundTrip(x % 16);
    assert s[0] == '%' && HexValue(s[1]) == Some(x / 16) && HexValue(s[2]) == Some(x % 16);
    assert s[3..] == u;
  }

  /** The first triple of a non-empty encoding, split off in front of a suffix. */
  lemma PercentEncodeAppend(b: seq<byte>, t: string)
    requires b != []
    ensures PercentEncode(b) + t == ['%', HexDigit(b[0] / 16), HexDigit(b[0] % 16)] + (PercentEncode(b[1..]) + t)
  {
  }

  lemma {:induction false} PercentDecodeEncoded(b: seq<byte>, t: string, rest: seq<byte>)
    requires PercentDecode(t) == Some(rest)
    ensures PercentDecode(PercentEncode(b) + t) == Some(b + rest)
  {
    if b != [] {
      PercentDecodeEncoded(b[1..], t, rest);
      PercentDecodeTriple(b[0], PercentEncode(b[1..]) + t, b[1..] + rest);
      PercentEncodeAppend(b, t);
      assert [b[0]] + (b[1..] + rest) == b + rest;
    } else {
      assert PercentEncode(b) + t == t;
      assert b + rest == rest;
    }
  }

  /** Percent-decoding the encoding of a string gives its UTF-8 bytes. */
  lemma {:induction false} PercentDecodeEncode(s: string)
    ensures PercentDecode(EncodeUriComponent(s)) == Some(Utf8.Encode(s))
  {
    if s != [] {
      var r := EncodeUriComponent(s);
      EncodeUriComponentCons(s);
      PercentDecodeEncode(s[1..]);
      if IsUnescaped(s[0]) {
        assert r == [s[0]] + EncodeUriComponent(s[1..]);
        assert r[1..] == EncodeUriComponent(s[1..]);
      } else {
        PercentDecodeEncoded(Utf8.EncodeChar(s[0]), EncodeUriComponent(s[1..]), Utf8.Encode(s[1..]));
      }
    }
  }

  /** Round trip: `decodeURIComponent(encodeURIComponent(s)) == s` for every string. */
  lemma DecodeEncodeUriComponent(s: string)
    ensures DecodeUriComponent(EncodeUriComponent(s)) == Some(s)
  {
    PercentDecodeEncode(s);
    Utf8.DecodeEncode(s);
  }
}
