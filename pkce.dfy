/**
 * PKCE parameter generation of the gateway (worker/src/index.js):
 * `generateRandomString` maps each random byte onto a fixed 66-character
 * charset, and `generatePKCE` draws a 128-character verifier and derives the
 * challenge as the base64url encoding of its SHA-256 digest (section 4.1 and
 * 4.2 of RFC 7636). The random bytes of `crypto.getRandomValues` and the
 * digest of `crypto.subtle.digest` are parameters.
 */
module Pkce {
  import opened JsValues
  import Utf8
  import Base64Url

  const UpperCase: string := "ABCDEFGHIJKLMNOPQRSTUVWXYZ"
  const LowerCase: string := "abcdefghijklmnopqrstuvwxyz"
  const Digits: string := "0123456789"
  const Marks: string := "-._~"

  /** The charset of `generateRandomString`, `ABCDEFGHIJKLMNOPQRSTUVWXYZabcdefghijklmnopqrstuvwxyz0123456789-._~`, written in its four runs. */
  const Charset: string := UpperCase + LowerCase + Digits + Marks

  /** The verifier length `generatePKCE` asks for. */
  const VerifierLength: nat := 128

  /** The "unreserved" characters of section 2.3 of RFC 3986, the alphabet RFC 7636 section 4.1 allows in a verifier. */
  predicate IsUnreserved(c: char) {
    'A' <= c <= 'Z' || 'a' <= c <= 'z' || '0' <= c <= '9' || c == '-' || c == '.' || c == '_' || c == '~'
  }

  lemma UpperLetters(s: string)
    requires s == "ABCDEFGHIJKLMNOPQRSTUVWXYZ"
    ensures |s| == 26 && forall j :: 0 <= j < 26 ==> s[j] == ('A' as int + j) as char
  {
  }

  lemma LowerLetters(s: string)
    requires s == "abcdefghijklmnopqrstuvwxyz"
    ensures |s| == 26 && forall j :: 0 <= j < 26 ==> s[j] == ('a' as int + j) as char
  {
  }

  lemma DecimalDigits(s: string)
    requires s == "0123456789"
    ensures |s| == 10 && forall j :: 0 <= j < 10 ==> s[j] == ('0' as int + j) as char
  {
  }

  lemma Layout(cs: string, upper: string, lower: string, digits: string, marks: string)
    requires cs == upper + lower + digits + marks
    requires |upper| == 26 && forall j :: 0 <= j < 26 ==> upper[j] == ('A' as int + j) as char
    requires |lower| == 26 && forall j :: 0 <= j < 26 ==> lower[j] == ('a' as int + j) as char
    requires |digits| == 10 && forall j :: 0 <= j < 10 ==> digits[j] == ('0' as int + j) as char
    requires marks == "-._~"
    ensures |cs| == 66
    ensures forall i :: 0 <= i < 26 ==> cs[i] == ('A' as int + i) as char
    ensures forall i :: 26 <= i < 52 ==> cs[i] == ('a' as int + (i - 26)) as char
    ensures forall i :: 52 <= i < 62 ==> cs[i] == ('0' as int + (i - 52)) as char
    ensures cs[62] == '-' && cs[63] == '.' && cs[64] == '_' && cs[65] == '~'
  {
  }

  /** The layout of the charset: the upper-case letters, the lower-case letters, the digits, then `-._~`. */
  lemma CharsetLayout()
    ensures |Charset| == 66
    ensures forall i :: 0 <= i < 26 ==> Charset[i] == ('A' as int + i) as char
    ensures forall i :: 26 <= i < 52 ==> Charset[i] == ('a' as int + (i - 26)) as char
    ensures forall i :: 52 <= i < 62 ==> Charset[i] == ('0' as int + (i - 52)) as char
    ensures Charset[62] == '-' && Charset[63] == '.' && Charset[64] == '_' && Charset[65] == '~'
  {
    UpperLetters(UpperCase);
    LowerLetters(LowerCase);
    DecimalDigits(Digits);
    Layout(Charset, UpperCase, LowerCase, Digits, Marks);
  }

  /** The charset holds 66 distinct characters and they are exactly the unreserved characters. */
  lemma CharsetIsUnreserved()
    ensures |Charset| == 66
    ensures forall i, j :: 0 <= i < j < |Charset| ==> Charset[i] != Charset[j]
    ensures forall i :: 0 <= i < |Charset| ==> IsUnreserved(Charset[i]) && Charset[i] as int < 0x80
    ensures forall c :: IsUnreserved(c) ==> c in Charset
  {
    CharsetLayout();
    forall c | IsUnreserved(c) ensures c in Charset {
      if 'A' <= c <= 'Z' {
        assert Charset[c as int - 'A' as int] == c;
      } else if 'a' <= c <= 'z' {
        assert Charset[26 + (c as int - 'a' as int)] == c;
      } else if '0' <= c <= '9' {
        assert Charset[52 + (c as int - '0' as int)] == c;
      }
    }
  }

  /**
   * The string `generateRandomString(length)` returns when
   * `crypto.getRandomValues` fills the bytes with `random(0)`, ...,
   * `random(length - 1)`: character `i` is `Charset[random(i) % 66]`.
   */
  function RandomString(length: nat, random: nat -> byte): (s: string)
  {
    seq(length, i requires 0 <= i < length => Charset[random(i) % |Charset|])
  }

  /** Every random string has the requested length and is made of unreserved ASCII characters. */
  lemma RandomStringIsUnreserved(length: nat, random: nat -> byte)
    ensures |RandomString(length, random)| == length
    ensures forall i :: 0 <= i < length ==> IsUnreserved(RandomString(length, random)[i])
    ensures Utf8.IsAscii(RandomString(length, random))
  {
    CharsetIsUnreserved();
  }

  /**
   * `generateRandomString(length)`: a `Uint8Array` of the given length is
   * filled with random bytes in place, then mapped through the charset.
   */
  method GenerateRandomString(length: nat, random: nat -> byte) returns (s: string)
    ensures |s| == length
    ensures forall i :: 0 <= i < length ==> s[i] == Charset[random(i) % |Charset|]
    ensures s == RandomString(length, random)
  {
    var bytes := new byte[length](i requires 0 <= i => random(i));
    s := "";
    var i := 0;
    while i < bytes.Length
      invariant 0 <= i <= bytes.Length == length
      invariant |s| == i
      invariant forall k :: 0 <= k < i ==> s[k] == Charset[bytes[k] % |Charset|]
    {
      s := s + [Charset[bytes[i] % |Charset|]];
      i := i + 1;
    }
  }

  /** The result of `generatePKCE`. */
  datatype PkcePair = PkcePair(verifier: string, challenge: string)

  /** `crypto.subtle.digest('SHA-256', ...)`, an uninterpreted function of the input bytes. */
  type Sha256 = seq<byte> -> seq<byte>

  /** `generatePKCE()`: the verifier is 128 random charset characters, the challenge the base64url SHA-256 of its UTF-8 bytes. */
  function GeneratePkce(random: nat -> byte, sha256: Sha256): (r: PkcePair)
    ensures |r.verifier| == VerifierLength
    ensures forall i :: 0 <= i < |r.verifier| ==> IsUnreserved(r.verifier[i])
  {
    RandomStringIsUnreserved(VerifierLength, random);
    var verifier := RandomString(VerifierLength, random);
    PkcePair(verifier, Base64Url.Base64UrlEncode(sha256(Utf8.Encode(verifier))))
  }

  /**
   * The pair satisfies RFC 7636: the verifier has 43 to 128 unreserved
   * characters (exactly 128), its UTF-8 bytes are its ASCII codes, and the
   * challenge is the unpadded base64url (Appendix A) of the SHA-256 of those
   * bytes (the S256 method of section 4.2), with no `+`, `/` or `=`; for a
   * 32-byte digest it has 43 characters.
   */
  lemma PkcePairWellFormed(random: nat -> byte, sha256: Sha256)
    ensures var p := GeneratePkce(random, sha256);
      && |p.verifier| == 128
      && 43 <= |p.verifier| <= 128
      && (forall i :: 0 <= i < |p.verifier| ==> IsUnreserved(p.verifier[i]))
      && |Utf8.Encode(p.verifier)| == |p.verifier|
      && (forall i :: 0 <= i < |p.verifier| ==> Utf8.Encode(p.verifier)[i] == p.verifier[i] as int)
      && p.challenge == Base64Url.UnpaddedBase64Url(sha256(Utf8.Encode(p.verifier)))
      && '+' !in p.challenge && '/' !in p.challenge && '=' !in p.challenge
      && (|sha256(Utf8.Encode(p.verifier))| == 32 ==> |p.challenge| == 43)
  {
    var p := GeneratePkce(random, sha256);
    RandomStringIsUnreserved(VerifierLength, random);
    Utf8.EncodeAscii(p.verifier);
    assert |Utf8.Encode(p.verifier)| == |p.verifier|;
    var digest := sha256(Utf8.Encode(p.verifier));
    Base64Url.Base64UrlEncodeIsRfc4648Section5(digest);
    var u := Base64Url.UnpaddedBase64Url(digest);
    assert '=' !in u by {
      forall k | 0 <= k < |u| ensures u[k] != '=' {
        assert Base64Url.UrlValue(u[k]).Some?;
      }
    }
  }

  /** The challenge determines nothing but the digest: decoding it gives back the SHA-256 output. */
  lemma ChallengeDecodesToDigest(random: nat -> byte, sha256: Sha256)
    ensures var p := GeneratePkce(random, sha256);
      Base64Url.Decode(p.challenge) == Some(sha256(Utf8.Encode(p.verifier)))
  {
    var p := GeneratePkce(random, sha256);
    Base64Url.DecodeBase64UrlEncode(sha256(Utf8.Encode(p.verifier)));
  }
}
