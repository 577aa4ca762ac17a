/**
 * The PKCE helpers of the web client (client/src/lib/auth.ts): the code
 * verifier drawn from random bytes, its S256 code challenge, and the
 * browser-storage slot that holds the verifier between the redirect to the
 * platform and the token exchange.
 *
 * `crypto.getRandomValues` is replaced by the bytes it would have produced,
 * SHA-256 by a function parameter, and `localStorage` by a string map.
 */
module Pkce {
  import opened Wrappers
  import opened UrlEncoding
  import opened Base64

  /** The verifier alphabet, in the order the client lists it (written in four pieces). */
  const Charset: string := "ABCDEFGHIJKLMNOPQRSTUVWXYZ" + "abcdefghijklmnopqrstuvwxyz" + "0123456789" + "-._~"

  /** The unreserved characters of section 2.3 of RFC 3986, which section 4.1 of RFC 7636 allows in a verifier. */
  predicate Unreserved(c: char) {
    IsAsciiLetter(c) || IsDigit(c) || c == '-' || c == '.' || c == '_' || c == '~'
  }

  /** The same alphabet as ranges: letters, digits, then the four marks. */
  lemma CharsetRanges()
    ensures |Charset| == 66
    ensures forall i :: 0 <= i < 26 ==> Charset[i] == ('A' as int + i) as char
    ensures forall i :: 26 <= i < 52 ==> Charset[i] == ('a' as int + (i - 26)) as char
    ensures forall i :: 52 <= i < 62 ==> Charset[i] == ('0' as int + (i - 52)) as char
    ensures Charset[62..] == "-._~"
  {
  }

  /** The alphabet is exactly the unreserved set: every member is unreserved, and every unreserved character is in it. */
  lemma CharsetIsUnreserved()
    ensures forall i :: 0 <= i < |Charset| ==> Unreserved(Charset[i])
    ensures forall c :: Unreserved(c) ==> exists i :: 0 <= i < |Charset| && Charset[i] == c
  {
    CharsetRanges();
    forall c | Unreserved(c) ensures exists i :: 0 <= i < |Charset| && Charset[i] == c {
      if 'A' <= c <= 'Z' {
        assert Charset[c as int - 'A' as int] == c;
      } else if 'a' <= c <= 'z' {
        assert Charset[c as int - 'a' as int + 26] == c;
      } else if '0' <= c <= '9' {
        assert Charset[c as int - '0' as int + 52] == c;
      } else if c == '-' {
        assert Charset[62] == c;
      } else if c == '.' {
        assert Charset[63] == c;
      } else if c == '_' {
        assert Charset[64] == c;
      } else {
        assert Charset[65] == c;
      }
    }
  }

  /** The verifier that a given byte array maps to: byte i picks `Charset[bytes[i] mod 66]`. */
  function VerifierOf(values: seq<byte>): (r: string)
    ensures |r| == |values|
  {
    seq(|values|, i requires 0 <= i < |values| => Charset[values[i] % |Charset|])
  }

  /**
   * `generateCodeVerifier(length)`: `values` stands for the `length` bytes
   * `crypto.getRandomValues` fills in; an absent length is 64.
   */
  method GenerateCodeVerifier(length: Option<nat>, values: seq<byte>) returns (result: string)
    requires |values| == length.GetOr(64)
    ensures result == VerifierOf(values)
  {
    var n := length.GetOr(64);
    result := "";
    var i := 0;
    while i < n
      invariant 0 <= i <= n
      invariant result == VerifierOf(values[..i])
    {
      result := result + [Charset[values[i] % |Charset|]];
      i := i + 1;
    }
    assert values[..n] == values;
  }

  /** A verifier has one character per byte, and every one is unreserved. */
  lemma VerifierShape(values: seq<byte>)
    ensures |VerifierOf(values)| == |values|
    ensures forall i :: 0 <= i < |values| ==> Unreserved(VerifierOf(values)[i])
  {
    CharsetIsUnreserved();
  }

  /** With the default length the verifier lies in the 43..128 range that section 4.1 of RFC 7636 requires. */
  lemma DefaultVerifierLength(values: seq<byte>)
    requires |values| == Option<nat>.None.GetOr(64)
    ensures 43 <= |VerifierOf(values)| <= 128
  {
  }

  /** The code challenge: base64url of the SHA-256 digest of the verifier's UTF-8 bytes. */
  function CodeChallenge(verifier: string, sha256: seq<byte> -> seq<byte>): string {
    Base64UrlEncode(sha256(Utf8(verifier)))
  }

  /** The ASCII bytes of an all-ASCII string, as section 4.2 of RFC 7636 hashes them. */
  function Ascii(s: string): (r: seq<byte>)
    requires forall i :: 0 <= i < |s| ==> s[i] as int < 0x80
    ensures |r| == |s|
  {
    seq(|s|, i requires 0 <= i < |s| => s[i] as int)
  }

  lemma {:induction false} Utf8OfAscii(s: string)
    requires forall i :: 0 <= i < |s| ==> s[i] as int < 0x80
    ensures Utf8(s) == Ascii(s)
  {
    if s != [] {
      Utf8OfAscii(s[1..]);
      assert Ascii(s) == [s[0] as int] + Ascii(s[1..]);
    }
  }

  /**
   * For a verifier the client generates, the challenge is
   * BASE64URL-ENCODE(SHA256(ASCII(code_verifier))) of section 4.2 of RFC 7636;
   * with a 32-byte digest it is 43 URL-safe characters.
   */
  lemma CodeChallengeIsS256(values: seq<byte>, sha256: seq<byte> -> seq<byte>)
    ensures var v := VerifierOf(values);
      (forall i :: 0 <= i < |v| ==> v[i] as int < 0x80)
      && CodeChallenge(v, sha256) == Base64Url(sha256(Ascii(v)))
    ensures |sha256(Utf8(VerifierOf(values)))| == 32 ==>
      |CodeChallenge(VerifierOf(values), sha256)| == 43
  {
    var v := VerifierOf(values);
    CharsetIsUnreserved();
    assert forall i :: 0 <= i < |v| ==> Unreserved(v[i]);
    Utf8OfAscii(v);
    Base64UrlEncodeIsRfc4648(sha256(Ascii(v)));
    Base64UrlLength(sha256(Ascii(v)));
  }

  // ------------------------------------------------------ verifier storage

  /** `localStorage`, as far as these helpers use it. */
  type Storage = map<string, string>

  /** The key a platform's verifier is kept under. */
  function VerifierKey(platform: string): string {
    platform + "_code_verifier"
  }

  /** Distinct platforms never share a key. */
  lemma VerifierKeyInjective(p: string, q: string)
    ensures VerifierKey(p) == VerifierKey(q) ==> p == q
  {
    if VerifierKey(p) == VerifierKey(q) {
      assert |p| == |q|;
      assert p == VerifierKey(p)[..|p|];
    }
  }

  /** What the connect dialog does before redirecting (`localStorage.setItem`). */
  function StoreCodeVerifier(st: Storage, platform: string, verifier: string): Storage {
    st[VerifierKey(platform) := verifier]
  }

  /** `getStoredCodeVerifier`: `None` is `null`. */
  function GetStoredCodeVerifier(st: Storage, platform: string): (r: Option<string>)
    ensures r.Some? <==> VerifierKey(platform) in st
  {
    if VerifierKey(platform) in st then Some(st[VerifierKey(platform)]) else None
  }

  /** `clearStoredCodeVerifier` */
  function ClearStoredCodeVerifier(st: Storage, platform: string): Storage {
    st - {VerifierKey(platform)}
  }

  /** A stored verifier is read back; a cleared one reads as null; other platforms' slots are untouched by both. */
  lemma VerifierStorage(st: Storage, p: string, q: string, v: string)
    ensures GetStoredCodeVerifier(StoreCodeVerifier(st, p, v), p) == Some(v)
    ensures GetStoredCodeVerifier(ClearStoredCodeVerifier(st, p), p) == None
    ensures p != q ==> GetStoredCodeVerifier(StoreCodeVerifier(st, p, v), q) == GetStoredCodeVerifier(st, q)
    ensures p != q ==> GetStoredCodeVerifier(ClearStoredCodeVerifier(st, p), q) == GetStoredCodeVerifier(st, q)
  {
    VerifierKeyInjective(p, q);
  }
}
