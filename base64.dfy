/**
 * The base64url encoding of a SHA-256 digest that PKCE sends as its S256 code
 * challenge: `btoa` (standard base64 with '=' padding), then '+' becomes '-',
 * '/' becomes '_' and the trailing '=' run is removed. The reference it is
 * checked against is the URL- and filename-safe alphabet without padding of
 * section 5 of RFC 4648, together with a decoder for it.
 */
module Base64 {
  import opened Wrappers
  import opened UrlEncoding

  /** The standard alphabet of section 4 of RFC 4648, as `btoa` uses it. */
  function StdChar(v: int): (c: char)
    requires 0 <= v < 64
  {
    if v < 26 then ('A' as int + v) as char
    else if v < 52 then ('a' as int + (v - 26)) as char
    else if v < 62 then ('0' as int + (v - 52)) as char
    else if v == 62 then '+'
    else '/'
  }

  /** The URL- and filename-safe alphabet of section 5 of RFC 4648. */
  function UrlChar(v: int): (c: char)
    requires 0 <= v < 64
  {
    if v < 26 then ('A' as int + v) as char
    else if v < 52 then ('a' as int + (v - 26)) as char
    else if v < 62 then ('0' as int + (v - 52)) as char
    else if v == 62 then '-'
    else '_'
  }

  /** The value of a character of the URL-safe alphabet. */
  function UrlValue(c: char): (r: Option<int>)
    ensures r.Some? ==> 0 <= r.value < 64
  {
    if 'A' <= c <= 'Z' then Some(c as int - 'A' as int)
    else if 'a' <= c <= 'z' then Some(c as int - 'a' as int + 26)
    else if '0' <= c <= '9' then Some(c as int - '0' as int + 52)
    else if c == '-' then Some(62)
    else if c == '_' then Some(63)
    else None
  }

  lemma UrlCharValue(v: int)
    requires 0 <= v < 64
    ensures UrlValue(UrlChar(v)) == Some(v)
  {
  }

  /** The four sextets of a group of three bytes; a missing byte counts as zero. */
  function Sextets(b0: byte, b1: byte, b2: byte): (r: (int, int, int, int))
    ensures 0 <= r.0 < 64 && 0 <= r.1 < 64 && 0 <= r.2 < 64 && 0 <= r.3 < 64
  {
    (b0 / 4, (b0 % 4) * 16 + b1 / 16, (b1 % 16) * 4 + b2 / 64, b2 % 64)
  }

  /** `btoa` over bytes: standard alphabet, the last group padded with '='. */
  function Btoa(bs: seq<byte>): string
    decreases |bs|
  {
    if |bs| == 0 then ""
    else if |bs| == 1 then
      var v := Sextets(bs[0], 0, 0);
      [StdChar(v.0), StdChar(v.1), '=', '=']
    else if |bs| == 2 then
      var v := Sextets(bs[0], bs[1], 0);
      [StdChar(v.0), StdChar(v.1), StdChar(v.2), '=']
    else
      var v := Sextets(bs[0], bs[1], bs[2]);
      [StdChar(v.0), StdChar(v.1), StdChar(v.2), StdChar(v.3)] + Btoa(bs[3..])
  }

  /** `s.replace(/x/g, y)` for a single character `x`. */
  function ReplaceAll(s: string, x: char, y: char): (r: string)
    ensures |r| == |s|
  {
    seq(|s|, i requires 0 <= i < |s| => if s[i] == x then y else s[i])
  }

  /** `s.replace(/x+$/, '')`: the run of `x` at the end of `s` is removed. */
  function StripTrailing(s: string, x: char): (r: string)
    ensures |r| <= |s| && r == s[..|r|]
    ensures r == [] || r[|r| - 1] != x
    decreases |s|
  {
    if s != [] && s[|s| - 1] == x then StripTrailing(s[..|s| - 1], x) else s
  }

  /** `base64UrlEncode` of client/src/lib/auth.ts. */
  function Base64UrlEncode(bs: seq<byte>): string {
    StripTrailing(ReplaceAll(ReplaceAll(Btoa(bs), '+', '-'), '/', '_'), '=')
  }

  /** Base64url without padding, section 5 of RFC 4648 (and appendix A of RFC 7636). */
  function Base64Url(bs: seq<byte>): (r: string)
    ensures forall i :: 0 <= i < |r| ==> UrlValue(r[i]).Some?
    decreases |bs|
  {
    if |bs| == 0 then ""
    else if |bs| == 1 then
      var v := Sextets(bs[0], 0, 0);
      [UrlChar(v.0), UrlChar(v.1)]
    else if |bs| == 2 then
      var v := Sextets(bs[0], bs[1], 0);
      [UrlChar(v.0), UrlChar(v.1), UrlChar(v.2)]
    else
      var v := Sextets(bs[0], bs[1], bs[2]);
      UrlCharValue(v.0); UrlCharValue(v.1); UrlCharValue(v.2); UrlCharValue(v.3);
      [UrlChar(v.0), UrlChar(v.1), UrlChar(v.2), UrlChar(v.3)] + Base64Url(bs[3..])
  }

  /** Decoder of unpadded base64url: four characters give three bytes, a final two or three give one or two. */
  function Base64UrlDecode(s: string): Option<seq<byte>>
    decreases |s|
  {
    if s == [] then Some([])
    else if |s| == 1 then None
    else if UrlValue(s[0]).None? || UrlValue(s[1]).None? then None
    else
      var v0, v1 := UrlValue(s[0]).value, UrlValue(s[1]).value;
      var b0: byte := v0 * 4 + v1 / 16;
      if |s| == 2 then Some([b0])
      else if UrlValue(s[2]).None? then None
      else
        var v2 := UrlValue(s[2]).value;
        var b1: byte := (v1 % 16) * 16 + v2 / 4;
        if |s| == 3 then Some([b0, b1])
        else if UrlValue(s[3]).None? then None
        else
          var b2: byte := (v2 % 4) * 64 + UrlValue(s[3]).value;
          match Base64UrlDecode(s[4..])
          case None => None
          case Some(tail) => Some([b0, b1, b2] + tail)
  }

  /** The sextets of a group give its bytes back. */
  lemma SextetsInvert(b0: byte, b1: byte, b2: byte)
    ensures var v := Sextets(b0, b1, b2);
      v.0 * 4 + v.1 / 16 == b0
      && (v.1 % 16) * 16 + v.2 / 4 == b1
      && (v.2 % 4) * 64 + v.3 == b2
  {
    var v := Sextets(b0, b1, b2);
    assert v.1 / 16 == b0 % 4;
    assert v.1 % 16 == b1 / 16;
    assert v.2 / 4 == b1 % 16;
    assert v.2 % 4 == b2 / 64;
  }

  /** The text of one full group of three bytes. */
  function Group(b0: byte, b1: byte, b2: byte): (r: string)
    ensures |r| == 4
  {
    var v := Sextets(b0, b1, b2);
    [UrlChar(v.0), UrlChar(v.1), UrlChar(v.2), UrlChar(v.3)]
  }

  lemma DecodeGroup(b0: byte, b1: byte, b2: byte, t: string)
    ensures Base64UrlDecode(Group(b0, b1, b2) + t)
         == match Base64UrlDecode(t) case None => None case Some(tail) => Some([b0, b1, b2] + tail)
  {
    var v := Sextets(b0, b1, b2);
    SextetsInvert(b0, b1, b2);
    UrlCharValue(v.0); UrlCharValue(v.1); UrlCharValue(v.2); UrlCharValue(v.3);
    assert (Group(b0, b1, b2) + t)[4..] == t;
  }

  /** Decoding undoes the encoding: distinct digests give distinct challenges. */
  lemma {:induction false} Base64UrlRoundTrip(bs: seq<byte>)
    ensures Base64UrlDecode(Base64Url(bs)) == Some(bs)
    decreases |bs|
  {
    if |bs| == 1 {
      RoundTripOneByte(bs);
    } else if |bs| == 2 {
      RoundTripTwoBytes(bs);
    } else if |bs| > 2 {
      Base64UrlRoundTrip(bs[3..]);
      RoundTripStep(bs);
    }
  }

  /** One full group in front of a tail that already decodes back. */
  lemma RoundTripStep(bs: seq<byte>)
    requires |bs| > 2
    requires Base64UrlDecode(Base64Url(bs[3..])) == Some(bs[3..])
    ensures Base64UrlDecode(Base64Url(bs)) == Some(bs)
  {
    assert Base64Url(bs) == Group(bs[0], bs[1], bs[2]) + Base64Url(bs[3..]);
    DecodeGroup(bs[0], bs[1], bs[2], Base64Url(bs[3..]));
    assert [bs[0], bs[1], bs[2]] + bs[3..] == bs;
  }

  lemma RoundTripOneByte(bs: seq<byte>)
    requires |bs| == 1
    ensures Base64UrlDecode(Base64Url(bs)) == Some(bs)
  {
    var v := Sextets(bs[0], 0, 0);
    assert Base64Url(bs) == [UrlChar(v.0), UrlChar(v.1)];
    OneByteBack(bs[0]);
    DecodeTwo(v.0, v.1, bs[0]);
    assert [bs[0]] == bs;
  }

  lemma RoundTripTwoBytes(bs: seq<byte>)
    requires |bs| == 2
    ensures Base64UrlDecode(Base64Url(bs)) == Some(bs)
  {
    var v := Sextets(bs[0], bs[1], 0);
    assert Base64Url(bs) == [UrlChar(v.0), UrlChar(v.1), UrlChar(v.2)];
    TwoBytesBack(bs[0], bs[1]);
    DecodeThree(v.0, v.1, v.2, bs[0], bs[1]);
    assert [bs[0], bs[1]] == bs;
  }

  lemma OneByteBack(b0: byte)
    ensures var v := Sextets(b0, 0, 0); v.0 * 4 + v.1 / 16 == b0
  {
    SextetsInvert(b0, 0, 0);
  }

  lemma TwoBytesBack(b0: byte, b1: byte)
    ensures var v := Sextets(b0, b1, 0); v.0 * 4 + v.1 / 16 == b0 && (v.1 % 16) * 16 + v.2 / 4 == b1
  {
    SextetsInvert(b0, b1, 0);
  }

  /** A final pair of characters decodes to one byte. */
  lemma DecodeTwo(a: int, b: int, b0: byte)
    requires 0 <= a < 64 && 0 <= b < 64
    requires a * 4 + b / 16 == b0
    ensures Base64UrlDecode([UrlChar(a), UrlChar(b)]) == Some([b0])
  {
    UrlCharValue(a); UrlCharValue(b);
  }

  /** A final triple of characters decodes to two bytes. */
  lemma DecodeThree(a: int, b: int, c: int, b0: byte, b1: byte)
    requires 0 <= a < 64 && 0 <= b < 64 && 0 <= c < 64
    requires a * 4 + b / 16 == b0 && (b % 16) * 16 + c / 4 == b1
    ensures Base64UrlDecode([UrlChar(a), UrlChar(b), UrlChar(c)]) == Some([b0, b1])
  {
    UrlCharValue(a); UrlCharValue(b); UrlCharValue(c);
  }

  /** Unpadded base64url has ceil(4n/3) characters: a 32-byte SHA-256 digest gives 43. */
  lemma {:induction false} Base64UrlLength(bs: seq<byte>)
    ensures |Base64Url(bs)| == (4 * |bs| + 2) / 3
    decreases |bs|
  {
    if |bs| > 2 {
      Base64UrlLength(bs[3..]);
    }
  }

  /** The padding `btoa` appends for a final group of `n % 3` bytes. */
  function Padding(n: nat): string {
    if n % 3 == 1 then "==" else if n % 3 == 2 then "=" else ""
  }

  /** The two replacements map the standard alphabet onto the URL-safe one. */
  function UrlSafe(s: string): string {
    ReplaceAll(ReplaceAll(s, '+', '-'), '/', '_')
  }

  lemma UrlSafeAppend(a: string, b: string)
    ensures UrlSafe(a + b) == UrlSafe(a) + UrlSafe(b)
  {
  }

  lemma UrlSafeChar(v: int)
    requires 0 <= v < 64
    ensures UrlSafe([StdChar(v)]) == [UrlChar(v)]
  {
  }

  lemma UrlSafeGroup(a: int, b: int, rest: string)
    requires 0 <= a < 64 && 0 <= b < 64
    ensures UrlSafe([StdChar(a), StdChar(b)] + rest) == [UrlChar(a), UrlChar(b)] + UrlSafe(rest)
  {
    UrlSafeChar(a);
    UrlSafeChar(b);
    assert [StdChar(a), StdChar(b)] + rest == [StdChar(a)] + ([StdChar(b)] + rest);
    UrlSafeAppend([StdChar(a)], [StdChar(b)] + rest);
    UrlSafeAppend([StdChar(b)], rest);
  }

  lemma UrlSafeOneByte(bs: seq<byte>)
    requires |bs| == 1
    ensures UrlSafe(Btoa(bs)) == Base64Url(bs) + "=="
  {
    var v := Sextets(bs[0], 0, 0);
    assert Btoa(bs) == [StdChar(v.0), StdChar(v.1)] + "==";
    UrlSafeGroup(v.0, v.1, "==");
    assert UrlSafe("==") == "==";
  }

  lemma UrlSafeTwoBytes(bs: seq<byte>)
    requires |bs| == 2
    ensures UrlSafe(Btoa(bs)) == Base64Url(bs) + "="
  {
    var v := Sextets(bs[0], bs[1], 0);
    assert Btoa(bs) == [StdChar(v.0), StdChar(v.1)] + ([StdChar(v.2)] + "=");
    UrlSafeGroup(v.0, v.1, [StdChar(v.2)] + "=");
    UrlSafeChar(v.2);
    UrlSafeAppend([StdChar(v.2)], "=");
    assert UrlSafe("=") == "=";
  }

  lemma UrlSafeFullGroup(bs: seq<byte>)
    requires |bs| > 2
    ensures UrlSafe(Btoa(bs)) == Group(bs[0], bs[1], bs[2]) + UrlSafe(Btoa(bs[3..]))
  {
    var v := Sextets(bs[0], bs[1], bs[2]);
    var g := [StdChar(v.0), StdChar(v.1), StdChar(v.2), StdChar(v.3)];
    var tail := Btoa(bs[3..]);
    assert Btoa(bs) == g + tail;
    UrlSafeAppend(g, tail);
    UrlSafeQuad(v.0, v.1, v.2, v.3);
  }

  lemma UrlSafeQuad(a: int, b: int, c: int, d: int)
    requires 0 <= a < 64 && 0 <= b < 64 && 0 <= c < 64 && 0 <= d < 64
    ensures UrlSafe([StdChar(a), StdChar(b), StdChar(c), StdChar(d)]) == [UrlChar(a), UrlChar(b), UrlChar(c), UrlChar(d)]
  {
    assert [StdChar(a), StdChar(b), StdChar(c), StdChar(d)] == [StdChar(a), StdChar(b)] + ([StdChar(c), StdChar(d)] + "");
    UrlSafeGroup(a, b, [StdChar(c), StdChar(d)] + "");
    UrlSafeGroup(c, d, "");
  }

  /** After the replacements, `btoa` output is the RFC 4648 section 5 text followed by its padding. */
  lemma {:induction false} UrlSafeBtoa(bs: seq<byte>)
    ensures UrlSafe(Btoa(bs)) == Base64Url(bs) + Padding(|bs|)
    decreases |bs|
  {
    if |bs| == 0 {
      assert UrlSafe("") == "";
    } else if |bs| == 1 {
      UrlSafeOneByte(bs);
    } else if |bs| == 2 {
      UrlSafeTwoBytes(bs);
    } else {
      UrlSafeBtoa(bs[3..]);
      UrlSafeBtoaStep(bs);
    }
  }

  /** One full group in front of a tail the claim already holds for. */
  lemma UrlSafeBtoaStep(bs: seq<byte>)
    requires |bs| > 2
    requires UrlSafe(Btoa(bs[3..])) == Base64Url(bs[3..]) + Padding(|bs[3..]|)
    ensures UrlSafe(Btoa(bs)) == Base64Url(bs) + Padding(|bs|)
  {
    UrlSafeFullGroup(bs);
    assert Base64Url(bs) == Group(bs[0], bs[1], bs[2]) + Base64Url(bs[3..]);
    PaddingShift(|bs|);
  }

  lemma PaddingShift(n: nat)
    requires n >= 3
    ensures Padding(n - 3) == Padding(n)
  {
    assert (n - 3) % 3 == n % 3;
  }

  lemma {:induction false} StripPadding(s: string, n: nat)
    requires s == [] || s[|s| - 1] != '='
    ensures StripTrailing(s + Padding(n), '=') == s
  {
    assert StripTrailing(s, '=') == s;
    var p := Padding(n);
    if p == "==" {
      StripOne(s + "=");
      StripOne(s);
      assert s + "==" == (s + "=") + "=";
    } else if p == "=" {
      StripOne(s);
    } else {
      assert s + p == s;
    }
  }

  lemma StripOne(s: string)
    ensures StripTrailing(s + "=", '=') == StripTrailing(s, '=')
  {
    assert (s + "=")[..|s|] == s;
  }

  /** `base64UrlEncode` is exactly unpadded base64url (section 5 of RFC 4648). */
  lemma Base64UrlEncodeIsRfc4648(bs: seq<byte>)
    ensures Base64UrlEncode(bs) == Base64Url(bs)
  {
    UrlSafeBtoa(bs);
    var r := Base64Url(bs);
    if r != [] {
      assert UrlValue(r[|r| - 1]).Some?;
    }
    StripPadding(r, |bs|);
  }

  /** The encoded text has only URL-safe characters, no '+', '/' or '=', and ceil(4n/3) of them. */
  lemma Base64UrlEncodeShape(bs: seq<byte>)
    ensures var r := Base64UrlEncode(bs);
      |r| == (4 * |bs| + 2) / 3
      && forall i :: 0 <= i < |r| ==> UrlValue(r[i]).Some? && r[i] != '+' && r[i] != '/' && r[i] != '='
  {
    Base64UrlEncodeIsRfc4648(bs);
    Base64UrlLength(bs);
  }
}
