/**
 * The text encodings the authorize URLs and token requests are built with:
 * UTF-8 (RFC 3629), percent-encoding with upper-case hex digits, the
 * application/x-www-form-urlencoded serializer that `URLSearchParams.toString()`
 * applies to every name and value, and ECMAScript's `encodeURIComponent`.
 *
 * A reference decoder (percent-decoding, '+' read as a space, then UTF-8
 * decoding) and a query parser are the partners: every encoded component decodes
 * back to its input and every serialized parameter list parses back to itself.
 */
module UrlEncoding {
  import opened Wrappers

  type byte = b: int | 0 <= b < 256

  /** A name/value pair of a query string or form body. */
  type Param = (string, string)

  // ---------------------------------------------------------------- UTF-8

  /** UTF-8 encoding of one Unicode scalar value, six bits per continuation byte. */
  function Utf8Char(c: char): (r: seq<byte>)
    ensures 1 <= |r| <= 4
    ensures |r| == 1 <==> c as int < 0x80
    ensures |r| == 1 ==> r[0] == c as int
  {
    var n := c as int;
    var q1 := n / 64;
    var q2 := q1 / 64;
    var q3 := q2 / 64;
    if n < 0x80 then [n]
    else if n < 0x800 then [0xC0 + q1, 0x80 + n % 64]
    else if n < 0x10000 then [0xE0 + q2, 0x80 + q1 % 64, 0x80 + n % 64]
    else [0xF0 + q3, 0x80 + q2 % 64, 0x80 + q1 % 64, 0x80 + n % 64]
  }

  /** `new TextEncoder().encode(s)` */
  function Utf8(s: string): seq<byte>
  {
    if s == [] then [] else Utf8Char(s[0]) + Utf8(s[1..])
  }

  predicate IsContinuation(b: byte) {
    0x80 <= b < 0xC0
  }

  predicate IsScalarValue(n: int) {
    0 <= n < 0xD800 || 0xE000 <= n < 0x110000
  }

  function Prepend(c: char, rest: Option<string>): Option<string> {
    match rest
    case None => None
    case Some(t) => Some([c] + t)
  }

  /** Reference UTF-8 decoder: `None` for a malformed byte sequence. */
  function Utf8Decode(b: seq<byte>): Option<string>
    decreases |b|
  {
    if b == [] then Some([])
    else
      var b0 := b[0] as int;
      if b0 < 0x80 then Prepend(b0 as char, Utf8Decode(b[1..]))
      else if 0xC0 <= b0 < 0xE0 && |b| >= 2 && IsContinuation(b[1]) then
        var n := (b0 - 0xC0) * 64 + (b[1] as int - 0x80);
        if IsScalarValue(n) then Prepend(n as char, Utf8Decode(b[2..])) else None
      else if 0xE0 <= b0 < 0xF0 && |b| >= 3 && IsContinuation(b[1]) && IsContinuation(b[2]) then
        var n := ((b0 - 0xE0) * 64 + (b[1] as int - 0x80)) * 64 + (b[2] as int - 0x80);
        if IsScalarValue(n) then Prepend(n as char, Utf8Decode(b[3..])) else None
      else if 0xF0 <= b0 < 0xF8 && |b| >= 4 && IsContinuation(b[1]) && IsContinuation(b[2])
           && IsContinuation(b[3]) then
        var n := (((b0 - 0xF0) * 64 + (b[1] as int - 0x80)) * 64 + (b[2] as int - 0x80)) * 64
                 + (b[3] as int - 0x80);
        if IsScalarValue(n) then Prepend(n as char, Utf8Decode(b[4..])) else None
      else None
  }

  lemma Utf8CharDecodes(c: char, rest: seq<byte>)
    ensures Utf8Decode(Utf8Char(c) + rest) == Prepend(c, Utf8Decode(rest))
  {
    var n := c as int;
    var q1 := n / 64;
    var q2 := q1 / 64;
    var q3 := q2 / 64;
    var b := Utf8Char(c) + rest;
    assert n == q1 * 64 + n % 64;
    assert q1 == q2 * 64 + q1 % 64;
    assert q2 == q3 * 64 + q2 % 64;
    if n < 0x80 {
      assert b[1..] == rest;
    } else if n < 0x800 {
      assert b[2..] == rest;
    } else if n < 0x10000 {
      assert b[3..] == rest;
    } else {
      assert b[4..] == rest;
    }
  }

  lemma {:induction false} Utf8RoundTrip(s: string)
    ensures Utf8Decode(Utf8(s)) == Some(s)
  {
    if s != [] {
      Utf8CharDecodes(s[0], Utf8(s[1..]));
      Utf8RoundTrip(s[1..]);
      assert [s[0]] + s[1..] == s;
    }
  }

  lemma {:induction false} Utf8Append(a: string, b: string)
    ensures Utf8(a + b) == Utf8(a) + Utf8(b)
  {
    if a != [] {
      assert (a + b)[0] == a[0];
      assert (a + b)[1..] == a[1..] + b;
      Utf8Append(a[1..], b);
    } else {
      assert a + b == b;
    }
  }

  // ---------------------------------------------------------------- percent-encoding

  predicate IsDigit(c: char) { '0' <= c <= '9' }
  predicate IsAsciiLetter(c: char) { 'A' <= c <= 'Z' || 'a' <= c <= 'z' }

  /** An upper-case hexadecimal digit. */
  function HexDigit(v: int): (c: char)
    requires 0 <= v < 16
    ensures IsDigit(c) || 'A' <= c <= 'F'
  {
    if v < 10 then ('0' as int + v) as char else ('A' as int + v - 10) as char
  }

  /** The value of a hexadecimal digit of either case. */
  function HexValue(c: char): Option<int> {
    if IsDigit(c) then Some(c as int - '0' as int)
    else if 'A' <= c <= 'F' then Some(c as int - 'A' as int + 10)
    else if 'a' <= c <= 'f' then Some(c as int - 'a' as int + 10)
    else None
  }

  /** `%XY` for each byte. */
  function PercentBytes(bs: seq<byte>): (r: string)
    ensures |r| == 3 * |bs|
    ensures forall i :: 0 <= i < |r| ==> r[i] == '%' || IsDigit(r[i]) || 'A' <= r[i] <= 'F'
  {
    if bs == [] then ""
    else ['%', HexDigit(bs[0] / 16), HexDigit(bs[0] % 16)] + PercentBytes(bs[1..])
  }

  /** Characters left as they are by the application/x-www-form-urlencoded serializer. */
  predicate FormSafe(c: char) {
    IsAsciiLetter(c) || IsDigit(c) || c == '*' || c == '-' || c == '.' || c == '_'
  }

  /** Characters left as they are by `encodeURIComponent`. */
  predicate UriComponentSafe(c: char) {
    IsAsciiLetter(c) || IsDigit(c) || c == '-' || c == '_' || c == '.' || c == '!'
    || c == '~' || c == '*' || c == '\'' || c == '(' || c == ')'
  }

  /** Every character an encoder below can emit: none of them is '&', '=' or '?'. */
  predicate EncodedChar(c: char) {
    UriComponentSafe(c) || c == '+' || c == '%'
  }

  /**
   * One character through the form serializer (`form`) or through
   * `encodeURIComponent` (`!form`): safe characters stay, a space becomes '+'
   * in a form, everything else is its UTF-8 bytes percent-encoded.
   */
  function EncodeChar(c: char, form: bool): (r: string)
    ensures forall i :: 0 <= i < |r| ==> EncodedChar(r[i])
  {
    if form && c == ' ' then "+"
    else if (if form then FormSafe(c) else UriComponentSafe(c)) then [c]
    else PercentBytes(Utf8Char(c))
  }

  function Encode(s: string, form: bool): (r: string)
    ensures forall i :: 0 <= i < |r| ==> EncodedChar(r[i])
  {
    if s == [] then "" else EncodeChar(s[0], form) + Encode(s[1..], form)
  }

  /** The form-urlencoded form of one name or value, as `URLSearchParams` writes it. */
  function FormEncode(s: string): string {
    Encode(s, true)
  }

  /** ECMAScript `encodeURIComponent` (Dafny strings hold no lone surrogates, so it never throws). */
  function EncodeUriComponent(s: string): string {
    Encode(s, false)
  }

  /**
   * Reference percent-decoder of a query component: `%XY` is one byte, '+' is a
   * space, a '%' not followed by two hex digits stays, any other character is
   * its UTF-8 bytes.
   */
  function PercentDecode(s: string): seq<byte>
    decreases |s|
  {
    if s == [] then []
    else if s[0] == '%' && |s| >= 3 && HexValue(s[1]).Some? && HexValue(s[2]).Some? then
      [HexValue(s[1]).value * 16 + HexValue(s[2]).value] + PercentDecode(s[3..])
    else if s[0] == '+' then [0x20] + PercentDecode(s[1..])
    else Utf8Char(s[0]) + PercentDecode(s[1..])
  }

  /** A query component back to text. */
  function DecodeComponent(s: string): Option<string> {
    Utf8Decode(PercentDecode(s))
  }

  lemma HexDigitValue(v: int)
    requires 0 <= v < 16
    ensures HexValue(HexDigit(v)) == Some(v)
  {
  }

  lemma AppendAssoc<T>(a: seq<T>, b: seq<T>, c: seq<T>)
    ensures (a + b) + c == a + (b + c)
  {
  }

  /** One `%XY` triplet decodes to its byte. */
  lemma PercentTripletDecode(b: byte, t: string)
    ensures PercentDecode(['%', HexDigit(b / 16), HexDigit(b % 16)] + t) == [b] + PercentDecode(t)
  {
    var s := ['%', HexDigit(b / 16), HexDigit(b % 16)] + t;
    HexDigitValue(b / 16);
    HexDigitValue(b % 16);
    assert s[1] == HexDigit(b / 16) && s[2] == HexDigit(b % 16);
    assert s[3..] == t;
    assert (b / 16) * 16 + b % 16 == b;
  }

  lemma {:induction false} PercentBytesDecode(bs: seq<byte>, rest: string)
    ensures PercentDecode(PercentBytes(bs) + rest) == bs + PercentDecode(rest)
  {
    if bs != [] {
      var s := PercentBytes(bs) + rest;
      var b := bs[0];
      var t := ['%', HexDigit(b / 16), HexDigit(b % 16)];
      var tail := PercentBytes(bs[1..]);
      assert PercentBytes(bs) == t + tail;
      AppendAssoc(t, tail, rest);
      PercentTripletDecode(b, tail + rest);
      PercentBytesDecode(bs[1..], rest);
      calc {
        PercentDecode(s);
        [b] + PercentDecode(tail + rest);
        [b] + (bs[1..] + PercentDecode(rest));
        { AppendAssoc([b], bs[1..], PercentDecode(rest)); assert [b] + bs[1..] == bs; }
        bs + PercentDecode(rest);
      }
    } else {
      assert PercentBytes(bs) + rest == rest;
    }
  }

  lemma EncodeCharDecode(c: char, form: bool, rest: string)
    ensures PercentDecode(EncodeChar(c, form) + rest) == Utf8Char(c) + PercentDecode(rest)
  {
    if form && c == ' ' {
      assert (EncodeChar(c, form) + rest)[1..] == rest;
    } else if (if form then FormSafe(c) else UriComponentSafe(c)) {
      assert (EncodeChar(c, form) + rest)[1..] == rest;
    } else {
      PercentBytesDecode(Utf8Char(c), rest);
    }
  }

  lemma {:induction false} EncodeDecodesToUtf8(s: string, form: bool)
    ensures PercentDecode(Encode(s, form)) == Utf8(s)
  {
    if s != [] {
      EncodeCharDecode(s[0], form, Encode(s[1..], form));
      EncodeDecodesToUtf8(s[1..], form);
    }
  }

  /** Both encoders are undone by the reference decoder. */
  lemma EncodeRoundTrip(s: string, form: bool)
    ensures DecodeComponent(Encode(s, form)) == Some(s)
  {
    EncodeDecodesToUtf8(s, form);
    Utf8RoundTrip(s);
  }

  // ---------------------------------------------------------------- query strings

  /** Text put into a URL without encoding that still reads back as itself; a '#' would end the query. */
  predicate RawSafe(s: string) {
    forall i :: 0 <= i < |s| ==> s[i] != '&' && s[i] != '=' && s[i] != '%' && s[i] != '+' && s[i] != '?' && s[i] != '#'
  }

  /** `e` can stand as a query component and decodes to `d`. */
  predicate EncodesTo(e: string, d: string) {
    && (forall i :: 0 <= i < |e| ==> e[i] != '&' && e[i] != '=' && e[i] != '?')
    && DecodeComponent(e) == Some(d)
  }

  lemma {:induction false} RawDecodesToUtf8(s: string)
    requires RawSafe(s)
    ensures PercentDecode(s) == Utf8(s)
  {
    if s != [] {
      assert RawSafe(s[1..]) by {
        forall i | 0 <= i < |s[1..]| ensures s[1..][i] == s[i + 1] { }
      }
      RawDecodesToUtf8(s[1..]);
    }
  }

  lemma RawEncodesToItself(s: string)
    requires RawSafe(s)
    ensures EncodesTo(s, s)
  {
    RawDecodesToUtf8(s);
    Utf8RoundTrip(s);
  }

  lemma EncodeEncodesTo(s: string, form: bool)
    ensures EncodesTo(Encode(s, form), s)
  {
    var e := Encode(s, form);
    forall i | 0 <= i < |e| ensures e[i] != '&' && e[i] != '=' && e[i] != '?' {
      EncodedNotSeparator(e[i]);
    }
    EncodeRoundTrip(s, form);
  }

  lemma EncodedNotSeparator(c: char)
    requires EncodedChar(c)
    ensures c != '&' && c != '=' && c != '?'
  {
  }

  /** `parts` joined with `sep` between neighbours. */
  function Join(parts: seq<string>, sep: char): string
  {
    if parts == [] then ""
    else if |parts| == 1 then parts[0]
    else parts[0] + [sep] + Join(parts[1..], sep)
  }

  /** `s.split(sep)` */
  function Split(s: string, sep: char): (r: seq<string>)
    ensures |r| >= 1
  {
    if s == [] then [""]
    else
      var t := Split(s[1..], sep);
      if s[0] == sep then [""] + t else [[s[0]] + t[0]] + t[1..]
  }

  lemma {:induction false} SplitNoSeparator(a: string, sep: char)
    requires sep !in a
    ensures Split(a, sep) == [a]
  {
    if a != [] {
      SplitNoSeparator(a[1..], sep);
      assert [a[0]] + a[1..] == a;
    }
  }

  lemma {:induction false} SplitAtSeparator(a: string, sep: char, b: string)
    requires sep !in a
    ensures Split(a + [sep] + b, sep) == [a] + Split(b, sep)
  {
    if a == [] {
      assert a + [sep] + b == [sep] + b;
      assert ([sep] + b)[1..] == b;
    } else {
      var s := a + [sep] + b;
      assert s[1..] == a[1..] + [sep] + b;
      SplitAtSeparator(a[1..], sep, b);
      assert [a[0]] + a[1..] == a;
    }
  }

  lemma {:induction false} SplitJoin(parts: seq<string>, sep: char)
    requires parts != []
    requires forall k :: 0 <= k < |parts| ==> sep !in parts[k]
    ensures Split(Join(parts, sep), sep) == parts
  {
    if |parts| == 1 {
      SplitNoSeparator(parts[0], sep);
    } else {
      SplitJoin(parts[1..], sep);
      SplitAtSeparator(parts[0], sep, Join(parts[1..], sep));
    }
  }

  /** The text before the first `sep` and the text after it (all of `s` and "" when there is none). */
  function SplitFirst(s: string, sep: char): (r: (string, string))
    ensures sep !in r.0
  {
    if s == [] then ("", "")
    else if s[0] == sep then ("", s[1..])
    else
      var t := SplitFirst(s[1..], sep);
      ([s[0]] + t.0, t.1)
  }

  lemma {:induction false} SplitFirstAt(a: string, sep: char, b: string)
    requires sep !in a
    ensures SplitFirst(a + [sep] + b, sep) == (a, b)
  {
    if a == [] {
      assert a + [sep] + b == [sep] + b;
      assert ([sep] + b)[1..] == b;
    } else {
      var s := a + [sep] + b;
      assert s[1..] == a[1..] + [sep] + b;
      SplitFirstAt(a[1..], sep, b);
      assert [a[0]] + a[1..] == a;
    }
  }

  /** `name=value` pieces joined with '&': the shape of every query string here. */
  function PairsText(pairs: seq<Param>): string {
    Join(seq(|pairs|, i requires 0 <= i < |pairs| => pairs[i].0 + "=" + pairs[i].1), '&')
  }

  /** `URLSearchParams.toString()` */
  function Serialize(params: seq<Param>): string {
    PairsText(seq(|params|, i requires 0 <= i < |params| => (FormEncode(params[i].0), FormEncode(params[i].1))))
  }

  /** Reference parser of the pieces of a query: empty pieces are skipped, a piece splits at its first '='. */
  function ParsePieces(pieces: seq<string>): Option<seq<Param>>
  {
    if pieces == [] then Some([])
    else if pieces[0] == "" then ParsePieces(pieces[1..])
    else
      var nv := SplitFirst(pieces[0], '=');
      match (DecodeComponent(nv.0), DecodeComponent(nv.1), ParsePieces(pieces[1..]))
      case (Some(n), Some(v), Some(tail)) => Some([(n, v)] + tail)
      case _ => None
  }

  /** Reference parser of a query string (`new URLSearchParams(q)` as a list). */
  function ParseQuery(q: string): Option<seq<Param>> {
    ParsePieces(Split(q, '&'))
  }

  /** The part of a URL before its first '?', and the query after it. */
  function Endpoint(url: string): string { SplitFirst(url, '?').0 }
  function QueryOf(url: string): string { SplitFirst(url, '?').1 }

  /** The first value given to `name` (`URLSearchParams.get`). */
  function Lookup(params: seq<Param>, name: string): (r: Option<string>)
    ensures r.Some? <==> exists i :: 0 <= i < |params| && params[i].0 == name
  {
    if params == [] then None
    else if params[0].0 == name then Some(params[0].1)
    else
      var r := Lookup(params[1..], name);
      assert forall i :: 1 <= i < |params| ==> params[i] == params[1..][i - 1];
      r
  }

  /** `get` finds the value of the first pair with the name. */
  lemma {:induction false} LookupAt(params: seq<Param>, i: int, name: string)
    requires 0 <= i < |params| && params[i].0 == name
    requires forall j :: 0 <= j < i ==> params[j].0 != name
    ensures Lookup(params, name) == Some(params[i].1)
  {
    if i > 0 {
      LookupAt(params[1..], i - 1, name);
    }
  }

  /** A name is looked up in the second list only when the first does not have it. */
  lemma {:induction false} LookupAppend(a: seq<Param>, b: seq<Param>, name: string)
    ensures Lookup(a + b, name) == if Lookup(a, name).Some? then Lookup(a, name) else Lookup(b, name)
  {
    if a == [] {
      assert a + b == b;
    } else {
      assert (a + b)[0] == a[0];
      assert (a + b)[1..] == a[1..] + b;
      LookupAppend(a[1..], b, name);
    }
  }

  /** Pieces that are encoded components of `dec` parse back to `dec`. */
  lemma {:induction false} ParseEncodedPairs(enc: seq<Param>, dec: seq<Param>)
    requires |enc| == |dec|
    requires forall i :: 0 <= i < |enc| ==> EncodesTo(enc[i].0, dec[i].0) && EncodesTo(enc[i].1, dec[i].1)
    ensures ParseQuery(PairsText(enc)) == Some(dec)
  {
    var pieces := seq(|enc|, i requires 0 <= i < |enc| => enc[i].0 + "=" + enc[i].1);
    if enc == [] {
      assert Split("", '&') == [""];
    } else {
      forall k | 0 <= k < |pieces| ensures '&' !in pieces[k] {
        assert EncodesTo(enc[k].0, dec[k].0) && EncodesTo(enc[k].1, dec[k].1);
      }
      SplitJoin(pieces, '&');
      PiecesParse(enc, dec);
    }
  }

  lemma {:induction false} PiecesParse(enc: seq<Param>, dec: seq<Param>)
    requires |enc| == |dec|
    requires forall i :: 0 <= i < |enc| ==> EncodesTo(enc[i].0, dec[i].0) && EncodesTo(enc[i].1, dec[i].1)
    ensures ParsePieces(seq(|enc|, i requires 0 <= i < |enc| => enc[i].0 + "=" + enc[i].1)) == Some(dec)
  {
    var pieces := seq(|enc|, i requires 0 <= i < |enc| => enc[i].0 + "=" + enc[i].1);
    if enc != [] {
      assert EncodesTo(enc[0].0, dec[0].0) && EncodesTo(enc[0].1, dec[0].1);
      assert pieces[0] == enc[0].0 + ['='] + enc[0].1;
      SplitFirstAt(enc[0].0, '=', enc[0].1);
      PiecesParse(enc[1..], dec[1..]);
      assert pieces[1..] == seq(|enc[1..]|, i requires 0 <= i < |enc[1..]| => enc[1..][i].0 + "=" + enc[1..][i].1);
      assert [dec[0]] + dec[1..] == dec;
    }
  }

  /** `URLSearchParams` serialization is undone by parsing: the list comes back unchanged. */
  lemma SerializeRoundTrip(params: seq<Param>)
    ensures ParseQuery(Serialize(params)) == Some(params)
  {
    var enc := seq(|params|, i requires 0 <= i < |params| => (FormEncode(params[i].0), FormEncode(params[i].1)));
    forall i | 0 <= i < |enc| ensures EncodesTo(enc[i].0, params[i].0) && EncodesTo(enc[i].1, params[i].1) {
      EncodeEncodesTo(params[i].0, true);
      EncodeEncodesTo(params[i].1, true);
    }
    ParseEncodedPairs(enc, params);
  }

  /** A URL built as `endpoint?query` splits back into the two. */
  lemma UrlParts(endpoint: string, query: string)
    requires '?' !in endpoint
    ensures Endpoint(endpoint + "?" + query) == endpoint
    ensures QueryOf(endpoint + "?" + query) == query
  {
    SplitFirstAt(endpoint, '?', query);
  }

  /** A URL built as `endpoint?` + `params.toString()` gives back its endpoint and its parameter list. */
  lemma QueryUrl(endpoint: string, params: seq<Param>)
    requires '?' !in endpoint
    ensures Endpoint(endpoint + "?" + Serialize(params)) == endpoint
    ensures ParseQuery(QueryOf(endpoint + "?" + Serialize(params))) == Some(params)
  {
    UrlParts(endpoint, Serialize(params));
    SerializeRoundTrip(params);
  }
}
