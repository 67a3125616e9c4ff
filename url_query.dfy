/**
 * The query part of a URL as the pages read and write it: `encodeURIComponent`, the
 * `URLSearchParams` list operations `get`, `set` and `delete`, and its
 * application/x-www-form-urlencoded serializer and parser (`toString` and the constructor).
 */
module UrlQuery {
  import opened Wrappers
  import opened Text
  import Utf8

  type Byte = Utf8.Byte

  // ---------------------------------------------------------------------------------------
  // The name/value list
  // ---------------------------------------------------------------------------------------

  /** The entries of a `URLSearchParams`, in order; a name may occur more than once. */
  type Params = seq<(string, string)>

  /** `params.get(name)`: the value of the first entry with that name. */
  function Get(ps: Params, name: string): (r: Option<string>)
    ensures r.None? <==> forall k :: 0 <= k < |ps| ==> ps[k].0 != name
    ensures r.Some? ==> exists k :: 0 <= k < |ps| && ps[k] == (name, r.value)
  {
    if |ps| == 0 then None
    else if ps[0].0 == name then Some(ps[0].1)
    else Get(ps[1..], name)
  }

  /** `params.delete(name)`: every entry with that name is removed. */
  function Delete(ps: Params, name: string): (r: Params)
    ensures forall k :: 0 <= k < |r| ==> r[k].0 != name
    ensures |r| <= |ps|
  {
    if |ps| == 0 then []
    else if ps[0].0 == name then Delete(ps[1..], name)
    else [ps[0]] + Delete(ps[1..], name)
  }

  /**
   * `params.set(name, value)`: the first entry with that name takes the value and the later
   * ones are removed; with no such entry, the pair is appended.
   */
  function Set(ps: Params, name: string, value: string): Params {
    if |ps| == 0 then [(name, value)]
    else if ps[0].0 == name then [(name, value)] + Delete(ps[1..], name)
    else [ps[0]] + Set(ps[1..], name, value)
  }

  /** The entries with one name, in order. */
  function Named(ps: Params, name: string): seq<string> {
    if |ps| == 0 then []
    else if ps[0].0 == name then [ps[0].1] + Named(ps[1..], name)
    else Named(ps[1..], name)
  }

  lemma {:induction false} GetDelete(ps: Params, name: string, other: string)
    ensures Get(Delete(ps, name), name).None?
    ensures other != name ==> Get(Delete(ps, name), other) == Get(ps, other)
  {
    if |ps| > 0 {
      GetDelete(ps[1..], name, other);
    }
  }

  /** After `set`, the name has exactly the one new value, and every other name reads as before. */
  lemma {:induction false} SetSemantics(ps: Params, name: string, value: string, other: string)
    ensures Named(Set(ps, name, value), name) == [value]
    ensures other != name ==> Named(Set(ps, name, value), other) == Named(ps, other)
  {
    if |ps| > 0 {
      if ps[0].0 == name {
        NamedDelete(ps[1..], name, other);
      } else {
        SetSemantics(ps[1..], name, value, other);
      }
    }
  }

  lemma {:induction false} NamedDelete(ps: Params, name: string, other: string)
    ensures Named(Delete(ps, name), name) == []
    ensures other != name ==> Named(Delete(ps, name), other) == Named(ps, other)
  {
    if |ps| > 0 {
      NamedDelete(ps[1..], name, other);
    }
  }

  /** `get` after `set` reads the value set; other names are untouched. */
  lemma {:induction false} GetSet(ps: Params, name: string, value: string, other: string)
    ensures Get(Set(ps, name, value), name) == Some(value)
    ensures other != name ==> Get(Set(ps, name, value), other) == Get(ps, other)
  {
    if |ps| > 0 {
      if ps[0].0 == name {
        GetDelete(ps[1..], name, other);
      } else {
        GetSet(ps[1..], name, value, other);
      }
    }
  }

  // ---------------------------------------------------------------------------------------
  // Percent-encoding
  // ---------------------------------------------------------------------------------------

  /** An upper-case hexadecimal digit, as the encoders emit it. */
  function HexDigit(d: nat): char
    requires d < 16
  {
    if d < 10 then (('0' as int) + d) as char else (('A' as int) + d - 10) as char
  }

  /** The value of an ASCII hexadecimal digit of either case. */
  function HexValue(b: Byte): Option<nat> {
    if '0' as int <= b <= '9' as int then Some(b - '0' as int)
    else if 'A' as int <= b <= 'F' as int then Some(b - 'A' as int + 10)
    else if 'a' as int <= b <= 'f' as int then Some(b - 'a' as int + 10)
    else None
  }

  function PercentByte(b: Byte): string {
    ['%', HexDigit(b / 16), HexDigit(b % 16)]
  }

  predicate IsAsciiAlphanumeric(b: Byte) {
    ('0' as int <= b <= '9' as int) || ('A' as int <= b <= 'Z' as int) || ('a' as int <= b <= 'z' as int)
  }

  /** The bytes the form serializer leaves as they are. */
  predicate FormSafe(b: Byte) {
    IsAsciiAlphanumeric(b) || b == '*' as int || b == '-' as int || b == '.' as int || b == '_' as int
  }

  /** The bytes `encodeURIComponent` leaves as they are. */
  predicate UriSafe(b: Byte) {
    IsAsciiAlphanumeric(b) || b == '-' as int || b == '_' as int || b == '.' as int
    || b == '!' as int || b == '~' as int || b == '*' as int || b == '\'' as int
    || b == '(' as int || b == ')' as int
  }

  /** One byte under the form serializer: space becomes `+`. */
  function FormByte(b: Byte): string {
    if b == 0x20 then "+" else if FormSafe(b) then [b as char] else PercentByte(b)
  }

  function UriByte(b: Byte): string {
    if UriSafe(b) then [b as char] else PercentByte(b)
  }

  function FormEncodeBytes(bs: seq<Byte>): string {
    if |bs| == 0 then "" else FormByte(bs[0]) + FormEncodeBytes(bs[1..])
  }

  function UriEncodeBytes(bs: seq<Byte>): string {
    if |bs| == 0 then "" else UriByte(bs[0]) + UriEncodeBytes(bs[1..])
  }

  /** The application/x-www-form-urlencoded byte serializer applied to a name or a value. */
  function FormEncode(s: string): string {
    FormEncodeBytes(Utf8.Encode(s))
  }

  /** `encodeURIComponent(s)` */
  function EncodeUriComponent(s: string): string {
    UriEncodeBytes(Utf8.Encode(s))
  }

  /** Percent-decoding of bytes: `%` and two hexadecimal digits stand for one byte. */
  function PercentDecode(bs: seq<Byte>): seq<Byte> {
    if |bs| == 0 then []
    else if bs[0] == '%' as int && |bs| >= 3 && HexValue(bs[1]).Some? && HexValue(bs[2]).Some? then
      [HexValue(bs[1]).value * 16 + HexValue(bs[2]).value] + PercentDecode(bs[3..])
    else [bs[0]] + PercentDecode(bs[1..])
  }

  function ReplacePlus(s: string): string {
    if |s| == 0 then "" else [if s[0] == '+' then ' ' else s[0]] + ReplacePlus(s[1..])
  }

  /** How the form parser turns a name or a value back into text. */
  function DecodeComponent(s: string): string {
    Utf8.Decode(ParsedBytes(s))
  }

  /** The bytes the form parser reads from a string: `+` to space, then percent-decoding. */
  function ParsedBytes(s: string): seq<Byte> {
    PercentDecode(Utf8.Encode(ReplacePlus(s)))
  }

  // ---------------------------------------------------------------------------------------
  // Serializing and parsing
  // ---------------------------------------------------------------------------------------

  function SerializePairs(ps: Params): seq<string> {
    if |ps| == 0 then [] else [FormEncode(ps[0].0) + "=" + FormEncode(ps[0].1)] + SerializePairs(ps[1..])
  }

  /** `params.toString()` */
  function Serialize(ps: Params): string {
    Join(SerializePairs(ps), "&")
  }

  /** One `&`-separated piece: the name runs up to the first `=`; without one the value is "". */
  function ParsePair(piece: string): (string, string) {
    match Find(piece, "=", 0)
    case None => (DecodeComponent(piece), "")
    case Some(i) => (DecodeComponent(piece[..i]), DecodeComponent(piece[i + 1..]))
  }

  /** Empty pieces (from `&&`, or a trailing `&`) are skipped. */
  function ParsePieces(pieces: seq<string>): Params {
    if |pieces| == 0 then []
    else if pieces[0] == "" then ParsePieces(pieces[1..])
    else [ParsePair(pieces[0])] + ParsePieces(pieces[1..])
  }

  /** `new URLSearchParams(query)` for a query without its leading `?`. */
  function Parse(query: string): Params {
    ParsePieces(Split(query, "&"))
  }

  /** The query of a URL built by the pages: the text after the first `?`, or "" without one. */
  function QueryOf(url: string): string {
    match Find(url, "?", 0)
    case None => ""
    case Some(i) => url[i + 1..]
  }

  // ---------------------------------------------------------------------------------------
  // Round trips
  // ---------------------------------------------------------------------------------------

  lemma ReplacePlusAppend(a: string, b: string)
    ensures ReplacePlus(a + b) == ReplacePlus(a) + ReplacePlus(b)
  {
    if |a| == 0 {
      assert a + b == b;
    } else {
      assert (a + b)[1..] == a[1..] + b;
      ReplacePlusAppend(a[1..], b);
    }
  }

  lemma HexDigitValue(d: nat)
    requires d < 16
    ensures HexValue(HexDigit(d) as int) == Some(d)
  {
  }

  /** A percent-escape is read back as its byte, whatever follows it. */
  lemma ParsedBytesOfEscape(b: Byte, t: string)
    ensures ParsedBytes(PercentByte(b) + t) == [b] + ParsedBytes(t)
  {
    var p := PercentByte(b);
    var h := HexDigit(b / 16);
    var l := HexDigit(b % 16);
    ReplacePlusAppend(p, t);
    assert p == ['%', h, l];
    assert p[1..] == [h, l] && p[2..] == [l] && p[3..] == "";
    assert ReplacePlus([l]) == [l];
    assert ReplacePlus([h, l]) == [h, l];
    assert ReplacePlus(p) == p;
    Utf8.EncodeAppend(p, ReplacePlus(t));
    Utf8.EncodeAscii('%');
    Utf8.EncodeAscii(h);
    Utf8.EncodeAscii(l);
    assert Utf8.Encode([l]) == [l as int];
    assert Utf8.Encode([h, l]) == [h as int, l as int];
    assert Utf8.Encode(p) == ['%' as int, h as int, l as int];
    HexDigitValue(b / 16);
    HexDigitValue(b % 16);
    var rest := Utf8.Encode(ReplacePlus(t));
    var all := ['%' as int, h as int, l as int] + rest;
    assert all[3..] == rest;
  }

  /** An ASCII character other than `%` is read back as its own byte, and `+` as a space. */
  lemma ParsedBytesOfLiteral(c: char, t: string)
    requires c as int < 0x80 && c != '%'
    ensures ParsedBytes([c] + t) == [if c == '+' then 0x20 else c as int] + ParsedBytes(t)
  {
    var d := if c == '+' then ' ' else c;
    ReplacePlusAppend([c], t);
    assert ReplacePlus([c]) == [d];
    Utf8.EncodeAppend([d], ReplacePlus(t));
    Utf8.EncodeAscii(d);
    var rest := Utf8.Encode(ReplacePlus(t));
    assert Utf8.Encode([d]) == [d as int];
    assert ([d as int] + rest)[1..] == rest;
  }

  /** Each encoded byte is read back as that byte, whatever follows it. */
  lemma ParsedBytesOfPiece(b: Byte, t: string, uri: bool)
    ensures ParsedBytes((if uri then UriByte(b) else FormByte(b)) + t) == [b] + ParsedBytes(t)
  {
    var p := if uri then UriByte(b) else FormByte(b);
    if p == PercentByte(b) {
      ParsedBytesOfEscape(b, t);
    } else if p == "+" {
      ParsedBytesOfLiteral('+', t);
    } else {
      assert p == [b as char];
      ParsedBytesOfLiteral(b as char, t);
    }
  }

  lemma {:induction false} ParsedBytesOfEncoding(bs: seq<Byte>, uri: bool)
    ensures ParsedBytes(if uri then UriEncodeBytes(bs) else FormEncodeBytes(bs)) == bs
  {
    if |bs| == 0 {
      assert Utf8.Encode("") == [];
    } else {
      var tail := if uri then UriEncodeBytes(bs[1..]) else FormEncodeBytes(bs[1..]);
      ParsedBytesOfPiece(bs[0], tail, uri);
      ParsedBytesOfEncoding(bs[1..], uri);
      assert bs == [bs[0]] + bs[1..];
    }
  }

  /** The form parser reads back what the form serializer wrote. */
  lemma DecodeFormEncode(s: string)
    ensures DecodeComponent(FormEncode(s)) == s
  {
    ParsedBytesOfEncoding(Utf8.Encode(s), false);
    Utf8.DecodeEncode(s);
  }

  /** The form parser also reads back `encodeURIComponent`: it never produces a `+`. */
  lemma DecodeUriEncode(s: string)
    ensures DecodeComponent(EncodeUriComponent(s)) == s
  {
    ParsedBytesOfEncoding(Utf8.Encode(s), true);
    Utf8.DecodeEncode(s);
  }

  /** No encoded byte contains one of the query's delimiters. */
  lemma {:induction false} EncodingAvoidsDelimiters(bs: seq<Byte>, uri: bool)
    ensures var e := if uri then UriEncodeBytes(bs) else FormEncodeBytes(bs);
      '&' !in e && '=' !in e && '?' !in e && '#' !in e
  {
    if |bs| > 0 {
      EncodingAvoidsDelimiters(bs[1..], uri);
      var p := if uri then UriByte(bs[0]) else FormByte(bs[0]);
      assert p == "+" || p == [bs[0] as char] || p == PercentByte(bs[0]);
    }
  }

  lemma {:induction false} SerializePairsShape(ps: Params)
    ensures |SerializePairs(ps)| == |ps|
    ensures forall k :: 0 <= k < |ps| ==> '&' !in SerializePairs(ps)[k]
    ensures forall k :: 0 <= k < |ps| ==> SerializePairs(ps)[k] != ""
  {
    if |ps| > 0 {
      SerializePairsShape(ps[1..]);
      EncodingAvoidsDelimiters(Utf8.Encode(ps[0].0), false);
      EncodingAvoidsDelimiters(Utf8.Encode(ps[0].1), false);
      var tail := SerializePairs(ps[1..]);
      assert SerializePairs(ps) == [FormEncode(ps[0].0) + "=" + FormEncode(ps[0].1)] + tail;
    }
  }

  /** A serialized pair parses back to the pair. */
  lemma ParsePairOfSerialized(name: string, value: string)
    ensures ParsePair(FormEncode(name) + "=" + FormEncode(value)) == (name, value)
  {
    var n := FormEncode(name);
    var v := FormEncode(value);
    var piece := n + "=" + v;
    EncodingAvoidsDelimiters(Utf8.Encode(name), false);
    FindAfterPrefix(n, '=', v);
    assert piece[..|n|] == n;
    assert piece[|n| + 1..] == v;
    DecodeFormEncode(name);
    DecodeFormEncode(value);
  }

  lemma {:induction false} ParsePiecesOfSerialized(ps: Params)
    ensures ParsePieces(SerializePairs(ps)) == ps
  {
    if |ps| > 0 {
      SerializePairsShape(ps);
      ParsePairOfSerialized(ps[0].0, ps[0].1);
      ParsePiecesOfSerialized(ps[1..]);
      assert SerializePairs(ps)[1..] == SerializePairs(ps[1..]);
    }
  }

  /**
   * `new URLSearchParams(params.toString())` has the same entries as `params`: the copy the
   * filter panel makes of the current query loses nothing.
   */
  lemma ParseSerialize(ps: Params)
    ensures Parse(Serialize(ps)) == ps
  {
    SerializePairsShape(ps);
    if |ps| == 0 {
      assert Split("", "&") == [""];
    } else {
      SplitJoin(SerializePairs(ps), '&');
      ParsePiecesOfSerialized(ps);
    }
  }

  lemma {:induction false} SerializePairsSnoc(ps: Params, p: (string, string))
    ensures SerializePairs(ps + [p]) == SerializePairs(ps) + [FormEncode(p.0) + "=" + FormEncode(p.1)]
  {
    if |ps| > 0 {
      assert (ps + [p])[1..] == ps[1..] + [p];
      SerializePairsSnoc(ps[1..], p);
    }
  }

  /** Appending an entry to a non-empty list appends `&` and the entry's pair to the query. */
  lemma SerializeSnoc(ps: Params, p: (string, string))
    requires |ps| > 0
    ensures Serialize(ps + [p]) == Serialize(ps) + "&" + (FormEncode(p.0) + "=" + FormEncode(p.1))
  {
    SerializePairsSnoc(ps, p);
    SerializePairsShape(ps);
    JoinSnoc(SerializePairs(ps), FormEncode(p.0) + "=" + FormEncode(p.1), "&");
  }

  /**
   * The login redirect: a URL `base + "?redirect=" + encodeURIComponent(path)`, with no `?` in
   * `base`, carries `path` back out through `searchParams.get("redirect")`.
   */
  lemma RedirectRoundTrip(base: string, path: string)
    requires '?' !in base
    ensures Get(Parse(QueryOf(base + "?redirect=" + EncodeUriComponent(path))), "redirect") == Some(path)
  {
    var e := EncodeUriComponent(path);
    assert "?redirect=" == "?" + "redirect" + "=";
    assert base + "?redirect=" + e == base + "?" + ("redirect" + "=" + e);
    RedirectIsWord();
    SinglePairRoundTrip(base, "redirect", path);
  }

  /**
   * A URL `base + "?" + name + "=" + encodeURIComponent(value)` with no `?` in `base` and a
   * word as the name has the one entry `(name, value)` in its query.
   */
  lemma SinglePairRoundTrip(base: string, name: string, value: string)
    requires '?' !in base
    requires IsWord(name)
    ensures Parse(QueryOf(base + "?" + (name + "=" + EncodeUriComponent(value)))) == [(name, value)]
  {
    var e := EncodeUriComponent(value);
    QueryAfterMark(base, name + "=" + e);
    EncodingAvoidsDelimiters(Utf8.Encode(value), true);
    ParseSinglePair(name, e);
    DecodeUriEncode(value);
  }

  /** The query of `base + "?" + q` is `q` when `base` has no `?`. */
  lemma QueryAfterMark(base: string, q: string)
    requires '?' !in base
    ensures QueryOf(base + "?" + q) == q
  {
    FindAfterPrefix(base, '?', q);
    assert (base + "?" + q)[|base| + 1..] == q;
  }

  /** A word of ASCII letters and digits, which every encoder leaves as it is. */
  predicate IsWord(s: string) {
    forall i :: 0 <= i < |s| ==> ('0' <= s[i] <= '9') || ('A' <= s[i] <= 'Z') || ('a' <= s[i] <= 'z')
  }

  /** A query holding a single `name=value` pair, with a plain word as the name. */
  lemma ParseSinglePair(name: string, e: string)
    requires IsWord(name)
    requires '&' !in e
    ensures Parse(name + "=" + e) == [(name, DecodeComponent(e))]
  {
    var q := name + "=" + e;
    assert '&' !in q by {
      assert forall i :: 0 <= i < |q| ==> q[i] == '=' || q[i] in name || q[i] in e;
    }
    SplitWithoutSeparator(q, '&');
    assert '=' !in name;
    FindAfterPrefix(name, '=', e);
    assert q[..|name|] == name;
    assert q[|name| + 1..] == e;
    DecodeWord(name);
    assert ParsePieces([q]) == [ParsePair(q)];
  }

  lemma RedirectIsWord()
    ensures IsWord("redirect")
  {
  }

  /** A word is its own encoding under both encoders. */
  lemma {:induction false} WordEncoding(s: string)
    requires IsWord(s)
    ensures EncodeUriComponent(s) == s
    ensures FormEncode(s) == s
  {
    if |s| > 0 {
      Utf8.EncodeAscii(s[0]);
      WordEncoding(s[1..]);
      assert Utf8.Encode(s) == [s[0] as int] + Utf8.Encode(s[1..]);
      assert (s[0] as int) as char == s[0];
      assert s == [s[0]] + s[1..];
    }
  }

  lemma DecodeWord(s: string)
    requires IsWord(s)
    ensures DecodeComponent(s) == s
  {
    WordEncoding(s);
    DecodeUriEncode(s);
  }

  /** Text the form parser reads as it is: ASCII, with no `%` and no `+`. */
  predicate IsPlain(s: string) {
    forall i :: 0 <= i < |s| ==> s[i] as int < 0x80 && s[i] != '%' && s[i] != '+'
  }

  lemma {:induction false} PlainParsedBytes(s: string)
    requires IsPlain(s)
    ensures ParsedBytes(s) == Utf8.Encode(s)
  {
    if |s| > 0 {
      assert s == [s[0]] + s[1..];
      ParsedBytesOfLiteral(s[0], s[1..]);
      Utf8.EncodeAscii(s[0]);
      PlainParsedBytes(s[1..]);
    }
  }

  /** Plain text decodes to itself. */
  lemma DecodePlain(s: string)
    requires IsPlain(s)
    ensures DecodeComponent(s) == s
  {
    PlainParsedBytes(s);
    Utf8.DecodeEncode(s);
  }

  /** A path made of words and slashes, such as the pages' own routes. */
  predicate IsWordPath(s: string) {
    forall i :: 0 <= i < |s| ==> s[i] == '/' || IsWord([s[i]])
  }

  /** The text with every `/` written as `%2F`. */
  function EscapeSlashes(s: string): string {
    if |s| == 0 then "" else (if s[0] == '/' then "%2F" else [s[0]]) + EscapeSlashes(s[1..])
  }

  /**
   * `encodeURIComponent` of a word path escapes exactly its slashes, so a redirect to a page
   * route such as `/purchase` is sent as `%2Fpurchase`.
   */
  lemma {:induction false} WordPathEncoding(s: string)
    requires IsWordPath(s)
    ensures EncodeUriComponent(s) == EscapeSlashes(s)
  {
    if |s| > 0 {
      assert s[0] == '/' || IsWord([s[0]]);
      assert s[0] as int < 0x80 by {
        if s[0] != '/' { assert [s[0]][0] == s[0]; }
      }
      Utf8.EncodeAscii(s[0]);
      assert IsWordPath(s[1..]) by {
        forall i | 0 <= i < |s[1..]| ensures s[1..][i] == '/' || IsWord([s[1..][i]]) {
          assert s[1..][i] == s[i + 1];
        }
      }
      WordPathEncoding(s[1..]);
      var bs := Utf8.Encode(s);
      assert bs == [s[0] as int] + Utf8.Encode(s[1..]);
      assert bs[0] == s[0] as int && bs[1..] == Utf8.Encode(s[1..]);
      if s[0] == '/' {
        assert UriByte(bs[0]) == "%2F";
      } else {
        assert [s[0]][0] == s[0];
        assert UriSafe(bs[0]);
        assert (s[0] as int) as char == s[0];
      }
    }
  }
}
