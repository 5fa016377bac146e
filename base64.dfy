/**
 * Base64 as commons-codec implements it: the encoder of section 4 of RFC 4648 (standard
 * alphabet, `=` padding), its chunked variant with a CRLF line separator, and the lenient
 * decoder that skips characters outside its table, also accepts the URL-safe `-` and `_`,
 * and stops at the first `=`.
 */
module Base64 {

  type byte = x: int | 0 <= x < 256
  type sextet = x: int | 0 <= x < 64

  /** The 64 characters of the standard alphabet, in value order. */
  function EncodeSextet(v: sextet): char {
    if v < 26 then ('A' as int + v) as char
    else if v < 52 then ('a' as int + (v - 26)) as char
    else if v < 62 then ('0' as int + (v - 52)) as char
    else if v == 62 then '+'
    else '/'
  }

  /** The decoding table: -1 for a character the decoder skips. */
  function SextetOf(c: char): int {
    if 'A' <= c <= 'Z' then c as int - 'A' as int
    else if 'a' <= c <= 'z' then c as int - 'a' as int + 26
    else if '0' <= c <= '9' then c as int - '0' as int + 52
    else if c == '+' || c == '-' then 62
    else if c == '/' || c == '_' then 63
    else -1
  }

  /** A character the encoder can produce: the standard alphabet and the pad. */
  predicate IsEncodedChar(c: char) {
    ('A' <= c <= 'Z') || ('a' <= c <= 'z') || ('0' <= c <= '9') || c == '+' || c == '/' || c == '='
  }

  lemma SextetRoundTrip(v: sextet)
    ensures SextetOf(EncodeSextet(v)) == v
    ensures IsEncodedChar(EncodeSextet(v)) && EncodeSextet(v) != '='
  {
  }

  /** Encodes three bytes into four characters. */
  function Quad(b0: byte, b1: byte, b2: byte): string {
    [EncodeSextet(b0 / 4), EncodeSextet((b0 % 4) * 16 + b1 / 16),
     EncodeSextet((b1 % 16) * 4 + b2 / 64), EncodeSextet(b2 % 64)]
  }

  /** Base64.encodeBase64 without chunking: groups of three bytes, the tail padded with `=`. */
  function Encode(b: seq<byte>): (s: string)
    ensures |s| == 4 * ((|b| + 2) / 3)
    ensures forall i :: 0 <= i < |s| ==> IsEncodedChar(s[i])
    decreases |b|
  {
    if |b| == 0 then ""
    else if |b| == 1 then
      SextetRoundTrip(b[0] / 4);
      SextetRoundTrip((b[0] % 4) * 16);
      [EncodeSextet(b[0] / 4), EncodeSextet((b[0] % 4) * 16)] + "=="
    else if |b| == 2 then
      SextetRoundTrip(b[0] / 4);
      SextetRoundTrip((b[0] % 4) * 16 + b[1] / 16);
      SextetRoundTrip((b[1] % 16) * 4);
      [EncodeSextet(b[0] / 4), EncodeSextet((b[0] % 4) * 16 + b[1] / 16), EncodeSextet((b[1] % 16) * 4)] + "="
    else
      SextetRoundTrip(b[0] / 4);
      SextetRoundTrip((b[0] % 4) * 16 + b[1] / 16);
      SextetRoundTrip((b[1] % 16) * 4 + b[2] / 64);
      SextetRoundTrip(b[2] % 64);
      var rest := Encode(b[3..]);
      assert |rest| == 4 * ((|b| - 3 + 2) / 3);
      Quad(b[0], b[1], b[2]) + rest
  }

  /**
   * `new Base64(lineLength).encodeAsString(b)` for an output shorter than one line: the
   * encoding followed by the CRLF separator, which is not written for an empty output.
   */
  function EncodeChunked(b: seq<byte>): string {
    if b == [] then "" else Encode(b) + "\r\n"
  }

  /** Three bytes from four sextets. */
  function Group(q: seq<sextet>): seq<byte>
    requires |q| == 4
  {
    [q[0] as int * 4 + q[1] as int / 16, (q[1] as int % 16) * 16 + q[2] as int / 4, (q[2] as int % 4) * 64 + q[3] as int]
  }

  /** The bytes a trailing partial group yields when decoding ends: 12 bits give one, 18 give two. */
  function Flush(p: seq<sextet>): seq<byte>
    requires |p| < 4
  {
    if |p| == 2 then [p[0] as int * 4 + p[1] as int / 16]
    else if |p| == 3 then [p[0] as int * 4 + p[1] as int / 16, (p[1] as int % 16) * 16 + p[2] as int / 4]
    else []
  }

  /** Decodes `s` with the sextets `p` of an unfinished group already read. */
  function DecodeRun(s: string, p: seq<sextet>): seq<byte>
    requires |p| < 4
    decreases |s|
  {
    if s == [] || s[0] == '=' then Flush(p)
    else if SextetOf(s[0]) < 0 then DecodeRun(s[1..], p)
    else
      var q := p + [SextetOf(s[0]) as sextet];
      if |q| == 4 then Group(q) + DecodeRun(s[1..], []) else DecodeRun(s[1..], q)
  }

  /** Base64.decodeBase64. */
  function Decode(s: string): seq<byte> {
    DecodeRun(s, [])
  }

  /** One character of the alphabet read into an unfinished group. */
  lemma DecodeStep(v: sextet, s: string, p: seq<sextet>)
    requires |p| < 3
    ensures DecodeRun([EncodeSextet(v)] + s, p) == DecodeRun(s, p + [v])
  {
    SextetRoundTrip(v);
    assert ([EncodeSextet(v)] + s)[1..] == s;
  }

  /** The character completing a group. */
  lemma DecodeLast(v: sextet, s: string, p: seq<sextet>)
    requires |p| == 3
    ensures DecodeRun([EncodeSextet(v)] + s, p) == Group(p + [v]) + DecodeRun(s, [])
  {
    SextetRoundTrip(v);
    assert ([EncodeSextet(v)] + s)[1..] == s;
  }

  /** Regrouping the sextets of three bytes gives the bytes back. */
  lemma GroupQuad(b0: byte, b1: byte, b2: byte)
    ensures Group([b0 / 4, (b0 % 4) * 16 + b1 / 16, (b1 % 16) * 4 + b2 / 64, b2 % 64]) == [b0, b1, b2]
  {
  }

  /** Four encoded characters read from the start of a group decode to their three bytes. */
  lemma DecodeQuad(b0: byte, b1: byte, b2: byte, rest: string)
    ensures DecodeRun(Quad(b0, b1, b2) + rest, []) == [b0, b1, b2] + DecodeRun(rest, [])
  {
    var v0, v1, v2, v3 := b0 / 4, (b0 % 4) * 16 + b1 / 16, (b1 % 16) * 4 + b2 / 64, b2 % 64;
    var e0, e1, e2, e3 := EncodeSextet(v0), EncodeSextet(v1), EncodeSextet(v2), EncodeSextet(v3);
    assert Quad(b0, b1, b2) + rest == [e0] + ([e1] + ([e2] + ([e3] + rest)));
    DecodeStep(v0, [e1] + ([e2] + ([e3] + rest)), []);
    assert [] + [v0] == [v0];
    DecodeStep(v1, [e2] + ([e3] + rest), [v0]);
    assert [v0] + [v1] == [v0, v1];
    DecodeStep(v2, [e3] + rest, [v0, v1]);
    DecodeLast(v3, rest, [v0, v1, v2]);
    assert [v0, v1] + [v2] == [v0, v1, v2];
    assert [v0, v1, v2] + [v3] == [v0, v1, v2, v3];
    GroupQuad(b0, b1, b2);
  }

  /** The sextets of a one- or two-byte tail regroup to its bytes. */
  lemma FlushTail(b0: byte, b1: byte)
    ensures Flush([b0 / 4, (b0 % 4) * 16]) == [b0]
    ensures Flush([b0 / 4, (b0 % 4) * 16 + b1 / 16, (b1 % 16) * 4]) == [b0, b1]
  {
  }

  /** A final group of one byte, padded with `==`. */
  lemma DecodeTailOne(b0: byte)
    ensures Decode(Encode([b0])) == [b0]
  {
    var v0, v1 := b0 / 4, (b0 % 4) * 16;
    var e0, e1 := EncodeSextet(v0), EncodeSextet(v1);
    assert Encode([b0]) == [e0] + ([e1] + "==");
    DecodeStep(v0, [e1] + "==", []);
    assert [] + [v0] == [v0];
    DecodeStep(v1, "==", [v0]);
    assert [v0] + [v1] == [v0, v1];
    FlushTail(b0, 0);
  }

  /** A final group of two bytes, padded with `=`. */
  lemma DecodeTailTwo(b0: byte, b1: byte)
    ensures Decode(Encode([b0, b1])) == [b0, b1]
  {
    var v0, v1, v2 := b0 / 4, (b0 % 4) * 16 + b1 / 16, (b1 % 16) * 4;
    var e0, e1, e2 := EncodeSextet(v0), EncodeSextet(v1), EncodeSextet(v2);
    assert Encode([b0, b1]) == [e0] + ([e1] + ([e2] + "="));
    DecodeStep(v0, [e1] + ([e2] + "="), []);
    assert [] + [v0] == [v0];
    DecodeStep(v1, [e2] + "=", [v0]);
    assert [v0] + [v1] == [v0, v1];
    DecodeStep(v2, "=", [v0, v1]);
    assert [v0, v1] + [v2] == [v0, v1, v2];
    FlushTail(b0, b1);
  }

  /** Decoding inverts encoding (section 4 of RFC 4648): no byte sequence is lost or altered. */
  lemma {:induction false} DecodeEncode(b: seq<byte>)
    ensures Decode(Encode(b)) == b
    decreases |b|
  {
    if |b| == 0 {
    } else if |b| == 1 {
      DecodeTailOne(b[0]);
      assert b == [b[0]];
    } else if |b| == 2 {
      DecodeTailTwo(b[0], b[1]);
      assert b == [b[0], b[1]];
    } else {
      var rest := b[3..];
      assert Encode(b) == Quad(b[0], b[1], b[2]) + Encode(rest);
      DecodeQuad(b[0], b[1], b[2], Encode(rest));
      DecodeEncode(rest);
      assert b == [b[0], b[1], b[2]] + rest;
    }
  }

  /** Characters the decoder skips, such as a trailing CRLF, leave the decoded bytes as they are. */
  lemma {:induction false} DecodeSkipsTail(s: string, p: seq<sextet>, t: string)
    requires |p| < 4
    requires forall i :: 0 <= i < |t| ==> SextetOf(t[i]) < 0 && t[i] != '='
    ensures DecodeRun(s + t, p) == DecodeRun(s, p)
    decreases |s| + |t|
  {
    if s == [] {
      if t != [] {
        assert ([] + t)[1..] == [] + t[1..];
        DecodeSkipsTail([], p, t[1..]);
      }
    } else {
      assert (s + t)[0] == s[0] && (s + t)[1..] == s[1..] + t;
      if s[0] != '=' {
        if SextetOf(s[0]) < 0 {
          DecodeSkipsTail(s[1..], p, t);
        } else {
          var q := p + [SextetOf(s[0]) as sextet];
          if |q| == 4 {
            DecodeSkipsTail(s[1..], [], t);
          } else {
            DecodeSkipsTail(s[1..], q, t);
          }
        }
      }
    }
  }

  /** The chunked encoding decodes back to the bytes it encodes. */
  lemma DecodeEncodeChunked(b: seq<byte>)
    ensures Decode(EncodeChunked(b)) == b
  {
    if b != [] {
      DecodeSkipsTail(Encode(b), [], "\r\n");
      DecodeEncode(b);
    }
  }

  /** The encoder never writes `_` or `-`, the characters the cookie layer and the image markers rely on. */
  lemma EncodeAvoids(b: seq<byte>, c: char)
    requires c == '_' || c == '-'
    ensures c !in Encode(b)
  {
  }
}
