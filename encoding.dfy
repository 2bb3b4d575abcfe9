/** Byte-level encodings the gateway uses: lower-case hex (encoding/hex),
    base64url with and without padding (section 5 of RFC 4648, Go's
    base64.URLEncoding and base64.RawURLEncoding) and the big-endian reading
    of a byte string as an unsigned number (math/big SetBytes). */
module Encoding {
  import opened Wrappers

  type byte = x: int | 0 <= x < 256
  type sextet = x: int | 0 <= x < 64

  // ---- hex ----

  function HexDigit(v: int): (c: char)
    requires 0 <= v < 16
  {
    if v < 10 then (v + '0' as int) as char else (v - 10 + 'a' as int) as char
  }

  predicate IsLowerHex(c: char) { ('0' <= c <= '9') || ('a' <= c <= 'f') }

  function HexValue(c: char): (v: int)
    requires IsLowerHex(c)
    ensures 0 <= v < 16 && HexDigit(v) == c
  {
    if c <= '9' then c as int - '0' as int else c as int - 'a' as int + 10
  }

  /** hex.EncodeToString: two lower-case hex digits per byte, high nibble first. */
  function HexEncode(b: seq<byte>): (s: string)
    ensures |s| == 2 * |b|
    ensures forall i :: 0 <= i < |s| ==> IsLowerHex(s[i])
  {
    if b == [] then "" else [HexDigit(b[0] / 16), HexDigit(b[0] % 16)] + HexEncode(b[1..])
  }

  /** The inverse of HexEncode on lower-case hex strings of even length. */
  function HexDecode(s: string): seq<byte>
    requires |s| % 2 == 0 && forall i :: 0 <= i < |s| ==> IsLowerHex(s[i])
  {
    if s == [] then [] else [HexValue(s[0]) * 16 + HexValue(s[1])] + HexDecode(s[2..])
  }

  lemma {:induction false} HexRoundTrip(b: seq<byte>)
    ensures HexDecode(HexEncode(b)) == b
  {
    if b != [] {
      var s := HexEncode(b);
      assert s[2..] == HexEncode(b[1..]);
      HexDigitInverse(b[0] / 16);
      HexDigitInverse(b[0] % 16);
      HexRoundTrip(b[1..]);
    }
  }

  lemma HexDigitInverse(v: int)
    requires 0 <= v < 16
    ensures IsLowerHex(HexDigit(v)) && HexValue(HexDigit(v)) == v
  {
  }

  /** Different byte strings have different hex encodings. */
  lemma HexEncodeInjective(a: seq<byte>, b: seq<byte>)
    requires HexEncode(a) == HexEncode(b)
    ensures a == b
  {
    HexRoundTrip(a);
    HexRoundTrip(b);
  }

  // ---- base64url ----

  /** The URL-safe alphabet of section 5 of RFC 4648: A-Z a-z 0-9 - _ */
  function SextetChar(v: sextet): char
  {
    if v < 26 then (v + 'A' as int) as char
    else if v < 52 then (v - 26 + 'a' as int) as char
    else if v < 62 then (v - 52 + '0' as int) as char
    else if v == 62 then '-'
    else '_'
  }

  predicate InAlphabet(c: char) {
    ('A' <= c <= 'Z') || ('a' <= c <= 'z') || ('0' <= c <= '9') || c == '-' || c == '_'
  }

  function SextetValue(c: char): (r: Option<sextet>)
    ensures r.Some? <==> InAlphabet(c)
    ensures r.Some? ==> SextetChar(r.value) == c
  {
    if 'A' <= c <= 'Z' then Some(c as int - 'A' as int)
    else if 'a' <= c <= 'z' then Some(c as int - 'a' as int + 26)
    else if '0' <= c <= '9' then Some(c as int - '0' as int + 52)
    else if c == '-' then Some(62)
    else if c == '_' then Some(63)
    else None
  }

  lemma SextetCharInverse(v: sextet)
    ensures InAlphabet(SextetChar(v)) && SextetValue(SextetChar(v)) == Some(v)
  {
  }

  /** The four sextets of a three-byte group. */
  function Sextets(b0: byte, b1: byte, b2: byte): seq<sextet>
  {
    [b0 / 4, (b0 % 4) * 16 + b1 / 16, (b1 % 16) * 4 + b2 / 64, b2 % 64]
  }

  function Chars(v: seq<sextet>): (s: string)
    ensures |s| == |v|
    ensures forall i :: 0 <= i < |s| ==> s[i] == SextetChar(v[i]) && InAlphabet(s[i])
  {
    if v == [] then "" else [SextetChar(v[0])] + Chars(v[1..])
  }

  /** base64.RawURLEncoding.EncodeToString: four characters per three bytes;
      a final group of one or two bytes gives two or three characters, with
      the missing bits zero and no padding. */
  function EncodeRaw(b: seq<byte>): (s: string)
    ensures forall i :: 0 <= i < |s| ==> InAlphabet(s[i])
    decreases |b|
  {
    if |b| == 0 then ""
    else if |b| == 1 then Chars(Sextets(b[0], 0, 0)[..2])
    else if |b| == 2 then Chars(Sextets(b[0], b[1], 0)[..3])
    else Chars(Sextets(b[0], b[1], b[2])) + EncodeRaw(b[3..])
  }

  /** Four characters per whole group, and one more than the bytes of a
      final partial group. */
  lemma {:induction false} EncodeRawLength(b: seq<byte>)
    ensures |EncodeRaw(b)| == |b| / 3 * 4 + (if |b| % 3 == 0 then 0 else |b| % 3 + 1)
    decreases |b|
  {
    if |b| >= 3 {
      EncodeRawLength(b[3..]);
    }
  }

  /** The unpadded length plus the padding is four characters per started
      three-byte group. */
  lemma PaddedLength(n: nat)
    ensures n / 3 * 4 + (if n % 3 == 0 then 0 else n % 3 + 1) + (3 - n % 3) % 3 == (n + 2) / 3 * 4
  {
    var q, r := n / 3, n % 3;
    assert n == 3 * q + r;
    if r == 0 {
      assert (n + 2) / 3 == q;
    } else {
      assert (n + 2) / 3 == q + 1;
    }
  }

  /** base64.URLEncoding.EncodeToString: EncodeRaw followed by '=' up to a
      multiple of four characters. */
  function EncodePadded(b: seq<byte>): (s: string)
    ensures |s| == (|b| + 2) / 3 * 4
    ensures |EncodeRaw(b)| <= |s| && s[..|EncodeRaw(b)|] == EncodeRaw(b)
  {
    var raw := EncodeRaw(b);
    EncodeRawLength(b);
    PaddedLength(|b|);
    raw + seq((3 - |b| % 3) % 3, _ => '=')
  }

  /** The bytes of one group of two, three or four sextets, as Go's decoder
      computes them: trailing bits that do not fill a byte are ignored. */
  function GroupBytes(v: seq<sextet>): (r: seq<byte>)
    requires 2 <= |v| <= 4
    ensures |r| == |v| - 1
  {
    var v0: int, v1: int := v[0], v[1];
    var v2: int := if |v| > 2 then v[2] else 0;
    var v3: int := if |v| > 3 then v[3] else 0;
    var all: seq<byte> := [v0 * 4 + v1 / 16, (v1 % 16) * 16 + v2 / 4, (v2 % 4) * 64 + v3];
    all[..|v| - 1]
  }

  predicate AllInAlphabet(s: string) {
    forall i :: 0 <= i < |s| ==> InAlphabet(s[i])
  }

  function SextetsOf(s: string): (r: Option<seq<sextet>>)
    ensures r.Some? <==> AllInAlphabet(s)
    ensures r.Some? ==> |r.value| == |s|
  {
    if s == [] then Some([])
    else
      var h := SextetValue(s[0]);
      var t := SextetsOf(s[1..]);
      if h.Some? && t.Some? then Some([h.value] + t.value)
      else
        assert h.None? ==> !InAlphabet(s[0]);
        assert t.None? ==> exists i :: 0 <= i < |s[1..]| && !InAlphabet(s[1..][i]);
        None
  }

  function DecodeSextets(v: seq<sextet>): seq<byte>
    requires |v| % 4 != 1
    decreases |v|
  {
    if |v| == 0 then []
    else if |v| < 4 then GroupBytes(v)
    else GroupBytes(v[..4]) + DecodeSextets(v[4..])
  }

  /** Go's decoder skips carriage returns and line feeds wherever they are. */
  function DropNewlines(s: string): (r: string)
    ensures forall i :: 0 <= i < |r| ==> r[i] != '\r' && r[i] != '\n'
    ensures (forall i :: 0 <= i < |s| ==> s[i] != '\r' && s[i] != '\n') ==> r == s
  {
    if s == [] then ""
    else if s[0] == '\r' || s[0] == '\n' then DropNewlines(s[1..])
    else [s[0]] + DropNewlines(s[1..])
  }

  /** base64.RawURLEncoding.DecodeString: fails on any character outside the
      alphabet (the padding character '=' included) and on a final group of a
      single character. */
  function DecodeRaw(s: string): Option<seq<byte>>
  {
    var t := DropNewlines(s);
    match SextetsOf(t)
    case None => None
    case Some(v) => if |v| % 4 == 1 then None else Some(DecodeSextets(v))
  }

  lemma DivMul16(a: nat, q: nat)
    requires q < 16
    ensures (a * 16 + q) / 16 == a && (a * 16 + q) % 16 == q
  {
  }

  lemma DivMul4(a: nat, q: nat)
    requires q < 4
    ensures (a * 4 + q) / 4 == a && (a * 4 + q) % 4 == q
  {
  }

  /** Each byte of a group comes back from its sextets. */
  lemma GroupRoundTrip(b0: byte, b1: byte, b2: byte)
    ensures GroupBytes(Sextets(b0, b1, b2)) == [b0, b1, b2]
    ensures GroupBytes(Sextets(b0, b1, 0)[..3]) == [b0, b1]
    ensures GroupBytes(Sextets(b0, 0, 0)[..2]) == [b0]
  {
    DivMul16(b0 % 4, b1 / 16);
    DivMul4(b1 % 16, b2 / 64);
    DivMul16(b0 % 4, 0);
    DivMul4(b1 % 16, 0);
  }

  lemma {:induction false} CharsSextets(v: seq<sextet>)
    ensures SextetsOf(Chars(v)) == Some(v)
  {
    if v != [] {
      SextetCharInverse(v[0]);
      assert Chars(v)[1..] == Chars(v[1..]);
      CharsSextets(v[1..]);
      assert v == [v[0]] + v[1..];
    }
  }

  lemma {:induction false} CharsAppend(v: seq<sextet>, w: seq<sextet>)
    ensures Chars(v + w) == Chars(v) + Chars(w)
  {
    if v != [] {
      assert (v + w)[1..] == v[1..] + w;
      CharsAppend(v[1..], w);
    }
  }

  lemma LengthStep(n: nat)
    requires n % 4 != 1
    ensures (4 + n) % 4 != 1
  {
  }

  /** The sextets of EncodeRaw(b), before they are turned into characters. */
  function EncodeSextets(b: seq<byte>): (v: seq<sextet>)
    ensures Chars(v) == EncodeRaw(b)
    ensures |v| % 4 != 1
    decreases |b|
  {
    if |b| == 0 then []
    else if |b| == 1 then Sextets(b[0], 0, 0)[..2]
    else if |b| == 2 then Sextets(b[0], b[1], 0)[..3]
    else
      var rest := EncodeSextets(b[3..]);
      CharsAppend(Sextets(b[0], b[1], b[2]), rest);
      LengthStep(|rest|);
      Sextets(b[0], b[1], b[2]) + rest
  }

  lemma {:induction false} DecodeEncodeSextets(b: seq<byte>)
    ensures DecodeSextets(EncodeSextets(b)) == b
    decreases |b|
  {
    if |b| == 1 {
      GroupRoundTrip(b[0], 0, 0);
      assert b == [b[0]];
    } else if |b| == 2 {
      GroupRoundTrip(b[0], b[1], 0);
      assert b == [b[0], b[1]];
    } else if |b| >= 3 {
      GroupRoundTrip(b[0], b[1], b[2]);
      var v := EncodeSextets(b);
      var rest := EncodeSextets(b[3..]);
      assert v[..4] == Sextets(b[0], b[1], b[2]) && v[4..] == rest;
      DecodeEncodeSextets(b[3..]);
      assert b[..3] == [b[0], b[1], b[2]];
      assert b == b[..3] + b[3..];
    }
  }

  /** Decoding an unpadded encoding gives back the bytes that were encoded. */
  lemma RawRoundTrip(b: seq<byte>)
    ensures DecodeRaw(EncodeRaw(b)) == Some(b)
  {
    var v := EncodeSextets(b);
    CharsSextets(v);
    DecodeEncodeSextets(b);
  }

  // ---- big-endian numbers ----

  /** The unsigned number whose big-endian bytes are `b` (an empty string is 0). */
  function BigEndian(b: seq<byte>): nat
  {
    if b == [] then 0 else BigEndian(b[..|b| - 1]) * 256 + b[|b| - 1]
  }
}
