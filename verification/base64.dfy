/**
 * The base 64 encoding of section 4 of RFC 4648, with `=` padding. The
 * player API sends stream URLs in this encoding; `Decode` accepts exactly
 * the canonical encodings (section 3.5 of RFC 4648: the pad bits of the
 * last group are zero), which are the strings `Encode` produces.
 */
module Base64 {
  import opened Wrappers

  type byte = x: int | 0 <= x < 256
  type sextet = x: int | 0 <= x < 64

  /** Table 1 of RFC 4648: the character for each 6-bit value. */
  function Symbol(d: sextet): (c: char)
  {
    if d < 26 then (65 + d) as char
    else if d < 52 then (97 + d - 26) as char
    else if d < 62 then (48 + d - 52) as char
    else if d == 62 then '+'
    else '/'
  }

  predicate IsSymbol(c: char)
  {
    ('A' <= c <= 'Z') || ('a' <= c <= 'z') || ('0' <= c <= '9') || c == '+' || c == '/'
  }

  /** The 6-bit value a character of the alphabet stands for. */
  function SymbolValue(c: char): (d: sextet)
    requires IsSymbol(c)
  {
    if 'A' <= c <= 'Z' then c as int - 65
    else if 'a' <= c <= 'z' then c as int - 97 + 26
    else if '0' <= c <= '9' then c as int - 48 + 52
    else if c == '+' then 62
    else 63
  }

  /** `Symbol` and `SymbolValue` are inverse bijections between the 64
      values and the 64 characters of the alphabet. */
  lemma SymbolRoundTrip(d: sextet)
    ensures IsSymbol(Symbol(d)) && SymbolValue(Symbol(d)) == d
  {
  }

  lemma SymbolValueRoundTrip(c: char)
    requires IsSymbol(c)
    ensures Symbol(SymbolValue(c)) == c
  {
  }

  // ------------------------------------------------------------ one group

  /** Three bytes as four characters (24 bits, most significant first). */
  function EncodeTriple(b0: byte, b1: byte, b2: byte): string
  {
    [Symbol(b0 / 4), Symbol(b0 % 4 * 16 + b1 / 16), Symbol(b1 % 16 * 4 + b2 / 64), Symbol(b2 % 64)]
  }

  /** A final group of two bytes: three characters and one pad. */
  function EncodePair(b0: byte, b1: byte): string
  {
    [Symbol(b0 / 4), Symbol(b0 % 4 * 16 + b1 / 16), Symbol(b1 % 16 * 4), '=']
  }

  /** A final group of one byte: two characters and two pads. */
  function EncodeSingle(b0: byte): string
  {
    [Symbol(b0 / 4), Symbol(b0 % 4 * 16), '=', '=']
  }

  /** Four characters of the alphabet as three bytes. */
  function DecodeFull(q: string): (r: Option<seq<byte>>)
    requires |q| == 4
    ensures r.Some? <==> IsSymbol(q[0]) && IsSymbol(q[1]) && IsSymbol(q[2]) && IsSymbol(q[3])
    ensures r.Some? ==> |r.value| == 3
  {
    if IsSymbol(q[0]) && IsSymbol(q[1]) && IsSymbol(q[2]) && IsSymbol(q[3]) then
      var d0, d1, d2, d3 := SymbolValue(q[0]), SymbolValue(q[1]), SymbolValue(q[2]), SymbolValue(q[3]);
      Some([d0 * 4 + d1 / 16, d1 % 16 * 16 + d2 / 4, d2 % 4 * 64 + d3])
    else None
  }

  /** The last group, which may be padded; its pad bits must be zero. */
  function DecodeLast(q: string): (r: Option<seq<byte>>)
    requires |q| == 4
    ensures r.Some? ==> 1 <= |r.value| <= 3
  {
    if q[3] != '=' then DecodeFull(q)
    else if q[2] != '=' then
      if IsSymbol(q[0]) && IsSymbol(q[1]) && IsSymbol(q[2]) && SymbolValue(q[2]) % 4 == 0 then
        var d0, d1, d2 := SymbolValue(q[0]), SymbolValue(q[1]), SymbolValue(q[2]);
        Some([d0 * 4 + d1 / 16, d1 % 16 * 16 + d2 / 4])
      else None
    else if IsSymbol(q[0]) && IsSymbol(q[1]) && SymbolValue(q[1]) % 16 == 0 then
      Some([SymbolValue(q[0]) * 4 + SymbolValue(q[1]) / 16])
    else None
  }

  // -------------------------------------------------------- whole strings

  /** The padded encoding of `b`. */
  function Encode(b: seq<byte>): (s: string)
    ensures |s| == 4 * ((|b| + 2) / 3)
    ensures forall i :: 0 <= i < |s| ==> IsSymbol(s[i]) || s[i] == '='
    decreases |b|
  {
    if |b| == 0 then []
    else if |b| == 1 then EncodeSingle(b[0])
    else if |b| == 2 then EncodePair(b[0], b[1])
    else EncodeTriple(b[0], b[1], b[2]) + Encode(b[3..])
  }

  /** The bytes a canonical padded encoding stands for; `None` for anything
      else (a length that is not a multiple of four, a character outside the
      alphabet, padding before the end, non-zero pad bits). */
  function Decode(s: string): (r: Option<seq<byte>>)
    ensures r.Some? ==> |s| % 4 == 0
    decreases |s|
  {
    if |s| == 0 then Some([])
    else if |s| < 4 then None
    else if |s| == 4 then DecodeLast(s)
    else match DecodeFull(s[..4])
      case None => None
      case Some(g) =>
        match Decode(s[4..])
        case None => None
        case Some(rest) => Some(g + rest)
  }

  // ------------------------------------------------------------ round trips

  /** The bit arithmetic of one full group undoes itself. */
  lemma TripleRoundTrip(b0: byte, b1: byte, b2: byte)
    ensures DecodeFull(EncodeTriple(b0, b1, b2)) == Some([b0, b1, b2])
  {
    SymbolRoundTrip(b0 / 4);
    SymbolRoundTrip(b0 % 4 * 16 + b1 / 16);
    SymbolRoundTrip(b1 % 16 * 4 + b2 / 64);
    SymbolRoundTrip(b2 % 64);
  }

  lemma PairRoundTrip(b0: byte, b1: byte)
    ensures DecodeLast(EncodePair(b0, b1)) == Some([b0, b1])
  {
    SymbolRoundTrip(b0 / 4);
    SymbolRoundTrip(b0 % 4 * 16 + b1 / 16);
    SymbolRoundTrip(b1 % 16 * 4);
  }

  lemma SingleRoundTrip(b0: byte)
    ensures DecodeLast(EncodeSingle(b0)) == Some([b0])
  {
    SymbolRoundTrip(b0 / 4);
    SymbolRoundTrip(b0 % 4 * 16);
  }

  /** Decoding an encoding gives back the bytes. */
  lemma {:induction false} DecodeEncode(b: seq<byte>)
    ensures Decode(Encode(b)) == Some(b)
    decreases |b|
  {
    if |b| <= 3 {
      DecodeEncodeShort(b);
    } else {
      DecodeEncode(b[3..]);
      DecodeEncodeStep(b);
    }
  }

  lemma DecodeEncodeShort(b: seq<byte>)
    requires |b| <= 3
    ensures Decode(Encode(b)) == Some(b)
  {
    if |b| == 1 {
      DecodeSingle(b);
    } else if |b| == 2 {
      DecodePair(b);
    } else if |b| == 3 {
      DecodeTriple(b);
    }
  }

  lemma DecodeSingle(b: seq<byte>)
    requires |b| == 1
    ensures Decode(Encode(b)) == Some(b)
  {
    assert Encode(b) == EncodeSingle(b[0]);
    SingleRoundTrip(b[0]);
    assert b == [b[0]];
  }

  lemma DecodePair(b: seq<byte>)
    requires |b| == 2
    ensures Decode(Encode(b)) == Some(b)
  {
    assert Encode(b) == EncodePair(b[0], b[1]);
    PairRoundTrip(b[0], b[1]);
    assert b == [b[0], b[1]];
  }

  lemma DecodeTriple(b: seq<byte>)
    requires |b| == 3
    ensures Decode(Encode(b)) == Some(b)
  {
    assert Encode(b) == EncodeTriple(b[0], b[1], b[2]) + Encode([]);
    assert EncodeTriple(b[0], b[1], b[2]) + Encode([]) == EncodeTriple(b[0], b[1], b[2]);
    TripleRoundTrip(b[0], b[1], b[2]);
    assert DecodeLast(EncodeTriple(b[0], b[1], b[2])) == DecodeFull(EncodeTriple(b[0], b[1], b[2]));
    assert b == [b[0], b[1], b[2]];
  }

  lemma DecodeEncodeStep(b: seq<byte>)
    requires |b| > 3 && Decode(Encode(b[3..])) == Some(b[3..])
    ensures Decode(Encode(b)) == Some(b)
  {
    var q, t := EncodeTriple(b[0], b[1], b[2]), Encode(b[3..]);
    EncodeUnfold(b);
    TripleRoundTrip(b[0], b[1], b[2]);
    DecodeGroupThen(q, t);
    SplitThree(b);
  }

  lemma SplitThree(b: seq<byte>)
    requires |b| >= 3
    ensures [b[0], b[1], b[2]] + b[3..] == b
  {
    assert b == b[..3] + b[3..];
    assert b[..3] == [b[0], b[1], b[2]];
  }

  lemma EncodeUnfold(b: seq<byte>)
    requires |b| > 3
    ensures Encode(b) == EncodeTriple(b[0], b[1], b[2]) + Encode(b[3..])
    ensures |Encode(b[3..])| > 0
  {
  }

  /** A full group followed by more decodes group by group. */
  lemma DecodeGroupThen(q: string, t: string)
    requires |q| == 4 && DecodeFull(q).Some? && |t| > 0 && Decode(t).Some?
    ensures Decode(q + t) == Some(DecodeFull(q).value + Decode(t).value)
  {
    var s := q + t;
    assert s[..4] == q && s[4..] == t;
  }

  /** Re-encoding the bytes of one full group gives back the characters. */
  lemma FullRoundTrip(q: string)
    requires |q| == 4 && DecodeFull(q).Some?
    ensures var g := DecodeFull(q).value; EncodeTriple(g[0], g[1], g[2]) == q
  {
    var d0, d1, d2, d3 := SymbolValue(q[0]), SymbolValue(q[1]), SymbolValue(q[2]), SymbolValue(q[3]);
    var g := DecodeFull(q).value;
    assert g[0] / 4 == d0 && g[0] % 4 * 16 + g[1] / 16 == d1;
    assert g[1] % 16 * 4 + g[2] / 64 == d2 && g[2] % 64 == d3;
    SymbolValueRoundTrip(q[0]);
    SymbolValueRoundTrip(q[1]);
    SymbolValueRoundTrip(q[2]);
    SymbolValueRoundTrip(q[3]);
  }

  /** Re-encoding the bytes of a last group gives back the characters. */
  lemma LastRoundTrip(q: string)
    requires |q| == 4 && DecodeLast(q).Some?
    ensures var g := DecodeLast(q).value;
            (|g| == 3 && EncodeTriple(g[0], g[1], g[2]) == q)
            || (|g| == 2 && EncodePair(g[0], g[1]) == q)
            || (|g| == 1 && EncodeSingle(g[0]) == q)
  {
    var g := DecodeLast(q).value;
    if q[3] != '=' {
      FullRoundTrip(q);
    } else if q[2] != '=' {
      var d0, d1, d2 := SymbolValue(q[0]), SymbolValue(q[1]), SymbolValue(q[2]);
      assert g[0] / 4 == d0 && g[0] % 4 * 16 + g[1] / 16 == d1 && g[1] % 16 * 4 == d2;
      SymbolValueRoundTrip(q[0]);
      SymbolValueRoundTrip(q[1]);
      SymbolValueRoundTrip(q[2]);
      assert EncodePair(g[0], g[1]) == q;
    } else {
      var d0, d1 := SymbolValue(q[0]), SymbolValue(q[1]);
      assert g[0] / 4 == d0 && g[0] % 4 * 16 == d1;
      SymbolValueRoundTrip(q[0]);
      SymbolValueRoundTrip(q[1]);
      assert EncodeSingle(g[0]) == q;
    }
  }

  /** Every string `Decode` accepts is the encoding of what it decodes to:
      the encoding is canonical. */
  lemma {:induction false} EncodeDecode(s: string)
    requires Decode(s).Some?
    ensures Encode(Decode(s).value) == s
    decreases |s|
  {
    if |s| == 0 {
    } else if |s| == 4 {
      LastRoundTrip(s);
    } else {
      var g := DecodeFull(s[..4]).value;
      var rest := Decode(s[4..]).value;
      FullRoundTrip(s[..4]);
      EncodeDecode(s[4..]);
      var b := g + rest;
      assert Decode(s).value == b;
      assert |rest| >= 1 by { RestNonEmpty(s[4..]); }
      assert b[..3] == g && b[3..] == rest;
      assert Encode(b) == EncodeTriple(b[0], b[1], b[2]) + Encode(b[3..]);
      assert s == s[..4] + s[4..];
    }
  }

  /** A non-empty decodable string decodes to at least one byte. */
  lemma RestNonEmpty(s: string)
    requires |s| > 0 && Decode(s).Some?
    ensures |Decode(s).value| >= 1
    decreases |s|
  {
    if |s| > 4 {
      assert |DecodeFull(s[..4]).value| == 3;
    }
  }

  /** Two byte strings with the same encoding are equal. */
  lemma EncodeInjective(a: seq<byte>, b: seq<byte>)
    requires Encode(a) == Encode(b)
    ensures a == b
  {
    DecodeEncode(a);
    DecodeEncode(b);
  }
}
