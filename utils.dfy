/**
 * The gateway's small string utilities: base64 of a string's UTF-8 bytes (standard
 * alphabet, '=' padding, canonical decoding as in section 4 of RFC 4648), lossy UTF-8
 * decoding of the decoded bytes, byte-length truncation with an ellipsis, and credential
 * extraction from a URL.
 */
module Utils {
  import opened Common

  // ---------------------------------------------------------------------------------
  // UTF-8

  /** The UTF-8 encoding of one Unicode scalar value. */
  function CharUtf8(c: char): (r: seq<byte>)
    ensures 1 <= |r| <= 4
  {
    var n := c as int;
    if n < 0x80 then [n]
    else if n < 0x800 then [0xC0 + n / 64, 0x80 + n % 64]
    else if n < 0x10000 then [0xE0 + n / 4096, 0x80 + (n / 64) % 64, 0x80 + n % 64]
    else [0xF0 + n / 262144, 0x80 + (n / 4096) % 64, 0x80 + (n / 64) % 64, 0x80 + n % 64]
  }

  /** The bytes of a Rust `str`: its characters' UTF-8 encodings, one after another. */
  function Utf8Encode(s: string): (r: seq<byte>)
    ensures |r| >= |s|
  {
    if s == [] then [] else CharUtf8(s[0]) + Utf8Encode(s[1..])
  }

  /** `str::len`: the length in bytes. */
  function ByteLen(s: string): nat {
    |Utf8Encode(s)|
  }

  lemma {:induction false} Utf8EncodeAppend(a: string, b: string)
    ensures Utf8Encode(a + b) == Utf8Encode(a) + Utf8Encode(b)
    decreases |a|
  {
    if a != [] {
      assert (a + b)[0] == a[0];
      assert (a + b)[1..] == a[1..] + b;
      Utf8EncodeAppend(a[1..], b);
      calc {
        Utf8Encode(a + b);
        CharUtf8(a[0]) + Utf8Encode(a[1..] + b);
        CharUtf8(a[0]) + (Utf8Encode(a[1..]) + Utf8Encode(b));
        (CharUtf8(a[0]) + Utf8Encode(a[1..])) + Utf8Encode(b);
      }
    } else {
      assert a + b == b;
    }
  }

  /**
   * The number of bytes of a well-formed sequence that starts with `lead`
   * (Table 3-7 of the Unicode Standard), or 0 when no well-formed sequence starts so.
   */
  function SequenceLength(lead: byte): nat {
    if lead < 0x80 then 1
    else if 0xC2 <= lead <= 0xDF then 2
    else if 0xE0 <= lead <= 0xEF then 3
    else if 0xF0 <= lead <= 0xF4 then 4
    else 0
  }

  /** Whether `b[i]` may follow `b[..i]` in a well-formed sequence, `i` being 1 to 3. */
  predicate ContinuationOk(b: seq<byte>, i: nat)
    requires 1 <= i < |b|
  {
    if i == 1 then
      var lead := b[0];
      if lead == 0xE0 then 0xA0 <= b[1] <= 0xBF
      else if lead == 0xED then 0x80 <= b[1] <= 0x9F
      else if lead == 0xF0 then 0x90 <= b[1] <= 0xBF
      else if lead == 0xF4 then 0x80 <= b[1] <= 0x8F
      else 0x80 <= b[1] <= 0xBF
    else 0x80 <= b[i] <= 0xBF
  }

  /**
   * Starting from `i` accepted bytes, how many bytes at the front of `b` begin a
   * well-formed sequence: the whole sequence when it is there, else its maximal subpart.
   */
  function MatchedLength(b: seq<byte>, i: nat): (r: nat)
    requires 1 <= i <= |b|
    ensures i <= r <= |b| && r >= 1
    decreases |b| - i
  {
    if i < SequenceLength(b[0]) && i < |b| && ContinuationOk(b, i) then MatchedLength(b, i + 1) else i
  }

  /** The scalar value of the well-formed sequence of `n` bytes at the front of `b`. */
  function DecodeSequence(b: seq<byte>, n: nat): (c: char)
    requires 1 <= n <= |b| && n == SequenceLength(b[0]) && MatchedLength(b, 1) == n
  {
    assert forall i :: 1 <= i < n ==> ContinuationOk(b, i) by {
      MatchedLengthAccepts(b, 1);
    }
    if n == 1 then b[0] as char
    else if n == 2 then
      assert ContinuationOk(b, 1);
      ((b[0] as int - 0xC0) * 64 + (b[1] as int - 0x80)) as char
    else if n == 3 then
      assert ContinuationOk(b, 1) && ContinuationOk(b, 2);
      ((b[0] as int - 0xE0) * 4096 + (b[1] as int - 0x80) * 64 + (b[2] as int - 0x80)) as char
    else
      assert ContinuationOk(b, 1) && ContinuationOk(b, 2) && ContinuationOk(b, 3);
      ((b[0] as int - 0xF0) * 262144 + (b[1] as int - 0x80) * 4096 + (b[2] as int - 0x80) * 64 + (b[3] as int - 0x80)) as char
  }

  lemma {:induction false} MatchedLengthAccepts(b: seq<byte>, i: nat)
    requires 1 <= i <= |b|
    ensures forall j :: i <= j < MatchedLength(b, i) ==> ContinuationOk(b, j)
    decreases |b| - i
  {
    if i < SequenceLength(b[0]) && i < |b| && ContinuationOk(b, i) {
      MatchedLengthAccepts(b, i + 1);
    }
  }

  /**
   * `String::from_utf8_lossy`: well-formed sequences become their characters and every
   * maximal subpart of an ill-formed one becomes one U+FFFD.
   */
  function Utf8DecodeLossy(b: seq<byte>): (r: string)
    decreases |b|
  {
    if b == [] then []
    else
      var n := MatchedLength(b, 1);
      if n == SequenceLength(b[0]) then [DecodeSequence(b, n)] + Utf8DecodeLossy(b[n..])
      else ['�'] + Utf8DecodeLossy(b[n..])
  }

  /** The digits of a scalar value in base 64, as the encoding's continuation bytes carry them. */
  lemma Base64Digits(n: int)
    requires 0 <= n
    ensures n == (n / 64) * 64 + n % 64
    ensures n / 64 == (n / 4096) * 64 + (n / 64) % 64
    ensures n / 4096 == (n / 262144) * 64 + (n / 4096) % 64
  {
  }

  lemma DecodeTwoBytes(c: char, rest: seq<byte>)
    requires 0x80 <= c as int < 0x800
    ensures var b := CharUtf8(c) + rest;
      && |CharUtf8(c)| == 2 && SequenceLength(b[0]) == 2
      && MatchedLength(b, 1) == 2 && DecodeSequence(b, 2) == c
  {
    var b := CharUtf8(c) + rest;
    Base64Digits(c as int);
    assert ContinuationOk(b, 1);
    assert MatchedLength(b, 2) == 2;
  }

  lemma DecodeThreeBytes(c: char, rest: seq<byte>)
    requires 0x800 <= c as int < 0x10000
    ensures var b := CharUtf8(c) + rest;
      && |CharUtf8(c)| == 3 && SequenceLength(b[0]) == 3
      && MatchedLength(b, 1) == 3 && DecodeSequence(b, 3) == c
  {
    var n := c as int;
    var b := CharUtf8(c) + rest;
    Base64Digits(n);
    assert b[0] == 0xE0 + n / 4096 && b[1] == 0x80 + (n / 64) % 64 && b[2] == 0x80 + n % 64;
    assert ContinuationOk(b, 1) && ContinuationOk(b, 2);
    assert MatchedLength(b, 3) == 3;
    assert MatchedLength(b, 2) == 3;
  }

  lemma DecodeFourBytes(c: char, rest: seq<byte>)
    requires 0x10000 <= c as int
    ensures var b := CharUtf8(c) + rest;
      && |CharUtf8(c)| == 4 && SequenceLength(b[0]) == 4
      && MatchedLength(b, 1) == 4 && DecodeSequence(b, 4) == c
  {
    var n := c as int;
    var b := CharUtf8(c) + rest;
    Base64Digits(n);
    assert b[0] == 0xF0 + n / 262144 && b[1] == 0x80 + (n / 4096) % 64;
    assert b[2] == 0x80 + (n / 64) % 64 && b[3] == 0x80 + n % 64;
    assert ContinuationOk(b, 1) && ContinuationOk(b, 2) && ContinuationOk(b, 3);
    assert MatchedLength(b, 4) == 4;
    assert MatchedLength(b, 3) == 4;
    assert MatchedLength(b, 2) == 4;
  }

  /** One character's encoding is a well-formed sequence and decodes back to it. */
  lemma DecodeCharUtf8(c: char, rest: seq<byte>)
    ensures var b := CharUtf8(c) + rest;
      && SequenceLength(b[0]) == |CharUtf8(c)|
      && MatchedLength(b, 1) == |CharUtf8(c)|
      && DecodeSequence(b, |CharUtf8(c)|) == c
  {
    var n := c as int;
    if n < 0x80 {
    } else if n < 0x800 {
      DecodeTwoBytes(c, rest);
    } else if n < 0x10000 {
      DecodeThreeBytes(c, rest);
    } else {
      DecodeFourBytes(c, rest);
    }
  }

  /** Lossy decoding of the bytes of a string gives the string back. */
  lemma {:induction false} DecodeEncodedString(s: string)
    ensures Utf8DecodeLossy(Utf8Encode(s)) == s
    decreases |s|
  {
    if s != [] {
      var e := CharUtf8(s[0]);
      var b := Utf8Encode(s);
      assert b == e + Utf8Encode(s[1..]);
      DecodeCharUtf8(s[0], Utf8Encode(s[1..]));
      assert b[|e|..] == Utf8Encode(s[1..]);
      DecodeEncodedString(s[1..]);
    }
  }

  // ---------------------------------------------------------------------------------
  // Base64, standard alphabet with padding

  /** The symbol of the standard alphabet (A-Z, a-z, 0-9, '+', '/') for a six-bit value. */
  function Symbol(v: int): char
    requires 0 <= v < 64
  {
    if v < 26 then ('A' as int + v) as char
    else if v < 52 then ('a' as int + v - 26) as char
    else if v < 62 then ('0' as int + v - 52) as char
    else if v == 62 then '+'
    else '/'
  }

  /** The value of a symbol of the standard alphabet, if it is one. */
  function SymbolValue(c: char): (r: Option<nat>)
    ensures r.Some? ==> r.value < 64 && Symbol(r.value) == c
    ensures r.None? ==> forall v :: 0 <= v < 64 ==> Symbol(v) != c
  {
    if 'A' <= c <= 'Z' then Some(c as int - 'A' as int)
    else if 'a' <= c <= 'z' then Some(c as int - 'a' as int + 26)
    else if '0' <= c <= '9' then Some(c as int - '0' as int + 52)
    else if c == '+' then Some(62)
    else if c == '/' then Some(63)
    else None
  }

  lemma SymbolValueOfSymbol(v: nat)
    requires v < 64
    ensures SymbolValue(Symbol(v)) == Some(v)
  {
  }

  /** Three bytes as four symbols, six bits each. */
  function EncodeTriple(b0: byte, b1: byte, b2: byte): string {
    [Symbol(b0 / 4), Symbol((b0 % 4) * 16 + b1 / 16), Symbol((b1 % 16) * 4 + b2 / 64), Symbol(b2 % 64)]
  }

  /**
   * Standard base64 with padding: each three bytes become four symbols, and a final one
   * or two bytes become two or three symbols with the unused bits zero, padded with '='.
   */
  function Base64EncodeBytes(b: seq<byte>): (r: string)
    ensures |r| == 4 * ((|b| + 2) / 3)
  {
    if |b| == 0 then []
    else if |b| == 1 then [Symbol(b[0] / 4), Symbol((b[0] % 4) * 16), '=', '=']
    else if |b| == 2 then [Symbol(b[0] / 4), Symbol((b[0] % 4) * 16 + b[1] / 16), Symbol((b[1] % 16) * 4), '=']
    else EncodeTriple(b[0], b[1], b[2]) + Base64EncodeBytes(b[3..])
  }

  /** The base64 engine's refusal of its input; the kind and offset it reports are not modelled. */
  datatype DecodeError = DecodeError

  /** Four symbols without padding as three bytes. */
  function DecodeQuad(q: string): (r: Option<seq<byte>>)
    requires |q| == 4
    ensures r.Some? ==> |r.value| == 3
  {
    match (SymbolValue(q[0]), SymbolValue(q[1]), SymbolValue(q[2]), SymbolValue(q[3]))
    case (Some(a), Some(b), Some(c), Some(d)) => Some([a * 4 + b / 16, (b % 16) * 16 + c / 4, (c % 4) * 64 + d])
    case _ => None
  }

  /**
   * The last four symbols, which may end in "==" (one byte) or "=" (two bytes); the bits
   * the padding leaves unused must be zero, as canonical decoding demands.
   */
  function DecodeLastQuad(q: string): (r: Option<seq<byte>>)
    requires |q| == 4
    ensures r.Some? ==> 1 <= |r.value| <= 3
  {
    if q[2] == '=' && q[3] == '=' then
      match (SymbolValue(q[0]), SymbolValue(q[1]))
      case (Some(a), Some(b)) => if b % 16 == 0 then Some([a * 4 + b / 16]) else None
      case _ => None
    else if q[3] == '=' then
      match (SymbolValue(q[0]), SymbolValue(q[1]), SymbolValue(q[2]))
      case (Some(a), Some(b), Some(c)) =>
        if c % 4 == 0 then Some([a * 4 + b / 16, (b % 16) * 16 + c / 4]) else None
      case _ => None
    else DecodeQuad(q)
  }

  /**
   * Canonical standard base64 decoding: the length is a multiple of four, every symbol is
   * from the alphabet, padding appears only at the very end, and unused bits are zero.
   */
  function Base64DecodeBytes(s: string): (r: Result<seq<byte>, DecodeError>)
    decreases |s|
  {
    if |s| == 0 then Ok([])
    else if |s| < 4 then Err(DecodeError)
    else if |s| == 4 then
      match DecodeLastQuad(s)
      case Some(b) => Ok(b)
      case None => Err(DecodeError)
    else
      match DecodeQuad(s[..4])
      case None => Err(DecodeError)
      case Some(head) =>
        match Base64DecodeBytes(s[4..])
        case Ok(tail) => Ok(head + tail)
        case Err(e) => Err(e)
  }

  lemma DecodeEncodedTriple(b0: byte, b1: byte, b2: byte)
    ensures DecodeQuad(EncodeTriple(b0, b1, b2)) == Some([b0, b1, b2])
    ensures DecodeLastQuad(EncodeTriple(b0, b1, b2)) == Some([b0, b1, b2])
  {
    var q := EncodeTriple(b0, b1, b2);
    var a, b, c, d := b0 / 4, (b0 % 4) * 16 + b1 / 16, (b1 % 16) * 4 + b2 / 64, b2 % 64;
    SymbolValueOfSymbol(a);
    SymbolValueOfSymbol(b);
    SymbolValueOfSymbol(c);
    SymbolValueOfSymbol(d);
    assert q[3] != '=' by { assert Symbol(d) != '='; }
    SplitTriple(b0, b1, b2);
  }

  /** The six-bit groups of three bytes regroup into the same three bytes. */
  lemma SplitTriple(b0: byte, b1: byte, b2: byte)
    ensures var a, b, c, d := b0 / 4, (b0 % 4) * 16 + b1 / 16, (b1 % 16) * 4 + b2 / 64, b2 % 64;
      && a * 4 + b / 16 == b0 && (b % 16) * 16 + c / 4 == b1 && (c % 4) * 64 + d == b2
  {
  }

  lemma DecodeEncodedOne(b0: byte)
    ensures DecodeLastQuad([Symbol(b0 / 4), Symbol((b0 % 4) * 16), '=', '=']) == Some([b0])
  {
    SymbolValueOfSymbol(b0 / 4);
    SymbolValueOfSymbol((b0 % 4) * 16);
  }

  lemma DecodeEncodedTwo(b0: byte, b1: byte)
    ensures DecodeLastQuad([Symbol(b0 / 4), Symbol((b0 % 4) * 16 + b1 / 16), Symbol((b1 % 16) * 4), '='])
         == Some([b0, b1])
  {
    SymbolValueOfSymbol(b0 / 4);
    SymbolValueOfSymbol((b0 % 4) * 16 + b1 / 16);
    SymbolValueOfSymbol((b1 % 16) * 4);
  }

  /** Decoding a leading full group and then the rest. */
  lemma DecodeStep(q: string, rest: string, head: seq<byte>, tail: seq<byte>)
    requires |q| == 4 && DecodeQuad(q) == Some(head)
    requires |rest| > 0 && Base64DecodeBytes(rest) == Ok(tail)
    ensures Base64DecodeBytes(q + rest) == Ok(head + tail)
  {
    var s := q + rest;
    assert s[..4] == q && s[4..] == rest;
  }

  lemma RoundTripThree(b: seq<byte>)
    requires |b| == 3
    ensures Base64DecodeBytes(Base64EncodeBytes(b)) == Ok(b)
  {
    assert b[3..] == [];
    assert Base64EncodeBytes(b) == EncodeTriple(b[0], b[1], b[2]);
    DecodeEncodedTriple(b[0], b[1], b[2]);
    assert b == [b[0], b[1], b[2]];
  }

  lemma RoundTripShort(b: seq<byte>)
    requires |b| == 1 || |b| == 2
    ensures Base64DecodeBytes(Base64EncodeBytes(b)) == Ok(b)
  {
    if |b| == 1 {
      RoundTripOne(b);
    } else {
      RoundTripTwo(b);
    }
  }

  lemma RoundTripOne(b: seq<byte>)
    requires |b| == 1
    ensures Base64DecodeBytes(Base64EncodeBytes(b)) == Ok(b)
  {
    var q := [Symbol(b[0] / 4), Symbol((b[0] % 4) * 16), '=', '='];
    assert Base64EncodeBytes(b) == q;
    DecodeEncodedOne(b[0]);
    DecodeSingleGroup(q);
    assert b == [b[0]];
  }

  lemma RoundTripTwo(b: seq<byte>)
    requires |b| == 2
    ensures Base64DecodeBytes(Base64EncodeBytes(b)) == Ok(b)
  {
    var q := [Symbol(b[0] / 4), Symbol((b[0] % 4) * 16 + b[1] / 16), Symbol((b[1] % 16) * 4), '='];
    assert Base64EncodeBytes(b) == q;
    DecodeEncodedTwo(b[0], b[1]);
    DecodeSingleGroup(q);
    assert b == [b[0], b[1]];
  }

  /** A text of one group decodes as that group. */
  lemma DecodeSingleGroup(q: string)
    requires |q| == 4 && DecodeLastQuad(q).Some?
    ensures Base64DecodeBytes(q) == Ok(DecodeLastQuad(q).value)
  {
  }

  /** A leading group of three bytes decodes back in front of the rest. */
  lemma RoundTripGroup(b: seq<byte>)
    requires |b| > 3
    requires Base64DecodeBytes(Base64EncodeBytes(b[3..])) == Ok(b[3..])
    ensures Base64DecodeBytes(Base64EncodeBytes(b)) == Ok(b)
  {
    var q := EncodeTriple(b[0], b[1], b[2]);
    var rest := Base64EncodeBytes(b[3..]);
    assert Base64EncodeBytes(b) == q + rest;
    DecodeEncodedTriple(b[0], b[1], b[2]);
    SplitFirstThree(b);
    DecodeStep(q, rest, [b[0], b[1], b[2]], b[3..]);
  }

  lemma SplitFirstThree(b: seq<byte>)
    requires |b| >= 3
    ensures [b[0], b[1], b[2]] + b[3..] == b
  {
  }

  /** Decoding an encoding gives the bytes back. */
  lemma {:induction false} Base64BytesRoundTrip(b: seq<byte>)
    ensures Base64DecodeBytes(Base64EncodeBytes(b)) == Ok(b)
    decreases |b|
  {
    if |b| == 1 || |b| == 2 {
      RoundTripShort(b);
    } else if |b| == 3 {
      RoundTripThree(b);
    } else if |b| > 3 {
      Base64BytesRoundTrip(b[3..]);
      RoundTripGroup(b);
    }
  }

  /** Regrouping four six-bit values into three bytes and back gives the same values. */
  lemma RegroupBits(a: int, b: int, c: int, d: int)
    requires 0 <= a < 64 && 0 <= b < 64 && 0 <= c < 64 && 0 <= d < 64
    ensures (a * 4 + b / 16) / 4 == a
    ensures ((a * 4 + b / 16) % 4) * 16 + ((b % 16) * 16 + c / 4) / 16 == b
    ensures (((b % 16) * 16 + c / 4) % 16) * 4 + ((c % 4) * 64 + d) / 64 == c
    ensures ((c % 4) * 64 + d) % 64 == d
  {
  }

  lemma EncodeDecodedQuad(q: string)
    requires |q| == 4 && DecodeQuad(q).Some?
    ensures var h := DecodeQuad(q).value; EncodeTriple(h[0], h[1], h[2]) == q
  {
    var a := SymbolValue(q[0]).value;
    var b := SymbolValue(q[1]).value;
    var c := SymbolValue(q[2]).value;
    var d := SymbolValue(q[3]).value;
    var h := DecodeQuad(q).value;
    assert h == [a * 4 + b / 16, (b % 16) * 16 + c / 4, (c % 4) * 64 + d];
    RegroupBits(a, b, c, d);
    assert EncodeTriple(h[0], h[1], h[2]) == [Symbol(a), Symbol(b), Symbol(c), Symbol(d)];
  }

  lemma EncodeDecodedLastQuad(q: string)
    requires |q| == 4 && DecodeLastQuad(q).Some?
    ensures Base64EncodeBytes(DecodeLastQuad(q).value) == q
  {
    var h := DecodeLastQuad(q).value;
    if q[2] == '=' && q[3] == '=' {
      EncodeDecodedOne(q);
    } else if q[3] == '=' {
      EncodeDecodedTwo(q);
    } else {
      EncodeDecodedQuad(q);
      assert h[3..] == [];
    }
  }

  lemma EncodeDecodedOne(q: string)
    requires |q| == 4 && q[2] == '=' && q[3] == '=' && DecodeLastQuad(q).Some?
    ensures Base64EncodeBytes(DecodeLastQuad(q).value) == q
  {
    var a := SymbolValue(q[0]).value;
    var b := SymbolValue(q[1]).value;
    assert DecodeLastQuad(q).value == [a * 4 + b / 16];
    assert (a * 4 + b / 16) / 4 == a && ((a * 4 + b / 16) % 4) * 16 == b;
  }

  lemma EncodeDecodedTwo(q: string)
    requires |q| == 4 && !(q[2] == '=' && q[3] == '=') && q[3] == '=' && DecodeLastQuad(q).Some?
    ensures Base64EncodeBytes(DecodeLastQuad(q).value) == q
  {
    var a := SymbolValue(q[0]).value;
    var b := SymbolValue(q[1]).value;
    var c := SymbolValue(q[2]).value;
    assert DecodeLastQuad(q).value == [a * 4 + b / 16, (b % 16) * 16 + c / 4];
    RegroupBits(a, b, c, 0);
  }

  /**
   * Decoding is canonical: whatever it accepts is exactly the encoding of what it returns,
   * so every other text (wrong length, foreign symbol, misplaced padding, non-zero unused
   * bits) is refused.
   */
  lemma {:induction false} Base64DecodeCanonical(s: string)
    requires Base64DecodeBytes(s).Ok?
    ensures Base64EncodeBytes(Base64DecodeBytes(s).value) == s
    decreases |s|
  {
    if |s| == 4 {
      EncodeDecodedLastQuad(s);
    } else if |s| > 4 {
      Base64DecodeCanonical(s[4..]);
      EncodeGroupFirst(s);
    }
  }

  lemma EncodeGroupFirst(s: string)
    requires |s| > 4 && Base64DecodeBytes(s).Ok?
    requires Base64DecodeBytes(s[4..]).Ok?
    requires Base64EncodeBytes(Base64DecodeBytes(s[4..]).value) == s[4..]
    ensures Base64EncodeBytes(Base64DecodeBytes(s).value) == s
  {
    var h := DecodeQuad(s[..4]).value;
    var t := Base64DecodeBytes(s[4..]).value;
    EncodeDecodedQuad(s[..4]);
    var b := h + t;
    assert Base64DecodeBytes(s).value == b;
    assert |t| > 0;
    assert b[..3] == h && b[3..] == t;
    assert b[0] == h[0] && b[1] == h[1] && b[2] == h[2];
    assert Base64EncodeBytes(b) == EncodeTriple(h[0], h[1], h[2]) + Base64EncodeBytes(t);
    assert s == s[..4] + s[4..];
  }

  // ---------------------------------------------------------------------------------
  // The gateway's utilities

  /** `base64_encode`: the standard padded base64 of the string's UTF-8 bytes. */
  function Base64Encode(input: string): (r: string)
    ensures |r| == 4 * ((ByteLen(input) + 2) / 3)
  {
    Base64EncodeBytes(Utf8Encode(input))
  }

  /**
   * `base64_decode`: the decoded bytes read as UTF-8 with ill-formed parts replaced, or the
   * decoder's error. A character outside the alphabet and '=' is refused whatever its width.
   */
  function Base64Decode(input: string): (r: Result<string, DecodeError>)
  {
    match Base64DecodeBytes(input)
    case Ok(bytes) => Ok(Utf8DecodeLossy(bytes))
    case Err(e) => Err(e)
  }

  /** Decoding the encoding of any string gives the string back. */
  lemma Base64RoundTrip(s: string)
    ensures Base64Decode(Base64Encode(s)) == Ok(s)
  {
    Base64BytesRoundTrip(Utf8Encode(s));
    DecodeEncodedString(s);
  }

  /** `base64_decode` succeeds exactly on the encodings of byte strings. */
  lemma Base64DecodeAcceptsOnlyEncodings(input: string)
    ensures Base64Decode(input).Ok? <==> exists b: seq<byte> :: Base64EncodeBytes(b) == input
  {
    if Base64Decode(input).Ok? {
      Base64DecodeCanonical(input);
    }
    if exists b: seq<byte> :: Base64EncodeBytes(b) == input {
      var b: seq<byte> :| Base64EncodeBytes(b) == input;
      Base64BytesRoundTrip(b);
    }
  }

  /** Whether the first `n` bytes of `s` end on a character boundary. */
  predicate OnCharBoundary(s: string, n: nat)
    ensures OnCharBoundary(s, n) ==> n <= ByteLen(s)
    decreases |s|
  {
    n == 0 || (|s| > 0 && |CharUtf8(s[0])| <= n && OnCharBoundary(s[1..], n - |CharUtf8(s[0])|))
  }

  /** `&s[..n]` for a byte offset `n` on a character boundary. */
  function PrefixOfBytes(s: string, n: nat): (r: string)
    requires OnCharBoundary(s, n)
    ensures |r| <= |s| && r == s[..|r|]
    ensures Utf8Encode(r) == Utf8Encode(s)[..n]
    decreases |s|
  {
    if n == 0 then []
    else
      var rest := PrefixOfBytes(s[1..], n - |CharUtf8(s[0])|);
      var k := |CharUtf8(s[0])|;
      assert Utf8Encode(s) == CharUtf8(s[0]) + Utf8Encode(s[1..]);
      assert Utf8Encode(s)[..n] == CharUtf8(s[0]) + Utf8Encode(s[1..])[..n - k];
      assert Utf8Encode([s[0]] + rest) == CharUtf8(s[0]) + Utf8Encode(rest) by {
        assert ([s[0]] + rest)[1..] == rest;
      }
      [s[0]] + rest
  }

  /**
   * `truncate_string`: a string of at most `maxLength` bytes is returned as it is; a
   * longer one is cut to its first `maxLength` bytes and "..." is appended. Rust panics
   * when the cut falls inside a character, so the caller must avoid that.
   */
  function TruncateString(s: string, maxLength: nat): (r: string)
    requires ByteLen(s) <= maxLength || OnCharBoundary(s, maxLength)
    ensures ByteLen(s) <= maxLength ==> r == s
    ensures ByteLen(s) > maxLength ==>
      Utf8Encode(r) == Utf8Encode(s)[..maxLength] + Utf8Encode("...") && ByteLen(r) == maxLength + 3
    ensures ByteLen(s) > maxLength ==> EndsWith(r, "...") && StartsWith(s, r[..|r| - 3])
  {
    if ByteLen(s) <= maxLength then s
    else
      var head := PrefixOfBytes(s, maxLength);
      Utf8EncodeAppend(head, "...");
      head + "..."
  }

  /**
   * `extract_auth_from_url`: the user name and the password (empty when absent) of a URL
   * that parses and names a user; nothing otherwise. `parse` stands for URL parsing.
   */
  function ExtractAuthFromUrl(url: string, parse: string -> Option<UrlParts>): (r: Option<(string, string)>)
    ensures r.Some? <==> parse(url).Some? && parse(url).value.username != ""
    ensures r.Some? ==> r.value.0 == parse(url).value.username && r.value.0 != ""
    ensures r.Some? ==> r.value.1 == parse(url).value.password.GetOr("")
  {
    match parse(url)
    case Some(parts) =>
      if parts.username != "" then Some((parts.username, parts.password.GetOr(""))) else None
    case None => None
  }
}
