/**
 * The base 64 encoding of section 4 of RFC 4648 (standard alphabet, `=`
 * padding), as produced by `Buffer.toString('base64')`, with a decoder
 * that inverts it.
 */
module Base64 {
  import opened Wrappers

  /** An octet. */
  type Byte = b: int | 0 <= b < 256

  /** A 6-bit group: the value of one base 64 symbol. */
  type Sextet = n: int | 0 <= n < 64

  const PadChar: char := '='

  /** The symbol for a 6-bit value (Table 1 of RFC 4648). */
  function Symbol(n: Sextet): (c: char)
    ensures c != PadChar
  {
    if n < 26 then ('A' as int + n) as char
    else if n < 52 then ('a' as int + (n - 26)) as char
    else if n < 62 then ('0' as int + (n - 52)) as char
    else if n == 62 then '+'
    else '/'
  }

  /** The value of a symbol of the alphabet; `None` for any other character. */
  function ValueOf(c: char): (r: Option<Sextet>)
    ensures r.Some? ==> Symbol(r.value) == c
  {
    if 'A' <= c <= 'Z' then Some(c as int - 'A' as int)
    else if 'a' <= c <= 'z' then Some(c as int - 'a' as int + 26)
    else if '0' <= c <= '9' then Some(c as int - '0' as int + 52)
    else if c == '+' then Some(62)
    else if c == '/' then Some(63)
    else None
  }

  lemma ValueOfSymbol(n: Sextet)
    ensures ValueOf(Symbol(n)) == Some(n)
  {
  }

  /** True for the characters an encoding may contain. */
  predicate InAlphabet(c: char) {
    ValueOf(c).Some? || c == PadChar
  }

  /** Three octets become four symbols. */
  function EncodeTriple(b0: Byte, b1: Byte, b2: Byte): string {
    [Symbol(b0 / 4), Symbol((b0 % 4) * 16 + b1 / 16), Symbol((b1 % 16) * 4 + b2 / 64), Symbol(b2 % 64)]
  }

  /** A final group of two octets: three symbols and one pad. */
  function EncodePair(b0: Byte, b1: Byte): string {
    [Symbol(b0 / 4), Symbol((b0 % 4) * 16 + b1 / 16), Symbol((b1 % 16) * 4), PadChar]
  }

  /** A final group of one octet: two symbols and two pads. */
  function EncodeSingle(b0: Byte): string {
    [Symbol(b0 / 4), Symbol((b0 % 4) * 16), PadChar, PadChar]
  }

  /** The encoding of an octet sequence. */
  function Encode(b: seq<Byte>): (s: string)
    ensures |s| == 4 * ((|b| + 2) / 3)
    ensures forall i :: 0 <= i < |s| ==> InAlphabet(s[i])
  {
    if |b| == 0 then ""
    else if |b| == 1 then EncodeSingle(b[0])
    else if |b| == 2 then EncodePair(b[0], b[1])
    else
      var rest := Encode(b[3..]);
      assert forall i :: 4 <= i < 4 + |rest| ==> (EncodeTriple(b[0], b[1], b[2]) + rest)[i] == rest[i - 4];
      EncodeTriple(b[0], b[1], b[2]) + rest
  }

  /** The octets rebuilt from the symbol values of a group. */
  function First(c0: Sextet, c1: Sextet): Byte { c0 as int * 4 + c1 as int / 16 }
  function Second(c1: Sextet, c2: Sextet): Byte { (c1 as int % 16) * 16 + c2 as int / 4 }
  function Third(c2: Sextet, c3: Sextet): Byte { (c2 as int % 4) * 64 + c3 as int }

  /** Decodes one group of four characters, honouring padding only when `last`. */
  function DecodeQuad(q: string, last: bool): Option<seq<Byte>>
    requires |q| == 4
  {
    match (ValueOf(q[0]), ValueOf(q[1]), ValueOf(q[2]), ValueOf(q[3]))
    case (Some(c0), Some(c1), Some(c2), Some(c3)) =>
      var octets: seq<Byte> := [First(c0, c1), Second(c1, c2), Third(c2, c3)];
      Some(octets)
    case (Some(c0), Some(c1), Some(c2), None) =>
      var octets: seq<Byte> := [First(c0, c1), Second(c1, c2)];
      if last && q[3] == PadChar then Some(octets) else None
    case (Some(c0), Some(c1), None, None) =>
      var octets: seq<Byte> := [First(c0, c1)];
      if last && q[2] == PadChar && q[3] == PadChar then Some(octets) else None
    case _ => None
  }

  /** The decoding of a string; `None` when it is not a padded encoding. */
  function Decode(s: string): Option<seq<Byte>>
    decreases |s|
  {
    if s == "" then Some([])
    else if |s| < 4 then None
    else
      match DecodeQuad(s[..4], |s| == 4)
      case None => None
      case Some(head) =>
        match Decode(s[4..])
        case None => None
        case Some(tail) => Some(head + tail)
  }

  lemma JoinFirst(b0: Byte, b1: Byte)
    ensures First(b0 / 4, (b0 % 4) * 16 + b1 / 16) == b0
  {
    assert ((b0 % 4) * 16 + b1 / 16) / 16 == b0 % 4;
  }

  lemma JoinSecond(b0: Byte, b1: Byte, b2: Byte)
    ensures Second((b0 % 4) * 16 + b1 / 16, (b1 % 16) * 4 + b2 / 64) == b1
  {
    assert ((b0 % 4) * 16 + b1 / 16) % 16 == b1 / 16;
    assert ((b1 % 16) * 4 + b2 / 64) / 4 == b1 % 16;
  }

  lemma JoinThird(b1: Byte, b2: Byte)
    ensures Third((b1 % 16) * 4 + b2 / 64, b2 % 64) == b2
  {
    assert ((b1 % 16) * 4 + b2 / 64) % 4 == b2 / 64;
  }

  lemma DecodeTriple(b0: Byte, b1: Byte, b2: Byte, last: bool)
    ensures DecodeQuad(EncodeTriple(b0, b1, b2), last) == Some([b0, b1, b2])
  {
    ValueOfSymbol(b0 / 4);
    ValueOfSymbol((b0 % 4) * 16 + b1 / 16);
    ValueOfSymbol((b1 % 16) * 4 + b2 / 64);
    ValueOfSymbol(b2 % 64);
    JoinFirst(b0, b1);
    JoinSecond(b0, b1, b2);
    JoinThird(b1, b2);
  }

  lemma DecodePair(b0: Byte, b1: Byte)
    ensures DecodeQuad(EncodePair(b0, b1), true) == Some([b0, b1])
  {
    ValueOfSymbol(b0 / 4);
    ValueOfSymbol((b0 % 4) * 16 + b1 / 16);
    ValueOfSymbol((b1 % 16) * 4);
    JoinFirst(b0, b1);
    JoinSecond(b0, b1, 0);
  }

  lemma DecodeSingle(b0: Byte)
    ensures DecodeQuad(EncodeSingle(b0), true) == Some([b0])
  {
    ValueOfSymbol(b0 / 4);
    ValueOfSymbol((b0 % 4) * 16);
    JoinFirst(b0, 0);
  }

  /** One step of decoding an encoding of three octets or more. */
  lemma DecodeStep(b: seq<Byte>, last: bool)
    requires |b| >= 3 && last == (|b| == 3)
    ensures var s := Encode(b);
      Decode(s) == match Decode(s[4..]) case None => None case Some(tail) => Some(b[..3] + tail)
    ensures Encode(b)[4..] == Encode(b[3..])
  {
    var s := Encode(b);
    var head := EncodeTriple(b[0], b[1], b[2]);
    assert s == head + Encode(b[3..]);
    assert s[..4] == head;
    assert s[4..] == Encode(b[3..]);
    DecodeTriple(b[0], b[1], b[2], last);
    assert [b[0], b[1], b[2]] == b[..3];
  }

  /** A string of one final group decodes as that group. */
  lemma DecodeLastGroup(q: string, octets: seq<Byte>)
    requires |q| == 4 && DecodeQuad(q, true) == Some(octets)
    ensures Decode(q) == Some(octets)
  {
    assert q[..4] == q;
    assert q[4..] == "";
    assert octets + [] == octets;
  }

  /** The final group: one or two octets. */
  lemma DecodeEncodeShort(b: seq<Byte>)
    requires 1 <= |b| <= 2
    ensures Decode(Encode(b)) == Some(b)
  {
    if |b| == 1 {
      DecodeSingle(b[0]);
      DecodeLastGroup(EncodeSingle(b[0]), [b[0]]);
      assert [b[0]] == b;
    } else {
      DecodePair(b[0], b[1]);
      DecodeLastGroup(EncodePair(b[0], b[1]), [b[0], b[1]]);
      assert [b[0], b[1]] == b;
    }
  }

  /** Decoding inverts encoding: the receiver of an encoding recovers the octets sent. */
  lemma {:induction false} DecodeEncode(b: seq<Byte>)
    ensures Decode(Encode(b)) == Some(b)
    decreases |b|
  {
    if 1 <= |b| <= 2 {
      DecodeEncodeShort(b);
    } else if |b| >= 3 {
      DecodeEncode(b[3..]);
      DecodeStep(b, |b| == 3);
      assert b[..3] + b[3..] == b;
    }
  }
}
