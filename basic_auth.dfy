/**
 * HTTP Basic client authentication (section 2.3.1 of RFC 6749): the
 * credentials `client-id ":" client-secret`, UTF-8 encoded
 * (`Buffer.from` of a string), base 64 encoded and prefixed by the
 * scheme name, as in section 2 of RFC 7617. The receiving side is
 * modelled too, so that the header can be shown to carry exactly the
 * configured client id and secret.
 */
module BasicAuth {
  import opened Wrappers
  import Base64
  type Byte = Base64.Byte

  const Scheme: string := "Basic "
  const ColonByte: Byte := 0x3A

  /** The UTF-8 encoding of one code point. */
  function EncodeChar(c: char): (r: seq<Byte>)
    ensures 1 <= |r| <= 4
    ensures c as int < 0x80 ==> r == [c as int]
    ensures c as int >= 0x80 ==> forall i :: 0 <= i < |r| ==> r[i] >= 0x80
  {
    var n := c as int;
    if n < 0x80 then [n]
    else if n < 0x800 then [0xC0 + n / 64, 0x80 + n % 64]
    else if n < 0x10000 then [0xE0 + n / 4096, 0x80 + (n / 64) % 64, 0x80 + n % 64]
    else [0xF0 + n / 262144, 0x80 + (n / 4096) % 64, 0x80 + (n / 64) % 64, 0x80 + n % 64]
  }

  /** The UTF-8 encoding of a string. */
  function Utf8(s: string): seq<Byte> {
    if s == [] then [] else EncodeChar(s[0]) + Utf8(s[1..])
  }

  lemma {:induction false} Utf8Append(a: string, b: string)
    ensures Utf8(a + b) == Utf8(a) + Utf8(b)
  {
    if a != [] {
      assert (a + b)[1..] == a[1..] + b;
      Utf8Append(a[1..], b);
    } else {
      assert a + b == b;
    }
  }

  /** Only the colon itself encodes to a colon octet. */
  lemma {:induction false} NoColonOctet(s: string)
    requires ':' !in s
    ensures ColonByte !in Utf8(s)
  {
    if s != [] {
      assert s[0] != ':';
      assert ':' !in s[1..];
      NoColonOctet(s[1..]);
    }
  }

  /** The number of octets a UTF-8 sequence has, read from its first octet. */
  function SequenceLength(lead: Byte): Option<nat> {
    if lead < 0x80 then Some(1)
    else if 0xC0 <= lead < 0xE0 then Some(2)
    else if 0xE0 <= lead < 0xF0 then Some(3)
    else if 0xF0 <= lead < 0xF8 then Some(4)
    else None
  }

  predicate Continuation(b: Byte) {
    0x80 <= b < 0xC0
  }

  /** A scalar value for a code point; `None` for a surrogate or one out of range. */
  function ScalarOf(n: int): Option<char> {
    if 0 <= n < 0xD800 || 0xE000 <= n <= 0x10FFFF then Some(n as char) else None
  }

  /** Decodes one complete UTF-8 sequence. */
  function DecodeChar(b: seq<Byte>): Option<char>
    requires 1 <= |b| <= 4
  {
    if !forall i :: 1 <= i < |b| ==> Continuation(b[i]) then None
    else if |b| == 1 then ScalarOf(b[0])
    else if |b| == 2 then ScalarOf((b[0] as int - 0xC0) * 64 + (b[1] as int - 0x80))
    else if |b| == 3 then ScalarOf((b[0] as int - 0xE0) * 4096 + (b[1] as int - 0x80) * 64 + (b[2] as int - 0x80))
    else ScalarOf((b[0] as int - 0xF0) * 262144 + (b[1] as int - 0x80) * 4096 + (b[2] as int - 0x80) * 64 + (b[3] as int - 0x80))
  }

  /** Decodes a UTF-8 octet sequence; `None` when it is malformed. */
  function Utf8Decode(b: seq<Byte>): Option<string>
    decreases |b|
  {
    if b == [] then Some("")
    else
      match SequenceLength(b[0])
      case None => None
      case Some(n) =>
        if |b| < n then None
        else
          match (DecodeChar(b[..n]), Utf8Decode(b[n..]))
          case (Some(c), Some(rest)) => Some([c] + rest)
          case _ => None
  }

  lemma Digits3(n: int)
    requires 0 <= n
    ensures (n / 4096) * 4096 + ((n / 64) % 64) * 64 + n % 64 == n
  {
    var q := n / 64;
    assert n == q * 64 + n % 64;
    assert q == (q / 64) * 64 + q % 64;
    assert q / 64 == n / 4096;
  }

  lemma Digits4(n: int)
    requires 0 <= n
    ensures (n / 262144) * 262144 + ((n / 4096) % 64) * 4096 + ((n / 64) % 64) * 64 + n % 64 == n
  {
    Digits3(n);
    var q := n / 4096;
    assert q == (q / 64) * 64 + q % 64;
    assert q / 64 == n / 262144;
  }

  lemma DecodeEncodeChar(c: char)
    ensures var e := EncodeChar(c);
      SequenceLength(e[0]) == Some(|e|) && DecodeChar(e) == Some(c)
  {
    var n := c as int;
    if 0x800 <= n < 0x10000 {
      Digits3(n);
    } else if n >= 0x10000 {
      Digits4(n);
    }
  }

  /** UTF-8 decoding inverts UTF-8 encoding. */
  lemma {:induction false} Utf8DecodeEncode(s: string)
    ensures Utf8Decode(Utf8(s)) == Some(s)
  {
    if s != [] {
      var e := EncodeChar(s[0]);
      var b := Utf8(s);
      assert b == e + Utf8(s[1..]);
      assert b[..|e|] == e && b[|e|..] == Utf8(s[1..]);
      DecodeEncodeChar(s[0]);
      Utf8DecodeEncode(s[1..]);
      assert [s[0]] + s[1..] == s;
    }
  }

  /** The `Authorization` header value for a client id and secret. */
  function Header(clientId: string, clientSecret: string): (h: string)
    ensures |Scheme| <= |h| && h == Scheme + h[|Scheme|..]
    ensures forall i :: |Scheme| <= i < |h| ==> Base64.InAlphabet(h[i])
    ensures |h| - |Scheme| == 4 * ((|Utf8(clientId + ":" + clientSecret)| + 2) / 3)
  {
    Scheme + Base64.Encode(Utf8(clientId + ":" + clientSecret))
  }

  /** Splits at the first colon octet: the user-id and the password of RFC 7617. */
  function SplitAtColon(b: seq<Byte>): (r: Option<(seq<Byte>, seq<Byte>)>)
    ensures r.Some? ==> ColonByte !in r.value.0 && b == r.value.0 + [ColonByte] + r.value.1
    ensures r.None? ==> ColonByte !in b
  {
    if b == [] then None
    else if b[0] == ColonByte then Some(([], b[1..]))
    else
      match SplitAtColon(b[1..])
      case None => None
      case Some((user, pass)) => Some(([b[0]] + user, pass))
  }

  /** What the token endpoint recovers from a Basic header: the client id and secret. */
  function ParseHeader(h: string): Option<(string, string)> {
    if |h| < |Scheme| || h[..|Scheme|] != Scheme then None
    else
      match Base64.Decode(h[|Scheme|..])
      case None => None
      case Some(octets) =>
        match SplitAtColon(octets)
        case None => None
        case Some((user, pass)) =>
          match (Utf8Decode(user), Utf8Decode(pass))
          case (Some(id), Some(secret)) => Some((id, secret))
          case _ => None
  }

  /** Splitting `x ":" y` at its first colon gives back `x` when `x` has none. */
  lemma {:induction false} SplitAtFirstColon(x: seq<Byte>, y: seq<Byte>)
    requires ColonByte !in x
    ensures SplitAtColon(x + [ColonByte] + y) == Some((x, y))
  {
    if x != [] {
      assert (x + [ColonByte] + y)[1..] == x[1..] + [ColonByte] + y;
      SplitAtFirstColon(x[1..], y);
      assert [x[0]] + x[1..] == x;
    }
  }

  /**
   * The receiver of the header recovers exactly the configured client id
   * and secret, provided the id has no colon (section 2 of RFC 7617
   * forbids one there).
   */
  lemma HeaderRoundTrip(clientId: string, clientSecret: string)
    requires ':' !in clientId
    ensures ParseHeader(Header(clientId, clientSecret)) == Some((clientId, clientSecret))
  {
    var octets := Utf8(clientId + ":" + clientSecret);
    Utf8Append(clientId + ":", clientSecret);
    Utf8Append(clientId, ":");
    assert Utf8(":") == [ColonByte];
    NoColonOctet(clientId);
    SplitAtFirstColon(Utf8(clientId), Utf8(clientSecret));
    Base64.DecodeEncode(octets);
    var h := Header(clientId, clientSecret);
    assert h[..|Scheme|] == Scheme && h[|Scheme|..] == Base64.Encode(octets);
    Utf8DecodeEncode(clientId);
    Utf8DecodeEncode(clientSecret);
  }
}
