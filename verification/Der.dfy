/**
 The part of DER (ITU-T X.690, sections 8.1.3 and 10.1) an RDCleanPath request needs, with the
 decoder as lenient as the one the gateway uses: explicit wrappers are not measured and extra
 bytes at the end of a SEQUENCE are ignored.
 */
module Der {
  import opened Common

  const MAX_LENGTH := 0x8000_0000   // the decoder's lengths stay below 2^31

  const INTEGER: byte := 0x02
  const OCTET_STRING: byte := 0x04
  const UTF8_STRING: byte := 0x0c
  const SEQUENCE: byte := 0x30
  const CONTEXT: byte := 0xa0       // context-specific, constructed

  // ----- lengths -----

  /** A positive number, big-endian, without leading zeros. */
  function BigEndian(n: nat): bytes {
    if n < 256 then [n] else BigEndian(n / 256) + [n % 256]
  }

  function EncodeLength(n: nat): bytes
    requires |BigEndian(n)| < 128
  {
    if n < 128 then [n] else [128 + |BigEndian(n)|] + BigEndian(n)
  }

  /** k more length bytes after those that made up acc: the length and what follows it. */
  function ReadLength(b: bytes, k: nat, acc: nat): Option<(nat, bytes)> {
    if k == 0 then Some((acc, b))
    else if b == [] || acc >= 0x80_0000 || acc * 256 + b[0] == 0 then None
    else ReadLength(b[1..], k - 1, acc * 256 + b[0])
  }

  datatype Header = Header(tag: byte, length: nat, rest: bytes)

  /** An identifier octet and a length in their only permitted form. */
  function ReadHeader(b: bytes): (h: Option<Header>)
    ensures h.Some? ==> h.value.length < MAX_LENGTH
  {
    if |b| < 2 || b[0] % 32 == 31 then None      // no expected element has a long-form tag
    else if b[1] < 128 then Some(Header(b[0], b[1], b[2..]))
    else if b[1] == 128 then None                // indefinite length
    else
      match ReadLength(b[2..], b[1] - 128, 0)
      case None => None
      case Some((n, rest)) =>
        ReadLengthBound(b[2..], b[1] - 128, 0);
        if n < 128 then None else Some(Header(b[0], n, rest))
  }

  function Tlv(tag: byte, content: bytes): bytes
    requires |BigEndian(|content|)| < 128
  {
    [tag] + EncodeLength(|content|) + content
  }

  lemma {:induction false} ReadLengthSplit(a: bytes, b: bytes, k: nat, acc: nat)
    ensures ReadLength(a + b, |a| + k, acc)
            == match ReadLength(a + b, |a|, acc) { case None => None case Some((n, rest)) => ReadLength(b, k, n) }
    ensures ReadLength(a + b, |a|, acc).Some? ==> ReadLength(a + b, |a|, acc).value.1 == b
  {
    if a == [] {
      assert a + b == b;
    } else {
      assert (a + b)[1..] == a[1..] + b;
      ReadLengthSplit(a[1..], b, k, acc * 256 + a[0]);
    }
  }

  lemma {:induction false} ReadLengthBack(n: nat, rest: bytes)
    requires 0 < n < MAX_LENGTH
    ensures ReadLength(BigEndian(n) + rest, |BigEndian(n)|, 0) == Some((n, rest))
  {
    if n < 256 {
      assert ([n] + rest)[1..] == rest;
    } else {
      var high, low := BigEndian(n / 256), [n % 256];
      assert high + low + rest == high + (low + rest);
      ReadLengthBack(n / 256, low + rest);
      ReadLengthSplit(high, low + rest, 1, 0);
      assert (low + rest)[1..] == rest;
    }
  }

  /** How many bytes a length takes, by comparison with powers of 256. */
  lemma {:induction false} BigEndianSize(n: nat)
    ensures n < 0x100_0000_0000 ==> |BigEndian(n)| <= 5
    ensures n < 0x1_0000_0000 ==> |BigEndian(n)| <= 4
    ensures n < 0x100_0000 ==> |BigEndian(n)| <= 3
    ensures n < 0x1_0000 ==> |BigEndian(n)| <= 2
  {
    if n >= 256 { BigEndianSize(n / 256); }
  }

  lemma LongHeaderBack(b: bytes, n: nat, tail: bytes)
    requires 128 <= n < MAX_LENGTH && 0 < |BigEndian(n)| < 128
    requires |b| >= 2 && b[0] % 32 != 31 && b[1] == 128 + |BigEndian(n)| && b[2..] == BigEndian(n) + tail
    ensures ReadHeader(b) == Some(Header(b[0], n, tail))
  {
    ReadLengthBack(n, tail);
  }

  lemma AfterTwo(tag: byte, first: byte, size: bytes, content: bytes)
    ensures var b := [tag] + ([first] + size) + content;
            |b| >= 2 && b[0] == tag && b[1] == first && b[2..] == size + content
  {
  }

  /** Identifier, first length byte and what follows them. */
  lemma TlvParts(tag: byte, content: bytes, rest: bytes)
    requires |BigEndian(|content|)| < 128
    ensures var w, n := Tlv(tag, content) + rest, |content|;
            && |w| >= 2 && w[0] == tag
            && if n < 128 then w[1] == n && w[2..] == content + rest
               else w[1] == 128 + |BigEndian(n)| && w[2..] == BigEndian(n) + (content + rest)
  {
    var n := |content|;
    if n < 128 { AfterTwo(tag, n, [], content); } else { AfterTwo(tag, 128 + |BigEndian(n)|, BigEndian(n), content); }
    assert [] + content == content;
    assert (Tlv(tag, content) + rest)[2..] == Tlv(tag, content)[2..] + rest;
  }

  lemma ReadHeaderBack(tag: byte, content: bytes, rest: bytes)
    requires tag % 32 != 31 && |content| < MAX_LENGTH
    ensures |BigEndian(|content|)| < 128
    ensures ReadHeader(Tlv(tag, content) + rest) == Some(Header(tag, |content|, content + rest))
  {
    var n := |content|;
    BigEndianSize(n);
    TlvParts(tag, content, rest);
    if n >= 128 {
      assert |BigEndian(n)| > 0;
      LongHeaderBack(Tlv(tag, content) + rest, n, content + rest);
    }
  }

  lemma {:induction false} ReadLengthBound(b: bytes, k: nat, acc: nat)
    requires acc < MAX_LENGTH && ReadLength(b, k, acc).Some?
    ensures ReadLength(b, k, acc).value.0 < MAX_LENGTH
    ensures k <= |b| && ReadLength(b, k, acc).value.1 == b[k..]
  {
    if k > 0 { ReadLengthBound(b[1..], k - 1, acc * 256 + b[0]); }
  }

  /** Past a long-form length the decoder is where the length says. */
  lemma LongHeaderFinds(b: bytes, size: bytes, content: bytes)
    requires |b| >= 2 && b[1] == 128 + |size| && b[2..] == size + content && ReadHeader(b).Some?
    requires |size| > 0
    ensures ReadHeader(b).value.rest == content
  {
    ReadLengthBound(size + content, |size|, 0);
    assert (size + content)[|size|..] == content;
  }

  /** The decoder finds the content of a well-formed element where it is. */
  lemma ReadHeaderFinds(tag: byte, content: bytes)
    requires |BigEndian(|content|)| < 128 && ReadHeader(Tlv(tag, content)).Some?
    ensures ReadHeader(Tlv(tag, content)).value.rest == content
  {
    var whole := Tlv(tag, content);
    if |content| < 128 {
      assert whole[2..] == content;
    } else {
      var size := BigEndian(|content|);
      AfterTwo(tag, 128 + |size|, size, content);
      LongHeaderFinds(whole, size, content);
    }
  }

  // ----- the same, byte by byte -----

  /** A definite length as X.690 section 8.1.3 and section 10.1 spell it, up to four length bytes. */
  function LengthOctets(n: nat): bytes
    requires n < 0x1_0000_0000
  {
    if n < 0x80 then [n]
    else if n < 0x100 then [0x81, n]
    else if n < 0x1_0000 then [0x82, n / 0x100, n % 0x100]
    else if n < 0x100_0000 then [0x83, n / 0x1_0000, n / 0x100 % 0x100, n % 0x100]
    else [0x84, n / 0x100_0000, n / 0x1_0000 % 0x100, n / 0x100 % 0x100, n % 0x100]
  }

  function Element(tag: byte, content: bytes): bytes
    requires |content| < 0x1_0000_0000
  {
    [tag] + LengthOctets(|content|) + content
  }

  lemma DigitsOf(n: nat)
    requires n < 0x1_0000_0000
    ensures n >= 0x100 ==> BigEndian(n) == BigEndian(n / 0x100) + [n % 0x100]
    ensures n / 0x100 / 0x100 == n / 0x1_0000 && n / 0x1_0000 / 0x100 == n / 0x100_0000
  {
  }

  lemma LengthIs(n: nat)
    requires n < 0x1_0000_0000
    ensures |BigEndian(n)| < 128 && EncodeLength(n) == LengthOctets(n)
  {
    BigEndianSize(n);
    DigitsOf(n);
    DigitsOf(n / 0x100);
    DigitsOf(n / 0x1_0000);
  }

  lemma TlvIs(tag: byte, content: bytes)
    requires |content| < 0x1_0000_0000
    ensures |BigEndian(|content|)| < 128 && Tlv(tag, content) == Element(tag, content)
  {
    LengthIs(|content|);
  }

  // ----- integers -----

  /** Two's complement, big-endian, as short as possible. */
  function EncodeInt(n: int): bytes
    decreases if n < 0 then -n else n
  {
    if -128 <= n < 128 then [n % 256] else EncodeInt(n / 256) + [n % 256]
  }

  function Signed(b: byte): int { if b < 128 then b else b - 256 }

  function IntValue(b: bytes): int
    requires b != []
  {
    if |b| == 1 then Signed(b[0]) else IntValue(b[..|b| - 1]) * 256 + b[|b| - 1]
  }

  predicate Minimal(b: bytes) {
    b != [] && (|b| > 1 ==> !(b[0] == 0 && b[1] < 128) && !(b[0] == 255 && b[1] >= 128))
  }

  /** At most 64 bits, in the shortest form. */
  function DecodeInt(b: bytes): Option<int> {
    if Minimal(b) && |b| <= 8 then Some(IntValue(b)) else None
  }

  lemma {:induction false} IntRoundTrip(n: int)
    ensures Minimal(EncodeInt(n)) && IntValue(EncodeInt(n)) == n
    decreases if n < 0 then -n else n
  {
    if !(-128 <= n < 128) {
      var high := EncodeInt(n / 256);
      IntRoundTrip(n / 256);
      var b := high + [n % 256];
      assert b[..|b| - 1] == high;
      if |high| == 1 { assert Signed(high[0]) == n / 256; }
    }
  }

  // ----- text -----

  predicate Continuation(b: bytes, i: nat) { i < |b| && 0x80 <= b[i] < 0xc0 }

  /** Well-formed UTF-8 (RFC 3629, section 4). */
  predicate Utf8(b: bytes)
    decreases |b|
  {
    if b == [] then true
    else if b[0] < 0x80 then Utf8(b[1..])
    else if 0xc2 <= b[0] < 0xe0 then Continuation(b, 1) && Utf8(b[2..])
    else if 0xe0 <= b[0] < 0xf0 then
      && Continuation(b, 1) && Continuation(b, 2)
      && (b[0] == 0xe0 ==> b[1] >= 0xa0) && (b[0] == 0xed ==> b[1] < 0xa0)
      && Utf8(b[3..])
    else if 0xf0 <= b[0] < 0xf5 then
      && Continuation(b, 1) && Continuation(b, 2) && Continuation(b, 3)
      && (b[0] == 0xf0 ==> b[1] >= 0x90) && (b[0] == 0xf4 ==> b[1] < 0x90)
      && Utf8(b[4..])
    else false
  }

  predicate Printable(c: byte) {
    || 'a' as int <= c <= 'z' as int || 'A' as int <= c <= 'Z' as int || '0' as int <= c <= '9' as int
    || '\'' as int <= c <= ')' as int || '+' as int <= c <= '/' as int
    || c in {' ' as int, ':' as int, '=' as int, '?' as int, '*' as int, '&' as int}
  }

  /** The string types the decoder takes for a Go string, and what it asks of each. */
  predicate IsText(tag: byte, b: bytes) {
    || (tag == UTF8_STRING && Utf8(b))
    || (tag == 0x13 && forall c | c in b :: Printable(c))
    || (tag == 0x16 && forall c | c in b :: c < 0x80)
    || (tag == 0x12 && forall c | c in b :: c == ' ' as int || '0' as int <= c <= '9' as int)
    || tag == 0x14 || tag == 0x1b
  }

  // ----- explicitly tagged fields -----

  datatype Field = Field(tag: byte, content: bytes, rest: bytes)

  function EncodeField(number: byte, tag: byte, content: bytes): (b: bytes)
    requires number < 31 && |content| < MAX_LENGTH
    ensures |b| <= |content| + 12
  {
    BigEndianSize(|content|);
    var inner := Tlv(tag, content);
    BigEndianSize(|inner|);
    Tlv(CONTEXT + number, inner)
  }

  lemma FieldIs(number: byte, tag: byte, content: bytes)
    requires number < 31 && |content| < MAX_LENGTH
    ensures EncodeField(number, tag, content) == Element(0xa0 + number, Element(tag, content))
  {
    TlvIs(tag, content);
    BigEndianSize(|content|);
    TlvIs(CONTEXT + number, Tlv(tag, content));
  }

  /** The wrapper's own length is not compared with what is inside it. */
  function ReadField(b: bytes, number: byte): (f: Option<Field>)
    requires number < 31
    ensures f.Some? ==> |f.value.content| < MAX_LENGTH
  {
    match ReadHeader(b)
    case None => None
    case Some(outer) =>
      if outer.tag != CONTEXT + number || outer.length == 0 then None
      else
        match ReadHeader(outer.rest)
        case None => None
        case Some(inner) =>
          if inner.length > |inner.rest| then None
          else Some(Field(inner.tag, inner.rest[..inner.length], inner.rest[inner.length..]))
  }

  lemma ReadFieldBack(number: byte, tag: byte, content: bytes, rest: bytes)
    requires number < 31 && tag % 32 != 31 && |content| < MAX_LENGTH
    requires |EncodeField(number, tag, content)| < MAX_LENGTH
    ensures ReadField(EncodeField(number, tag, content) + rest, number) == Some(Field(tag, content, rest))
  {
    BigEndianSize(|content|);
    var inner := Tlv(tag, content);
    ReadHeaderBack(CONTEXT + number, inner, rest);
    ReadHeaderBack(tag, content, rest);
    assert (content + rest)[..|content|] == content && (content + rest)[|content|..] == rest;
  }
}
