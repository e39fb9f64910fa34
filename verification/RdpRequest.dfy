/** Which byte strings the gateway accepts as the first message of a remote desktop session. */
module RdpRequest {
  import opened Common
  import opened Der

  const VERSION_1 := 3390
  const MAX_X224 := 4096

  datatype Request = Request(version: int, destination: bytes, proxyAuth: bytes, x224: bytes)

  /** What a decoded request always is: the decoder bounds every length, and Version is 64 bits. */
  predicate Sized(r: Request) {
    && |EncodeInt(r.version)| <= 8
    && |r.destination| < MAX_LENGTH && |r.proxyAuth| < MAX_LENGTH && |r.x224| < MAX_LENGTH
  }

  function Field0(r: Request): bytes requires Sized(r) { EncodeField(0, INTEGER, EncodeInt(r.version)) }

  function Field2(r: Request): bytes requires Sized(r) { EncodeField(2, UTF8_STRING, r.destination) }

  function Field3(r: Request): bytes requires Sized(r) { EncodeField(3, UTF8_STRING, r.proxyAuth) }

  function Field6(r: Request): bytes requires Sized(r) { EncodeField(6, OCTET_STRING, r.x224) }

  function Body(r: Request): (b: bytes)
    requires Sized(r)
    ensures |b| < 4 * MAX_LENGTH + 64
  {
    Field0(r) + Field2(r) + Field3(r) + Field6(r)
  }

  /** asn1.Marshal: a field tagged utf8 is written as it is, whether or not its text is UTF-8. */
  function Marshal(r: Request): bytes
    requires Sized(r)
  {
    BigEndianSize(|Body(r)|);
    Tlv(SEQUENCE, Body(r))
  }

  /** The fields of the SEQUENCE; what follows the fourth is ignored. */
  function ReadFields(body: bytes): (r: Option<Request>)
    ensures r.Some? && r.value.version == VERSION_1 ==> Sized(r.value)
  {
    match ReadField(body, 0)
    case None => None
    case Some(f0) =>
      match ReadField(f0.rest, 2)
      case None => None
      case Some(f2) =>
        match ReadField(f2.rest, 3)
        case None => None
        case Some(f3) =>
          match ReadField(f3.rest, 6)
          case None => None
          case Some(f6) =>
            if f0.tag != INTEGER || DecodeInt(f0.content) == None then None
            else if !IsText(f2.tag, f2.content) || !IsText(f3.tag, f3.content) || f6.tag != OCTET_STRING then None
            else Some(Request(DecodeInt(f0.content).value, f2.content, f3.content, f6.content))
  }

  /** asn1.Unmarshal: the request and the bytes after the SEQUENCE. */
  function Unmarshal(data: bytes): Option<(Request, bytes)> {
    match ReadHeader(data)
    case None => None
    case Some(h) =>
      if h.tag != SEQUENCE || h.length > |h.rest| then None
      else
        match ReadFields(h.rest[..h.length])
        case None => None
        case Some(r) => Some((r, h.rest[h.length..]))
  }

  function BE16(b: bytes, i: nat): int
    requires i + 1 < |b|
  {
    b[i] as int * 256 + b[i + 1]
  }

  function LE16(b: bytes, i: nat): int
    requires i + 1 < |b|
  {
    b[i] as int + b[i + 1] as int * 256
  }

  function LE32(b: bytes, i: nat): int
    requires i + 3 < |b|
  {
    LE16(b, i) + LE16(b, i + 2) * 65536
  }

  /** The X.224 connection request checks, in the order the gateway makes them. */
  predicate CheckX224(p: bytes) {
    if |p| < 19 || |p| > MAX_X224 || p[0] != 3 || p[1] != 0 || BE16(p, 2) != |p| || p[4] as int + 5 != |p| || p[5] != 0xe0
    then false
    else
      var n := p[|p| - 8..];
      !(n[0] != 1 || LE16(n, 2) != 8 || LE32(n, 4) / 2 % 2 == 0)
  }

  function Parse(data: bytes): Option<Request> {
    match Unmarshal(data)
    case None => None
    case Some((r, rest)) =>
      if rest != [] || r.version != VERSION_1 || r.proxyAuth == [] then None
      else if Marshal(r) != data then None
      else if !CheckX224(r.x224) then None
      else Some(r)
  }

  // ----- decoding undoes encoding -----

  /** The decoder can take the encoding: its body is shorter than 2^31 bytes. */
  predicate Fits(r: Request) { Sized(r) && |Body(r)| < MAX_LENGTH }

  lemma FourParts(a: bytes, b: bytes, c: bytes, d: bytes)
    ensures a + b + c + d == a + (b + (c + d)) && |a + b + c + d| == |a| + |b| + |c| + |d|
  {
  }

  lemma BodyParts(r: Request)
    requires Fits(r)
    ensures Body(r) == Field0(r) + (Field2(r) + (Field3(r) + Field6(r)))
    ensures |Field0(r)| < MAX_LENGTH && |Field2(r)| < MAX_LENGTH
    ensures |Field3(r)| < MAX_LENGTH && |Field6(r)| < MAX_LENGTH
  {
    FourParts(Field0(r), Field2(r), Field3(r), Field6(r));
  }

  lemma NumbersBack(r: Request, rest: bytes)
    requires Fits(r)
    ensures ReadField(Field0(r) + rest, 0) == Some(Field(INTEGER, EncodeInt(r.version), rest))
    ensures DecodeInt(EncodeInt(r.version)) == Some(r.version)
    ensures ReadField(Field6(r), 6) == Some(Field(OCTET_STRING, r.x224, []))
  {
    BodyParts(r);
    IntRoundTrip(r.version);
    ReadFieldBack(0, INTEGER, EncodeInt(r.version), rest);
    ReadFieldBack(6, OCTET_STRING, r.x224, []);
    assert Field6(r) + [] == Field6(r);
  }

  lemma TextsBack(r: Request, rest: bytes)
    requires Fits(r)
    ensures ReadField(Field2(r) + rest, 2) == Some(Field(UTF8_STRING, r.destination, rest))
    ensures ReadField(Field3(r) + rest, 3) == Some(Field(UTF8_STRING, r.proxyAuth, rest))
  {
    BodyParts(r);
    ReadFieldBack(2, UTF8_STRING, r.destination, rest);
    ReadFieldBack(3, UTF8_STRING, r.proxyAuth, rest);
  }

  /** The SEQUENCE's fields, read one after the other. */
  lemma PartsBack(r: Request)
    requires Fits(r)
    ensures var f0 := Field(INTEGER, EncodeInt(r.version), Field2(r) + (Field3(r) + Field6(r)));
            var f2 := Field(UTF8_STRING, r.destination, Field3(r) + Field6(r));
            && ReadField(Body(r), 0) == Some(f0) && DecodeInt(f0.content) == Some(r.version)
            && ReadField(f0.rest, 2) == Some(f2)
            && ReadField(f2.rest, 3) == Some(Field(UTF8_STRING, r.proxyAuth, Field6(r)))
            && ReadField(Field6(r), 6) == Some(Field(OCTET_STRING, r.x224, []))
  {
    BodyParts(r);
    NumbersBack(r, Field2(r) + (Field3(r) + Field6(r)));
    TextsBack(r, Field3(r) + Field6(r));
    TextsBack(r, Field6(r));
  }

  lemma FieldsBack(r: Request)
    requires Fits(r)
    ensures ReadFields(Body(r)) == if Utf8(r.destination) && Utf8(r.proxyAuth) then Some(r) else None
  {
    PartsBack(r);
  }

  lemma HeaderBack(r: Request)
    requires Fits(r)
    ensures ReadHeader(Marshal(r)) == Some(Header(SEQUENCE, |Body(r)|, Body(r)))
  {
    ReadHeaderBack(SEQUENCE, Body(r), []);
    assert Marshal(r) + [] == Marshal(r) && Body(r) + [] == Body(r);
  }

  lemma UnmarshalWhole(data: bytes, body: bytes)
    requires ReadHeader(data) == Some(Header(SEQUENCE, |body|, body))
    ensures Unmarshal(data) == match ReadFields(body) case None => None case Some(r) => Some((r, []))
  {
    assert body[..|body|] == body && body[|body|..] == [];
  }

  /** The decoder refuses text that is not UTF-8 and undoes every other encoding it can take. */
  lemma UnmarshalMarshal(r: Request)
    requires Fits(r)
    ensures Unmarshal(Marshal(r)) == if Utf8(r.destination) && Utf8(r.proxyAuth) then Some((r, [])) else None
  {
    HeaderBack(r);
    FieldsBack(r);
    UnmarshalWhole(Marshal(r), Body(r));
  }

  /** Different requests have different encodings. */
  lemma MarshalIsInjective(r: Request, s: Request)
    requires Fits(r) && Fits(s) && Marshal(r) == Marshal(s)
    ensures r == s
  {
    HeaderBack(r);
    HeaderBack(s);
    PartsBack(r);
    PartsBack(s);
  }

  // ----- what is accepted -----

  /**
   A connection request as RFC 1006 section 6 and X.224 frame it: a version 3 TPKT whose length
   covers all of p, one CR TPDU filling it, and at its end a negotiation request of 8 bytes
   whose protocols include CredSSP (NLA).
   */
  predicate NlaConnectionRequest(p: bytes) {
    && 19 <= |p| <= 260
    && p[0] == 3 && p[1] == 0 && BE16(p, 2) == |p|
    && p[4] as int == |p| - 5 && p[5] == 0xe0
    && p[|p| - 8] == 1 && p[|p| - 6] == 8 && p[|p| - 5] == 0
    && p[|p| - 4] / 2 % 2 == 1
  }

  /** The length indicator caps a request at 260 bytes: the 4096 limit never decides. */
  lemma CheckedIsFramed(p: bytes)
    ensures CheckX224(p) <==> NlaConnectionRequest(p)
  {
    if |p| >= 19 {
      var n := p[|p| - 8..];
      assert n[0] == p[|p| - 8] && n[2] == p[|p| - 6] && n[3] == p[|p| - 5] && n[4] == p[|p| - 4];
      assert LE32(n, 4) == n[4] as int + 2 * (128 * (n[5] as int) + 32768 * LE16(n, 6));
    }
  }

  predicate Acceptable(r: Request) {
    && Fits(r) && r.version == VERSION_1
    && r.proxyAuth != [] && Utf8(r.destination) && Utf8(r.proxyAuth)
    && NlaConnectionRequest(r.x224)
  }

  /** An encoding the decoder got through is one it can take. */
  lemma AcceptedFits(data: bytes, r: Request)
    requires Parse(data) == Some(r)
    ensures Fits(r)
  {
    BigEndianSize(|Body(r)|);
    ReadHeaderFinds(SEQUENCE, Body(r));
    var h := ReadHeader(data).value;
    assert h.rest[h.length..] == [];
  }

  /**
   The gateway accepts exactly the DER encodings of acceptable requests; in particular every
   acceptable request has exactly one accepted encoding.
   */
  lemma AcceptsExactly(data: bytes, r: Request)
    ensures Parse(data) == Some(r) <==> Acceptable(r) && Marshal(r) == data
  {
    CheckedIsFramed(r.x224);
    if Parse(data) == Some(r) {
      AcceptedFits(data, r);
      UnmarshalMarshal(r);
    } else if Acceptable(r) && Marshal(r) == data {
      UnmarshalMarshal(r);
    }
  }

  // ----- the bytes on the wire -----

  /** The one encoding of a request, byte by byte: four explicit fields 0, 2, 3 and 6 in a SEQUENCE. */
  function Fields(destination: bytes, proxyAuth: bytes, x224: bytes): bytes
    requires |destination| < MAX_LENGTH && |proxyAuth| < MAX_LENGTH && |x224| < MAX_LENGTH
  {
    [0xa0, 0x04, 0x02, 0x02, 0x0d, 0x3e]
    + Element(0xa2, Element(0x0c, destination))
    + Element(0xa3, Element(0x0c, proxyAuth))
    + Element(0xa6, Element(0x04, x224))
  }

  lemma VersionBytes()
    ensures EncodeInt(3390) == [0x0d, 0x3e] && EncodeField(0, INTEGER, [0x0d, 0x3e]) == [0xa0, 0x04, 0x02, 0x02, 0x0d, 0x3e]
  {
    assert EncodeInt(3390) == EncodeInt(13) + [62];
    FieldIs(0, INTEGER, [0x0d, 0x3e]);
    assert Element(INTEGER, [0x0d, 0x3e]) == [0x02, 0x02, 0x0d, 0x3e];
    assert Element(0xa0, [0x02, 0x02, 0x0d, 0x3e]) == [0xa0, 0x04] + [0x02, 0x02, 0x0d, 0x3e];
  }

  lemma VersionField(r: Request)
    requires Sized(r) && r.version == 3390
    ensures Field0(r) == [0xa0, 0x04, 0x02, 0x02, 0x0d, 0x3e]
  {
    VersionBytes();
  }

  lemma OtherFields(r: Request)
    requires Sized(r)
    ensures Field2(r) == Element(0xa2, Element(0x0c, r.destination))
    ensures Field3(r) == Element(0xa3, Element(0x0c, r.proxyAuth))
    ensures Field6(r) == Element(0xa6, Element(0x04, r.x224))
  {
    FieldIs(2, UTF8_STRING, r.destination);
    FieldIs(3, UTF8_STRING, r.proxyAuth);
    FieldIs(6, OCTET_STRING, r.x224);
  }

  lemma BodyBytes(r: Request)
    requires Fits(r) && r.version == 3390
    ensures Body(r) == Fields(r.destination, r.proxyAuth, r.x224)
  {
    VersionField(r);
    OtherFields(r);
  }

  /** Whatever the gateway accepts has, byte by byte, the form of an RDCleanPath request of version 3390. */
  lemma AcceptedBytes(data: bytes, r: Request)
    requires Parse(data) == Some(r)
    ensures r.version == 3390 && Fits(r)
    ensures |Fields(r.destination, r.proxyAuth, r.x224)| < 0x8000_0000
    ensures data == Element(0x30, Fields(r.destination, r.proxyAuth, r.x224))
  {
    AcceptedFits(data, r);
    BodyBytes(r);
    TlvIs(SEQUENCE, Body(r));
  }
}
