/** The RFC 3161 client: the request it builds, the response it accepts, and the failover over a
    chain of timestamp authorities. The digest and the nonce are inputs; the network is a list of
    replies. */
module TimestampClient {
  import opened Tables
  import opened DerCodec

  const SEQUENCE: byte := 0x30
  const INTEGER: byte := 0x02
  const OCTET_STRING: byte := 0x04
  const SHA256_OID: Bytes := [0x06, 0x09, 0x60, 0x86, 0x48, 0x01, 0x65, 0x03, 0x04, 0x02, 0x01]
  const DER_NULL: Bytes := [0x05, 0x00]
  const CERT_REQ_TRUE: Bytes := [0x01, 0x01, 0xff]

  // ----- The request, section 2.4.1 of RFC 3161

  function BuildTimeStampReq(digest: Bytes, nonce: Bytes): Result<Bytes>
    ensures BuildTimeStampReq(digest, nonce) == Err(DigestMustBeSha256) <==> |digest| != 32
  {
    if |digest| != 32 then Err(DigestMustBeSha256)
    else
      var version := Der(INTEGER, [0x01]);
      var algorithmId := Der(SEQUENCE, SHA256_OID + DER_NULL);
      var messageImprint := Der(SEQUENCE, algorithmId + Der(OCTET_STRING, digest));
      Ok(Der(SEQUENCE, version + messageImprint + DerPositiveInteger(nonce) + CERT_REQ_TRUE))
  }

  function AlgorithmFields(): seq<Element> {
    [Element(0x06, SHA256_OID[2..]), Element(0x05, [])]
  }

  function ImprintFields(digest: Bytes): seq<Element> {
    [Element(SEQUENCE, Written(AlgorithmFields())), Element(OCTET_STRING, digest)]
  }

  function RequestFields(digest: Bytes, nonce: Bytes): seq<Element> {
    [Element(INTEGER, [0x01]), Element(SEQUENCE, Written(ImprintFields(digest))),
     Element(INTEGER, Positive(nonce)), Element(0x01, [0xff])]
  }

  lemma TwoWritten(a: Element, b: Element)
    ensures Written([a, b]) == Der(a.tag, a.content) + Der(b.tag, b.content)
  {
    assert [a, b][1..] == [b];
    assert [b][1..] == [];
    assert Written([]) == [];
    hide Der;
    assert Written([b]) == Der(b.tag, b.content) + [];
  }

  lemma FourWritten(a: Element, b: Element, c: Element, d: Element)
    ensures Written([a, b, c, d])
            == Der(a.tag, a.content) + Der(b.tag, b.content) + Der(c.tag, c.content) + Der(d.tag, d.content)
  {
    hide Der;
    TwoWritten(c, d);
    assert [a, b, c, d][1..] == [b, c, d];
    assert [b, c, d][1..] == [c, d];
  }

  lemma FixedFields()
    ensures Written(AlgorithmFields()) == SHA256_OID + DER_NULL
    ensures CERT_REQ_TRUE == Der(0x01, [0xff])
  {
    TwoWritten(AlgorithmFields()[0], AlgorithmFields()[1]);
    assert AlgorithmFields() == [AlgorithmFields()[0], AlgorithmFields()[1]];
    assert SHA256_OID[..2] + SHA256_OID[2..] == SHA256_OID;
    assert Der(0x06, SHA256_OID[2..]) == SHA256_OID[..2] + SHA256_OID[2..];
    assert Der(0x05, []) == DER_NULL;
  }

  lemma RequestIsWritten(digest: Bytes, nonce: Bytes)
    requires |digest| == 32
    ensures BuildTimeStampReq(digest, nonce) == Ok(Der(SEQUENCE, Written(RequestFields(digest, nonce))))
  {
    FixedFields();
    hide Der, SHA256_OID, Positive;
    TwoWritten(ImprintFields(digest)[0], ImprintFields(digest)[1]);
    FourWritten(RequestFields(digest, nonce)[0], RequestFields(digest, nonce)[1],
                RequestFields(digest, nonce)[2], RequestFields(digest, nonce)[3]);
  }

  lemma RequestSizes(digest: Bytes, nonce: Bytes)
    requires |digest| == 32 && |nonce| < LIMIT / 2
    ensures |Written(AlgorithmFields())| == 13 && |Written(ImprintFields(digest))| == 49
    ensures |Written(RequestFields(digest, nonce))| < LIMIT
  {
    FixedFields();
    TwoWritten(ImprintFields(digest)[0], ImprintFields(digest)[1]);
    FourWritten(RequestFields(digest, nonce)[0], RequestFields(digest, nonce)[1],
                RequestFields(digest, nonce)[2], RequestFields(digest, nonce)[3]);
    ShortDigits(|Positive(nonce)|);
  }

  lemma FieldsReadBack(digest: Bytes, nonce: Bytes)
    requires |digest| == 32 && |nonce| < LIMIT / 2
    ensures Elements(Written(RequestFields(digest, nonce)), 0) == Ok(RequestFields(digest, nonce))
    ensures Elements(Written(ImprintFields(digest)), 0) == Ok(ImprintFields(digest))
    ensures Elements(Written(AlgorithmFields()), 0) == Ok(AlgorithmFields())
  {
    hide Der, Written, Positive, Elements, SHA256_OID;
    RequestSizes(digest, nonce);
    NonceSize(nonce);
    OidSize();
    ReadsBackAlone(RequestFields(digest, nonce));
    ReadsBackAlone(ImprintFields(digest));
    ReadsBackAlone(AlgorithmFields());
  }

  lemma OuterReadsBack(e: Element)
    requires |e.content| < LIMIT
    ensures Elements(Der(e.tag, e.content), 0) == Ok([e])
  {
    OneWritten(e);
    ReadsBackAlone([e]);
  }

  /** Reading the request level by level gives back the version, SHA-256, the digest, the nonce as a
      positive integer and certReq TRUE, and nothing else. */
  lemma RequestReadsBack(digest: Bytes, nonce: Bytes)
    requires |digest| == 32 && |nonce| < LIMIT / 2
    ensures var request := BuildTimeStampReq(digest, nonce);
            && request.Ok?
            && Elements(request.value, 0) == Ok([Element(SEQUENCE, Written(RequestFields(digest, nonce)))])
    ensures Elements(Written(RequestFields(digest, nonce)), 0) == Ok(RequestFields(digest, nonce))
    ensures Elements(Written(ImprintFields(digest)), 0) == Ok(ImprintFields(digest))
    ensures Elements(Written(AlgorithmFields()), 0) == Ok(AlgorithmFields())
    ensures IntegerValue(RequestFields(digest, nonce)[2].content) == Value(nonce)
  {
    hide Der, Written, Positive, Elements, BuildTimeStampReq, IntegerValue, Value;
    RequestIsWritten(digest, nonce);
    RequestSizes(digest, nonce);
    PositiveKeepsValue(nonce);
    FieldsReadBack(digest, nonce);
    hide AlgorithmFields, ImprintFields;
    assert RequestFields(digest, nonce)[2].content == Positive(nonce);
    hide RequestFields;
    OuterReadsBack(Element(SEQUENCE, Written(RequestFields(digest, nonce))));
  }

  lemma OidSize()
    ensures |SHA256_OID| == 11
  {
  }

  lemma NonceSize(nonce: Bytes)
    ensures |Positive(nonce)| <= |nonce| + 1
  {
  }

  lemma OneWritten(e: Element)
    ensures Written([e]) == Der(e.tag, e.content)
  {
    assert Written([e][1..]) == [];
  }

  lemma ReadsBackAlone(elements: seq<Element>)
    requires forall i :: 0 <= i < |elements| ==> |elements[i].content| < LIMIT
    ensures Elements(Written(elements), 0) == Ok(elements)
  {
    ElementsReadBack([], elements);
    assert [] + Written(elements) == Written(elements);
  }

  /** Two requests are equal only for the same digest and, at one nonce length, the same nonce. */
  lemma RequestsDiffer(digest: Bytes, nonce: Bytes, digest': Bytes, nonce': Bytes)
    requires |digest| == |digest'| == 32 && |nonce| == |nonce'| < LIMIT / 2
    requires BuildTimeStampReq(digest, nonce) == BuildTimeStampReq(digest', nonce')
    ensures digest == digest' && nonce == nonce'
  {
    hide Der, Written, Positive, Elements, SHA256_OID, BuildTimeStampReq;
    RequestReadsBack(digest, nonce);
    RequestReadsBack(digest', nonce');
    var fields, fields' := RequestFields(digest, nonce), RequestFields(digest', nonce');
    assert [Element(SEQUENCE, Written(fields))][0] == [Element(SEQUENCE, Written(fields'))][0];
    assert fields == fields';
    assert fields[1] == fields'[1] && fields[2] == fields'[2];
    assert ImprintFields(digest)[1] == ImprintFields(digest')[1];
    PositiveInjective(nonce, nonce');
  }

  // ----- The response, section 2.4.2

  /** The first status octet, when there is one, and whether anything follows the status. */
  datatype Parsed = Parsed(status: Option<byte>, hasToken: bool)

  function ParseTimeStampResp(response: Bytes): Result<Parsed> {
    match ReadHeader(response, 0)
    case Err(e) => Err(e)
    case Ok(outer) =>
      if outer.tag != SEQUENCE then Err(ResponseMalformed)
      else
        match ReadHeader(response, outer.contentStart)
        case Err(e) => Err(e)
        case Ok(info) =>
          if info.tag != SEQUENCE then Err(ResponseMalformed)
          else
            match ReadHeader(response, info.contentStart)
            case Err(e) => Err(e)
            case Ok(status) =>
              if status.tag != INTEGER || status.length < 1 then Err(ResponseMalformed)
              else
                Ok(Parsed(if status.contentStart < |response| then Some(response[status.contentStart]) else None,
                          outer.contentStart + outer.length > info.contentStart + info.length))
  }

  function Response(status: Bytes, details: Bytes, token: Bytes): Bytes {
    Der(SEQUENCE, Der(SEQUENCE, Der(INTEGER, status) + details) + token)
  }

  /** An element written somewhere in a buffer. */
  predicate WrittenAt(buf: Bytes, offset: nat, tag: byte, content: Bytes) {
    && offset + |Der(tag, content)| <= |buf|
    && buf[offset..offset + |Der(tag, content)|] == Der(tag, content)
  }

  lemma WrittenIsRecovered(buf: Bytes, offset: nat, tag: byte, content: Bytes)
    requires |content| < LIMIT && WrittenAt(buf, offset, tag, content)
    ensures Recovered(buf, offset, tag, content)
  {
    hide Recovered, BigEndian;
    var end := offset + |Der(tag, content)|;
    ShortDigits(|content|);
    assert buf == buf[..offset] + Der(tag, content) + buf[end..];
    ReadsBackIff(buf[..offset], tag, content, buf[end..]);
  }

  /** An element that opens the content of another. */
  lemma WrittenInside(buf: Bytes, offset: nat, tag: byte, content: Bytes, innerTag: byte, inner: Bytes)
    requires Recovered(buf, offset, tag, content) && WrittenAt(content, 0, innerTag, inner)
    ensures WrittenAt(buf, offset + 1 + |DerLength(|content|)|, innerTag, inner)
  {
    hide Der, DerLength, ReadHeader;
    var start, size := offset + 1 + |DerLength(|content|)|, |Der(innerTag, inner)|;
    assert buf[start..start + size] == buf[start..start + |content|][..size];
  }

  lemma WrittenFirst(tag: byte, content: Bytes, rest: Bytes)
    ensures WrittenAt(Der(tag, content) + rest, 0, tag, content)
  {
    hide Der;
    assert (Der(tag, content) + rest)[0..|Der(tag, content)|] == Der(tag, content);
  }

  /** The three nested headers of a response, and what its parsing makes of them. */
  lemma HeadersGiveResponse(buf: Bytes, status: Bytes, info: Bytes, body: Bytes)
    requires |status| > 0 && Recovered(buf, 0, SEQUENCE, body)
    requires var at := 1 + |DerLength(|body|)|; Recovered(buf, at, SEQUENCE, info)
    requires var at := 2 + |DerLength(|body|)| + |DerLength(|info|)|; Recovered(buf, at, INTEGER, status)
    ensures ParseTimeStampResp(buf)
            == Ok(Parsed(Some(status[0]), |body| > 1 + |DerLength(|info|)| + |info|))
  {
    hide ReadHeader, DerLength;
    var at := ReadHeader(buf, 2 + |DerLength(|body|)| + |DerLength(|info|)|).value.contentStart;
    assert buf[at] == buf[at..at + |status|][0];
  }

  /** A well-formed response is read as written: its status, and a token exactly when there is one. */
  lemma ResponseReadsBack(status: Bytes, details: Bytes, token: Bytes, trailing: Bytes)
    requires |status| > 0 && |Der(SEQUENCE, Der(INTEGER, status) + details) + token| < LIMIT
    ensures ParseTimeStampResp(Response(status, details, token) + trailing)
            == Ok(Parsed(Some(status[0]), |token| > 0))
  {
    var info := Der(INTEGER, status) + details;
    var body := Der(SEQUENCE, info) + token;
    var buf := Response(status, details, token) + trailing;
    SizeOfDer(INTEGER, status);
    SizeOfDer(SEQUENCE, info);
    WrittenFirst(INTEGER, status, details);
    WrittenFirst(SEQUENCE, info, token);
    WrittenFirst(SEQUENCE, body, trailing);
    ResponseHeaders(buf, status, info, body);
  }

  lemma ResponseHeaders(buf: Bytes, status: Bytes, info: Bytes, body: Bytes)
    requires 0 < |status| < LIMIT && |info| < LIMIT && |body| < LIMIT
    requires WrittenAt(buf, 0, SEQUENCE, body) && WrittenAt(body, 0, SEQUENCE, info)
             && WrittenAt(info, 0, INTEGER, status)
    ensures ParseTimeStampResp(buf)
            == Ok(Parsed(Some(status[0]), |body| > 1 + |DerLength(|info|)| + |info|))
  {
    hide Der, DerLength, ReadHeader, Recovered, WrittenAt, ParseTimeStampResp;
    WrittenIsRecovered(buf, 0, SEQUENCE, body);
    WrittenInside(buf, 0, SEQUENCE, body, SEQUENCE, info);
    var at := 1 + |DerLength(|body|)|;
    WrittenIsRecovered(buf, at, SEQUENCE, info);
    WrittenInside(buf, at, SEQUENCE, info, INTEGER, status);
    WrittenIsRecovered(buf, at + 1 + |DerLength(|info|)|, INTEGER, status);
    HeadersGiveResponse(buf, status, info, body);
  }

  predicate OccursAt(buf: Bytes, part: Bytes, i: nat) {
    i + |part| <= |buf| && buf[i..i + |part|] == part
  }

  predicate Includes(buf: Bytes, part: Bytes) {
    exists i :: 0 <= i <= |buf| && OccursAt(buf, part, i)
  }

  function ValidateResponse(response: Bytes, digest: Bytes, nonce: Bytes): Result<()> {
    match ParseTimeStampResp(response)
    case Err(e) => Err(e)
    case Ok(p) =>
      if p.status != Some(0) && p.status != Some(1) then Err(StatusRejected)
      else if !p.hasToken then Err(TokenMissing)
      else if !Includes(response, digest) then Err(ImprintMismatch)
      else if !Includes(response, Positive(nonce)) then Err(NonceMismatch)
      else Ok(())
  }

  /** Some bytes stand somewhere in a buffer. */
  ghost predicate Stands(buf: Bytes, part: Bytes) {
    exists before: Bytes, after: Bytes :: buf == before + part + after
  }

  /** The nonce as an unsigned INTEGER carries it. */
  ghost function Unsigned(nonce: Bytes): Bytes {
    if nonce != [] && nonce[0] as int / 128 == 1 then [0] + nonce else nonce
  }

  /** The headers of the response, of its status info and of its status number. */
  ghost predicate ThreeHeaders(buf: Bytes, outer: Header, info: Header, status: Header) {
    && ReadHeader(buf, 0) == Ok(outer) && outer.tag == 0x30
    && ReadHeader(buf, outer.contentStart) == Ok(info) && info.tag == 0x30
    && ReadHeader(buf, info.contentStart) == Ok(status) && status.tag == 0x02 && status.length >= 1
  }

  lemma StandsIsIncludes(buf: Bytes, part: Bytes)
    ensures Stands(buf, part) <==> Includes(buf, part)
  {
    if Includes(buf, part) {
      var i :| 0 <= i <= |buf| && OccursAt(buf, part, i);
      assert buf == buf[..i] + part + buf[i + |part|..];
    }
    if Stands(buf, part) {
      var before: Bytes, after: Bytes :| buf == before + part + after;
      assert OccursAt(buf, part, |before|);
    }
  }

  /** Any response at all is accepted exactly when its three headers parse, its status octet is 0 or 1,
      something follows the status info, and both the digest and the nonce of the request stand
      somewhere in it. */
  lemma AcceptedIff(response: Bytes, digest: Bytes, nonce: Bytes)
    ensures ValidateResponse(response, digest, nonce).Ok?
            <==> && (exists outer, info, status :: ThreeHeaders(response, outer, info, status)
                       && status.contentStart < |response| && response[status.contentStart] <= 1
                       && outer.contentStart + outer.length > info.contentStart + info.length)
                 && Stands(response, digest) && Stands(response, Unsigned(nonce))
  {
    StandsIsIncludes(response, digest);
    StandsIsIncludes(response, Unsigned(nonce));
    assert Unsigned(nonce) == Positive(nonce);
    hide Includes, Stands, Positive, Unsigned, ReadHeader;
    if ValidateResponse(response, digest, nonce).Ok? {
      var outer := ReadHeader(response, 0).value;
      var info := ReadHeader(response, outer.contentStart).value;
      assert ThreeHeaders(response, outer, info, ReadHeader(response, info.contentStart).value);
    }
  }

  /** Otherwise the first condition that fails, in this order, gives the error. */
  lemma RefusedBecause(response: Bytes, digest: Bytes, nonce: Bytes)
    ensures var verdict := ValidateResponse(response, digest, nonce);
            && ((forall outer, info, status :: !ThreeHeaders(response, outer, info, status)) <==>
                  verdict.Err? && (verdict.error == ResponseTruncated || verdict.error == ResponseMalformed))
            && forall outer, info, status :: ThreeHeaders(response, outer, info, status) ==>
                 verdict == if status.contentStart >= |response| || response[status.contentStart] > 1
                            then Err(StatusRejected)
                            else if outer.contentStart + outer.length <= info.contentStart + info.length
                            then Err(TokenMissing)
                            else if !Stands(response, digest) then Err(ImprintMismatch)
                            else if !Stands(response, Unsigned(nonce)) then Err(NonceMismatch)
                            else Ok(())
  {
    StandsIsIncludes(response, digest);
    StandsIsIncludes(response, Unsigned(nonce));
    assert Unsigned(nonce) == Positive(nonce);
    ReadingFails(response);
    hide Includes, Stands, Positive, Unsigned, ReadHeader;
    var parsed := ParseTimeStampResp(response);
    if parsed.Ok? {
      var outer := ReadHeader(response, 0).value;
      var info := ReadHeader(response, outer.contentStart).value;
      assert ThreeHeaders(response, outer, info, ReadHeader(response, info.contentStart).value);
    }
  }

  lemma ReadingFails(buf: Bytes)
    ensures forall offset: nat :: ReadHeader(buf, offset).Err? ==>
              ReadHeader(buf, offset).error == ResponseTruncated || ReadHeader(buf, offset).error == ResponseMalformed
  {
  }

  /** A granted response whose token carries the imprint and the nonce of the request is accepted. */
  lemma EchoIsAccepted(status: byte, details: Bytes, token: Bytes, digest: Bytes, nonce: Bytes)
    requires status == 0 || status == 1
    requires |Der(SEQUENCE, Der(INTEGER, [status]) + details) + token| < LIMIT
    requires |token| > 0 && Includes(token, digest) && Includes(token, DerPositiveInteger(nonce))
    ensures ValidateResponse(Response([status], details, token), digest, nonce) == Ok(())
  {
    var response := Response([status], details, token);
    assert ParseTimeStampResp(response) == Ok(Parsed(Some(status), true)) by {
      ResponseReadsBack([status], details, token, []);
      assert response + [] == response;
    }
    hide ParseTimeStampResp, Response, Includes;
    ResponseIncludesToken([status], details, token);
    IncludesTransitive(response, token, digest);
    IntegerIncludesContent(nonce);
    IncludesTransitive(response, token, DerPositiveInteger(nonce));
    IncludesTransitive(response, DerPositiveInteger(nonce), Positive(nonce));
  }

  lemma IncludesTransitive(a: Bytes, b: Bytes, c: Bytes)
    requires Includes(a, b) && Includes(b, c)
    ensures Includes(a, c)
  {
    var i :| 0 <= i <= |a| && OccursAt(a, b, i);
    var j :| 0 <= j <= |b| && OccursAt(b, c, j);
    forall k | 0 <= k < |c| ensures a[i + j + k] == c[k] {
      assert a[i..i + |b|][j + k] == b[j + k] && b[j..j + |c|][k] == c[k];
    }
    assert OccursAt(a, c, i + j);
  }

  lemma ResponseIncludesToken(status: Bytes, details: Bytes, token: Bytes)
    ensures Includes(Response(status, details, token), token)
  {
    hide DerLength;
    var body := Der(SEQUENCE, Der(INTEGER, status) + details) + token;
    var r := Response(status, details, token);
    assert r == [SEQUENCE] + DerLength(|body|) + body;
    assert r[|r| - |token|..|r|] == token;
    assert OccursAt(r, token, |r| - |token|);
  }

  lemma IntegerIncludesContent(nonce: Bytes)
    ensures Includes(DerPositiveInteger(nonce), Positive(nonce))
  {
    hide Positive, DerLength;
    var r := DerPositiveInteger(nonce);
    assert r[|r| - |Positive(nonce)|..|r|] == Positive(nonce);
    assert OccursAt(r, Positive(nonce), |r| - |Positive(nonce)|);
  }

  // ----- Failover

  datatype Reply = NoReply | Body(bytes: Bytes)

  datatype Stamped =
    | Stamp(provider: nat, response: Bytes)
    | AllFailed(attempts: seq<Error>)

  function Verdict(reply: Reply, digest: Bytes, nonce: Bytes): Result<()> {
    match reply
    case NoReply => Err(HttpFailure)
    case Body(bytes) => ValidateResponse(bytes, digest, nonce)
  }

  /** One reply per provider, in the order of the chain: the first validated token wins, and the
      failure lists every provider's error. */
  method RequestTimestamp(replies: seq<Reply>, digest: Bytes, nonce: Bytes) returns (r: Stamped)
    requires |digest| == 32
    ensures r.Stamp? <==> exists i :: 0 <= i < |replies| && Verdict(replies[i], digest, nonce).Ok?
    ensures r.Stamp? ==>
              && r.provider < |replies| && replies[r.provider] == Body(r.response)
              && ValidateResponse(r.response, digest, nonce).Ok?
              && forall j :: 0 <= j < r.provider ==> Verdict(replies[j], digest, nonce).Err?
    ensures r.AllFailed? && |replies| == 0 ==> r.attempts == [NoProviders]
    ensures r.AllFailed? && |replies| > 0 ==>
              && |r.attempts| == |replies|
              && forall j :: 0 <= j < |replies| ==> Verdict(replies[j], digest, nonce) == Err(r.attempts[j])
  {
    if |replies| == 0 { return AllFailed([NoProviders]); }
    var attempts: seq<Error> := [];
    for i := 0 to |replies|
      invariant |attempts| == i
      invariant forall j :: 0 <= j < i ==> Verdict(replies[j], digest, nonce) == Err(attempts[j])
    {
      match replies[i]
      case NoReply => attempts := attempts + [HttpFailure];
      case Body(bytes) =>
        var verdict := ValidateResponse(bytes, digest, nonce);
        if verdict.Ok? { return Stamp(i, bytes); }
        attempts := attempts + [verdict.error];
    }
    return AllFailed(attempts);
  }
}
