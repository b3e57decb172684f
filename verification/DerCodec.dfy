/** The subset of the Distinguished Encoding Rules that the timestamp client writes and reads:
    X.690 sections 8.1.3 (length octets), 8.3 (integers) and 10.1 (minimal definite lengths). */
module DerCodec {
  newtype byte = x: int | 0 <= x < 256

  type Bytes = seq<byte>

  datatype Result<+T> = Ok(value: T) | Err(error: Error)

  datatype Error =
    | ResponseTruncated | ResponseMalformed | DigestMustBeSha256
    | NoProviders | HttpFailure | StatusRejected | TokenMissing | ImprintMismatch | NonceMismatch

  // ----- Unsigned big-endian numbers

  /** The digits of n in base 256, without leading zeros. */
  function BigEndian(n: nat): Bytes {
    if n == 0 then [] else BigEndian(n / 256) + [(n % 256) as byte]
  }

  function Value(bytes: Bytes): nat {
    if |bytes| == 0 then 0 else Value(bytes[..|bytes| - 1]) * 256 + bytes[|bytes| - 1] as int
  }

  function Power(k: nat): nat {
    if k == 0 then 1 else 256 * Power(k - 1)
  }

  lemma {:induction false} ValueOfBigEndian(n: nat)
    ensures Value(BigEndian(n)) == n
    ensures n > 0 ==> |BigEndian(n)| > 0 && BigEndian(n)[0] != 0
  {
    if n > 0 {
      ValueOfBigEndian(n / 256);
      assert BigEndian(n)[..|BigEndian(n)| - 1] == BigEndian(n / 256);
    }
  }

  /** Exactly the numbers below 256^k have at most k digits. */
  lemma {:induction false} DigitsIff(n: nat, k: nat)
    ensures |BigEndian(n)| <= k <==> n < Power(k)
  {
    if n > 0 && k > 0 {
      DigitsIff(n / 256, k - 1);
    } else if k > 0 {
      PowerPositive(k);
    }
  }

  lemma {:induction false} PowerPositive(k: nat)
    ensures Power(k) > 0
  {
    if k > 0 {
      PowerPositive(k - 1);
    }
  }

  lemma LastDigit(n: nat, last: byte)
    ensures (n * 256 + last as int) / 256 == n && (n * 256 + last as int) % 256 == last as int
  {
  }

  /** No string of that value is shorter, and the only one as short is this one. */
  lemma {:induction false} BigEndianIsShortest(bytes: Bytes)
    ensures |bytes| >= |BigEndian(Value(bytes))|
    ensures |bytes| == |BigEndian(Value(bytes))| ==> bytes == BigEndian(Value(bytes))
  {
    if |bytes| > 0 {
      var shorter, last := bytes[..|bytes| - 1], bytes[|bytes| - 1];
      BigEndianIsShortest(shorter);
      if Value(bytes) > 0 {
        var n := Value(bytes);
        LastDigit(Value(shorter), last);
        assert BigEndian(n) == BigEndian(n / 256) + [last];
        hide BigEndian, Value;
        assert bytes == shorter + [last];
      }
    }
  }

  // ----- Writing

  function DerLength(len: nat): Bytes {
    if len < 0x80 then [len as byte]
    else [(0x80 + |BigEndian(len)| % 0x80) as byte] + BigEndian(len)
  }

  method WriteDerLength(len: nat) returns (r: Bytes)
    ensures r == DerLength(len)
  {
    if len < 0x80 { return [len as byte]; }
    var bytes: Bytes := [];
    var n := len;
    while n > 0
      invariant BigEndian(n) + bytes == BigEndian(len)
    {
      assert BigEndian(n) == BigEndian(n / 256) + [(n % 256) as byte];
      bytes := [(n % 256) as byte] + bytes;
      n := n / 256;
    }
    return [(0x80 + |bytes| % 0x80) as byte] + bytes;
  }

  function Der(tag: byte, content: Bytes): Bytes {
    [tag] + DerLength(|content|) + content
  }

  /** A zero byte in front of a set sign bit keeps the integer positive. */
  function Positive(bytes: Bytes): Bytes {
    if |bytes| > 0 && bytes[0] >= 0x80 then [0] + bytes else bytes
  }

  function DerPositiveInteger(bytes: Bytes): Bytes {
    Der(0x02, Positive(bytes))
  }

  // ----- Reading

  datatype Header = Header(tag: byte, length: nat, contentStart: nat)

  function ReadHeader(buf: Bytes, offset: nat): Result<Header> {
    if offset + 2 > |buf| then Err(ResponseTruncated)
    else
      var first := buf[offset + 1] as int;
      if first < 0x80 then Ok(Header(buf[offset], first, offset + 2))
      else
        var numBytes := first - 0x80;
        if numBytes == 0 || numBytes > 4 || offset + 2 + numBytes > |buf| then Err(ResponseMalformed)
        else
          Ok(Header(buf[offset], Value(buf[offset + 2..offset + 2 + numBytes]), offset + 2 + numBytes))
  }

  method ReadDerHeader(buf: Bytes, offset: nat) returns (r: Result<Header>)
    ensures r == ReadHeader(buf, offset)
  {
    if offset + 2 > |buf| { return Err(ResponseTruncated); }
    var tag := buf[offset];
    var first := buf[offset + 1] as int;
    if first < 0x80 { return Ok(Header(tag, first, offset + 2)); }
    var numBytes := first - 0x80;
    if numBytes == 0 || numBytes > 4 || offset + 2 + numBytes > |buf| { return Err(ResponseMalformed); }
    var length := 0;
    for i := 0 to numBytes
      invariant length == Value(buf[offset + 2..offset + 2 + i])
    {
      var digits := buf[offset + 2..offset + 2 + i + 1];
      assert digits[..i] == buf[offset + 2..offset + 2 + i];
      length := length * 256 + buf[offset + 2 + i] as int;
    }
    return Ok(Header(tag, length, offset + 2 + numBytes));
  }

  // ----- Round trip

  const LIMIT: nat := 0x1_0000_0000

  lemma PowerOf4()
    ensures Power(4) == LIMIT
  {
    assert Power(1) == 256 && Power(2) == 65536;
  }

  ghost predicate Recovered(buf: Bytes, offset: nat, tag: byte, content: Bytes) {
    var r := ReadHeader(buf, offset);
    && r.Ok? && r.value.tag == tag && r.value.length == |content|
    && r.value.contentStart == offset + 1 + |DerLength(|content|)|
    && r.value.contentStart + |content| <= |buf|
    && buf[r.value.contentStart..r.value.contentStart + |content|] == content
  }

  lemma AfterPrefix(before: Bytes, part: Bytes, after: Bytes)
    ensures (before + part + after)[|before|..|before| + |part|] == part
  {
  }

  /** Where the octets of Der land in the buffer. */
  lemma Layout(before: Bytes, tag: byte, content: Bytes, after: Bytes)
    ensures var buf, head := before + Der(tag, content) + after, DerLength(|content|);
            var start := |before| + 1 + |head|;
            && start + |content| <= |buf| && buf[|before|] == tag
            && buf[|before| + 1..start] == head && buf[start..start + |content|] == content
  {
    var buf, head := before + Der(tag, content) + after, DerLength(|content|);
    assert buf == (before + [tag]) + head + (content + after);
    AfterPrefix(before + [tag], head, content + after);
    assert buf == (before + [tag] + head) + content + after;
    AfterPrefix(before + [tag] + head, content, after);
    assert buf[|before|] == tag;
  }

  lemma ShortDigits(len: nat)
    ensures |BigEndian(len)| <= 4 <==> len < LIMIT
  {
    DigitsIff(len, 4);
    PowerOf4();
  }

  /** Wherever it stands in a buffer, what Der wrote is read back: tag, length and content, for
      every content shorter than 2^32 bytes; longer ones, up to the 127 length octets there can be,
      are reported malformed. */
  lemma ReadsBackIff(before: Bytes, tag: byte, content: Bytes, after: Bytes)
    requires |BigEndian(|content|)| < 0x80
    ensures var buf := before + Der(tag, content) + after;
            if |content| < LIMIT then Recovered(buf, |before|, tag, content)
            else ReadHeader(buf, |before|) == Err(ResponseMalformed)
  {
    var buf := before + Der(tag, content) + after;
    var len, at := |content|, |before| + 1;
    Layout(before, tag, content, after);
    ShortDigits(len);
    ValueOfBigEndian(len);
    hide Der, BigEndian, Value;
    var head := DerLength(len);
    assert buf[at] == head[0] by { assert buf[at] == buf[at..at + |head|][0]; }
    if len >= 0x80 {
      assert head[1..] == BigEndian(len);
      assert buf[at + 1..at + |head|] == buf[at..at + |head|][1..];
    }
  }

  /** The length octets are the shortest that the reader accepts for that length, and any others as
      short are the same octets. */
  lemma LengthIsMinimal(tag: byte, octets: Bytes, rest: Bytes)
    requires var r := ReadHeader([tag] + octets + rest, 0); r.Ok? && r.value.contentStart == 1 + |octets|
    ensures var len := ReadHeader([tag] + octets + rest, 0).value.length;
            |DerLength(len)| <= |octets| && (|DerLength(len)| == |octets| ==> octets == DerLength(len))
  {
    var buf := [tag] + octets + rest;
    var len := ReadHeader(buf, 0).value.length;
    assert buf[1] == octets[0];
    if octets[0] >= 0x80 {
      var digits := octets[1..];
      assert buf[2..1 + |octets|] == digits;
      BigEndianIsShortest(digits);
      if len >= 0x80 {
        DigitsIff(len, 4);
      }
    }
  }

  // ----- Integers

  /** The value of the content octets of an INTEGER: two's complement (section 8.3.3). */
  function IntegerValue(bytes: Bytes): int {
    if |bytes| > 0 && bytes[0] >= 0x80 then Value(bytes) - Power(|bytes|) else Value(bytes)
  }

  lemma {:induction false} LeadingZero(bytes: Bytes)
    ensures Value([0] + bytes) == Value(bytes)
  {
    if |bytes| > 0 {
      LeadingZero(bytes[..|bytes| - 1]);
      assert ([0] + bytes)[..|bytes|] == [0] + bytes[..|bytes| - 1];
    }
  }

  /** The integer written is the unsigned value of the bytes. */
  lemma PositiveKeepsValue(bytes: Bytes)
    ensures IntegerValue(Positive(bytes)) == Value(bytes)
  {
    LeadingZero(bytes);
  }

  /** Section 8.3.2: at least one octet, and the first nine bits neither all 0 nor all 1. */
  predicate MinimalInteger(bytes: Bytes) {
    && |bytes| > 0
    && (|bytes| > 1 ==> !(bytes[0] == 0 && bytes[1] < 0x80) && !(bytes[0] == 0xff && bytes[1] >= 0x80))
  }

  /** Leading zero bytes are not stripped, so the integer is minimal exactly when the input has no
      redundant one. */
  lemma PositiveIsMinimalIff(bytes: Bytes)
    ensures MinimalInteger(Positive(bytes)) <==> |bytes| > 0 && !(|bytes| > 1 && bytes[0] == 0 && bytes[1] < 0x80)
  {
  }

  lemma PositiveInjective(a: Bytes, b: Bytes)
    requires |a| == |b| && Positive(a) == Positive(b)
    ensures a == b
  {
    if |a| > 0 && a[0] >= 0x80 {
      assert a == ([0] + a)[1..] && b == ([0] + b)[1..];
    }
  }

  // ----- Sequences of elements

  datatype Element = Element(tag: byte, content: Bytes)

  function Written(elements: seq<Element>): Bytes {
    if |elements| == 0 then [] else Der(elements[0].tag, elements[0].content) + Written(elements[1..])
  }

  /** The elements a buffer consists of, read header by header. */
  function Elements(buf: Bytes, offset: nat): Result<seq<Element>>
    decreases |buf| - offset
  {
    if offset >= |buf| then Ok([])
    else
      match ReadHeader(buf, offset)
      case Err(e) => Err(e)
      case Ok(h) =>
        if h.contentStart + h.length > |buf| then Err(ResponseTruncated)
        else
          match Elements(buf, h.contentStart + h.length)
          case Err(e) => Err(e)
          case Ok(rest) => Ok([Element(h.tag, buf[h.contentStart..h.contentStart + h.length])] + rest)
  }

  lemma SizeOfDer(tag: byte, content: Bytes)
    ensures |Der(tag, content)| == 1 + |DerLength(|content|)| + |content|
  {
  }

  /** Reading what was written gives the elements back, one level at a time. */
  lemma {:induction false} ElementsReadBack(before: Bytes, elements: seq<Element>)
    requires forall i :: 0 <= i < |elements| ==> |elements[i].content| < LIMIT
    ensures Elements(before + Written(elements), |before|) == Ok(elements)
    decreases |elements|
  {
    hide Der, BigEndian, DerLength, ReadHeader;
    var buf := before + Written(elements);
    if |elements| > 0 {
      var e := elements[0];
      var first, rest := Der(e.tag, e.content), Written(elements[1..]);
      assert buf == before + first + rest;
      ShortDigits(|e.content|);
      assert |first| == 1 + |DerLength(|e.content|)| + |e.content| by { SizeOfDer(e.tag, e.content); }
      ReadsBackIff(before, e.tag, e.content, rest);
      ElementsReadBack(before + first, elements[1..]);
      assert elements == [e] + elements[1..];
    }
  }
}
