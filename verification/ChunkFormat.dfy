/** The on-disk chunk format (src/chunk/chunk_format.cpp): a printer and a parser for a header
    followed by the payload. The checksum is an arbitrary function `hash`, so every result here
    holds whatever the hash is. */
module ChunkFormat {
  import opened Bytes

  const CHUNK_MAGIC: nat := 0x4445534B

  datatype Header = Header(
    chunkId: Bytes,
    objectId: Bytes,
    version: nat,
    size: nat,
    checksum: Bytes,
    createdAt: nat)

  type Hash = Bytes -> Bytes

  /** Field widths: 32-bit version and string lengths, 64-bit size and timestamp. */
  predicate FieldsFit(h: Header) {
    && |h.chunkId| < U32_LIMIT
    && |h.objectId| < U32_LIMIT
    && h.version < U32_LIMIT
    && h.size < U64_LIMIT
    && |h.checksum| < U32_LIMIT
    && h.createdAt < U64_LIMIT
  }

  /** The ranges of the integer fields. */
  predicate IntsFit(h: Header) {
    h.version < U32_LIMIT && h.size < U64_LIMIT && h.createdAt < U64_LIMIT
  }

  /** A header that describes its payload. */
  predicate WellFormed(hash: Hash, h: Header, payload: Bytes) {
    && FieldsFit(h)
    && h.size == |payload|
    && h.checksum == hash(payload)
  }

  // ---- Printer: specification ----

  function EncodeString(s: Bytes): Bytes {
    BigEndian(|s| % U32_LIMIT, 4) + s
  }

  function EncodeIds(version: nat, chunkId: Bytes, objectId: Bytes): Bytes {
    BigEndian(version, 4) + (EncodeString(chunkId) + EncodeString(objectId))
  }

  function EncodeTail(size: nat, checksum: Bytes, createdAt: nat): Bytes {
    BigEndian(size, 8) + (EncodeString(checksum) + BigEndian(createdAt, 8))
  }

  function EncodeHeader(h: Header): Bytes {
    BigEndian(CHUNK_MAGIC, 4) +
    (EncodeIds(h.version, h.chunkId, h.objectId) + EncodeTail(h.size, h.checksum, h.createdAt))
  }

  function Serialize(h: Header, payload: Bytes): Bytes {
    EncodeHeader(h) + payload
  }

  function HeaderSize(h: Header): nat {
    4 + 4 + 4 + |h.chunkId| + 4 + |h.objectId| + 8 + 4 + |h.checksum| + 8
  }

  // ---- Parser: specification, on the unread rest of the buffer ----

  /** A value and the unread rest. */
  datatype Parsed<T> = Underflow | Got(value: T, rest: Bytes)

  function ParseNat(n: nat, buf: Bytes): Parsed<nat> {
    if |buf| < n then Underflow else Got(Value(buf[..n]), buf[n..])
  }

  function ParseString(buf: Bytes): Parsed<Bytes> {
    match ParseNat(4, buf)
    case Underflow => Underflow
    case Got(len, rest) => if |rest| < len then Underflow else Got(rest[..len], rest[len..])
  }

  /** Version, chunk id and object id. */
  function ParseIds(buf: Bytes): Parsed<(nat, Bytes, Bytes)> {
    match ParseNat(4, buf)
    case Underflow => Underflow
    case Got(version, r1) =>
      match ParseString(r1)
      case Underflow => Underflow
      case Got(chunkId, r2) =>
        match ParseString(r2)
        case Underflow => Underflow
        case Got(objectId, r3) => Got((version, chunkId, objectId), r3)
  }

  /** Payload size, checksum and creation time. */
  function ParseTail(buf: Bytes): Parsed<(nat, Bytes, nat)> {
    match ParseNat(8, buf)
    case Underflow => Underflow
    case Got(size, r1) =>
      match ParseString(r1)
      case Underflow => Underflow
      case Got(checksum, r2) =>
        match ParseNat(8, r2)
        case Underflow => Underflow
        case Got(createdAt, r3) => Got((size, checksum, createdAt), r3)
  }

  /** All the fields after the magic number. */
  function ParseFields(buf: Bytes): Parsed<Header> {
    match ParseIds(buf)
    case Underflow => Underflow
    case Got(ids, r1) =>
      match ParseTail(r1)
      case Underflow => Underflow
      case Got(tail, r2) => Got(Header(ids.1, ids.2, ids.0, tail.0, tail.1, tail.2), r2)
  }

  function Deserialize(hash: Hash, data: Bytes): Option<(Header, Bytes)> {
    match ParseNat(4, data)
    case Underflow => None
    case Got(magic, rest) =>
      if magic != CHUNK_MAGIC then None else
      match ParseFields(rest)
      case Underflow => None
      case Got(h, payload) =>
        if |payload| != h.size || hash(payload) != h.checksum then None else Some((h, payload))
  }

  // ---- Printing then parsing ----

  lemma ParseNatOfPrinted(v: nat, n: nat, rest: Bytes)
    requires v < Pow256(n)
    ensures ParseNat(n, BigEndian(v, n) + rest) == Got(v, rest)
  {
    ValueOfBigEndian(v, n);
    assert (BigEndian(v, n) + rest)[..n] == BigEndian(v, n);
    assert (BigEndian(v, n) + rest)[n..] == rest;
  }

  lemma ParseStringOfPrinted(s: Bytes, rest: Bytes)
    requires |s| < U32_LIMIT
    ensures ParseString(EncodeString(s) + rest) == Got(s, rest)
  {
    hide BigEndian, Value, Pow256, ParseNat;
    Pow256Values();
    assert EncodeString(s) + rest == BigEndian(|s|, 4) + (s + rest);
    ParseNatOfPrinted(|s|, 4, s + rest);
    assert (s + rest)[..|s|] == s;
    assert (s + rest)[|s|..] == rest;
  }

  lemma Assoc3(a: Bytes, b: Bytes, c: Bytes, rest: Bytes)
    ensures (a + (b + c)) + rest == a + (b + (c + rest))
  {
  }

  lemma ParseIdsOfPrinted(version: nat, chunkId: Bytes, objectId: Bytes, rest: Bytes)
    requires version < U32_LIMIT && |chunkId| < U32_LIMIT && |objectId| < U32_LIMIT
    ensures ParseIds(EncodeIds(version, chunkId, objectId) + rest) ==
            Got((version, chunkId, objectId), rest)
  {
    hide BigEndian, Value, Pow256, ParseNat, ParseString, EncodeString;
    Pow256Values();
    Assoc3(BigEndian(version, 4), EncodeString(chunkId), EncodeString(objectId), rest);
    ParseNatOfPrinted(version, 4, EncodeString(chunkId) + (EncodeString(objectId) + rest));
    ParseStringOfPrinted(chunkId, EncodeString(objectId) + rest);
    ParseStringOfPrinted(objectId, rest);
  }

  lemma ParseTailOfPrinted(size: nat, checksum: Bytes, createdAt: nat, rest: Bytes)
    requires size < U64_LIMIT && |checksum| < U32_LIMIT && createdAt < U64_LIMIT
    ensures ParseTail(EncodeTail(size, checksum, createdAt) + rest) ==
            Got((size, checksum, createdAt), rest)
  {
    hide BigEndian, Value, Pow256, ParseNat, ParseString, EncodeString;
    Pow256Values();
    Assoc3(BigEndian(size, 8), EncodeString(checksum), BigEndian(createdAt, 8), rest);
    ParseNatOfPrinted(size, 8, EncodeString(checksum) + (BigEndian(createdAt, 8) + rest));
    ParseStringOfPrinted(checksum, BigEndian(createdAt, 8) + rest);
    ParseNatOfPrinted(createdAt, 8, rest);
  }

  /** Whatever follows a printed header, the parser finds that header and stops there. */
  lemma ParseOfPrintedHeader(h: Header, rest: Bytes)
    requires FieldsFit(h)
    ensures ParseNat(4, EncodeHeader(h) + rest).Got?
    ensures ParseNat(4, EncodeHeader(h) + rest).value == CHUNK_MAGIC
    ensures ParseFields(ParseNat(4, EncodeHeader(h) + rest).rest) == Got(h, rest)
  {
    Pow256Values();
    var ids := EncodeIds(h.version, h.chunkId, h.objectId);
    var tail := EncodeTail(h.size, h.checksum, h.createdAt);
    Assoc3(BigEndian(CHUNK_MAGIC, 4), ids, tail, rest);
    ParseNatOfPrinted(CHUNK_MAGIC, 4, ids + (tail + rest));
    ParseIdsOfPrinted(h.version, h.chunkId, h.objectId, tail + rest);
    ParseTailOfPrinted(h.size, h.checksum, h.createdAt, rest);
  }

  // ---- Parsing then printing ----

  lemma PrintOfParsedNat(n: nat, buf: Bytes)
    ensures var p := ParseNat(n, buf);
            p.Got? ==> p.value < Pow256(n) && BigEndian(p.value, n) + p.rest == buf
  {
    if |buf| >= n {
      ValueBound(buf[..n]);
      BigEndianOfValue(buf[..n]);
    }
  }

  lemma PrintOfParsedString(buf: Bytes)
    ensures var p := ParseString(buf);
            p.Got? ==> |p.value| < U32_LIMIT && EncodeString(p.value) + p.rest == buf
  {
    hide ParseNat, BigEndian, Pow256;
    Pow256Values();
    PrintOfParsedNat(4, buf);
    var p := ParseString(buf);
    if p.Got? {
      Rejoin(BigEndian(|p.value|, 4), ParseNat(4, buf).rest, |p.value|);
    }
  }

  lemma Rejoin(a: Bytes, tail: Bytes, n: nat)
    requires n <= |tail|
    ensures (a + tail[..n]) + tail[n..] == a + tail
  {
  }

  lemma PrintOfParsedIds(buf: Bytes)
    ensures var p := ParseIds(buf);
            p.Got? ==> p.value.0 < U32_LIMIT && |p.value.1| < U32_LIMIT && |p.value.2| < U32_LIMIT &&
                       EncodeIds(p.value.0, p.value.1, p.value.2) + p.rest == buf
  {
    var p := ParseIds(buf);
    if p.Got? {
      Pow256Values();
      var p1 := ParseNat(4, buf);
      var p2 := ParseString(p1.rest);
      PrintOfParsedNat(4, buf);
      PrintOfParsedString(p1.rest);
      PrintOfParsedString(p2.rest);
      Assoc3(BigEndian(p.value.0, 4), EncodeString(p.value.1), EncodeString(p.value.2), p.rest);
    }
  }

  lemma PrintOfParsedTail(buf: Bytes)
    ensures var p := ParseTail(buf);
            p.Got? ==> p.value.0 < U64_LIMIT && |p.value.1| < U32_LIMIT && p.value.2 < U64_LIMIT &&
                       EncodeTail(p.value.0, p.value.1, p.value.2) + p.rest == buf
  {
    var p := ParseTail(buf);
    if p.Got? {
      Pow256Values();
      var p1 := ParseNat(8, buf);
      var p2 := ParseString(p1.rest);
      PrintOfParsedNat(8, buf);
      PrintOfParsedString(p1.rest);
      PrintOfParsedNat(8, p2.rest);
      Assoc3(BigEndian(p.value.0, 8), EncodeString(p.value.1), BigEndian(p.value.2, 8), p.rest);
    }
  }

  lemma PrintOfParsedFields(buf: Bytes)
    ensures var p := ParseFields(buf);
            p.Got? ==> FieldsFit(p.value) &&
                       EncodeHeader(p.value) + p.rest == BigEndian(CHUNK_MAGIC, 4) + buf
  {
    var p := ParseFields(buf);
    if p.Got? {
      var h := p.value;
      PrintOfParsedIds(buf);
      PrintOfParsedTail(ParseIds(buf).rest);
      Assoc3(BigEndian(CHUNK_MAGIC, 4), EncodeIds(h.version, h.chunkId, h.objectId),
             EncodeTail(h.size, h.checksum, h.createdAt), p.rest);
    }
  }

  // ---- Main results ----

  /** Every accepted byte string is the printed form of what it parses to, and what it parses to
      is well formed. */
  lemma AcceptedIsCanonical(hash: Hash, data: Bytes)
    ensures var r := Deserialize(hash, data);
            r.Some? ==> WellFormed(hash, r.value.0, r.value.1) &&
                        Serialize(r.value.0, r.value.1) == data
  {
    var r := Deserialize(hash, data);
    if r.Some? {
      PrintOfParsedNat(4, data);
      PrintOfParsedFields(ParseNat(4, data).rest);
    }
  }

  /** On a printed header followed by anything, acceptance depends only on the rest. */
  lemma DeserializeOfPrinted(hash: Hash, h: Header, rest: Bytes)
    requires FieldsFit(h)
    ensures Deserialize(hash, EncodeHeader(h) + rest) ==
            if |rest| == h.size && hash(rest) == h.checksum then Some((h, rest)) else None
  {
    ParseOfPrintedHeader(h, rest);
  }

  /** The round trip succeeds exactly on well-formed headers and payloads. */
  lemma RoundTrip(hash: Hash, h: Header, payload: Bytes)
    ensures Deserialize(hash, Serialize(h, payload)) == Some((h, payload))
            <==> WellFormed(hash, h, payload)
  {
    if WellFormed(hash, h, payload) {
      DeserializeOfPrinted(hash, h, payload);
    } else {
      AcceptedIsCanonical(hash, Serialize(h, payload));
    }
  }

  /** No accepted file is a strict prefix of another accepted file, even under two different
      hashes. */
  lemma PrefixFree(hash: Hash, hash': Hash, data: Bytes, longer: Bytes)
    requires data <= longer
    ensures Deserialize(hash, data).Some? && Deserialize(hash', longer).Some? ==> data == longer
  {
    if Deserialize(hash, data).Some? {
      AcceptedIsCanonical(hash, data);
      var (h, payload) := Deserialize(hash, data).value;
      var extra := PrefixExtra(EncodeHeader(h), payload, longer);
      DeserializeOfPrinted(hash', h, payload + extra);
    }
  }

  lemma PrefixExtra(e: Bytes, payload: Bytes, longer: Bytes) returns (extra: Bytes)
    requires e + payload <= longer
    ensures longer == e + (payload + extra)
    ensures extra == [] ==> longer == e + payload
  {
    extra := longer[|e + payload|..];
  }

  /** A file cut short at any byte is rejected. */
  lemma TruncationRejected(hash: Hash, h: Header, payload: Bytes, cut: nat)
    requires WellFormed(hash, h, payload)
    requires cut < |Serialize(h, payload)|
    ensures Deserialize(hash, Serialize(h, payload)[..cut]) == None
  {
    RoundTrip(hash, h, payload);
    PrefixFree(hash, hash, Serialize(h, payload)[..cut], Serialize(h, payload));
  }

  /** Printing is injective on headers that fit, so two chunks never share a file image. */
  lemma SerializeInjective(h: Header, p: Bytes, h': Header, p': Bytes)
    requires FieldsFit(h) && FieldsFit(h')
    requires Serialize(h, p) == Serialize(h', p')
    ensures h == h' && p == p'
  {
    ParseOfPrintedHeader(h, p);
    ParseOfPrintedHeader(h', p');
  }

  // ---- Where the fields are ----

  lemma SliceOf(data: Bytes, front: Bytes, part: Bytes, rest: Bytes)
    requires data == front + (part + rest)
    ensures |front| + |part| <= |data| && data[|front|..|front| + |part|] == part
    ensures data == (front + part) + rest
  {
  }

  lemma StringAt(data: Bytes, front: Bytes, text: Bytes, rest: Bytes)
    requires data == front + (EncodeString(text) + rest) && |text| < U32_LIMIT
    ensures |front| + 4 + |text| <= |data|
    ensures Value(data[|front|..|front| + 4]) == |text|
    ensures data[|front| + 4..|front| + 4 + |text|] == text
    ensures data == (front + EncodeString(text)) + rest
  {
    hide BigEndian, Value;
    var length := BigEndian(|text|, 4);
    Pow256Values();
    ValueOfBigEndian(|text|, 4);
    assert EncodeString(text) + rest == length + (text + rest);
    SliceOf(data, front, length, text + rest);
    SliceOf(data, front + length, text, rest);
    assert front + length + text == front + EncodeString(text);
  }

  lemma NumberAt(data: Bytes, front: Bytes, v: nat, width: nat, rest: Bytes)
    requires data == front + (BigEndian(v, width) + rest) && v < Pow256(width)
    ensures |front| + width <= |data| && Value(data[|front|..|front| + width]) == v
    ensures data == (front + BigEndian(v, width)) + rest
  {
    hide BigEndian, Value;
    ValueOfBigEndian(v, width);
    SliceOf(data, front, BigEndian(v, width), rest);
  }

  /** The layout byte by byte: the magic number, then version, chunk id, object id, payload size,
      checksum and creation time, each string behind its length; then the payload. */
  lemma Layout(h: Header, payload: Bytes)
    requires FieldsFit(h)
    ensures var (data, n, m, c) :=
              (Serialize(h, payload), |h.chunkId|, |h.objectId|, |h.checksum|);
            && |data| == 36 + n + m + c + |payload|
            && data[..4] == [0x44, 0x45, 0x53, 0x4B]
            && Value(data[4..8]) == h.version
            && Value(data[8..12]) == n && data[12..12 + n] == h.chunkId
            && Value(data[12 + n..16 + n]) == m && data[16 + n..16 + n + m] == h.objectId
            && Value(data[16 + n + m..24 + n + m]) == h.size
            && Value(data[24 + n + m..28 + n + m]) == c
            && data[28 + n + m..28 + n + m + c] == h.checksum
            && Value(data[28 + n + m + c..36 + n + m + c]) == h.createdAt
            && data[36 + n + m + c..] == payload
  {
    hide BigEndian, Value, EncodeString;
    Pow256Values();
    var data := Serialize(h, payload);
    var magic, version := BigEndian(CHUNK_MAGIC, 4), BigEndian(h.version, 4);
    var chunk, owner := EncodeString(h.chunkId), EncodeString(h.objectId);
    var sum := EncodeString(h.checksum);
    var size, created := BigEndian(h.size, 8), BigEndian(h.createdAt, 8);
    var tail := created + payload;
    assert data == magic + (version + (chunk + (owner + (size + (sum + tail)))));
    MagicBytes();
    NumberAt(data, magic, h.version, 4, chunk + (owner + (size + (sum + tail))));
    var front := magic + version;
    EncodedLength(h);
    StringAt(data, front, h.chunkId, owner + (size + (sum + tail)));
    front := front + chunk;
    StringAt(data, front, h.objectId, size + (sum + tail));
    front := front + owner;
    NumberAt(data, front, h.size, 8, sum + tail);
    front := front + size;
    StringAt(data, front, h.checksum, tail);
    front := front + sum;
    NumberAt(data, front, h.createdAt, 8, payload);
  }

  lemma EncodedLength(h: Header)
    ensures |EncodeString(h.chunkId)| == 4 + |h.chunkId|
    ensures |EncodeString(h.objectId)| == 4 + |h.objectId|
    ensures |EncodeString(h.checksum)| == 4 + |h.checksum|
  {
  }

  lemma MagicBytes()
    ensures BigEndian(CHUNK_MAGIC, 4) == [0x44, 0x45, 0x53, 0x4B]
  {
    hide BigEndian;
    forall k | 0 <= k < 4
      ensures BigEndian(CHUNK_MAGIC, 4)[k] == [0x44, 0x45, 0x53, 0x4B][k]
    {
      BigEndianAt(CHUNK_MAGIC, 4, k);
      assert Pow256(1) == 256 && Pow256(2) == 0x1_0000 && Pow256(3) == 0x100_0000;
    }
  }

  // ---- The code: buffers grown and cursors advanced in place ----

  method AppendU32(buf: Bytes, v: nat) returns (out: Bytes)
    requires v < U32_LIMIT
    ensures out == buf + BigEndian(v, 4)
  {
    out := buf + [v / 0x100_0000 % 256];
    out := out + [v / 0x1_0000 % 256];
    out := out + [v / 0x100 % 256];
    out := out + [v % 256];
    assert Pow256(0) == 1 && Pow256(1) == 256 && Pow256(2) == 0x1_0000 && Pow256(3) == 0x100_0000;
    BigEndianAt(v, 4, 0);
    BigEndianAt(v, 4, 1);
    BigEndianAt(v, 4, 2);
    BigEndianAt(v, 4, 3);
  }

  method AppendU64(buf: Bytes, v: nat) returns (out: Bytes)
    requires v < U64_LIMIT
    ensures out == buf + BigEndian(v, 8)
  {
    out := buf;
    var i := 7;
    while i >= 0
      invariant -1 <= i <= 7
      invariant out == buf + BigEndian(v, 8)[..7 - i]
      decreases i
    {
      BigEndianAt(v, 8, 7 - i);
      out := out + [v / Pow256(i) % 256];
      i := i - 1;
    }
  }

  method AppendString(buf: Bytes, s: Bytes) returns (out: Bytes)
    ensures out == buf + EncodeString(s)
  {
    out := AppendU32(buf, |s| % U32_LIMIT);
    out := out + s;
  }

  method AppendIds(buf: Bytes, h: Header) returns (out: Bytes)
    requires IntsFit(h)
    ensures out == buf + EncodeIds(h.version, h.chunkId, h.objectId)
  {
    out := AppendU32(buf, h.version);
    out := AppendString(out, h.chunkId);
    out := AppendString(out, h.objectId);
    LeftAssoc3(buf, BigEndian(h.version, 4), EncodeString(h.chunkId), EncodeString(h.objectId));
  }

  method AppendTail(buf: Bytes, h: Header) returns (out: Bytes)
    requires IntsFit(h)
    ensures out == buf + EncodeTail(h.size, h.checksum, h.createdAt)
  {
    out := AppendU64(buf, h.size);
    out := AppendString(out, h.checksum);
    out := AppendU64(out, h.createdAt);
    LeftAssoc3(buf, BigEndian(h.size, 8), EncodeString(h.checksum), BigEndian(h.createdAt, 8));
  }

  lemma LeftAssoc3(buf: Bytes, a: Bytes, b: Bytes, c: Bytes)
    ensures ((buf + a) + b) + c == buf + (a + (b + c))
  {
  }

  method HeaderOnlyBytes(h: Header) returns (buf: Bytes)
    requires IntsFit(h)
    ensures buf == EncodeHeader(h)
    ensures |buf| == HeaderSize(h)
  {
    buf := AppendU32([], CHUNK_MAGIC);
    buf := AppendIds(buf, h);
    buf := AppendTail(buf, h);
    LeftAssoc3([], BigEndian(CHUNK_MAGIC, 4), EncodeIds(h.version, h.chunkId, h.objectId),
               EncodeTail(h.size, h.checksum, h.createdAt));
    assert buf == EncodeHeader(h);
  }

  /** The cursor is out of range exactly when the field does not fit in what is left. */
  method ReadU32(buf: Bytes, pos: nat) returns (r: Option<nat>, next: nat)
    requires pos <= |buf|
    ensures pos <= next <= |buf|
    ensures r.None? <==> ParseNat(4, buf[pos..]) == Underflow
    ensures r.Some? ==> ParseNat(4, buf[pos..]) == Got(r.value, buf[next..])
  {
    if pos + 4 > |buf| {
      return None, pos;
    }
    var b0: int, b1: int, b2: int, b3: int := buf[pos], buf[pos + 1], buf[pos + 2], buf[pos + 3];
    var v := b0 * 0x100_0000 + b1 * 0x1_0000 + b2 * 0x100 + b3;
    next := pos + 4;
    r := Some(v);
    var four := buf[pos..][..4];
    assert four == [buf[pos], buf[pos + 1], buf[pos + 2], buf[pos + 3]];
    assert four[..3] == [buf[pos], buf[pos + 1], buf[pos + 2]];
    assert four[..3][..2] == [buf[pos], buf[pos + 1]];
    assert four[..3][..2][..1] == [buf[pos]];
    assert four[..3][..2][..1][..0] == [];
    assert Value([buf[pos]]) == b0;
    assert Value([buf[pos], buf[pos + 1]]) == 256 * b0 + b1;
    assert Value(four) == v;
    assert buf[pos..][4..] == buf[next..];
  }

  method ReadU64(buf: Bytes, pos: nat) returns (r: Option<nat>, next: nat)
    requires pos <= |buf|
    ensures pos <= next <= |buf|
    ensures r.None? <==> ParseNat(8, buf[pos..]) == Underflow
    ensures r.Some? ==> ParseNat(8, buf[pos..]) == Got(r.value, buf[next..])
  {
    if pos + 8 > |buf| {
      return None, pos;
    }
    var v: int := 0;
    next := pos;
    for i := 0 to 8
      invariant next == pos + i
      invariant v == Value(buf[pos..next])
    {
      assert buf[pos..next + 1][..i] == buf[pos..next];
      v := v * 256 + buf[next];
      next := next + 1;
    }
    r := Some(v);
    assert buf[pos..][..8] == buf[pos..next];
    assert buf[pos..][8..] == buf[next..];
  }

  method ReadString(buf: Bytes, pos: nat) returns (r: Option<Bytes>, next: nat)
    requires pos <= |buf|
    ensures pos <= next <= |buf|
    ensures r.None? <==> ParseString(buf[pos..]) == Underflow
    ensures r.Some? ==> ParseString(buf[pos..]) == Got(r.value, buf[next..])
  {
    var len, body := ReadU32(buf, pos);
    if len.None? || body + len.value > |buf| {
      return None, pos;
    }
    next := body + len.value;
    r := Some(buf[body..next]);
    assert buf[body..][..len.value] == buf[body..next];
    assert buf[body..][len.value..] == buf[next..];
  }

  method ReadIds(buf: Bytes, pos: nat) returns (r: Option<(nat, Bytes, Bytes)>, next: nat)
    requires pos <= |buf|
    ensures pos <= next <= |buf|
    ensures r.None? <==> ParseIds(buf[pos..]) == Underflow
    ensures r.Some? ==> ParseIds(buf[pos..]) == Got(r.value, buf[next..])
  {
    r, next := None, pos;
    var version, p1 := ReadU32(buf, pos);
    if version.None? { return; }
    var chunkId, p2 := ReadString(buf, p1);
    if chunkId.None? { return; }
    var objectId, p3 := ReadString(buf, p2);
    if objectId.None? { return; }
    r, next := Some((version.value, chunkId.value, objectId.value)), p3;
  }

  method ReadTail(buf: Bytes, pos: nat) returns (r: Option<(nat, Bytes, nat)>, next: nat)
    requires pos <= |buf|
    ensures pos <= next <= |buf|
    ensures r.None? <==> ParseTail(buf[pos..]) == Underflow
    ensures r.Some? ==> ParseTail(buf[pos..]) == Got(r.value, buf[next..])
  {
    r, next := None, pos;
    var size, p1 := ReadU64(buf, pos);
    if size.None? { return; }
    var checksum, p2 := ReadString(buf, p1);
    if checksum.None? { return; }
    var createdAt, p3 := ReadU64(buf, p2);
    if createdAt.None? { return; }
    r, next := Some((size.value, checksum.value, createdAt.value)), p3;
  }

  method ReadFields(buf: Bytes, pos: nat) returns (r: Option<Header>, next: nat)
    requires pos <= |buf|
    ensures pos <= next <= |buf|
    ensures r.None? <==> ParseFields(buf[pos..]) == Underflow
    ensures r.Some? ==> ParseFields(buf[pos..]) == Got(r.value, buf[next..])
  {
    r, next := None, pos;
    var ids, p1 := ReadIds(buf, pos);
    if ids.None? { return; }
    var tail, p2 := ReadTail(buf, p1);
    if tail.None? { return; }
    r := Some(Header(ids.value.1, ids.value.2, ids.value.0, tail.value.0, tail.value.1,
                     tail.value.2));
    next := p2;
  }

  /** The cursor-driven reader returns exactly what the specification parser returns; an
      exception from any read is `None`. */
  method DeserializeBuffer(hash: Hash, data: Bytes) returns (r: Option<(Header, Bytes)>)
    ensures r == Deserialize(hash, data)
  {
    r := None;
    assert data[0..] == data;
    var magic, p1 := ReadU32(data, 0);
    if magic.None? || magic.value != CHUNK_MAGIC { return; }
    var header, p2 := ReadFields(data, p1);
    if header.None? { return; }
    var payload := data[p2..];
    if |payload| != header.value.size { return; }
    if hash(payload) != header.value.checksum { return; }
    r := Some((header.value, payload));
  }
}
