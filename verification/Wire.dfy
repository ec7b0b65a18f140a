/** The stream protocol's message codec (internal/wire/wire.go). */
module Wire {
  import opened Prelude

  const VERSION: byte := 0x02
  const TYPE_BEGIN: byte := 0x10
  const TYPE_CHUNK: byte := 0x11
  const TYPE_END: byte := 0x12

  const COMMON_SIZE := 6
  const BEGIN_SIZE := 14
  const CHUNK_HEADER_SIZE := 11
  const END_SIZE := 34

  const MIN_CHUNK_SIZE := 4 * 1024
  const MAX_CHUNK_SIZE := 8 * 1024 * 1024
  const CODEC_RAW: byte := 0x00
  const CODEC_ZSTD: byte := 0x01

  /** The per-ledger assembly cap on both ends: 256 MiB. */
  const MAX_PAYLOAD := 256 * 1024 * 1024

  const STATUS_NORMAL := 1000
  const STATUS_GOING_AWAY := 1001
  const STATUS_INTERNAL_ERROR := 1011
  const STATUS_TOO_FAR_BEHIND := 4001

  datatype Message =
    | Begin(seq_: uint32, emitStart: int64)
    | Chunk(seq_: uint32, index: uint32, codec: byte, payload: bytes)
    | End(seq_: uint32, count: uint32, total: uint64, emitEnd: int64, checksum: uint64)

  datatype Error = ShortMessage | BadVersion | BadCodec | BadType

  // ---------------------------------------------------------------- big endian

  function Pow256(w: nat): (p: nat)
    ensures p > 0
  {
    if w == 0 then 1 else 256 * Pow256(w - 1)
  }

  function BigEndian(n: nat, w: nat): (b: bytes)
    ensures |b| == w
  {
    if w == 0 then [] else BigEndian(n / 256, w - 1) + [n % 256]
  }

  function Value(b: bytes): nat {
    if |b| == 0 then 0 else Value(b[..|b| - 1]) * 256 + b[|b| - 1]
  }

  lemma {:induction false} ValueOfBigEndian(n: nat, w: nat)
    requires n < Pow256(w)
    ensures Value(BigEndian(n, w)) == n
  {
    if w > 0 {
      ValueOfBigEndian(n / 256, w - 1);
      var b := BigEndian(n, w);
      assert b[..w - 1] == BigEndian(n / 256, w - 1);
    }
  }

  lemma {:induction false} BigEndianOfValue(b: bytes)
    ensures Value(b) < Pow256(|b|)
    ensures BigEndian(Value(b), |b|) == b
  {
    if |b| > 0 {
      BigEndianOfValue(b[..|b| - 1]);
      assert Value(b) / 256 == Value(b[..|b| - 1]);
      assert b == b[..|b| - 1] + [b[|b| - 1]];
    }
  }

  lemma Widths()
    ensures Pow256(4) == U32
    ensures Pow256(8) == U64
  {
    assert Pow256(2) == 0x1_0000;
    assert Pow256(3) == 0x100_0000;
    assert Pow256(4) == 0x1_0000_0000;
    assert Pow256(6) == 0x1_0000_0000_0000;
    assert Pow256(7) == 0x100_0000_0000_0000;
  }

  /** int64 to uint64 and back, as the two's complement conversion does it. */
  function Unsigned(i: int64): uint64 {
    if i < 0 then i + U64 else i
  }

  function Signed(u: uint64): int64 {
    if u > MAX_INT64 then u - U64 else u
  }

  function PutUint32(n: uint32): (b: bytes) ensures |b| == 4 { BigEndian(n, 4) }

  function PutUint64(n: uint64): (b: bytes) ensures |b| == 8 { BigEndian(n, 8) }

  function Uint32(b: bytes): uint32
    requires |b| == 4
  {
    BigEndianOfValue(b);
    Widths();
    Value(b)
  }

  function Uint64(b: bytes): uint64
    requires |b| == 8
  {
    BigEndianOfValue(b);
    Widths();
    Value(b)
  }

  lemma Uint32RoundTrip(n: uint32)
    ensures Uint32(PutUint32(n)) == n
  {
    Widths();
    ValueOfBigEndian(n, 4);
  }

  lemma Uint64RoundTrip(n: uint64)
    ensures Uint64(PutUint64(n)) == n
  {
    Widths();
    ValueOfBigEndian(n, 8);
  }

  // ------------------------------------------------------------------ encoding

  function AppendBegin(dst: bytes, s: uint32, emitStart: int64): bytes {
    dst + [VERSION, TYPE_BEGIN] + PutUint32(s) + PutUint64(Unsigned(emitStart))
  }

  function AppendChunkHeader(dst: bytes, s: uint32, index: uint32, codec: byte): bytes {
    dst + [VERSION, TYPE_CHUNK] + PutUint32(s) + PutUint32(index) + [codec]
  }

  function AppendChunk(dst: bytes, s: uint32, index: uint32, codec: byte, payload: bytes): bytes {
    AppendChunkHeader(dst, s, index, codec) + payload
  }

  function AppendEnd(dst: bytes, s: uint32, count: uint32, total: uint64, emitEnd: int64, checksum: uint64): bytes {
    dst + [VERSION, TYPE_END] + PutUint32(s) + PutUint32(count) + PutUint64(total)
    + PutUint64(Unsigned(emitEnd)) + PutUint64(checksum)
  }

  function Encode(m: Message): bytes {
    match m
    case Begin(s, t) => AppendBegin([], s, t)
    case Chunk(s, i, c, p) => AppendChunk([], s, i, c, p)
    case End(s, n, l, t, x) => AppendEnd([], s, n, l, t, x)
  }

  predicate KnownCodec(m: Message) {
    m.Chunk? ==> m.codec == CODEC_RAW || m.codec == CODEC_ZSTD
  }

  // ------------------------------------------------------------------ decoding

  function Decode(msg: bytes): Result<Message, Error> {
    if |msg| < COMMON_SIZE then Err(ShortMessage)
    else if msg[0] != VERSION then Err(BadVersion)
    else
      var s := Uint32(msg[2..6]);
      if msg[1] == TYPE_BEGIN then
        if |msg| != BEGIN_SIZE then Err(ShortMessage)
        else Ok(Begin(s, Signed(Uint64(msg[6..14]))))
      else if msg[1] == TYPE_CHUNK then
        if |msg| < CHUNK_HEADER_SIZE then Err(ShortMessage)
        else if msg[10] != CODEC_RAW && msg[10] != CODEC_ZSTD then Err(BadCodec)
        else Ok(Chunk(s, Uint32(msg[6..10]), msg[10], msg[CHUNK_HEADER_SIZE..]))
      else if msg[1] == TYPE_END then
        if |msg| != END_SIZE then Err(ShortMessage)
        else Ok(End(s, Uint32(msg[6..10]), Uint64(msg[10..18]), Signed(Uint64(msg[18..26])), Uint64(msg[26..34])))
      else Err(BadType)
  }

  lemma DecodeBegin(s: uint32, t: int64)
    ensures |AppendBegin([], s, t)| == BEGIN_SIZE
    ensures Decode(AppendBegin([], s, t)) == Ok(Begin(s, t))
  {
    var m := AppendBegin([], s, t);
    assert m[2..6] == PutUint32(s);
    assert m[6..14] == PutUint64(Unsigned(t));
    Uint32RoundTrip(s);
    Uint64RoundTrip(Unsigned(t));
  }

  lemma DecodeChunk(s: uint32, i: uint32, c: byte, p: bytes)
    requires c == CODEC_RAW || c == CODEC_ZSTD
    ensures |AppendChunk([], s, i, c, p)| == CHUNK_HEADER_SIZE + |p|
    ensures Decode(AppendChunk([], s, i, c, p)) == Ok(Chunk(s, i, c, p))
  {
    var m := AppendChunk([], s, i, c, p);
    assert m[2..6] == PutUint32(s);
    assert m[6..10] == PutUint32(i);
    assert m[11..] == p;
    Uint32RoundTrip(s);
    Uint32RoundTrip(i);
  }

  lemma DecodeEnd(s: uint32, n: uint32, l: uint64, t: int64, x: uint64)
    ensures |AppendEnd([], s, n, l, t, x)| == END_SIZE
    ensures Decode(AppendEnd([], s, n, l, t, x)) == Ok(End(s, n, l, t, x))
  {
    var m := AppendEnd([], s, n, l, t, x);
    assert m[2..6] == PutUint32(s);
    assert m[6..10] == PutUint32(n);
    assert m[10..18] == PutUint64(l);
    assert m[18..26] == PutUint64(Unsigned(t));
    assert m[26..34] == PutUint64(x);
    Uint32RoundTrip(s);
    Uint32RoundTrip(n);
    Uint64RoundTrip(l);
    Uint64RoundTrip(Unsigned(t));
    Uint64RoundTrip(x);
  }

  /** Decode inverts every message the three encoders can produce. */
  lemma DecodeEncode(m: Message)
    requires KnownCodec(m)
    ensures Decode(Encode(m)) == Ok(m)
  {
    match m
    case Begin(s, t) => DecodeBegin(s, t);
    case Chunk(s, i, c, p) => DecodeChunk(s, i, c, p);
    case End(s, n, l, t, x) => DecodeEnd(s, n, l, t, x);
  }

  /** And nothing else decodes: an accepted byte string is the encoding of what
      it decodes to, so the wire format has one spelling per message. */
  lemma EncodeDecode(msg: bytes)
    requires Decode(msg).Ok?
    ensures KnownCodec(Decode(msg).value)
    ensures Encode(Decode(msg).value) == msg
  {
    var m := Decode(msg).value;
    match m
    case Begin(s, t) => BeginSpelling(msg);
    case Chunk(s, i, c, p) => ChunkSpelling(msg);
    case End(s, n, l, t, x) => EndSpelling(msg);
  }

  lemma BeginSpelling(msg: bytes)
    requires |msg| == BEGIN_SIZE && msg[0] == VERSION && msg[1] == TYPE_BEGIN
    ensures AppendBegin([], Uint32(msg[2..6]), Signed(Uint64(msg[6..14]))) == msg
  {
    BigEndianOfValue(msg[2..6]);
    BigEndianOfValue(msg[6..14]);
    assert Unsigned(Signed(Uint64(msg[6..14]))) == Uint64(msg[6..14]);
    assert msg == msg[..2] + msg[2..6] + msg[6..14];
  }

  lemma ChunkSpelling(msg: bytes)
    requires |msg| >= CHUNK_HEADER_SIZE && msg[0] == VERSION && msg[1] == TYPE_CHUNK
    ensures AppendChunk([], Uint32(msg[2..6]), Uint32(msg[6..10]), msg[10], msg[11..]) == msg
  {
    BigEndianOfValue(msg[2..6]);
    BigEndianOfValue(msg[6..10]);
    assert msg == msg[..2] + msg[2..6] + msg[6..10] + [msg[10]] + msg[11..];
  }

  lemma EndSpelling(msg: bytes)
    requires |msg| == END_SIZE && msg[0] == VERSION && msg[1] == TYPE_END
    ensures AppendEnd([], Uint32(msg[2..6]), Uint32(msg[6..10]), Uint64(msg[10..18]),
                      Signed(Uint64(msg[18..26])), Uint64(msg[26..34])) == msg
  {
    BigEndianOfValue(msg[2..6]);
    BigEndianOfValue(msg[6..10]);
    BigEndianOfValue(msg[10..18]);
    BigEndianOfValue(msg[18..26]);
    BigEndianOfValue(msg[26..34]);
    assert Unsigned(Signed(Uint64(msg[18..26]))) == Uint64(msg[18..26]);
    assert msg == msg[..2] + msg[2..6] + msg[6..10] + msg[10..18] + msg[18..26] + msg[26..34];
  }

  /** PutChunkHeader frames a chunk in place: the eleven bytes at off become the
      header AppendChunkHeader would have appended, and no other byte of the
      buffer moves. */
  method PutChunkHeader(buf: array<byte>, off: nat, s: uint32, index: uint32, codec: byte)
    requires off + CHUNK_HEADER_SIZE <= buf.Length
    modifies buf
    ensures buf[off..off + CHUNK_HEADER_SIZE] == AppendChunkHeader([], s, index, codec)
    ensures forall i :: 0 <= i < buf.Length && !(off <= i < off + CHUNK_HEADER_SIZE) ==> buf[i] == old(buf[i])
  {
    var h := [VERSION, TYPE_CHUNK] + PutUint32(s) + PutUint32(index) + [codec];
    assert h == AppendChunkHeader([], s, index, codec);
    forall i | 0 <= i < CHUNK_HEADER_SIZE {
      buf[off + i] := h[i];
    }
    assert buf[off..off + CHUNK_HEADER_SIZE] == h;
  }
}
