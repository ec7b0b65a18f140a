/** What a chunk flow carries: the per-chunk codec choice of
    internal/server/compress.go and the expansion of remoteledger/decompress.go,
    and from them the ledger bytes a run of CHUNK messages stands for. */
module Chunks {
  import opened Prelude
  import opened Wire

  /** The library code nobody here can see: xxhash64 over a byte string, and one
      zstd frame per chunk. */
  datatype Codec = Codec(hash: bytes -> uint64, compress: bytes -> bytes, expand: bytes -> Option<bytes>)

  /** All that is assumed of zstd: a frame expands to what was compressed. */
  ghost predicate Lawful(z: Codec) {
    forall raw: bytes :: z.expand(z.compress(raw)) == Some(raw)
  }

  /** ValidateChunkSize. */
  predicate ValidChunkSize(n: int) {
    MIN_CHUNK_SIZE <= n <= MAX_CHUNK_SIZE
  }

  function EncodeChunk(z: Codec, compressing: bool, s: uint32, index: uint32, raw: bytes): bytes {
    var frame := z.compress(raw);
    if compressing && |frame| < |raw| then
      AppendChunkHeader([], s, index, CODEC_ZSTD) + frame
    else
      AppendChunk([], s, index, CODEC_RAW, raw)
  }

  /** The client's per-chunk expansion, without the memory bound. */
  function Expand(z: Codec, codec: byte, payload: bytes): Option<bytes> {
    if codec == CODEC_RAW then Some(payload)
    else if codec == CODEC_ZSTD then z.expand(payload)
    else None
  }

  /** msg is chunk index of ledger s, and stands for the bytes raw. */
  predicate Carries(z: Codec, msg: bytes, s: uint32, index: uint32, raw: bytes) {
    var m := Decode(msg);
    m.Ok? && m.value.Chunk? && m.value.seq_ == s && m.value.index == index
    && Expand(z, m.value.codec, m.value.payload) == Some(raw)
  }

  /** Compressing these bytes saves some. */
  predicate Shrinks(z: Codec, raw: bytes) {
    |z.compress(raw)| < |raw|
  }

  /** The message went out as a zstd frame. */
  predicate Zipped(msg: bytes) {
    Decode(msg).Ok? && Decode(msg).value.Chunk? && Decode(msg).value.codec == CODEC_ZSTD
  }

  /** The message decodes to its own sequence, index and bytes and is never longer than the
      verbatim framing; it is a zstd frame exactly when compressing was asked for and saves
      something, and then that of those bytes, otherwise the bytes themselves. */
  lemma EncodeChunkCarries(z: Codec, compressing: bool, s: uint32, index: uint32, raw: bytes)
    requires Lawful(z)
    ensures Carries(z, EncodeChunk(z, compressing, s, index, raw), s, index, raw)
    ensures |EncodeChunk(z, compressing, s, index, raw)| <= CHUNK_HEADER_SIZE + |raw|
    ensures var m := Decode(EncodeChunk(z, compressing, s, index, raw)).value;
      && (m.codec == CODEC_ZSTD <==> compressing && Shrinks(z, raw))
      && (m.codec == CODEC_ZSTD ==> m.payload == z.compress(raw))
      && (m.codec != CODEC_ZSTD ==> m.codec == CODEC_RAW && m.payload == raw)
  {
    DecodeChunk(s, index, CODEC_RAW, raw);
    DecodeChunk(s, index, CODEC_ZSTD, z.compress(raw));
  }

  /** The bytes one message stands for; [] when it stands for none. */
  function Payload(z: Codec, msg: bytes): bytes {
    var m := Decode(msg);
    if m.Ok? && m.value.Chunk? && Expand(z, m.value.codec, m.value.payload).Some? then
      Expand(z, m.value.codec, m.value.payload).value
    else
      []
  }

  /** The bytes a run of CHUNK messages stands for. */
  function Joined(z: Codec, chunks: seq<bytes>): bytes {
    if |chunks| == 0 then []
    else Joined(z, chunks[..|chunks| - 1]) + Payload(z, chunks[|chunks| - 1])
  }

  /** A legal run of CHUNK messages for ledger s: numbered from 0, expandable,
      never empty, none over the chunk size. */
  predicate Sound(z: Codec, s: uint32, chunks: seq<bytes>, chunkSize: nat) {
    forall i :: 0 <= i < |chunks| ==> SoundAt(z, s, chunks[i], i, chunkSize)
  }

  predicate SoundAt(z: Codec, s: uint32, msg: bytes, index: nat, chunkSize: nat) {
    index < U32
    && Carries(z, msg, s, index, Payload(z, msg))
    && 0 < |Payload(z, msg)| <= chunkSize
    && |msg| <= CHUNK_HEADER_SIZE + chunkSize
  }

  lemma JoinedSnoc(z: Codec, chunks: seq<bytes>, msg: bytes)
    ensures Joined(z, chunks + [msg]) == Joined(z, chunks) + Payload(z, msg)
  {
    assert (chunks + [msg])[..|chunks|] == chunks;
  }

  lemma JoinedStep(z: Codec, chunks: seq<bytes>, k: nat)
    requires k < |chunks|
    ensures Joined(z, chunks[..k + 1]) == Joined(z, chunks[..k]) + Payload(z, chunks[k])
  {
    assert chunks[..k + 1] == chunks[..k] + [chunks[k]];
    JoinedSnoc(z, chunks[..k], chunks[k]);
  }

  lemma {:induction false} JoinedPrefix(z: Codec, chunks: seq<bytes>, k: nat)
    requires k <= |chunks|
    ensures Joined(z, chunks[..k]) <= Joined(z, chunks)
    decreases |chunks| - k
  {
    if k < |chunks| {
      JoinedStep(z, chunks, k);
      JoinedPrefix(z, chunks, k + 1);
    } else {
      assert chunks[..k] == chunks;
    }
  }

  /** No chunk is empty, so there are never more chunks than bytes: under the
      payload cap the uint32 chunk index cannot wrap. */
  lemma {:induction false} CountBelowBytes(z: Codec, s: uint32, chunks: seq<bytes>, chunkSize: nat)
    requires Sound(z, s, chunks, chunkSize)
    ensures |chunks| <= |Joined(z, chunks)|
  {
    if |chunks| > 0 {
      var init := chunks[..|chunks| - 1];
      assert forall i :: 0 <= i < |init| ==> init[i] == chunks[i];
      CountBelowBytes(z, s, init, chunkSize);
      assert SoundAt(z, s, chunks[|chunks| - 1], |chunks| - 1, chunkSize);
    }
  }
}
