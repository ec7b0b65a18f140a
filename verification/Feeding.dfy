/** The client fed by an honest server: what each kind of flow the cursor can
    write does to the assembly. */
module Feeding {
  import opened Prelude
  import opened Wire
  import opened Chunks
  import opened Client
  import opened Source
  import opened Serve

  /** The client's limits admit everything this server may send. */
  predicate Compatible(w: World, k: Config) {
    && (ReadLimit(k.limits.maxChunk) < 0 || CHUNK_HEADER_SIZE + w.chunkSize <= ReadLimit(k.limits.maxChunk))
    && w.chunkSize <= DecoderBound(k.limits.maxChunk)
    && (k.limits.maxPayload < 0 || MAX_PAYLOAD <= k.limits.maxPayload)
  }

  /** Default-configured ends always interoperate, whatever the server's flag. */
  lemma DefaultsInteroperate(w: World, k: Config)
    requires ValidChunkSize(w.chunkSize) && k.limits == Limits(MAX_PAYLOAD, 0)
    ensures Compatible(w, k)
  {
  }

  /** The client after reading msgs, from c. */
  function FeedFrom(k: Config, c: Client, msgs: seq<bytes>): Client {
    if |msgs| == 0 then c
    else Feed(k, FeedFrom(k, c, msgs[..|msgs| - 1]), Message(msgs[|msgs| - 1]))
  }

  lemma FeedSnoc(k: Config, c: Client, msgs: seq<bytes>, m: bytes)
    ensures FeedFrom(k, c, msgs + [m]) == Feed(k, FeedFrom(k, c, msgs), Message(m))
  {
    assert (msgs + [m])[..|msgs|] == msgs;
  }

  lemma FeedOne(k: Config, c: Client, m: bytes)
    ensures FeedFrom(k, c, [m]) == Feed(k, c, Message(m))
  {
    assert [m][..0] == [];
  }

  lemma {:induction false} FeedAppend(k: Config, c: Client, a: seq<bytes>, b: seq<bytes>)
    ensures FeedFrom(k, c, a + b) == FeedFrom(k, FeedFrom(k, c, a), b)
  {
    hide Feed;
    if |b| > 0 {
      var init := b[..|b| - 1];
      FeedAppend(k, c, a, init);
      assert (a + b)[..|a + b| - 1] == a + init;
    } else {
      assert a + b == a;
    }
  }

  /** A later state of the same client: what was yielded stays, an end is final. */
  predicate Extends(c: Client, later: Client) {
    c.out <= later.out && (c.status != Open ==> later == c)
  }

  lemma {:induction false} FeedExtends(k: Config, c: Client, msgs: seq<bytes>)
    ensures Extends(c, FeedFrom(k, c, msgs))
  {
    if |msgs| > 0 {
      FeedExtends(k, c, msgs[..|msgs| - 1]);
      FeedOnce(k, FeedFrom(k, c, msgs[..|msgs| - 1]), Message(msgs[|msgs| - 1]));
    }
  }

  lemma FeedOnce(k: Config, c: Client, r: Read)
    ensures Extends(c, Feed(k, c, r))
  {
    hide Decode, Admits, ExpandBounded, FeedClose;
  }

  // ----------------------------------------------------------- message by message

  /** c may open ledger s: it is what it waits for, or the one it is inside. */
  predicate Awaits(c: Client, s: uint32) {
    c.status == Open && (if c.asm.active then c.asm.seq_ == s else c.track.Accepts(s))
  }

  /** c inside ledger s with the first n of chunks taken in. */
  function Inside(z: Codec, c: Client, s: uint32, start: int64, chunks: seq<bytes>, n: nat, discarded: nat): Client
    requires n <= |chunks|
  {
    c.(asm := Assembly(true, s, start, Joined(z, chunks[..n]), n % U32, discarded))
  }

  function Discards(c: Client): nat {
    if c.asm.active then c.asm.discarded + 1 else c.asm.discarded
  }

  lemma FeedsBegin(k: Config, c: Client, s: uint32, start: int64, chunks: seq<bytes>)
    requires Awaits(c, s)
    ensures Feed(k, c, Message(AppendBegin([], s, start))) == Inside(k.z, c, s, start, chunks, 0, Discards(c))
  {
    DecodeBegin(s, start);
    hide Decode, AppendBegin;
  }

  lemma ChunkAccepted(w: World, k: Config, c: Client, msg: bytes, raw: bytes)
    requires Compatible(w, k) && c.status == Open && c.asm.active
    requires Carries(k.z, msg, c.asm.seq_, c.asm.chunks, raw)
    requires |msg| <= CHUNK_HEADER_SIZE + w.chunkSize && |raw| <= w.chunkSize
    requires |c.asm.buf + raw| <= MAX_PAYLOAD
    ensures Feed(k, c, Message(msg)) == c.(asm := c.asm.(buf := c.asm.buf + raw, chunks := Succ32(c.asm.chunks)))
  {
    hide Decode, ReadLimit, DecoderBound;
  }

  lemma FeedsChunk(w: World, k: Config, c: Client, s: uint32, start: int64, chunks: seq<bytes>, n: nat, discarded: nat)
    requires Compatible(w, k) && k.z == w.z && c.status == Open
    requires Sound(k.z, s, chunks, w.chunkSize) && |Joined(k.z, chunks)| <= MAX_PAYLOAD
    requires n < |chunks|
    ensures Feed(k, Inside(k.z, c, s, start, chunks, n, discarded), Message(chunks[n]))
         == Inside(k.z, c, s, start, chunks, n + 1, discarded)
  {
    hide Decode, Joined, Feed, Compatible, Carries, Payload;
    JoinedStep(k.z, chunks, n);
    JoinedPrefix(k.z, chunks, n + 1);
    assert SoundAt(k.z, s, chunks[n], n, w.chunkSize);
    ChunkAccepted(w, k, Inside(k.z, c, s, start, chunks, n, discarded), chunks[n], Payload(k.z, chunks[n]));
  }

  lemma FeedNothing(k: Config, c: Client)
    ensures FeedFrom(k, c, []) == c
  {
  }

  lemma {:induction false} FeedsChunks(w: World, k: Config, c: Client, s: uint32, start: int64, chunks: seq<bytes>,
                                       i: nat, j: nat, discarded: nat)
    requires Compatible(w, k) && k.z == w.z && c.status == Open
    requires Sound(k.z, s, chunks, w.chunkSize) && |Joined(k.z, chunks)| <= MAX_PAYLOAD
    requires i <= j <= |chunks|
    ensures FeedFrom(k, Inside(k.z, c, s, start, chunks, i, discarded), chunks[i..j])
         == Inside(k.z, c, s, start, chunks, j, discarded)
  {
    hide Feed, FeedFrom, Inside, Sound, Compatible, Joined;
    if i < j {
      FeedsChunks(w, k, c, s, start, chunks, i, j - 1, discarded);
      assert chunks[i..j] == chunks[i..j - 1] + [chunks[j - 1]];
      FeedSnoc(k, Inside(k.z, c, s, start, chunks, i, discarded), chunks[i..j - 1], chunks[j - 1]);
      FeedsChunk(w, k, c, s, start, chunks, j - 1, discarded);
    } else {
      assert chunks[i..j] == [];
      FeedNothing(k, Inside(k.z, c, s, start, chunks, i, discarded));
    }
  }

  /** c after yielding d. */
  function Delivered(k: Config, c: Client, d: Delivery): Client {
    var status :=
      if !k.more(|c.out|) then Stopped
      else if k.range.bounded && d.seq_ >= k.range.to then RangeComplete
      else Open;
    Client(c.track.Advance(d.seq_), Assembly(false, d.seq_, d.emitStart, d.payload, d.chunks, 0), c.out + [d], status)
  }

  lemma EndAccepted(k: Config, c: Client, msg: bytes, emitEnd: int64)
    requires c.status == Open && c.asm.active && |c.asm.buf| < U64 && |msg| == END_SIZE
    requires Decode(msg) == Ok(End(c.asm.seq_, c.asm.chunks, |c.asm.buf|, emitEnd, k.z.hash(c.asm.buf)))
    ensures Feed(k, c, Message(msg))
         == Delivered(k, c, Delivery(c.asm.seq_, c.asm.buf, c.asm.emitStart, emitEnd, c.asm.chunks, c.asm.discarded))
  {
    hide Decode;
  }

  lemma FeedsEnd(k: Config, c: Client, s: uint32, start: int64, emitEnd: int64, chunks: seq<bytes>, discarded: nat)
    requires c.status == Open && |Joined(k.z, chunks)| <= MAX_PAYLOAD
    ensures
      var raw := Joined(k.z, chunks);
      Feed(k, Inside(k.z, c, s, start, chunks, |chunks|, discarded),
           Message(AppendEnd([], s, |chunks| % U32, |raw| % U64, emitEnd, k.z.hash(raw))))
      == Delivered(k, c, Delivery(s, raw, start, emitEnd, |chunks| % U32, discarded))
  {
    hide Decode, AppendEnd, Joined, Feed;
    var raw := Joined(k.z, chunks);
    DecodeEnd(s, |chunks| % U32, |raw| % U64, emitEnd, k.z.hash(raw));
    assert chunks[..|chunks|] == chunks;
    EndAccepted(k, Inside(k.z, c, s, start, chunks, |chunks|, discarded),
                AppendEnd([], s, |chunks| % U32, |raw| % U64, emitEnd, k.z.hash(raw)), emitEnd);
  }

  // ----------------------------------------------------------------- whole flows

  /** Any complete flow of ledger s is yielded as exactly the bytes it carries. */
  lemma FeedsFlow(w: World, k: Config, c: Client, s: uint32, start: int64, emitEnd: int64, chunks: seq<bytes>)
    requires Compatible(w, k) && k.z == w.z && Awaits(c, s)
    requires Sound(k.z, s, chunks, w.chunkSize) && |Joined(k.z, chunks)| <= MAX_PAYLOAD
    ensures
      var raw := Joined(k.z, chunks);
      var end := AppendEnd([], s, |chunks| % U32, |raw| % U64, emitEnd, k.z.hash(raw));
      FeedFrom(k, c, [AppendBegin([], s, start)] + chunks + [end])
      == Delivered(k, c, Delivery(s, raw, start, emitEnd, |chunks| % U32, Discards(c)))
  {
    hide Feed, Inside, Sound, Compatible, Joined, Delivered, AppendBegin, AppendEnd;
    var raw := Joined(k.z, chunks);
    var begin := AppendBegin([], s, start);
    var end := AppendEnd([], s, |chunks| % U32, |raw| % U64, emitEnd, k.z.hash(raw));
    FeedsBegin(k, c, s, start, chunks);
    FeedsChunks(w, k, c, s, start, chunks, 0, |chunks|, Discards(c));
    FeedsEnd(k, c, s, start, emitEnd, chunks, Discards(c));
    assert chunks[0..|chunks|] == chunks;
    FeedOne(k, c, begin);
    FeedAppend(k, c, [begin], chunks);
    FeedSnoc(k, c, [begin] + chunks, end);
  }

  // ------------------------------------------------------------ ring and stampless

  lemma {:induction false} ConcatCons(first: bytes, rest: seq<bytes>)
    ensures Concat([first] + rest) == first + Concat(rest)
  {
    if |rest| > 0 {
      ConcatCons(first, rest[..|rest| - 1]);
      assert ([first] + rest)[..|rest|] == [first] + rest[..|rest| - 1];
    } else {
      assert [first] + rest == [first];
      assert Concat([first]) == Concat([]) + first by {
        assert [first][..0] == [];
      }
    }
  }

  /** Splitting loses nothing, and no piece is empty or over the chunk size. */
  lemma {:induction false} SplitJoins(raw: bytes, n: nat)
    requires n > 0
    ensures Concat(Split(raw, n)) == raw
    ensures forall i :: 0 <= i < |Split(raw, n)| ==> 0 < |Split(raw, n)[i]| <= n
  {
    if |raw| > n {
      SplitJoins(raw[n..], n);
      ConcatCons(raw[..n], Split(raw[n..], n));
      assert raw == raw[..n] + raw[n..];
    } else if |raw| > 0 {
      ConcatCons(raw, []);
      assert [raw] + [] == [raw];
    }
  }

  /** Every piece but the last is of the chunk size, and each is its own stretch of raw. */
  lemma {:induction false} SplitIsEven(raw: bytes, n: nat, i: nat)
    requires n > 0 && i < |Split(raw, n)|
    ensures 0 <= i * n < |raw|
    ensures Split(raw, n)[i] == raw[i * n..Min(i * n + n, |raw|)]
    ensures i < |Split(raw, n)| - 1 <==> i * n + n < |raw|
    decreases i
  {
    if i > 0 {
      SplitIsEven(raw[n..], n, i - 1);
      var lo := (i - 1) * n;
      assert i * n == lo + n;
      assert raw[n..] == raw[n..|raw|];
      SliceOfSlice(raw, n, |raw|, lo, Min(lo + n, |raw| - n));
    } else if |raw| > n {
      assert |Split(raw[n..], n)| > 0;
    }
  }

  /** What a ring replay sends, read back: both stamps zero, the count, the length and the
      hash of the retained bytes, which are cut at every chunkSize bytes; and each chunk a
      zstd frame exactly when replays compress and it saves something. */
  lemma RingFlowSends(w: World, s: uint32, raw: bytes)
    requires Lawful(w.z) && w.chunkSize > 0
    ensures var q := RingFlow(w, s, raw);
      && |q| >= 2 && Decode(q[0]) == Ok(Begin(s, 0))
      && Decode(q[|q| - 1]) == Ok(End(s, (|q| - 2) % U32, |raw| % U64, 0, w.z.hash(raw)))
      && (|q| == 2 <==> raw == [])
      && forall j :: 0 < j < |q| - 1 ==> RingChunk(w, s, raw, j - 1, q[j], j == |q| - 2)
  {
    var pieces := Split(raw, w.chunkSize);
    var q := RingFlow(w, s, raw);
    hide Split, EncodeChunk, AppendBegin, AppendEnd, RingChunk, Decode;
    SplitNone(raw, w.chunkSize);
    DecodeBegin(s, 0);
    DecodeEnd(s, |pieces| % U32, |raw| % U64, 0, w.z.hash(raw));
    forall j | 0 < j < |q| - 1 ensures RingChunk(w, s, raw, j - 1, q[j], j == |q| - 2) {
      assert q[j] == Frame(w, s, pieces)[j - 1];
      RingPiece(w, s, raw, j - 1);
    }
  }

  lemma SplitNone(raw: bytes, n: nat)
    requires n > 0
    ensures |Split(raw, n)| == 0 <==> raw == []
  {
  }

  /** msg is chunk i of a replay of raw. */
  predicate RingChunk(w: World, s: uint32, raw: bytes, i: nat, msg: bytes, last: bool) {
    var lo := i * w.chunkSize;
    && 0 <= lo < |raw|
    && Carries(w.z, msg, s, i % U32, raw[lo..Min(lo + w.chunkSize, |raw|)])
    && (Zipped(msg) <==> w.ringCompress && Shrinks(w.z, raw[lo..Min(lo + w.chunkSize, |raw|)]))
    && (last <==> lo + w.chunkSize >= |raw|)
  }

  lemma RingPiece(w: World, s: uint32, raw: bytes, i: nat)
    requires Lawful(w.z) && w.chunkSize > 0 && i < |Split(raw, w.chunkSize)|
    ensures var piece := Split(raw, w.chunkSize)[i];
      RingChunk(w, s, raw, i, EncodeChunk(w.z, w.ringCompress, s, i % U32, piece), i == |Split(raw, w.chunkSize)| - 1)
  {
    hide Split, EncodeChunk, Decode, Expand, Carries;
    SplitIsEven(raw, w.chunkSize, i);
    var piece := Split(raw, w.chunkSize)[i];
    EncodeChunkCarries(w.z, w.ringCompress, s, i % U32, piece);
    CarriesIsChunk(w.z, EncodeChunk(w.z, w.ringCompress, s, i % U32, piece), s, i % U32, piece);
  }

  lemma CarriesIsChunk(z: Codec, msg: bytes, s: uint32, index: uint32, raw: bytes)
    requires Carries(z, msg, s, index, raw)
    ensures Decode(msg).Ok? && Decode(msg).value.Chunk?
  {
  }

  predicate GoodPieces(pieces: seq<bytes>, n: nat) {
    |pieces| < U32 && forall i :: 0 <= i < |pieces| ==> 0 < |pieces[i]| <= n
  }

  lemma FramedPiece(w: World, s: uint32, i: uint32, piece: bytes)
    requires Lawful(w.z) && 0 < |piece| <= w.chunkSize
    ensures SoundAt(w.z, s, EncodeChunk(w.z, w.ringCompress, s, i, piece), i, w.chunkSize)
    ensures Payload(w.z, EncodeChunk(w.z, w.ringCompress, s, i, piece)) == piece
  {
    hide Decode, EncodeChunk;
    EncodeChunkCarries(w.z, w.ringCompress, s, i, piece);
  }

  /** Framed pieces are a sound chunk run standing for their concatenation. */
  lemma {:induction false} FrameSound(w: World, s: uint32, pieces: seq<bytes>)
    requires Lawful(w.z) && GoodPieces(pieces, w.chunkSize)
    ensures Sound(w.z, s, Frame(w, s, pieces), w.chunkSize)
    ensures Joined(w.z, Frame(w, s, pieces)) == Concat(pieces)
  {
    hide EncodeChunk, Sound, Joined, Payload, Lawful, SoundAt, Frame, GoodPieces, Concat;
    if |pieces| == 0 {
      NothingFramed(w, s, pieces);
    } else {
      var init := pieces[..|pieces| - 1];
      GoodInit(pieces, w.chunkSize);
      FrameSound(w, s, init);
      OneMoreFramed(w, s, init, pieces[|pieces| - 1]);
      assert init + [pieces[|pieces| - 1]] == pieces;
    }
  }

  lemma NothingFramed(w: World, s: uint32, pieces: seq<bytes>)
    requires |pieces| == 0
    ensures Sound(w.z, s, Frame(w, s, pieces), w.chunkSize)
    ensures Joined(w.z, Frame(w, s, pieces)) == Concat(pieces)
  {
  }

  lemma GoodInit(pieces: seq<bytes>, n: nat)
    requires GoodPieces(pieces, n) && |pieces| > 0
    ensures GoodPieces(pieces[..|pieces| - 1], n)
    ensures |pieces| - 1 < U32 && 0 < |pieces[|pieces| - 1]| <= n
  {
  }

  lemma OneMoreFramed(w: World, s: uint32, pieces: seq<bytes>, piece: bytes)
    requires Lawful(w.z) && |pieces| < U32 && 0 < |piece| <= w.chunkSize
    requires Sound(w.z, s, Frame(w, s, pieces), w.chunkSize)
    requires Joined(w.z, Frame(w, s, pieces)) == Concat(pieces)
    ensures Sound(w.z, s, Frame(w, s, pieces + [piece]), w.chunkSize)
    ensures Joined(w.z, Frame(w, s, pieces + [piece])) == Concat(pieces + [piece])
  {
    hide EncodeChunk, Sound, Joined, Payload, Lawful, SoundAt, Frame, Concat;
    var msg := EncodeChunk(w.z, w.ringCompress, s, |pieces|, piece);
    FramedPiece(w, s, |pieces|, piece);
    FrameSnoc(w, s, pieces, piece);
    SoundSnoc(w, s, Frame(w, s, pieces), msg);
    JoinedSnoc(w.z, Frame(w, s, pieces), msg);
    ConcatSnoc(pieces, piece);
  }

  lemma FrameSnoc(w: World, s: uint32, pieces: seq<bytes>, piece: bytes)
    requires |pieces| < U32
    ensures Frame(w, s, pieces + [piece]) ==
      Frame(w, s, pieces) + [EncodeChunk(w.z, w.ringCompress, s, |pieces|, piece)]
  {
    hide EncodeChunk;
  }

  lemma SoundSnoc(w: World, s: uint32, chunks: seq<bytes>, msg: bytes)
    requires Sound(w.z, s, chunks, w.chunkSize) && SoundAt(w.z, s, msg, |chunks|, w.chunkSize)
    ensures Sound(w.z, s, chunks + [msg], w.chunkSize)
  {
    hide SoundAt;
  }

  /** A ring replay is yielded as the retained bytes, stampless. */
  lemma FeedsRing(w: World, k: Config, c: Client, s: uint32, raw: bytes)
    requires GoodWorld(w) && Compatible(w, k) && k.z == w.z && Awaits(c, s)
    requires |raw| <= MAX_PAYLOAD
    ensures exists n: uint32 ::
      FeedFrom(k, c, RingFlow(w, s, raw)) == Delivered(k, c, Delivery(s, raw, 0, 0, n, Discards(c)))
  {
    hide Compatible, Awaits, Delivered, FeedFrom, Joined, Sound, AppendBegin, AppendEnd, Split, Frame;
    var pieces := Split(raw, w.chunkSize);
    SplitJoins(raw, w.chunkSize);
    PiecesBelowBytes(pieces);
    var chunks := Frame(w, s, pieces);
    assert GoodPieces(pieces, w.chunkSize);
    FrameSound(w, s, pieces);
    FeedsFlow(w, k, c, s, 0, 0, chunks);
    assert FeedFrom(k, c, RingFlow(w, s, raw)) == Delivered(k, c, Delivery(s, raw, 0, 0, |pieces| % U32, Discards(c)));
  }

  /** A finished flow handed to a latecomer is yielded whole, stampless. */
  lemma FeedsStampless(w: World, k: Config, c: Client, f: Flow)
    requires Compatible(w, k) && k.z == w.z && Awaits(c, f.seq_)
    requires FlowOk(w, f) && f.end.Some? && |w.history(f.seq_)| <= MAX_PAYLOAD
    ensures StamplessFlow(f, f.end.value).Some?
    ensures FeedFrom(k, c, StamplessFlow(f, f.end.value).value)
         == Delivered(k, c, Delivery(f.seq_, w.history(f.seq_), 0, 0, |f.chunks| % U32, Discards(c)))
  {
    hide Compatible, Awaits, Delivered, FeedFrom, Joined, Sound, AppendBegin, AppendEnd, Decode;
    EndMsgIs(w, f);
    FeedsFlow(w, k, c, f.seq_, 0, 0, f.chunks);
  }
}
