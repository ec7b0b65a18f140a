/** The source loop over its real parts (internal/server/server.go Run): the
    broadcaster it publishes into, the buffers it reads into, the pipeline and the
    hasher that share those buffers, and the retention ring. Everything it does is a
    run of the source side's transition system. */
module SourceLoop {
  import opened Prelude
  import opened Wire
  import opened Chunks
  import opened Retention
  import opened Source
  import opened SourceProofs
  import opened Serve
  import opened Reading
  import opened Arena
  import opened Broadcast
  import opened Store
  import opened Emissions

  /** The conversion uint64(total). */
  function Widened(n: nat): uint64 {
    n % U64
  }

  /** parts beyond the first sent are in flight in the chunk pipeline; the hasher has
      digested the first hashed. trace is the run so far, phase where the loop is. */
  class Loop {
    const w: World
    const b: Broadcaster
    const store: LedgerStore
    const bufs: ChunkArena
    var sent: nat
    var hashed: nat
    var digest: bytes
    ghost var phase: Phase
    ghost var trace: seq<Src>

    /** New: over a store opened on a ring that agrees with this history. */
    constructor (w: World, store: LedgerStore)
      requires GoodWorld(w) && store.Valid() && store.retention == w.retention
      requires w.base == store.Index() && Agrees(w, store.Retained())
      ensures this.w == w && this.store == store
      ensures Valid() && SrcInit(w, Now()) && trace == [Now()]
      ensures fresh(b) && fresh(b.notify) && b.cur == null && fresh(bufs) && fresh(bufs.Repr)
    {
      this.w, this.store := w, store;
      b := new Broadcaster();
      bufs := new ChunkArena(w.chunkSize);
      sent, hashed, digest, phase := 0, 0, [], Idle;
      new;
      InitHolds(w, Now());
      trace := [Now()];
    }

    ghost function Now(): Src
      reads this, b, store, store.dir
    {
      Src(b.flows, phase, store.Index(), store.Retained(), b.Gen(), b.ended, b.failed)
    }

    /** What the loop has done so far is a run of the model, ending in this state. */
    ghost predicate Traced()
      reads this, b, store, store.dir
    {
      |trace| > 0 && IsRun(w, trace) && SrcInit(w, trace[0]) && trace[|trace| - 1] == Now() && SrcInv(w, Now())
    }

    ghost predicate PartsOk()
      reads this, b, b.cells, b.channels, store, store.dir, bufs, bufs.Repr
    {
      && b.Valid() && store.Valid() && bufs.Valid()
      && GoodWorld(w) && bufs.chunkSize == w.chunkSize && store.retention == w.retention
    }

    ghost predicate Valid()
      reads this, b, b.cells, b.channels, store, store.dir, bufs, bufs.Repr
    {
      PartsOk() && Traced() && !phase.Storing?
    }

    /** Inside a ledger whose body has given the first pos bytes of data. */
    ghost predicate Mid(data: bytes, pos: nat)
      reads this, b, bufs
    {
      Going(data, pos, sent)
    }

    /** The same, with the chunks before the first unframed ones handed to the framing. */
    ghost predicate Going(data: bytes, pos: nat, framed: nat)
      reads this, b, bufs
    {
      && phase == Emitting && !b.ended && |b.flows| > 0
      && var f := b.flows[|b.flows| - 1];
      && f.end == None && w.history(f.seq_) == Capped(data)
      && Pieces(bufs.raws, data, pos, w.chunkSize)
      && Carried(w.z, f.chunks, bufs.raws) && |f.chunks| == sent <= |bufs.raws|
      && |bufs.parts| == |bufs.raws| && (forall i :: framed <= i < |bufs.parts| ==> bufs.Unframed(i))
      && hashed <= |bufs.raws| && digest == Concat(bufs.raws[..hashed])
    }

    /** A step of the model has just happened: it goes on the record. */
    ghost method Record()
      requires |trace| > 0 && IsRun(w, trace) && SrcInit(w, trace[0]) && GoodWorld(w)
      requires SrcInv(w, trace[|trace| - 1]) && SrcNext(w, trace[|trace| - 1], Now())
      modifies this`trace
      ensures |trace| > 0 && IsRun(w, trace) && SrcInit(w, trace[0]) && SrcInv(w, Now())
        && trace == old(trace) + [Now()]
    {
      NextKeeps(w, trace[|trace| - 1], Now());
      RunGrows(w, trace, Now());
      hide IsRun, SrcInv, SrcInit;
      trace := trace + [Now()];
    }

    /** The codec choice and the framing of one chunk, as a worker or submit's own
        fallback makes it: compressed into a buffer of its own when that is smaller, else
        framed raw where it was read. Only a queue found full keeps a chunk from the
        encoders. */
    method FrameJob(i: nat, s: uint32, index: uint32) returns (msg: bytes, ghost compressed: bool)
      requires bufs.Valid() && i < |bufs.parts| && bufs.Unframed(i)
      modifies bufs`handed, bufs.Repr
      ensures bufs.Valid() && msg == EncodeChunk(w.z, compressed, s, index, bufs.raws[i])
      ensures (compressed ==> w.compress) && (w.compress && !w.crowded ==> compressed)
      ensures old(bufs.handed) <= bufs.handed
      ensures forall j :: i < j < |bufs.parts| && old(bufs.Unframed(j)) ==> bufs.Unframed(j)
    {
      var full: bool :| full ==> w.crowded;
      compressed := w.compress && !full;
      if w.compress && !full {
        var raw := bufs.Data(i);
        var frame := w.z.compress(raw);
        if |frame| < |raw| {
          return AppendChunkHeader([], s, index, CODEC_ZSTD) + frame, true;
        }
      }
      bufs.PartsDiffer(i);
      msg := bufs.FrameInPlace(i, s, index);
    }

    /** The publisher's turn: the oldest chunk in flight goes out. */
    method PublishNext(ghost data: bytes, ghost pos: nat)
      requires Valid() && Mid(data, pos) && sent < |bufs.parts|
      modifies this`sent, this`trace, b, b.notify, b.cur, bufs`handed, bufs.Repr
      ensures Valid() && Mid(data, pos) && sent == old(sent) + 1 && Seqs(b.flows) == old(Seqs(b.flows))
      ensures fresh(b.notify) && b.cur == old(b.cur) && old(bufs.handed) <= bufs.handed
    {
      hide SrcInit, SrcInv, SrcNext, IsRun, Pieces, Carried, EncodeChunk, Capped, GoodWorld, PublishChunk;
      hide AllHold, Disjoint, Kept, Clear, Indexes, Concat;
      var msg, compressed := FrameJob(sent, b.cur.seq_, sent % U32);
      Publish(msg, data, pos, compressed);
    }

    method Publish(msg: bytes, ghost data: bytes, ghost pos: nat, ghost compressed: bool)
      requires Valid() && sent < |bufs.parts| && |bufs.parts| == |bufs.raws|
      requires Going(data, pos, sent + 1)
      requires msg == EncodeChunk(w.z, compressed, b.cur.seq_, sent % U32, bufs.raws[sent])
      requires (compressed ==> w.compress) && (w.compress && !w.crowded ==> compressed)
      modifies this`sent, this`trace, b, b.notify, b.cur
      ensures Valid() && Mid(data, pos) && sent == old(sent) + 1 && Seqs(b.flows) == old(Seqs(b.flows))
      ensures fresh(b.notify) && b.cur == old(b.cur)
    {
      hide *;
      PartsMidBody(data, pos);
      GoingMeans(data, pos, sent + 1);
      b.Chunk(msg);
      sent := sent + 1;
      ghost var s := trace[|trace| - 1];
      ChunkStep(s, data, pos, compressed, msg);
      Record();
      ChunkStep(s, data, pos, compressed, msg);
      ValidFromParts();
    }

    /** What stands when the next chunk has been framed and not yet published. */
    lemma PartsMidBody(data: bytes, pos: nat)
      requires Valid() && Going(data, pos, sent + 1) && sent < |bufs.parts|
      ensures b.Valid() && b.cur != null && b.Open() && !b.ended && !b.failed && store.Valid() && bufs.Valid()
      ensures GoodWorld(w) && bufs.chunkSize == w.chunkSize && store.retention == w.retention && !phase.Storing?
      ensures |trace| > 0 && IsRun(w, trace) && SrcInit(w, trace[0]) && trace[|trace| - 1] == Now() && SrcInv(w, Now())
      ensures Now() == Src(b.flows, Emitting, store.Index(), store.Retained(), b.Gen(), false, false)
      ensures |b.flows| > 0 && b.cur.seq_ == b.flows[|b.flows| - 1].seq_
    {
      hide GoodWorld, IsRun, SrcInit, SrcInv, AllHold, Disjoint, Kept, Clear, LedgerStore.Valid, Broadcaster.ChannelsOk;
      hide Concat, Capped, Pieces, Carried;
    }

    lemma GoingMeans(data: bytes, pos: nat, framed: nat)
      requires Going(data, pos, framed)
      ensures phase == Emitting && !b.ended && |b.flows| > 0
      ensures var f := b.flows[|b.flows| - 1];
        && f.end == None && w.history(f.seq_) == Capped(data) && Pieces(bufs.raws, data, pos, w.chunkSize)
        && Carried(w.z, f.chunks, bufs.raws) && |f.chunks| == sent <= |bufs.raws|
      ensures |bufs.parts| == |bufs.raws| && (forall i :: framed <= i < |bufs.parts| ==> bufs.Unframed(i))
      ensures hashed <= |bufs.raws| && digest == Concat(bufs.raws[..hashed])
    {
      hide Capped, Pieces, Carried, Concat;
    }

    lemma ChunkStep(s: Src, data: bytes, pos: nat, compressed: bool, msg: bytes)
      requires GoodWorld(w) && s == Src(s.flows, Emitting, store.Index(), store.Retained(), s.gen, false, false)
      requires |s.flows| > 0 && b.flows == Appended(s.flows, msg) && b.Gen() == s.gen + 1 && !b.ended && !b.failed
      requires phase == Emitting && 0 < sent <= |bufs.raws|
      requires var f := s.flows[|s.flows| - 1];
        && f.end == None && w.history(f.seq_) == Capped(data) && Pieces(bufs.raws, data, pos, w.chunkSize)
        && Carried(w.z, f.chunks, bufs.raws) && |f.chunks| == sent - 1
        && |bufs.parts| == |bufs.raws| && (forall i :: sent <= i < |bufs.parts| ==> bufs.Unframed(i))
        && hashed <= |bufs.raws| && digest == Concat(bufs.raws[..hashed])
        && msg == EncodeChunk(w.z, compressed, f.seq_, (sent - 1) % U32, bufs.raws[sent - 1])
      requires (compressed ==> w.compress) && (w.compress && !w.crowded ==> compressed)
      ensures SrcNext(w, s, Now()) && Mid(data, pos) && Seqs(b.flows) == Seqs(s.flows)
    {
      hide SrcNext, EncodeChunk, Capped, Pieces, Carried, Concat, GoodWorld, PublishChunk;
      PublishIsStep(w, s, bufs.raws, data, pos, compressed, msg, Now());
    }

    /** Publishing in submission order until only what was submitted after stop is in
        flight: to the end it is flush, and it is what close drains too. */
    method Drain(stop: nat, ghost data: bytes, ghost pos: nat)
      requires Valid() && Mid(data, pos) && sent <= stop <= |bufs.parts|
      modifies this`sent, this`trace, b, b.notify, b.cur, bufs`handed, bufs.Repr
      ensures Valid() && Mid(data, pos) && sent == stop && Seqs(b.flows) == old(Seqs(b.flows))
      ensures (fresh(b.notify) || b.notify == old(b.notify)) && b.cur == old(b.cur) && old(bufs.handed) <= bufs.handed
    {
      hide SrcInit, SrcInv, SrcNext, IsRun, Pieces, Carried, EncodeChunk, Capped, GoodWorld;
      hide AllHold, Disjoint, Kept, Clear, Indexes, Concat;
      while sent < stop
        invariant Valid() && Mid(data, pos) && sent <= stop && Seqs(b.flows) == old(Seqs(b.flows))
        invariant (fresh(b.notify) || b.notify == old(b.notify)) && b.cur == old(b.cur)
          && old(bufs.handed) <= bufs.handed
      {
        PublishNext(data, pos);
      }
    }

    /** The hasher's turn: it has digested the next chunk, off the buffer the chunk
        still lies in. */
    method HashNext(ghost data: bytes, ghost pos: nat)
      requires Valid() && Mid(data, pos) && hashed < |bufs.parts|
      modifies this`hashed, this`digest
      ensures Valid() && Mid(data, pos) && hashed == old(hashed) + 1
    {
      hide SrcInit, SrcInv, SrcNext, IsRun, Pieces, Carried, Capped, GoodWorld;
      hide AllHold, Disjoint, Kept, Clear, Indexes;
      var raw := bufs.Data(hashed);
      ConcatSnoc(bufs.raws[..hashed], bufs.raws[hashed]);
      assert bufs.raws[..hashed + 1] == bufs.raws[..hashed] + [bufs.raws[hashed]];
      digest := digest + raw;
      hashed := hashed + 1;
    }

    method Hash(stop: nat, ghost data: bytes, ghost pos: nat)
      requires Valid() && Mid(data, pos) && hashed <= stop <= |bufs.parts|
      modifies this`hashed, this`digest
      ensures Valid() && Mid(data, pos) && hashed == stop
    {
      hide SrcInit, SrcInv, SrcNext, IsRun, Pieces, Carried, Capped, GoodWorld;
      hide AllHold, Disjoint, Kept, Clear, Indexes, Concat;
      while hashed < stop
        invariant Valid() && Mid(data, pos) && hashed <= stop
      {
        HashNext(data, pos);
      }
    }

    /** ledgerHasher.sum: it does not answer before it has digested every chunk. */
    method Sum(ghost data: bytes, ghost pos: nat) returns (checksum: uint64)
      requires Valid() && Mid(data, pos)
      modifies this`hashed, this`digest
      ensures Valid() && Mid(data, pos)
      ensures checksum == w.z.hash(Concat(bufs.raws))
    {
      hide SrcInit, SrcInv, SrcNext, IsRun, Pieces, Carried, Capped, GoodWorld;
      hide AllHold, Disjoint, Kept, Clear, Indexes, Concat;
      Hash(|bufs.parts|, data, pos);
      assert bufs.raws[..hashed] == bufs.raws;
      checksum := w.z.hash(digest);
    }

    /** submit, and what the publisher and the hasher get done before the next read:
        any number of turns each, or, without compression, publication at once. */
    method Submit(ghost data: bytes, ghost pos: nat)
      requires Valid() && Mid(data, pos)
      modifies this`sent, this`hashed, this`digest, this`trace, b, b.notify, b.cur, bufs`handed, bufs.Repr
      ensures Valid() && Mid(data, pos) && Seqs(b.flows) == old(Seqs(b.flows))
      ensures !w.compress ==> sent == |bufs.parts|
      ensures (fresh(b.notify) || b.notify == old(b.notify)) && b.cur == old(b.cur) && old(bufs.handed) <= bufs.handed
    {
      hide *;
      MidMeans(data, pos);
      var published := |bufs.parts|;
      if w.compress {
        var turns: int :| 0 <= turns <= published - sent;
        published := sent + turns;
      }
      Drain(published, data, pos);
      MidMeans(data, pos);
      var digests: int :| 0 <= digests <= |bufs.parts| - hashed;
      Hash(hashed + digests, data, pos);
    }

    /** Opening a ledger: a fresh arena, then the BEGIN. */
    method Open(em: Emission)
      requires Valid() && phase == Idle && !b.ended
      requires Prev(Now()) == 0 || em.seq_ == Succ32(Prev(Now()))
      requires w.history(em.seq_) == Capped(em.data)
      modifies this, b, b.notify, bufs
      ensures Valid() && Mid(em.data, 0) && bufs.raws == []
      ensures em.size > 0 && |em.data| <= em.size ==> bufs.Even(em.size, em.data, 0)
      ensures fresh(b.notify) && fresh(b.cur) && fresh(bufs.Repr - old(bufs.Repr)) && bufs.handed == old(bufs.handed)
      ensures b.flows == old(b.flows) + [Flow(em.seq_, w.began(em.seq_), [], None)]
    {
      hide *;
      MakeRoom(em);
      BeginFlow(em.seq_);
      NothingRead(em.data);
    }

    method MakeRoom(em: Emission)
      requires Valid() && phase == Idle && !b.ended
      modifies this`sent, this`hashed, this`digest, bufs
      ensures Valid() && Now() == old(Now())
      ensures bufs.raws == [] && bufs.parts == [] && sent == 0 && hashed == 0 && digest == []
      ensures em.size > 0 ==> bufs.Even(em.size, em.data, 0)
      ensures fresh(bufs.Repr - old(bufs.Repr)) && bufs.handed == old(bufs.handed)
    {
      hide *;
      PartsBetweenLedgers();
      bufs.Start(if em.size > 0 then em.size else 0);
      bufs.NothingCut(if em.size > 0 then em.size else 0, em.data);
      sent, hashed, digest := 0, 0, [];
      NowUnfolds();
      ValidFromParts();
    }

    method BeginFlow(s: uint32)
      requires Valid() && phase == Idle && !b.ended
      requires Prev(Now()) == 0 || s == Succ32(Prev(Now()))
      modifies this`phase, this`trace, b, b.notify
      ensures Valid() && phase == Emitting && !b.ended
      ensures fresh(b.notify) && fresh(b.cur)
      ensures b.flows == old(b.flows) + [Flow(s, w.began(s), [], None)]
    {
      hide *;
      PartsBetweenLedgers();
      var start := w.began(s);
      BeginMsgIs(s, start);
      b.Begin(s, start, AppendBegin([], s, start));
      phase := Emitting;
      BeginIsStep(trace[|trace| - 1], s);
      Record();
      ValidFromParts();
    }

    /** What stands between ledgers, part by part. */
    lemma PartsBetweenLedgers()
      requires Valid() && phase == Idle && !b.ended
      ensures b.Valid() && !b.Open() && !b.failed && store.Valid() && bufs.Valid() && bufs.chunkSize > 0
      ensures GoodWorld(w) && bufs.chunkSize == w.chunkSize && store.retention == w.retention
      ensures |trace| > 0 && IsRun(w, trace) && SrcInit(w, trace[0]) && trace[|trace| - 1] == Now()
        && SrcInv(w, trace[|trace| - 1])
      ensures Now() == Src(b.flows, Idle, store.Index(), store.Retained(), b.Gen(), false, false)
    {
      hide GoodWorld, IsRun, SrcInit, FlowOk, Dense, RingOk, AllHold, Disjoint, Kept, Clear, LedgerStore.Valid,
           Broadcaster.ChannelsOk;
    }

    lemma NowUnfolds()
      ensures Now() == Src(b.flows, phase, store.Index(), store.Retained(), b.Gen(), b.ended, b.failed)
    {
    }

    lemma BeginMsgIs(s: uint32, start: int64)
      ensures AppendBegin([], s, start) == Flow(s, start, [], None).BeginMsg()
    {
    }

    lemma BeginIsStep(s: Src, ledger: uint32)
      requires s == Src(s.flows, Idle, store.Index(), store.Retained(), s.gen, false, false)
      requires b.flows == s.flows + [Flow(ledger, w.began(ledger), [], None)] && b.Gen() == s.gen + 1
      requires phase == Emitting && !b.ended && !b.failed
      requires Prev(s) == 0 || ledger == Succ32(Prev(s))
      ensures SrcNext(w, s, Now())
    {
      assert BeginLedger(w, s, Now(), ledger);
    }

    lemma ValidFromParts()
      requires b.Valid() && store.Valid() && bufs.Valid() && !phase.Storing?
      requires |trace| > 0 && IsRun(w, trace) && SrcInit(w, trace[0]) && trace[|trace| - 1] == Now() && SrcInv(w, Now())
      requires GoodWorld(w) && bufs.chunkSize == w.chunkSize && store.retention == w.retention
      ensures Valid()
    {
    }

    lemma NothingRead(data: bytes)
      requires phase == Emitting && !b.ended && |b.flows| > 0
      requires var f := b.flows[|b.flows| - 1]; f.end == None && f.chunks == [] && w.history(f.seq_) == Capped(data)
      requires bufs.raws == [] && bufs.parts == [] && sent == 0 && hashed == 0 && digest == []
      ensures Mid(data, 0)
    {
    }

    /** One turn of the read loop. */
    method ReadOne(body: Body, total: nat, chunkIdx: uint32, ghost size: nat)
      returns (read: nat, index: uint32, err: ReadError, over: bool)
      requires Valid() && Mid(body.data, body.pos) && total == body.pos && chunkIdx == |bufs.raws|
      modifies this`sent, this`hashed, this`digest, this`trace, b, b.notify, b.cur, bufs, bufs.Repr, body
      ensures Valid() && old(body.pos) <= read <= body.pos <= |body.data| && (!over ==> read == body.pos)
      ensures Mid(body.data, read) && Seqs(b.flows) == old(Seqs(b.flows)) && index == |bufs.raws|
      ensures over ==> |body.data| > MAX_PAYLOAD
      ensures err == Eof && !over ==> read == |body.data|
      ensures err == NoError && !over ==> old(body.pos) < read
      ensures Healthy(body.answers) ==> err == NoError || err == Eof
      ensures err == Reading.Cancelled ==> Cancels(body.answers)
      ensures |body.data| <= size && old(bufs.Even(size, body.data, body.pos)) && !over ==>
        && (err == NoError ==> bufs.Even(size, body.data, read))
        && (err == NoError || err == Eof ==> bufs.CutAt(body.data, read))
      ensures (fresh(b.notify) || b.notify == old(b.notify)) && b.cur == old(b.cur)
      ensures fresh(bufs.Repr - old(bufs.Repr)) && old(bufs.handed) <= bufs.handed
    {
      hide SrcInit, SrcInv, SrcNext, IsRun, Pieces, Carried, Capped, GoodWorld, CutEvenly, FullChunks, Going;
      hide Broadcaster.Valid, Broadcaster.Open, LedgerStore.Valid, ChunkArena.Valid, Seqs, Healthy, Cancels;
      var n: nat;
      n, err, over := ReadNext(body, total, size);
      read, index := total, chunkIdx;
      if !over {
        Submit(body.data, body.pos);
        read := total + n;
        if n > 0 {
          index := Succ32(chunkIdx);
        }
        CountFits(body.data, body.pos);
      }
    }

    method ReadNext(body: Body, total: nat, ghost size: nat) returns (n: nat, err: ReadError, over: bool)
      requires Valid() && Mid(body.data, body.pos) && total == body.pos
      modifies bufs, bufs.Repr, body
      ensures Valid() && body.pos == old(body.pos) + n <= |body.data|
      ensures Mid(body.data, if over then old(body.pos) else body.pos)
      ensures |bufs.raws| == |old(bufs.raws)| + (if n > 0 && !over then 1 else 0)
      ensures over ==> |body.data| > MAX_PAYLOAD
      ensures err == Eof ==> body.pos == |body.data|
      ensures err == NoError ==> 0 < n
      ensures Healthy(body.answers) ==> err == NoError || err == Eof
      ensures err == Reading.Cancelled ==> Cancels(body.answers)
      ensures |body.data| <= size && old(bufs.Even(size, body.data, body.pos)) && !over ==>
        && (err == NoError ==> bufs.Even(size, body.data, body.pos))
        && (err == NoError || err == Eof ==> bufs.CutAt(body.data, body.pos))
      ensures fresh(bufs.Repr - old(bufs.Repr)) && old(bufs.handed) == bufs.handed
    {
      hide SrcInit, SrcInv, SrcNext, IsRun, Capped, GoodWorld, CutEvenly, FullChunks, Payload;
      hide AllHold, Disjoint, Kept, Clear, Indexes, Concat, AllWell, Healthy, Cancels;
      ghost var pos := body.pos;
      ghost var asked := body.asked;
      n, err, over := bufs.Next(body, total, size);
      HealthyIsWell(body.answers, asked, body.asked);
      assert bufs.raws[..hashed] == old(bufs.raws)[..hashed];
      forall i | sent <= i < |old(bufs.parts)| ensures bufs.Unframed(i) {
        assert old(bufs.Unframed(i)) && bufs.parts[i] == old(bufs.parts)[i];
      }
      if n > 0 && !over {
        PiecesSnoc(old(bufs.raws), body.data, pos, n, w.chunkSize);
        assert bufs.raws == old(bufs.raws) + [body.data[pos..pos + n]];
      } else {
        assert bufs.raws == old(bufs.raws);
      }
    }

    /** Reading a body to whatever end it comes to. Every chunk index is the number of
        chunks before it, and the loop ends against any reader. */
    method ReadBody(body: Body, ghost size: nat) returns (total: nat, chunkIdx: uint32, err: ReadError, over: bool)
      requires Valid() && Mid(body.data, 0) && body.pos == 0 && bufs.raws == [] && bufs.chunkSize > 0
      requires 0 < size && |body.data| <= size ==> bufs.Even(size, body.data, 0)
      modifies this`sent, this`hashed, this`digest, this`trace, b, b.notify, b.cur, bufs, bufs.Repr, body
      ensures Valid() && Mid(body.data, total) && Seqs(b.flows) == old(Seqs(b.flows))
      ensures chunkIdx == |bufs.raws|
      ensures over ==> |body.data| > MAX_PAYLOAD
      ensures err != NoError || over
      ensures Healthy(body.answers) ==> err == NoError || err == Eof
      ensures err == Reading.Cancelled ==> Cancels(body.answers)
      ensures err == Eof && !over ==> total == |body.data|
      ensures err == Eof && !over && 0 < size && |body.data| <= size ==> bufs.CutAt(body.data, total)
      ensures (fresh(b.notify) || b.notify == old(b.notify)) && b.cur == old(b.cur)
      ensures fresh(bufs.Repr - old(bufs.Repr)) && old(bufs.handed) <= bufs.handed
    {
      hide *;
      total, chunkIdx, err, over := 0, 0, NoError, false;
      while err == NoError && !over
        invariant bufs.chunkSize > 0 && chunkIdx == |bufs.raws|
        invariant Valid() && total <= body.pos <= |body.data| && (!over ==> total == body.pos)
        invariant Mid(body.data, total) && Seqs(b.flows) == old(Seqs(b.flows))
        invariant over ==> |body.data| > MAX_PAYLOAD
        invariant Healthy(body.answers) ==> err == NoError || err == Eof
        invariant err == Reading.Cancelled ==> Cancels(body.answers)
        invariant err == Eof && !over ==> total == |body.data|
        invariant 0 < size && |body.data| <= size && err == NoError && !over ==> bufs.Even(size, body.data, total)
        invariant 0 < size && |body.data| <= size && err == Eof && !over ==> bufs.CutAt(body.data, total)
        invariant (fresh(b.notify) || b.notify == old(b.notify)) && b.cur == old(b.cur)
        invariant fresh(bufs.Repr - old(bufs.Repr)) && old(bufs.handed) <= bufs.handed
        decreases |body.data| - body.pos, err == NoError && !over
      {
        total, chunkIdx, err, over := ReadOne(body, total, chunkIdx, size);
      }
    }

    /** The count of chunks never reaches what its uint32 can hold. */
    lemma CountFits(data: bytes, pos: nat)
      requires Mid(data, pos)
      ensures |bufs.raws| == |bufs.parts| < U32
    {
      PiecesBelowBytes(bufs.raws);
    }

    /** END: the counts and the checksum of exactly what was published. */
    method EndFlow(body: Body, total: nat, chunkIdx: uint32)
      requires Valid() && Mid(body.data, total) && total == |body.data|
      requires sent == |bufs.parts| && chunkIdx == |bufs.raws|
      modifies this`hashed, this`digest, this`phase, this`trace, b, b.notify, b.cur
      ensures Valid() && phase == Ended && !b.ended && Seqs(b.flows) == old(Seqs(b.flows))
      ensures fresh(b.notify) && b.cur == old(b.cur)
      ensures |b.flows| > 0 && Carried(w.z, b.flows[|b.flows| - 1].chunks, bufs.raws)
      ensures |b.flows[|b.flows| - 1].chunks| == |bufs.raws|
    {
      hide *;
      var checksum := Sum(body.data, total);
      PartsAtBodyEnd(body.data, total);
      var msg := AppendEnd([], b.cur.seq_, chunkIdx, Widened(total), w.ended(b.cur.seq_), checksum);
      b.End(msg);
      phase := Ended;
      EndStep(trace[|trace| - 1], body.data, chunkIdx, msg);
      Record();
      ValidFromParts();
    }

    /** What stands once a body has been read to its end and published. */
    lemma PartsAtBodyEnd(data: bytes, pos: nat)
      requires Valid() && Mid(data, pos) && sent == |bufs.parts|
      ensures b.Valid() && b.cur != null && b.Open() && !b.ended && !b.failed && store.Valid() && bufs.Valid()
      ensures GoodWorld(w) && bufs.chunkSize == w.chunkSize && store.retention == w.retention
      ensures |trace| > 0 && IsRun(w, trace) && SrcInit(w, trace[0]) && trace[|trace| - 1] == Now()
        && SrcInv(w, trace[|trace| - 1])
      ensures Now() == Src(b.flows, Emitting, store.Index(), store.Retained(), b.Gen(), false, false)
      ensures |b.flows| > 0
      ensures var f := b.flows[|b.flows| - 1];
        && b.cur.seq_ == f.seq_ && f.end == None && w.history(f.seq_) == Capped(data)
        && Pieces(bufs.raws, data, pos, w.chunkSize)
        && Carried(w.z, f.chunks, bufs.raws) && |f.chunks| == |bufs.raws|
    {
      hide GoodWorld, IsRun, SrcInit, SrcInv, AllHold, Disjoint, Kept, Clear, LedgerStore.Valid,
           Broadcaster.ChannelsOk, Concat, Capped, Pieces, Carried;
    }

    lemma EndStep(s: Src, data: bytes, chunkIdx: uint32, msg: bytes)
      requires s == Src(s.flows, Emitting, store.Index(), store.Retained(), s.gen, false, false) && |s.flows| > 0
      requires b.flows == Broadcast.Closed(s.flows, msg) && b.Gen() == s.gen + 1 && phase == Ended && !b.ended
        && !b.failed
      requires var f := s.flows[|s.flows| - 1];
        && f.end == None && w.history(f.seq_) == Capped(data) && Pieces(bufs.raws, data, |data|, w.chunkSize)
        && Carried(w.z, f.chunks, bufs.raws) && |f.chunks| == |bufs.raws|
        && chunkIdx == |bufs.raws|
        && msg == AppendEnd([], f.seq_, chunkIdx, Widened(|data|), w.ended(f.seq_), w.z.hash(Concat(bufs.raws)))
      ensures SrcNext(w, s, Now()) && Seqs(b.flows) == Seqs(s.flows)
      ensures |b.flows| > 0 && Carried(w.z, b.flows[|b.flows| - 1].chunks, bufs.raws)
      ensures |b.flows[|b.flows| - 1].chunks| == |bufs.raws|
    {
      hide SrcNext, AppendEnd, Capped, Pieces, Carried, Concat;
      EndIsStep(w, s, bufs.raws, data, msg, Now());
    }

    /** PutParts: the ring keeps the very bytes that were published. */
    method Retain() returns (ok: bool)
      requires Valid() && phase == Ended && !b.ended && |b.flows| > 0
      requires Concat(bufs.raws) == w.history(b.flows[|b.flows| - 1].seq_)
      modifies this`phase, this`trace, store, store.dir
      ensures Valid() && ok == (b.flows[|b.flows| - 1].seq_ != 0)
      ensures phase == (if ok then Idle else Ended)
    {
      hide *;
      ghost var was := Now();
      PartsAfterEnd();
      ok := PutParts();
      NowUnfolds();
      if ok {
        ghost var more := StoredRun(w, trace, was);
        phase := Idle;
        trace := more;
        NowUnfolds();
        AfterPutUnfolds(was);
      }
      ValidFromParts();
    }

    /** What stands once an END is out. */
    lemma PartsAfterEnd()
      requires Valid() && phase == Ended && !b.ended && |b.flows| > 0
      ensures b.Valid() && b.cur != null && store.Valid() && bufs.Valid()
      ensures GoodWorld(w) && bufs.chunkSize == w.chunkSize && store.retention == w.retention && w.retention > 0
      ensures |trace| > 0 && IsRun(w, trace) && SrcInit(w, trace[0]) && trace[|trace| - 1] == Now() && SrcInv(w, Now())
      ensures Now() == Src(b.flows, Ended, store.Index(), store.Retained(), b.Gen(), b.ended, b.failed)
      ensures b.cur.seq_ == Prev(Now()) == b.flows[|b.flows| - 1].seq_
      ensures Indexes(store.Index(), store.Retained())
    {
      hide IsRun, SrcInit, SrcInv, AllHold, Disjoint, Kept, Clear, Broadcaster.ChannelsOk, Indexes;
    }

    lemma AfterPutUnfolds(s: Src)
      requires w.retention > 0 && Prev(s) != 0 && Indexes(s.ring, s.disk)
      ensures AfterPut(w, s) == s.(
        phase := Idle,
        ring := PutRing(s.ring, Prev(s), w.retention),
        disk := PutSpec(s.ring, s.disk, Prev(s), w.history(Prev(s)), w.retention))
    {
      hide PutRing, PutSpec;
    }

    /** The store's own part of it. */
    method PutParts() returns (ok: bool)
      requires b.Valid() && b.cur != null && store.Valid() && bufs.Valid() && Indexes(store.Index(), store.Retained())
      modifies store, store.dir
      ensures store.Valid() && ok == (b.cur.seq_ != 0)
      ensures !ok ==> store.Index() == old(store.Index()) && store.Retained() == old(store.Retained())
      ensures ok ==>
        && store.Index() == PutRing(old(store.Index()), b.cur.seq_, store.retention)
        && store.Retained() ==
          PutSpec(old(store.Index()), old(store.Retained()), b.cur.seq_, Concat(bufs.raws), store.retention)
    {
      hide PutRing, PutSpec, PutTrace, Concat, LeftBehind, Indexes, Broadcaster.Valid, ChunkArena.Valid;
      var parts := bufs.Payloads();
      var r := store.Put(b.cur.seq_, parts);
      ok := r.Ok?;
    }

    /** Mid-ledger, whatever is in flight can still be drained. */
    ghost predicate Drainable()
      reads this, b, bufs
    {
      phase == Emitting ==> exists data: bytes, pos: nat :: Mid(data, pos)
    }

    /** What Emit answers, from what its parts found. */
    lemma EmitJudged(em: Emission, answers: nat -> Answer, err: ReadError, over: bool, out: Option<Outcome>)
      requires over ==> |em.data| > MAX_PAYLOAD && out == Some(RanPastCap)
      requires !over && err == Eof ==> |em.data| <= MAX_PAYLOAD && out == BodyFate(em)
      requires !over && err != Eof ==>
        err != NoError && out == Some(if err == Reading.Cancelled then Outcome.Cancelled else SourceFailed)
      requires (Healthy(answers) ==> err == NoError || err == Eof) && (err == Reading.Cancelled ==> Cancels(answers))
      ensures Judged(BodyFate(em), answers, out)
      ensures out.Some? ==> out.value in [RanPastCap, WrongSize, SourceFailed, Outcome.Cancelled]
    {
      hide Healthy, Cancels;
    }

    lemma SizeFate(em: Emission)
      requires |em.data| <= MAX_PAYLOAD
      ensures BodyFate(em) == if em.size > 0 && |em.data| != em.size then Some(WrongSize) else None
    {
    }

    /** What Relay answers, from what Emit and Retain did. */
    lemma RelayJudged(prevSeq: uint32, em: Emission, answers: nat -> Answer,
                      emitted: Option<Outcome>, out: Option<Outcome>)
      requires (prevSeq == 0 || em.seq_ == Succ32(prevSeq)) && em.size <= MAX_PAYLOAD
      requires Judged(BodyFate(em), answers, emitted)
      requires out == if emitted.Some? then emitted else if em.seq_ == 0 then Some(NotRetainable) else None
      ensures Judged(Fate(prevSeq, em), answers, out)
    {
      hide Healthy, Cancels;
    }

    lemma RefusedAtOnce(prevSeq: uint32, em: Emission, answers: nat -> Answer)
      ensures prevSeq != 0 && em.seq_ != Succ32(prevSeq) ==> Judged(Fate(prevSeq, em), answers, Some(NotDense))
      ensures !(prevSeq != 0 && em.seq_ != Succ32(prevSeq)) && em.size > MAX_PAYLOAD ==>
        Judged(Fate(prevSeq, em), answers, Some(OverCap))
    {
    }

    lemma MidMeans(data: bytes, pos: nat)
      requires Mid(data, pos)
      ensures phase == Emitting && !b.ended && Drainable() && pos <= MAX_PAYLOAD
      ensures sent <= |bufs.parts| == |bufs.raws| && hashed <= |bufs.parts|
    {
    }

    /** What is known of a body read to its end, before its END is published. */
    lemma WholeBody(em: Emission)
      requires Mid(em.data, |em.data|) && (em.size > 0 ==> |em.data| == em.size)
      requires em.size > 0 ==> bufs.chunkSize > 0 && bufs.CutAt(em.data, |em.data|)
      ensures |em.data| <= MAX_PAYLOAD && Concat(bufs.raws) == em.data
      ensures em.size > 0 ==> bufs.chunkSize > 0 && bufs.raws == Split(em.data, bufs.chunkSize)
    {
      assert em.data[..|em.data|] == em.data && em.data[|em.data|..] == [];
      if em.size > 0 {
        SplitNothing(bufs.chunkSize);
      }
    }

    lemma WholeIs(em: Emission)
      requires |em.data| <= MAX_PAYLOAD && (em.size > 0 ==> |em.data| == em.size)
      requires |b.flows| > 0 && Concat(bufs.raws) == em.data
      requires var f := b.flows[|b.flows| - 1];
        f.seq_ == em.seq_ && Carried(w.z, f.chunks, bufs.raws) && |f.chunks| == |bufs.raws|
      requires em.size > 0 ==> bufs.chunkSize > 0 && bufs.raws == Split(em.data, bufs.chunkSize)
      requires bufs.chunkSize == w.chunkSize && phase != Emitting
      ensures Whole(w, em, b.flows, bufs.raws) && Drainable()
    {
    }

    /** One ledger from BEGIN to END, or to whatever stops it short of END. */
    method Emit(em: Emission, answers: nat -> Answer) returns (out: Option<Outcome>)
      requires Valid() && phase == Idle && !b.ended
      requires Prev(Now()) == 0 || em.seq_ == Succ32(Prev(Now()))
      requires w.history(em.seq_) == Capped(em.data)
      modifies this, b, b.notify, bufs, bufs.Repr
      ensures Valid() && !b.ended && phase == (if out.None? then Ended else Emitting) && Drainable()
      ensures Seqs(b.flows) == old(Seqs(b.flows)) + [em.seq_]
      ensures out.None? ==> Whole(w, em, b.flows, bufs.raws)
      ensures Judged(BodyFate(em), answers, out)
      ensures out.Some? ==> out.value in [RanPastCap, WrongSize, SourceFailed, Outcome.Cancelled]
      ensures fresh(b.notify) && b.cur != null && fresh(b.cur)
      ensures fresh(bufs.Repr - old(bufs.Repr)) && old(bufs.handed) <= bufs.handed
    {
      hide *;
      var body := new Body(em.data, answers);
      var total, chunkIdx, err, over := OpenAndRead(em, body);
      MidMeans(em.data, total);
      SeqsLast(b.flows, old(Seqs(b.flows)), em.seq_);
      if over {
        out := Some(RanPastCap);
      } else if err == Eof {
        out := FlushAndEnd(em, body, total, chunkIdx);
      } else {
        out := Some(if err == Reading.Cancelled then Outcome.Cancelled else SourceFailed);
      }
      EmitJudged(em, answers, err, over, out);
    }

    method OpenAndRead(em: Emission, body: Body) returns (total: nat, chunkIdx: uint32, err: ReadError, over: bool)
      requires Valid() && phase == Idle && !b.ended && body.data == em.data && body.pos == 0
      requires Prev(Now()) == 0 || em.seq_ == Succ32(Prev(Now()))
      requires w.history(em.seq_) == Capped(em.data)
      modifies this, b, b.notify, bufs, bufs.Repr, body
      ensures Valid() && Mid(em.data, total) && Seqs(b.flows) == old(Seqs(b.flows)) + [em.seq_]
      ensures chunkIdx == |bufs.raws|
      ensures over ==> |em.data| > MAX_PAYLOAD
      ensures err != NoError || over
      ensures Healthy(body.answers) ==> err == NoError || err == Eof
      ensures err == Reading.Cancelled ==> Cancels(body.answers)
      ensures err == Eof && !over ==> total == |em.data|
      ensures err == Eof && !over && 0 < em.size && |em.data| <= em.size ==>
        bufs.chunkSize > 0 && bufs.CutAt(em.data, total)
      ensures fresh(b.notify) && b.cur != null && fresh(b.cur)
      ensures fresh(bufs.Repr - old(bufs.Repr)) && old(bufs.handed) <= bufs.handed
    {
      hide *;
      PartsBetweenLedgers();
      Open(em);
      SeqsSnoc(old(b.flows), Flow(em.seq_, w.began(em.seq_), [], None));
      total, chunkIdx, err, over := ReadBody(body, if em.size > 0 then em.size else 0);
    }

    /** Every chunk is published before the END that counts them, and a declared size
        that does not match is an error instead of an END. */
    method FlushAndEnd(em: Emission, body: Body, total: nat, chunkIdx: uint32) returns (out: Option<Outcome>)
      requires Valid() && Mid(em.data, total) && total == |em.data| && chunkIdx == |bufs.raws| && body.data == em.data
      requires 0 < em.size && |em.data| <= em.size ==> bufs.chunkSize > 0 && bufs.CutAt(em.data, total)
      requires |b.flows| > 0 && b.flows[|b.flows| - 1].seq_ == em.seq_
      modifies this`sent, this`hashed, this`digest, this`phase, this`trace, b, b.notify, b.cur, bufs`handed, bufs.Repr
      ensures Valid() && !b.ended && phase == (if out.None? then Ended else Emitting) && Drainable()
      ensures Seqs(b.flows) == old(Seqs(b.flows))
      ensures out.None? ==> Whole(w, em, b.flows, bufs.raws)
      ensures |em.data| <= MAX_PAYLOAD && out == BodyFate(em)
      ensures (fresh(b.notify) || b.notify == old(b.notify)) && b.cur == old(b.cur) && old(bufs.handed) <= bufs.handed
    {
      hide *;
      MidMeans(em.data, total);
      SizeFate(em);
      if em.size <= 0 || total == em.size {
        WholeBody(em);
      }
      Drain(|bufs.parts|, em.data, total);
      MidMeans(em.data, total);
      if em.size > 0 && total != em.size {
        return Some(WrongSize);
      }
      EndFlow(body, total, chunkIdx);
      SameSeqs(old(b.flows), b.flows);
      SameSizes();
      WholeIs(em);
      out := None;
    }

    lemma SameSizes()
      requires Valid()
      ensures bufs.chunkSize == w.chunkSize
    {
    }

    /** What an END leaves true, for the ring to take over. */
    lemma EndedWhole(em: Emission)
      requires Valid() && phase == Ended && Whole(w, em, b.flows, bufs.raws)
      requires w.history(em.seq_) == Capped(em.data)
      ensures |b.flows| > 0 && b.flows[|b.flows| - 1].seq_ == em.seq_
      ensures Concat(bufs.raws) == w.history(em.seq_)
    {
    }

    lemma NotInside()
      requires phase != Emitting
      ensures Drainable()
    {
    }

    /** One turn of Run's loop: an emission either goes out and into the ring whole, or
        ends the run for a reason of its own. */
    method Relay(em: Emission, answers: nat -> Answer, prevSeq: uint32) returns (out: Option<Outcome>)
      requires Valid() && phase == Idle && !b.ended && prevSeq == Prev(Now())
      requires prevSeq == 0 || em.seq_ == Succ32(prevSeq) ==> w.history(em.seq_) == Capped(em.data)
      modifies this, b, b.notify, bufs, bufs.Repr, store, store.dir
      ensures Valid() && !b.ended && Drainable()
      ensures out == Some(NotDense) <==> prevSeq != 0 && em.seq_ != Succ32(prevSeq)
      ensures out == Some(OverCap) <==> (prevSeq == 0 || em.seq_ == Succ32(prevSeq)) && em.size > MAX_PAYLOAD
      ensures Judged(Fate(prevSeq, em), answers, out) && out != Some(Exhausted)
      ensures out.None? ==> Whole(w, em, b.flows, bufs.raws) && phase == Idle && em.seq_ != 0
      ensures phase == Ended ==> out == Some(NotRetainable)
      ensures Seqs(b.flows) == old(Seqs(b.flows)) + [em.seq_] || (out.Some? && Seqs(b.flows) == old(Seqs(b.flows)))
      ensures (fresh(b.notify) || b.notify == old(b.notify)) && (b.cur == old(b.cur) || (b.cur != null && fresh(b.cur)))
      ensures fresh(bufs.Repr - old(bufs.Repr)) && old(bufs.handed) <= bufs.handed
    {
      hide *;
      RefusedAtOnce(prevSeq, em, answers);
      NotInside();
      if prevSeq != 0 && em.seq_ != Succ32(prevSeq) {
        return Some(NotDense);
      }
      if em.size > MAX_PAYLOAD {
        return Some(OverCap);
      }
      out := Emit(em, answers);
      ghost var emitted := out;
      if out.None? {
        EndedWhole(em);
        var ok := Retain();
        NotInside();
        if !ok {
          out := Some(NotRetainable);
        }
      }
      RelayJudged(prevSeq, em, answers, emitted, out);
    }

    /** Run's deferred pipeline close: whatever is still in flight is published before
        anything else is closed. */
    method ClosePipeline()
      requires Valid() && Drainable() && !b.ended
      modifies this`sent, this`trace, b, b.notify, b.cur, bufs`handed, bufs.Repr
      ensures Valid() && !b.ended && Seqs(b.flows) == old(Seqs(b.flows))
      ensures if phase == Emitting then sent == |bufs.parts| else b.flows == old(b.flows)
      ensures (fresh(b.notify) || b.notify == old(b.notify)) && b.cur == old(b.cur) && old(bufs.handed) <= bufs.handed
    {
      hide *;
      OpenIs();
      if b.Open() {
        ghost var data, pos := WhatIsRead();
        MidMeans(data, pos);
        Drain(|bufs.parts|, data, pos);
        MidMeans(data, pos);
      }
    }

    /** A flow is open exactly while the loop is inside a ledger. */
    lemma OpenIs()
      requires Valid()
      ensures b.Open() <==> phase == Emitting
    {
      hide GoodWorld, IsRun, SrcInit, FlowOk, Dense, RingOk, AllHold, Disjoint, Kept, Clear, LedgerStore.Valid,
           Broadcaster.ChannelsOk;
    }

    lemma WhatIsRead() returns (data: bytes, pos: nat)
      requires Valid() && Drainable() && phase == Emitting
      ensures Mid(data, pos)
    {
      data, pos :| Mid(data, pos);
    }

    /** Run's deferred finish, after the pipeline's close. */
    method Finish(failed: bool)
      requires Valid() && !b.ended && (phase == Ended ==> failed)
      modifies this`trace, b, b.notify
      ensures Valid() && b.ended && b.failed == failed && b.flows == old(b.flows)
      ensures b.notify == old(b.notify) && b.cur == old(b.cur)
    {
      hide *;
      PartsBeforeFinish();
      b.Finish(failed);
      FinishIsStep(trace[|trace| - 1], failed);
      Record();
      ValidFromParts();
    }

    lemma PartsBeforeFinish()
      requires Valid() && !b.ended
      ensures b.Valid() && store.Valid() && bufs.Valid()
      ensures GoodWorld(w) && bufs.chunkSize == w.chunkSize && store.retention == w.retention
      ensures |trace| > 0 && IsRun(w, trace) && SrcInit(w, trace[0]) && trace[|trace| - 1] == Now()
        && SrcInv(w, trace[|trace| - 1])
      ensures Now() == Src(b.flows, phase, store.Index(), store.Retained(), b.Gen(), false, false)
      ensures !phase.Storing?
    {
    }

    lemma FinishIsStep(s: Src, failed: bool)
      requires s == Src(b.flows, phase, store.Index(), store.Retained(), b.Gen(), false, false)
      requires b.ended && b.failed == failed && !phase.Storing? && (phase == Ended ==> failed)
      ensures SrcNext(w, s, Now())
    {
      assert Source.Finish(s, Now(), failed);
    }

    /** Run: whatever the source does, the loop takes only steps of the model, never sets
        off a guard of the broadcaster, publishes nothing after finish, and leaves every
        message it ever handed on as it was; a source that ends cleanly has been
        streamed in full. */
    method Run(events: seq<Event>, cancelled: bool) returns (out: Outcome)
      requires Valid() && phase == Idle && !b.ended && b.flows == [] && b.cur == null
      requires Tells(w.history, events)
      modifies this, b, b.notify, bufs, bufs.Repr, store, store.dir
      ensures exists i: nat :: EndedAt(events, i, cancelled, out)
      ensures AllHealthy(events) ==> (out == Exhausted <==> Deliverable(events, cancelled))
      ensures Valid() && b.ended && old(bufs.handed) <= bufs.handed
      ensures b.failed == out.Failure() == (out != Exhausted && out != Outcome.Cancelled)
      ensures IsRun(w, trace) && SrcInit(w, trace[0]) && trace[|trace| - 1] == Now()
      ensures RanOver(w, trace, events, out)
      ensures InOrder(Seqs(b.flows), events)
      ensures out == Exhausted ==> |b.flows| == |events| && AllFit(w.history, events, |events|)
      ensures out == Exhausted ==> forall i :: 0 <= i < |events| ==>
        b.flows[i].end.Some? && Joined(w.z, b.flows[i].chunks) == events[i].em.data
    {
      hide *;
      out := Consume(events, cancelled);
      FailureIs(out);
      EndsExactly(events, cancelled, out);
      if out == Exhausted {
        Delivered(events);
      }
      ClosePipeline();
      Finish(out.Failure());
      IsTraced(events, out);
    }

    lemma IsTraced(events: seq<Event>, out: Outcome)
      requires Valid() && b.ended && b.failed == out.Failure() && InOrder(Seqs(b.flows), events)
      requires out == Exhausted ==>
        && |b.flows| == |events| && AllFit(w.history, events, |events|)
        && forall i :: 0 <= i < |events| ==> b.flows[i].end.Some?
      ensures |trace| > 0 && IsRun(w, trace) && SrcInit(w, trace[0]) && trace[|trace| - 1] == Now()
      ensures RanOver(w, trace, events, out)
    {
      hide IsRun, SrcInit, SrcInv, InOrder, AllFit, Broadcaster.Valid, LedgerStore.Valid, ChunkArena.Valid;
    }

    lemma NoneYet(events: seq<Event>)
      requires b.flows == []
      ensures InOrder(Seqs(b.flows), events) && AllFit(w.history, events, 0) && Prev(Now()) == 0
    {
    }

    /** The history is what a next emission in sequence must agree with. */
    lemma Expected(events: seq<Event>, i: nat)
      requires Valid() && phase == Idle && |b.flows| == i < |events| && events[i].Emitted?
      requires InOrder(Seqs(b.flows), events) && Tells(w.history, events)
      ensures var em := events[i].em;
        Prev(Now()) == 0 || em.seq_ == Succ32(Prev(Now())) ==> w.history(em.seq_) == Capped(em.data)
      ensures |Seqs(b.flows)| == i
    {
      hide SrcInv, IsRun, SrcInit, GoodWorld, Capped;
      hide Broadcaster.Valid, LedgerStore.Valid, ChunkArena.Valid, LedgerStore.Retained, LedgerStore.Index;
      var em := events[i].em;
      if Prev(Now()) == 0 || em.seq_ == Succ32(Prev(Now())) {
        NextIsNew(w, Now(), events, i);
      }
    }

    lemma EndsHere(events: seq<Event>, i: nat, cancelled: bool, out: Outcome)
      requires i <= |events| && forall j :: 0 <= j < i ==> Passes(events, j)
      requires i == |events| ==> out == if cancelled then Outcome.Cancelled else Exhausted
      requires i < |events| && events[i].SourceError? ==>
        out == if events[i].cancelled then Outcome.Cancelled else SourceFailed
      requires i < |events| && events[i].Emitted? ==>
        Judged(Fate(PrevSeq(events, i), events[i].em), events[i].answers, Some(out))
      ensures EndedAt(events, i, cancelled, out)
    {
      hide Judged, Fate, Passes, PrevSeq;
    }

    lemma PassesOn(events: seq<Event>, i: nat)
      requires i < |events| && events[i].Emitted?
      requires Judged(Fate(PrevSeq(events, i), events[i].em), events[i].answers, None)
      ensures Passes(events, i) && PrevSeq(events, i + 1) == events[i].em.seq_
    {
      hide Fate, Healthy, Cancels;
    }

    lemma NoneBefore(events: seq<Event>)
      ensures PrevSeq(events, 0) == 0
    {
    }

    lemma AtMostOneMore(before: seq<uint32>, events: seq<Event>, i: nat)
      requires i < |events| && events[i].Emitted? && |before| == i && InOrder(before, events)
      requires Seqs(b.flows) == before + [events[i].em.seq_] || Seqs(b.flows) == before
      ensures InOrder(Seqs(b.flows), events)
    {
    }

    lemma OneMore(before: seq<uint32>, events: seq<Event>, i: nat)
      requires i < |events| && events[i].Emitted? && |before| == i && AllFit(w.history, events, i)
      requires Seqs(b.flows) == before + [events[i].em.seq_] && Whole(w, events[i].em, b.flows, bufs.raws)
      requires w.history(events[i].em.seq_) == Capped(events[i].em.data)
      ensures |b.flows| == i + 1 && AllFit(w.history, events, i + 1) && Prev(Now()) == events[i].em.seq_
    {
      assert |Seqs(b.flows)| == |b.flows|;
    }

    lemma EndsExactly(events: seq<Event>, cancelled: bool, out: Outcome)
      requires exists i: nat :: EndedAt(events, i, cancelled, out)
      ensures AllHealthy(events) ==> (out == Exhausted <==> Deliverable(events, cancelled))
    {
      hide EndedAt, AllHealthy, Deliverable;
      if AllHealthy(events) {
        var i: nat :| EndedAt(events, i, cancelled, out);
        ExhaustedExactly(events, i, cancelled, out);
      }
    }

    lemma FailureIs(out: Outcome)
      ensures out.Failure() == (out != Exhausted && out != Outcome.Cancelled)
    {
    }

    lemma FailedIs(out: Outcome)
      ensures out == NotRetainable ==> out.Failure()
    {
    }

    lemma Delivered(events: seq<Event>)
      requires Valid() && phase == Idle && |b.flows| == |events|
      requires InOrder(Seqs(b.flows), events) && AllFit(w.history, events, |events|)
      ensures forall i :: 0 <= i < |events| ==>
        b.flows[i].end.Some? && Joined(w.z, b.flows[i].chunks) == events[i].em.data
    {
      hide SrcInv, IsRun, SrcInit, GoodWorld, Joined;
      hide Broadcaster.Valid, LedgerStore.Valid, ChunkArena.Valid, LedgerStore.Retained, LedgerStore.Index;
      AllDelivered(w, Now(), events);
    }

    /** The loop over the source's iterator. */
    method Consume(events: seq<Event>, cancelled: bool) returns (out: Outcome)
      requires Valid() && phase == Idle && !b.ended && b.flows == [] && b.cur == null
      requires Tells(w.history, events)
      modifies this, b, b.notify, bufs, bufs.Repr, store, store.dir
      ensures Valid() && Drainable() && !b.ended && old(bufs.handed) <= bufs.handed
      ensures exists i: nat :: EndedAt(events, i, cancelled, out)
      ensures phase == Ended ==> out.Failure()
      ensures InOrder(Seqs(b.flows), events)
      ensures out == Exhausted ==> |b.flows| == |events| && AllFit(w.history, events, |events|) && phase == Idle
      ensures fresh(b.notify) || b.notify == old(b.notify)
      ensures (b.cur == null || fresh(b.cur)) && fresh(bufs.Repr - old(bufs.Repr))
    {
      hide *;
      var prevSeq: uint32 := 0;
      var i := 0;
      NoneYet(events);
      NoneBefore(events);
      while i < |events|
        invariant 0 <= i <= |events|
        invariant Valid() && phase == Idle && !b.ended && old(bufs.handed) <= bufs.handed
        invariant prevSeq == Prev(Now()) && |b.flows| == i
        invariant prevSeq == PrevSeq(events, i) && forall j :: 0 <= j < i ==> Passes(events, j)
        invariant InOrder(Seqs(b.flows), events) && AllFit(w.history, events, i)
        invariant fresh(b.notify) || b.notify == old(b.notify)
        invariant b.cur == null || fresh(b.cur)
        invariant fresh(bufs.Repr - old(bufs.Repr))
      {
        if events[i].SourceError? {
          NotInside();
          out := if events[i].cancelled then Outcome.Cancelled else SourceFailed;
          EndsHere(events, i, cancelled, out);
          return;
        }
        var em := events[i].em;
        Expected(events, i);
        ghost var before := Seqs(b.flows);
        var r := Relay(em, events[i].answers, prevSeq);
        AtMostOneMore(before, events, i);
        if r.Some? {
          FailedIs(r.value);
          EndsHere(events, i, cancelled, r.value);
          return r.value;
        }
        OneMore(before, events, i);
        PassesOn(events, i);
        prevSeq := em.seq_;
        i := i + 1;
      }
      NotInside();
      out := if cancelled then Outcome.Cancelled else Exhausted;
      EndsHere(events, i, cancelled, out);
    }
  }
}
