/** The source side of the server as a transition system: the flows the source
    loop has published through the broadcaster, and the retention ring it fills
    (internal/server/server.go Run, internal/server/broadcast.go). */
module Source {
  import opened Prelude
  import opened Wire
  import opened Chunks
  import opened Retention

  /** What a run of the server is set up with. history(s) is the content of ledger
      s as the source would emit it in full; began(s) and ended(s) are what the clock says
      when its BEGIN and its END are published; crowded is whether the encoders' queue is
      ever found full; base is the ring found on disk. */
  datatype World = World(
    z: Codec,
    history: uint32 -> bytes,
    began: uint32 -> int64,
    ended: uint32 -> int64,
    chunkSize: nat,
    retention: nat,
    compress: bool,
    crowded: bool,
    ringCompress: bool,
    base: Ring)

  ghost predicate GoodWorld(w: World) {
    && Lawful(w.z)
    && ValidChunkSize(w.chunkSize)
    && w.retention > 0
    && (forall s: uint32 :: |w.history(s)| <= MAX_PAYLOAD)
    && (forall s: uint32 :: w.began(s) > 0 && w.ended(s) > 0)
  }

  /** One ledger's chunk flow: chunks only grow, end is written once. */
  datatype Flow = Flow(seq_: uint32, start: int64, chunks: seq<bytes>, end: Option<bytes>) {
    function BeginMsg(): bytes {
      AppendBegin([], seq_, start)
    }
  }

  /** f was this flow's content at some earlier time. */
  predicate Earlier(f: Flow, g: Flow) {
    f.seq_ == g.seq_ && f.start == g.start && f.chunks <= g.chunks && (f.end.Some? ==> f == g)
  }

  function EndMsg(w: World, f: Flow): bytes {
    var raw := Joined(w.z, f.chunks);
    AppendEnd([], f.seq_, |f.chunks| % U32, |raw| % U64, w.ended(f.seq_), w.z.hash(raw))
  }

  lemma EndMsgIs(w: World, f: Flow)
    ensures var raw := Joined(w.z, f.chunks);
      Decode(EndMsg(w, f)) == Ok(End(f.seq_, |f.chunks| % U32, |raw| % U64, w.ended(f.seq_), w.z.hash(raw)))
  {
    hide Joined, Decode;
    var raw := Joined(w.z, f.chunks);
    DecodeEnd(f.seq_, |f.chunks| % U32, |raw| % U64, w.ended(f.seq_), w.z.hash(raw));
  }

  /** Where the source loop is: between ledgers, inside one, past its END, or
      inside Put with the disk states still to come. */
  datatype Phase = Idle | Emitting | Ended | Storing(todo: seq<Disk>, after: Ring)

  /** flows holds every flow begun, the current one last; gen counts wakeups, so
      the channel a watcher took at gen g is closed once gen > g or finished. */
  datatype Src = Src(flows: seq<Flow>, phase: Phase, ring: Ring, disk: Disk, gen: nat, finished: bool, failed: bool)

  function Current(s: Src): Flow
    requires |s.flows| > 0
  {
    s.flows[|s.flows| - 1]
  }

  function Replace(s: Src, f: Flow): seq<Flow>
    requires |s.flows| > 0
  {
    s.flows[|s.flows| - 1 := f]
  }

  /** prevSeq: the last emitted sequence, 0 before the first. */
  function Prev(s: Src): uint32 {
    if |s.flows| == 0 then 0 else Current(s).seq_
  }

  // --------------------------------------------------------------------- steps

  predicate BeginLedger(w: World, s: Src, t: Src, ledger: uint32) {
    && !s.finished && s.phase == Idle
    && (Prev(s) == 0 || ledger == Succ32(Prev(s)))
    && t == s.(flows := s.flows + [Flow(ledger, w.began(ledger), [], None)], phase := Emitting, gen := s.gen + 1)
  }

  /** A chunk goes out as a zstd frame only if that is on and saves something, and raw
      where it would save something only if it is off or the encoders are behind. */
  predicate Coded(w: World, msg: bytes) {
    && (Zipped(msg) ==> w.compress && Shrinks(w.z, Payload(w.z, msg)))
    && (w.compress && !w.crowded && Shrinks(w.z, Payload(w.z, msg)) ==> Zipped(msg))
  }

  predicate PublishChunk(w: World, s: Src, t: Src, msg: bytes) {
    && !s.finished && s.phase == Emitting && |s.flows| > 0
    && var f := Current(s);
    && SoundAt(w.z, f.seq_, msg, |f.chunks|, w.chunkSize) && Coded(w, msg)
    && Joined(w.z, f.chunks) + Payload(w.z, msg) <= w.history(f.seq_)
    && t == s.(flows := Replace(s, f.(chunks := f.chunks + [msg])), gen := s.gen + 1)
  }

  predicate EndLedger(w: World, s: Src, t: Src) {
    && !s.finished && s.phase == Emitting && |s.flows| > 0
    && var f := Current(s);
    && Joined(w.z, f.chunks) == w.history(f.seq_)
    && t == s.(flows := Replace(s, f.(end := Some(EndMsg(w, f)))), phase := Ended, gen := s.gen + 1)
  }

  /** PutParts takes the lock; sequence 0 is refused before that. */
  predicate PutBegin(w: World, s: Src, t: Src) {
    && !s.finished && s.phase == Ended && |s.flows| > 0 && Prev(s) != 0
    && w.retention > 0
    && (s.ring.filled && !Resets(s.ring, Prev(s)) ==> s.ring.oldest <= Prev(s))
    && t == s.(phase := Storing(
         PutTrace(s.ring, s.disk, Prev(s), w.history(Prev(s)), w.retention),
         PutRing(s.ring, Prev(s), w.retention)))
  }

  predicate PutStep(s: Src, t: Src) {
    && !s.finished && s.phase.Storing? && |s.phase.todo| > 0
    && t == s.(phase := s.phase.(todo := s.phase.todo[1..]), disk := s.phase.todo[0])
  }

  predicate PutDone(s: Src, t: Src) {
    && !s.finished && s.phase.Storing? && |s.phase.todo| == 0
    && t == s.(phase := Idle, ring := s.phase.after)
  }

  /** Run returns. Past an END it can only return by PutParts having failed. */
  predicate Finish(s: Src, t: Src, failed: bool) {
    && !s.finished && !s.phase.Storing?
    && (s.phase == Ended ==> failed)
    && t == s.(finished := true, failed := failed)
  }

  ghost predicate SrcNext(w: World, s: Src, t: Src) {
    || (exists ledger: uint32 :: BeginLedger(w, s, t, ledger))
    || (exists msg: bytes :: PublishChunk(w, s, t, msg))
    || EndLedger(w, s, t)
    || PutBegin(w, s, t)
    || PutStep(s, t)
    || PutDone(s, t)
    || (exists failed: bool :: Finish(s, t, failed))
  }

  /** A ring left by an earlier run may be of any range, but what it holds must be
      this history: the ring has no run identity of its own. */
  ghost predicate SrcInit(w: World, s: Src) {
    && s.flows == [] && s.phase == Idle && s.gen == 0 && !s.finished && !s.failed
    && s.ring == w.base && Indexes(s.ring, s.disk) && 0 !in s.disk
    && Agrees(w, s.disk)
  }

  ghost predicate Agrees(w: World, d: Disk) {
    forall s :: s in d ==> d[s] == w.history(s)
  }

  // ---------------------------------------------------------------- invariants

  /** Flow i of the list carries the history of its ledger: all of it once ended,
      a prefix before, in chunks of the codec they should have. */
  predicate FlowOk(w: World, f: Flow) {
    && f.start == w.began(f.seq_)
    && Sound(w.z, f.seq_, f.chunks, w.chunkSize)
    && AllCoded(w, f.chunks)
    && Joined(w.z, f.chunks) <= w.history(f.seq_)
    && (f.end.Some? ==> Joined(w.z, f.chunks) == w.history(f.seq_) && f.end == Some(EndMsg(w, f)))
  }

  predicate AllCoded(w: World, chunks: seq<bytes>) {
    forall i :: 0 <= i < |chunks| ==> Coded(w, chunks[i])
  }

  /** The emitted chain is dense; only the last flow may have wrapped to 0. */
  predicate Dense(flows: seq<Flow>) {
    && (forall i :: 0 <= i < |flows| - 1 ==> 0 < flows[i].seq_ == flows[0].seq_ + i)
    && (|flows| > 1 ==> flows[|flows| - 1].seq_ == (flows[0].seq_ + |flows| - 1) % U32
                        && flows[0].seq_ + |flows| - 1 <= U32)
  }

  /** The newest ledger that must be in the ring whenever its lock is free. */
  function Stored(s: Src): int
  {
    if |s.flows| == 0 then 0
    else if s.phase == Idle then Current(s).seq_
    else if |s.flows| > 1 then s.flows[|s.flows| - 2].seq_
    else 0
  }

  ghost predicate RingOk(w: World, s: Src) {
    && Agrees(w, s.disk) && 0 !in s.disk
    && (s.finished ==> !s.phase.Storing?)
    && (!s.phase.Storing? ==> Indexes(s.ring, s.disk))
    && (Stored(s) != 0 && !s.phase.Storing? ==> s.ring.filled && s.ring.latest == Stored(s))
    && (s.phase.Storing? ==>
          && |s.flows| > 0 && Current(s).seq_ != 0
          && Indexes(s.phase.after, Last(s.disk, s.phase.todo))
          && s.phase.after.filled && s.phase.after.latest == Current(s).seq_
          && (forall d :: d in s.phase.todo ==> Agrees(w, d) && 0 !in d))
  }

  ghost predicate SrcInv(w: World, s: Src) {
    && (forall i :: 0 <= i < |s.flows| ==> FlowOk(w, s.flows[i]))
    && (forall i :: 0 <= i < |s.flows| - 1 ==> s.flows[i].end.Some?)
    && (|s.flows| > 0 ==> (s.flows[|s.flows| - 1].end.None? <==> s.phase == Emitting))
    && (|s.flows| == 0 ==> s.phase == Idle)
    && (|s.flows| > 0 && Current(s).seq_ == 0 ==> s.phase == Emitting || s.phase == Ended)
    && (s.finished && s.phase == Ended ==> s.failed)
    && Dense(s.flows)
    && RingOk(w, s)
  }
}
