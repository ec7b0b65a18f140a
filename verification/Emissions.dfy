/** What the source loop is given, and the steps it owes for it, as values: each
    lemma here turns one thing the loop does into one step of the source side's
    transition system (internal/server/server.go Run). */
module Emissions {
  import opened Prelude
  import opened Wire
  import opened Chunks
  import opened Retention
  import opened Source
  import opened SourceProofs
  import opened Serve
  import opened Reading

  /** One yield of the source's iterator. data is all the body would give. size is the
      declared length, not positive when undeclared. */
  datatype Emission = Emission(seq_: uint32, size: int64, data: bytes)

  /** One turn of the iterator: an emission, with what the Reads of its body will do, or
      an error, which may be that of a cancelled context. */
  datatype Event = Emitted(em: Emission, answers: nat -> Answer) | SourceError(cancelled: bool)

  datatype Outcome =
    | Exhausted | Cancelled
    | SourceFailed | NotDense | OverCap | RanPastCap | WrongSize | NotRetainable
  {
    /** Run's error result is nil for these two only. */
    predicate Failure() {
      this != Exhausted && this != Outcome.Cancelled
    }
  }

  /** The most of a body that can ever be streamed. */
  function Capped(data: bytes): bytes {
    if |data| <= MAX_PAYLOAD then data else data[..MAX_PAYLOAD]
  }

  predicate FirstOfItsSeq(events: seq<Event>, i: nat)
    requires i < |events|
  {
    events[i].Emitted? && forall j :: 0 <= j < i && events[j].Emitted? ==> events[j].em.seq_ != events[i].em.seq_
  }

  /** history is what the events emit, ledger by ledger; a sequence emitted twice is
      told by its first emission, the only one the loop can accept. */
  ghost predicate Tells(history: uint32 -> bytes, events: seq<Event>) {
    forall i :: 0 <= i < |events| && FirstOfItsSeq(events, i) ==>
      history(events[i].em.seq_) == Capped(events[i].em.data)
  }

  function HistoryAt(events: seq<Event>, fallback: uint32 -> bytes, s: uint32): bytes {
    if |events| == 0 then Capped(fallback(s))
    else if events[0].Emitted? && events[0].em.seq_ == s then Capped(events[0].em.data)
    else HistoryAt(events[1..], fallback, s)
  }

  /** Whatever a source emits, there is a history its events tell: assuming one
      excludes no source. */
  lemma EventsTellAHistory(events: seq<Event>, fallback: uint32 -> bytes)
    ensures Tells(s => HistoryAt(events, fallback, s), events)
    ensures forall s: uint32 :: |HistoryAt(events, fallback, s)| <= MAX_PAYLOAD
    ensures forall s: uint32 :: (forall e :: e in events && e.Emitted? ==> e.em.seq_ != s) ==>
      HistoryAt(events, fallback, s) == Capped(fallback(s))
  {
    forall i | 0 <= i < |events| && FirstOfItsSeq(events, i)
      ensures HistoryAt(events, fallback, events[i].em.seq_) == Capped(events[i].em.data)
    {
      HistoryFinds(events, fallback, i);
    }
    forall s: uint32 ensures |HistoryAt(events, fallback, s)| <= MAX_PAYLOAD {
      HistoryBounded(events, fallback, s);
    }
    forall s: uint32 | forall e :: e in events && e.Emitted? ==> e.em.seq_ != s
      ensures HistoryAt(events, fallback, s) == Capped(fallback(s))
    {
      HistoryElsewhere(events, fallback, s);
    }
  }

  lemma {:induction false} HistoryFinds(events: seq<Event>, fallback: uint32 -> bytes, i: nat)
    requires i < |events| && FirstOfItsSeq(events, i)
    ensures HistoryAt(events, fallback, events[i].em.seq_) == Capped(events[i].em.data)
  {
    if i > 0 {
      assert forall j :: 0 <= j < i - 1 ==> events[1..][j] == events[j + 1];
      HistoryFinds(events[1..], fallback, i - 1);
    }
  }

  lemma {:induction false} HistoryBounded(events: seq<Event>, fallback: uint32 -> bytes, s: uint32)
    ensures |HistoryAt(events, fallback, s)| <= MAX_PAYLOAD
  {
    if |events| > 0 {
      HistoryBounded(events[1..], fallback, s);
    }
  }

  lemma {:induction false} HistoryElsewhere(events: seq<Event>, fallback: uint32 -> bytes, s: uint32)
    requires forall e :: e in events && e.Emitted? ==> e.em.seq_ != s
    ensures HistoryAt(events, fallback, s) == Capped(fallback(s))
  {
    if |events| > 0 {
      assert events[0] in events;
      HistoryElsewhere(events[1..], fallback, s);
    }
  }

  // ------------------------------------------------------- chunks read so far

  /** raws are the first pos bytes of data, cut into legal chunks. */
  predicate Pieces(raws: seq<bytes>, data: bytes, pos: nat, chunkSize: nat) {
    && pos <= |data| && pos <= MAX_PAYLOAD
    && Concat(raws) == data[..pos]
    && forall i :: 0 <= i < |raws| ==> 0 < |raws[i]| <= chunkSize
  }

  lemma PiecesSnoc(raws: seq<bytes>, data: bytes, pos: nat, n: nat, chunkSize: nat)
    requires Pieces(raws, data, pos, chunkSize) && 0 < n <= chunkSize
    requires pos + n <= |data| && pos + n <= MAX_PAYLOAD
    ensures Pieces(raws + [data[pos..pos + n]], data, pos + n, chunkSize)
  {
    ConcatSnoc(raws, data[pos..pos + n]);
    assert data[..pos + n] == data[..pos] + data[pos..pos + n];
  }

  lemma {:induction false} ConcatPrefix(raws: seq<bytes>, k: nat)
    requires k <= |raws|
    ensures Concat(raws[..k]) <= Concat(raws)
    decreases |raws| - k
  {
    if k < |raws| {
      ConcatPrefix(raws, k + 1);
      assert raws[..k + 1] == raws[..k] + [raws[k]];
      ConcatSnoc(raws[..k], raws[k]);
    } else {
      assert raws[..k] == raws;
    }
  }

  /** The messages published so far stand for the first pieces, one each. */
  predicate Carried(z: Codec, chunks: seq<bytes>, raws: seq<bytes>) {
    |chunks| <= |raws| && forall i :: 0 <= i < |chunks| ==> Payload(z, chunks[i]) == raws[i]
  }

  lemma {:induction false} CarriedJoined(z: Codec, chunks: seq<bytes>, raws: seq<bytes>)
    requires Carried(z, chunks, raws)
    ensures Joined(z, chunks) == Concat(raws[..|chunks|])
  {
    if |chunks| > 0 {
      var k := |chunks| - 1;
      CarriedJoined(z, chunks[..k], raws);
      assert raws[..k + 1] == raws[..k] + [raws[k]];
      ConcatSnoc(raws[..k], raws[k]);
    }
  }

  /** A whole ledger went out: every byte of it, under its own declared size if it had
      one, and with a declared one in even chunks. */
  predicate Whole(w: World, em: Emission, flows: seq<Flow>, raws: seq<bytes>) {
    && |em.data| <= MAX_PAYLOAD && (em.size > 0 ==> |em.data| == em.size)
    && |flows| > 0 && Concat(raws) == em.data
    && var f := flows[|flows| - 1];
    && f.seq_ == em.seq_ && Carried(w.z, f.chunks, raws) && |f.chunks| == |raws|
    && (em.size > 0 && w.chunkSize > 0 ==> raws == Split(em.data, w.chunkSize))
  }

  // ------------------------------------------------------------ steps it owes

  ghost predicate IsRun(w: World, run: seq<Src>) {
    && |run| > 0
    && forall i :: 0 <= i < |run| - 1 ==> SrcNext(w, run[i], run[i + 1])
  }

  lemma RunGrows(w: World, run: seq<Src>, t: Src)
    requires IsRun(w, run) && SrcNext(w, run[|run| - 1], t)
    ensures IsRun(w, run + [t])
  {
    hide SrcNext;
  }

  lemma RunJoins(w: World, run: seq<Src>, more: seq<Src>)
    requires IsRun(w, run) && IsRun(w, more) && SrcNext(w, run[|run| - 1], more[0])
    ensures IsRun(w, run + more)
  {
    hide SrcNext;
  }

  lemma {:induction false} RunKeeps(w: World, run: seq<Src>)
    requires GoodWorld(w) && IsRun(w, run) && SrcInv(w, run[0])
    ensures SrcInv(w, run[|run| - 1])
  {
    hide SrcInv, GoodWorld, SrcNext;
    if |run| > 1 {
      var init := run[..|run| - 1];
      RunKeeps(w, init);
      assert SrcNext(w, run[|run| - 2], run[|run| - 1]);
      NextKeeps(w, init[|init| - 1], run[|run| - 1]);
    }
  }

  function Seqs(flows: seq<Flow>): seq<uint32> {
    seq(|flows|, i requires 0 <= i < |flows| => flows[i].seq_)
  }

  lemma SeqsSnoc(flows: seq<Flow>, f: Flow)
    ensures Seqs(flows + [f]) == Seqs(flows) + [f.seq_]
  {
  }

  lemma SeqsLast(flows: seq<Flow>, before: seq<uint32>, s: uint32)
    requires Seqs(flows) == before + [s]
    ensures |flows| == |before| + 1 && flows[|flows| - 1].seq_ == s
  {
    assert Seqs(flows)[|flows| - 1] == s;
  }

  lemma SameSeqs(before: seq<Flow>, after: seq<Flow>)
    requires Seqs(before) == Seqs(after)
    ensures |before| == |after|
    ensures |before| > 0 ==> before[|before| - 1].seq_ == after[|after| - 1].seq_
  {
    if |before| > 0 {
      assert |Seqs(before)| == |before| && Seqs(before)[|before| - 1] == Seqs(after)[|before| - 1];
    }
  }

  /** Publishing the next piece, however the encoder framed it, is a step. */
  lemma PublishIsStep(w: World, s: Src, raws: seq<bytes>, data: bytes, pos: nat, compressed: bool, msg: bytes, t: Src)
    requires GoodWorld(w) && !s.finished && s.phase == Emitting && |s.flows| > 0
    requires w.history(Current(s).seq_) == Capped(data) && Pieces(raws, data, pos, w.chunkSize)
    requires Carried(w.z, Current(s).chunks, raws) && |Current(s).chunks| < |raws|
    requires var k := |Current(s).chunks|; msg == EncodeChunk(w.z, compressed, Current(s).seq_, k % U32, raws[k])
    requires (compressed ==> w.compress) && (w.compress && !w.crowded ==> compressed)
    requires t == s.(flows := Replace(s, Current(s).(chunks := Current(s).chunks + [msg])), gen := s.gen + 1)
    ensures PublishChunk(w, s, t, msg) && SrcNext(w, s, t)
    ensures Carried(w.z, Current(t).chunks, raws)
  {
    hide EncodeChunk, Joined, Payload, SoundAt, Coded, Pieces, Capped;
    var f := Current(s);
    NextPieceSound(w, f.seq_, raws, data, pos, |f.chunks|, compressed, msg);
    NextPieceFits(w.z, f.chunks, raws, data, pos, w.chunkSize);
  }

  /** The next piece framed is a legal chunk for its place, standing for that piece. */
  lemma NextPieceSound(w: World, s: uint32, raws: seq<bytes>, data: bytes, pos: nat, k: nat, compressed: bool,
                       msg: bytes)
    requires GoodWorld(w) && Pieces(raws, data, pos, w.chunkSize) && k < |raws|
    requires msg == EncodeChunk(w.z, compressed, s, k % U32, raws[k])
    requires (compressed ==> w.compress) && (w.compress && !w.crowded ==> compressed)
    ensures SoundAt(w.z, s, msg, k, w.chunkSize) && Payload(w.z, msg) == raws[k] && Coded(w, msg)
  {
    hide EncodeChunk, Decode, Expand;
    PiecesBelowBytes(raws);
    EncodeChunkCarries(w.z, compressed, s, k % U32, raws[k]);
  }

  /** The pieces up to the next one are a prefix of the history. */
  lemma NextPieceFits(z: Codec, chunks: seq<bytes>, raws: seq<bytes>, data: bytes, pos: nat, chunkSize: nat)
    requires |chunks| < |raws| && Carried(z, chunks, raws) && Pieces(raws, data, pos, chunkSize)
    ensures Joined(z, chunks) + raws[|chunks|] <= Capped(data)
  {
    hide Joined, Concat, Carried, Capped;
    var k := |chunks|;
    CarriedJoined(z, chunks, raws);
    ConcatSnoc(raws[..k], raws[k]);
    assert raws[..k + 1] == raws[..k] + [raws[k]];
    ConcatPrefix(raws, k + 1);
    PrefixOfCapped(Joined(z, chunks) + raws[k], data, pos);
  }

  lemma PrefixOfCapped(part: bytes, data: bytes, pos: nat)
    requires pos <= |data| && pos <= MAX_PAYLOAD && part <= data[..pos]
    ensures part <= Capped(data)
  {
    assert Capped(data)[..pos] == data[..pos];
    assert part == data[..pos][..|part|] == Capped(data)[..|part|];
  }

  /** Announcing the END of a body read to its end, all of it published, is a step:
      count, total and checksum are those of exactly the chunks before it. */
  lemma EndIsStep(w: World, s: Src, raws: seq<bytes>, data: bytes, msg: bytes, t: Src)
    requires !s.finished && s.phase == Emitting && |s.flows| > 0
    requires w.history(Current(s).seq_) == Capped(data) && Pieces(raws, data, |data|, w.chunkSize)
    requires Carried(w.z, Current(s).chunks, raws) && |Current(s).chunks| == |raws|
    requires msg == AppendEnd([], Current(s).seq_, |raws| % U32, |data| % U64,
                              w.ended(Current(s).seq_), w.z.hash(Concat(raws)))
    requires t == s.(flows := Replace(s, Current(s).(end := Some(msg))), phase := Ended, gen := s.gen + 1)
    ensures EndLedger(w, s, t) && SrcNext(w, s, t)
  {
    hide AppendEnd;
    CarriedJoined(w.z, Current(s).chunks, raws);
    assert raws[..|raws|] == raws;
    assert data[..|data|] == data;
  }

  // ------------------------------------------------------------------ the ring

  /** Put as the source side's steps: take the lock, each change of the disk, done. */
  lemma {:induction false} StoringSteps(w: World, s: Src) returns (path: seq<Src>)
    requires !s.finished && s.phase.Storing?
    ensures IsRun(w, path) && path[0] == s
    ensures path[|path| - 1] == s.(phase := Idle, ring := s.phase.after, disk := Last(s.disk, s.phase.todo))
    decreases |s.phase.todo|
  {
    if |s.phase.todo| == 0 {
      var t := s.(phase := Idle, ring := s.phase.after);
      assert PutDone(s, t);
      path := [s, t];
    } else {
      var t := s.(phase := s.phase.(todo := s.phase.todo[1..]), disk := s.phase.todo[0]);
      assert PutStep(s, t);
      assert Last(t.disk, t.phase.todo) == Last(s.disk, s.phase.todo);
      var rest := StoringSteps(w, t);
      hide SrcNext;
      assert SrcNext(w, s, t) by {
        StepCounts(w, s, t);
      }
      path := [s] + rest;
    }
  }

  lemma StepCounts(w: World, s: Src, t: Src)
    requires PutStep(s, t)
    ensures SrcNext(w, s, t)
  {
  }

  /** The source side once the newest ledger is stored. */
  function AfterPut(w: World, s: Src): Src
    requires w.retention > 0 && Prev(s) != 0 && Indexes(s.ring, s.disk)
  {
    s.(phase := Idle,
       ring := PutRing(s.ring, Prev(s), w.retention),
       disk := PutSpec(s.ring, s.disk, Prev(s), w.history(Prev(s)), w.retention))
  }

  lemma PutSteps(w: World, s: Src) returns (path: seq<Src>)
    requires !s.finished && s.phase == Ended && |s.flows| > 0 && Prev(s) != 0
    requires w.retention > 0 && Indexes(s.ring, s.disk)
    ensures IsRun(w, path) && SrcNext(w, s, path[0])
    ensures path[|path| - 1] == AfterPut(w, s)
  {
    var l := Prev(s);
    WrittenInterval(s.ring, s.disk, l, w.history(l));
    PutEnds(s.ring, s.disk, l, w.history(l), w.retention);
    var todo := PutTrace(s.ring, s.disk, l, w.history(l), w.retention);
    var t := s.(phase := Storing(todo, PutRing(s.ring, l, w.retention)));
    assert PutBegin(w, s, t);
    hide PutTrace, PutSpec, PutRing;
    path := StoringSteps(w, t);
  }

  /** A run that has reached an END goes on to have the ledger stored. */
  lemma StoredRun(w: World, run: seq<Src>, s: Src) returns (more: seq<Src>)
    requires GoodWorld(w) && IsRun(w, run) && |run| > 0
    requires s == run[|run| - 1] && !s.finished && s.phase == Ended && |s.flows| > 0 && Prev(s) != 0
    requires Indexes(s.ring, s.disk) && w.retention > 0
    requires SrcInv(w, s)
    ensures IsRun(w, more) && run <= more
    ensures more[|more| - 1] == AfterPut(w, s)
    ensures SrcInv(w, more[|more| - 1])
  {
    var path := PutSteps(w, s);
    NextKeeps(w, s, path[0]);
    hide SrcInv, SrcNext, GoodWorld, AfterPut;
    RunKeeps(w, path);
    RunJoins(w, run, path);
    more := run + path;
  }

  // ------------------------------------------------------------- a whole source

  /** What an emission's own length and size come to. */
  function BodyFate(em: Emission): Option<Outcome> {
    if |em.data| > MAX_PAYLOAD then Some(RanPastCap)
    else if em.size > 0 && |em.data| != em.size then Some(WrongSize)
    else None
  }

  /** What becomes of an emission after prev when nothing goes wrong reading it: out and
      retained, or the end of the run. */
  function Fate(prev: uint32, em: Emission): Option<Outcome> {
    if prev != 0 && em.seq_ != Succ32(prev) then Some(NotDense)
    else if em.size > MAX_PAYLOAD then Some(OverCap)
    else if BodyFate(em).Some? then BodyFate(em)
    else if em.seq_ == 0 then Some(NotRetainable)
    else None
  }

  /** What becomes of it at all: that, or what its failing or cancelled reader made of it. */
  ghost predicate Judged(fate: Option<Outcome>, answers: nat -> Answer, out: Option<Outcome>) {
    || out == fate
    || (out == Some(SourceFailed) && !Healthy(answers))
    || (out == Some(Outcome.Cancelled) && Cancels(answers))
  }

  function PrevSeq(events: seq<Event>, i: nat): uint32
    requires i <= |events|
  {
    if i == 0 || events[i - 1].SourceError? then 0 else events[i - 1].em.seq_
  }

  /** Event i is an emission that goes through. */
  predicate Passes(events: seq<Event>, i: nat)
    requires i < |events|
  {
    events[i].Emitted? && Fate(PrevSeq(events, i), events[i].em) == None
  }

  /** The run ended at event i, everything before it having gone through, and this is why;
      cancelled is whether the context was when the iterator was at its end. */
  ghost predicate EndedAt(events: seq<Event>, i: nat, cancelled: bool, out: Outcome) {
    && i <= |events| && (forall j :: 0 <= j < i ==> Passes(events, j))
    && (if i == |events| then out == (if cancelled then Outcome.Cancelled else Exhausted)
        else match events[i]
          case SourceError(c) => out == (if c then Outcome.Cancelled else SourceFailed)
          case Emitted(em, answers) => Judged(Fate(PrevSeq(events, i), em), answers, Some(out)))
  }

  ghost predicate AllHealthy(events: seq<Event>) {
    forall i :: 0 <= i < |events| && events[i].Emitted? ==> Healthy(events[i].answers)
  }

  /** Event j is an emission that follows the one before, is not numbered 0 or over the
      cap, and is of its declared size if it declares one. */
  predicate Delivers(events: seq<Event>, j: nat)
    requires j < |events|
  {
    && events[j].Emitted? && events[j].em.seq_ != 0
    && (j > 0 && events[j - 1].Emitted? ==> events[j].em.seq_ == Succ32(events[j - 1].em.seq_))
    && |events[j].em.data| <= MAX_PAYLOAD && events[j].em.size <= MAX_PAYLOAD
    && (events[j].em.size > 0 ==> |events[j].em.data| == events[j].em.size)
  }

  predicate Deliverable(events: seq<Event>, cancelled: bool) {
    !cancelled && forall j :: 0 <= j < |events| ==> Delivers(events, j)
  }

  lemma DeliversIsPasses(events: seq<Event>, j: nat)
    requires j < |events| && (j > 0 ==> events[j - 1].Emitted? && events[j - 1].em.seq_ != 0)
    ensures Delivers(events, j) <==> Passes(events, j)
  {
  }

  lemma PassesIsSome(events: seq<Event>, j: nat)
    requires j < |events| && (Passes(events, j) || Delivers(events, j))
    ensures events[j].Emitted? && events[j].em.seq_ != 0
  {
  }

  lemma DeliverableIsPassing(events: seq<Event>, cancelled: bool)
    ensures Deliverable(events, cancelled) <==> !cancelled && forall j :: 0 <= j < |events| ==> Passes(events, j)
  {
    hide Delivers, Passes;
    if Deliverable(events, cancelled) {
      forall j | 0 <= j < |events| ensures Passes(events, j) {
        if j > 0 {
          assert Delivers(events, j - 1);
          PassesIsSome(events, j - 1);
        }
        DeliversIsPasses(events, j);
      }
    } else if !cancelled && forall j :: 0 <= j < |events| ==> Passes(events, j) {
      forall j | 0 <= j < |events| ensures Delivers(events, j) {
        if j > 0 {
          assert Passes(events, j - 1);
          PassesIsSome(events, j - 1);
        }
        DeliversIsPasses(events, j);
      }
    }
  }

  /** So with readers that never fail, a run is exhausted exactly when what the iterator
      gives can be delivered and nothing cancels it. */
  lemma ExhaustedExactly(events: seq<Event>, i: nat, cancelled: bool, out: Outcome)
    requires EndedAt(events, i, cancelled, out) && AllHealthy(events)
    ensures out == Exhausted <==> Deliverable(events, cancelled)
    ensures out == SourceFailed <==> i < |events| && events[i] == SourceError(false)
    ensures out == Outcome.Cancelled <==> (if i == |events| then cancelled else events[i] == SourceError(true))
  {
    if i < |events| {
      if events[i].Emitted? {
        HealthyIsWell(events[i].answers, 0, 0);
      }
      assert !Passes(events, i);
    }
    DeliverableIsPassing(events, cancelled);
    hide Deliverable;
  }

  /** And whatever the readers do, nothing fails or is cancelled without a cause. */
  lemma StopsForCause(events: seq<Event>, i: nat, cancelled: bool, out: Outcome)
    requires EndedAt(events, i, cancelled, out)
    ensures out == SourceFailed ==>
      i < |events| && (events[i] == SourceError(false) || (events[i].Emitted? && !Healthy(events[i].answers)))
    ensures out == Outcome.Cancelled && i < |events| ==>
      events[i] == SourceError(true) || (events[i].Emitted? && Cancels(events[i].answers))
    ensures out == NotDense ==>
      && 0 < i < |events| && events[i].Emitted? && events[i - 1].Emitted?
      && events[i].em.seq_ != Succ32(events[i - 1].em.seq_)
    ensures out == OverCap ==> i < |events| && events[i].Emitted? && events[i].em.size > MAX_PAYLOAD
    ensures out == RanPastCap ==> i < |events| && events[i].Emitted? && |events[i].em.data| > MAX_PAYLOAD
    ensures out == WrongSize ==> i < |events| && events[i].Emitted? && 0 < events[i].em.size != |events[i].em.data|
    ensures out == NotRetainable ==> i < |events| && events[i].Emitted? && events[i].em.seq_ == 0
  {
  }

  /** The first n events are emissions whose bodies fit, and these are their histories. */
  predicate AllFit(history: uint32 -> bytes, events: seq<Event>, n: nat) {
    n <= |events| && forall i :: 0 <= i < n ==>
      && events[i].Emitted? && history(events[i].em.seq_) == events[i].em.data
      && (events[i].em.size > 0 ==> |events[i].em.data| == events[i].em.size)
  }

  /** The flows begun are the first emissions, in order. */
  predicate InOrder(flows: seq<uint32>, events: seq<Event>) {
    |flows| <= |events| && forall i :: 0 <= i < |flows| ==> events[i].Emitted? && events[i].em.seq_ == flows[i]
  }

  /** What a run of the source loop over these events that came to this outcome leaves
      behind, whatever happened in between. */
  ghost predicate RanOver(w: World, run: seq<Src>, events: seq<Event>, out: Outcome) {
    && IsRun(w, run) && SrcInit(w, run[0])
    && var t := run[|run| - 1];
    && t.finished && t.failed == out.Failure() && InOrder(Seqs(t.flows), events)
    && (out == Exhausted ==>
          && |t.flows| == |events| && AllFit(w.history, events, |events|)
          && forall i :: 0 <= i < |events| ==> t.flows[i].end.Some?)
  }

  /** A sequence the density check lets through has not been emitted before. */
  lemma NextIsNew(w: World, s: Src, events: seq<Event>, i: nat)
    requires SrcInv(w, s) && s.phase == Idle && i < |events| && events[i].Emitted?
    requires InOrder(Seqs(s.flows), events) && |s.flows| == i
    requires Prev(s) == 0 || events[i].em.seq_ == Succ32(Prev(s))
    ensures FirstOfItsSeq(events, i)
  {
    hide FlowOk, RingOk;
    forall j | 0 <= j < i && events[j].Emitted? ensures events[j].em.seq_ != events[i].em.seq_ {
      assert Seqs(s.flows)[j] == s.flows[j].seq_;
      assert Seqs(s.flows)[i - 1] == s.flows[i - 1].seq_ == Prev(s);
    }
  }

  /** A source that ended cleanly was streamed in full: one finished flow for each of
      its ledgers, holding that ledger's bytes. */
  lemma AllDelivered(w: World, s: Src, events: seq<Event>)
    requires SrcInv(w, s) && s.phase == Idle && |s.flows| == |events|
    requires InOrder(Seqs(s.flows), events) && AllFit(w.history, events, |events|)
    ensures forall i :: 0 <= i < |events| ==>
      s.flows[i].end.Some? && Joined(w.z, s.flows[i].chunks) == events[i].em.data
  {
    hide RingOk, Dense, Joined, Sound;
    forall i | 0 <= i < |events|
      ensures s.flows[i].end.Some? && Joined(w.z, s.flows[i].chunks) == events[i].em.data
    {
      assert FlowOk(w, s.flows[i]) && Seqs(s.flows)[i] == s.flows[i].seq_;
      assert i == |s.flows| - 1 || s.flows[i].end.Some?;
    }
  }
}
