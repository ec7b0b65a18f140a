/** Every step the source side can take keeps its invariant: flows carry the
    history, the chain is dense, and every ledger below the open flow is on disk
    before anyone can look for it there. */
module SourceProofs {
  import opened Prelude
  import opened Wire
  import opened Chunks
  import opened Retention
  import opened Source

  lemma InitHolds(w: World, s: Src)
    requires SrcInit(w, s)
    ensures SrcInv(w, s)
  {
  }

  lemma DenseGrows(flows: seq<Flow>, f: Flow)
    requires Dense(flows)
    requires |flows| > 0 ==> flows[|flows| - 1].seq_ != 0 && f.seq_ == Succ32(flows[|flows| - 1].seq_)
    ensures Dense(flows + [f])
  {
  }

  /** Filling the open flow moves no sequence. */
  lemma DenseFilled(flows: seq<Flow>, f: Flow)
    requires Dense(flows) && |flows| > 0 && f.seq_ == flows[|flows| - 1].seq_
    ensures Dense(flows[|flows| - 1 := f])
  {
  }

  lemma BeginKeeps(w: World, s: Src, t: Src, ledger: uint32)
    requires SrcInv(w, s) && BeginLedger(w, s, t, ledger)
    ensures SrcInv(w, t)
  {
    hide FlowOk, Indexes, Dense, Agrees;
    var f := Flow(ledger, w.began(ledger), [], None);
    FreshFlowOk(w, f);
    DenseGrows(s.flows, f);
    assert Current(t) == f;
  }

  lemma FreshFlowOk(w: World, f: Flow)
    requires f.chunks == [] && f.end == None && f.start == w.began(f.seq_)
    ensures FlowOk(w, f)
  {
  }

  lemma ChunkFlowOk(w: World, f: Flow, msg: bytes)
    requires FlowOk(w, f) && f.end == None
    requires SoundAt(w.z, f.seq_, msg, |f.chunks|, w.chunkSize) && Coded(w, msg)
    requires Joined(w.z, f.chunks) + Payload(w.z, msg) <= w.history(f.seq_)
    ensures FlowOk(w, f.(chunks := f.chunks + [msg]))
  {
    hide SoundAt, Joined, Payload, Decode, Coded;
    JoinedSnoc(w.z, f.chunks, msg);
  }

  lemma ChunkKeeps(w: World, s: Src, t: Src, msg: bytes)
    requires SrcInv(w, s) && PublishChunk(w, s, t, msg)
    ensures SrcInv(w, t)
  {
    hide Decode, Joined, SoundAt, Coded, FlowOk, Indexes, Dense, Agrees;
    ChunkFlowOk(w, Current(s), msg);
    DenseFilled(s.flows, Current(s).(chunks := Current(s).chunks + [msg]));
  }

  /** The END announces exactly what was published before it. */
  lemma EndFlowOk(w: World, f: Flow)
    requires GoodWorld(w) && FlowOk(w, f) && f.end == None
    requires Joined(w.z, f.chunks) == w.history(f.seq_)
    ensures FlowOk(w, f.(end := Some(EndMsg(w, f))))
    ensures Decode(EndMsg(w, f)) ==
      Ok(End(f.seq_, |f.chunks| % U32, |w.history(f.seq_)|, w.ended(f.seq_), w.z.hash(w.history(f.seq_))))
  {
    hide Decode, Joined, SoundAt;
    EndMsgIs(w, f);
  }

  lemma EndKeeps(w: World, s: Src, t: Src)
    requires GoodWorld(w) && SrcInv(w, s) && EndLedger(w, s, t)
    ensures SrcInv(w, t)
  {
    hide Decode, Joined, SoundAt, Coded, FlowOk, Indexes, Dense, Agrees;
    assert FlowOk(w, Current(s));
    EndFlowOk(w, Current(s));
    DenseFilled(s.flows, Current(s).(end := Some(EndMsg(w, Current(s)))));
  }

  lemma TraceAgrees(w: World, s: Src, t: Src)
    requires GoodWorld(w) && SrcInv(w, s) && PutBegin(w, s, t)
    ensures forall d :: d in t.phase.todo ==> Agrees(w, d) && 0 !in d
    ensures Indexes(t.phase.after, Last(s.disk, t.phase.todo))
  {
    hide FlowOk, Dense, PutTrace, Contiguous, Covers;
    var l := Prev(s);
    var raw := w.history(l);
    PutEnds(s.ring, s.disk, l, raw, w.retention);
    forall d | d in t.phase.todo
      ensures Agrees(w, d) && 0 !in d
    {
      var i :| 0 <= i < |t.phase.todo| && t.phase.todo[i] == d;
      PutStates(s.ring, s.disk, l, raw, w.retention, i);
    }
  }

  lemma PutBeginKeeps(w: World, s: Src, t: Src)
    requires GoodWorld(w) && SrcInv(w, s) && PutBegin(w, s, t)
    ensures SrcInv(w, t)
  {
    TraceAgrees(w, s, t);
    hide FlowOk, PutTrace, Oldest, Indexes, Agrees;
  }

  lemma PutStepKeeps(w: World, s: Src, t: Src)
    requires SrcInv(w, s) && PutStep(s, t)
    ensures SrcInv(w, t)
  {
    hide FlowOk, Indexes, Agrees;
    assert s.phase.todo[0] in s.phase.todo;
    assert Last(t.disk, t.phase.todo) == Last(s.disk, s.phase.todo);
  }

  lemma PutDoneKeeps(w: World, s: Src, t: Src)
    requires SrcInv(w, s) && PutDone(s, t)
    ensures SrcInv(w, t)
  {
    hide FlowOk, Agrees;
  }

  lemma FinishKeeps(w: World, s: Src, t: Src, failed: bool)
    requires SrcInv(w, s) && Finish(s, t, failed)
    ensures SrcInv(w, t)
  {
    hide FlowOk, Agrees, Indexes;
  }

  lemma NextKeeps(w: World, s: Src, t: Src)
    requires GoodWorld(w) && SrcInv(w, s) && SrcNext(w, s, t)
    ensures SrcInv(w, t)
  {
    hide SrcInv, GoodWorld, BeginLedger, PublishChunk, EndLedger, Finish;
    if ledger: uint32 :| BeginLedger(w, s, t, ledger) {
      BeginKeeps(w, s, t, ledger);
    } else if msg: bytes :| PublishChunk(w, s, t, msg) {
      ChunkKeeps(w, s, t, msg);
    } else if EndLedger(w, s, t) {
      EndKeeps(w, s, t);
    } else if PutBegin(w, s, t) {
      PutBeginKeeps(w, s, t);
    } else if PutStep(s, t) {
      PutStepKeeps(w, s, t);
    } else if PutDone(s, t) {
      PutDoneKeeps(w, s, t);
    } else {
      var failed: bool :| Finish(s, t, failed);
      FinishKeeps(w, s, t, failed);
    }
  }
}
