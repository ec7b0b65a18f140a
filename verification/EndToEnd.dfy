/** From the source's iterator to a client: the source loop and the delivery protocol
    joined, for every interleaving of the two. */
module EndToEnd {
  import opened Prelude
  import opened Wire
  import opened Chunks
  import opened Source
  import opened Serve
  import opened Client
  import opened Emissions
  import opened Streaming
  import opened StreamingTheorems
  import StreamingProofs
  import CleanEnds
  import ClientSoundness
  import Provenance
  import PipeSource

  /** The source side of a behaviour goes through states of this run of the source loop,
      at whatever pace. */
  ghost predicate Follows(run: seq<State>, trace: seq<Src>) {
    forall n :: 0 <= n < |run| ==> run[n].src in trace
  }

  /** Yield i - k is event i: its sequence, and its bytes. */
  predicate GivenAt(out: seq<Delivery>, events: seq<Event>, k: nat, i: nat)
    requires k <= i < |events|
  {
    && events[i].Emitted? && i - k < |out|
    && out[i - k].seq_ == events[i].em.seq_ && out[i - k].payload == events[i].em.data
  }

  /** The yields begin with events k, k + 1, .. to the last. */
  predicate GivenFrom(out: seq<Delivery>, events: seq<Event>, k: nat) {
    forall i :: k <= i < |events| ==> GivenAt(out, events, k, i)
  }

  /** Nothing happens after finish, so a state that is finished is the run's last. */
  lemma FinishedIsLast(w: World, trace: seq<Src>, s: Src)
    requires IsRun(w, trace) && s in trace && s.finished
    ensures s == trace[|trace| - 1]
  {
    var k :| 0 <= k < |trace| && trace[k] == s;
    if k < |trace| - 1 {
      assert SrcNext(w, trace[k], trace[k + 1]);
      OpenBefore(w, trace[k], trace[k + 1]);
    }
  }

  lemma OpenBefore(w: World, s: Src, t: Src)
    requires SrcNext(w, s, t)
    ensures !s.finished
  {
    hide Joined, SoundAt, Payload, EndMsg;
  }

  /** With the source side idle behind it, every flow's place in the dense chain is that
      of its event. */
  lemma FlowsAreEvents(w: World, s: Src, events: seq<Event>, i: nat)
    requires SrcInv(w, s) && s.finished && !s.failed && s.phase != Emitting
    requires InOrder(Seqs(s.flows), events) && |s.flows| == |events| && i < |events|
    ensures events[i].Emitted? && s.flows[i].seq_ == events[i].em.seq_ == s.flows[0].seq_ + i && s.flows[i].seq_ != 0
  {
    hide FlowOk, RingOk;
    assert Seqs(s.flows)[i] == s.flows[i].seq_;
  }

  /** An unbounded stream that ends without an error was ended by a source that had
      finished and not failed. */
  lemma CleanMeansFinished(p: Setup, s: State)
    requires Inv(p, s) && !p.req.bounded && s.client.status == CleanClose
    ensures s.src.finished && !s.src.failed
  {
    CleanCloseFacts(p, s);
    hide SrcInv, CursorOk, AheadOk, ChannelOk, RestOk, Ahead;
  }

  /** End to end: when the iterator gave these events and was streamed to its end, every
      unbounded client that began at one of them and ends without an error has yielded
      that one and all that followed, each with exactly the bytes the iterator gave; and
      nothing after them, unless an earlier run had left a later ledger on disk. */
  lemma EmittedIsYielded(p: Setup, trace: seq<Src>, events: seq<Event>, out: Outcome, run: seq<State>, n: nat, k: nat)
    requires Good(p) && Behaviour(p, run) && n < |run|
    requires RanOver(p.w, trace, events, out) && Follows(run, trace)
    requires !p.req.bounded && run[n].client.status == CleanClose
    requires k < |events| && events[k].Emitted? && run[n].anchor == events[k].em.seq_
    ensures out == Exhausted || out == Outcome.Cancelled
    ensures out == Exhausted ==> GivenFrom(run[n].client.out, events, k)
    ensures out == Exhausted && (p.w.base.filled ==> p.w.base.latest <= Prev(run[n].src)) ==>
      |run[n].client.out| == |events| - k
  {
    hide *;
    Reachable(p, run, n);
    CleanMeansFinished(p, run[n]);
    RanMeans(p.w, trace, events, out, run, n);
    if out == Exhausted {
      DeliveryIsExact(p, run, n);
      EventsYielded(p, run[n], events, k);
      Provenance.YieldsAreKnown(p, run, n);
      if p.w.base.filled ==> p.w.base.latest <= Prev(run[n].src) {
        NothingElse(p, run[n], events, k);
      }
    }
  }

  /** And such an end does come: once Run has ended Exhausted, the cursor and an unbounded
      client whose consumer keeps pulling bring any run whose connection is up to a clean
      end by themselves, unless the subscription has fallen out of retention. */
  lemma ExhaustedEndsCleanly(p: Setup, trace: seq<Src>, events: seq<Event>, run: seq<State>) returns (more: seq<State>)
    requires Good(p) && Behaviour(p, run) && !p.req.bounded && forall i: nat :: p.k.more(i)
    requires RanOver(p.w, trace, events, Exhausted) && run[|run| - 1].src == trace[|trace| - 1]
    requires !run[|run| - 1].pc.Broke? && run[|run| - 1].fate == None
    ensures Behaviour(p, run + more)
    ensures var t := (run + more)[|run + more| - 1];
      && t.src == run[|run| - 1].src
      && (t.client.status == CleanClose
          || (t.client.status != Open && t.pc.Gone? && t.pc.code == STATUS_TOO_FAR_BEHIND))
  {
    hide *;
    CleanEnds.NotEmpty(p, run);
    LastIsFull(p.w, trace, events);
    more := CleanEnds.EndsCleanly(p, run);
    var whole := run + more;
    var t := whole[|whole| - 1];
    StreamingTheorems.Reachable(p, whole, |whole| - 1);
    NotLeftInside(p, t, events);
    NotStopped(p, t);
  }

  lemma LastIsFull(w: World, trace: seq<Src>, events: seq<Event>)
    requires RanOver(w, trace, events, Exhausted)
    ensures |trace| > 0 && InFull(w, trace[|trace| - 1], events)
    ensures trace[|trace| - 1].finished && !trace[|trace| - 1].failed
  {
    hide SrcNext, SrcInit, InOrder, AllFit;
  }

  lemma NotStopped(p: Setup, s: State)
    requires Inv(p, s) && forall i: nat :: p.k.more(i)
    ensures s.client.status != Stopped
  {
    ClientIsOrderly(p, s);
    hide Inv, ClientSoundness.Consecutive, ClientSoundness.Tracked, ClientSoundness.Bounded, ClientSoundness.WithinCap;
  }

  /** With every flow ended, a cursor that has come to its close is inside none. */
  lemma NotLeftInside(p: Setup, s: State, events: seq<Event>)
    requires Inv(p, s) && InFull(p.w, s.src, events) && s.src.finished && !p.req.bounded
    ensures s.cur.live.Some? ==> !s.pc.Gone? || s.pc.code == STATUS_TOO_FAR_BEHIND
  {
    hide SrcInv, AheadOk, ChannelOk, InOrder, AllFit;
    assert |events| > 0 ==> s.src.flows[|events| - 1].end.Some?;
    if s.cur.live.Some? && s.cur.live.value.id < |s.src.flows| - 1 {
      StreamingProofs.DistinctFlows(p.w, s.src, s.cur.live.value.id, |s.src.flows| - 1);
      if s.cur.live.value.id < |s.src.flows| - 2 {
        StreamingProofs.DistinctFlows(p.w, s.src, s.cur.live.value.id, |s.src.flows| - 2);
        StreamingProofs.DistinctFlows(p.w, s.src, |s.src.flows| - 2, |s.src.flows| - 1);
      }
    }
  }

  lemma RanMeans(w: World, trace: seq<Src>, events: seq<Event>, out: Outcome, run: seq<State>, n: nat)
    requires RanOver(w, trace, events, out) && Follows(run, trace) && n < |run| && run[n].src.finished
    ensures run[n].src.failed == out.Failure()
    ensures !out.Failure() ==> out == Exhausted || out == Outcome.Cancelled
    ensures out == Exhausted ==> InFull(w, run[n].src, events)
  {
    hide IsRun, SrcInit, InOrder, AllFit;
    FinishedIsLast(w, trace, run[n].src);
  }

  /** One finished flow for each event. */
  predicate InFull(w: World, s: Src, events: seq<Event>) {
    && InOrder(Seqs(s.flows), events) && |s.flows| == |events| && AllFit(w.history, events, |events|)
    && forall i :: 0 <= i < |events| ==> s.flows[i].end.Some?
  }

  lemma EventsYielded(p: Setup, s: State, events: seq<Event>, k: nat)
    requires Inv(p, s) && !p.req.bounded && s.client.status == CleanClose
    requires s.src.finished && !s.src.failed && InFull(p.w, s.src, events) && ExactYields(p, s)
    requires k < |events| && events[k].Emitted? && s.anchor == events[k].em.seq_
    ensures GivenFrom(s.client.out, events, k)
  {
    hide Inv, SrcInv, InOrder, AllFit, ExactYields, Yielded;
    SourceIsInv(p, s);
    forall i | 0 <= i < |events|
      ensures events[i].Emitted? && s.src.flows[i].seq_ == events[i].em.seq_ == s.src.flows[0].seq_ + i != 0
    {
      FlowsAreEvents(p.w, s.src, events, i);
    }
    StartsAt(p, s);
    CleanEnd(p, s);
    forall i | k <= i < |events| ensures GivenAt(s.client.out, events, k, i) {
      EventIsYielded(p, s, events, k, i);
    }
  }

  lemma NothingElse(p: Setup, s: State, events: seq<Event>, k: nat)
    requires Inv(p, s) && s.src.finished && !s.src.failed && InFull(p.w, s.src, events) && ExactYields(p, s)
    requires k < |events| && events[k].Emitted? && s.anchor == events[k].em.seq_
    requires |events| - k < |s.client.out| ==> Provenance.Known(p.w, s.src, s.client.out[|events| - k].seq_)
    requires p.w.base.filled ==> p.w.base.latest <= Prev(s.src)
    requires GivenFrom(s.client.out, events, k)
    ensures |s.client.out| == |events| - k
  {
    hide Inv, SrcInv, InOrder, AllFit, ExactYields;
    SourceIsInv(p, s);
    StartsAt(p, s);
    forall i | 0 <= i < |events|
      ensures events[i].Emitted? && s.src.flows[i].seq_ == events[i].em.seq_ == s.src.flows[0].seq_ + i != 0
    {
      FlowsAreEvents(p.w, s.src, events, i);
    }
    hide Provenance.Known;
    NotKnownBeyond(p.w, s.src);
    assert GivenAt(s.client.out, events, k, |events| - 1);
  }

  lemma NotKnownBeyond(w: World, s: Src)
    requires |s.flows| > 0 && (w.base.filled ==> w.base.latest <= Prev(s))
    requires forall i :: 0 <= i < |s.flows| ==> s.flows[i].seq_ == s.flows[0].seq_ + i
    ensures !Provenance.Known(w, s, Prev(s) + 1)
  {
  }

  lemma SourceIsInv(p: Setup, s: State)
    requires Inv(p, s)
    ensures SrcInv(p.w, s.src)
      && (|s.src.flows| > 0 && s.src.flows[|s.src.flows| - 1].end.Some? ==> s.src.phase != Emitting)
  {
    hide FlowOk, RingOk, AheadOk, SnapOk, CursorOk, PcOk, ChannelOk;
  }

  lemma StartsAt(p: Setup, s: State)
    requires ExactYields(p, s)
    ensures p.req.start != 0 ==> s.anchor == p.req.start
    ensures forall i :: 0 <= i < |s.client.out| ==> s.client.out[i].seq_ == s.anchor + i
  {
    hide Exact;
  }

  lemma EventIsYielded(p: Setup, s: State, events: seq<Event>, k: nat, i: nat)
    requires k <= i < |events| == |s.src.flows| && events[i].Emitted? && s.src.flows[i].seq_ == events[i].em.seq_
    requires s.src.flows[i].seq_ == s.anchor + i - k && s.anchor != 0
    requires Yielded(s, s.src.flows[i].seq_) && ExactYields(p, s) && AllFit(p.w.history, events, |events|)
    ensures GivenAt(s.client.out, events, k, i)
  {
    var j :| 0 <= j < |s.client.out| && s.client.out[j].seq_ == s.src.flows[i].seq_;
    assert Exact(p, s, s.client.out[j]) && s.client.out[j].seq_ == s.anchor + j;
  }

  // -------------------------------------------------------------------- the pipe

  /** The events are these emissions, whatever the Reads of their bodies do. */
  ghost predicate Emits(events: seq<Event>, got: seq<Emission>) {
    |events| == |got| && forall i :: 0 <= i < |events| ==> events[i].Emitted? && events[i].em == got[i]
  }

  /** From the producer's end of a pipe: what it framed, record by record, is what such a
      client yields, each under the sequence found in it, once Relay has called the
      stream finished. */
  lemma FramedIsYielded(p: Setup, trace: seq<Src>, records: seq<bytes>, got: seq<Emission>, events: seq<Event>,
                        seqOf: bytes -> Option<uint32>, run: seq<State>, n: nat, k: nat)
    requires Good(p) && Behaviour(p, run) && n < |run|
    requires PipeSource.Framable(records)
    requires PipeSource.Framable(PipeSource.Records(PipeSource.Stream(records)))
    requires PipeSource.Yields(got, PipeSource.Records(PipeSource.Stream(records)), seqOf)
    requires |got| == |PipeSource.Records(PipeSource.Stream(records))|
    requires Emits(events, got) && RanOver(p.w, trace, events, Exhausted) && Follows(run, trace)
    requires !p.req.bounded && run[n].client.status == CleanClose
    requires k < |got| && run[n].anchor == got[k].seq_
    ensures |records| <= k + |run[n].client.out|
    ensures !p.w.base.filled ==> |run[n].client.out| == |records| - k
    ensures forall i :: k <= i < |records| ==>
      && run[n].client.out[i - k].payload == records[i]
      && seqOf(records[i][..Min(|records[i]|, PipeSource.SEQ_PREFIX_LEN)]) == Some(run[n].client.out[i - k].seq_)
  {
    hide Good, Behaviour, RanOver, Follows, PipeSource.Records, PipeSource.Stream;
    PipeSource.StreamParses(records);
    EmittedIsYielded(p, trace, events, Exhausted, run, n, k);
    assert GivenAt(run[n].client.out, events, k, |got| - 1);
    forall i | k <= i < |records|
      ensures run[n].client.out[i - k].payload == records[i]
      ensures seqOf(records[i][..Min(|records[i]|, PipeSource.SEQ_PREFIX_LEN)]) == Some(run[n].client.out[i - k].seq_)
    {
      assert GivenAt(run[n].client.out, events, k, i);
      assert PipeSource.Yield(records[i], seqOf) == Some(got[i]);
    }
  }

  /** Every run of the source loop is followed by a behaviour. */
  lemma RunIsFollowed(p: Setup, trace: seq<Src>) returns (run: seq<State>)
    requires Good(p) && IsRun(p.w, trace) && SrcInit(p.w, trace[0])
    ensures Behaviour(p, run) && Follows(run, trace) && run[|run| - 1].src == trace[|trace| - 1]
  {
    hide Good, SrcNext;
    var start := State(trace[0], Cursor(p.req.start, None), if p.req.start == 0 then Anchoring else Watching,
                       Snapshot(0, None, false), 0, {}, {}, [], 0, None, NewClient(p.k), p.req.start);
    run := seq(|trace|, i requires 0 <= i < |trace| => start.(src := trace[i]));
    forall i | 0 <= i < |run| - 1 ensures Next(p, run[i], run[i + 1]) {
      assert SourceStep(p, run[i], run[i + 1]);
    }
  }
}
