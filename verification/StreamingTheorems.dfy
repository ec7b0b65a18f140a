/** What every behaviour of the delivery protocol guarantees. */
module StreamingTheorems {
  import opened Prelude
  import opened Wire
  import opened Chunks
  import opened Source
  import opened Serve
  import opened Client
  import opened ClientSoundness
  import opened Feeding
  import opened Streaming
  import opened StreamingProofs

  /** Every state of every behaviour satisfies the invariant. */
  lemma {:induction false} Reachable(p: Setup, run: seq<State>, n: nat)
    requires Good(p) && Behaviour(p, run) && n < |run|
    ensures Inv(p, run[n])
  {
    hide Inv, Good, Init, Next;
    if n == 0 {
      InitHolds(p, run[0]);
    } else {
      Reachable(p, run, n - 1);
      assert Next(p, run[n - 1], run[n - 1 + 1]);
      NextKeeps(p, run[n - 1], run[n]);
    }
  }

  /** What the client has read is a prefix of what the cursor decided to write. */
  lemma ClientBehindAhead(p: Setup, s: State)
    requires Inv(p, s)
    ensures s.client.out <= Ahead(p, s).out
    ensures s.fate.None? ==> Extends(s.client, Ahead(p, s))
    ensures s.client.status == Failed(Protocol) || s.client.status == Failed(Gap) ==>
      s.client.status == Ahead(p, s).status
  {
    hide SrcInv, SnapOk, CursorOk, AheadOk, PcOk, FeedFrom, Feed;
    var read := FeedFrom(p.k, NewClient(p.k), s.sent[..s.got]);
    FeedAppend(p.k, NewClient(p.k), s.sent[..s.got], s.sent[s.got..] + Queue(s.pc));
    assert s.sent[..s.got] + (s.sent[s.got..] + Queue(s.pc)) == s.sent + Queue(s.pc);
    FeedExtends(p.k, read, s.sent[s.got..] + Queue(s.pc));
    if s.fate.Some? {
      EndsOnce(p.k, read, s.fate.value);
    }
  }

  lemma EndsOnce(k: Config, c: Client, r: Read)
    requires r == Broken || r.Closed?
    ensures Feed(k, c, r).out == c.out
    ensures c.status != Open ==> Feed(k, c, r) == c
    ensures c.status == Open ==> Feed(k, c, r).status != Failed(Protocol) && Feed(k, c, r).status != Failed(Gap)
  {
    hide FeedMessage;
  }

  /** The client's yields, in a state: consecutive from the anchor, each the source's
      own bytes; redelivered once exactly when the server abandoned the ledger; stamps
      both the source's or both zero, and zero when redelivered. */
  ghost predicate ExactYields(p: Setup, s: State) {
    && (forall i :: 0 <= i < |s.client.out| ==> Exact(p, s, s.client.out[i]) && s.client.out[i].seq_ == s.anchor + i)
    && (p.req.start != 0 ==> s.anchor == p.req.start)
  }

  /** What the anchor is: the start that was asked for; or else the tip, as the source
      alone had it at the one step at which the cursor took it. */
  ghost predicate TookTheTip(run: seq<State>, m: nat)
    requires m + 1 < |run|
  {
    && run[m].anchor == 0 && run[m].cur.next == 0
    && (run[m].pc == Anchoring || run[m].pc == Watching)
    && run[m + 1].anchor == (if run[m].pc == Anchoring then TipOnConnect(run[m].src) else TipAtLook(run[m].src))
  }

  lemma {:induction false} AnchorIsTheTip(p: Setup, run: seq<State>, n: nat)
    requires Good(p) && Behaviour(p, run) && n < |run| && p.req.start == 0 && run[n].anchor != 0
    ensures exists m: nat :: m < n && TookTheTip(run, m) && run[m + 1].anchor == run[n].anchor
    decreases n
  {
    hide Good, Inv, SourceStep, RingReadStep, RingBoundsStep, RingGetStep, RingReasonStep, RestStep, WriteStep,
         WakeStep, BreakStep, ClientStep, Turn;
    assert n > 0;
    var m := n - 1;
    assert Next(p, run[m], run[m + 1]);
    Reachable(p, run, m);
    AnchorMoves(p, run[m], run[m + 1]);
    if run[m].anchor != 0 {
      AnchorIsTheTip(p, run, m);
    } else {
      assert TookTheTip(run, m);
    }
  }

  /** Only taking the tip ever sets the anchor, and nothing moves it afterwards. */
  lemma AnchorMoves(p: Setup, s: State, t: State)
    requires Inv(p, s) && Next(p, s, t)
    ensures s.anchor != 0 ==> t.anchor == s.anchor
    ensures s.anchor == 0 && t.anchor != 0 ==>
      && s.cur.next == 0 && (s.pc == Anchoring || s.pc == Watching)
      && t.anchor == (if s.pc == Anchoring then TipOnConnect(s.src) else TipAtLook(s.src))
  {
    hide SrcNext, SrcInv, AheadOk, ChannelOk, PcOk, SnapOk, Turn, FinalClose, RingFlow, Feed, TipOnConnect, TipAtLook;
  }

  /** Gapless and byte-exact: in every reachable state of every interleaving of
      source, cursor, network and client, whichever way each ledger was delivered. */
  lemma DeliveryIsExact(p: Setup, run: seq<State>, n: nat)
    requires Good(p) && Behaviour(p, run) && n < |run|
    ensures ExactYields(p, run[n])
  {
    Reachable(p, run, n);
    hide Behaviour, Good;
    ClientExact(p, run[n]);
  }

  lemma ClientExact(p: Setup, s: State)
    requires Inv(p, s)
    ensures ExactYields(p, s)
  {
    ClientBehindAhead(p, s);
    hide SrcInv, SnapOk, CursorOk, PcOk, ChannelOk, Ahead, Exact, Synced;
    forall i | 0 <= i < |s.client.out|
      ensures Exact(p, s, s.client.out[i]) && s.client.out[i].seq_ == s.anchor + i
    {
      assert s.client.out[i] == Ahead(p, s).out[i];
    }
  }

  /** An honest server is never refused: no behaviour drives the client to a
      protocol violation or a gap. */
  lemma NeverRefused(p: Setup, run: seq<State>, n: nat)
    requires Good(p) && Behaviour(p, run) && n < |run|
    ensures run[n].client.status != Failed(Protocol) && run[n].client.status != Failed(Gap)
  {
    Reachable(p, run, n);
    hide Behaviour, Good;
    ClientBehindAhead(p, run[n]);
    hide SrcInv, SnapOk, CursorOk, PcOk, ChannelOk, Ahead, Exact, Synced, Gapless;
  }

  /** A client still reading is exactly where the cursor is: the ledger expected
      next (any, for a tip subscription that has yielded nothing), inside the same flow,
      after as many chunks; or, when the cursor has just abandoned that flow, inside the
      partial the next BEGIN makes it discard. */
  predicate SamePlace(p: Setup, s: State) {
    && (if p.req.start == 0 && s.client.out == [] then s.client.track == Tracker(0, false)
        else s.client.track == Tracker(s.cur.next % U32, s.cur.next == U32))
    && (s.cur.next != 0 ==> s.cur.next == s.anchor + |s.client.out|)
    && (s.cur.live.Some? ==>
          s.client.asm.active && s.client.asm.seq_ == s.cur.next && s.client.asm.chunks == s.cur.live.value.sent % U32)
    && (s.cur.live.None? && s.client.asm.active ==>
          s.client.asm.seq_ == s.cur.next && s.cur.next in s.abandoned && s.pc != Watching)
  }

  lemma CaughtUpInStep(p: Setup, run: seq<State>, n: nat)
    requires Good(p) && Behaviour(p, run) && n < |run|
    requires run[n].got == |run[n].sent| && Queue(run[n].pc) == [] && run[n].client.status == Open
    ensures SamePlace(p, run[n])
  {
    Reachable(p, run, n);
    hide Behaviour, Good;
    CaughtUp(p, run[n]);
    hide Inv;
  }

  lemma CaughtUp(p: Setup, s: State)
    requires Inv(p, s) && s.got == |s.sent| && Queue(s.pc) == [] && s.client.status == Open
    ensures s.client == Ahead(p, s) && Synced(p, s, s.client)
    ensures SamePlace(p, s)
  {
    hide SrcInv, SnapOk, CursorOk, PcOk, Exact, FeedFrom, Joined;
    assert s.sent[..s.got] == s.sent == s.sent + [];
    if s.fate.Some? {
      EndIsFinal(p.k, FeedFrom(p.k, NewClient(p.k), s.sent), s.fate.value);
    }
  }

  lemma EndIsFinal(k: Config, c: Client, r: Read)
    requires r == Broken || r.Closed?
    ensures Feed(k, c, r).status != Open
  {
  }

  /** No lost wakeup: a cursor asleep on a channel that is still open has seen all
      there is to see. */
  lemma NoLostWakeup(p: Setup, run: seq<State>, n: nat)
    requires Good(p) && Behaviour(p, run) && n < |run|
    requires run[n].pc == Asleep && run[n].gen == run[n].src.gen && !run[n].src.finished
    ensures run[n].snap == Watch(run[n].src)
  {
    Reachable(p, run, n);
    hide Behaviour, Good, SrcInv, CursorOk, AheadOk, PcOk, ChannelOk;
  }

  /** A cursor the source has emitted past never sleeps: what it wants is in the
      ring before the next flow begins. Against a flow whose sequence wrapped to 0 that
      is a place past the ledger before it. */
  lemma NeverSleepsBelowFlow(p: Setup, run: seq<State>, n: nat)
    requires Good(p) && Behaviour(p, run) && n < |run|
    requires run[n].pc == Asleep || run[n].pc == Resting
    requires |run[n].src.flows| > 0 && run[n].src.flows[0].seq_ <= run[n].cur.next
    ensures run[n].cur.next >= run[n].snap.Seq()
    ensures run[n].snap.flow.Some? && run[n].snap.Seq() == 0 && 0 < run[n].snap.id < |run[n].src.flows| ==>
      run[n].cur.next > run[n].src.flows[run[n].snap.id - 1].seq_
  {
    Reachable(p, run, n);
    hide Behaviour, Good, AheadOk, ChannelOk, SrcInv, RestOk, CursorOk, SnapOk;
    RestIsAhead(p.w, run[n]);
  }

  lemma RestIsAhead(w: World, s: State)
    requires SrcInv(w, s.src) && SnapOk(s) && RestOk(s)
    requires |s.src.flows| > 0 && s.src.flows[0].seq_ <= s.cur.next
    ensures s.cur.next >= s.snap.Seq()
    ensures s.snap.flow.Some? && s.snap.Seq() == 0 && 0 < s.snap.id < |s.src.flows| ==>
      s.cur.next > s.src.flows[s.snap.id - 1].seq_
  {
    hide FlowOk, RingOk;
  }

  // -------------------------------------------------------------- how streams end

  /** A cursor resting on a final snapshot, inside no flow, is past every ledger the
      source emitted, provided it did not start below the first of them. */
  lemma RestIsPast(p: Setup, s: State)
    requires SrcInv(p.w, s.src) && SnapOk(s) && RestOk(s) && s.snap.finished
    requires s.cur.live == None && s.cur.next != 0
    requires |s.src.flows| > 0 ==> s.src.flows[0].seq_ <= s.cur.next
    ensures forall i :: 0 <= i < |s.src.flows| && s.src.flows[i].seq_ != 0 ==> s.src.flows[i].seq_ < s.cur.next
  {
    hide FlowOk, RingOk;
    forall i | 0 <= i < |s.src.flows| && s.src.flows[i].seq_ != 0
      ensures s.src.flows[i].seq_ < s.cur.next
    {
      if i < |s.src.flows| - 1 {
        DistinctFlows(p.w, s.src, i, |s.src.flows| - 1);
        if i < |s.src.flows| - 2 {
          DistinctFlows(p.w, s.src, i, |s.src.flows| - 2);
        }
      }
    }
  }

  /** How a clean close comes about: everything read, the client between ledgers,
      and a close code that says so. */
  lemma CleanCloseFacts(p: Setup, s: State)
    requires Inv(p, s) && s.client.status == CleanClose
    ensures s.pc.Gone? && (s.pc.code == STATUS_NORMAL || s.pc.code == STATUS_GOING_AWAY)
    ensures Ahead(p, s).status == Open && !Ahead(p, s).asm.active && Ahead(p, s).out == s.client.out
    ensures GoneOk(p, s)
  {
    hide SrcInv, SnapOk, CursorOk, Exact, FeedFrom, Joined, Gapless, Synced, GoneOk;
    var read := FeedFrom(p.k, NewClient(p.k), s.sent[..s.got]);
    ReadingNeverCloses(p.k, s.sent[..s.got]);
    if s.fate.Some? {
      CleanOnlyByClose(p.k, read, s.fate.value);
      assert s.sent[..|s.sent|] == s.sent + [];
    }
  }

  lemma CleanOnlyByClose(k: Config, c: Client, r: Read)
    requires Feed(k, c, r).status == CleanClose && (r == Broken || r.Closed?)
    requires c.status != CleanClose
    ensures c.status == Open && !c.asm.active && r.Closed? && (r.code == STATUS_NORMAL || r.code == STATUS_GOING_AWAY)
    ensures Feed(k, c, r).out == c.out
  {
  }

  lemma {:induction false} ReadingNeverCloses(k: Config, msgs: seq<bytes>)
    ensures FeedFrom(k, NewClient(k), msgs).status != CleanClose
  {
    hide Feed;
    if |msgs| > 0 {
      ReadingNeverCloses(k, msgs[..|msgs| - 1]);
      MessageNeverCloses(k, FeedFrom(k, NewClient(k), msgs[..|msgs| - 1]), msgs[|msgs| - 1]);
    }
  }

  lemma MessageNeverCloses(k: Config, c: Client, msg: bytes)
    requires c.status != CleanClose
    ensures Feed(k, c, Message(msg)).status != CleanClose
  {
    hide Decode, Admits, ExpandBounded;
  }

  /** A client's own share of the stream: from the anchor on. */
  predicate Wanted(s: State, ledger: uint32) {
    s.anchor != 0 && ledger >= s.anchor
  }

  predicate Yielded(s: State, ledger: uint32) {
    exists i :: 0 <= i < |s.client.out| && s.client.out[i].seq_ == ledger
  }

  /** An unbounded client that did not start below the first emitted ledger and ends
      without an error has yielded every ledger the source ever began from its anchor
      on, and the source did not fail; one that never took a tip had none to take. So a
      source failure, a flow still open at cancellation, or falling out of retention always
      surfaces as an error. */
  lemma CleanEndIsComplete(p: Setup, run: seq<State>, n: nat)
    requires Good(p) && Behaviour(p, run) && n < |run|
    requires !p.req.bounded && run[n].client.status == CleanClose
    requires p.req.start != 0 && |run[n].src.flows| > 0 ==> run[n].src.flows[0].seq_ <= p.req.start
    ensures run[n].src.finished && !run[n].src.failed
    ensures run[n].anchor == 0 ==> Prev(run[n].src) == 0
    ensures forall i :: 0 <= i < |run[n].src.flows| ==>
      var ledger := run[n].src.flows[i].seq_;
      ledger != 0 && Wanted(run[n], ledger) ==> Yielded(run[n], ledger)
  {
    Reachable(p, run, n);
    hide Behaviour, Good;
    CleanEnd(p, run[n]);
    hide Inv;
  }

  lemma CleanEnd(p: Setup, s: State)
    requires Inv(p, s) && !p.req.bounded && s.client.status == CleanClose
    requires p.req.start != 0 && |s.src.flows| > 0 ==> s.src.flows[0].seq_ <= p.req.start
    ensures s.src.finished && !s.src.failed
    ensures s.anchor == 0 ==> Prev(s.src) == 0
    ensures forall i :: 0 <= i < |s.src.flows| ==>
      var ledger := s.src.flows[i].seq_;
      ledger != 0 && Wanted(s, ledger) ==> Yielded(s, ledger)
  {
    hide Inv, SrcInv, SnapOk, RestOk;
    CleanPlace(p, s);
    if s.anchor != 0 {
      RestIsPast(p, s);
      forall i | 0 <= i < |s.src.flows| && s.src.flows[i].seq_ != 0 && Wanted(s, s.src.flows[i].seq_)
        ensures Yielded(s, s.src.flows[i].seq_)
      {
        var ledger := s.src.flows[i].seq_;
        assert s.client.out[ledger - s.anchor].seq_ == ledger;
      }
    }
  }

  /** Where a clean end leaves the cursor: resting on a final snapshot, right behind
      everything yielded. */
  lemma CleanPlace(p: Setup, s: State)
    requires Inv(p, s) && !p.req.bounded && s.client.status == CleanClose
    requires p.req.start != 0 && |s.src.flows| > 0 ==> s.src.flows[0].seq_ <= p.req.start
    ensures SrcInv(p.w, s.src) && SnapOk(s) && RestOk(s) && s.snap.finished && s.cur.live == None
    ensures s.src.finished && !s.src.failed
    ensures s.anchor == 0 ==> Prev(s.src) == 0
    ensures s.anchor != 0 ==>
      && s.cur.next == s.anchor + |s.client.out| && (|s.src.flows| > 0 ==> s.src.flows[0].seq_ <= s.cur.next)
    ensures forall i :: 0 <= i < |s.client.out| ==> s.client.out[i].seq_ == s.anchor + i
  {
    CleanCloseFacts(p, s);
    hide SrcInv, ChannelOk, FeedFrom, Joined, Exact, Ahead;
  }

  // ---------------------------------------------------------------- bounded ranges

  function Reads(msgs: seq<bytes>): seq<Read> {
    seq(|msgs|, i requires 0 <= i < |msgs| => Message(msgs[i]))
  }

  lemma {:induction false} FedAll(k: Config, msgs: seq<bytes>)
    ensures FeedFrom(k, NewClient(k), msgs) == FeedAll(k, Reads(msgs))
  {
    if |msgs| > 0 {
      var init := msgs[..|msgs| - 1];
      FedAll(k, init);
      assert Reads(msgs) == Reads(init) + [Message(msgs[|msgs| - 1])];
      FeedAllSnoc(k, Reads(init), Message(msgs[|msgs| - 1]));
    }
  }

  /** Behind the connection the client is the one ClientSoundness speaks of. */
  lemma ClientIsOrderly(p: Setup, s: State)
    requires ChannelOk(p, s)
    ensures Orderly(p.k, s.client)
  {
    hide Orderly, Faithful, Feed;
    var msgs := s.sent[..s.got];
    FedAll(p.k, msgs);
    ClientSound(p.k, Reads(msgs));
    if s.fate.Some? {
      FeedAllSnoc(p.k, Reads(msgs), s.fate.value);
      ClientSound(p.k, Reads(msgs) + [s.fate.value]);
    }
  }

  /** The range that was asked for, from its anchor to its end, each ledger the source's
      own. */
  predicate WholeRange(p: Setup, s: State) {
    && |s.client.out| == p.req.end - s.anchor + 1
    && forall i :: 0 <= i < |s.client.out| ==>
      s.client.out[i].seq_ == s.anchor + i && OwnBytes(p, s.client.out[i])
  }

  predicate OwnBytes(p: Setup, d: Delivery) {
    d.payload == p.w.history(d.seq_)
  }

  /** End to end, for a bounded range: a stream that ends without an error, and without
      the consumer breaking off, has delivered exactly the range, byte for byte. Only a
      range from the tip can end so with nothing at all. */
  lemma BoundedEndIsWhole(p: Setup, run: seq<State>, n: nat)
    requires Good(p) && Behaviour(p, run) && n < |run| && p.req.bounded
    requires run[n].client.status == RangeComplete || run[n].client.status == CleanClose
    ensures WholeRange(p, run[n]) || (p.req.start == 0 && run[n].client.out == [] && run[n].client.status == CleanClose)
    ensures p.req.start != 0 ==> run[n].anchor == p.req.start
  {
    Reachable(p, run, n);
    hide Behaviour, Good;
    BoundedEnd(p, run[n]);
    hide Inv;
  }

  lemma BoundedEnd(p: Setup, s: State)
    requires Inv(p, s) && Good(p) && p.req.bounded
    requires s.client.status == RangeComplete || s.client.status == CleanClose
    ensures WholeRange(p, s) || (p.req.start == 0 && s.client.out == [] && s.client.status == CleanClose)
    ensures p.req.start != 0 ==> s.anchor == p.req.start
  {
    hide SrcInv, SnapOk, CursorOk, AheadOk, PcOk, ChannelOk, Orderly, ExactYields, GoodWorld, Compatible;
    ClientExact(p, s);
    ClientIsOrderly(p, s);
    YieldsBounded(p, s);
    EndsAt(p.k, s.client);
  }

  lemma YieldsBounded(p: Setup, s: State)
    requires ExactYields(p, s) && p.req.bounded
    ensures forall i :: 0 <= i < |s.client.out| ==>
      s.client.out[i].seq_ == s.anchor + i <= p.req.end && OwnBytes(p, s.client.out[i])
    ensures p.req.start != 0 ==> s.anchor == p.req.start
  {
    hide Exact, OwnBytes;
    forall i | 0 <= i < |s.client.out|
      ensures s.client.out[i].seq_ == s.anchor + i <= p.req.end && OwnBytes(p, s.client.out[i])
    {
      ExactIsBounded(p, s, s.client.out[i]);
    }
  }

  lemma ExactIsBounded(p: Setup, s: State, d: Delivery)
    requires Exact(p, s, d)
    ensures OwnBytes(p, d) && (p.req.bounded ==> d.seq_ <= p.req.end)
  {
  }

  /** An orderly client of a bounded range that ends silently has yielded up to its end,
      or, asking from the tip, nothing. */
  lemma EndsAt(k: Config, c: Client)
    requires Orderly(k, c) && k.range.bounded && Requestable(k.range)
    requires c.status == RangeComplete || c.status == CleanClose
    ensures if |c.out| == 0 then k.range.from == 0 && c.status == CleanClose else c.out[|c.out| - 1].seq_ >= k.range.to
  {
  }
}
