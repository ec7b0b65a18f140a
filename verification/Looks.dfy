/** What one look of the subscriber loop comes to, told by the source's flows alone, and
    from it what the stamps and the discard count of a yielded ledger tell. */
module Looks {
  import opened Prelude
  import opened Wire
  import opened Chunks
  import opened Source
  import opened Serve
  import opened Client
  import opened Feeding
  import opened Streaming
  import opened StreamingProofs
  import opened StreamingTheorems

  /** The cursor is at the newest flow. */
  predicate AtNewest(req: Request, s: State) {
    |s.src.flows| > 0 && Place(s) == Current(s.src).seq_ != 0 && (req.bounded ==> Place(s) <= req.end)
  }

  /** A subscriber that comes upon a flow after its END is sent the ledger with both
      stamps zero. */
  lemma LatecomerIsStampless(p: Setup, s: State, t: State)
    requires Good(p) && SrcInv(p.w, s.src) && WatchStep(p, s, t)
    requires s.cur.live == None && AtNewest(p.req, s) && Current(s.src).end.Some?
    ensures t.pc.Sending? && t.cur == Cursor(Place(s) + 1, None)
    ensures var f, q := Current(s.src), t.pc.queue;
      && |q| == |f.chunks| + 2 && q[1..|q| - 1] == f.chunks
      && Decode(q[0]) == Ok(Begin(f.seq_, 0))
      && var raw := p.w.history(f.seq_);
      && Decode(q[|q| - 1]) == Ok(End(f.seq_, |f.chunks| % U32, |raw|, 0, p.w.z.hash(raw)))
  {
    hide Joined, Decode, Sound, SrcInv, Lawful, Compatible, AppendBegin, AppendEnd, AllCoded;
    var f := Current(s.src);
    NewestOk(p.w, s.src);
    EndMsgIs(p.w, f);
    var raw := p.w.history(f.seq_);
    assert |raw| <= MAX_PAYLOAD;
    DecodeBegin(f.seq_, 0);
    DecodeEnd(f.seq_, |f.chunks| % U32, |raw|, 0, p.w.z.hash(raw));
  }

  lemma NewestOk(w: World, s: Src)
    requires SrcInv(w, s) && |s.flows| > 0
    ensures FlowOk(w, Current(s))
  {
    hide FlowOk;
  }

  function Unsent(f: Flow, sent: nat): seq<bytes> {
    if sent <= |f.chunks| then f.chunks[sent..] else []
  }

  /** Any other is sent the flow as it is, from where it left off: BEGIN when it enters,
      every chunk it has not been sent, END once that is out. */
  lemma SentUpToDate(p: Setup, s: State, t: State)
    requires SrcInv(p.w, s.src) && CursorOk(p, s) && WatchStep(p, s, t) && AtNewest(p.req, s)
    requires s.cur.live.Some? || Current(s.src).end.None?
    ensures var f, l := Current(s.src), s.cur.live;
      var due := (if l.None? then [f.BeginMsg()] + f.chunks else Unsent(f, l.value.sent))
        + (if f.end.Some? then [f.end.value] else []);
      && (if due == [] then t.pc == Resting else t.pc == Sending(due))
      && t.cur == (if f.end.Some? then Cursor(Place(s) + 1, None)
                   else Cursor(Place(s), Some(Live(|s.src.flows| - 1, |f.chunks|))))
  {
    hide SrcInv;
    if s.cur.live.Some? && s.cur.live.value.id < |s.src.flows| - 1 {
      DistinctFlows(p.w, s.src, s.cur.live.value.id, |s.src.flows| - 1);
    }
    var f := Current(s.src);
    assert f.chunks[0..] == f.chunks;
  }

  /** A subscriber inside a flow that has been replaced is sent its END if that is all it
      lacks, and abandons it exactly when a chunk was still to be sent. */
  lemma ReplacedFlowEnds(p: Setup, s: State, t: State)
    requires SrcInv(p.w, s.src) && CursorOk(p, s) && WatchStep(p, s, t)
    requires s.cur.live.Some? && s.cur.live.value.id < |s.src.flows| - 1
    ensures var l := s.cur.live.value;
      var f := s.src.flows[l.id];
      if l.sent == |f.chunks| then
        && f.end.Some? && t.pc == Sending([f.end.value])
        && t.cur == Cursor(s.cur.next + 1, None) && t.abandoned == s.abandoned
      else
        t.pc == RingBounds && t.cur == Cursor(s.cur.next, None) && t.abandoned == s.abandoned + {s.cur.next}
  {
    hide SrcInv;
    var id := s.cur.live.value.id;
    DistinctFlows(p.w, s.src, id, |s.src.flows| - 1);
    ReplacedHasEnd(p.w, s.src, id);
  }

  /** One past the end of its range is closed, whatever the flow. */
  lemma PastEndIsClosed(p: Setup, s: State, t: State)
    requires WatchStep(p, s, t) && Place(s) != 0 && p.req.bounded && Place(s) > p.req.end
    ensures t.pc == Gone(STATUS_NORMAL, "") && t.cur == s.cur.(next := Place(s))
  {
    hide AtFlow, BehindFlow;
  }

  /** One that is below the flow, or finds none or one wrapped to 0, and is inside none looks
      in the ring; one ahead of it, or still without a place, rests. */
  lemma OthersLookOrRest(p: Setup, s: State, t: State)
    requires WatchStep(p, s, t) && s.cur.live == None && !AtNewest(p.req, s)
    requires Place(s) != 0 && p.req.bounded ==> Place(s) <= p.req.end
    ensures t.cur == s.cur.(next := Place(s))
    ensures t.pc == if Place(s) != 0 && (Place(s) < Watch(s.src).Seq() || Watch(s.src).Seq() == 0)
                    then RingBounds else Resting
  {
    hide AtFlow;
  }

  lemma ReplacedHasEnd(w: World, s: Src, i: nat)
    requires SrcInv(w, s) && i < |s.flows| - 1
    ensures s.flows[i].end.Some?
  {
    hide FlowOk, RingOk, Dense;
  }

  // ------------------------------------------------------------------ over runs

  /** Step m of the run is a look at the ledger's flow before its END. */
  ghost predicate EnteredBy(p: Setup, run: seq<State>, m: nat, ledger: nat)
    requires m + 1 < |run|
  {
    WatchStep(p, run[m], run[m + 1]) && Enters(p.req, run[m]) && Place(run[m]) == ledger
  }

  /** Step m is a look from inside the ledger's flow, replaced with a chunk unsent. */
  ghost predicate LostBy(p: Setup, run: seq<State>, m: nat, ledger: nat)
    requires m + 1 < |run|
  {
    && WatchStep(p, run[m], run[m + 1]) && run[m].cur.next == ledger && run[m].cur.live.Some?
    && var l := run[m].cur.live.value;
    && l.id < |run[m].src.flows| - 1 && l.sent < |run[m].src.flows[l.id].chunks|
  }

  /** The two histories every state keeps are those of the looks before it. */
  lemma {:induction false} HistoriesTell(p: Setup, run: seq<State>, n: nat, ledger: nat)
    requires Good(p) && Behaviour(p, run) && n < |run|
    ensures ledger in run[n].entered <==> exists m: nat :: m < n && EnteredBy(p, run, m, ledger)
    ensures ledger in run[n].abandoned <==> exists m: nat :: m < n && LostBy(p, run, m, ledger)
  {
    hide Inv, Good, Next, EnteredBy, LostBy;
    if n == 0 {
      NoHistory(p, run[0]);
    } else {
      var m := n - 1;
      HistoriesTell(p, run, m, ledger);
      Reachable(p, run, m);
      assert Next(p, run[m], run[m + 1]);
      StepTells(p, run, m, ledger);
      if i: nat :| i < n && EnteredBy(p, run, i, ledger) {
        assert i == m || i < m;
      }
      if i: nat :| i < n && LostBy(p, run, i, ledger) {
        assert i == m || i < m;
      }
    }
  }

  lemma NoHistory(p: Setup, s: State)
    requires Init(p, s)
    ensures s.entered == {} && s.abandoned == {}
  {
    hide SrcInit;
  }

  lemma StepTells(p: Setup, run: seq<State>, m: nat, ledger: nat)
    requires m + 1 < |run| && Inv(p, run[m]) && Next(p, run[m], run[m + 1])
    ensures ledger in run[m + 1].entered <==> ledger in run[m].entered || EnteredBy(p, run, m, ledger)
    ensures ledger in run[m + 1].abandoned <==> ledger in run[m].abandoned || LostBy(p, run, m, ledger)
  {
    var s, t := run[m], run[m + 1];
    hide Inv, WatchStep, Next, Enters, Place;
    if WatchStep(p, s, t) {
      LookTells(p, s, t);
    } else {
      OthersTellNothing(p, s, t);
    }
  }

  lemma OthersTellNothing(p: Setup, s: State, t: State)
    requires Next(p, s, t) && !WatchStep(p, s, t)
    ensures t.entered == s.entered && t.abandoned == s.abandoned
  {
    hide WatchStep, SrcNext, Feed, RingFlow, FinalClose;
  }

  lemma LookTells(p: Setup, s: State, t: State)
    requires Inv(p, s) && WatchStep(p, s, t)
    ensures t.entered == if Enters(p.req, s) then s.entered + {Place(s)} else s.entered
    ensures t.abandoned ==
      if s.cur.live.Some? && s.cur.live.value.id < |s.src.flows| - 1
         && s.cur.live.value.sent < |s.src.flows[s.cur.live.value.id].chunks|
      then s.abandoned + {s.cur.next} else s.abandoned
  {
    hide SrcInv, SnapOk, AheadOk, PcOk, ChannelOk;
    if s.cur.live.Some? {
      if s.cur.live.value.id < |s.src.flows| - 1 {
        ReplacedFlowEnds(p, s, t);
      } else {
        SentUpToDate(p, s, t);
      }
    }
  }

  /** What a subscriber may read off a yielded ledger: the stamps are the source's own, and
      not zero, exactly when the subscription looked at its flow before the END and never
      from inside it after it had been replaced with a chunk unsent; it discarded a partial
      exactly when it did the latter. */
  lemma StampsTell(p: Setup, run: seq<State>, n: nat, i: nat)
    requires Good(p) && Behaviour(p, run) && n < |run| && i < |run[n].client.out|
    ensures var d := run[n].client.out[i];
      var entered := exists m: nat :: m < n && EnteredBy(p, run, m, d.seq_);
      var lost := exists m: nat :: m < n && LostBy(p, run, m, d.seq_);
      && (d.emitStart != 0 <==> entered && !lost) && (d.emitEnd != 0 <==> entered && !lost)
      && (d.emitStart != 0 ==> d.emitStart == p.w.began(d.seq_) && d.emitEnd == p.w.ended(d.seq_))
      && d.discarded == (if lost then 1 else 0)
  {
    var d := run[n].client.out[i];
    DeliveryIsExact(p, run, n);
    HistoriesTell(p, run, n, d.seq_);
    hide Behaviour, EnteredBy, LostBy;
    assert Exact(p, run[n], d);
    ClockRuns(p, d.seq_);
  }

  lemma ClockRuns(p: Setup, ledger: uint32)
    requires Good(p)
    ensures p.w.began(ledger) > 0 && p.w.ended(ledger) > 0
  {
    hide Lawful, Compatible;
  }
}
