/** Every step of the delivery protocol keeps its invariant. */
module StreamingProofs {
  import opened Prelude
  import opened Wire
  import opened Chunks
  import opened Retention
  import opened Source
  import opened Serve
  import opened Client
  import opened Feeding
  import opened Streaming
  import SourceProofs

  // --------------------------------------------------------------- source steps

  /** What a source step may change under a reader's feet: flows only grow, and a
      generation that has not moved means the flow has not either. */
  predicate Grows(a: Src, b: Src) {
    && |a.flows| <= |b.flows|
    && (forall i :: 0 <= i < |a.flows| ==> Earlier(a.flows[i], b.flows[i]))
    && a.gen <= b.gen
    && (a.gen == b.gen ==> a.flows == b.flows)
    && !a.finished
  }

  lemma SourceGrows(w: World, a: Src, b: Src)
    requires SrcInv(w, a) && SrcNext(w, a, b)
    ensures Grows(a, b)
  {
    hide FlowOk, Dense, RingOk, SoundAt, Joined, Payload, EndMsg, PutTrace, PutRing, Resets;
  }

  /** A flow that has been replaced never changes again: it was ended first. */
  lemma ReplacedFlowIsComplete(w: World, s: Src, i: nat)
    requires SrcInv(w, s) && i < |s.flows| - 1
    ensures s.flows[i].end.Some?
    ensures Joined(w.z, s.flows[i].chunks) == w.history(s.flows[i].seq_)
  {
    hide Sound, Joined;
    assert FlowOk(w, s.flows[i]);
  }

  lemma LiveGrows(s: State, t: State, l: Live)
    requires Grows(s.src, t.src) && t.cur == s.cur && LiveOk(s, l)
    ensures LiveOk(t, l)
    ensures s.src.flows[l.id].chunks[..l.sent] == t.src.flows[l.id].chunks[..l.sent]
    ensures s.src.flows[l.id].start == t.src.flows[l.id].start
  {
    assert Earlier(s.src.flows[l.id], t.src.flows[l.id]);
  }

  lemma SyncedGrows(p: Setup, s: State, t: State, c: Client)
    requires Grows(s.src, t.src) && t == s.(src := t.src)
    requires Synced(p, s, c)
    ensures Synced(p, t, c)
  {
    hide Joined;
    if s.cur.live.Some? {
      LiveGrows(s, t, s.cur.live.value);
    }
    if ResidualOk(s) {
      assert Earlier(s.src.flows[0], t.src.flows[0]);
      assert Earlier(s.src.flows[s.snap.id - 1], t.src.flows[s.snap.id - 1]);
    }
  }

  lemma SourceKeepsAhead(p: Setup, s: State, t: State)
    requires CursorOk(p, s) && AheadOk(p, s) && Grows(s.src, t.src) && t == s.(src := t.src)
    ensures CursorOk(p, t) && AheadOk(p, t)
  {
    hide FeedFrom, Gapless, Synced, Grows;
    if s.cur.live.Some? {
      LiveGrows(s, t, s.cur.live.value);
    }
    FirstStays(s.src, t.src);
    assert Ahead(p, t) == Ahead(p, s);
    if Ahead(p, s).status == Open {
      SyncedGrows(p, s, t, Ahead(p, s));
    }
  }

  lemma FirstStays(s: Src, t: Src)
    requires Grows(s, t)
    ensures |s.flows| > 0 ==> |t.flows| > 0 && t.flows[0].seq_ == s.flows[0].seq_
  {
    if |s.flows| > 0 {
      assert Earlier(s.flows[0], t.flows[0]);
    }
  }

  lemma SourceKeepsRest(p: Setup, s: State, t: State)
    requires CursorOk(p, s) && SnapOk(s) && PcOk(p, s) && Grows(s.src, t.src) && t == s.(src := t.src)
    ensures SnapOk(t) && PcOk(p, t)
  {
    if 0 < s.snap.id < |s.src.flows| {
      assert Earlier(s.src.flows[s.snap.id - 1], t.src.flows[s.snap.id - 1]);
    }
    if s.snap.flow.Some? {
      assert Earlier(s.src.flows[s.snap.id], t.src.flows[s.snap.id]);
    }
  }

  lemma SourceKeeps(p: Setup, s: State, t: State)
    requires Good(p) && Inv(p, s) && SourceStep(p, s, t)
    ensures Inv(p, t)
  {
    hide SrcInv, SrcNext, GoodWorld, Grows, AheadOk, CursorOk, PcOk, SnapOk;
    SourceProofs.NextKeeps(p.w, s.src, t.src);
    SourceGrows(p.w, s.src, t.src);
    SourceKeepsAhead(p, s, t);
    SourceKeepsRest(p, s, t);
  }

  // --------------------------------------------------------------- the watch step

  /** What the cursor sends is what the client, once it catches up, has read. */
  lemma AheadSends(p: Setup, s: State, t: State, msgs: seq<bytes>)
    requires Queue(s.pc) == [] && t.sent == s.sent && t.pc == Sending(msgs)
    ensures Ahead(p, t) == FeedFrom(p.k, Ahead(p, s), msgs)
  {
    hide FeedFrom;
    FeedAppend(p.k, NewClient(p.k), s.sent, msgs);
    assert s.sent + [] == s.sent;
  }

  lemma ClosedClient(p: Setup, s: State, t: State, msgs: seq<bytes>)
    requires CursorOk(p, s) && AheadOk(p, s) && Queue(s.pc) == []
    requires t.sent == s.sent && t.pc == Sending(msgs) && t.src == s.src && t.abandoned == s.abandoned
    requires t.entered == s.entered || t.entered == s.entered + {s.cur.next}
    requires t.anchor == s.anchor
    requires t.cur.next >= s.cur.next
    requires Ahead(p, s).status != Open
    ensures AheadOk(p, t)
  {
    hide FeedFrom, Synced, Feed;
    AheadSends(p, s, t, msgs);
    FeedExtends(p.k, Ahead(p, s), msgs);
  }

  lemma AfterDelivery(p: Setup, s: State, t: State, c: Client, d: Delivery)
    requires CursorOk(p, s) && AheadOk(p, s) && Ahead(p, s).status == Open
    requires 0 < s.cur.next < U32 && (p.req.bounded ==> s.cur.next <= p.req.end)
    requires c.out == Ahead(p, s).out && Ahead(p, t) == Delivered(p.k, c, d)
    requires d.seq_ == s.cur.next && d.payload == p.w.history(d.seq_) && Stamped(p, t, d)
    requires d.discarded == (if d.seq_ in t.abandoned then 1 else 0)
    requires t.cur == Cursor(s.cur.next + 1, None) && t.src == s.src
    requires t.abandoned == s.abandoned && t.entered == s.entered && t.anchor == s.anchor
    ensures AheadOk(p, t)
  {
    hide FeedFrom, Ahead;
  }

  /** The branches of AtFlow and BehindFlow start from a client in step. */
  predicate InStep(p: Setup, s: State, c: Client)
  {
    && c == Ahead(p, s) && c.status == Open && s.pc == Watching
    && CursorOk(p, s) && 0 < s.cur.next < U32
    && Synced(p, s, c)
  }

  lemma NotInside(p: Setup, s: State, c: Client)
    requires InStep(p, s, c) && s.cur.live == None
    ensures !c.asm.active && Awaits(c, s.cur.next) && Discards(c) == 0 && s.cur.next !in s.abandoned
  {
    hide Ahead, Joined;
  }

  lemma IsInside(p: Setup, s: State, c: Client)
    requires InStep(p, s, c) && s.cur.live.Some?
    ensures
      var l := s.cur.live.value;
      var f := s.src.flows[l.id];
      c == Inside(p.w.z, c, f.seq_, f.start, f.chunks, l.sent, 0) && s.cur.next !in s.abandoned
  {
    hide Ahead, Joined;
  }

  lemma StamplessKeeps(p: Setup, s: State, t: State, f: Flow, msgs: seq<bytes>)
    requires Good(p) && AheadOk(p, s) && InStep(p, s, Ahead(p, s)) && s.cur.live == None
    requires FlowOk(p.w, f) && f.seq_ == s.cur.next && f.end.Some? && (p.req.bounded ==> s.cur.next <= p.req.end)
    requires StamplessFlow(f, f.end.value) == Some(msgs)
    requires t == s.(cur := Cursor(s.cur.next + 1, None), snap := t.snap, gen := t.gen, pc := Sending(msgs))
    ensures AheadOk(p, t)
  {
    hide FlowOk, Ahead, StamplessFlow, Compatible, Awaits, AheadOk, Delivered, Lawful, Synced;
    var c := Ahead(p, s);
    NotInside(p, s, c);
    FeedsStampless(p.w, p.k, c, f);
    AheadSends(p, s, t, msgs);
    AfterDelivery(p, s, t, c, Delivery(f.seq_, p.w.history(f.seq_), 0, 0, |f.chunks| % U32, 0));
  }

  /** Entering a flow, or going on inside it: the client takes in what is written. */
  lemma EnterFeeds(p: Setup, s: State, f: Flow)
    requires Good(p) && AheadOk(p, s) && InStep(p, s, Ahead(p, s)) && s.cur.live == None
    requires FlowOk(p.w, f) && f.seq_ == s.cur.next
    ensures FeedFrom(p.k, Ahead(p, s), [f.BeginMsg()] + f.chunks) ==
      Inside(p.w.z, Ahead(p, s), f.seq_, f.start, f.chunks, |f.chunks|, 0)
  {
    hide FlowOk, Ahead, Compatible, Awaits, AheadOk, Lawful, Synced, AppendBegin, FeedFrom, Inside, Feed;
    var c := Ahead(p, s);
    NotInside(p, s, c);
    FlowFits(p.w, f);
    FeedsBegin(p.k, c, f.seq_, f.start, f.chunks);
    FeedsChunks(p.w, p.k, c, f.seq_, f.start, f.chunks, 0, |f.chunks|, 0);
    FeedOne(p.k, c, f.BeginMsg());
    assert f.chunks[0..|f.chunks|] == f.chunks;
    FeedAppend(p.k, c, [f.BeginMsg()], f.chunks);
  }

  lemma FlowFits(w: World, f: Flow)
    requires GoodWorld(w) && FlowOk(w, f)
    ensures Sound(w.z, f.seq_, f.chunks, w.chunkSize) && |Joined(w.z, f.chunks)| <= MAX_PAYLOAD
  {
    hide Sound, Joined, Lawful;
    assert |w.history(f.seq_)| <= MAX_PAYLOAD;
  }

  lemma ContinueFeeds(p: Setup, s: State, l: Live, f: Flow)
    requires Good(p) && AheadOk(p, s) && InStep(p, s, Ahead(p, s)) && s.cur.live == Some(l)
    requires s.src.flows[l.id] == f && FlowOk(p.w, f)
    ensures FeedFrom(p.k, Ahead(p, s), f.chunks[l.sent..]) ==
      Inside(p.w.z, Ahead(p, s), f.seq_, f.start, f.chunks, |f.chunks|, 0)
  {
    hide FlowOk, Ahead, Compatible, Awaits, AheadOk, Lawful, FeedFrom, Feed, Joined, Sound;
    var c := Ahead(p, s);
    IsInside(p, s, c);
    FlowFits(p.w, f);
    FeedsChunks(p.w, p.k, c, f.seq_, f.start, f.chunks, l.sent, |f.chunks|, 0);
    assert f.chunks[l.sent..|f.chunks|] == f.chunks[l.sent..];
  }

  /** Whatever part of flow id the cursor wrote, it leaves the client inside it. */
  lemma InsideKeeps(p: Setup, s: State, t: State, id: nat, f: Flow, msgs: seq<bytes>)
    requires AheadOk(p, s) && InStep(p, s, Ahead(p, s)) && s.cur.next !in s.abandoned
    requires id < |s.src.flows| && s.src.flows[id] == f && f.seq_ == s.cur.next && |f.chunks| < U32
    requires FeedFrom(p.k, Ahead(p, s), msgs) == Inside(p.w.z, Ahead(p, s), f.seq_, f.start, f.chunks, |f.chunks|, 0)
    requires t == s.(cur := Cursor(s.cur.next, Some(Live(id, |f.chunks|))), snap := t.snap, gen := t.gen,
                     entered := s.entered + {s.cur.next}, pc := Sending(msgs))
    ensures AheadOk(p, t)
  {
    hide FeedFrom, Joined, Ahead;
    AheadSends(p, s, t, msgs);
  }

  /** Whatever part of it went before, an END takes the client out of the flow with
      the whole ledger and the flow's own stamps. */
  lemma EndedKeeps(p: Setup, s: State, t: State, id: nat, f: Flow, body: seq<bytes>)
    requires Good(p) && AheadOk(p, s) && InStep(p, s, Ahead(p, s)) && s.cur.next !in s.abandoned
    requires id < |s.src.flows| && s.src.flows[id] == f && f.seq_ == s.cur.next && FlowOk(p.w, f) && f.end.Some?
    requires s.cur.live.Some? && (p.req.bounded ==> s.cur.next <= p.req.end)
    requires FeedFrom(p.k, Ahead(p, s), body) == Inside(p.w.z, Ahead(p, s), f.seq_, f.start, f.chunks, |f.chunks|, 0)
    requires t == s.(cur := Cursor(s.cur.next + 1, None), snap := t.snap, gen := t.gen,
                     pc := Sending(body + [f.end.value]))
    ensures AheadOk(p, t)
  {
    hide FlowOk, FeedFrom, Joined, Ahead, AheadOk, Feed, Delivered, Compatible, Lawful, Synced, Inside;
    var c := Ahead(p, s);
    FlowFits(p.w, f);
    EndFeeds(p, c, f);
    var d := Delivery(f.seq_, p.w.history(f.seq_), p.w.began(f.seq_), p.w.ended(f.seq_), |f.chunks| % U32, 0);
    FeedSnoc(p.k, c, body, f.end.value);
    AheadSends(p, s, t, body + [f.end.value]);
    AfterDelivery(p, s, t, c, d);
  }

  lemma EndFeeds(p: Setup, c: Client, f: Flow)
    requires Good(p) && c.status == Open && FlowOk(p.w, f) && f.end.Some?
    ensures
      var d := Delivery(f.seq_, p.w.history(f.seq_), p.w.began(f.seq_), p.w.ended(f.seq_), |f.chunks| % U32, 0);
      Feed(p.k, Inside(p.w.z, c, f.seq_, f.start, f.chunks, |f.chunks|, 0), Message(f.end.value)) ==
        Delivered(p.k, c, d)
  {
    hide Feed, Delivered, Joined, Sound, Compatible, Lawful, AppendEnd, Inside;
    FlowFits(p.w, f);
    FeedsEnd(p.k, c, f.seq_, f.start, p.w.ended(f.seq_), f.chunks, 0);
  }

  // ------------------------------------------------------------ one turn of serve

  /** The emitted chain names every ledger once. */
  lemma DistinctFlows(w: World, s: Src, i: nat, j: nat)
    requires SrcInv(w, s) && i < j < |s.flows|
    ensures s.flows[i].seq_ != s.flows[j].seq_ && 0 < s.flows[i].seq_
    ensures s.flows[j].seq_ != 0 ==> s.flows[i].seq_ < s.flows[j].seq_
    ensures s.flows[0].seq_ <= s.flows[i].seq_
  {
    hide FlowOk, RingOk;
  }

  lemma CountFits(w: World, f: Flow)
    requires GoodWorld(w) && FlowOk(w, f)
    ensures |f.chunks| < U32
  {
    hide Sound, Joined, Lawful;
    FlowFits(w, f);
    CountBelowBytes(w.z, f.seq_, f.chunks, w.chunkSize);
  }

  lemma UpToDate(p: Setup, s: State, t: State, id: nat, f: Flow, msgs: seq<bytes>, body: seq<bytes>)
    requires Good(p) && AheadOk(p, s) && CursorOk(p, s) && s.pc == Watching
    requires 0 < s.cur.next < U32 && (p.req.bounded ==> s.cur.next <= p.req.end)
    requires id < |s.src.flows| && s.src.flows[id] == f && f.seq_ == s.cur.next && FlowOk(p.w, f)
    requires s.cur.live.Some? ==> s.cur.live.value.id == id
    requires body == (if s.cur.live.None? then [f.BeginMsg()] + f.chunks else f.chunks[s.cur.live.value.sent..])
    requires
      || (f.end.Some? && s.cur.live.Some? && msgs == body + [f.end.value]
          && t == s.(cur := Cursor(s.cur.next + 1, None), snap := t.snap, gen := t.gen, pc := Sending(msgs)))
      || (msgs == body
          && t == s.(cur := Cursor(s.cur.next, Some(Live(id, |f.chunks|))), snap := t.snap, gen := t.gen,
                     entered := s.entered + {s.cur.next}, pc := Sending(msgs)))
    ensures AheadOk(p, t) && CursorOk(p, t)
  {
    hide FlowOk, Ahead, AheadOk, Synced, Inside, FeedFrom, Compatible, Lawful, AppendBegin;
    CountFits(p.w, f);
    var open := AheadStatus(p, s);
    if open {
      if s.cur.live.None? {
        NotInside(p, s, Ahead(p, s));
        EnterFeeds(p, s, f);
      } else {
        IsInside(p, s, Ahead(p, s));
        ContinueFeeds(p, s, s.cur.live.value, f);
      }
      if t.cur.live.None? {
        EndedKeeps(p, s, t, id, f, body);
      } else {
        InsideKeeps(p, s, t, id, f, msgs);
      }
    } else {
      ClosedClient(p, s, t, msgs);
    }
  }

  /** Whether the client will still be reading once it has caught up. */
  lemma AheadStatus(p: Setup, s: State) returns (open: bool)
    requires AheadOk(p, s) && CursorOk(p, s) && s.pc == Watching && 0 < s.cur.next < U32
    ensures open ==> InStep(p, s, Ahead(p, s))
    ensures !open ==> Ahead(p, s).status != Open
  {
    hide FeedFrom;
    open := Ahead(p, s).status == Open;
  }

  lemma StamplessDecodes(w: World, f: Flow)
    requires FlowOk(w, f) && f.end.Some?
    ensures StamplessFlow(f, f.end.value).Some?
  {
    hide Decode, Sound, Joined;
    EndMsgIs(w, f);
  }

  /** serve with the cursor exactly at the flow. */
  lemma AtFlowKeeps(p: Setup, s: State, t: State)
    requires Good(p) && SrcInv(p.w, s.src) && CursorOk(p, s) && AheadOk(p, s) && s.pc == Watching
    requires |s.src.flows| > 0 && Current(s.src).seq_ == s.cur.next && s.cur.next != 0
    requires p.req.bounded ==> s.cur.next <= p.req.end
    requires
      var (cur, action) := AtFlow(s.cur, |s.src.flows| - 1, Current(s.src));
      t == s.(cur := cur, pc := After(action), snap := Watch(s.src), gen := s.src.gen,
              entered := if Current(s.src).end.None? then s.entered + {s.cur.next} else s.entered)
    ensures CursorOk(p, t) && AheadOk(p, t) && PcOk(p, t) && !t.pc.Gone? && !t.pc.Broke?
  {
    hide FlowOk, AheadOk, InStep, Ahead, Compatible, Lawful, AppendBegin, StamplessFlow, Dense, RingOk, Resets;
    var id := |s.src.flows| - 1;
    var f := Current(s.src);
    assert FlowOk(p.w, f);
    if s.cur.live.Some? && s.cur.live.value.id != id {
      DistinctFlows(p.w, s.src, s.cur.live.value.id, id);
      assert false;
    }
    if s.cur.live.None? && f.end.Some? {
      StamplessDecodes(p.w, f);
      var msgs := StamplessFlow(f, f.end.value).value;
      var open := AheadStatus(p, s);
      if open {
        StamplessKeeps(p, s, t, f, msgs);
      } else {
        ClosedClient(p, s, t, msgs);
      }
    } else {
      var body := if s.cur.live.None? then [f.BeginMsg()] + f.chunks else f.chunks[s.cur.live.value.sent..];
      assert f.chunks[0..] == f.chunks;
      assert [] + body == body;
      if f.end.Some? || |body| > 0 {
        UpToDate(p, s, t, id, f, t.pc.queue, body);
      } else {
        RestKeepsAhead(p, s, t);
      }
    }
  }

  /** Deciding to rest changes nothing the client can see. */
  lemma RestKeepsAhead(p: Setup, s: State, t: State)
    requires AheadOk(p, s) && s.pc == Watching
    requires t == s.(pc := t.pc, snap := t.snap, gen := t.gen) && Queue(t.pc) == []
    requires s.cur.live.Some? || !InRing(t.pc)
    ensures AheadOk(p, t)
  {
    hide FeedFrom, Joined;
    assert Ahead(p, t) == Ahead(p, s);
  }

  /** The client of a flow the cursor is inside is inside it too, so once the flow
      has been replaced either the END finishes it or the ledger is abandoned. */
  lemma PinnedKeeps(p: Setup, s: State, t: State)
    requires Good(p) && SrcInv(p.w, s.src) && CursorOk(p, s) && AheadOk(p, s) && s.pc == Watching
    requires s.cur.next < U32
    requires s.cur.live.Some? && s.cur.live.value.id < |s.src.flows| - 1
    requires s.cur.live.value.sent == |Pinned(s.src, s.cur).chunks| && Pinned(s.src, s.cur).end.Some?
    requires t == s.(cur := Cursor(s.cur.next + 1, None), snap := t.snap, gen := t.gen,
                     pc := Sending([Pinned(s.src, s.cur).end.value]))
    ensures CursorOk(p, t) && AheadOk(p, t)
  {
    hide FlowOk, AheadOk, InStep, Ahead, Compatible, Lawful, Dense, RingOk;
    var id := s.cur.live.value.id;
    var f := s.src.flows[id];
    assert FlowOk(p.w, f);
    assert f.chunks[|f.chunks|..] == [];
    assert [] + [f.end.value] == [f.end.value];
    UpToDate(p, s, t, id, f, [f.end.value], []);
  }

  lemma AbandonKeeps(p: Setup, s: State, t: State)
    requires SrcInv(p.w, s.src) && CursorOk(p, s) && AheadOk(p, s) && s.pc == Watching
    requires |s.src.flows| > 0 && s.cur.live.Some? && s.cur.live.value.id < |s.src.flows| - 1
    requires t == s.(cur := s.cur.(live := None), pc := RingBounds, snap := Watch(s.src), gen := s.src.gen,
                     abandoned := s.abandoned + {s.cur.next})
    ensures AheadOk(p, t)
  {
    hide FeedFrom, FlowOk, RingOk, Joined;
    var id := s.cur.live.value.id;
    assert Ahead(p, t) == Ahead(p, s);
    if id < |s.src.flows| - 2 {
      DistinctFlows(p.w, s.src, id, |s.src.flows| - 2);
    }
    DistinctFlows(p.w, s.src, id, |s.src.flows| - 1);
    assert t.snap.id == |s.src.flows| - 1;
    AbandonedExact(p, s, t);
  }

  lemma AbandonedExact(p: Setup, s: State, t: State)
    requires t.src == s.src && t.cur.next == s.cur.next && t.abandoned == s.abandoned + {s.cur.next}
    requires t.entered == s.entered
    ensures forall d :: Exact(p, s, d) ==> Exact(p, t, d)
  {
  }

  /** serve with the flow past the cursor, or not begun. */
  lemma BehindKeeps(p: Setup, s: State, t: State)
    requires Good(p) && SrcInv(p.w, s.src) && CursorOk(p, s) && AheadOk(p, s) && s.pc == Watching
    requires p.req.bounded ==> s.cur.next <= p.req.end
    requires s.cur.next != 0 && (s.cur.next < Watch(s.src).Seq() || Watch(s.src).Seq() == 0)
    requires
      var (cur, action) := BehindFlow(s.cur, Pinned(s.src, s.cur));
      t == s.(cur := cur, pc := After(action), snap := Watch(s.src), gen := s.src.gen,
              abandoned := if action.LookInRing? && s.cur.live.Some? then s.abandoned + {cur.next} else s.abandoned)
    ensures CursorOk(p, t) && AheadOk(p, t) && !t.pc.Gone? && !t.pc.Broke? && t.pc != Resting && t.pc != Asleep
  {
    hide FlowOk, AheadOk, Ahead, Compatible, Lawful, Dense, RingOk;
    if s.cur.live.Some? {
      var id := s.cur.live.value.id;
      assert s.src.flows[id].seq_ == s.cur.next;
      assert id < |s.src.flows| - 1;
      if t.pc.Sending? {
        PinnedKeeps(p, s, t);
      } else {
        AbandonKeeps(p, s, t);
      }
    } else {
      NotLiveKeeps(p, s, t);
    }
  }

  lemma NotLiveKeeps(p: Setup, s: State, t: State)
    requires AheadOk(p, s) && s.pc == Watching && s.cur.live == None
    requires t == s.(pc := t.pc, snap := t.snap, gen := t.gen) && Queue(t.pc) == []
    requires t.pc.Gone? || InRing(t.pc) || t.pc == Resting
    ensures AheadOk(p, t)
  {
    hide FeedFrom, Joined;
    assert Ahead(p, t) == Ahead(p, s);
  }

  /** A tip subscription takes its first sequence from the flow; until then nothing
      was written, so the client is still fresh. */
  lemma AnchoredHere(p: Setup, s: State, next: nat)
    requires CursorOk(p, s) && AheadOk(p, s) && s.pc == Watching
    requires s.cur.next == 0 && next <= U32
    requires next != 0 ==> |s.src.flows| > 0 && s.src.flows[0].seq_ <= next
    ensures var t := s.(cur := s.cur.(next := next), anchor := next); CursorOk(p, t) && AheadOk(p, t)
  {
    hide Feed;
    var t := s.(cur := s.cur.(next := next), anchor := next);
    assert s.sent + Queue(s.pc) == [];
    assert Ahead(p, t) == NewClient(p.k) == Ahead(p, s);
  }

  function Here(s: State): State {
    if s.cur.next == 0 then s.(cur := s.cur.(next := Watch(s.src).Seq()), anchor := TipAtLook(s.src)) else s
  }

  lemma WatchKeepsParts(p: Setup, s: State, t: State)
    requires Good(p) && SrcInv(p.w, s.src) && CursorOk(p, s) && AheadOk(p, s) && WatchStep(p, s, t)
    ensures CursorOk(p, t) && AheadOk(p, t) && PcOk(p, t) && !t.pc.Broke?
  {
    hide SrcInv, AheadOk, BehindFlow, Good, FinalClose, StamplessFlow;
    var here := Here(s);
    if s.cur.next == 0 {
      FirstBelow(p.w, s.src);
      AnchoredHere(p, s, Watch(s.src).Seq());
    }
    assert CursorOk(p, here) && AheadOk(p, here);
    var snap := Watch(s.src);
    if here.cur.next != 0 && p.req.bounded && here.cur.next > p.req.end {
      NotLiveKeeps(p, here, t);
    } else if here.cur.next != 0 && snap.flow.Some? && here.cur.next == snap.Seq() {
      AtFlowKeeps(p, here, t);
    } else if here.cur.next != 0 && (here.cur.next < snap.Seq() || snap.Seq() == 0) {
      BehindKeeps(p, here, t);
    } else {
      RestedAhead(p, here);
      NotLiveKeeps(p, here, t);
    }
  }

  /** A cursor ahead of the flow, or unanchored, is inside no flow. */
  lemma RestedAhead(p: Setup, s: State)
    requires SrcInv(p.w, s.src) && CursorOk(p, s)
    requires s.cur.next == 0 || (s.cur.next > Watch(s.src).Seq() && Watch(s.src).Seq() != 0)
    ensures s.cur.live == None
  {
    hide FlowOk, RingOk;
  }

  lemma WatchKeeps(p: Setup, s: State, t: State)
    requires Good(p) && Inv(p, s) && WatchStep(p, s, t)
    ensures Inv(p, t) && !t.pc.Broke?
  {
    hide SrcInv, AheadOk, CursorOk, PcOk, FeedFrom, Feed, Good;
    WatchKeepsParts(p, s, t);
    hide Turn;
  }

  // ------------------------------------------------------------- the other steps

  lemma AnchorKeeps(p: Setup, s: State, t: State)
    requires Inv(p, s) && AnchorStep(s, t)
    ensures Inv(p, t)
  {
    hide SrcInv, FeedFrom, Feed;
    var u := s.(pc := Watching);
    assert Ahead(p, u) == Ahead(p, s);
    FirstBelow(p.w, s.src);
    AnchoredHere(p, u, t.cur.next);
  }

  lemma FirstBelow(w: World, s: Src)
    requires SrcInv(w, s)
    ensures |s.flows| > 0 && Prev(s) != 0 ==> s.flows[0].seq_ <= Prev(s)
  {
    hide FlowOk, RingOk;
  }

  /** A step that changes nothing the client will see, nor where the cursor is. */
  lemma AheadStays(p: Setup, s: State, t: State)
    requires AheadOk(p, s) && t.sent + Queue(t.pc) == s.sent + Queue(s.pc)
    requires t.src == s.src && t.cur == s.cur && t.snap == s.snap && t.abandoned == s.abandoned
    requires t.entered == s.entered && t.anchor == s.anchor
    requires !InRing(s.pc) && !s.pc.Gone? && !s.pc.Broke?
    ensures AheadOk(p, t)
  {
    hide FeedFrom, Joined, Gapless, TrackOk;
    assert Ahead(p, t) == Ahead(p, s);
  }

  lemma WriteKeeps(p: Setup, s: State, t: State)
    requires Inv(p, s) && WriteStep(s, t)
    ensures Inv(p, t)
  {
    hide SrcInv, FeedFrom, Feed, AheadOk;
    assert t.sent + Queue(t.pc) == s.sent + Queue(s.pc);
    AheadStays(p, s, t);
    assert t.sent[..t.got] == s.sent[..s.got];
  }

  /** Whenever its lock is free, the ring holds every ledger below the one being
      emitted: each Put completes before the next BEGIN. */
  lemma StoredBelowFlow(w: World, s: Src, i: nat)
    requires SrcInv(w, s) && Unlocked(s) && i < |s.flows| - 1
    ensures s.ring.filled && s.flows[i].seq_ <= s.ring.latest
  {
    hide FlowOk, Agrees, Indexes;
    if i < |s.flows| - 2 {
      DistinctFlows(w, s, i, |s.flows| - 2);
    }
  }

  /** The ring has nothing for a cursor below the flow only when the source never
      emitted that ledger: an abandoned ledger is always there or pruned. */
  lemma RingSaysNo(p: Setup, s: State)
    requires SrcInv(p.w, s.src) && SnapOk(s) && CursorOk(p, s) && s.pc == RingBounds && Unlocked(s.src)
    requires !s.src.ring.filled || s.cur.next > s.src.ring.latest
    ensures RestOk(s) && RestOk(s.(pc := Resting))
    ensures !(0 < s.snap.id < |s.src.flows| && s.cur.next <= s.src.flows[s.snap.id - 1].seq_)
  {
    hide FlowOk, RingOk;
    if 0 < s.snap.id < |s.src.flows| {
      StoredBelowFlow(p.w, s.src, s.snap.id - 1);
    }
  }

  lemma RingBoundsKeeps(p: Setup, s: State, t: State)
    requires Inv(p, s) && RingBoundsStep(s, t)
    ensures Inv(p, t)
  {
    hide SrcInv, FeedFrom, Feed, Joined, RestOk;
    assert Ahead(p, t) == Ahead(p, s);
    if t.pc == Resting {
      RingSaysNo(p, s);
    }
  }

  lemma RingGetKeeps(p: Setup, s: State, t: State)
    requires Inv(p, s) && (RingGetStep(s, t) || RingReasonStep(s, t) || WakeStep(s, t))
    ensures Inv(p, t)
  {
    hide SrcInv, FeedFrom, Feed, RestOk, AheadOk;
    if WakeStep(s, t) {
      AheadStays(p, s, t);
    } else {
      AheadStaysInRing(p, s, t);
    }
  }

  /** Nor does anything the cursor finds out about the ring. */
  lemma AheadStaysInRing(p: Setup, s: State, t: State)
    requires AheadOk(p, s) && InRing(s.pc) && t == s.(pc := t.pc)
    requires InRing(t.pc) || (t.pc.Gone? && t.pc.code == STATUS_TOO_FAR_BEHIND)
    ensures AheadOk(p, t)
  {
    hide FeedFrom, Joined, Gapless, TrackOk;
    assert Ahead(p, t) == Ahead(p, s);
  }

  lemma RestKeeps(p: Setup, s: State, t: State)
    requires Inv(p, s) && RestStep(p, s, t)
    ensures Inv(p, t)
  {
    hide SrcInv, FeedFrom, Feed, FinalClose, AheadOk;
    AheadStays(p, s, t);
  }

  lemma BreakKeeps(p: Setup, s: State, t: State)
    requires Inv(p, s) && BreakStep(s, t)
    ensures Inv(p, t)
  {
    hide SrcInv, FeedFrom, Feed, Joined, RestOk;
    assert Ahead(p, t) == Ahead(p, s);
  }

  lemma RingReadKeepsAhead(p: Setup, s: State, t: State)
    requires Good(p) && Inv(p, s) && RingReadStep(p, s, t) && t.pc.Sending?
    ensures AheadOk(p, t)
  {
    hide SrcInv, FeedFrom, Feed, Joined, RingFlow, Ahead, Compatible, Delivered, Lawful;
    var ledger := s.cur.next;
    var raw := s.src.disk[ledger];
    RetainedIsHistory(p.w, s.src, ledger);
    var c := Ahead(p, s);
    if c.status == Open {
      FeedsRing(p.w, p.k, c, ledger, raw);
      AheadSends(p, s, t, RingFlow(p.w, ledger, raw));
      var n: uint32 :| FeedFrom(p.k, c, RingFlow(p.w, ledger, raw)) ==
        Delivered(p.k, c, Delivery(ledger, raw, 0, 0, n, Discards(c)));
      AfterDelivery(p, s, t, c, Delivery(ledger, raw, 0, 0, n, Discards(c)));
    } else {
      ClosedClient(p, s, t, RingFlow(p.w, ledger, raw));
    }
  }

  lemma RetainedIsHistory(w: World, s: Src, ledger: uint32)
    requires GoodWorld(w) && SrcInv(w, s) && ledger in s.disk
    ensures s.disk[ledger] == w.history(ledger) && |s.disk[ledger]| <= MAX_PAYLOAD
  {
    hide FlowOk, Dense, Lawful, Indexes;
  }

  lemma RingReadKeeps(p: Setup, s: State, t: State)
    requires Good(p) && Inv(p, s) && RingReadStep(p, s, t)
    ensures Inv(p, t)
  {
    hide SrcInv, FeedFrom, Feed, RingFlow, Good, AheadOk;
    if t.pc.Sending? {
      RingReadKeepsAhead(p, s, t);
    } else {
      AheadStaysInRing(p, s, t);
    }
  }

  /** Reading is invisible to the server. */
  lemma ReaderApart(p: Setup, s: State, t: State)
    requires Inv(p, s) && t == s.(got := t.got, fate := t.fate, client := t.client)
    ensures SrcInv(p.w, t.src) && SnapOk(t) && CursorOk(p, t) && AheadOk(p, t) && PcOk(p, t)
  {
    hide SrcInv, Feed, FeedFrom, Joined, Gapless, ChannelOk;
    assert Ahead(p, t) == Ahead(p, s);
  }

  lemma ClientKeeps(p: Setup, s: State, t: State)
    requires Inv(p, s) && ClientStep(p, s, t)
    ensures Inv(p, t)
  {
    hide SrcInv, Feed, FeedFrom, SnapOk, CursorOk, AheadOk, PcOk;
    ReaderApart(p, s, t);
    if ReadStep(p, s, t) {
      assert s.sent[..t.got] == s.sent[..s.got] + [s.sent[s.got]];
      FeedSnoc(p.k, NewClient(p.k), s.sent[..s.got], s.sent[s.got]);
    }
  }

  lemma InitHolds(p: Setup, s: State)
    requires Good(p) && Init(p, s)
    ensures Inv(p, s)
  {
    SourceProofs.InitHolds(p.w, s.src);
    hide SrcInv, GoodWorld, Compatible;
  }

  lemma NextKeeps(p: Setup, s: State, t: State)
    requires Good(p) && Inv(p, s) && Next(p, s, t)
    ensures Inv(p, t)
  {
    hide Inv, Good, SourceStep, AnchorStep, WatchStep, WriteStep, RingBoundsStep, RingGetStep, RingReadStep,
         RingReasonStep, RestStep, WakeStep, BreakStep, ClientStep;
    if SourceStep(p, s, t) {
      SourceKeeps(p, s, t);
    } else if AnchorStep(s, t) {
      AnchorKeeps(p, s, t);
    } else if WatchStep(p, s, t) {
      WatchKeeps(p, s, t);
    } else if WriteStep(s, t) {
      WriteKeeps(p, s, t);
    } else if RingBoundsStep(s, t) {
      RingBoundsKeeps(p, s, t);
    } else if RingReadStep(p, s, t) {
      RingReadKeeps(p, s, t);
    } else if RestStep(p, s, t) {
      RestKeeps(p, s, t);
    } else if BreakStep(s, t) {
      BreakKeeps(p, s, t);
    } else if ClientStep(p, s, t) {
      ClientKeeps(p, s, t);
    } else {
      RingGetKeeps(p, s, t);
    }
  }
}
