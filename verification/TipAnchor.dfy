/** Where a tip subscription that connected before the first ledger begins: the source
    says at the source's first ledger (internal/server/server.go serve), and that holds
    exactly when no second one has begun by the time the subscriber looks. */
module TipAnchor {
  import opened Prelude
  import opened Retention
  import opened Source
  import opened Serve
  import opened Client
  import opened Streaming
  import opened StreamingProofs
  import opened StreamingTheorems
  import opened StaleRing

  /** The tip taken at a look is the first ledger exactly while there is only one. */
  lemma FirstExactlyWhenAlone(p: Setup, run: seq<State>, m: nat)
    requires Good(p) && Behaviour(p, run) && m + 1 < |run|
    requires run[m].pc == Watching && TookTheTip(run, m) && run[m + 1].anchor != 0
    ensures |run[m].src.flows| > 0
    ensures run[m + 1].anchor == run[m].src.flows[0].seq_ <==> |run[m].src.flows| == 1
  {
    Reachable(p, run, m);
    hide Behaviour, Good, SrcInv, AheadOk, ChannelOk, PcOk, SnapOk, CursorOk;
    NewestIsFirst(p.w, run[m].src);
  }

  lemma NewestIsFirst(w: World, s: Src)
    requires SrcInv(w, s) && Prev(s) != 0
    ensures |s.flows| > 0 && (Prev(s) == s.flows[0].seq_ <==> |s.flows| == 1)
  {
    hide SrcInv;
    if |s.flows| > 1 {
      DistinctFlows(w, s, 0, |s.flows| - 1);
    }
  }

  function Connected(p: Setup, d: Disk): State {
    State(Src([], Idle, p.w.base, d, 0, false, false), Cursor(0, None), Watching,
          Snapshot(0, None, false), 0, {}, {}, [], 0, None, NewClient(p.k), 0)
  }

  /** And the subscriber's first look may come later than that: whatever the source,
      there is a run in which a tip subscription that connected before the first ledger
      misses it. */
  lemma FirstMayBeMissed(p: Setup, d: Disk, first: uint32) returns (run: seq<State>, m: nat)
    requires Good(p) && p.req.start == 0 && Indexes(p.w.base, d) && 0 !in d && Agrees(p.w, d)
    requires 0 < first < MAX_UINT32
    ensures Behaviour(p, run) && m + 1 < |run| && TookTheTip(run, m) && run[0].src.flows == []
    ensures |run[m].src.flows| == 2 && run[m].src.flows[0].seq_ == first
    ensures run[m + 1].anchor == first + 1
  {
    hide Reach;
    var connected := ConnectedFirst(p, d);
    var stored := FirstStored(p, connected, first);
    var begun := SecondBegun(p, stored, first);
    run, m := LooksThen(p, begun, first);
  }

  lemma ConnectedFirst(p: Setup, d: Disk) returns (s: State)
    requires Good(p) && p.req.start == 0 && Indexes(p.w.base, d) && 0 !in d && Agrees(p.w, d)
    ensures s == Connected(p, d) && Reach(p, s)
  {
    hide Reach, Good, Agrees, Indexes;
    var s0 := Connected(p, d).(pc := Anchoring);
    assert Init(p, s0);
    ReachInit(p, s0);
    s := Connected(p, d);
    assert AnchorStep(s0, s);
    ReachCursor(p, s0, s);
  }

  /** The source publishes its first ledger and stores it. */
  lemma FirstStored(p: Setup, s: State, first: uint32) returns (t: State)
    requires GoodWorld(p.w) && Reach(p, s) && 0 < first && SrcInv(p.w, s.src)
    requires s.src.flows == [] && s.src.phase == Idle && !s.src.finished
    ensures Reach(p, t) && t == s.(src := t.src)
    ensures |t.src.flows| == 1 && t.src.flows[0].seq_ == first && t.src.phase == Idle && !t.src.finished
  {
    hide Reach, Good, SrcInv, Indexes;
    var ended := SourcePublishes(p, s, first);
    RingInOrder(p.w, s.src);
    t := Stores(p, ended);
  }

  lemma RingInOrder(w: World, s: Src)
    requires SrcInv(w, s) && s.phase == Idle
    ensures Indexes(s.ring, s.disk)
  {
  }

  /** A ledger whose END is out can be carried all the way into the ring. */
  lemma Stores(p: Setup, s: State) returns (t: State)
    requires Reach(p, s) && s.src.phase == Ended && !s.src.finished && |s.src.flows| > 0
    requires Prev(s.src) != 0 && p.w.retention > 0 && Indexes(s.src.ring, s.src.disk)
    ensures Reach(p, t) && t == s.(src := t.src)
    ensures t.src.flows == s.src.flows && t.src.phase == Idle && !t.src.finished
  {
    var l := Prev(s.src);
    WrittenInterval(s.src.ring, s.src.disk, l, p.w.history(l));
    hide Reach, PutTrace, PutRing, Indexes, Last;
    var trace := PutTrace(s.src.ring, s.src.disk, l, p.w.history(l), p.w.retention);
    var after := PutRing(s.src.ring, l, p.w.retention);
    var storing := s.(src := s.src.(phase := Storing(trace, after)));
    assert PutBegin(p.w, s.src, storing.src);
    ReachSource(p, s, storing);
    assert storing.src.phase.todo == trace + [];
    Drain(p, storing, trace, []);
    var drained := storing.(src := storing.src.(phase := Storing([], after), disk := Last(storing.src.disk, trace)));
    t := drained.(src := drained.src.(phase := Idle, ring := after));
    assert PutDone(drained.src, t.src);
    ReachSource(p, drained, t);
  }

  lemma SecondBegun(p: Setup, s: State, first: uint32) returns (t: State)
    requires Reach(p, s) && 0 < first < MAX_UINT32
    requires |s.src.flows| == 1 && s.src.flows[0].seq_ == first && s.src.phase == Idle && !s.src.finished
    ensures Reach(p, t) && t == s.(src := t.src)
    ensures t.src.flows == s.src.flows + [Flow(first + 1, p.w.began(first + 1), [], None)] && !t.src.finished
  {
    hide Reach;
    var flows := s.src.flows + [Flow(first + 1, p.w.began(first + 1), [], None)];
    t := s.(src := s.src.(flows := flows, phase := Emitting, gen := s.src.gen + 1));
    assert BeginLedger(p.w, s.src, t.src, first + 1);
    ReachSource(p, s, t);
  }

  lemma LooksThen(p: Setup, s: State, first: uint32) returns (run: seq<State>, m: nat)
    requires Reach(p, s) && s.pc == Watching && s.cur == Cursor(0, None) && s.anchor == 0 && 0 < first < MAX_UINT32
    requires |s.src.flows| == 2 && s.src.flows[0].seq_ == first
    requires s.src.flows[1] == Flow(first + 1, p.w.began(first + 1), [], None)
    ensures Behaviour(p, run) && m + 1 < |run| && TookTheTip(run, m) && run[0].src.flows == []
    ensures run[m] == s && run[m + 1].anchor == first + 1
  {
    hide Init, Next, Turn;
    var before: seq<State> :| Behaviour(p, before) && before[|before| - 1] == s;
    var (cur, action) := Turn(p.req, s.cur, Watch(s.src), Pinned(s.src, s.cur));
    var t := s.(cur := cur, pc := After(action), snap := Watch(s.src), gen := s.src.gen,
                abandoned := if action.LookInRing? && s.cur.live.Some? then s.abandoned + {cur.next} else s.abandoned,
                entered := if Enters(p.req, s) then s.entered + {Place(s)} else s.entered,
                anchor := TipAtLook(s.src));
    WatchIsNext(p, s, t);
    run, m := before + [t], |before| - 1;
    forall i | 0 <= i < |run| - 1 ensures Next(p, run[i], run[i + 1]) {
      if i < |before| - 1 {
        assert Next(p, before[i], before[i + 1]);
      }
    }
    StartsEmpty(p, run[0]);
  }

  lemma WatchIsNext(p: Setup, s: State, t: State)
    requires WatchStep(p, s, t)
    ensures Next(p, s, t)
  {
    hide Turn;
  }

  lemma StartsEmpty(p: Setup, s: State)
    requires Init(p, s)
    ensures s.src.flows == []
  {
  }
}
