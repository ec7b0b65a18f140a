/** The other half of TooFarBehindIsAbove: when the source starts at or below the
    newest ledger an earlier run left behind, Put resets the ring under a reader and
    the reported oldest ledger can be one the client is already past. */
module StaleRing {
  import opened Prelude
  import opened Wire
  import opened Chunks
  import opened Retention
  import opened Source
  import opened Serve
  import opened Client
  import opened Feeding
  import opened Streaming
  import opened StreamingRing
  import Decimal

  ghost predicate Reach(p: Setup, s: State) {
    exists run: seq<State> :: Behaviour(p, run) && run[|run| - 1] == s
  }

  lemma ReachInit(p: Setup, s: State)
    requires Init(p, s)
    ensures Reach(p, s)
  {
    hide Init;
    assert Behaviour(p, [s]);
  }

  lemma ReachNext(p: Setup, s: State, t: State)
    requires Reach(p, s) && Next(p, s, t)
    ensures Reach(p, t)
  {
    hide Init, Next;
    var run: seq<State> :| Behaviour(p, run) && run[|run| - 1] == s;
    var longer := run + [t];
    forall i | 0 <= i < |longer| - 1 ensures Next(p, longer[i], longer[i + 1]) {
      if i < |run| - 1 {
        assert Next(p, run[i], run[i + 1]);
      }
    }
    assert Behaviour(p, longer);
  }

  lemma ReachSource(p: Setup, s: State, t: State)
    requires Reach(p, s) && SourceStep(p, s, t)
    ensures Reach(p, t)
  {
    hide Reach, SourceStep;
    ReachNext(p, s, t);
  }

  lemma ReachCursor(p: Setup, s: State, t: State)
    requires Reach(p, s) && CursorStep(p, s, t)
    ensures Reach(p, t)
  {
    hide Reach, CursorStep;
    ReachNext(p, s, t);
  }

  /** Put can be carried any number of its disk states further. */
  lemma {:induction false} Drain(p: Setup, s: State, first: seq<Disk>, rest: seq<Disk>)
    requires Reach(p, s) && !s.src.finished && s.src.phase.Storing? && s.src.phase.todo == first + rest
    ensures Reach(p, s.(src := s.src.(phase := s.src.phase.(todo := rest), disk := Last(s.src.disk, first))))
    decreases |first|
  {
    hide Reach;
    if |first| > 0 {
      var t := s.(src := s.src.(phase := s.src.phase.(todo := first[1..] + rest), disk := first[0]));
      assert s.src.phase.todo[1..] == first[1..] + rest;
      assert PutStep(s.src, t.src);
      ReachSource(p, s, t);
      Drain(p, t, first[1..], rest);
      assert Last(first[0], first[1..]) == Last(s.src.disk, first);
    } else {
      assert first + rest == rest;
      assert s.(src := s.src.(phase := s.src.phase.(todo := rest), disk := Last(s.src.disk, first))) == s;
    }
  }

  /** The premises: a ring left by an earlier run, a source restarting inside or below
      it, and a client asking for a ledger between the two. */
  ghost predicate Rewound(p: Setup, d: Disk, first: uint32) {
    && Good(p) && p.w.base.filled && Indexes(p.w.base, d) && 0 !in d && Agrees(p.w, d)
    && 0 < first <= p.req.start <= p.w.base.latest && !p.req.bounded
  }

  /** Where its cursor gets to before the source begins: at a file it is about to read,
      or already refused. */
  function Stuck(p: Setup): Pc {
    if p.req.start < p.w.base.oldest then RingReason else RingRead
  }

  function Started(p: Setup, d: Disk): State {
    State(Src([], Idle, p.w.base, d, 0, false, false), Cursor(p.req.start, None), Watching,
          Snapshot(0, None, false), 0, {}, {}, [], 0, None, NewClient(p.k), p.req.start)
  }

  /** The cursor finds its ledger within bounds and is about to read the file, or finds
      it below them. */
  lemma GetsStuck(p: Setup, d: Disk, first: uint32)
    requires Rewound(p, d, first)
    ensures Reach(p, Started(p, d).(pc := Stuck(p)))
  {
    hide Reach, Compatible, Lawful, Agrees;
    var s0 := Started(p, d);
    assert Init(p, s0);
    ReachInit(p, s0);
    var s1 := s0.(pc := RingBounds);
    assert WatchStep(p, s0, s1);
    ReachCursor(p, s0, s1);
    var s2 := s0.(pc := RingGet);
    assert RingBoundsStep(s1, s2);
    ReachCursor(p, s1, s2);
    var s3 := s0.(pc := Stuck(p));
    assert RingGetStep(s2, s3);
    ReachCursor(p, s2, s3);
  }

  /** The open flow can be filled, message by message, with any legal chunks of its
      ledger. */
  lemma {:induction false} Publishes(p: Setup, s: State, first: uint32, msgs: seq<bytes>, k: nat) returns (t: State)
    requires Reach(p, s) && s.src.phase == Emitting && !s.src.finished && k <= |msgs|
    requires s.src.flows == [Flow(first, p.w.began(first), msgs[..k], None)]
    requires Sound(p.w.z, first, msgs, p.w.chunkSize) && Joined(p.w.z, msgs) == p.w.history(first)
    requires AllCoded(p.w, msgs)
    ensures Reach(p, t) && t == s.(src := t.src)
    ensures t.src == s.src.(flows := [Flow(first, p.w.began(first), msgs, None)], gen := t.src.gen)
    decreases |msgs| - k
  {
    hide Reach, SoundAt, Joined, Payload, Coded;
    if k == |msgs| {
      assert msgs[..k] == msgs;
      t := s;
    } else {
      JoinedStep(p.w.z, msgs, k);
      JoinedPrefix(p.w.z, msgs, k + 1);
      assert msgs[..k + 1] == msgs[..k] + [msgs[k]];
      var f := Flow(first, p.w.began(first), msgs[..k + 1], None);
      var next := s.(src := s.src.(flows := [f], gen := s.src.gen + 1));
      assert PublishChunk(p.w, s.src, next.src, msgs[k]);
      ReachSource(p, s, next);
      t := Publishes(p, next, first, msgs, k + 1);
    }
  }

  /** One way to chunk a ledger. */
  lemma SomeChunks(w: World, s: uint32) returns (msgs: seq<bytes>)
    requires GoodWorld(w)
    ensures Sound(w.z, s, msgs, w.chunkSize) && Joined(w.z, msgs) == w.history(s) && AllCoded(w, msgs)
  {
    var pieces := Split(w.history(s), w.chunkSize);
    SplitJoins(w.history(s), w.chunkSize);
    PiecesBelowBytes(pieces);
    hide Sound, Joined, Split, Frame;
    var live := w.(ringCompress := w.compress);
    FrameSound(live, s, pieces);
    msgs := Frame(live, s, pieces);
    FrameCoded(w, s, pieces);
  }

  lemma FrameCoded(w: World, s: uint32, pieces: seq<bytes>)
    requires Lawful(w.z)
    ensures AllCoded(w, Frame(w.(ringCompress := w.compress), s, pieces))
  {
    hide Frame, EncodeChunk, Decode, Expand;
    forall i | 0 <= i < |pieces| ensures Coded(w, EncodeChunk(w.z, w.compress, s, i % U32, pieces[i])) {
      EncodeChunkCarries(w.z, w.compress, s, i % U32, pieces[i]);
    }
  }

  lemma SourcePublishes(p: Setup, s: State, first: uint32) returns (t: State)
    requires Reach(p, s) && s.src.flows == [] && s.src.phase == Idle && !s.src.finished && GoodWorld(p.w)
    ensures Reach(p, t) && t == s.(src := t.src)
    ensures |t.src.flows| == 1 && t.src.flows[0].seq_ == first
    ensures t.src == s.src.(flows := t.src.flows, phase := Ended, gen := t.src.gen)
  {
    hide Reach, EndMsg, Sound, Joined, AllCoded, GoodWorld;
    var msgs := SomeChunks(p.w, first);
    var f := Flow(first, p.w.began(first), msgs[..0], None);
    var begun := s.(src := s.src.(flows := [f], phase := Emitting, gen := s.src.gen + 1));
    assert BeginLedger(p.w, s.src, begun.src, first);
    ReachSource(p, s, begun);
    var full := Publishes(p, begun, first, msgs, 0);
    t := EndsFlow(p, full, Flow(first, p.w.began(first), msgs, None));
  }

  lemma EndsFlow(p: Setup, s: State, f: Flow) returns (t: State)
    requires Reach(p, s) && s.src.flows == [f] && s.src.phase == Emitting && !s.src.finished
    requires f.end == None && Joined(p.w.z, f.chunks) == p.w.history(f.seq_)
    ensures Reach(p, t) && t == s.(src := t.src)
    ensures |t.src.flows| == 1 && t.src.flows[0].seq_ == f.seq_
    ensures t.src == s.src.(flows := t.src.flows, phase := Ended, gen := t.src.gen)
  {
    hide Reach, EndMsg, Joined;
    t := s.(src := s.src.(flows := [f.(end := Some(EndMsg(p.w, f)))], phase := Ended, gen := s.src.gen + 1));
    assert EndLedger(p.w, s.src, t.src);
    ReachSource(p, s, t);
  }

  /** Meanwhile the source publishes its first ledger and Put takes the lock. */
  lemma MeanwhileStoring(p: Setup, d: Disk, first: uint32) returns (s: State)
    requires Rewound(p, d, first)
    ensures Reach(p, s)
    ensures s.src.phase == Storing(PutTrace(p.w.base, d, first, p.w.history(first), p.w.retention),
                                   PutRing(p.w.base, first, p.w.retention))
    ensures s == Started(p, d).(pc := Stuck(p), src := s.src) && !s.src.finished && s.src.disk == d
    ensures |s.src.flows| > 0 && s.src.flows[0].seq_ == first
  {
    hide Reach, Compatible, Lawful, Agrees, PutTrace, PutRing, Indexes;
    GetsStuck(p, d, first);
    var ended := SourcePublishes(p, Started(p, d).(pc := Stuck(p)), first);
    var todo := PutTrace(p.w.base, d, first, p.w.history(first), p.w.retention);
    s := ended.(src := ended.src.(phase := Storing(todo, PutRing(p.w.base, first, p.w.retention))));
    assert PutBegin(p.w, ended.src, s.src);
    ReachSource(p, ended, s);
  }

  /** A rewinding Put empties the ring before it publishes anything. */
  lemma RewindTrace(p: Setup, d: Disk, first: uint32) returns (clearing: seq<Disk>)
    requires Rewound(p, d, first)
    ensures PutTrace(p.w.base, d, first, p.w.history(first), p.w.retention) ==
      clearing + [Written(p.w.base, d, first, p.w.history(first))]
    ensures p.req.start !in Last(d, clearing)
    ensures PutRing(p.w.base, first, p.w.retention) == Ring(first, first, true)
  {
    hide Agrees, Compatible, Lawful, PutTrace, PutRing, Indexes, Last;
    clearing := ResetTrace(p.w.base, d, first, p.w.history(first), p.w.retention, p.req.start);
  }

  lemma ResetTrace(r: Ring, d: Disk, first: uint32, raw: bytes, retention: nat, start: uint32)
    returns (clearing: seq<Disk>)
    requires r.filled && Indexes(r, d) && 0 < first <= r.latest && start <= r.latest && retention > 0
    ensures PutTrace(r, d, first, raw, retention) == clearing + [Written(r, d, first, raw)]
    ensures start !in Last(d, clearing)
    ensures PutRing(r, first, retention) == Ring(first, first, true)
  {
    clearing := Removals(d, r.oldest, r.latest + 1);
    RemovalsShrink(d, r.oldest, r.latest + 1, r.latest + 1);
    hide Removals;
    assert Interval(Last(d, clearing), r.latest + 1, r.latest + 1);
    NoRemovals(Written(r, d, first, raw), first);
    assert clearing + [Written(r, d, first, raw)] + [] == clearing + [Written(r, d, first, raw)];
  }

  lemma NoRemovals(d: Disk, lo: nat)
    requires lo <= U32
    ensures Removals(d, lo, lo) == []
  {
  }

  /** So a client can be told that the server's oldest ledger is one it is at or past:
      TooFarBehindIsAbove holds of all behaviours exactly when the ring found on disk
      is empty or wholly below the source's first ledger. */
  lemma RewoundRingMisreports(p: Setup, d: Disk, first: uint32) returns (s: State)
    requires Rewound(p, d, first)
    ensures Reach(p, s)
    ensures s.client.status == Failed(TooFarBehind(p.req.start, Some((first, first))))
    ensures first <= p.req.start && |s.src.flows| > 0 && s.src.flows[0].seq_ == first
  {
    hide Reach, Compatible, Lawful, Agrees, PutTrace, Indexes, PutRing, Written;
    var storing := MeanwhileStoring(p, d, first);
    var clearing := RewindTrace(p, d, first);
    var missed := MissesFile(p, storing, clearing, Written(p.w.base, d, first, p.w.history(first)));
    s := MisreportedAfter(p, missed, first, Written(p.w.base, d, first, p.w.history(first)));
  }

  lemma MissesFile(p: Setup, s: State, clearing: seq<Disk>, written: Disk) returns (missed: State)
    requires Reach(p, s) && (s.pc == RingRead || s.pc == RingReason) && !s.src.finished
    requires s.cur.next < U32 && p.w.chunkSize > 0
    requires s.src.phase.Storing? && s.src.phase.todo == clearing + [written]
    requires s.cur.next !in Last(s.src.disk, clearing)
    ensures Reach(p, missed)
    ensures missed == s.(pc := RingReason, src := missed.src) && !missed.src.finished
    ensures missed.src.flows == s.src.flows
    ensures missed.src.phase == s.src.phase.(todo := [written])
  {
    hide Reach, Last, RingFlow, CursorStep;
    Drain(p, s, clearing, [written]);
    var cleared := s.(src := s.src.(phase := s.src.phase.(todo := [written]), disk := Last(s.src.disk, clearing)));
    missed := cleared.(pc := RingReason);
    if s.pc == RingRead {
      assert RingReadStep(p, cleared, missed);
      RingReadCounts(p, cleared, missed);
      ReachCursor(p, cleared, missed);
    }
  }

  lemma RingReadCounts(p: Setup, s: State, t: State)
    requires RingReadStep(p, s, t)
    ensures CursorStep(p, s, t)
  {
    hide RingReadStep;
  }

  lemma MisreportedAfter(p: Setup, missed: State, first: uint32, written: Disk) returns (s: State)
    requires Reach(p, missed) && missed.pc == RingReason && !missed.src.finished
    requires missed.src.phase == Storing([written], Ring(first, first, true))
    requires missed.client == NewClient(p.k) && missed.sent == [] && missed.got == 0 && missed.fate == None
    ensures Reach(p, s)
    ensures s.client.status == Failed(TooFarBehind(p.k.range.from, Some((first, first))))
      && s.src.flows == missed.src.flows
  {
    hide Reach;
    assert missed.src.phase.todo == [written] + [];
    Drain(p, missed, [written], []);
    var last := Last(missed.src.disk, [written]);
    var published := missed.(src := missed.src.(phase := Storing([], Ring(first, first, true)), disk := last));
    var done := published.(src := published.src.(phase := Idle, ring := Ring(first, first, true)));
    assert PutDone(published.src, done.src);
    ReachSource(p, published, done);
    s := Refused(p, done, first);
  }

  /** With the ring down to one ledger, the report and its reading by the client. */
  lemma Refused(p: Setup, done: State, first: uint32) returns (s: State)
    requires Reach(p, done) && done.pc == RingReason && Unlocked(done.src) && done.src.ring == Ring(first, first, true)
    requires done.client == NewClient(p.k) && done.sent == [] && done.got == 0 && done.fate == None
    ensures Reach(p, s)
    ensures s.client.status == Failed(TooFarBehind(p.k.range.from, Some((first, first)))) && s.src == done.src
  {
    hide Reach, Decimal.TooFarBehindReason, Decimal.ParseTooFarBehindReason;
    var gone := done.(pc := Gone(STATUS_TOO_FAR_BEHIND, Decimal.TooFarBehindReason(first, first)));
    assert RingReasonStep(done, gone);
    ReachCursor(p, done, gone);
    Decimal.ReasonRoundTrip(first, first);
    var r := Closed(gone.pc.code, gone.pc.reason);
    s := gone.(fate := Some(r), client := Feed(p.k, gone.client, r));
    assert ReadCloseStep(p, gone, s);
    ReachNext(p, gone, s);
  }

  // -------------------------------------------------------------- exactly when

  /** Whatever a client of this setup does, a too-far-behind report names an oldest
      ledger above the one it was waiting for, if the source's first is first. */
  ghost predicate Trusted(p: Setup, first: uint32) {
    forall run: seq<State>, n: nat, requested: uint32, bounds: Option<(uint32, uint32)> ::
      Behaviour(p, run) && n < |run| && |run[n].src.flows| > 0 && run[n].src.flows[0].seq_ == first
      && run[n].client.status == Failed(TooFarBehind(requested, bounds))
      ==> bounds.Some? && bounds.value.0 > requested
  }

  /** Too-far-behind reports can be trusted, by every client, exactly when the ring found
      on disk is empty or wholly below the source's first ledger. */
  lemma TrustedExactlyWhenForward(w: World, k: Config, d: Disk, first: uint32)
    requires GoodWorld(w) && Compatible(w, k) && k.z == w.z
    requires Indexes(w.base, d) && 0 !in d && Agrees(w, d) && first > 0
    requires w.base.filled && w.base.latest == MAX_UINT32 ==> first != MAX_UINT32
    ensures (forall p: Setup :: p.w == w && Good(p) ==> Trusted(p, first))
      <==> (w.base.filled ==> first > w.base.latest)
  {
    hide GoodWorld, Compatible, Indexes, Agrees, Behaviour;
    if w.base.filled ==> first > w.base.latest {
      forall p: Setup | p.w == w && Good(p) ensures Trusted(p, first) {
        ForwardIsTrusted(p, first);
      }
    } else {
      var req := Request(first, 0, false);
      var p := Setup(w, k.(range := Range(req.start, req.end, req.bounded)), req);
      assert Compatible(w, p.k) by {
        SameLimits(w, k, p.k);
      }
      assert Good(p) && Rewound(p, d, first);
      RewoundIsNotTrusted(p, d, first);
    }
  }

  lemma SameLimits(w: World, k: Config, l: Config)
    requires Compatible(w, k) && l.limits == k.limits
    ensures Compatible(w, l)
  {
  }

  lemma ForwardIsTrusted(p: Setup, first: uint32)
    requires Good(p) && (p.w.base.filled ==> first > p.w.base.latest)
    ensures Trusted(p, first)
  {
    hide Good, Behaviour;
    forall run: seq<State>, n: nat, requested: uint32, bounds: Option<(uint32, uint32)>
      | Behaviour(p, run) && n < |run| && |run[n].src.flows| > 0 && run[n].src.flows[0].seq_ == first
        && run[n].client.status == Failed(TooFarBehind(requested, bounds))
      ensures bounds.Some? && bounds.value.0 > requested
    {
      TooFarBehindIsAbove(p, run, n, requested, bounds);
    }
  }

  lemma RewoundIsNotTrusted(p: Setup, d: Disk, first: uint32)
    requires Rewound(p, d, first)
    ensures !Trusted(p, first)
  {
    hide Rewound, Init, Next;
    var s := RewoundRingMisreports(p, d, first);
    var run: seq<State> :| Behaviour(p, run) && run[|run| - 1] == s;
    var n: nat := |run| - 1;
    assert run[n].client.status == Failed(TooFarBehind(p.req.start, Some((first, first))));
  }
}
