/** The subscriber loop is what the protocol's cursor runs: in every behaviour what has
    been written, where the cursor is and how it was closed are what the loop makes of
    the observations that behaviour gave it (internal/server/server.go serve). */
module StreamingLoop {
  import opened Prelude
  import opened Decimal
  import opened Source
  import opened Serve
  import opened Streaming
  import StreamingTheorems

  /** What the cursor has observed: start is where the loop began, obs one observation for
      every finished pass, and snap and pinned what the watch of the present pass saw. */
  datatype Looks = Looks(start: Cursor, obs: seq<Observation>, snap: Snapshot, pinned: Flow)

  function Seen(l: Looks, ring: RingReply, failed: bool): Looks {
    l.(obs := l.obs + [Observation(l.snap, l.pinned, ring, failed)])
  }

  /** What one step adds: each look of serve at the rest of the server, as the server was
      at that step. A pass that needs nothing beyond its watch is over with it. */
  function Look(p: Setup, s: State, t: State, l: Looks): Looks {
    if AnchorStep(s, t) then l.(start := Cursor(AnchorTip(Watch(s.src)), None))
    else if WatchStep(p, s, t) then
      var seen := l.(snap := Watch(s.src), pinned := Pinned(s.src, s.cur));
      if t.pc == RingBounds || t.pc == Resting then seen else Seen(seen, NotYet, false)
    else if RestStep(p, s, t) then Seen(l, NotYet, s.src.failed)
    else if RingReadStep(p, s, t) && t.pc.Sending? then Seen(l, Found(s.src.disk[s.cur.next % U32]), false)
    else if RingReasonStep(s, t) then Seen(l, TooFar(s.src.ring.oldest, s.src.ring.latest), false)
    else l
  }

  /** All a run observed, up to its state n. */
  function Looked(p: Setup, run: seq<State>, n: nat): Looks
    requires n < |run|
  {
    if n == 0 then Looks(run[0].cur, [], run[0].snap, NO_FLOW)
    else Look(p, run[n - 1], run[n], Looked(p, run, n - 1))
  }

  /** The loop over what was observed: as if every message it decided on were out. */
  ghost predicate LoopOk(p: Setup, s: State, l: Looks)
    requires p.w.chunkSize > 0
  {
    var f := Follow(p.w, p.req, l.start, l.obs);
    && f.written == s.sent + Queue(s.pc)
    && match s.pc
       case Anchoring => l.obs == [] && f.cur == s.cur && f.verdict == Running
       case Watching => f.cur == s.cur && f.verdict == Running
       case Sending(_) => f.cur == s.cur && f.verdict == Running
       case Asleep => f.cur == s.cur && f.verdict == Running
       case Resting =>
         && f.verdict == Running && l.snap == s.snap
         && (Turn(p.req, f.cur, l.snap, l.pinned) == (s.cur, Rest)
               || Turn(p.req, f.cur, l.snap, l.pinned) == (s.cur, LookInRing))
       case Gone(code, reason) => f.cur == s.cur && f.verdict == ClosedWith(code, reason)
       case Broke(_) => true
       case _ => f.verdict == Running && l.snap == s.snap && Turn(p.req, f.cur, l.snap, l.pinned) == (s.cur, LookInRing)
  }

  lemma FollowMore(w: World, req: Request, start: Cursor, obs: seq<Observation>, o: Observation)
    requires w.chunkSize > 0
    ensures Follow(w, req, start, obs + [o]) == Observe(w, req, Follow(w, req, start, obs), o)
  {
    assert (obs + [o])[..|obs|] == obs;
  }

  lemma WatchLoops(p: Setup, s: State, t: State, l: Looks)
    requires p.w.chunkSize > 0 && LoopOk(p, s, l) && WatchStep(p, s, t)
    ensures LoopOk(p, t, Look(p, s, t, l))
  {
    hide Turn, Follow;
    var seen := l.(snap := Watch(s.src), pinned := Pinned(s.src, s.cur));
    FollowMore(p.w, p.req, l.start, l.obs, Observation(seen.snap, seen.pinned, NotYet, false));
    assert s.sent + [] == s.sent;
  }

  lemma RestLoops(p: Setup, s: State, t: State, l: Looks)
    requires p.w.chunkSize > 0 && LoopOk(p, s, l) && RestStep(p, s, t)
    ensures LoopOk(p, t, Look(p, s, t, l))
  {
    hide Turn, Follow, FinalClose;
    FollowMore(p.w, p.req, l.start, l.obs, Observation(l.snap, l.pinned, NotYet, s.src.failed));
  }

  lemma RingLoops(p: Setup, s: State, t: State, l: Looks)
    requires p.w.chunkSize > 0 && LoopOk(p, s, l)
    requires RingBoundsStep(s, t) || RingGetStep(s, t) || RingReadStep(p, s, t) || RingReasonStep(s, t)
    ensures LoopOk(p, t, Look(p, s, t, l))
  {
    hide Turn, Follow, RingFlow, TooFarBehindReason;
    if RingReadStep(p, s, t) && t.pc.Sending? {
      FollowMore(p.w, p.req, l.start, l.obs, Observation(l.snap, l.pinned, Found(s.src.disk[s.cur.next % U32]), false));
      assert s.sent + [] == s.sent;
    } else if RingReasonStep(s, t) {
      FollowMore(p.w, p.req, l.start, l.obs,
        Observation(l.snap, l.pinned, TooFar(s.src.ring.oldest, s.src.ring.latest), false));
    }
  }

  lemma AnchorLoops(p: Setup, s: State, t: State, l: Looks)
    requires p.w.chunkSize > 0 && LoopOk(p, s, l) && AnchorStep(s, t) && s.cur.live == None
    ensures LoopOk(p, t, Look(p, s, t, l))
  {
  }

  lemma WriteLoops(p: Setup, s: State, t: State, l: Looks)
    requires p.w.chunkSize > 0 && LoopOk(p, s, l)
    requires WriteStep(s, t) || WakeStep(s, t) || BreakStep(s, t)
    ensures LoopOk(p, t, Look(p, s, t, l))
  {
    hide Turn, Follow;
    if WatchStep(p, s, t) {
      WatchLoops(p, s, t, l);
    } else if WriteStep(s, t) {
      assert t.sent + Queue(t.pc) == s.sent + Queue(s.pc);
    }
  }

  /** The source and the client take no part in it. */
  lemma OthersLoop(p: Setup, s: State, t: State, l: Looks)
    requires p.w.chunkSize > 0 && LoopOk(p, s, l)
    requires SourceStep(p, s, t) || ClientStep(p, s, t)
    ensures Look(p, s, t, l) == l && LoopOk(p, t, l)
  {
    hide Turn, Follow, SrcNext;
  }

  lemma NextLoops(p: Setup, s: State, t: State, l: Looks)
    requires p.w.chunkSize > 0 && LoopOk(p, s, l) && Next(p, s, t)
    requires s.pc == Anchoring ==> s.cur.live == None
    ensures LoopOk(p, t, Look(p, s, t, l))
  {
    hide LoopOk, Look, SourceStep, WatchStep, WriteStep, RingBoundsStep, RingGetStep, RingReadStep,
         RingReasonStep, RestStep, WakeStep, BreakStep, ReadStep, ReadCloseStep, ReadErrorStep;
    if SourceStep(p, s, t) || ClientStep(p, s, t) {
      OthersLoop(p, s, t, l);
    } else if AnchorStep(s, t) {
      AnchorLoops(p, s, t, l);
    } else if WatchStep(p, s, t) {
      WatchLoops(p, s, t, l);
    } else if WriteStep(s, t) || WakeStep(s, t) || BreakStep(s, t) {
      WriteLoops(p, s, t, l);
    } else if RestStep(p, s, t) {
      RestLoops(p, s, t, l);
    } else {
      RingLoops(p, s, t, l);
    }
  }

  lemma {:induction false} RunLoops(p: Setup, run: seq<State>, n: nat)
    requires Good(p) && Behaviour(p, run) && n < |run|
    ensures p.w.chunkSize > 0 && LoopOk(p, run[n], Looked(p, run, n))
  {
    hide Next, Look;
    if n == 0 {
      StartLoops(p, run[0]);
    } else {
      RunLoops(p, run, n - 1);
      assert Next(p, run[n - 1], run[n - 1 + 1]);
      StreamingTheorems.Reachable(p, run, n - 1);
      NotYetInside(p, run[n - 1]);
      hide Good, Inv, LoopOk;
      NextLoops(p, run[n - 1], run[n], Looked(p, run, n - 1));
    }
  }

  lemma StartLoops(p: Setup, s: State)
    requires Good(p) && Init(p, s)
    ensures p.w.chunkSize > 0 && LoopOk(p, s, Looks(s.cur, [], s.snap, NO_FLOW))
  {
  }

  lemma NotYetInside(p: Setup, s: State)
    requires Inv(p, s)
    ensures s.pc == Anchoring ==> s.cur.live == None
  {
    hide SrcInv, AheadOk, ChannelOk, PcOk, SnapOk;
  }

  /** In every run of the protocol the loop, given what the run's looks saw, has written
      what was sent and what is on its way, and when the run closed the subscription it
      closed it so; between passes its cursor is the run's. */
  lemma BehaviourIsTheLoop(p: Setup, run: seq<State>, n: nat)
    requires Good(p) && Behaviour(p, run) && n < |run|
    ensures p.w.chunkSize > 0
    ensures
      var l := Looked(p, run, n);
      var f := Follow(p.w, p.req, l.start, l.obs);
      && f.written == run[n].sent + Queue(run[n].pc)
      && (run[n].pc.Gone? ==> f.verdict == ClosedWith(run[n].pc.code, run[n].pc.reason))
      && (!run[n].pc.Gone? && !run[n].pc.Broke? ==> f.verdict == Running)
      && (run[n].pc == Watching || run[n].pc.Sending? || run[n].pc == Asleep || run[n].pc.Gone? ==> f.cur == run[n].cur)
  {
    hide Behaviour, Good, Follow, Looked, Turn, LoopOk;
    RunLoops(p, run, n);
    LoopMeans(p, run[n], Looked(p, run, n));
  }

  lemma LoopMeans(p: Setup, s: State, l: Looks)
    requires p.w.chunkSize > 0 && LoopOk(p, s, l)
    ensures
      var f := Follow(p.w, p.req, l.start, l.obs);
      && f.written == s.sent + Queue(s.pc)
      && (s.pc.Gone? ==> f.verdict == ClosedWith(s.pc.code, s.pc.reason))
      && (!s.pc.Gone? && !s.pc.Broke? ==> f.verdict == Running)
      && (s.pc == Watching || s.pc.Sending? || s.pc == Asleep || s.pc.Gone? ==> f.cur == s.cur)
  {
    hide Follow, Turn;
  }

  /** And so, run over those looks, serve's loop writes and decides the same. */
  method ServeAsRun(p: Setup, ghost run: seq<State>, ghost n: nat, start: Cursor, obs: seq<Observation>)
    returns (written: seq<bytes>, verdict: Verdict)
    requires Good(p) && Behaviour(p, run) && n < |run|
    requires start == Looked(p, run, n).start && obs == Looked(p, run, n).obs
    ensures written == run[n].sent + Queue(run[n].pc)
    ensures run[n].pc.Gone? ==> verdict == ClosedWith(run[n].pc.code, run[n].pc.reason)
    ensures !run[n].pc.Gone? && !run[n].pc.Broke? ==> verdict == Running
  {
    BehaviourIsTheLoop(p, run, n);
    hide Behaviour, Good, Follow, Looked;
    var next, live;
    next, live, written, verdict := ServeLoop(p.w, p.req, start, obs);
  }
}
