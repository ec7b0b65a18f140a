/** Once the source has finished, every subscription ends by itself: the cursor can
    always move, and each of its moves brings the end strictly nearer. */
module StreamingLiveness {
  import opened Prelude
  import opened Wire
  import opened Source
  import opened Serve
  import opened Streaming
  import opened StreamingProofs
  import StreamingTheorems
  import Decimal

  predicate Over(s: State) {
    s.pc.Gone? || s.pc.Broke?
  }

  /** The newest ledger there will ever be to serve. */
  function Top(s: State): nat {
    Max(if s.src.ring.filled then s.src.ring.latest else 0, if |s.src.flows| > 0 then Current(s.src).seq_ else 0)
  }

  function LedgersLeft(s: State): nat {
    Max(0, Top(s) + 1 - s.cur.next)
  }

  /** Messages of the current flow not yet written, when the cursor is at it. */
  function MessagesLeft(s: State): nat {
    if |s.src.flows| == 0 || s.cur.next != Current(s.src).seq_ then 0
    else if s.cur.live.None? then |Current(s.src).chunks| + 1
    else Max(0, |Current(s.src).chunks| - s.cur.live.value.sent)
  }

  /** How far a pass of the loop still has to go. A pass begun on a snapshot taken
      before the source finished may end asleep, one begun after it may not. */
  function StepsLeft(s: State): nat {
    match s.pc
    case Anchoring => 20
    case RingBounds => 9
    case RingGet => 8
    case RingRead => 7
    case RingReason => 6
    case Resting => 5
    case Asleep => 4
    case Watching => if s.snap.finished then 10 else 0
    case Sending(q) => if s.snap.finished then 11 + |q| else 1 + |q|
    case Gone(_, _) => 0
    case Broke(_) => 0
  }

  function Stale(s: State): nat {
    if s.snap.finished then 0 else 1
  }

  /** t is strictly nearer the end than s. */
  predicate Nearer(s: State, t: State) {
    || Stale(t) < Stale(s)
    || (Stale(t) == Stale(s) && LedgersLeft(t) < LedgersLeft(s))
    || (Stale(t) == Stale(s) && LedgersLeft(t) == LedgersLeft(s) && MessagesLeft(t) < MessagesLeft(s))
    || (Stale(t) == Stale(s) && LedgersLeft(t) == LedgersLeft(s) && MessagesLeft(t) == MessagesLeft(s)
          && StepsLeft(t) < StepsLeft(s))
  }

  // -------------------------------------------------------------- every step counts

  lemma WatchNearer(p: Setup, s: State, t: State)
    requires SrcInv(p.w, s.src) && CursorOk(p, s) && s.src.finished && WatchStep(p, s, t) && s.snap.finished
    ensures Nearer(s, t)
  {
    hide SrcInv, CursorOk, AtFlow, BehindFlow, WatchStep, Nearer;
    var next := Here(s).cur.next;
    if next != 0 && p.req.bounded && next > p.req.end {
      IdleNearer(p, s, t);
    } else if next != 0 && |s.src.flows| > 0 && next == Current(s.src).seq_ {
      AtFlowNearer(p, s, t);
    } else if next != 0 && (next < Watch(s.src).Seq() || Watch(s.src).Seq() == 0) {
      BehindNearer(p, s, t);
    } else {
      IdleNearer(p, s, t);
    }
  }

  lemma IdleNearer(p: Setup, s: State, t: State)
    requires s.src.finished && WatchStep(p, s, t) && s.snap.finished
    requires var next := Here(s).cur.next;
      || (next != 0 && p.req.bounded && next > p.req.end)
      || !((next != 0 && |s.src.flows| > 0 && next == Current(s.src).seq_)
           || (next != 0 && (next < Watch(s.src).Seq() || Watch(s.src).Seq() == 0)))
    ensures Nearer(s, t)
  {
    hide AtFlow, BehindFlow, FinalClose;
    assert t.src == s.src && t.cur == Here(s).cur && (t.pc == Resting || t.pc.Gone?);
    if s.cur.next != 0 {
      assert LedgersLeft(t) == LedgersLeft(s);
    } else {
      assert t.cur == s.cur || LedgersLeft(t) < LedgersLeft(s);
    }
  }

  lemma AtFlowNearer(p: Setup, s: State, t: State)
    requires s.src.finished && WatchStep(p, s, t) && s.snap.finished
    requires var next := Here(s).cur.next;
      next != 0 && |s.src.flows| > 0 && next == Current(s.src).seq_ && (p.req.bounded ==> next <= p.req.end)
    requires SrcInv(p.w, s.src) && CursorOk(p, s)
    ensures Nearer(s, t)
  {
    hide BehindFlow, FinalClose, StamplessFlow, SrcInv;
    if s.cur.live.Some? && s.cur.live.value.id < |s.src.flows| - 1 {
      DistinctFlows(p.w, s.src, s.cur.live.value.id, |s.src.flows| - 1);
    }
  }

  lemma BehindNearer(p: Setup, s: State, t: State)
    requires SrcInv(p.w, s.src) && CursorOk(p, s) && s.src.finished && WatchStep(p, s, t) && s.snap.finished
    requires var next := Here(s).cur.next;
      && next != 0 && (next < Watch(s.src).Seq() || Watch(s.src).Seq() == 0)
      && !(|s.src.flows| > 0 && next == Current(s.src).seq_) && (p.req.bounded ==> next <= p.req.end)
    ensures Nearer(s, t)
  {
    hide FlowOk, RingOk, Dense, AtFlow, FinalClose;
    if s.cur.live.Some? {
      FinishedUnlocked(p.w, s.src);
      StoredBelowFlow(p.w, s.src, s.cur.live.value.id);
    }
  }

  lemma FinishedUnlocked(w: World, s: Src)
    requires SrcInv(w, s) && s.finished
    ensures Unlocked(s)
  {
    hide FlowOk, Dense;
  }

  lemma RingReadNearer(p: Setup, s: State, t: State)
    requires SrcInv(p.w, s.src) && CursorOk(p, s) && s.src.finished && RingReadStep(p, s, t)
    ensures Nearer(s, t)
  {
    hide FlowOk, Dense, RingFlow, Agrees;
  }

  lemma CursorNearer(p: Setup, s: State, t: State)
    requires Inv(p, s) && s.src.finished && CursorStep(p, s, t)
    ensures Nearer(s, t)
  {
    hide SrcInv, AheadOk, PcOk, ChannelOk, RingFlow, FinalClose, Turn, SnapOk, CursorOk;
    if WatchStep(p, s, t) {
      if s.snap.finished {
        WatchNearer(p, s, t);
      }
    } else if RingReadStep(p, s, t) {
      RingReadNearer(p, s, t);
    } else if RestStep(p, s, t) || WakeStep(s, t) {
      AsleepIsStale(p, s);
    } else {
      OtherNearer(p, s, t);
    }
  }

  lemma AsleepIsStale(p: Setup, s: State)
    requires PcOk(p, s)
    ensures s.pc == Asleep ==> !s.snap.finished
  {
    hide RestOk, GoneOk;
  }

  lemma OtherNearer(p: Setup, s: State, t: State)
    requires Inv(p, s) && s.src.finished
    requires AnchorStep(s, t) || WriteStep(s, t) || RingBoundsStep(s, t) || RingGetStep(s, t) || RingReasonStep(s, t)
    ensures Nearer(s, t)
  {
    hide SrcInv, AheadOk, PcOk, ChannelOk, SnapOk, LiveOk, AnchorOk, Decimal.TooFarBehindReason;
  }

  // -------------------------------------------------------------- never stuck

  /** The step the cursor takes next once the source has finished. */
  function CursorNext(p: Setup, s: State): State
    requires p.w.chunkSize > 0
  {
    match s.pc
    case Anchoring => s.(pc := Watching, cur := s.cur.(next := AnchorTip(Watch(s.src))), anchor := TipOnConnect(s.src))
    case Watching =>
      var snap := Watch(s.src);
      var (cur, action) := Turn(p.req, s.cur, snap, Pinned(s.src, s.cur));
      s.(cur := cur, pc := After(action), snap := snap, gen := s.src.gen,
         abandoned := if action.LookInRing? && s.cur.live.Some? then s.abandoned + {cur.next} else s.abandoned,
         entered := if Enters(p.req, s) then s.entered + {Place(s)} else s.entered,
         anchor := if s.cur.next == 0 then TipAtLook(s.src) else s.anchor)
    case Sending(q) => if |q| == 0 then s.(pc := Watching) else s.(sent := s.sent + [q[0]], pc := Sending(q[1..]))
    case RingBounds => s.(pc := if !s.src.ring.filled || s.cur.next > s.src.ring.latest then Resting else RingGet)
    case RingGet =>
      var r := s.src.ring;
      s.(pc := if !r.filled || s.cur.next % U32 < r.oldest || s.cur.next % U32 > r.latest then RingReason else RingRead)
    case RingRead =>
      var ledger := s.cur.next % U32;
      if ledger in s.src.disk then
        s.(pc := Sending(RingFlow(p.w, ledger, s.src.disk[ledger])), cur := s.cur.(next := s.cur.next + 1))
      else s.(pc := RingReason)
    case RingReason =>
      var r := s.src.ring;
      s.(pc := Gone(STATUS_TOO_FAR_BEHIND, Decimal.TooFarBehindReason(r.oldest, r.latest)))
    case Resting =>
      var end := FinalClose(p.req, s.cur.next, s.src.failed);
      s.(pc := if s.snap.finished then Gone(end.0, end.1) else Asleep)
    case Asleep => s.(pc := Watching)
    case Gone(_, _) => s
    case Broke(_) => s
  }

  lemma CursorCanMove(p: Setup, s: State)
    requires Good(p) && Inv(p, s) && s.src.finished && !Over(s)
    ensures CursorStep(p, s, CursorNext(p, s))
  {
    hide AheadOk, PcOk, ChannelOk, SnapOk, CursorOk, FlowOk, Dense, Turn, RingFlow, FinalClose;
  }

  // -------------------------------------------------------------- so serve returns

  ghost predicate CursorRun(p: Setup, run: seq<State>) {
    |run| > 0 && forall i :: 0 <= i < |run| - 1 ==> CursorStep(p, run[i], run[i + 1])
  }

  /** From any reachable state in which the source has finished, the cursor alone,
      with no further help from source, network or client, reaches its close; and no
      run of cursor steps can avoid it, since each is Nearer than the one before. */
  lemma {:induction false} ServeReturns(p: Setup, s: State) returns (run: seq<State>)
    requires Good(p) && Inv(p, s) && s.src.finished
    ensures CursorRun(p, run) && run[0] == s && Over(run[|run| - 1])
    decreases Stale(s), LedgersLeft(s), MessagesLeft(s), StepsLeft(s)
  {
    hide Inv, CursorStep, Over, LedgersLeft, MessagesLeft, StepsLeft, CursorNext;
    if Over(s) {
      run := [s];
    } else {
      CursorCanMove(p, s);
      var t := CursorNext(p, s);
      StaysFinished(p, s, t);
      CursorNearer(p, s, t);
      NextKeeps(p, s, t);
      var rest := ServeReturns(p, t);
      run := [s] + rest;
      forall i | 0 <= i < |run| - 1 ensures CursorStep(p, run[i], run[i + 1]) {
        if i > 0 {
          assert run[i] == rest[i - 1];
        }
      }
    }
  }

  /** Every run of the protocol whose source has finished goes on, by steps of the cursor
      alone, to the end of the subscription. */
  lemma SubscriptionEnds(p: Setup, run: seq<State>) returns (more: seq<State>)
    requires Good(p) && Behaviour(p, run) && run[|run| - 1].src.finished
    ensures CursorRun(p, more) && more[0] == run[|run| - 1] && Over(more[|more| - 1])
    ensures Behaviour(p, run + more[1..])
  {
    StreamingTheorems.Reachable(p, run, |run| - 1);
    more := ServeReturns(p, run[|run| - 1]);
    hide Init, Over, CursorStep, Good;
    var whole := run + more[1..];
    forall i | 0 <= i < |whole| - 1 ensures Next(p, whole[i], whole[i + 1]) {
      if i < |run| - 1 {
        assert Next(p, run[i], run[i + 1]);
      } else {
        var k := i - (|run| - 1);
        assert whole[i] == more[k] && whole[i + 1] == more[k + 1];
        assert CursorStep(p, more[k], more[k + 1]);
        StaysFinished(p, more[k], more[k + 1]);
      }
    }
  }

  lemma StaysFinished(p: Setup, s: State, t: State)
    requires CursorStep(p, s, t)
    ensures t.src == s.src && Next(p, s, t)
  {
    hide Turn, RingFlow, FinalClose;
  }
}
