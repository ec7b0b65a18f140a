/** Falling out of retention: what a too-far-behind close reports, and exactly when
    the report can be trusted. */
module StreamingRing {
  import opened Prelude
  import opened Wire
  import opened Chunks
  import opened Retention
  import opened Source
  import opened Serve
  import opened Client
  import opened Feeding
  import opened Streaming
  import opened StreamingProofs
  import opened StreamingTheorems
  import Decimal

  /** The source's first ledger is above everything an earlier run left on disk. */
  predicate Forward(w: World, s: Src) {
    w.base.filled && |s.flows| > 0 ==> s.flows[0].seq_ > w.base.latest
  }

  /** Until the first Put the index is the one found on disk. */
  predicate Unstored(s: Src) {
    |s.flows| == 0 || (|s.flows| == 1 && (s.phase == Emitting || s.phase == Ended))
  }

  /** The ledger is at or below the newest stored one, so a missing file means it was
      pruned, now or by the Put in progress. */
  ghost predicate Storable(s: Src, ledger: int) {
    if s.phase.Storing? then
      && ledger <= s.phase.after.latest
      && Covers(s.disk, s.phase.after.oldest, ledger + 1)
      && forall d :: d in s.phase.todo ==> Covers(d, s.phase.after.oldest, ledger + 1)
    else s.ring.filled && ledger <= s.ring.latest
  }

  /** The ledger is below the oldest one there will be when the lock is next free. */
  predicate Pruned(s: Src, ledger: int) {
    if s.phase.Storing? then ledger < s.phase.after.oldest
    else s.ring.filled && ledger < s.ring.oldest
  }

  ghost predicate ReportsAbove(pc: Pc, next: nat)
    requires pc.Gone?
  {
    pc.code == STATUS_TOO_FAR_BEHIND ==>
      exists oldest: uint32, latest: uint32 :: pc.reason == Decimal.TooFarBehindReason(oldest, latest) && oldest > next
  }

  ghost predicate RingLookOk(p: Setup, s: State) {
    && (Unstored(s.src) ==> s.src.ring == p.w.base)
    && (Forward(p.w, s.src) ==>
          && (s.pc == RingGet || s.pc == RingRead ==> Storable(s.src, s.cur.next))
          && (s.pc == RingReason ==> Pruned(s.src, s.cur.next))
          && (s.pc.Gone? ==> ReportsAbove(s.pc, s.cur.next)))
  }

  lemma PutForward(w: World, s: Src, t: Src, ledger: nat)
    requires GoodWorld(w) && SrcInv(w, s) && PutBegin(w, s, t) && Forward(w, s)
    requires Unstored(s) ==> s.ring == w.base
    ensures Storable(s, ledger) ==> Storable(t, ledger)
    ensures Pruned(s, ledger) ==> Pruned(t, ledger)
  {
    hide FlowOk, Agrees, PutTrace, Contiguous, From, Lawful;
    var l := Prev(s);
    PutAbove(w, s);
    if Storable(s, ledger) {
      forall d | d in t.phase.todo ensures Covers(d, t.phase.after.oldest, ledger + 1) {
        var i :| 0 <= i < |t.phase.todo| && t.phase.todo[i] == d;
        PutStates(s.ring, s.disk, l, w.history(l), w.retention, i);
      }
    }
  }

  /** The ledger being stored is always above the newest stored one. */
  lemma PutAbove(w: World, s: Src)
    requires SrcInv(w, s) && s.phase == Ended && |s.flows| > 0 && Prev(s) != 0 && Forward(w, s)
    requires Unstored(s) ==> s.ring == w.base
    ensures s.ring.filled ==> Prev(s) > s.ring.latest
  {
    hide FlowOk, Agrees, Indexes;
    if |s.flows| > 1 {
      DistinctFlows(w, s, |s.flows| - 2, |s.flows| - 1);
    }
  }

  lemma PutMovesOn(w: World, s: Src, t: Src, ledger: nat)
    requires SrcInv(w, s) && (PutStep(s, t) || PutDone(s, t))
    ensures Unstored(s) <==> Unstored(t)
    ensures !Unstored(s)
    ensures Storable(s, ledger) ==> Storable(t, ledger)
    ensures Pruned(s, ledger) ==> Pruned(t, ledger)
  {
    hide FlowOk, Agrees, Indexes, Dense, Covers;
    if PutStep(s, t) {
      assert s.phase.todo[0] in s.phase.todo;
      assert forall d :: d in t.phase.todo ==> d in s.phase.todo;
    }
  }

  /** Publishing and finishing leave the ring alone. */
  lemma OthersApart(w: World, s: Src, t: Src, ledger: nat)
    requires SrcInv(w, s) && SrcNext(w, s, t) && !PutBegin(w, s, t) && !PutStep(s, t) && !PutDone(s, t)
    ensures t.ring == s.ring && (Unstored(t) ==> Unstored(s))
    ensures Forward(w, t) ==> Forward(w, s)
    ensures Storable(s, ledger) ==> Storable(t, ledger)
    ensures Pruned(s, ledger) ==> Pruned(t, ledger)
  {
    hide FlowOk, RingOk, SoundAt, Joined, Payload, Dense, PutBegin, PutStep, PutDone, Covers;
  }

  lemma SourceKeepsLook(w: World, s: Src, t: Src, ledger: nat)
    requires GoodWorld(w) && SrcInv(w, s) && SrcNext(w, s, t)
    requires Unstored(s) ==> s.ring == w.base
    ensures Unstored(t) ==> t.ring == w.base
    ensures Forward(w, t) ==> Forward(w, s)
    ensures Forward(w, t) && Storable(s, ledger) ==> Storable(t, ledger)
    ensures Forward(w, t) && Pruned(s, ledger) ==> Pruned(t, ledger)
  {
    hide SrcInv, SrcNext, GoodWorld, Storable, Pruned, PutTrace, PutRing, Resets;
    if PutBegin(w, s, t) {
      if Forward(w, t) {
        PutForward(w, s, t, ledger);
      }
    } else if PutStep(s, t) || PutDone(s, t) {
      PutMovesOn(w, s, t, ledger);
    } else {
      OthersApart(w, s, t, ledger);
    }
  }

  lemma CursorKeepsLook(p: Setup, s: State, t: State)
    requires Inv(p, s) && RingLookOk(p, s) && t.src == s.src
    requires CursorStep(p, s, t) || BreakStep(s, t) || ClientStep(p, s, t)
    requires Inv(p, t)
    ensures RingLookOk(p, t)
  {
    hide SrcInv, AheadOk, ChannelOk, Feed, RingFlow, Turn, SnapOk, PcOk, CursorOk, Storable, RingLookOk;
    if RingBoundsStep(s, t) || RingGetStep(s, t) || RingReadStep(p, s, t) || RingReasonStep(s, t) {
      RingKeepsLook(p, s, t);
    } else {
      OtherKeepsLook(p, s, t);
    }
  }

  lemma RingKeepsLook(p: Setup, s: State, t: State)
    requires SrcInv(p.w, s.src) && CursorOk(p, s) && RingLookOk(p, s) && t.src == s.src
    requires RingBoundsStep(s, t) || RingGetStep(s, t) || RingReadStep(p, s, t) || RingReasonStep(s, t)
    ensures RingLookOk(p, t)
  {
    hide FlowOk, Dense, Agrees, RingFlow;
  }

  lemma OtherKeepsLook(p: Setup, s: State, t: State)
    requires RingLookOk(p, s) && t.src == s.src
    requires AnchorStep(s, t) || WatchStep(p, s, t) || WriteStep(s, t) || RestStep(p, s, t) || WakeStep(s, t)
      || BreakStep(s, t) || ClientStep(p, s, t)
    ensures RingLookOk(p, t)
  {
    hide Storable, Pruned, Unstored, Forward, Feed, Turn;
    if WatchStep(p, s, t) {
      WatchNeverReports(p, s, t);
    } else if RestStep(p, s, t) {
      var end := FinalClose(p.req, s.cur.next, s.src.failed);
      assert end.0 != STATUS_TOO_FAR_BEHIND;
    }
  }

  lemma WatchNeverReports(p: Setup, s: State, t: State)
    requires WatchStep(p, s, t)
    ensures t.pc.Gone? ==> t.pc.code == STATUS_NORMAL
    ensures t.pc != RingGet && t.pc != RingRead && t.pc != RingReason
  {
    hide StamplessFlow;
  }

  lemma LookInit(p: Setup, s: State)
    requires Init(p, s)
    ensures RingLookOk(p, s)
  {
  }

  lemma {:induction false} LookHolds(p: Setup, run: seq<State>, n: nat)
    requires Good(p) && Behaviour(p, run) && n < |run|
    ensures RingLookOk(p, run[n])
  {
    hide Inv, GoodWorld, Init, RingLookOk, SrcNext, CursorStep, BreakStep, ClientStep, Compatible;
    if n == 0 {
      LookInit(p, run[0]);
    } else {
      LookHolds(p, run, n - 1);
      var s, t := run[n - 1], run[n];
      assert Next(p, run[n - 1], run[n - 1 + 1]);
      Reachable(p, run, n - 1);
      Reachable(p, run, n);
      if SourceStep(p, s, t) {
        SourceStepKeepsLook(p, s, t);
      } else {
        SameSource(p, s, t);
        CursorKeepsLook(p, s, t);
      }
    }
  }

  lemma SameSource(p: Setup, s: State, t: State)
    requires CursorStep(p, s, t) || BreakStep(s, t) || ClientStep(p, s, t)
    ensures t.src == s.src
  {
    hide Turn, RingFlow, FinalClose, Feed;
  }

  lemma SourceStepKeepsLook(p: Setup, s: State, t: State)
    requires GoodWorld(p.w) && Inv(p, s) && RingLookOk(p, s) && SourceStep(p, s, t)
    ensures RingLookOk(p, t)
  {
    hide SrcInv, SrcNext, GoodWorld, Storable, Pruned, Forward, Unstored, ReportsAbove, AheadOk, SnapOk, CursorOk,
         PcOk, ChannelOk;
    SourceKeepsLook(p.w, s.src, t.src, s.cur.next);
  }

  /** With an initial ring that is empty or wholly below the first emitted ledger, a
      too-far-behind close always reports an oldest ledger strictly above the one the
      cursor stands at, even when pruning overtook the read. */
  lemma CloseReportsAbove(p: Setup, run: seq<State>, n: nat)
    requires Good(p) && Behaviour(p, run) && n < |run| && Forward(p.w, run[n].src)
    ensures run[n].pc.Gone? ==> ReportsAbove(run[n].pc, run[n].cur.next)
  {
    LookHolds(p, run, n);
    hide Behaviour, Good, ReportsAbove;
  }

  /** And that is what a client refused with one is told: the next ledger it was to be
      sent is gone, whether or not it knew which that was. */
  lemma TooFarBehindIsAbove(p: Setup, run: seq<State>, n: nat, requested: uint32, bounds: Option<(uint32, uint32)>)
    requires Good(p) && Behaviour(p, run) && n < |run| && Forward(p.w, run[n].src)
    requires run[n].client.status == Failed(TooFarBehind(requested, bounds))
    ensures bounds.Some? && bounds.value.0 > run[n].cur.next >= requested
    ensures requested != 0 ==> run[n].cur.next == requested
    ensures requested == 0 ==> p.req.start == 0 && run[n].client.out == []
  {
    Reachable(p, run, n);
    CloseReportsAbove(p, run, n);
    hide Behaviour, Good;
    TooFarFacts(p, run[n], requested, bounds);
  }

  lemma TooFarFacts(p: Setup, s: State, requested: uint32, bounds: Option<(uint32, uint32)>)
    requires Inv(p, s) && (s.pc.Gone? ==> ReportsAbove(s.pc, s.cur.next))
    requires s.client.status == Failed(TooFarBehind(requested, bounds))
    ensures bounds.Some? && bounds.value.0 > s.cur.next >= requested
    ensures requested != 0 ==> s.cur.next == requested
    ensures requested == 0 ==> p.req.start == 0 && s.client.out == []
  {
    hide SrcInv, SnapOk, AheadOk, PcOk, CursorOk, FeedFrom, Feed, ReportsAbove, Decimal.ParseTooFarBehindReason;
    var read := FeedFrom(p.k, NewClient(p.k), s.sent[..s.got]);
    ReadingNeverRefuses(p.k, s.sent[..s.got]);
    if s.fate.Some? {
      RefusedByClose(p.k, read, s.fate.value);
      assert s.sent[..|s.sent|] == s.sent + [];
      assert read == Ahead(p, s);
      RequestedIsNext(p, s);
      ReportIsRead(s.pc, s.cur.next);
    }
  }

  lemma ReportIsRead(pc: Pc, next: nat)
    requires pc.Gone? && pc.code == STATUS_TOO_FAR_BEHIND && ReportsAbove(pc, next)
    ensures var bounds := Decimal.ParseTooFarBehindReason(pc.reason); bounds.Some? && bounds.value.0 > next
  {
    hide Decimal.TooFarBehindReason, Decimal.ParseTooFarBehindReason;
    var oldest: uint32, latest: uint32 :|
      pc.reason == Decimal.TooFarBehindReason(oldest, latest) && oldest > next;
    Decimal.ReasonRoundTrip(oldest, latest);
  }

  lemma RequestedIsNext(p: Setup, s: State)
    requires CursorOk(p, s) && AheadOk(p, s) && Ahead(p, s).status == Open
    ensures var expected := Ahead(p, s).track.expected;
      && expected <= s.cur.next
      && (expected != 0 ==> expected == s.cur.next)
      && (expected == 0 && s.cur.next < U32 ==> p.req.start == 0 && Ahead(p, s).out == [])
  {
    hide FeedFrom, Exact, Joined, ResidualOk, Gapless;
  }

  lemma RefusedByClose(k: Config, c: Client, r: Read)
    requires Feed(k, c, r).status.Failed? && Feed(k, c, r).status.failure.TooFarBehind? && (r == Broken || r.Closed?)
    requires !(c.status.Failed? && c.status.failure.TooFarBehind?)
    ensures c.status == Open && r.Closed? && r.code == STATUS_TOO_FAR_BEHIND
    ensures Feed(k, c, r).status.failure == TooFarBehind(c.track.expected, Decimal.ParseTooFarBehindReason(r.reason))
    ensures Feed(k, c, r).out == c.out
  {
  }

  lemma {:induction false} ReadingNeverRefuses(k: Config, msgs: seq<bytes>)
    ensures
      var status := FeedFrom(k, NewClient(k), msgs).status;
      !(status.Failed? && status.failure.TooFarBehind?)
  {
    hide Feed, NewClient;
    if |msgs| > 0 {
      ReadingNeverRefuses(k, msgs[..|msgs| - 1]);
      MessageNeverRefuses(k, FeedFrom(k, NewClient(k), msgs[..|msgs| - 1]), msgs[|msgs| - 1]);
    } else {
      NewIsOpen(k);
    }
  }

  lemma NewIsOpen(k: Config)
    ensures NewClient(k).status == Open
  {
  }

  lemma MessageNeverRefuses(k: Config, c: Client, msg: bytes)
    requires !(c.status.Failed? && c.status.failure.TooFarBehind?)
    ensures var status := Feed(k, c, Message(msg)).status; !(status.Failed? && status.failure.TooFarBehind?)
  {
    hide Decode, Admits, ExpandBounded;
  }
}
