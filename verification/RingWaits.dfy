/** That what the ring holds is served and not waited for. */
module RingWaits {
  import opened Prelude
  import opened Wire
  import opened Chunks
  import opened Retention
  import opened Source
  import opened Serve
  import opened Client
  import opened Feeding
  import opened Streaming
  import opened StreamingProofs
  import opened StreamingTheorems
  import opened StreamingRing

  predicate Outside(r: Ring, ledger: int) {
    !r.filled || ledger < r.oldest || ledger > r.latest
  }

  /** The ledger is outside the bounds there will be when the lock is next free. */
  predicate Absent(s: Src, ledger: int) {
    if s.phase.Storing? then Outside(s.phase.after, ledger) else Outside(s.ring, ledger)
  }

  predicate Waits(s: State) {
    (s.pc == Resting || s.pc == Asleep) && s.gen == s.src.gen && s.cur.live == None && s.cur.next != 0
  }

  predicate WaitOk(p: Setup, s: State) {
    Forward(p.w, s.src) && Waits(s) ==> Absent(s.src, s.cur.next)
  }

  /** A cursor past the newest flow is past everything the ring holds. */
  lemma PastFlowIsPastRing(p: Setup, s: State)
    requires SrcInv(p.w, s.src) && RingLookOk(p, s) && Forward(p.w, s.src)
    requires |s.src.flows| > 0 && Current(s.src).seq_ != 0 && s.cur.next > Current(s.src).seq_
    ensures Absent(s.src, s.cur.next)
  {
    hide FlowOk, Agrees, Indexes, Covers;
    if |s.src.flows| > 1 {
      DistinctFlows(p.w, s.src, |s.src.flows| - 2, |s.src.flows| - 1);
    }
  }

  lemma WatchWaits(p: Setup, s: State, t: State)
    requires Inv(p, s) && RingLookOk(p, s) && WatchStep(p, s, t)
    ensures WaitOk(p, t)
  {
    hide SrcInv, SnapOk, AheadOk, PcOk, ChannelOk, RingLookOk, Forward, Absent, BehindFlow, StamplessFlow;
    if Forward(p.w, s.src) && Waits(t) {
      RestsPast(p, s, t);
      PastFlowIsPastRing(p, t);
    }
  }

  lemma RestsPast(p: Setup, s: State, t: State)
    requires Inv(p, s) && RingLookOk(p, s) && WatchStep(p, s, t) && Waits(t)
    ensures |t.src.flows| > 0 && Current(t.src).seq_ != 0 && t.cur.next > Current(t.src).seq_
    ensures t.src == s.src && SrcInv(p.w, t.src) && (Forward(p.w, t.src) ==> RingLookOk(p, t))
  {
    hide SrcInv, SnapOk, AheadOk, PcOk, ChannelOk, Forward, StamplessFlow, Storable, Pruned;
  }

  /** Nor does a Put bring in the very ledger that is waited for. */
  lemma PutWaits(p: Setup, s: State, t: State)
    requires GoodWorld(p.w) && Inv(p, s) && WaitOk(p, s) && t == s.(src := t.src)
    requires PutBegin(p.w, s.src, t.src) && Forward(p.w, s.src) && Waits(s)
    ensures Absent(t.src, t.cur.next)
  {
    hide SrcInv, AheadOk, CursorOk, ChannelOk, PutTrace;
    assert s.snap.flow == Watch(s.src).flow;
    assert s.cur.next != Prev(s.src);
  }

  lemma SourceWaits(p: Setup, s: State, t: State)
    requires Good(p) && Inv(p, s) && WaitOk(p, s) && SourceStep(p, s, t)
    ensures WaitOk(p, t)
  {
    hide Inv, PutBegin, GoodWorld, Absent, Forward;
    SourceIsForward(p, s, t);
    if Waits(t) && Forward(p.w, t.src) {
      if PutBegin(p.w, s.src, t.src) {
        PutWaits(p, s, t);
      } else {
        OthersWait(p.w, s.src, t.src, s.cur.next);
      }
    }
  }

  lemma SourceIsForward(p: Setup, s: State, t: State)
    requires Good(p) && Inv(p, s) && SourceStep(p, s, t)
    ensures Forward(p.w, t.src) ==> Forward(p.w, s.src)
    ensures s.gen <= s.src.gen <= t.src.gen
  {
    hide SrcInv, AheadOk, CursorOk, PcOk, ChannelOk, SrcNext, GoodWorld;
    SourceGrows(p.w, s.src, t.src);
    FirstStays(s.src, t.src);
  }

  lemma OthersWait(w: World, s: Src, t: Src, ledger: int)
    requires SrcNext(w, s, t) && !PutBegin(w, s, t) && t.gen == s.gen && Absent(s, ledger)
    ensures Absent(t, ledger)
  {
    hide SoundAt, Joined, Payload, Coded, EndMsg, PutBegin;
  }

  lemma CursorWaits(p: Setup, s: State, t: State)
    requires Inv(p, s) && WaitOk(p, s) && Next(p, s, t) && !SourceStep(p, s, t) && !WatchStep(p, s, t)
    ensures WaitOk(p, t)
  {
    hide Inv, SourceStep, WatchStep, Feed, RingFlow, FinalClose, Forward;
  }

  lemma {:induction false} WaitsHold(p: Setup, run: seq<State>, n: nat)
    requires Good(p) && Behaviour(p, run) && n < |run|
    ensures WaitOk(p, run[n])
  {
    hide Inv, Good, Init, Next, WaitOk, RingLookOk;
    if n == 0 {
      NotYetWaiting(p, run[0]);
    } else {
      WaitsHold(p, run, n - 1);
      LookHolds(p, run, n - 1);
      Reachable(p, run, n - 1);
      assert Next(p, run[n - 1], run[n - 1 + 1]);
      StepWaits(p, run[n - 1], run[n]);
    }
  }

  lemma NotYetWaiting(p: Setup, s: State)
    requires Init(p, s)
    ensures WaitOk(p, s)
  {
    hide SrcInit;
  }

  lemma StepWaits(p: Setup, s: State, t: State)
    requires Good(p) && Inv(p, s) && RingLookOk(p, s) && WaitOk(p, s) && Next(p, s, t)
    ensures WaitOk(p, t)
  {
    hide Inv, Good, RingLookOk, WaitOk, SourceStep, WatchStep, Next;
    if SourceStep(p, s, t) {
      SourceWaits(p, s, t);
    } else if WatchStep(p, s, t) {
      WatchWaits(p, s, t);
    } else {
      CursorWaits(p, s, t);
    }
  }

  /** A subscription that is up to date and inside no flow never waits while the ring holds
      the ledger it wants, after a restart and before the first publish included; given,
      again, a ring found on disk that is wholly below the source's first ledger. */
  lemma NeverWaitsForRetained(p: Setup, run: seq<State>, n: nat)
    requires Good(p) && Behaviour(p, run) && n < |run| && Forward(p.w, run[n].src)
    requires run[n].pc == Resting || run[n].pc == Asleep
    requires run[n].gen == run[n].src.gen && run[n].cur.live == None && run[n].cur.next != 0
    requires Unlocked(run[n].src)
    ensures run[n].cur.next !in run[n].src.disk
  {
    WaitsHold(p, run, n);
    Reachable(p, run, n);
    hide Behaviour, Good;
    OutsideIsAbsent(p.w, run[n].src, run[n].cur.next);
  }

  lemma OutsideIsAbsent(w: World, s: Src, ledger: nat)
    requires SrcInv(w, s) && Unlocked(s) && Absent(s, ledger)
    ensures ledger !in s.disk
  {
    hide FlowOk, Dense, Agrees;
  }
}
