/** Where a yielded ledger can have come from: the source began it, or an earlier run
    had left it on disk. */
module Provenance {
  import opened Prelude
  import opened Wire
  import opened Chunks
  import opened Retention
  import opened Source
  import opened Serve
  import opened Client
  import opened Streaming
  import opened StreamingProofs
  import opened StreamingTheorems

  predicate Known(w: World, s: Src, ledger: nat) {
    || (w.base.filled && w.base.oldest <= ledger <= w.base.latest)
    || exists i :: 0 <= i < |s.flows| && s.flows[i].seq_ == ledger
  }

  ghost predicate Held(w: World, s: Src, d: Disk) {
    forall ledger :: ledger in d ==> Known(w, s, ledger)
  }

  ghost predicate DiskKnown(w: World, s: Src) {
    Held(w, s, s.disk) && (s.phase.Storing? ==> forall d :: d in s.phase.todo ==> Held(w, s, d))
  }

  /** Everything the cursor has gone past. */
  ghost predicate Passed(p: Setup, s: State) {
    s.anchor != 0 ==> forall ledger: nat :: s.anchor <= ledger < s.cur.next ==> Known(p.w, s.src, ledger)
  }

  // ------------------------------------------------------------ the source's side

  lemma KnownGrows(w: World, s: Src, t: Src, ledger: nat)
    requires Grows(s, t) && Known(w, s, ledger)
    ensures Known(w, t, ledger)
  {
    if i :| 0 <= i < |s.flows| && s.flows[i].seq_ == ledger {
      assert Earlier(s.flows[i], t.flows[i]);
    }
  }

  lemma HeldGrows(w: World, s: Src, t: Src, d: Disk)
    requires Grows(s, t) && Held(w, s, d)
    ensures Held(w, t, d)
  {
    hide Known, Grows;
    forall ledger | ledger in d ensures Known(w, t, ledger) {
      KnownGrows(w, s, t, ledger);
    }
  }

  lemma InitKnown(w: World, s: Src)
    requires SrcInit(w, s)
    ensures DiskKnown(w, s)
  {
    hide Agrees;
  }

  /** What Put puts on disk is what was there and the ledger just emitted. */
  lemma PutKnown(w: World, s: Src, t: Src)
    requires GoodWorld(w) && SrcInv(w, s) && PutBegin(w, s, t) && DiskKnown(w, s)
    ensures DiskKnown(w, t)
  {
    hide FlowOk, Dense, PutTrace, Contiguous, Covers, Lawful, PutRing, Agrees;
    var l := Prev(s);
    assert t.flows == s.flows && Known(w, t, l) by {
      assert t.flows[|t.flows| - 1].seq_ == l;
    }
    forall d | d in t.phase.todo ensures Held(w, t, d) {
      var i :| 0 <= i < |t.phase.todo| && t.phase.todo[i] == d;
      PutStates(s.ring, s.disk, l, w.history(l), w.retention, i);
      FromKnown(w, s, t, d, l);
    }
  }

  lemma FromKnown(w: World, s: Src, t: Src, d: Disk, l: uint32)
    requires t.flows == s.flows && Held(w, s, s.disk) && Known(w, t, l) && From(d, s.disk, l, w.history(l))
    ensures Held(w, t, d)
  {
    forall ledger | ledger in d ensures Known(w, t, ledger) {
      if ledger in s.disk {
        assert Known(w, s, ledger);
      }
    }
  }

  lemma PutStepKnown(w: World, s: Src, t: Src)
    requires PutStep(s, t) && DiskKnown(w, s)
    ensures DiskKnown(w, t)
  {
    hide Known;
    assert s.phase.todo[0] in s.phase.todo;
    forall d | d == t.disk || d in t.phase.todo ensures Held(w, t, d) {
      assert Held(w, s, d);
      SameFlows(w, s, t, d);
    }
  }

  lemma SameFlows(w: World, s: Src, t: Src, d: Disk)
    requires t.flows == s.flows && Held(w, s, d)
    ensures Held(w, t, d)
  {
    forall ledger | ledger in d ensures Known(w, t, ledger) {
      assert Known(w, s, ledger);
    }
  }

  lemma OthersLeaveDisk(w: World, s: Src, t: Src)
    requires SrcNext(w, s, t) && !PutBegin(w, s, t) && !PutStep(s, t)
    ensures t.disk == s.disk && !t.phase.Storing?
  {
    hide SoundAt, Joined, Payload, EndMsg, PutBegin, PutStep;
  }

  lemma SourceKnown(w: World, s: Src, t: Src)
    requires GoodWorld(w) && SrcInv(w, s) && SrcNext(w, s, t) && DiskKnown(w, s)
    ensures DiskKnown(w, t) && Grows(s, t)
  {
    hide SrcInv, SrcNext, GoodWorld, Held, Grows, PutBegin, PutStep;
    SourceGrows(w, s, t);
    if PutBegin(w, s, t) {
      PutKnown(w, s, t);
    } else if PutStep(s, t) {
      PutStepKnown(w, s, t);
    } else {
      OthersLeaveDisk(w, s, t);
      HeldGrows(w, s, t, s.disk);
    }
  }

  // ------------------------------------------------------------ the cursor's side

  /** A turn of serve leaves the cursor where it is, or takes it past a ledger the source
      has begun. */
  lemma WatchPasses(p: Setup, s: State, t: State)
    requires CursorOk(p, s) && WatchStep(p, s, t) && Passed(p, s)
    ensures Passed(p, t)
  {
    hide Known, WatchStep, CursorOk;
    TurnMoves(p, s, t);
    if t.cur.next != Here(s).cur.next {
      BegunIsKnown(p, s, t);
    }
  }

  lemma TurnMoves(p: Setup, s: State, t: State)
    requires CursorOk(p, s) && WatchStep(p, s, t)
    ensures t.src == s.src && t.anchor == Here(s).anchor
    ensures t.cur.next == Here(s).cur.next || t.cur.next == Here(s).cur.next + 1
    ensures s.cur.next == 0 ==> Here(s).cur.next == Here(s).anchor
    ensures s.cur.next != 0 ==> Here(s) == s
  {
    hide StamplessFlow;
  }

  lemma BegunIsKnown(p: Setup, s: State, t: State)
    requires CursorOk(p, s) && WatchStep(p, s, t) && t.cur.next == Here(s).cur.next + 1
    ensures Known(p.w, s.src, Here(s).cur.next)
  {
    hide StamplessFlow;
    var next := Here(s).cur.next;
    if s.cur.live.Some? && s.src.flows[s.cur.live.value.id].seq_ == next {
    } else {
      assert s.src.flows[|s.src.flows| - 1].seq_ == next;
    }
  }

  lemma RingPasses(p: Setup, s: State, t: State)
    requires CursorOk(p, s) && RingReadStep(p, s, t) && Passed(p, s) && DiskKnown(p.w, s.src)
    ensures Passed(p, t)
  {
    hide Known, RingFlow;
  }

  lemma OthersPass(p: Setup, s: State, t: State)
    requires Next(p, s, t) && !SourceStep(p, s, t) && !WatchStep(p, s, t) && !RingReadStep(p, s, t) && Passed(p, s)
    ensures t.src == s.src && Passed(p, t)
  {
    hide Known, SourceStep, WatchStep, RingReadStep, Feed, FinalClose;
  }

  ghost predicate Traceable(p: Setup, s: State) {
    DiskKnown(p.w, s.src) && Passed(p, s)
  }

  lemma SourcePasses(p: Setup, s: State, t: State)
    requires GoodWorld(p.w) && SrcInv(p.w, s.src) && SourceStep(p, s, t) && Traceable(p, s)
    ensures Traceable(p, t)
  {
    hide SrcInv, SrcNext, GoodWorld, DiskKnown, Known, Grows;
    SourceKnown(p.w, s.src, t.src);
    forall ledger: nat | s.anchor != 0 && s.anchor <= ledger < s.cur.next ensures Known(p.w, t.src, ledger) {
      KnownGrows(p.w, s.src, t.src, ledger);
    }
  }

  lemma StepTraceable(p: Setup, s: State, t: State)
    requires Good(p) && Inv(p, s) && Next(p, s, t) && Traceable(p, s)
    ensures Traceable(p, t)
  {
    hide SrcInv, SnapOk, CursorOk, AheadOk, PcOk, ChannelOk, DiskKnown, Passed, SourceStep, WatchStep, RingReadStep,
         Next;
    if SourceStep(p, s, t) {
      SourcePasses(p, s, t);
    } else if WatchStep(p, s, t) {
      WatchPasses(p, s, t);
      SourceStays(p, s, t);
    } else if RingReadStep(p, s, t) {
      RingPasses(p, s, t);
      SourceStays(p, s, t);
    } else {
      OthersPass(p, s, t);
    }
  }

  lemma SourceStays(p: Setup, s: State, t: State)
    requires WatchStep(p, s, t) || RingReadStep(p, s, t)
    ensures t.src == s.src
  {
    hide Turn, RingFlow;
  }

  lemma {:induction false} AllTraceable(p: Setup, run: seq<State>, n: nat)
    requires Good(p) && Behaviour(p, run) && n < |run|
    ensures Traceable(p, run[n])
  {
    hide Inv, Good, Init, Next, Traceable;
    if n == 0 {
      InitTraceable(p, run[0]);
    } else {
      AllTraceable(p, run, n - 1);
      Reachable(p, run, n - 1);
      assert Next(p, run[n - 1], run[n - 1 + 1]);
      StepTraceable(p, run[n - 1], run[n]);
    }
  }

  lemma InitTraceable(p: Setup, s: State)
    requires Init(p, s)
    ensures Traceable(p, s)
  {
    hide SrcInit, DiskKnown;
    InitKnown(p.w, s.src);
  }

  /** Nothing is made up: whatever a client yields, in any behaviour, is a ledger the
      source began, or one the ring held when the server started. */
  lemma YieldsAreKnown(p: Setup, run: seq<State>, n: nat)
    requires Good(p) && Behaviour(p, run) && n < |run|
    ensures forall i :: 0 <= i < |run[n].client.out| ==> Known(p.w, run[n].src, run[n].client.out[i].seq_)
  {
    Reachable(p, run, n);
    AllTraceable(p, run, n);
    DeliveryIsExact(p, run, n);
    hide Behaviour, Good;
    YieldsPassed(p, run[n]);
  }

  lemma YieldsPassed(p: Setup, s: State)
    requires Inv(p, s) && Traceable(p, s) && ExactYields(p, s)
    ensures forall i :: 0 <= i < |s.client.out| ==> Known(p.w, s.src, s.client.out[i].seq_)
  {
    hide SrcInv, SnapOk, AheadOk, PcOk, ChannelOk, DiskKnown, Known;
    forall i | 0 <= i < |s.client.out| ensures Known(p.w, s.src, s.client.out[i].seq_) {
      assert Exact(p, s, s.client.out[i]);
    }
  }
}
