/** That a stream which should end without an error does: what a client makes of the
    close of a source that finished without failing. */
module CleanEnds {
  import opened Prelude
  import opened Wire
  import opened Chunks
  import opened Source
  import opened Serve
  import opened Client
  import opened Feeding
  import opened Streaming
  import opened StreamingProofs
  import opened StreamingTheorems
  import opened StreamingLiveness
  import ClientSoundness

  /** A client of an unbounded range that is still reading, has read every message and
      now reads the close of a source that did not fail, ends cleanly, unless its cursor
      was left inside a flow or had fallen behind retention. */
  lemma CloseReadIsClean(p: Setup, run: seq<State>, n: nat)
    requires Good(p) && Behaviour(p, run) && n + 1 < |run| && !p.req.bounded
    requires ReadCloseStep(p, run[n], run[n + 1]) && !run[n].src.failed
    requires run[n].pc.code != STATUS_TOO_FAR_BEHIND && run[n].cur.live == None
    ensures run[n + 1].client.status == CleanClose
  {
    hide Behaviour, Good, ReadCloseStep;
    Reachable(p, run, n);
    CloseIsClean(p, run[n], run[n + 1]);
  }

  lemma CloseIsClean(p: Setup, s: State, t: State)
    requires Good(p) && Inv(p, s) && !p.req.bounded && ReadCloseStep(p, s, t) && !s.src.failed
    requires s.pc.code != STATUS_TOO_FAR_BEHIND && s.cur.live == None
    ensures t.client.status == CleanClose
  {
    CaughtUp(p, s);
    GoneIsNormal(p, s);
    hide Inv, Good, Synced, Ahead, SamePlace;
    NotInResidue(p, s);
  }

  lemma GoneIsNormal(p: Setup, s: State)
    requires Inv(p, s) && !p.req.bounded && s.pc.Gone? && s.pc.code != STATUS_TOO_FAR_BEHIND && !s.src.failed
    ensures s.pc.code == STATUS_NORMAL
  {
    hide SrcInv, SnapOk, CursorOk, AheadOk, ChannelOk, RestOk;
  }

  lemma NotInResidue(p: Setup, s: State)
    requires Synced(p, s, s.client) && s.pc.Gone? && s.pc.code != STATUS_TOO_FAR_BEHIND && s.cur.live == None
    ensures !s.client.asm.active
  {
    hide TrackOk;
  }

  // ------------------------------------------------------------------- and it does end

  /** Steps of the client alone. */
  ghost predicate ClientRun(p: Setup, run: seq<State>) {
    |run| > 0 && forall i :: 0 <= i < |run| - 1 ==> ClientStep(p, run[i], run[i + 1])
  }

  /** A client whose connection is closed and not broken reads what is left, and the close. */
  lemma {:induction false} ReadsOut(p: Setup, s: State) returns (run: seq<State>)
    requires s.pc.Gone? && s.fate == None && s.got <= |s.sent|
    ensures ClientRun(p, run) && run[0] == s && run[|run| - 1].client.status != Open
    ensures var t := run[|run| - 1];
      t == s.(got := t.got, fate := t.fate, client := t.client)
    ensures var t := run[|run| - 1]; t.fate == None || (|run| > 1 && ReadCloseStep(p, run[|run| - 2], t))
    decreases |s.sent| - s.got
  {
    hide Feed;
    if s.client.status != Open {
      run := [s];
    } else if s.got < |s.sent| {
      var t := s.(got := s.got + 1, client := Feed(p.k, s.client, Message(s.sent[s.got])));
      var rest := ReadsOut(p, t);
      assert ReadStep(p, s, t);
      run := [s] + rest;
      RunGrows(p, s, rest);
    } else {
      var r := Closed(s.pc.code, s.pc.reason);
      var t := s.(fate := Some(r), client := Feed(p.k, s.client, r));
      assert ReadCloseStep(p, s, t);
      ClosedIsOver(p.k, s.client, s.pc.code, s.pc.reason);
      run := [s, t];
    }
  }

  lemma ClosedIsOver(k: Config, c: Client, code: int, reason: string)
    ensures Feed(k, c, Closed(code, reason)).status != Open
  {
  }

  lemma RunGrows(p: Setup, s: State, rest: seq<State>)
    requires ClientRun(p, rest) && ClientStep(p, s, rest[0])
    ensures ClientRun(p, [s] + rest)
  {
    hide ClientStep;
    var run := [s] + rest;
    forall i | 0 <= i < |run| - 1 ensures ClientStep(p, run[i], run[i + 1]) {
      if i > 0 {
        assert run[i] == rest[i - 1] && run[i + 1] == rest[i];
      }
    }
  }

  lemma JoinsBehaviour(p: Setup, run: seq<State>, more: seq<State>)
    requires Behaviour(p, run) && |more| > 0 && more[0] == run[|run| - 1]
    requires forall i :: 0 <= i < |more| - 1 ==> Next(p, more[i], more[i + 1])
    ensures Behaviour(p, run + more[1..])
  {
    hide Init, Next;
    var whole := run + more[1..];
    forall i | 0 <= i < |whole| - 1 ensures Next(p, whole[i], whole[i + 1]) {
      if i < |run| - 1 {
        assert Next(p, run[i], run[i + 1]);
      } else {
        var k := i - (|run| - 1);
        assert whole[i] == more[k] && whole[i + 1] == more[k + 1];
      }
    }
  }

  /** The cursor's own steps never break the connection. */
  lemma {:induction false} NeverBreaks(p: Setup, run: seq<State>, n: nat)
    requires Good(p) && CursorRun(p, run) && n < |run| && Inv(p, run[0]) && !run[0].pc.Broke?
    ensures Inv(p, run[n]) && !run[n].pc.Broke? && run[n].src == run[0].src
    ensures run[n].fate == run[0].fate && run[n].client == run[0].client
  {
    hide Inv, Good, CursorStep;
    if n > 0 {
      NeverBreaks(p, run, n - 1);
      assert CursorStep(p, run[n - 1], run[n - 1 + 1]);
      CursorStays(p, run[n - 1], run[n]);
    }
  }

  lemma CursorStays(p: Setup, s: State, t: State)
    requires Good(p) && Inv(p, s) && CursorStep(p, s, t) && !s.pc.Broke?
    ensures Inv(p, t) && !t.pc.Broke? && t.src == s.src && t.fate == s.fate && t.client == s.client
  {
    hide Inv, Good, WatchStep, FinalClose, RingFlow;
    StaysFinished(p, s, t);
    NextKeeps(p, s, t);
    if WatchStep(p, s, t) {
      WatchKeeps(p, s, t);
      LookIsApart(p, s, t);
    }
  }

  lemma LookIsApart(p: Setup, s: State, t: State)
    requires WatchStep(p, s, t)
    ensures t.fate == s.fate && t.client == s.client
  {
    hide Turn;
  }

  /** A client of an unbounded range that an honest server's messages have ended was
      stopped by its consumer. */
  lemma EndedByMessages(p: Setup, s: State)
    requires Inv(p, s) && Good(p) && !p.req.bounded && s.fate == None && s.client.status != Open
    ensures s.client.status == Stopped
  {
    ClientBehindAhead(p, s);
    ClientIsOrderly(p, s);
    AheadIsHonest(p, s);
    hide Inv, Good, Ahead, ClientSoundness.Consecutive, ClientSoundness.Tracked, ClientSoundness.WithinCap;
    RangeIsUnbounded(p);
  }

  lemma RangeIsUnbounded(p: Setup)
    requires Good(p)
    ensures p.k.range.bounded == p.req.bounded
  {
    hide Lawful, Compatible;
  }

  lemma AheadIsHonest(p: Setup, s: State)
    requires Inv(p, s)
    ensures var status := Ahead(p, s).status; status == Open || status == Stopped || status == RangeComplete
  {
    hide SrcInv, SnapOk, CursorOk, PcOk, ChannelOk, Exact, Synced, Gapless, Ahead;
  }

  /** From wherever a run has got to when the source has finished without failing, with the
      connection up and an unbounded client reading: the cursor and the client alone bring
      it to an end, which is a clean one unless the consumer broke off, the cursor had
      fallen out of retention, or the source had stopped inside a ledger. */
  lemma EndsCleanly(p: Setup, run: seq<State>) returns (more: seq<State>)
    requires Good(p) && Behaviour(p, run) && !p.req.bounded
    requires var s := run[|run| - 1]; s.src.finished && !s.src.failed && !s.pc.Broke? && s.fate == None
    ensures Behaviour(p, run + more)
    ensures var t := (run + more)[|run + more| - 1];
      && t.src == run[|run| - 1].src && t.pc.Gone? && t.client.status != Open
      && (t.client.status == CleanClose || t.client.status == Stopped
          || t.cur.live.Some? || t.pc.code == STATUS_TOO_FAR_BEHIND)
  {
    hide *;
    NotEmpty(p, run);
    Reachable(p, run, |run| - 1);
    var served := ServeReturns(p, run[|run| - 1]);
    CursorRunSteps(p, served);
    var gone := served[|served| - 1];
    NeverBreaks(p, served, |served| - 1);
    OverIsGone(p, gone);
    JoinsBehaviour(p, run, served);
    var reading := ReadsOut(p, gone);
    ClientRunSteps(p, reading);
    JoinsBehaviour(p, run + served[1..], reading);
    more := served[1..] + reading[1..];
    assert run + more == (run + served[1..]) + reading[1..];
    var t := reading[|reading| - 1];
    var whole := run + more;
    assert whole[|whole| - 1] == t;
    Reachable(p, whole, |whole| - 1);
    if t.fate == None {
      EndedByMessages(p, t);
    } else {
      assert whole[|whole| - 2] == reading[|reading| - 2];
      Reachable(p, whole, |whole| - 2);
      LastReadIs(p, reading[|reading| - 2], t);
      if t.cur.live == None && t.pc.code != STATUS_TOO_FAR_BEHIND {
        CloseIsClean(p, reading[|reading| - 2], t);
      }
    }
  }

  lemma NotEmpty(p: Setup, run: seq<State>)
    requires Behaviour(p, run)
    ensures |run| > 0
  {
  }

  lemma LastReadIs(p: Setup, s: State, t: State)
    requires ReadCloseStep(p, s, t)
    ensures s.src == t.src && s.pc == t.pc && s.cur == t.cur
  {
    hide Feed;
  }

  lemma OverIsGone(p: Setup, s: State)
    requires Inv(p, s) && Over(s) && !s.pc.Broke?
    ensures s.pc.Gone? && s.got <= |s.sent|
  {
    hide SrcInv, SnapOk, CursorOk, AheadOk, PcOk;
  }

  lemma CursorRunSteps(p: Setup, run: seq<State>)
    requires CursorRun(p, run)
    ensures |run| > 0 && forall i :: 0 <= i < |run| - 1 ==> Next(p, run[i], run[i + 1])
  {
    hide CursorStep, SourceStep, BreakStep, ClientStep;
    forall i | 0 <= i < |run| - 1 ensures Next(p, run[i], run[i + 1]) {
      assert CursorStep(p, run[i], run[i + 1]);
    }
  }

  lemma ClientRunSteps(p: Setup, run: seq<State>)
    requires ClientRun(p, run)
    ensures |run| > 0 && forall i :: 0 <= i < |run| - 1 ==> Next(p, run[i], run[i + 1])
  {
    hide CursorStep, SourceStep, BreakStep, ClientStep;
    forall i | 0 <= i < |run| - 1 ensures Next(p, run[i], run[i + 1]) {
      assert ClientStep(p, run[i], run[i + 1]);
    }
  }
}
