/** The edges of a subscription: how the client's range becomes the server's request,
    which close code means what, and the last representable sequence, where a uint32
    successor would wrap to 0 (internal/server/server.go, remoteledger/stream.go). */
module Ceiling {
  import opened Prelude
  import opened Wire
  import opened Decimal
  import opened Source
  import opened Serve
  import opened Client
  import opened ClientSoundness
  import opened Streaming
  import opened StreamingTheorems

  // -------------------------------------------------------------- subscriptions

  /** endpoint's start and end query parameters, end "" when it sets none. */
  function Endpoint(range: Range): Option<(string, string)> {
    if range.from == MAX_UINT32 || (range.bounded && range.to == MAX_UINT32) then None
    else if range.bounded && range.to < range.from then None
    else Some((Print(range.from), if range.bounded then Print(range.to) else ""))
  }

  /** A range the client agrees to ask for is the range the server serves, except that
      the server refuses an explicit end of 0, which the client does not. */
  lemma EndpointIsServed(range: Range)
    ensures Endpoint(range).Some? <==> Requestable(range)
    ensures Endpoint(range).Some? ==>
      var (start, end) := Endpoint(range).value;
      ParseStreamRequest(start, end) ==
        if range.bounded && range.to == 0 then None
        else Some(Request(range.from, if range.bounded then range.to else 0, range.bounded))
    ensures Endpoint(range).Some? && !(range.bounded && range.to == 0) ==>
      Streamable(Request(range.from, if range.bounded then range.to else 0, range.bounded))
  {
    ParsePrint(range.from);
    ParsePrint(range.to);
    hide ParseUint32, Print;
  }

  /** What parseStreamRequest lets through, whatever the query said, is streamable. */
  lemma ParsedIsStreamable(start: string, end: string)
    ensures var r := ParseStreamRequest(start, end); r.Some? ==> Streamable(r.value)
  {
    hide ParseUint32;
  }

  /** An absent query value stands for 0. */
  ghost predicate Asks(text: string, n: uint32) {
    if text == "" then n == 0 else Spells(text, n)
  }

  /** And it lets a query through exactly when both values are numbers, an end was not
      given as 0, neither is the last representable ledger, and they are in order. */
  lemma ParsesQueries(start: string, end: string, req: Request)
    ensures ParseStreamRequest(start, end) == Some(req) <==>
      && Asks(start, req.start) && Asks(end, req.end) && req.bounded == (end != "") && Streamable(req)
  {
    ParsesSpellings(start, req.start);
    ParsesSpellings(end, req.end);
    ParsedHow(start, end, req);
    hide ParseUint32, Spells;
  }

  lemma ParsedHow(start: string, end: string, req: Request)
    ensures ParseStreamRequest(start, end) == Some(req) ==>
      && (start != "" ==> ParseUint32(start) == Some(req.start)) && (end != "" ==> ParseUint32(end) == Some(req.end))
  {
    hide ParseUint32;
  }

  // ---------------------------------------------------------------- close codes

  /** 1000 is said only to a subscriber that is past its end, or to an unbounded one when
      the source is over and did not fail; 1001 only to a bounded one cut short; 1011
      only when the source failed. */
  lemma CloseCodesAreHonest(p: Setup, run: seq<State>, n: nat)
    requires Good(p) && Behaviour(p, run) && n < |run| && run[n].pc.Gone?
    ensures run[n].pc.code in [STATUS_NORMAL, STATUS_GOING_AWAY, STATUS_INTERNAL_ERROR, STATUS_TOO_FAR_BEHIND]
    ensures run[n].pc.code == STATUS_NORMAL ==>
      if p.req.bounded then run[n].cur.next > p.req.end else run[n].src.finished && !run[n].src.failed
    ensures run[n].pc.code == STATUS_GOING_AWAY ==>
      p.req.bounded && run[n].cur.next <= p.req.end && run[n].src.finished && !run[n].src.failed
    ensures run[n].pc.code == STATUS_INTERNAL_ERROR ==> run[n].src.finished && run[n].src.failed
  {
    Reachable(p, run, n);
    hide Behaviour, Good, SrcInv, CursorOk, AheadOk, ChannelOk, RestOk, TooFarBehindReason;
  }

  // ---------------------------------------------------------- the last sequence

  /** No conversion of next to a uint32 loses anything, nothing numbered 0 is ever
      delivered, and a flow that wrapped to 0 is the run's last, never reaches the ring,
      and ends in failure once it has ended at all. */
  lemma NothingWraps(p: Setup, run: seq<State>, n: nat)
    requires Good(p) && Behaviour(p, run) && n < |run|
    ensures run[n].pc == RingGet || run[n].pc == RingRead ==> run[n].cur.next % U32 == run[n].cur.next
    ensures forall d :: d in run[n].client.out ==> 0 < d.seq_ < run[n].cur.next <= U32
    ensures 0 !in run[n].src.disk
    ensures forall i :: 0 <= i < |run[n].src.flows| && run[n].src.flows[i].seq_ == 0 ==>
      && i == |run[n].src.flows| - 1 && (run[n].src.phase == Emitting || run[n].src.phase == Ended)
      && (run[n].src.finished && run[n].src.flows[i].end.Some? ==> run[n].src.failed)
  {
    Reachable(p, run, n);
    hide Behaviour, Good, Inv, Streaming.Next;
    ClientExact(p, run[n]);
    NoneWrapped(p, run[n]);
    LastIsZero(p.w, run[n].src);
  }

  lemma NoneWrapped(p: Setup, s: State)
    requires Inv(p, s) && ExactYields(p, s)
    ensures SrcInv(p.w, s.src)
    ensures s.pc == RingGet || s.pc == RingRead ==> s.cur.next % U32 == s.cur.next
    ensures forall d :: d in s.client.out ==> 0 < d.seq_ < s.cur.next <= U32
  {
    hide SrcInv, AheadOk, ChannelOk, PcOk, SnapOk;
    forall d | d in s.client.out ensures 0 < d.seq_ < s.cur.next {
      var i :| 0 <= i < |s.client.out| && s.client.out[i] == d;
      assert Exact(p, s, d);
    }
  }

  lemma LastIsZero(w: World, s: Src)
    requires SrcInv(w, s)
    ensures 0 !in s.disk
    ensures forall i :: 0 <= i < |s.flows| && s.flows[i].seq_ == 0 ==>
      && i == |s.flows| - 1 && (s.phase == Emitting || s.phase == Ended)
      && (s.finished && s.flows[i].end.Some? ==> s.failed)
  {
    hide FlowOk;
  }

  /** Once the last representable ledger has been yielded, no server can make the client
      yield anything more. */
  lemma {:induction false} NothingAfterLast(k: Config, input: seq<Read>, more: seq<Read>)
    requires var c := FeedAll(k, input); |c.out| > 0 && c.out[|c.out| - 1].seq_ == MAX_UINT32
    ensures FeedAll(k, input + more).out == FeedAll(k, input).out
  {
    hide *;
    if |more| == 0 {
      assert input + more == input;
    } else {
      var init := more[..|more| - 1];
      NothingAfterLast(k, input, init);
      assert input + more == (input + init) + [more[|more| - 1]];
      OneMoreRead(k, input + init, more[|more| - 1]);
    }
  }

  lemma OneMoreRead(k: Config, input: seq<Read>, r: Read)
    requires var c := FeedAll(k, input); |c.out| > 0 && c.out[|c.out| - 1].seq_ == MAX_UINT32
    ensures FeedAll(k, input + [r]).out == FeedAll(k, input).out
  {
    FeedAllSnoc(k, input, r);
    ClientSound(k, input);
    hide FeedAll, Feed, Faithful, Consecutive, Bounded, WithinCap, Tracked;
    ExhaustedStays(k, FeedAll(k, input), r);
  }

  lemma ExhaustedStays(k: Config, c: Client, r: Read)
    requires Tracked(k.range, c.track, c.out) && |c.out| > 0 && c.out[|c.out| - 1].seq_ == MAX_UINT32
    requires c.status == Open && c.asm.active ==> c.track.Accepts(c.asm.seq_)
    ensures Feed(k, c, r).out == c.out
  {
    hide Decode, Admits, FeedClose, ExpandBounded;
  }
}
