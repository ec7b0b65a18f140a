/** The subscriber cursor (internal/server/server.go: serve, anchorTip, endedClose,
    writeStamplessFlow, writeRingFlow). One pass of serve's loop is a Turn: from a
    snapshot of the flow, what to write and where that leaves the cursor. */
module Serve {
  import opened Prelude
  import opened Wire
  import opened Chunks
  import opened Decimal
  import opened Source

  /** A parsed subscription. */
  datatype Request = Request(start: uint32, end: uint32, bounded: bool)

  /** parseStreamRequest on the two query values, "" when absent. */
  function ParseStreamRequest(start: string, end: string): Option<Request> {
    var s := if start == "" then Some(0) else ParseUint32(start);
    var e := if end == "" then Some(0) else ParseUint32(end);
    if s.None? || e.None? then None
    else if end != "" && e.value == 0 then None
    else if s.value == MAX_UINT32 || e.value == MAX_UINT32 then None
    else if end != "" && s.value > e.value then None
    else Some(Request(s.value, e.value, end != ""))
  }

  /** The requests parseStreamRequest lets through. */
  predicate Streamable(req: Request) {
    && req.start != MAX_UINT32 && req.end != MAX_UINT32
    && (if req.bounded then 0 < req.end && req.start <= req.end else req.end == 0)
  }

  /** What watch returns: the flow (by identity id, with its content so far) and
      whether the stream is final. */
  datatype Snapshot = Snapshot(id: nat, flow: Option<Flow>, finished: bool) {
    function Seq(): uint32 {
      if flow.None? then 0 else flow.value.seq_
    }

    predicate Complete() {
      flow.Some? && flow.value.end.Some?
    }
  }

  /** live: the flow the subscriber is inside, and how many chunks it was sent. */
  datatype Live = Live(id: nat, sent: nat)

  /** next is the sequence the subscriber expects, 0 while a tip subscription is
      not anchored. It is not a uint32: past the last sequence it does not wrap. */
  datatype Cursor = Cursor(next: nat, live: Option<Live>)

  datatype Action =
    | Send(msgs: seq<bytes>)
    | LookInRing
    | Rest
    | Shut(code: int, reason: string)
    | Abort

  function AnchorTip(snap: Snapshot): nat {
    if snap.Seq() == 0 then 0
    else if snap.Complete() then snap.Seq() + 1
    else snap.Seq()
  }

  /** writeStamplessFlow: the finished flow with both stamps zero. */
  function StamplessFlow(f: Flow, end: bytes): Option<seq<bytes>> {
    match Decode(end)
    case Err(_) => None
    case Ok(End(_, count, total, _, checksum)) =>
      Some([AppendBegin([], f.seq_, 0)] + f.chunks + [AppendEnd([], f.seq_, count, total, 0, checksum)])
    case Ok(_) =>
      Some([AppendBegin([], f.seq_, 0)] + f.chunks + [AppendEnd([], f.seq_, 0, 0, 0, 0)])
  }

  /** raw cut into pieces of at most n bytes. */
  function Split(raw: bytes, n: nat): seq<bytes>
    requires n > 0
  {
    if |raw| == 0 then [] else if |raw| <= n then [raw] else [raw[..n]] + Split(raw[n..], n)
  }

  function Frame(w: World, s: uint32, pieces: seq<bytes>): (msgs: seq<bytes>)
    ensures |msgs| == |pieces|
    ensures forall i :: 0 <= i < |pieces| ==> msgs[i] == EncodeChunk(w.z, w.ringCompress, s, i % U32, pieces[i])
  {
    seq(|pieces|, i requires 0 <= i < |pieces| => EncodeChunk(w.z, w.ringCompress, s, i % U32, pieces[i]))
  }

  /** writeRingFlow: one retained ledger as a flow with both stamps zero. */
  function RingFlow(w: World, s: uint32, raw: bytes): seq<bytes>
    requires w.chunkSize > 0
  {
    var pieces := Split(raw, w.chunkSize);
    [AppendBegin([], s, 0)] + Frame(w, s, pieces)
    + [AppendEnd([], s, |pieces| % U32, |raw| % U64, 0, w.z.hash(raw))]
  }

  function EndedClose(req: Request, next: nat): (int, string) {
    if req.bounded && next <= req.end then (STATUS_GOING_AWAY, "source ended before range complete")
    else (STATUS_NORMAL, "source ended")
  }

  /** How the subscription ends when there is nothing to send and nothing to come. */
  function FinalClose(req: Request, next: nat, failed: bool): (int, string) {
    if failed then (STATUS_INTERNAL_ERROR, "source failed") else EndedClose(req, next)
  }

  /** The branch taken when the cursor is exactly at the flow. */
  function AtFlow(cur: Cursor, id: nat, f: Flow): (Cursor, Action) {
    if cur.live.None? && f.end.Some? then
      match StamplessFlow(f, f.end.value)
      case None => (cur, Abort)
      case Some(msgs) => (Cursor(cur.next + 1, None), Send(msgs))
    else
      var entering := cur.live.None? || cur.live.value.id != id;
      var sent := if entering then 0 else cur.live.value.sent;
      var body := (if entering then [f.BeginMsg()] else []) + f.chunks[Min(sent, |f.chunks|)..];
      if f.end.Some? then (Cursor(cur.next + 1, None), Send(body + [f.end.value]))
      else if |body| > 0 then (Cursor(cur.next, Some(Live(id, Max(sent, |f.chunks|)))), Send(body))
      else (cur, Rest)
  }

  /** The branch taken when the flow has moved past the cursor, or has not begun.
      pinned is the content of the flow the subscriber is inside, if it is. */
  function BehindFlow(cur: Cursor, pinned: Flow): (Cursor, Action) {
    if cur.live.Some? && cur.live.value.sent == |pinned.chunks| && pinned.end.Some? then
      (Cursor(cur.next + 1, None), Send([pinned.end.value]))
    else
      (cur.(live := None), LookInRing)
  }

  function Turn(req: Request, cur: Cursor, snap: Snapshot, pinned: Flow): (Cursor, Action) {
    var here := if cur.next == 0 then cur.(next := snap.Seq()) else cur;
    if here.next != 0 && req.bounded && here.next > req.end then (here, Shut(STATUS_NORMAL, ""))
    else if here.next != 0 && snap.flow.Some? && here.next == snap.Seq() then AtFlow(here, snap.id, snap.flow.value)
    else if here.next != 0 && (here.next < snap.Seq() || snap.Seq() == 0) then BehindFlow(here, pinned)
    else (here, Rest)
  }

  // ----------------------------------------------------------- the loop itself

  datatype RingReply = NotYet | Found(raw: bytes) | TooFar(oldest: uint32, latest: uint32) | ReadFailed

  /** All one pass of the loop observes of the rest of the server. */
  datatype Observation = Observation(snap: Snapshot, pinned: Flow, ring: RingReply, failed: bool)

  datatype Verdict = Running | ClosedWith(code: int, reason: string) | Dropped

  datatype Session = Session(cur: Cursor, written: seq<bytes>, verdict: Verdict)

  function RestOf(req: Request, s: Session, cur: Cursor, o: Observation): Session {
    if o.snap.finished then
      var (code, reason) := FinalClose(req, cur.next, o.failed);
      s.(cur := cur, verdict := ClosedWith(code, reason))
    else s.(cur := cur)
  }

  function Observe(w: World, req: Request, s: Session, o: Observation): Session
    requires w.chunkSize > 0
  {
    if s.verdict != Running then s
    else
      var (cur, action) := Turn(req, s.cur, o.snap, o.pinned);
      match action
      case Send(msgs) => s.(cur := cur, written := s.written + msgs)
      case Shut(code, reason) => s.(cur := cur, verdict := ClosedWith(code, reason))
      case Abort => s.(cur := cur, verdict := Dropped)
      case Rest => RestOf(req, s, cur, o)
      case LookInRing =>
        match o.ring
        case ReadFailed => s.(cur := cur, verdict := Dropped)
        case TooFar(oldest, latest) =>
          s.(cur := cur, verdict := ClosedWith(STATUS_TOO_FAR_BEHIND, TooFarBehindReason(oldest, latest)))
        case NotYet => RestOf(req, s, cur, o)
        case Found(raw) =>
          s.(cur := cur.(next := cur.next + 1), written := s.written + RingFlow(w, cur.next % U32, raw))
  }

  function Follow(w: World, req: Request, start: Cursor, obs: seq<Observation>): Session
    requires w.chunkSize > 0
  {
    if |obs| == 0 then Session(start, [], Running)
    else Observe(w, req, Follow(w, req, start, obs[..|obs| - 1]), obs[|obs| - 1])
  }

  lemma {:induction false} FollowSettled(w: World, req: Request, start: Cursor, obs: seq<Observation>, i: nat)
    requires w.chunkSize > 0 && i <= |obs|
    requires i < |obs| ==> Follow(w, req, start, obs[..i]).verdict != Running
    ensures Follow(w, req, start, obs) == Follow(w, req, start, obs[..i])
  {
    if i < |obs| {
      var init := obs[..|obs| - 1];
      assert init[..i] == obs[..i];
      FollowSettled(w, req, start, init, i);
    } else {
      assert obs[..i] == obs;
    }
  }

  lemma {:induction false} SplitAt(raw: bytes, n: nat, off: nat)
    requires n > 0 && off < |raw|
    ensures Split(raw[off..], n) == [raw[off..Min(off + n, |raw|)]] + Split(raw[Min(off + n, |raw|)..], n)
  {
    var rest := raw[off..];
    if |rest| > n {
      assert rest[n..] == raw[off + n..];
      assert rest[..n] == raw[off..off + n];
    } else {
      assert raw[Min(off + n, |raw|)..] == [];
      assert rest == raw[off..|raw|];
      assert Split(rest, n) == [rest];
    }
  }

  lemma SplitNothing(n: nat)
    requires n > 0
    ensures Split([], n) == []
  {
  }

  lemma CutStep(w: World, s: uint32, raw: bytes, off: nat, cut: seq<bytes>)
    requires w.chunkSize > 0 && off < |raw|
    ensures
      var end := Min(off + w.chunkSize, |raw|);
      var piece := raw[off..end];
      && (cut + [piece]) + Split(raw[end..], w.chunkSize) == cut + Split(raw[off..], w.chunkSize)
      && Frame(w, s, cut + [piece]) == Frame(w, s, cut) + [EncodeChunk(w.z, w.ringCompress, s, |cut| % U32, piece)]
  {
    SplitAt(raw, w.chunkSize, off);
    hide EncodeChunk, Split;
  }

  /** writeRingFlow, chunk by chunk over the retained bytes. */
  method WriteRingFlow(w: World, s: uint32, raw: bytes) returns (msgs: seq<bytes>)
    requires w.chunkSize > 0
    ensures msgs == RingFlow(w, s, raw)
  {
    hide EncodeChunk, AppendBegin, AppendEnd, Split, Frame;
    var index: uint32 := 0;
    ghost var cut: seq<bytes> := [];
    msgs := [AppendBegin([], s, 0)];
    var off := 0;
    assert msgs == [AppendBegin([], s, 0)] + Frame(w, s, []);
    assert [] + Split(raw[0..], w.chunkSize) == Split(raw, w.chunkSize) by {
      assert raw[0..] == raw;
    }
    while off < |raw|
      invariant 0 <= off <= |raw|
      invariant index == |cut| % U32
      invariant cut + Split(raw[off..], w.chunkSize) == Split(raw, w.chunkSize)
      invariant msgs == [AppendBegin([], s, 0)] + Frame(w, s, cut)
    {
      var end := Min(off + w.chunkSize, |raw|);
      CutStep(w, s, raw, off, cut);
      msgs := msgs + [EncodeChunk(w.z, w.ringCompress, s, index, raw[off..end])];
      cut := cut + [raw[off..end]];
      index := Succ32(index);
      off := end;
    }
    assert cut == Split(raw, w.chunkSize) by {
      SplitNothing(w.chunkSize);
      assert raw[off..] == [];
    }
    msgs := msgs + [AppendEnd([], s, index, |raw| % U64, 0, w.z.hash(raw))];
  }

  /** The chunks of a snapshot beyond the first sent, written one at a time. */
  method WriteChunks(written: seq<bytes>, chunks: seq<bytes>, sent: nat) returns (out: seq<bytes>, now: nat)
    ensures out == written + chunks[Min(sent, |chunks|)..]
    ensures now == Max(sent, |chunks|)
  {
    out, now := written, sent;
    assert out == written + chunks[Min(sent, |chunks|)..Min(sent, |chunks|)];
    while now < |chunks|
      invariant sent <= now <= Max(sent, |chunks|)
      invariant out == written + chunks[Min(sent, |chunks|)..Min(now, |chunks|)]
    {
      out := out + [chunks[now]];
      now := now + 1;
    }
  }

  /** serve, as one loop over what its successive passes observe. */
  method ServeLoop(w: World, req: Request, start: Cursor, obs: seq<Observation>)
    returns (next: nat, live: Option<Live>, written: seq<bytes>, verdict: Verdict)
    requires w.chunkSize > 0
    ensures Session(Cursor(next, live), written, verdict) == Follow(w, req, start, obs)
  {
    next, live, written, verdict := start.next, start.live, [], Running;
    var i := 0;
    assert obs[..0] == [];
    assert Follow(w, req, start, obs[..0]) == Session(start, [], Running);
    hide Follow, Observe;
    while i < |obs| && verdict == Running
      invariant 0 <= i <= |obs|
      invariant Follow(w, req, start, obs[..i]) == Session(Cursor(next, live), written, verdict)
    {
      FollowSnoc(w, req, start, obs, i);
      next, live, written, verdict := Pass(w, req, next, live, written, obs[i]);
      i := i + 1;
    }
    FollowSettled(w, req, start, obs, i);
    assert obs[..|obs|] == obs;
  }

  /** One pass of serve's loop. */
  method Pass(w: World, req: Request, next0: nat, live0: Option<Live>, before: seq<bytes>, o: Observation)
    returns (next: nat, live: Option<Live>, written: seq<bytes>, verdict: Verdict)
    requires w.chunkSize > 0
    ensures Session(Cursor(next, live), written, verdict)
         == Observe(w, req, Session(Cursor(next0, live0), before, Running), o)
  {
    hide RingFlow, StamplessFlow, AppendBegin, TooFarBehindReason;
    next, live, written, verdict := next0, live0, before, Running;
    var rest := false;
    if next == 0 {
      next := o.snap.Seq();
    }
    if next != 0 && req.bounded && next > req.end {
      verdict := ClosedWith(STATUS_NORMAL, "");
      return;
    }
    if next != 0 && o.snap.flow.Some? && next == o.snap.Seq() {
      next, live, written, verdict, rest := FollowFlow(Cursor(next, live), o.snap.id, o.snap.flow.value, written);
    } else if next != 0 && (next < o.snap.Seq() || o.snap.Seq() == 0) {
      if live.Some? && live.value.sent == |o.pinned.chunks| && o.pinned.end.Some? {
        written := written + [o.pinned.end.value];
        live := None;
        next := next + 1;
        return;
      }
      live := None;
      match o.ring
      case ReadFailed => verdict := Dropped;
      case TooFar(oldest, latest) =>
        verdict := ClosedWith(STATUS_TOO_FAR_BEHIND, TooFarBehindReason(oldest, latest));
      case Found(raw) =>
        var msgs := WriteRingFlow(w, next % U32, raw);
        written := written + msgs;
        next := next + 1;
      case NotYet => rest := true;
    } else {
      rest := true;
    }
    if rest && o.snap.finished {
      var end := FinalClose(req, next, o.failed);
      verdict := ClosedWith(end.0, end.1);
    }
  }

  lemma FollowSnoc(w: World, req: Request, start: Cursor, obs: seq<Observation>, i: nat)
    requires w.chunkSize > 0 && i < |obs|
    ensures Follow(w, req, start, obs[..i + 1]) == Observe(w, req, Follow(w, req, start, obs[..i]), obs[i])
  {
    assert obs[..i + 1][..i] == obs[..i];
  }

  /** serve at the flow: a finished flow it was never inside goes out stampless,
      any other is entered if need be and written up to its snapshot. */
  method FollowFlow(cur: Cursor, id: nat, f: Flow, before: seq<bytes>)
    returns (next: nat, live: Option<Live>, written: seq<bytes>, verdict: Verdict, rest: bool)
    ensures
      var (c, action) := AtFlow(cur, id, f);
      && Cursor(next, live) == c
      && verdict == (if action.Abort? then Dropped else Running)
      && rest == action.Rest?
      && written == (if action.Send? then before + action.msgs else before)
  {
    hide StamplessFlow, AppendBegin;
    next, live, written, verdict, rest := cur.next, cur.live, before, Running, false;
    if live.None? && f.end.Some? {
      var msgs := StamplessFlow(f, f.end.value);
      if msgs.None? {
        verdict := Dropped;
        return;
      }
      written := written + msgs.value;
      next := next + 1;
      return;
    }
    var wrote := false;
    if live.None? || live.value.id != id {
      written := written + [f.BeginMsg()];
      live := Some(Live(id, 0));
      wrote := true;
    }
    ghost var entered := written;
    var now: nat;
    ghost var sent := live.value.sent;
    written, now := WriteChunks(written, f.chunks, live.value.sent);
    wrote := wrote || now != live.value.sent;
    live := Some(Live(id, now));
    if f.end.Some? {
      written := written + [f.end.value];
      live := None;
      next := next + 1;
      return;
    }
    rest := !wrote;
  }
}
