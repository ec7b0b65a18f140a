/** The delivery protocol as one transition system: the source side, one
    subscriber's cursor, the connection as a FIFO of messages, and the client.
    Every interleaving of their steps is a behaviour. */
module Streaming {
  import opened Prelude
  import opened Wire
  import opened Chunks
  import opened Decimal
  import opened Source
  import opened Serve
  import opened Client
  import opened Feeding

  datatype Setup = Setup(w: World, k: Config, req: Request)

  /** One lawful server, and one client of it whose limits admit what it sends. */
  ghost predicate Good(p: Setup) {
    && GoodWorld(p.w) && Compatible(p.w, p.k) && p.k.z == p.w.z
    && Streamable(p.req) && p.k.range == Range(p.req.start, p.req.end, p.req.bounded)
  }

  /** Where serve is. readRing is four separate looks at the store: Bounds, the
      bounds check inside Get, the file read, and Bounds again for the reason. lost is
      what a broken connection leaves unwritten. */
  datatype Pc =
    | Anchoring
    | Watching
    | Sending(queue: seq<bytes>)
    | RingBounds
    | RingGet
    | RingRead
    | RingReason
    | Resting
    | Asleep
    | Gone(code: int, reason: string)
    | Broke(lost: seq<bytes>)

  /** snap and gen are what the last watch returned; sent is every message written
      to the connection, got how many the client has read; fate is the read that
      ended the connection for the client, if one did. abandoned are the ledgers
      counted by liveAbandons, entered those whose flow the cursor was at before their END.
      anchor is where the subscription was to begin: its start,
      or the place the tip had when the cursor took it, 0 until then. */
  datatype State = State(
    src: Src,
    cur: Cursor,
    pc: Pc,
    snap: Snapshot,
    gen: nat,
    abandoned: set<nat>,
    entered: set<nat>,
    sent: seq<bytes>,
    got: nat,
    fate: Option<Read>,
    client: Client,
    anchor: nat)

  const NO_FLOW := Flow(0, 0, [], None)

  function Watch(s: Src): Snapshot {
    if |s.flows| == 0 then Snapshot(0, None, s.finished)
    else Snapshot(|s.flows| - 1, Some(Current(s)), s.finished)
  }

  function Pinned(s: Src, cur: Cursor): Flow {
    if cur.live.Some? && cur.live.value.id < |s.flows| then s.flows[cur.live.value.id] else NO_FLOW
  }

  /** Where a subscription without a start is to begin, told by the source alone: at the
      ledger being emitted, or past the newest one when that is complete. */
  function TipOnConnect(s: Src): nat {
    if Prev(s) == 0 then 0 else if Current(s).end.Some? then Prev(s) + 1 else Prev(s)
  }

  /** And while nothing had been emitted yet: at the newest ledger there is at the next
      look. */
  function TipAtLook(s: Src): nat {
    Prev(s)
  }

  function After(action: Action): Pc {
    match action
    case Send(msgs) => Sending(msgs)
    case LookInRing => RingBounds
    case Rest => Resting
    case Shut(code, reason) => Gone(code, reason)
    case Abort => Broke([])
  }

  // ---------------------------------------------------------------------- steps

  ghost predicate Init(p: Setup, s: State) {
    && SrcInit(p.w, s.src)
    && s.cur == Cursor(p.req.start, None)
    && s.pc == (if p.req.start == 0 then Anchoring else Watching)
    && s.snap == Snapshot(0, None, false) && s.gen == 0
    && s.abandoned == {} && s.entered == {} && s.sent == [] && s.got == 0 && s.fate == None
    && s.client == NewClient(p.k) && s.anchor == p.req.start
  }

  ghost predicate SourceStep(p: Setup, s: State, t: State) {
    SrcNext(p.w, s.src, t.src) && t == s.(src := t.src)
  }

  predicate AnchorStep(s: State, t: State) {
    && s.pc == Anchoring
    && t == s.(pc := Watching, cur := s.cur.(next := AnchorTip(Watch(s.src))), anchor := TipOnConnect(s.src))
  }

  /** Where the cursor looks from: a tip subscription, from the newest ledger there is. */
  function Place(s: State): nat {
    if s.cur.next == 0 then Watch(s.src).Seq() else s.cur.next
  }

  /** The cursor looks at the very flow it is at, and its END is not out. */
  predicate Enters(req: Request, s: State) {
    && |s.src.flows| > 0 && Current(s.src).end.None?
    && Place(s) == Current(s.src).seq_ != 0 && (req.bounded ==> Place(s) <= req.end)
  }

  predicate WatchStep(p: Setup, s: State, t: State) {
    && s.pc == Watching
    && var snap := Watch(s.src);
    && var (cur, action) := Turn(p.req, s.cur, snap, Pinned(s.src, s.cur));
    && var abandons := action.LookInRing? && s.cur.live.Some?;
    && t == s.(cur := cur, pc := After(action), snap := snap, gen := s.src.gen,
               abandoned := if abandons then s.abandoned + {cur.next} else s.abandoned,
               entered := if Enters(p.req, s) then s.entered + {Place(s)} else s.entered,
               anchor := if s.cur.next == 0 then TipAtLook(s.src) else s.anchor)
  }

  predicate WriteStep(s: State, t: State) {
    && s.pc.Sending?
    && t == (if |s.pc.queue| == 0 then s.(pc := Watching)
             else s.(sent := s.sent + [s.pc.queue[0]], pc := Sending(s.pc.queue[1..])))
  }

  /** Bounds waits for the writer: the store's lock is held throughout Put. */
  predicate Unlocked(s: Src) {
    !s.phase.Storing?
  }

  predicate RingBoundsStep(s: State, t: State) {
    && s.pc == RingBounds && Unlocked(s.src)
    && t == s.(pc := if !s.src.ring.filled || s.cur.next > s.src.ring.latest then Resting else RingGet)
  }

  predicate RingGetStep(s: State, t: State) {
    && s.pc == RingGet && Unlocked(s.src)
    && var r := s.src.ring;
    && var ledger := s.cur.next % U32;
    && t == s.(pc := if !r.filled || ledger < r.oldest || ledger > r.latest then RingReason else RingRead)
  }

  /** The file is read outside the lock, whatever the writer is doing. */
  predicate RingReadStep(p: Setup, s: State, t: State) {
    && s.pc == RingRead && p.w.chunkSize > 0
    && var ledger := s.cur.next % U32;
    && t == (if ledger in s.src.disk then
               s.(pc := Sending(RingFlow(p.w, ledger, s.src.disk[ledger])), cur := s.cur.(next := s.cur.next + 1))
             else s.(pc := RingReason))
  }

  predicate RingReasonStep(s: State, t: State) {
    && s.pc == RingReason && Unlocked(s.src)
    && t == s.(pc := Gone(STATUS_TOO_FAR_BEHIND, TooFarBehindReason(s.src.ring.oldest, s.src.ring.latest)))
  }

  predicate RestStep(p: Setup, s: State, t: State) {
    && s.pc == Resting
    && var end := FinalClose(p.req, s.cur.next, s.src.failed);
    && t == s.(pc := if s.snap.finished then Gone(end.0, end.1) else Asleep)
  }

  /** The channel taken at gen is closed by any later publish, or by finish. */
  predicate WakeStep(s: State, t: State) {
    s.pc == Asleep && (s.gen < s.src.gen || s.src.finished) && t == s.(pc := Watching)
  }

  /** The connection dies under the server: a write error, or the peer leaving. */
  predicate BreakStep(s: State, t: State) {
    !s.pc.Gone? && t == s.(pc := Broke(Queue(s.pc)))
  }

  predicate ReadStep(p: Setup, s: State, t: State) {
    && s.fate == None && s.client.status == Open && s.got < |s.sent|
    && t == s.(got := s.got + 1, client := Feed(p.k, s.client, Message(s.sent[s.got])))
  }

  /** The close frame is read after every message written before it. */
  predicate ReadCloseStep(p: Setup, s: State, t: State) {
    && s.fate == None && s.client.status == Open && s.got == |s.sent| && s.pc.Gone?
    && var r := Closed(s.pc.code, s.pc.reason);
    && t == s.(fate := Some(r), client := Feed(p.k, s.client, r))
  }

  predicate ReadErrorStep(p: Setup, s: State, t: State) {
    && s.fate == None && s.client.status == Open
    && t == s.(fate := Some(Broken), client := Feed(p.k, s.client, Broken))
  }

  /** A step of the cursor, as opposed to the source, the network or the client. */
  ghost predicate CursorStep(p: Setup, s: State, t: State) {
    || AnchorStep(s, t) || WatchStep(p, s, t) || WriteStep(s, t)
    || RingBoundsStep(s, t) || RingGetStep(s, t) || RingReadStep(p, s, t) || RingReasonStep(s, t)
    || RestStep(p, s, t) || WakeStep(s, t)
  }

  ghost predicate ClientStep(p: Setup, s: State, t: State) {
    ReadStep(p, s, t) || ReadCloseStep(p, s, t) || ReadErrorStep(p, s, t)
  }

  ghost predicate Next(p: Setup, s: State, t: State) {
    SourceStep(p, s, t) || CursorStep(p, s, t) || BreakStep(s, t) || ClientStep(p, s, t)
  }

  ghost predicate Behaviour(p: Setup, run: seq<State>) {
    && |run| > 0 && Init(p, run[0])
    && forall i :: 0 <= i < |run| - 1 ==> Next(p, run[i], run[i + 1])
  }

  // ------------------------------------------------------------------ invariants

  function Queue(pc: Pc): seq<bytes> {
    if pc.Sending? then pc.queue else if pc.Broke? then pc.lost else []
  }

  /** The client as it would be having read all the cursor decided to write. */
  function Ahead(p: Setup, s: State): Client {
    FeedFrom(p.k, NewClient(p.k), s.sent + Queue(s.pc))
  }

  predicate SnapOk(s: State) {
    && s.gen <= s.src.gen
    && (s.snap.flow.Some? ==> s.snap.id < |s.src.flows| && Earlier(s.snap.flow.value, s.src.flows[s.snap.id]))
    && (s.gen == s.src.gen ==> s.snap.flow == Watch(s.src).flow && s.snap.id == Watch(s.src).id)
    && (s.snap.finished ==> s.src.finished && s.gen == s.src.gen)
  }

  predicate InRing(pc: Pc) {
    pc == RingBounds || pc == RingGet || pc == RingRead || pc == RingReason
  }

  predicate LiveOk(s: State, l: Live) {
    l.id < |s.src.flows| && s.src.flows[l.id].seq_ == s.cur.next && l.sent <= |s.src.flows[l.id].chunks|
  }

  /** The cursor's own bookkeeping. */
  predicate CursorOk(p: Setup, s: State) {
    && s.cur.next <= U32
    && (s.cur.live.Some? ==>
          && s.cur.next != 0 && LiveOk(s, s.cur.live.value)
          && (p.req.bounded ==> s.cur.next <= p.req.end))
    && (s.pc == Anchoring ==> s.cur == Cursor(0, None))
    && (s.cur.next == 0 ==>
          && p.req.start == 0 && s.sent == [] && Queue(s.pc) == []
          && s.cur.live == None && s.abandoned == {} && s.entered == {})
    && (InRing(s.pc) ==> s.cur.live == None && s.cur.next != 0 && (s.cur.next < s.snap.Seq() || s.snap.Seq() == 0))
    && (InRing(s.pc) && p.req.bounded ==> s.cur.next <= p.req.end)
    && (s.pc == RingGet || s.pc == RingRead ==> s.cur.next < U32)
    && (forall a :: a in s.abandoned ==> a <= s.cur.next)
    && EnteredOk(s)
    && AnchorOk(p, s)
  }

  /** The cursor is inside the flow of its ledger exactly when it has entered it and not
      abandoned it. */
  predicate EnteredOk(s: State) {
    && (forall e :: e in s.entered ==> e <= s.cur.next)
    && (s.cur.live.Some? ==> s.cur.next in s.entered)
    && (s.cur.live.None? && s.cur.next !in s.abandoned ==> s.cur.next !in s.entered)
  }

  /** The anchor is the start that was asked for, or a place at or past the first ledger
      emitted, and is set exactly when the cursor is. */
  predicate AnchorOk(p: Setup, s: State) {
    && (p.req.start != 0 ==> s.anchor == p.req.start)
    && (s.anchor == 0 <==> s.cur.next == 0)
    && (p.req.start == 0 && s.anchor != 0 ==> |s.src.flows| > 0 && s.src.flows[0].seq_ <= s.anchor)
  }

  /** An abandoned ledger is below the flow and at or above the first emitted one. */
  predicate ResidualOk(s: State) {
    && s.snap.flow.Some? && 0 < s.snap.id < |s.src.flows|
    && s.src.flows[0].seq_ <= s.cur.next <= s.src.flows[s.snap.id - 1].seq_
    && (InRing(s.pc) || s.pc.Gone? || s.pc.Broke?)
    && (s.pc.Gone? ==> s.pc.code == STATUS_TOO_FAR_BEHIND)
  }

  predicate TrackOk(p: Setup, c: Client, next: nat) {
    if p.req.start == 0 && c.out == [] then c.track == Tracker(0, false)
    else 0 < next <= U32 && c.track == Tracker(next % U32, next == U32)
  }

  predicate InsideOk(p: Setup, s: State, c: Client, l: Live) {
    && LiveOk(s, l)
    && var f := s.src.flows[l.id];
    && c.asm == Assembly(true, f.seq_, f.start, Joined(p.w.z, f.chunks[..l.sent]), l.sent % U32, 0)
  }

  /** What the client holds matches where the cursor is. */
  predicate Synced(p: Setup, s: State, c: Client) {
    && TrackOk(p, c, s.cur.next)
    && (s.cur.live.Some? ==> InsideOk(p, s, c, s.cur.live.value) && s.cur.next !in s.abandoned)
    && (s.cur.live.None? && c.asm.active ==> c.asm.seq_ == s.cur.next && ResidualOk(s) && s.cur.next in s.abandoned)
    && (s.cur.live.None? && !c.asm.active ==> s.cur.next !in s.abandoned)
    && c.asm.discarded == 0
  }

  /** The source's own stamps, for a ledger whose flow the cursor entered before its END
      and was not made to abandon; zeros for every other. */
  predicate Stamped(p: Setup, s: State, d: Delivery) {
    if d.seq_ in s.entered && d.seq_ !in s.abandoned then
      d.emitStart == p.w.began(d.seq_) && d.emitEnd == p.w.ended(d.seq_)
    else
      d.emitStart == 0 && d.emitEnd == 0
  }

  ghost predicate Exact(p: Setup, s: State, d: Delivery) {
    && 0 < d.seq_ < s.cur.next
    && (p.req.bounded ==> d.seq_ <= p.req.end)
    && d.payload == p.w.history(d.seq_)
    && d.discarded == (if d.seq_ in s.abandoned then 1 else 0)
    && Stamped(p, s, d)
  }

  /** Consecutive from the anchor, and the cursor right behind them. */
  predicate Gapless(anchor: nat, next: nat, c: Client) {
    && (forall i :: 0 <= i < |c.out| ==> c.out[i].seq_ == anchor + i)
    && (c.status == Open ==> next == anchor + |c.out|)
  }

  ghost predicate AheadOk(p: Setup, s: State) {
    var c := Ahead(p, s);
    && (c.status == Open || c.status == Stopped || c.status == RangeComplete)
    && (forall d :: d in c.out ==> Exact(p, s, d))
    && Gapless(s.anchor, s.cur.next, c)
    && (c.status == Open ==> Synced(p, s, c))
  }

  /** There was nothing to send: the cursor is ahead of the flow, or inside it and
      level with it, or unanchored before the first ledger, or below anything the
      source has emitted with nothing in the ring for it. */
  predicate RestOk(s: State) {
    var next := s.cur.next;
    || (next == 0 && s.snap.Seq() == 0)
    || (next != 0 && next == s.snap.Seq() && s.snap.flow.value.end.None?
          && s.cur.live == Some(Live(s.snap.id, |s.snap.flow.value.chunks|)))
    || (next != 0 && next > s.snap.Seq() && s.snap.Seq() != 0)
    || (next != 0 && s.snap.flow.None?)
    || (next != 0 && s.snap.id == 0 && (next < s.snap.Seq() || s.snap.Seq() == 0))
    || (next != 0 && 0 < s.snap.id < |s.src.flows| && s.snap.Seq() == 0 && next > s.src.flows[s.snap.id - 1].seq_)
  }

  ghost predicate GoneOk(p: Setup, s: State)
    requires s.pc.Gone?
  {
    || (s.pc.code == STATUS_NORMAL && p.req.bounded && s.cur.next > p.req.end && s.cur.live == None)
    || (s.snap.finished && RestOk(s) && (s.pc.code, s.pc.reason) == FinalClose(p.req, s.cur.next, s.src.failed))
    || (exists oldest: uint32, latest: uint32 ::
          s.pc.code == STATUS_TOO_FAR_BEHIND && s.pc.reason == TooFarBehindReason(oldest, latest))
  }

  ghost predicate PcOk(p: Setup, s: State) {
    && (s.pc == Resting || s.pc == Asleep ==> RestOk(s))
    && (s.pc == Asleep ==> !s.snap.finished)
    && (s.pc.Gone? ==> GoneOk(p, s))
  }

  /** The client is the fold of what it has read. */
  predicate ChannelOk(p: Setup, s: State) {
    && s.got <= |s.sent|
    && var read := FeedFrom(p.k, NewClient(p.k), s.sent[..s.got]);
    && match s.fate
       case None => s.client == read
       case Some(r) =>
         && s.client == Feed(p.k, read, r)
         && (r == Broken || (s.got == |s.sent| && s.pc.Gone? && r == Closed(s.pc.code, s.pc.reason)))
  }

  ghost predicate Inv(p: Setup, s: State) {
    && SrcInv(p.w, s.src)
    && SnapOk(s)
    && CursorOk(p, s)
    && AheadOk(p, s)
    && PcOk(p, s)
    && ChannelOk(p, s)
  }
}
