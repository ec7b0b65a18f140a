/** The watch over the in-flight flow (internal/server/broadcast.go). Its panics are
    preconditions here, and so is closing a channel twice: whoever calls these
    methods has to prove that none of them happens. */
module Broadcast {
  import opened Prelude
  import opened Source

  /** A channel used only to be closed: closing it again would panic. */
  class Signal {
    var closed: bool

    constructor ()
      ensures !closed
    {
      closed := false;
    }

    method Close()
      requires !closed
      modifies this
      ensures closed
    {
      closed := true;
    }
  }

  /** flow: seq and begin are fixed, chunks is append-only, end is written once. */
  class FlowCell {
    const seq_: uint32
    const begin: bytes
    var chunks: seq<bytes>
    var end: Option<bytes>

    constructor (seq_: uint32, begin: bytes)
      ensures this.seq_ == seq_ && this.begin == begin && chunks == [] && end == None
    {
      this.seq_, this.begin := seq_, begin;
      chunks, end := [], None;
    }

    ghost predicate Is(f: Flow)
      reads this
    {
      seq_ == f.seq_ && begin == f.BeginMsg() && chunks == f.chunks && end == f.end
    }
  }

  /** flowSnap: the shared flow, with the chunks and end it had at watch time. */
  datatype FlowSnap = FlowSnap(f: FlowCell?, chunks: seq<bytes>, end: Option<bytes>) {
    ghost predicate Shows(flow: Flow) {
      f != null && f.seq_ == flow.seq_ && f.begin == flow.BeginMsg() && chunks == flow.chunks && end == flow.end
    }
  }

  /** cells are the flows ever begun, the current one last, and flows what each holds;
      channels are the notify channels in the order they were handed out. */
  class Broadcaster {
    var cur: FlowCell?
    var notify: Signal
    var ended: bool
    var failed: bool
    ghost var cells: seq<FlowCell>
    ghost var flows: seq<Flow>
    ghost var channels: seq<Signal>

    /** How often watchers have been woken by a publish. */
    ghost function Gen(): nat
      reads this
    {
      if |channels| == 0 then 0 else |channels| - 1
    }

    ghost predicate FlowsOk()
      reads this, cells
    {
      && |cells| == |flows|
      && (forall i :: 0 <= i < |cells| ==> cells[i].Is(flows[i]))
      && (forall i, j :: 0 <= i < j < |cells| ==> cells[i] != cells[j])
      && (if |cells| == 0 then cur == null else cur == cells[|cells| - 1])
    }

    /** Every channel but the current one has been closed, and that one only by finish. */
    ghost predicate ChannelsOk()
      reads this, channels
    {
      && |channels| > 0 && notify == channels[Gen()]
      && (forall i :: 0 <= i < |channels| ==> channels[i].closed == (i < Gen() || ended))
      && (forall i, j :: 0 <= i < j < |channels| ==> channels[i] != channels[j])
    }

    ghost predicate Valid()
      reads this, cells, channels
    {
      FlowsOk() && ChannelsOk() && (failed ==> ended) && Gen() == Published(flows)
    }

    /** A flow is being emitted. */
    predicate Open()
      reads this, cur
    {
      cur != null && cur.end.None?
    }

    constructor ()
      ensures Valid() && flows == [] && Gen() == 0 && !ended && !failed
      ensures fresh(notify) && cur == null
    {
      var first := new Signal();
      cur, notify, ended, failed := null, first, false, false;
      cells, flows, channels := [], [], [first];
    }

    method Begin(s: uint32, ghost start: int64, begin: bytes)
      requires Valid() && !ended && !Open()
      requires begin == Flow(s, start, [], None).BeginMsg()
      modifies this, notify
      ensures Valid() && !ended && !failed && fresh(notify) && fresh(cur)
      ensures flows == old(flows) + [Flow(s, start, [], None)]
      ensures channels == old(channels) + [notify] && Gen() == old(Gen()) + 1
    {
      hide Published;
      var cell := new FlowCell(s, begin);
      cur := cell;
      PublishedSnoc(flows, Flow(s, start, [], None));
      cells, flows := cells + [cell], flows + [Flow(s, start, [], None)];
      WakeLocked();
    }

    method Chunk(msg: bytes)
      requires Valid() && !ended && Open()
      modifies this, notify, cur
      ensures Valid() && !ended && !failed && fresh(notify) && cur == old(cur)
      ensures channels == old(channels) + [notify] && Gen() == old(Gen()) + 1
      ensures |old(flows)| > 0 && flows == Appended(old(flows), msg)
    {
      hide Published;
      cur.chunks := cur.chunks + [msg];
      Grown(flows[|flows| - 1].(chunks := cur.chunks));
      WakeLocked();
    }

    method End(msg: bytes)
      requires Valid() && !ended && Open()
      modifies this, notify, cur
      ensures Valid() && !ended && !failed && fresh(notify) && cur == old(cur)
      ensures channels == old(channels) + [notify] && Gen() == old(Gen()) + 1
      ensures |old(flows)| > 0 && flows == Closed(old(flows), msg)
    {
      hide Published;
      cur.end := Some(msg);
      Grown(flows[|flows| - 1].(end := Some(msg)));
      WakeLocked();
    }

    /** The current cell holds a message more. */
    ghost method Grown(f: Flow)
      requires |cells| == |flows| > 0 && cur == cells[|cells| - 1] && ChannelsOk() && Gen() == Published(flows)
      requires cur.Is(f) && Messages(f) == Messages(flows[|flows| - 1]) + 1
      requires forall i :: 0 <= i < |cells| - 1 ==> cells[i].Is(flows[i])
      requires forall i, j :: 0 <= i < j < |cells| ==> cells[i] != cells[j]
      modifies this`flows
      ensures FlowsOk() && ChannelsOk() && Gen() + 1 == Published(flows)
      ensures flows == old(flows)[|old(flows)| - 1 := f]
    {
      hide Published, Messages, FlowCell.Is;
      PublishedLast(flows, f);
      flows := flows[|flows| - 1 := f];
    }

    /** Only the first finish counts, and only it closes the last channel. */
    method Finish(srcErr: bool)
      requires Valid()
      modifies this, notify
      ensures Valid() && ended && flows == old(flows) && channels == old(channels) && Gen() == old(Gen())
      ensures notify == old(notify) && cur == old(cur)
      ensures failed == (if old(ended) then old(failed) else srcErr)
    {
      if !ended {
        ended, failed := true, srcErr;
        notify.Close();
      }
    }

    method WakeLocked()
      requires FlowsOk() && ChannelsOk() && !ended && !failed && Gen() + 1 == Published(flows)
      modifies this`notify, this`channels, notify
      ensures Valid() && fresh(notify) && channels == old(channels) + [notify] && Gen() == old(Gen()) + 1
    {
      hide FlowCell.Is;
      notify.Close();
      notify := new Signal();
      channels := channels + [notify];
    }

    /** One consistent look at the current flow. The channel is open exactly as long as
        nothing has been published since and the stream is not final: whoever sleeps
        on it open has seen everything there is. */
    method Watch() returns (snap: FlowSnap, ch: Signal, final: bool)
      requires Valid()
      ensures snap.f == cur && final == ended == ch.closed && ch == notify == channels[Gen()]
      ensures |flows| == 0 <==> snap.f == null
      ensures |flows| > 0 ==> snap.f == cells[|flows| - 1] && snap.Shows(flows[|flows| - 1])
    {
      snap := FlowSnap(null, [], None);
      if cur != null {
        snap := FlowSnap(cur, cur.chunks, cur.end);
      }
      ch, final := notify, ended;
    }

    /** What watch handed out earlier still tells how far the broadcaster has got: asleep
        on a channel that is open, a watcher that saw was has missed no message. */
    lemma ChannelTells(gen: nat, was: seq<Flow>)
      requires Valid() && gen <= Gen() && gen == Published(was) && Grew(was, flows)
      ensures channels[gen].closed <==> flows != was || ended
    {
      hide Published, Grew;
      if gen == Gen() {
        SameWhenLevel(was, flows);
      }
    }
  }

  /** How many messages make up these flows. */
  function Published(flows: seq<Flow>): nat {
    if |flows| == 0 then 0 else Published(flows[..|flows| - 1]) + Messages(flows[|flows| - 1])
  }

  function Messages(f: Flow): nat {
    1 + |f.chunks| + if f.end.Some? then 1 else 0
  }

  predicate Grew(was: seq<Flow>, now: seq<Flow>) {
    |was| <= |now| && forall i :: 0 <= i < |was| ==> Earlier(was[i], now[i])
  }

  lemma PublishedSnoc(flows: seq<Flow>, f: Flow)
    ensures Published(flows + [f]) == Published(flows) + Messages(f)
  {
    assert (flows + [f])[..|flows|] == flows;
  }

  lemma PublishedLast(flows: seq<Flow>, f: Flow)
    requires |flows| > 0 && Messages(f) == Messages(flows[|flows| - 1]) + 1
    ensures Published(flows[|flows| - 1 := f]) == Published(flows) + 1
  {
    assert flows[|flows| - 1 := f][..|flows| - 1] == flows[..|flows| - 1];
  }

  lemma SameFlow(was: Flow, now: Flow)
    requires Earlier(was, now)
    ensures Messages(was) <= Messages(now)
    ensures Messages(was) == Messages(now) ==> was == now
  {
    if Messages(was) == Messages(now) {
      assert was.chunks == now.chunks[..|was.chunks|];
    }
  }

  /** Flows that have grown without a message more have not grown. */
  lemma {:induction false} SameWhenLevel(was: seq<Flow>, now: seq<Flow>)
    requires Grew(was, now)
    ensures Published(was) <= Published(now)
    ensures Published(was) == Published(now) ==> was == now
  {
    if |now| > |was| {
      SameWhenLevel(was, now[..|now| - 1]);
    } else if |was| > 0 {
      var n := |was| - 1;
      SameWhenLevel(was[..n], now[..n]);
      SameFlow(was[n], now[n]);
      assert was == was[..n] + [was[n]] && now == now[..n] + [now[n]];
    }
  }

  function Appended(flows: seq<Flow>, msg: bytes): seq<Flow>
    requires |flows| > 0
  {
    var f := flows[|flows| - 1];
    flows[|flows| - 1 := f.(chunks := f.chunks + [msg])]
  }

  function Closed(flows: seq<Flow>, msg: bytes): seq<Flow>
    requires |flows| > 0
  {
    flows[|flows| - 1 := flows[|flows| - 1].(end := Some(msg))]
  }
}
