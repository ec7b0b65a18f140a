/** The reassembling client (remoteledger/stream.go, remoteledger/decompress.go):
    what it does with each message it reads, as a state that every read feeds. */
module Client {
  import opened Prelude
  import opened Wire
  import opened Chunks
  import opened Decimal

  /** A requested ledger range; from is 0 for "the next live ledger". */
  datatype Range = Range(from: uint32, to: uint32, bounded: bool)

  /** WithMaxMessageSize and WithMaxChunkSize. */
  datatype Limits = Limits(maxPayload: int64, maxChunk: int64)

  /** more(i) is whether the consumer keeps pulling after the i-th ledger. */
  datatype Config = Config(z: Codec, range: Range, limits: Limits, more: nat -> bool)

  /** What one read of the connection produces. */
  datatype Read = Message(msg: bytes) | NonBinary | Closed(code: int, reason: string) | Broken

  datatype Failure =
    | Protocol | Gap | Truncated | Transport
    | TooFarBehind(requested: uint32, bounds: Option<(uint32, uint32)>)

  /** One yielded ledger with the metadata the observer sees. */
  datatype Delivery = Delivery(
    seq_: uint32, payload: bytes, emitStart: int64, emitEnd: int64, chunks: uint32, discarded: nat)

  datatype Assembly = Assembly(active: bool, seq_: uint32, emitStart: int64, buf: bytes, chunks: uint32, discarded: nat)

  datatype Status = Open | Stopped | RangeComplete | CleanClose | Failed(failure: Failure)

  datatype Client = Client(track: Tracker, asm: Assembly, out: seq<Delivery>, status: Status)

  /** seqTracker: continuity of delivered sequences, with the last representable
      one tracked as a state because its successor would wrap to 0. */
  datatype Tracker = Tracker(expected: uint32, exhausted: bool) {
    predicate Accepts(s: uint32) {
      !exhausted && (expected == 0 || s == expected)
    }

    function Advance(s: uint32): Tracker {
      Tracker(Succ32(s), s == MAX_UINT32)
    }
  }

  // ------------------------------------------------------------------- limits

  /** readLimit: -1 is the library's "unlimited", and only a negative cap may
      produce it; every message whose payload is within the cap is admitted. */
  function ReadLimit(maxChunk: int64): (limit: int64)
    ensures limit < 0 <==> maxChunk < 0
    ensures maxChunk >= 0 ==> END_SIZE <= limit < MAX_INT64
    ensures maxChunk > 0 ==> Min(CHUNK_HEADER_SIZE + maxChunk, MAX_INT64 - 1) <= limit
    ensures maxChunk == 0 ==> limit == CHUNK_HEADER_SIZE + MAX_CHUNK_SIZE
    ensures maxChunk > 0 ==> limit <= Max(CHUNK_HEADER_SIZE + maxChunk, END_SIZE)
  {
    if maxChunk < 0 then -1
    else
      var n := if maxChunk == 0 then MAX_CHUNK_SIZE else maxChunk;
      if n > MAX_INT64 - CHUNK_HEADER_SIZE - 1 then MAX_INT64 - 1
      else Max(n + CHUNK_HEADER_SIZE, END_SIZE)
  }

  predicate Admits(limits: Limits, msg: bytes) {
    ReadLimit(limits.maxChunk) < 0 || |msg| <= ReadLimit(limits.maxChunk)
  }

  /** newDecoder's bound on one chunk's expansion. */
  function DecoderBound(maxChunk: int64): (bound: nat)
    ensures bound <= MAX_CHUNK_SIZE && (maxChunk > 0 ==> bound <= maxChunk)
    ensures maxChunk <= 0 || MAX_CHUNK_SIZE <= maxChunk ==> bound == MAX_CHUNK_SIZE
    ensures 0 < maxChunk <= MAX_CHUNK_SIZE ==> bound == maxChunk
  {
    if maxChunk <= 0 || maxChunk > MAX_CHUNK_SIZE then MAX_CHUNK_SIZE else maxChunk
  }

  predicate OverCap(limits: Limits, n: nat) {
    limits.maxPayload >= 0 && n > limits.maxPayload
  }

  // -------------------------------------------------------------- one message

  function NewClient(k: Config): Client {
    Client(Tracker(k.range.from, false), Assembly(false, 0, 0, [], 0, 0), [], Open)
  }

  function Fail(c: Client, f: Failure): Client {
    c.(status := Failed(f))
  }

  /** appendChunkPayload's expansion, with the decoder's memory bound. */
  function ExpandBounded(k: Config, codec: byte, payload: bytes): Option<bytes> {
    var raw := Expand(k.z, codec, payload);
    if codec == CODEC_ZSTD && raw.Some? && |raw.value| > DecoderBound(k.limits.maxChunk) then None else raw
  }

  function FeedBegin(c: Client, s: uint32, emitStart: int64): Client {
    if c.asm.active && s != c.asm.seq_ then Fail(c, Protocol)
    else if !c.asm.active && !c.track.Accepts(s) then Fail(c, Gap)
    else
      var discarded := if c.asm.active then c.asm.discarded + 1 else c.asm.discarded;
      c.(asm := Assembly(true, s, emitStart, [], 0, discarded))
  }

  function FeedChunk(k: Config, c: Client, s: uint32, index: uint32, codec: byte, payload: bytes): Client {
    if !c.asm.active || s != c.asm.seq_ || index != c.asm.chunks then Fail(c, Protocol)
    else
      var raw := ExpandBounded(k, codec, payload);
      if raw.None? then Fail(c, Protocol)
      else
        var buf := c.asm.buf + raw.value;
        var fed := c.(asm := c.asm.(buf := buf));
        if OverCap(k.limits, |buf|) then Fail(fed, Protocol)
        else fed.(asm := fed.asm.(chunks := Succ32(c.asm.chunks)))
  }

  function FeedEnd(k: Config, c: Client, s: uint32, count: uint32, total: uint64, emitEnd: int64,
                   checksum: uint64): Client
  {
    if !c.asm.active || s != c.asm.seq_ then Fail(c, Protocol)
    else if count != c.asm.chunks || total != |c.asm.buf| || checksum != k.z.hash(c.asm.buf) then Fail(c, Protocol)
    else
      var d := Delivery(s, c.asm.buf, c.asm.emitStart, emitEnd, c.asm.chunks, c.asm.discarded);
      var status :=
        if !k.more(|c.out|) then Stopped
        else if k.range.bounded && s >= k.range.to then RangeComplete
        else Open;
      Client(c.track.Advance(s), c.asm.(active := false, discarded := 0), c.out + [d], status)
  }

  /** truncated: a clean close short of a bounded range. */
  predicate ShortOfRange(range: Range, expected: uint32) {
    range.bounded && expected != 0 && expected <= range.to
  }

  /** classifyClose and the switch on its result. */
  function FeedClose(k: Config, c: Client, code: int, reason: string): Status {
    if code == STATUS_TOO_FAR_BEHIND then Failed(TooFarBehind(c.track.expected, ParseTooFarBehindReason(reason)))
    else if code != STATUS_NORMAL && code != STATUS_GOING_AWAY then Failed(Transport)
    else if c.asm.active then Failed(Truncated)
    else if ShortOfRange(k.range, c.track.expected) then Failed(Truncated)
    else CleanClose
  }

  function FeedMessage(k: Config, c: Client, m: Message): Client {
    match m
    case Begin(s, t) => FeedBegin(c, s, t)
    case Chunk(s, i, codec, p) => FeedChunk(k, c, s, i, codec, p)
    case End(s, n, l, t, x) => FeedEnd(k, c, s, n, l, t, x)
  }

  function Feed(k: Config, c: Client, r: Read): Client {
    if c.status != Open then c
    else
      match r
      case Broken => Fail(c, Transport)
      case NonBinary => Fail(c, Protocol)
      case Closed(code, reason) => c.(status := FeedClose(k, c, code, reason))
      case Message(msg) =>
        if !Admits(k.limits, msg) then Fail(c, Transport)
        else if Decode(msg).Err? then Fail(c, Protocol)
        else FeedMessage(k, c, Decode(msg).value)
  }

  /** The client after reading all of input, from a fresh start. */
  function FeedAll(k: Config, input: seq<Read>): Client {
    if |input| == 0 then NewClient(k)
    else Feed(k, FeedAll(k, input[..|input| - 1]), input[|input| - 1])
  }

  lemma FeedAllSnoc(k: Config, input: seq<Read>, r: Read)
    ensures FeedAll(k, input + [r]) == Feed(k, FeedAll(k, input), r)
  {
    assert (input + [r])[..|input|] == input;
  }

  lemma NoneFed(k: Config)
    ensures FeedAll(k, []) == Client(Tracker(k.range.from, false), Assembly(false, 0, 0, [], 0, 0), [], Open)
  {
  }

  // ---------------------------------------------------------------- read loop

  /** stream's loop over the connection's reads. The digest runs beside the
      assembly and is reset by every BEGIN; that it always covers exactly the
      assembled bytes is what lets END be checked against it. */
  method Stream(k: Config, input: seq<Read>) returns (out: seq<Delivery>, status: Status)
    ensures out == FeedAll(k, input).out
    ensures status == FeedAll(k, input).status
  {
    var track := Tracker(k.range.from, false);
    var asm := Assembly(false, 0, 0, [], 0, 0);
    var digest: bytes := [];
    out, status := [], Open;
    var i := 0;
    hide FeedAll, Feed;
    assert input[..0] == [];
    NoneFed(k);
    while i < |input| && status == Open
      invariant 0 <= i <= |input|
      invariant FeedAll(k, input[..i]) == Client(track, asm, out, status)
      invariant status == Open && asm.active ==> digest == asm.buf
    {
      FeedAllSnoc(k, input[..i], input[i]);
      assert input[..i + 1] == input[..i] + [input[i]];
      track, asm, digest, out, status := Take(k, track, asm, digest, out, input[i]);
      i := i + 1;
    }
    Settled(k, input, i);
    assert input[..|input|] == input;
  }

  /** One pass of the loop: read, decode, and act on one message. */
  method Take(k: Config, track0: Tracker, asm0: Assembly, digest0: bytes, out0: seq<Delivery>, r: Read)
    returns (track: Tracker, asm: Assembly, digest: bytes, out: seq<Delivery>, status: Status)
    requires asm0.active ==> digest0 == asm0.buf
    ensures Client(track, asm, out, status) == Feed(k, Client(track0, asm0, out0, Open), r)
    ensures asm.active && status == Open ==> digest == asm.buf
  {
    hide Decode, Admits, FeedClose, ExpandBounded;
    track, asm, digest, out, status := track0, asm0, digest0, out0, Open;
    if !r.Message? {
      status := ReadError(k, Client(track, asm, out, status), r);
      return;
    }
    if !Admits(k.limits, r.msg) {
      status := Failed(Transport);
      return;
    }
    var decoded := Decode(r.msg);
    if decoded.Err? {
      status := Failed(Protocol);
      return;
    }
    match decoded.value
    case Begin(m, t) =>
      if asm.active && m != asm.seq_ {
        status := Failed(Protocol);
      } else if !asm.active && !track.Accepts(m) {
        status := Failed(Gap);
      } else {
        var discarded := if asm.active then asm.discarded + 1 else asm.discarded;
        asm := Assembly(true, m, t, [], 0, discarded);
        digest := [];
      }
    case Chunk(m, index, codec, payload) =>
      asm, digest, status := TakeChunk(k, asm, digest, m, index, codec, payload);
    case End(m, count, total, t, checksum) =>
      if !asm.active || m != asm.seq_ || count != asm.chunks || total != |asm.buf| || checksum != k.z.hash(digest) {
        status := Failed(Protocol);
        return;
      }
      track := track.Advance(m);
      if !k.more(|out|) {
        status := Stopped;
      } else if k.range.bounded && m >= k.range.to {
        status := RangeComplete;
      }
      out := out + [Delivery(m, asm.buf, asm.emitStart, t, asm.chunks, asm.discarded)];
      asm := asm.(active := false, discarded := 0);
  }

  /** A CHUNK: checked for place, expanded, appended, and the appended bytes hashed. */
  method TakeChunk(k: Config, asm0: Assembly, digest0: bytes, m: uint32, index: uint32, codec: byte, payload: bytes)
    returns (asm: Assembly, digest: bytes, status: Status)
    requires asm0.active ==> digest0 == asm0.buf
    ensures forall c: Client :: c.asm == asm0 && c.status == Open ==>
      FeedChunk(k, c, m, index, codec, payload) == c.(asm := asm, status := status)
    ensures asm.active && status == Open ==> digest == asm.buf
  {
    hide ExpandBounded;
    asm, digest, status := asm0, digest0, Open;
    if !asm.active || m != asm.seq_ || index != asm.chunks {
      status := Failed(Protocol);
      return;
    }
    var before := |asm.buf|;
    var raw := ExpandBounded(k, codec, payload);
    if raw.None? {
      status := Failed(Protocol);
      return;
    }
    asm := asm.(buf := asm.buf + raw.value);
    if OverCap(k.limits, |asm.buf|) {
      status := Failed(Protocol);
      return;
    }
    digest := digest + asm.buf[before..];
    asm := asm.(chunks := Succ32(asm.chunks));
  }

  function ReadError(k: Config, c: Client, r: Read): Status
    requires !r.Message?
  {
    match r
    case Broken => Failed(Transport)
    case NonBinary => Failed(Protocol)
    case Closed(code, reason) => FeedClose(k, c, code, reason)
  }

  /** Nothing read after the stream has ended changes anything. */
  lemma {:induction false} Settled(k: Config, input: seq<Read>, i: nat)
    requires i <= |input|
    requires i < |input| ==> FeedAll(k, input[..i]).status != Open
    ensures FeedAll(k, input) == FeedAll(k, input[..i])
  {
    if i < |input| {
      var init := input[..|input| - 1];
      assert init[..i] == input[..i];
      Settled(k, init, i);
      assert input[..|input|] == input;
    } else {
      assert input[..i] == input;
    }
  }
}
