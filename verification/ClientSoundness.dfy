/** What the client guarantees against any server whatever: whichever messages,
    closes and failures it reads, it yields only consecutive ledgers, each one
    the verified content of a single BEGIN / CHUNK* / END run it read. */
module ClientSoundness {
  import opened Prelude
  import opened Wire
  import opened Chunks
  import opened Client
  import Decimal

  // ------------------------------------------------------ what was on the wire

  function Raw(r: Read): bytes {
    if r.Message? then r.msg else []
  }

  function Raws(input: seq<Read>): (m: seq<bytes>)
    ensures |m| == |input|
    ensures forall i :: 0 <= i < |input| ==> m[i] == Raw(input[i])
  {
    seq(|input|, i requires 0 <= i < |input| => Raw(input[i]))
  }

  predicate IsBegin(r: Read, s: uint32, emitStart: int64) {
    r.Message? && Decode(r.msg) == Ok(Begin(s, emitStart))
  }

  predicate IsChunk(z: Codec, r: Read, s: uint32, index: uint32) {
    r.Message? && Carries(z, r.msg, s, index, Payload(z, r.msg))
  }

  predicate IsEnd(r: Read, s: uint32, count: uint32, total: uint64, emitEnd: int64, checksum: uint64) {
    r.Message? && Decode(r.msg) == Ok(End(s, count, total, emitEnd, checksum))
  }

  /** Everything strictly between b and e is a chunk of ledger s, numbered in
      order from the BEGIN at b (modulo the index width). */
  predicate ChunkRun(z: Codec, input: seq<Read>, b: nat, e: nat, s: uint32)
    requires e <= |input|
  {
    forall j :: b < j < e ==> IsChunk(z, input[j], s, (j - b - 1) % U32)
  }

  /** The yielded ledger d is exactly the flow read at positions b..e. */
  predicate FlowAt(k: Config, input: seq<Read>, b: nat, e: nat, d: Delivery) {
    && b < e < |input|
    && IsBegin(input[b], d.seq_, d.emitStart)
    && ChunkRun(k.z, input, b, e, d.seq_)
    && |d.payload| < U64
    && IsEnd(input[e], d.seq_, (e - b - 1) % U32, |d.payload|, d.emitEnd, k.z.hash(d.payload))
    && d.payload == Joined(k.z, Raws(input[b + 1..e]))
    && d.chunks == (e - b - 1) % U32
  }

  /** Where in the input a flow begins and ends. */
  datatype Spot = Spot(begin: nat, end: nat)

  /** The yields are flows that lie in the input one after another, none overlapping or
      read twice. */
  predicate Located(k: Config, input: seq<Read>, out: seq<Delivery>, spots: seq<Spot>) {
    && |spots| == |out|
    && (forall i :: 0 <= i < |out| ==> FlowAt(k, input, spots[i].begin, spots[i].end, out[i]))
    && (forall i, j :: 0 <= i < j < |spots| ==> spots[i].end < spots[j].begin)
  }

  /** The first place after all of them. */
  function After(spots: seq<Spot>): nat {
    if |spots| == 0 then 0 else spots[|spots| - 1].end + 1
  }

  /** The open assembly is exactly what was read since the BEGIN at b. */
  predicate AssemblingAt(k: Config, input: seq<Read>, b: nat, a: Assembly) {
    && b < |input|
    && IsBegin(input[b], a.seq_, a.emitStart)
    && ChunkRun(k.z, input, b, |input|, a.seq_)
    && a.buf == Joined(k.z, Raws(input[b + 1..]))
    && a.chunks == (|input| - b - 1) % U32
  }

  ghost predicate Assembling(k: Config, input: seq<Read>, from: nat, a: Assembly) {
    exists b: nat :: from <= b && AssemblingAt(k, input, b, a)
  }

  // ------------------------------------------------------------ what was given

  /** No gap, no duplicate, no wrap, and from the requested start when one was named. */
  predicate Consecutive(range: Range, out: seq<Delivery>) {
    && (forall i :: 0 <= i < |out| ==> out[i].seq_ == out[0].seq_ + i)
    && (|out| > 0 && range.from != 0 ==> out[0].seq_ == range.from)
  }

  predicate Tracked(range: Range, track: Tracker, out: seq<Delivery>) {
    if |out| == 0 then track == Tracker(range.from, false)
    else
      var last := out[|out| - 1].seq_;
      track == Tracker(Succ32(last), last == MAX_UINT32)
  }

  /** What the status says about a bounded range. */
  predicate Bounded(k: Config, c: Client) {
    && (k.range.bounded ==> forall i :: 0 <= i < |c.out| - 1 ==> c.out[i].seq_ < k.range.to)
    && (c.status == Open && k.range.bounded && |c.out| > 0 ==> c.out[|c.out| - 1].seq_ < k.range.to)
    && (c.status == RangeComplete ==> k.range.bounded && |c.out| > 0 && c.out[|c.out| - 1].seq_ >= k.range.to)
    && (c.status == CleanClose ==> !ShortOfRange(k.range, c.track.expected))
    && (c.status == CleanClose && k.range.bounded && |c.out| > 0 ==> c.out[|c.out| - 1].seq_ < k.range.to)
  }

  /** The consumer pulled for every yield but the one it broke off at; and it is only its
      breaking off that the client calls being stopped. */
  predicate Pulled(k: Config, c: Client) {
    && (c.status == Stopped <==> |c.out| > 0 && !k.more(|c.out| - 1))
    && (forall i :: 0 <= i < |c.out| - 1 ==> k.more(i))
  }

  /** Nothing over the payload cap is ever assembled, let alone yielded. */
  predicate WithinCap(k: Config, c: Client) {
    && (forall i :: 0 <= i < |c.out| ==> !OverCap(k.limits, |c.out[i].payload|))
    && (c.status == Open && c.asm.active ==> !OverCap(k.limits, |c.asm.buf|))
  }

  predicate Orderly(k: Config, c: Client) {
    && Consecutive(k.range, c.out)
    && Tracked(k.range, c.track, c.out)
    && Bounded(k, c)
    && Pulled(k, c)
    && WithinCap(k, c)
    && (c.status == Open && c.asm.active ==> c.track.Accepts(c.asm.seq_))
  }

  ghost predicate Faithful(k: Config, input: seq<Read>, c: Client) {
    exists spots: seq<Spot> :: FaithfulAt(k, input, c, spots)
  }

  ghost predicate FaithfulAt(k: Config, input: seq<Read>, c: Client, spots: seq<Spot>) {
    && Located(k, input, c.out, spots)
    && (c.status == Open && c.asm.active ==> Assembling(k, input, After(spots), c.asm))
  }

  // -------------------------------------------------------------------- proofs

  lemma FlowStays(k: Config, input: seq<Read>, r: Read, b: nat, e: nat, d: Delivery)
    requires FlowAt(k, input, b, e, d)
    ensures FlowAt(k, input + [r], b, e, d)
  {
    hide Decode, Joined, Carries, Payload;
    var grown := input + [r];
    assert grown[b + 1..e] == input[b + 1..e];
    assert forall j :: b < j < e ==> grown[j] == input[j];
  }

  lemma LocatedGrows(k: Config, input: seq<Read>, r: Read, out: seq<Delivery>, spots: seq<Spot>)
    requires Located(k, input, out, spots)
    ensures Located(k, input + [r], out, spots) && After(spots) <= |input|
  {
    forall i | 0 <= i < |out|
      ensures spots[i].end < |input| && FlowAt(k, input + [r], spots[i].begin, spots[i].end, out[i])
    {
      FlowStays(k, input, r, spots[i].begin, spots[i].end, out[i]);
      FlowInside(k, input, spots[i].begin, spots[i].end, out[i]);
    }
    hide FlowAt;
  }

  lemma FlowInside(k: Config, input: seq<Read>, b: nat, e: nat, d: Delivery)
    requires FlowAt(k, input, b, e, d)
    ensures b < e < |input|
  {
    hide ChunkRun, Raws, Joined, IsBegin, IsEnd;
  }

  lemma LocatedSnoc(k: Config, input: seq<Read>, out: seq<Delivery>, spots: seq<Spot>, b: nat, e: nat, d: Delivery)
    requires Located(k, input, out, spots) && After(spots) <= b && FlowAt(k, input, b, e, d)
    ensures Located(k, input, out + [d], spots + [Spot(b, e)])
  {
    hide FlowAt;
    var more := spots + [Spot(b, e)];
    forall i, j | 0 <= i < j < |more| ensures more[i].end < more[j].begin {
      if j == |spots| && i < |spots| - 1 {
        assert spots[i].end < spots[|spots| - 1].begin;
        FlowInside(k, input, spots[|spots| - 1].begin, spots[|spots| - 1].end, out[|spots| - 1]);
      }
    }
  }

  lemma AssemblingBegins(k: Config, input: seq<Read>, r: Read, s: uint32, t: int64, discarded: nat, from: nat)
    requires IsBegin(r, s, t) && from <= |input|
    ensures Assembling(k, input + [r], from, Assembly(true, s, t, [], 0, discarded))
  {
    var grown := input + [r];
    assert grown[|input| + 1..] == [];
    assert AssemblingAt(k, grown, |input|, Assembly(true, s, t, [], 0, discarded));
  }

  lemma RunGrows(z: Codec, input: seq<Read>, b: nat, s: uint32, r: Read)
    requires b < |input|
    requires ChunkRun(z, input, b, |input|, s)
    requires IsChunk(z, r, s, (|input| - b - 1) % U32)
    ensures ChunkRun(z, input + [r], b, |input| + 1, s)
  {
    hide IsChunk;
  }

  lemma AssemblingGrows(k: Config, input: seq<Read>, r: Read, a: Assembly, from: nat)
    requires Assembling(k, input, from, a)
    requires IsChunk(k.z, r, a.seq_, a.chunks)
    ensures Assembling(k, input + [r], from, a.(buf := a.buf + Payload(k.z, r.msg), chunks := Succ32(a.chunks)))
  {
    hide AssemblingAt, IsChunk, Payload;
    var b: nat :| from <= b && AssemblingAt(k, input, b, a);
    AssemblingGrowsAt(k, input, b, r, a);
  }

  lemma AssemblingGrowsAt(k: Config, input: seq<Read>, b: nat, r: Read, a: Assembly)
    requires AssemblingAt(k, input, b, a) && IsChunk(k.z, r, a.seq_, a.chunks)
    ensures AssemblingAt(k, input + [r], b, a.(buf := a.buf + Payload(k.z, r.msg), chunks := Succ32(a.chunks)))
  {
    hide Decode, Payload, Joined, ChunkRun, Carries, Raws;
    RawsGrow(input, b, r);
    JoinedSnoc(k.z, Raws(input[b + 1..]), r.msg);
    RunGrows(k.z, input, b, a.seq_, r);
  }

  lemma RawsGrow(input: seq<Read>, b: nat, r: Read)
    requires b < |input| && r.Message?
    ensures Raws((input + [r])[b + 1..]) == Raws(input[b + 1..]) + [r.msg]
  {
    assert (input + [r])[b + 1..] == input[b + 1..] + [r];
  }

  lemma AssemblingEnds(k: Config, input: seq<Read>, r: Read, a: Assembly, emitEnd: int64, b: nat)
    requires AssemblingAt(k, input, b, a)
    requires |a.buf| < U64
    requires IsEnd(r, a.seq_, a.chunks, |a.buf|, emitEnd, k.z.hash(a.buf))
    ensures FlowAt(k, input + [r], b, |input|, Delivery(a.seq_, a.buf, a.emitStart, emitEnd, a.chunks, a.discarded))
  {
    hide Decode, Joined, Carries, Payload;
    var grown := input + [r];
    assert grown[b + 1..|input|] == input[b + 1..];
    assert forall j :: b < j < |input| ==> grown[j] == input[j];
  }

  lemma EndFaithful(k: Config, input: seq<Read>, c: Client, r: Read, emitEnd: int64, spots: seq<Spot>)
    returns (more: seq<Spot>)
    requires Located(k, input + [r], c.out, spots) && Assembling(k, input, After(spots), c.asm)
    requires |c.asm.buf| < U64 && IsEnd(r, c.asm.seq_, c.asm.chunks, |c.asm.buf|, emitEnd, k.z.hash(c.asm.buf))
    ensures var d := Delivery(c.asm.seq_, c.asm.buf, c.asm.emitStart, emitEnd, c.asm.chunks, c.asm.discarded);
      Located(k, input + [r], c.out + [d], more)
  {
    hide Located, AssemblingAt, FlowAt, IsEnd;
    var b: nat :| After(spots) <= b && AssemblingAt(k, input, b, c.asm);
    AssemblingEnds(k, input, r, c.asm, emitEnd, b);
    var d := Delivery(c.asm.seq_, c.asm.buf, c.asm.emitStart, emitEnd, c.asm.chunks, c.asm.discarded);
    LocatedSnoc(k, input + [r], c.out, spots, b, |input|, d);
    more := spots + [Spot(b, |input|)];
  }

  lemma StepFaithful(k: Config, input: seq<Read>, c: Client, r: Read)
    requires Faithful(k, input, c)
    ensures Faithful(k, input + [r], Feed(k, c, r))
  {
    hide Decode, Joined, Located, Assembling, ReadLimit, Payload;
    var spots: seq<Spot> :| FaithfulAt(k, input, c, spots);
    LocatedGrows(k, input, r, c.out, spots);
    if c.status == Open && r.Message? && Admits(k.limits, r.msg) && Decode(r.msg).Ok? {
      match Decode(r.msg).value
      case Begin(s, t) =>
        AssemblingBegins(k, input, r, s, t, FeedBegin(c, s, t).asm.discarded, After(spots));
      case Chunk(s, i, codec, p) =>
        if FeedChunk(k, c, s, i, codec, p).status == Open {
          ChunkRead(k, c, r, s, i, codec, p);
          AssemblingGrows(k, input, r, c.asm, After(spots));
        }
      case End(s, n, l, t, x) =>
        if FeedEnd(k, c, s, n, l, t, x).out != c.out {
          spots := EndFaithful(k, input, c, r, t, spots);
        }
    }
    assert FaithfulAt(k, input + [r], Feed(k, c, r), spots);
  }

  lemma ChunkRead(k: Config, c: Client, r: Read, s: uint32, i: uint32, codec: byte, p: bytes)
    requires r.Message? && Decode(r.msg) == Ok(Chunk(s, i, codec, p))
    requires c.status == Open && FeedChunk(k, c, s, i, codec, p).status == Open
    ensures IsChunk(k.z, r, c.asm.seq_, c.asm.chunks)
    ensures FeedChunk(k, c, s, i, codec, p).asm ==
      c.asm.(buf := c.asm.buf + Payload(k.z, r.msg), chunks := Succ32(c.asm.chunks))
  {
    hide Decode;
  }

  lemma EndOrderly(k: Config, c: Client, s: uint32, n: uint32, l: uint64, t: int64, x: uint64)
    requires Orderly(k, c) && c.status == Open
    ensures Orderly(k, FeedEnd(k, c, s, n, l, t, x))
  {
    hide ShortOfRange;
  }

  lemma CloseOrderly(k: Config, c: Client, code: int, reason: string)
    requires Orderly(k, c) && c.status == Open
    ensures Orderly(k, c.(status := FeedClose(k, c, code, reason)))
  {
    hide Consecutive, Tracked;
  }

  lemma StepOrderly(k: Config, c: Client, r: Read)
    requires Orderly(k, c)
    ensures Orderly(k, Feed(k, c, r))
  {
    hide Decode, ReadLimit, ExpandBounded, Consecutive, Tracked, FeedEnd, FeedClose, ShortOfRange;
    if c.status == Open {
      if r.Closed? {
        CloseOrderly(k, c, r.code, r.reason);
      } else if r.Message? && Decode(r.msg).Ok? && Decode(r.msg).value.End? {
        var m := Decode(r.msg).value;
        EndOrderly(k, c, m.seq_, m.count, m.total, m.emitEnd, m.checksum);
      }
    }
  }

  /** Soundness, for every sequence of reads. */
  lemma {:induction false} ClientSound(k: Config, input: seq<Read>)
    ensures Faithful(k, input, FeedAll(k, input))
    ensures Orderly(k, FeedAll(k, input))
  {
    hide Feed, Faithful, Consecutive, Bounded;
    if |input| > 0 {
      var init := input[..|input| - 1];
      var r := input[|input| - 1];
      ClientSound(k, init);
      assert input == init + [r];
      StepFaithful(k, init, FeedAll(k, init), r);
      StepOrderly(k, FeedAll(k, init), r);
    } else {
      NothingYet(k);
    }
  }

  lemma NothingYet(k: Config)
    ensures Faithful(k, [], NewClient(k))
    ensures Orderly(k, NewClient(k))
  {
    assert FaithfulAt(k, [], NewClient(k), []);
  }

  /** The ranges endpoint lets a client ask for. */
  predicate Requestable(range: Range) {
    range.from != MAX_UINT32 && (range.bounded ==> range.to != MAX_UINT32 && range.from <= range.to)
  }

  /** A client is stopped exactly by its consumer breaking off at its last yield. */
  lemma StoppedIsBrokenOff(k: Config, input: seq<Read>)
    ensures var c := FeedAll(k, input); c.status == Stopped <==> |c.out| > 0 && !k.more(|c.out| - 1)
    ensures forall i :: 0 <= i < |FeedAll(k, input).out| - 1 ==> k.more(i)
  {
    hide FeedAll, Faithful, Consecutive, Tracked, Bounded, WithinCap;
    ClientSound(k, input);
  }

  /** A bounded range with a named start that ends without an error, in whatever way, has
      delivered every ledger of the range and nothing else, or the consumer broke off. */
  lemma SilentEndIsWholeRange(k: Config, input: seq<Read>)
    requires Requestable(k.range) && k.range.bounded && k.range.from != 0
    requires FeedAll(k, input).status != Open && !FeedAll(k, input).status.Failed?
    ensures var out := FeedAll(k, input).out;
      || (|out| == k.range.to - k.range.from + 1 && forall i :: 0 <= i < |out| ==> out[i].seq_ == k.range.from + i)
      || (FeedAll(k, input).status == Stopped && |out| > 0 && !k.more(|out| - 1))
  {
    hide FeedAll, Faithful;
    ClientSound(k, input);
    if FeedAll(k, input).status != Stopped {
      SilentlyWhole(k, FeedAll(k, input));
    }
  }

  lemma SilentlyWhole(k: Config, c: Client)
    requires Orderly(k, c)
    requires Requestable(k.range) && k.range.bounded && k.range.from != 0
    requires c.status == RangeComplete || c.status == CleanClose
    ensures |c.out| == k.range.to - k.range.from + 1
    ensures forall i :: 0 <= i < |c.out| ==> c.out[i].seq_ == k.range.from + i
  {
    var n := |c.out|;
    if n > 1 {
      assert c.out[n - 2].seq_ < k.range.to;
    }
    if n > 0 {
      assert c.out[n - 1].seq_ == k.range.from + n - 1;
    }
  }

  // -------------------------------------------------- what each read comes to

  /** The ledger a BEGIN between ledgers must be of; 0 for any. */
  function NextWanted(k: Config, out: seq<Delivery>): nat {
    if |out| == 0 then k.range.from else out[|out| - 1].seq_ + 1
  }

  /** A BEGIN starts the assembly over inside its own ledger, and one between ledgers if
      it is of the ledger wanted next; any other is a protocol error inside a ledger and
      a gap between them. */
  lemma BeginIsChecked(k: Config, input: seq<Read>, msg: bytes, s: uint32, t: int64)
    requires FeedAll(k, input).status == Open && Admits(k.limits, msg) && Decode(msg) == Ok(Begin(s, t))
    ensures var c, d := FeedAll(k, input), FeedAll(k, input + [Message(msg)]);
      && d.out == c.out
      && (if c.asm.active then
            if s == c.asm.seq_ then d.status == Open && d.asm == Assembly(true, s, t, [], 0, c.asm.discarded + 1)
            else d.status == Failed(Protocol)
          else if NextWanted(k, c.out) == 0 || NextWanted(k, c.out) == s then
            d.status == Open && d.asm == Assembly(true, s, t, [], 0, c.asm.discarded)
          else d.status == Failed(Gap))
  {
    ClientSound(k, input);
    hide FeedAll, Decode, Admits, Faithful, Consecutive, Bounded, Pulled, WithinCap;
    FeedAllSnoc(k, input, Message(msg));
  }

  /** A CHUNK is taken in place, expanded, within the bounds on what one chunk and one
      ledger may come to; any other is a protocol error. */
  lemma ChunkIsChecked(k: Config, input: seq<Read>, msg: bytes, s: uint32, i: uint32, codec: byte, p: bytes)
    requires FeedAll(k, input).status == Open && Admits(k.limits, msg) && Decode(msg) == Ok(Chunk(s, i, codec, p))
    ensures var c, d := FeedAll(k, input), FeedAll(k, input + [Message(msg)]);
      var raw := Expand(k.z, codec, p);
      && d.out == c.out
      && (if c.asm.active && s == c.asm.seq_ && i == c.asm.chunks && raw.Some?
             && (codec == CODEC_ZSTD ==> |raw.value| <= DecoderBound(k.limits.maxChunk))
             && (k.limits.maxPayload < 0 || |c.asm.buf + raw.value| <= k.limits.maxPayload)
          then d.status == Open && d.asm == c.asm.(buf := c.asm.buf + raw.value, chunks := (i + 1) % U32)
          else d.status == Failed(Protocol))
  {
    hide FeedAll, Decode, Admits;
    FeedAllSnoc(k, input, Message(msg));
  }

  /** An END yields the ledger if it is of the open assembly and agrees with it in count,
      length and hash; any other is a protocol error and yields nothing. */
  lemma EndIsChecked(k: Config, input: seq<Read>, msg: bytes, s: uint32, n: uint32, l: uint64, t: int64, x: uint64)
    requires FeedAll(k, input).status == Open && Admits(k.limits, msg) && Decode(msg) == Ok(End(s, n, l, t, x))
    ensures var c, d := FeedAll(k, input), FeedAll(k, input + [Message(msg)]);
      if c.asm.active && s == c.asm.seq_ && n == c.asm.chunks && l == |c.asm.buf| && x == k.z.hash(c.asm.buf) then
        && d.out == c.out + [Delivery(s, c.asm.buf, c.asm.emitStart, t, n, c.asm.discarded)]
        && (d.status == Stopped <==> !k.more(|c.out|))
        && (d.status == RangeComplete <==> k.more(|c.out|) && k.range.bounded && s >= k.range.to)
        && (d.status == Open || d.status == Stopped || d.status == RangeComplete)
        && !d.asm.active
      else d.status == Failed(Protocol) && d.out == c.out
  {
    hide FeedAll, Decode, Admits;
    FeedAllSnoc(k, input, Message(msg));
  }

  /** Whatever else is read is an error of its own kind. */
  lemma OthersAreErrors(k: Config, input: seq<Read>, r: Read)
    requires FeedAll(k, input).status == Open
    ensures var c, d := FeedAll(k, input), FeedAll(k, input + [r]);
      && (r == Broken ==> d == c.(status := Failed(Transport)))
      && (r == NonBinary ==> d == c.(status := Failed(Protocol)))
      && (r.Message? && !Admits(k.limits, r.msg) ==> d == c.(status := Failed(Transport)))
      && (r.Message? && Admits(k.limits, r.msg) && Decode(r.msg).Err? ==> d == c.(status := Failed(Protocol)))
  {
    hide FeedAll, Decode, Admits;
    FeedAllSnoc(k, input, r);
  }

  /** A close is clean exactly between ledgers, with a code that says so, when nothing that
      was asked for is missing; inside a ledger or short of the range it is a truncation. */
  lemma CloseIsClassified(k: Config, input: seq<Read>, code: int, reason: string)
    requires FeedAll(k, input).status == Open
    ensures var c, d := FeedAll(k, input), FeedAll(k, input + [Closed(code, reason)]);
      && d.out == c.out
      && (if code == STATUS_TOO_FAR_BEHIND then d.status.Failed? && d.status.failure.TooFarBehind?
          else if code != STATUS_NORMAL && code != STATUS_GOING_AWAY then d.status == Failed(Transport)
          else if !c.asm.active
                  && (!k.range.bounded || NextWanted(k, c.out) == 0 || NextWanted(k, c.out) > k.range.to)
          then d.status == CleanClose
          else d.status == Failed(Truncated))
  {
    ClientSound(k, input);
    hide FeedAll, Faithful, Consecutive, Bounded, Pulled, WithinCap, Decimal.ParseTooFarBehindReason;
    FeedAllSnoc(k, input, Closed(code, reason));
  }

  /** With no start named there is no shortfall to describe: the same bounded
      range asked for from the tip can end silently with nothing delivered. */
  lemma TipRangeMayEndEmpty(k: Config)
    requires k.range.from == 0
    ensures FeedAll(k, [Closed(STATUS_NORMAL, "")]).status == CleanClose
    ensures FeedAll(k, [Closed(STATUS_NORMAL, "")]).out == []
  {
    FeedAllSnoc(k, [], Closed(STATUS_NORMAL, ""));
    assert [] + [Closed(STATUS_NORMAL, "")] == [Closed(STATUS_NORMAL, "")];
  }

  // ------------------------------------------------------------- the chunk count

  /** The count a client checks, and reports, is the flow's true number of chunks exactly
      when that number fits a uint32: it is only ever compared modulo 2^32. */
  lemma CountIsTrueExactlyBelow(k: Config, input: seq<Read>)
    ensures exists spots: seq<Spot> ::
      && Located(k, input, FeedAll(k, input).out, spots)
      && forall i :: 0 <= i < |spots| ==>
        var between := spots[i].end - spots[i].begin - 1;
        FeedAll(k, input).out[i].chunks == between <==> between < U32
  {
    hide FeedAll, Orderly, FlowAt, Assembling, Raws, Joined;
    ClientSound(k, input);
    var out := FeedAll(k, input).out;
    var spots: seq<Spot> :| FaithfulAt(k, input, FeedAll(k, input), spots);
    forall i | 0 <= i < |spots|
      ensures var between := spots[i].end - spots[i].begin - 1; out[i].chunks == between <==> between < U32
    {
      CountIsRemainder(k, input, spots[i].begin, spots[i].end, out[i]);
    }
  }

  lemma CountIsRemainder(k: Config, input: seq<Read>, b: nat, e: nat, d: Delivery)
    requires FlowAt(k, input, b, e, d)
    ensures b < e < |input| && d.chunks == (e - b - 1) % U32
    ensures d.payload == Joined(k.z, Raws(input[b + 1..e]))
  {
    hide ChunkRun, Raws, Joined, IsBegin, IsEnd;
  }

  /** Every chunk message strictly between b and e stands for at least a byte. */
  predicate NoEmptyChunk(k: Config, input: seq<Read>, b: nat, e: nat)
    requires e <= |input|
  {
    forall j :: b < j < e ==> 0 < |Payload(k.z, Raw(input[j]))|
  }

  /** A payload cap below 2^32 makes the count true of every flow without an empty chunk. */
  lemma CountIsTrueUnderCap(k: Config, input: seq<Read>, i: nat, b: nat, e: nat)
    requires 0 <= k.limits.maxPayload < U32 && i < |FeedAll(k, input).out|
    requires FlowAt(k, input, b, e, FeedAll(k, input).out[i]) && NoEmptyChunk(k, input, b, e)
    ensures FeedAll(k, input).out[i].chunks == e - b - 1
  {
    hide FeedAll, FlowAt, Faithful, Raws, NoEmptyChunk, Consecutive, Tracked, Bounded;
    ClientSound(k, input);
    var d := FeedAll(k, input).out[i];
    CountIsRemainder(k, input, b, e, d);
    RawsNotEmpty(k, input, b, e);
    JoinedCovers(k.z, Raws(input[b + 1..e]));
  }

  lemma RawsNotEmpty(k: Config, input: seq<Read>, b: nat, e: nat)
    requires b < e <= |input| && NoEmptyChunk(k, input, b, e)
    ensures var raws := Raws(input[b + 1..e]);
      |raws| == e - b - 1 && forall j :: 0 <= j < |raws| ==> 0 < |Payload(k.z, raws[j])|
  {
    hide Payload;
    var raws := Raws(input[b + 1..e]);
    forall j | 0 <= j < |raws| ensures 0 < |Payload(k.z, raws[j])| {
      assert raws[j] == Raw(input[b + 1 + j]);
    }
  }

  lemma {:induction false} JoinedCovers(z: Codec, chunks: seq<bytes>)
    requires forall j :: 0 <= j < |chunks| ==> 0 < |Payload(z, chunks[j])|
    ensures |chunks| <= |Joined(z, chunks)|
  {
    hide Payload;
    if |chunks| > 0 {
      JoinedCovers(z, chunks[..|chunks| - 1]);
    }
  }

  /** A flow of n chunks with nothing in them, announced with the count a uint32 has. */
  function EmptyChunks(s: uint32, n: nat): seq<Read> {
    seq(n, i requires 0 <= i < n => Message(AppendChunk([], s, i % U32, CODEC_RAW, [])))
  }

  function HollowFlow(z: Codec, s: uint32, n: nat): seq<Read> {
    [Message(AppendBegin([], s, 1))] + EmptyChunks(s, n) + [Message(AppendEnd([], s, n % U32, 0, 1, z.hash([])))]
  }

  /** But an empty chunk never moves the cap: with the default limits, or any others, a
      server can send as many as it likes and the client yields the ledger under the
      count left over. After 2^32 of them that count is 0. */
  lemma HollowFlowIsYielded(k: Config, s: uint32, n: nat)
    requires k.range.from == 0 || k.range.from == s
    requires END_SIZE <= ReadLimit(k.limits.maxChunk) || ReadLimit(k.limits.maxChunk) < 0
    ensures FeedAll(k, HollowFlow(k.z, s, n)).out == [Delivery(s, [], 1, 1, n % U32, 0)]
  {
    hide FeedAll, Feed, AppendBegin, AppendEnd, EmptyChunks;
    HollowAssembly(k, s, n);
    var before := [Message(AppendBegin([], s, 1))] + EmptyChunks(s, n);
    FeedAllSnoc(k, before, Message(AppendEnd([], s, n % U32, 0, 1, k.z.hash([]))));
    HollowEnd(k, s, n);
  }

  lemma HollowEnd(k: Config, s: uint32, n: nat)
    requires END_SIZE <= ReadLimit(k.limits.maxChunk) || ReadLimit(k.limits.maxChunk) < 0
    ensures var c := NewClient(k).(asm := Assembly(true, s, 1, [], n % U32, 0));
      Feed(k, c, Message(AppendEnd([], s, n % U32, 0, 1, k.z.hash([])))).out == [Delivery(s, [], 1, 1, n % U32, 0)]
  {
    hide Decode;
    DecodeEnd(s, n % U32, 0, 1, k.z.hash([]));
  }

  lemma {:induction false} HollowAssembly(k: Config, s: uint32, n: nat)
    requires k.range.from == 0 || k.range.from == s
    requires END_SIZE <= ReadLimit(k.limits.maxChunk) || ReadLimit(k.limits.maxChunk) < 0
    ensures FeedAll(k, [Message(AppendBegin([], s, 1))] + EmptyChunks(s, n))
         == NewClient(k).(asm := Assembly(true, s, 1, [], n % U32, 0))
  {
    hide FeedAll, Feed, AppendBegin, AppendChunk;
    var begin := Message(AppendBegin([], s, 1));
    if n == 0 {
      assert [begin] + EmptyChunks(s, 0) == [] + [begin];
      FeedAllSnoc(k, [], begin);
      HollowBegin(k, s);
    } else {
      HollowAssembly(k, s, n - 1);
      var chunk := Message(AppendChunk([], s, (n - 1) % U32, CODEC_RAW, []));
      assert [begin] + EmptyChunks(s, n) == ([begin] + EmptyChunks(s, n - 1)) + [chunk];
      FeedAllSnoc(k, [begin] + EmptyChunks(s, n - 1), chunk);
      HollowChunk(k, s, n - 1);
    }
  }

  lemma HollowBegin(k: Config, s: uint32)
    requires k.range.from == 0 || k.range.from == s
    requires END_SIZE <= ReadLimit(k.limits.maxChunk) || ReadLimit(k.limits.maxChunk) < 0
    ensures Feed(k, FeedAll(k, []), Message(AppendBegin([], s, 1))) ==
      NewClient(k).(asm := Assembly(true, s, 1, [], 0, 0))
  {
    hide Decode;
    DecodeBegin(s, 1);
  }

  lemma HollowChunk(k: Config, s: uint32, n: nat)
    requires END_SIZE <= ReadLimit(k.limits.maxChunk) || ReadLimit(k.limits.maxChunk) < 0
    ensures Feed(k, NewClient(k).(asm := Assembly(true, s, 1, [], n % U32, 0)),
                 Message(AppendChunk([], s, n % U32, CODEC_RAW, [])))
         == NewClient(k).(asm := Assembly(true, s, 1, [], (n + 1) % U32, 0))
  {
    hide Decode, ReadLimit, AppendChunk, FeedBegin, FeedEnd;
    ChunkNotEmpty(s, n % U32);
    DecodeChunk(s, n % U32, CODEC_RAW, []);
    assert Succ32(n % U32) == (n + 1) % U32;
  }

  lemma ChunkNotEmpty(s: uint32, index: uint32)
    ensures |AppendChunk([], s, index, CODEC_RAW, [])| == CHUNK_HEADER_SIZE <= END_SIZE
  {
  }

  /** So the announced count can be false, under the default limits: 2^32 chunks, counted 0. */
  lemma CountMayWrap(k: Config, s: uint32)
    requires k.limits == Limits(MAX_PAYLOAD, 0) && (k.range.from == 0 || k.range.from == s)
    ensures FeedAll(k, HollowFlow(k.z, s, U32)).out == [Delivery(s, [], 1, 1, 0, 0)]
  {
    hide FeedAll, HollowFlow;
    HollowFlowIsYielded(k, s, U32);
  }
}
