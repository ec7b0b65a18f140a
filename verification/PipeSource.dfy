/** The pipe tap: ledgers as the records of a stream framed by the Record Marking
    Standard, section 11 of RFC 5531, one fragment a record
    (internal/server/pipesource.go). */
module PipeSource {
  import opened Prelude
  import opened Wire
  import opened Reading
  import opened Emissions

  const SEQ_PREFIX_LEN := 4096

  /** The top bit of a marker says the fragment is its record's last. */
  const LAST_FRAGMENT := 0x8000_0000
  const MARKER_SIZE := 4

  // ------------------------------------------------------------------ the stream

  predicate Framable(records: seq<bytes>) {
    forall r :: r in records ==> |r| < LAST_FRAGMENT
  }

  function FrameOf(record: bytes): bytes
    requires |record| < LAST_FRAGMENT
  {
    BigEndian(LAST_FRAGMENT + |record|, MARKER_SIZE) + record
  }

  function Stream(records: seq<bytes>): bytes
    requires Framable(records)
  {
    if |records| == 0 then [] else FrameOf(records[0]) + Stream(records[1..])
  }

  /** A whole frame starts the stream. */
  predicate FrameFirst(data: bytes) {
    && MARKER_SIZE <= |data| && LAST_FRAGMENT <= Value(data[..MARKER_SIZE])
    && MARKER_SIZE + Value(data[..MARKER_SIZE]) - LAST_FRAGMENT <= |data|
  }

  function FirstSize(data: bytes): nat
    requires MARKER_SIZE <= |data| && LAST_FRAGMENT <= Value(data[..MARKER_SIZE])
  {
    Value(data[..MARKER_SIZE]) - LAST_FRAGMENT
  }

  /** The whole records a stream begins with. */
  function Records(data: bytes): seq<bytes>
    decreases |data|
  {
    if !FrameFirst(data) then []
    else
      var end := MARKER_SIZE + FirstSize(data);
      [data[MARKER_SIZE..end]] + Records(data[end..])
  }

  /** What follows them: nothing, exactly when the stream ends at a frame boundary. */
  function Rest(data: bytes): bytes
    decreases |data|
  {
    if !FrameFirst(data) then data else Rest(data[MARKER_SIZE + FirstSize(data)..])
  }

  lemma FrameIsFirst(record: bytes, more: bytes)
    requires |record| < LAST_FRAGMENT
    ensures var data := FrameOf(record) + more;
      && FrameFirst(data) && FirstSize(data) == |record|
      && data[MARKER_SIZE..MARKER_SIZE + |record|] == record
      && data[MARKER_SIZE + |record|..] == more
  {
    Widths();
    ValueOfBigEndian(LAST_FRAGMENT + |record|, MARKER_SIZE);
    assert (FrameOf(record) + more)[..MARKER_SIZE] == BigEndian(LAST_FRAGMENT + |record|, MARKER_SIZE);
  }

  /** Every concatenation of frames parses back to exactly its records. */
  lemma {:induction false} StreamParses(records: seq<bytes>)
    requires Framable(records)
    ensures Records(Stream(records)) == records && Rest(Stream(records)) == []
  {
    if |records| > 0 {
      FrameIsFirst(records[0], Stream(records[1..]));
      StreamParses(records[1..]);
      assert records == [records[0]] + records[1..];
    }
  }

  lemma FrameIs(data: bytes)
    requires FrameFirst(data)
    ensures FirstSize(data) < LAST_FRAGMENT
    ensures var end := MARKER_SIZE + FirstSize(data);
      data == FrameOf(data[MARKER_SIZE..end]) + data[end..]
  {
    Widths();
    BigEndianOfValue(data[..MARKER_SIZE]);
    var end := MARKER_SIZE + FirstSize(data);
    assert data == data[..MARKER_SIZE] + data[MARKER_SIZE..end] + data[end..];
  }

  /** And every byte string is the frames of its records followed by the rest. */
  lemma {:induction false} RecordsFrame(data: bytes)
    ensures Framable(Records(data)) && data == Stream(Records(data)) + Rest(data)
    ensures !FrameFirst(Rest(data))
    decreases |data|
  {
    if FrameFirst(data) {
      var end := MARKER_SIZE + FirstSize(data);
      var record := data[MARKER_SIZE..end];
      RecordsFrame(data[end..]);
      FrameIs(data);
      hide FrameFirst, FrameOf;
      assert Records(data)[1..] == Records(data[end..]);
    }
  }

  /** k bytes of the stream end where a frame does. */
  ghost predicate Boundary(records: seq<bytes>, k: int)
    requires Framable(records)
  {
    exists i :: 0 <= i <= |records| && k == |Stream(records[..i])|
  }

  lemma BoundaryAt(records: seq<bytes>, k: int, i: nat)
    requires Framable(records) && i <= |records| && k == |Stream(records[..i])|
    ensures Boundary(records, k)
  {
  }

  lemma BoundaryStep(records: seq<bytes>, k: nat)
    requires Framable(records) && |records| > 0
    ensures k >= |FrameOf(records[0])| ==> (Boundary(records, k) <==> Boundary(records[1..], k - |FrameOf(records[0])|))
    ensures k < |FrameOf(records[0])| ==> (Boundary(records, k) <==> k == 0)
  {
    var first := |FrameOf(records[0])|;
    forall i | 0 < i <= |records| ensures |Stream(records[..i])| == first + |Stream(records[1..][..i - 1])| {
      assert records[..i][1..] == records[1..][..i - 1] && records[..i][0] == records[0];
    }
    if Boundary(records, k) && k > 0 {
      var i :| 0 <= i <= |records| && k == |Stream(records[..i])|;
      BoundaryAt(records[1..], k - first, i - 1);
    }
    if Boundary(records[1..], k - first) {
      var i :| 0 <= i <= |records[1..]| && k - first == |Stream(records[1..][..i])|;
      BoundaryAt(records, k, i + 1);
    }
    if k == 0 {
      BoundaryAt(records, k, 0);
    }
  }

  /** A stream cut anywhere but between two frames leaves something over, and the
      records before the cut are all that is recovered. */
  lemma {:induction false} CutStream(records: seq<bytes>, k: nat)
    requires Framable(records) && k <= |Stream(records)|
    ensures Records(Stream(records)[..k]) <= records
    ensures Rest(Stream(records)[..k]) == [] <==> Boundary(records, k)
    decreases |records|
  {
    hide Boundary, FrameOf, FrameFirst, BigEndian, Value;
    if |records| == 0 {
      NoFrame();
      BoundaryAt(records, k, 0);
    } else {
      var first := FrameOf(records[0]);
      var more := Stream(records[1..]);
      BoundaryStep(records, k);
      if k < |first| {
        CutInside(records[0], more, k);
      } else {
        CutLater(records[0], more, k);
        CutStream(records[1..], k - |first|);
        assert records == [records[0]] + records[1..];
      }
    }
  }

  lemma CutLater(record: bytes, more: bytes, k: nat)
    requires |record| < LAST_FRAGMENT && |FrameOf(record)| <= k <= |FrameOf(record)| + |more|
    ensures var cut := (FrameOf(record) + more)[..k];
      && Records(cut) == [record] + Records(more[..k - |FrameOf(record)|])
      && Rest(cut) == Rest(more[..k - |FrameOf(record)|])
  {
    assert (FrameOf(record) + more)[..k] == FrameOf(record) + more[..k - |FrameOf(record)|];
    FrameIsFirst(record, more[..k - |FrameOf(record)|]);
  }

  lemma NoFrame()
    ensures !FrameFirst([])
  {
  }

  lemma CutInside(record: bytes, more: bytes, k: nat)
    requires |record| < LAST_FRAGMENT && k < |FrameOf(record)|
    ensures !FrameFirst((FrameOf(record) + more)[..k])
  {
    var cut := (FrameOf(record) + more)[..k];
    FrameIsFirst(record, more);
    if k >= MARKER_SIZE {
      assert cut[..MARKER_SIZE] == (FrameOf(record) + more)[..MARKER_SIZE];
    }
  }

  // -------------------------------------------------------------------- one body

  /** The reader never fails and nobody stops the source. */
  ghost predicate Calm(br: Body, stopped: nat -> bool) {
    Healthy(br.answers) && forall k: nat :: !stopped(k)
  }

  /** io.ReadFull: all of it, or an error; an EOF in the middle is not a clean one. */
  method ReadFull(br: Body, buf: array<byte>) returns (n: nat, err: ReadError)
    requires br.pos <= |br.data|
    modifies br, buf
    ensures n <= buf.Length && br.pos == old(br.pos) + n <= |br.data|
    ensures buf[..n] == br.data[old(br.pos)..br.pos]
    ensures err == NoError <==> n == buf.Length
    ensures err == Eof ==> n == 0 && br.pos == |br.data|
    ensures Healthy(br.answers) ==>
      n == Min(buf.Length, |br.data| - old(br.pos)) && (err == Eof <==> n == 0 < buf.Length)
  {
    ghost var asked := br.asked;
    n, err := FillChunk(br, buf, 0, buf.Length);
    HealthyIsWell(br.answers, asked, br.asked);
    if n == buf.Length {
      err := NoError;
    } else if err == Eof && n > 0 {
      err := UnexpectedEof;
    }
    assert buf[0..n] == buf[..n];
  }

  /** A frame's body: its prefix, already taken off the stream to find the sequence,
      then the frame's tail straight from the shared reader (io.MultiReader over
      bytes.Reader and frameTail). */
  class FrameBody {
    const br: Body
    const prefix: bytes
    ghost const start: nat
    const size: nat
    const stopped: nat -> bool
    var off: nat
    var remaining: nat

    /** The shared reader stands where this body has read to, and the prefix is the
        frame's own. */
    ghost predicate Valid()
      reads this, br
    {
      && off <= |prefix| <= size && remaining <= size - |prefix|
      && br.pos <= |br.data| && br.pos == start + size - remaining
      && (off < |prefix| ==> remaining == size - |prefix|)
      && prefix == br.data[start..start + |prefix|]
    }

    /** How many bytes of the frame have been given out. */
    ghost function Given(): int
      reads this
    {
      if off < |prefix| then off else size - remaining
    }

    constructor (br: Body, prefix: bytes, size: nat, stopped: nat -> bool)
      requires |prefix| <= size && |prefix| <= br.pos <= |br.data|
      requires prefix == br.data[br.pos - |prefix|..br.pos]
      ensures Valid() && Given() == 0 && this.br == br && this.prefix == prefix && this.size == size
      ensures this.stopped == stopped
      ensures start == br.pos - |prefix|
    {
      this.br, this.prefix, this.size, this.stopped := br, prefix, size, stopped;
      start := br.pos - |prefix|;
      off, remaining := 0, size - |prefix|;
    }

    /** The contract of any emission's body, with the frame's bytes for its data; and
        an EOF is reported only after the last byte the marker announced. */
    method Read(buf: array<byte>, lo: nat, hi: nat) returns (n: nat, err: ReadError)
      requires Valid() && lo <= hi <= buf.Length
      modifies this, br, buf
      ensures Valid() && n <= hi - lo && Given() == old(Given()) + n <= size
      ensures buf[lo..lo + n] == br.data[start + old(Given())..start + Given()]
      ensures forall i :: 0 <= i < buf.Length && !(lo <= i < hi) ==> buf[i] == old(buf[i])
      ensures err == Eof ==> Given() == size && br.pos == start + size
      ensures Calm(br, stopped) && start + size <= |br.data| ==>
        && (err == NoError || err == Eof) && (lo < hi ==> n > 0 || err == Eof)
    {
      if off < |prefix| {
        n := Min(hi - lo, |prefix| - off);
        forall i | lo <= i < lo + n {
          buf[i] := prefix[off + i - lo];
        }
        assert buf[lo..lo + n] == prefix[off..off + n];
        SliceOfSlice(br.data, start, start + |prefix|, off, off + n);
        off := off + n;
        err := NoError;
      } else {
        n, err := ReadTail(buf, lo, hi);
      }
    }

    /** frameTail.Read. */
    method ReadTail(buf: array<byte>, lo: nat, hi: nat) returns (n: nat, err: ReadError)
      requires Valid() && lo <= hi <= buf.Length && off == |prefix|
      modifies this`remaining, br, buf
      ensures Valid() && n <= hi - lo && remaining == old(remaining) - n
      ensures Calm(br, stopped) && start + size <= |br.data| ==>
        && (err == NoError || err == Eof) && (lo < hi ==> n > 0 || err == Eof)
      ensures buf[lo..lo + n] == br.data[old(br.pos)..br.pos]
      ensures forall i :: 0 <= i < buf.Length && !(lo <= i < hi) ==> buf[i] == old(buf[i])
      ensures err == Eof ==> remaining == 0
    {
      if remaining == 0 {
        return 0, Eof;
      }
      var end := if hi - lo > remaining then lo + remaining else hi;
      var k := br.asked;
      n, err := br.Read(buf, lo, end);
      assert Healthy(br.answers) ==> br.answers(k).Well();
      remaining := remaining - n;
      if err != NoError && stopped(k) {
        return n, Reading.Cancelled;
      }
      if err == Eof && remaining > 0 {
        err := UnexpectedEof;
      }
    }
  }

  /** record is what the frame at start announces: its bytes as far as the stream has
      them. */
  ghost predicate Announces(data: bytes, start: nat, record: bytes) {
    forall i :: 0 <= i < |record| && start + i < |data| ==> record[i] == data[start + i]
  }

  function Announced(data: bytes, start: nat, size: nat): (record: bytes)
    ensures |record| == size && Announces(data, start, record)
    ensures start + size <= |data| ==> record == data[start..start + size]
  {
    seq(size, i requires 0 <= i < size => if start + i < |data| then data[start + i] else 0)
  }

  lemma AnnouncedSlice(data: bytes, start: nat, record: bytes, from: nat, to: nat)
    requires Announces(data, start, record) && from <= to <= |record| && start + to <= |data|
    ensures data[start + from..start + to] == record[from..to]
  {
  }

  /** A body's Read, in terms of the record: the contract of a Body that would give it. */
  method ReadRecord(body: FrameBody, ghost record: bytes, buf: array<byte>, lo: nat, hi: nat)
    returns (n: nat, err: ReadError)
    requires body.Valid() && |record| == body.size && Announces(body.br.data, body.start, record)
    requires lo <= hi <= buf.Length
    modifies body, body.br, buf
    ensures body.Valid()
    ensures n <= hi - lo && body.Given() == old(body.Given()) + n <= |record|
    ensures buf[lo..lo + n] == record[old(body.Given())..body.Given()]
    ensures forall i :: 0 <= i < buf.Length && !(lo <= i < hi) ==> buf[i] == old(buf[i])
    ensures err == Eof ==> body.Given() == |record| && body.br.pos == body.start + |record|
    ensures Calm(body.br, body.stopped) && body.start + |record| <= |body.br.data| ==>
      && (err == NoError || err == Eof) && (lo < hi ==> n > 0 || err == Eof)
  {
    hide Announces, Calm, FrameBody.Valid, FrameBody.Given;
    ghost var from := body.Given();
    GivenInside(body);
    n, err := body.Read(buf, lo, hi);
    GivenInside(body);
    AnnouncedSlice(body.br.data, body.start, record, from, body.Given());
  }

  /** fillChunk over a frame's body, with the contract it has over a reader of the record
      itself: the source loop, which reads bodies in no other way, cannot tell them apart. */
  method FillFrame(body: FrameBody, ghost record: bytes, buf: array<byte>, lo: nat, hi: nat)
    returns (n: nat, err: ReadError)
    requires body.Valid() && |record| == body.size && Announces(body.br.data, body.start, record)
    requires lo <= hi <= buf.Length
    modifies body, body.br, buf
    ensures body.Valid()
    ensures n <= hi - lo && body.Given() == old(body.Given()) + n <= |record|
    ensures buf[lo..lo + n] == record[old(body.Given())..body.Given()]
    ensures forall i :: 0 <= i < buf.Length && !(lo <= i < hi) ==> buf[i] == old(buf[i])
    ensures err == NoError ==> n == hi - lo
    ensures err == Eof ==> body.Given() == |record| && body.br.pos == body.start + |record|
    ensures Calm(body.br, body.stopped) && body.start + |record| <= |body.br.data| ==> err == NoError || err == Eof
  {
    hide Announces, Calm, FrameBody.Valid, FrameBody.Given;
    GivenInside(body);
    n := 0;
    while n < hi - lo
      invariant body.Valid()
      invariant n <= hi - lo && body.Given() == old(body.Given()) + n <= |record|
      invariant buf[lo..lo + n] == record[old(body.Given())..body.Given()]
      invariant forall i :: 0 <= i < buf.Length && !(lo <= i < hi) ==> buf[i] == old(buf[i])
      decreases hi - lo - n
    {
      ghost var was := buf[..];
      var m, e := ReadRecord(body, record, buf, lo + n, hi);
      ToppedUp(record, old(body.Given()), was, buf[..], lo, n, m, hi);
      n := n + m;
      if e != NoError {
        return n, e;
      }
      if m == 0 {
        return n, NoProgress;
      }
    }
    err := NoError;
  }

  lemma GivenInside(body: FrameBody)
    requires body.Valid()
    ensures 0 <= body.Given() <= body.size && body.start + body.Given() <= |body.br.data|
  {
  }

  /** A consumer that reads a body to whatever end it comes to, as the source loop does,
      through buffers of whatever size: a clean end means the whole record, and leaves the
      stream at the next marker. */
  method Drain(body: FrameBody, ghost record: bytes) returns (content: bytes, err: ReadError)
    requires body.Valid() && body.Given() == 0
    requires |record| == body.size && Announces(body.br.data, body.start, record)
    modifies body, body.br
    ensures body.Valid() && |content| <= |record| && content == record[..|content|]
    ensures err == Eof ==> content == record && body.br.pos == body.start + |record|
    ensures err != NoError
    ensures Calm(body.br, body.stopped) && body.start + |record| <= |body.br.data| ==> err == Eof
  {
    hide Announces, Calm, FrameBody.Valid, FrameBody.Given;
    content, err := [], NoError;
    while err == NoError
      invariant body.Valid() && |content| == body.Given() <= |record|
      invariant content == record[..|content|]
      invariant err == Eof ==> |content| == |record| && body.br.pos == body.start + |record|
      invariant Calm(body.br, body.stopped) && body.start + |record| <= |body.br.data| ==> err == NoError || err == Eof
      decreases |record| - |content|, err == NoError
    {
      var room: int :| room > 0;
      var buf := new byte[room];
      var n: nat;
      n, err := FillFrame(body, record, buf, 0, room);
      assert record[..|content| + n] == record[..|content|] + record[|content|..|content| + n];
      content := content + buf[0..n];
    }
  }

  // -------------------------------------------------------------- the frame loop

  datatype PipeEnd = Finished | MarkerError | BadMarker | PrefixError | NoSequence | Stopped(err: ReadError)

  /** What a record is yielded as. */
  function Yield(record: bytes, seqOf: bytes -> Option<uint32>): Option<Emission>
    requires |record| < LAST_FRAGMENT
  {
    var s := seqOf(record[..Min(|record|, SEQ_PREFIX_LEN)]);
    if s.None? then None else Some(Emission(s.value, |record|, record))
  }

  predicate Yields(got: seq<Emission>, records: seq<bytes>, seqOf: bytes -> Option<uint32>)
    requires Framable(records)
  {
    |got| <= |records| && forall i :: 0 <= i < |got| ==> Yield(records[i], seqOf) == Some(got[i])
  }

  /** Every record shows its sequence. */
  predicate AllYield(records: seq<bytes>, seqOf: bytes -> Option<uint32>)
    requires Framable(records)
  {
    forall i :: 0 <= i < |records| ==> Yield(records[i], seqOf).Some?
  }

  /** The emission is the whole record, declared at its own length, under the sequence its
      first bytes show. */
  predicate WholeRecord(em: Emission, record: bytes, seqOf: bytes -> Option<uint32>) {
    && em.data == record && em.size == |record|
    && seqOf(record[..Min(|record|, SEQ_PREFIX_LEN)]) == Some(em.seq_)
  }

  lemma YieldsAreWhole(got: seq<Emission>, records: seq<bytes>, seqOf: bytes -> Option<uint32>)
    requires Framable(records) && Yields(got, records, seqOf)
    ensures |got| <= |records| && forall i :: 0 <= i < |got| ==> WholeRecord(got[i], records[i], seqOf)
  {
  }

  lemma YieldsSnoc(got: seq<Emission>, records: seq<bytes>, seqOf: bytes -> Option<uint32>, em: Emission)
    requires Framable(records) && Yields(got, records, seqOf)
    requires |got| < |records| && Yield(records[|got|], seqOf) == Some(em)
    ensures Yields(got + [em], records, seqOf)
  {
    hide Yield;
  }

  /** done is what the stream's first whole records were, and the reader stands right
      after them. */
  ghost predicate InSync(data: bytes, pos: nat, done: seq<bytes>) {
    && pos <= |data|
    && Records(data) == done + Records(data[pos..]) && Rest(data) == Rest(data[pos..])
  }

  lemma NextInSync(data: bytes, pos: nat, done: seq<bytes>)
    requires InSync(data, pos, done) && FrameFirst(data[pos..])
    ensures var from := pos + MARKER_SIZE;
      var end := from + FirstSize(data[pos..]);
      && end <= |data| && FirstSize(data[pos..]) < LAST_FRAGMENT
      && data[pos..][MARKER_SIZE..MARKER_SIZE + FirstSize(data[pos..])] == data[from..end]
      && InSync(data, end, done + [data[from..end]])
  {
    var rest := data[pos..];
    var size := FirstSize(rest);
    FrameIs(rest);
    var record := data[pos + MARKER_SIZE..pos + MARKER_SIZE + size];
    assert rest[MARKER_SIZE..MARKER_SIZE + size] == record;
    assert rest[MARKER_SIZE + size..] == data[pos + MARKER_SIZE + size..];
    assert done + ([record] + Records(rest[MARKER_SIZE + size..])) ==
      (done + [record]) + Records(rest[MARKER_SIZE + size..]);
  }

  lemma DoneIsShort(data: bytes, pos: nat, done: seq<bytes>)
    requires InSync(data, pos, done)
    ensures |done| <= |Records(data)|
  {
  }

  /** The loop of Emissions, with a consumer that drains every body it is given: what it
      is given is the stream's records, in order and byte for byte, whatever the reads
      return; and the stream is called finished only at the end of its last whole
      frame with nothing left over. */
  method Relay(br: Body, seqOf: bytes -> Option<uint32>, stopped: nat -> bool)
    returns (got: seq<Emission>, end: PipeEnd)
    requires br.pos == 0
    modifies br
    ensures Framable(Records(br.data)) && Yields(got, Records(br.data), seqOf)
    ensures end == Finished ==> |got| == |Records(br.data)| && Rest(br.data) == []
    ensures end == Finished ==> br.data == Stream(Records(br.data))
    ensures forall i :: 0 <= i < |got| ==> WholeRecord(got[i], Records(br.data)[i], seqOf)
    ensures Calm(br, stopped) && AllYield(Records(br.data), seqOf) ==>
      |got| == |Records(br.data)| && (end == Finished <==> Rest(br.data) == [])
  {
    RecordsFrame(br.data);
    got, end := [], Stopped(NoError);
    ghost var done: seq<bytes> := [];
    assert br.data[0..] == br.data;
    assert InSync(br.data, 0, done);
    hide Records, Rest, Framable, Yields, InSync, Yield, FrameFirst, Calm;
    while end == Stopped(NoError)
      invariant br.pos <= |br.data| && Framable(Records(br.data))
      invariant Yields(got, Records(br.data), seqOf)
      invariant end == Stopped(NoError) ==> InSync(br.data, br.pos, done) && |got| == |done|
      invariant end == Finished ==> |got| == |Records(br.data)| && Rest(br.data) == []
      invariant Calm(br, stopped) && AllYield(Records(br.data), seqOf) && end != Stopped(NoError) ==>
        |got| == |Records(br.data)| && (end == Finished <==> Rest(br.data) == [])
      decreases |br.data| - br.pos, end == Stopped(NoError)
    {
      var em: Option<Emission>;
      DoneIsShort(br.data, br.pos, done);
      em, end := NextRecord(br, seqOf, stopped, done);
      if em.Some? {
        YieldsSnoc(got, Records(br.data), seqOf, em.value);
        done := Records(br.data)[..|done| + 1];
        got := got + [em.value];
      }
    }
    YieldsAreWhole(got, Records(br.data), seqOf);
  }

  /** One frame: its marker, its prefix, its sequence, its body. */
  method NextRecord(br: Body, seqOf: bytes -> Option<uint32>, stopped: nat -> bool, ghost done: seq<bytes>)
    returns (em: Option<Emission>, end: PipeEnd)
    requires br.pos <= |br.data| && InSync(br.data, br.pos, done) && Framable(Records(br.data))
    modifies br
    ensures old(br.pos) <= br.pos <= |br.data|
    ensures em.Some? <==> end == Stopped(NoError)
    ensures em.Some? ==> old(br.pos) < br.pos && |done| < |Records(br.data)|
    ensures em.Some? ==> Yield(Records(br.data)[|done|], seqOf) == em
    ensures em.Some? ==> InSync(br.data, br.pos, Records(br.data)[..|done| + 1])
    ensures end == Finished ==> Records(br.data) == done && Rest(br.data) == []
    ensures Calm(br, stopped) ==>
      && (|done| == |Records(br.data)| ==> (end == Finished <==> Rest(br.data) == []))
      && (|done| < |Records(br.data)| && Yield(Records(br.data)[|done|], seqOf).Some? ==> em.Some?)
  {
    hide Records, Rest, Framable, InSync, Yield, FrameFirst, Value, FrameOf, Calm;
    CalmIs(br, stopped);
    WholeNext(br.data, br.pos, done, seqOf);
    em := None;
    ghost var pos := br.pos;
    var size: nat;
    size, end := ReadMarker(br);
    if end == Finished {
      SyncedAtEnd(br.data, done);
    }
    if end != Stopped(NoError) {
      return;
    }
    em, end := NextBody(br, size, seqOf, stopped);
    if em.Some? {
      MarkedIs(br.data, pos, size);
      NextInSync(br.data, pos, done);
      SyncedNext(br.data, br.pos, done, br.data[pos + MARKER_SIZE..br.pos]);
    }
  }

  lemma SyncedAtEnd(data: bytes, done: seq<bytes>)
    requires InSync(data, |data|, done)
    ensures Records(data) == done && Rest(data) == []
  {
    assert data[|data|..] == [];
  }

  lemma SyncedNext(data: bytes, pos: nat, done: seq<bytes>, record: bytes)
    requires InSync(data, pos, done + [record])
    ensures |done| < |Records(data)| && Records(data)[|done|] == record
    ensures Records(data)[..|done| + 1] == done + [record]
  {
  }

  lemma CalmIs(br: Body, stopped: nat -> bool)
    ensures Calm(br, stopped) ==> Healthy(br.answers)
  {
  }

  /** While records are left, the next one starts right here, whole. */
  lemma WholeNext(data: bytes, pos: nat, done: seq<bytes>, seqOf: bytes -> Option<uint32>)
    requires InSync(data, pos, done) && Framable(Records(data))
    ensures |done| < |Records(data)| <==> FrameFirst(data[pos..])
    ensures |done| == |Records(data)| ==> Rest(data) == data[pos..]
    ensures |done| < |Records(data)| ==>
      && pos + MARKER_SIZE <= |data| && LAST_FRAGMENT <= Value(data[pos..pos + MARKER_SIZE])
      && var size := Value(data[pos..pos + MARKER_SIZE]) - LAST_FRAGMENT;
      && size < LAST_FRAGMENT && pos + MARKER_SIZE + size <= |data|
      && Records(data)[|done|] == data[pos + MARKER_SIZE..pos + MARKER_SIZE + size]
  {
    if FrameFirst(data[pos..]) {
      NextInSync(data, pos, done);
      assert data[pos..][..MARKER_SIZE] == data[pos..pos + MARKER_SIZE];
    }
  }

  /** The reader has taken a marker for size bytes off the stream at pos. */
  ghost predicate Marked(data: bytes, pos: nat, size: nat) {
    && pos + MARKER_SIZE <= |data| && size < LAST_FRAGMENT
    && Value(data[pos..pos + MARKER_SIZE]) == LAST_FRAGMENT + size
  }

  lemma MarkedIs(data: bytes, pos: nat, size: nat)
    requires Marked(data, pos, size) && pos + MARKER_SIZE + size <= |data|
    ensures FrameFirst(data[pos..]) && FirstSize(data[pos..]) == size
  {
    assert data[pos..][..MARKER_SIZE] == data[pos..pos + MARKER_SIZE];
  }

  /** ReadFrameLength: a marker without the last-fragment bit is an error, and so is one
      cut short; only an EOF right where a marker would start is a clean end. */
  method ReadMarker(br: Body) returns (size: nat, end: PipeEnd)
    requires br.pos <= |br.data|
    modifies br
    ensures old(br.pos) <= br.pos <= |br.data|
    ensures end == Finished ==> br.pos == old(br.pos) == |br.data|
    ensures end == Stopped(NoError) ==> br.pos == old(br.pos) + MARKER_SIZE && Marked(br.data, old(br.pos), size)
    ensures Healthy(br.answers) ==>
      && (end == Finished <==> old(br.pos) == |br.data|)
      && (end == MarkerError <==> 0 < |br.data| - old(br.pos) < MARKER_SIZE)
      && (end == Stopped(NoError) <==>
            && old(br.pos) + MARKER_SIZE <= |br.data|
            && LAST_FRAGMENT <= Value(br.data[old(br.pos)..old(br.pos) + MARKER_SIZE]))
    ensures end == BadMarker ==>
      br.pos == old(br.pos) + MARKER_SIZE && Value(br.data[old(br.pos)..br.pos]) < LAST_FRAGMENT
  {
    size := 0;
    var marker := new byte[MARKER_SIZE];
    var n, err := ReadFull(br, marker);
    if err == Eof {
      return 0, Finished;
    }
    if err != NoError {
      return 0, MarkerError;
    }
    Widths();
    BigEndianOfValue(marker[..]);
    assert marker[..] == marker[..MARKER_SIZE];
    hide Value;
    var value := Value(marker[..]);
    if value < LAST_FRAGMENT {
      return 0, BadMarker;
    }
    return value - LAST_FRAGMENT, Stopped(NoError);
  }

  method NextBody(br: Body, size: nat, seqOf: bytes -> Option<uint32>, stopped: nat -> bool)
    returns (em: Option<Emission>, end: PipeEnd)
    requires br.pos <= |br.data| && size < LAST_FRAGMENT
    modifies br
    ensures old(br.pos) <= br.pos <= |br.data| && end != Finished
    ensures em.Some? <==> end == Stopped(NoError)
    ensures em.Some? ==> br.pos == old(br.pos) + size
    ensures em.Some? ==> Yield(br.data[old(br.pos)..br.pos], seqOf) == em
    ensures Calm(br, stopped) && old(br.pos) + size <= |br.data| ==>
      (em.Some? <==> Yield(br.data[old(br.pos)..old(br.pos) + size], seqOf).Some?)
  {
    hide Yield;
    if br.pos + size <= |br.data| {
      YieldLooks(br.data, br.pos, size, seqOf);
    }
    ghost var from := br.pos;
    var prefix, err := ReadPrefix(br, size, stopped);
    if err != NoError {
      return None, PrefixError;
    }
    var s := seqOf(prefix);
    if s.None? {
      return None, NoSequence;
    }
    ghost var record := Announced(br.data, from, size);
    var content: bytes;
    content, err := ReadRest(br, prefix, size, record, stopped);
    if err != Eof {
      return None, Stopped(err);
    }
    AnnouncedSlice(br.data, from, record, 0, |prefix|);
    YieldIs(content, prefix, seqOf, s.value);
    return Some(Emission(s.value, size, content)), Stopped(NoError);
  }

  /** The prefix the sequence is found in, taken off the stream. */
  method ReadPrefix(br: Body, size: nat, ghost stopped: nat -> bool) returns (prefix: bytes, err: ReadError)
    requires br.pos <= |br.data|
    modifies br
    ensures old(br.pos) <= br.pos <= |br.data|
    ensures err == NoError ==>
      && |prefix| == Min(size, SEQ_PREFIX_LEN) && br.pos == old(br.pos) + |prefix|
      && prefix == br.data[old(br.pos)..br.pos]
    ensures Calm(br, stopped) && old(br.pos) + size <= |br.data| ==> err == NoError
  {
    var buf := new byte[Min(size, SEQ_PREFIX_LEN)];
    var n;
    n, err := ReadFull(br, buf);
    prefix := buf[..n];
  }

  /** The body as the consumer gets it: the prefix given back, then the frame's tail. */
  method ReadRest(br: Body, prefix: bytes, size: nat, ghost record: bytes, stopped: nat -> bool)
    returns (content: bytes, err: ReadError)
    requires |prefix| <= size == |record| && |prefix| <= br.pos <= |br.data|
    requires prefix == br.data[br.pos - |prefix|..br.pos] && Announces(br.data, br.pos - |prefix|, record)
    modifies br
    ensures old(br.pos) <= br.pos <= |br.data|
    ensures err == Eof ==> content == record && br.pos == old(br.pos) - |prefix| + size
    ensures err != NoError
    ensures Calm(br, stopped) && old(br.pos) - |prefix| + size <= |br.data| ==> err == Eof
  {
    hide Announces, Calm;
    var body := new FrameBody(br, prefix, size, stopped);
    content, err := Drain(body, record);
    StandsAfter(body);
  }

  lemma StandsAfter(body: FrameBody)
    requires body.Valid()
    ensures body.start + |body.prefix| <= body.br.pos <= |body.br.data|
  {
  }

  /** A record's sequence is looked for in the prefix that is taken off the stream. */
  lemma YieldLooks(data: bytes, from: nat, size: nat, seqOf: bytes -> Option<uint32>)
    requires from + size <= |data| && size < LAST_FRAGMENT
    ensures Yield(data[from..from + size], seqOf).Some? <==> seqOf(data[from..from + Min(size, SEQ_PREFIX_LEN)]).Some?
  {
    SliceOfSlice(data, from, from + size, 0, Min(size, SEQ_PREFIX_LEN));
  }

  lemma YieldIs(record: bytes, prefix: bytes, seqOf: bytes -> Option<uint32>, s: uint32)
    requires |record| < LAST_FRAGMENT && prefix == record[..Min(|record|, SEQ_PREFIX_LEN)] && seqOf(prefix) == Some(s)
    ensures Yield(record, seqOf) == Some(Emission(s, |record|, record))
  {
  }
}
