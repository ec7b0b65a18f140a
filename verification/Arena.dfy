/** The source loop's buffers (internal/server/server.go Run): one allocation per
    ledger, carved into message regions that the publisher, the hasher and the store
    share without copying. */
module Arena {
  import opened Prelude
  import opened Wire
  import opened Reading
  import opened Serve

  /** A message region: a header gap followed by the payload. */
  datatype Slice = Slice(buf: array<byte>, lo: nat, hi: nat)

  /** A region handed on as a published message, and the bytes it held then. */
  datatype Handed = Handed(slice: Slice, msg: bytes)

  predicate Apart(s: Slice, t: Slice) {
    s.buf != t.buf || s.hi <= t.lo || t.hi <= s.lo
  }

  /** The bytes of buf from position from on are raw. */
  ghost predicate Holds(buf: array<byte>, from: nat, raw: bytes)
    reads buf
  {
    from + |raw| <= buf.Length && forall k :: from <= k < from + |raw| ==> buf[k] == raw[k - from]
  }

  ghost predicate PartHolds(t: Slice, raw: bytes)
    reads t.buf
  {
    t.hi - t.lo == CHUNK_HEADER_SIZE + |raw| && Holds(t.buf, t.lo + CHUNK_HEADER_SIZE, raw)
  }

  /** A framed region reads as its header followed by its payload. */
  lemma FramedIs(t: Slice, raw: bytes)
    requires t.lo <= t.hi <= t.buf.Length && PartHolds(t, raw)
    ensures t.buf[t.lo..t.hi] == t.buf[t.lo..t.lo + CHUNK_HEADER_SIZE] + raw
    ensures Holds(t.buf, t.lo, t.buf[t.lo..t.hi])
  {
    assert t.buf[t.lo + CHUNK_HEADER_SIZE..t.hi] == raw;
    assert t.buf[t.lo..t.hi] == t.buf[t.lo..t.lo + CHUNK_HEADER_SIZE] + t.buf[t.lo + CHUNK_HEADER_SIZE..t.hi];
  }

  function Bufs(slices: seq<Slice>): set<array<byte>> {
    set s | s in slices :: s.buf
  }

  /** The regions hold these payloads, in order. */
  ghost predicate AllHold(parts: seq<Slice>, raws: seq<bytes>)
    reads Bufs(parts)
  {
    |parts| == |raws| && forall i :: 0 <= i < |parts| ==> PartHolds(parts[i], raws[i])
  }

  lemma AllHoldSnoc(parts: seq<Slice>, raws: seq<bytes>, t: Slice, raw: bytes)
    requires AllHold(parts, raws) && PartHolds(t, raw)
    ensures AllHold(parts + [t], raws + [raw])
  {
    hide PartHolds;
  }

  lemma HeldPart(parts: seq<Slice>, raws: seq<bytes>, i: nat)
    requires AllHold(parts, raws) && i < |parts|
    ensures PartHolds(parts[i], raws[i])
  {
  }

  predicate Disjoint(parts: seq<Slice>) {
    forall i, j :: 0 <= i < j < |parts| ==> Apart(parts[i], parts[j])
  }

  lemma DisjointSnoc(parts: seq<Slice>, t: Slice)
    requires Disjoint(parts) && (forall s :: s in parts ==> Apart(s, t))
    ensures Disjoint(parts + [t])
  {
    hide Apart;
  }

  function Regions(handed: seq<Handed>): seq<Slice> {
    seq(|handed|, i requires 0 <= i < |handed| => handed[i].slice)
  }

  /** Every message ever handed on still holds the bytes it was handed on with. */
  ghost predicate Kept(handed: seq<Handed>)
    reads Bufs(Regions(handed))
  {
    forall i :: 0 <= i < |handed| ==>
      var h := handed[i];
      assert Regions(handed)[i] == h.slice;
      |h.msg| == h.slice.hi - h.slice.lo && Holds(h.slice.buf, h.slice.lo, h.msg)
  }

  lemma KeptSnoc(handed: seq<Handed>, h: Handed)
    requires Kept(handed) && |h.msg| == h.slice.hi - h.slice.lo && Holds(h.slice.buf, h.slice.lo, h.msg)
    ensures Kept(handed + [h])
  {
    hide Holds;
  }

  /** A handed region is one of this ledger's, or overlaps none of them. */
  predicate Clear(handed: seq<Handed>, parts: seq<Slice>) {
    forall i, j :: 0 <= i < |handed| && 0 <= j < |parts| ==>
      handed[i].slice == parts[j] || Apart(handed[i].slice, parts[j])
  }

  lemma ClearOfPart(handed: seq<Handed>, parts: seq<Slice>, t: Slice)
    requires Clear(handed, parts) && (forall h :: h in handed ==> Apart(h.slice, t))
    ensures Clear(handed, parts + [t])
  {
    hide Apart;
  }

  lemma ClearOfHanded(handed: seq<Handed>, parts: seq<Slice>, h: Handed)
    requires Clear(handed, parts) && Disjoint(parts) && h.slice in parts
    ensures Clear(handed + [h], parts)
  {
    var i :| 0 <= i < |parts| && parts[i] == h.slice;
    forall j | 0 <= j < |parts| ensures h.slice == parts[j] || Apart(h.slice, parts[j]) {
    }
  }

  /** Run's locals: arena, used, spare and parts. raws and handed are what the rest of
      the server believes those regions hold. */
  class ChunkArena {
    const chunkSize: nat
    var arena: array<byte>
    var used: nat
    var spare: array?<byte>
    var parts: seq<Slice>
    ghost var raws: seq<bytes>
    ghost var handed: seq<Handed>
    ghost var Repr: set<array<byte>>

    /** The region lies outside everything a later read may write. */
    ghost predicate Settled(s: Slice)
      reads this
    {
      s.buf in Repr && s.lo + CHUNK_HEADER_SIZE <= s.hi <= s.buf.Length
      && (s.buf == arena ==> s.hi <= used) && s.buf != spare
    }

    ghost predicate AllSettled()
      reads this
    {
      && (forall i :: 0 <= i < |parts| ==> Settled(parts[i]))
      && (forall i :: 0 <= i < |handed| ==> Settled(handed[i].slice))
    }

    ghost predicate Valid()
      reads this, Repr
    {
      && chunkSize > 0 && arena in Repr && used <= arena.Length
      && (spare != null ==> spare in Repr && spare != arena && spare.Length == CHUNK_HEADER_SIZE + chunkSize)
      && AllSettled()
      && AllHold(parts, raws) && Disjoint(parts) && Kept(handed) && Clear(handed, parts)
    }

    constructor (chunkSize: nat)
      requires chunkSize > 0
      ensures Valid() && fresh(Repr) && this.chunkSize == chunkSize && raws == [] && handed == []
    {
      this.chunkSize := chunkSize;
      var none := new byte[0];
      arena, used, spare, parts := none, 0, null, [];
      raws, handed, Repr := [], [], {none};
    }

    /** A new ledger: a fresh arena sized by the declared length, or none. */
    method Start(size: nat)
      requires Valid()
      modifies this
      ensures Valid() && fresh(Repr - old(Repr)) && old(Repr) <= Repr
      ensures raws == [] && parts == [] && handed == old(handed) && used == 0
      ensures arena.Length == Room(size, chunkSize)
    {
      hide Room;
      var next := new byte[Room(size, chunkSize)];
      arena, used, parts := next, 0, [];
      raws := [];
      Repr := Repr + {next};
    }

    /** The region for the next read: the rest of the arena while a header and a byte
        fit, else the spare message allocation. */
    method Region() returns (s: Slice)
      requires Valid()
      modifies this`spare, this`Repr
      ensures Valid() && fresh(Repr - old(Repr)) && old(Repr) <= Repr
      ensures Writable(s) && s.hi - s.lo - CHUNK_HEADER_SIZE <= chunkSize
      ensures s.buf == arena ==> s.hi == Min(used + CHUNK_HEADER_SIZE + chunkSize, arena.Length)
      ensures s.buf != arena ==> s.hi - s.lo == CHUNK_HEADER_SIZE + chunkSize
      ensures s.buf == arena <==> arena.Length - used >= CHUNK_HEADER_SIZE + 1
    {
      hide Disjoint, Clear, Holds;
      if arena.Length - used >= CHUNK_HEADER_SIZE + 1 {
        s := Slice(arena, used, Min(used + CHUNK_HEADER_SIZE + chunkSize, arena.Length));
      } else {
        if spare == null {
          spare := new byte[CHUNK_HEADER_SIZE + chunkSize];
          Repr := Repr + {spare};
        }
        s := Slice(spare, 0, spare.Length);
      }
    }

    /** Where the next read may put bytes: past everything settled. */
    ghost predicate Writable(s: Slice)
      reads this
    {
      && s.buf in Repr && s.lo + CHUNK_HEADER_SIZE < s.hi <= s.buf.Length
      && ((s.buf == arena && s.lo == used) || (s.buf == spare && s.buf != arena && s.lo == 0))
    }

    /** The read itself: whatever it leaves in its region, no settled byte moves. */
    method Fill(body: Body, s: Slice) returns (n: nat, err: ReadError)
      requires Valid() && Writable(s) && body.pos <= |body.data|
      modifies body, s.buf
      ensures Valid() && Writable(s)
      ensures s.lo + CHUNK_HEADER_SIZE + n <= s.hi && body.pos == old(body.pos) + n <= |body.data|
      ensures Holds(s.buf, s.lo + CHUNK_HEADER_SIZE, body.data[old(body.pos)..body.pos])
      ensures err == NoError ==> n == s.hi - s.lo - CHUNK_HEADER_SIZE
      ensures err == Eof ==> body.pos == |body.data|
      ensures old(body.asked) <= body.asked
      ensures err == NoError || err == Eof <==> AllWell(body.answers, old(body.asked), body.asked)
      ensures err == Cancelled ==> Cancels(body.answers)
    {
      n, err := FillChunk(body, s.buf, s.lo + CHUNK_HEADER_SIZE, s.hi);
    }

    lemma OnePayloadEach()
      requires Valid()
      ensures |parts| == |raws|
    {
      hide Disjoint, Kept, Clear, PartHolds, AllSettled;
    }

    lemma NewPart(s: Slice, t: Slice)
      requires Valid() && Writable(s)
      requires t.buf == s.buf && t.lo == s.lo && t.lo < t.hi <= s.hi
      ensures forall p :: p in parts ==> Apart(p, t)
      ensures forall h :: h in handed ==> Apart(h.slice, t) && h.slice != t
    {
      hide AllHold, Disjoint, Kept, Clear;
    }

    /** The region becomes this ledger's next message. */
    method Commit(s: Slice, n: nat, ghost raw: bytes)
      requires Valid() && Writable(s) && 0 < n && s.lo + CHUNK_HEADER_SIZE + n <= s.hi
      requires |raw| == n && Holds(s.buf, s.lo + CHUNK_HEADER_SIZE, raw)
      modifies this`used, this`spare, this`parts, this`raws
      ensures Valid()
      ensures parts == old(parts) + [Slice(s.buf, s.lo, s.lo + CHUNK_HEADER_SIZE + n)] && raws == old(raws) + [raw]
      ensures used == (if s.buf == arena then old(used) + CHUNK_HEADER_SIZE + n else old(used))
      ensures forall h :: h in handed ==> h.slice != parts[|parts| - 1]
    {
      hide Holds, Apart, Disjoint, Clear, AllHold, Kept, AllSettled;
      var t := Slice(s.buf, s.lo, s.lo + CHUNK_HEADER_SIZE + n);
      NewPart(s, t);
      Settle(s, t);
      AddPart(t, raw);
    }

    /** A settled region apart from all others joins the parts. */
    method AddPart(t: Slice, ghost raw: bytes)
      requires Valid() && Settled(t) && PartHolds(t, raw)
      requires (forall p :: p in parts ==> Apart(p, t)) && (forall h :: h in handed ==> Apart(h.slice, t))
      modifies this`parts, this`raws
      ensures Valid() && parts == old(parts) + [t] && raws == old(raws) + [raw]
    {
      hide Apart, Disjoint, Clear, Holds;
      DisjointSnoc(parts, t);
      ClearOfPart(handed, parts, t);
      parts := parts + [t];
      raws := raws + [raw];
    }

    /** Taking a region out of reach of later reads. */
    method Settle(s: Slice, t: Slice)
      requires Valid() && Writable(s)
      requires t.buf == s.buf && t.lo == s.lo && t.lo + CHUNK_HEADER_SIZE < t.hi <= s.hi
      modifies this`used, this`spare
      ensures Valid() && Settled(t)
      ensures used == (if s.buf == arena then t.hi else old(used))
    {
      hide Disjoint, Clear, Holds;
      if s.buf == arena {
        used := t.hi;
      } else {
        spare := null;
      }
    }

    /** Writing the header gap of a region nobody was handed leaves every payload and
        every message as it was. */
    twostate lemma GapIsNobodys(t: Slice)
      requires old(Valid()) && t in parts && (forall h :: h in handed ==> h.slice != t)
      requires unchanged(this) && (forall b :: b in Repr && b != t.buf ==> unchanged(b))
      requires forall k :: 0 <= k < t.buf.Length && !(t.lo <= k < t.lo + CHUNK_HEADER_SIZE) ==>
        t.buf[k] == old(t.buf[k])
      ensures Valid()
    {
      var mine :| 0 <= mine < |parts| && parts[mine] == t;
      forall i | 0 <= i < |parts| ensures PartHolds(parts[i], raws[i]) {
        assert old(PartHolds(parts[i], raws[i])) && Settled(parts[i]);
        assert i < mine ==> Apart(parts[i], parts[mine]);
        assert mine < i ==> Apart(parts[mine], parts[i]);
      }
      forall i | 0 <= i < |handed| ensures Holds(handed[i].slice.buf, handed[i].slice.lo, handed[i].msg) {
        var h := handed[i];
        assert Settled(h.slice) && |h.msg| == h.slice.hi - h.slice.lo;
        assert Apart(h.slice, parts[mine]);
        assert old(Holds(h.slice.buf, h.slice.lo, h.msg));
        forall k | h.slice.lo <= k < h.slice.lo + |h.msg| ensures h.slice.buf[k] == h.msg[k - h.slice.lo] {
          assert h.slice.buf[k] == old(h.slice.buf[k]);
        }
      }
    }

    /** Framing a raw chunk where it was read: only its own header gap is written, and
        from then on the region is a published message. */
    method FrameInPlace(i: nat, s: uint32, index: uint32) returns (msg: bytes)
      requires Valid() && i < |parts| && Unframed(i)
      modifies this`handed, parts[i].buf
      ensures Valid() && msg == AppendChunk([], s, index, CODEC_RAW, raws[i])
      ensures handed == old(handed) + [Handed(parts[i], msg)]
    {
      hide Apart, Disjoint, Clear, Unframed, AppendChunkHeader, Holds, Bufs;
      var t := parts[i];
      NotHanded(i);
      PutChunkHeader(t.buf, t.lo, s, index, CODEC_RAW);
      GapIsNobodys(t);
      HeldPart(parts, raws, i);
      FramedIs(t, raws[i]);
      msg := t.buf[t.lo..t.hi];
      KeptSnoc(handed, Handed(t, msg));
      ClearOfHanded(handed, parts, Handed(t, msg));
      handed := handed + [Handed(t, msg)];
    }

    lemma NotHanded(i: nat)
      requires i < |parts| && Unframed(i)
      ensures forall h :: h in handed ==> h.slice != parts[i]
    {
    }

    ghost predicate Unframed(i: nat)
      reads this
      requires i < |parts|
    {
      forall h :: h in handed ==> h.slice != parts[i]
    }

    /** Two regions of one ledger are never the same region. */
    lemma PartsDiffer(i: nat)
      requires Valid() && i < |parts|
      ensures forall j :: i < j < |parts| ==> parts[i] != parts[j]
    {
      forall j | i < j < |parts| ensures parts[i] != parts[j] {
        assert Settled(parts[i]) && Apart(parts[i], parts[j]);
      }
    }

    /** The payload of one region, read where it lies. */
    method Data(i: nat) returns (raw: bytes)
      requires Valid() && i < |parts|
      ensures raw == raws[i]
    {
      HeldPart(parts, raws, i);
      var t := parts[i];
      raw := t.buf[t.lo + CHUNK_HEADER_SIZE..t.hi];
    }

    /** What the store is given to retain: every payload in order. */
    method Payloads() returns (out: seq<bytes>)
      requires Valid()
      ensures out == raws
    {
      out := [];
      while |out| < |parts|
        invariant out <= raws
      {
        var raw := Data(|out|);
        out := out + [raw];
      }
    }

    /** One turn of the read loop up to handing the chunk on: read into a region, check
        the cap, and make what was read the next message. total is what this ledger's
        chunks add up to. */
    method Next(body: Body, total: nat, ghost size: nat) returns (n: nat, err: ReadError, over: bool)
      requires Valid() && body.pos <= |body.data|
      modifies this`used, this`spare, this`parts, this`raws, this`Repr, Repr, body
      ensures Valid() && fresh(Repr - old(Repr)) && handed == old(handed) && arena == old(arena)
      ensures body.pos == old(body.pos) + n <= |body.data|
      ensures err == Eof ==> body.pos == |body.data|
      ensures err == NoError ==> 0 < n
      ensures old(body.asked) <= body.asked
      ensures err == NoError || err == Eof <==> AllWell(body.answers, old(body.asked), body.asked)
      ensures err == Cancelled ==> Cancels(body.answers)
      ensures n <= chunkSize && (over <==> n > 0 && total + n > MAX_PAYLOAD)
      ensures var took := if n > 0 && !over then [body.data[old(body.pos)..body.pos]] else []; raws == old(raws) + took
      ensures old(parts) <= parts
      ensures |parts| == |raws| && forall i :: |old(parts)| <= i < |parts| ==> Unframed(i)
      ensures |body.data| <= size && old(Even(size, body.data, body.pos)) && !over ==>
        && (err == NoError ==> Even(size, body.data, body.pos))
        && (err == NoError || err == Eof ==> CutAt(body.data, body.pos))
    {
      hide Apart, AllHold, Holds, Disjoint, Kept, Clear, Settled, AllSettled, CutEvenly, FullChunks;
      hide AllWell, Cancels;
      OnePayloadEach();
      ghost var pos, had, at, even := body.pos, raws, used, |body.data| <= size && Even(size, body.data, body.pos);
      over := false;
      var s := Region();
      n, err := Fill(body, s);
      if even {
        ReadEvenly(chunkSize, size, arena.Length, had, body.data, pos, at, n);
      }
      if n > 0 {
        if total + n > MAX_PAYLOAD {
          over := true;
          return;
        }
        Commit(s, n, body.data[pos..pos + n]);
      }
    }

    /** What has been read is cut at every chunkSize bytes, all of it in the arena. */
    ghost predicate CutAt(data: bytes, pos: nat)
      reads this
      requires chunkSize > 0 && pos <= |data|
    {
      CutEvenly(chunkSize, raws, data, pos) && forall t :: t in parts ==> t.buf == arena
    }

    lemma NothingCut(size: nat, data: bytes)
      requires chunkSize > 0 && raws == [] && parts == [] && used == 0 && arena.Length == Room(size, chunkSize)
      ensures size > 0 ==> Even(size, data, 0)
    {
      assert data[0..] == data;
    }

    /** The same in mid-body: only full chunks so far, in an arena made for size bytes. */
    ghost predicate Even(size: nat, data: bytes, pos: nat)
      reads this
      requires chunkSize > 0 && pos <= |data|
    {
      CutAt(data, pos) && FullChunks(chunkSize, size, arena.Length, |raws|, pos, used)
    }
  }

  // -------------------------------------------------------- the arena's formula

  /** The arena for a ledger of a declared size: a header for every chunk, and to spare. */
  function Room(size: nat, chunkSize: nat): nat
    requires chunkSize > 0
  {
    if size > 0 then size + (size / chunkSize + 2) * CHUNK_HEADER_SIZE else 0
  }

  predicate CutEvenly(chunkSize: nat, raws: seq<bytes>, data: bytes, pos: nat)
    requires chunkSize > 0 && pos <= |data|
  {
    raws + Split(data[pos..], chunkSize) == Split(data, chunkSize)
  }

  predicate FullChunks(chunkSize: nat, size: nat, room: nat, k: nat, pos: nat, used: nat)
    requires chunkSize > 0
  {
    && 0 < size && room == Room(size, chunkSize)
    && pos == k * chunkSize && used == k * CHUNK_HEADER_SIZE + pos
  }

  /** A read of n bytes that filled its region, or met the end of the body: the region
      came from the arena, and what was read is one more even piece. */
  lemma ReadEvenly(chunkSize: nat, size: nat, room: nat, raws: seq<bytes>, data: bytes, pos: nat, used: nat, n: nat)
    requires chunkSize > 0 && pos + n <= |data| <= size
    requires CutEvenly(chunkSize, raws, data, pos) && FullChunks(chunkSize, size, room, |raws|, pos, used)
    ensures used + CHUNK_HEADER_SIZE + 1 <= room
    ensures
      var payload := Min(used + CHUNK_HEADER_SIZE + chunkSize, room) - used - CHUNK_HEADER_SIZE;
      && (n == payload ==>
            && n == chunkSize && CutEvenly(chunkSize, raws + [data[pos..pos + n]], data, pos + n)
            && FullChunks(chunkSize, size, room, |raws| + 1, pos + n, used + CHUNK_HEADER_SIZE + n))
      && (0 < n <= payload && pos + n == |data| ==> CutEvenly(chunkSize, raws + [data[pos..pos + n]], data, pos + n))
  {
    hide Room, Split;
    RegionFits(size, chunkSize, |raws|, pos, |data|, used, room);
    assert (|raws| + 1) * chunkSize == |raws| * chunkSize + chunkSize;
    if pos < |data| && n == Min(chunkSize, |data| - pos) {
      CutSnoc(raws, data, pos, n, chunkSize);
    }
  }

  /** With k full chunks behind it, a read of a body no longer than declared always
      gets its region from the arena, and one that fits a whole chunk or more than is
      left of the body. */
  lemma RegionFits(size: nat, chunkSize: nat, k: nat, pos: nat, len: nat, used: nat, room: nat)
    requires chunkSize > 0 && 0 < size && pos == k * chunkSize && pos <= len <= size
    requires used == k * CHUNK_HEADER_SIZE + pos
    requires room == Room(size, chunkSize)
    ensures used + CHUNK_HEADER_SIZE + 1 <= room
    ensures
      var payload := Min(used + CHUNK_HEADER_SIZE + chunkSize, room) - used - CHUNK_HEADER_SIZE;
      payload == chunkSize || payload > len - pos
  {
    assert k <= size / chunkSize by {
      QuotientCovers(size, chunkSize, k);
    }
  }

  lemma Monotone(a: nat, b: nat, c: nat)
    requires a <= b
    ensures a * c <= b * c
  {
    assert b * c == a * c + (b - a) * c;
  }

  lemma QuotientCovers(size: nat, chunkSize: nat, k: nat)
    requires chunkSize > 0 && k * chunkSize <= size
    ensures k <= size / chunkSize
  {
    var q := size / chunkSize;
    assert (q + 1) * chunkSize > size;
    if k > q {
      Monotone(q + 1, k, chunkSize);
    }
  }

  /** The next piece of a body cut at every chunkSize bytes. */
  lemma CutSnoc(raws: seq<bytes>, data: bytes, pos: nat, n: nat, chunkSize: nat)
    requires chunkSize > 0 && pos < |data| && n == Min(chunkSize, |data| - pos)
    requires raws + Split(data[pos..], chunkSize) == Split(data, chunkSize)
    ensures raws + [data[pos..pos + n]] + Split(data[pos + n..], chunkSize) == Split(data, chunkSize)
  {
    SplitAt(data, chunkSize, pos);
    hide Split;
    assert raws + [data[pos..pos + n]] + Split(data[pos + n..], chunkSize)
        == raws + ([data[pos..pos + n]] + Split(data[pos + n..], chunkSize));
  }
}
