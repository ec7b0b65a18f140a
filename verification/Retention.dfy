/** The retention ring as values: the bounds kept in memory, the final-named
    ledger files on disk, and every disk state one Put passes through
    (internal/store/store.go). */
module Retention {
  import opened Prelude

  /** The final-named ledger files, by sequence. */
  type Disk = map<uint32, bytes>

  /** The in-memory index: oldest and latest mean something only when filled. */
  datatype Ring = Ring(oldest: uint32, latest: uint32, filled: bool)

  const EMPTY := Ring(0, 0, false)

  /** Exactly the ledgers lo..hi-1 have a file. */
  ghost predicate Interval(d: Disk, lo: int, hi: int) {
    forall s: uint32 :: s in d <==> lo <= s < hi
  }

  /** The files form one contiguous range, or there are none. */
  ghost predicate Contiguous(d: Disk) {
    exists lo: int, hi: int :: Interval(d, lo, hi)
  }

  ghost predicate Within(d: Disk, whole: Disk) {
    forall s :: s in d ==> s in whole && d[s] == whole[s]
  }

  /** The index describes the disk. */
  ghost predicate Indexes(r: Ring, d: Disk) {
    if r.filled then r.oldest <= r.latest && Interval(d, r.oldest, r.latest + 1) else d == map[]
  }

  // ------------------------------------------------------------- what Put does

  /** The disk after each os.Remove of lo, lo+1, .., hi-1. */
  function Removals(d: Disk, lo: nat, hi: nat): seq<Disk>
    requires hi <= U32
    decreases hi - lo
  {
    if lo >= hi then [] else [d - {lo}] + Removals(d - {lo}, lo + 1, hi)
  }

  /** A sequence that does not continue the ring empties it first. */
  predicate Resets(r: Ring, s: uint32) {
    r.filled && s != Succ32(r.latest)
  }

  /** The oldest ledger left once s is stored and the ring pruned. */
  function Oldest(r: Ring, s: uint32, retention: nat): uint32
    requires r.filled && !Resets(r, s) ==> r.oldest <= s
    requires retention > 0
  {
    if r.filled && !Resets(r, s) then Max(r.oldest, s - retention + 1) else s
  }

  function Cleared(r: Ring, s: uint32, d: Disk): Disk {
    if Resets(r, s) then map t | t in d && !(r.oldest <= t <= r.latest) :: d[t] else d
  }

  /** Every disk state Put passes through, in order: the clearing removals, the
      rename that publishes the ledger, the pruning removals. */
  function PutTrace(r: Ring, d: Disk, s: uint32, raw: bytes, retention: nat): seq<Disk>
    requires retention > 0
    requires r.filled && !Resets(r, s) ==> r.oldest <= s
  {
    var clearing := if Resets(r, s) then Removals(d, r.oldest, r.latest + 1) else [];
    var written := Written(r, d, s, raw);
    clearing + [written] + Removals(written, Low(r, s), Oldest(r, s, retention))
  }

  function PutRing(r: Ring, s: uint32, retention: nat): Ring
    requires retention > 0
    requires r.filled && !Resets(r, s) ==> r.oldest <= s
  {
    Ring(Oldest(r, s, retention), s, true)
  }

  function Last(d: Disk, trace: seq<Disk>): Disk {
    if |trace| == 0 then d else trace[|trace| - 1]
  }

  // -------------------------------------------------------------------- proofs

  /** Removing upward from the oldest leaves a contiguous suffix at every step. */
  lemma {:induction false} RemovalsShrink(d: Disk, lo: nat, hi: nat, top: nat)
    requires lo <= hi <= top <= U32
    requires Interval(d, lo, top)
    ensures |Removals(d, lo, hi)| == hi - lo
    ensures forall i :: 0 <= i < hi - lo ==> Interval(Removals(d, lo, hi)[i], lo + i + 1, top)
    ensures forall i :: 0 <= i < hi - lo ==> Within(Removals(d, lo, hi)[i], d)
    decreases hi - lo
  {
    if lo < hi {
      var next := d - {lo};
      RemovalsShrink(next, lo + 1, hi, top);
      var rest := Removals(next, lo + 1, hi);
      assert Removals(d, lo, hi) == [next] + rest;
      forall i | 0 <= i < hi - lo
        ensures Interval(Removals(d, lo, hi)[i], lo + i + 1, top)
        ensures Within(Removals(d, lo, hi)[i], d)
      {
        if i > 0 {
          assert Removals(d, lo, hi)[i] == rest[i - 1];
        }
      }
    }
  }

  /** What a reader may find in a file: what was there before, or the new ledger. */
  ghost predicate From(x: Disk, d: Disk, s: uint32, raw: bytes) {
    forall t :: t in x ==> (t in d && x[t] == d[t]) || (t == s && x[t] == raw)
  }

  /** Every ledger in from..to-1 still has its file. */
  ghost predicate Covers(x: Disk, from: int, to: int) {
    forall t: uint32 :: from <= t < to ==> t in x
  }

  /** The ledger just published, whatever preceded it. */
  function Written(r: Ring, d: Disk, s: uint32, raw: bytes): Disk {
    Cleared(r, s, d)[s := raw]
  }

  function Low(r: Ring, s: uint32): uint32 {
    if r.filled && !Resets(r, s) then r.oldest else s
  }

  lemma WrittenInterval(r: Ring, d: Disk, s: uint32, raw: bytes)
    requires Indexes(r, d) && s != 0
    ensures Low(r, s) <= s
    ensures Interval(Written(r, d, s, raw), Low(r, s), s + 1)
    ensures From(Written(r, d, s, raw), d, s, raw)
  {
  }

  /** Crash safety: at whatever point Put is cut short, the final-named files are
      one contiguous range or nothing, each holding an old ledger's bytes or the
      whole new one; and unless the ring was reset, nothing above the new oldest
      ledger is ever missing meanwhile. */
  lemma PutStates(r: Ring, d: Disk, s: uint32, raw: bytes, retention: nat, i: nat)
    requires Indexes(r, d) && s != 0 && retention > 0
    requires i < |PutTrace(r, d, s, raw, retention)|
    ensures Contiguous(PutTrace(r, d, s, raw, retention)[i])
    ensures From(PutTrace(r, d, s, raw, retention)[i], d, s, raw)
    ensures r.filled && !Resets(r, s) ==>
      Covers(PutTrace(r, d, s, raw, retention)[i], Oldest(r, s, retention), s)
  {
    var clearing := if Resets(r, s) then Removals(d, r.oldest, r.latest + 1) else [];
    var written := Written(r, d, s, raw);
    var pruning := Removals(written, Low(r, s), Oldest(r, s, retention));
    var trace := PutTrace(r, d, s, raw, retention);
    assert trace == clearing + [written] + pruning;
    hide *;
    if i < |clearing| {
      WhileClearing(r, d, s, raw, i);
    } else {
      WhilePruning(r, d, s, raw, retention, i - |clearing|);
    }
  }

  lemma WhileClearing(r: Ring, d: Disk, s: uint32, raw: bytes, i: nat)
    requires Indexes(r, d) && Resets(r, s) && i < |Removals(d, r.oldest, r.latest + 1)|
    ensures var x := Removals(d, r.oldest, r.latest + 1)[i]; Contiguous(x) && From(x, d, s, raw)
  {
    RemovalsShrink(d, r.oldest, r.latest + 1, r.latest + 1);
    assert Interval(Removals(d, r.oldest, r.latest + 1)[i], r.oldest + i + 1, r.latest + 1);
  }

  lemma WhilePruning(r: Ring, d: Disk, s: uint32, raw: bytes, retention: nat, j: nat)
    requires Indexes(r, d) && s != 0 && retention > 0 && (r.filled && !Resets(r, s) ==> r.oldest <= s)
    requires var written := Written(r, d, s, raw);
      j < |[written] + Removals(written, Low(r, s), Oldest(r, s, retention))|
    ensures var written := Written(r, d, s, raw);
      var x := ([written] + Removals(written, Low(r, s), Oldest(r, s, retention)))[j];
      Contiguous(x) && From(x, d, s, raw) && Covers(x, Oldest(r, s, retention), s)
  {
    var written := Written(r, d, s, raw);
    var pruning := Removals(written, Low(r, s), Oldest(r, s, retention));
    WrittenInterval(r, d, s, raw);
    hide Written, Removals, Indexes;
    if j == 0 {
      assert Interval(written, Low(r, s), s + 1);
    } else {
      RemovalsShrink(written, Low(r, s), Oldest(r, s, retention), s + 1);
      assert ([written] + pruning)[j] == pruning[j - 1];
      assert Interval(pruning[j - 1], Low(r, s) + j, s + 1);
    }
  }

  /** When Put is done the index describes the disk again, and what is kept is
      exactly the newest ledgers, at most retention of them. */
  lemma PutEnds(r: Ring, d: Disk, s: uint32, raw: bytes, retention: nat)
    requires Indexes(r, d) && s != 0 && retention > 0
    ensures Indexes(PutRing(r, s, retention), Last(d, PutTrace(r, d, s, raw, retention)))
    ensures Last(d, PutTrace(r, d, s, raw, retention)) == PutSpec(r, d, s, raw, retention)
  {
    var clearing := if Resets(r, s) then Removals(d, r.oldest, r.latest + 1) else [];
    var written := Written(r, d, s, raw);
    var pruning := Removals(written, Low(r, s), Oldest(r, s, retention));
    var trace := PutTrace(r, d, s, raw, retention);
    assert trace == clearing + [written] + pruning;
    WrittenInterval(r, d, s, raw);
    RemovalsShrink(written, Low(r, s), Oldest(r, s, retention), s + 1);
    RemovalsValues(written, Low(r, s), Oldest(r, s, retention));
    if |pruning| > 0 {
      assert Last(d, trace) == pruning[|pruning| - 1];
    } else {
      assert Last(d, trace) == written;
    }
    assert Interval(Last(d, trace), Oldest(r, s, retention), s + 1);
  }

  /** The ring as a finite map: the old window with s added when s continues it,
      or s alone when it does not, cut to the newest retention ledgers. */
  function PutSpec(r: Ring, d: Disk, s: uint32, raw: bytes, retention: nat): Disk {
    var kept: Disk := if Resets(r, s) then map[] else d;
    var full := kept[s := raw];
    map t | t in full && t > s - retention :: full[t]
  }

  /** Removal changes which ledgers have a file, never what a file holds. */
  lemma {:induction false} RemovalsValues(d: Disk, lo: nat, hi: nat)
    requires hi <= U32
    ensures forall x :: x in Removals(d, lo, hi) ==> Within(x, d)
    decreases hi - lo
  {
    if lo < hi {
      RemovalsValues(d - {lo}, lo + 1, hi);
    }
  }

  /** The ring after storing the n ledgers first, first + 1, .. of a history. */
  function PutRun(r: Ring, d: Disk, history: uint32 -> bytes, first: uint32, n: nat, retention: nat)
    : (after: (Ring, Disk))
    requires retention > 0 && first + n <= U32 && first > 0
    requires !r.filled
    ensures n > 0 ==> after.0.filled && after.0.oldest <= after.0.latest == first + n - 1
  {
    if n == 0 then (r, d)
    else
      var (ring, disk) := PutRun(r, d, history, first, n - 1, retention);
      var s: uint32 := first + n - 1;
      (PutRing(ring, s, retention), PutSpec(ring, disk, s, history(s), retention))
  }

  /** Storing consecutive ledgers keeps exactly the newest retention of them, each
      with its own bytes: the ring is a sliding window on the history. */
  lemma {:induction false} PutRunIsWindow(r: Ring, d: Disk, history: uint32 -> bytes, first: uint32, n: nat,
                                          retention: nat)
    requires retention > 0 && first + n <= U32 && first > 0 && Indexes(r, d) && !r.filled && n > 0
    ensures
      var (ring, disk) := PutRun(r, d, history, first, n, retention);
      var lo := Max(first, first + n - retention);
      && ring == Ring(lo, first + n - 1, true) && Interval(disk, lo, first + n)
      && forall s :: s in disk ==> disk[s] == history(s)
  {
    if n > 1 {
      PutRunIsWindow(r, d, history, first, n - 1, retention);
    }
    var (ring, disk) := PutRun(r, d, history, first, n - 1, retention);
    var s: uint32 := first + n - 1;
    WindowMoves(ring, disk, if n > 1 then ring.oldest else s, s, history(s), retention);
    hide PutSpec, PutRing, Resets;
  }

  /** One more ledger on top of the window, or on an empty ring. */
  lemma WindowMoves(r: Ring, d: Disk, lo: uint32, s: uint32, raw: bytes, retention: nat)
    requires retention > 0 && s > 0 && lo <= s && Indexes(r, d)
    requires if r.filled then r.oldest == lo && r.latest == s - 1 else lo == s
    ensures PutRing(r, s, retention) == Ring(Max(lo, s - retention + 1), s, true)
    ensures Interval(PutSpec(r, d, s, raw, retention), Max(lo, s - retention + 1), s + 1)
    ensures From(PutSpec(r, d, s, raw, retention), d, s, raw)
  {
  }
}
