/** The disk-backed retention ring (internal/store/store.go), over a directory whose
    every change of the ledger files is remembered, so that each of them can be
    asked about as the state a crash would leave behind. */
module Store {
  import opened Prelude
  import opened Retention
  import opened LedgerFiles

  datatype StoreError = NotRetained | InvalidSequence

  /** The directory. past is the history of its ledger files, one entry for each
      removal and each rename; seen is the history of all its files, temporary ones
      included: what a crash could leave behind. */
  class Directory {
    var files: Files
    ghost var past: seq<Disk>
    ghost var seen: seq<Files>

    constructor (files: Files)
      ensures this.files == files && past == [] && seen == []
    {
      this.files := files;
      past, seen := [], [];
    }

    /** os.Remove, with a missing file ignored. */
    method Remove(s: uint32)
      modifies this
      ensures Ledgers(files) == old(Ledgers(files)) - {s}
      ensures old(Canonical(files)) ==> Canonical(files)
      ensures past == old(past) + [old(Ledgers(files)) - {s}]
      ensures seen == old(seen) + [files]
    {
      LedgersRemove(files, s);
      files := files - {LedgerFileName(s)};
      past, seen := past + [Ledgers(files)], seen + [files];
    }

    /** write: the parts go to a temporary file one after another, and the rename
        publishes them under the ledger's name all at once. */
    method Write(s: uint32, parts: seq<bytes>)
      modifies this
      ensures Ledgers(files) == old(Ledgers(files))[s := Concat(parts)]
      ensures old(Canonical(files)) ==> Canonical(files)
      ensures past == old(past) + [Ledgers(files)]
      ensures Followed(old(Canonical(files)), old(seen), old(past), old(Ledgers(files)), seen, past)
    {
      hide LedgerFileName, Canonical, Ledgers, Followed;
      var tmp := LedgerFileName(s) + TMP_SUFFIX;
      WriteTmp(s, tmp, parts);
      ghost var tmpSeen, tmpPast := seen, past;
      Rename(s, tmp);
      OneFollowed(old(Canonical(files)), old(seen), old(past), old(Ledgers(files)), tmpSeen, tmpPast, files);
    }

    method WriteTmp(s: uint32, tmp: string, parts: seq<bytes>)
      requires tmp == LedgerFileName(s) + TMP_SUFFIX
      modifies this
      ensures tmp in files && files[tmp] == Concat(parts)
      ensures Ledgers(files) == old(Ledgers(files)) && past == old(past)
      ensures old(Canonical(files)) ==> Canonical(files)
      ensures Followed(old(Canonical(files)), old(seen), old(past), old(Ledgers(files)), seen, past)
    {
      hide LedgerFileName, Canonical, Ledgers, Followed;
      ghost var seen0, d, whole := seen, Ledgers(files), Canonical(files);
      NothingFollowed(whole, seen, past, d);
      LedgersTmp(files, s, []);
      TmpFollowed(whole, seen0, past, d, seen, past, files[tmp := []]);
      files := files[tmp := []];
      seen := seen + [files];
      var i := 0;
      assert parts[..0] == [];
      while i < |parts|
        invariant 0 <= i <= |parts|
        invariant tmp in files && files[tmp] == Concat(parts[..i])
        invariant Ledgers(files) == d && past == old(past)
        invariant whole ==> Canonical(files)
        invariant Followed(whole, seen0, past, d, seen, past)
      {
        var longer := files[tmp] + parts[i];
        LedgersTmp(files, s, longer);
        ConcatSnoc(parts[..i], parts[i]);
        assert parts[..i + 1] == parts[..i] + [parts[i]];
        TmpFollowed(whole, seen0, past, d, seen, past, files[tmp := longer]);
        files := files[tmp := longer];
        seen := seen + [files];
        i := i + 1;
      }
      assert parts[..|parts|] == parts;
    }

    /** os.Rename: the temporary file becomes the ledger's in one change. */
    method Rename(s: uint32, tmp: string)
      requires tmp == LedgerFileName(s) + TMP_SUFFIX && tmp in files
      modifies this
      ensures Ledgers(files) == old(Ledgers(files))[s := old(files[tmp])]
      ensures old(Canonical(files)) ==> Canonical(files)
      ensures past == old(past) + [Ledgers(files)] && seen == old(seen) + [files]
    {
      hide LedgerFileName, Canonical;
      var raw := files[tmp];
      LedgersTmp(files, s, []);
      files := files - {tmp};
      LedgersWrite(files, s, raw);
      files := files[LedgerFileName(s) := raw];
      past, seen := past + [Ledgers(files)], seen + [files];
    }
  }

  /** Since seen0 and past0, with the ledgers then d0: both histories only grew, and of
      a directory with canonical names everything seen since has had canonical names, and
      the ledgers of d0 or of a state past records. */
  ghost predicate Followed(whole: bool, seen0: seq<Files>, past0: seq<Disk>, d0: Disk, seen: seq<Files>,
                           past: seq<Disk>)
  {
    && seen0 <= seen && past0 <= past
    && (whole ==> forall i :: |seen0| <= i < |seen| ==>
          Canonical(seen[i]) && (Ledgers(seen[i]) == d0 || Ledgers(seen[i]) in past[|past0|..]))
  }

  lemma NothingFollowed(whole: bool, seen: seq<Files>, past: seq<Disk>, d: Disk)
    ensures Followed(whole, seen, past, d, seen, past)
  {
  }

  /** A change of a temporary file. */
  lemma TmpFollowed(whole: bool, seen0: seq<Files>, past0: seq<Disk>, d0: Disk, seen: seq<Files>, past: seq<Disk>,
                    files: Files)
    requires Followed(whole, seen0, past0, d0, seen, past)
    requires whole ==> Canonical(files) && Ledgers(files) == d0
    ensures Followed(whole, seen0, past0, d0, seen + [files], past)
  {
    hide Canonical, Ledgers;
  }

  /** A change of a ledger's file. */
  lemma OneFollowed(whole: bool, seen0: seq<Files>, past0: seq<Disk>, d0: Disk, seen: seq<Files>, past: seq<Disk>,
                    files: Files)
    requires Followed(whole, seen0, past0, d0, seen, past)
    requires whole ==> Canonical(files)
    ensures Followed(whole, seen0, past0, d0, seen + [files], past + [Ledgers(files)])
  {
    hide Canonical, Ledgers;
    var later := past + [Ledgers(files)];
    assert later[|past0|..] == past[|past0|..] + [Ledgers(files)];
  }

  lemma FollowedJoins(whole: bool, seen0: seq<Files>, past0: seq<Disk>, d0: Disk,
                      seen1: seq<Files>, past1: seq<Disk>, seen2: seq<Files>, past2: seq<Disk>)
    requires Followed(whole, seen0, past0, d0, seen1, past1)
    requires Followed(whole, seen1, past1, Last(d0, past1[|past0|..]), seen2, past2)
    ensures Followed(whole, seen0, past0, d0, seen2, past2)
  {
    hide Ledgers, Canonical;
    assert past2[|past0|..] == past1[|past0|..] + past2[|past1|..];
    if whole {
      forall i | |seen0| <= i < |seen2|
        ensures Canonical(seen2[i]) && (Ledgers(seen2[i]) == d0 || Ledgers(seen2[i]) in past2[|past0|..])
      {
        if i < |seen1| {
          assert seen2[i] == seen1[i];
        }
      }
    }
  }

  class LedgerStore {
    const dir: Directory
    const retention: nat
    var oldest: uint32
    var latest: uint32
    var filled: bool

    ghost function Index(): Ring
      reads this
    {
      Ring(oldest, latest, filled)
    }

    ghost function Retained(): Disk
      reads this, dir
    {
      Ledgers(dir.files)
    }

    /** The index describes the files, and no file pretends to be a ledger. */
    ghost predicate Valid()
      reads this, dir
    {
      retention > 0 && Canonical(dir.files) && IndexOk(Index(), Retained())
    }

    constructor (dir: Directory, retention: nat)
      ensures this.dir == dir && this.retention == retention && Index() == EMPTY
    {
      this.dir, this.retention := dir, retention;
      oldest, latest, filled := 0, 0, false;
    }

    /** Open: a directory is taken over exactly when its names repeat no sequence and
        leave no gap; what it holds is then shrunk to the newest retention ledgers. */
    static method Open(dir: Directory, retention: int) returns (store: Option<LedgerStore>)
      modifies dir
      ensures store.Some? <==> retention > 0 && old(Openable(dir.files.Keys))
      ensures store.None? ==> unchanged(dir)
      ensures store.Some? ==> fresh(store.value) && store.value.dir == dir && store.value.retention == retention
      ensures store.Some? ==> KeptNewest(old(dir.files), dir.files, store.value.Index(), retention)
      ensures store.Some? && old(Canonical(dir.files) && 0 !in Ledgers(dir.files)) ==> store.value.Valid()
      ensures store.Some? && old(Canonical(dir.files)) ==>
        && old(dir.seen) <= dir.seen
        && forall i :: |old(dir.seen)| <= i < |dir.seen| ==> Shrunk(old(Ledgers(dir.files)), retention, dir.seen[i])
    {
      if retention <= 0 {
        return None;
      }
      var s := new LedgerStore(dir, retention);
      var ok := s.Rescan();
      if !ok {
        return None;
      }
      ghost var index := s.Index();
      s.PruneLocked();
      PruneKeeps(old(dir.files), index, dir.files, s.Index(), retention);
      if old(Canonical(dir.files)) {
        KeptIsIndexed(old(dir.files), dir.files, s.Index(), retention);
        SpansIndexes(old(dir.files), index);
        AllShrunk(old(Ledgers(dir.files)), index, retention, old(dir.seen), old(dir.past), dir.seen, dir.past);
      }
      store := Some(s);
    }

    /** rescan: the bounds are those of the names found. */
    method Rescan() returns (ok: bool)
      requires Index() == EMPTY
      modifies this
      ensures ok <==> Openable(dir.files.Keys)
      ensures ok ==> Spans(dir.files.Keys, Index())
      ensures !ok ==> Index() == EMPTY
    {
      hide LedgerFileName, ParseLedgerFileName, Openable, Named;
      var found := ScanLedgerDir(dir.files);
      if found.None? {
        return false;
      }
      var seqs := found.value;
      if |seqs| > 0 {
        oldest, latest, filled := seqs[0], seqs[|seqs| - 1], true;
        DenseIsInterval(seqs);
      }
      ok := true;
    }

    /** pruneLocked: the oldest ledgers go one at a time until retention are left. */
    method PruneLocked()
      requires retention > 0 && (filled ==> oldest <= latest)
      modifies this`oldest, dir
      ensures !filled ==> unchanged(this) && unchanged(dir)
      ensures filled ==> oldest == Max(old(oldest), latest - retention + 1)
      ensures filled ==> Retained() == Last(old(Retained()), Removals(old(Retained()), old(oldest), oldest))
      ensures filled ==> dir.past == old(dir.past) + Removals(old(Retained()), old(oldest), oldest)
      ensures old(Canonical(dir.files)) ==> Canonical(dir.files)
      ensures Followed(old(Canonical(dir.files)), old(dir.seen), old(dir.past), old(Retained()), dir.seen, dir.past)
    {
      hide LedgerFileName, Removing, Canonical, Ledgers, Removals, Last, Followed;
      ghost var whole, seen0, past0, d0 := Canonical(dir.files), dir.seen, dir.past, Retained();
      NothingFollowed(whole, seen0, past0, d0);
      if !filled {
        return;
      }
      ghost var end := Max(oldest, latest - retention + 1);
      ghost var goal := dir.past + Removals(Retained(), oldest, end);
      ghost var last := Last(Retained(), Removals(Retained(), oldest, end));
      RemovingStarts(dir.past, Retained(), oldest, end);
      while latest - oldest + 1 > retention
        invariant old(oldest) <= oldest <= end
        invariant Removing(dir.past, Retained(), oldest, end, goal, last)
        invariant whole ==> Canonical(dir.files)
        invariant Followed(whole, seen0, past0, d0, dir.seen, dir.past)
        decreases latest - oldest
        modifies this`oldest, dir
      {
        RemovingStep(dir.past, Retained(), oldest, end, goal, last);
        ghost var seen1, past1 := dir.seen, dir.past;
        dir.Remove(oldest);
        OneFollowed(whole, seen0, past0, d0, seen1, past1, dir.files);
        oldest := oldest + 1;
      }
      RemovingDone(dir.past, Retained(), end, goal, last);
    }

    /** clearLocked. Breaking after the last sequence keeps the loop finite when latest
        is the last representable one, where a successor would wrap to 0. */
    method ClearLocked()
      requires filled && oldest <= latest
      modifies this, dir
      ensures Index() == EMPTY
      ensures dir.past == old(dir.past) + Removals(old(Retained()), old(oldest), old(latest) + 1)
      ensures Retained() == Last(old(Retained()), Removals(old(Retained()), old(oldest), old(latest) + 1))
      ensures old(Canonical(dir.files)) ==> Canonical(dir.files)
      ensures Followed(old(Canonical(dir.files)), old(dir.seen), old(dir.past), old(Retained()), dir.seen, dir.past)
    {
      RemoveAll(oldest, latest);
      oldest, latest, filled := 0, 0, false;
    }

    method RemoveAll(first: uint32, last: uint32)
      requires first <= last
      modifies dir
      ensures dir.past == old(dir.past) + Removals(old(Retained()), first, last + 1)
      ensures Retained() == Last(old(Retained()), Removals(old(Retained()), first, last + 1))
      ensures old(Canonical(dir.files)) ==> Canonical(dir.files)
      ensures Followed(old(Canonical(dir.files)), old(dir.seen), old(dir.past), old(Retained()), dir.seen, dir.past)
    {
      hide LedgerFileName, Removing, Canonical, Ledgers, Removals, Last, Followed;
      ghost var whole, seen0, past0, d0 := Canonical(dir.files), dir.seen, dir.past, Retained();
      NothingFollowed(whole, seen0, past0, d0);
      ghost var goal := dir.past + Removals(Retained(), first, last + 1);
      ghost var end := Last(Retained(), Removals(Retained(), first, last + 1));
      RemovingStarts(dir.past, Retained(), first, last + 1);
      var s := first;
      while true
        invariant first <= s <= last
        invariant Removing(dir.past, Retained(), s, last + 1, goal, end)
        invariant whole ==> Canonical(dir.files)
        invariant Followed(whole, seen0, past0, d0, dir.seen, dir.past)
        decreases last - s
      {
        RemovingStep(dir.past, Retained(), s, last + 1, goal, end);
        ghost var seen1, past1 := dir.seen, dir.past;
        dir.Remove(s);
        OneFollowed(whole, seen0, past0, d0, seen1, past1, dir.files);
        if s == last {
          break;
        }
        s := Succ32(s);
      }
      RemovingDone(dir.past, Retained(), last + 1, goal, end);
    }

    /** put: the ring moves exactly as PutRing and PutSpec say, and the disk passes
        through exactly the states of PutTrace, in that order. */
    method Put(s: uint32, parts: seq<bytes>) returns (r: Result<bool, StoreError>)
      requires Valid()
      modifies this, dir
      ensures Valid()
      ensures s == 0 <==> r == Err(InvalidSequence)
      ensures s == 0 ==> unchanged(this) && unchanged(dir)
      ensures s != 0 ==> r == Ok(Resets(old(Index()), s))
      ensures s != 0 ==> Index() == PutRing(old(Index()), s, retention)
      ensures s != 0 ==> Retained() == PutSpec(old(Index()), old(Retained()), s, Concat(parts), retention)
      ensures s != 0 ==>
        dir.past == old(dir.past) + PutTrace(old(Index()), old(Retained()), s, Concat(parts), retention)
      ensures s != 0 ==> old(dir.seen) <= dir.seen && forall i :: |old(dir.seen)| <= i < |dir.seen| ==>
        LeftBehind(old(Index()), old(Retained()), s, Concat(parts), retention, dir.seen[i])
    {
      if s == 0 {
        return Err(InvalidSequence);
      }
      ghost var r0, d0, raw, past0 := Index(), Retained(), Concat(parts), dir.past;
      PutComposes(r0, d0, past0, s, raw, retention);
      hide Index, Retained, Valid, IndexOk, Removals, PutSpec, PutTrace, Concat, Cleared, Clearing, Oldest, Low,
           PutRing, Written;
      hide Followed, LeftBehind;
      ghost var seen0 := dir.seen;
      var reset := ResetFor(s);
      ghost var seen1, past1 := dir.seen, dir.past;
      Append(s, parts);
      r := Ok(reset);
      PutIsValid(r0, d0, s, raw);
      FollowedJoins(true, seen0, past0, d0, seen1, past1, dir.seen, dir.past);
      AllLeftBehind(r0, d0, s, raw, retention, seen0, past0, dir.seen, dir.past);
    }

    lemma PutIsValid(r0: Ring, d0: Disk, s: uint32, raw: bytes)
      requires retention > 0 && Canonical(dir.files)
      requires s != 0 && IndexOk(r0, d0)
      requires IndexOk(PutRing(r0, s, retention), PutSpec(r0, d0, s, raw, retention))
      requires Index() == PutRing(r0, s, retention) && Retained() == PutSpec(r0, d0, s, raw, retention)
      ensures Valid()
    {
    }

    /** Write the ledger, move the bounds, prune. */
    method Append(s: uint32, parts: seq<bytes>)
      requires retention > 0 && Canonical(dir.files) && (filled ==> oldest <= s)
      modifies this, dir
      ensures filled && latest == s
      ensures oldest == (if old(filled) then Max(old(oldest), s - retention + 1) else s)
      ensures
        var written := old(Retained())[s := Concat(parts)];
        var lo := if old(filled) then old(oldest) else s;
        && dir.past == old(dir.past) + [written] + Removals(written, lo, oldest)
        && Retained() == Last(written, Removals(written, lo, oldest))
      ensures Canonical(dir.files)
      ensures Followed(true, old(dir.seen), old(dir.past), old(Retained()), dir.seen, dir.past)
    {
      hide LedgerFileName, Removals, Canonical, Ledgers, Concat, Followed;
      ghost var seen0, past0, d0 := dir.seen, dir.past, Retained();
      dir.Write(s, parts);
      ghost var seen1, past1 := dir.seen, dir.past;
      assert past1[|past0|..] == [Retained()];
      if filled {
        latest := s;
      } else {
        oldest, latest, filled := s, s, true;
      }
      PruneLocked();
      FollowedJoins(true, seen0, past0, d0, seen1, past1, dir.seen, dir.past);
    }

    /** A sequence that does not continue the ring empties it first. */
    method ResetFor(s: uint32) returns (reset: bool)
      requires Valid() && s != 0
      modifies this, dir
      ensures reset == Resets(old(Index()), s)
      ensures Index() == (if reset then EMPTY else old(Index()))
      ensures Retained() == Cleared(old(Index()), s, old(Retained()))
      ensures dir.past == old(dir.past) + Clearing(old(Index()), old(Retained()), s)
      ensures Retained() == Last(old(Retained()), dir.past[|old(dir.past)|..])
      ensures Canonical(dir.files)
      ensures Followed(true, old(dir.seen), old(dir.past), old(Retained()), dir.seen, dir.past)
    {
      hide LedgerFileName, Removals, Canonical, Ledgers, Cleared, Indexes, Last, Followed;
      NothingFollowed(true, dir.seen, dir.past, Retained());
      assert dir.past[|dir.past|..] == [] && Last(Retained(), []) == Retained() by {
        LastOfNone(Retained());
      }
      ClearedIsLast(Index(), Retained(), s);
      reset := filled && s != Succ32(latest);
      if reset {
        ClearLocked();
      }
    }

    /** Get, when nothing else is writing: a ledger within the bounds whose own file is
        there, else ErrNotRetained; when the index describes the files, exactly what is
        retained. */
    method Get(s: uint32) returns (r: Result<bytes, StoreError>)
      ensures r == (if filled && oldest <= s <= latest && s in Retained() then Ok(Retained()[s]) else Err(NotRetained))
      ensures Valid() ==> r == (if s in Retained() then Ok(Retained()[s]) else Err(NotRetained))
    {
      hide LedgerFileName;
      if !filled || s < oldest || s > latest {
        return Err(NotRetained);
      }
      if LedgerFileName(s) !in dir.files {
        return Err(NotRetained);
      }
      r := Ok(dir.files[LedgerFileName(s)]);
    }
  }

  /** The index says what the names say. */
  ghost predicate Spans(names: set<string>, r: Ring) {
    if r.filled then r.oldest <= r.latest && NamedFrom(names, r.oldest, r.latest + 1)
    else r == EMPTY && NamedFrom(names, 0, 0)
  }

  /** What Open leaves of a directory: of the range its names span the newest retention
      ledgers, with their files, and the bounds to match. */
  ghost predicate KeptNewest(before: Files, after: Files, r: Ring, retention: nat)
    requires retention > 0
  {
    && (NamedFrom(before.Keys, 0, 0) ==> r == EMPTY && after == before)
    && (forall lo: nat, hi: nat :: lo < hi <= U32 && NamedFrom(before.Keys, lo, hi) ==>
          && r == Ring(Max(lo, hi - retention), hi - 1, true)
          && Ledgers(after) == NewestFrom(Ledgers(before), r.oldest))
  }

  lemma PruneKeeps(before: Files, found: Ring, after: Files, r: Ring, retention: nat)
    requires retention > 0 && Spans(before.Keys, found)
    requires !found.filled ==> r == found && after == before
    requires found.filled ==>
      && r == Ring(Max(found.oldest, found.latest - retention + 1), found.latest, true)
      && Ledgers(after) == Last(Ledgers(before), Removals(Ledgers(before), found.oldest, r.oldest))
    ensures KeptNewest(before, after, r, retention)
  {
    hide Named, LedgerFileName, Removals;
    if found.filled {
      PrunedBelow(Ledgers(before), found.oldest, r.oldest);
      forall s: uint32 | s in Ledgers(before) ensures Named(before.Keys, s) {
        LedgerIsNamed(before, s);
      }
    }
    forall lo: nat, hi: nat | lo < hi <= U32 && NamedFrom(before.Keys, lo, hi)
      ensures found.filled && found.oldest == lo && found.latest == hi - 1
    {
      var first: uint32, last: uint32 := lo, hi - 1;
      assert Named(before.Keys, first) && Named(before.Keys, last);
      if found.filled {
        assert Named(before.Keys, found.oldest) && Named(before.Keys, found.latest);
      }
    }
    if found.filled {
      assert Named(before.Keys, found.oldest);
    }
  }

  /** Of canonical names, the bounds then describe the files, and every file is one that
      was there. */
  lemma KeptIsIndexed(before: Files, after: Files, r: Ring, retention: nat)
    requires retention > 0 && KeptNewest(before, after, r, retention)
    requires Canonical(before) && Openable(before.Keys)
    ensures Indexes(r, Ledgers(after)) && Within(Ledgers(after), Ledgers(before))
    ensures Ledgers(before) == map[] ==> r == EMPTY
  {
    CanonicalOpens(before);
    hide LedgerFileName, Canonical, Named, Ledgers, KeptNewest;
    var lo: int, hi: int :| NamedFrom(before.Keys, lo, hi);
    SameRange(before.Keys, lo, hi);
    KeptOfRange(before, after, r, retention, Max(lo, 0), Max(Max(lo, 0), Min(hi, U32)));
  }

  lemma KeptOfRange(before: Files, after: Files, r: Ring, retention: nat, from: nat, to: nat)
    requires retention > 0 && KeptNewest(before, after, r, retention)
    requires NamedFrom(before.Keys, from, to) && Interval(Ledgers(before), from, to)
    requires from <= to && (from < to ==> to <= U32) && (from == to ==> NamedFrom(before.Keys, 0, 0))
    ensures Indexes(r, Ledgers(after)) && Within(Ledgers(after), Ledgers(before))
    ensures Ledgers(before) == map[] ==> r == EMPTY
  {
    hide Named, Ledgers;
    if from == to {
      assert Ledgers(before) == map[];
    } else {
      var first: uint32 := from;
      assert first in Ledgers(before);
    }
  }

  lemma SameRange(names: set<string>, lo: int, hi: int)
    requires NamedFrom(names, lo, hi)
    ensures var from, to := Max(lo, 0), Max(Max(lo, 0), Min(hi, U32));
      NamedFrom(names, from, to) && (from == to ==> NamedFrom(names, 0, 0))
      && (from < to ==> to <= U32)
  {
    hide Named;
  }

  lemma LedgerIsNamed(files: Files, s: uint32)
    requires s in Ledgers(files)
    ensures Named(files.Keys, s)
  {
    ParseName(s);
    assert LedgerFileName(s) in files.Keys;
  }

  /** Removing upward from lo, where nothing is below it, keeps what is not below hi. */
  lemma {:induction false} PrunedBelow(d: Disk, lo: nat, hi: nat)
    requires hi <= U32
    ensures Last(d, Removals(d, lo, hi)) == (map s | s in d && !(lo <= s < hi) :: d[s])
    decreases hi - lo
  {
    if lo < hi {
      PrunedBelow(d - {lo}, lo + 1, hi);
      LastOfCons(d, d - {lo}, Removals(d - {lo}, lo + 1, hi));
    }
  }

  /** A crash somewhere in Put(s) leaves these files: what was there before, or what one of
      its changes made of it, with whatever temporary file. */
  ghost predicate LeftBehind(r: Ring, d: Disk, s: uint32, raw: bytes, retention: nat, files: Files)
    requires retention > 0 && (r.filled && !Resets(r, s) ==> r.oldest <= s)
  {
    Canonical(files) && (Ledgers(files) == d || Ledgers(files) in PutTrace(r, d, s, raw, retention))
  }

  lemma AllLeftBehind(r: Ring, d: Disk, s: uint32, raw: bytes, retention: nat,
                      seen0: seq<Files>, past0: seq<Disk>, seen: seq<Files>, past: seq<Disk>)
    requires retention > 0 && (r.filled && !Resets(r, s) ==> r.oldest <= s)
    requires Followed(true, seen0, past0, d, seen, past) && past == past0 + PutTrace(r, d, s, raw, retention)
    ensures seen0 <= seen && forall i :: |seen0| <= i < |seen| ==> LeftBehind(r, d, s, raw, retention, seen[i])
  {
    hide Canonical, Ledgers, PutTrace;
    assert past[|past0|..] == PutTrace(r, d, s, raw, retention);
  }

  /** A crash somewhere in Open leaves these files: a directory that can be opened again,
      of what was there before, with none of the newest retention ledgers missing. */
  ghost predicate Shrunk(before: Disk, retention: int, files: Files) {
    && Canonical(files) && Openable(files.Keys) && Within(Ledgers(files), before)
    && forall lo: nat, hi: nat :: lo < hi <= U32 && Interval(before, lo, hi) ==>
      Covers(Ledgers(files), Max(lo, hi - retention), hi)
  }

  lemma SpansIndexes(files: Files, r: Ring)
    requires Canonical(files) && Spans(files.Keys, r)
    ensures Indexes(r, Ledgers(files))
  {
    CanonicalOpens(files);
    hide Canonical, Named, Ledgers;
    if r.filled {
      assert NamedFrom(files.Keys, r.oldest, r.latest + 1);
    } else {
      assert Interval(Ledgers(files), 0, 0);
    }
  }

  lemma AllShrunk(d: Disk, found: Ring, retention: nat,
                  seen0: seq<Files>, past0: seq<Disk>, seen: seq<Files>, past: seq<Disk>)
    requires retention > 0 && Indexes(found, d) && Followed(true, seen0, past0, d, seen, past)
    requires !found.filled ==> seen == seen0
    requires found.filled ==>
      past == past0 + Removals(d, found.oldest, Max(found.oldest, found.latest - retention + 1))
    ensures seen0 <= seen && forall i :: |seen0| <= i < |seen| ==> Shrunk(d, retention, seen[i])
  {
    hide Canonical, Ledgers, Removals, Shrunk, Interval;
    if found.filled {
      var kept := Max(found.oldest, found.latest - retention + 1);
      assert past[|past0|..] == Removals(d, found.oldest, kept);
      forall i | |seen0| <= i < |seen| ensures Shrunk(d, retention, seen[i]) {
        IsShrunk(d, found.oldest, kept, found.latest + 1, retention, seen[i]);
      }
    }
  }

  lemma IsShrunk(d: Disk, lo: nat, kept: nat, top: nat, retention: nat, files: Files)
    requires lo <= kept < top <= U32 && Interval(d, lo, top) && kept == Max(lo, top - retention)
    requires Canonical(files) && (Ledgers(files) == d || Ledgers(files) in Removals(d, lo, kept))
    ensures Shrunk(d, retention, files)
  {
    hide Canonical, Ledgers, Removals, Openable;
    CanonicalOpens(files);
    RemovalsShrink(d, lo, kept, top);
    var from: nat;
    if Ledgers(files) == d {
      from := lo;
    } else {
      var i :| 0 <= i < |Removals(d, lo, kept)| && Removals(d, lo, kept)[i] == Ledgers(files);
      from := lo + i + 1;
    }
    assert Interval(Ledgers(files), from, top);
    forall l: nat, h: nat | l < h <= U32 && Interval(d, l, h) ensures l == lo && h == top {
      SameInterval(d, l, h, lo, top);
    }
  }

  lemma SameInterval(d: Disk, l: nat, h: nat, lo: nat, top: nat)
    requires l < h <= U32 && lo < top <= U32 && Interval(d, l, h) && Interval(d, lo, top)
    ensures l == lo && h == top
  {
    var first: uint32, last: uint32 := l, h - 1;
    assert first in d && last in d;
    first, last := lo, top - 1;
    assert first in d && last in d;
  }

  /** So however often an Open is cut short and tried again, the next one still finds the
      newest ledgers there were. */
  lemma ShrunkAgain(before: Disk, retention: nat, files: Files, again: Files)
    requires retention > 0 && Shrunk(before, retention, files) && Shrunk(Ledgers(files), retention, again)
    ensures Shrunk(before, retention, again)
  {
    hide Canonical, Ledgers, Openable;
    CanonicalOpens(files);
    forall lo: nat, hi: nat | lo < hi <= U32 && Interval(before, lo, hi)
      ensures Covers(Ledgers(again), Max(lo, hi - retention), hi)
    {
      var from := ShrunkRange(before, retention, files, lo, hi);
      assert Covers(Ledgers(again), Max(from, hi - retention), hi);
    }
  }

  lemma ShrunkRange(before: Disk, retention: nat, files: Files, lo: nat, hi: nat) returns (from: nat)
    requires retention > 0 && Shrunk(before, retention, files) && lo < hi <= U32 && Interval(before, lo, hi)
    ensures lo <= from <= Max(lo, hi - retention) && Interval(Ledgers(files), from, hi)
  {
    hide Canonical, Ledgers, Openable;
    CanonicalOpens(files);
    var l: int, h: int :| Interval(Ledgers(files), l, h);
    from := Max(l, 0);
    RangeFrom(Ledgers(files), before, l, h, lo, hi, Max(lo, hi - retention));
  }

  lemma RangeFrom(d: Disk, before: Disk, l: int, h: int, lo: nat, hi: nat, kept: nat)
    requires Interval(d, l, h) && Within(d, before) && Interval(before, lo, hi)
    requires lo <= kept < hi <= U32 && Covers(d, kept, hi)
    ensures lo <= Max(l, 0) <= kept && Interval(d, Max(l, 0), hi)
  {
    var cut: uint32, last: uint32 := kept, hi - 1;
    assert cut in d && last in d;
    var first: uint32 := Max(l, 0);
    assert first in d;
  }

  lemma LastOfNone(d: Disk)
    ensures Last(d, []) == d
  {
  }

  ghost predicate IndexOk(r: Ring, d: Disk) {
    Indexes(r, d) && 0 !in d
  }

  function NewestFrom(d: Disk, lo: nat): Disk {
    map s | s in d && s >= lo :: d[s]
  }

  /** With d on disk after past, removing lo..hi-1 will complete goal and leave last. */
  ghost predicate Removing(past: seq<Disk>, d: Disk, lo: nat, hi: nat, goal: seq<Disk>, last: Disk) {
    hi <= U32 && past + Removals(d, lo, hi) == goal && Last(d, Removals(d, lo, hi)) == last
  }

  lemma RemovingStarts(past: seq<Disk>, d: Disk, lo: nat, hi: nat)
    requires hi <= U32
    ensures Removing(past, d, lo, hi, past + Removals(d, lo, hi), Last(d, Removals(d, lo, hi)))
  {
  }

  lemma RemovingStep(past: seq<Disk>, d: Disk, lo: nat, hi: nat, goal: seq<Disk>, last: Disk)
    requires Removing(past, d, lo, hi, goal, last) && lo < hi
    ensures Removing(past + [d - {lo}], d - {lo}, lo + 1, hi, goal, last)
  {
    var next := d - {lo};
    RemovalsUnfold(d, lo, hi);
    hide Removals;
    LastOfCons(d, next, Removals(next, lo + 1, hi));
    assert past + [next] + Removals(next, lo + 1, hi) == past + ([next] + Removals(next, lo + 1, hi));
  }

  lemma RemovalsUnfold(d: Disk, lo: nat, hi: nat)
    requires lo < hi <= U32
    ensures Removals(d, lo, hi) == [d - {lo}] + Removals(d - {lo}, lo + 1, hi)
  {
  }

  lemma LastOfCons(d: Disk, next: Disk, rest: seq<Disk>)
    ensures Last(d, [next] + rest) == Last(next, rest)
  {
  }

  lemma RemovingDone(past: seq<Disk>, d: Disk, hi: nat, goal: seq<Disk>, last: Disk)
    requires Removing(past, d, hi, hi, goal, last)
    ensures past == goal && d == last
  {
  }

  /** Pruning from the old end keeps exactly the newest ledgers. */
  lemma PrunedIs(d: Disk, lo: nat, hi: nat, top: nat)
    requires lo <= hi <= top <= U32 && Interval(d, lo, top)
    ensures Interval(Last(d, Removals(d, lo, hi)), hi, top)
    ensures Last(d, Removals(d, lo, hi)) == NewestFrom(d, hi)
  {
    RemovalsShrink(d, lo, hi, top);
    RemovalsValues(d, lo, hi);
    var all := Removals(d, lo, hi);
    if |all| > 0 {
      assert all[|all| - 1] in all;
      assert Interval(all[|all| - 1], hi, top);
    }
  }

  lemma PutZeroFree(r: Ring, d: Disk, s: uint32, raw: bytes, retention: nat)
    requires 0 !in d && s != 0
    ensures 0 !in PutSpec(r, d, s, raw, retention)
  {
  }

  /** The removals that empty a ring s does not continue. */
  function Clearing(r: Ring, d: Disk, s: uint32): seq<Disk> {
    if Resets(r, s) then Removals(d, r.oldest, r.latest + 1) else []
  }

  /** Clearing, writing and pruning one after another add up to PutTrace. */
  lemma PutComposes(r: Ring, d: Disk, past: seq<Disk>, s: uint32, raw: bytes, retention: nat)
    requires IndexOk(r, d) && s != 0 && retention > 0
    ensures
      var written := Cleared(r, s, d)[s := raw];
      var pruning := Removals(written, Low(r, s), Oldest(r, s, retention));
      && past + PutTrace(r, d, s, raw, retention) == past + Clearing(r, d, s) + [written] + pruning
      && Last(written, pruning) == PutSpec(r, d, s, raw, retention)
    ensures Oldest(r, s, retention) == (if r.filled && !Resets(r, s) then Max(r.oldest, s - retention + 1) else s)
    ensures Low(r, s) == (if r.filled && !Resets(r, s) then r.oldest else s) <= s
    ensures PutRing(r, s, retention) == Ring(Oldest(r, s, retention), s, true)
    ensures IndexOk(PutRing(r, s, retention), PutSpec(r, d, s, raw, retention))
  {
    hide Removals;
    PutEnds(r, d, s, raw, retention);
    PutZeroFree(r, d, s, raw, retention);
    WrittenInterval(r, d, s, raw);
  }

  lemma ClearedIsLast(r: Ring, d: Disk, s: uint32)
    requires Indexes(r, d)
    ensures r.filled ==> r.oldest <= r.latest
    ensures Resets(r, s) ==> Last(d, Removals(d, r.oldest, r.latest + 1)) == Cleared(r, s, d)
    ensures !Resets(r, s) ==> Cleared(r, s, d) == d
  {
    if Resets(r, s) {
      PrunedIs(d, r.oldest, r.latest + 1, r.latest + 1);
    }
  }

  /** Crash safety: whatever Put had got to, the directory can be opened, each of its
      ledgers is an old one or the whole new one, and unless the ring was being reset
      none that Put would have kept is missing. */
  lemma CrashReopens(r: Ring, d: Disk, s: uint32, raw: bytes, retention: nat, files: Files)
    requires IndexOk(r, d) && s != 0 && retention > 0 && (r.filled && !Resets(r, s) ==> r.oldest <= s)
    requires LeftBehind(r, d, s, raw, retention, files)
    ensures Openable(files.Keys) && Canonical(files) && 0 !in Ledgers(files)
    ensures From(Ledgers(files), d, s, raw)
    ensures r.filled && !Resets(r, s) ==> Covers(Ledgers(files), Oldest(r, s, retention), s)
  {
    hide PutTrace, Ledgers, Openable, Canonical;
    if Ledgers(files) == d {
      if r.filled {
        assert Interval(d, r.oldest, r.latest + 1);
      } else {
        assert Interval(d, 0, 0);
      }
    } else {
      var trace := PutTrace(r, d, s, raw, retention);
      var i :| 0 <= i < |trace| && trace[i] == Ledgers(files);
      PutStates(r, d, s, raw, retention, i);
    }
    CanonicalOpens(files);
  }

  /** A Get that checked the bounds before a Put took the lock may find the directory in any
      of the states on the way: its ledger's file is then whole, old or just written, and
      is missing only when that Put is resetting the ring or prunes that far. */
  lemma GetDuringPut(r: Ring, d: Disk, s: uint32, raw: bytes, retention: nat, files: Files, wanted: uint32)
    requires IndexOk(r, d) && s != 0 && retention > 0 && r.filled && r.oldest <= wanted <= r.latest
    requires !Resets(r, s) ==> r.oldest <= s
    requires LeftBehind(r, d, s, raw, retention, files)
    ensures LedgerFileName(wanted) in files ==>
      || files[LedgerFileName(wanted)] == d[wanted]
      || (wanted == s && files[LedgerFileName(wanted)] == raw)
    ensures LedgerFileName(wanted) !in files ==> Resets(r, s) || wanted < Oldest(r, s, retention)
  {
    CrashReopens(r, d, s, raw, retention, files);
    assert wanted in d;
    hide LeftBehind, Canonical, Openable, LedgerFileName, Oldest;
  }

  /** The same of an Open that was itself cut short after such a crash. */
  lemma CrashInOpenReopens(r: Ring, d: Disk, s: uint32, raw: bytes, was: nat, files: Files, retention: nat,
                           again: Files)
    requires IndexOk(r, d) && s != 0 && was > 0 && (r.filled && !Resets(r, s) ==> r.oldest <= s)
    requires LeftBehind(r, d, s, raw, was, files) && retention > 0 && Shrunk(Ledgers(files), retention, again)
    ensures Openable(again.Keys) && Canonical(again) && 0 !in Ledgers(again)
    ensures From(Ledgers(again), d, s, raw)
  {
    CrashReopens(r, d, s, raw, was, files);
    hide LeftBehind, Canonical, Ledgers, Openable, Indexes, Covers;
  }

  /** And opening it restores the store: valid, with exactly the newest of those ledgers. */
  method Reopen(ghost r: Ring, ghost d: Disk, ghost s: uint32, ghost raw: bytes, ghost was: nat, files: Files,
                retention: nat)
    returns (store: Option<LedgerStore>)
    requires IndexOk(r, d) && s != 0 && was > 0 && (r.filled && !Resets(r, s) ==> r.oldest <= s)
    requires LeftBehind(r, d, s, raw, was, files) && retention > 0
    ensures store.Some? && fresh(store.value) && store.value.Valid()
    ensures From(store.value.Retained(), d, s, raw)
    ensures forall lo: nat, hi: nat :: lo < hi <= U32 && Interval(Ledgers(files), lo, hi) ==>
      && store.value.Index() == Ring(Max(lo, hi - retention), hi - 1, true)
      && store.value.Retained() == NewestFrom(Ledgers(files), store.value.oldest)
    ensures Ledgers(files) == map[] ==> store.value.Index() == EMPTY && store.value.Retained() == map[]
  {
    hide LeftBehind, Openable, Canonical, Ledgers, IndexOk, Interval, KeptNewest, From, LedgerStore.Valid, Shrunk;
    CrashReopens(r, d, s, raw, was, files);
    var dir := new Directory(files);
    store := LedgerStore.Open(dir, retention);
    ReopenedIs(files, dir.files, store.value.Index(), retention, d, s, raw);
  }

  lemma ReopenedIs(before: Files, after: Files, r: Ring, retention: nat, d: Disk, s: uint32, raw: bytes)
    requires retention > 0 && KeptNewest(before, after, r, retention)
    requires Canonical(before) && Openable(before.Keys) && From(Ledgers(before), d, s, raw)
    ensures From(Ledgers(after), d, s, raw)
    ensures forall lo: nat, hi: nat :: lo < hi <= U32 && Interval(Ledgers(before), lo, hi) ==>
      r == Ring(Max(lo, hi - retention), hi - 1, true) && Ledgers(after) == NewestFrom(Ledgers(before), r.oldest)
    ensures Ledgers(before) == map[] ==> r == EMPTY && Ledgers(after) == map[]
  {
    CanonicalOpens(before);
    KeptIsIndexed(before, after, r, retention);
    hide Canonical, Ledgers, Openable, Named, Interval;
  }

  /** The store over a directory holding just "ledger-007.xdr" opens with ledger 7 within
      its bounds, and cannot read it. */
  method PaddedStore(raw: bytes, retention: nat) returns (oldest: uint32, latest: uint32, r: Result<bytes, StoreError>)
    requires retention > 0
    ensures oldest == latest == 7 && r == Err(NotRetained)
  {
    PaddedNameIsUnreadable(raw);
    hide Openable, Ledgers, LedgerFileName, ParseLedgerFileName, Named;
    var dir := new Directory(map["ledger-007.xdr" := raw]);
    var store := LedgerStore.Open(dir, retention);
    oldest, latest := store.value.oldest, store.value.latest;
    r := store.value.Get(7);
  }
}
