/** The retention directory's files: their names, what a scan of them reports, and
    the ledgers they stand for (internal/store/store.go). */
module LedgerFiles {
  import opened Prelude
  import opened Decimal
  import opened Retention

  const FILE_PREFIX := "ledger-"
  const FILE_SUFFIX := ".xdr"
  const TMP_SUFFIX := ".tmp"

  /** A directory: regular files by name. */
  type Files = map<string, bytes>

  function LedgerFileName(s: uint32): string {
    FILE_PREFIX + Print(s) + FILE_SUFFIX
  }

  predicate HasSuffix(name: string, suffix: string) {
    |suffix| <= |name| && name[|name| - |suffix|..] == suffix
  }

  function ParseLedgerFileName(name: string): Option<uint32> {
    if !(FILE_PREFIX <= name) || !HasSuffix(name, FILE_SUFFIX) then None
    else
      NoOverlap(name);
      ParseUint32(name[|FILE_PREFIX|..|name| - |FILE_SUFFIX|])
  }

  /** The prefix holds no dot, so the two affixes cannot share characters and the
      slice between them is always in range. */
  lemma NoOverlap(name: string)
    requires FILE_PREFIX <= name && HasSuffix(name, FILE_SUFFIX)
    ensures |name| >= |FILE_PREFIX| + |FILE_SUFFIX|
  {
    var k := |name| - |FILE_SUFFIX|;
    assert name[k] == name[k..][0] == '.';
    assert forall i :: 0 <= i < |FILE_PREFIX| ==> FILE_PREFIX[i] != '.';
    assert forall i :: 0 <= i < |FILE_PREFIX| ==> name[i] == FILE_PREFIX[i];
  }

  lemma ParseName(s: uint32)
    ensures ParseLedgerFileName(LedgerFileName(s)) == Some(s)
  {
    var name := LedgerFileName(s);
    assert name[|FILE_PREFIX|..|name| - |FILE_SUFFIX|] == Print(s);
    assert name[|name| - |FILE_SUFFIX|..] == FILE_SUFFIX;
    ParsePrint(s);
  }

  /** And a name is taken for a ledger exactly when it is that one's own but for leading
      zeros. */
  lemma NameIsSpelling(name: string, s: uint32)
    ensures ParseLedgerFileName(name) == Some(s)
      <==> exists digits: string :: name == FILE_PREFIX + digits + FILE_SUFFIX && Spells(digits, s)
  {
    hide ParseUint32, Spells;
    if ParseLedgerFileName(name).Some? {
      NoOverlap(name);
      var digits := name[|FILE_PREFIX|..|name| - |FILE_SUFFIX|];
      assert name == FILE_PREFIX + digits + name[|name| - |FILE_SUFFIX|..];
      ParsesSpellings(digits, s);
    }
    if digits: string :| name == FILE_PREFIX + digits + FILE_SUFFIX && Spells(digits, s) {
      assert name[|FILE_PREFIX|..|name| - |FILE_SUFFIX|] == digits;
      assert name[|name| - |FILE_SUFFIX|..] == FILE_SUFFIX;
      ParsesSpellings(digits, s);
    }
  }

  lemma NamesDiffer(s: uint32, t: uint32)
    requires s != t
    ensures LedgerFileName(s) != LedgerFileName(t)
  {
    ParseName(s);
    ParseName(t);
  }

  /** A half-written ledger is invisible: its temporary name is no ledger's name. */
  lemma TmpIsNoLedger(s: uint32)
    ensures ParseLedgerFileName(LedgerFileName(s) + TMP_SUFFIX) == None
    ensures forall t: uint32 :: LedgerFileName(t) != LedgerFileName(s) + TMP_SUFFIX
  {
    var tmp := LedgerFileName(s) + TMP_SUFFIX;
    assert tmp[|tmp| - |FILE_SUFFIX|..] == TMP_SUFFIX;
    forall t: uint32 ensures LedgerFileName(t) != tmp {
      ParseName(t);
    }
  }

  // ------------------------------------------------------------- as ledgers

  /** The ledgers a reader can find: those with a file of their own name. */
  ghost function Ledgers(files: Files): (d: Disk)
    ensures forall s: uint32 :: s in d <==> LedgerFileName(s) in files
    ensures forall s :: s in d ==> d[s] == files[LedgerFileName(s)]
  {
    map s: uint32 | 0 <= s < U32 && LedgerFileName(s) in files :: files[LedgerFileName(s)]
  }

  /** Every file the scan takes for a ledger has that ledger's own name. */
  predicate Canonical(files: Files) {
    forall name :: name in files && ParseLedgerFileName(name).Some? ==>
      name == LedgerFileName(ParseLedgerFileName(name).value)
  }

  lemma LedgersRemove(files: Files, s: uint32)
    ensures Ledgers(files - {LedgerFileName(s)}) == Ledgers(files) - {s}
    ensures Canonical(files) ==> Canonical(files - {LedgerFileName(s)})
  {
    hide LedgerFileName, ParseLedgerFileName;
    forall t: uint32 | t != s ensures LedgerFileName(t) != LedgerFileName(s) {
      NamesDiffer(s, t);
    }
  }

  lemma LedgersWrite(files: Files, s: uint32, raw: bytes)
    ensures Ledgers(files[LedgerFileName(s) := raw]) == Ledgers(files)[s := raw]
    ensures Canonical(files) ==> Canonical(files[LedgerFileName(s) := raw])
  {
    hide LedgerFileName, ParseLedgerFileName;
    ParseName(s);
    forall t: uint32 | t != s ensures LedgerFileName(t) != LedgerFileName(s) {
      NamesDiffer(s, t);
    }
  }

  lemma LedgersTmp(files: Files, s: uint32, part: bytes)
    ensures Ledgers(files[LedgerFileName(s) + TMP_SUFFIX := part]) == Ledgers(files)
    ensures Ledgers(files - {LedgerFileName(s) + TMP_SUFFIX}) == Ledgers(files)
    ensures Canonical(files) ==> Canonical(files[LedgerFileName(s) + TMP_SUFFIX := part])
    ensures Canonical(files) ==> Canonical(files - {LedgerFileName(s) + TMP_SUFFIX})
  {
    hide LedgerFileName, ParseLedgerFileName;
    TmpIsNoLedger(s);
  }

  // -------------------------------------------------------------- the scan

  predicate Sorted(a: seq<uint32>) {
    forall i, j :: 0 <= i < j < |a| ==> a[i] <= a[j]
  }

  predicate Ascending(a: seq<uint32>) {
    forall i, j :: 0 <= i < j < |a| ==> a[i] < a[j]
  }

  predicate Dense(a: seq<uint32>) {
    forall i :: 0 <= i < |a| ==> a[i] == a[0] + i
  }

  /** The sequences some file's name parses to. */
  ghost predicate Named(names: set<string>, s: uint32) {
    exists name :: name in names && ParseLedgerFileName(name) == Some(s)
  }

  /** No two names parse to the same sequence. */
  predicate Unique(names: set<string>) {
    forall a, b ::
      a in names && b in names && ParseLedgerFileName(a).Some? && ParseLedgerFileName(a) == ParseLedgerFileName(b)
      ==> a == b
  }

  /** One element of slices.Sort's result at a time. */
  method Insert(a: seq<uint32>, s: uint32) returns (b: seq<uint32>)
    requires Sorted(a)
    ensures Sorted(b)
    ensures forall t :: t in b <==> t in a || t == s
    ensures Ascending(b) <==> Ascending(a) && s !in a
  {
    var i := 0;
    while i < |a| && a[i] < s
      invariant 0 <= i <= |a|
      invariant forall j :: 0 <= j < i ==> a[j] < s
    {
      i := i + 1;
    }
    b := a[..i] + [s] + a[i..];
    Inserted(a, s, i);
  }

  /** Where each element of a ends up. */
  lemma InsertedAt(a: seq<uint32>, s: uint32, i: nat, j: nat)
    requires i <= |a| && j <= |a|
    ensures (a[..i] + [s] + a[i..])[j] == (if j < i then a[j] else if j == i then s else a[j - 1])
  {
  }

  lemma Inserted(a: seq<uint32>, s: uint32, i: nat)
    requires Sorted(a) && i <= |a|
    requires forall j :: 0 <= j < i ==> a[j] < s
    requires i < |a| ==> s <= a[i]
    ensures Sorted(a[..i] + [s] + a[i..])
    ensures forall t :: t in a[..i] + [s] + a[i..] <==> t in a || t == s
    ensures Ascending(a[..i] + [s] + a[i..]) <==> Ascending(a) && s !in a
  {
    InsertedSorted(a, s, i);
    InsertedMembers(a, s, i);
    hide Sorted;
    if Ascending(a) && s !in a {
      InsertedAscends(a, s, i);
    }
    if Ascending(a[..i] + [s] + a[i..]) {
      AscendingWithout(a, s, i);
    }
  }

  lemma InsertedSorted(a: seq<uint32>, s: uint32, i: nat)
    requires Sorted(a) && i <= |a|
    requires forall j :: 0 <= j < i ==> a[j] < s
    requires i < |a| ==> s <= a[i]
    ensures Sorted(a[..i] + [s] + a[i..])
  {
    var b := a[..i] + [s] + a[i..];
    forall j, k | 0 <= j < k < |b| ensures b[j] <= b[k] {
      InsertedAt(a, s, i, j);
      InsertedAt(a, s, i, k);
    }
  }

  lemma InsertedMembers(a: seq<uint32>, s: uint32, i: nat)
    requires i <= |a|
    ensures forall t :: t in a[..i] + [s] + a[i..] <==> t in a || t == s
  {
    assert a == a[..i] + a[i..];
  }

  lemma InsertedAscends(a: seq<uint32>, s: uint32, i: nat)
    requires Ascending(a) && s !in a && i <= |a|
    requires forall j :: 0 <= j < i ==> a[j] < s
    requires i < |a| ==> s <= a[i]
    ensures Ascending(a[..i] + [s] + a[i..])
  {
    var b := a[..i] + [s] + a[i..];
    assert i < |a| ==> s < a[i];
    forall j, k | 0 <= j < k < |b| ensures b[j] < b[k] {
      InsertedAt(a, s, i, j);
      InsertedAt(a, s, i, k);
    }
  }

  lemma AscendingWithout(a: seq<uint32>, s: uint32, i: nat)
    requires i <= |a| && Ascending(a[..i] + [s] + a[i..])
    ensures Ascending(a) && s !in a
  {
    var b := a[..i] + [s] + a[i..];
    InsertedAt(a, s, i, i);
    forall j | 0 <= j < |a| ensures a[j] == b[if j < i then j else j + 1] && a[j] != s {
      InsertedAt(a, s, i, if j < i then j else j + 1);
    }
    forall j, k | 0 <= j < k < |a| ensures a[j] < a[k] {
      assert b[if j < i then j else j + 1] < b[if k < i then k else k + 1];
    }
  }

  /** Sorted without repeats and filling an interval means no gap. */
  lemma IntervalIsDense(a: seq<uint32>, lo: int, hi: int)
    requires Ascending(a) && forall s: uint32 :: s in a <==> lo <= s < hi
    ensures Dense(a)
  {
    if |a| > 0 {
      DensePrefix(a, lo, hi, |a|);
    }
  }

  lemma {:induction false} DensePrefix(a: seq<uint32>, lo: int, hi: int, n: nat)
    requires Ascending(a) && (forall s: uint32 :: s in a <==> lo <= s < hi) && 0 < n <= |a|
    ensures forall i :: 0 <= i < n ==> a[i] == a[0] + i
  {
    if n > 1 {
      DensePrefix(a, lo, hi, n - 1);
      assert a[0] in a && a[n - 1] in a;
      var next: uint32 := a[n - 2] + 1;
      assert next in a;
      var j :| 0 <= j < |a| && a[j] == next;
    }
  }

  /** The sequences named are exactly lo..hi-1. */
  ghost predicate NamedFrom(names: set<string>, lo: int, hi: int) {
    forall s: uint32 :: Named(names, s) <==> lo <= s < hi
  }

  /** What a directory must be like to be opened: each sequence named once, and no gap. */
  ghost predicate Openable(names: set<string>) {
    Unique(names) && exists lo: int, hi: int :: NamedFrom(names, lo, hi)
  }

  /** ScanLedgerDir: the ledger sequences found, ascending; it fails exactly when they
      repeat or leave a gap. */
  method ScanLedgerDir(files: Files) returns (found: Option<seq<uint32>>)
    ensures found.Some? <==> Openable(files.Keys)
    ensures found.Some? ==> Dense(found.value)
    ensures found.Some? ==> forall s: uint32 :: s in found.value <==> Named(files.Keys, s)
  {
    hide ParseLedgerFileName, Openable, Named, Unique, NamedFrom;
    var seqs: seq<uint32> := [];
    var left := files.Keys;
    NothingNamed(files.Keys - left);
    while left != {}
      invariant left <= files.Keys
      invariant Sorted(seqs)
      invariant forall s: uint32 :: s in seqs <==> Named(files.Keys - left, s)
      invariant Ascending(seqs) <==> Unique(files.Keys - left)
      decreases left
    {
      var name :| name in left;
      ghost var done := files.Keys - left;
      OneMore(done, name);
      left := left - {name};
      assert files.Keys - left == done + {name};
      var s := ParseLedgerFileName(name);
      if s.Some? {
        seqs := Insert(seqs, s.value);
      }
    }
    assert files.Keys - left == files.Keys;
    var i := 1;
    while i < |seqs|
      invariant 1 <= i
      invariant forall j :: 0 <= j < i && j < |seqs| ==> seqs[j] == seqs[0] + j
    {
      if seqs[i] != Succ32(seqs[i - 1]) {
        ScanRefuses(files.Keys, seqs, i);
        return None;
      }
      i := i + 1;
    }
    ScanAccepts(files.Keys, seqs);
    found := Some(seqs);
  }

  lemma NothingNamed(names: set<string>)
    requires names == {}
    ensures Unique(names) && forall s: uint32 :: !Named(names, s)
  {
  }

  /** One more name: it is a repeat exactly when its sequence was named before. */
  lemma OneMore(done: set<string>, name: string)
    requires name !in done
    ensures forall s: uint32 :: Named(done + {name}, s) <==> Named(done, s) || ParseLedgerFileName(name) == Some(s)
    ensures Unique(done + {name}) <==>
      Unique(done) && (ParseLedgerFileName(name).Some? ==> !Named(done, ParseLedgerFileName(name).value))
  {
    hide ParseLedgerFileName;
    forall s: uint32 | Named(done, s) || ParseLedgerFileName(name) == Some(s)
      ensures Named(done + {name}, s)
    {
      if Named(done, s) {
        var other :| other in done && ParseLedgerFileName(other) == Some(s);
        assert other in done + {name};
      } else {
        assert name in done + {name};
      }
    }
    if Unique(done + {name}) {
      assert forall a :: a in done ==> a in done + {name};
      assert name in done + {name};
    }
  }

  lemma ScanRefuses(names: set<string>, seqs: seq<uint32>, i: nat)
    requires 0 < i < |seqs| && seqs[i] != Succ32(seqs[i - 1])
    requires forall s: uint32 :: s in seqs <==> Named(names, s)
    requires Unique(names) ==> Ascending(seqs)
    ensures !Openable(names)
  {
    hide Unique, Named;
    if Openable(names) {
      var lo: int, hi: int :| NamedFrom(names, lo, hi);
      IntervalIsDense(seqs, lo, hi);
    }
  }

  lemma ScanAccepts(names: set<string>, seqs: seq<uint32>)
    requires Dense(seqs) && (forall s: uint32 :: s in seqs <==> Named(names, s))
    requires Ascending(seqs) ==> Unique(names)
    ensures Openable(names)
  {
    hide Unique, Named;
    var lo := if |seqs| > 0 then seqs[0] as int else 0;
    DenseIsInterval(seqs);
    assert NamedFrom(names, lo, lo + |seqs|);
  }

  lemma DenseIsInterval(a: seq<uint32>)
    requires Dense(a)
    ensures Ascending(a)
    ensures |a| > 0 ==> forall s: uint32 :: s in a <==> a[0] <= s < a[0] + |a|
  {
    forall s: uint32 | |a| > 0 && a[0] <= s < a[0] + |a| ensures s in a {
      assert a[s - a[0]] == s;
    }
  }

  /** With canonical names a directory can be opened exactly when its ledgers are
      contiguous. */
  lemma CanonicalOpens(files: Files)
    requires Canonical(files)
    ensures Unique(files.Keys)
    ensures forall lo: int, hi: int :: NamedFrom(files.Keys, lo, hi) <==> Interval(Ledgers(files), lo, hi)
    ensures Openable(files.Keys) <==> Contiguous(Ledgers(files))
  {
    hide ParseLedgerFileName, LedgerFileName;
    forall lo: int, hi: int ensures NamedFrom(files.Keys, lo, hi) <==> Interval(Ledgers(files), lo, hi) {
      hide Canonical;
      forall s: uint32 ensures Named(files.Keys, s) <==> s in Ledgers(files) {
        NamedIsLedger(files, s);
      }
    }
  }

  lemma NamedIsLedger(files: Files, s: uint32)
    requires Canonical(files)
    ensures Named(files.Keys, s) <==> s in Ledgers(files)
  {
    hide LedgerFileName, ParseLedgerFileName;
    ParseName(s);
    if LedgerFileName(s) in files {
      assert LedgerFileName(s) in files.Keys;
    }
  }

  /** What a scan lists can be read back exactly when every name is canonical: the
      parser takes "ledger-007.xdr" for ledger 7, but a reader opens "ledger-7.xdr". */
  lemma ListedIsReadable(files: Files, seqs: seq<uint32>)
    requires Unique(files.Keys)
    requires forall s: uint32 :: s in seqs <==> Named(files.Keys, s)
    ensures (forall s: uint32 :: s in seqs ==> s in Ledgers(files)) <==> Canonical(files)
  {
    hide LedgerFileName, ParseLedgerFileName;
    if forall s: uint32 :: s in seqs ==> s in Ledgers(files) {
      forall name | name in files && ParseLedgerFileName(name).Some?
        ensures name == LedgerFileName(ParseLedgerFileName(name).value)
      {
        var s := ParseLedgerFileName(name).value;
        assert name in files.Keys;
        assert Named(files.Keys, s);
        ParseName(s);
        assert LedgerFileName(s) in files.Keys;
      }
    }
    if Canonical(files) {
      forall s: uint32 | s in seqs ensures s in Ledgers(files) {
        NamedIsLedger(files, s);
      }
    }
  }

  /** Such a directory exists, and can be opened. */
  lemma PaddedNameIsUnreadable(raw: bytes)
    ensures
      var files: Files := map["ledger-007.xdr" := raw];
      NamedFrom(files.Keys, 7, 8) && Openable(files.Keys) && 7 !in Ledgers(files) && !Canonical(files)
  {
    var files: Files := map["ledger-007.xdr" := raw];
    var name := "ledger-007.xdr";
    PaddedParses();
    hide ParseLedgerFileName;
    assert LedgerFileName(7)[7] == '7';
    assert name in files.Keys && files.Keys == {name};
    assert NamedFrom(files.Keys, 7, 8);
  }

  lemma PaddedParses()
    ensures ParseLedgerFileName("ledger-007.xdr") == Some(7)
  {
    var name := "ledger-007.xdr";
    assert name[7..10] == "007";
    assert name[10..] == FILE_SUFFIX;
    assert ValueOf("007") == 7 by {
      assert "007"[..2] == "00";
      assert "00"[..1] == "0";
      assert "0"[..0] == "";
    }
  }
}
