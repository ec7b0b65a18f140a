/** Unsigned decimal text, as strconv.FormatUint and strconv.ParseUint treat it:
    printing is canonical, parsing also accepts leading zeros. */
module Decimal {
  import opened Prelude

  predicate IsDigit(c: char) {
    '0' <= c <= '9'
  }

  predicate AllDigits(s: string) {
    forall i :: 0 <= i < |s| ==> IsDigit(s[i])
  }

  function Digit(d: nat): (c: char)
    requires d < 10
    ensures IsDigit(c)
  {
    '0' + d as char
  }

  function Print(n: nat): (s: string)
    ensures |s| > 0 && AllDigits(s)
  {
    if n < 10 then [Digit(n)] else Print(n / 10) + [Digit(n % 10)]
  }

  function ValueOf(s: string): nat
    requires AllDigits(s)
  {
    if |s| == 0 then 0
    else 10 * ValueOf(s[..|s| - 1]) + (s[|s| - 1] - '0') as nat
  }

  /** ParseUint(s, 10, 32). */
  function ParseUint32(s: string): Option<uint32> {
    if |s| == 0 || !AllDigits(s) || ValueOf(s) > MAX_UINT32 then None else Some(ValueOf(s))
  }

  lemma {:induction false} ValueOfPrint(n: nat)
    ensures ValueOf(Print(n)) == n
  {
    var s := Print(n);
    if n >= 10 {
      ValueOfPrint(n / 10);
      assert s[..|s| - 1] == Print(n / 10);
    } else {
      assert s[..0] == [];
    }
  }

  lemma ParsePrint(n: uint32)
    ensures ParseUint32(Print(n)) == Some(n)
  {
    ValueOfPrint(n);
  }

  function Zeros(k: nat): (s: string)
    ensures |s| == k && AllDigits(s)
  {
    seq(k, i requires 0 <= i < k => '0')
  }

  /** The text is that number in decimal, leading zeros allowed. */
  ghost predicate Spells(s: string, n: nat) {
    exists k: nat :: s == Zeros(k) + Print(n)
  }

  lemma {:induction false} ZerosAdd(k: nat, s: string)
    requires AllDigits(s)
    ensures ValueOf(Zeros(k) + s) == ValueOf(s)
    decreases |s|
  {
    var whole := Zeros(k) + s;
    if |s| > 0 {
      ZerosAdd(k, s[..|s| - 1]);
      assert whole[..|whole| - 1] == Zeros(k) + s[..|s| - 1];
    } else {
      assert whole == Zeros(k);
      ZerosAreNone(k);
    }
  }

  lemma {:induction false} ZerosAreNone(k: nat)
    ensures ValueOf(Zeros(k)) == 0
  {
    if k > 0 {
      ZerosAreNone(k - 1);
      assert Zeros(k)[..k - 1] == Zeros(k - 1);
    }
  }

  lemma {:induction false} DigitsSpell(s: string) returns (k: nat)
    requires |s| > 0 && AllDigits(s)
    ensures s == Zeros(k) + Print(ValueOf(s))
  {
    var n := |s| - 1;
    var d := (s[n] - '0') as nat;
    assert s == s[..n] + [Digit(d)];
    if n == 0 {
      assert s[..0] == [];
      k := 0;
    } else {
      var j := DigitsSpell(s[..n]);
      if ValueOf(s[..n]) == 0 {
        k := j + 1;
        assert Zeros(j) + Print(0) == Zeros(j + 1);
      } else {
        k := j;
      }
    }
  }

  /** The parser takes exactly the decimal spellings of the numbers a uint32 holds. */
  lemma ParsesSpellings(s: string, n: uint32)
    ensures ParseUint32(s) == Some(n) <==> Spells(s, n)
  {
    if ParseUint32(s) == Some(n) {
      var k := DigitsSpell(s);
    }
    if k: nat :| s == Zeros(k) + Print(n) {
      ZerosAdd(k, Print(n));
      ValueOfPrint(n);
    }
  }

  /** How many digits s starts with. */
  function DigitRun(s: string): (k: nat)
    ensures k <= |s|
    ensures AllDigits(s[..k])
    ensures k < |s| ==> !IsDigit(s[k])
  {
    if |s| == 0 || !IsDigit(s[0]) then 0
    else
      var k := 1 + DigitRun(s[1..]);
      assert forall i :: 0 < i < k ==> s[i] == s[1..][i - 1];
      k
  }

  lemma {:induction false} DigitRunStops(digits: string, rest: string)
    requires AllDigits(digits)
    requires |rest| > 0 ==> !IsDigit(rest[0])
    ensures DigitRun(digits + rest) == |digits|
  {
    if |digits| > 0 {
      assert (digits + rest)[1..] == digits[1..] + rest;
      DigitRunStops(digits[1..], rest);
    } else {
      assert digits + rest == rest;
    }
  }

  // --------------------------------------------------- the too-far-behind close

  const OLDEST_LABEL := "too far behind: oldest="
  const LATEST_LABEL := " latest="

  function TooFarBehindReason(oldest: uint32, latest: uint32): string {
    OLDEST_LABEL + Print(oldest) + LATEST_LABEL + Print(latest)
  }

  /** fmt.Sscanf with this format: what follows the second number is left unread. */
  function ParseTooFarBehindReason(reason: string): Option<(uint32, uint32)> {
    if !(OLDEST_LABEL <= reason) then None
    else
      var rest := reason[|OLDEST_LABEL|..];
      var k := DigitRun(rest);
      if !(LATEST_LABEL <= rest[k..]) then None
      else
        var tail := rest[k + |LATEST_LABEL|..];
        var oldest := ParseUint32(rest[..k]);
        var latest := ParseUint32(tail[..DigitRun(tail)]);
        if oldest.None? || latest.None? then None else Some((oldest.value, latest.value))
  }

  /** The bounds a server prints are the bounds its client reads back. */
  lemma ReasonRoundTrip(oldest: uint32, latest: uint32)
    ensures ParseTooFarBehindReason(TooFarBehindReason(oldest, latest)) == Some((oldest, latest))
  {
    hide Print, ParseTooFarBehindReason, Spells;
    SpellsItself(oldest);
    SpellsItself(latest);
    FormParses(Print(oldest), Print(latest), "", oldest, latest);
    assert TooFarBehindReason(oldest, latest) ==
      OLDEST_LABEL + Print(oldest) + LATEST_LABEL + Print(latest) + "";
  }

  lemma SpellsItself(n: nat)
    ensures Spells(Print(n), n)
  {
    hide Print;
    assert Print(n) == Zeros(0) + Print(n);
  }

  predicate Undigited(s: string) {
    |s| > 0 ==> !IsDigit(s[0])
  }

  /** And it reads bounds out of nothing but a reason that begins in that form. */
  lemma ReasonIsForm(reason: string, oldest: uint32, latest: uint32)
    ensures ParseTooFarBehindReason(reason) == Some((oldest, latest)) <==> exists a: string, b: string, more: string ::
      reason == OLDEST_LABEL + a + LATEST_LABEL + b + more && Spells(a, oldest) && Spells(b, latest) && Undigited(more)
  {
    hide *;
    if ParseTooFarBehindReason(reason) == Some((oldest, latest)) {
      var a, b, more := FormOf(reason, oldest, latest);
    }
    if a: string, b: string, more: string :|
      reason == OLDEST_LABEL + a + LATEST_LABEL + b + more && Spells(a, oldest) && Spells(b, latest) && Undigited(more)
    {
      FormParses(a, b, more, oldest, latest);
    }
  }

  lemma FormOf(reason: string, oldest: uint32, latest: uint32) returns (a: string, b: string, more: string)
    requires ParseTooFarBehindReason(reason) == Some((oldest, latest))
    ensures reason == OLDEST_LABEL + a + LATEST_LABEL + b + more
    ensures Spells(a, oldest) && Spells(b, latest) && Undigited(more)
  {
    hide *;
    var rest, k, tail, j := PartsOf(reason, oldest, latest);
    a, b, more := rest[..k], tail[..j], tail[j..];
    ParsesSpellings(a, oldest);
    ParsesSpellings(b, latest);
    InFive(OLDEST_LABEL, a, LATEST_LABEL, b, more);
    assert rest == a + rest[k..] && tail == b + more;
  }

  lemma PartsOf(reason: string, oldest: uint32, latest: uint32) returns (rest: string, k: nat, tail: string, j: nat)
    requires ParseTooFarBehindReason(reason) == Some((oldest, latest))
    ensures k <= |rest| && reason == OLDEST_LABEL + rest && rest[k..] == LATEST_LABEL + tail
    ensures j <= |tail| && ParseUint32(rest[..k]) == Some(oldest) && ParseUint32(tail[..j]) == Some(latest)
    ensures Undigited(tail[j..])
  {
    hide Print, ParseUint32, DigitRun, Spells;
    rest := reason[|OLDEST_LABEL|..];
    k := DigitRun(rest);
    tail := rest[k + |LATEST_LABEL|..];
    j := DigitRun(tail);
  }

  lemma InFive(p: string, a: string, m: string, b: string, r: string)
    ensures p + (a + (m + (b + r))) == p + a + m + b + r
  {
    assert p + (a + (m + (b + r))) == p + a + (m + (b + r)) == p + a + m + (b + r);
  }

  lemma FormParses(a: string, b: string, more: string, oldest: uint32, latest: uint32)
    requires Spells(a, oldest) && Spells(b, latest) && Undigited(more)
    ensures ParseTooFarBehindReason(OLDEST_LABEL + a + LATEST_LABEL + b + more) == Some((oldest, latest))
  {
    hide Print, ParseUint32, DigitRun, Spells;
    var reason := OLDEST_LABEL + a + LATEST_LABEL + b + more;
    ParsesSpellings(a, oldest);
    ParsesSpellings(b, latest);
    ParsedDigits(a);
    ParsedDigits(b);
    assert reason[|OLDEST_LABEL|..] == a + (LATEST_LABEL + (b + more));
    DigitRunStops(a, LATEST_LABEL + (b + more));
    Halves(a, LATEST_LABEL, b + more);
    DigitRunStops(b, more);
    assert (b + more)[..|b|] == b;
  }

  lemma ParsedDigits(s: string)
    ensures ParseUint32(s).Some? ==> AllDigits(s)
  {
  }

  lemma Halves(a: string, mid: string, b: string)
    ensures var whole := a + (mid + b);
      && whole[..|a|] == a && whole[|a|..] == mid + b && mid <= whole[|a|..] && whole[|a| + |mid|..] == b
  {
  }
}
