/** Paced emission of complete ledgers (internal/server/emit.go): starts on a cadence
    grid, and each body released over a window. Times are nanoseconds. */
module Pacing {
  import opened Prelude
  import opened Reading

  /** A monotone clock that anything may happen under. */
  class Clock {
    var now: int

    constructor (now: int)
      ensures this.now == now
    {
      this.now := now;
    }

    /** Time passes: a source producing, a consumer at work, or just a second look. */
    method Pass(d: nat)
      modifies this
      ensures now == old(now) + d
    {
      now := now + d;
    }

    /** sleepUntil: a deadline already past returns at once, any other when it has passed,
        however much later the sleeper is woken; a cancellation ends it early. */
    method SleepUntil(deadline: int, late: nat, cancelled: bool)
      modifies this
      ensures cancelled ==> now == old(now)
      ensures !cancelled ==> now == Max(old(now), deadline + late)
    {
      if !cancelled && now < deadline + late {
        now := deadline + late;
      }
    }
  }

  // ---------------------------------------------------------------- the cadence grid

  /** One emission's start: when it was due, when its sleep returned, and when the clock
      was looked at again to re-anchor the grid. */
  datatype Start = Start(seq_: uint32, due: int, woke: int, checked: int)

  /** What the loop keeps between one start and the next. */
  ghost predicate OnGrid(log: seq<Start>, cadence: int) {
    && (forall i :: 0 <= i < |log| ==> log[i].due <= log[i].woke <= log[i].checked)
    && (forall i :: 0 <= i < |log| - 1 ==> log[i + 1].due == Max(log[i].due + cadence, log[i].checked))
  }

  /** Sequences count up from the range's first. */
  predicate Counted(log: seq<Start>, from: uint32) {
    forall i :: 0 <= i < |log| ==> log[i].seq_ == (from + i) % U32
  }

  /** How long the world takes around one emission: the source and the consumer before
      its sleep, the sleep beyond its deadline, and until the clock is read again; and
      whether a cancellation cuts the sleep short. */
  datatype Delay = Delay(before: nat, late: nat, until: nat, cancel: bool)

  /** Emissions, over a source that yields a ledger for each of these delays. */
  method Emissions(clock: Clock, from: uint32, delays: seq<Delay>, cadence: int)
    returns (log: seq<Start>, cancelled: bool)
    requires cadence > 0
    modifies clock
    ensures log == Grid(old(clock.now), from, delays, cadence)
    ensures cancelled <==> Cancels(delays)
  {
    hide Grid, Cancels, OneStart, ClockAfter, NextStart, Succ32;
    ghost var start := clock.now;
    NoStarts(start, from, cadence);
    log, cancelled := [], false;
    var s := from;
    var nextStart: Option<int> := None;
    var i := 0;
    assert delays[..0] == [];
    NextSeq(from, 0);
    while i < |delays|
      invariant 0 <= i <= |delays| && !Cancels(delays[..i])
      invariant log == Grid(start, from, delays[..i], cadence) && |log| == i && s == (from + i) % U32
      invariant nextStart == NextStart(log, cadence)
      invariant clock.now == ClockAfter(start, log)
    {
      clock.Pass(delays[i].before);
      var due := if nextStart.None? then clock.now else nextStart.value;
      GridStep(start, from, delays, i, cadence);
      clock.SleepUntil(due, delays[i].late, delays[i].cancel);
      if delays[i].cancel {
        GridStops(start, from, delays, i, |delays|, cadence);
        assert delays[..|delays|] == delays;
        return log, true;
      }
      var woke := clock.now;
      clock.Pass(delays[i].until);
      var next := due + cadence;
      if next < clock.now {
        next := clock.now;
      }
      nextStart := Some(next);
      StartIs(start, log, delays[i], cadence, s, due, woke, clock.now);
      NextSeq(from, i);
      log := log + [Start(s, due, woke, clock.now)];
      s := Succ32(s);
      i := i + 1;
    }
    assert delays[..i] == delays;
  }

  predicate Cancels(delays: seq<Delay>) {
    exists i :: 0 <= i < |delays| && delays[i].cancel
  }

  function NextStart(log: seq<Start>, cadence: int): Option<int> {
    if |log| == 0 then None
    else
      var last := log[|log| - 1];
      Some(Max(last.due + cadence, last.checked))
  }

  /** The clock between emissions. */
  function ClockAfter(start: int, log: seq<Start>): int {
    if |log| == 0 then start else log[|log| - 1].checked
  }

  /** The next start, when the clock says now and nothing cancels it. */
  function OneStart(s: uint32, log: seq<Start>, now: int, d: Delay, cadence: int): Start {
    var ready := now + d.before;
    var due := if |log| == 0 then ready else NextStart(log, cadence).value;
    var woke := Max(ready, due + d.late);
    Start(s, due, woke, woke + d.until)
  }

  /** The starts these delays give rise to, up to the first cancellation. */
  function Grid(start: int, from: uint32, delays: seq<Delay>, cadence: int): seq<Start> {
    if |delays| == 0 then []
    else
      var log := Grid(start, from, delays[..|delays| - 1], cadence);
      if Cancels(delays) then log
      else log + [OneStart((from + |log|) % U32, log, ClockAfter(start, log), delays[|delays| - 1], cadence)]
  }

  lemma StartIs(start: int, log: seq<Start>, d: Delay, cadence: int, s: uint32, due: int, woke: int, checked: int)
    requires due == (match NextStart(log, cadence)
                     case None => ClockAfter(start, log) + d.before
                     case Some(next) => next)
    requires woke == Max(ClockAfter(start, log) + d.before, due + d.late) && checked == woke + d.until
    ensures OneStart(s, log, ClockAfter(start, log), d, cadence) == Start(s, due, woke, checked)
    ensures ClockAfter(start, log + [Start(s, due, woke, checked)]) == checked
    ensures NextStart(log + [Start(s, due, woke, checked)], cadence) == Some(Max(due + cadence, checked))
  {
  }

  lemma NextSeq(from: uint32, i: nat)
    ensures (from + 0) % U32 == from && Succ32((from + i) % U32) == (from + i + 1) % U32
  {
  }

  lemma NoStarts(start: int, from: uint32, cadence: int)
    ensures Grid(start, from, [], cadence) == [] && !Cancels([])
    ensures ClockAfter(start, []) == start && NextStart([], cadence) == None
  {
  }

  lemma GridStep(start: int, from: uint32, delays: seq<Delay>, i: nat, cadence: int)
    requires i < |delays| && !Cancels(delays[..i])
    ensures Cancels(delays[..i + 1]) <==> delays[i].cancel
    ensures var log := Grid(start, from, delays[..i], cadence);
      Grid(start, from, delays[..i + 1], cadence) ==
        if delays[i].cancel then log
        else log + [OneStart((from + |log|) % U32, log, ClockAfter(start, log), delays[i], cadence)]
  {
    var more := delays[..i + 1];
    assert more[..i] == delays[..i] && more[i] == delays[i];
    forall j | 0 <= j < i ensures !more[j].cancel {
      assert delays[..i][j] == more[j];
    }
  }

  lemma {:induction false} GridStops(start: int, from: uint32, delays: seq<Delay>, i: nat, n: nat, cadence: int)
    requires i < n <= |delays| && delays[i].cancel
    ensures Cancels(delays[..n])
      && Grid(start, from, delays[..n], cadence) == Grid(start, from, delays[..i + 1], cadence)
    ensures !Cancels(delays[..i]) ==> Grid(start, from, delays[..n], cadence) == Grid(start, from, delays[..i], cadence)
  {
    assert delays[..n][i].cancel;
    assert delays[..n][..n - 1] == delays[..n - 1];
    if n > i + 1 {
      GridStops(start, from, delays, i, n - 1, cadence);
    }
  }

  /** The loop stays on the grid, whatever the delays. */
  lemma {:induction false} GridIsOnGrid(start: int, from: uint32, delays: seq<Delay>, cadence: int)
    requires cadence > 0
    ensures OnGrid(Grid(start, from, delays, cadence), cadence) && Counted(Grid(start, from, delays, cadence), from)
  {
    hide Cancels, OnGrid, Counted, OneStart;
    NoStartOnGrid(from, cadence);
    if |delays| > 0 {
      var init := delays[..|delays| - 1];
      GridIsOnGrid(start, from, init, cadence);
      OneStartOnGrid(start, from, Grid(start, from, init, cadence), delays[|delays| - 1], cadence);
    }
  }

  lemma NoStartOnGrid(from: uint32, cadence: int)
    ensures OnGrid([], cadence) && Counted([], from)
  {
  }

  lemma OneStartOnGrid(start: int, from: uint32, log: seq<Start>, d: Delay, cadence: int)
    requires OnGrid(log, cadence) && Counted(log, from)
    ensures var longer := log + [OneStart((from + |log|) % U32, log, ClockAfter(start, log), d, cadence)];
      OnGrid(longer, cadence) && Counted(longer, from)
  {
    var next := OneStart((from + |log|) % U32, log, ClockAfter(start, log), d, cadence);
    if |log| > 0 {
      GridGrows(log, next, cadence);
    }
    hide OnGrid, OneStart;
    assert |log| == 0 ==> OnGrid([next], cadence) by {
      AloneOnGrid(start, from, log, d, cadence);
    }
    assert |log| == 0 ==> log + [next] == [next];
  }

  lemma AloneOnGrid(start: int, from: uint32, log: seq<Start>, d: Delay, cadence: int)
    ensures |log| == 0 ==> OnGrid([OneStart((from + |log|) % U32, log, ClockAfter(start, log), d, cadence)], cadence)
  {
  }

  /** And anything on the grid is what the loop makes of some delays. */
  function DelaysOf(log: seq<Start>): seq<Delay>
    requires forall i :: 0 <= i < |log| ==> log[i].due <= log[i].woke <= log[i].checked
  {
    seq(|log|, i requires 0 <= i < |log| => Delay(0, log[i].woke - log[i].due, log[i].checked - log[i].woke, false))
  }

  lemma {:induction false} OnGridIsGrid(start: int, log: seq<Start>, from: uint32, cadence: int)
    requires cadence > 0 && OnGrid(log, cadence) && Counted(log, from) && (|log| > 0 ==> start == log[0].due)
    ensures Grid(start, from, DelaysOf(log), cadence) == log
    ensures !Cancels(DelaysOf(log))
  {
    hide OnGrid, Counted, DelaysOf, OneStart, Grid, Cancels, NextStart;
    InOrder(log, from, cadence);
    if |log| > 0 {
      var n := |log| - 1;
      OnGridIsGrid(start, log[..n], from, cadence);
      DelaysOfLast(log);
      LastIsOneStart(start, log, from, cadence);
      assert DelaysOf(log)[..n + 1] == DelaysOf(log);
      GridStep(start, from, DelaysOf(log), n, cadence);
      assert log == log[..n] + [log[n]];
    } else {
      assert DelaysOf(log) == [];
      NoStarts(start, from, cadence);
    }
  }

  lemma InOrder(log: seq<Start>, from: uint32, cadence: int)
    requires OnGrid(log, cadence) && Counted(log, from)
    ensures forall i :: 0 <= i < |log| ==> log[i].due <= log[i].woke <= log[i].checked
    ensures |DelaysOf(log)| == |log|
    ensures |log| > 0 ==> OnGrid(log[..|log| - 1], cadence) && Counted(log[..|log| - 1], from)
  {
  }

  lemma DelaysOfLast(log: seq<Start>)
    requires |log| > 0 && forall i :: 0 <= i < |log| ==> log[i].due <= log[i].woke <= log[i].checked
    ensures var n := |log| - 1;
      && DelaysOf(log)[..n] == DelaysOf(log[..n])
      && DelaysOf(log)[n] == Delay(0, log[n].woke - log[n].due, log[n].checked - log[n].woke, false)
  {
  }

  lemma LastIsOneStart(start: int, log: seq<Start>, from: uint32, cadence: int)
    requires OnGrid(log, cadence) && Counted(log, from) && |log| > 0 && start == log[0].due
    ensures var n := |log| - 1;
      OneStart((from + n) % U32, log[..n], ClockAfter(start, log[..n]),
               Delay(0, log[n].woke - log[n].due, log[n].checked - log[n].woke, false), cadence) == log[n]
  {
    var n := |log| - 1;
    if n > 0 {
      assert log[n - 1 + 1].due == Max(log[n - 1].due + cadence, log[n - 1].checked);
    }
  }

  /** Whatever the source and the consumer do, j - i emissions later the schedule has
      moved on by j - i cadences at least, and a start is never less than j - i - 1
      cadences after another: an overrun is not repaid as a burst. */
  lemma {:induction false} NoBurst(log: seq<Start>, cadence: int, i: nat, j: nat)
    requires cadence > 0 && OnGrid(log, cadence) && i < j < |log|
    ensures log[j].due >= log[i].due + (j - i) * cadence
    ensures log[j].due >= log[i].checked + (j - i - 1) * cadence
    ensures log[j].woke >= log[i].woke + (j - i - 1) * cadence
  {
    if j > i + 1 {
      NoBurst(log, cadence, i, j - 1);
      assert log[j - 1 + 1].due == Max(log[j - 1].due + cadence, log[j - 1].checked);
      assert (j - i) * cadence == (j - 1 - i) * cadence + cadence;
      assert (j - i - 1) * cadence == (j - 1 - i - 1) * cadence + cadence;
    } else {
      assert log[i + 1].due == Max(log[i].due + cadence, log[i].checked);
    }
  }

  /** When a start is sure to be followed by none less than a cadence later: exactly when
      it came on time, or the loop itself took a whole cadence over it. */
  predicate Spaced(last: Start, cadence: int) {
    last.woke == last.due || last.checked >= last.woke + cadence
  }

  lemma NextStartIsSpaced(log: seq<Start>, cadence: int)
    requires cadence > 0 && OnGrid(log, cadence) && |log| > 0
    ensures var last := log[|log| - 1];
      (forall next: Start :: OnGrid(log + [next], cadence) ==> next.woke >= last.woke + cadence) <==>
        Spaced(last, cadence)
  {
    var last := log[|log| - 1];
    var due := Max(last.due + cadence, last.checked);
    forall next: Start ensures OnGrid(log + [next], cadence) <==> due == next.due <= next.woke <= next.checked {
      GridGrows(log, next, cadence);
    }
    hide OnGrid;
    assert OnGrid(log + [Start(0, due, due, due)], cadence);
  }

  lemma GridGrows(log: seq<Start>, next: Start, cadence: int)
    requires OnGrid(log, cadence) && |log| > 0
    ensures var last := log[|log| - 1];
      OnGrid(log + [next], cadence) <==> Max(last.due + cadence, last.checked) == next.due <= next.woke <= next.checked
  {
    var longer := log + [next];
    var n := |log| - 1;
    assert longer[n] == log[n] && longer[n + 1] == next;
    if OnGrid(longer, cadence) {
      assert longer[n + 1].due == Max(longer[n].due + cadence, longer[n].checked);
    }
  }

  /** So at every cadence there are delays, one late wakeup, after which two ledgers start
      together. */
  lemma LateStartGap(start: int, from: uint32, cadence: int)
    requires cadence > 0
    ensures exists delays: seq<Delay> ::
      var log := Grid(start, from, delays, cadence);
      |log| == 2 && !Cancels(delays) && log[1].woke == log[0].woke
  {
    var late := start + cadence;
    var log := [Start(from, start, late, late), Start(Succ32(from), late, late, late)];
    OnGridIsGrid(start, log, from, cadence);
    assert Grid(start, from, DelaysOf(log), cadence) == log;
  }

  /** The grid is absolute: it does not drift exactly as long as nothing overruns it. */
  lemma {:induction false} NoDrift(log: seq<Start>, cadence: int, n: nat)
    requires cadence > 0 && OnGrid(log, cadence) && n < |log|
    ensures (forall i :: 0 <= i < n ==> log[i].checked <= log[i].due + cadence)
      <==> (forall i :: 0 <= i <= n ==> log[i].due == log[0].due + i * cadence)
  {
    if n > 0 {
      NoDrift(log, cadence, n - 1);
      assert log[n - 1 + 1].due == Max(log[n - 1].due + cadence, log[n - 1].checked);
      assert n * cadence == (n - 1) * cadence + cadence;
      if forall i :: 0 <= i <= n ==> log[i].due == log[0].due + i * cadence {
        assert log[n - 1].due == log[0].due + (n - 1) * cadence;
        assert log[n].due == log[0].due + n * cadence;
      }
    }
  }

  // ------------------------------------------------------------------- the paced body

  /** How long after the first read byte k - 1 of total is due. */
  function Due(window: nat, k: nat, total: nat): int
    requires 0 < total
  {
    (window as real * (k as real / total as real)).Floor
  }

  /** Bytes fall due in order, none after the window closes and the last exactly then. */
  lemma DueInWindow(window: nat, k: nat, l: nat, total: nat)
    requires 0 < total && k <= l <= total
    ensures 0 <= Due(window, k, total) <= Due(window, l, total) <= window
    ensures Due(window, total, total) == window
  {
    var x := k as real / total as real;
    var y := l as real / total as real;
    QuotientGrows(k as real, l as real, total as real);
    QuotientGrows(l as real, total as real, total as real);
    assert window as real * x <= window as real * y;
    assert window as real * y <= window as real * 1.0;
  }

  /** And each at its own share of the window, to the nanosecond. */
  lemma DueIsShare(window: nat, k: nat, total: nat)
    requires 0 < total
    ensures var due := Due(window, k, total); due * total <= window * k < (due + 1) * total
  {
    var due := Due(window, k, total);
    var share := window as real * (k as real / total as real);
    ShareTimes(window as real, k as real, total as real);
    TimesGrows(due as real, share, total as real);
    TimesGrowsStrictly(share, (due + 1) as real, total as real);
    assert (due * total) as real == due as real * total as real;
    assert ((due + 1) * total) as real == (due + 1) as real * total as real;
    assert (window * k) as real == window as real * k as real;
  }

  lemma ShareTimes(w: real, k: real, c: real)
    requires c > 0.0
    ensures w * (k / c) * c == w * k
  {
    assert k / c * c == k;
  }

  lemma TimesGrows(a: real, b: real, c: real)
    requires a <= b && c > 0.0
    ensures a * c <= b * c
  {
  }

  lemma TimesGrowsStrictly(a: real, b: real, c: real)
    requires a < b && c > 0.0
    ensures a * c < b * c
  {
  }

  lemma QuotientGrows(a: real, b: real, c: real)
    requires 0.0 <= a <= b && c > 0.0
    ensures 0.0 <= a / c <= b / c
    ensures c / c == 1.0
  {
  }

  lemma Copied(buf: array<byte>, lo: nat, payload: bytes, off: nat, m: nat)
    requires lo + m <= buf.Length && off + m <= |payload|
    requires forall i :: lo <= i < lo + m ==> buf[i] == payload[off + i - lo]
    ensures buf[lo..lo + m] == payload[off..off + m]
  {
  }

  class PacedBody {
    const clock: Clock
    const payload: bytes
    const window: nat
    var off: nat
    var started: Option<int>

    constructor (clock: Clock, payload: bytes, window: nat)
      ensures this.clock == clock && this.payload == payload && this.window == window
      ensures off == 0 && started == None
    {
      this.clock, this.payload, this.window := clock, payload, window;
      off, started := 0, None;
    }

    /** Everything asked for, or all that is left, as soon as the last of it is due and the
        sleeper is woken, so late; or nothing, when the sleep is cancelled. */
    method Read(buf: array<byte>, lo: nat, hi: nat, late: nat, cancel: bool) returns (n: nat, err: ReadError)
      requires lo <= hi <= buf.Length && off <= |payload| && (started.Some? ==> started.value <= clock.now)
      modifies this, clock, buf
      ensures n <= hi - lo && off == old(off) + n <= |payload|
      ensures buf[lo..lo + n] == payload[old(off)..off]
      ensures forall i :: 0 <= i < buf.Length && !(lo <= i < hi) ==> buf[i] == old(buf[i])
      ensures err == Eof <==> old(off) == |payload|
      ensures err == Cancelled <==> cancel && window > 0 && lo < hi && old(off) < |payload|
      ensures err == Eof || err == Cancelled || err == NoError
      ensures n == if err == NoError then Min(hi - lo, |payload| - old(off)) else 0
      ensures old(started.Some?) || err == Eof ==> started == old(started)
      ensures old(started.None?) && err != Eof ==> started == Some(old(clock.now))
      ensures started.Some? ==> started.value <= clock.now
      ensures n > 0 ==> started.Some? && clock.now >= started.value + Due(window, off, |payload|)
      ensures clock.now == if window > 0 && n > 0
        then Max(old(clock.now), started.value + Due(window, off, |payload|) + late) else old(clock.now)
    {
      n, err := 0, NoError;
      if off >= |payload| {
        return 0, Eof;
      }
      if started.None? {
        started := Some(clock.now);
      }
      var m := Min(hi - lo, |payload| - off);
      if window > 0 && m > 0 {
        clock.SleepUntil(started.value + Due(window, off + m, |payload|), late, cancel);
        if cancel {
          return 0, Cancelled;
        }
      }
      forall i | lo <= i < lo + m {
        buf[i] := payload[off + i - lo];
      }
      Copied(buf, lo, payload, off, m);
      off := off + m;
      n := m;
      DueInWindow(window, off, |payload|, |payload|);
    }
  }
}
