/** Reading a ledger's bytes into the source loop's own buffers
    (internal/server/ledgerwork.go fillChunk, internal/server/emit.go Emission). */
module Reading {
  import opened Prelude

  datatype ReadError = NoError | Eof | UnexpectedEof | Cancelled | NoProgress | Fault

  /** An error a Read makes up by itself: anything but the end of the data. */
  type Trouble = e: ReadError | e != Eof witness NoError

  /** One Read as the reader at the other end decides it: how many bytes it gives at most,
      whether it tells of the end along with the last of them, and what goes wrong. */
  datatype Answer = Answer(give: nat, early: bool, trouble: Trouble) {
    /** It makes progress and nothing goes wrong. */
    predicate Well() {
      give > 0 && trouble == NoError
    }
  }

  /** The answers from, from + 1, .. to - 1 were all well. */
  predicate AllWell(answers: nat -> Answer, from: nat, to: nat) {
    forall k: nat :: from <= k < to ==> answers(k).Well()
  }

  /** A reader that never fails and never stalls. */
  ghost predicate Healthy(answers: nat -> Answer) {
    forall k: nat :: answers(k).Well()
  }

  /** A reader that reports a cancellation some time. */
  ghost predicate Cancels(answers: nat -> Answer) {
    exists k: nat :: answers(k).trouble == Cancelled
  }

  lemma HealthyIsWell(answers: nat -> Answer, from: nat, to: nat)
    ensures Healthy(answers) ==> AllWell(answers, from, to) && !Cancels(answers)
  {
  }

  /** An emission's body: any io.Reader. data is what it would give in full and answers
      what its Reads do one after another, whatever that is; each may scribble over the
      rest of the buffer it was lent. */
  class Body {
    const data: bytes
    const answers: nat -> Answer
    var pos: nat
    var asked: nat

    constructor (data: bytes, answers: nat -> Answer)
      ensures this.data == data && this.answers == answers && pos == 0 && asked == 0
    {
      this.data, this.answers := data, answers;
      pos, asked := 0, 0;
    }

    method Read(buf: array<byte>, lo: nat, hi: nat) returns (n: nat, err: ReadError)
      requires lo <= hi <= buf.Length && pos <= |data|
      modifies this, buf
      ensures asked == old(asked) + 1
      ensures n == Min(answers(old(asked)).give, Min(hi - lo, |data| - old(pos))) && pos == old(pos) + n
      ensures buf[lo..lo + n] == data[old(pos)..pos]
      ensures forall i :: 0 <= i < buf.Length && !(lo <= i < hi) ==> buf[i] == old(buf[i])
      ensures err == Told(answers(old(asked)), n, pos == |data|)
    {
      var a := answers(asked);
      n := Min(a.give, Min(hi - lo, |data| - pos));
      assert |seq<byte>(hi - lo, i => 0)| == hi - lo;
      var scratch: bytes :| |scratch| == hi - lo;
      var from := pos;
      forall i | lo <= i < hi {
        buf[i] := if i < lo + n then data[from + i - lo] else scratch[i - lo];
      }
      SameBytes(buf[..], lo, lo + n, data, from);
      pos, asked := pos + n, asked + 1;
      err := Told(a, n, pos == |data|);
    }
  }

  /** What a Read that gave n bytes returns beside them. */
  function Told(a: Answer, n: nat, atEnd: bool): ReadError {
    if a.trouble != NoError then a.trouble
    else if atEnd && (if n == 0 then a.give > 0 else a.early) then Eof
    else NoError
  }

  lemma SameBytes(now: bytes, lo: nat, hi: nat, data: bytes, from: nat)
    requires lo <= hi <= |now| && from + hi - lo <= |data|
    requires forall i :: lo <= i < hi ==> now[i] == data[from + i - lo]
    ensures now[lo..hi] == data[from..from + hi - lo]
  {
  }

  /** One more read on top of n bytes already there. */
  lemma ToppedUp(data: bytes, from: nat, was: bytes, now: bytes, lo: nat, n: nat, m: nat, hi: nat)
    requires lo + n + m <= hi <= |was| == |now| && from + n + m <= |data|
    requires was[lo..lo + n] == data[from..from + n] && now[lo + n..lo + n + m] == data[from + n..from + n + m]
    requires forall i :: 0 <= i < |now| && !(lo + n <= i < hi) ==> now[i] == was[i]
    ensures now[lo..lo + n + m] == data[from..from + n + m]
  {
    assert now[lo..lo + n] == was[lo..lo + n];
    SlicesJoin(now, lo, lo + n, lo + n + m);
    SlicesJoin(data, from, from + n, from + n + m);
  }

  method ReadMore(body: Body, buf: array<byte>, lo: nat, n: nat, hi: nat, ghost from: nat)
    returns (m: nat, e: ReadError)
    requires lo + n <= hi <= buf.Length && body.pos == from + n <= |body.data|
    requires buf[lo..lo + n] == body.data[from..from + n]
    modifies body, buf
    ensures lo + n + m <= hi && body.pos == from + n + m <= |body.data|
    ensures buf[lo..lo + n + m] == body.data[from..from + n + m]
    ensures forall i :: 0 <= i < buf.Length && !(lo <= i < hi) ==> buf[i] == old(buf[i])
    ensures body.asked == old(body.asked) + 1
    ensures m == Min(body.answers(old(body.asked)).give, Min(hi - lo - n, |body.data| - old(body.pos)))
    ensures e == Told(body.answers(old(body.asked)), m, body.pos == |body.data|)
  {
    ghost var was := buf[..];
    m, e := body.Read(buf, lo + n, hi);
    ToppedUp(body.data, from, was, buf[..], lo, n, m, hi);
  }

  /** fillChunk tops a buffer up: it stops only when the buffer is full, the source
      ends or fails, or a Read makes no progress, so it returns against any reader; and
      it fails exactly when one of the reads it made did. */
  method FillChunk(body: Body, buf: array<byte>, lo: nat, hi: nat) returns (n: nat, err: ReadError)
    requires lo <= hi <= buf.Length && body.pos <= |body.data|
    modifies body, buf
    ensures n <= hi - lo && body.pos == old(body.pos) + n <= |body.data|
    ensures buf[lo..lo + n] == body.data[old(body.pos)..body.pos]
    ensures forall i :: 0 <= i < buf.Length && !(lo <= i < hi) ==> buf[i] == old(buf[i])
    ensures err == NoError ==> n == hi - lo
    ensures err == Eof ==> body.pos == |body.data|
    ensures old(body.asked) <= body.asked
    ensures err == NoError || err == Eof <==> AllWell(body.answers, old(body.asked), body.asked)
    ensures err == Cancelled ==> Cancels(body.answers)
  {
    n := 0;
    while n < hi - lo
      invariant n <= hi - lo && body.pos == old(body.pos) + n <= |body.data|
      invariant buf[lo..lo + n] == body.data[old(body.pos)..body.pos]
      invariant forall i :: 0 <= i < buf.Length && !(lo <= i < hi) ==> buf[i] == old(buf[i])
      invariant old(body.asked) <= body.asked && AllWell(body.answers, old(body.asked), body.asked)
      decreases hi - lo - n
    {
      ghost var a := body.answers(body.asked);
      var m, e := ReadMore(body, buf, lo, n, hi, old(body.pos));
      n := n + m;
      if e != NoError {
        return n, e;
      }
      if m == 0 {
        return n, NoProgress;
      }
    }
    err := NoError;
  }
}
