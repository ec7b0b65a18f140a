/** The concurrent chunk pipeline (internal/server/compress.go): one submitter, any
    number of encoders, one publisher, two bounded channels. Every schedule of their
    steps is a run of this system. */
module Pipeline {
  import opened Prelude
  import opened Wire
  import opened Chunks

  const ENCODE_SLOTS := 16
  const PENDING_CHUNKS := 1024

  /** One chunk handed over, with the bytes in the source's buffer. */
  datatype Job = Job(seq_: uint32, index: uint32, raw: bytes)

  datatype Encoder = Free | Busy(id: nat) | Exited

  /** Where the submitting goroutine is: outside submit, about to send on ordered, or
      about to offer the job to the encoders. */
  datatype Submitter = Away | Ordering | Offering

  /** Jobs are named by their position in jobs, the submission order. out holds a
      job's message once its done channel is closed; held is the job the publisher
      is waiting for; refused are the jobs whose offer found the work channel full. */
  datatype Pipe = Pipe(
    jobs: seq<Job>,
    submitter: Submitter,
    work: seq<nat>,
    refused: set<nat>,
    workClosed: bool,
    ordered: seq<nat>,
    orderedClosed: bool,
    out: map<nat, bytes>,
    encoders: seq<Encoder>,
    held: Option<nat>,
    published: seq<bytes>,
    inflight: nat,
    pubDone: bool)

  function RawFrame(j: Job): bytes {
    AppendChunk([], j.seq_, j.index, CODEC_RAW, j.raw)
  }

  // ---------------------------------------------------------------------- steps

  predicate Init(s: Pipe) {
    && s.jobs == [] && s.submitter == Away && s.work == [] && s.refused == {} && !s.workClosed
    && s.ordered == [] && !s.orderedClosed
    && s.out == map[] && (forall i :: 0 <= i < |s.encoders| ==> s.encoders[i] == Free) && |s.encoders| > 0
    && s.held == None && s.published == [] && s.inflight == 0 && !s.pubDone
  }

  predicate Submit(s: Pipe, t: Pipe, j: Job) {
    && s.submitter == Away && !s.workClosed
    && t == s.(jobs := s.jobs + [j], inflight := s.inflight + 1, submitter := Ordering)
  }

  predicate SendOrdered(s: Pipe, t: Pipe) {
    && s.submitter == Ordering && |s.jobs| > 0 && |s.ordered| < PENDING_CHUNKS
    && t == s.(ordered := s.ordered + [|s.jobs| - 1], submitter := Offering)
  }

  /** The select with a default: an encoder slot if there is one, else frame the chunk
      raw in place. */
  predicate Offer(s: Pipe, t: Pipe) {
    && s.submitter == Offering && |s.jobs| > 0
    && var id := |s.jobs| - 1;
    && t == (if |s.work| < ENCODE_SLOTS then s.(work := s.work + [id], submitter := Away)
             else s.(out := s.out[id := RawFrame(s.jobs[id])], submitter := Away)).(
             refused := if |s.work| < ENCODE_SLOTS then s.refused else s.refused + {id})
  }

  predicate Take(s: Pipe, t: Pipe, e: nat) {
    && e < |s.encoders| && s.encoders[e] == Free && |s.work| > 0
    && t == s.(work := s.work[1..], encoders := s.encoders[e := Busy(s.work[0])])
  }

  predicate Encode(z: Codec, s: Pipe, t: Pipe, e: nat) {
    && e < |s.encoders| && s.encoders[e].Busy? && s.encoders[e].id < |s.jobs|
    && var j := s.jobs[s.encoders[e].id];
    && t == s.(out := s.out[s.encoders[e].id := EncodeChunk(z, true, j.seq_, j.index, j.raw)],
               encoders := s.encoders[e := Free])
  }

  predicate Exit(s: Pipe, t: Pipe, e: nat) {
    && e < |s.encoders| && s.encoders[e] == Free && s.work == [] && s.workClosed
    && t == s.(encoders := s.encoders[e := Exited])
  }

  predicate Hold(s: Pipe, t: Pipe) {
    && s.held == None && |s.ordered| > 0
    && t == s.(held := Some(s.ordered[0]), ordered := s.ordered[1..])
  }

  predicate Publish(s: Pipe, t: Pipe) {
    && s.held.Some? && s.held.value in s.out && s.inflight > 0
    && t == s.(published := s.published + [s.out[s.held.value]], held := None, inflight := s.inflight - 1)
  }

  predicate PublisherExit(s: Pipe, t: Pipe) {
    && s.held == None && s.ordered == [] && s.orderedClosed && !s.pubDone
    && t == s.(pubDone := true)
  }

  /** close, in order: close(work), wait for the encoders, close(ordered), wait for the
      publisher. It is called from the submitting goroutine. */
  predicate CloseWork(s: Pipe, t: Pipe) {
    s.submitter == Away && !s.workClosed && t == s.(workClosed := true)
  }

  predicate AllExited(s: Pipe) {
    forall i :: 0 <= i < |s.encoders| ==> s.encoders[i] == Exited
  }

  predicate CloseOrdered(s: Pipe, t: Pipe) {
    s.workClosed && AllExited(s) && !s.orderedClosed && t == s.(orderedClosed := true)
  }

  /** What happens without anyone asking: every step but Submit and CloseWork. */
  ghost predicate Internal(z: Codec, s: Pipe, t: Pipe) {
    || SendOrdered(s, t) || Offer(s, t)
    || (exists e: nat :: Take(s, t, e)) || (exists e: nat :: Encode(z, s, t, e)) || (exists e: nat :: Exit(s, t, e))
    || Hold(s, t) || Publish(s, t) || PublisherExit(s, t) || CloseOrdered(s, t)
  }

  ghost predicate Next(z: Codec, s: Pipe, t: Pipe) {
    Internal(z, s, t) || (exists j: Job :: Submit(s, t, j)) || CloseWork(s, t)
  }

  ghost predicate Run(z: Codec, run: seq<Pipe>) {
    && |run| > 0 && Init(run[0])
    && forall i :: 0 <= i < |run| - 1 ==> Next(z, run[i], run[i + 1])
  }

  // ------------------------------------------------------------------ invariant

  /** The first job not yet through the publisher's hands. */
  function Waiting(s: Pipe): nat {
    |s.published| + (if s.held.Some? then 1 else 0)
  }

  /** One past the last job on ordered. */
  function Sent(s: Pipe): int {
    if s.submitter == Ordering then |s.jobs| - 1 else |s.jobs|
  }

  /** One past the last job offered to the encoders. */
  function Offered(s: Pipe): int {
    if s.submitter == Away then |s.jobs| else |s.jobs| - 1
  }

  predicate QueueOk(s: Pipe) {
    && (s.held.Some? ==> s.held.value == |s.published|)
    && (s.submitter != Away ==> |s.jobs| > 0)
    && Waiting(s) + |s.ordered| == Sent(s)
    && (forall i :: 0 <= i < |s.ordered| ==> s.ordered[i] == Waiting(s) + i)
    && s.inflight == |s.jobs| - |s.published|
  }

  predicate Encoding(s: Pipe, id: nat) {
    id in s.work || Busy(id) in s.encoders
  }

  /** A job is exactly one of: not offered, queued, being encoded, done. */
  predicate WorkOk(s: Pipe) {
    && (forall i, j :: 0 <= i < j < |s.work| ==> s.work[i] < s.work[j])
    && (forall i :: 0 <= i < |s.work| ==> s.work[i] < Offered(s) && s.work[i] !in s.out)
    && (forall e :: 0 <= e < |s.encoders| && s.encoders[e].Busy? ==>
          s.encoders[e].id < Offered(s) && s.encoders[e].id !in s.out)
    && (forall e, i :: 0 <= e < |s.encoders| && s.encoders[e].Busy? && 0 <= i < |s.work| ==>
          s.encoders[e].id != s.work[i])
    && (forall e, f :: 0 <= e < f < |s.encoders| && s.encoders[e].Busy? && s.encoders[f].Busy? ==>
          s.encoders[e].id != s.encoders[f].id)
    && (forall id: nat :: id < Offered(s) ==> id in s.out || Encoding(s, id))
    && (forall id :: id in s.out ==> id < Offered(s))
  }

  predicate CarriesJob(z: Codec, msg: bytes, j: Job) {
    Carries(z, msg, j.seq_, j.index, j.raw)
  }

  /** msg is the job framed as an encoder, or else submit's own fallback, frames it. */
  predicate FramesJob(z: Codec, encoded: bool, msg: bytes, j: Job) {
    msg == EncodeChunk(z, encoded, j.seq_, j.index, j.raw)
  }

  /** The encoders took the job. */
  predicate Taken(s: Pipe, id: nat) {
    id !in s.refused
  }

  predicate OutOk(z: Codec, s: Pipe) {
    && (forall id :: id in s.out && id < |s.jobs| ==> FramesJob(z, Taken(s, id), s.out[id], s.jobs[id]))
    && (forall id :: id in s.refused ==> id in s.out)
    && (forall i :: 0 <= i < |s.published| ==> i in s.out && s.published[i] == s.out[i])
  }

  predicate CloseOk(s: Pipe) {
    && |s.encoders| > 0
    && (s.workClosed ==> s.submitter == Away)
    && (forall e :: 0 <= e < |s.encoders| && s.encoders[e] == Exited ==> s.workClosed && s.work == [])
    && (s.orderedClosed ==> AllExited(s) && s.workClosed)
    && (s.pubDone ==> s.orderedClosed && s.held == None && s.ordered == [])
  }

  predicate Inv(z: Codec, s: Pipe) {
    QueueOk(s) && WorkOk(s) && OutOk(z, s) && CloseOk(s)
  }

  // --------------------------------------------------------------------- proofs

  lemma InitHolds(z: Codec, s: Pipe)
    requires Init(s)
    ensures Inv(z, s)
  {
  }

  lemma SubmitKeeps(z: Codec, s: Pipe, t: Pipe, j: Job)
    requires Inv(z, s) && Submit(s, t, j)
    ensures Inv(z, t)
  {
    hide FramesJob;
    assert forall id :: Encoding(t, id) == Encoding(s, id);
  }

  /** WorkOk looks at nothing but the submission count and the encoders' side. */
  lemma WorkApart(s: Pipe, t: Pipe)
    requires WorkOk(s)
    requires t.work == s.work && t.encoders == s.encoders && t.out == s.out && Offered(t) == Offered(s)
    ensures WorkOk(t)
  {
    assert forall id :: Encoding(t, id) == Encoding(s, id);
  }

  lemma SendKeeps(z: Codec, s: Pipe, t: Pipe)
    requires Inv(z, s) && SendOrdered(s, t)
    ensures Inv(z, t)
  {
    WorkApart(s, t);
    hide FramesJob, WorkOk;
  }

  lemma CloseKeeps(z: Codec, s: Pipe, t: Pipe)
    requires Inv(z, s) && (CloseWork(s, t) || CloseOrdered(s, t) || PublisherExit(s, t))
    ensures Inv(z, t)
  {
    WorkApart(s, t);
    hide FramesJob, WorkOk;
  }

  lemma RawIsFrame(z: Codec, j: Job)
    ensures FramesJob(z, false, RawFrame(j), j)
  {
  }

  lemma OfferKeeps(z: Codec, s: Pipe, t: Pipe)
    requires Inv(z, s) && Offer(s, t)
    ensures Inv(z, t)
  {
    hide FramesJob, RawFrame;
    RawIsFrame(z, s.jobs[|s.jobs| - 1]);
    if |s.work| < ENCODE_SLOTS {
      OfferQueues(s, t);
    } else {
      OfferFrames(s, t);
    }
    hide WorkOk;
  }

  lemma OfferQueues(s: Pipe, t: Pipe)
    requires WorkOk(s) && s.submitter == Offering && |s.jobs| > 0
    requires t == s.(work := s.work + [|s.jobs| - 1], submitter := Away)
    ensures WorkOk(t)
  {
    assert t.work[|s.work|] == Offered(s);
    forall id: nat | id < Offered(t) ensures id in t.out || Encoding(t, id) {
      if id < Offered(s) && id !in s.out && id in s.work {
        assert id in t.work;
      }
    }
  }

  lemma OfferFrames(s: Pipe, t: Pipe)
    requires WorkOk(s) && s.submitter == Offering && |s.jobs| > 0
    requires t == s.(out := s.out[|s.jobs| - 1 := RawFrame(s.jobs[|s.jobs| - 1])], submitter := Away,
                     refused := t.refused)
    ensures WorkOk(t)
  {
    hide RawFrame;
    forall id: nat | id < Offered(t) ensures id in t.out || Encoding(t, id) {
      assert id == Offered(s) || id in s.out || Encoding(s, id);
    }
  }

  lemma TakeKeeps(z: Codec, s: Pipe, t: Pipe, e: nat)
    requires Inv(z, s) && Take(s, t, e)
    ensures Inv(z, t)
  {
    hide FramesJob, WorkOk;
    TakeWork(s, t, e);
  }

  lemma TakeWork(s: Pipe, t: Pipe, e: nat)
    requires WorkOk(s) && Take(s, t, e)
    ensures WorkOk(t)
  {
    assert s.work[0] == t.encoders[e].id;
    forall id: nat | id < Offered(t) ensures id in t.out || Encoding(t, id) {
      if id !in s.out {
        if id in s.work {
          if id == s.work[0] {
            assert t.encoders[e] == Busy(id);
          } else {
            assert id in t.work;
          }
        } else {
          var f :| 0 <= f < |s.encoders| && s.encoders[f] == Busy(id);
          assert t.encoders[f] == Busy(id);
        }
      }
    }
  }

  lemma EncodeWork(z: Codec, s: Pipe, t: Pipe, e: nat)
    requires WorkOk(s) && Encode(z, s, t, e)
    ensures WorkOk(t)
  {
    hide EncodeChunk;
    var id0 := s.encoders[e].id;
    forall id: nat | id < Offered(t) ensures id in t.out || Encoding(t, id) {
      if id != id0 && id !in s.out && id !in s.work {
        var f :| 0 <= f < |s.encoders| && s.encoders[f] == Busy(id);
        assert t.encoders[f] == Busy(id);
      }
    }
  }

  lemma EncodeKeeps(z: Codec, s: Pipe, t: Pipe, e: nat)
    requires Lawful(z) && Inv(z, s) && Encode(z, s, t, e)
    ensures Inv(z, t)
  {
    EncodeWork(z, s, t, e);
    EncodedIsFrame(z, s.jobs[s.encoders[e].id]);
    assert s.encoders[e].id !in s.out;
    hide FramesJob, EncodeChunk, Lawful, WorkOk;
  }

  lemma EncodedIsFrame(z: Codec, j: Job)
    ensures FramesJob(z, true, EncodeChunk(z, true, j.seq_, j.index, j.raw), j)
  {
  }

  lemma FramedCarries(z: Codec, encoded: bool, msg: bytes, j: Job)
    requires Lawful(z) && FramesJob(z, encoded, msg, j)
    ensures CarriesJob(z, msg, j) && (Zipped(msg) <==> encoded && Shrinks(z, j.raw))
  {
    hide EncodeChunk, Decode, Expand;
    EncodeChunkCarries(z, encoded, j.seq_, j.index, j.raw);
  }

  lemma ExitKeeps(z: Codec, s: Pipe, t: Pipe, e: nat)
    requires Inv(z, s) && Exit(s, t, e)
    ensures Inv(z, t)
  {
    hide FramesJob;
    forall id: nat | id < Offered(t) ensures id in t.out || Encoding(t, id) {
      if id !in s.out {
        var f :| 0 <= f < |s.encoders| && s.encoders[f] == Busy(id);
        assert t.encoders[f] == Busy(id);
      }
    }
  }

  lemma HoldKeeps(z: Codec, s: Pipe, t: Pipe)
    requires Inv(z, s) && Hold(s, t)
    ensures Inv(z, t)
  {
    hide FramesJob, WorkOk;
    WorkApart(s, t);
  }

  lemma PublishKeeps(z: Codec, s: Pipe, t: Pipe)
    requires Inv(z, s) && Publish(s, t)
    ensures Inv(z, t)
  {
    hide FramesJob, WorkOk;
    WorkApart(s, t);
  }

  lemma NextKeeps(z: Codec, s: Pipe, t: Pipe)
    requires Lawful(z) && Inv(z, s) && Next(z, s, t)
    ensures Inv(z, t)
  {
    hide Inv, SendOrdered, Offer, Take, Encode, Exit, Hold, Publish, PublisherExit, CloseOrdered, CloseWork, Submit,
         Lawful;
    if Offer(s, t) {
      OfferKeeps(z, s, t);
    } else if e: nat :| Take(s, t, e) {
      TakeKeeps(z, s, t, e);
    } else if e: nat :| Encode(z, s, t, e) {
      EncodeKeeps(z, s, t, e);
    } else if e: nat :| Exit(s, t, e) {
      ExitKeeps(z, s, t, e);
    } else if Hold(s, t) {
      HoldKeeps(z, s, t);
    } else if Publish(s, t) {
      PublishKeeps(z, s, t);
    } else if j: Job :| Submit(s, t, j) {
      SubmitKeeps(z, s, t, j);
    } else if SendOrdered(s, t) {
      SendKeeps(z, s, t);
    } else {
      CloseKeeps(z, s, t);
    }
  }

  lemma {:induction false} Reachable(z: Codec, run: seq<Pipe>, n: nat)
    requires Lawful(z) && Run(z, run) && n < |run|
    ensures Inv(z, run[n])
  {
    hide Inv, Next, Lawful;
    if n == 0 {
      InitHolds(z, run[0]);
    } else {
      Reachable(z, run, n - 1);
      assert Next(z, run[n - 1], run[n - 1 + 1]);
      NextKeeps(z, run[n - 1], run[n]);
    }
  }

  // ------------------------------------------------------------------- theorems

  /** Under every schedule the published messages are the submitted chunks, in
      submission order, each exactly once, each decoding to its own sequence, index
      and bytes, and a zstd frame exactly when that saves something and its offer did not
      find the encoders' queue full; and flush, which waits for nothing in
      flight, returns only when all of them are out. */
  lemma PublishedInOrder(z: Codec, run: seq<Pipe>, n: nat)
    requires Lawful(z) && Run(z, run) && n < |run|
    ensures |run[n].published| <= |run[n].jobs|
    ensures forall i :: 0 <= i < |run[n].published| ==> CarriesJob(z, run[n].published[i], run[n].jobs[i])
    ensures forall i :: 0 <= i < |run[n].published| ==>
      (Zipped(run[n].published[i]) <==> Taken(run[n], i) && Shrinks(z, run[n].jobs[i].raw))
    ensures run[n].inflight == 0 <==> |run[n].published| == |run[n].jobs|
    ensures run[n].pubDone ==> |run[n].published| == |run[n].jobs|
  {
    Reachable(z, run, n);
    hide FramesJob, CarriesJob, WorkOk, Lawful, Run;
    forall i | 0 <= i < |run[n].published|
      ensures CarriesJob(z, run[n].published[i], run[n].jobs[i])
      ensures Zipped(run[n].published[i]) <==> Taken(run[n], i) && Shrinks(z, run[n].jobs[i].raw)
    {
      FramedCarries(z, Taken(run[n], i), run[n].published[i], run[n].jobs[i]);
    }
  }

  /** Step m offers the job and finds the queue full. */
  predicate RefusedBy(run: seq<Pipe>, m: nat, id: nat)
    requires m + 1 < |run|
  {
    Offer(run[m], run[m + 1]) && |run[m].jobs| == id + 1 && |run[m].work| >= ENCODE_SLOTS
  }

  /** Refused are exactly the jobs whose offer found the queue full. */
  lemma {:induction false} RefusedTells(z: Codec, run: seq<Pipe>, n: nat, id: nat)
    requires Run(z, run) && n < |run|
    ensures id in run[n].refused <==> exists m: nat :: m < n && RefusedBy(run, m, id)
  {
    hide Next, RefusedBy;
    if n > 0 {
      var m := n - 1;
      RefusedTells(z, run, m, id);
      assert Next(z, run[m], run[m + 1]);
      StepRefuses(z, run, m, id);
      if i: nat :| i < n && RefusedBy(run, i, id) {
        assert i == m || i < m;
      }
    }
  }

  lemma StepRefuses(z: Codec, run: seq<Pipe>, m: nat, id: nat)
    requires m + 1 < |run| && Next(z, run[m], run[m + 1])
    ensures id in run[m + 1].refused <==> id in run[m].refused || RefusedBy(run, m, id)
  {
    hide RawFrame, AllExited, Take, Encode, Exit;
    var s, t := run[m], run[m + 1];
    if e: nat :| Take(s, t, e) || Encode(z, s, t, e) || Exit(s, t, e) {
      EncodersShowNothing(z, s, t, e);
    }
  }

  /** From outside, the pipeline is a queue that hands on the oldest job, framed one way
      or the other: every step submits a job, or publishes the next one, or shows nothing.
      That is all the source loop assumes of it between one submit and the next. */
  lemma StepsAsQueue(z: Codec, s: Pipe, t: Pipe)
    requires Inv(z, s) && Next(z, s, t)
    ensures
      || (t.jobs == s.jobs && t.published == s.published)
      || (t.published == s.published && |t.jobs| == |s.jobs| + 1 && s.jobs <= t.jobs)
      || (t.jobs == s.jobs && |s.published| < |s.jobs|
          && exists msg ::
            t.published == s.published + [msg] && FramesJob(z, Taken(s, |s.published|), msg, s.jobs[|s.published|]))
  {
    hide Inv, Next, Publish, FramesJob;
    if Publish(s, t) {
      PublishesOldest(z, s, t);
    } else {
      OnlyPublishPublishes(z, s, t);
    }
  }

  lemma PublishesOldest(z: Codec, s: Pipe, t: Pipe)
    requires Inv(z, s) && Publish(s, t)
    ensures t.jobs == s.jobs && |s.published| < |s.jobs|
    ensures exists msg ::
            t.published == s.published + [msg] && FramesJob(z, Taken(s, |s.published|), msg, s.jobs[|s.published|])
  {
    hide FramesJob, WorkOk, CloseOk;
    assert t.published == s.published + [s.out[s.held.value]];
  }

  lemma OnlyPublishPublishes(z: Codec, s: Pipe, t: Pipe)
    requires Next(z, s, t) && !Publish(s, t)
    ensures t.published == s.published && s.jobs <= t.jobs && |t.jobs| <= |s.jobs| + 1
  {
    hide EncodeChunk, RawFrame, Publish, AllExited, Take, Encode, Exit;
    if e: nat :| Take(s, t, e) || Encode(z, s, t, e) || Exit(s, t, e) {
      EncodersShowNothing(z, s, t, e);
    }
  }

  lemma EncodersShowNothing(z: Codec, s: Pipe, t: Pipe, e: nat)
    requires Take(s, t, e) || Encode(z, s, t, e) || Exit(s, t, e)
    ensures t.published == s.published && t.jobs == s.jobs && t.refused == s.refused && t.submitter == s.submitter
  {
    hide EncodeChunk;
  }

  /** What is published stays published: one step appends at most one message. */
  lemma PublishedGrows(z: Codec, s: Pipe, t: Pipe)
    requires Next(z, s, t)
    ensures s.published <= t.published && |t.published| <= |s.published| + 1 && s.jobs <= t.jobs
  {
    hide Next;
    if !Publish(s, t) {
      hide Publish;
      OnlyPublishPublishes(z, s, t);
    }
  }

  // ------------------------------------------------------------------- progress

  function Load(e: Encoder): nat {
    match e
    case Free => 1
    case Busy(_) => 2
    case Exited => 0
  }

  function Loads(encoders: seq<Encoder>): nat {
    if |encoders| == 0 then 0 else Loads(encoders[..|encoders| - 1]) + Load(encoders[|encoders| - 1])
  }

  lemma {:induction false} LoadsUpdate(encoders: seq<Encoder>, e: nat, v: Encoder)
    requires e < |encoders|
    ensures Loads(encoders[e := v]) == Loads(encoders) - Load(encoders[e]) + Load(v)
  {
    var n := |encoders| - 1;
    var updated := encoders[e := v];
    if e < n {
      LoadsUpdate(encoders[..n], e, v);
      assert updated[..n] == encoders[..n][e := v];
    } else {
      assert updated[..n] == encoders[..n];
    }
  }

  /** How many internal steps are left in the pipeline. */
  function StepsLeft(s: Pipe): nat {
    (match s.submitter case Away => 0 case Offering => 3 case Ordering => 6)
    + 2 * |s.work| + Loads(s.encoders) + 2 * |s.ordered| + (if s.held.Some? then 1 else 0)
    + (if s.orderedClosed then 0 else 1) + (if s.pubDone then 0 else 1)
  }

  lemma EncoderUses(z: Codec, s: Pipe, t: Pipe, e: nat)
    requires Take(s, t, e) || Encode(z, s, t, e) || Exit(s, t, e)
    ensures StepsLeft(t) < StepsLeft(s)
  {
    hide EncodeChunk, Loads;
    LoadsUpdate(s.encoders, e, t.encoders[e]);
  }

  lemma SubmitterUses(s: Pipe, t: Pipe)
    requires SendOrdered(s, t) || Offer(s, t)
    ensures StepsLeft(t) < StepsLeft(s)
  {
    hide RawFrame, Loads;
  }

  lemma PublisherUses(s: Pipe, t: Pipe)
    requires Hold(s, t) || Publish(s, t) || PublisherExit(s, t) || CloseOrdered(s, t)
    ensures StepsLeft(t) < StepsLeft(s)
  {
    hide Loads, AllExited;
  }

  /** Every internal step uses one up, whatever the schedule. */
  lemma InternalUses(z: Codec, s: Pipe, t: Pipe)
    requires Internal(z, s, t)
    ensures StepsLeft(t) < StepsLeft(s)
  {
    hide SendOrdered, Offer, Take, Encode, Exit, Hold, Publish, PublisherExit, CloseOrdered, StepsLeft;
    if e: nat :| Take(s, t, e) || Encode(z, s, t, e) || Exit(s, t, e) {
      EncoderUses(z, s, t, e);
    } else if SendOrdered(s, t) || Offer(s, t) {
      SubmitterUses(s, t);
    } else {
      PublisherUses(s, t);
    }
  }

  /** The job at the head is done, or some encoder can move it along. */
  lemma HeadMoves(z: Codec, s: Pipe, id: nat) returns (t: Pipe)
    requires Inv(z, s) && id < Offered(s) && id !in s.out
    ensures Internal(z, s, t)
  {
    hide FramesJob, EncodeChunk, OutOk;
    if b :| 0 <= b < |s.encoders| && s.encoders[b].Busy? {
      var j := s.jobs[s.encoders[b].id];
      t := s.(out := s.out[s.encoders[b].id := EncodeChunk(z, true, j.seq_, j.index, j.raw)],
              encoders := s.encoders[b := Free]);
      assert Encode(z, s, t, b);
    } else {
      assert id in s.work;
      assert s.encoders[0] == Free;
      t := s.(work := s.work[1..], encoders := s.encoders[0 := Busy(s.work[0])]);
      assert Take(s, t, 0);
    }
  }

  /** Never stuck: while a chunk is in flight some step is always enabled. */
  lemma FlightMoves(z: Codec, s: Pipe) returns (t: Pipe)
    requires Inv(z, s) && s.inflight > 0
    ensures Internal(z, s, t)
  {
    hide WorkOk, OutOk, EncodeChunk, RawFrame;
    if s.held == None && |s.ordered| > 0 {
      t := s.(held := Some(s.ordered[0]), ordered := s.ordered[1..]);
      assert Hold(s, t);
    } else if s.held.Some? && s.held.value in s.out {
      t := s.(published := s.published + [s.out[s.held.value]], held := None, inflight := s.inflight - 1);
      assert Publish(s, t);
    } else if s.submitter == Offering {
      var id := |s.jobs| - 1;
      t := if |s.work| < ENCODE_SLOTS then s.(work := s.work + [id], submitter := Away)
           else s.(out := s.out[id := RawFrame(s.jobs[id])], submitter := Away, refused := s.refused + {id});
      assert Offer(s, t);
    } else if s.submitter == Ordering && s.held == None {
      t := s.(ordered := s.ordered + [|s.jobs| - 1], submitter := Offering);
      assert SendOrdered(s, t);
    } else {
      t := HeadMoves(z, s, s.held.value);
    }
  }

  /** And once close(work) has been called, some step is enabled until the publisher
      has exited. */
  lemma CloseMoves(z: Codec, s: Pipe) returns (t: Pipe)
    requires Inv(z, s) && s.workClosed && !s.pubDone
    ensures Internal(z, s, t)
  {
    hide OutOk, EncodeChunk, RawFrame;
    if s.inflight > 0 {
      t := FlightMoves(z, s);
    } else if e: nat :| e < |s.encoders| && s.encoders[e] == Free && s.work == [] {
      t := s.(encoders := s.encoders[e := Exited]);
      assert Exit(s, t, e);
    } else if !s.orderedClosed {
      AllOut(z, s);
      t := s.(orderedClosed := true);
      assert CloseOrdered(s, t);
    } else {
      t := s.(pubDone := true);
      assert PublisherExit(s, t);
    }
  }

  lemma NothingLeft(z: Codec, s: Pipe)
    requires Inv(z, s) && s.inflight == 0
    ensures s.work == []
    ensures forall e :: 0 <= e < |s.encoders| ==> !s.encoders[e].Busy?
  {
    hide FramesJob;
    var head := if |s.work| > 0 then s.work[0] else 0;
    assert |s.work| > 0 ==> head !in s.out;
  }

  lemma AllOut(z: Codec, s: Pipe)
    requires Inv(z, s) && s.inflight == 0 && s.workClosed
    requires !exists e: nat :: e < |s.encoders| && s.encoders[e] == Free && s.work == []
    ensures AllExited(s)
  {
    NothingLeft(z, s);
    hide Inv;
    forall i | 0 <= i < |s.encoders| ensures s.encoders[i] == Exited {
      var e: nat := i;
      assert s.encoders[e] != Free;
    }
  }

  ghost predicate InternalRun(z: Codec, run: seq<Pipe>) {
    |run| > 0 && forall i :: 0 <= i < |run| - 1 ==> Internal(z, run[i], run[i + 1])
  }

  /** So flush returns: left to itself the pipeline empties, and since every internal
      step uses one of finitely many up, no schedule of them can go on for ever. */
  lemma {:induction false} FlushReturns(z: Codec, s: Pipe) returns (run: seq<Pipe>)
    requires Lawful(z) && Inv(z, s)
    ensures InternalRun(z, run) && run[0] == s && run[|run| - 1].inflight == 0
    ensures |run| <= StepsLeft(s) + 1
    decreases StepsLeft(s)
  {
    hide Inv, Internal, StepsLeft, Lawful;
    if s.inflight == 0 {
      run := [s];
    } else {
      var t := FlightMoves(z, s);
      InternalUses(z, s, t);
      NextKeeps(z, s, t);
      var rest := FlushReturns(z, t);
      run := [s] + rest;
      Prepended(z, s, rest);
    }
  }

  /** And close returns, with everything that was submitted published. */
  lemma {:induction false} CloseReturns(z: Codec, s: Pipe) returns (run: seq<Pipe>)
    requires Lawful(z) && Inv(z, s) && s.workClosed
    ensures InternalRun(z, run) && run[0] == s
    ensures run[|run| - 1].pubDone && |run[|run| - 1].published| == |run[|run| - 1].jobs|
    ensures |run| <= StepsLeft(s) + 1
    decreases StepsLeft(s)
  {
    hide Internal, StepsLeft, Lawful, WorkOk, OutOk;
    if s.pubDone {
      run := [s];
    } else {
      var t := CloseMoves(z, s);
      InternalUses(z, s, t);
      NextKeeps(z, s, t);
      StaysClosed(z, s, t);
      var rest := CloseReturns(z, t);
      run := [s] + rest;
      Prepended(z, s, rest);
    }
  }

  lemma Prepended(z: Codec, s: Pipe, rest: seq<Pipe>)
    requires InternalRun(z, rest) && Internal(z, s, rest[0])
    ensures InternalRun(z, [s] + rest)
  {
    hide Internal;
    var run := [s] + rest;
    forall i | 0 <= i < |run| - 1 ensures Internal(z, run[i], run[i + 1]) {
      if i > 0 {
        assert run[i] == rest[i - 1];
        assert run[i + 1] == rest[i - 1 + 1];
      }
    }
  }

  lemma StaysClosed(z: Codec, s: Pipe, t: Pipe)
    requires Internal(z, s, t) && s.workClosed
    ensures t.workClosed
  {
    hide EncodeChunk, RawFrame;
  }
}
