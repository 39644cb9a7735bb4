/**
 Progress of the large-file pipeline: signals are sent once per batch and only when a
 waiter is counted, and yet no run gets stuck when the readers are few enough for the pool.
 */
module PipelineProgress {
  import opened Machine
  import opened Counting
  import opened Extents
  import opened Pipeline
  import opened PipelineSafety

  predicate WIsExited(w: Writer) { w.WExited? }

  /** The pool holds a batch for all readers but one. */
  predicate FewReaders(c: Config) {
    (c.readers - 1) * Batch(c.inflight) <= c.inflight
  }

  function Asleep(s: State): int { Count(s.readers, RAsleep) }

  function NonFree(c: Config, s: State): int { c.inflight - |s.free| }

  ghost predicate CountersOk(c: Config, s: State) {
    && |s.readers| == c.readers && |s.writers| == c.writers
    && s.freeWaiters == Count(s.readers, RIsParked)
    && s.readyWaiters == Count(s.writers, WIsParked)
    && s.activeReaders == Count(s.readers, RActive)
    && (s.readDone <==> s.activeReaders == 0)
    && (forall t :: 0 <= t < |s.writers| && s.writers[t].WWriting? ==> 1 <= |s.writers[t].batch| <= Batch(c.inflight))
  }

  /** Each sleeping reader but one is paid for by a batch of buffers that have still to come back. */
  ghost predicate SleepersPaid(c: Config, s: State) {
    var u := Asleep(s);
    u >= 1 ==> (u - 1) * Batch(c.inflight) + (if s.cursor.offset < c.bulkEnd then 0 else 1) <= NonFree(c, s)
  }

  ghost predicate ReadersOk(c: Config, s: State) {
    if s.failed then Asleep(s) == 0
    else
      && (s.cursor.offset < c.bulkEnd ==> s.activeReaders == c.readers)
      && (s.cursor.offset < c.bulkEnd && Asleep(s) == c.readers ==> s.free == [])
      && (FewReaders(c) ==> SleepersPaid(c, s))
  }

  ghost predicate WritersOk(c: Config, s: State) {
    && (s.failed || s.readDone ==> Count(s.writers, WAsleep) == 0)
    && (!s.failed && s.ready != [] ==> Count(s.writers, WDown) < c.writers)
    && (!s.failed && Count(s.writers, WIsExited) > 0 ==> s.readDone && s.ready == [])
  }

  ghost predicate Progress(c: Config, s: State) {
    CountersOk(c, s) && ReadersOk(c, s) && WritersOk(c, s)
  }

  lemma BatchBounds(n: nat)
    ensures 1 <= Batch(n) <= 4 && (n >= 1 ==> Batch(n) <= n)
  {
  }

  lemma {:induction false} ClaimUpToFrame(c: Config, s: State, t: nat, k: nat)
    requires ConfigOk(c) && CursorOk(c.layout, c.bulkEnd, s.cursor)
    requires |s.owner| == |s.bufs| && forall id :: id in s.free ==> 0 <= id < |s.bufs|
    requires t < |s.readers| && s.readers[t].RReading?
    ensures var s' := ClaimUpTo(c, s, t, k);
            && s' == s.(free := s'.free, bufs := s'.bufs, cursor := s'.cursor, readers := s'.readers,
                        owner := s'.owner, fate := s'.fate, claims := s'.claims)
            && |s'.readers| == |s.readers| && s'.readers[t].RReading?
            && (forall u :: 0 <= u < |s.readers| && u != t ==> s'.readers[u] == s.readers[u])
            && |s'.free| <= |s.free| && s'.cursor.offset >= s.cursor.offset
            && (k > 0 && s.free != [] && s.cursor.offset < c.bulkEnd ==> |s'.free| < |s.free|)
    decreases k
  {
    if k == 0 || s.free == [] || s.cursor.offset >= c.bulkEnd {
    } else {
      assert s.free[0] in s.free && forall id :: id in s.free[1..] ==> id in s.free;
      ClaimOk(c.layout, c.bulkEnd, c.chunk, s.cursor);
      ClaimUpToFrame(c, ClaimOne(c, s, t), t, k - 1);
    }
  }

  /** A change of one reader's state, in numbers. */
  lemma ReaderChange(rs: seq<Reader>, t: nat, r: Reader)
    requires t < |rs|
    ensures Count(rs[t := r], RAsleep) == Count(rs, RAsleep) - (if RAsleep(rs[t]) then 1 else 0) + (if RAsleep(r) then 1 else 0)
    ensures Count(rs[t := r], RIsParked) == Count(rs, RIsParked) - (if RIsParked(rs[t]) then 1 else 0) + (if RIsParked(r) then 1 else 0)
    ensures Count(rs[t := r], RActive) == Count(rs, RActive) - (if RActive(rs[t]) then 1 else 0) + (if RActive(r) then 1 else 0)
    ensures Count(rs, RAsleep) <= Count(rs, RIsParked)
    ensures !RAsleep(rs[t]) ==> Count(rs, RAsleep) < |rs|
    ensures RActive(rs[t]) ==> Count(rs, RActive) >= 1
  {
    CountUpdate(rs, t, r, RAsleep);
    CountUpdate(rs, t, r, RIsParked);
    CountUpdate(rs, t, r, RActive);
    CountMonotone(rs, RAsleep, RIsParked);
    CountAll(rs, RAsleep);
    CountZero(rs, RActive);
  }

  lemma WriterChange(ws: seq<Writer>, t: nat, w: Writer)
    requires t < |ws|
    ensures Count(ws[t := w], WAsleep) == Count(ws, WAsleep) - (if WAsleep(ws[t]) then 1 else 0) + (if WAsleep(w) then 1 else 0)
    ensures Count(ws[t := w], WIsParked) == Count(ws, WIsParked) - (if WIsParked(ws[t]) then 1 else 0) + (if WIsParked(w) then 1 else 0)
    ensures Count(ws[t := w], WDown) == Count(ws, WDown) - (if WDown(ws[t]) then 1 else 0) + (if WDown(w) then 1 else 0)
    ensures Count(ws[t := w], WIsExited) == Count(ws, WIsExited) - (if WIsExited(ws[t]) then 1 else 0) + (if WIsExited(w) then 1 else 0)
    ensures !WDown(ws[t]) ==> Count(ws, WDown) < |ws|
  {
    CountUpdate(ws, t, w, WAsleep);
    CountUpdate(ws, t, w, WIsParked);
    CountUpdate(ws, t, w, WDown);
    CountUpdate(ws, t, w, WIsExited);
    CountAll(ws, WDown);
  }

  lemma WakeReadersCounts(rs: seq<Reader>)
    ensures Count(WakeReaders(rs), RAsleep) == 0
    ensures Count(WakeReaders(rs), RIsParked) == Count(rs, RIsParked)
    ensures Count(WakeReaders(rs), RActive) == Count(rs, RActive)
  {
    CountZero(WakeReaders(rs), RAsleep);
    CountSame(WakeReaders(rs), rs, RIsParked);
    CountSame(WakeReaders(rs), rs, RActive);
  }

  lemma WakeWritersCounts(ws: seq<Writer>)
    ensures Count(WakeWriters(ws), WAsleep) == 0
    ensures Count(WakeWriters(ws), WIsParked) == Count(ws, WIsParked)
    ensures Count(WakeWriters(ws), WIsExited) == Count(ws, WIsExited)
    ensures Count(WakeWriters(ws), WDown) <= Count(ws, WDown)
  {
    CountZero(WakeWriters(ws), WAsleep);
    CountSame(WakeWriters(ws), ws, WIsParked);
    CountSame(WakeWriters(ws), ws, WIsExited);
    WakeWritersDown(ws);
  }

  lemma {:induction false} WakeWritersDown(ws: seq<Writer>)
    ensures Count(WakeWriters(ws), WDown) <= Count(ws, WDown)
  {
    if ws != [] {
      var n := |ws| - 1;
      assert WakeWriters(ws)[..n] == WakeWriters(ws[..n]);
      WakeWritersDown(ws[..n]);
    }
  }

  /** More payment for no more sleepers. */
  lemma PaidMonotone(c: Config, s: State, s': State)
    requires SleepersPaid(c, s) && Asleep(s') <= Asleep(s)
    requires NonFree(c, s') >= NonFree(c, s) + if s.cursor.offset < c.bulkEnd <= s'.cursor.offset then 1 else 0
    requires s.cursor.offset <= s'.cursor.offset
    ensures SleepersPaid(c, s')
  {
    var b := Batch(c.inflight);
    BatchBounds(c.inflight);
    if Asleep(s') >= 1 {
      MulLe(Asleep(s') - 1, Asleep(s) - 1, b);
    }
  }

  lemma MulLe(x: int, y: int, b: int)
    requires x <= y && b >= 0
    ensures x * b <= y * b
  {
  }

  lemma ReaderParkProgress(c: Config, s: State, t: nat)
    requires ConfigOk(c) && Shape(c, s) && Progress(c, s) && ReaderCanEnter(s, t) && Sized(s)
    requires !s.failed && s.free == [] && s.cursor.offset < c.bulkEnd
    ensures Progress(c, DoReaderEnter(c, s, t))
  {
    var s' := DoReaderEnter(c, s, t);
    ReaderChange(s.readers, t, RParked(false));
    if FewReaders(c) {
      BatchBounds(c.inflight);
      MulLe(Asleep(s') - 1, c.readers - 1, Batch(c.inflight));
    }
  }

  lemma ReaderExitProgress(c: Config, s: State, t: nat)
    requires ConfigOk(c) && Shape(c, s) && Progress(c, s) && ReaderCanEnter(s, t) && Sized(s)
    requires s.failed || s.cursor.offset >= c.bulkEnd
    ensures Progress(c, DoReaderEnter(c, s, t))
  {
    ReaderChange(s.readers, t, RExited);
    WakeWritersCounts(s.writers);
    var s' := DoReaderEnter(c, s, t);
    forall u | 0 <= u < |s'.writers| && s'.writers[u].WWriting?
      ensures 1 <= |s'.writers[u].batch| <= Batch(c.inflight)
    {
      assert s'.writers[u] == s.writers[u];
    }
  }

  lemma ReaderClaimProgress(c: Config, s: State, t: nat)
    requires ConfigOk(c) && Safe(c, s) && Progress(c, s) && ReaderCanEnter(s, t) && Sized(s)
    requires !s.failed && s.free != [] && s.cursor.offset < c.bulkEnd
    ensures Progress(c, DoReaderEnter(c, s, t))
  {
    var s1 := LeaveFreeWait(s, t);
    var s2 := s1.(readers := s1.readers[t := RReading([])]);
    var s' := DoReaderEnter(c, s, t);
    BatchBounds(c.inflight);
    ClaimUpToFrame(c, s2, t, Batch(c.inflight));
    assert s'.readers == s.readers[t := s'.readers[t]];
    ReaderChange(s.readers, t, s'.readers[t]);
    if FewReaders(c) {
      PaidMonotone(c, s, s');
    }
  }

  lemma ReaderEnterProgress(c: Config, s: State, t: nat)
    requires ConfigOk(c) && Safe(c, s) && Progress(c, s) && ReaderCanEnter(s, t) && Sized(s)
    ensures Progress(c, DoReaderEnter(c, s, t))
  {
    if !s.failed && s.free == [] && s.cursor.offset < c.bulkEnd {
      ReaderParkProgress(c, s, t);
    } else if s.failed || s.cursor.offset >= c.bulkEnd {
      ReaderExitProgress(c, s, t);
    } else {
      ReaderClaimProgress(c, s, t);
    }
  }

  lemma MarkProgress(c: Config, s: State, ok: bool)
    requires Shape(c, s) && Progress(c, s)
    ensures Progress(c, ReaderMark(s, ok))
  {
    WakeReadersCounts(s.readers);
    WakeWritersCounts(s.writers);
    if !ok {
      forall u | 0 <= u < |s.writers| && WakeWriters(s.writers)[u].WWriting?
        ensures 1 <= |WakeWriters(s.writers)[u].batch| <= Batch(c.inflight)
      {
        assert WakeWriters(s.writers)[u] == s.writers[u];
      }
    }
  }

  lemma GiveUpProgress(c: Config, s0: State, t: nat, ok: bool, pick: Option<nat>)
    requires ConfigOk(c) && Safe(c, s0) && Progress(c, s0) && ReaderCanFinish(s0, t, ok, pick)
    requires ReaderMark(s0, ok).failed
    ensures Progress(c, DoReaderFinish(c, s0, t, ok, pick))
  {
    var s := ReaderMark(s0, ok);
    MarkProgress(c, s0, ok);
    WakeReadersCounts(s.readers);
    ReaderChange(WakeReaders(s.readers), t, RExited);
  }

  lemma HandOverProgress(c: Config, s: State, t: nat, pick: Option<nat>)
    requires ConfigOk(c) && Safe(c, s) && Progress(c, s) && ReaderCanFinish(s, t, true, pick) && !s.failed
    ensures Progress(c, DoReaderFinish(c, s, t, true, pick))
  {
    hide Shape, Conserved, BuffersOk, WritersAt, Content, Claimed;
    var s' := DoReaderFinish(c, s, t, true, pick);
    ReaderChange(s.readers, t, RIdle);
    assert !s.readDone;
    if pick.Some? {
      WriterChange(s.writers, pick.value, WParked(true));
    } else {
      CountZero(s.writers, WIsParked);
      CountZero(s.writers, WIsExited);
      CountZero(s.writers, WDown);
    }
    if FewReaders(c) {
      PaidMonotone(c, s, s');
    }
  }

  /** Steps of a writer that free no buffer leave the readers' part alone. */
  lemma ReadersKept(c: Config, s: State, s': State)
    requires ConfigOk(c) && ReadersOk(c, s)
    requires s'.readers == s.readers && s'.free == s.free && s'.cursor == s.cursor
    requires s'.failed == s.failed && s'.activeReaders == s.activeReaders
    ensures ReadersOk(c, s')
  {
  }

  lemma TakeProgress(c: Config, s: State, t: nat)
    requires ConfigOk(c) && Safe(c, s) && Progress(c, s) && WriterCanEnter(s, t) && s.ready != []
    ensures Progress(c, DoWriterEnter(c, s, t))
  {
    var s' := DoWriterEnter(c, s, t);
    BatchBounds(c.inflight);
    WriterChange(s.writers, t, s'.writers[t]);
    ReadersKept(c, s, s');
    assert CountersOk(c, s');
  }

  lemma WriterEnterProgress(c: Config, s: State, t: nat)
    requires ConfigOk(c) && Safe(c, s) && Progress(c, s) && WriterCanEnter(s, t)
    ensures Progress(c, DoWriterEnter(c, s, t))
  {
    hide Shape, Conserved, BuffersOk, WritersAt, Content, Claimed;
    if s.ready != [] {
      TakeProgress(c, s, t);
    } else {
      var s' := DoWriterEnter(c, s, t);
      WriterChange(s.writers, t, s'.writers[t]);
      ReadersKept(c, s, s');
    }
  }

  lemma PWriteProgress(c: Config, s: State, t: nat, k: int)
    requires ConfigOk(c) && Safe(c, s) && Progress(c, s) && CanPWrite(s, t, k)
    ensures Progress(c, DoPWrite(s, t, k))
  {
    var s' := DoPWrite(s, t, k);
    WriterChange(s.writers, t, s'.writers[t]);
    if !s.failed && FewReaders(c) {
      PaidMonotone(c, s, s');
    }
  }

  lemma ReturnProgress(c: Config, s: State, t: nat, pick: Option<nat>)
    requires ConfigOk(c) && Safe(c, s) && Progress(c, s) && WriterCanReturn(s, t, true, pick) && !s.failed
    ensures Progress(c, DoWriterReturn(s, t, true, pick))
  {
    hide Count, Shape, Conserved, BuffersOk, WritersAt, Content, Claimed;
    var s' := DoWriterReturn(s, t, true, pick);
    var b := Batch(c.inflight);
    WriterChange(s.writers, t, WIdle);
    CountMonotone(s.readers, RAsleep, RIsParked);
    CountZero(s.readers, RAsleep);
    if pick.Some? {
      ReaderChange(s.readers, pick.value, RParked(true));
      var u := Asleep(s);
      assert (u - 2) * b == (u - 1) * b - b;
    } else {
      assert Asleep(s) == 0;
    }
  }

  lemma FailedReturnProgress(c: Config, s0: State, t: nat, ok: bool, pick: Option<nat>)
    requires ConfigOk(c) && Safe(c, s0) && Progress(c, s0) && WriterCanReturn(s0, t, ok, pick)
    requires ReaderMark(s0, ok).failed
    ensures Progress(c, DoWriterReturn(s0, t, ok, pick))
  {
    hide Shape, Conserved, BuffersOk, WritersAt, Content, Claimed;
    var s := ReaderMark(s0, ok);
    MarkProgress(c, s0, ok);
    CountZero(s.readers, RAsleep);
    assert pick == None;
    WriterChange(s.writers, t, if ok then WIdle else WExited);
  }

  lemma WakeProgress(c: Config, s: State, step: Step)
    requires ConfigOk(c) && Safe(c, s) && Progress(c, s) && Enabled(c, s, step) && (step.WakeReader? || step.WakeWriter?)
    ensures Progress(c, Apply(c, s, step))
  {
    if step.WakeReader? {
      ReaderChange(s.readers, step.t, RParked(true));
    } else {
      WriterChange(s.writers, step.t, WParked(true));
    }
    if !s.failed && FewReaders(c) {
      PaidMonotone(c, s, Apply(c, s, step));
    }
  }

  lemma StepProgress(c: Config, s: State, step: Step)
    requires ConfigOk(c) && Safe(c, s) && Progress(c, s) && Enabled(c, s, step)
    ensures Progress(c, Apply(c, s, step))
  {
    match step
    case ReaderEnter(t) => ReaderEnterProgress(c, s, t);
    case ReaderFinish(t, ok, pick) =>
      if ReaderMark(s, ok).failed {
        GiveUpProgress(c, s, t, ok, pick);
      } else {
        HandOverProgress(c, s, t, pick);
      }
    case WriterEnter(t) => WriterEnterProgress(c, s, t);
    case PWrite(t, k) => PWriteProgress(c, s, t, k);
    case WriterReturn(t, ok, pick) =>
      if ReaderMark(s, ok).failed {
        FailedReturnProgress(c, s, t, ok, pick);
      } else {
        ReturnProgress(c, s, t, pick);
      }
    case WakeReader(_) => WakeProgress(c, s, step);
    case WakeWriter(_) => WakeProgress(c, s, step);
  }

  lemma InitProgress(c: Config)
    requires ConfigOk(c)
    ensures Progress(c, Init(c))
  {
    var s := Init(c);
    CountZero(s.readers, RAsleep);
    CountZero(s.readers, RIsParked);
    CountAll(s.readers, RActive);
    CountZero(s.writers, WAsleep);
    CountZero(s.writers, WIsParked);
    CountZero(s.writers, WIsExited);
  }

  lemma {:induction false} RunProgress(c: Config, steps: seq<Step>)
    requires ConfigOk(c) && IsRun(c, steps)
    ensures Safe(c, After(c, steps)) && Progress(c, After(c, steps))
    decreases |steps|
  {
    RunSafe(c, steps);
    if steps == [] {
      InitProgress(c);
    } else {
      var n := |steps| - 1;
      RunProgress(c, steps[..n]);
      StepProgress(c, After(c, steps[..n]), steps[n]);
    }
  }

  // ---------------------------------------------------------------------------
  // Main results

  ghost predicate AllExited(s: State) {
    && (forall t :: 0 <= t < |s.readers| ==> s.readers[t] == RExited)
    && (forall t :: 0 <= t < |s.writers| ==> s.writers[t] == WExited)
  }

  /** Some thread has not exited, and none can do anything but be woken for no reason. */
  ghost predicate Stuck(c: Config, s: State) {
    && !AllExited(s)
    && forall step :: Enabled(c, s, step) ==> step.WakeReader? || step.WakeWriter?
  }

  lemma SomePick(s: State) returns (pr: Option<nat>, pw: Option<nat>)
    ensures PickReaderOk(s, pr) && PickWriterOk(s, pw)
  {
    pr, pw := None, None;
    if t: nat :| s.freeWaiters > 0 && t < |s.readers| && RAsleep(s.readers[t]) {
      pr := Some(t);
    }
    if t: nat :| s.readyWaiters > 0 && t < |s.writers| && WAsleep(s.writers[t]) {
      pw := Some(t);
    }
  }

  /** A reader that is neither asleep nor gone can take its next step. */
  lemma ReaderRuns(c: Config, s: State, t: nat)
    requires ConfigOk(c) && Safe(c, s) && t < |s.readers| && !RAsleep(s.readers[t]) && RActive(s.readers[t])
    ensures !Stuck(c, s)
  {
    var _, pw := SomePick(s);
    var step := if s.readers[t].RReading? then ReaderFinish(t, true, if s.failed then None else pw) else ReaderEnter(t);
    assert Enabled(c, s, step);
  }

  lemma WriterRuns(c: Config, s: State, t: nat)
    requires ConfigOk(c) && Safe(c, s) && t < |s.writers| && !WDown(s.writers[t])
    ensures !Stuck(c, s)
  {
    var pr, _ := SomePick(s);
    var w := s.writers[t];
    assert WriterAt(s.bufs, w);
    assert Holds(s.owner, WBatch(w), OWriter(t));
    if w.WWriting? && w.i < |w.batch| {
      assert w.batch[w.i] in WBatch(w);
      assert BufOk(c, s.bufs[w.batch[w.i]]);
      assert Enabled(c, s, PWrite(t, 1));
    } else if w.WWriting? {
      assert Enabled(c, s, WriterReturn(t, true, pr));
    } else {
      assert Enabled(c, s, WriterEnter(t));
    }
  }

  /** With every thread asleep or gone, a buffer that is not free is on the ready list. */
  lemma OutstandingIsReady(c: Config, s: State)
    requires ConfigOk(c) && Safe(c, s) && |s.free| < c.inflight
    requires forall t :: 0 <= t < |s.readers| ==> !s.readers[t].RReading?
    requires forall t :: 0 <= t < |s.writers| ==> WDown(s.writers[t])
    ensures s.ready != []
  {
    Pigeonhole(s.free, c.inflight);
    var id :| 0 <= id < c.inflight && id !in s.free;
    assert !s.owner[id].OReader? && !s.owner[id].OWriter?;
  }

  lemma NotStuck(c: Config, s: State)
    requires ConfigOk(c) && FewReaders(c) && Safe(c, s) && Progress(c, s)
    ensures !Stuck(c, s)
  {
    hide Count, Safe, Content, Claimed;
    if t: nat :| t < |s.readers| && !RAsleep(s.readers[t]) && RActive(s.readers[t]) {
      ReaderRuns(c, s, t);
    } else if t: nat :| t < |s.writers| && !WDown(s.writers[t]) {
      WriterRuns(c, s, t);
    } else {
      CountAll(s.writers, WDown);
      CountZero(s.writers, WAsleep);
      CountZero(s.readers, RAsleep);
      CountAll(s.readers, RAsleep);
      CountAll(s.readers, RActive);
      CountZero(s.readers, RActive);
      if |s.free| < c.inflight {
        OutstandingIsReady(c, s);
      }
      assert Asleep(s) == 0;
      assert AllExited(s);
    }
  }

  /**
   Whatever the interleaving, whatever reads and writes fail, and although a batch is
   announced by one signal only: no reachable state is stuck if the readers are few enough.
   */
  lemma NeverStuck(c: Config, steps: seq<Step>)
    requires ConfigOk(c) && FewReaders(c) && IsRun(c, steps)
    ensures !Stuck(c, After(c, steps))
  {
    RunProgress(c, steps);
    NotStuck(c, After(c, steps));
  }

  /** The hypothesis that suffices at first sight, one batch per reader, is stronger than needed. */
  lemma OneBatchPerReader(c: Config)
    requires c.readers >= 1 && c.readers * Batch(c.inflight) < c.inflight + Batch(c.inflight)
    ensures FewReaders(c)
  {
    var b := Batch(c.inflight);
    assert (c.readers - 1) * b == c.readers * b - b;
  }

  /** When all threads of an unfailed file have exited, every buffer is back on the free list. */
  lemma BuffersComeBack(c: Config, s: State)
    requires ConfigOk(c) && Safe(c, s) && Progress(c, s) && AllExited(s) && !s.failed
    ensures NoDup(s.free) && |s.free| == c.inflight && s.ready == [] && s.cursor.offset == c.bulkEnd
  {
    CountZero(s.readers, RActive);
    CountZero(s.writers, WIsExited);
    Pigeonhole(s.free, c.inflight);
    if |s.free| < c.inflight {
      OutstandingIsReady(c, s);
    }
  }

  /**
   A file whose threads have all exited without a failure is copied exactly: the bulk
   equals the source, nothing outside the data was written, the claims partition the
   data into chunks that fill a buffer unless the data ends there, and all buffers are free again.
   */
  lemma CopiedExactly(c: Config, steps: seq<Step>)
    requires ConfigOk(c) && IsRun(c, steps)
    requires AllExited(After(c, steps)) && !After(c, steps).failed
    ensures var s := After(c, steps);
            && |s.dst| == |c.src|
            && s.dst[..c.bulkEnd] == c.src[..c.bulkEnd]
            && (forall p :: 0 <= p < |s.dst| && !Data(c, p) ==> s.dst[p] == 0)
            && (forall p :: Data(c, p) <==> Covers(s.claims, p))
            && (forall i, j :: 0 <= i < j < |s.claims| ==> s.claims[i].end <= s.claims[j].start)
            && (forall i :: 0 <= i < |s.claims| ==> 1 <= s.claims[i].end - s.claims[i].start <= c.chunk)
            && (forall i :: 0 <= i < |s.claims| ==> s.claims[i].end - s.claims[i].start == c.chunk || !Data(c, s.claims[i].end))
            && NoDup(s.free) && |s.free| == c.inflight
  {
    var s := After(c, steps);
    RunProgress(c, steps);
    BuffersComeBack(c, s);
    Pigeonhole(s.free, c.inflight);
    assert forall id :: 0 <= id < c.inflight ==> s.owner[id] == OFree;
    forall p | 0 <= p < |s.dst|
      ensures s.dst[p] == if Data(c, p) then c.src[p] else 0
    {
      assert s.fate[p] == Untouched <==> !(Data(c, p) && p < s.cursor.offset);
      assert !s.fate[p].InFlight?;
    }
  }

  /** The runs contain every byte of the bulk that is not zero. */
  ghost predicate RunsHoldData(src: seq<Byte>, bulkEnd: nat, runs: seq<Extent>)
    requires bulkEnd <= |src|
  {
    forall p :: 0 <= p < bulkEnd && src[p] != 0 ==> InRun(runs, p)
  }

  /** The list that a walk builds from such runs is a layout the pipeline can work with. */
  lemma WalkedConfigOk(c: Config, runs: seq<Extent>)
    requires c.readers >= 1 && c.writers >= 1 && c.inflight >= 1 && c.chunk >= 1
    requires c.bulkEnd <= |c.src| && c.bulkEnd % 4096 == 0
    requires Ascending(runs) && RunsHoldData(c.src, c.bulkEnd, runs)
    requires c.layout == Sparse(AddAll(runs, c.bulkEnd))
    ensures ConfigOk(c)
  {
    WalkWellFormed(runs, c.bulkEnd);
    forall p | 0 <= p < c.bulkEnd && !Data(c, p)
      ensures c.src[p] == 0
    {
      if c.src[p] != 0 {
        WalkKeepsRuns(runs, c.bulkEnd, p);
      }
    }
  }

  /**
   From the walk to the copy: when the runs are reported in ascending order and contain every byte
   that is not zero, an unfailed run leaves the source's bytes in the bulk and claims, each byte
   once, exactly the blocks of 4096 bytes that hold a byte of a run; nothing else is written.
   */
  lemma CopiedFromRuns(c: Config, runs: seq<Extent>, steps: seq<Step>)
    requires c.readers >= 1 && c.writers >= 1 && c.inflight >= 1 && c.chunk >= 1
    requires c.bulkEnd <= |c.src| && c.bulkEnd % 4096 == 0
    requires Ascending(runs) && RunsHoldData(c.src, c.bulkEnd, runs)
    requires c.layout == Sparse(AddAll(runs, c.bulkEnd)) && IsRun(c, steps)
    requires AllExited(After(c, steps)) && !After(c, steps).failed
    ensures var s := After(c, steps);
            && |s.dst| == |c.src|
            && s.dst[..c.bulkEnd] == c.src[..c.bulkEnd]
            && (forall p :: Covers(s.claims, p) <==> exists i :: 0 <= i < |runs| && RoundedRunHas(runs[i], c.bulkEnd, p))
            && (forall i, j :: 0 <= i < j < |s.claims| ==> s.claims[i].end <= s.claims[j].start)
            && (forall p :: 0 <= p < |s.dst| && !Covers(s.claims, p) ==> s.dst[p] == 0)
            && (forall p :: Covers(s.claims, p) ==> exists i :: 0 <= i < |runs| && runs[i].start - 4096 < p < runs[i].end + 4096)
            && ((forall i :: 0 <= i < |runs| ==> runs[i].start < runs[i].end) ==>
                  forall p :: Covers(s.claims, p) <==> 0 <= p < c.bulkEnd && exists i :: 0 <= i < |runs| && BlockMeets(runs[i], p))
  {
    hide IsRun, After, ConfigOk, RunsHoldData, AddAll, RoundedRunHas, Covers, Ascending, BlockMeets;
    WalkedConfigOk(c, runs);
    CopiedExactly(c, steps);
    var s := After(c, steps);
    forall p
      ensures Data(c, p) <==> exists i :: 0 <= i < |runs| && RoundedRunHas(runs[i], c.bulkEnd, p)
    {
      WalkCovers(runs, c.bulkEnd, p);
    }
    assert forall p :: Covers(s.claims, p) <==> Covers(AddAll(runs, c.bulkEnd), p);
    forall p | Covers(s.claims, p)
      ensures exists i :: 0 <= i < |runs| && runs[i].start - 4096 < p < runs[i].end + 4096
    {
      WalkIsNear(runs, c.bulkEnd, p);
    }
    if forall i :: 0 <= i < |runs| ==> runs[i].start < runs[i].end {
      forall p
        ensures Covers(s.claims, p) <==> 0 <= p < c.bulkEnd && exists i :: 0 <= i < |runs| && BlockMeets(runs[i], p)
      {
        WalkIsBlocks(runs, c.bulkEnd, p);
      }
    }
  }
}
