/**
 The large-file pipeline comes to an end: a measure falls with every step of a thread and rises
 by one only when a thread wakes for no reason, so the length of a run is bounded, and a run that
 cannot go on has copied the file or failed.
 */
module PipelineEnds {
  import opened Counting
  import opened Extents
  import opened Pipeline
  import opened PipelineSafety
  import opened PipelineProgress

  // ---------------------------------------------------------------------------
  // The measure

  function RAlive(r: Reader): nat { if r.RExited? then 0 else 1 }
  function WAlive(w: Writer): nat { if w.WExited? then 0 else 1 }

  /** Steps a thread may still take before it needs a new chunk, a new batch or a signal. */
  function RPower(r: Reader): nat { if r.RReading? then 3 else if r in {RIdle, RParked(true)} then 1 else 0 }
  function WPower(w: Writer): nat { if w.WWriting? then 3 else if w in {WIdle, WParked(true)} then 1 else 0 }

  function Unwritten(o: Owner): nat { if o.OReader? || o == OReady then 3 else 0 }
  function Left(b: Buffer): nat { if b.len > b.written then b.len - b.written else 0 }

  function Alive(s: State): nat { Sum(s.readers, RAlive) + Sum(s.writers, WAlive) }
  function Power(s: State): nat { Sum(s.readers, RPower) + Sum(s.writers, WPower) }

  function Work(c: Config, s: State): int {
    7 * (c.bulkEnd - s.cursor.offset) + Sum(s.owner, Unwritten) + Sum(s.bufs, Left)
  }

  /** More than the power of all threads together: what one exit, which may wake all others, costs. */
  function ExitCost(c: Config): nat { 3 * (c.readers + c.writers) + 1 }

  function Measure(c: Config, s: State): int {
    ExitCost(c) * Alive(s) + Work(c, s) + Power(s)
  }

  lemma PowerBound(c: Config, s: State)
    requires Shape(c, s)
    ensures Power(s) < ExitCost(c)
  {
    SumBound(s.readers, RPower, 3);
    SumBound(s.writers, WPower, 3);
  }

  lemma {:induction false} Product(k: nat, a: int, b: int)
    requires a <= b
    ensures k * a <= k * b && (a < b ==> k * a + k <= k * b)
    decreases b - a
  {
    if a < b {
      Product(k, a, b - 1);
      assert k * b == k * (b - 1) + k;
    }
  }

  lemma CursorInside(c: Config, s: State)
    requires Shape(c, s) && c.bulkEnd <= |c.src| && Content(c, s)
    ensures s.cursor.offset <= c.bulkEnd
  {
  }

  lemma MeasureNat(c: Config, s: State)
    requires ConfigOk(c) && Safe(c, s)
    ensures Measure(c, s) >= 0
  {
    hide Shape, Content, Conserved, BuffersOk, WritersAt, Claimed;
    CursorInside(c, s);
    hide Safe, Alive, Power, Sum, LayoutOk;
    Product(ExitCost(c), 0, Alive(s));
  }

  /** A thread exits, and all others may have been woken. */
  lemma ExitFalls(c: Config, s: State, s': State)
    requires Shape(c, s') && Alive(s') < Alive(s) && Work(c, s') <= Work(c, s)
    ensures Measure(c, s') < Measure(c, s)
  {
    hide Alive, Work, Power;
    PowerBound(c, s');
    Product(ExitCost(c), Alive(s'), Alive(s));
  }

  lemma MoveFalls(c: Config, s: State, s': State, less: int)
    requires Alive(s') <= Alive(s) && Work(c, s') + Power(s') + less <= Work(c, s) + Power(s)
    ensures Measure(c, s') + less <= Measure(c, s)
  {
    hide Alive, Work, Power;
    Product(ExitCost(c), Alive(s'), Alive(s));
  }

  /** One thread's state changes. */
  lemma ReaderSums(rs: seq<Reader>, t: nat, r: Reader)
    requires t < |rs|
    ensures Sum(rs[t := r], RAlive) == Sum(rs, RAlive) - RAlive(rs[t]) + RAlive(r)
    ensures Sum(rs[t := r], RPower) == Sum(rs, RPower) - RPower(rs[t]) + RPower(r)
  {
    SumUpdate(rs, t, r, RAlive);
    SumUpdate(rs, t, r, RPower);
  }

  lemma WriterSums(ws: seq<Writer>, t: nat, w: Writer)
    requires t < |ws|
    ensures Sum(ws[t := w], WAlive) == Sum(ws, WAlive) - WAlive(ws[t]) + WAlive(w)
    ensures Sum(ws[t := w], WPower) == Sum(ws, WPower) - WPower(ws[t]) + WPower(w)
  {
    SumUpdate(ws, t, w, WAlive);
    SumUpdate(ws, t, w, WPower);
  }

  /** Waking changes nobody's being alive. */
  lemma MarkAlive(s: State, ok: bool)
    ensures Sum(ReaderMark(s, ok).readers, RAlive) <= Sum(s.readers, RAlive)
    ensures Sum(ReaderMark(s, ok).writers, WAlive) <= Sum(s.writers, WAlive)
  {
    SumLe(ReaderMark(s, ok).readers, s.readers, RAlive);
    SumLe(ReaderMark(s, ok).writers, s.writers, WAlive);
  }

  // ---------------------------------------------------------------------------
  // Readers

  lemma ClaimOneFalls(c: Config, s: State, t: nat)
    requires ConfigOk(c) && Safe(c, s) && Sized(s) && t < |s.readers| && s.readers[t].RReading?
    requires s.free != [] && s.cursor.offset < c.bulkEnd && s.free[0] in s.free
    ensures var s' := ClaimOne(c, s, t);
            Alive(s') == Alive(s) && Power(s') == Power(s) && Work(c, s') + 3 <= Work(c, s)
  {
    var s', id := ClaimOne(c, s, t), s.free[0];
    assert CursorOk(c.layout, c.bulkEnd, s.cursor);
    ClaimOk(c.layout, c.bulkEnd, c.chunk, s.cursor);
    ReaderSums(s.readers, t, RReading(s.readers[t].batch + [id]));
    SumUpdate(s.owner, id, OReader(t), Unwritten);
    SumUpdate(s.bufs, id, s'.bufs[id], Left);
  }

  lemma {:induction false} ClaimUpToFalls(c: Config, s: State, t: nat, k: nat)
    requires ConfigOk(c) && Safe(c, s) && Sized(s) && t < |s.readers| && s.readers[t].RReading?
    ensures var s' := ClaimUpTo(c, s, t, k);
            && Alive(s') == Alive(s) && Power(s') == Power(s) && Work(c, s') <= Work(c, s)
            && (k > 0 && s.free != [] && s.cursor.offset < c.bulkEnd ==> Work(c, s') + 3 <= Work(c, s))
    decreases k
  {
    hide Safe, ClaimOne, Alive, Power, Work, ConfigOk;
    if k == 0 || s.free == [] || s.cursor.offset >= c.bulkEnd {
    } else {
      ClaimOneSafe(c, s, t);
      ClaimOneFalls(c, s, t);
      ClaimUpToFalls(c, ClaimOne(c, s, t), t, k - 1);
    }
  }

  lemma ReaderExitFalls(c: Config, s: State, t: nat)
    requires Shape(c, s) && t < |s.readers| && !s.readers[t].RExited?
    ensures Measure(c, ReaderExit(LeaveFreeWait(s, t), t)) < Measure(c, s)
  {
    var s' := ReaderExit(LeaveFreeWait(s, t), t);
    ReaderSums(s.readers, t, RExited);
    SumLe(s'.writers, s.writers, WAlive);
    ExitFalls(c, s, s');
  }

  lemma ReaderParkFalls(c: Config, s: State, t: nat)
    requires ReaderCanEnter(s, t)
    ensures var s1 := LeaveFreeWait(s, t);
            Measure(c, s1.(freeWaiters := s1.freeWaiters + 1, readers := s1.readers[t := RParked(false)])) < Measure(c, s)
  {
    var s1 := LeaveFreeWait(s, t);
    var s' := s1.(freeWaiters := s1.freeWaiters + 1, readers := s1.readers[t := RParked(false)]);
    ReaderSums(s.readers, t, RParked(false));
    MoveFalls(c, s, s', 1);
  }

  lemma ReaderClaimFalls(c: Config, s: State, t: nat)
    requires ConfigOk(c) && Safe(c, s) && Sized(s) && ReaderCanEnter(s, t)
    requires !s.failed && s.free != [] && s.cursor.offset < c.bulkEnd
    ensures Measure(c, DoReaderEnter(c, s, t)) < Measure(c, s)
  {
    var s1 := LeaveFreeWait(s, t);
    var s2 := s1.(readers := s1.readers[t := RReading([])]);
    PcOnlySafe(c, s, s2);
    ReaderSums(s.readers, t, RReading([]));
    hide Safe;
    assert Alive(s2) == Alive(s) && Power(s2) == Power(s) + 2 && Work(c, s2) == Work(c, s);
    hide Alive, Power, Work;
    BatchBounds(c.inflight);
    ClaimUpToFalls(c, s2, t, Batch(c.inflight));
    MoveFalls(c, s, DoReaderEnter(c, s, t), 1);
  }

  lemma ReaderEnterFalls(c: Config, s: State, t: nat)
    requires ConfigOk(c) && Safe(c, s) && Sized(s) && ReaderCanEnter(s, t)
    ensures Measure(c, DoReaderEnter(c, s, t)) < Measure(c, s)
  {
    hide Measure;
    if !s.failed && s.free == [] && s.cursor.offset < c.bulkEnd {
      ReaderParkFalls(c, s, t);
    } else if s.failed || s.cursor.offset >= c.bulkEnd {
      ReaderExitFalls(c, s, t);
    } else {
      ReaderClaimFalls(c, s, t);
    }
  }

  /** The batch of a reader goes to the ready list, or back to the free one. */
  lemma HandOverSums(c: Config, s: State, t: nat, to: Owner)
    requires Shape(c, s) && Conserved(s) && t < |s.readers| && s.readers[t].RReading? && to in {OReady, OFree}
    ensures Sum(Reassign(s.owner, s.readers[t].batch, to), Unwritten) <= Sum(s.owner, Unwritten)
  {
    assert Holds(s.owner, RBatch(s.readers[t]), OReader(t));
    SumLe(Reassign(s.owner, s.readers[t].batch, to), s.owner, Unwritten);
  }

  lemma HandOverPower(c: Config, s: State, t: nat, pick: Option<nat>)
    requires ReaderCanFinish(s, t, true, pick) && !s.failed
    ensures var s' := DoReaderFinish(c, s, t, true, pick); Alive(s') == Alive(s) && Power(s') < Power(s)
  {
    ReaderSums(s.readers, t, RIdle);
    if pick.Some? {
      WriterSums(s.writers, pick.value, WParked(true));
    }
    hide Sum;
  }

  lemma HandOverWork(c: Config, s: State, t: nat, pick: Option<nat>)
    requires Shape(c, s) && Conserved(s) && ReaderCanFinish(s, t, true, pick) && !s.failed
    ensures Work(c, DoReaderFinish(c, s, t, true, pick)) <= Work(c, s)
  {
    HandOverSums(c, s, t, OReady);
    SumLe(Load(c, s.bufs, s.readers[t].batch), s.bufs, Left);
    hide Sum, Conserved;
  }

  lemma HandOverFalls(c: Config, s: State, t: nat, pick: Option<nat>)
    requires ConfigOk(c) && Safe(c, s) && ReaderCanFinish(s, t, true, pick) && !s.failed
    ensures Measure(c, DoReaderFinish(c, s, t, true, pick)) < Measure(c, s)
  {
    HandOverWork(c, s, t, pick);
    hide Safe, Alive, Power, Work;
    HandOverPower(c, s, t, pick);
    MoveFalls(c, s, DoReaderFinish(c, s, t, true, pick), 1);
  }

  lemma GiveUpAlive(c: Config, s: State, t: nat, ok: bool, pick: Option<nat>)
    requires ReaderCanFinish(s, t, ok, pick) && !(ok && !s.failed)
    ensures Alive(DoReaderFinish(c, s, t, ok, pick)) < Alive(s)
  {
    var s1 := ReaderMark(s, ok);
    MarkAlive(s, ok);
    SumLe(WakeReaders(s1.readers), s.readers, RAlive);
    ReaderSums(WakeReaders(s1.readers), t, RExited);
    assert WakeReaders(s1.readers)[t] == s.readers[t];
    hide Sum;
  }

  lemma GiveUpWork(c: Config, s: State, t: nat, ok: bool, pick: Option<nat>)
    requires Shape(c, s) && Conserved(s) && ReaderCanFinish(s, t, ok, pick) && !(ok && !s.failed)
    ensures Work(c, DoReaderFinish(c, s, t, ok, pick)) <= Work(c, s)
  {
    HandOverSums(c, s, t, OFree);
    hide Sum, Conserved;
  }

  lemma GiveUpFalls(c: Config, s: State, t: nat, ok: bool, pick: Option<nat>)
    requires ConfigOk(c) && Safe(c, s) && ReaderCanFinish(s, t, ok, pick) && !(ok && !s.failed)
    requires Shape(c, DoReaderFinish(c, s, t, ok, pick))
    ensures Measure(c, DoReaderFinish(c, s, t, ok, pick)) < Measure(c, s)
  {
    GiveUpWork(c, s, t, ok, pick);
    hide Safe, Alive, Power, Work;
    GiveUpAlive(c, s, t, ok, pick);
    ExitFalls(c, s, DoReaderFinish(c, s, t, ok, pick));
  }

  lemma ReaderFinishFalls(c: Config, s: State, t: nat, ok: bool, pick: Option<nat>)
    requires ConfigOk(c) && Safe(c, s) && ReaderCanFinish(s, t, ok, pick)
    ensures Measure(c, DoReaderFinish(c, s, t, ok, pick)) < Measure(c, s)
  {
    ReaderFinishConserved(c, s, t, ok, pick);
    hide Safe, Measure;
    if ok && !s.failed {
      HandOverFalls(c, s, t, pick);
    } else {
      GiveUpFalls(c, s, t, ok, pick);
    }
  }

  // ---------------------------------------------------------------------------
  // Writers

  lemma WriterExitFalls(c: Config, s: State, t: nat)
    requires Shape(c, s) && WriterCanEnter(s, t) && s.ready == []
    ensures Measure(c, DoWriterEnter(c, s, t)) < Measure(c, s)
  {
    var s' := DoWriterEnter(c, s, t);
    if s'.writers[t].WExited? {
      WriterSums(s.writers, t, WExited);
      ExitFalls(c, s, s');
    } else {
      WriterSums(s.writers, t, WParked(false));
      MoveFalls(c, s, s', 1);
    }
  }

  lemma TakeFalls(c: Config, s: State, t: nat)
    requires ConfigOk(c) && Safe(c, s) && WriterCanEnter(s, t) && s.ready != []
    ensures Measure(c, DoWriterEnter(c, s, t)) < Measure(c, s)
  {
    var s', n := DoWriterEnter(c, s, t), TakeLen(c, s);
    BatchBounds(c.inflight);
    var id := s.ready[0];
    assert id in s.ready && id in s.ready[..n];
    assert forall i :: i in s.ready[..n] ==> i in s.ready;
    assert Holds(s.owner, s.ready, OReady);
    SumLess(s'.owner, s.owner, id, Unwritten);
    WriterSums(s.writers, t, WWriting(s.ready[..n], 0));
    hide Safe, Sum, Holds;
    MoveFalls(c, s, s', 1);
  }

  lemma PWriteFalls(c: Config, s: State, t: nat, k: int)
    requires ConfigOk(c) && Safe(c, s) && CanPWrite(s, t, k)
    ensures Measure(c, DoPWrite(s, t, k)) < Measure(c, s)
  {
    var s', w := DoPWrite(s, t, k), s.writers[t];
    var id := w.batch[w.i];
    SumUpdate(s.bufs, id, s'.bufs[id], Left);
    WriterSums(s.writers, t, s'.writers[t]);
    hide Safe, Sum;
    MoveFalls(c, s, s', 1);
  }

  lemma ReturnSums(c: Config, s: State, t: nat)
    requires Shape(c, s) && Conserved(s) && t < |s.writers| && s.writers[t].WWriting?
    ensures Sum(Reassign(s.owner, s.writers[t].batch, OFree), Unwritten) <= Sum(s.owner, Unwritten)
  {
    assert Holds(s.owner, WBatch(s.writers[t]), OWriter(t));
    SumLe(Reassign(s.owner, s.writers[t].batch, OFree), s.owner, Unwritten);
  }

  lemma ReturnFalls(c: Config, s: State, t: nat, pick: Option<nat>)
    requires ConfigOk(c) && Safe(c, s) && WriterCanReturn(s, t, true, pick)
    ensures Measure(c, DoWriterReturn(s, t, true, pick)) < Measure(c, s)
  {
    var s' := DoWriterReturn(s, t, true, pick);
    ReturnSums(c, s, t);
    WriterSums(s.writers, t, WIdle);
    if pick.Some? {
      ReaderSums(s.readers, pick.value, RParked(true));
    }
    hide Safe, Sum;
    MoveFalls(c, s, s', 1);
  }

  lemma FailedReturnAlive(s: State, t: nat, pick: Option<nat>)
    requires WriterCanReturn(s, t, false, pick)
    ensures Alive(DoWriterReturn(s, t, false, pick)) < Alive(s)
  {
    var s1 := ReaderMark(s, false);
    MarkAlive(s, false);
    WriterSums(s1.writers, t, WExited);
    NobodySleeps(s);
    hide Sum;
  }

  /** After a failure there is nobody left to signal. */
  lemma NobodySleeps(s: State)
    ensures forall u :: 0 <= u < |s.readers| ==> !RAsleep(ReaderMark(s, false).readers[u])
  {
  }

  lemma FailedReturnFalls(c: Config, s: State, t: nat, pick: Option<nat>)
    requires ConfigOk(c) && Safe(c, s) && WriterCanReturn(s, t, false, pick)
    requires Shape(c, DoWriterReturn(s, t, false, pick))
    ensures Measure(c, DoWriterReturn(s, t, false, pick)) < Measure(c, s)
  {
    ReturnSums(c, s, t);
    hide Safe, Shape, Measure;
    FailedReturnAlive(s, t, pick);
    ExitFalls(c, s, DoWriterReturn(s, t, false, pick));
  }

  // ---------------------------------------------------------------------------
  // Runs

  predicate Wakes(step: Step) { step.WakeReader? || step.WakeWriter? }

  /** Every step of a thread lowers the measure; a wake for no reason raises it by one. */
  lemma StepFalls(c: Config, s: State, step: Step)
    requires ConfigOk(c) && Safe(c, s) && Enabled(c, s, step)
    ensures Measure(c, Apply(c, s, step)) <= Measure(c, s) + (if Wakes(step) then 1 else -1)
  {
    hide Safe, Measure;
    match step
    case ReaderEnter(t) => ReaderEnterFalls(c, s, t);
    case ReaderFinish(t, ok, pick) => ReaderFinishFalls(c, s, t, ok, pick);
    case WriterEnter(t) =>
      if s.ready == [] {
        SafeShape(c, s);
        WriterExitFalls(c, s, t);
      } else {
        TakeFalls(c, s, t);
      }
    case PWrite(t, k) => PWriteFalls(c, s, t, k);
    case WriterReturn(t, ok, pick) =>
      if ok {
        ReturnFalls(c, s, t, pick);
      } else {
        ReturnShape(c, s, t, pick);
        FailedReturnFalls(c, s, t, pick);
      }
    case WakeReader(t) =>
      ReaderSums(s.readers, t, RParked(true));
      MoveFalls(c, s, Apply(c, s, step), -1);
    case WakeWriter(t) =>
      WriterSums(s.writers, t, WParked(true));
      MoveFalls(c, s, Apply(c, s, step), -1);
  }

  lemma SafeShape(c: Config, s: State)
    requires ConfigOk(c) && Safe(c, s)
    ensures Shape(c, s)
  {
  }

  lemma ReturnShape(c: Config, s: State, t: nat, pick: Option<nat>)
    requires ConfigOk(c) && Safe(c, s) && WriterCanReturn(s, t, false, pick)
    ensures Shape(c, DoWriterReturn(s, t, false, pick))
  {
    WriterReturnConserved(c, s, t, false, pick);
  }

  /** Wakes for no reason in a run. */
  function WakesIn(steps: seq<Step>): nat { Count(steps, Wakes) }

  /** What a file of this size can cost: a few steps for each byte, and a round of wakes for each exit. */
  function StepBound(c: Config): nat {
    7 * c.bulkEnd + ExitCost(c) * (c.readers + c.writers) + c.readers + c.writers
  }

  lemma MeasureMeans(c: Config, s: State)
    requires Alive(s) <= c.readers + c.writers && Power(s) <= c.readers + c.writers && Work(c, s) <= 7 * c.bulkEnd
    requires ExitCost(c) * Alive(s) <= ExitCost(c) * (c.readers + c.writers)
    ensures Measure(c, s) <= StepBound(c)
  {
    hide ExitCost, Alive, Power, Work;
  }

  lemma InitMeasure(c: Config)
    requires ConfigOk(c)
    ensures Measure(c, Init(c)) <= StepBound(c)
  {
    var s := Init(c);
    StartCursorOk(c.layout, c.bulkEnd);
    SumBound(s.readers, RAlive, 1);
    SumBound(s.writers, WAlive, 1);
    SumBound(s.readers, RPower, 1);
    SumBound(s.writers, WPower, 1);
    SumBound(s.owner, Unwritten, 0);
    SumBound(s.bufs, Left, 0);
    assert Alive(s) <= c.readers + c.writers && Power(s) <= c.readers + c.writers && Work(c, s) <= 7 * c.bulkEnd;
    hide *;
    Product(ExitCost(c), Alive(s), c.readers + c.writers);
    MeasureMeans(c, s);
  }

  lemma {:induction false} RunFalls(c: Config, steps: seq<Step>)
    requires ConfigOk(c) && IsRun(c, steps)
    ensures Measure(c, After(c, steps)) + |steps| <= StepBound(c) + 2 * WakesIn(steps)
    decreases |steps|
  {
    hide Measure, StepBound, Safe;
    if steps == [] {
      InitMeasure(c);
    } else {
      var n := |steps| - 1;
      RunFalls(c, steps[..n]);
      RunSafe(c, steps[..n]);
      StepFalls(c, After(c, steps[..n]), steps[n]);
    }
  }

  /**
   Every run ends: whatever fails and whatever the interleaving, its length is bounded by the size of
   the file and the number of threads, and by the wakes for no reason. With few enough readers a run
   that only such a wake could continue has seen all threads exit.
   */
  lemma EveryRunEnds(c: Config, steps: seq<Step>)
    requires ConfigOk(c) && IsRun(c, steps)
    ensures |steps| <= StepBound(c) + 2 * WakesIn(steps)
    ensures FewReaders(c) && (forall step :: Enabled(c, After(c, steps), step) ==> Wakes(step)) ==> AllExited(After(c, steps))
  {
    RunFalls(c, steps);
    RunSafe(c, steps);
    MeasureNat(c, After(c, steps));
    if FewReaders(c) {
      NeverStuck(c, steps);
    }
  }
}
