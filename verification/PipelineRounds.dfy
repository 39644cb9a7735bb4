/**
 What one lock hold of the large-file pipeline achieves: batches are as full as the pool and the
 file allow, buffers keep their order, threads park and leave only for the reasons the program has,
 and a failure is never forgotten.
 */
module PipelineRounds {
  import opened Counting
  import opened Extents
  import opened Pipeline
  import opened PipelineSafety
  import opened PipelineProgress

  /** A batch is a quarter of the pool, rounded down, within 1 and 4. */
  lemma BatchIsQuarter(n: nat)
    ensures 1 <= Batch(n) <= 4
    ensures Batch(n) == 1 || 4 * Batch(n) <= n
    ensures Batch(n) == 4 || n < 4 * (Batch(n) + 1)
  {
  }

  // ---------------------------------------------------------------------------
  // Readers

  lemma ClaimOneTakes(c: Config, s: State, t: nat)
    requires s.free != [] && 0 <= s.free[0] < |s.bufs| && |s.owner| == |s.bufs|
    requires t < |s.readers| && s.readers[t].RReading?
    ensures var s' := ClaimOne(c, s, t);
            && |s'.readers| == |s.readers| && s'.readers[t].RReading? && |s'.readers[t].batch| == |s.readers[t].batch| + 1
            && s.readers[t].batch + s.free == s'.readers[t].batch + s'.free
  {
    var s', id := ClaimOne(c, s, t), s.free[0];
    assert s.free == [id] + s'.free && s'.readers[t].batch == s.readers[t].batch + [id];
    assert s.readers[t].batch + s.free == s'.readers[t].batch + s'.free;
  }

  /** The claims of a reader take the first free buffers, and stop only at k of them or for want of buffers or data. */
  lemma {:induction false} ClaimTakesFirst(c: Config, s: State, t: nat, k: nat)
    requires ConfigOk(c) && Safe(c, s) && Sized(s) && t < |s.readers| && s.readers[t].RReading?
    ensures var s' := ClaimUpTo(c, s, t, k);
            && t < |s'.readers| && s'.readers[t].RReading? && |s'.readers[t].batch| <= |s.readers[t].batch| + k
            && s.readers[t].batch + s.free == s'.readers[t].batch + s'.free
            && (|s'.readers[t].batch| == |s.readers[t].batch| + k || s'.free == [] || s'.cursor.offset >= c.bulkEnd)
            && (k > 0 && s.free != [] && s.cursor.offset < c.bulkEnd ==> |s'.readers[t].batch| > |s.readers[t].batch|)
    decreases k
  {
    hide Safe, ClaimOne, ConfigOk;
    if k == 0 || s.free == [] || s.cursor.offset >= c.bulkEnd {
    } else {
      ClaimOneSafe(c, s, t);
      ClaimOneTakes(c, s, t);
      ClaimTakesFirst(c, ClaimOne(c, s, t), t, k - 1);
    }
  }

  /**
   A reader that gets the lock parks only when data is left and no buffer is free, leaves only when
   nothing is left to read or the file has failed, and otherwise takes the first free buffers: a full
   batch, unless the buffers or the data run out.
   */
  lemma ReaderEnters(c: Config, s: State, t: nat)
    requires ConfigOk(c) && Safe(c, s) && Sized(s) && ReaderCanEnter(s, t)
    ensures var s' := DoReaderEnter(c, s, t);
            t < |s'.readers| &&
            match s'.readers[t]
            case RParked(signalled) => !signalled && !s.failed && s.free == [] && s.cursor.offset < c.bulkEnd
            case RExited => s.failed || s.cursor.offset >= c.bulkEnd
            case RReading(batch) =>
              && !s.failed && s.free == batch + s'.free && 1 <= |batch| <= Batch(c.inflight)
              && (|batch| == Batch(c.inflight) || s'.free == [] || s'.cursor.offset >= c.bulkEnd)
            case RIdle => false
  {
    if !s.failed && s.free != [] && s.cursor.offset < c.bulkEnd {
      var s1 := LeaveFreeWait(s, t);
      var s2 := s1.(readers := s1.readers[t := RReading([])]);
      PcOnlySafe(c, s, s2);
      hide Safe, ConfigOk;
      BatchIsQuarter(c.inflight);
      ClaimTakesFirst(c, s2, t, Batch(c.inflight));
      var s' := ClaimUpTo(c, s2, t, Batch(c.inflight));
      assert [] + s.free == s.free;
    }
  }

  /** A reader that has read its batch appends it to the ready list; one that fails, or finds the file failed, gives it back and leaves. */
  lemma ReaderFinishes(c: Config, s: State, t: nat, ok: bool, pick: Option<nat>)
    requires ReaderCanFinish(s, t, ok, pick)
    ensures var s' := DoReaderFinish(c, s, t, ok, pick);
            && s'.failed == (s.failed || !ok)
            && (!s'.failed ==> s'.ready == s.ready + s.readers[t].batch && s'.free == s.free && s'.readers[t] == RIdle)
            && (s'.failed ==> s'.free == s.free + s.readers[t].batch && s'.ready == s.ready && s'.readers[t] == RExited)
  {
  }

  // ---------------------------------------------------------------------------
  // Writers

  /**
   A writer that gets the lock parks only when nothing is ready and readers are still at work, leaves
   only when nothing is ready and nothing will be, and otherwise takes the oldest ready buffers: a
   full batch, unless fewer are ready.
   */
  lemma WriterEnters(c: Config, s: State, t: nat)
    requires WriterCanEnter(s, t)
    ensures var s' := DoWriterEnter(c, s, t);
            match s'.writers[t]
            case WParked(signalled) => !signalled && s.ready == [] && !s.failed && !s.readDone
            case WExited => s.ready == [] && (s.failed || s.readDone)
            case WWriting(batch, i) =>
              && i == 0 && s.ready == batch + s'.ready && 1 <= |batch| <= Batch(c.inflight)
              && (|batch| == Batch(c.inflight) || s'.ready == [])
            case WIdle => false
  {
    BatchIsQuarter(c.inflight);
  }

  /** A writer gives back all its buffers; it goes on unless a write has failed. */
  lemma WriterReturns(c: Config, s: State, t: nat, ok: bool, pick: Option<nat>)
    requires WriterCanReturn(s, t, ok, pick)
    ensures var s' := DoWriterReturn(s, t, ok, pick);
            && s'.failed == (s.failed || !ok) && s'.free == s.free + s.writers[t].batch && s'.ready == s.ready
            && s'.writers[t] == (if ok then WIdle else WExited)
  {
  }

  // ---------------------------------------------------------------------------
  // Failures

  predicate Failing(step: Step) {
    (step.ReaderFinish? || step.WriterReturn?) && !step.ok
  }

  lemma {:induction false} ClaimKeepsFailed(c: Config, s: State, t: nat, k: nat)
    requires |s.owner| == |s.bufs| && t < |s.readers| && s.readers[t].RReading?
    requires forall id :: id in s.free ==> 0 <= id < |s.bufs|
    ensures ClaimUpTo(c, s, t, k).failed == s.failed
    decreases k
  {
    if k == 0 || s.free == [] || s.cursor.offset >= c.bulkEnd {
    } else {
      assert s.free[0] in s.free && forall id :: id in s.free[1..] ==> id in s.free;
      ClaimKeepsFailed(c, ClaimOne(c, s, t), t, k - 1);
    }
  }

  lemma StepFails(c: Config, s: State, step: Step)
    requires Enabled(c, s, step)
    ensures Apply(c, s, step).failed == (s.failed || Failing(step))
  {
    if step.ReaderEnter? && !s.failed && s.free != [] && s.cursor.offset < c.bulkEnd {
      var s1 := LeaveFreeWait(s, step.t);
      ClaimKeepsFailed(c, s1.(readers := s1.readers[step.t := RReading([])]), step.t, Batch(c.inflight));
    }
  }

  ghost predicate SomeFailing(steps: seq<Step>) {
    exists i :: 0 <= i < |steps| && Failing(steps[i])
  }

  lemma OneMoreStep(steps: seq<Step>)
    requires steps != []
    ensures SomeFailing(steps) <==> SomeFailing(steps[..|steps| - 1]) || Failing(steps[|steps| - 1])
  {
    hide Failing;
    var front := steps[..|steps| - 1];
    if i :| 0 <= i < |front| && Failing(front[i]) {
      assert Failing(steps[i]);
    }
    if i :| 0 <= i < |steps| && Failing(steps[i]) {
      assert i < |front| ==> Failing(front[i]);
    }
  }

  /** A file counts as failed exactly if some read or write of it has failed. */
  lemma {:induction false} FailedIff(c: Config, steps: seq<Step>)
    requires IsRun(c, steps)
    ensures After(c, steps).failed <==> SomeFailing(steps)
    decreases |steps|
  {
    if steps != [] {
      hide Enabled, Apply, SomeFailing;
      var n := |steps| - 1;
      FailedIff(c, steps[..n]);
      StepFails(c, After(c, steps[..n]), steps[n]);
      OneMoreStep(steps);
    }
  }
}
