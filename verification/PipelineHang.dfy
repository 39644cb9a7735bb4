/**
 The converse of NeverStuck: with one reader too many for the pool there is a file and an
 interleaving, without any failure, after which the pipeline sleeps forever.
 */
module PipelineHang {
  import opened Counting
  import opened Extents
  import opened Pipeline
  import opened PipelineSafety
  import opened PipelineProgress

  /** A dense file of one chunk more than the pool has buffers. */
  function HangConfig(readers: nat, writers: nat, inflight: nat, chunk: nat): Config {
    var len := Times(inflight + 1, chunk);
    Config(readers, writers, inflight, chunk, seq(len, i => 0), len, Dense)
  }

  ghost predicate HangOk(c: Config) {
    && c.readers >= 2 && c.writers >= 1 && c.inflight >= 1 && c.chunk >= 1
    && c.layout == Dense && c.bulkEnd == |c.src| == Times(c.inflight + 1, c.chunk)
    && Times(c.readers - 1, Batch(c.inflight)) > c.inflight
  }

  lemma HangConfigOk(c: Config)
    requires HangOk(c)
    ensures ConfigOk(c)
  {
  }

  /** What the construction needs to know about the states it passes through. */
  ghost predicate Sound(c: Config, s: State) {
    && Sized(s) && CountersOk(c, s)
    && (s.writers != [] && s.writers[0].WWriting? && s.writers[0].i < |s.writers[0].batch| ==>
          var id := s.writers[0].batch[s.writers[0].i];
          0 <= id < |s.bufs| && CanPWrite(s, 0, s.bufs[id].len - s.bufs[id].written))
  }

  /** A set of sound states that no step leaves. */
  ghost predicate Closed(c: Config, r: iset<State>) {
    && (forall s :: s in r ==> Sound(c, s))
    && (forall s, step :: s in r && Enabled(c, s, step) ==> Apply(c, s, step) in r)
  }

  /** The states that runs end in. */
  ghost function ReachableStates(c: Config): iset<State> {
    iset steps | IsRun(c, steps) :: After(c, steps)
  }

  lemma InvariantsAreSound(c: Config, s: State)
    requires HangOk(c) && Safe(c, s) && Progress(c, s)
    ensures Sound(c, s)
  {
    HangConfigOk(c);
    if s.writers != [] && s.writers[0].WWriting? && s.writers[0].i < |s.writers[0].batch| {
      var id := s.writers[0].batch[s.writers[0].i];
      assert WriterAt(s.bufs, s.writers[0]);
      assert Holds(s.owner, WBatch(s.writers[0]), OWriter(0));
      assert id in WBatch(s.writers[0]);
      assert BufOk(c, s.bufs[id]);
    }
  }

  lemma ReachableClosed(c: Config)
    requires HangOk(c)
    ensures Closed(c, ReachableStates(c)) && Init(c) in ReachableStates(c)
  {
    HangConfigOk(c);
    forall s | s in ReachableStates(c)
      ensures Sound(c, s)
    {
      var steps :| IsRun(c, steps) && After(c, steps) == s;
      RunProgress(c, steps);
      InvariantsAreSound(c, s);
    }
    forall s, step | s in ReachableStates(c) && Enabled(c, s, step)
      ensures Apply(c, s, step) in ReachableStates(c)
    {
      var steps :| IsRun(c, steps) && After(c, steps) == s;
      var r := steps + [step];
      assert r[..|r| - 1] == steps;
      assert IsRun(c, r) && After(c, r) == Apply(c, s, step);
    }
    assert IsRun(c, []) && After(c, []) == Init(c);
  }

  lemma ClaimLenDense(c: Config, s: State, k: nat)
    requires HangOk(c) && k <= c.inflight && s.cursor.offset == Times(k, c.chunk)
    ensures s.cursor.offset < c.bulkEnd
    ensures ClaimLen(c.layout, c.bulkEnd, c.chunk, s.cursor) == c.chunk
    ensures NextCursor(c.layout, c.bulkEnd, c.chunk, s.cursor).offset == Times(k + 1, c.chunk)
  {
    TimesMonotone(k + 1, c.inflight + 1, c.chunk);
  }

  /** A claim of a dense file takes as many buffers as there are, up to n. */
  lemma {:induction false} ClaimUpToDense(c: Config, s: State, t: nat, n: nat, k: nat)
    requires HangOk(c) && |s.owner| == |s.bufs|
    requires forall id :: id in s.free ==> 0 <= id < |s.bufs|
    requires t < |s.readers| && s.readers[t].RReading?
    requires s.cursor.offset == Times(k, c.chunk) && k + (if n < |s.free| then n else |s.free|) <= c.inflight + 1
    ensures var s' := ClaimUpTo(c, s, t, n);
            var m := if n < |s.free| then n else |s.free|;
            && |s'.free| == |s.free| - m
            && s'.cursor.offset == Times(k + m, c.chunk)
            && |s'.readers| == |s.readers| && s'.readers == s.readers[t := s'.readers[t]] && s'.readers[t].RReading?
            && |s'.readers[t].batch| == |s.readers[t].batch| + m
            && s' == s.(free := s'.free, bufs := s'.bufs, cursor := s'.cursor, readers := s'.readers,
                        owner := s'.owner, fate := s'.fate, claims := s'.claims)
    decreases n
  {
    hide HangOk, Times, ClaimLen, NextCursor, Fill;
    if n == 0 || s.free == [] {
    } else {
      assert s.free[0] in s.free && forall id :: id in s.free[1..] ==> id in s.free;
      assert k <= c.inflight;
      ClaimLenDense(c, s, k);
      ClaimUpToDense(c, ClaimOne(c, s, t), t, n - 1, k + 1);
    }
  }

  /** The last chunk is claimed alone, however many buffers are free. */
  lemma ClaimLast(c: Config, s: State, t: nat, n: nat)
    requires HangOk(c) && |s.owner| == |s.bufs| && n >= 1 && s.free != []
    requires forall id :: id in s.free ==> 0 <= id < |s.bufs|
    requires t < |s.readers| && s.readers[t].RReading?
    requires s.cursor.offset == Times(c.inflight, c.chunk)
    ensures s.free[0] in s.free && ClaimUpTo(c, s, t, n) == ClaimOne(c, s, t)
    ensures ClaimOne(c, s, t).cursor.offset == c.bulkEnd
  {
    assert s.free[0] in s.free && forall id :: id in s.free[1..] ==> id in s.free;
    ClaimLenDense(c, s, c.inflight);
    assert ClaimUpTo(c, ClaimOne(c, s, t), t, n - 1) == ClaimOne(c, s, t);
  }

  // ---------------------------------------------------------------------------
  // The pool runs dry and all readers park

  /** While claims come one after the other, the cursor counts the buffers taken. */
  ghost predicate Filling(c: Config, s: State) {
    && !s.failed && !s.readDone && s.freeWaiters >= 0
    && |s.readers| == c.readers && |s.writers| == c.writers
    && |s.free| + |s.ready| == c.inflight
    && s.cursor.offset == Times(c.inflight - |s.free|, c.chunk)
    && s.readyWaiters == 0
    && (forall t :: 0 <= t < |s.writers| ==> s.writers[t] == WIdle)
  }

  ghost predicate AllReaders(c: Config, s: State, k: nat) {
    forall t :: 0 <= t < |s.readers| ==> s.readers[t] == if t < k then RParked(false) else RIdle
  }

  lemma InitFilling(c: Config)
    requires HangOk(c)
    ensures Filling(c, Init(c)) && AllReaders(c, Init(c), 0)
  {
    HangConfigOk(c);
  }

  /** Reader 0 claims a batch. */
  lemma FillClaim(c: Config, s: State)
    requires HangOk(c) && Sized(s) && Filling(c, s) && AllReaders(c, s, 0) && s.free != []
    ensures ReaderCanEnter(s, 0)
    ensures var s' := DoReaderEnter(c, s, 0);
            && s' == s.(free := s'.free, bufs := s'.bufs, cursor := s'.cursor, readers := s'.readers,
                        owner := s'.owner, fate := s'.fate, claims := s'.claims)
            && |s'.readers| == |s.readers| && s'.readers[0].RReading? && s'.readers == s.readers[0 := s'.readers[0]]
            && |s'.readers[0].batch| == |s.free| - |s'.free| > 0
            && s'.cursor.offset == Times(c.inflight - |s'.free|, c.chunk)
  {
    HangConfigOk(c);
    BatchBounds(c.inflight);
    var s1 := s.(readers := s.readers[0 := RReading([])]);
    ClaimLenDense(c, s, c.inflight - |s.free|);
    ClaimUpToDense(c, s1, 0, Batch(c.inflight), c.inflight - |s.free|);
    hide ClaimUpTo, Times;
  }

  /** Reader 0 claims a batch, reads it and hands it over. */
  lemma FillOnce(c: Config, r: iset<State>, s: State) returns (s': State)
    requires HangOk(c) && Closed(c, r) && s in r && Filling(c, s) && AllReaders(c, s, 0) && s.free != []
    ensures s' in r && Filling(c, s') && AllReaders(c, s', 0) && |s'.free| < |s.free|
  {
    hide ClaimUpTo, Times, Count;
    FillClaim(c, s);
    var s2 := Apply(c, s, ReaderEnter(0));
    s' := Apply(c, s2, ReaderFinish(0, true, None));
    assert s'.readers == s.readers[0 := RIdle];
  }

  lemma {:induction false} FillReady(c: Config, r: iset<State>, s: State) returns (s': State)
    requires HangOk(c) && Closed(c, r) && s in r && Filling(c, s) && AllReaders(c, s, 0)
    ensures s' in r && Filling(c, s') && AllReaders(c, s', 0) && s'.free == []
    decreases |s.free|
  {
    if s.free == [] {
      s' := s;
    } else {
      var m := FillOnce(c, r, s);
      s' := FillReady(c, r, m);
    }
  }

  lemma ParkOne(c: Config, r: iset<State>, s: State, t: nat) returns (s': State)
    requires HangOk(c) && Closed(c, r) && s in r && Filling(c, s) && AllReaders(c, s, t) && s.free == [] && t < c.readers
    ensures s' in r && Filling(c, s') && AllReaders(c, s', t + 1) && s'.free == []
  {
    ClaimLenDense(c, s, c.inflight);
    s' := Apply(c, s, ReaderEnter(t));
    assert s'.readers == s.readers[t := RParked(false)];
  }

  lemma {:induction false} ParkReaders(c: Config, r: iset<State>, s: State, t: nat) returns (s': State)
    requires HangOk(c) && Closed(c, r) && s in r && Filling(c, s) && AllReaders(c, s, t) && s.free == [] && t <= c.readers
    ensures s' in r && Filling(c, s') && AllReaders(c, s', c.readers) && s'.free == []
    decreases c.readers - t
  {
    if t == c.readers {
      s' := s;
    } else {
      var m := ParkOne(c, r, s, t);
      s' := ParkReaders(c, r, m, t + 1);
    }
  }

  // ---------------------------------------------------------------------------
  // One round of writer 0

  function Min(a: nat, b: nat): nat { if a < b then a else b }

  /** A batch moves from the ready list to the free list and one reader is signalled. */
  ghost predicate RoundEffect(c: Config, s: State, s': State, t: nat) {
    var n := Min(|s.ready|, Batch(c.inflight));
    && s' == s.(free := s'.free, ready := s'.ready, bufs := s'.bufs, owner := s'.owner, dst := s'.dst, fate := s'.fate,
                readers := s'.readers)
    && t < |s.readers| && s'.readers == s.readers[t := RParked(true)]
    && |s'.ready| == |s.ready| - n && |s'.free| == |s.free| + n
  }

  ghost predicate Mid(c: Config, s: State, m: State, i: nat) {
    var n := Min(|s.ready|, Batch(c.inflight));
    && m == s.(ready := s.ready[n..], writers := m.writers, bufs := m.bufs, dst := m.dst, owner := m.owner, fate := m.fate)
    && |s.writers| > 0 && m.writers == s.writers[0 := WWriting(s.ready[..n], i)] && i <= n
  }

  lemma WriteOne(c: Config, r: iset<State>, s: State, m: State, i: nat) returns (m': State)
    requires HangOk(c) && Closed(c, r) && m in r && Mid(c, s, m, i) && i < Min(|s.ready|, Batch(c.inflight))
    ensures m' in r && Mid(c, s, m', i + 1)
  {
    var id := m.writers[0].batch[i];
    var step := PWrite(0, m.bufs[id].len - m.bufs[id].written);
    m' := Apply(c, m, step);
  }

  lemma {:induction false} WriteAll(c: Config, r: iset<State>, s: State, m: State, i: nat) returns (m': State)
    requires HangOk(c) && Closed(c, r) && m in r && Mid(c, s, m, i)
    ensures m' in r && Mid(c, s, m', Min(|s.ready|, Batch(c.inflight)))
    decreases Min(|s.ready|, Batch(c.inflight)) - i
  {
    if i == Min(|s.ready|, Batch(c.inflight)) {
      m' := m;
    } else {
      var m1 := WriteOne(c, r, s, m, i);
      m' := WriteAll(c, r, s, m1, i + 1);
    }
  }

  lemma WriterRound(c: Config, r: iset<State>, s: State, t: nat) returns (s': State)
    requires HangOk(c) && Closed(c, r) && s in r
    requires !s.failed && s.ready != [] && s.writers != [] && s.writers[0] == WIdle
    requires s.freeWaiters > 0 && t < |s.readers| && RAsleep(s.readers[t])
    ensures s' in r && RoundEffect(c, s, s', t)
  {
    var m := Apply(c, s, WriterEnter(0));
    m := WriteAll(c, r, s, m, 0);
    s' := Apply(c, m, WriterReturn(0, true, Some(t)));
    assert s'.writers == s.writers[0 := WIdle] == s.writers;
  }

  // ---------------------------------------------------------------------------
  // The last claim, and the readers that nobody wakes

  /**
   More sleeping readers than batches that could wake them, and nothing left to claim:
   no reader holds a buffer or is at work, no writer is parked or at work.
   */
  ghost predicate Starved(c: Config, s: State) {
    && !s.failed && s.cursor.offset == c.bulkEnd
    && |s.readers| == c.readers && |s.writers| == c.writers
    && (forall t :: 0 <= t < |s.readers| ==> s.readers[t].RParked? || s.readers[t].RExited?)
    && (forall t :: 0 <= t < |s.writers| ==> s.writers[t] == WIdle)
    && Asleep(s) >= 1 && Times(Asleep(s) - 1, Batch(c.inflight)) >= |s.ready|
  }

  lemma ClaimTheLast(c: Config, r: iset<State>, s: State) returns (s': State)
    requires HangOk(c) && Closed(c, r) && s in r && !s.failed && s.free != [] && s.cursor.offset == Times(c.inflight, c.chunk)
    requires s.readers != [] && s.readers[0] == RParked(true) && s.readyWaiters == 0
    ensures s' in r && |s'.ready| == |s.ready| + 1 && s'.cursor.offset == c.bulkEnd
    ensures s'.readers == s.readers[0 := RIdle] && s'.writers == s.writers && !s'.failed
    ensures s'.activeReaders == s.activeReaders
  {
    BatchBounds(c.inflight);
    ClaimLenDense(c, s, c.inflight);
    var s1 := LeaveFreeWait(s, 0).(readers := s.readers[0 := RReading([])]);
    ClaimLast(c, s1, 0, Batch(c.inflight));
    var s2 := ClaimOne(c, s1, 0);
    assert Apply(c, s, ReaderEnter(0)) == s2;
    s' := Apply(c, s2, ReaderFinish(0, true, None));
    assert s'.readers == s.readers[0 := RIdle];
  }

  lemma ExitOne(c: Config, r: iset<State>, s: State, t: nat) returns (s': State)
    requires HangOk(c) && Closed(c, r) && s in r && !s.failed && s.cursor.offset == c.bulkEnd && s.activeReaders >= 2
    requires ReaderCanEnter(s, t)
    ensures s' in r && s'.readers == s.readers[t := RExited]
    ensures s'.ready == s.ready && s'.writers == s.writers && s'.cursor == s.cursor && !s'.failed
  {
    s' := Apply(c, s, ReaderEnter(t));
  }

  /** All readers sleep, and are counted as waiting and as active. */
  lemma AllAsleep(c: Config, r: iset<State>, s: State)
    requires HangOk(c) && Closed(c, r) && s in r && Filling(c, s) && AllReaders(c, s, c.readers)
    ensures s.freeWaiters == s.activeReaders == Asleep(s) == c.readers
  {
    CountAll(s.readers, RIsParked);
    CountAll(s.readers, RActive);
    CountAll(s.readers, RAsleep);
    HangConfigOk(c);
    hide Count, Apply, Enabled;
  }

  lemma Starve(c: Config, r: iset<State>, s: State) returns (s': State)
    requires HangOk(c) && Closed(c, r) && s in r && Filling(c, s) && AllReaders(c, s, c.readers) && s.free == []
    ensures s' in r && Starved(c, s')
  {
    var b := Batch(c.inflight);
    BatchBounds(c.inflight);
    AllAsleep(c, r, s);
    hide Closed, Apply, Enabled, Count, Batch;
    assert Times(c.readers - 1, b) == b + Times(c.readers - 2, b);
    hide Times;
    var s1 := WriterRound(c, r, s, 0);
    var s2 := ClaimTheLast(c, r, s1);
    assert |s2.ready| == c.inflight - b + 1;
    s' := ExitOne(c, r, s2, 0);
    assert s'.readers == s.readers[0 := RExited];
    ReaderChange(s.readers, 0, RExited);
  }

  /** Some reader sleeps, and is counted as waiting. */
  lemma SomeSleeper(c: Config, r: iset<State>, s: State) returns (t: nat)
    requires HangOk(c) && Closed(c, r) && s in r && Starved(c, s)
    ensures t < |s.readers| && RAsleep(s.readers[t]) && s.freeWaiters > 0
  {
    CountZero(s.readers, RAsleep);
    t :| t < |s.readers| && RAsleep(s.readers[t]);
    CountZero(s.readers, RIsParked);
    HangConfigOk(c);
    hide Count, Apply, Enabled;
  }

  lemma DrainOnce(c: Config, r: iset<State>, s: State) returns (s': State)
    requires HangOk(c) && Closed(c, r) && s in r && Starved(c, s) && s.ready != []
    ensures s' in r && Starved(c, s') && |s'.ready| < |s.ready|
  {
    BatchBounds(c.inflight);
    var t := SomeSleeper(c, r, s);
    hide Count, Closed, Apply, Enabled, Batch;
    s' := WriterRound(c, r, s, t);
    ReaderChange(s.readers, t, RParked(true));
  }

  lemma {:induction false} Drain(c: Config, r: iset<State>, s: State) returns (s': State)
    requires HangOk(c) && Closed(c, r) && s in r && Starved(c, s)
    ensures s' in r && Starved(c, s') && s'.ready == []
    decreases |s.ready|
  {
    if s.ready == [] {
      s' := s;
    } else {
      var m := DrainOnce(c, r, s);
      s' := Drain(c, r, m);
    }
  }

  /** A reader that is awake and one that sleeps are two active readers. */
  lemma StillActive(s: State, t: nat)
    requires t < |s.readers| && s.readers[t] == RParked(true) && Asleep(s) >= 1
    ensures Count(s.readers, RActive) >= 2
  {
    CountUpdate(s.readers, t, RExited, RActive);
    CountUpdate(s.readers, t, RExited, RAsleep);
    CountMonotone(s.readers[t := RExited], RAsleep, RActive);
  }

  /** The signalled readers find nothing to read and exit without waking anybody. */
  lemma {:induction false} ExitSignalled(c: Config, r: iset<State>, s: State, t: nat) returns (s': State)
    requires HangOk(c) && Closed(c, r) && s in r && Starved(c, s) && s.ready == [] && t <= c.readers
    requires forall u :: 0 <= u < t ==> s.readers[u] != RParked(true)
    ensures s' in r && Starved(c, s') && s'.ready == []
    ensures forall u :: 0 <= u < c.readers ==> s'.readers[u] != RParked(true)
    decreases c.readers - t
  {
    if t == c.readers {
      s' := s;
    } else if s.readers[t] == RParked(true) {
        StillActive(s, t);
      var m := ExitOne(c, r, s, t);
      ReaderChange(s.readers, t, RExited);
      s' := ExitSignalled(c, r, m, t + 1);
    } else {
      s' := ExitSignalled(c, r, s, t + 1);
    }
  }

  ghost predicate WritersParkedTo(s: State, k: nat) {
    forall t :: 0 <= t < |s.writers| ==> s.writers[t] == if t < k then WParked(false) else WIdle
  }

  lemma {:induction false} ParkWriters(c: Config, r: iset<State>, s: State, t: nat) returns (s': State)
    requires HangOk(c) && Closed(c, r) && s in r && s.ready == [] && !s.failed && !s.readDone
    requires |s.writers| == c.writers && t <= c.writers && WritersParkedTo(s, t)
    ensures s' in r && s'.readers == s.readers && !s'.failed && |s'.writers| == c.writers && WritersParkedTo(s', c.writers)
    decreases c.writers - t
  {
    if t == c.writers {
      s' := s;
    } else {
      var m := Apply(c, s, WriterEnter(t));
      s' := ParkWriters(c, r, m, t + 1);
    }
  }

  /** For every number of writers and every chunk size, one reader too many can hang the pipeline. */
  lemma HangRun(c: Config, r: iset<State>) returns (s: State)
    requires HangOk(c) && Closed(c, r) && Init(c) in r
    ensures s in r && Stuck(c, s) && !s.failed
  {
    InitFilling(c);
    s := FillReady(c, r, Init(c));
    s := ParkReaders(c, r, s, 0);
    s := Starve(c, r, s);
    s := Drain(c, r, s);
    s := ExitSignalled(c, r, s, 0);
    CountZero(s.readers, RAsleep);
    CountMonotone(s.readers, RAsleep, RActive);
    hide Count, Closed, Apply;
    s := ParkWriters(c, r, s, 0);
  }

  ghost predicate NeverStuckWith(readers: nat, writers: nat, inflight: nat, chunk: nat) {
    forall c: Config, steps |
      ConfigOk(c) && c.readers == readers && c.writers == writers && c.inflight == inflight && c.chunk == chunk &&
      IsRun(c, steps) :: !Stuck(c, After(c, steps))
  }

  /**
   The exact condition: over all files, interleavings and outcomes of reads and writes,
   the pipeline never gets stuck if and only if the pool holds a batch for all readers but one.
   */
  lemma NeverStuckIff(readers: nat, writers: nat, inflight: nat, chunk: nat)
    requires readers >= 1 && writers >= 1 && inflight >= 1 && chunk >= 1
    ensures NeverStuckWith(readers, writers, inflight, chunk) <==> (readers - 1) * Batch(inflight) <= inflight
  {
    if (readers - 1) * Batch(inflight) <= inflight {
      forall c: Config, steps |
        ConfigOk(c) && c.readers == readers && c.writers == writers && c.inflight == inflight && c.chunk == chunk &&
        IsRun(c, steps)
        ensures !Stuck(c, After(c, steps))
      {
        NeverStuck(c, steps);
      }
    } else {
      var c := HangConfig(readers, writers, inflight, chunk);
      TimesIsProduct(readers - 1, Batch(inflight));
      HangConfigOk(c);
      ReachableClosed(c);
      var s := HangRun(c, ReachableStates(c));
      var steps :| IsRun(c, steps) && After(c, steps) == s;
      assert Stuck(c, After(c, steps));
    }
  }
}
