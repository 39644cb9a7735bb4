/**
 The lock holds of the large-file pipeline as the threads execute them, on the shared
 fields of one file, and their agreement with the steps of the state machine.
 */
module PipelineLocks {
  import opened Counting
  import opened Extents
  import opened Pipeline

  /** What a thread does after a lock hold. */
  datatype Verdict = Wait | Exit | Work(batch: seq<int>)

  class LargeFile {
    const c: Config
    var free: seq<int>
    var ready: seq<int>
    var bufs: seq<Buffer>
    var nextReadOffset: int
    var extIdx: nat
    var failed: bool
    var readDone: bool
    var activeReaders: int
    var freeWaiters: int
    var readyWaiters: int
    ghost var s: State

    constructor (c: Config)
      ensures Valid() && this.c == c && s == Init(c)
    {
      this.c := c;
      var start := StartCursor(c.layout, c.bulkEnd);
      free, ready, bufs := seq(c.inflight, i => i), [], seq(c.inflight, i => Buffer(0, 0, [], 0));
      nextReadOffset, extIdx := start.offset, start.idx;
      failed, readDone, activeReaders, freeWaiters, readyWaiters := false, false, c.readers, 0, 0;
      s := Init(c);
    }

    /** The shared fields are those of the state. */
    ghost predicate Valid()
      reads this
    {
      && free == s.free && ready == s.ready && bufs == s.bufs && Cursor(nextReadOffset, extIdx) == s.cursor
      && failed == s.failed && readDone == s.readDone && activeReaders == s.activeReaders
      && freeWaiters == s.freeWaiters && readyWaiters == s.readyWaiters
    }

    /** Positions the cursor on data. */
    method SkipHolesLocked()
      modifies this`nextReadOffset, this`extIdx
      ensures Cursor(nextReadOffset, extIdx) == SkipHoles(c.layout, c.bulkEnd, old(Cursor(nextReadOffset, extIdx)))
    {
      if c.layout.Dense? {
        return;
      }
      while extIdx < |c.layout.extents| && nextReadOffset >= c.layout.extents[extIdx].end
        invariant nextReadOffset == old(nextReadOffset)
        invariant SkipHoles(c.layout, c.bulkEnd, Cursor(nextReadOffset, extIdx)) ==
                  SkipHoles(c.layout, c.bulkEnd, old(Cursor(nextReadOffset, extIdx)))
        decreases |c.layout.extents| - extIdx
      {
        extIdx := extIdx + 1;
      }
      if extIdx >= |c.layout.extents| {
        nextReadOffset := c.bulkEnd;
        return;
      }
      if nextReadOffset < c.layout.extents[extIdx].start {
        nextReadOffset := c.layout.extents[extIdx].start;
      }
    }

    /** Takes the first free buffer and gives it the next range of the file. */
    method ClaimNext(ghost t: nat) returns (b: int)
      requires Valid() && Sized(s) && free != [] && t < |s.readers| && s.readers[t].RReading?
      modifies this
      ensures 0 <= b < |old(s.bufs)| && b == old(free)[0] && Valid() && s == ClaimOne(c, old(s), t) && Sized(s)
    {
      assert free[0] in free && forall id :: id in free[1..] ==> id in free;
      ghost var s1 := ClaimOne(c, s, t);
      b := free[0];
      free := free[1..];
      var offset := nextReadOffset;
      var remain := RunEnd(c.layout, c.bulkEnd, Cursor(nextReadOffset, extIdx)) - offset;
      var len := if remain >= c.chunk then c.chunk else remain;
      bufs := bufs[b := bufs[b].(offset := offset, len := len, written := 0)];
      nextReadOffset := nextReadOffset + len;
      SkipHolesLocked();
      s := s1;
    }

    /** Claims buffers in one lock hold, up to a batch. */
    method ClaimBatch(ghost t: nat) returns (batch: seq<int>)
      requires Valid() && Sized(s) && t < |s.readers| && s.readers[t] == RReading([])
      modifies this
      ensures Valid() && s == ClaimUpTo(c, old(s), t, Batch(c.inflight))
      ensures |s.readers| == |old(s.readers)| && s.readers[t] == RReading(batch)
    {
      var batchMax := Batch(c.inflight);
      batch := [];
      while |batch| < batchMax && free != [] && nextReadOffset < c.bulkEnd
        invariant Valid() && Sized(s) && |batch| <= batchMax
        invariant |s.readers| == |old(s.readers)| && s.readers[t] == RReading(batch)
        invariant ClaimUpTo(c, s, t, batchMax - |batch|) == ClaimUpTo(c, old(s), t, batchMax)
        decreases batchMax - |batch|
      {
        ghost var before := s;
        var b := ClaimNext(t);
        assert ClaimUpTo(c, before, t, batchMax - |batch|) == ClaimUpTo(c, s, t, batchMax - |batch| - 1);
        batch := batch + [b];
      }
    }

    /** A reader with the lock: `parked` says that it comes out of a wait. */
    method ReaderEnter(t: nat, parked: bool) returns (verdict: Verdict)
      requires Valid() && Sized(s) && ReaderCanEnter(s, t) && parked == s.readers[t].RParked?
      modifies this
      ensures Valid() && s == DoReaderEnter(c, old(s), t)
      ensures |s.readers| == |old(s.readers)|
      ensures match verdict
              case Wait => s.readers[t] == RParked(false)
              case Exit => s.readers[t] == RExited
              case Work(batch) => s.readers[t] == RReading(batch)
    {
      ghost var s1 := LeaveFreeWait(s, t);
      if parked {
        freeWaiters := freeWaiters - 1;
      }
      if !failed && free == [] && nextReadOffset < c.bulkEnd {
        freeWaiters := freeWaiters + 1;
        s := DoReaderEnter(c, s, t);
        return Wait;
      }
      if failed || nextReadOffset >= c.bulkEnd {
        activeReaders := activeReaders - 1;
        if activeReaders == 0 {
          readDone := true;
        }
        s := DoReaderEnter(c, s, t);
        return Exit;
      }
      s := s1.(readers := s1.readers[t := RReading([])]);
      var batch := ClaimBatch(t);
      verdict := Work(batch);
    }

    /**
     A reader with the lock again, after its reads have filled the buffers or one of them has failed;
     pick is the writer that the one signal wakes.
     */
    method ReaderFinish(t: nat, batch: seq<int>, ok: bool, ghost pick: Option<nat>) returns (signalled: bool)
      requires Valid() && ReaderCanFinish(s, t, ok, pick) && batch == s.readers[t].batch
      modifies this
      ensures Valid() && s == DoReaderFinish(c, old(s), t, ok, pick)
      ensures signalled <==> !failed && readyWaiters > 0
    {
      ghost var s' := DoReaderFinish(c, s, t, ok, pick);
      if !ok {
        failed := true;
      }
      if failed {
        free := free + batch;
        activeReaders := activeReaders - 1;
        if activeReaders == 0 {
          readDone := true;
        }
        s := s';
        return false;
      }
      bufs := Load(c, bufs, batch);
      var i := 0;
      ghost var was := ready;
      assert batch[..0] == [];
      while i < |batch|
        invariant 0 <= i <= |batch| && ready == was + batch[..i]
        modifies this`ready
      {
        assert batch[..i + 1] == batch[..i] + [batch[i]];
        ready := ready + [batch[i]];
        i := i + 1;
      }
      assert batch[..i] == batch;
      signalled := readyWaiters > 0;
      s := s';
    }

    /** A writer with the lock. */
    method WriterEnter(t: nat, parked: bool) returns (verdict: Verdict)
      requires Valid() && WriterCanEnter(s, t) && parked == s.writers[t].WParked?
      modifies this
      ensures Valid() && s == DoWriterEnter(c, old(s), t)
      ensures |s.writers| == |old(s.writers)|
      ensures match verdict
              case Wait => s.writers[t] == WParked(false)
              case Exit => s.writers[t] == WExited
              case Work(batch) => s.writers[t] == WWriting(batch, 0)
    {
      ghost var s' := DoWriterEnter(c, s, t);
      if parked {
        readyWaiters := readyWaiters - 1;
      }
      if !failed && ready == [] && !readDone {
        readyWaiters := readyWaiters + 1;
        s := s';
        return Wait;
      }
      if ready == [] {
        s := s';
        return Exit;
      }
      var batchMax := Batch(c.inflight);
      var batch: seq<int> := [];
      ghost var all := ready;
      while |batch| < batchMax && ready != []
        invariant |batch| <= batchMax && |batch| <= |all| && batch == all[..|batch|] && ready == all[|batch|..]
        decreases |ready|
        modifies this`ready
      {
        batch := batch + [ready[0]];
        ready := ready[1..];
      }
      s := s';
      verdict := Work(batch);
    }

    /** A writer returns its whole batch; pick is the reader that the one signal wakes. */
    method WriterReturn(t: nat, batch: seq<int>, ok: bool, ghost pick: Option<nat>) returns (signalled: bool)
      requires Valid() && WriterCanReturn(s, t, ok, pick) && batch == s.writers[t].batch
      modifies this
      ensures Valid() && s == DoWriterReturn(old(s), t, ok, pick)
      ensures signalled <==> freeWaiters > 0
    {
      ghost var s' := DoWriterReturn(s, t, ok, pick);
      if !ok {
        failed := true;
      }
      var i := 0;
      ghost var was := free;
      assert batch[..0] == [];
      while i < |batch|
        invariant 0 <= i <= |batch| && free == was + batch[..i]
        modifies this`free
      {
        assert batch[..i + 1] == batch[..i] + [batch[i]];
        free := free + [batch[i]];
        i := i + 1;
      }
      assert batch[..i] == batch;
      signalled := freeWaiters > 0;
      s := s';
    }
  }
}
