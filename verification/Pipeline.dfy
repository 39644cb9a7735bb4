/**
 The large-file pipeline: readers and writers of one file share a pool of chunk buffers
 through a free list and a ready list, both guarded by the file's lock. Each lock hold of
 a thread, and each pwrite, is one step of the state machine; any interleaving of the
 steps is a run.
 */
module Pipeline {
  import opened Machine
  import opened Counting
  import opened Extents

  datatype Config = Config(
    readers: nat,       // reader threads of the file
    writers: nat,       // writer threads of the file
    inflight: nat,      // chunk buffers
    chunk: nat,         // bytes per buffer
    src: seq<Byte>,     // the source file
    bulkEnd: nat,       // end of the part that the pipeline copies
    layout: Layout)

  /** Buffers claimed per lock hold: a quarter of the pool, at least 1 and at most 4. */
  function Batch(inflight: nat): nat {
    var b := inflight / 4;
    if b < 1 then 1 else if b > 4 then 4 else b
  }

  ghost predicate ConfigOk(c: Config) {
    && c.readers >= 1 && c.writers >= 1 && c.inflight >= 1 && c.chunk >= 1
    && c.bulkEnd <= |c.src|
    && LayoutOk(c.layout, c.bulkEnd)
    && (forall p :: 0 <= p < c.bulkEnd && !Data(c, p) ==> c.src[p] == 0)
  }

  ghost predicate Data(c: Config, p: int) {
    IsData(c.layout, c.bulkEnd, p)
  }

  /** A chunk buffer: the range it was claimed for, what was read, and how much of it has been written out. */
  datatype Buffer = Buffer(offset: int, len: int, data: seq<Byte>, written: int)

  /** A parked thread has its signalled bit set by a signal, a broadcast or a spurious wake. */
  datatype Reader = RIdle | RParked(signalled: bool) | RReading(batch: seq<int>) | RExited

  /** A writer that holds a batch is writing its i-th buffer. */
  datatype Writer = WIdle | WParked(signalled: bool) | WWriting(batch: seq<int>, i: nat) | WExited

  /** History: who holds a buffer, and what has become of a byte of the file. */
  datatype Owner = OFree | OReady | OReader(t: nat) | OWriter(t: nat)
  datatype Fate = Untouched | InFlight(id: int) | Written | Dropped

  datatype State = State(
    free: seq<int>, ready: seq<int>, bufs: seq<Buffer>,
    cursor: Cursor, failed: bool, readDone: bool,
    activeReaders: int, freeWaiters: int, readyWaiters: int,
    readers: seq<Reader>, writers: seq<Writer>,
    dst: seq<Byte>,
    owner: seq<Owner>, fate: seq<Fate>, claims: seq<Extent>)  // history

  datatype Step =
    | ReaderEnter(t: nat)
    | ReaderFinish(t: nat, ok: bool, pick: Option<nat>)
    | WriterEnter(t: nat)
    | PWrite(t: nat, k: int)
    | WriterReturn(t: nat, ok: bool, pick: Option<nat>)
    | WakeReader(t: nat)
    | WakeWriter(t: nat)

  predicate RAsleep(r: Reader) { r == RParked(false) }
  predicate RIsParked(r: Reader) { r.RParked? }
  predicate RActive(r: Reader) { !r.RExited? }
  predicate WAsleep(w: Writer) { w == WParked(false) }
  predicate WIsParked(w: Writer) { w.WParked? }
  predicate WDown(w: Writer) { w == WParked(false) || w.WExited? }

  function Fill<T>(s: seq<T>, lo: int, hi: int, v: T): (r: seq<T>)
    ensures |r| == |s|
  {
    seq(|s|, i requires 0 <= i < |s| => if lo <= i < hi then v else s[i])
  }

  function Paste(s: seq<Byte>, off: int, data: seq<Byte>): (r: seq<Byte>)
    ensures |r| == |s|
  {
    seq(|s|, i requires 0 <= i < |s| => if off <= i < off + |data| then data[i - off] else s[i])
  }

  function Reassign(owner: seq<Owner>, batch: seq<int>, o: Owner): (r: seq<Owner>)
    ensures |r| == |owner|
  {
    seq(|owner|, i requires 0 <= i < |owner| => if i in batch then o else owner[i])
  }

  /** The bytes of a batch that is given up unwritten. */
  function DropBatch(fate: seq<Fate>, batch: seq<int>): (r: seq<Fate>)
    ensures |r| == |fate|
  {
    seq(|fate|, i requires 0 <= i < |fate| =>
      if fate[i].InFlight? && fate[i].id in batch then Dropped else fate[i])
  }

  function WakeReaders(rs: seq<Reader>): (r: seq<Reader>)
    ensures |r| == |rs|
  {
    seq(|rs|, i requires 0 <= i < |rs| => if rs[i].RParked? then RParked(true) else rs[i])
  }

  function WakeWriters(ws: seq<Writer>): (r: seq<Writer>)
    ensures |r| == |ws|
  {
    seq(|ws|, i requires 0 <= i < |ws| => if ws[i].WParked? then WParked(true) else ws[i])
  }

  function MarkFailed(s: State): State {
    s.(failed := true, readers := WakeReaders(s.readers), writers := WakeWriters(s.writers))
  }

  function Init(c: Config): State {
    State(seq(c.inflight, i => i), [], seq(c.inflight, i => Buffer(0, 0, [], 0)),
          StartCursor(c.layout, c.bulkEnd), false, false,
          c.readers, 0, 0,
          seq(c.readers, i => RIdle), seq(c.writers, i => WIdle),
          seq(|c.src|, i => 0),
          seq(c.inflight, i => OFree), seq(|c.src|, i => Untouched), [])
  }

  // ---------------------------------------------------------------------------
  // Steps

  /** The next chunk goes to the first free buffer, which reader t takes. */
  function ClaimOne(c: Config, s: State, t: nat): State
    requires s.free != [] && 0 <= s.free[0] < |s.bufs| && |s.owner| == |s.bufs|
    requires t < |s.readers| && s.readers[t].RReading?
  {
    var id, off := s.free[0], s.cursor.offset;
    var len := ClaimLen(c.layout, c.bulkEnd, c.chunk, s.cursor);
    s.(free := s.free[1..],
       bufs := s.bufs[id := s.bufs[id].(offset := off, len := len, written := 0)],
       cursor := NextCursor(c.layout, c.bulkEnd, c.chunk, s.cursor),
       readers := s.readers[t := RReading(s.readers[t].batch + [id])],
       owner := s.owner[id := OReader(t)],
       fate := Fill(s.fate, off, off + len, InFlight(id)),
       claims := s.claims + [Extent(off, off + len)])
  }

  /** The claim loop: up to k buffers in one lock hold. */
  function ClaimUpTo(c: Config, s: State, t: nat, k: nat): State
    requires |s.owner| == |s.bufs|
    requires forall id :: id in s.free ==> 0 <= id < |s.bufs|
    requires t < |s.readers| && s.readers[t].RReading?
    decreases k
  {
    if k == 0 || s.free == [] || s.cursor.offset >= c.bulkEnd then s
    else
      assert s.free[0] in s.free && forall id :: id in s.free[1..] ==> id in s.free;
      ClaimUpTo(c, ClaimOne(c, s, t), t, k - 1)
  }

  predicate Sized(s: State) {
    && |s.owner| == |s.bufs|
    && (forall id :: id in s.free ==> 0 <= id < |s.bufs|)
    && (forall id :: id in s.ready ==> 0 <= id < |s.bufs|)
  }

  /** pthread_cond_signal, sent only when a waiter is counted, wakes one parked unsignalled thread if there is one. */
  predicate PickReaderOk(s: State, pick: Option<nat>) {
    match pick
    case Some(t) => s.freeWaiters > 0 && t < |s.readers| && RAsleep(s.readers[t])
    case None => s.freeWaiters > 0 ==> forall t :: 0 <= t < |s.readers| ==> !RAsleep(s.readers[t])
  }

  predicate PickWriterOk(s: State, pick: Option<nat>) {
    match pick
    case Some(t) => s.readyWaiters > 0 && t < |s.writers| && WAsleep(s.writers[t])
    case None => s.readyWaiters > 0 ==> forall t :: 0 <= t < |s.writers| ==> !WAsleep(s.writers[t])
  }

  function SignalReader(s: State, pick: Option<nat>): State {
    if pick.Some? && pick.value < |s.readers| then s.(readers := s.readers[pick.value := RParked(true)]) else s
  }

  function SignalWriter(s: State, pick: Option<nat>): State {
    if pick.Some? && pick.value < |s.writers| then s.(writers := s.writers[pick.value := WParked(true)]) else s
  }

  /** A reader leaves its wait with the lock held. */
  function LeaveFreeWait(s: State, t: nat): State
    requires t < |s.readers|
  {
    s.(freeWaiters := if s.readers[t].RParked? then s.freeWaiters - 1 else s.freeWaiters)
  }

  function LeaveReadyWait(s: State, t: nat): State
    requires t < |s.writers|
  {
    s.(readyWaiters := if s.writers[t].WParked? then s.readyWaiters - 1 else s.readyWaiters)
  }

  /** The exit branch of a reader that finds nothing left to read, or a failed file. */
  function ReaderExit(s: State, t: nat): State
    requires t < |s.readers|
  {
    s.(activeReaders := s.activeReaders - 1,
       readers := s.readers[t := RExited],
       readDone := s.readDone || s.activeReaders == 1,
       writers := if s.activeReaders == 1 then WakeWriters(s.writers) else s.writers)
  }

  predicate ReaderCanEnter(s: State, t: nat) {
    t < |s.readers| && s.readers[t] in {RIdle, RParked(true)}
  }

  /** First lock hold of a reader's round: park, exit, or claim a batch. */
  function DoReaderEnter(c: Config, s: State, t: nat): State
    requires Sized(s) && ReaderCanEnter(s, t)
  {
    var s1 := LeaveFreeWait(s, t);
    if !s1.failed && s1.free == [] && s1.cursor.offset < c.bulkEnd then
      s1.(freeWaiters := s1.freeWaiters + 1, readers := s1.readers[t := RParked(false)])
    else if s1.failed || s1.cursor.offset >= c.bulkEnd then
      ReaderExit(s1, t)
    else
      ClaimUpTo(c, s1.(readers := s1.readers[t := RReading([])]), t, Batch(c.inflight))
  }

  /** What the reads of a batch put into its buffers. */
  function Load(c: Config, bufs: seq<Buffer>, batch: seq<int>): (r: seq<Buffer>)
    ensures |r| == |bufs|
  {
    seq(|bufs|, i requires 0 <= i < |bufs| =>
      if i in batch && 0 <= bufs[i].offset && 0 <= bufs[i].len && bufs[i].offset + bufs[i].len <= |c.src|
      then bufs[i].(data := c.src[bufs[i].offset..bufs[i].offset + bufs[i].len])
      else bufs[i])
  }

  function ReaderMark(s: State, ok: bool): State {
    if ok then s else MarkFailed(s)
  }

  predicate ReaderCanFinish(s: State, t: nat, ok: bool, pick: Option<nat>) {
    && t < |s.readers| && s.readers[t].RReading?
    && (if ok && !s.failed then PickWriterOk(s, pick) else pick == None)
  }

  /** Second lock hold of a reader's round: hand the batch to the writers, or give it up when the file has failed. */
  function DoReaderFinish(c: Config, s0: State, t: nat, ok: bool, pick: Option<nat>): State
    requires ReaderCanFinish(s0, t, ok, pick)
  {
    var s := ReaderMark(s0, ok);
    var batch := s.readers[t].batch;
    if s.failed then
      s.(free := s.free + batch,
         owner := Reassign(s.owner, batch, OFree),
         fate := DropBatch(s.fate, batch),
         activeReaders := s.activeReaders - 1,
         readDone := s.readDone || s.activeReaders == 1,
         readers := WakeReaders(s.readers)[t := RExited])
    else
      SignalWriter(
        s.(bufs := Load(c, s.bufs, batch),
           ready := s.ready + batch,
           owner := Reassign(s.owner, batch, OReady),
           readers := s.readers[t := RIdle]), pick)
  }

  predicate WriterCanEnter(s: State, t: nat) {
    t < |s.writers| && s.writers[t] in {WIdle, WParked(true)}
  }

  function TakeLen(c: Config, s: State): nat {
    if |s.ready| < Batch(c.inflight) then |s.ready| else Batch(c.inflight)
  }

  /** First lock hold of a writer's round: park, exit, or take a batch. */
  function DoWriterEnter(c: Config, s: State, t: nat): State
    requires WriterCanEnter(s, t)
  {
    var s1 := LeaveReadyWait(s, t);
    if !s1.failed && s1.ready == [] && !s1.readDone then
      s1.(readyWaiters := s1.readyWaiters + 1, writers := s1.writers[t := WParked(false)])
    else if s1.ready == [] then
      s1.(writers := s1.writers[t := WExited])
    else
      var n := TakeLen(c, s1);
      s1.(ready := s1.ready[n..],
          owner := Reassign(s1.owner, s1.ready[..n], OWriter(t)),
          writers := s1.writers[t := WWriting(s1.ready[..n], 0)])
  }

  predicate CanPWrite(s: State, t: nat, k: int) {
    && t < |s.writers| && s.writers[t].WWriting? && s.writers[t].i < |s.writers[t].batch|
    && var id := s.writers[t].batch[s.writers[t].i];
       && 0 <= id < |s.bufs|
       && var b := s.bufs[id];
          0 <= b.written && 1 <= k <= b.len - b.written && b.len <= |b.data|
  }

  /** One pwrite, which may be short: k bytes of what is left of the current buffer. */
  function DoPWrite(s: State, t: nat, k: int): State
    requires CanPWrite(s, t, k)
  {
    var w := s.writers[t];
    var id := w.batch[w.i];
    var b := s.bufs[id];
    var lo := b.offset + b.written;
    s.(dst := Paste(s.dst, lo, b.data[b.written..b.written + k]),
       fate := Fill(s.fate, lo, lo + k, Written),
       bufs := s.bufs[id := b.(written := b.written + k)],
       writers := s.writers[t := WWriting(w.batch, if b.written + k == b.len then w.i + 1 else w.i)])
  }

  predicate WriterCanReturn(s: State, t: nat, ok: bool, pick: Option<nat>) {
    && t < |s.writers| && s.writers[t].WWriting?
    && (ok <==> s.writers[t].i == |s.writers[t].batch|)
    && PickReaderOk(ReaderMark(s, ok), pick)
  }

  /** Last lock hold of a writer's round: all its buffers go back to the free list, written or not. */
  function DoWriterReturn(s0: State, t: nat, ok: bool, pick: Option<nat>): State
    requires WriterCanReturn(s0, t, ok, pick)
  {
    var s := ReaderMark(s0, ok);
    var batch := s.writers[t].batch;
    SignalReader(
      s.(free := s.free + batch,
         owner := Reassign(s.owner, batch, OFree),
         fate := DropBatch(s.fate, batch),
         writers := s.writers[t := if ok then WIdle else WExited]), pick)
  }

  predicate Enabled(c: Config, s: State, step: Step) {
    match step
    case ReaderEnter(t) => Sized(s) && ReaderCanEnter(s, t)
    case ReaderFinish(t, ok, pick) => ReaderCanFinish(s, t, ok, pick)
    case WriterEnter(t) => WriterCanEnter(s, t)
    case PWrite(t, k) => CanPWrite(s, t, k)
    case WriterReturn(t, ok, pick) => WriterCanReturn(s, t, ok, pick)
    case WakeReader(t) => t < |s.readers| && RAsleep(s.readers[t])
    case WakeWriter(t) => t < |s.writers| && WAsleep(s.writers[t])
  }

  function Apply(c: Config, s: State, step: Step): State
    requires Enabled(c, s, step)
  {
    match step
    case ReaderEnter(t) => DoReaderEnter(c, s, t)
    case ReaderFinish(t, ok, pick) => DoReaderFinish(c, s, t, ok, pick)
    case WriterEnter(t) => DoWriterEnter(c, s, t)
    case PWrite(t, k) => DoPWrite(s, t, k)
    case WriterReturn(t, ok, pick) => DoWriterReturn(s, t, ok, pick)
    case WakeReader(t) => s.(readers := s.readers[t := RParked(true)])
    case WakeWriter(t) => s.(writers := s.writers[t := WParked(true)])
  }

  predicate IsRun(c: Config, steps: seq<Step>)
    decreases |steps|, 0
  {
    steps == [] ||
    (var n := |steps| - 1; IsRun(c, steps[..n]) && Enabled(c, After(c, steps[..n]), steps[n]))
  }

  /** The state that a run ends in. */
  function After(c: Config, steps: seq<Step>): State
    requires IsRun(c, steps)
    decreases |steps|, 1
  {
    if steps == [] then Init(c)
    else var n := |steps| - 1; Apply(c, After(c, steps[..n]), steps[n])
  }
}
