/**
 The copy scheduler: worker threads claim runs of small files or whole large files under
 slot limits, traversal threads push into a bounded queue, and both park on condition
 variables that are signalled sparingly. Each hold of the queue lock is one step.
 */
module Scheduler {
  import opened Counting
  import opened TaskHeap
  import opened DirQueue

  datatype Config = Config(
    workers: nat,      // worker threads, and worker slots
    large: nat,        // slots that one large file takes
    maxLarge: nat,     // large files active at once
    smallLimit: nat,   // threads copying small files at once
    maxQueued: nat)    // bound on queued files

  ghost predicate ConfigOk(c: Config) {
    && 1 <= c.large <= c.workers
    && c.maxLarge >= 1
    && 1 <= c.smallLimit <= c.workers
    && c.maxQueued >= 1
  }

  /** A worker is between claims, parked, copying one small file, starting a large one, or has returned. */
  datatype Pc = Ready | Asleep | Signalled | Copying(task: nat) | Starting(task: nat) | Gone

  datatype Worker = Worker(pc: Pc, stash: seq<nat>, slot: bool)

  /** A file found by the traversal, with the data path it takes and its ordering key. */
  datatype Item = Item(task: nat, large: bool, key: nat)

  datatype Producer = PIdle | PPushing(rest: seq<Item>) | PAsleep(rest: seq<Item>) | PSignalled(rest: seq<Item>) | PDone

  datatype State = State(
    queue: seq<Batch>, heap: seq<Entry>,
    workers: seq<Worker>, producers: seq<Producer>,
    smallActive: int, largeActive: int, running: nat,
    queueWaiters: int, spaceWaiters: int, done: bool, nextId: nat,
    pushed: multiset<nat>, dispatched: multiset<nat>)  // history

  datatype Step =
    | Dispatch(w: nat)
    | Finish(w: nat)
    | Enter(w: nat, k: nat, pick: Option<nat>)
    | StartOk(w: nat)
    | StartFail(w: nat)
    | LargeDone
    | NewItems(p: nat, items: seq<Item>)
    | Push(p: nat, picks: seq<nat>)
    | Retire(p: nat)
    | Stop
    | WakeWorker(w: nat)
    | WakeProducer(p: nat)

  predicate HasSlot(w: Worker) { w.slot }
  predicate IsAsleep(w: Worker) { w.pc.Asleep? }
  predicate IsWaiting(w: Worker) { w.pc.Asleep? || w.pc.Signalled? }
  predicate IsStarting(w: Worker) { w.pc.Starting? }
  predicate IsGone(w: Worker) { w.pc.Gone? }
  predicate PWaiting(p: Producer) { p.PAsleep? || p.PSignalled? }

  function Init(c: Config, producers: nat): State {
    State([], [], seq(c.workers, i => Worker(Ready, [], false)), seq(producers, i => PIdle),
          0, 0, 0, 0, 0, false, 0, multiset{}, multiset{})
  }

  function Used(c: Config, s: State): int {
    s.smallActive + Times(s.largeActive, c.large)
  }

  function Queued(s: State): nat { Len(s.queue) + |s.heap| }

  /** Free room that a parked producer should see before it is worth waking. */
  function WakeMin(c: Config): nat {
    var m := c.maxQueued / 4;
    var n := if m > 1024 then 1024 else m;
    if n > 0 then n else 1
  }

  function WakeAll(ws: seq<Worker>): (r: seq<Worker>)
    ensures |r| == |ws|
  {
    seq(|ws|, i requires 0 <= i < |ws| => if ws[i].pc.Asleep? then ws[i].(pc := Signalled) else ws[i])
  }

  predicate Drained(s: State) {
    s.queue == [] && s.heap == [] && s.smallActive == 0 && s.largeActive == 0
  }

  // ---------------------------------------------------------------------------
  // The lock hold of a worker

  predicate CanEnter(s: State, w: nat) {
    w < |s.workers| && ((s.workers[w].pc == Ready && s.workers[w].stash == []) || s.workers[w].pc == Signalled)
  }

  function LeaveWait(s: State, w: nat): State
    requires w < |s.workers|
  {
    s.(queueWaiters := if s.workers[w].pc == Signalled then s.queueWaiters - 1 else s.queueWaiters)
  }

  predicate LargeOpen(c: Config, s: State) {
    s.heap != [] && s.largeActive < c.maxLarge && Used(c, s) + c.large <= c.workers
  }

  predicate SmallOpen(c: Config, s: State, w: nat)
    requires w < |s.workers|
  {
    s.queue != [] && (s.workers[w].slot || (s.smallActive < c.smallLimit && Used(c, s) + 1 <= c.workers))
  }

  /** The heap yields an entry of the highest key. */
  predicate IsTop(heap: seq<Entry>, k: nat) {
    k < |heap| && forall i :: 0 <= i < |heap| ==> heap[i].key <= heap[k].key
  }

  function Without(heap: seq<Entry>, k: nat): seq<Entry>
    requires k < |heap|
  {
    heap[..k] + heap[k + 1..]
  }

  /** A claim signals one parked producer, if one is counted and enough room is seen. */
  predicate PickSpaceOk(c: Config, s: State, queued: nat, pick: Option<nat>) {
    match pick
    case Some(p) => s.spaceWaiters > 0 && c.maxQueued - queued >= WakeMin(c) && p < |s.producers| && s.producers[p].PAsleep?
    case None => s.spaceWaiters > 0 && c.maxQueued - queued >= WakeMin(c) ==>
                   forall p :: 0 <= p < |s.producers| ==> !s.producers[p].PAsleep?
  }

  function SignalSpace(s: State, pick: Option<nat>): State {
    if pick.Some? && pick.value < |s.producers| && s.producers[pick.value].PAsleep? then
      s.(producers := s.producers[pick.value := PSignalled(s.producers[pick.value].rest)])
    else s
  }

  function ClaimLarge(s: State, w: nat, k: nat, pick: Option<nat>): State
    requires w < |s.workers| && k < |s.heap|
  {
    SignalSpace(
      s.(heap := Without(s.heap, k),
         largeActive := s.largeActive + 1,
         dispatched := s.dispatched + multiset{s.heap[k].task},
         workers := s.workers[w := Worker(Starting(s.heap[k].task), [], s.workers[w].slot)]), pick)
  }

  function ClaimSmall(s: State, w: nat, pick: Option<nat>): State
    requires w < |s.workers| && s.queue != []
  {
    SignalSpace(
      s.(queue := Claimed(s.queue),
         smallActive := if s.workers[w].slot then s.smallActive else s.smallActive + 1,
         workers := s.workers[w := Worker(Ready, Run(s.queue), true)]), pick)
  }

  /** Nothing to claim: the slot goes back, and the worker returns or parks. */
  function ClaimNothing(s: State, w: nat): State
    requires w < |s.workers|
  {
    var had := s.workers[w].slot;
    var s1 := s.(smallActive := if had then s.smallActive - 1 else s.smallActive);
    var s2 := if had && s1.done && Drained(s1) then s1.(workers := WakeAll(s1.workers)) else s1;
    if Drained(s2) && s2.done then
      s2.(workers := s2.workers[w := Worker(Gone, [], false)])
    else
      s2.(workers := s2.workers[w := Worker(Asleep, [], false)], queueWaiters := s2.queueWaiters + 1)
  }

  predicate EnterOk(c: Config, s: State, w: nat, k: nat, pick: Option<nat>) {
    && CanEnter(s, w)
    && if LargeOpen(c, s) then IsTop(s.heap, k) && PickSpaceOk(c, s, Len(s.queue) + |s.heap| - 1, pick)
       else if SmallOpen(c, s, w) then PickSpaceOk(c, s, Len(s.queue[1..]) + |s.heap|, pick)
       else pick == None
  }

  function DoEnter(c: Config, s0: State, w: nat, k: nat, pick: Option<nat>): State
    requires EnterOk(c, s0, w, k, pick)
  {
    var s := LeaveWait(s0, w);
    if LargeOpen(c, s) then ClaimLarge(s, w, k, pick)
    else if SmallOpen(c, s, w) then ClaimSmall(s, w, pick)
    else ClaimNothing(s, w)
  }

  // ---------------------------------------------------------------------------
  // The lock hold of a producer

  function SmallTasks(items: seq<Item>): seq<nat> {
    if items == [] then []
    else if items[0].large then SmallTasks(items[1..]) else [items[0].task] + SmallTasks(items[1..])
  }

  function LargeEntries(items: seq<Item>): seq<Entry> {
    if items == [] then []
    else if items[0].large then [Entry(items[0].key, items[0].task)] + LargeEntries(items[1..]) else LargeEntries(items[1..])
  }

  function Tasks(items: seq<Item>): multiset<nat> {
    if items == [] then multiset{} else multiset{items[0].task} + Tasks(items[1..])
  }

  predicate CanPush(s: State, p: nat) {
    p < |s.producers| && (s.producers[p].PPushing? || s.producers[p].PSignalled?)
  }

  function LeaveSpaceWait(s: State, p: nat): State
    requires p < |s.producers|
  {
    s.(spaceWaiters := if s.producers[p].PSignalled? then s.spaceWaiters - 1 else s.spaceWaiters)
  }

  function MinOf(a: int, b: int): int { if a < b then a else b }

  function Room(c: Config, s: State): int { c.maxQueued - Queued(s) }

  /** A producer waits until its whole remainder fits, or at least a slice that is worth waking for. */
  predicate MustWait(c: Config, s: State, built: nat) {
    Room(c, s) < MinOf(built, WakeMin(c))
  }

  function SliceLen(c: Config, s: State, built: nat): nat
    requires Room(c, s) >= 0
  {
    MinOf(built, Room(c, s))
  }

  /** The queues after a slice has been pushed: small files as one directory batch, large files into the heap. */
  function Pushed(s: State, slice: seq<Item>): State {
    s.(heap := s.heap + LargeEntries(slice),
       queue := if SmallTasks(slice) == [] then s.queue else s.queue + [Batch(s.nextId, 0, SmallTasks(slice))],
       nextId := s.nextId + 1,
       pushed := s.pushed + Tasks(slice))
  }

  /** Large files that could start with `free` slots. */
  function LargeWakes(c: Config, s: State, free: int): int
    requires c.large > 0
  {
    if s.heap != [] && s.largeActive < c.maxLarge && free >= c.large then
      MinOf(MinOf(c.maxLarge - s.largeActive, |s.heap|), free / c.large)
    else 0
  }

  /** Claims of small files that could be made with `free` slots. */
  function SmallWakes(c: Config, s: State, free: int): int {
    var stashes := (Len(s.queue) + CLAIM_BATCH - 1) / CLAIM_BATCH;
    if Len(s.queue) > 0 && free > 0 then MinOf(MinOf(c.smallLimit - s.smallActive, stashes), free) else 0
  }

  /** One wake per worker that can take a slot, no more than are parked. */
  function Wakes(c: Config, s: State): int
    requires c.large > 0
  {
    var free := c.workers - Used(c, s);
    var large := LargeWakes(c, s, free);
    MinOf(large + SmallWakes(c, s, free - large * c.large), s.queueWaiters)
  }

  ghost predicate PicksOk(ws: seq<Worker>, wakes: int, picks: seq<nat>) {
    && NoDup(picks)
    && (forall i :: 0 <= i < |picks| ==> picks[i] < |ws| && IsAsleep(ws[picks[i]]))
    && |picks| == (if wakes <= 0 then 0 else MinOf(wakes, Count(ws, IsAsleep)))
  }

  function SignalWorkers(ws: seq<Worker>, picks: seq<nat>): (r: seq<Worker>)
    ensures |r| == |ws|
  {
    seq(|ws|, i requires 0 <= i < |ws| => if i in picks && ws[i].pc.Asleep? then ws[i].(pc := Signalled) else ws[i])
  }

  ghost predicate PushOk(c: Config, s0: State, p: nat, picks: seq<nat>) {
    && CanPush(s0, p) && c.large > 0
    && var s := LeaveSpaceWait(s0, p);
       var rest := s.producers[p].rest;
       if MustWait(c, s, |rest|) then picks == []
       else Room(c, s) >= 0 && PicksOk(s.workers, Wakes(c, Pushed(s, rest[..SliceLen(c, s, |rest|)])), picks)
  }

  ghost function DoPush(c: Config, s0: State, p: nat, picks: seq<nat>): State
    requires PushOk(c, s0, p, picks)
  {
    var s := LeaveSpaceWait(s0, p);
    var rest := s.producers[p].rest;
    if MustWait(c, s, |rest|) then
      s.(producers := s.producers[p := PAsleep(rest)], spaceWaiters := s.spaceWaiters + 1)
    else
      var n := SliceLen(c, s, |rest|);
      Pushed(s, rest[..n]).(
        workers := SignalWorkers(s.workers, picks),
        producers := s.producers[p := if n == |rest| then PIdle else PPushing(rest[n..])])
  }

  // ---------------------------------------------------------------------------
  // Runs

  ghost predicate Enabled(c: Config, s: State, step: Step) {
    match step
    case Dispatch(w) => w < |s.workers| && s.workers[w].pc == Ready && s.workers[w].stash != []
    case Finish(w) => w < |s.workers| && s.workers[w].pc.Copying?
    case Enter(w, k, pick) => EnterOk(c, s, w, k, pick)
    case StartOk(w) => w < |s.workers| && s.workers[w].pc.Starting?
    case StartFail(w) => w < |s.workers| && s.workers[w].pc.Starting?
    case LargeDone => s.running > 0
    case NewItems(p, items) => p < |s.producers| && s.producers[p] == PIdle && items != []
    case Push(p, picks) => PushOk(c, s, p, picks)
    case Retire(p) => p < |s.producers| && s.producers[p] == PIdle
    case Stop => forall p :: 0 <= p < |s.producers| ==> s.producers[p] == PDone
    case WakeWorker(w) => w < |s.workers| && s.workers[w].pc == Asleep
    case WakeProducer(p) => p < |s.producers| && s.producers[p].PAsleep?
  }

  ghost function Apply(c: Config, s: State, step: Step): State
    requires Enabled(c, s, step)
  {
    match step
    case Dispatch(w) =>
      var t := s.workers[w].stash[0];
      s.(workers := s.workers[w := s.workers[w].(pc := Copying(t), stash := s.workers[w].stash[1..])],
         dispatched := s.dispatched + multiset{t})
    case Finish(w) => s.(workers := s.workers[w := s.workers[w].(pc := Ready)])
    case Enter(w, k, pick) => DoEnter(c, s, w, k, pick)
    case StartOk(w) => s.(workers := s.workers[w := s.workers[w].(pc := Ready)], running := s.running + 1)
    case StartFail(w) =>
      s.(workers := WakeAll(s.workers)[w := s.workers[w].(pc := Ready)], largeActive := s.largeActive - 1)
    case LargeDone => s.(workers := WakeAll(s.workers), largeActive := s.largeActive - 1, running := s.running - 1)
    case NewItems(p, items) => s.(producers := s.producers[p := PPushing(items)])
    case Push(p, picks) => DoPush(c, s, p, picks)
    case Retire(p) => s.(producers := s.producers[p := PDone])
    case Stop => s.(done := true, workers := WakeAll(s.workers))
    case WakeWorker(w) => s.(workers := s.workers[w := s.workers[w].(pc := Signalled)])
    case WakeProducer(p) => s.(producers := s.producers[p := PSignalled(s.producers[p].rest)])
  }

  /** The states ss and the steps between them are a run from the start. */
  ghost predicate IsRun(c: Config, producers: nat, ss: seq<State>, steps: seq<Step>) {
    && |ss| == |steps| + 1 && ss[0] == Init(c, producers)
    && forall t {:trigger steps[t]} :: 0 <= t < |steps| ==> Enabled(c, ss[t], steps[t]) && ss[t + 1] == Apply(c, ss[t], steps[t])
  }
}
