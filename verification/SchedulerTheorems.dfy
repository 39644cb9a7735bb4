/** The main results about the copy scheduler. */
module SchedulerTheorems {
  import opened Counting
  import opened TaskHeap
  import opened DirQueue
  import opened Scheduler
  import opened SchedulerProof

  // ---------------------------------------------------------------------------
  // Conservation of tasks

  /** How often the heap, and all stashes together, hold task x. */
  function InHeap(h: seq<Entry>, x: nat): nat {
    if h == [] then 0 else InHeap(h[..|h| - 1], x) + if h[|h| - 1].task == x then 1 else 0
  }

  function InStashes(ws: seq<Worker>, x: nat): nat {
    if ws == [] then 0 else InStashes(ws[..|ws| - 1], x) + multiset(ws[|ws| - 1].stash)[x]
  }

  /** A pushed task is in the directory queue, in the heap, in one stash, or dispatched, as often as it was pushed. */
  ghost predicate Conserved(s: State, x: nat) {
    s.pushed[x] == Waiting(s.queue)[x] + InHeap(s.heap, x) + InStashes(s.workers, x) + s.dispatched[x]
  }

  lemma {:induction false} InHeapConcat(a: seq<Entry>, b: seq<Entry>, x: nat)
    ensures InHeap(a + b, x) == InHeap(a, x) + InHeap(b, x)
  {
    if b == [] {
      assert a + b == a;
    } else {
      assert (a + b)[..|a + b| - 1] == a + b[..|b| - 1];
      InHeapConcat(a, b[..|b| - 1], x);
    }
  }

  lemma InHeapOne(e: Entry, x: nat)
    ensures InHeap([e], x) == if e.task == x then 1 else 0
  {
    assert [e][..0] == [];
  }

  lemma InHeapWithout(h: seq<Entry>, k: nat, x: nat)
    requires k < |h|
    ensures InHeap(h, x) == InHeap(Without(h, k), x) + if h[k].task == x then 1 else 0
  {
    assert h == (h[..k] + [h[k]]) + h[k + 1..];
    InHeapConcat(h[..k] + [h[k]], h[k + 1..], x);
    InHeapConcat(h[..k], [h[k]], x);
    InHeapConcat(h[..k], h[k + 1..], x);
    InHeapOne(h[k], x);
  }

  lemma {:induction false} StashUpdate(ws: seq<Worker>, w: nat, v: Worker, x: nat)
    requires w < |ws|
    ensures InStashes(ws[w := v], x) + multiset(ws[w].stash)[x] == InStashes(ws, x) + multiset(v.stash)[x]
  {
    var n := |ws| - 1;
    if w == n {
      assert ws[w := v][..n] == ws[..n];
    } else {
      StashUpdate(ws[..n], w, v, x);
      assert ws[w := v][..n] == ws[..n][w := v];
    }
  }

  lemma {:induction false} StashesWoken(ws: seq<Worker>, vs: seq<Worker>, x: nat)
    requires OnlyWoken(ws, vs)
    ensures InStashes(vs, x) == InStashes(ws, x)
  {
    if ws != [] {
      StashesWoken(ws[..|ws| - 1], vs[..|ws| - 1], x);
    }
  }

  lemma {:induction false} SliceTasks(items: seq<Item>, x: nat)
    ensures Tasks(items)[x] == multiset(SmallTasks(items))[x] + InHeap(LargeEntries(items), x)
  {
    if items != [] {
      SliceTasks(items[1..], x);
      var e := Entry(items[0].key, items[0].task);
      InHeapConcat([e], LargeEntries(items[1..]), x);
      InHeapOne(e, x);
    }
  }

  lemma LargeConserves(c: Config, s: State, w: nat, k: nat, pick: Option<nat>, x: nat)
    requires ConfigOk(c) && Inv(c, s) && Conserved(s, x) && EnterOk(c, s, w, k, pick) && LargeOpen(c, s)
    ensures Conserved(DoEnter(c, s, w, k, pick), x)
  {
    var v := Worker(Starting(s.heap[k].task), [], s.workers[w].slot);
    ClaimLargeFrame(c, s, w, k, pick);
    assert WorkerOk(s.workers[w]);
    StashUpdate(s.workers, w, v, x);
    InHeapWithout(s.heap, k, x);
  }

  lemma SmallConserves(c: Config, s: State, w: nat, k: nat, pick: Option<nat>, x: nat)
    requires ConfigOk(c) && Inv(c, s) && Conserved(s, x) && EnterOk(c, s, w, k, pick)
    requires !LargeOpen(c, s) && SmallOpen(c, s, w)
    ensures Conserved(DoEnter(c, s, w, k, pick), x)
  {
    ClaimSmallFrame(c, s, w, k, pick);
    assert WorkerOk(s.workers[w]);
    StashUpdate(s.workers, w, Worker(Ready, Run(s.queue), true), x);
    ClaimKeepsFiles(s.queue);
  }

  lemma NothingConserves(c: Config, s: State, w: nat, x: nat)
    requires ConfigOk(c) && Inv(c, s) && Conserved(s, x) && CanEnter(s, w)
    ensures Conserved(ClaimNothing(LeaveWait(s, w), w), x)
  {
    var v := ClaimNothing(LeaveWait(s, w), w).workers[w];
    assert WorkerOk(s.workers[w]);
    StashUpdate(s.workers, w, v, x);
    WakeAllCounts(s.workers);
    StashesWoken(s.workers, WakeAll(s.workers), x);
    StashUpdate(WakeAll(s.workers), w, v, x);
  }

  lemma EnterConserves(c: Config, s: State, w: nat, k: nat, pick: Option<nat>, x: nat)
    requires ConfigOk(c) && Inv(c, s) && Conserved(s, x) && EnterOk(c, s, w, k, pick)
    ensures Conserved(DoEnter(c, s, w, k, pick), x)
  {
    if LargeOpen(c, s) {
      LargeConserves(c, s, w, k, pick, x);
    } else if SmallOpen(c, s, w) {
      SmallConserves(c, s, w, k, pick, x);
    } else {
      NothingConserves(c, s, w, x);
    }
  }

  lemma PushConserves(c: Config, s0: State, p: nat, picks: seq<nat>, x: nat)
    requires ConfigOk(c) && Inv(c, s0) && Conserved(s0, x) && PushOk(c, s0, p, picks)
    ensures Conserved(DoPush(c, s0, p, picks), x)
  {
    var s := LeaveSpaceWait(s0, p);
    var rest := s.producers[p].rest;
    if !MustWait(c, s, |rest|) {
      var slice := rest[..SliceLen(c, s, |rest|)];
      PickedWoken(s.workers, Wakes(c, Pushed(s, slice)), picks);
      StashesWoken(s.workers, SignalWorkers(s.workers, picks), x);
      SliceTasks(slice, x);
      InHeapConcat(s.heap, LargeEntries(slice), x);
      LenAppend(s.queue, Batch(s.nextId, 0, SmallTasks(slice)));
    }
  }

  /** A change of a worker's state alone. */
  lemma PcConserves(s: State, w: nat, v: Worker, x: nat)
    requires Conserved(s, x) && w < |s.workers| && v.stash == s.workers[w].stash
    ensures Conserved(s.(workers := s.workers[w := v]), x)
  {
    StashUpdate(s.workers, w, v, x);
  }

  lemma DispatchConserves(c: Config, s: State, w: nat, x: nat)
    requires Conserved(s, x) && Enabled(c, s, Dispatch(w))
    ensures Conserved(Apply(c, s, Dispatch(w)), x)
  {
    var v := s.workers[w].(pc := Copying(s.workers[w].stash[0]), stash := s.workers[w].stash[1..]);
    StashUpdate(s.workers, w, v, x);
    assert s.workers[w].stash == [s.workers[w].stash[0]] + v.stash;
  }

  lemma WokenConserves(s: State, x: nat)
    requires Conserved(s, x)
    ensures Conserved(s.(workers := WakeAll(s.workers)), x)
  {
    WakeAllCounts(s.workers);
    StashesWoken(s.workers, WakeAll(s.workers), x);
  }

  /** Only the queues, the stashes and the histories count. */
  lemma SamePlaces(s: State, s': State, x: nat)
    requires Conserved(s, x) && s'.queue == s.queue && s'.heap == s.heap && s'.workers == s.workers
    requires s'.pushed == s.pushed && s'.dispatched == s.dispatched
    ensures Conserved(s', x)
  {
  }

  lemma StepConserves(c: Config, s: State, step: Step, x: nat)
    requires ConfigOk(c) && Inv(c, s) && Conserved(s, x) && Enabled(c, s, step)
    ensures Conserved(Apply(c, s, step), x)
  {
    hide Conserved, Inv, Count;
    var s' := Apply(c, s, step);
    match step
    case Dispatch(w) => DispatchConserves(c, s, w, x);
    case Enter(w, k, pick) => EnterConserves(c, s, w, k, pick, x);
    case Push(p, picks) => PushConserves(c, s, p, picks, x);
    case StartFail(w) =>
      WokenConserves(s, x);
      var t := s.(workers := WakeAll(s.workers));
      PcConserves(t, w, s.workers[w].(pc := Ready), x);
      SamePlaces(t.(workers := t.workers[w := s.workers[w].(pc := Ready)]), s', x);
    case Finish(w) => PcConserves(s, w, s.workers[w].(pc := Ready), x);
    case StartOk(w) =>
      PcConserves(s, w, s.workers[w].(pc := Ready), x);
      SamePlaces(s.(workers := s'.workers), s', x);
    case WakeWorker(w) => PcConserves(s, w, s.workers[w].(pc := Signalled), x);
    case LargeDone =>
      WokenConserves(s, x);
      SamePlaces(s.(workers := s'.workers), s', x);
    case Stop =>
      WokenConserves(s, x);
      SamePlaces(s.(workers := s'.workers), s', x);
    case NewItems(_, _) => SamePlaces(s, s', x);
    case Retire(_) => SamePlaces(s, s', x);
    case WakeProducer(_) => SamePlaces(s, s', x);
  }

  lemma {:induction false} NoneStashed(ws: seq<Worker>, x: nat)
    requires forall w :: 0 <= w < |ws| ==> ws[w].stash == []
    ensures InStashes(ws, x) == 0
  {
    if ws != [] {
      NoneStashed(ws[..|ws| - 1], x);
    }
  }

  /** No task is ever lost or handed out twice, in any interleaving. */
  lemma {:induction false} TasksConserved(c: Config, producers: nat, ss: seq<State>, steps: seq<Step>, t: nat, x: nat)
    requires ConfigOk(c) && IsRun(c, producers, ss, steps) && t < |ss|
    ensures Conserved(ss[t], x)
    decreases t
  {
    if t == 0 {
      NoneStashed(Init(c, producers).workers, x);
    } else {
      TasksConserved(c, producers, ss, steps, t - 1, x);
      RunInv(c, producers, ss, steps, t - 1);
      var step := steps[t - 1];
      StepConserves(c, ss[t - 1], step, x);
    }
  }

  // ---------------------------------------------------------------------------
  // Each file takes the data path that was chosen for it

  /** What the traversal decides about a file: whether it is large, and its key. */
  datatype Choice = Choice(large: bool, key: nat)

  ghost predicate ItemsAs(items: seq<Item>, f: nat -> Choice) {
    forall i :: 0 <= i < |items| ==> items[i].large == f(items[i].task).large && items[i].key == f(items[i].task).key
  }

  ghost predicate AllSmall(tasks: seq<nat>, f: nat -> Choice) {
    forall i :: 0 <= i < |tasks| ==> !f(tasks[i]).large
  }

  ghost predicate HeapAs(heap: seq<Entry>, f: nat -> Choice) {
    forall i :: 0 <= i < |heap| ==> f(heap[i].task).large && heap[i].key == f(heap[i].task).key
  }

  ghost predicate WorkerAs(w: Worker, f: nat -> Choice) {
    && AllSmall(w.stash, f)
    && (w.pc.Copying? ==> !f(w.pc.task).large)
    && (w.pc.Starting? ==> f(w.pc.task).large)
  }

  ghost predicate ProducerAs(p: Producer, f: nat -> Choice) {
    p.PPushing? || p.PAsleep? || p.PSignalled? ==> ItemsAs(p.rest, f)
  }

  /** Small files are in the directory queue, in stashes and copied as such; large files are in the heap, with their keys, and started as such. */
  ghost predicate KindsOk(s: State, f: nat -> Choice) {
    && (forall i :: 0 <= i < |s.queue| ==> AllSmall(s.queue[i].tasks, f))
    && HeapAs(s.heap, f)
    && (forall w :: 0 <= w < |s.workers| ==> WorkerAs(s.workers[w], f))
    && (forall p :: 0 <= p < |s.producers| ==> ProducerAs(s.producers[p], f))
  }

  lemma {:induction false} SplitKinds(items: seq<Item>, f: nat -> Choice)
    requires ItemsAs(items, f)
    ensures AllSmall(SmallTasks(items), f) && HeapAs(LargeEntries(items), f)
  {
    if items != [] {
      assert ItemsAs(items[1..], f);
      SplitKinds(items[1..], f);
    }
  }

  lemma PushedKinds(s: State, slice: seq<Item>, f: nat -> Choice)
    requires KindsOk(s, f) && ItemsAs(slice, f)
    ensures KindsOk(Pushed(s, slice), f)
  {
    SplitKinds(slice, f);
    hide SmallTasks, LargeEntries, Tasks, WorkerAs, ProducerAs;
  }

  lemma PushKinds(c: Config, s: State, p: nat, picks: seq<nat>, f: nat -> Choice)
    requires KindsOk(s, f) && PushOk(c, s, p, picks)
    ensures KindsOk(DoPush(c, s, p, picks), f)
  {
    var s1, rest := LeaveSpaceWait(s, p), s.producers[p].rest;
    assert ProducerAs(s.producers[p], f);
    if !MustWait(c, s1, |rest|) {
      var n := SliceLen(c, s1, |rest|);
      PushedKinds(s1, rest[..n], f);
      hide Pushed, Wakes, PicksOk, MustWait, Queued;
    } else {
      hide MustWait;
    }
  }

  lemma SignalledKinds(s: State, pick: Option<nat>, f: nat -> Choice)
    requires KindsOk(s, f)
    ensures KindsOk(SignalSpace(s, pick), f)
  {
    hide WorkerAs, AllSmall, HeapAs;
    assert pick.Some? && pick.value < |s.producers| ==> ProducerAs(s.producers[pick.value], f);
  }

  lemma LargeKinds(s: State, w: nat, k: nat, pick: Option<nat>, f: nat -> Choice)
    requires KindsOk(s, f) && w < |s.workers| && k < |s.heap|
    ensures KindsOk(ClaimLarge(s, w, k, pick), f)
  {
    var s1 := s.(heap := Without(s.heap, k), largeActive := s.largeActive + 1,
                 dispatched := s.dispatched + multiset{s.heap[k].task},
                 workers := s.workers[w := Worker(Starting(s.heap[k].task), [], s.workers[w].slot)]);
    assert WorkerAs(s1.workers[w], f);
    assert HeapAs(s1.heap, f);
    hide ProducerAs, WorkerAs, HeapAs, Without;
    assert KindsOk(s1, f);
    hide KindsOk;
    SignalledKinds(s1, pick, f);
  }

  lemma SmallKinds(s: State, w: nat, pick: Option<nat>, f: nat -> Choice)
    requires QueueOk(s.queue) && KindsOk(s, f) && w < |s.workers| && s.queue != []
    ensures KindsOk(ClaimSmall(s, w, pick), f)
  {
    var s1 := s.(queue := Claimed(s.queue), smallActive := if s.workers[w].slot then s.smallActive else s.smallActive + 1,
                 workers := s.workers[w := Worker(Ready, Run(s.queue), true)]);
    ClaimIsFull(s.queue);
    assert AllSmall(s.queue[0].tasks, f) && AllSmall(Run(s.queue), f);
    assert WorkerAs(s1.workers[w], f);
    hide Run, Claimed, ProducerAs, WorkerAs, HeapAs, AllSmall, QueueOk;
    assert KindsOk(s1, f);
    hide KindsOk;
    SignalledKinds(s1, pick, f);
  }

  lemma NothingKinds(s: State, w: nat, f: nat -> Choice)
    requires KindsOk(s, f) && w < |s.workers|
    ensures KindsOk(ClaimNothing(s, w), f)
  {
    hide Drained, ProducerAs, HeapAs;
  }

  lemma EnterKinds(c: Config, s: State, w: nat, k: nat, pick: Option<nat>, f: nat -> Choice)
    requires QueueOk(s.queue) && KindsOk(s, f) && EnterOk(c, s, w, k, pick)
    ensures KindsOk(DoEnter(c, s, w, k, pick), f)
  {
    var s1 := LeaveWait(s, w);
    assert KindsOk(s1, f);
    hide KindsOk, ClaimLarge, ClaimSmall, ClaimNothing, QueueOk, PickSpaceOk;
    if LargeOpen(c, s1) {
      LargeKinds(s1, w, k, pick, f);
    } else if SmallOpen(c, s1, w) {
      SmallKinds(s1, w, pick, f);
    } else {
      NothingKinds(s1, w, f);
    }
  }

  lemma StepKinds(c: Config, s: State, step: Step, f: nat -> Choice)
    requires QueueOk(s.queue) && KindsOk(s, f) && Enabled(c, s, step) && (step.NewItems? ==> ItemsAs(step.items, f))
    ensures KindsOk(Apply(c, s, step), f)
  {
    match step
    case Enter(w, k, pick) => EnterKinds(c, s, w, k, pick, f);
    case Push(p, picks) => PushKinds(c, s, p, picks, f);
    case Dispatch(w) => assert WorkerAs(s.workers[w], f);
    case WakeProducer(p) => assert ProducerAs(s.producers[p], f);
    case StartFail(w) => assert WorkerAs(s.workers[w], f);
    case _ =>
  }

  /** In every run each file takes the data path, and large files have the key, that the traversal has chosen. */
  lemma {:induction false} KindsKept(c: Config, producers: nat, ss: seq<State>, steps: seq<Step>, t: nat, f: nat -> Choice)
    requires ConfigOk(c) && IsRun(c, producers, ss, steps) && t < |ss|
    requires forall i {:trigger steps[i]} :: 0 <= i < t && steps[i].NewItems? ==> ItemsAs(steps[i].items, f)
    ensures KindsOk(ss[t], f)
    decreases t
  {
    if t > 0 {
      KindsKept(c, producers, ss, steps, t - 1, f);
      RunInv(c, producers, ss, steps, t - 1);
      var step := steps[t - 1];
      assert QueueOk(ss[t - 1].queue);
      hide Inv, KindsOk, Enabled, Apply;
      StepKinds(c, ss[t - 1], step, f);
    }
  }

  // ---------------------------------------------------------------------------
  // Limits and termination

  /** The slots in use never exceed the workers, the queues never exceed their bound. */
  lemma LimitsHold(c: Config, producers: nat, ss: seq<State>, steps: seq<Step>, t: nat)
    requires ConfigOk(c) && IsRun(c, producers, ss, steps) && t < |ss|
    ensures ss[t].smallActive == Count(ss[t].workers, HasSlot) <= c.smallLimit
    ensures 0 <= ss[t].largeActive <= c.maxLarge
    ensures ss[t].smallActive + ss[t].largeActive * c.large <= c.workers
    ensures Queued(ss[t]) <= c.maxQueued
  {
    RunInv(c, producers, ss, steps, t);
    TimesIsProduct(ss[t].largeActive, c.large);
  }

  /** A worker thread returns only when no more work can come and no work is queued or under way. */
  lemma ReturnsWhenDone(c: Config, producers: nat, ss: seq<State>, steps: seq<Step>, t: nat, w: nat)
    requires ConfigOk(c) && IsRun(c, producers, ss, steps) && t < |ss|
    requires w < |ss[t].workers| && ss[t].workers[w].pc == Gone
    ensures ss[t].done && Drained(ss[t]) && ss[t].running == 0
    ensures forall u :: 0 <= u < |ss[t].workers| ==> !ss[t].workers[u].slot && ss[t].workers[u].stash == []
  {
    var s := ss[t];
    RunInv(c, producers, ss, steps, t);
    CountZero(s.workers, IsGone);
    CountZero(s.workers, HasSlot);
    forall u | 0 <= u < |s.workers|
      ensures !s.workers[u].slot && s.workers[u].stash == []
    {
      assert WorkerOk(s.workers[u]) && !HasSlot(s.workers[u]);
    }
  }

  /** Every worker sleeps unsignalled or has returned, and no large file is active. */
  ghost predicate Quiet(s: State) {
    && s.largeActive == 0
    && forall w :: 0 <= w < |s.workers| ==> s.workers[w].pc == Asleep || s.workers[w].pc == Gone
  }

  /**
   Wakes are counted out sparingly, yet when everybody is quiet no work is queued, after
   the stop no worker is left asleep, and no traversal thread is left waiting for room
   unless another one is about to push.
   */
  lemma NothingStranded(c: Config, producers: nat, ss: seq<State>, steps: seq<Step>, t: nat)
    requires ConfigOk(c) && c.large < c.workers && IsRun(c, producers, ss, steps) && t < |ss|
    requires Quiet(ss[t])
    ensures !HasWork(ss[t])
    ensures ss[t].done ==> forall w :: 0 <= w < |ss[t].workers| ==> ss[t].workers[w].pc == Gone
    ensures (exists p :: 0 <= p < |ss[t].producers| && PIsAsleep(ss[t].producers[p])) ==>
            (exists p :: 0 <= p < |ss[t].producers| && PAwake(ss[t].producers[p]))
  {
    var s := ss[t];
    RunInv(c, producers, ss, steps, t);
    CountZero(s.workers, IsGone);
    CountAll(s.workers, IsAsleep);
    CountZero(s.workers, IsAsleep);
    CountZero(s.workers, HasSlot);
    forall w | 0 <= w < |s.workers|
      ensures !HasSlot(s.workers[w])
    {
      assert WorkerOk(s.workers[w]);
    }
    CountZero(s.producers, PIsAsleep);
    CountZero(s.producers, PAwake);
  }

  // ---------------------------------------------------------------------------
  // Rotation over the directories

  /** A step that claims small files, from the batch of the given number. */
  ghost predicate ClaimsFrom(c: Config, s: State, step: Step, id: nat) {
    OpOf(c, s, step) == Take && s.queue != [] && s.queue[0].id == id
  }

  /** What a step does to the directory queue. */
  ghost function OpOf(c: Config, s: State, step: Step): Op {
    if !Enabled(c, s, step) then Other
    else if step.Enter? && !LargeOpen(c, s) && SmallOpen(c, s, step.w) then Take
    else if step.Push? && |Apply(c, s, step).queue| > |s.queue| then Append(Apply(c, s, step).queue[|s.queue|])
    else Other
  }

  lemma EnterQueue(c: Config, s: State, w: nat, k: nat, pick: Option<nat>)
    requires EnterOk(c, s, w, k, pick)
    ensures var s' := DoEnter(c, s, w, k, pick);
            && s'.nextId == s.nextId
            && s'.queue == if !LargeOpen(c, s) && SmallOpen(c, s, w) then Claimed(s.queue) else s.queue
  {
  }

  lemma PushQueue(c: Config, s: State, p: nat, picks: seq<nat>)
    requires PushOk(c, s, p, picks)
    ensures var s' := DoPush(c, s, p, picks);
            && s'.nextId >= s.nextId
            && (s'.queue == s.queue || exists tasks :: tasks != [] && s'.queue == s.queue + [Batch(s.nextId, 0, tasks)])
  {
  }

  lemma StepIsOp(c: Config, s: State, step: Step)
    requires ConfigOk(c) && Inv(c, s) && Enabled(c, s, step)
    ensures OpOk(s.queue, OpOf(c, s, step)) && Apply(c, s, step).queue == Do(s.queue, OpOf(c, s, step))
    ensures Apply(c, s, step).nextId >= s.nextId
    ensures OpOf(c, s, step).Append? ==> OpOf(c, s, step).b.id == s.nextId
  {
    match step
    case Enter(w, k, pick) =>
      EnterQueue(c, s, w, k, pick);
      hide DoEnter, EnterOk, Claimed, LargeOpen;
    case Push(p, picks) =>
      PushQueue(c, s, p, picks);
      hide DoPush, PushOk;
    case _ =>
      hide DoEnter, DoPush, WakeAll;
  }

  ghost function Queues(ss: seq<State>): seq<seq<Batch>> {
    seq(|ss|, t requires 0 <= t < |ss| => ss[t].queue)
  }

  ghost function Ops(c: Config, ss: seq<State>, steps: seq<Step>): seq<Op>
    requires |ss| == |steps| + 1
  {
    seq(|steps|, t requires 0 <= t < |steps| => OpOf(c, ss[t], steps[t]))
  }

  /** A run, seen at the directory queue. */
  lemma RunIsTrace(c: Config, producers: nat, ss: seq<State>, steps: seq<Step>)
    requires ConfigOk(c) && IsRun(c, producers, ss, steps)
    ensures Trace(Queues(ss), Ops(c, ss, steps))
  {
    hide Enabled, Apply, Inv, OpOf, Do;
    var qs, ops := Queues(ss), Ops(c, ss, steps);
    forall t | 0 <= t < |ops|
      ensures OpOk(qs[t], ops[t]) && qs[t + 1] == Do(qs[t], ops[t])
    {
      RunInv(c, producers, ss, steps, t);
      StepIsOp(c, ss[t], steps[t]);
    }
  }

  lemma {:induction false} NumbersGrow(c: Config, producers: nat, ss: seq<State>, steps: seq<Step>, i: nat, k: nat)
    requires ConfigOk(c) && IsRun(c, producers, ss, steps) && i <= k < |ss|
    ensures ss[i].nextId <= ss[k].nextId
    decreases k
  {
    hide Enabled, Apply, Inv, OpOf, Do;
    if i < k {
      NumbersGrow(c, producers, ss, steps, i, k - 1);
      RunInv(c, producers, ss, steps, k - 1);
      StepIsOp(c, ss[k - 1], steps[k - 1]);
    }
  }

  lemma CameFrom(q: seq<Batch>, op: Op, b: nat)
    requires QueueOk(q) && OpOk(q, op) && HasBatch(Do(q, op), b) && (op.Append? ==> op.b.id != b)
    ensures HasBatch(q, b)
  {
    var r := Do(q, op);
    var i :| 0 <= i < |r| && r[i].id == b;
    if op.Take? {
      assert BatchOk(q[0]);
      assert if i < |q| - 1 then q[i + 1].id == b else q[0].id == b;
    } else {
      assert i < |q| && q[i].id == b;
    }
  }

  /** Batch numbers are never reused, so a batch seen at two moments was queued all the time between them. */
  lemma {:induction false} BatchStays(c: Config, producers: nat, ss: seq<State>, steps: seq<Step>, i: nat, k: nat, j: nat, b: nat)
    requires ConfigOk(c) && IsRun(c, producers, ss, steps)
    requires i <= k <= j < |ss| && HasBatch(ss[i].queue, b) && HasBatch(ss[j].queue, b)
    ensures HasBatch(ss[k].queue, b)
    decreases j - k
  {
    hide Enabled, Apply, OpOf, Do, Count;
    if k < j {
      BatchStays(c, producers, ss, steps, i, k + 1, j, b);
      NumbersGrow(c, producers, ss, steps, i, k);
      RunInv(c, producers, ss, steps, i);
      RunInv(c, producers, ss, steps, k);
      StepIsOp(c, ss[k], steps[k]);
      CameFrom(ss[k].queue, OpOf(c, ss[k], steps[k]), b);
    }
  }

  /**
   Rotation is fair in every run: between two claims from one batch, every other batch
   that was queued at the first of them has been claimed from.
   */
  lemma RotationIsFair(c: Config, producers: nat, ss: seq<State>, steps: seq<Step>, i: nat, j: nat, b: nat, d: nat)
    requires ConfigOk(c) && IsRun(c, producers, ss, steps) && i < j < |steps| && b != d
    requires ClaimsFrom(c, ss[i], steps[i], b) && ClaimsFrom(c, ss[j], steps[j], b) && HasBatch(ss[i].queue, d)
    ensures exists k :: i < k < j && ClaimsFrom(c, ss[k], steps[k], d)
  {
    var qs, ops := Queues(ss), Ops(c, ss, steps);
    RunIsTrace(c, producers, ss, steps);
    assert HasBatch(ss[i].queue, b) && HasBatch(ss[j].queue, b);
    forall k | i < k <= j && k < |qs|
      ensures HasBatch(qs[k], b)
    {
      BatchStays(c, producers, ss, steps, i, k, j, b);
    }
    assert TakesFrom(qs, ops, i, b) && TakesFrom(qs, ops, j, b);
    OthersGoFirst(qs, ops, i, j, b, d);
    var k :| i < k < j && TakesFrom(qs, ops, k, d);
    assert ClaimsFrom(c, ss[k], steps[k], d);
  }
}
