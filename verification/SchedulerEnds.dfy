/**
 The copy scheduler comes to an end: a measure falls with every step of a worker, a large file or a
 traversal thread, so the length of a run is bounded by the files it is given, and when nothing can go
 on every file that was pushed has been handed to a copy.
 */
module SchedulerEnds {
  import opened Counting
  import opened TaskHeap
  import opened DirQueue
  import opened Scheduler
  import opened SchedulerProof
  import opened SchedulerTheorems

  // ---------------------------------------------------------------------------
  // The measure

  /** What a worker may still cost, n being the number of workers that one step may wake. */
  function WorkerPower(n: nat, w: Worker): nat {
    (match w.pc
     case Ready => 1
     case Signalled => 1
     case Copying(_) => 2
     case Starting(_) => n + 3
     case Asleep => 0
     case Gone => 0) + 2 * |w.stash| + if w.slot then n else 0
  }

  function WorkerWeight(n: nat): Worker -> nat {
    (w: Worker) => WorkerPower(n, w)
  }

  function ProducerPower(p: Producer): nat { if p.PPushing? || p.PSignalled? then 1 else 0 }
  function RestLen(p: Producer): nat { if p.PPushing? || p.PAsleep? || p.PSignalled? then |p.rest| else 0 }

  function PendingWork(c: Config, s: State): int { Times(Sum(s.producers, RestLen), 2 * c.workers + 5) }
  function QueueWork(c: Config, s: State): int { Times(Queued(s), c.workers + 4) }
  function RunningWork(c: Config, s: State): int { Times(s.running, c.workers + 1) }
  function WorkerWork(c: Config, s: State): int { Sum(s.workers, WorkerWeight(c.workers)) }
  function ProducerWork(s: State): int { Sum(s.producers, ProducerPower) }

  function Measure(c: Config, s: State): int {
    PendingWork(c, s) + QueueWork(c, s) + RunningWork(c, s) + WorkerWork(c, s) + ProducerWork(s)
  }

  lemma SameQueues(c: Config, s: State, s': State)
    requires s'.queue == s.queue && s'.heap == s.heap
    ensures QueueWork(c, s') == QueueWork(c, s)
  {
  }

  lemma SameProducers(c: Config, s: State, s': State)
    requires s'.producers == s.producers
    ensures PendingWork(c, s') == PendingWork(c, s) && ProducerWork(s') == ProducerWork(s)
  {
  }

  lemma {:induction false} TimesAdd(j: nat, k: nat, b: nat)
    ensures Times(j + k, b) == Times(j, b) + Times(k, b)
    decreases k
  {
    if k > 0 {
      TimesAdd(j, k - 1, b);
    }
  }

  lemma {:induction false} ClaimPays(k: nat, n: nat)
    requires k >= 1
    ensures Times(k, n + 4) >= 2 * k + n + 2
  {
    if k > 1 {
      ClaimPays(k - 1, n);
    } else {
      assert Times(0, n + 4) == 0;
    }
  }

  lemma {:induction false} PushPays(k: nat, n: nat)
    requires k >= 1
    ensures Times(k, 2 * n + 5) >= Times(k, n + 4) + n + 1
  {
    if k > 1 {
      PushPays(k - 1, n);
    } else {
      assert Times(0, 2 * n + 5) == 0 && Times(0, n + 4) == 0;
    }
  }

  lemma WorkerSum(c: Config, ws: seq<Worker>, w: nat, v: Worker)
    requires w < |ws|
    ensures var f := WorkerWeight(c.workers);
            Sum(ws[w := v], f) == Sum(ws, f) - f(ws[w]) + f(v)
  {
    SumUpdate(ws, w, v, WorkerWeight(c.workers));
  }

  lemma ProducerSums(ps: seq<Producer>, p: nat, v: Producer)
    requires p < |ps|
    ensures Sum(ps[p := v], ProducerPower) == Sum(ps, ProducerPower) - ProducerPower(ps[p]) + ProducerPower(v)
    ensures Sum(ps[p := v], RestLen) == Sum(ps, RestLen) - RestLen(ps[p]) + RestLen(v)
  {
    SumUpdate(ps, p, v, ProducerPower);
    SumUpdate(ps, p, v, RestLen);
  }

  /** Each worker that is woken costs one. */
  lemma {:induction false} WokenWeight(c: Config, ws: seq<Worker>, vs: seq<Worker>)
    requires OnlyWoken(ws, vs)
    ensures Sum(vs, WorkerWeight(c.workers)) <= Sum(ws, WorkerWeight(c.workers)) + |ws|
    decreases |ws|
  {
    if ws != [] {
      var n := |ws| - 1;
      WokenWeight(c, ws[..n], vs[..n]);
    }
  }

  // ---------------------------------------------------------------------------
  // Workers

  /** A worker with the lock and without work. */
  lemma NothingWorkers(c: Config, s: State, w: nat)
    requires ConfigOk(c) && Inv(c, s) && CanEnter(s, w)
    ensures WorkerWork(c, ClaimNothing(LeaveWait(s, w), w)) < WorkerWork(c, s)
  {
    var s' := ClaimNothing(LeaveWait(s, w), w);
    assert WorkerOk(s.workers[w]) && |s.workers| == c.workers;
    hide Inv;
    WakeAllCounts(s.workers);
    WokenWeight(c, s.workers, WakeAll(s.workers));
    if s.workers[w].slot && s'.workers != s.workers[w := s'.workers[w]] {
      WorkerSum(c, WakeAll(s.workers), w, s'.workers[w]);
    } else {
      WorkerSum(c, s.workers, w, s'.workers[w]);
    }
    hide Sum, OnlyWoken;
  }

  lemma NothingFalls(c: Config, s: State, w: nat)
    requires ConfigOk(c) && Inv(c, s) && CanEnter(s, w)
    ensures Measure(c, ClaimNothing(LeaveWait(s, w), w)) < Measure(c, s)
  {
    hide Inv, QueueWork, PendingWork, WorkerWork, ProducerWork;
    NothingWorkers(c, s, w);
    SameQueues(c, s, ClaimNothing(LeaveWait(s, w), w));
    SameProducers(c, s, ClaimNothing(LeaveWait(s, w), w));
    hide Times;
  }

  lemma SignalSpaceSums(c: Config, s: State, s': State, pick: Option<nat>)
    requires s'.producers == SignalSpace(s, pick).producers
    ensures ProducerWork(s') <= ProducerWork(s) + 1 && PendingWork(c, s') == PendingWork(c, s)
  {
    if pick.Some? && pick.value < |s.producers| && s.producers[pick.value].PAsleep? {
      ProducerSums(s.producers, pick.value, PSignalled(s.producers[pick.value].rest));
    }
    hide Sum;
  }

  lemma LargeQueues(c: Config, s: State, s': State)
    requires Queued(s') == Queued(s) - 1
    ensures QueueWork(c, s') + c.workers + 4 == QueueWork(c, s)
  {
    hide Queued;
  }

  lemma LargeWorkers(c: Config, s: State, s': State, w: nat, task: nat)
    requires Inv(c, s) && CanEnter(s, w) && s'.workers == s.workers[w := Worker(Starting(task), [], s.workers[w].slot)]
    ensures WorkerWork(c, s') <= WorkerWork(c, s) + c.workers + 2
  {
    WorkerSum(c, s.workers, w, s'.workers[w]);
    hide Sum, Inv;
  }

  lemma LargeFalls(c: Config, s: State, w: nat, k: nat, pick: Option<nat>)
    requires ConfigOk(c) && Inv(c, s) && EnterOk(c, s, w, k, pick) && LargeOpen(c, s)
    ensures Measure(c, DoEnter(c, s, w, k, pick)) < Measure(c, s)
  {
    var s' := DoEnter(c, s, w, k, pick);
    hide Inv, DoEnter, SignalSpace, Queued, QueueWork, PendingWork, WorkerWork, ProducerWork, Times;
    LargeEffect(c, s, w, k, pick);
    SignalSpaceSums(c, s, s', pick);
    LargeQueues(c, s, s');
    LargeWorkers(c, s, s', w, s.heap[k].task);
  }

  lemma LargeEffect(c: Config, s: State, w: nat, k: nat, pick: Option<nat>)
    requires EnterOk(c, s, w, k, pick) && LargeOpen(c, s)
    ensures var s' := DoEnter(c, s, w, k, pick);
            && s'.workers == s.workers[w := Worker(Starting(s.heap[k].task), [], s.workers[w].slot)]
            && s'.producers == SignalSpace(s, pick).producers
            && s'.running == s.running && Queued(s') == Queued(s) - 1
  {
    hide Len;
  }

  lemma SmallEffect(c: Config, s: State, w: nat, k: nat, pick: Option<nat>)
    requires EnterOk(c, s, w, k, pick) && !LargeOpen(c, s) && SmallOpen(c, s, w)
    ensures var s' := DoEnter(c, s, w, k, pick);
            && s'.workers == s.workers[w := Worker(Ready, Run(s.queue), true)]
            && s'.producers == SignalSpace(s, pick).producers
            && s'.running == s.running && s'.queue == Claimed(s.queue) && s'.heap == s.heap
  {
    hide Claimed, Run, Len;
  }

  lemma SmallWorkers(c: Config, s: State, s': State, w: nat)
    requires Inv(c, s) && CanEnter(s, w) && s.queue != [] && s'.workers == s.workers[w := Worker(Ready, Run(s.queue), true)]
    ensures WorkerWork(c, s') <= WorkerWork(c, s) + 2 * |Run(s.queue)| + c.workers
  {
    WorkerSum(c, s.workers, w, Worker(Ready, Run(s.queue), true));
    hide Sum, Inv, Run;
  }

  lemma QueueFalls(q: nat, k: nat, n: nat)
    requires 1 <= k <= q
    ensures Times(q, n + 4) >= Times(q - k, n + 4) + 2 * k + n + 2
  {
    TimesAdd(q - k, k, n + 4);
    ClaimPays(k, n);
    hide Times;
  }

  lemma SmallQueued(c: Config, s: State, s': State)
    requires Inv(c, s) && s.queue != [] && s'.queue == Claimed(s.queue) && s'.heap == s.heap
    ensures QueueWork(c, s) >= QueueWork(c, s') + 2 * |Run(s.queue)| + c.workers + 2
  {
    ClaimKeepsFiles(s.queue);
    hide Claimed, Run, Len, Inv;
    QueueFalls(Queued(s), |Run(s.queue)|, c.workers);
    hide Times;
  }

  lemma SmallFalls(c: Config, s: State, w: nat, k: nat, pick: Option<nat>)
    requires ConfigOk(c) && Inv(c, s) && EnterOk(c, s, w, k, pick) && !LargeOpen(c, s) && SmallOpen(c, s, w)
    ensures Measure(c, DoEnter(c, s, w, k, pick)) < Measure(c, s)
  {
    var s' := DoEnter(c, s, w, k, pick);
    hide Inv, DoEnter, Claimed, Run, SignalSpace, Queued, QueueWork, PendingWork, WorkerWork, ProducerWork, Times;
    SmallEffect(c, s, w, k, pick);
    SignalSpaceSums(c, s, s', pick);
    SmallQueued(c, s, s');
    SmallWorkers(c, s, s', w);
  }

  lemma EnterFalls(c: Config, s: State, w: nat, k: nat, pick: Option<nat>)
    requires ConfigOk(c) && Inv(c, s) && EnterOk(c, s, w, k, pick)
    ensures Measure(c, DoEnter(c, s, w, k, pick)) < Measure(c, s)
  {
    hide Measure, Inv;
    if LargeOpen(c, s) {
      LargeFalls(c, s, w, k, pick);
    } else if SmallOpen(c, s, w) {
      SmallFalls(c, s, w, k, pick);
    } else {
      NothingFalls(c, s, w);
    }
  }

  lemma DispatchFalls(c: Config, s: State, step: Step)
    requires Enabled(c, s, step) && (step.Dispatch? || step.Finish?)
    ensures Measure(c, Apply(c, s, step)) < Measure(c, s)
  {
    var s' := Apply(c, s, step);
    WorkerSum(c, s.workers, step.w, s'.workers[step.w]);
    SameQueues(c, s, s');
    SameProducers(c, s, s');
    hide Sum, QueueWork, PendingWork, ProducerWork;
    assert WorkerWork(c, s') < WorkerWork(c, s);
    hide WorkerWork;
  }

  lemma StartOkFalls(c: Config, s: State, w: nat)
    requires Enabled(c, s, StartOk(w))
    ensures Measure(c, Apply(c, s, StartOk(w))) < Measure(c, s)
  {
    var s' := Apply(c, s, StartOk(w));
    WorkerSum(c, s.workers, w, s.workers[w].(pc := Ready));
    SameQueues(c, s, s');
    SameProducers(c, s, s');
    hide Sum, QueueWork, PendingWork, ProducerWork;
    assert WorkerWork(c, s') + c.workers + 2 == WorkerWork(c, s);
    hide WorkerWork;
  }

  lemma StartFailWorkers(c: Config, s: State, w: nat)
    requires |s.workers| == c.workers && Enabled(c, s, StartFail(w))
    ensures WorkerWork(c, Apply(c, s, StartFail(w))) < WorkerWork(c, s)
  {
    WakeAllCounts(s.workers);
    WokenWeight(c, s.workers, WakeAll(s.workers));
    WorkerSum(c, WakeAll(s.workers), w, s.workers[w].(pc := Ready));
    assert WakeAll(s.workers)[w] == s.workers[w];
    hide Sum, OnlyWoken, WakeAll, Count;
  }

  lemma StartFailFalls(c: Config, s: State, w: nat)
    requires Inv(c, s) && Enabled(c, s, StartFail(w))
    ensures Measure(c, Apply(c, s, StartFail(w))) < Measure(c, s)
  {
    assert |s.workers| == c.workers;
    hide Inv, QueueWork, PendingWork, WorkerWork, ProducerWork, WakeAll;
    var s' := Apply(c, s, StartFail(w));
    StartFailWorkers(c, s, w);
    SameQueues(c, s, s');
    SameProducers(c, s, s');
  }

  lemma LargeDoneWorkers(c: Config, s: State)
    requires |s.workers| == c.workers && s.running > 0
    ensures WorkerWork(c, Apply(c, s, LargeDone)) <= WorkerWork(c, s) + c.workers
  {
    WakeAllCounts(s.workers);
    WokenWeight(c, s.workers, WakeAll(s.workers));
    hide Sum, OnlyWoken, Count;
  }

  lemma LargeDoneFalls(c: Config, s: State)
    requires Inv(c, s) && s.running > 0
    ensures Measure(c, Apply(c, s, LargeDone)) < Measure(c, s)
  {
    assert |s.workers| == c.workers;
    hide Inv, QueueWork, PendingWork, WorkerWork, ProducerWork, WakeAll;
    var s' := Apply(c, s, LargeDone);
    LargeDoneWorkers(c, s);
    SameQueues(c, s, s');
    SameProducers(c, s, s');
  }

  // ---------------------------------------------------------------------------
  // Traversal threads

  lemma PushEffect(c: Config, s0: State, p: nat, picks: seq<nat>, n: nat)
    requires ConfigOk(c) && Inv(c, s0) && PushOk(c, s0, p, picks) && !MustWait(c, LeaveSpaceWait(s0, p), |s0.producers[p].rest|)
    requires n == SliceLen(c, LeaveSpaceWait(s0, p), |s0.producers[p].rest|)
    ensures var s', rest := DoPush(c, s0, p, picks), s0.producers[p].rest;
            && 1 <= n <= |rest| && Queued(s') == Queued(s0) + n && s'.running == s0.running
            && s'.producers == s0.producers[p := if n == |rest| then PIdle else PPushing(rest[n..])]
            && OnlyWoken(s0.workers, s'.workers)
  {
    var s, rest := LeaveSpaceWait(s0, p), s0.producers[p].rest;
    assert ProducerOk(s0.producers[p]);
    WakeMinFits(c);
    PushedLen(s, rest[..n]);
    PickedWoken(s.workers, Wakes(c, Pushed(s, rest[..n])), picks);
    hide Wakes, Count;
  }

  lemma PushFalls(c: Config, s: State, p: nat, picks: seq<nat>)
    requires ConfigOk(c) && Inv(c, s) && PushOk(c, s, p, picks)
    ensures Measure(c, DoPush(c, s, p, picks)) < Measure(c, s)
  {
    var rest := s.producers[p].rest;
    if MustWait(c, LeaveSpaceWait(s, p), |rest|) {
      ParkFalls(c, s, p, picks);
    } else {
      var n := SliceLen(c, LeaveSpaceWait(s, p), |rest|);
      PushEffect(c, s, p, picks, n);
      PushedFalls(c, s, DoPush(c, s, p, picks), p, n);
    }
  }

  lemma ParkFalls(c: Config, s: State, p: nat, picks: seq<nat>)
    requires PushOk(c, s, p, picks) && MustWait(c, LeaveSpaceWait(s, p), |s.producers[p].rest|)
    ensures Measure(c, DoPush(c, s, p, picks)) < Measure(c, s)
  {
    var s', rest := DoPush(c, s, p, picks), s.producers[p].rest;
    ProducerSums(s.producers, p, PAsleep(rest));
    SameQueues(c, s, s');
    hide Sum, QueueWork, Times;
  }

  lemma PushedFalls(c: Config, s: State, s': State, p: nat, n: nat)
    requires |s.workers| == c.workers && p < |s.producers| && (s.producers[p].PPushing? || s.producers[p].PSignalled?)
    requires 1 <= n <= |s.producers[p].rest| && Queued(s') == Queued(s) + n && s'.running == s.running
    requires s'.producers == s.producers[p := if n == |s.producers[p].rest| then PIdle else PPushing(s.producers[p].rest[n..])]
    requires OnlyWoken(s.workers, s'.workers)
    ensures Measure(c, s') < Measure(c, s)
  {
    WokenWeight(c, s.workers, s'.workers);
    ProducerSums(s.producers, p, s'.producers[p]);
    hide OnlyWoken, Queued;
    PushedWork(c, s, s', n);
    assert WorkerWork(c, s') <= WorkerWork(c, s) + c.workers && ProducerWork(s') <= ProducerWork(s);
    hide WorkerWork, ProducerWork, QueueWork, PendingWork, Sum;
  }

  lemma PushedWork(c: Config, s: State, s': State, n: nat)
    requires n >= 1 && Queued(s') == Queued(s) + n && Sum(s'.producers, RestLen) + n == Sum(s.producers, RestLen)
    ensures QueueWork(c, s') + PendingWork(c, s') + c.workers + 1 <= QueueWork(c, s) + PendingWork(c, s)
  {
    hide Sum, Queued;
    TimesAdd(Sum(s'.producers, RestLen), n, 2 * c.workers + 5);
    TimesAdd(Queued(s), n, c.workers + 4);
    PushPays(n, c.workers);
    hide Times;
  }

  // ---------------------------------------------------------------------------
  // Runs

  /** Steps that are not the scheduler's own: files found, threads that end, the stop, and wakes for no reason. */
  predicate Outside(step: Step) {
    step.NewItems? || step.Retire? || step.Stop? || step.WakeWorker? || step.WakeProducer?
  }

  /** What such a step adds to the work. */
  function Allowance(c: Config, step: Step): nat {
    match step
    case NewItems(_, items) => Times(|items|, 2 * c.workers + 5) + 2
    case Retire(_) => 1
    case Stop => c.workers + 1
    case WakeWorker(_) => 2
    case WakeProducer(_) => 2
    case _ => 0
  }

  lemma NewItemsFalls(c: Config, s: State, p: nat, items: seq<Item>)
    requires Enabled(c, s, NewItems(p, items))
    ensures Measure(c, Apply(c, s, NewItems(p, items))) + 1 <= Measure(c, s) + Allowance(c, NewItems(p, items))
  {
    var s' := Apply(c, s, NewItems(p, items));
    ProducerSums(s.producers, p, PPushing(items));
    TimesAdd(Sum(s.producers, RestLen), |items|, 2 * c.workers + 5);
    SameQueues(c, s, s');
    hide Sum, Times, QueueWork;
    assert PendingWork(c, s') == PendingWork(c, s) + Times(|items|, 2 * c.workers + 5);
    hide PendingWork;
  }

  lemma OutsideFalls(c: Config, s: State, step: Step)
    requires ConfigOk(c) && |s.workers| == c.workers && Enabled(c, s, step) && Outside(step)
    ensures Measure(c, Apply(c, s, step)) + 1 <= Measure(c, s) + Allowance(c, step)
  {
    hide Sum, Times, QueueWork;
    var s' := Apply(c, s, step);
    SameQueues(c, s, s');
    match step
    case NewItems(p, items) => hide Measure; NewItemsFalls(c, s, p, items);
    case Retire(p) => ProducerSums(s.producers, p, PDone);
    case Stop =>
      WakeAllCounts(s.workers);
      WokenWeight(c, s.workers, WakeAll(s.workers));
    case WakeWorker(w) => WorkerSum(c, s.workers, w, s.workers[w].(pc := Signalled));
    case WakeProducer(p) => ProducerSums(s.producers, p, PSignalled(s.producers[p].rest));
  }

  lemma StepFalls(c: Config, s: State, step: Step)
    requires ConfigOk(c) && Inv(c, s) && Enabled(c, s, step)
    ensures Measure(c, Apply(c, s, step)) + 1 <= Measure(c, s) + Allowance(c, step)
  {
    hide Measure;
    match step
    case Enter(w, k, pick) => EnterFalls(c, s, w, k, pick);
    case Push(p, picks) => PushFalls(c, s, p, picks);
    case Dispatch(_) => DispatchFalls(c, s, step);
    case Finish(_) => DispatchFalls(c, s, step);
    case StartOk(w) => StartOkFalls(c, s, w);
    case StartFail(w) => StartFailFalls(c, s, w);
    case LargeDone => LargeDoneFalls(c, s);
    case _ => OutsideFalls(c, s, step);
  }

  function AllowanceOf(c: Config, steps: seq<Step>): nat {
    if steps == [] then 0 else AllowanceOf(c, steps[..|steps| - 1]) + Allowance(c, steps[|steps| - 1])
  }

  lemma InitMeasure(c: Config, producers: nat)
    ensures Measure(c, Init(c, producers)) <= c.workers
  {
    var s := Init(c, producers);
    SumBound(s.workers, WorkerWeight(c.workers), 1);
    SumBound(s.producers, ProducerPower, 0);
    SumBound(s.producers, RestLen, 0);
    hide Sum;
  }

  lemma {:induction false} RunFalls(c: Config, producers: nat, ss: seq<State>, steps: seq<Step>, t: nat)
    requires ConfigOk(c) && IsRun(c, producers, ss, steps) && t <= |steps|
    ensures Measure(c, ss[t]) + t <= c.workers + AllowanceOf(c, steps[..t])
    decreases t
  {
    hide Measure, Inv, Enabled, Apply, Allowance;
    if t == 0 {
      InitMeasure(c, producers);
    } else {
      RunFalls(c, producers, ss, steps, t - 1);
      RunInv(c, producers, ss, steps, t - 1);
      var step := steps[t - 1];
      StepFalls(c, ss[t - 1], step);
      assert steps[..t][..t - 1] == steps[..t - 1];
    }
  }

  lemma MeasureNat(c: Config, s: State)
    ensures Measure(c, s) >= 0
  {
    hide Sum, Times;
  }

  // ---------------------------------------------------------------------------
  // When nothing can go on

  /** No worker, large file or traversal thread that is under way can take a step. */
  ghost predicate Halted(c: Config, s: State) {
    forall step :: Enabled(c, s, step) ==> Outside(step)
  }

  lemma {:induction false} TopExists(heap: seq<Entry>) returns (k: nat)
    requires heap != []
    ensures IsTop(heap, k)
    decreases |heap|
  {
    if |heap| == 1 {
      k := 0;
    } else {
      var n := |heap| - 1;
      var j := TopExists(heap[..n]);
      k := if heap[j].key >= heap[n].key then j else n;
      assert forall i :: 0 <= i < n ==> heap[..n][i] == heap[i];
    }
  }

  lemma SpacePick(c: Config, s: State, queued: nat) returns (pick: Option<nat>)
    ensures PickSpaceOk(c, s, queued, pick)
  {
    pick := None;
    if p: nat :| s.spaceWaiters > 0 && c.maxQueued - queued >= WakeMin(c) && p < |s.producers| && s.producers[p].PAsleep? {
      pick := Some(p);
    }
  }

  lemma CanAlwaysEnter(c: Config, s: State, w: nat)
    requires CanEnter(s, w)
    ensures !Halted(c, s)
  {
    var k, pick := 0, None;
    if LargeOpen(c, s) {
      k := TopExists(s.heap);
      pick := SpacePick(c, s, Len(s.queue) + |s.heap| - 1);
    } else if SmallOpen(c, s, w) {
      pick := SpacePick(c, s, Len(s.queue[1..]) + |s.heap|);
    }
    assert Enabled(c, s, Enter(w, k, pick));
  }

  lemma {:induction false} SleepersExist(ws: seq<Worker>, n: nat) returns (picks: seq<nat>)
    requires n <= Count(ws, IsAsleep)
    ensures NoDup(picks) && |picks| == n && forall i :: 0 <= i < n ==> picks[i] < |ws| && IsAsleep(ws[picks[i]])
    decreases |ws|
  {
    if n == 0 {
      picks := [];
    } else {
      var m := |ws| - 1;
      if IsAsleep(ws[m]) {
        picks := SleepersExist(ws[..m], n - 1);
        picks := picks + [m];
      } else {
        picks := SleepersExist(ws[..m], n);
      }
    }
  }

  lemma CanAlwaysPush(c: Config, s: State, p: nat)
    requires ConfigOk(c) && Inv(c, s) && CanPush(s, p)
    ensures !Halted(c, s)
  {
    var s1 := LeaveSpaceWait(s, p);
    var rest := s1.producers[p].rest;
    var picks := [];
    if !MustWait(c, s1, |rest|) {
      WakeMinFits(c);
      var wakes := Wakes(c, Pushed(s1, rest[..SliceLen(c, s1, |rest|)]));
      if wakes > 0 {
        picks := SleepersExist(s1.workers, MinOf(wakes, Count(s1.workers, IsAsleep)));
      }
    }
    hide Inv, Wakes;
    assert PushOk(c, s, p, picks);
    assert Enabled(c, s, Push(p, picks));
  }

  lemma WorkerGoesOn(c: Config, s: State, w: nat)
    requires ConfigOk(c) && w < |s.workers| && WorkerOk(s.workers[w]) && s.workers[w].pc != Asleep && s.workers[w].pc != Gone
    ensures !Halted(c, s)
  {
    match s.workers[w].pc
    case Ready =>
      if s.workers[w].stash == [] {
        CanAlwaysEnter(c, s, w);
      } else {
        assert Enabled(c, s, Dispatch(w));
      }
    case Signalled => CanAlwaysEnter(c, s, w);
    case Copying(_) => assert Enabled(c, s, Finish(w));
    case Starting(_) => assert Enabled(c, s, StartOk(w));
  }

  lemma LargeGoesOn(c: Config, s: State)
    requires s.running > 0
    ensures !Halted(c, s)
  {
    assert Enabled(c, s, LargeDone);
  }

  lemma HaltedQuiet(c: Config, s: State)
    requires ConfigOk(c) && Inv(c, s) && Halted(c, s)
    ensures Quiet(s) && (forall w :: 0 <= w < |s.workers| ==> s.workers[w].stash == [])
    ensures forall p :: 0 <= p < |s.producers| ==> !PAwake(s.producers[p])
  {
    hide Halted;
    forall w | 0 <= w < |s.workers|
      ensures (s.workers[w].pc == Asleep || s.workers[w].pc == Gone) && s.workers[w].stash == []
    {
      assert WorkerOk(s.workers[w]);
      if s.workers[w].pc != Asleep && s.workers[w].pc != Gone {
        WorkerGoesOn(c, s, w);
      }
    }
    forall p | 0 <= p < |s.producers|
      ensures !PAwake(s.producers[p])
    {
      if PAwake(s.producers[p]) {
        CanAlwaysPush(c, s, p);
      }
    }
    if s.running > 0 {
      LargeGoesOn(c, s);
    }
    CountZero(s.workers, IsStarting);
  }

  lemma NothingWaits(s: State, x: nat)
    requires Conserved(s, x) && !HasWork(s) && forall w :: 0 <= w < |s.workers| ==> s.workers[w].stash == []
    ensures s.dispatched[x] == s.pushed[x]
  {
    NoneStashed(s.workers, x);
  }

  /**
   Every run of the scheduler ends: its length is bounded by the workers, the files found and the wakes
   for no reason. When nothing under way can go on and a large file leaves a slot free, every file
   that was pushed has been handed to a copy, no traversal thread waits, and after the stop every
   worker has returned.
   */
  lemma EveryRunEnds(c: Config, producers: nat, ss: seq<State>, steps: seq<Step>)
    requires ConfigOk(c) && IsRun(c, producers, ss, steps)
    ensures |steps| <= c.workers + AllowanceOf(c, steps)
    ensures Halted(c, ss[|steps|]) && c.large < c.workers ==>
              var s := ss[|steps|];
              && s.dispatched == s.pushed && !HasWork(s)
              && (forall p :: 0 <= p < |s.producers| ==> s.producers[p] == PIdle || s.producers[p] == PDone)
              && (s.done ==> forall w :: 0 <= w < |s.workers| ==> s.workers[w].pc == Gone)
  {
    var n := |steps|;
    var s := ss[n];
    RunFalls(c, producers, ss, steps, n);
    MeasureNat(c, s);
    assert steps[..n] == steps;
    RunInv(c, producers, ss, steps, n);
    if Halted(c, s) && c.large < c.workers {
      HaltedQuiet(c, s);
      hide Inv, Halted, Measure, Enabled, Apply;
      NothingStranded(c, producers, ss, steps, n);
      forall x
        ensures s.dispatched[x] == s.pushed[x]
      {
        TasksConserved(c, producers, ss, steps, n, x);
        NothingWaits(s, x);
      }
      assert s.dispatched == s.pushed;
    }
  }
}
