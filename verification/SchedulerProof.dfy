/**
 What every run of the copy scheduler keeps: slot limits, the queue bound, conservation
 of tasks, and the absence of stranded work.
 */
module SchedulerProof {
  import opened Counting
  import opened DirQueue
  import opened Scheduler

  predicate PIsAsleep(p: Producer) { p.PAsleep? }
  predicate PAwake(p: Producer) { p.PPushing? || p.PSignalled? }

  ghost predicate CountersOk(c: Config, s: State) {
    && |s.workers| == c.workers
    && s.smallActive == Count(s.workers, HasSlot)
    && s.queueWaiters == Count(s.workers, IsWaiting)
    && s.largeActive == s.running + Count(s.workers, IsStarting)
    && s.spaceWaiters == Count(s.producers, PWaiting)
  }

  /** Slots: one per thread that copies small files, c.large per active large file. */
  ghost predicate SlotsOk(c: Config, s: State) {
    Used(c, s) <= c.workers && s.smallActive <= c.smallLimit && s.largeActive <= c.maxLarge
  }

  ghost predicate QueuesOk(c: Config, s: State) {
    && QueueOk(s.queue) && DistinctIds(s.queue)
    && (forall i :: 0 <= i < |s.queue| ==> s.queue[i].id < s.nextId)
    && Queued(s) <= c.maxQueued
  }

  ghost predicate WorkerOk(w: Worker) {
    && (w.pc.Asleep? || w.pc.Signalled? || w.pc.Gone? ==> w.stash == [] && !w.slot)
    && (w.pc.Starting? ==> w.stash == [])
    && (w.pc.Copying? || w.stash != [] ==> w.slot)
  }

  ghost predicate ProducerOk(p: Producer) {
    p.PPushing? || p.PAsleep? || p.PSignalled? ==> p.rest != []
  }

  ghost predicate ThreadsOk(s: State) {
    && (forall w :: 0 <= w < |s.workers| ==> WorkerOk(s.workers[w]))
    && (forall p :: 0 <= p < |s.producers| ==> ProducerOk(s.producers[p]))
    && (s.done ==> forall p :: 0 <= p < |s.producers| ==> s.producers[p] == PDone)
  }

  /** A worker returns only when nothing is left to do and nothing can come any more. */
  ghost predicate GoneOk(s: State) {
    Count(s.workers, IsGone) > 0 ==> s.done && Drained(s)
  }

  ghost predicate HasWork(s: State) {
    s.queue != [] || s.heap != []
  }

  ghost predicate NotStranded(c: Config, s: State) {
    c.large < c.workers && HasWork(s) && s.largeActive == 0 ==> Count(s.workers, IsAsleep) < c.workers
  }

  ghost predicate NoneLeftAsleep(s: State) {
    s.done && Drained(s) ==> Count(s.workers, IsAsleep) == 0
  }

  ghost predicate ProducersServed(s: State) {
    Count(s.producers, PIsAsleep) > 0 && !HasWork(s) ==> Count(s.producers, PAwake) > 0
  }

  ghost predicate Inv(c: Config, s: State) {
    && CountersOk(c, s) && SlotsOk(c, s) && QueuesOk(c, s) && ThreadsOk(s)
    && GoneOk(s) && NotStranded(c, s) && NoneLeftAsleep(s) && ProducersServed(s)
  }

  // ---------------------------------------------------------------------------
  // Counting lemmas

  lemma WorkerChange(ws: seq<Worker>, w: nat, v: Worker)
    requires w < |ws|
    ensures Count(ws[w := v], HasSlot) == Count(ws, HasSlot) - (if HasSlot(ws[w]) then 1 else 0) + (if HasSlot(v) then 1 else 0)
    ensures Count(ws[w := v], IsWaiting) == Count(ws, IsWaiting) - (if IsWaiting(ws[w]) then 1 else 0) + (if IsWaiting(v) then 1 else 0)
    ensures Count(ws[w := v], IsStarting) == Count(ws, IsStarting) - (if IsStarting(ws[w]) then 1 else 0) + (if IsStarting(v) then 1 else 0)
    ensures Count(ws[w := v], IsAsleep) == Count(ws, IsAsleep) - (if IsAsleep(ws[w]) then 1 else 0) + (if IsAsleep(v) then 1 else 0)
    ensures Count(ws[w := v], IsGone) == Count(ws, IsGone) - (if IsGone(ws[w]) then 1 else 0) + (if IsGone(v) then 1 else 0)
    ensures !IsAsleep(ws[w]) ==> Count(ws, IsAsleep) < |ws|
    ensures HasSlot(ws[w]) ==> Count(ws, HasSlot) >= 1
    ensures IsStarting(ws[w]) ==> Count(ws, IsStarting) >= 1
  {
    CountUpdate(ws, w, v, HasSlot);
    CountUpdate(ws, w, v, IsWaiting);
    CountUpdate(ws, w, v, IsStarting);
    CountUpdate(ws, w, v, IsAsleep);
    CountUpdate(ws, w, v, IsGone);
    CountAll(ws, IsAsleep);
    CountZero(ws, HasSlot);
    CountZero(ws, IsStarting);
  }

  /** Threads that are only woken keep their slots and stay in the wait until they get the lock. */
  ghost predicate OnlyWoken(ws: seq<Worker>, vs: seq<Worker>) {
    && |ws| == |vs|
    && forall i :: 0 <= i < |ws| ==> vs[i] == ws[i] || (ws[i].pc.Asleep? && vs[i] == ws[i].(pc := Signalled))
  }

  lemma WokenCounts(ws: seq<Worker>, vs: seq<Worker>)
    requires OnlyWoken(ws, vs)
    ensures Count(vs, HasSlot) == Count(ws, HasSlot)
    ensures Count(vs, IsWaiting) == Count(ws, IsWaiting)
    ensures Count(vs, IsStarting) == Count(ws, IsStarting)
    ensures Count(vs, IsGone) == Count(ws, IsGone)
    ensures Count(vs, IsAsleep) <= Count(ws, IsAsleep)
  {
    CountSame(vs, ws, HasSlot);
    CountSame(vs, ws, IsWaiting);
    CountSame(vs, ws, IsStarting);
    CountSame(vs, ws, IsGone);
    WokenAsleep(ws, vs);
  }

  lemma {:induction false} WokenAsleep(ws: seq<Worker>, vs: seq<Worker>)
    requires OnlyWoken(ws, vs)
    ensures Count(vs, IsAsleep) <= Count(ws, IsAsleep)
  {
    if ws != [] {
      WokenAsleep(ws[..|ws| - 1], vs[..|ws| - 1]);
    }
  }

  lemma WakeAllCounts(ws: seq<Worker>)
    ensures OnlyWoken(ws, WakeAll(ws)) && Count(WakeAll(ws), IsAsleep) == 0
  {
    CountZero(WakeAll(ws), IsAsleep);
  }

  lemma ProducerChange(ps: seq<Producer>, p: nat, v: Producer)
    requires p < |ps|
    ensures Count(ps[p := v], PWaiting) == Count(ps, PWaiting) - (if PWaiting(ps[p]) then 1 else 0) + (if PWaiting(v) then 1 else 0)
    ensures Count(ps[p := v], PIsAsleep) == Count(ps, PIsAsleep) - (if PIsAsleep(ps[p]) then 1 else 0) + (if PIsAsleep(v) then 1 else 0)
    ensures Count(ps[p := v], PAwake) == Count(ps, PAwake) - (if PAwake(ps[p]) then 1 else 0) + (if PAwake(v) then 1 else 0)
    ensures PAwake(ps[p]) ==> Count(ps, PAwake) >= 1
  {
    CountUpdate(ps, p, v, PWaiting);
    CountUpdate(ps, p, v, PIsAsleep);
    CountUpdate(ps, p, v, PAwake);
    CountZero(ps, PAwake);
  }

  // ---------------------------------------------------------------------------
  // Claims

  /** A claim's signal to the producers, which need not find one. */
  lemma SignalSpaceKeeps(c: Config, s: State, queued: nat, pick: Option<nat>)
    requires PickSpaceOk(c, s, queued, pick) && s.spaceWaiters == Count(s.producers, PWaiting)
    requires forall p :: 0 <= p < |s.producers| ==> ProducerOk(s.producers[p])
    requires s.done ==> forall p :: 0 <= p < |s.producers| ==> s.producers[p] == PDone
    ensures var s' := SignalSpace(s, pick);
            && s' == s.(producers := s'.producers)
            && s'.spaceWaiters == Count(s'.producers, PWaiting)
            && (forall p :: 0 <= p < |s'.producers| ==> ProducerOk(s'.producers[p]))
            && (s.done ==> forall p :: 0 <= p < |s'.producers| ==> s'.producers[p] == PDone)
            && Count(s'.producers, PIsAsleep) <= Count(s.producers, PIsAsleep)
            && (c.maxQueued - queued >= WakeMin(c) && Count(s.producers, PIsAsleep) > 0 ==> Count(s'.producers, PAwake) > 0)
            && Count(s'.producers, PAwake) >= Count(s.producers, PAwake)
  {
    CountMonotone(s.producers, PIsAsleep, PWaiting);
    if pick.Some? {
      ProducerChange(s.producers, pick.value, PSignalled(s.producers[pick.value].rest));
    } else {
      CountZero(s.producers, PIsAsleep);
    }
  }

  lemma WakeMinFits(c: Config)
    requires ConfigOk(c)
    ensures 1 <= WakeMin(c) <= c.maxQueued
  {
  }

  /** What a claim leaves alone: only worker w and, maybe, one parked producer change. */
  ghost predicate ClaimFrame(c: Config, s: State, s': State, w: nat, v: Worker) {
    && w < |s.workers| && s'.workers == s.workers[w := v]
    && s'.queueWaiters == s.queueWaiters - (if s.workers[w].pc == Signalled then 1 else 0)
    && s'.running == s.running && s'.done == s.done && s'.spaceWaiters == Count(s'.producers, PWaiting)
    && s'.smallActive == s.smallActive - (if s.workers[w].slot then 1 else 0) + (if v.slot then 1 else 0)
    && s'.largeActive == s.largeActive + (if v.pc.Starting? then 1 else 0)
    && (forall p :: 0 <= p < |s'.producers| ==> ProducerOk(s'.producers[p]))
    && (s.done ==> forall p :: 0 <= p < |s'.producers| ==> s'.producers[p] == PDone)
    && (s.workers[w].pc == Ready || s.workers[w].pc == Signalled)
    && (v.pc == Ready || v.pc.Starting?) && WorkerOk(v)
  }

  lemma ClaimThreads(c: Config, s: State, s': State, w: nat, v: Worker)
    requires ConfigOk(c) && CountersOk(c, s) && ThreadsOk(s) && ClaimFrame(c, s, s', w, v)
    ensures CountersOk(c, s') && ThreadsOk(s') && Count(s'.workers, IsAsleep) < c.workers
    ensures Count(s'.workers, IsGone) == Count(s.workers, IsGone)
  {
    WorkerChange(s.workers, w, v);
    WorkerChange(s'.workers, w, v);
  }

  /** The parts of the invariant about who sleeps, after a claim of some work. */
  lemma ClaimRest(c: Config, s: State, s': State, w: nat, v: Worker)
    requires ConfigOk(c) && Inv(c, s) && ClaimFrame(c, s, s', w, v) && HasWork(s)
    requires s'.smallActive + s'.largeActive > 0
    requires Count(s'.producers, PIsAsleep) > 0 && !HasWork(s') ==> Count(s'.producers, PAwake) > 0
    ensures GoneOk(s') && NotStranded(c, s') && NoneLeftAsleep(s') && ProducersServed(s')
  {
    ClaimThreads(c, s, s', w, v);
  }

  lemma ClaimLargeFrame(c: Config, s: State, w: nat, k: nat, pick: Option<nat>)
    requires ConfigOk(c) && Inv(c, s) && EnterOk(c, s, w, k, pick) && LargeOpen(c, s)
    ensures var s' := DoEnter(c, s, w, k, pick);
            && ClaimFrame(c, s, s', w, Worker(Starting(s.heap[k].task), [], s.workers[w].slot))
            && s'.queue == s.queue && |s'.heap| == |s.heap| - 1 && s'.nextId == s.nextId
            && (Count(s'.producers, PIsAsleep) > 0 && !HasWork(s') ==> Count(s'.producers, PAwake) > 0)
  {
    var s', v := DoEnter(c, s, w, k, pick), Worker(Starting(s.heap[k].task), [], s.workers[w].slot);
    assert WorkerOk(s.workers[w]);
    var s2 := LeaveWait(s, w).(heap := Without(s.heap, k), largeActive := s.largeActive + 1,
                               dispatched := s.dispatched + multiset{s.heap[k].task}, workers := s.workers[w := v]);
    assert s' == SignalSpace(s2, pick);
    SignalSpaceKeeps(c, s2, Len(s.queue) + |s.heap| - 1, pick);
    WakeMinFits(c);
  }

  lemma ClaimLargeInv(c: Config, s: State, w: nat, k: nat, pick: Option<nat>)
    requires ConfigOk(c) && Inv(c, s) && EnterOk(c, s, w, k, pick) && LargeOpen(c, s)
    ensures Inv(c, DoEnter(c, s, w, k, pick))
  {
    var s', v := DoEnter(c, s, w, k, pick), Worker(Starting(s.heap[k].task), [], s.workers[w].slot);
    ClaimLargeFrame(c, s, w, k, pick);
    LargeClaimed(c, s, s', w, v);
  }

  lemma LargeClaimed(c: Config, s: State, s': State, w: nat, v: Worker)
    requires ConfigOk(c) && Inv(c, s) && LargeOpen(c, s) && ClaimFrame(c, s, s', w, v)
    requires v.pc.Starting? && v.slot == s.workers[w].slot
    requires s'.queue == s.queue && |s'.heap| == |s.heap| - 1 && s'.nextId == s.nextId
    requires Count(s'.producers, PIsAsleep) > 0 && !HasWork(s') ==> Count(s'.producers, PAwake) > 0
    ensures Inv(c, s')
  {
    ClaimThreads(c, s, s', w, v);
    assert Used(c, s') == Used(c, s) + c.large;
    ClaimRest(c, s, s', w, v);
  }

  lemma ClaimedIds(q: seq<Batch>, n: nat)
    requires QueueOk(q) && q != [] && DistinctIds(q) && forall i :: 0 <= i < |q| ==> q[i].id < n
    ensures QueueOk(Claimed(q)) && DistinctIds(Claimed(q)) && forall i :: 0 <= i < |Claimed(q)| ==> Claimed(q)[i].id < n
  {
    OpKeepsDistinct(q, Op.Take);
  }

  lemma ClaimSmallFrame(c: Config, s: State, w: nat, k: nat, pick: Option<nat>)
    requires ConfigOk(c) && Inv(c, s) && EnterOk(c, s, w, k, pick) && !LargeOpen(c, s) && SmallOpen(c, s, w)
    ensures var s' := DoEnter(c, s, w, k, pick);
            && ClaimFrame(c, s, s', w, Worker(Ready, Run(s.queue), true))
            && s'.queue == Claimed(s.queue) && s'.heap == s.heap && s'.nextId == s.nextId
            && (Count(s'.producers, PIsAsleep) > 0 && !HasWork(s') ==> Count(s'.producers, PAwake) > 0)
  {
    var s', v := DoEnter(c, s, w, k, pick), Worker(Ready, Run(s.queue), true);
    assert WorkerOk(s.workers[w]);
    var s2 := LeaveWait(s, w).(queue := Claimed(s.queue), workers := s.workers[w := v],
                               smallActive := if s.workers[w].slot then s.smallActive else s.smallActive + 1);
    assert s' == SignalSpace(s2, pick);
    SignalSpaceKeeps(c, s2, Len(s.queue[1..]) + |s.heap|, pick);
    WakeMinFits(c);
    if Claimed(s.queue) == [] {
      assert s.queue[1..] == [];
    }
  }

  lemma ClaimSmallInv(c: Config, s: State, w: nat, k: nat, pick: Option<nat>)
    requires ConfigOk(c) && Inv(c, s) && EnterOk(c, s, w, k, pick) && !LargeOpen(c, s) && SmallOpen(c, s, w)
    ensures Inv(c, DoEnter(c, s, w, k, pick))
  {
    var s', v := DoEnter(c, s, w, k, pick), Worker(Ready, Run(s.queue), true);
    ClaimSmallFrame(c, s, w, k, pick);
    ClaimKeepsFiles(s.queue);
    ClaimedIds(s.queue, s.nextId);
    SmallClaimed(c, s, s', w, v);
  }

  lemma SmallClaimed(c: Config, s: State, s': State, w: nat, v: Worker)
    requires ConfigOk(c) && Inv(c, s) && ClaimFrame(c, s, s', w, v) && SmallOpen(c, s, w)
    requires v.pc == Ready && v.slot
    requires s'.heap == s.heap && s'.nextId == s.nextId && Len(s'.queue) <= Len(s.queue)
    requires QueueOk(s'.queue) && DistinctIds(s'.queue) && forall i :: 0 <= i < |s'.queue| ==> s'.queue[i].id < s.nextId
    requires Count(s'.producers, PIsAsleep) > 0 && !HasWork(s') ==> Count(s'.producers, PAwake) > 0
    ensures Inv(c, s')
  {
    ClaimThreads(c, s, s', w, v);
    WorkerChange(s.workers, w, v);
    ClaimRest(c, s, s', w, v);
  }

  /** Nobody is left to hold a slot when every worker is asleep. */
  lemma SleepersHoldNoSlot(c: Config, s: State)
    requires CountersOk(c, s) && ThreadsOk(s)
    requires Count(s.workers, IsAsleep) == c.workers
    ensures s.smallActive == 0 && Count(s.workers, IsStarting) == 0 && s.queueWaiters == c.workers
  {
    CountAll(s.workers, IsAsleep);
    CountZero(s.workers, HasSlot);
    CountZero(s.workers, IsStarting);
    CountAll(s.workers, IsWaiting);
    forall w | 0 <= w < |s.workers|
      ensures !HasSlot(s.workers[w])
    {
      assert WorkerOk(s.workers[w]);
    }
  }

  /** The last worker to park has looked at both queues with at most its own slot taken. */
  lemma LastToPark(c: Config, s: State, w: nat)
    requires ConfigOk(c) && CountersOk(c, s) && ThreadsOk(s) && w < |s.workers|
    requires !LargeOpen(c, s) && !SmallOpen(c, s, w)
    requires forall u :: 0 <= u < |s.workers| && u != w ==> IsAsleep(s.workers[u])
    requires s.largeActive == 0 && c.large < c.workers
    ensures !HasWork(s)
  {
    var ws := s.workers[w := Worker(Asleep, [], false)];
    WorkerChange(s.workers, w, Worker(Asleep, [], false));
    CountZero(ws, HasSlot);
    forall u | 0 <= u < |ws|
      ensures !HasSlot(ws[u])
    {
      assert WorkerOk(s.workers[u]);
    }
    assert s.smallActive <= 1;
  }

  lemma SlotBackCounts(c: Config, s: State, w: nat, ws: seq<Worker>, v: Worker, s': State)
    requires CountersOk(c, s) && w < |s.workers| && OnlyWoken(s.workers, ws) && (s.workers[w].pc == Ready || s.workers[w].pc == Signalled)
    requires s'.workers == ws[w := v] && !v.slot && (v.pc == Asleep || v.pc == Gone)
    requires s'.smallActive == s.smallActive - (if s.workers[w].slot then 1 else 0)
    requires s'.queueWaiters == s.queueWaiters - (if s.workers[w].pc == Signalled then 1 else 0) + (if v.pc == Asleep then 1 else 0)
    requires s'.largeActive == s.largeActive && s'.running == s.running
    requires s'.producers == s.producers && s'.spaceWaiters == s.spaceWaiters
    ensures CountersOk(c, s')
  {
    WokenCounts(s.workers, ws);
    WorkerChange(ws, w, v);
  }

  lemma SlotBack(c: Config, s: State, w: nat)
    requires ConfigOk(c) && Inv(c, s) && CanEnter(s, w)
    ensures var s' := ClaimNothing(LeaveWait(s, w), w);
            CountersOk(c, s') && SlotsOk(c, s')
  {
    var s' := ClaimNothing(LeaveWait(s, w), w);
    WakeAllCounts(s.workers);
    if s'.workers == s.workers[w := s'.workers[w]] {
      SlotBackCounts(c, s, w, s.workers, s'.workers[w], s');
    } else {
      SlotBackCounts(c, s, w, WakeAll(s.workers), s'.workers[w], s');
    }
  }

  lemma NothingThreads(c: Config, s: State, w: nat)
    requires ConfigOk(c) && Inv(c, s) && CanEnter(s, w)
    ensures ThreadsOk(ClaimNothing(LeaveWait(s, w), w))
  {
    var s' := ClaimNothing(LeaveWait(s, w), w);
    forall u | 0 <= u < |s'.workers|
      ensures WorkerOk(s'.workers[u])
    {
      assert WorkerOk(s.workers[u]);
    }
  }

  lemma ParkingStrandsNothing(c: Config, s: State, w: nat)
    requires ConfigOk(c) && Inv(c, s) && CanEnter(s, w) && !LargeOpen(c, s) && !SmallOpen(c, s, w)
    ensures NotStranded(c, ClaimNothing(LeaveWait(s, w), w))
  {
    var s' := ClaimNothing(LeaveWait(s, w), w);
    if c.large < c.workers && s'.largeActive == 0 && Count(s'.workers, IsAsleep) == c.workers {
      CountAll(s'.workers, IsAsleep);
      forall u | 0 <= u < |s.workers| && u != w
        ensures IsAsleep(s.workers[u])
      {
        assert IsAsleep(s'.workers[u]);
      }
      LastToPark(c, s, w);
    }
  }

  lemma NothingLeft(c: Config, s: State, w: nat)
    requires ConfigOk(c) && Inv(c, s) && CanEnter(s, w)
    ensures var s' := ClaimNothing(LeaveWait(s, w), w);
            GoneOk(s') && NoneLeftAsleep(s')
  {
    var s' := ClaimNothing(LeaveWait(s, w), w);
    var v := s'.workers[w];
    WakeAllCounts(s.workers);
    WokenCounts(s.workers, WakeAll(s.workers));
    WorkerChange(s.workers, w, v);
    WorkerChange(WakeAll(s.workers), w, v);
  }

  lemma ClaimNothingInv(c: Config, s: State, w: nat, k: nat, pick: Option<nat>)
    requires ConfigOk(c) && Inv(c, s) && EnterOk(c, s, w, k, pick) && !LargeOpen(c, s) && !SmallOpen(c, s, w)
    ensures Inv(c, DoEnter(c, s, w, k, pick))
  {
    SlotBack(c, s, w);
    NothingThreads(c, s, w);
    ParkingStrandsNothing(c, s, w);
    NothingLeft(c, s, w);
  }

  // ---------------------------------------------------------------------------
  // Other steps of workers and files

  /** A step of one worker that is awake before and after. */
  lemma AwakeStep(c: Config, s: State, w: nat, v: Worker, s': State)
    requires ConfigOk(c) && Inv(c, s) && w < |s.workers| && WorkerOk(v)
    requires s' == s.(workers := s.workers[w := v], running := s'.running, dispatched := s'.dispatched)
    requires var pc := s.workers[w].pc; pc == Ready || pc.Copying? || pc.Starting?
    requires v.pc == Ready || v.pc.Copying?
    requires v.slot == s.workers[w].slot
    requires s'.running == s.running + (if s.workers[w].pc.Starting? then 1 else 0)
    ensures Inv(c, s')
  {
    WorkerChange(s.workers, w, v);
  }

  /** A large file is over, or could not be started: its slots are free and every parked worker looks again. */
  lemma LargeOver(c: Config, s: State, s': State)
    requires ConfigOk(c) && Inv(c, s) && s.largeActive >= 1
    requires s' == s.(workers := s'.workers, largeActive := s.largeActive - 1, running := s'.running)
    requires CountersOk(c, s') && ThreadsOk(s') && Count(s'.workers, IsAsleep) == 0 && Count(s'.workers, IsGone) == Count(s.workers, IsGone)
    ensures Inv(c, s')
  {
  }

  lemma WakeAllOk(s: State)
    requires ThreadsOk(s)
    ensures forall w :: 0 <= w < |s.workers| ==> WorkerOk(WakeAll(s.workers)[w])
  {
    forall w | 0 <= w < |s.workers|
      ensures WorkerOk(WakeAll(s.workers)[w])
    {
      assert WorkerOk(s.workers[w]);
    }
  }

  lemma StartFailCounts(c: Config, s: State, w: nat)
    requires ConfigOk(c) && Inv(c, s) && Enabled(c, s, StartFail(w))
    ensures var s' := Apply(c, s, StartFail(w));
            && CountersOk(c, s') && Count(s'.workers, IsAsleep) == 0 && Count(s'.workers, IsGone) == Count(s.workers, IsGone)
            && s.largeActive >= 1
  {
    var ws, v := WakeAll(s.workers), s.workers[w].(pc := Ready);
    WakeAllCounts(s.workers);
    WokenCounts(s.workers, ws);
    WorkerChange(ws, w, v);
  }

  lemma StartFailInv(c: Config, s: State, w: nat)
    requires ConfigOk(c) && Inv(c, s) && Enabled(c, s, StartFail(w))
    ensures Inv(c, Apply(c, s, StartFail(w)))
  {
    StartFailCounts(c, s, w);
    assert WorkerOk(s.workers[w]);
    WakeAllOk(s);
    LargeOver(c, s, Apply(c, s, StartFail(w)));
  }

  lemma LargeDoneInv(c: Config, s: State)
    requires ConfigOk(c) && Inv(c, s) && Enabled(c, s, LargeDone)
    ensures Inv(c, Apply(c, s, LargeDone))
  {
    WakeAllCounts(s.workers);
    WokenCounts(s.workers, WakeAll(s.workers));
    WakeAllOk(s);
    LargeOver(c, s, Apply(c, s, LargeDone));
  }

  lemma StopInv(c: Config, s: State)
    requires ConfigOk(c) && Inv(c, s) && Enabled(c, s, Stop)
    ensures Inv(c, Apply(c, s, Stop))
  {
    WakeAllCounts(s.workers);
    WokenCounts(s.workers, WakeAll(s.workers));
    WakeAllOk(s);
  }

  lemma WakeWorkerInv(c: Config, s: State, w: nat)
    requires ConfigOk(c) && Inv(c, s) && Enabled(c, s, WakeWorker(w))
    ensures Inv(c, Apply(c, s, WakeWorker(w)))
  {
    assert WorkerOk(s.workers[w]);
    WorkerChange(s.workers, w, s.workers[w].(pc := Signalled));
  }

  lemma ProducerStep(c: Config, s: State, p: nat, v: Producer, s': State)
    requires ConfigOk(c) && Inv(c, s) && p < |s.producers| && ProducerOk(v)
    requires s' == s.(producers := s.producers[p := v])
    requires s.producers[p] == PIdle || s.producers[p].PAsleep?
    requires if s.producers[p] == PIdle then v.PPushing? || v == PDone else v.PSignalled?
    ensures Inv(c, s')
  {
    ProducerChange(s.producers, p, v);
  }

  // ---------------------------------------------------------------------------
  // Pushes

  lemma {:induction false} SliceSizes(items: seq<Item>)
    ensures |SmallTasks(items)| + |LargeEntries(items)| == |items|
  {
    if items != [] {
      SliceSizes(items[1..]);
    }
  }

  lemma PushedLen(s: State, slice: seq<Item>)
    requires slice != []
    ensures HasWork(Pushed(s, slice)) && Queued(Pushed(s, slice)) == Queued(s) + |slice|
  {
    SliceSizes(slice);
    LenAppend(s.queue, Batch(s.nextId, 0, SmallTasks(slice)));
  }

  lemma AppendedIds(q: seq<Batch>, b: Batch, n: nat)
    requires QueueOk(q) && DistinctIds(q) && BatchOk(b) && b.id == n && forall i :: 0 <= i < |q| ==> q[i].id < n
    ensures QueueOk(q + [b]) && DistinctIds(q + [b]) && forall i :: 0 <= i < |q + [b]| ==> (q + [b])[i].id < n + 1
  {
  }

  lemma PushedQueues(c: Config, s: State, slice: seq<Item>)
    requires QueuesOk(c, s) && |slice| <= Room(c, s) && slice != []
    ensures QueuesOk(c, Pushed(s, slice)) && HasWork(Pushed(s, slice))
    ensures Queued(Pushed(s, slice)) == Queued(s) + |slice|
  {
    PushedLen(s, slice);
    if SmallTasks(slice) != [] {
      AppendedIds(s.queue, Batch(s.nextId, 0, SmallTasks(slice)), s.nextId);
    }
  }

  lemma SomeWake(c: Config, s: State)
    requires ConfigOk(c) && QueueOk(s.queue) && HasWork(s)
    requires s.largeActive == 0 && s.smallActive == 0 && s.queueWaiters == c.workers
    ensures Wakes(c, s) >= 1
  {
    LenPositive(s.queue);
    if s.heap != [] {
      assert c.workers / c.large >= 1;
    }
  }

  lemma PickedWoken(ws: seq<Worker>, wakes: int, picks: seq<nat>)
    requires PicksOk(ws, wakes, picks)
    ensures OnlyWoken(ws, SignalWorkers(ws, picks))
    ensures wakes >= 1 && Count(ws, IsAsleep) == |ws| > 0 ==> Count(SignalWorkers(ws, picks), IsAsleep) < |ws|
  {
    var vs := SignalWorkers(ws, picks);
    if wakes >= 1 && Count(ws, IsAsleep) == |ws| > 0 {
      var w := picks[0];
      assert w in picks && !IsAsleep(vs[w]);
      CountAll(vs, IsAsleep);
    }
  }

  lemma PushWaits(c: Config, s0: State, p: nat)
    requires ConfigOk(c) && Inv(c, s0) && CanPush(s0, p)
    requires MustWait(c, LeaveSpaceWait(s0, p), |s0.producers[p].rest|)
    ensures Inv(c, Apply(c, s0, Push(p, [])))
  {
    var rest := s0.producers[p].rest;
    assert ProducerOk(s0.producers[p]);
    ProducerChange(s0.producers, p, PAsleep(rest));
    WakeMinFits(c);
    LenPositive(s0.queue);
    assert Queued(s0) > 0;
  }

  /** The invariant about threads after a slice has been pushed by producer p and some workers signalled. */
  lemma PushThreads(c: Config, s0: State, p: nat, picks: seq<nat>, v: Producer)
    requires ConfigOk(c) && Inv(c, s0) && PushOk(c, s0, p, picks)
    requires !MustWait(c, LeaveSpaceWait(s0, p), |s0.producers[p].rest|)
    requires v == PIdle || (v.PPushing? && v.rest != [])
    ensures var s' := DoPush(c, s0, p, picks).(producers := s0.producers[p := v]);
            CountersOk(c, s') && ThreadsOk(s') && SlotsOk(c, s') && Count(s'.workers, IsGone) == Count(s0.workers, IsGone)
  {
    var s := LeaveSpaceWait(s0, p);
    var rest := s.producers[p].rest;
    PickedWoken(s.workers, Wakes(c, Pushed(s, rest[..SliceLen(c, s, |rest|)])), picks);
    WokenCounts(s.workers, SignalWorkers(s.workers, picks));
    ProducerChange(s.producers, p, v);
    forall w | 0 <= w < |s.workers|
      ensures WorkerOk(SignalWorkers(s.workers, picks)[w])
    {
      assert WorkerOk(s.workers[w]);
    }
  }

  lemma PushWakes(c: Config, s0: State, p: nat, picks: seq<nat>)
    requires ConfigOk(c) && Inv(c, s0) && PushOk(c, s0, p, picks)
    requires !MustWait(c, LeaveSpaceWait(s0, p), |s0.producers[p].rest|)
    ensures QueuesOk(c, DoPush(c, s0, p, picks)) && HasWork(DoPush(c, s0, p, picks))
    ensures NotStranded(c, DoPush(c, s0, p, picks))
  {
    var s := LeaveSpaceWait(s0, p);
    var rest := s.producers[p].rest;
    assert ProducerOk(s0.producers[p]);
    WakeMinFits(c);
    var slice := rest[..SliceLen(c, s, |rest|)];
    PushedQueues(c, s, slice);
    var t := Pushed(s, slice);
    PickedWoken(s.workers, Wakes(c, t), picks);
    WokenCounts(s.workers, SignalWorkers(s.workers, picks));
    if s.largeActive == 0 && Count(s.workers, IsAsleep) == c.workers {
      SleepersHoldNoSlot(c, s0);
      SomeWake(c, t);
    } else {
      CountAll(s.workers, IsAsleep);
    }
  }

  lemma PushInv(c: Config, s0: State, p: nat, picks: seq<nat>)
    requires ConfigOk(c) && Inv(c, s0) && PushOk(c, s0, p, picks)
    ensures Inv(c, DoPush(c, s0, p, picks))
  {
    if MustWait(c, LeaveSpaceWait(s0, p), |s0.producers[p].rest|) {
      PushWaits(c, s0, p);
    } else {
      var s' := DoPush(c, s0, p, picks);
      PushThreads(c, s0, p, picks, s'.producers[p]);
      PushWakes(c, s0, p, picks);
      assert !s0.done;
      hide CountersOk, SlotsOk, ThreadsOk, QueuesOk, NotStranded, Wakes, PicksOk;
    }
  }

  lemma InitInv(c: Config, producers: nat)
    requires ConfigOk(c)
    ensures Inv(c, Init(c, producers))
  {
    var s := Init(c, producers);
    CountZero(s.workers, HasSlot);
    CountZero(s.workers, IsWaiting);
    CountZero(s.workers, IsStarting);
    CountZero(s.workers, IsAsleep);
    CountZero(s.workers, IsGone);
    CountZero(s.producers, PWaiting);
    CountZero(s.producers, PIsAsleep);
  }

  lemma WorkerStepInv(c: Config, s: State, step: Step)
    requires ConfigOk(c) && Inv(c, s) && Enabled(c, s, step) && (step.Dispatch? || step.Finish? || step.StartOk?)
    ensures Inv(c, Apply(c, s, step))
  {
    assert WorkerOk(s.workers[step.w]);
    var s' := Apply(c, s, step);
    AwakeStep(c, s, step.w, s'.workers[step.w], s');
  }

  lemma StepInv(c: Config, s: State, step: Step)
    requires ConfigOk(c) && Inv(c, s) && Enabled(c, s, step)
    ensures Inv(c, Apply(c, s, step))
  {
    match step
    case Dispatch(w) => WorkerStepInv(c, s, step);
    case Finish(w) => WorkerStepInv(c, s, step);
    case StartOk(w) => WorkerStepInv(c, s, step);
    case Enter(w, k, pick) =>
      if LargeOpen(c, s) {
        ClaimLargeInv(c, s, w, k, pick);
      } else if SmallOpen(c, s, w) {
        ClaimSmallInv(c, s, w, k, pick);
      } else {
        ClaimNothingInv(c, s, w, k, pick);
      }
    case StartFail(w) => StartFailInv(c, s, w);
    case LargeDone => LargeDoneInv(c, s);
    case NewItems(p, items) => ProducerStep(c, s, p, PPushing(items), Apply(c, s, step));
    case Push(p, picks) => PushInv(c, s, p, picks);
    case Retire(p) => ProducerStep(c, s, p, PDone, Apply(c, s, step));
    case Stop => StopInv(c, s);
    case WakeWorker(w) => WakeWorkerInv(c, s, w);
    case WakeProducer(p) =>
      assert ProducerOk(s.producers[p]);
      ProducerStep(c, s, p, PSignalled(s.producers[p].rest), Apply(c, s, step));
  }

  /** The invariant holds at every moment of every run. */
  lemma {:induction false} RunInv(c: Config, producers: nat, ss: seq<State>, steps: seq<Step>, t: nat)
    requires ConfigOk(c) && IsRun(c, producers, ss, steps) && t < |ss|
    ensures Inv(c, ss[t])
    decreases t
  {
    if t == 0 {
      InitInv(c, producers);
    } else {
      RunInv(c, producers, ss, steps, t - 1);
      var step := steps[t - 1];
      StepInv(c, ss[t - 1], step);
    }
  }
}
