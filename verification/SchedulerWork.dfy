/**
 The copy scheduler wastes no slot that it could use: when a worker gets the lock it claims whatever
 the slots allow, a push wakes as many workers as can claim something, and as long as a small file is
 queued and large files leave a slot free, some worker is awake.
 */
module SchedulerWork {
  import opened Counting
  import opened DirQueue
  import opened Scheduler
  import opened SchedulerProof

  function Slots(s: State): nat { Count(s.workers, HasSlot) }

  /** Slots in use: one per thread that copies small files, c.large per large file. */
  function Busy(c: Config, s: State): int { Slots(s) + s.largeActive * c.large }

  lemma BusyIsUsed(c: Config, s: State)
    requires CountersOk(c, s) && s.largeActive >= 0
    ensures Used(c, s) == Busy(c, s) && s.smallActive == Slots(s)
  {
    TimesIsProduct(s.largeActive, c.large);
  }

  lemma LargeCounts(c: Config, s: State)
    requires CountersOk(c, s)
    ensures s.largeActive >= 0
  {
  }

  // ---------------------------------------------------------------------------
  // What a worker does with the lock

  /** A large file may start: one is queued, not too many are active, and its slots are free. */
  ghost predicate LargeFits(c: Config, s: State) {
    s.heap != [] && s.largeActive < c.maxLarge && Busy(c, s) + c.large <= c.workers
  }

  /** Small files may be claimed: some are queued, and the worker has a slot or may take a free one. */
  ghost predicate SmallFits(c: Config, s: State, w: nat)
    requires w < |s.workers|
  {
    s.queue != [] && (s.workers[w].slot || (Slots(s) < c.smallLimit && Busy(c, s) < c.workers))
  }

  /** The last of the work: nothing is queued, no large file is active, and no other worker has a slot. */
  ghost predicate AllOver(s: State, w: nat)
    requires w < |s.workers|
  {
    s.done && s.queue == [] && s.heap == [] && s.largeActive == 0 && Slots(s) == (if s.workers[w].slot then 1 else 0)
  }

  lemma EnterOutcome(c: Config, s: State, w: nat, k: nat, pick: Option<nat>)
    requires ConfigOk(c) && Inv(c, s) && EnterOk(c, s, w, k, pick)
    ensures var s' := DoEnter(c, s, w, k, pick);
            |s'.workers| == |s.workers| &&
            match s'.workers[w].pc
            case Starting(task) =>
              && LargeFits(c, s) && k < |s.heap| && task == s.heap[k].task && s'.queue == s.queue
              && forall i :: 0 <= i < |s.heap| ==> s.heap[i].key <= s.heap[k].key
            case Ready => !LargeFits(c, s) && SmallFits(c, s, w) && s'.workers[w].stash == Run(s.queue) && s'.heap == s.heap
            case Gone => !LargeFits(c, s) && !SmallFits(c, s, w) && AllOver(s, w)
            case Asleep => !LargeFits(c, s) && !SmallFits(c, s, w) && !AllOver(s, w)
            case _ => false
  {
    LargeCounts(c, s);
    BusyIsUsed(c, s);
    assert WorkerOk(s.workers[w]);
    hide Count, Inv;
  }

  /**
   Over all runs: a worker that gets the lock starts a large file if its slots are free, else takes
   small files if it has a slot or may take one, else returns if all is over, else parks.
   */
  lemma ClaimsWhenItCan(c: Config, producers: nat, ss: seq<State>, steps: seq<Step>, t: nat)
    requires ConfigOk(c) && IsRun(c, producers, ss, steps) && t < |steps| && steps[t].Enter?
    ensures var s, s', w := ss[t], ss[t + 1], steps[t].w;
            && w < |s.workers| == |s'.workers|
            && (s'.workers[w].pc.Starting? <==> LargeFits(c, s))
            && (s'.workers[w].pc == Ready <==> !LargeFits(c, s) && SmallFits(c, s, w))
            && (s'.workers[w].pc == Gone <==> !LargeFits(c, s) && !SmallFits(c, s, w) && AllOver(s, w))
            && (s'.workers[w].pc == Asleep <==> !LargeFits(c, s) && !SmallFits(c, s, w) && !AllOver(s, w))
  {
    RunInv(c, producers, ss, steps, t);
    var step := steps[t];
    EnterOutcome(c, ss[t], step.w, step.k, step.pick);
    hide Inv, DoEnter, LargeFits, SmallFits, AllOver;
  }

  /**
   A worker that has parked leaves no small file queued while a slot is free, and no large one, unless
   it is the slot that the worker gave back which makes the room.
   */
  lemma ParksOnlyWhenFull(c: Config, producers: nat, ss: seq<State>, steps: seq<Step>, t: nat)
    requires ConfigOk(c) && IsRun(c, producers, ss, steps) && t < |steps| && steps[t].Enter?
    requires steps[t].w < |ss[t + 1].workers| && ss[t + 1].workers[steps[t].w].pc == Asleep
    ensures var s, s' := ss[t], ss[t + 1];
            && (s'.queue == [] || Slots(s') == c.smallLimit || Busy(c, s') == c.workers)
            && (s'.heap == [] || s'.largeActive == c.maxLarge || Busy(c, s') + c.large > c.workers - (Slots(s) - Slots(s')))
            && Slots(s) - Slots(s') == (if steps[t].w < |s.workers| && s.workers[steps[t].w].slot then 1 else 0)
  {
    ClaimsWhenItCan(c, producers, ss, steps, t);
    RunInv(c, producers, ss, steps, t);
    RunInv(c, producers, ss, steps, t + 1);
    var s, s', step := ss[t], ss[t + 1], steps[t];
    LargeCounts(c, s);
    BusyIsUsed(c, s);
    LargeCounts(c, s');
    BusyIsUsed(c, s');
    ParkKeeps(c, s, step.w, step.k, step.pick);
  }

  lemma ParkKeeps(c: Config, s: State, w: nat, k: nat, pick: Option<nat>)
    requires EnterOk(c, s, w, k, pick) && DoEnter(c, s, w, k, pick).workers[w].pc == Asleep
    ensures var s' := DoEnter(c, s, w, k, pick);
            && s'.queue == s.queue && s'.heap == s.heap && s'.largeActive == s.largeActive
            && s'.smallActive == s.smallActive - (if s.workers[w].slot then 1 else 0)
  {
  }

  // ---------------------------------------------------------------------------
  // Somebody is awake

  /** A small file is queued and large files leave a slot free: not all workers are asleep. */
  ghost predicate Attended(c: Config, s: State) {
    s.queue != [] && Times(s.largeActive, c.large) < c.workers ==> Count(s.workers, IsAsleep) < c.workers
  }

  lemma AwakeAttends(c: Config, s: State, w: nat)
    requires |s.workers| == c.workers && w < c.workers && !IsAsleep(s.workers[w])
    ensures Attended(c, s)
  {
    CountAll(s.workers, IsAsleep);
  }

  /** The last worker to park has seen the queue empty, or all slots taken by large files. */
  lemma ParkAttends(c: Config, s: State, w: nat)
    requires ConfigOk(c) && Inv(c, s) && CanEnter(s, w) && !SmallOpen(c, s, w)
    ensures Attended(c, ClaimNothing(LeaveWait(s, w), w))
  {
    var s' := ClaimNothing(LeaveWait(s, w), w);
    if s'.queue != [] && Times(s.largeActive, c.large) < c.workers {
      assert !s.workers[w].slot && s.smallActive > 0;
      CountZero(s.workers, HasSlot);
      var u :| 0 <= u < |s.workers| && HasSlot(s.workers[u]);
      assert WorkerOk(s.workers[u]) && u != w;
      AwakeAttends(c, s', u);
    }
  }

  lemma FreeSlotWakes(c: Config, s: State)
    requires ConfigOk(c) && QueueOk(s.queue) && s.queue != []
    requires s.largeActive >= 0 && Times(s.largeActive, c.large) < c.workers && s.smallActive == 0 && s.queueWaiters == c.workers
    ensures Wakes(c, s) >= 1
  {
    LenPositive(s.queue);
  }

  lemma PushAttends(c: Config, s0: State, p: nat, picks: seq<nat>)
    requires ConfigOk(c) && Inv(c, s0) && PushOk(c, s0, p, picks) && Attended(c, s0)
    ensures Attended(c, DoPush(c, s0, p, picks))
  {
    var s := LeaveSpaceWait(s0, p);
    var rest := s.producers[p].rest;
    assert ProducerOk(s0.producers[p]);
    if !MustWait(c, s, |rest|) {
      WakeMinFits(c);
      var slice := rest[..SliceLen(c, s, |rest|)];
      PushedQueues(c, s, slice);
      var t := Pushed(s, slice);
      PickedWoken(s.workers, Wakes(c, t), picks);
      if t.queue != [] && Times(t.largeActive, c.large) < c.workers {
        if Count(s.workers, IsAsleep) == c.workers {
          SleepersHoldNoSlot(c, s0);
          FreeSlotWakes(c, t);
        } else {
          WokenCounts(s.workers, SignalWorkers(s.workers, picks));
        }
      }
    }
  }

  lemma StepAttends(c: Config, s: State, step: Step)
    requires ConfigOk(c) && Inv(c, s) && Enabled(c, s, step) && Attended(c, s)
    ensures Attended(c, Apply(c, s, step))
  {
    hide Inv, Count, Attended;
    var s' := Apply(c, s, step);
    match step
    case Enter(w, k, pick) => EnterAttends(c, s, w, k, pick);
    case Push(p, picks) => PushAttends(c, s, p, picks);
    case Dispatch(w) => StaysAwake(c, s, s', w);
    case Finish(w) => StaysAwake(c, s, s', w);
    case StartOk(w) => StaysAwake(c, s, s', w);
    case WakeWorker(w) => StaysAwake(c, s, s', w);
    case StartFail(w) => StaysAwake(c, s, s', w);
    case LargeDone => AllAwake(c, s, s');
    case Stop => AllAwake(c, s, s');
    case NewItems(_, _) => SameAttended(c, s, s');
    case Retire(_) => SameAttended(c, s, s');
    case WakeProducer(_) => SameAttended(c, s, s');
  }

  lemma EnterAttends(c: Config, s: State, w: nat, k: nat, pick: Option<nat>)
    requires ConfigOk(c) && Inv(c, s) && EnterOk(c, s, w, k, pick)
    ensures Attended(c, DoEnter(c, s, w, k, pick))
  {
    if LargeOpen(c, s) {
      AwakeAttends(c, DoEnter(c, s, w, k, pick), w);
    } else if SmallOpen(c, s, w) {
      AwakeAttends(c, DoEnter(c, s, w, k, pick), w);
    } else {
      ParkAttends(c, s, w);
    }
  }

  lemma StaysAwake(c: Config, s: State, s': State, w: nat)
    requires Inv(c, s) && |s'.workers| == |s.workers| && w < |s.workers| && !IsAsleep(s'.workers[w])
    ensures Attended(c, s')
  {
    AwakeAttends(c, s', w);
  }

  lemma AllAwake(c: Config, s: State, s': State)
    requires ConfigOk(c) && Inv(c, s) && s'.workers == WakeAll(s.workers)
    ensures Attended(c, s')
  {
    WakeAllCounts(s.workers);
  }

  lemma SameAttended(c: Config, s: State, s': State)
    requires Attended(c, s) && s'.workers == s.workers && s'.queue == s.queue && s'.largeActive == s.largeActive
    ensures Attended(c, s')
  {
  }

  lemma {:induction false} RunAttends(c: Config, producers: nat, ss: seq<State>, steps: seq<Step>, t: nat)
    requires ConfigOk(c) && IsRun(c, producers, ss, steps) && t < |ss|
    ensures Attended(c, ss[t])
    decreases t
  {
    if t > 0 {
      RunAttends(c, producers, ss, steps, t - 1);
      RunInv(c, producers, ss, steps, t - 1);
      var step := steps[t - 1];
      hide Inv, Attended, Enabled, Apply;
      StepAttends(c, ss[t - 1], step);
    }
  }

  /**
   At every moment of every run, whatever large files are active and also when one of them takes all
   slots: while a small file is queued and large files leave a slot free, some worker is awake.
   */
  lemma SomebodyIsAwake(c: Config, producers: nat, ss: seq<State>, steps: seq<Step>, t: nat)
    requires ConfigOk(c) && IsRun(c, producers, ss, steps) && t < |ss|
    requires ss[t].queue != [] && ss[t].largeActive * c.large < c.workers
    ensures exists w :: 0 <= w < |ss[t].workers| && ss[t].workers[w].pc != Asleep && ss[t].workers[w].pc != Gone
  {
    var s := ss[t];
    RunInv(c, producers, ss, steps, t);
    RunAttends(c, producers, ss, steps, t);
    TimesIsProduct(s.largeActive, c.large);
    CountAll(s.workers, IsAsleep);
    CountZero(s.workers, IsGone);
    var w :| 0 <= w < |s.workers| && !IsAsleep(s.workers[w]);
    assert !IsGone(s.workers[w]);
  }

  // ---------------------------------------------------------------------------
  // What a traversal thread does with the lock

  /** Free room for which a parked traversal thread is woken: a quarter of the bound, within 1 and 1024. */
  lemma WakeMinIsQuarter(c: Config)
    ensures 1 <= WakeMin(c) <= 1024
    ensures WakeMin(c) == 1 || 4 * WakeMin(c) <= c.maxQueued
    ensures WakeMin(c) == 1024 || c.maxQueued < 4 * (WakeMin(c) + 1)
  {
  }

  /** What producer p has done to the queues in its lock hold. */
  ghost predicate PushedFirst(c: Config, s: State, s': State, p: nat, rest: seq<Item>)
    requires p < |s'.producers|
  {
    match s'.producers[p]
    case PAsleep(rest') =>
      && rest' == rest && s'.queue == s.queue && s'.heap == s.heap
      && Queued(s) + |rest| > c.maxQueued && Queued(s) + WakeMin(c) > c.maxQueued
    case PIdle => Queued(s') == Queued(s) + |rest| && s'.pushed == s.pushed + Tasks(rest)
    case PPushing(rest') =>
      && |rest'| < |rest| && rest' == rest[|rest| - |rest'|..] && Queued(s') == c.maxQueued
      && s'.pushed == s.pushed + Tasks(rest[..|rest| - |rest'|])
    case _ => false
  }

  lemma PushParks(c: Config, s: State, p: nat, picks: seq<nat>)
    requires PushOk(c, s, p, picks) && MustWait(c, LeaveSpaceWait(s, p), |s.producers[p].rest|)
    ensures p < |DoPush(c, s, p, picks).producers| && PushedFirst(c, s, DoPush(c, s, p, picks), p, s.producers[p].rest)
  {
  }

  lemma SlicePushed(c: Config, s: State, p: nat, picks: seq<nat>, n: nat)
    requires PushOk(c, s, p, picks) && !MustWait(c, LeaveSpaceWait(s, p), |s.producers[p].rest|)
    requires n == SliceLen(c, LeaveSpaceWait(s, p), |s.producers[p].rest|) && n >= 1
    ensures var s', rest := DoPush(c, s, p, picks), s.producers[p].rest;
            && n <= |rest| && p < |s'.producers| && s'.producers[p] == (if n == |rest| then PIdle else PPushing(rest[n..]))
            && Queued(s') == Queued(s) + n && s'.pushed == s.pushed + Tasks(rest[..n])
  {
    var s1, rest := LeaveSpaceWait(s, p), s.producers[p].rest;
    PushedLen(s1, rest[..n]);
    hide Wakes, PicksOk, Len, SignalWorkers, Tasks, MustWait, SmallTasks, LargeEntries;
  }

  lemma PushSlice(c: Config, s: State, p: nat, picks: seq<nat>)
    requires ConfigOk(c) && PushOk(c, s, p, picks) && !MustWait(c, LeaveSpaceWait(s, p), |s.producers[p].rest|)
    requires s.producers[p].rest != [] && Queued(s) <= c.maxQueued
    ensures p < |DoPush(c, s, p, picks).producers| && PushedFirst(c, s, DoPush(c, s, p, picks), p, s.producers[p].rest)
  {
    var rest := s.producers[p].rest;
    WakeMinFits(c);
    var n := SliceLen(c, LeaveSpaceWait(s, p), |rest|);
    assert n >= 1 && (n == |rest| || n == c.maxQueued - Queued(s));
    hide DoPush, PushOk, MustWait, SliceLen, Queued, Tasks, WakeMin;
    SlicePushed(c, s, p, picks, n);
    assert rest[..|rest|] == rest;
  }

  /**
   A traversal thread parks only when neither all its files fit nor a quarter of the bound is free;
   otherwise it pushes all its files, or the first ones until the queues are full.
   */
  lemma PushFills(c: Config, s: State, p: nat, picks: seq<nat>)
    requires ConfigOk(c) && Inv(c, s) && PushOk(c, s, p, picks)
    ensures p < |DoPush(c, s, p, picks).producers| && PushedFirst(c, s, DoPush(c, s, p, picks), p, s.producers[p].rest)
  {
    assert ProducerOk(s.producers[p]);
    hide DoPush, PushedFirst;
    if MustWait(c, LeaveSpaceWait(s, p), |s.producers[p].rest|) {
      PushParks(c, s, p, picks);
    } else {
      PushSlice(c, s, p, picks);
    }
  }

  /** Room as a claim sees it: a claim of small files has taken the whole batch off the queue and not put its rest back yet. */
  function RoomSeen(c: Config, s: State, large: bool): int {
    c.maxQueued - Queued(s) + (if large || s.queue == [] then 1 else |Remaining(s.queue[0])|)
  }

  /** A claim wakes one parked traversal thread if it sees that a quarter of the bound is free, and else none. */
  lemma ClaimWakesProducer(c: Config, s: State, w: nat, k: nat, pick: Option<nat>)
    requires ConfigOk(c) && Inv(c, s) && EnterOk(c, s, w, k, pick) && (LargeFits(c, s) || SmallFits(c, s, w))
    ensures var asleep := Count(s.producers, PIsAsleep);
            Count(DoEnter(c, s, w, k, pick).producers, PIsAsleep) ==
              asleep - (if asleep > 0 && RoomSeen(c, s, LargeFits(c, s)) >= WakeMin(c) then 1 else 0)
  {
    InvFacts(c, s);
    BusyIsUsed(c, s);
    var queued := if LargeFits(c, s) then Len(s.queue) + |s.heap| - 1 else Len(s.queue[1..]) + |s.heap|;
    assert c.maxQueued - queued == RoomSeen(c, s, LargeFits(c, s));
    CountMonotone(s.producers, PIsAsleep, PWaiting);
    CountZero(s.producers, PIsAsleep);
    ProducersOnly(c, s, w, k, pick);
    hide DoEnter, EnterOk, Inv, WakeMin, Len;
    if pick.Some? {
      ProducerChange(s.producers, pick.value, PSignalled(s.producers[pick.value].rest));
    }
    hide Count;
  }

  lemma ProducersOnly(c: Config, s: State, w: nat, k: nat, pick: Option<nat>)
    requires Inv(c, s) && EnterOk(c, s, w, k, pick) && (LargeOpen(c, s) || SmallOpen(c, s, w))
    ensures PickSpaceOk(c, s, if LargeOpen(c, s) then Len(s.queue) + |s.heap| - 1 else Len(s.queue[1..]) + |s.heap|, pick)
    ensures DoEnter(c, s, w, k, pick).producers ==
              if pick.Some? then s.producers[pick.value := PSignalled(s.producers[pick.value].rest)] else s.producers
  {
  }

  /** As many small claims as free slots and queued files allow, at eight files a claim. */
  ghost predicate MostSmall(c: Config, queued: nat, slots: int, free: int, b: int) {
    && 0 <= b && (b > 0 ==> b <= free && b <= c.smallLimit - slots && 8 * (b - 1) < queued)
    && (b >= free || b >= c.smallLimit - slots || 8 * b >= queued)
  }

  /** As many large files as are queued, may be active and find their slots. */
  ghost predicate MostLarge(c: Config, queued: nat, active: int, free: int, a: int) {
    && 0 <= a && (a > 0 ==> a * c.large <= free && a <= c.maxLarge - active && a <= queued)
    && ((a + 1) * c.large > free || a >= c.maxLarge - active || a >= queued)
  }

  /** In this state a large and b small claims can be made, and no more. */
  ghost predicate CanClaim(c: Config, s: State, a: int, b: int) {
    && MostLarge(c, |s.heap|, s.largeActive, c.workers - Busy(c, s), a)
    && MostSmall(c, Len(s.queue), Slots(s), c.workers - Busy(c, s) - a * c.large, b)
  }

  lemma DividesMost(free: int, l: nat, a: int)
    requires l > 0 && 0 <= a <= free / l
    ensures a * l <= free && (a == free / l ==> (a + 1) * l > free)
  {
    assert free == free / l * l + free % l;
    assert a * l <= free / l * l by {
      MulLe(a, free / l, l);
    }
    if a == free / l {
      assert (a + 1) * l == free / l * l + l;
    }
  }

  lemma MulLe(x: int, y: int, l: nat)
    requires x <= y
    ensures x * l <= y * l
  {
    assert (y - x) * l >= 0;
    assert y * l == x * l + (y - x) * l;
  }

  lemma CeilEight(n: nat, q: nat)
    requires n == (q + CLAIM_BATCH - 1) / CLAIM_BATCH
    ensures 8 * n >= q && (n > 0 ==> 8 * (n - 1) < q)
  {
  }

  lemma LargeWakesMost(c: Config, s: State, free: int)
    requires ConfigOk(c) && free >= 0 && s.largeActive <= c.maxLarge
    ensures MostLarge(c, |s.heap|, s.largeActive, free, LargeWakes(c, s, free))
  {
    var a := LargeWakes(c, s, free);
    if s.heap != [] && s.largeActive < c.maxLarge && free >= c.large {
      DividesMost(free, c.large, a);
    }
  }

  lemma SmallWakesMost(c: Config, s: State, free: int)
    requires ConfigOk(c) && s.smallActive <= c.smallLimit
    ensures MostSmall(c, Len(s.queue), s.smallActive, free, SmallWakes(c, s, free))
  {
    CeilEight((Len(s.queue) + CLAIM_BATCH - 1) / CLAIM_BATCH, Len(s.queue));
    hide Len;
  }

  lemma WakesAreMost(c: Config, s: State)
    requires ConfigOk(c) && CountersOk(c, s) && s.largeActive >= 0
    requires Used(c, s) <= c.workers && s.smallActive <= c.smallLimit && s.largeActive <= c.maxLarge
    ensures exists a: int, b: int :: CanClaim(c, s, a, b) && a >= 0 && b >= 0 && Wakes(c, s) == MinOf(a + b, s.queueWaiters)
  {
    BusyIsUsed(c, s);
    hide CountersOk, Busy, Used, LargeWakes, SmallWakes;
    var free := c.workers - Used(c, s);
    var a := LargeWakes(c, s, free);
    var b := SmallWakes(c, s, free - a * c.large);
    LargeWakesMost(c, s, free);
    SmallWakesMost(c, s, free - a * c.large);
    assert CanClaim(c, s, a, b) && a >= 0 && b >= 0;
  }

  /** Signals to distinct sleepers wake as many of them. */
  lemma {:induction false} PicksWake(ws: seq<Worker>, picks: seq<nat>)
    requires NoDup(picks) && forall i :: 0 <= i < |picks| ==> picks[i] < |ws| && IsAsleep(ws[picks[i]])
    ensures Count(SignalWorkers(ws, picks), IsAsleep) == Count(ws, IsAsleep) - |picks|
    decreases |picks|
  {
    if picks == [] {
      assert SignalWorkers(ws, picks) == ws;
    } else {
      var n := |picks| - 1;
      var front, w := picks[..n], picks[n];
      PicksWake(ws, front);
      var vs := SignalWorkers(ws, front);
      assert w !in front;
      assert picks == front + [w];
      assert SignalWorkers(ws, picks) == vs[w := vs[w].(pc := Signalled)];
      CountUpdate(vs, w, vs[w].(pc := Signalled), IsAsleep);
    }
  }

  function SleepersOf(s: State): nat { Count(s.workers, IsAsleep) }

  lemma PushedSleepers(c: Config, s0: State, p: nat, picks: seq<nat>)
    requires ConfigOk(c) && Inv(c, s0) && PushOk(c, s0, p, picks)
    requires !MustWait(c, LeaveSpaceWait(s0, p), |s0.producers[p].rest|)
    ensures var s' := DoPush(c, s0, p, picks);
            && SleepersOf(s0) <= s'.queueWaiters
            && (Wakes(c, s') >= 0 ==> SleepersOf(s0) - SleepersOf(s') == MinOf(Wakes(c, s'), SleepersOf(s0)))
  {
    var s, s' := LeaveSpaceWait(s0, p), DoPush(c, s0, p, picks);
    var rest := s.producers[p].rest;
    var u := Pushed(s, rest[..SliceLen(c, s, |rest|)]);
    CountMonotone(s.workers, IsAsleep, IsWaiting);
    PicksWake(s.workers, picks);
    SameWakes(c, u, s');
    hide Wakes, Count;
  }

  lemma SameWakes(c: Config, s: State, s': State)
    requires ConfigOk(c) && s'.heap == s.heap && s'.queue == s.queue && s'.smallActive == s.smallActive
    requires s'.largeActive == s.largeActive && s'.queueWaiters == s.queueWaiters
    ensures Wakes(c, s') == Wakes(c, s)
  {
  }

  /** Between the states as many sleepers are woken as there are claims to make, or all. */
  ghost predicate WakesEnough(c: Config, s: State, s': State) {
    exists a: int, b: int :: CanClaim(c, s', a, b) && SleepersOf(s) - SleepersOf(s') == MinOf(a + b, SleepersOf(s))
  }

  /**
   A push wakes as many sleepers as can claim something with the slots that are free: one for each
   large file that finds its slots, one for each eight small files or the rest of them, no more than
   small files may be copied at once.
   */
  lemma PushWakesMost(c: Config, producers: nat, ss: seq<State>, steps: seq<Step>, t: nat)
    requires ConfigOk(c) && IsRun(c, producers, ss, steps) && t < |steps| && steps[t].Push?
    requires steps[t].p < |ss[t + 1].producers| && !ss[t + 1].producers[steps[t].p].PAsleep?
    ensures WakesEnough(c, ss[t], ss[t + 1])
  {
    var s, s', step := ss[t], ss[t + 1], steps[t];
    RunInv(c, producers, ss, steps, t);
    RunInv(c, producers, ss, steps, t + 1);
    PushNotParked(c, s, step.p, step.picks);
    hide Inv, DoPush, MustWait, IsRun;
    PushedSleepers(c, s, step.p, step.picks);
    InvFacts(c, s');
    hide CountersOk, PushOk, SleepersOf, CanClaim, Wakes;
    WakesAreMost(c, s');
  }

  lemma InvFacts(c: Config, s: State)
    requires Inv(c, s)
    ensures CountersOk(c, s) && s.largeActive >= 0
    ensures Used(c, s) <= c.workers && s.smallActive <= c.smallLimit && s.largeActive <= c.maxLarge
  {
    LargeCounts(c, s);
  }

  lemma PushNotParked(c: Config, s: State, p: nat, picks: seq<nat>)
    requires PushOk(c, s, p, picks) && !DoPush(c, s, p, picks).producers[p].PAsleep?
    ensures !MustWait(c, LeaveSpaceWait(s, p), |s.producers[p].rest|)
  {
  }
}
