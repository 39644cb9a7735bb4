/**
 The converse of NothingStranded: when one large file takes the slots of all workers, there
 is an interleaving after which every worker sleeps while a large file waits in the heap.
 */
module SchedulerStall {
  import opened Counting
  import opened TaskHeap
  import opened DirQueue
  import opened Scheduler
  import opened SchedulerProof
  import opened SchedulerTheorems

  /** A set of states that no step leaves. */
  ghost predicate Closed(c: Config, r: iset<State>) {
    forall s, step :: s in r && Enabled(c, s, step) ==> Apply(c, s, step) in r
  }

  /** The states that runs with one traversal thread end in. */
  ghost function Reachable(c: Config): iset<State> {
    iset ss, steps | IsRun(c, 1, ss, steps) :: ss[|steps|]
  }

  lemma ReachableClosed(c: Config)
    ensures Closed(c, Reachable(c)) && Init(c, 1) in Reachable(c)
  {
    assert IsRun(c, 1, [Init(c, 1)], []);
    forall s, step | s in Reachable(c) && Enabled(c, s, step)
      ensures Apply(c, s, step) in Reachable(c)
    {
      var ss, steps :| IsRun(c, 1, ss, steps) && ss[|steps|] == s;
      var ss', steps' := ss + [Apply(c, s, step)], steps + [step];
      assert IsRun(c, 1, ss', steps');
      assert ss'[|steps'|] == Apply(c, s, step);
    }
  }

  /** Worker 0 copies a small file, workers 1 to k-1 sleep, and nothing is queued. */
  ghost predicate Busy(c: Config, s: State, k: nat) {
    && s.queue == [] && s.heap == []
    && |s.workers| == c.workers
    && (forall w :: 0 <= w < c.workers ==>
          s.workers[w] == if w == 0 then Worker(Copying(0), [], true) else Worker(if w < k then Asleep else Ready, [], false))
    && s.producers == [PIdle]
    && s.smallActive == 1 && s.largeActive == 0 && s.spaceWaiters == 0 && !s.done
  }

  const SMALL: Item := Item(0, false, 0)
  const LARGE: Item := Item(1, true, 0)

  lemma OneItem(item: Item)
    ensures SmallTasks([item]) == if item.large then [] else [item.task]
    ensures LargeEntries([item]) == if item.large then [Entry(item.key, item.task)] else []
  {
    assert [item][1..] == [];
  }

  lemma NoWake(c: Config, s: State, item: Item)
    requires ConfigOk(c) && s.largeActive == 0
    requires s.heap == LargeEntries([item]) && s.queue == (if item.large then [] else s.queue)
    requires s.queueWaiters <= 0 || (item.large && s.smallActive > 0 && c.large == c.workers)
    ensures Wakes(c, s) <= 0
  {
    assert item.large ==> Len(s.queue) == 0;
  }

  lemma NobodySignalled(ws: seq<Worker>)
    ensures SignalWorkers(ws, []) == ws
  {
  }

  /** With room in the queue and no slot that a wake could use, a push of one item wakes nobody. */
  lemma PushesOne(c: Config, s: State, item: Item)
    requires ConfigOk(c) && s.producers == [PPushing([item])] && s.queue == [] && s.heap == [] && s.largeActive == 0
    requires s.queueWaiters <= 0 || (item.large && s.smallActive > 0 && c.large == c.workers)
    ensures PushOk(c, s, 0, []) && DoPush(c, s, 0, []) == Pushed(s, [item]).(producers := [PIdle])
  {
    assert [item][..1] == [item];
    WakeMinFits(c);
    assert !MustWait(c, s, 1) && SliceLen(c, s, 1) == 1;
    OneItem(item);
    NoWake(c, Pushed(s, [item]), item);
    NobodySignalled(s.workers);
  }

  lemma PushOne(c: Config, r: iset<State>, s: State, item: Item) returns (s': State)
    requires ConfigOk(c) && Closed(c, r) && s in r
    requires s.producers == [PIdle] && s.queue == [] && s.heap == [] && s.largeActive == 0
    requires s.queueWaiters <= 0 || (item.large && s.smallActive > 0 && c.large == c.workers)
    ensures s' in r && s' == Pushed(s, [item])
  {
    var s1 := Apply(c, s, NewItems(0, [item]));
    assert s1 == s.(producers := [PPushing([item])]);
    PushesOne(c, s1, item);
    s' := Apply(c, s1, Push(0, []));
    assert s' == Pushed(s1, [item]).(producers := [PIdle]);
  }

  /** A worker that comes for work parks when it can claim nothing. */
  lemma ParkOne(c: Config, r: iset<State>, s: State, w: nat) returns (s': State)
    requires Closed(c, r) && s in r && !s.done && CanEnter(s, w) && s.workers[w].pc == Ready
    requires !LargeOpen(c, s) && s.queue == []
    ensures s' in r
    ensures s' == s.(workers := s.workers[w := Worker(Asleep, [], false)], queueWaiters := s.queueWaiters + 1,
                     smallActive := if s.workers[w].slot then s.smallActive - 1 else s.smallActive)
  {
    s' := Apply(c, s, Enter(w, 0, None));
  }

  lemma {:induction false} ParkOthers(c: Config, r: iset<State>, s: State, k: nat) returns (s': State)
    requires ConfigOk(c) && Closed(c, r) && s in r && Busy(c, s, k) && 1 <= k <= c.workers
    ensures s' in r && Busy(c, s', c.workers)
    decreases c.workers - k
  {
    if k == c.workers {
      s' := s;
    } else {
      var m := ParkOne(c, r, s, k);
      s' := ParkOthers(c, r, m, k + 1);
    }
  }

  /** Worker 0 takes the only small file before anybody sleeps. */
  lemma TakeSmall(c: Config, r: iset<State>) returns (s: State)
    requires ConfigOk(c) && Closed(c, r) && Init(c, 1) in r
    ensures s in r && Busy(c, s, 1)
  {
    var s0 := Init(c, 1);
    assert s0.producers == [PIdle];
    var s1 := PushOne(c, r, s0, SMALL);
    OneItem(SMALL);
    assert s1.queue == [Batch(0, 0, [0])] && s1.heap == [];
    assert EnterOk(c, s1, 0, 0, None);
    var s2 := Apply(c, s1, Enter(0, 0, None));
    assert s2 == ClaimSmall(s1, 0, None);
    assert Remaining(s1.queue[0]) == [0] && Run(s1.queue) == [0] && Claimed(s1.queue) == [];
    s := Apply(c, s2, Dispatch(0));
    assert s.workers[0] == Worker(Copying(0), [], true);
  }

  /** The large file comes while worker 0 holds its slot, and worker 0 gives the slot back after looking at the heap. */
  lemma StallRun(c: Config, r: iset<State>) returns (s: State)
    requires ConfigOk(c) && c.large == c.workers && Closed(c, r) && Init(c, 1) in r
    ensures s in r && Quiet(s) && HasWork(s)
  {
    s := TakeSmall(c, r);
    s := ParkOthers(c, r, s, 1);
    s := PushOne(c, r, s, LARGE);
    OneItem(LARGE);
    s := Apply(c, s, Finish(0));
    s := ParkOne(c, r, s, 0);
  }

  ghost predicate NeverStrands(c: Config) {
    forall producers, ss, steps, t | IsRun(c, producers, ss, steps) && 0 <= t < |ss| :: !(Quiet(ss[t]) && HasWork(ss[t]))
  }

  /**
   The exact condition: no run of the scheduler ever leaves work queued with every worker
   asleep and no large file active if and only if a large file leaves a slot for others.
   */
  lemma NeverStrandsIff(c: Config)
    requires ConfigOk(c)
    ensures NeverStrands(c) <==> c.large < c.workers
  {
    if c.large < c.workers {
      forall producers, ss, steps, t | IsRun(c, producers, ss, steps) && 0 <= t < |ss|
        ensures !(Quiet(ss[t]) && HasWork(ss[t]))
      {
        if Quiet(ss[t]) {
          NothingStranded(c, producers, ss, steps, t);
        }
      }
    } else {
      ReachableClosed(c);
      var s := StallRun(c, Reachable(c));
      var ss, steps :| IsRun(c, 1, ss, steps) && ss[|steps|] == s;
      assert Quiet(ss[|steps|]) && HasWork(ss[|steps|]);
    }
  }
}
