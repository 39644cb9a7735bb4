/**
 Verification comes to an end, within its bounds: the pools and queues never exceed their limits, less
 than a generation is ever held back, a measure falls with every step of the feeder, the verification
 threads and the servers, and when nothing can go on after the stop every queued item has been verified.
 */
module FeederEnds {
  import opened Counting
  import opened Feeder
  import opened FeederProof
  import opened FeederOvertakes

  // ---------------------------------------------------------------------------
  // Bounds

  /** Jobs outstanding at a server: no more than its pool takes, none without a pool. */
  ghost predicate PoolOk(c: Config, s: State) {
    forall k :: 0 <= k < |s.conns| && k < |c.poolLimits| ==> |s.conns[k].queued| + |s.conns[k].active| <= c.poolLimits[k]
  }

  /** While the feeder waits for items it holds back less than a generation. */
  ghost predicate HeldBackOk(c: Config, s: State) {
    && |s.checks| <= c.checkLimit
    && (s.feeder == Intake || s.feeder == Finished ==> s.gen == [] || |s.gen| < c.generation)
  }

  /** A server takes a job as long as its pool has room, and any other frame when no job is outstanding. */
  lemma ServerReadsWhen(c: Config, s: State, k: nat)
    requires k < |s.conns| && k < |c.poolLimits| && PoolOk(c, s)
    ensures var n := s.conns[k];
            Enabled(c, s, ServerRead(k, false)) <==>
              n.pipe != [] && (if c.poolLimits[k] > 0 && !n.pipe[0].Barrier? && !n.pipe[0].Sync?
                               then |n.queued| + |n.active| < c.poolLimits[k]
                               else |n.queued| + |n.active| == 0)
  {
  }

  /** What the server does with the frame: a job is queued or, without a pool, done at once; a barrier is answered. */
  lemma ServerReadDoes(c: Config, s: State, k: nat)
    requires Enabled(c, s, ServerRead(k, false))
    ensures var n, n' := s.conns[k], Apply(c, s, ServerRead(k, false)).conns[k];
            && n.pipe == [n.pipe[0]] + n'.pipe && n'.active == n.active
            && (match n.pipe[0]
                case Barrier(id) => n'.replied == n.replied + {id} && n'.queued == n.queued
                case Sync => n'.replied == n.replied && n'.queued == n.queued
                case _ => n'.replied == n.replied && n'.queued == n.queued + (if c.poolLimits[k] > 0 then [n.pipe[0]] else []))
  {
  }

  /** The feeder releases what it holds back exactly if that is a full generation, or the wait timed out, or it has to stop. */
  lemma DecideReleases(c: Config, s: State)
    requires Enabled(c, s, Decide)
    ensures var s' := Apply(c, s, Decide);
            && s'.gen == s.gen
            && (s'.feeder.AtConn? <==> s.gen != [] && (|s.gen| >= c.generation || s.feeder.timedOut || s.feeder.stop))
            && (s'.feeder.AtConn? ==> s'.feeder == AtConn(0, true, s.feeder.stop) && s'.answered == {})
            && (!s'.feeder.AtConn? ==> s'.feeder == if s.feeder.stop then Finished else Intake)
  {
  }

  /** A durable item is handed on at once, any other joins the generation; both in the order of the intake. */
  lemma RouteSorts(c: Config, s: State)
    requires Enabled(c, s, Route)
    ensures var s', it := Apply(c, s, Route), s.feeder.batch[0];
            && s.feeder.batch == [it] + s'.feeder.batch
            && s'.checks == s.checks + (if it.durable then [it] else [])
            && s'.gen == s.gen + (if it.durable then [] else [it])
  {
  }

  /** Items are released, and taken by the verification threads, in their order. */
  lemma ItemsInOrder(c: Config, s: State, step: Step)
    requires Enabled(c, s, step)
    ensures step.Release? && s.gen != [] ==>
              var s' := Apply(c, s, step); s.gen == [s.gen[0]] + s'.gen && s'.checks == s.checks + [s.gen[0]]
    ensures step.CheckerTake? ==>
              var s' := Apply(c, s, step); s'.checkers[step.j].KBusy? && s.checks == [s'.checkers[step.j].item] + s'.checks
  {
    if step.Release? || step.CheckerTake? {
      hide CanRead, Answered;
    } else {
      hide Apply, Enabled;
    }
  }

  lemma StepPool(c: Config, s: State, step: Step)
    requires PoolOk(c, s) && Enabled(c, s, step)
    ensures PoolOk(c, Apply(c, s, step))
  {
    if OfServer(step) {
      ServerPool(c, s, step);
    } else {
      SamePools(c, s, step);
      hide Enabled, Apply;
    }
  }

  lemma ReadPool(limit: nat, c: Conn, inline: bool)
    requires CanRead(limit, c, inline) && |c.queued| + |c.active| <= limit
    ensures var c' := Read(limit, c, inline); |c'.queued| + |c'.active| <= limit
  {
  }

  lemma OnePool(c: Config, s: State, s': State, k: nat)
    requires PoolOk(c, s) && k < |s.conns| == |s'.conns| && s'.conns == s.conns[k := s'.conns[k]]
    requires k < |c.poolLimits| ==> |s'.conns[k].queued| + |s'.conns[k].active| <= c.poolLimits[k]
    ensures PoolOk(c, s')
  {
  }

  lemma ServerPool(c: Config, s: State, step: Step)
    requires PoolOk(c, s) && Enabled(c, s, step) && OfServer(step)
    ensures PoolOk(c, Apply(c, s, step))
  {
    var s', k := Apply(c, s, step), step.k;
    assert k < |c.poolLimits| ==> |s.conns[k].queued| + |s.conns[k].active| <= c.poolLimits[k];
    if step.ServerRead? {
      ReadPool(c.poolLimits[k], s.conns[k], step.inline);
    }
    hide CanRead, Read, RunsInline, PoolOk;
    match step
    case ServerRead(_, _) => OnePool(c, s, s', k);
    case ServerStart(_) => OnePool(c, s, s', k);
    case ServerFinish(_, _) => OnePool(c, s, s', k);
    case Break(_, _) => OnePool(c, s, s', k);
  }

  lemma SamePools(c: Config, s: State, step: Step)
    requires Enabled(c, s, step) && !OfServer(step)
    ensures var s' := Apply(c, s, step);
            |s'.conns| == |s.conns| &&
            forall k :: 0 <= k < |s.conns| ==> s'.conns[k].queued == s.conns[k].queued && s'.conns[k].active == s.conns[k].active
  {
    hide CanRead, DoRoute, DoDecide;
    match step
    case SendPut(_, _, _) =>
    case PeriodicBarrier(_) =>
    case PeriodicDone(_) =>
    case OtherFrame(_, _) =>
    case CheckerSend(_, _) =>
    case SendBarrier(_) =>
    case BarrierDone(_) =>
    case BarrierLost =>
    case Route => assert DoRoute(s).conns == s.conns by { RouteKeepsConns(s); }
    case Decide => assert DoDecide(c, s).conns == s.conns by { DecideKeepsConns(c, s); }
    case _ =>
  }

  lemma RouteKeepsConns(s: State)
    requires s.feeder.Routing? && s.feeder.batch != []
    ensures DoRoute(s).conns == s.conns
  {
  }

  lemma DecideKeepsConns(c: Config, s: State)
    requires s.feeder.Routing?
    ensures DoDecide(c, s).conns == s.conns
  {
  }

  lemma StepHeldBack(c: Config, s: State, step: Step)
    requires HeldBackOk(c, s) && Enabled(c, s, step)
    ensures HeldBackOk(c, Apply(c, s, step))
  {
    hide CanRead, RunsInline, Read, Send, SendLocked;
    if !OfFeeder(step) && !step.CheckerTake? {
      OthersKeepItems(c, s, step);
      hide Apply, Enabled;
    }
  }

  lemma OthersKeepItems(c: Config, s: State, step: Step)
    requires Enabled(c, s, step) && !OfFeeder(step) && !step.CheckerTake?
    ensures var s' := Apply(c, s, step); s'.feeder == s.feeder && s'.gen == s.gen && s'.checks == s.checks
  {
    hide CanRead, RunsInline, Read, Send, SendLocked;
    match step
    case SendPut(_, _, _) =>
    case PeriodicBarrier(_) =>
    case PeriodicDone(_) =>
    case CheckerSend(_, _) =>
    case ServerRead(_, _) =>
    case ServerStart(_) =>
    case ServerFinish(_, _) =>
    case _ =>
  }

  /** In every run: the pools and the queue of the verification threads stay within their limits, and less than a generation is held back. */
  lemma {:induction false} BoundsHold(c: Config, ss: seq<State>, steps: seq<Step>, t: nat)
    requires IsRun(c, ss, steps) && t < |ss|
    ensures PoolOk(c, ss[t]) && HeldBackOk(c, ss[t])
    decreases t
  {
    if t > 0 {
      hide Enabled, Apply, PoolOk, HeldBackOk;
      BoundsHold(c, ss, steps, t - 1);
      var step := steps[t - 1];
      StepPool(c, ss[t - 1], step);
      StepHeldBack(c, ss[t - 1], step);
    }
  }

  // ---------------------------------------------------------------------------
  // One barrier at a time

  /** Who waits for a barrier of a connection holds its lock, alone. */
  ghost predicate Exclusive(s: State) {
    && (forall t: nat, m: nat :: WaitsAt(s, t, m) ==> s.conns[m].locked)
    && (forall t: nat, u: nat, m: nat :: WaitsAt(s, t, m) && WaitsAt(s, u, m) ==> t == u)
    && (s.feeder.Waiting? ==> s.feeder.i < |s.conns| && s.conns[s.feeder.i].locked && forall t: nat :: !WaitsAt(s, t, s.feeder.i))
  }

  lemma ExclusiveSame(s: State, s': State)
    requires Exclusive(s) && KeepsWaits(s, s')
    requires forall m :: 0 <= m < |s.conns| ==> s'.conns[m].locked == s.conns[m].locked
    ensures Exclusive(s')
  {
  }

  lemma PeriodicExclusive(c: Config, s: State, step: Step)
    requires Exclusive(s) && Enabled(c, s, step) && (step.PeriodicBarrier? || step.PeriodicDone?)
    ensures Exclusive(Apply(c, s, step))
  {
    var s', k := Apply(c, s, step), s.sentOn[s.copiers[step.t].file];
    assert forall u: nat, m: nat :: WaitsAt(s', u, m) && u != step.t ==> WaitsAt(s, u, m);
    assert forall m: nat :: WaitsAt(s', step.t, m) ==> m == k;
    if step.PeriodicDone? {
      assert WaitsAt(s, step.t, k);
      assert forall m: nat :: !WaitsAt(s', step.t, m);
    }
  }

  lemma BarrierExclusive(c: Config, s: State, step: Step)
    requires Exclusive(s) && Enabled(c, s, step) && (step.SendBarrier? || step.BarrierDone? || step.BarrierLost?)
    ensures Exclusive(Apply(c, s, step))
  {
    var s' := Apply(c, s, step);
    assert forall u: nat, m: nat :: WaitsAt(s', u, m) <==> WaitsAt(s, u, m);
  }

  lemma OthersKeepLocks(c: Config, s: State, step: Step)
    requires ItemsOk(s) && Enabled(c, s, step)
    requires !step.PeriodicBarrier? && !step.PeriodicDone? && !step.SendBarrier? && !step.BarrierDone? && !step.BarrierLost?
    ensures var s' := Apply(c, s, step);
            KeepsWaits(s, s') && forall m :: 0 <= m < |s.conns| ==> s'.conns[m].locked == s.conns[m].locked
  {
    hide CanRead, RunsInline;
    match step
    case SendPut(_, _, _) =>
    case OtherFrame(_, _) =>
    case CheckerSend(_, _) =>
    case ServerRead(_, _) =>
    case ServerStart(_) =>
    case ServerFinish(_, _) =>
    case Break(_, _) =>
    case _ => QuietKeeps(c, s, step);
  }

  /** In every run at most one barrier is awaited on a connection at a time. */
  lemma {:induction false} OneBarrierAtATime(c: Config, ss: seq<State>, steps: seq<Step>, t: nat)
    requires IsRun(c, ss, steps) && t < |ss|
    ensures Exclusive(ss[t])
    decreases t
  {
    hide Inv, Exclusive, Enabled, Apply;
    if t == 0 {
      NobodyWaits(c);
    } else {
      OneBarrierAtATime(c, ss, steps, t - 1);
      RunInv(c, ss, steps, t - 1);
      var step := steps[t - 1];
      StepExclusive(c, ss[t - 1], step);
    }
  }

  lemma NobodyWaits(c: Config)
    ensures Exclusive(Init(c))
  {
  }

  lemma StepExclusive(c: Config, s: State, step: Step)
    requires Inv(c, s) && Exclusive(s) && Enabled(c, s, step)
    ensures Exclusive(Apply(c, s, step))
  {
    assert ItemsOk(s);
    hide Inv, Enabled, Apply, Exclusive, ItemsOk;
    if step.PeriodicBarrier? || step.PeriodicDone? {
      PeriodicExclusive(c, s, step);
    } else if step.SendBarrier? || step.BarrierDone? || step.BarrierLost? {
      BarrierExclusive(c, s, step);
    } else {
      OthersKeepLocks(c, s, step);
      ExclusiveSame(s, Apply(c, s, step));
    }
  }

  // ---------------------------------------------------------------------------
  // The measure

  /** What one round of the feeder costs beside its items: a barrier for each of n connections. */
  function RoundCost(n: nat): nat { 3 + 6 * n }

  function FeederPower(n: nat, f: FeederPc): int {
    var reserve := RoundCost(n) + 1;
    match f
    case Intake => reserve
    case Routing(batch, _, stop) => RoundCost(n) + 4 * |batch| + if stop then 0 else reserve
    case AtConn(i, _, stop) => 2 + 6 * (n - i) + if stop then 0 else reserve
    case Waiting(i, _, _, stop) => 6 * (n - i) - 2 + if stop then 0 else reserve
    case Releasing(_, stop) => 1 + if stop then 0 else reserve
    case Finished => 0
  }

  function CopierPower(n: nat, t: Copier): nat {
    match t
    case CIdle => 0
    case CSent(_) => RoundCost(n) + 6
    case CWaiting(_, _) => RoundCost(n) + 7
  }

  function CopierWeight(n: nat): Copier -> nat {
    (t: Copier) => CopierPower(n, t)
  }

  function BusyPower(k: Checker): nat { if k.KBusy? then 1 else 0 }

  function FrameWork(s: State): int { Sum(s.conns, Load) }
  function CopierWork(n: nat, s: State): int { Sum(s.copiers, CopierWeight(n)) }
  function ItemWork(n: nat, s: State): int {
    Times(|s.intake|, RoundCost(n) + 5) + 3 * |s.gen| + 2 * |s.checks| + Sum(s.checkers, BusyPower)
  }

  function Measure(n: nat, s: State): int {
    FrameWork(s) + CopierWork(n, s) + ItemWork(n, s) + FeederPower(n, s.feeder)
  }

  lemma {:induction false} TakePays(k: nat, n: nat)
    requires k >= 1
    ensures Times(k, RoundCost(n) + 5) >= 4 * k + RoundCost(n) + 1
  {
    if k > 1 {
      TakePays(k - 1, n);
    } else {
      assert Times(0, RoundCost(n) + 5) == 0;
    }
  }

  lemma OneMore(k: nat, b: nat)
    ensures Times(k + 1, b) == Times(k, b) + b
  {
  }

  /** Only connection k changes. */
  lemma ConnWork(s: State, s': State, k: nat)
    requires k < |s.conns| == |s'.conns| && s'.conns == s.conns[k := s'.conns[k]]
    ensures FrameWork(s') == FrameWork(s) - Load(s.conns[k]) + Load(s'.conns[k])
  {
    SumUpdate(s.conns, k, s'.conns[k], Load);
    hide Sum, Load;
  }

  lemma OneCopier(n: nat, s: State, s': State, t: nat)
    requires t < |s.copiers| == |s'.copiers| && s'.copiers == s.copiers[t := s'.copiers[t]]
    ensures CopierWork(n, s') == CopierWork(n, s) - CopierPower(n, s.copiers[t]) + CopierPower(n, s'.copiers[t])
  {
    SumUpdate(s.copiers, t, s'.copiers[t], CopierWeight(n));
    hide Sum, CopierPower;
  }

  lemma SameConns(s: State, s': State)
    requires s'.conns == s.conns
    ensures FrameWork(s') == FrameWork(s)
  {
  }

  lemma SameCopiers(n: nat, s: State, s': State)
    requires s'.copiers == s.copiers
    ensures CopierWork(n, s') == CopierWork(n, s)
  {
  }

  lemma SameItems(n: nat, s: State, s': State)
    requires s'.intake == s.intake && s'.gen == s.gen && s'.checks == s.checks && s'.checkers == s.checkers
    ensures ItemWork(n, s') == ItemWork(n, s)
  {
  }

  // ---------------------------------------------------------------------------
  // Servers

  lemma ReadLoad(limit: nat, c: Conn, inline: bool)
    requires CanRead(limit, c, inline)
    ensures Load(Read(limit, c, inline)) < Load(c)
  {
  }

  lemma ServerFalls(c: Config, n: nat, s: State, step: Step)
    requires Enabled(c, s, step) && OfServer(step) && !step.Break?
    ensures Measure(n, Apply(c, s, step)) < Measure(n, s)
  {
    var s' := Apply(c, s, step);
    if step.ServerRead? {
      ReadLoad(c.poolLimits[step.k], s.conns[step.k], step.inline);
    }
    hide CanRead, Read, RunsInline;
    ConnWork(s, s', step.k);
    SameCopiers(n, s, s');
    SameItems(n, s, s');
    hide FrameWork, CopierWork, ItemWork, FeederPower;
    match step
    case ServerRead(_, _) =>
    case ServerStart(_) =>
    case ServerFinish(_, _) =>
  }

  // ---------------------------------------------------------------------------
  // Client

  lemma QueueItemFalls(c: Config, n: nat, s: State, t: nat)
    requires Enabled(c, s, QueueItem(t))
    ensures Measure(n, Apply(c, s, QueueItem(t))) < Measure(n, s)
  {
    var s' := Apply(c, s, QueueItem(t));
    SameConns(s, s');
    OneCopier(n, s, s', t);
    OneMore(|s.intake|, RoundCost(n) + 5);
    hide FrameWork, CopierWork, FeederPower, Sum, Times;
  }

  lemma PeriodicDoneFalls(c: Config, n: nat, s: State, t: nat)
    requires Enabled(c, s, PeriodicDone(t))
    ensures Measure(n, Apply(c, s, PeriodicDone(t))) < Measure(n, s)
  {
    var s' := Apply(c, s, PeriodicDone(t));
    ConnWork(s, s', s.sentOn[s.copiers[t].file]);
    OneCopier(n, s, s', t);
    SameItems(n, s, s');
    hide FrameWork, CopierWork, ItemWork, FeederPower;
  }

  lemma CheckerFalls(c: Config, n: nat, s: State, step: Step)
    requires Enabled(c, s, step) && (step.CheckerTake? || step.CheckerDone?)
    ensures Measure(n, Apply(c, s, step)) < Measure(n, s)
  {
    var s' := Apply(c, s, step);
    SameConns(s, s');
    SameCopiers(n, s, s');
    SumUpdate(s.checkers, step.j, s'.checkers[step.j], BusyPower);
    hide FrameWork, CopierWork, FeederPower, Sum, Times;
  }

  // ---------------------------------------------------------------------------
  // Feeder

  lemma TakeFalls(c: Config, n: nat, s: State, timedOut: bool)
    requires Enabled(c, s, Take(timedOut))
    ensures Measure(n, Apply(c, s, Take(timedOut))) + 1 <= Measure(n, s) + (if timedOut then RoundCost(n) + 1 else 0)
  {
    var s' := Apply(c, s, Take(timedOut));
    SameConns(s, s');
    SameCopiers(n, s, s');
    if s.intake != [] {
      TakePays(|s.intake|, n);
    }
    assert Times(0, RoundCost(n) + 5) == 0;
    hide FrameWork, CopierWork, Sum, Times, RoundCost;
  }

  lemma RouteFalls(c: Config, n: nat, s: State)
    requires Enabled(c, s, Route)
    ensures Measure(n, Apply(c, s, Route)) < Measure(n, s)
  {
    var s' := Apply(c, s, Route);
    SameConns(s, s');
    SameCopiers(n, s, s');
    hide FrameWork, CopierWork, Sum, Times, RoundCost;
  }

  lemma DecideFalls(c: Config, n: nat, s: State)
    requires Enabled(c, s, Decide)
    ensures Measure(n, Apply(c, s, Decide)) < Measure(n, s)
  {
    var s' := Apply(c, s, Decide);
    SameConns(s, s');
    SameCopiers(n, s, s');
    SameItems(n, s, s');
    hide FrameWork, CopierWork, ItemWork;
  }

  lemma ReleaseFalls(c: Config, n: nat, s: State)
    requires Enabled(c, s, Release)
    ensures Measure(n, Apply(c, s, Release)) < Measure(n, s)
  {
    var s' := Apply(c, s, Release);
    SameConns(s, s');
    SameCopiers(n, s, s');
    hide FrameWork, CopierWork, Sum, Times, RoundCost, Answered;
  }

  lemma SendBarrierFalls(c: Config, n: nat, s: State, sent: bool)
    requires Inv(c, s) && n == |s.conns| && Enabled(c, s, SendBarrier(sent))
    ensures Measure(n, Apply(c, s, SendBarrier(sent))) < Measure(n, s)
  {
    var s', i := Apply(c, s, SendBarrier(sent)), s.feeder.i;
    assert i <= n;
    hide Inv;
    if i < n && sent {
      ConnWork(s, s', i);
    } else {
      SameConns(s, s');
    }
    SameCopiers(n, s, s');
    SameItems(n, s, s');
    hide FrameWork, CopierWork, ItemWork;
  }

  lemma BarrierEndFalls(c: Config, n: nat, s: State, step: Step)
    requires Enabled(c, s, step) && (step.BarrierDone? || step.BarrierLost?)
    ensures Measure(n, Apply(c, s, step)) < Measure(n, s)
  {
    var s' := Apply(c, s, step);
    ConnWork(s, s', s.feeder.i);
    SameCopiers(n, s, s');
    SameItems(n, s, s');
    hide FrameWork, CopierWork, ItemWork, RoundCost;
  }

  // ---------------------------------------------------------------------------
  // Steps from outside

  /** Files sent, barriers of copy threads, timeouts, other requests, checks, the stop, and failures. */
  predicate Outside(step: Step) {
    step.SendPut? || step.PeriodicBarrier? || step.QueueDurable? || step.OtherFrame? || step.StopFeeder?
    || step == Take(true) || step.CheckerSend? || step.Break?
  }

  /** What such a step adds to the work. */
  function Allowance(n: nat, step: Step): nat {
    match step
    case SendPut(_, _, _) => RoundCost(n) + 10
    case PeriodicBarrier(_) => 5
    case QueueDurable(_, _) => RoundCost(n) + 6
    case OtherFrame(_, _) => 4
    case StopFeeder => 1
    case Take(timedOut) => if timedOut then RoundCost(n) + 1 else 0
    case CheckerSend(_, _) => 4
    case Break(_, _) => 1
    case _ => 0
  }

  lemma AppendLoad(c: Conn, f: Frame)
    ensures Load(Send(c, f)) == Load(c) + 3 && Load(SendLocked(c)) == Load(c) + 3
  {
  }

  lemma SendFalls(c: Config, n: nat, s: State, step: Step)
    requires Enabled(c, s, step) && (step.SendPut? || step.OtherFrame? || step.CheckerSend?)
    ensures Measure(n, Apply(c, s, step)) + 1 <= Measure(n, s) + Allowance(n, step)
  {
    var s' := Apply(c, s, step);
    AppendLoad(s.conns[step.k], Sync);
    hide Load;
    AppendLoad(s.conns[step.k], if step.SendPut? then Put(step.file) else if step.OtherFrame? then (if step.pooled then Job else Sync) else Check(s.checkers[step.j].item.file));
    ConnWork(s, s', step.k);
    if step.SendPut? {
      OneCopier(n, s, s', step.t);
    } else {
      SameCopiers(n, s, s');
    }
    SameItems(n, s, s');
    hide FrameWork, CopierWork, ItemWork, FeederPower, RoundCost, Send;
  }

  lemma PeriodicBarrierFalls(c: Config, n: nat, s: State, t: nat)
    requires Enabled(c, s, PeriodicBarrier(t))
    ensures Measure(n, Apply(c, s, PeriodicBarrier(t))) + 1 <= Measure(n, s) + Allowance(n, PeriodicBarrier(t))
  {
    var s', k := Apply(c, s, PeriodicBarrier(t)), s.sentOn[s.copiers[t].file];
    AppendLoad(s.conns[k], Sync);
    hide Load;
    ConnWork(s, s', k);
    OneCopier(n, s, s', t);
    SameItems(n, s, s');
    hide FrameWork, CopierWork, ItemWork, FeederPower, RoundCost, SendLocked;
  }

  lemma QueueDurableFalls(c: Config, n: nat, s: State, t: nat, file: nat)
    requires Enabled(c, s, QueueDurable(t, file))
    ensures Measure(n, Apply(c, s, QueueDurable(t, file))) + 1 <= Measure(n, s) + Allowance(n, QueueDurable(t, file))
  {
    var s' := Apply(c, s, QueueDurable(t, file));
    SameConns(s, s');
    SameCopiers(n, s, s');
    OneMore(|s.intake|, RoundCost(n) + 5);
    hide FrameWork, CopierWork, FeederPower, Sum, Times;
  }

  lemma BreakFalls(c: Config, n: nat, s: State, k: nat, m: nat)
    requires Enabled(c, s, Break(k, m))
    ensures Measure(n, Apply(c, s, Break(k, m))) <= Measure(n, s)
  {
    var s' := Apply(c, s, Break(k, m));
    ConnWork(s, s', k);
    SameCopiers(n, s, s');
    SameItems(n, s, s');
    hide FrameWork, CopierWork, ItemWork, FeederPower;
  }

  lemma StopFalls(c: Config, n: nat, s: State)
    ensures Measure(n, Apply(c, s, StopFeeder)) == Measure(n, s)
  {
    var s' := Apply(c, s, StopFeeder);
    SameConns(s, s');
    SameCopiers(n, s, s');
    SameItems(n, s, s');
    hide FrameWork, CopierWork, ItemWork, FeederPower;
  }

  lemma StepFalls(c: Config, n: nat, s: State, step: Step)
    requires Inv(c, s) && n == |s.conns| && Enabled(c, s, step)
    ensures Measure(n, Apply(c, s, step)) + 1 <= Measure(n, s) + Allowance(n, step)
  {
    hide Measure, Inv, Enabled, Apply, RoundCost;
    match step
    case SendPut(_, _, _) => SendFalls(c, n, s, step);
    case PeriodicBarrier(t) => PeriodicBarrierFalls(c, n, s, t);
    case PeriodicDone(t) => PeriodicDoneFalls(c, n, s, t);
    case QueueItem(t) => QueueItemFalls(c, n, s, t);
    case QueueDurable(t, file) => QueueDurableFalls(c, n, s, t, file);
    case OtherFrame(_, _) => SendFalls(c, n, s, step);
    case StopFeeder => StopFalls(c, n, s);
    case Take(timedOut) => TakeFalls(c, n, s, timedOut);
    case Route => RouteFalls(c, n, s);
    case Decide => DecideFalls(c, n, s);
    case SendBarrier(sent) => SendBarrierFalls(c, n, s, sent);
    case BarrierDone(_) => BarrierEndFalls(c, n, s, step);
    case BarrierLost => BarrierEndFalls(c, n, s, step);
    case Release => ReleaseFalls(c, n, s);
    case CheckerTake(_) => CheckerFalls(c, n, s, step);
    case CheckerSend(_, _) => SendFalls(c, n, s, step);
    case CheckerDone(_) => CheckerFalls(c, n, s, step);
    case ServerRead(_, _) => ServerFalls(c, n, s, step);
    case ServerStart(_) => ServerFalls(c, n, s, step);
    case ServerFinish(_, _) => ServerFalls(c, n, s, step);
    case Break(k, m) => BreakFalls(c, n, s, k, m);
  }

  function AllowanceOf(n: nat, steps: seq<Step>): nat {
    if steps == [] then 0 else AllowanceOf(n, steps[..|steps| - 1]) + Allowance(n, steps[|steps| - 1])
  }

  lemma InitMeasure(c: Config)
    ensures Measure(c.conns, Init(c)) <= RoundCost(c.conns) + 1
  {
    var s := Init(c);
    SumBound(s.conns, Load, 0);
    SumBound(s.copiers, CopierWeight(c.conns), 0);
    SumBound(s.checkers, BusyPower, 0);
    hide Sum;
  }

  lemma {:induction false} RunFalls(c: Config, ss: seq<State>, steps: seq<Step>, t: nat)
    requires IsRun(c, ss, steps) && t <= |steps|
    ensures Measure(c.conns, ss[t]) + t <= RoundCost(c.conns) + 1 + AllowanceOf(c.conns, steps[..t])
    decreases t
  {
    hide Measure, Inv, Enabled, Apply, Allowance, RoundCost;
    if t == 0 {
      InitMeasure(c);
    } else {
      RunFalls(c, ss, steps, t - 1);
      RunInv(c, ss, steps, t - 1);
      Shapes(c, ss, steps, t - 1);
      var step := steps[t - 1];
      StepFalls(c, c.conns, ss[t - 1], step);
      assert steps[..t][..t - 1] == steps[..t - 1];
    }
  }

  lemma MeasureNat(c: Config, s: State)
    requires Inv(c, s) && Shape(c, s)
    ensures Measure(c.conns, s) >= 0
  {
    hide Sum, Times, Passed, ChecksOk, PlaceOk, SentOk, ItemsOk, ReportOk, Before, AllAnswered;
  }

  // ---------------------------------------------------------------------------
  // When nothing can go on

  /** Neither feeder nor verification threads, copy threads with a file under way, or servers can take a step. */
  ghost predicate Halted(c: Config, s: State) {
    forall step :: Enabled(c, s, step) ==> Outside(step)
  }

  lemma BusyServerGoesOn(c: Config, s: State, m: nat)
    requires Works(c) && Shape(c, s) && Order(s) && m < |s.conns| && Load(s.conns[m]) > 0
    ensures !Halted(c, s)
  {
    ServerWorks(c, s, m);
    hide Enabled, Apply, OnlyServer, Load, Order;
    assert !Outside(ServerTurn(s, m));
  }

  /** A wait whose answer is there, or lost, ends. */
  lemma WaitEnds(c: Conn, id: nat)
    requires Awaited(c, id) && Load(c) == 0
    ensures c.broken || id in c.replied
  {
    Empty(c, id);
  }

  lemma CopierGoesOn(c: Config, s: State, t: nat)
    requires Works(c) && Shape(c, s) && Good(c, s) && t < |s.copiers| && s.copiers[t] != CIdle
    requires forall m :: 0 <= m < |s.conns| ==> Load(s.conns[m]) == 0
    ensures !Halted(c, s)
  {
    if s.copiers[t].CSent? {
      assert Enabled(c, s, QueueItem(t));
    } else {
      assert s.copiers[t].file in s.sentOn && s.sentOn[s.copiers[t].file] < |s.conns|;
      assert WaitsAt(s, t, s.sentOn[s.copiers[t].file]);
      WaitEnds(s.conns[s.sentOn[s.copiers[t].file]], s.copiers[t].id);
      hide Inv, Order, Load;
      assert Enabled(c, s, PeriodicDone(t));
    }
  }

  lemma CheckerGoesOn(c: Config, s: State, j: nat)
    requires j < |s.checkers| && (s.checkers[j].KBusy? || s.checks != [])
    ensures !Halted(c, s)
  {
    if s.checkers[j].KBusy? {
      assert Enabled(c, s, CheckerDone(j));
    } else {
      assert Enabled(c, s, CheckerTake(j));
    }
  }

  /** With idle servers, copy threads and verification threads the feeder can go on, unless it waits for items or has finished. */
  lemma FeederGoesOn(c: Config, s: State)
    requires Works(c) && Shape(c, s) && Good(c, s) && s.checks == []
    requires (forall m :: 0 <= m < |s.conns| ==> Load(s.conns[m]) == 0) && forall t :: 0 <= t < |s.copiers| ==> s.copiers[t] == CIdle
    requires s.feeder != Finished && !(s.feeder == Intake && s.intake == [] && !s.stopping)
    ensures !Halted(c, s)
  {
    match s.feeder
    case Intake => assert Enabled(c, s, Take(false));
    case Routing(batch, _, _) =>
      hide Inv, Order;
      if batch == [] {
        assert Enabled(c, s, Decide);
      } else {
        assert Enabled(c, s, Route);
      }
    case AtConn(i, _, _) => BarrierGoesOn(c, s);
    case Waiting(i, id, _, _) => AnswerGoesOn(c, s);
    case Releasing(_, _) => assert Enabled(c, s, Release);
    case Finished =>
  }

  lemma BarrierGoesOn(c: Config, s: State)
    requires Order(s) && s.feeder.AtConn? && forall t :: 0 <= t < |s.copiers| ==> s.copiers[t] == CIdle
    ensures !Halted(c, s)
  {
    assert forall t: nat, m: nat :: !WaitsAt(s, t, m);
    assert s.feeder.i < |s.conns| ==> !s.conns[s.feeder.i].locked;
    assert Enabled(c, s, SendBarrier(false));
  }

  lemma AnswerGoesOn(c: Config, s: State)
    requires Order(s) && s.feeder.Waiting? && forall m :: 0 <= m < |s.conns| ==> Load(s.conns[m]) == 0
    ensures !Halted(c, s)
  {
    WaitEnds(s.conns[s.feeder.i], s.feeder.id);
    if s.conns[s.feeder.i].broken {
      assert Enabled(c, s, BarrierLost);
    } else {
      assert Enabled(c, s, BarrierDone(false));
    }
  }

  /** At rest: no frame, no copy thread and no check is under way, and the feeder waits for items or has finished. */
  ghost predicate AtRest(s: State) {
    && (forall m :: 0 <= m < |s.conns| ==> Load(s.conns[m]) == 0)
    && (forall t :: 0 <= t < |s.copiers| ==> s.copiers[t] == CIdle)
    && (forall j :: 0 <= j < |s.checkers| ==> s.checkers[j] == KIdle) && s.checks == []
    && (s.feeder == Finished || (s.feeder == Intake && s.intake == [] && !s.stopping))
  }

  lemma HaltedAtRest(c: Config, s: State)
    requires Works(c) && Shape(c, s) && Good(c, s) && Halted(c, s)
    ensures AtRest(s)
  {
    hide Halted, Good, Load;
    forall m | 0 <= m < |s.conns|
      ensures Load(s.conns[m]) == 0
    {
      if Load(s.conns[m]) > 0 {
        GoodOrder(c, s);
        BusyServerGoesOn(c, s, m);
      }
    }
    forall t | 0 <= t < |s.copiers|
      ensures s.copiers[t] == CIdle
    {
      if s.copiers[t] != CIdle {
        CopierGoesOn(c, s, t);
      }
    }
    forall j | 0 <= j < |s.checkers|
      ensures s.checkers[j] == KIdle && s.checks == []
    {
      if s.checkers[j] != KIdle || s.checks != [] {
        CheckerGoesOn(c, s, j);
      }
    }
    assert s.checkers[0] == KIdle;
    if s.feeder != Finished && !(s.feeder == Intake && s.intake == [] && !s.stopping) {
      FeederGoesOn(c, s);
    }
  }

  lemma GoodOrder(c: Config, s: State)
    requires Good(c, s)
    ensures Order(s)
  {
  }

  /**
   Every run ends: its length is bounded by what is sent, queued and checked, by timeouts and by failures.
   When nothing can go on after the stop, the feeder has finished and every item that was queued before
   the stop has been verified; without a stop less than a generation is waiting for the next timeout.
   */
  lemma EveryRunEnds(c: Config, ss: seq<State>, steps: seq<Step>)
    requires IsRun(c, ss, steps)
    ensures |steps| <= RoundCost(c.conns) + 1 + AllowanceOf(c.conns, steps)
    ensures var s := ss[|steps|];
            Works(c) && Halted(c, s) ==>
              && AtRest(s)
              && (s.stopping && QuietAfterStop(steps) ==> forall it :: it in s.submitted ==> it in s.verified)
              && (!s.stopping ==> (s.gen == [] || |s.gen| < c.generation) &&
                                  forall it :: it in s.submitted ==> it in s.verified || it in s.gen)
  {
    var n := |steps|;
    var s := ss[n];
    RunFalls(c, ss, steps, n);
    RunGood(c, ss, steps, n);
    Shapes(c, ss, steps, n);
    GoodMeasure(c, s);
    assert steps[..n] == steps;
    if Works(c) && Halted(c, s) {
      hide Good, Halted, Measure, Enabled, Apply, Shape;
      HaltedAtRest(c, s);
      BoundsHold(c, ss, steps, n);
      StopHolds(c, ss, steps, n);
      if s.stopping && QuietAfterStop(steps) {
        forall it | it in s.submitted
          ensures it in s.verified
        {
          AllVerified(c, ss, steps, n, it);
        }
      }
      if !s.stopping {
        forall it | it in s.submitted
          ensures it in s.verified || it in s.gen
        {
          ItemsPlaced(c, s, it);
        }
      }
    }
  }

  lemma GoodMeasure(c: Config, s: State)
    requires Good(c, s) && Shape(c, s)
    ensures Measure(c.conns, s) >= 0
  {
    MeasureNat(c, s);
    hide Inv, Order;
  }

  lemma ItemsPlaced(c: Config, s: State, it: Item)
    requires Good(c, s) && AtRest(s) && it in s.submitted && s.feeder == Intake
    ensures it in s.verified || it in s.gen
  {
    assert PlaceOk(s);
    hide Order, SentOk, ItemsOk, FeederOk, ChecksOk, ReportOk, Load;
  }

  /** The feeder finishes only after the stop. */
  lemma {:induction false} StopHolds(c: Config, ss: seq<State>, steps: seq<Step>, t: nat)
    requires IsRun(c, ss, steps) && t < |ss|
    ensures SawStop(ss[t]) ==> ss[t].stopping
    decreases t
  {
    hide SawStop, Enabled, Apply;
    if t == 0 {
      StartsUnstopped(c);
    } else {
      StopHolds(c, ss, steps, t - 1);
      var step := steps[t - 1];
      StepStop(c, ss[t - 1], step);
    }
  }
}
