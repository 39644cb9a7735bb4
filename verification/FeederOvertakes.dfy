/**
 Exactly when a check can overtake the copy. A file can be checked before it is applied if and
 only if its generation has passed its connection without an answer, the file is not applied
 yet, and some connection still lives; and there is a run in which that happens.
 */
module FeederOvertakes {
  import opened Feeder
  import opened FeederProof

  // ---------------------------------------------------------------------------
  // Paths of steps

  /** The path leads from s to s'. */
  ghost predicate Leads(c: Config, s: State, path: seq<Step>, s': State)
    decreases |path|
  {
    if path == [] then s' == s
    else Enabled(c, s, path[0]) && Leads(c, Apply(c, s, path[0]), path[1..], s')
  }

  ghost predicate Reaches(c: Config, s: State, s': State) {
    exists path :: Leads(c, s, path, s')
  }

  lemma Stays(c: Config, s: State)
    ensures Reaches(c, s, s)
  {
    assert Leads(c, s, [], s);
  }

  lemma {:induction false} LeadsOn(c: Config, s: State, path: seq<Step>, s1: State, path': seq<Step>, s2: State)
    requires Leads(c, s, path, s1) && Leads(c, s1, path', s2)
    ensures Leads(c, s, path + path', s2)
    decreases |path|
  {
    hide Enabled, Apply;
    if path == [] {
      assert path + path' == path';
    } else {
      assert (path + path')[1..] == path[1..] + path';
      LeadsOn(c, Apply(c, s, path[0]), path[1..], s1, path', s2);
    }
  }

  lemma ReachesOn(c: Config, s: State, s1: State, s2: State)
    requires Reaches(c, s, s1) && Reaches(c, s1, s2)
    ensures Reaches(c, s, s2)
  {
    var p :| Leads(c, s, p, s1);
    var q :| Leads(c, s1, q, s2);
    hide Leads;
    LeadsOn(c, s, p, s1, q, s2);
  }

  lemma Then(c: Config, s: State, s1: State, step: Step)
    requires Reaches(c, s, s1) && Enabled(c, s1, step)
    ensures Reaches(c, s, Apply(c, s1, step))
  {
    hide Enabled, Apply;
    var s2 := Apply(c, s1, step);
    assert [step][1..] == [];
    assert Leads(c, s1, [step], s2);
    ReachesOn(c, s, s1, s2);
  }

  /** A run goes on along a path. */
  lemma {:induction false} RunOn(c: Config, ss: seq<State>, steps: seq<Step>, path: seq<Step>, s': State) returns (ss': seq<State>)
    requires IsRun(c, ss, steps) && Leads(c, ss[|steps|], path, s')
    ensures IsRun(c, ss', steps + path) && ss'[|steps + path|] == s'
    decreases |path|
  {
    hide Enabled, Apply;
    if path == [] {
      ss' := ss;
      assert steps + path == steps;
    } else {
      var s1 := Apply(c, ss[|steps|], path[0]);
      ss' := RunOn(c, ss + [s1], steps + [path[0]], path[1..], s');
      assert steps + [path[0]] + path[1..] == steps + path;
    }
  }

  /** The steps of a run determine its states. */
  lemma {:induction false} SameStates(c: Config, ss: seq<State>, steps: seq<Step>, ss': seq<State>, steps': seq<Step>, t: nat)
    requires IsRun(c, ss, steps) && IsRun(c, ss', steps') && steps <= steps' && t <= |steps|
    ensures ss'[t] == ss[t]
    decreases t
  {
    hide Enabled, Apply;
    if t > 0 {
      SameStates(c, ss, steps, ss', steps', t - 1);
      var step := steps[t - 1];
      assert steps'[t - 1] == step;
    }
  }

  /** From one moment of a run to a later one, applied files stay applied and broken connections broken. */
  lemma {:induction false} RunLasts(c: Config, ss: seq<State>, steps: seq<Step>, t: nat, u: nat)
    requires IsRun(c, ss, steps) && t <= u <= |steps|
    ensures Lasts(ss[t], ss[u], true)
    decreases u - t
  {
    hide Enabled, Apply;
    if t < u {
      RunLasts(c, ss, steps, t, u - 1);
      var step := steps[u - 1];
      StepLasts(c, ss[u - 1], step);
    }
  }

  // ---------------------------------------------------------------------------
  // What is awaited comes

  /** The answer is there, or on its way, or lost for good. */
  ghost predicate Awaited(c: Conn, id: nat) {
    c.broken || id in c.replied || Barrier(id) in c.pipe
  }

  ghost predicate WaitsAt(s: State, t: nat, m: nat) {
    && t < |s.copiers| && s.copiers[t].CWaiting?
    && s.copiers[t].file in s.sentOn && s.sentOn[s.copiers[t].file] == m && m < |s.conns|
  }

  /** Every lock has a holder. */
  ghost predicate LockOk(s: State) {
    forall m :: 0 <= m < |s.conns| && s.conns[m].locked ==>
      (s.feeder.Waiting? && s.feeder.i == m) || exists t: nat :: WaitsAt(s, t, m)
  }

  ghost predicate WaitOk(s: State) {
    && (forall t: nat, m: nat :: WaitsAt(s, t, m) ==> Awaited(s.conns[m], s.copiers[t].id))
    && (s.feeder.Waiting? ==> s.feeder.i < |s.conns| && Awaited(s.conns[s.feeder.i], s.feeder.id))
  }

  /** Only files sent on a connection are in its frames. */
  ghost predicate OwnOk(s: State) {
    forall m, x: nat :: 0 <= m < |s.conns| && Holds(s.conns[m], x) ==> x in s.sentOn && s.sentOn[x] == m
  }

  ghost predicate Order(s: State) {
    LockOk(s) && WaitOk(s) && OwnOk(s)
  }

  /** What a step keeps of locks, waits and frames, the connection k aside. */
  ghost predicate KeepsWaits(s: State, s': State) {
    && |s'.conns| == |s.conns|
    && (forall x :: x in s.sentOn ==> x in s'.sentOn && s'.sentOn[x] == s.sentOn[x])
    && (forall t: nat, m: nat :: WaitsAt(s, t, m) ==> WaitsAt(s', t, m))
    && (forall t: nat, m: nat :: WaitsAt(s', t, m) ==> WaitsAt(s, t, m) && s'.copiers[t] == s.copiers[t])
    && (s.feeder.Waiting? ==> s'.feeder == s.feeder)
    && (s'.feeder.Waiting? ==> s'.feeder == s.feeder)
  }

  /** What a connection still owes, it owes after the step, and it gets no file but x. */
  ghost predicate Carried(c: Conn, c': Conn, f: Frame) {
    && (forall id: nat :: Awaited(c, id) ==> Awaited(c', id))
    && (forall x: nat :: Holds(c', x) ==> Holds(c, x) || f == Put(x))
  }

  lemma AppendCarried(c: Conn, c': Conn, f: Frame)
    requires c'.pipe == c.pipe + [f] && c'.queued == c.queued && c'.active == c.active
    requires c'.broken == c.broken && c'.replied == c.replied
    ensures Carried(c, c', f)
    ensures f.Barrier? ==> Awaited(c', f.id)
  {
    assert c'.pipe[|c.pipe|] == f;
  }

  lemma ReadCarried(limit: nat, c: Conn, inline: bool)
    requires CanRead(limit, c, inline)
    ensures Carried(c, Read(limit, c, inline), Sync)
  {
    assert c.pipe == [c.pipe[0]] + c.pipe[1..];
  }

  lemma StartCarried(c: Conn)
    requires c.queued != []
    ensures Carried(c, c.(queued := c.queued[1..], active := c.active + [c.queued[0]]), Sync)
  {
    assert c.queued == [c.queued[0]] + c.queued[1..];
  }

  lemma FinishCarried(c: Conn, n: nat)
    requires n < |c.active|
    ensures Carried(c, c.(active := c.active[..n] + c.active[n + 1..]), Sync)
  {
  }

  lemma BreakCarried(c: Conn, n: nat)
    requires n <= |c.pipe|
    ensures Carried(c, c.(pipe := c.pipe[..n], broken := true), Sync)
  {
  }

  /** A step of connection k that leaves the threads that wait alone. */
  lemma OrderConn(s: State, s': State, k: nat, f: Frame)
    requires Order(s) && KeepsWaits(s, s') && k < |s.conns| && s'.conns == s.conns[k := s'.conns[k]]
    requires Carried(s.conns[k], s'.conns[k], f) && (s'.conns[k].locked ==> s.conns[k].locked)
    requires f.Put? ==> f.file in s'.sentOn && s'.sentOn[f.file] == k
    ensures Order(s')
  {
    hide Carried, Awaited, Holds, WaitsAt;
    forall m: nat | m < |s'.conns|
      ensures forall id: nat :: Awaited(s.conns[m], id) ==> Awaited(s'.conns[m], id)
      ensures forall x: nat :: Holds(s'.conns[m], x) ==> Holds(s.conns[m], x) || (f == Put(x) && m == k)
    {
      CarriedMeans(s.conns[k], s'.conns[k], f);
    }
    OrderFrom(s, s', k, f);
  }

  lemma CarriedMeans(c: Conn, c': Conn, f: Frame)
    requires Carried(c, c', f)
    ensures forall id: nat :: Awaited(c, id) ==> Awaited(c', id)
    ensures forall x: nat :: Holds(c', x) ==> Holds(c, x) || f == Put(x)
  {
  }

  lemma OrderFrom(s: State, s': State, k: nat, f: Frame)
    requires Order(s) && KeepsWaits(s, s')
    requires forall m :: 0 <= m < |s'.conns| && s'.conns[m].locked ==> s.conns[m].locked
    requires forall m: nat, id: nat :: m < |s.conns| && Awaited(s.conns[m], id) ==> Awaited(s'.conns[m], id)
    requires forall m: nat, x: nat :: m < |s.conns| && Holds(s'.conns[m], x) ==>
      Holds(s.conns[m], x) || (f == Put(x) && m == k)
    requires f.Put? ==> f.file in s'.sentOn && s'.sentOn[f.file] == k
    ensures Order(s')
  {
    hide Awaited, Holds;
    forall t: nat, m: nat | WaitsAt(s', t, m)
      ensures Awaited(s'.conns[m], s'.copiers[t].id)
    {
      assert WaitsAt(s, t, m) && Awaited(s.conns[m], s.copiers[t].id);
    }
    assert WaitOk(s');
    forall m | 0 <= m < |s'.conns| && s'.conns[m].locked
      ensures (s'.feeder.Waiting? && s'.feeder.i == m) || exists t: nat :: WaitsAt(s', t, m)
    {
      if !(s.feeder.Waiting? && s.feeder.i == m) {
        var t: nat :| WaitsAt(s, t, m);
        assert WaitsAt(s', t, m);
      }
    }
    assert LockOk(s');
    forall m, x: nat | 0 <= m < |s'.conns| && Holds(s'.conns[m], x)
      ensures x in s'.sentOn && s'.sentOn[x] == m
    {
      assert Holds(s.conns[m], x) || (f == Put(x) && m == k);
    }
  }

  lemma ServerOrder(c: Config, s: State, step: Step)
    requires Order(s) && Enabled(c, s, step) && OfServer(step)
    ensures Order(Apply(c, s, step))
  {
    hide Order, Carried, CanRead, Read, RunsInline;
    var s' := Apply(c, s, step);
    match step
    case ServerRead(k, inline) =>
      ReadCarried(c.poolLimits[k], s.conns[k], inline);
      ReadKeepsLock(c.poolLimits[k], s.conns[k], inline);
      OrderConn(s, s', k, Sync);
    case ServerStart(k) =>
      StartCarried(s.conns[k]);
      OrderConn(s, s', k, Sync);
    case ServerFinish(k, n) =>
      FinishCarried(s.conns[k], n);
      OrderConn(s, s', k, Sync);
    case Break(k, n) =>
      BreakCarried(s.conns[k], n);
      OrderConn(s, s', k, Sync);
  }

  lemma ReadKeepsLock(limit: nat, c: Conn, inline: bool)
    requires CanRead(limit, c, inline)
    ensures Read(limit, c, inline).locked == c.locked
  {
  }

  lemma SendOrder(c: Config, s: State, step: Step)
    requires Order(s) && ItemsOk(s) && Enabled(c, s, step) && (step.SendPut? || step.OtherFrame? || step.CheckerSend?)
    ensures Order(Apply(c, s, step))
  {
    hide Order, Carried;
    var s' := Apply(c, s, step);
    match step
    case SendPut(t, file, k) =>
      AppendCarried(s.conns[k], s'.conns[k], Put(file));
      OrderConn(s, s', k, Put(file));
    case OtherFrame(k, pooled) =>
      AppendCarried(s.conns[k], s'.conns[k], if pooled then Job else Sync);
      OrderConn(s, s', k, if pooled then Job else Sync);
    case CheckerSend(j, k) =>
      AppendCarried(s.conns[k], s'.conns[k], Check(s.checkers[j].item.file));
      OrderConn(s, s', k, Check(s.checkers[j].item.file));
  }

  /** Steps that send no frame and take no lock. */
  lemma QuietOrder(c: Config, s: State, step: Step)
    requires Order(s) && Enabled(c, s, step) && !OfServer(step) && !OfClient(step)
    requires !step.BarrierDone? && !step.BarrierLost? && (step.SendBarrier? ==> s.feeder.i >= |s.conns| || !step.sent)
    ensures Order(Apply(c, s, step))
  {
    hide Order, Awaited, Holds;
    var s' := Apply(c, s, step);
    QuietKeeps(c, s, step);
    OrderFrom(s, s', 0, Sync);
  }

  lemma QuietKeeps(c: Config, s: State, step: Step)
    requires Enabled(c, s, step) && !OfServer(step) && !OfClient(step)
    requires !step.BarrierDone? && !step.BarrierLost? && (step.SendBarrier? ==> s.feeder.i >= |s.conns| || !step.sent)
    ensures var s' := Apply(c, s, step); KeepsWaits(s, s') && s'.conns == s.conns
  {
    hide CanRead;
  }

  lemma PeriodicBarrierOrder(c: Config, s: State, t: nat)
    requires Order(s) && Enabled(c, s, PeriodicBarrier(t))
    ensures Order(Apply(c, s, PeriodicBarrier(t)))
  {
    var s', k := Apply(c, s, PeriodicBarrier(t)), s.sentOn[s.copiers[t].file];
    AppendCarried(s.conns[k], s'.conns[k], Barrier(s.conns[k].nextId));
    hide Awaited, Holds;
    assert forall u: nat, m: nat :: WaitsAt(s, u, m) ==> WaitsAt(s', u, m) && u != t;
    assert forall u: nat, m: nat :: WaitsAt(s', u, m) && u != t ==> WaitsAt(s, u, m);
    assert WaitsAt(s', t, k);
    assert LockOk(s');
    assert WaitOk(s');
  }

  lemma PeriodicDoneOrder(c: Config, s: State, t: nat)
    requires Order(s) && Enabled(c, s, PeriodicDone(t))
    ensures Order(Apply(c, s, PeriodicDone(t)))
  {
    var s', k := Apply(c, s, PeriodicDone(t)), s.sentOn[s.copiers[t].file];
    assert forall u: nat, m: nat :: WaitsAt(s, u, m) && m != k ==> WaitsAt(s', u, m);
    assert forall u: nat, m: nat :: WaitsAt(s', u, m) ==> WaitsAt(s, u, m) && u != t;
    assert LockOk(s');
    assert WaitOk(s');
  }

  lemma SendBarrierOrder(c: Config, s: State)
    requires Order(s) && Enabled(c, s, SendBarrier(true)) && s.feeder.i < |s.conns|
    ensures Order(Apply(c, s, SendBarrier(true)))
  {
    var s', i := Apply(c, s, SendBarrier(true)), s.feeder.i;
    AppendCarried(s.conns[i], s'.conns[i], Barrier(s.conns[i].nextId));
    hide Awaited, Holds;
    assert forall u: nat, m: nat :: WaitsAt(s, u, m) <==> WaitsAt(s', u, m);
    assert LockOk(s');
    assert WaitOk(s');
  }

  lemma BarrierEndOrder(c: Config, s: State, step: Step)
    requires Order(s) && Enabled(c, s, step) && (step.BarrierDone? || step.BarrierLost?)
    ensures Order(Apply(c, s, step))
  {
    var s' := Apply(c, s, step);
    assert forall u: nat, m: nat :: WaitsAt(s, u, m) <==> WaitsAt(s', u, m);
    assert LockOk(s');
    assert WaitOk(s');
  }

  lemma StepOrder(c: Config, s: State, step: Step)
    requires Order(s) && Inv(c, s) && Enabled(c, s, step)
    ensures Order(Apply(c, s, step))
  {
    hide Order, Enabled, Apply;
    match step
    case PeriodicBarrier(t) => PeriodicBarrierOrder(c, s, t);
    case PeriodicDone(t) => PeriodicDoneOrder(c, s, t);
    case BarrierDone(_) => BarrierEndOrder(c, s, step);
    case BarrierLost => BarrierEndOrder(c, s, step);
    case SendBarrier(sent) =>
      if sent && s.feeder.AtConn? && s.feeder.i < |s.conns| {
        SendBarrierOrder(c, s);
      } else {
        FeederAtConn(c, s, sent);
        QuietOrder(c, s, step);
      }
    case _ =>
      if OfServer(step) {
        ServerOrder(c, s, step);
      } else if OfClient(step) {
        SendOrder(c, s, step);
      } else {
        QuietOrder(c, s, step);
      }
  }

  lemma FeederAtConn(c: Config, s: State, sent: bool)
    requires Enabled(c, s, SendBarrier(sent))
    ensures s.feeder.AtConn?
  {
  }

  ghost predicate Good(c: Config, s: State) {
    Inv(c, s) && Order(s)
  }

  lemma {:induction false} RunGood(c: Config, ss: seq<State>, steps: seq<Step>, t: nat)
    requires IsRun(c, ss, steps) && t < |ss|
    ensures Good(c, ss[t])
    decreases t
  {
    RunInv(c, ss, steps, t);
    if t == 0 {
      InitOrder(c);
    } else {
      RunGood(c, ss, steps, t - 1);
      var step := steps[t - 1];
      StepOrder(c, ss[t - 1], step);
    }
    hide *;
  }

  lemma InitOrder(c: Config)
    ensures Order(Init(c))
  {
  }

  lemma {:induction false} PathGood(c: Config, s: State, path: seq<Step>, s': State)
    requires Good(c, s) && Leads(c, s, path, s')
    ensures Good(c, s')
    decreases |path|
  {
    hide Enabled, Apply, Inv, Order;
    if path != [] {
      StepInv(c, s, path[0]);
      StepOrder(c, s, path[0]);
      PathGood(c, Apply(c, s, path[0]), path[1..], s');
    }
  }

  lemma ReachesGood(c: Config, s: State, s': State)
    requires Good(c, s) && Reaches(c, s, s')
    ensures Good(c, s')
  {
    var path :| Leads(c, s, path, s');
    hide Good, Leads;
    PathGood(c, s, path, s');
  }

  // ---------------------------------------------------------------------------
  // Towards the check

  /** A client and servers that can work at all. */
  ghost predicate Works(c: Config) {
    |c.poolLimits| == c.conns && c.checkers >= 1 && c.checkLimit >= 1
  }

  ghost predicate Shape(c: Config, s: State) {
    |s.conns| == c.conns && |s.checkers| == c.checkers
  }

  /** The generation stays, and of its files only those of other connections than own may get applied. */
  ghost predicate Spares(s: State, s': State, own: nat) {
    && s'.gen == s.gen && s'.sentOn == s.sentOn && |s'.conns| == |s.conns| && |s'.checkers| == |s.checkers|
    && (forall k :: 0 <= k < |s.conns| ==> s'.conns[k].broken == s.conns[k].broken)
    && (forall x :: x in s'.finished ==> x in s.finished || (x in s.sentOn && s.sentOn[x] != own))
  }

  /** Only server m has worked. */
  ghost predicate OnlyServer(s: State, s': State, m: nat)
    requires m < |s.conns|
  {
    && m < |s'.conns| && s' == s.(conns := s.conns[m := s'.conns[m]], finished := s'.finished)
    && s'.conns[m].locked == s.conns[m].locked && s'.conns[m].broken == s.conns[m].broken
    && (forall x :: x in s'.finished ==> x in s.finished || (x in s.sentOn && s.sentOn[x] == m))
  }

  function Load(c: Conn): nat {
    3 * |c.pipe| + 2 * |c.queued| + |c.active|
  }

  /** What server m does next when it has work. */
  function ServerTurn(s: State, m: nat): Step
    requires m < |s.conns|
  {
    if s.conns[m].active != [] then ServerFinish(m, 0)
    else if s.conns[m].queued != [] then ServerStart(m)
    else ServerRead(m, false)
  }

  ghost predicate WorkedOff(c: Config, s: State, m: nat, step: Step)
    requires m < |s.conns|
  {
    Enabled(c, s, step) &&
    var s' := Apply(c, s, step); OnlyServer(s, s', m) && Load(s'.conns[m]) < Load(s.conns[m])
  }

  lemma FinishWorks(c: Config, s: State, m: nat)
    requires OwnOk(s) && m < |s.conns| && s.conns[m].active != []
    ensures WorkedOff(c, s, m, ServerFinish(m, 0))
  {
    assert s.conns[m].active[0].Put? ==> Holds(s.conns[m], s.conns[m].active[0].file);
    hide OwnOk, Holds;
  }

  lemma ReadWorks(c: Config, s: State, m: nat)
    requires Works(c) && Shape(c, s) && OwnOk(s) && m < |s.conns|
    requires s.conns[m].active == [] && s.conns[m].queued == [] && s.conns[m].pipe != []
    ensures WorkedOff(c, s, m, ServerRead(m, false))
  {
    var n := s.conns[m];
    assert n.pipe[0].Put? ==> Holds(n, n.pipe[0].file);
    hide OwnOk, Holds;
    assert CanRead(c.poolLimits[m], n, false);
    assert Load(Read(c.poolLimits[m], n, false)) < Load(n);
  }

  lemma ServerWorks(c: Config, s: State, m: nat)
    requires Works(c) && Shape(c, s) && OwnOk(s) && m < |s.conns| && Load(s.conns[m]) > 0
    ensures WorkedOff(c, s, m, ServerTurn(s, m))
  {
    hide OwnOk;
    if s.conns[m].active != [] {
      hide WorkedOff;
      FinishWorks(c, s, m);
    } else if s.conns[m].queued == [] {
      hide WorkedOff;
      ReadWorks(c, s, m);
    }
  }

  /** A server can work off all that it has been sent. */
  lemma {:induction false} Drain(c: Config, s: State, m: nat) returns (s': State)
    requires Works(c) && Shape(c, s) && Good(c, s) && m < |s.conns|
    ensures Reaches(c, s, s') && OnlyServer(s, s', m) && Load(s'.conns[m]) == 0
    decreases Load(s.conns[m])
  {
    if Load(s.conns[m]) == 0 {
      s' := s;
      Stays(c, s);
    } else {
      ServerWorks(c, s, m);
      Stays(c, s);
      hide Enabled, Apply, Reaches, Inv, Order, ServerTurn, Load;
      var step := ServerTurn(s, m);
      StepInv(c, s, step);
      StepOrder(c, s, step);
      Then(c, s, s, step);
      s' := Drain(c, Apply(c, s, step), m);
      ReachesOn(c, s, Apply(c, s, step), s');
    }
  }

  /** The wait of a copy thread for the answer on connection i can come to its end. */
  lemma Unlock(c: Config, s: State, own: nat) returns (s': State)
    requires Works(c) && Shape(c, s) && Good(c, s)
    requires s.feeder.AtConn? && own < s.feeder.i < |s.conns| && s.conns[s.feeder.i].locked
    ensures Reaches(c, s, s') && Spares(s, s', own) && s'.feeder == s.feeder && !s'.conns[s.feeder.i].locked
  {
    var i := s.feeder.i;
    var t: nat :| WaitsAt(s, t, i);
    var s1 := Drain(c, s, i);
    hide Reaches, Inv, Load;
    ReachesGood(c, s, s1);
    assert WaitsAt(s1, t, i);
    Empty(s1.conns[i], s1.copiers[t].id);
    Then(c, s, s1, PeriodicDone(t));
    s' := Apply(c, s1, PeriodicDone(t));
  }

  lemma Empty(c: Conn, id: nat)
    requires Load(c) == 0 && Awaited(c, id)
    ensures c.broken || id in c.replied
  {
  }

  lemma ShapeStays(c: Config, s: State, s': State, own: nat)
    requires Shape(c, s) && Spares(s, s', own)
    ensures Shape(c, s')
  {
  }

  lemma SparesOn(s: State, s1: State, s2: State, own: nat)
    requires Spares(s, s1, own) && Spares(s1, s2, own)
    ensures Spares(s, s2, own)
  {
  }

  /** The feeder can come past a connection, in any case without an answer. */
  lemma PassConn(c: Config, s: State, own: nat) returns (s': State)
    requires Works(c) && Shape(c, s) && Good(c, s) && s.feeder.AtConn? && own < s.feeder.i
    ensures Reaches(c, s, s') && Spares(s, s', own)
    ensures if s.feeder.i >= |s.conns| then s'.feeder.Releasing? else s'.feeder.AtConn? && s'.feeder.i == s.feeder.i + 1
  {
    var i := s.feeder.i;
    var s1 := s;
    Stays(c, s);
    if i < |s.conns| && s.conns[i].locked {
      s1 := Unlock(c, s, own);
    }
    hide Reaches, Good;
    Then(c, s, s1, SendBarrier(false));
    s' := Apply(c, s1, SendBarrier(false));
  }

  lemma DrainSpares(s: State, s': State, m: nat, own: nat)
    requires m < |s.conns| && OnlyServer(s, s', m) && own != m
    ensures Spares(s, s', own)
  {
  }

  lemma BarrierOver(c: Config, s: State, step: Step, own: nat)
    requires Enabled(c, s, step) && (step.BarrierLost? || step.BarrierDone?)
    ensures var s' := Apply(c, s, step); Spares(s, s', own) && s'.feeder.AtConn? && s'.feeder.i == s.feeder.i + 1
  {
  }

  lemma PassWait(c: Config, s: State, own: nat) returns (s': State)
    requires Works(c) && Shape(c, s) && Good(c, s) && s.feeder.Waiting? && own < s.feeder.i
    ensures Reaches(c, s, s') && Spares(s, s', own) && s'.feeder.AtConn? && s'.feeder.i == s.feeder.i + 1
  {
    var i := s.feeder.i;
    var s1 := Drain(c, s, i);
    hide Reaches, Inv, Load;
    ReachesGood(c, s, s1);
    Empty(s1.conns[i], s1.feeder.id);
    var step := if s1.conns[i].broken then BarrierLost else BarrierDone(false);
    assert Enabled(c, s1, step);
    hide Good, Enabled, Apply;
    Then(c, s, s1, step);
    s' := Apply(c, s1, step);
    BarrierOver(c, s1, step, own);
    DrainSpares(s, s1, i, own);
    SparesOn(s, s1, s', own);
  }

  /** Once the connection of the files has had its turn, the generation can be released without them. */
  lemma {:induction false} ToRelease(c: Config, s: State, own: nat) returns (s': State)
    requires Works(c) && Shape(c, s) && Good(c, s) && Gating(s) && own < Turn(s) <= |s.conns|
    ensures Reaches(c, s, s') && Spares(s, s', own) && s'.feeder.Releasing?
    decreases |s.conns| - Turn(s), if s.feeder.Releasing? then 0 else if s.feeder.AtConn? then 1 else 2
  {
    if s.feeder.Releasing? {
      s' := s;
      Stays(c, s);
    } else {
      var s1;
      hide Reaches, Good;
      if s.feeder.Waiting? {
        s1 := PassWait(c, s, own);
      } else {
        s1 := PassConn(c, s, own);
      }
      ReachesGood(c, s, s1);
      ShapeStays(c, s, s1, own);
      s' := ToRelease(c, s1, own);
      ReachesOn(c, s, s1, s');
      SparesOn(s, s1, s', own);
    }
  }

  /** Only items have moved to and from the verification threads. */
  ghost predicate OnlyChecks(s: State, s': State) {
    s' == s.(checks := s'.checks, checkers := s'.checkers, verified := s'.verified) && |s'.checkers| == |s.checkers|
  }

  /** Verification threads can clear their queue. */
  lemma {:induction false} Clear(c: Config, s: State) returns (s': State)
    requires Works(c) && Shape(c, s)
    ensures Reaches(c, s, s') && OnlyChecks(s, s') && s'.checks == [] && s'.checkers[0] == KIdle
    decreases |s.checks|, s.checkers[0].KBusy?
  {
    Stays(c, s);
    hide Reaches;
    if s.checkers[0].KBusy? {
      Then(c, s, s, CheckerDone(0));
      var s1 := Apply(c, s, CheckerDone(0));
      s' := Clear(c, s1);
      ReachesOn(c, s, s1, s');
    } else if s.checks != [] {
      Then(c, s, s, CheckerTake(0));
      var s1 := Apply(c, s, CheckerTake(0));
      s' := Clear(c, s1);
      ReachesOn(c, s, s1, s');
    } else {
      s' := s;
    }
  }

  /** An item of a generation that is being released can come into the hands of a verification thread. */
  lemma {:induction false} ToChecker(c: Config, s: State, it: Item) returns (s': State)
    requires Works(c) && Shape(c, s) && s.feeder.Releasing? && it in s.gen
    ensures Reaches(c, s, s') && s'.conns == s.conns && s'.finished == s.finished
    ensures |s'.checkers| == c.checkers && s'.checkers[0] == KBusy(it)
    decreases |s.gen|
  {
    hide Reaches;
    var s1 := Clear(c, s);
    Then(c, s, s1, Release);
    var s2 := Apply(c, s1, Release);
    assert s2.checks == [s.gen[0]];
    if s.gen[0] == it {
      Then(c, s, s2, CheckerTake(0));
      s' := Apply(c, s2, CheckerTake(0));
    } else {
      assert s.gen == [s.gen[0]] + s2.gen;
      s' := ToChecker(c, s2, it);
      ReachesOn(c, s, s2, s');
    }
  }

  // ---------------------------------------------------------------------------
  // Main results

  /** The step sends a check of the item although its file has not been applied. */
  ghost predicate Overtakes(s: State, step: Step, it: Item) {
    && step.CheckerSend? && step.j < |s.checkers| && s.checkers[step.j] == KBusy(it)
    && !it.durable && it.file !in s.finished
  }

  /** The run can go on to a step that checks the item too early. */
  ghost predicate CanOvertake(c: Config, steps: seq<Step>, it: Item) {
    exists ss': seq<State>, steps': seq<Step>, n: nat :: IsRun(c, ss', steps') && steps <= steps' && |steps| <= n < |steps'| && Overtakes(ss'[n], steps'[n], it)
  }

  ghost predicate SomeLive(s: State) {
    exists k :: 0 <= k < |s.conns| && !s.conns[k].broken
  }

  lemma Shapes(c: Config, ss: seq<State>, steps: seq<Step>, t: nat)
    requires IsRun(c, ss, steps) && t < |ss|
    ensures Shape(c, ss[t])
    decreases t
  {
    if t > 0 {
      Shapes(c, ss, steps, t - 1);
      var step := steps[t - 1];
      StepLasts(c, ss[t - 1], step);
      hide *;
    }
  }

  /** From there the item can come to a verification thread while its file is still not applied. */
  lemma TakenUnapplied(c: Config, s: State, it: Item) returns (s': State)
    requires Works(c) && Shape(c, s) && Good(c, s) && Gating(s) && it in s.gen && it.file in s.sentOn
    requires s.sentOn[it.file] < Turn(s) <= |s.conns| && it.file !in s.finished
    ensures Reaches(c, s, s') && |s'.conns| == |s.conns| && it.file !in s'.finished
    ensures |s'.checkers| >= 1 && s'.checkers[0] == KBusy(it)
    ensures forall k :: 0 <= k < |s.conns| ==> s'.conns[k].broken == s.conns[k].broken
  {
    hide Good, Reaches;
    var own := s.sentOn[it.file];
    var s1 := ToRelease(c, s, own);
    ShapeStays(c, s, s1, own);
    s' := ToChecker(c, s1, it);
    ReachesOn(c, s, s1, s');
  }

  lemma GoodFacts(c: Config, s: State, it: Item)
    requires Good(c, s) && Gating(s) && it in s.gen
    ensures !it.durable && Turn(s) <= |s.conns|
  {
  }

  /** Without an answer of its connection, a file that is not applied can be checked too early. */
  lemma UnansweredOvertakes(c: Config, ss: seq<State>, steps: seq<Step>, it: Item)
    requires Works(c) && IsRun(c, ss, steps)
    requires var s := ss[|steps|];
             && Gating(s) && it in s.gen && it.file in s.sentOn && s.sentOn[it.file] < Turn(s)
             && it.file !in s.finished && SomeLive(s)
    ensures CanOvertake(c, steps, it)
  {
    var s := ss[|steps|];
    RunGood(c, ss, steps, |steps|);
    Shapes(c, ss, steps, |steps|);
    hide Good, Reaches, CanOvertake, IsRun, Apply;
    GoodFacts(c, s, it);
    var k: nat :| k < |s.conns| && !s.conns[k].broken;
    var s' := TakenUnapplied(c, s, it);
    Extended(c, ss, steps, s', CheckerSend(0, k), it);
  }

  lemma Extended(c: Config, ss: seq<State>, steps: seq<Step>, s': State, step: Step, it: Item)
    requires IsRun(c, ss, steps) && Reaches(c, ss[|steps|], s') && Enabled(c, s', step) && Overtakes(s', step, it)
    ensures CanOvertake(c, steps, it)
  {
    hide Enabled, Apply, Overtakes, Leads;
    var path :| Leads(c, ss[|steps|], path, s');
    var ss1 := RunOn(c, ss, steps, path, s');
    var steps1 := steps + path;
    var steps2, ss2 := steps1 + [step], ss1 + [Apply(c, s', step)];
    assert steps2[|steps1|] == step && ss2[|steps1|] == s';
    assert IsRun(c, ss2, steps2);
  }

  /** A file that has been applied, or that no live connection is left for, is not checked too early any more. */
  lemma OvertakingNeeds(c: Config, ss: seq<State>, steps: seq<Step>, it: Item)
    requires IsRun(c, ss, steps) && CanOvertake(c, steps, it)
    ensures it.file !in ss[|steps|].finished && SomeLive(ss[|steps|])
  {
    var ss': seq<State>, steps': seq<Step>, n: nat :| IsRun(c, ss', steps') && steps <= steps' && |steps| <= n < |steps'| && Overtakes(ss'[n], steps'[n], it);
    SameStates(c, ss, steps, ss', steps', |steps|);
    RunLasts(c, ss', steps', |steps|, n);
    var step := steps'[n];
    assert Enabled(c, ss'[n], step);
    assert !ss'[n].conns[step.k].broken;
  }

  /**
   At any moment of any run at which a file of the generation has had its connection's turn: a
   check can overtake it if and only if that connection has not answered the barrier, the file
   is not applied yet, and some connection lives. An answer always means that the file is applied.
   */
  lemma OvertakesIff(c: Config, ss: seq<State>, steps: seq<Step>, it: Item)
    requires Works(c) && IsRun(c, ss, steps)
    requires var s := ss[|steps|]; Gating(s) && it in s.gen && it.file in s.sentOn && s.sentOn[it.file] < Turn(s)
    ensures var s := ss[|steps|];
            CanOvertake(c, steps, it) <==> !Answered(s, it.file) && it.file !in s.finished && SomeLive(s)
    ensures Answered(ss[|steps|], it.file) ==> it.file in ss[|steps|].finished
  {
    var s := ss[|steps|];
    RunInv(c, ss, steps, |steps|);
    assert Answered(s, it.file) ==> it.file in s.finished;
    hide Inv, CanOvertake;
    if CanOvertake(c, steps, it) {
      OvertakingNeeds(c, ss, steps, it);
    } else if it.file !in s.finished && SomeLive(s) {
      UnansweredOvertakes(c, ss, steps, it);
    }
  }

  // ---------------------------------------------------------------------------
  // A run in which a check overtakes

  /** Two connections, one copy thread, one verification thread, generations of one item. */
  const SMALL: Config := Config(2, [1, 1], 1, 1, 1, 1)

  /** File 7 has been sent on connection 0, whose server has not read it. */
  ghost function Unread(copier: Copier, queue: seq<Item>, feeder: FeederPc, gen: seq<Item>, submitted: set<Item>): State {
    var idle := Conn([], [], [], {}, 0, false, false);
    State([idle.(pipe := [Put(7)]), idle], [copier], queue, false, false, feeder, gen, [], [KIdle],
          map[7 := 0], {}, {}, {}, submitted, {}, {})
  }

  /** The copy thread sends the file and queues its item, and the feeder collects it. */
  const COLLECTED: seq<Step> := [SendPut(0, 7, 0), QueueItem(0), Take(false), Route, Decide]

  /** No barrier can be sent; the item is released nevertheless and taken by the verification thread. */
  const RELEASED: seq<Step> := [SendBarrier(false), SendBarrier(false), SendBarrier(false), Release, CheckerTake(0)]

  ghost predicate Gives(s: State, step: Step, s': State) {
    Enabled(SMALL, s, step) && s' == Apply(SMALL, s, step)
  }

  lemma FiveSteps(ss: seq<State>, steps: seq<Step>)
    requires |ss| == 6 && |steps| == 5
    requires forall t {:trigger steps[t]} :: 0 <= t < 5 ==> Gives(ss[t], steps[t], ss[t + 1])
    ensures Leads(SMALL, ss[0], steps, ss[5])
  {
    hide Enabled, Apply;
    assert Leads(SMALL, ss[5], steps[5..], ss[5]);
    assert Leads(SMALL, ss[4], steps[4..], ss[5]);
    assert Leads(SMALL, ss[3], steps[3..], ss[5]);
    assert Leads(SMALL, ss[2], steps[2..], ss[5]);
    assert Leads(SMALL, ss[1], steps[1..], ss[5]);
  }

  lemma Sent()
    ensures Gives(Init(SMALL), SendPut(0, 7, 0), Unread(CSent(7), [], Intake, [], {}))
  {
    var s0, s1 := Init(SMALL), Unread(CSent(7), [], Intake, [], {});
    var idle := s1.conns[1];
    assert s0.conns == [idle, idle] && s0.copiers == [CIdle] && s0.checkers == [KIdle];
    assert Send(idle, Put(7)) == s1.conns[0] && s1.sentOn == s0.sentOn[7 := 0];
    assert [idle, idle][0 := s1.conns[0]] == s1.conns && [CIdle][0 := CSent(7)] == s1.copiers;
  }

  lemma Queued(it: Item)
    requires it == Item(7, false)
    ensures Gives(Unread(CSent(7), [], Intake, [], {}), QueueItem(0), Unread(CIdle, [it], Intake, [], {it}))
  {
    assert [] + [it] == [it] && [CSent(7)][0 := CIdle] == [CIdle];
  }

  lemma Routed(it: Item)
    requires it == Item(7, false)
    ensures Gives(Unread(CIdle, [it], Intake, [], {it}), Take(false), Unread(CIdle, [], Routing([it], false, false), [], {it}))
    ensures Gives(Unread(CIdle, [], Routing([it], false, false), [], {it}), Route, Unread(CIdle, [], Routing([], false, false), [it], {it}))
    ensures Gives(Unread(CIdle, [], Routing([], false, false), [it], {it}), Decide, Unread(CIdle, [], AtConn(0, true, false), [it], {it}))
  {
    assert [it][1..] == [] && [] + [it] == [it];
  }

  lemma Collected()
    ensures Leads(SMALL, Init(SMALL), COLLECTED, Unread(CIdle, [], AtConn(0, true, false), [Item(7, false)], {Item(7, false)}))
  {
    hide Gives, Unread, Init, Leads;
    var it := Item(7, false);
    Sent();
    Queued(it);
    Routed(it);
    FiveSteps([Init(SMALL), Unread(CSent(7), [], Intake, [], {}), Unread(CIdle, [it], Intake, [], {it}),
               Unread(CIdle, [], Routing([it], false, false), [], {it}), Unread(CIdle, [], Routing([], false, false), [it], {it}),
               Unread(CIdle, [], AtConn(0, true, false), [it], {it})], COLLECTED);
  }

  lemma Unsynchronized(s: State)
    requires s.feeder == AtConn(0, true, false) && |s.conns| == 2 && !s.conns[0].locked && !s.conns[1].locked
    ensures Gives(s, SendBarrier(false), s.(feeder := AtConn(1, false, false)))
    ensures Gives(s.(feeder := AtConn(1, false, false)), SendBarrier(false), s.(feeder := AtConn(2, false, false)))
    ensures Gives(s.(feeder := AtConn(2, false, false)), SendBarrier(false), s.(feeder := Releasing(false, false)))
  {
  }

  lemma TakenUp(s: State, s1: State, s2: State, it: Item)
    requires s.feeder.Releasing? && s.gen == [it] && s.checks == [] && s.checkers == [KIdle] && it.file in s.sentOn && s.answered == {}
    requires s1 == s.(gen := [], checks := [it], missed := s.missed + {it.file})
    requires s2 == s1.(checks := [], checkers := [KBusy(it)])
    ensures Gives(s, Release, s1) && Gives(s1, CheckerTake(0), s2)
  {
    assert [it][1..] == [] && [] + [it] == [it] && [KIdle][0 := KBusy(it)] == [KBusy(it)];
  }

  lemma Released()
    ensures var s := Unread(CIdle, [], AtConn(0, true, false), [Item(7, false)], {Item(7, false)});
            exists s' :: Leads(SMALL, s, RELEASED, s') && Overtakes(s', CheckerSend(0, 1), Item(7, false)) &&
                         Enabled(SMALL, s', CheckerSend(0, 1))
  {
    hide Gives, Leads;
    var it := Item(7, false);
    var s := Unread(CIdle, [], AtConn(0, true, false), [it], {it});
    var s1 := s.(feeder := Releasing(false, false));
    var s2 := s1.(gen := [], checks := [it], missed := {} + {7});
    var s3 := s2.(checks := [], checkers := [KBusy(it)]);
    Unsynchronized(s);
    TakenUp(s1, s2, s3, it);
    FiveSteps([s, s.(feeder := AtConn(1, false, false)), s.(feeder := AtConn(2, false, false)), s1, s2, s3], RELEASED);
    assert Overtakes(s3, CheckerSend(0, 1), it) && Enabled(SMALL, s3, CheckerSend(0, 1));
  }

  /** A run in which file 7 is checked over connection 1 while its frame is still unread on connection 0. */
  lemma OvertakingRun()
    ensures var steps := COLLECTED + RELEASED + [CheckerSend(0, 1)];
            exists ss :: IsRun(SMALL, ss, steps) && Overtakes(ss[10], steps[10], Item(7, false))
  {
    Collected();
    Released();
    hide Enabled, Apply, Overtakes, Leads, Unread;
    var s := Unread(CIdle, [], AtConn(0, true, false), [Item(7, false)], {Item(7, false)});
    var s' :| Leads(SMALL, s, RELEASED, s') && Overtakes(s', CheckerSend(0, 1), Item(7, false)) && Enabled(SMALL, s', CheckerSend(0, 1));
    LeadsOn(SMALL, Init(SMALL), COLLECTED, s, RELEASED, s');
    var ss := RunOn(SMALL, [Init(SMALL)], [], COLLECTED + RELEASED, s');
    var steps := COLLECTED + RELEASED + [CheckerSend(0, 1)];
    assert [] + (COLLECTED + RELEASED) == COLLECTED + RELEASED;
    var ss1 := ss + [Apply(SMALL, s', CheckerSend(0, 1))];
    assert steps[10] == CheckerSend(0, 1) && ss1[10] == s';
    assert IsRun(SMALL, ss1, steps);
  }
}
