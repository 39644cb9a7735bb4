/**
 Pipelined verification of a remote copy. Copy threads send small files as frames that are
 not answered; each server reads its frames in order but applies them in a pool. The feeder
 holds such files back until every connection has answered a barrier. Any interleaving of
 the steps of copy threads, feeder, verification threads and servers is a run.
 */
module Feeder {

  /**
   Job stands for the other requests that go to the pool, such as those for a directory, and Sync for all
   that do not: the server drains its pool before it handles one.
   */
  datatype Frame = Put(file: nat) | Check(file: nat) | Job | Barrier(id: nat) | Sync

  /** One connection and its server. A broken connection delivers only what was sent before. */
  datatype Conn = Conn(pipe: seq<Frame>, queued: seq<Frame>, active: seq<Frame>,
                       replied: set<nat>, nextId: nat, locked: bool, broken: bool)

  /** A durable item is on disk when it is queued. */
  datatype Item = Item(file: nat, durable: bool)

  /** A copy thread, after sending a file, may issue a periodic barrier before it queues the item. */
  datatype Copier = CIdle | CSent(file: nat) | CWaiting(file: nat, id: nat)

  datatype FeederPc =
    | Intake
    | Routing(batch: seq<Item>, timedOut: bool, stop: bool)
    | AtConn(i: nat, ok: bool, stop: bool)
    | Waiting(i: nat, id: nat, ok: bool, stop: bool)
    | Releasing(ok: bool, stop: bool)
    | Finished

  datatype Checker = KIdle | KBusy(item: Item)

  datatype Config = Config(
    conns: nat,          // connections
    poolLimits: seq<nat>, // outstanding jobs of each server's pool; 0 without a pool
    copiers: nat, checkers: nat,
    generation: nat,     // items that make a generation full
    checkLimit: nat)     // bound on the queue of the verification threads

  datatype State = State(
    conns: seq<Conn>, copiers: seq<Copier>,
    intake: seq<Item>, stopping: bool, failed: bool,
    feeder: FeederPc, gen: seq<Item>,
    checks: seq<Item>, checkers: seq<Checker>,
    sentOn: map<nat, nat>, finished: set<nat>,                          // history
    answered: set<nat>,   // history: connections that have answered the barrier of the current generation
    missed: set<nat>,     // history: files released although their connection had not
    submitted: set<Item>, checked: set<Item>, verified: set<Item>)      // history

  datatype Step =
    | SendPut(t: nat, file: nat, k: nat)
    | PeriodicBarrier(t: nat)
    | PeriodicDone(t: nat)
    | QueueItem(t: nat)
    | QueueDurable(t: nat, file: nat)
    | OtherFrame(k: nat, pooled: bool)
    | StopFeeder
    | Take(timedOut: bool)
    | Route
    | Decide
    | SendBarrier(sent: bool)
    | BarrierDone(errors: bool)
    | BarrierLost
    | Release
    | CheckerTake(j: nat)
    | CheckerSend(j: nat, k: nat)
    | CheckerDone(j: nat)
    | ServerRead(k: nat, inline: bool)
    | ServerStart(k: nat)
    | ServerFinish(k: nat, n: nat)
    | Break(k: nat, n: nat)

  function Init(c: Config): State {
    State(seq(c.conns, k => Conn([], [], [], {}, 0, false, false)), seq(c.copiers, t => CIdle),
          [], false, false, Intake, [], [], seq(c.checkers, j => KIdle),
          map[], {}, {}, {}, {}, {}, {})
  }

  // ---------------------------------------------------------------------------
  // Connections

  function Send(c: Conn, f: Frame): Conn { c.(pipe := c.pipe + [f]) }

  function SendLocked(c: Conn): Conn {
    c.(pipe := c.pipe + [Barrier(c.nextId)], nextId := c.nextId + 1, locked := true)
  }

  predicate ForPool(f: Frame) { f.Put? || f.Check? || f.Job? }

  /** The reader may take the next frame: room in the pool for a job, an empty pool for anything else. */
  predicate CanRead(limit: nat, c: Conn, inline: bool) {
    && c.pipe != []
    && if limit > 0 && ForPool(c.pipe[0]) then inline || |c.queued| + |c.active| < limit
       else c.queued == [] && c.active == []
  }

  /** A job goes to the pool, unless it has to run in the reader itself. */
  predicate RunsInline(limit: nat, f: Frame, inline: bool) {
    f.Put? && (limit == 0 || inline)
  }

  function Read(limit: nat, c: Conn, inline: bool): Conn
    requires CanRead(limit, c, inline)
  {
    var f := c.pipe[0];
    var c1 := c.(pipe := c.pipe[1..]);
    if f.Barrier? then c1.(replied := c.replied + {f.id})
    else if limit > 0 && ForPool(f) && !inline then c1.(queued := c.queued + [f])
    else c1
  }

  // ---------------------------------------------------------------------------
  // Steps

  ghost predicate Enabled(c: Config, s: State, step: Step) {
    match step
    case SendPut(t, file, k) => t < |s.copiers| && s.copiers[t] == CIdle && file !in s.sentOn && k < |s.conns| && !s.conns[k].broken
    case PeriodicBarrier(t) =>
      && t < |s.copiers| && s.copiers[t].CSent? && s.copiers[t].file in s.sentOn
      && var k := s.sentOn[s.copiers[t].file]; k < |s.conns| && !s.conns[k].locked && !s.conns[k].broken
    case PeriodicDone(t) =>
      && t < |s.copiers| && s.copiers[t].CWaiting? && s.copiers[t].file in s.sentOn
      && var k := s.sentOn[s.copiers[t].file]; k < |s.conns| && (s.copiers[t].id in s.conns[k].replied || s.conns[k].broken)
    case QueueItem(t) => t < |s.copiers| && s.copiers[t].CSent?
    case QueueDurable(t, file) => t < |s.copiers| && s.copiers[t] == CIdle
    case OtherFrame(k, pooled) => k < |s.conns| && !s.conns[k].broken
    case StopFeeder => true
    case Take(timedOut) => s.feeder == Intake && (s.intake != [] || s.stopping || timedOut)
    case Route => s.feeder.Routing? && s.feeder.batch != [] && (s.feeder.batch[0].durable ==> |s.checks| < c.checkLimit)
    case Decide => s.feeder.Routing? && s.feeder.batch == []
    case SendBarrier(sent) =>
      && s.feeder.AtConn?
      && (s.feeder.i < |s.conns| ==> !s.conns[s.feeder.i].locked && (sent ==> !s.conns[s.feeder.i].broken))
    case BarrierDone(errors) => s.feeder.Waiting? && s.feeder.i < |s.conns| && s.feeder.id in s.conns[s.feeder.i].replied
    case BarrierLost => s.feeder.Waiting? && s.feeder.i < |s.conns| && s.conns[s.feeder.i].broken
    case Release => s.feeder.Releasing? && (s.gen != [] ==> |s.checks| < c.checkLimit)
    case CheckerTake(j) => j < |s.checkers| && s.checkers[j] == KIdle && s.checks != []
    case CheckerSend(j, k) => j < |s.checkers| && s.checkers[j].KBusy? && k < |s.conns| && !s.conns[k].broken
    case CheckerDone(j) => j < |s.checkers| && s.checkers[j].KBusy?
    case ServerRead(k, inline) => k < |s.conns| && k < |c.poolLimits| && CanRead(c.poolLimits[k], s.conns[k], inline)
    case ServerStart(k) => k < |s.conns| && s.conns[k].queued != []
    case ServerFinish(k, n) => k < |s.conns| && n < |s.conns[k].active|
    case Break(k, n) => k < |s.conns| && n <= |s.conns[k].pipe|
  }

  function OnConn(s: State, k: nat, c: Conn): State
    requires k < |s.conns|
  {
    s.(conns := s.conns[k := c])
  }

  /** A full generation, a quiet moment or the end releases what has been collected. */
  function DoDecide(c: Config, s: State): State
    requires s.feeder.Routing?
  {
    if s.gen != [] && (|s.gen| >= c.generation || s.feeder.timedOut || s.feeder.stop)
    then s.(feeder := AtConn(0, true, s.feeder.stop), answered := {})
    else s.(feeder := if s.feeder.stop then Finished else Intake)
  }

  function DoSendBarrier(s: State, sent: bool): State
    requires s.feeder.AtConn?
  {
    var AtConn(i, ok, stop) := s.feeder;
    if i >= |s.conns| then s.(feeder := Releasing(ok, stop))
    else if sent then OnConn(s, i, SendLocked(s.conns[i])).(feeder := Waiting(i, s.conns[i].nextId, ok, stop))
    else s.(feeder := AtConn(i + 1, false, stop))
  }

  function DoServerRead(c: Config, s: State, k: nat, inline: bool): State
    requires k < |s.conns| && k < |c.poolLimits| && CanRead(c.poolLimits[k], s.conns[k], inline)
  {
    var f := s.conns[k].pipe[0];
    OnConn(s, k, Read(c.poolLimits[k], s.conns[k], inline)).(
      finished := if RunsInline(c.poolLimits[k], f, inline) then s.finished + {f.file} else s.finished)
  }

  function DoServerFinish(s: State, k: nat, n: nat): State
    requires k < |s.conns| && n < |s.conns[k].active|
  {
    var c := s.conns[k];
    OnConn(s, k, c.(active := c.active[..n] + c.active[n + 1..])).(
      finished := if c.active[n].Put? then s.finished + {c.active[n].file} else s.finished)
  }

  /** The connection of the file has answered the barrier of the current generation. */
  predicate Answered(s: State, file: nat) {
    file in s.sentOn && s.sentOn[file] in s.answered
  }

  function DoRelease(s: State): State
    requires s.feeder.Releasing?
  {
    if s.gen == [] then
      s.(failed := s.failed || !s.feeder.ok, feeder := if s.feeder.stop then Finished else Intake)
    else
      s.(checks := s.checks + [s.gen[0]], gen := s.gen[1..],
         missed := if Answered(s, s.gen[0].file) then s.missed else s.missed + {s.gen[0].file})
  }

  function DoRoute(s: State): State
    requires s.feeder.Routing? && s.feeder.batch != []
  {
    var it := s.feeder.batch[0];
    var s1 := s.(feeder := s.feeder.(batch := s.feeder.batch[1..]));
    if it.durable then s1.(checks := s.checks + [it]) else s1.(gen := s.gen + [it])
  }

  ghost function Apply(c: Config, s: State, step: Step): State
    requires Enabled(c, s, step)
  {
    match step
    case SendPut(t, file, k) =>
      OnConn(s, k, Send(s.conns[k], Put(file))).(sentOn := s.sentOn[file := k], copiers := s.copiers[t := CSent(file)])
    case PeriodicBarrier(t) =>
      var k := s.sentOn[s.copiers[t].file];
      OnConn(s, k, SendLocked(s.conns[k])).(copiers := s.copiers[t := CWaiting(s.copiers[t].file, s.conns[k].nextId)])
    case PeriodicDone(t) =>
      var k := s.sentOn[s.copiers[t].file];
      OnConn(s, k, s.conns[k].(locked := false)).(copiers := s.copiers[t := CSent(s.copiers[t].file)])
    case QueueItem(t) =>
      var it := Item(s.copiers[t].file, false);
      s.(intake := s.intake + [it], submitted := s.submitted + {it}, copiers := s.copiers[t := CIdle])
    case QueueDurable(t, file) =>
      s.(intake := s.intake + [Item(file, true)], submitted := s.submitted + {Item(file, true)})
    case OtherFrame(k, pooled) => OnConn(s, k, Send(s.conns[k], if pooled then Job else Sync))
    case StopFeeder => s.(stopping := true)
    case Take(timedOut) => s.(intake := [], feeder := Routing(s.intake, timedOut, s.stopping))
    case Route => DoRoute(s)
    case Decide => DoDecide(c, s)
    case SendBarrier(sent) => DoSendBarrier(s, sent)
    case BarrierDone(errors) =>
      OnConn(s, s.feeder.i, s.conns[s.feeder.i].(locked := false)).(
        feeder := AtConn(s.feeder.i + 1, s.feeder.ok && !errors, s.feeder.stop), answered := s.answered + {s.feeder.i})
    case BarrierLost =>
      OnConn(s, s.feeder.i, s.conns[s.feeder.i].(locked := false)).(
        feeder := AtConn(s.feeder.i + 1, false, s.feeder.stop))
    case Release => DoRelease(s)
    case CheckerTake(j) => s.(checks := s.checks[1..], checkers := s.checkers[j := KBusy(s.checks[0])])
    case CheckerSend(j, k) =>
      OnConn(s, k, Send(s.conns[k], Check(s.checkers[j].item.file))).(checked := s.checked + {s.checkers[j].item})
    case CheckerDone(j) => s.(checkers := s.checkers[j := KIdle], verified := s.verified + {s.checkers[j].item})
    case ServerRead(k, inline) => DoServerRead(c, s, k, inline)
    case ServerStart(k) =>
      var n := s.conns[k];
      OnConn(s, k, n.(queued := n.queued[1..], active := n.active + [n.queued[0]]))
    case ServerFinish(k, n) => DoServerFinish(s, k, n)
    case Break(k, n) => OnConn(s, k, s.conns[k].(pipe := s.conns[k].pipe[..n], broken := true))
  }

  /** The states ss and the steps between them are a run from the start. */
  ghost predicate IsRun(c: Config, ss: seq<State>, steps: seq<Step>) {
    && |ss| == |steps| + 1 && ss[0] == Init(c)
    && forall t {:trigger steps[t]} :: 0 <= t < |steps| ==> Enabled(c, ss[t], steps[t]) && ss[t + 1] == Apply(c, ss[t], steps[t])
  }
}
