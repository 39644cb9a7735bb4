/** Verification never overtakes the copy. */
module FeederProof {
  import opened Feeder

  // ---------------------------------------------------------------------------
  // The invariant

  /** The frame of file x has been sent and not yet been applied. */
  ghost predicate Holds(c: Conn, x: nat) {
    Put(x) in c.pipe || Put(x) in c.queued || Put(x) in c.active
  }

  /** Whenever the server comes to the barrier, it has the frame of file x in its pool or has come by it before. */
  ghost predicate Before(c: Conn, x: nat, id: nat) {
    forall q :: 0 <= q < |c.pipe| && c.pipe[q] == Barrier(id) ==>
      Put(x) in c.queued || Put(x) in c.active || Put(x) in c.pipe[..q]
  }

  ghost predicate IdsOk(c: Conn) {
    && (forall f :: f in c.pipe && f.Barrier? ==> f.id < c.nextId)
    && (forall id :: id in c.replied ==> id < c.nextId)
  }

  ghost predicate SentOk(s: State) {
    forall x :: x in s.sentOn ==>
      s.sentOn[x] < |s.conns| && (x in s.finished || s.conns[s.sentOn[x]].broken || Holds(s.conns[s.sentOn[x]], x))
  }

  /** A file that is not durable was sent before its item was queued. */
  ghost predicate ItemOk(s: State, it: Item) {
    it.durable || it.file in s.sentOn
  }

  ghost predicate ItemsOk(s: State) {
    && (forall it :: it in s.intake ==> ItemOk(s, it))
    && (s.feeder.Routing? ==> forall it :: it in s.feeder.batch ==> ItemOk(s, it))
    && (forall it :: it in s.gen ==> !it.durable && it.file in s.sentOn)
    && (forall t :: 0 <= t < |s.copiers| && !s.copiers[t].CIdle? ==> s.copiers[t].file in s.sentOn)
  }

  /** The connections that have answered have applied their files of the generation. */
  ghost predicate Passed(s: State) {
    forall it :: it in s.gen && Answered(s, it.file) ==> it.file in s.finished
  }

  ghost predicate Synchronizing(s: State, i: nat, id: nat) {
    && i < |s.conns| && id < s.conns[i].nextId
    && (forall it :: it in s.gen && it.file in s.sentOn && s.sentOn[it.file] == i && it.file !in s.finished ==>
          id !in s.conns[i].replied && Before(s.conns[i], it.file, id))
  }

  /** The connection whose turn it is, or their number when all have had their turn. */
  function Turn(s: State): nat {
    match s.feeder
    case AtConn(i, _, _) => i
    case Waiting(i, _, _, _) => i
    case Releasing(_, _) => |s.conns|
    case _ => 0
  }

  predicate Gating(s: State) { s.feeder.AtConn? || s.feeder.Waiting? || s.feeder.Releasing? }

  /** All connections that have had their turn have answered. */
  ghost predicate AllAnswered(s: State) {
    forall k :: 0 <= k < Turn(s) ==> k in s.answered
  }

  ghost predicate FeederOk(s: State) {
    && (Gating(s) ==> Passed(s) && Turn(s) <= |s.conns| && (forall k :: k in s.answered ==> k < Turn(s)))
    && (s.feeder.Waiting? ==> Synchronizing(s, s.feeder.i, s.feeder.id))
    && (Gating(s) && s.feeder.ok ==> AllAnswered(s))
  }

  /** A released item is on its server's disk, unless its connection had not answered. */
  ghost predicate Safe(s: State, it: Item) {
    it.durable || it.file in s.finished || it.file in s.missed
  }

  ghost predicate ChecksOk(s: State) {
    && (forall it :: it in s.checks ==> Safe(s, it))
    && (forall j :: 0 <= j < |s.checkers| && s.checkers[j].KBusy? ==> Safe(s, s.checkers[j].item))
    && (forall it :: it in s.checked ==> Safe(s, it))
  }

  /** A failed barrier is reported, at the latest when the generation has been released. */
  ghost predicate ReportOk(s: State) {
    s.missed != {} ==> s.failed || (s.feeder.Releasing? && !s.feeder.ok)
  }

  ghost predicate Busy(ks: seq<Checker>, it: Item) {
    exists j :: 0 <= j < |ks| && ks[j] == KBusy(it)
  }

  /** A queued item waits somewhere or has been verified. */
  ghost predicate PlaceOk(s: State) {
    forall it :: it in s.submitted ==>
      || it in s.intake || (s.feeder.Routing? && it in s.feeder.batch) || it in s.gen || it in s.checks
      || Busy(s.checkers, it) || it in s.verified
  }

  ghost predicate RestOk(s: State) {
    s.feeder == Finished ==> s.gen == []
  }

  ghost predicate Inv(c: Config, s: State) {
    && |s.conns| == c.conns && (forall k :: 0 <= k < |s.conns| ==> IdsOk(s.conns[k]))
    && SentOk(s) && ItemsOk(s) && FeederOk(s) && ChecksOk(s) && ReportOk(s) && PlaceOk(s) && RestOk(s)
  }

  // ---------------------------------------------------------------------------
  // What may happen to a connection

  ghost predicate Moved(c: Conn, c': Conn, fin: set<nat>, fin': set<nat>) {
    && fin <= fin' && IdsOk(c') && c.nextId <= c'.nextId && (c.broken ==> c'.broken)
    && (forall x: nat :: Holds(c, x) && !c'.broken ==> Holds(c', x) || x in fin')
    && (forall x: nat, id: nat :: id < c.nextId && x !in fin' && id !in c.replied && Before(c, x, id) ==>
          id !in c'.replied && Before(c', x, id))
  }

  lemma AppendedFrame(c: Conn, c': Conn, f: Frame, fin: set<nat>)
    requires IdsOk(c) && c'.pipe == c.pipe + [f] && (f.Barrier? ==> f.id == c.nextId && c'.nextId == c.nextId + 1)
    requires c.nextId <= c'.nextId && c' == c.(pipe := c'.pipe, nextId := c'.nextId, locked := c'.locked)
    ensures Moved(c, c', fin, fin)
    ensures f.Put? ==> Holds(c', f.file)
  {
    forall x: nat, id: nat | id < c.nextId && Before(c, x, id)
      ensures Before(c', x, id)
    {
      forall q | 0 <= q < |c'.pipe| && c'.pipe[q] == Barrier(id)
        ensures Put(x) in c'.queued || Put(x) in c'.active || Put(x) in c'.pipe[..q]
      {
        assert c.pipe[q] == Barrier(id) && c'.pipe[..q] == c.pipe[..q];
      }
    }
    assert c'.pipe[|c.pipe|] == f;
  }

  lemma ReadBefore(limit: nat, c: Conn, inline: bool, x: nat, id: nat)
    requires CanRead(limit, c, inline) && Before(c, x, id)
    requires !(RunsInline(limit, c.pipe[0], inline) && c.pipe[0] == Put(x))
    ensures Before(Read(limit, c, inline), x, id) && c.pipe[0] != Barrier(id)
  {
    var c', f := Read(limit, c, inline), c.pipe[0];
    assert c.pipe[..0] == [];
    forall q | 0 <= q < |c'.pipe| && c'.pipe[q] == Barrier(id)
      ensures Put(x) in c'.queued || Put(x) in c'.active || Put(x) in c'.pipe[..q]
    {
      assert c.pipe[q + 1] == Barrier(id) && c.pipe[..q + 1] == [f] + c'.pipe[..q];
    }
  }

  lemma ReadMoved(limit: nat, c: Conn, inline: bool, fin: set<nat>, fin': set<nat>)
    requires IdsOk(c) && CanRead(limit, c, inline)
    requires fin' == if RunsInline(limit, c.pipe[0], inline) then fin + {c.pipe[0].file} else fin
    ensures Moved(c, Read(limit, c, inline), fin, fin')
  {
    var c', f := Read(limit, c, inline), c.pipe[0];
    assert c.pipe == [f] + c'.pipe;
    forall x: nat, id: nat | x !in fin' && id !in c.replied && Before(c, x, id)
      ensures id !in c'.replied && Before(c', x, id)
    {
      ReadBefore(limit, c, inline, x, id);
    }
  }

  lemma StartMoved(c: Conn, c': Conn, fin: set<nat>)
    requires IdsOk(c) && c.queued != [] && c' == c.(queued := c.queued[1..], active := c.active + [c.queued[0]])
    ensures Moved(c, c', fin, fin)
  {
    assert c.queued == [c.queued[0]] + c'.queued;
    assert forall x :: Put(x) in c.queued || Put(x) in c.active ==> Put(x) in c'.queued || Put(x) in c'.active;
  }

  lemma FinishMoved(c: Conn, c': Conn, n: nat, fin: set<nat>, fin': set<nat>)
    requires IdsOk(c) && n < |c.active| && c' == c.(active := c.active[..n] + c.active[n + 1..])
    requires fin' == if c.active[n].Put? then fin + {c.active[n].file} else fin
    ensures Moved(c, c', fin, fin')
  {
    assert c.active == c.active[..n] + [c.active[n]] + c.active[n + 1..];
    assert forall x :: x !in fin' && Put(x) in c.active ==> Put(x) in c'.active;
  }

  lemma BreakMoved(c: Conn, n: nat, fin: set<nat>)
    requires IdsOk(c) && n <= |c.pipe|
    ensures Moved(c, c.(pipe := c.pipe[..n], broken := true), fin, fin)
  {
    var c' := c.(pipe := c.pipe[..n], broken := true);
    forall x: nat, id: nat | Before(c, x, id)
      ensures Before(c', x, id)
    {
      forall q | 0 <= q < n && c'.pipe[q] == Barrier(id)
        ensures Put(x) in c'.queued || Put(x) in c'.active || Put(x) in c'.pipe[..q]
      {
        assert c.pipe[q] == Barrier(id) && c'.pipe[..q] == c.pipe[..q];
      }
    }
  }

  lemma UnlockMoved(c: Conn, fin: set<nat>)
    requires IdsOk(c)
    ensures Moved(c, c.(locked := false), fin, fin)
  {
    var c' := c.(locked := false);
    assert forall x: nat, id: nat :: Before(c, x, id) ==> Before(c', x, id);
  }

  /** Everything but connections, copy threads and verification threads stays as it is. */
  ghost predicate SameFeeder(s: State, s': State) {
    && s'.intake == s.intake && s'.feeder == s.feeder && s'.gen == s.gen && s'.checks == s.checks
    && s'.checkers == s.checkers && s'.submitted == s.submitted && s'.verified == s.verified
    && s'.answered == s.answered && s'.missed == s.missed && s'.failed == s.failed
  }

  lemma MovedSent(s: State, s': State, k: nat, c': Conn)
    requires SentOk(s) && k < |s.conns| && s'.conns == s.conns[k := c'] && Moved(s.conns[k], c', s.finished, s'.finished)
    requires forall x :: x in s'.sentOn ==>
      if x in s.sentOn then s'.sentOn[x] == s.sentOn[x] else s'.sentOn[x] == k && Holds(c', x)
    ensures SentOk(s')
  {
    forall x | x in s'.sentOn
      ensures var m := s'.sentOn[x];
              m < |s'.conns| && (x in s'.finished || s'.conns[m].broken || Holds(s'.conns[m], x))
    {
    }
  }

  lemma MovedFeeder(s: State, s': State, k: nat, c': Conn)
    requires FeederOk(s) && ItemsOk(s) && SameFeeder(s, s')
    requires k < |s.conns| && s'.conns == s.conns[k := c'] && Moved(s.conns[k], c', s.finished, s'.finished)
    requires forall x :: x in s.sentOn ==> x in s'.sentOn && s'.sentOn[x] == s.sentOn[x]
    ensures FeederOk(s')
  {
    assert forall it :: it in s.gen ==> it.file in s.sentOn && s'.sentOn[it.file] == s.sentOn[it.file];
    if s.feeder.Waiting? && s.feeder.i == k {
      forall it | it in s'.gen && it.file in s'.sentOn && s'.sentOn[it.file] == k && it.file !in s'.finished
        ensures s.feeder.id !in c'.replied && Before(c', it.file, s.feeder.id)
      {
        assert Before(s.conns[k], it.file, s.feeder.id);
      }
    }
  }

  /** A step of one connection, with what goes with it on the client. */
  lemma ConnStep(c: Config, s: State, s': State, k: nat, c': Conn)
    requires Inv(c, s) && SameFeeder(s, s')
    requires k < |s.conns| && s'.conns == s.conns[k := c'] && Moved(s.conns[k], c', s.finished, s'.finished)
    requires forall x :: x in s.sentOn ==> x in s'.sentOn && s'.sentOn[x] == s.sentOn[x]
    requires forall x :: x in s'.sentOn && x !in s.sentOn ==> s'.sentOn[x] == k && Holds(c', x)
    requires forall t :: 0 <= t < |s'.copiers| && !s'.copiers[t].CIdle? ==> s'.copiers[t].file in s'.sentOn
    requires forall it :: it in s'.checked && it !in s.checked ==> Safe(s, it)
    ensures Inv(c, s')
  {
    MovedSent(s, s', k, c');
    MovedFeeder(s, s', k, c');
  }

  // ---------------------------------------------------------------------------
  // Steps of the feeder

  /** What a step of the feeder, which leaves the connections alone, has to keep. */
  lemma LocalStep(c: Config, s: State, s': State)
    requires Inv(c, s)
    requires s'.conns == s.conns && s'.sentOn == s.sentOn && s'.finished == s.finished && s'.checked == s.checked
    requires s.missed <= s'.missed && ItemsOk(s') && FeederOk(s') && ReportOk(s') && PlaceOk(s') && RestOk(s')
    requires forall it :: it in s'.checks ==> it in s.checks || Safe(s', it)
    requires forall j :: 0 <= j < |s'.checkers| && s'.checkers[j].KBusy? ==>
      Busy(s.checkers, s'.checkers[j].item) || s'.checkers[j].item in s.checks
    ensures Inv(c, s')
  {
    assert forall it :: Safe(s, it) ==> Safe(s', it);
  }

  lemma QueueInv(c: Config, s: State, s': State, it: Item)
    requires Inv(c, s) && ItemOk(s, it)
    requires s' == s.(intake := s.intake + [it], submitted := s.submitted + {it}, copiers := s'.copiers)
    requires |s'.copiers| == |s.copiers|
    requires forall t :: 0 <= t < |s.copiers| ==> s'.copiers[t] == s.copiers[t] || s'.copiers[t] == CIdle
    ensures Inv(c, s')
  {
    assert it in s'.intake;
    LocalStep(c, s, s');
  }

  lemma TakeInv(c: Config, s: State, timedOut: bool)
    requires Inv(c, s) && Enabled(c, s, Take(timedOut))
    ensures Inv(c, Apply(c, s, Take(timedOut)))
  {
    LocalStep(c, s, Apply(c, s, Take(timedOut)));
  }

  lemma RouteItems(c: Config, s: State)
    requires ItemsOk(s) && PlaceOk(s) && Enabled(c, s, Route)
    ensures ItemsOk(DoRoute(s)) && PlaceOk(DoRoute(s)) && ItemOk(s, s.feeder.batch[0])
  {
    var s', it := DoRoute(s), s.feeder.batch[0];
    assert s.feeder.batch == [it] + s'.feeder.batch;
    assert it in s.feeder.batch && ItemOk(s, it);
    assert forall x :: x in s'.feeder.batch ==> x in s.feeder.batch;
  }

  lemma RouteInv(c: Config, s: State)
    requires Inv(c, s) && Enabled(c, s, Route)
    ensures Inv(c, Apply(c, s, Route))
  {
    hide ItemsOk, PlaceOk, SentOk, Before, Holds;
    RouteItems(c, s);
    LocalStep(c, s, Apply(c, s, Route));
  }

  lemma DecideInv(c: Config, s: State)
    requires Inv(c, s) && Enabled(c, s, Decide)
    ensures Inv(c, Apply(c, s, Decide))
  {
    hide Moved, SentOk, Before, Holds;
    LocalStep(c, s, Apply(c, s, Decide));
  }

  lemma ReleaseInv(c: Config, s: State)
    requires Inv(c, s) && Enabled(c, s, Release)
    ensures Inv(c, Apply(c, s, Release))
  {
    var s' := Apply(c, s, Release);
    if s.gen != [] {
      var it := s.gen[0];
      assert s.gen == [it] + s'.gen;
      assert it in s.gen && it.file in s.sentOn && s.sentOn[it.file] < |s.conns|;
      assert Safe(s', it);
    }
    LocalStep(c, s, s');
  }

  lemma CheckerTakeInv(c: Config, s: State, j: nat)
    requires Inv(c, s) && Enabled(c, s, CheckerTake(j))
    ensures Inv(c, Apply(c, s, CheckerTake(j)))
  {
    var s', it := Apply(c, s, CheckerTake(j)), s.checks[0];
    assert s.checks == [it] + s'.checks && s'.checkers[j] == KBusy(it);
    forall x | Busy(s.checkers, x)
      ensures Busy(s'.checkers, x)
    {
      var i :| 0 <= i < |s.checkers| && s.checkers[i] == KBusy(x);
      assert s'.checkers[i] == KBusy(x);
    }
    assert Busy(s'.checkers, it);
    LocalStep(c, s, s');
  }

  lemma CheckerDoneInv(c: Config, s: State, j: nat)
    requires Inv(c, s) && Enabled(c, s, CheckerDone(j))
    ensures Inv(c, Apply(c, s, CheckerDone(j)))
  {
    var s', it := Apply(c, s, CheckerDone(j)), s.checkers[j].item;
    forall x | Busy(s.checkers, x) && x != it
      ensures Busy(s'.checkers, x)
    {
      var i :| 0 <= i < |s.checkers| && s.checkers[i] == KBusy(x);
      assert s'.checkers[i] == KBusy(x);
    }
    LocalStep(c, s, s');
  }

  /** At the moment a barrier is sent, the files of the generation on that connection are ahead of it. */
  lemma BarrierAhead(s: State, i: nat, it: Item)
    requires SentOk(s) && i < |s.conns| && IdsOk(s.conns[i]) && !s.conns[i].broken
    requires it.file in s.sentOn && s.sentOn[it.file] == i && it.file !in s.finished
    ensures s.conns[i].nextId !in s.conns[i].replied
    ensures Before(SendLocked(s.conns[i]), it.file, s.conns[i].nextId)
  {
    var c := s.conns[i];
    var c' := SendLocked(c);
    forall q | 0 <= q < |c'.pipe| && c'.pipe[q] == Barrier(c.nextId)
      ensures Put(it.file) in c'.queued || Put(it.file) in c'.active || Put(it.file) in c'.pipe[..q]
    {
      assert Barrier(c.nextId) !in c.pipe;
      assert c'.pipe[..|c.pipe|] == c.pipe;
    }
  }

  lemma SendBarrierFeeder(c: Config, s: State)
    requires Inv(c, s) && Enabled(c, s, SendBarrier(true)) && s.feeder.i < |s.conns|
    ensures FeederOk(Apply(c, s, SendBarrier(true)))
  {
    var s', i := Apply(c, s, SendBarrier(true)), s.feeder.i;
    forall it | it in s.gen && it.file in s.sentOn && s.sentOn[it.file] == i && it.file !in s.finished
      ensures s'.feeder.id !in s'.conns[i].replied && Before(s'.conns[i], it.file, s'.feeder.id)
    {
      BarrierAhead(s, i, it);
    }
  }

  lemma SendBarrierInv(c: Config, s: State, sent: bool)
    requires Inv(c, s) && Enabled(c, s, SendBarrier(sent))
    ensures Inv(c, Apply(c, s, SendBarrier(sent)))
  {
    var s', i := Apply(c, s, SendBarrier(sent)), s.feeder.i;
    if i < |s.conns| && sent {
      var f := Barrier(s.conns[i].nextId);
      AppendedFrame(s.conns[i], s'.conns[i], f, s.finished);
      MovedSent(s, s', i, s'.conns[i]);
      SendBarrierFeeder(c, s);
    } else {
      LocalStep(c, s, s');
    }
  }

  /** The answer to the barrier says that the files of the generation on that connection are applied. */
  lemma BarrierPassed(s: State, i: nat, id: nat, it: Item)
    requires Synchronizing(s, i, id) && id in s.conns[i].replied
    requires it in s.gen && it.file in s.sentOn && s.sentOn[it.file] == i
    ensures it.file in s.finished
  {
  }

  lemma BarrierEndInv(c: Config, s: State, step: Step)
    requires Inv(c, s) && Enabled(c, s, step) && (step.BarrierDone? || step.BarrierLost?)
    ensures Inv(c, Apply(c, s, step))
  {
    var s', i := Apply(c, s, step), s.feeder.i;
    UnlockMoved(s.conns[i], s.finished);
    MovedSent(s, s', i, s'.conns[i]);
    forall it | it in s'.gen && Answered(s', it.file)
      ensures it.file in s'.finished
    {
      if !Answered(s, it.file) {
        BarrierPassed(s, i, s.feeder.id, it);
      }
    }
  }

  // ---------------------------------------------------------------------------
  // All steps

  ghost predicate OfClient(step: Step) {
    step.SendPut? || step.PeriodicBarrier? || step.PeriodicDone? || step.OtherFrame? || step.CheckerSend?
  }

  ghost predicate OfServer(step: Step) {
    step.ServerRead? || step.ServerStart? || step.ServerFinish? || step.Break?
  }

  lemma IdsAt(c: Config, s: State, k: nat)
    requires Inv(c, s) && k < |s.conns|
    ensures IdsOk(s.conns[k])
  {
  }

  /** A connection moves, and copy threads only come to wait or stop waiting. */
  lemma ConnOnly(c: Config, s: State, s': State, k: nat)
    requires Inv(c, s) && k < |s.conns| && k < |s'.conns| && Moved(s.conns[k], s'.conns[k], s.finished, s'.finished)
    requires s' == s.(conns := s.conns[k := s'.conns[k]], finished := s'.finished, copiers := s'.copiers)
    requires |s'.copiers| == |s.copiers|
    requires forall t :: 0 <= t < |s.copiers| && !s'.copiers[t].CIdle? ==>
      !s.copiers[t].CIdle? && s'.copiers[t].file == s.copiers[t].file
    ensures Inv(c, s')
  {
    ConnStep(c, s, s', k, s'.conns[k]);
  }

  lemma SendPutInv(c: Config, s: State, t: nat, file: nat, k: nat)
    requires Inv(c, s) && Enabled(c, s, SendPut(t, file, k))
    ensures Inv(c, Apply(c, s, SendPut(t, file, k)))
  {
    hide SentOk, FeederOk, PlaceOk, ReportOk;
    var s' := Apply(c, s, SendPut(t, file, k));
    AppendedFrame(s.conns[k], s'.conns[k], Put(file), s.finished);
    ConnStep(c, s, s', k, s'.conns[k]);
  }

  lemma CheckerSendInv(c: Config, s: State, j: nat, k: nat)
    requires Inv(c, s) && Enabled(c, s, CheckerSend(j, k))
    ensures Inv(c, Apply(c, s, CheckerSend(j, k)))
  {
    hide SentOk, FeederOk, PlaceOk, ReportOk;
    var s' := Apply(c, s, CheckerSend(j, k));
    AppendedFrame(s.conns[k], s'.conns[k], Check(s.checkers[j].item.file), s.finished);
    ConnStep(c, s, s', k, s'.conns[k]);
  }

  lemma ClientStepInv(c: Config, s: State, step: Step)
    requires Inv(c, s) && Enabled(c, s, step) && OfClient(step)
    ensures Inv(c, Apply(c, s, step))
  {
    hide Inv, Moved, IdsOk;
    var s' := Apply(c, s, step);
    match step
    case SendPut(t, file, k) => SendPutInv(c, s, t, file, k);
    case PeriodicBarrier(t) =>
      var k := s.sentOn[s.copiers[t].file];
      IdsAt(c, s, k);
      AppendedFrame(s.conns[k], s'.conns[k], Barrier(s.conns[k].nextId), s.finished);
      ConnOnly(c, s, s', k);
    case PeriodicDone(t) =>
      var k := s.sentOn[s.copiers[t].file];
      IdsAt(c, s, k);
      UnlockMoved(s.conns[k], s.finished);
      ConnOnly(c, s, s', k);
    case OtherFrame(k, pooled) =>
      IdsAt(c, s, k);
      AppendedFrame(s.conns[k], s'.conns[k], if pooled then Job else Sync, s.finished);
      ConnOnly(c, s, s', k);
    case CheckerSend(j, k) => CheckerSendInv(c, s, j, k);
  }

  lemma ServerStepInv(c: Config, s: State, step: Step)
    requires Inv(c, s) && Enabled(c, s, step) && OfServer(step)
    ensures Inv(c, Apply(c, s, step))
  {
    hide Inv, Moved, IdsOk, CanRead, Read, RunsInline;
    var s' := Apply(c, s, step);
    match step
    case ServerRead(k, inline) =>
      IdsAt(c, s, k);
      ReadMoved(c.poolLimits[k], s.conns[k], inline, s.finished, s'.finished);
      ConnOnly(c, s, s', k);
    case ServerStart(k) =>
      IdsAt(c, s, k);
      StartMoved(s.conns[k], s'.conns[k], s.finished);
      ConnOnly(c, s, s', k);
    case ServerFinish(k, n) =>
      IdsAt(c, s, k);
      FinishMoved(s.conns[k], s'.conns[k], n, s.finished, s'.finished);
      ConnOnly(c, s, s', k);
    case Break(k, n) =>
      IdsAt(c, s, k);
      BreakMoved(s.conns[k], n, s.finished);
      ConnOnly(c, s, s', k);
  }

  lemma QueueStepInv(c: Config, s: State, step: Step)
    requires Inv(c, s) && Enabled(c, s, step) && (step.QueueItem? || step.QueueDurable? || step.StopFeeder?)
    ensures Inv(c, Apply(c, s, step))
  {
    match step
    case QueueItem(t) => QueueInv(c, s, Apply(c, s, step), Item(s.copiers[t].file, false));
    case QueueDurable(t, file) => QueueInv(c, s, Apply(c, s, step), Item(file, true));
    case StopFeeder => LocalStep(c, s, Apply(c, s, step));
  }

  lemma StepInv(c: Config, s: State, step: Step)
    requires Inv(c, s) && Enabled(c, s, step)
    ensures Inv(c, Apply(c, s, step))
  {
    hide Inv, Enabled, Apply;
    match step
    case Take(timedOut) => TakeInv(c, s, timedOut);
    case Route => RouteInv(c, s);
    case Decide => DecideInv(c, s);
    case SendBarrier(sent) => SendBarrierInv(c, s, sent);
    case BarrierDone(_) => BarrierEndInv(c, s, step);
    case BarrierLost => BarrierEndInv(c, s, step);
    case Release => ReleaseInv(c, s);
    case CheckerTake(j) => CheckerTakeInv(c, s, j);
    case CheckerDone(j) => CheckerDoneInv(c, s, j);
    case _ =>
      if OfClient(step) {
        ClientStepInv(c, s, step);
      } else if OfServer(step) {
        ServerStepInv(c, s, step);
      } else {
        QueueStepInv(c, s, step);
      }
  }

  lemma {:induction false} RunInv(c: Config, ss: seq<State>, steps: seq<Step>, t: nat)
    requires IsRun(c, ss, steps) && t < |ss|
    ensures Inv(c, ss[t])
    decreases t
  {
    if t > 0 {
      RunInv(c, ss, steps, t - 1);
      var step := steps[t - 1];
      StepInv(c, ss[t - 1], step);
    }
  }

  // ---------------------------------------------------------------------------
  // Main results

  /** A failure that a barrier can meet: it could not be sent, or its connection broke. */
  ghost predicate Fails(step: Step) {
    step.Break? || step == SendBarrier(false)
  }

  ghost predicate NoFailure(steps: seq<Step>, t: nat) {
    forall i :: 0 <= i < t && i < |steps| ==> !Fails(steps[i])
  }

  ghost predicate Unbroken(s: State) {
    forall k :: 0 <= k < |s.conns| ==> !s.conns[k].broken
  }

  ghost predicate Intact(s: State) {
    s.missed == {} && (Gating(s) ==> AllAnswered(s)) && Unbroken(s)
  }

  /** Files stay applied, and connections stay broken or live; no thread comes or goes. */
  ghost predicate Lasts(s: State, s': State, breaks: bool) {
    && s.finished <= s'.finished && |s'.conns| == |s.conns| && |s'.checkers| == |s.checkers|
    && forall k :: 0 <= k < |s.conns| ==> if breaks then s.conns[k].broken ==> s'.conns[k].broken
                                          else s'.conns[k].broken == s.conns[k].broken
  }

  lemma ClientLasts(c: Config, s: State, step: Step)
    requires Enabled(c, s, step) && OfClient(step)
    ensures Lasts(s, Apply(c, s, step), false)
  {
    hide CanRead;
  }

  lemma ServerLasts(c: Config, s: State, step: Step)
    requires Enabled(c, s, step) && OfServer(step)
    ensures Lasts(s, Apply(c, s, step), step.Break?)
  {
    match step
    case ServerRead(k, inline) => hide Enabled, Apply, Lasts, CanRead; ServerReadLasts(c, s, k, inline);
    case ServerStart(k) => hide CanRead;
    case ServerFinish(k, n) => hide CanRead;
    case Break(k, n) => hide CanRead;
  }

  lemma ServerReadLasts(c: Config, s: State, k: nat, inline: bool)
    requires Enabled(c, s, ServerRead(k, inline))
    ensures Lasts(s, Apply(c, s, ServerRead(k, inline)), false)
  {
    hide CanRead, RunsInline;
  }

  lemma FeederLasts(c: Config, s: State, step: Step)
    requires Enabled(c, s, step) && !OfClient(step) && !OfServer(step)
    ensures Lasts(s, Apply(c, s, step), false)
  {
    hide CanRead;
  }

  lemma StepLasts(c: Config, s: State, step: Step)
    requires Enabled(c, s, step)
    ensures Lasts(s, Apply(c, s, step), step.Break?)
  {
    hide Enabled, Apply, Lasts;
    if OfClient(step) {
      ClientLasts(c, s, step);
    } else if OfServer(step) {
      ServerLasts(c, s, step);
    } else {
      FeederLasts(c, s, step);
    }
  }

  ghost predicate OfFeeder(step: Step) {
    step.Decide? || step.SendBarrier? || step.BarrierDone? || step.BarrierLost? || step.Release? || step.Take? || step.Route?
  }

  /** Only the feeder moves its counter and what it remembers of the barriers. */
  lemma OthersKeepFeeder(c: Config, s: State, step: Step)
    requires Enabled(c, s, step) && !OfFeeder(step)
    ensures var s' := Apply(c, s, step); s'.feeder == s.feeder && s'.answered == s.answered && s'.missed == s.missed
    ensures var s' := Apply(c, s, step);
            && s'.stopping == (s.stopping || step == StopFeeder)
            && (!Queues(step) ==> s'.intake == s.intake)
  {
    hide CanRead, RunsInline, Read, Send, SendLocked;
    match step
    case SendPut(_, _, _) =>
    case PeriodicBarrier(_) =>
    case PeriodicDone(_) =>
    case CheckerSend(_, _) =>
    case ServerRead(_, _) =>
    case ServerStart(_) =>
    case ServerFinish(_, _) =>
    case _ =>
  }

  ghost predicate Queues(step: Step) {
    step.QueueItem? || step.QueueDurable?
  }

  lemma ReleaseIntact(c: Config, s: State)
    requires Inv(c, s) && Intact(s) && Enabled(c, s, Release) && s.gen != []
    ensures Answered(s, s.gen[0].file)
  {
    assert s.gen[0] in s.gen && s.gen[0].file in s.sentOn && s.sentOn[s.gen[0].file] < |s.conns|;
  }

  lemma FeederIntact(c: Config, s: State, step: Step)
    requires Intact(s) && Enabled(c, s, step) && OfFeeder(step) && !Fails(step)
    requires step.Release? && s.gen != [] ==> Answered(s, s.gen[0].file)
    ensures var s' := Apply(c, s, step); s'.missed == {} && (Gating(s') ==> AllAnswered(s'))
  {
    hide CanRead, RunsInline, Answered;
    match step
    case Release =>
    case Decide =>
    case SendBarrier(_) =>
    case BarrierDone(_) =>
    case BarrierLost =>
    case _ =>
  }

  lemma StepIntact(c: Config, s: State, step: Step)
    requires Inv(c, s) && Intact(s) && Enabled(c, s, step) && !Fails(step)
    ensures Intact(Apply(c, s, step))
  {
    if step.Release? && s.gen != [] {
      ReleaseIntact(c, s);
    }
    StepLasts(c, s, step);
    hide Inv, Answered;
    if OfFeeder(step) {
      FeederIntact(c, s, step);
    } else {
      OthersKeepFeeder(c, s, step);
      hide Apply, Enabled;
    }
  }

  lemma {:induction false} NothingLost(c: Config, ss: seq<State>, steps: seq<Step>, t: nat)
    requires IsRun(c, ss, steps) && t < |ss| && NoFailure(steps, t)
    ensures Intact(ss[t])
    decreases t
  {
    if t > 0 {
      NothingLost(c, ss, steps, t - 1);
      RunInv(c, ss, steps, t - 1);
      var step := steps[t - 1];
      assert !Fails(step);
      hide Enabled, Apply, Intact, Inv;
      StepIntact(c, ss[t - 1], step);
    }
  }

  /**
   Verification never overtakes the copy: when a check of a file is sent to any server, a
   durable file aside, the server that was sent the file has applied it, unless that very
   server had not answered the barrier of the file's generation when the file was released.
   That takes a failed connection or barrier, and the feeder reports it.
   */
  lemma NeverOvertakes(c: Config, ss: seq<State>, steps: seq<Step>, t: nat, j: nat, k: nat)
    requires IsRun(c, ss, steps) && t < |steps| && steps[t] == CheckerSend(j, k)
    ensures var it := ss[t].checkers[j].item;
            it.durable || it.file in ss[t].finished || it.file in ss[t].missed
    ensures ss[t].missed != {} ==> !NoFailure(steps, t)
    ensures ss[t].missed != {} && !ss[t].feeder.Releasing? ==> ss[t].failed
  {
    RunInv(c, ss, steps, t);
    assert Enabled(c, ss[t], steps[t]);
    if NoFailure(steps, t) {
      NothingLost(c, ss, steps, t);
    }
  }

  /** The step releases the file although its connection has not answered. */
  ghost predicate Misses(s: State, step: Step, x: nat) {
    step == Release && s.gen != [] && s.gen[0].file == x && !Answered(s, x)
  }

  lemma StepMisses(c: Config, s: State, step: Step, x: nat)
    requires Enabled(c, s, step)
    ensures x in Apply(c, s, step).missed <==> x in s.missed || Misses(s, step, x)
  {
    hide CanRead, RunsInline, Answered;
  }

  /** The file was released too early in one of the first t steps. */
  ghost predicate MissedBefore(ss: seq<State>, steps: seq<Step>, t: nat, x: nat)
    requires t <= |steps| < |ss|
  {
    exists r {:trigger Misses(ss[r], steps[r], x)} :: 0 <= r < t && Misses(ss[r], steps[r], x)
  }

  lemma NoneMissed(c: Config, ss: seq<State>, steps: seq<Step>, x: nat)
    requires |steps| < |ss|
    ensures Init(c).missed == {} && !MissedBefore(ss, steps, 0, x)
  {
  }

  lemma MissedOneMore(ss: seq<State>, steps: seq<Step>, t: nat, x: nat)
    requires t < |steps| < |ss|
    ensures MissedBefore(ss, steps, t + 1, x) <==> MissedBefore(ss, steps, t, x) || Misses(ss[t], steps[t], x)
  {
    hide Misses;
  }

  /** A file is missed exactly if it was released while its connection had not answered the barrier of its generation. */
  lemma {:induction false} MissedIff(c: Config, ss: seq<State>, steps: seq<Step>, t: nat, x: nat)
    requires IsRun(c, ss, steps) && t < |ss|
    ensures x in ss[t].missed <==> MissedBefore(ss, steps, t, x)
    decreases t
  {
    hide Enabled, Apply, Misses, MissedBefore;
    if t == 0 {
      NoneMissed(c, ss, steps, x);
    } else {
      MissedIff(c, ss, steps, t - 1, x);
      MissedOneMore(ss, steps, t - 1, x);
      var step := steps[t - 1];
      StepMisses(c, ss[t - 1], step, x);
    }
  }

  /** No item is queued once the feeder has been told to stop. */
  ghost predicate QuietAfterStop(steps: seq<Step>) {
    forall i, j :: 0 <= i < j < |steps| && steps[i] == StopFeeder ==> !Queues(steps[j])
  }

  /** The feeder has read the stop flag. */
  ghost predicate SawStop(s: State) {
    s.feeder == Finished || (s.feeder.Routing? && s.feeder.stop) || (Gating(s) && s.feeder.stop)
  }

  lemma StepStop(c: Config, s: State, step: Step)
    requires Enabled(c, s, step)
    ensures var s' := Apply(c, s, step);
            && (s'.stopping <==> s.stopping || step == StopFeeder)
            && (SawStop(s') ==> SawStop(s) || (step.Take? && s.stopping))
            && (!Queues(step) ==> s'.intake == if step.Take? then [] else s.intake)
  {
    if !OfFeeder(step) {
      OthersKeepFeeder(c, s, step);
      hide Apply, Enabled;
    }
    hide CanRead, RunsInline, SendLocked;
  }

  lemma {:induction false} StopSeen(c: Config, ss: seq<State>, steps: seq<Step>, t: nat)
    requires IsRun(c, ss, steps) && t < |ss| && QuietAfterStop(steps)
    ensures ss[t].stopping ==> exists i {:trigger steps[i]} :: 0 <= i < t && steps[i] == StopFeeder
    ensures SawStop(ss[t]) ==> ss[t].stopping && ss[t].intake == []
    decreases t
  {
    hide SawStop, Enabled, Apply;
    if t == 0 {
      StartsUnstopped(c);
    } else {
      StopSeen(c, ss, steps, t - 1);
      var step := steps[t - 1];
      StepStop(c, ss[t - 1], step);
    }
  }

  lemma StartsUnstopped(c: Config)
    ensures !SawStop(Init(c)) && !Init(c).stopping
  {
  }

  /**
   No item is forgotten: when the feeder has finished and the verification threads are idle, every
   queued item has been verified or has come after the feeder's last look at the intake, which takes
   an item queued after the stop.
   */
  lemma AllVerified(c: Config, ss: seq<State>, steps: seq<Step>, t: nat, it: Item)
    requires IsRun(c, ss, steps) && t < |ss| && ss[t].feeder == Finished && ss[t].checks == [] && it in ss[t].submitted
    requires forall j :: 0 <= j < |ss[t].checkers| ==> ss[t].checkers[j] == KIdle
    ensures it in ss[t].verified || it in ss[t].intake
    ensures QuietAfterStop(steps) ==> it in ss[t].verified
  {
    RunInv(c, ss, steps, t);
    if QuietAfterStop(steps) {
      StopSeen(c, ss, steps, t);
    }
  }
}
