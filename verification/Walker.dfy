/**
 The parallel directory walk: workers take directories from a shared FIFO, push the
 subdirectories they find, and have to notice when the last one is finished. One push
 signals one waiting worker; the end is broadcast. Every lock hold is one step.
 */
module Walker {
  import opened Counting

  /** A directory, as the positions of its ancestors and itself among the subdirectories of their parents. */
  type Node = seq<nat>

  /** How many subdirectories of a directory the consumer descends into. */
  type Tree = Node -> nat

  ghost predicate InTree(tree: Tree, x: Node) {
    forall i :: 0 <= i < |x| ==> x[i] < tree(x[..i])
  }

  function Parent(x: Node): Node
    requires x != []
  {
    x[..|x| - 1]
  }

  function Index(x: Node): nat
    requires x != []
  {
    x[|x| - 1]
  }

  /** A worker is before the lock, waits, has pushed the first `next` subdirectories of its node, or has left. */
  datatype Worker = Idle | Parked(signalled: bool) | Working(node: Node, next: nat) | Gone

  datatype State = State(
    fifo: seq<Node>, active: int, done: bool, workers: seq<Worker>,
    begun: seq<Node>, finished: set<Node>)  // history

  datatype Step = Enter(t: nat) | Push(t: nat, pick: Option<nat>) | Finish(t: nat) | Wake(t: nat)

  predicate Asleep(w: Worker) { w == Parked(false) }
  predicate AtWork(w: Worker) { w.Working? }

  function Init(workers: nat): State {
    State([[]], 0, false, seq(workers, t => Idle), [], {})
  }

  function WakeAll(ws: seq<Worker>): (r: seq<Worker>)
    ensures |r| == |ws|
  {
    seq(|ws|, i requires 0 <= i < |ws| => if Asleep(ws[i]) then Parked(true) else ws[i])
  }

  /** pthread_cond_signal wakes one of the waiting workers, if there is one. */
  predicate PickOk(ws: seq<Worker>, pick: Option<nat>) {
    match pick
    case Some(u) => u < |ws| && Asleep(ws[u])
    case None => forall u :: 0 <= u < |ws| ==> !Asleep(ws[u])
  }

  function Signal(ws: seq<Worker>, pick: Option<nat>): (r: seq<Worker>)
    ensures |r| == |ws|
  {
    if pick.Some? && pick.value < |ws| then ws[pick.value := Parked(true)] else ws
  }

  function DoEnter(s: State, t: nat): State
    requires t < |s.workers|
  {
    if s.fifo != [] then
      s.(fifo := s.fifo[1..], active := s.active + 1, begun := s.begun + [s.fifo[0]],
         workers := s.workers[t := Working(s.fifo[0], 0)])
    else if s.done then s.(workers := s.workers[t := Gone])
    else s.(workers := s.workers[t := Parked(false)])
  }

  function DoFinish(s: State, t: nat): State
    requires t < |s.workers| && s.workers[t].Working?
  {
    var s1 := s.(active := s.active - 1, finished := s.finished + {s.workers[t].node}, workers := s.workers[t := Idle]);
    if s1.fifo == [] && s1.active == 0 then s1.(done := true, workers := WakeAll(s1.workers)) else s1
  }

  ghost predicate Enabled(tree: Tree, s: State, step: Step) {
    match step
    case Enter(t) => t < |s.workers| && (s.workers[t] == Idle || s.workers[t] == Parked(true))
    case Push(t, pick) =>
      t < |s.workers| && s.workers[t].Working? && s.workers[t].next < tree(s.workers[t].node) && PickOk(s.workers, pick)
    case Finish(t) => t < |s.workers| && s.workers[t].Working? && s.workers[t].next == tree(s.workers[t].node)
    case Wake(t) => t < |s.workers| && Asleep(s.workers[t])
  }

  ghost function Apply(tree: Tree, s: State, step: Step): State
    requires Enabled(tree, s, step)
  {
    match step
    case Enter(t) => DoEnter(s, t)
    case Push(t, pick) =>
      var Working(x, k) := s.workers[t];
      s.(fifo := s.fifo + [x + [k]], workers := Signal(s.workers, pick)[t := Working(x, k + 1)])
    case Finish(t) => DoFinish(s, t)
    case Wake(t) => s.(workers := s.workers[t := Parked(true)])
  }

  ghost predicate IsRun(tree: Tree, workers: nat, ss: seq<State>, steps: seq<Step>) {
    && |ss| == |steps| + 1 && ss[0] == Init(workers)
    && forall n {:trigger steps[n]} :: 0 <= n < |steps| ==> Enabled(tree, ss[n], steps[n]) && ss[n + 1] == Apply(tree, ss[n], steps[n])
  }

  // ---------------------------------------------------------------------------
  // The invariant

  ghost predicate WorksOn(ws: seq<Worker>, x: Node) {
    exists t {:trigger ws[t]} :: 0 <= t < |ws| && ws[t].Working? && ws[t].node == x
  }

  /** The worker of x's parent has come past x. */
  ghost predicate PushedBy(ws: seq<Worker>, x: Node) {
    x != [] && exists t {:trigger ws[t]} :: 0 <= t < |ws| && ws[t].Working? && ws[t].node == Parent(x) && Index(x) < ws[t].next
  }

  /** The root, and the subdirectories that their parents' workers have pushed. */
  ghost predicate Discovered(s: State, x: Node) {
    x == [] || Parent(x) in s.finished || PushedBy(s.workers, x)
  }

  ghost predicate Known(s: State, x: Node) {
    x in s.begun || x in s.fifo
  }

  ghost predicate NodesOk(tree: Tree, s: State) {
    && NoDup(s.begun + s.fifo)
    && (forall x :: Known(s, x) <==> InTree(tree, x) && Discovered(s, x))
  }

  ghost predicate WorkOk(tree: Tree, s: State) {
    && (forall x :: x in s.begun <==> x in s.finished || WorksOn(s.workers, x))
    && (forall t {:trigger s.workers[t]} :: 0 <= t < |s.workers| && s.workers[t].Working? ==>
          s.workers[t].next <= tree(s.workers[t].node) && s.workers[t].node !in s.finished)
    && (forall t, u :: 0 <= t < u < |s.workers| && s.workers[t].Working? && s.workers[u].Working? ==>
          s.workers[t].node != s.workers[u].node)
  }

  ghost predicate CountsOk(s: State) {
    && s.active == Count(s.workers, AtWork)
    && (s.done ==> s.fifo == [] && s.active == 0 && Count(s.workers, Asleep) == 0)
    && (!s.done ==> s.fifo != [] || s.active > 0)
    && (s.fifo != [] ==> Count(s.workers, Asleep) < |s.workers|)
    && (!s.done ==> forall t :: 0 <= t < |s.workers| ==> s.workers[t] != Gone)
  }

  ghost predicate Inv(tree: Tree, s: State) {
    NodesOk(tree, s) && WorkOk(tree, s) && CountsOk(s)
  }

  lemma WorkerChange(ws: seq<Worker>, t: nat, w: Worker)
    requires t < |ws|
    ensures Count(ws[t := w], Asleep) == Count(ws, Asleep) - (if Asleep(ws[t]) then 1 else 0) + (if Asleep(w) then 1 else 0)
    ensures Count(ws[t := w], AtWork) == Count(ws, AtWork) - (if AtWork(ws[t]) then 1 else 0) + (if AtWork(w) then 1 else 0)
    ensures !Asleep(ws[t]) ==> Count(ws, Asleep) < |ws|
    ensures AtWork(ws[t]) ==> Count(ws, AtWork) > 0
  {
    CountUpdate(ws, t, w, Asleep);
    CountUpdate(ws, t, w, AtWork);
    CountAll(ws, Asleep);
    CountZero(ws, AtWork);
  }

  lemma WakeAllCounts(ws: seq<Worker>)
    ensures Count(WakeAll(ws), Asleep) == 0 && Count(WakeAll(ws), AtWork) == Count(ws, AtWork)
  {
    CountZero(WakeAll(ws), Asleep);
    CountSame(WakeAll(ws), ws, AtWork);
  }

  // ---------------------------------------------------------------------------
  // Counters

  lemma EnterCounts(tree: Tree, s: State, t: nat)
    requires CountsOk(s) && Enabled(tree, s, Enter(t))
    ensures CountsOk(DoEnter(s, t))
  {
    var w := DoEnter(s, t).workers[t];
    WorkerChange(s.workers, t, w);
    WorkerChange(s.workers[t := w], t, w);
    hide Count;
  }

  lemma PushCounts(tree: Tree, s: State, t: nat, pick: Option<nat>)
    requires CountsOk(s) && Enabled(tree, s, Push(t, pick))
    ensures CountsOk(Apply(tree, s, Push(t, pick)))
  {
    var s' := Apply(tree, s, Push(t, pick));
    var ws := Signal(s.workers, pick);
    if pick.Some? {
      WorkerChange(s.workers, pick.value, Parked(true));
    }
    WorkerChange(ws, t, s'.workers[t]);
    WorkerChange(s'.workers, t, s'.workers[t]);
    hide Count;
  }

  lemma FinishCounts(tree: Tree, s: State, t: nat)
    requires CountsOk(s) && Enabled(tree, s, Finish(t))
    ensures CountsOk(DoFinish(s, t))
  {
    var ws := s.workers[t := Idle];
    WorkerChange(s.workers, t, Idle);
    WorkerChange(ws, t, Idle);
    WakeAllCounts(ws);
    hide Count;
  }

  lemma WakeCounts(tree: Tree, s: State, t: nat)
    requires CountsOk(s) && Enabled(tree, s, Wake(t))
    ensures CountsOk(Apply(tree, s, Wake(t)))
  {
    WorkerChange(s.workers, t, Parked(true));
    hide Count;
  }

  // ---------------------------------------------------------------------------
  // Nodes

  /** Workers that only fall asleep, wake up or leave. */
  lemma SameWork(tree: Tree, s: State, s': State)
    requires NodesOk(tree, s) && WorkOk(tree, s)
    requires s'.fifo == s.fifo && s'.begun == s.begun && s'.finished == s.finished && |s'.workers| == |s.workers|
    requires forall t {:trigger s'.workers[t]} {:trigger s.workers[t]} :: 0 <= t < |s.workers| ==>
      if s.workers[t].Working? then s'.workers[t] == s.workers[t] else !s'.workers[t].Working?
    ensures NodesOk(tree, s') && WorkOk(tree, s')
  {
    forall x
      ensures WorksOn(s'.workers, x) <==> WorksOn(s.workers, x)
      ensures PushedBy(s'.workers, x) <==> PushedBy(s.workers, x)
      ensures Discovered(s', x) <==> Discovered(s, x)
    {
    }
    hide PushedBy, WorksOn, InTree;
    assert forall x :: Known(s', x) <==> Known(s, x);
  }

  lemma PopNodes(tree: Tree, s: State, t: nat)
    requires NodesOk(tree, s) && WorkOk(tree, s) && Enabled(tree, s, Enter(t)) && s.fifo != []
    ensures NodesOk(tree, DoEnter(s, t)) && WorkOk(tree, DoEnter(s, t))
  {
    var s', x0 := DoEnter(s, t), s.fifo[0];
    assert s'.begun + s'.fifo == s.begun + s.fifo;
    assert s.fifo == [x0] + s'.fifo;
    PopFresh(s);
    forall x
      ensures WorksOn(s'.workers, x) <==> WorksOn(s.workers, x) || x == x0
      ensures PushedBy(s'.workers, x) <==> PushedBy(s.workers, x)
      ensures Known(s', x) <==> Known(s, x)
    {
      PopWorkers(s.workers, t, x0, x);
    }
    PopWork(tree, s, t);
    hide PushedBy, WorksOn, InTree, NoDup, WorkOk;
    assert forall x :: Discovered(s', x) <==> Discovered(s, x);
  }

  lemma PopFresh(s: State)
    requires NoDup(s.begun + s.fifo) && s.fifo != []
    ensures s.fifo[0] !in s.begun
  {
    var all := s.begun + s.fifo;
    forall i | 0 <= i < |s.begun|
      ensures s.begun[i] != s.fifo[0]
    {
      assert all[i] != all[|s.begun|];
    }
  }

  lemma PopWorkers(ws: seq<Worker>, t: nat, x0: Node, x: Node)
    requires t < |ws| && !ws[t].Working?
    ensures WorksOn(ws[t := Working(x0, 0)], x) <==> WorksOn(ws, x) || x == x0
    ensures PushedBy(ws[t := Working(x0, 0)], x) <==> PushedBy(ws, x)
  {
    var ws' := ws[t := Working(x0, 0)];
    assert ws'[t] == Working(x0, 0);
    if WorksOn(ws, x) {
      var u :| 0 <= u < |ws| && ws[u].Working? && ws[u].node == x;
      assert ws'[u] == ws[u];
    }
    if PushedBy(ws, x) {
      var u :| 0 <= u < |ws| && ws[u].Working? && ws[u].node == Parent(x) && Index(x) < ws[u].next;
      assert ws'[u] == ws[u];
    }
  }

  lemma PopWork(tree: Tree, s: State, t: nat)
    requires WorkOk(tree, s) && Enabled(tree, s, Enter(t)) && s.fifo != [] && s.fifo[0] !in s.begun
    requires forall x :: WorksOn(DoEnter(s, t).workers, x) <==> WorksOn(s.workers, x) || x == s.fifo[0]
    ensures WorkOk(tree, DoEnter(s, t))
  {
    var s', x0 := DoEnter(s, t), s.fifo[0];
    forall u | 0 <= u < |s.workers| && s.workers[u].Working?
      ensures s.workers[u].node != x0
    {
      assert WorksOn(s.workers, s.workers[u].node);
    }
  }

  lemma PushWorkers(ws: seq<Worker>, ws': seq<Worker>, t: nat, k: nat, x: Node)
    requires t < |ws| == |ws'| && ws[t].Working? && ws[t].next == k && ws'[t] == Working(ws[t].node, k + 1)
    requires forall u {:trigger ws'[u]} {:trigger ws[u]} :: 0 <= u < |ws| && u != t ==>
      ws'[u] == ws[u] || (!ws[u].Working? && !ws'[u].Working?)
    ensures WorksOn(ws', x) <==> WorksOn(ws, x)
    ensures PushedBy(ws', x) <==> PushedBy(ws, x) || x == ws[t].node + [k]
  {
    var y := ws[t].node + [k];
    assert Parent(y) == ws[t].node && Index(y) == k;
    if x != [] && Parent(x) == ws[t].node && Index(x) == k {
      assert x == Parent(x) + [Index(x)];
    }
    if WorksOn(ws, x) {
      var u :| 0 <= u < |ws| && ws[u].Working? && ws[u].node == x;
      assert ws'[u].Working? && ws'[u].node == x;
    }
    if WorksOn(ws', x) {
      var u :| 0 <= u < |ws| && ws'[u].Working? && ws'[u].node == x;
      assert ws[u].Working? && ws[u].node == x;
    }
    if PushedBy(ws, x) {
      var u :| 0 <= u < |ws| && ws[u].Working? && ws[u].node == Parent(x) && Index(x) < ws[u].next;
      assert ws'[u].Working?;
    }
    if PushedBy(ws', x) {
      var u :| 0 <= u < |ws| && ws'[u].Working? && ws'[u].node == Parent(x) && Index(x) < ws'[u].next;
      assert ws[u].Working?;
    }
  }

  lemma ChildInTree(tree: Tree, x: Node, k: nat)
    ensures InTree(tree, x + [k]) <==> InTree(tree, x) && k < tree(x)
  {
    var y := x + [k];
    assert y[..|x|] == x;
    forall i | 0 <= i < |x|
      ensures y[..i] == x[..i] && y[i] == x[i]
    {
    }
    if InTree(tree, y) {
      assert y[|x|] < tree(y[..|x|]);
      forall i | 0 <= i < |x|
        ensures x[i] < tree(x[..i])
      {
        assert y[i] < tree(y[..i]);
      }
    }
  }

  /** The next subdirectory has not been discovered before. */
  lemma NextIsNew(tree: Tree, s: State, t: nat)
    requires WorkOk(tree, s) && t < |s.workers| && s.workers[t].Working?
    ensures !Discovered(s, s.workers[t].node + [s.workers[t].next])
  {
    var Working(x, k) := s.workers[t];
    var y := x + [k];
    assert Parent(y) == x && Index(y) == k;
    forall u | 0 <= u < |s.workers| && s.workers[u].Working? && s.workers[u].node == x
      ensures u == t
    {
    }
  }

  lemma PushNodes(tree: Tree, s: State, t: nat, pick: Option<nat>)
    requires NodesOk(tree, s) && WorkOk(tree, s) && Enabled(tree, s, Push(t, pick))
    ensures NodesOk(tree, Apply(tree, s, Push(t, pick))) && WorkOk(tree, Apply(tree, s, Push(t, pick)))
  {
    var s' := Apply(tree, s, Push(t, pick));
    var Working(x, k) := s.workers[t];
    var y := x + [k];
    forall z
      ensures WorksOn(s'.workers, z) <==> WorksOn(s.workers, z)
      ensures PushedBy(s'.workers, z) <==> PushedBy(s.workers, z) || z == y
    {
      PushWorkers(s.workers, s'.workers, t, k, z);
    }
    NextIsNew(tree, s, t);
    assert WorksOn(s.workers, x);
    assert Known(s, x);
    ChildInTree(tree, x, k);
    PushAll(tree, s, s', y);
    PushWorkOk(tree, s, t, pick);
  }

  lemma PushWorkOk(tree: Tree, s: State, t: nat, pick: Option<nat>)
    requires WorkOk(tree, s) && Enabled(tree, s, Push(t, pick))
    requires forall z :: WorksOn(Apply(tree, s, Push(t, pick)).workers, z) <==> WorksOn(s.workers, z)
    ensures WorkOk(tree, Apply(tree, s, Push(t, pick)))
  {
    hide WorksOn;
  }

  lemma PushAll(tree: Tree, s: State, s': State, y: Node)
    requires NodesOk(tree, s) && InTree(tree, y) && !Discovered(s, y)
    requires s'.begun == s.begun && s'.finished == s.finished && s'.fifo == s.fifo + [y]
    requires forall z :: PushedBy(s'.workers, z) <==> PushedBy(s.workers, z) || z == y
    ensures NodesOk(tree, s')
  {
    hide PushedBy, InTree;
    assert !Known(s, y);
    assert s'.begun + s'.fifo == (s.begun + s.fifo) + [y];
    assert forall z :: Known(s', z) <==> Known(s, z) || z == y;
    assert NoDup(s'.begun + s'.fifo) by {
      assert y !in s.begun + s.fifo;
    }
    assert forall z :: Discovered(s', z) <==> Discovered(s, z) || z == y;
  }

  lemma FinishWorkers(ws: seq<Worker>, ws': seq<Worker>, t: nat, x: Node)
    requires t < |ws| == |ws'| && ws[t].Working? && !ws'[t].Working?
    requires forall u {:trigger ws'[u]} {:trigger ws[u]} :: 0 <= u < |ws| && u != t ==>
      if ws[u].Working? then ws'[u] == ws[u] else !ws'[u].Working?
    requires forall u :: 0 <= u < |ws| && u != t && ws[u].Working? ==> ws[u].node != ws[t].node
    ensures WorksOn(ws', x) <==> WorksOn(ws, x) && x != ws[t].node
    ensures PushedBy(ws', x) <==> PushedBy(ws, x) && Parent(x) != ws[t].node
  {
    if WorksOn(ws, x) && x != ws[t].node {
      var u :| 0 <= u < |ws| && ws[u].Working? && ws[u].node == x;
      assert ws'[u] == ws[u];
    }
    if WorksOn(ws', x) {
      var u :| 0 <= u < |ws| && ws'[u].Working? && ws'[u].node == x;
      assert ws[u].Working? && u != t;
    }
    if PushedBy(ws, x) && Parent(x) != ws[t].node {
      var u :| 0 <= u < |ws| && ws[u].Working? && ws[u].node == Parent(x) && Index(x) < ws[u].next;
      assert ws'[u] == ws[u];
    }
    if PushedBy(ws', x) {
      var u :| 0 <= u < |ws| && ws'[u].Working? && ws'[u].node == Parent(x) && Index(x) < ws'[u].next;
      assert ws[u].Working? && u != t;
    }
  }

  lemma FinishNodes(tree: Tree, s: State, t: nat)
    requires NodesOk(tree, s) && WorkOk(tree, s) && Enabled(tree, s, Finish(t))
    ensures NodesOk(tree, DoFinish(s, t)) && WorkOk(tree, DoFinish(s, t))
  {
    var s', x0 := DoFinish(s, t), s.workers[t].node;
    forall x
      ensures WorksOn(s'.workers, x) <==> WorksOn(s.workers, x) && x != x0
      ensures PushedBy(s'.workers, x) <==> PushedBy(s.workers, x) && Parent(x) != x0
    {
      FinishWorkers(s.workers, s'.workers, t, x);
    }
    assert WorksOn(s.workers, x0);
    forall x | InTree(tree, x)
      ensures Discovered(s', x) <==> Discovered(s, x)
    {
      FinishDiscovers(tree, s, t, x);
    }
    forall x | Discovered(s', x)
      ensures Known(s', x) <==> Known(s, x)
    {
    }
    FinishWorkOk(tree, s, t);
    hide PushedBy, WorksOn, InTree, Discovered, WorkOk;
  }

  /** All subdirectories of a finished directory had been pushed. */
  lemma FinishDiscovers(tree: Tree, s: State, t: nat, x: Node)
    requires Enabled(tree, s, Finish(t)) && InTree(tree, x)
    requires PushedBy(DoFinish(s, t).workers, x) <==> PushedBy(s.workers, x) && Parent(x) != s.workers[t].node
    ensures Discovered(DoFinish(s, t), x) <==> Discovered(s, x)
  {
    var s', x0 := DoFinish(s, t), s.workers[t].node;
    if x != [] && Parent(x) == x0 {
      assert x[|x| - 1] < tree(x[..|x| - 1]);
      assert Index(x) < s.workers[t].next;
      assert PushedBy(s.workers, x);
    }
  }

  lemma FinishWorkOk(tree: Tree, s: State, t: nat)
    requires WorkOk(tree, s) && Enabled(tree, s, Finish(t)) && WorksOn(s.workers, s.workers[t].node)
    requires forall x :: WorksOn(DoFinish(s, t).workers, x) <==> WorksOn(s.workers, x) && x != s.workers[t].node
    ensures WorkOk(tree, DoFinish(s, t))
  {
    hide WorksOn;
  }

  lemma EnterNodes(tree: Tree, s: State, t: nat)
    requires NodesOk(tree, s) && WorkOk(tree, s) && Enabled(tree, s, Enter(t))
    ensures NodesOk(tree, DoEnter(s, t)) && WorkOk(tree, DoEnter(s, t))
  {
    if s.fifo != [] {
      PopNodes(tree, s, t);
    } else {
      SameWork(tree, s, DoEnter(s, t));
    }
  }

  lemma StepInv(tree: Tree, s: State, step: Step)
    requires Inv(tree, s) && Enabled(tree, s, step)
    ensures Inv(tree, Apply(tree, s, step))
  {
    hide NodesOk, WorkOk, CountsOk;
    match step
    case Enter(t) =>
      EnterCounts(tree, s, t);
      EnterNodes(tree, s, t);
    case Push(t, pick) =>
      PushCounts(tree, s, t, pick);
      PushNodes(tree, s, t, pick);
    case Finish(t) =>
      FinishCounts(tree, s, t);
      FinishNodes(tree, s, t);
    case Wake(t) =>
      WakeCounts(tree, s, t);
      SameWork(tree, s, Apply(tree, s, step));
  }

  lemma InitInv(tree: Tree, workers: nat)
    requires workers >= 1
    ensures Inv(tree, Init(workers))
  {
    var s := Init(workers);
    CountZero(s.workers, AtWork);
    CountZero(s.workers, Asleep);
    assert forall x :: !PushedBy(s.workers, x) && !WorksOn(s.workers, x);
  }

  lemma {:induction false} RunInv(tree: Tree, workers: nat, ss: seq<State>, steps: seq<Step>, n: nat)
    requires workers >= 1 && IsRun(tree, workers, ss, steps) && n < |ss|
    ensures Inv(tree, ss[n]) && |ss[n].workers| == workers
    decreases n
  {
    if n == 0 {
      InitInv(tree, workers);
    } else {
      RunInv(tree, workers, ss, steps, n - 1);
      var step := steps[n - 1];
      StepInv(tree, ss[n - 1], step);
      hide Inv;
    }
  }

  // ---------------------------------------------------------------------------
  // Main results

  lemma {:induction false} AllBegun(tree: Tree, s: State, x: Node)
    requires Inv(tree, s) && s.done && InTree(tree, x)
    ensures x in s.begun && x in s.finished
    decreases |x|
  {
    CountZero(s.workers, AtWork);
    assert !WorksOn(s.workers, x);
    if x != [] {
      assert x == Parent(x) + [Index(x)];
      ChildInTree(tree, Parent(x), Index(x));
      AllBegun(tree, s, Parent(x));
    }
    assert Known(s, x);
  }

  /**
   The end is announced only when nothing is queued and nobody is at work; by then every
   directory that can be reached by descending has been taken exactly once and finished.
   */
  lemma DoneMeansAll(tree: Tree, workers: nat, ss: seq<State>, steps: seq<Step>, n: nat)
    requires workers >= 1 && IsRun(tree, workers, ss, steps) && n < |ss| && ss[n].done
    ensures |ss[n].workers| == workers && ss[n].fifo == [] && forall t :: 0 <= t < |ss[n].workers| ==> !ss[n].workers[t].Working?
    ensures NoDup(ss[n].begun)
    ensures forall x :: x in ss[n].begun <==> InTree(tree, x)
    ensures forall x :: x in ss[n].finished <==> InTree(tree, x)
  {
    var s := ss[n];
    RunInv(tree, workers, ss, steps, n);
    CountZero(s.workers, AtWork);
    assert s.begun + s.fifo == s.begun;
    forall x
      ensures x in s.begun <==> InTree(tree, x)
      ensures x in s.finished <==> InTree(tree, x)
    {
      assert x in s.begun ==> Known(s, x);
      assert x in s.finished ==> x in s.begun;
      if InTree(tree, x) {
        AllBegun(tree, s, x);
      }
    }
  }

  lemma StepKeepsOrder(tree: Tree, s: State, step: Step)
    requires Enabled(tree, s, step)
    ensures s.begun + s.fifo <= Apply(tree, s, step).begun + Apply(tree, s, step).fifo
  {
    hide WakeAll, Signal;
  }

  /** First in, first out: directories are taken in the order in which they were found. */
  lemma {:induction false} TakenInOrder(tree: Tree, workers: nat, ss: seq<State>, steps: seq<Step>, i: nat, n: nat)
    requires IsRun(tree, workers, ss, steps) && i <= n < |ss|
    ensures ss[i].begun + ss[i].fifo <= ss[n].begun + ss[n].fifo
    decreases n
  {
    hide Enabled, Apply;
    if i < n {
      TakenInOrder(tree, workers, ss, steps, i, n - 1);
      var step := steps[n - 1];
      StepKeepsOrder(tree, ss[n - 1], step);
    }
  }

  ghost predicate CanStep(tree: Tree, s: State, t: nat) {
    Enabled(tree, s, Enter(t)) || Enabled(tree, s, Finish(t)) || exists pick :: Enabled(tree, s, Push(t, pick))
  }

  /** Until all workers have left, one of them can go on; a worker leaves only at the end, and nobody sleeps through it. */
  lemma NeverStuck(tree: Tree, workers: nat, ss: seq<State>, steps: seq<Step>, n: nat)
    requires workers >= 1 && IsRun(tree, workers, ss, steps) && n < |ss|
    ensures (exists t: nat :: t < |ss[n].workers| && ss[n].workers[t] != Gone) ==> exists t :: CanStep(tree, ss[n], t)
    ensures (exists t: nat :: t < |ss[n].workers| && ss[n].workers[t] == Gone) ==> ss[n].done
    ensures ss[n].done ==> forall t :: 0 <= t < |ss[n].workers| ==> ss[n].workers[t] != Parked(false)
  {
    var s := ss[n];
    RunInv(tree, workers, ss, steps, n);
    CountZero(s.workers, Asleep);
    CountAll(s.workers, Asleep);
    CountZero(s.workers, AtWork);
    if t: nat :| t < |s.workers| && s.workers[t].Working? {
      WorkerGoesOn(tree, s, t);
    } else if t: nat :| t < workers && (s.workers[t] == Idle || s.workers[t] == Parked(true)) {
      assert CanStep(tree, s, t);
    }
  }

  lemma WorkerGoesOn(tree: Tree, s: State, t: nat)
    requires WorkOk(tree, s) && t < |s.workers| && s.workers[t].Working?
    ensures CanStep(tree, s, t)
  {
    if s.workers[t].next < tree(s.workers[t].node) {
      var pick: Option<nat> := None;
      if u: nat :| u < |s.workers| && Asleep(s.workers[u]) {
        pick := Some(u);
      }
      assert Enabled(tree, s, Push(t, pick));
    }
  }
}
