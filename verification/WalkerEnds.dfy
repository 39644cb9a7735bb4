/**
 The walk of a finite tree comes to an end: a measure falls with every step and rises by one only
 when a worker wakes for no reason, so the length of a run is bounded.
 */
module WalkerEnds {
  import opened Counting
  import opened Walker

  function Power(w: Worker): nat {
    match w
    case Idle => 1
    case Parked(signalled) => if signalled then 1 else 0
    case Working(_, _) => 2
    case Gone => 0
  }

  /** One wake of every worker for each of n directories. */
  function Rounds(workers: nat, n: int): int { workers * n }

  /** Directories still to be pushed, to be taken and to be finished; the last one wakes all workers. */
  function Measure(size: nat, s: State): int {
    2 * (size - |s.begun + s.fifo|) + 2 * (size - |s.begun|) + Rounds(|s.workers|, size - |s.finished|) + Sum(s.workers, Power)
  }

  lemma PowerChange(ws: seq<Worker>, t: nat, w: Worker)
    requires t < |ws|
    ensures Sum(ws[t := w], Power) == Sum(ws, Power) - Power(ws[t]) + Power(w)
  {
    SumUpdate(ws, t, w, Power);
  }

  lemma {:induction false} WakeAllPower(ws: seq<Worker>)
    ensures Sum(WakeAll(ws), Power) <= Sum(ws, Power) + |ws|
  {
    if ws != [] {
      var n := |ws| - 1;
      WakeAllPower(ws[..n]);
      assert WakeAll(ws)[..n] == WakeAll(ws[..n]);
    }
  }

  lemma EnterFalls(tree: Tree, size: nat, s: State, t: nat)
    requires Enabled(tree, s, Enter(t))
    ensures Measure(size, DoEnter(s, t)) < Measure(size, s)
  {
    var s' := DoEnter(s, t);
    PowerChange(s.workers, t, s'.workers[t]);
    if s.fifo != [] {
      assert s'.begun + s'.fifo == s.begun + s.fifo;
    }
    hide Sum, Rounds;
  }

  lemma PushFalls(tree: Tree, size: nat, s: State, t: nat, pick: Option<nat>)
    requires Enabled(tree, s, Push(t, pick))
    ensures Measure(size, Apply(tree, s, Push(t, pick))) < Measure(size, s)
  {
    var s' := Apply(tree, s, Push(t, pick));
    if pick.Some? {
      PowerChange(s.workers, pick.value, Parked(true));
    }
    PowerChange(Signal(s.workers, pick), t, s'.workers[t]);
    hide Sum, Rounds;
  }

  lemma NotYetFinished(tree: Tree, s: State, t: nat)
    requires WorkOk(tree, s) && Enabled(tree, s, Finish(t))
    ensures s.workers[t].node !in s.finished
  {
  }

  lemma FinishPower(s: State, t: nat)
    requires t < |s.workers| && s.workers[t].Working?
    ensures Sum(DoFinish(s, t).workers, Power) <= Sum(s.workers, Power) - 1 + |s.workers|
  {
    PowerChange(s.workers, t, Idle);
    WakeAllPower(s.workers[t := Idle]);
    hide Sum, WakeAll;
  }

  lemma FinishOther(s: State, t: nat)
    requires t < |s.workers| && s.workers[t].Working? && s.workers[t].node !in s.finished
    ensures var s' := DoFinish(s, t);
            s'.begun == s.begun && s'.fifo == s.fifo && |s'.finished| == |s.finished| + 1 && |s'.workers| == |s.workers|
  {
  }

  lemma FinishFalls(tree: Tree, size: nat, s: State, t: nat)
    requires WorkOk(tree, s) && Enabled(tree, s, Finish(t))
    ensures Measure(size, DoFinish(s, t)) < Measure(size, s)
  {
    NotYetFinished(tree, s, t);
    FinishedFalls(size, s, t);
  }

  lemma FinishedFalls(size: nat, s: State, t: nat)
    requires t < |s.workers| && s.workers[t].Working? && s.workers[t].node !in s.finished
    ensures Measure(size, DoFinish(s, t)) < Measure(size, s)
  {
    hide Sum, Rounds, DoFinish;
    FinishPower(s, t);
    FinishOther(s, t);
    OneLess(|s.workers|, size - |s.finished|);
    assert size - |DoFinish(s, t).finished| == (size - |s.finished|) - 1;
  }

  lemma OneLess(k: nat, n: int)
    ensures Rounds(k, n - 1) == Rounds(k, n) - k
  {
  }

  predicate IsWake(step: Step) { step.Wake? }

  lemma StepFalls(tree: Tree, size: nat, s: State, step: Step)
    requires Inv(tree, s) && Enabled(tree, s, step)
    ensures Measure(size, Apply(tree, s, step)) <= Measure(size, s) + (if IsWake(step) then 1 else -1)
  {
    match step
    case Enter(t) => EnterFalls(tree, size, s, t);
    case Push(t, pick) => PushFalls(tree, size, s, t, pick);
    case Finish(t) => FinishFalls(tree, size, s, t);
    case Wake(t) =>
      hide Sum, Inv, Rounds;
      PowerChange(s.workers, t, Parked(true));
  }

  /** The sequences of the walk hold no more directories than there are. */
  lemma MeasureNat(tree: Tree, nodes: set<Node>, s: State)
    requires Inv(tree, s) && forall x :: InTree(tree, x) ==> x in nodes
    ensures Measure(|nodes|, s) >= 0
  {
    var all := s.begun + s.fifo;
    NoDupSize(all);
    assert NoDup(s.begun) by {
      assert forall i :: 0 <= i < |s.begun| ==> all[i] == s.begun[i];
    }
    NoDupSize(s.begun);
    hide NoDup, Sum, Rounds;
    forall x | x in Elements(all)
      ensures x in nodes
    {
      assert Known(s, x);
    }
    SubsetSize(Elements(all), nodes);
    assert Elements(s.begun) <= Elements(all);
    SubsetSize(Elements(s.begun), nodes);
    assert s.finished <= Elements(s.begun);
    SubsetSize(s.finished, nodes);
    NotNegative(|s.workers|, |nodes| - |s.finished|);
    hide Inv, InTree, Elements;
  }

  lemma NotNegative(k: nat, n: nat)
    ensures Rounds(k, n) >= 0
  {
  }

  function WakesIn(steps: seq<Step>): nat { Count(steps, IsWake) }

  lemma InitMeasure(tree: Tree, size: nat, workers: nat)
    ensures Measure(size, Init(workers)) <= 4 * size + workers * size + workers
  {
    SumBound(Init(workers).workers, Power, 1);
    assert |Init(workers).begun + Init(workers).fifo| == 1;
    hide Sum;
  }

  lemma {:induction false} RunFalls(tree: Tree, size: nat, workers: nat, ss: seq<State>, steps: seq<Step>, n: nat)
    requires workers >= 1 && IsRun(tree, workers, ss, steps) && n <= |steps|
    ensures Measure(size, ss[n]) + n <= 4 * size + workers * size + workers + 2 * WakesIn(steps[..n])
    decreases n
  {
    hide Measure, Inv, Enabled, Apply;
    if n == 0 {
      InitMeasure(tree, size, workers);
    } else {
      RunFalls(tree, size, workers, ss, steps, n - 1);
      RunInv(tree, workers, ss, steps, n - 1);
      var step := steps[n - 1];
      StepFalls(tree, size, ss[n - 1], step);
      assert steps[..n][..n - 1] == steps[..n - 1];
    }
  }

  /**
   Every walk of a finite tree ends: its length is bounded by the number of directories and workers
   and by the wakes for no reason, and when only such a wake is possible all workers have left and
   every directory has been finished.
   */
  lemma EveryWalkEnds(tree: Tree, nodes: set<Node>, workers: nat, ss: seq<State>, steps: seq<Step>)
    requires workers >= 1 && IsRun(tree, workers, ss, steps) && forall x :: InTree(tree, x) ==> x in nodes
    ensures |steps| <= 4 * |nodes| + workers * |nodes| + workers + 2 * WakesIn(steps)
    ensures var s := ss[|steps|];
            (forall step :: Enabled(tree, s, step) ==> IsWake(step)) ==>
              (forall t :: 0 <= t < |s.workers| ==> s.workers[t] == Gone) && forall x :: InTree(tree, x) <==> x in s.finished
  {
    var n := |steps|;
    var s := ss[n];
    RunFalls(tree, |nodes|, workers, ss, steps, n);
    RunInv(tree, workers, ss, steps, n);
    MeasureNat(tree, nodes, s);
    assert steps[..n] == steps;
    hide Inv, Measure, Apply, Enabled, InTree, CanStep;
    NeverStuck(tree, workers, ss, steps, n);
    if t: nat :| CanStep(tree, s, t) {
      SomeStep(tree, s, t);
    } else {
      assert s.workers[0] == Gone;
      DoneMeansAll(tree, workers, ss, steps, n);
    }
  }

  lemma SomeStep(tree: Tree, s: State, t: nat)
    requires CanStep(tree, s, t)
    ensures exists step :: Enabled(tree, s, step) && !IsWake(step)
  {
    hide Enabled;
    if Enabled(tree, s, Enter(t)) {
      assert !IsWake(Enter(t));
    } else if Enabled(tree, s, Finish(t)) {
      assert !IsWake(Finish(t));
    } else {
      var pick :| Enabled(tree, s, Push(t, pick));
      assert !IsWake(Push(t, pick));
    }
  }
}
