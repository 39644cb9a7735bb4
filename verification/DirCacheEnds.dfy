/**
 Every call for a directory returns, and what it returns is right: a measure falls with every step
 of a thread, all calls for one path get the same answer, and without trouble that answer is 0.
 */
module DirCacheEnds {
  import opened Counting
  import opened DirPaths
  import opened DirCache

  // ---------------------------------------------------------------------------
  // The measure

  /** What a call may still cost, n being the number of threads that one broadcast may wake. */
  function FramePower(n: nat, f: Frame): nat {
    match f.pc
    case Looking => Times(|f.path| + 1, n + 4)
    case Parked => Times(|f.path|, n + 4) + n + 3
    case Making => Times(|f.path|, n + 4) + n + 3
    case AskingParent => n + 2
    case MakingAgain => n + 2
    case Ending(_) => n + 1
  }

  function FrameWeight(n: nat): Frame -> nat {
    (f: Frame) => FramePower(n, f)
  }

  function StackPower(n: nat, th: Thread): nat { Sum(th.stack, FrameWeight(n)) }

  function ThreadWeight(n: nat): Thread -> nat {
    (th: Thread) => StackPower(n, th)
  }

  function Measure(n: nat, s: State): nat { Sum(s.threads, ThreadWeight(n)) }

  lemma ThreadSum(n: nat, ths: seq<Thread>, t: nat, th: Thread)
    requires t < |ths|
    ensures Sum(ths[t := th], ThreadWeight(n)) == Sum(ths, ThreadWeight(n)) - StackPower(n, ths[t]) + StackPower(n, th)
  {
    SumUpdate(ths, t, th, ThreadWeight(n));
    hide Sum, StackPower;
  }

  lemma TopSum(n: nat, th: Thread, pc: Pc)
    requires th.stack != []
    ensures StackPower(n, SetTop(th, pc)) == StackPower(n, th) - FramePower(n, Top(th)) + FramePower(n, Top(th).(pc := pc))
  {
    SumUpdate(th.stack, |th.stack| - 1, Top(th).(pc := pc), FrameWeight(n));
    hide Sum, FramePower;
  }

  lemma PushSum(n: nat, th: Thread, f: Frame)
    ensures StackPower(n, th.(stack := th.stack + [f])) == StackPower(n, th) + FramePower(n, f)
  {
    assert (th.stack + [f])[..|th.stack|] == th.stack;
    hide FramePower;
  }

  /** A call that returns takes its cost along, and its caller's does not rise. */
  lemma ReturnSum(n: nat, th: Thread, ok: bool)
    requires StackOk(th.stack) && th.stack != []
    ensures StackPower(n, Returned(th, ok)) + FramePower(n, Top(th)) <= StackPower(n, th)
  {
    var k := |th.stack| - 1;
    var below := th.stack[..k];
    assert Sum(th.stack, FrameWeight(n)) == Sum(below, FrameWeight(n)) + FramePower(n, Top(th));
    if k > 0 {
      assert below[k - 1].pc == AskingParent by {
        assert th.stack[k - 1].pc == AskingParent;
      }
      SumUpdate(below, k - 1, below[k - 1].(pc := if ok then MakingAgain else Ending(false)), FrameWeight(n));
    }
    hide Sum, Times, StackOk;
  }

  /** A broadcast wakes at most every thread once. */
  lemma {:induction false} WokenSum(n: nat, ths: seq<Thread>, p: Path)
    ensures Sum(Woken(ths, p), ThreadWeight(n)) <= Sum(ths, ThreadWeight(n)) + |ths|
    decreases |ths|
  {
    if ths != [] {
      var k := |ths| - 1;
      WokenSum(n, ths[..k], p);
      assert Woken(ths, p)[..k] == Woken(ths[..k], p);
      if ths[k].stack != [] && Top(ths[k]) == Frame(p, Parked) {
        WokenOne(n, ths[k], p);
      }
      hide StackPower;
    }
  }

  lemma WokenOne(n: nat, th: Thread, p: Path)
    requires th.stack != [] && Top(th) == Frame(p, Parked)
    ensures StackPower(n, SetTop(th, Looking)) == StackPower(n, th) + 1
  {
    TopSum(n, th, Looking);
    LookingCost(n, |p|);
  }

  lemma LookingCost(n: nat, k: nat)
    ensures Times(k + 1, n + 4) == Times(k, n + 4) + n + 4
  {
  }

  // ---------------------------------------------------------------------------
  // Steps

  lemma SetThreadFalls(n: nat, s: State, s': State, t: nat, th: Thread)
    requires t < |s.threads| && s'.threads == s.threads[t := th] && StackPower(n, th) < StackPower(n, s.threads[t])
    ensures Measure(n, s') < Measure(n, s)
  {
    ThreadSum(n, s.threads, t, th);
    hide Sum, StackPower;
  }

  lemma StacksOk(s: State, t: nat)
    requires Inv(s) && t < |s.threads|
    ensures StackOk(s.threads[t].stack)
  {
    assert ThreadOk(s.dirs, s.cache, t, s.threads[t]);
  }

  lemma SameStack(n: nat, th: Thread, th': Thread)
    requires th'.stack == th.stack
    ensures StackPower(n, th') == StackPower(n, th)
  {
  }

  lemma FramePositive(n: nat, f: Frame)
    ensures FramePower(n, f) >= n + 1
  {
    LookingCost(n, |f.path|);
    hide Times;
  }

  lemma LookupFalls(n: nat, s: State, t: nat, alloc: bool)
    requires Inv(s) && Enabled(s, Lookup(t, alloc))
    ensures Measure(n, DoLookup(s, t, alloc)) < Measure(n, s)
  {
    var s', th := DoLookup(s, t, alloc), s.threads[t];
    StacksOk(s, t);
    hide Inv, StackOk, Measure, StackPower, FramePower;
    if th.last == Some(Top(th).path) || Top(th).path !in s.cache || !s.cache[Top(th).path].Creating? {
      if th.last != Some(Top(th).path) && Top(th).path !in s.cache && alloc {
        TopFalls(n, th, Making);
      } else {
        var ok := s'.threads[t].stack == Returned(th, true).stack;
        ReturnSum(n, th, ok);
        FramePositive(n, Top(th));
        SameStack(n, Returned(th, ok), s'.threads[t]);
      }
    } else {
      TopFalls(n, th, Parked);
    }
    SetThreadFalls(n, s, s', t, s'.threads[t]);
  }

  lemma TopFalls(n: nat, th: Thread, pc: Pc)
    requires th.stack != [] && Top(th).pc == Looking && (pc == Making || pc == Parked)
    ensures StackPower(n, SetTop(th, pc)) < StackPower(n, th)
  {
    TopSum(n, th, pc);
    LookingCost(n, |Top(th).path|);
    hide Times, StackPower;
  }

  lemma EndFalls(n: nat, th: Thread, ok: bool)
    requires th.stack != [] && (Top(th).pc == Making || Top(th).pc == MakingAgain)
    ensures StackPower(n, SetTop(th, Ending(ok))) < StackPower(n, th)
  {
    TopSum(n, th, Ending(ok));
    hide Times, StackPower;
  }

  lemma AskFalls(n: nat, th: Thread)
    requires th.stack != [] && Top(th).pc == Making && Top(th).path != []
    ensures var th1 := SetTop(th, AskingParent);
            StackPower(n, th1.(stack := th1.stack + [Frame(Parent(Top(th).path), Looking)])) < StackPower(n, th)
  {
    TopSum(n, th, AskingParent);
    PushSum(n, SetTop(th, AskingParent), Frame(Parent(Top(th).path), Looking));
    assert |Parent(Top(th).path)| + 1 == |Top(th).path|;
    hide Times, StackPower;
  }

  lemma MkdirFalls(n: nat, s: State, t: nat, fails: bool)
    requires Enabled(s, Mkdir(t, fails))
    ensures Measure(n, DoMkdir(s, t, fails)) < Measure(n, s)
  {
    var s', th := DoMkdir(s, t, fails), s.threads[t];
    hide Measure, StackPower, MkdirOutcome;
    if s'.threads[t] == SetTop(th, Ending(true)) {
      EndFalls(n, th, true);
    } else if s'.threads[t] == SetTop(th, Ending(false)) {
      EndFalls(n, th, false);
    } else {
      AskFalls(n, th);
    }
    SetThreadFalls(n, s, s', t, s'.threads[t]);
  }

  lemma FinishFalls(n: nat, s: State, t: nat)
    requires Inv(s) && Enabled(s, Finish(t)) && n == |s.threads|
    ensures Measure(n, DoFinish(s, t)) < Measure(n, s)
  {
    var s', th := DoFinish(s, t), s.threads[t];
    var Frame(p, pc) := Top(th);
    StacksOk(s, t);
    hide Inv, StackOk, StackPower;
    ReturnSum(n, th, pc.ok);
    SameStack(n, Returned(th, pc.ok), s'.threads[t]);
    WokenSum(n, s.threads, p);
    ThreadSum(n, Woken(s.threads, p), t, s'.threads[t]);
    hide Sum, Returned;
  }

  /** Steps that are not those of a call under way. */
  predicate Outside(step: Step) { step.Call? || step.OtherDir? || step.OtherFile? }

  /** What such a step adds: a call costs a fixed amount for each component of its path. */
  function Allowance(n: nat, step: Step): nat {
    match step
    case Call(_, path) => Times(|path| + 1, n + 4) + 1
    case OtherDir(_) => 1
    case OtherFile(_) => 1
    case _ => 0
  }

  lemma OneFrame(n: nat, th: Thread, f: Frame)
    ensures StackPower(n, th.(stack := [f])) == FramePower(n, f)
  {
    assert [f][..0] == [];
    assert Sum([f], FrameWeight(n)) == Sum([f][..0], FrameWeight(n)) + FrameWeight(n)([f][0]);
    hide FramePower;
  }

  lemma CallFalls(n: nat, s: State, t: nat, path: Path)
    requires Enabled(s, Call(t, path))
    ensures Measure(n, Apply(s, Call(t, path))) + 1 <= Measure(n, s) + Allowance(n, Call(t, path))
  {
    var th, f := s.threads[t], Frame(path, Looking);
    OneFrame(n, th, f);
    assert FramePower(n, f) == Times(|path| + 1, n + 4);
    hide Sum, Times, StackPower, FramePower;
    ThreadSum(n, s.threads, t, th.(stack := [f]));
  }

  lemma StepFalls(n: nat, s: State, step: Step)
    requires Inv(s) && Enabled(s, step) && n == |s.threads|
    ensures Measure(n, Apply(s, step)) + 1 <= Measure(n, s) + Allowance(n, step)
  {
    hide Inv, Sum;
    match step
    case Call(t, path) => hide Measure; CallFalls(n, s, t, path);
    case Lookup(t, alloc) => hide Measure; LookupFalls(n, s, t, alloc);
    case Mkdir(t, fails) => hide Measure; MkdirFalls(n, s, t, fails);
    case Finish(t) => hide Measure; FinishFalls(n, s, t);
    case OtherDir(_) =>
    case OtherFile(_) =>
  }

  lemma StepThreads(s: State, step: Step)
    requires Enabled(s, step)
    ensures |Apply(s, step).threads| == |s.threads|
  {
  }

  // ---------------------------------------------------------------------------
  // Answers

  /** What has been answered agrees with the cache: 0 for a ready entry, -1 for a failed one or for want of memory. */
  ghost predicate AnswersOk(s: State) {
    && (forall p :: p in s.granted ==> p in s.cache && s.cache[p] == Ready)
    && (forall p :: p in s.refused ==> p in s.denied || (p in s.cache && s.cache[p] == Failed))
    && (forall t {:trigger s.threads[t]} :: 0 <= t < |s.threads| && s.threads[t].last.Some? ==>
          s.threads[t].last.value in s.cache && s.cache[s.threads[t].last.value] == Ready)
  }

  /** One thread changes, and at most one answer is added, which agrees with the cache. */
  lemma AnswersFrom(s: State, s': State, t: nat, p: Path)
    requires AnswersOk(s) && t < |s.threads| == |s'.threads| && s'.threads == s.threads[t := s'.threads[t]]
    requires (forall q :: q in s.cache ==> q in s'.cache && s'.cache[q] == s.cache[q]) && s.denied <= s'.denied
    requires s'.granted <= s.granted + {p} && (p in s'.granted && p !in s.granted ==> p in s'.cache && s'.cache[p] == Ready)
    requires s'.refused <= s.refused + {p}
    requires p in s'.refused && p !in s.refused ==> p in s'.denied || (p in s'.cache && s'.cache[p] == Failed)
    requires s'.threads[t].last == s.threads[t].last || (s'.threads[t].last == Some(p) && p in s'.cache && s'.cache[p] == Ready)
    ensures AnswersOk(s')
  {
  }

  lemma LookupAnswers(s: State, t: nat, alloc: bool)
    requires AnswersOk(s) && Enabled(s, Lookup(t, alloc))
    ensures AnswersOk(DoLookup(s, t, alloc))
  {
    var s', p := DoLookup(s, t, alloc), Top(s.threads[t]).path;
    assert s.threads[t].last == Some(p) ==> p in s.cache && s.cache[p] == Ready;
    hide AnswersOk;
    AnswersFrom(s, s', t, p);
  }

  lemma MkdirAnswers(s: State, t: nat, fails: bool)
    requires AnswersOk(s) && Enabled(s, Mkdir(t, fails))
    ensures AnswersOk(DoMkdir(s, t, fails))
  {
    hide AnswersOk, MkdirOutcome;
    AnswersFrom(s, DoMkdir(s, t, fails), t, Top(s.threads[t]).path);
  }

  lemma FinishAnswers(s: State, t: nat)
    requires Inv(s) && AnswersOk(s) && Enabled(s, Finish(t))
    ensures AnswersOk(DoFinish(s, t))
  {
    var th := s.threads[t];
    assert ThreadOk(s.dirs, s.cache, t, th);
    assert FrameOk(s.dirs, s.cache, t, th.stack[|th.stack| - 1]);
    hide Inv, ThreadOk;
    assert s.cache[Top(th).path] == Creating(t);
    forall u | 0 <= u < |s.threads|
      ensures Woken(s.threads, Top(th).path)[u].last == s.threads[u].last
    {
    }
  }

  lemma StepAnswers(s: State, step: Step)
    requires Inv(s) && AnswersOk(s) && Enabled(s, step)
    ensures AnswersOk(Apply(s, step))
  {
    hide Inv, AnswersOk;
    match step
    case Lookup(t, alloc) => LookupAnswers(s, t, alloc);
    case Finish(t) => FinishAnswers(s, t);
    case Mkdir(t, fails) => MkdirAnswers(s, t, fails);
    case Call(t, path) => AnswersFrom(s, Apply(s, step), t, path);
    case OtherDir(_) => SameAnswers(s, Apply(s, step));
    case OtherFile(_) => SameAnswers(s, Apply(s, step));
  }

  lemma SameAnswers(s: State, s': State)
    requires AnswersOk(s) && s'.granted == s.granted && s'.refused == s.refused && s'.denied == s.denied
    requires s'.cache == s.cache && s'.threads == s.threads
    ensures AnswersOk(s')
  {
  }

  lemma {:induction false} RunAnswers(ss: seq<State>, steps: seq<Step>, n: nat)
    requires IsRun(ss, steps) && n < |ss|
    ensures AnswersOk(ss[n]) && |ss[n].threads| == |ss[0].threads|
    decreases n
  {
    if n > 0 {
      RunAnswers(ss, steps, n - 1);
      RunInv(ss, steps, n - 1);
      var step := steps[n - 1];
      hide Inv, AnswersOk, Enabled, Apply;
      StepAnswers(ss[n - 1], step);
      StepThreads(ss[n - 1], step);
    }
  }

  /** The call of thread t for the path has returned, or it is still the outermost one of the thread. */
  ghost predicate Followed(s: State, t: nat, path: Path) {
    path in s.granted || path in s.refused || (Busy(s, t) && s.threads[t].stack[0].path == path)
  }

  lemma StepFollows(s: State, step: Step, t: nat, path: Path)
    requires Enabled(s, step) && Followed(s, t, path)
    ensures Followed(Apply(s, step), t, path)
  {
    match step
    case Lookup(u, alloc) => LookupFollows(s, u, alloc, t, path);
    case Mkdir(u, fails) => MkdirFollows(s, u, fails, t, path);
    case Finish(u) => FinishFollows(s, u, t, path);
    case Call(_, _) =>
    case OtherDir(_) =>
    case OtherFile(_) =>
  }

  /** A call that returns leaves the outer ones alone. */
  lemma ReturnedBelow(th: Thread, ok: bool)
    requires th.stack != []
    ensures if |th.stack| == 1 then Returned(th, ok).stack == [] && Top(th) == th.stack[0]
            else Returned(th, ok).stack != [] && Returned(th, ok).stack[0].path == th.stack[0].path
  {
  }

  lemma LookupFollows(s: State, u: nat, alloc: bool, t: nat, path: Path)
    requires Enabled(s, Lookup(u, alloc)) && Followed(s, t, path)
    ensures Followed(DoLookup(s, u, alloc), t, path)
  {
    ReturnedBelow(s.threads[u], true);
    ReturnedBelow(s.threads[u], false);
    hide Returned;
  }

  lemma MkdirFollows(s: State, u: nat, fails: bool, t: nat, path: Path)
    requires Enabled(s, Mkdir(u, fails)) && Followed(s, t, path)
    ensures Followed(DoMkdir(s, u, fails), t, path)
  {
    hide MkdirOutcome;
  }

  lemma FinishFollows(s: State, u: nat, t: nat, path: Path)
    requires Enabled(s, Finish(u)) && Followed(s, t, path)
    ensures Followed(DoFinish(s, u), t, path)
  {
  }

  lemma {:induction false} CallFollowed(ss: seq<State>, steps: seq<Step>, i: nat, n: nat, t: nat, path: Path)
    requires IsRun(ss, steps) && i < n < |ss| && steps[i] == Call(t, path)
    ensures Followed(ss[n], t, path)
    decreases n
  {
    hide Inv, Followed;
    RunInv(ss, steps, n - 1);
    var step := steps[n - 1];
    if i == n - 1 {
      CallBegins(ss[i], t, path);
    } else {
      CallFollowed(ss, steps, i, n - 1, t, path);
      StepFollows(ss[n - 1], step, t, path);
    }
  }

  lemma CallBegins(s: State, t: nat, path: Path)
    requires Enabled(s, Call(t, path))
    ensures Followed(Apply(s, Call(t, path)), t, path)
  {
  }

  // ---------------------------------------------------------------------------
  // Main results

  function AllowanceOf(n: nat, steps: seq<Step>): nat {
    if steps == [] then 0 else AllowanceOf(n, steps[..|steps| - 1]) + Allowance(n, steps[|steps| - 1])
  }

  lemma {:induction false} RunFalls(ss: seq<State>, steps: seq<Step>, k: nat)
    requires IsRun(ss, steps) && k <= |steps|
    ensures Measure(|ss[0].threads|, ss[k]) + k <= AllowanceOf(|ss[0].threads|, steps[..k])
    decreases k
  {
    var n := |ss[0].threads|;
    hide Measure, Inv, Enabled, Apply, Allowance;
    if k == 0 {
      NothingUnderWay(n, ss[0]);
    } else {
      RunFalls(ss, steps, k - 1);
      RunInv(ss, steps, k - 1);
      RunAnswers(ss, steps, k - 1);
      var step := steps[k - 1];
      StepFalls(n, ss[k - 1], step);
      assert steps[..k][..k - 1] == steps[..k - 1];
    }
  }

  lemma NothingUnderWay(n: nat, s: State)
    requires forall t :: 0 <= t < |s.threads| ==> s.threads[t].stack == []
    ensures Measure(n, s) == 0
  {
    SumBound(s.threads, ThreadWeight(n), 0);
  }

  /**
   Every call returns: the length of a run is bounded by what is called for, a fixed number of steps
   for each component, and when no thread can go on no call is under way.
   */
  lemma EveryCallReturns(ss: seq<State>, steps: seq<Step>)
    requires IsRun(ss, steps)
    ensures |steps| <= AllowanceOf(|ss[0].threads|, steps)
    ensures (forall step :: Enabled(ss[|steps|], step) ==> Outside(step)) ==>
              forall t :: 0 <= t < |ss[|steps|].threads| ==> ss[|steps|].threads[t].stack == []
  {
    var n := |steps|;
    RunFalls(ss, steps, n);
    assert steps[..n] == steps;
    forall t | 0 <= t < |ss[n].threads| && ss[n].threads[t].stack != []
      ensures exists step :: Enabled(ss[n], step) && !Outside(step)
    {
      NeverDeadlocks(ss, steps, n, t);
      var u :| CanStep(ss[n], u);
      StepsInside(ss[n], u);
    }
  }

  lemma StepsInside(s: State, u: nat)
    requires CanStep(s, u)
    ensures exists step :: Enabled(s, step) && !Outside(step)
  {
    hide Enabled;
    if Enabled(s, Lookup(u, true)) {
      assert !Outside(Lookup(u, true));
    } else if Enabled(s, Mkdir(u, false)) {
      assert !Outside(Mkdir(u, false));
    } else {
      assert !Outside(Finish(u));
    }
  }

  /** All calls for one path get the same answer, unless memory for its entry was once lacking. */
  lemma SameAnswer(ss: seq<State>, steps: seq<Step>, n: nat, p: Path)
    requires IsRun(ss, steps) && n < |ss| && p in ss[n].granted && p in ss[n].refused
    ensures p in ss[n].denied
  {
    RunAnswers(ss, steps, n);
  }

  /**
   A call that is over has been answered; without files in the way and without failures from outside
   the answer is 0, and the directory and all its ancestors exist.
   */
  lemma CallsSucceed(ss: seq<State>, steps: seq<Step>, i: nat, n: nat, t: nat, path: Path)
    requires IsRun(ss, steps) && i < n < |ss| && steps[i] == Call(t, path)
    requires t < |ss[n].threads| && ss[n].threads[t].stack == []
    ensures path in ss[n].granted || path in ss[n].refused
    ensures ss[0].files == {} && (forall j :: 0 <= j < n ==> !Fails(steps[j])) ==>
              path in ss[n].granted && forall k: nat :: k <= |path| ==> path[..k] in ss[n].dirs
  {
    CallFollowed(ss, steps, i, n, t, path);
    if ss[0].files == {} && forall j :: 0 <= j < n ==> !Fails(steps[j]) {
      if path in ss[n].refused {
        OnlyTroubleRefuses(ss, steps, n);
      }
      forall k: nat | k <= |path|
        ensures path[..k] in ss[n].dirs
      {
        GrantedExists(ss, steps, n, path, k);
      }
    }
  }
}
