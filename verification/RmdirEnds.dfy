/**
 The removal pass comes to an end: every step tries one more directory or begins the next level, and
 when no step is left every directory has been tried.
 */
module RmdirEnds {
  import opened Counting
  import opened DirPaths
  import opened RmdirPass
  import opened RmdirRuns

  /** The threads of a level: no more than asked for, no more than directories, and at least one. */
  lemma ThreadsOfLevel(threads: int, start: nat, end: nat)
    requires start < end
    ensures var n := ThreadCount(threads, start, end);
            && 1 <= n <= end - start && (threads >= 1 ==> n <= threads)
            && (n == threads || n == end - start || (threads < 1 && n == 1))
  {
  }

  /** What the threads from t on have still to try. */
  function Untried(l: seq<Rec>, threads: int, s: Pass, t: nat): int
    requires s.start < s.end <= |l| && t <= |s.cursors|
    decreases |s.cursors| - t
  {
    if t == |s.cursors| then 0
    else SliceStart(l, threads, s.start, s.end, t + 1) - s.cursors[t] + Untried(l, threads, s, t + 1)
  }

  lemma {:induction false} TriedOne(l: seq<Rec>, threads: int, s: Pass, u: nat, s': Pass, t: nat)
    requires s.start < s.end <= |l| && u < |s.cursors| && t <= |s.cursors|
    requires s' == s.(fs := s'.fs, cursors := s.cursors[u := s.cursors[u] + 1])
    ensures Untried(l, threads, s', t) == Untried(l, threads, s, t) - (if t <= u then 1 else 0)
    decreases |s.cursors| - t
  {
    hide SliceStart;
    if t < |s.cursors| {
      TriedOne(l, threads, s, u, s', t + 1);
    }
  }

  lemma FirstSlice(l: seq<Rec>, threads: int, start: nat, end: nat)
    requires start < end <= |l|
    ensures SliceStart(l, threads, start, end, 0) == start
  {
    CutsTile(SiblingRuns(l), start, end, ThreadCount(threads, start, end), 0);
  }

  lemma LastSlice(l: seq<Rec>, threads: int, start: nat, end: nat)
    requires start < end <= |l|
    ensures SliceStart(l, threads, start, end, ThreadCount(threads, start, end)) == end
  {
    CutsTile(SiblingRuns(l), start, end, ThreadCount(threads, start, end), 0);
    hide Cut;
  }

  /** At the beginning of a level its slices are untried, from slice t on to the end. */
  lemma {:induction false} FreshLevel(l: seq<Rec>, threads: int, s: Pass, t: nat)
    requires s.start < s.end <= |l| && |s.cursors| == ThreadCount(threads, s.start, s.end) && t <= |s.cursors|
    requires forall u {:trigger s.cursors[u]} :: 0 <= u < |s.cursors| ==> s.cursors[u] == SliceStart(l, threads, s.start, s.end, u)
    ensures Untried(l, threads, s, t) == s.end - SliceStart(l, threads, s.start, s.end, t)
    decreases |s.cursors| - t
  {
    hide SliceStart, ThreadCount;
    LastSlice(l, threads, s.start, s.end);
    if t < |s.cursors| {
      FreshLevel(l, threads, s, t + 1);
    }
  }

  function Measure(l: seq<Rec>, threads: int, s: Pass): int {
    2 * (|l| - s.end) + if s.start < s.end <= |l| then Untried(l, threads, s, 0) else 0
  }

  lemma {:induction false} UntriedNat(l: seq<Rec>, threads: int, s: Pass, t: nat)
    requires s.start < s.end <= |l| && LevelOk(l, threads, s) && t <= |s.cursors|
    ensures Untried(l, threads, s, t) >= 0
    decreases |s.cursors| - t
  {
    hide SliceStart;
    if t < |s.cursors| {
      UntriedNat(l, threads, s, t + 1);
      assert s.cursors[t] <= SliceStart(l, threads, s.start, s.end, t + 1);
    }
  }

  lemma RemoveFalls(l: seq<Rec>, threads: int, s: Pass, t: nat)
    requires Enabled(l, threads, s, Remove(t))
    ensures Measure(l, threads, Apply(l, threads, s, Remove(t))) < Measure(l, threads, s)
  {
    hide SliceStart, RmdirOne, Joined;
    TriedOne(l, threads, s, t, Apply(l, threads, s, Remove(t)), 0);
    hide Untried;
  }

  lemma LevelFalls(l: seq<Rec>, threads: int, s: Pass, end: nat)
    requires LevelOk(l, threads, s) && Enabled(l, threads, s, NextLevel(end))
    ensures Measure(l, threads, Apply(l, threads, s, NextLevel(end))) < Measure(l, threads, s)
  {
    if s.start < s.end {
      UntriedNat(l, threads, s, 0);
    }
    hide SliceStart, LevelOk, Joined, ThreadCount;
    var s' := Apply(l, threads, s, NextLevel(end));
    FreshLevel(l, threads, s', 0);
    FirstSlice(l, threads, s'.start, end);
    hide Untried;
  }

  lemma StepFalls(l: seq<Rec>, threads: int, s: Pass, step: Step)
    requires LevelOk(l, threads, s) && Enabled(l, threads, s, step)
    ensures Measure(l, threads, Apply(l, threads, s, step)) < Measure(l, threads, s)
  {
    hide LevelOk, Enabled, Apply, Measure;
    match step
    case Remove(t) => RemoveFalls(l, threads, s, t);
    case NextLevel(end) => LevelFalls(l, threads, s, end);
  }

  lemma {:induction false} RunFalls(l: seq<Rec>, base: nat, threads: int, fs: Fs, ss: seq<Pass>, steps: seq<Step>, n: nat)
    requires Setting(l, base, fs) && IsRun(l, threads, fs, ss, steps) && n < |ss|
    ensures Measure(l, threads, ss[n]) + n <= 2 * |l|
    decreases n
  {
    hide Inv, Setting, Enabled, Apply, Measure;
    if n == 0 {
      Begin(l, threads, fs);
    } else {
      RunFalls(l, base, threads, fs, ss, steps, n - 1);
      RunInv(l, base, threads, fs, ss, steps, n - 1);
      var step := steps[n - 1];
      InvLevel(l, threads, fs, ss[n - 1]);
      StepFalls(l, threads, ss[n - 1], step);
    }
  }

  lemma Begin(l: seq<Rec>, threads: int, fs: Fs)
    ensures Measure(l, threads, RmdirRuns.Init(fs)) == 2 * |l|
  {
  }

  lemma InvLevel(l: seq<Rec>, threads: int, fs: Fs, s: Pass)
    requires Inv(l, threads, fs, s)
    ensures LevelOk(l, threads, s)
  {
  }

  lemma {:induction false} LevelExists(l: seq<Rec>, start: nat, end: nat) returns (e: nat)
    requires start < end <= |l| && forall i :: start <= i < end ==> l[i].depth == l[start].depth
    ensures IsLevel(l, start, e)
    decreases |l| - end
  {
    if end < |l| && l[end].depth == l[start].depth {
      e := LevelExists(l, start, end + 1);
    } else {
      e := end;
    }
  }

  lemma SomeRemoval(l: seq<Rec>, threads: int, s: Pass)
    requires LevelOk(l, threads, s) && !Joined(l, threads, s)
    ensures exists step :: Enabled(l, threads, s, step)
  {
    hide SliceStart, IsLevel, ThreadCount;
    var t: nat :| t < |s.cursors| && s.cursors[t] != SliceStart(l, threads, s.start, s.end, t + 1);
    assert s.cursors[t] < SliceStart(l, threads, s.start, s.end, t + 1) <= s.end;
    assert Enabled(l, threads, s, Remove(t));
  }

  lemma SomeLevel(l: seq<Rec>, threads: int, s: Pass)
    requires Joined(l, threads, s) && s.end < |l|
    ensures exists step :: Enabled(l, threads, s, step)
  {
    hide SliceStart, Joined, IsLevel;
    var end := LevelExists(l, s.end, s.end + 1);
    assert Enabled(l, threads, s, NextLevel(end));
  }

  lemma SomeStep(l: seq<Rec>, threads: int, s: Pass)
    requires LevelOk(l, threads, s) && !(s.end == |l| && Joined(l, threads, s))
    ensures exists step :: Enabled(l, threads, s, step)
  {
    InList(l, threads, s);
    hide LevelOk, Joined, Enabled;
    if Joined(l, threads, s) {
      SomeLevel(l, threads, s);
    } else {
      SomeRemoval(l, threads, s);
    }
  }

  /**
   Every pass ends, after at most two steps for each directory; and when no step is left, exactly the
   directories of the walk with nothing but directories below them are gone.
   */
  lemma EveryPassEnds(l: seq<Rec>, base: nat, threads: int, fs: Fs, ss: seq<Pass>, steps: seq<Step>)
    requires Setting(l, base, fs) && IsRun(l, threads, fs, ss, steps)
    ensures |steps| <= 2 * |l|
    ensures var s := ss[|steps|];
            (forall step :: !Enabled(l, threads, s, step)) ==>
              && s.fs.others == fs.others
              && (forall i :: 0 <= i < |l| ==> (l[i].path in s.fs.dirs <==> !Collapses(fs, l[i].path)))
              && (forall x :: x in fs.dirs && (forall i :: 0 <= i < |l| ==> l[i].path != x) ==> x in s.fs.dirs)
  {
    var n := |steps|;
    var s := ss[n];
    RunFalls(l, base, threads, fs, ss, steps, n);
    RunInv(l, base, threads, fs, ss, steps, n);
    InvLevel(l, threads, fs, s);
    if s.start < s.end {
      UntriedNat(l, threads, s, 0);
    }
    InList(l, threads, s);
    hide LevelOk, Inv, Setting, Enabled, Collapses, Joined, IsRun;
    if s.end == |l| && Joined(l, threads, s) {
      RemovedIffCollapses(l, base, threads, fs, ss, steps, n);
    } else {
      SomeStep(l, threads, s);
    }
  }

  lemma InList(l: seq<Rec>, threads: int, s: Pass)
    requires LevelOk(l, threads, s)
    ensures s.start <= s.end <= |l|
  {
  }
}
