/**
 The removal pass over a file tree: which directories are gone at the end, whatever the
 interleaving of the threads within the levels.
 */
module RmdirRuns {
  import opened DirPaths
  import opened RmdirPass

  /** Directories and everything that is not one. */
  datatype Fs = Fs(dirs: set<Path>, others: set<Path>)

  ghost predicate FsOk(fs: Fs) {
    && fs.dirs !! fs.others
    && forall x :: (x in fs.dirs || x in fs.others) && x != [] ==> Parent(x) in fs.dirs
  }

  ghost predicate HasEntry(fs: Fs, p: Path) {
    exists x :: (x in fs.dirs || x in fs.others) && x != [] && Parent(x) == p
  }

  /** One rmdir: it succeeds on an empty directory, and "/" is never tried. */
  ghost function RmdirOne(fs: Fs, p: Path): Fs {
    if p != [] && p in fs.dirs && !HasEntry(fs, p) then fs.(dirs := fs.dirs - {p}) else fs
  }

  datatype Pass = Pass(fs: Fs, start: nat, end: nat, cursors: seq<nat>)

  /** A thread removes the next directory of its slice; or all are joined and the next level begins. */
  datatype Step = Remove(t: nat) | NextLevel(end: nat)

  function ThreadCount(threads: int, start: nat, end: nat): nat
    requires start < end
  {
    var n := if threads < 1 then 1 else threads;
    if n > end - start then end - start else n
  }

  function SliceStart(l: seq<Rec>, threads: int, start: nat, end: nat, t: nat): nat
    requires start < end <= |l|
  {
    Cut(SiblingRuns(l), start, end, ThreadCount(threads, start, end), t)
  }

  /** Before the first level; the first NextLevel begins it. */
  function Init(fs: Fs): Pass { Pass(fs, 0, 0, []) }

  ghost predicate Joined(l: seq<Rec>, threads: int, s: Pass) {
    s.start < s.end <= |l| ==>
      forall t :: 0 <= t < |s.cursors| ==> s.cursors[t] == SliceStart(l, threads, s.start, s.end, t + 1)
  }

  ghost predicate Enabled(l: seq<Rec>, threads: int, s: Pass, step: Step) {
    match step
    case Remove(t) =>
      && s.start < s.end <= |l| && t < |s.cursors|
      && s.cursors[t] < SliceStart(l, threads, s.start, s.end, t + 1) && s.cursors[t] < |l|
    case NextLevel(end) => Joined(l, threads, s) && IsLevel(l, s.end, end)
  }

  ghost function Apply(l: seq<Rec>, threads: int, s: Pass, step: Step): Pass
    requires Enabled(l, threads, s, step)
  {
    match step
    case Remove(t) =>
      s.(fs := RmdirOne(s.fs, l[s.cursors[t]].path), cursors := s.cursors[t := s.cursors[t] + 1])
    case NextLevel(end) =>
      Pass(s.fs, s.end, end, seq(ThreadCount(threads, s.end, end), t requires t >= 0 => SliceStart(l, threads, s.end, end, t)))
  }

  ghost predicate IsRun(l: seq<Rec>, threads: int, fs: Fs, ss: seq<Pass>, steps: seq<Step>) {
    && |ss| == |steps| + 1 && ss[0] == Init(fs)
    && forall n {:trigger steps[n]} :: 0 <= n < |steps| ==>
         Enabled(l, threads, ss[n], steps[n]) && ss[n + 1] == Apply(l, threads, ss[n], steps[n])
  }

  // ---------------------------------------------------------------------------
  // What should be removed

  ghost predicate Below(x: Path, p: Path) {
    |p| < |x| && x[..|p|] == p
  }

  /** Nothing but directories below p. */
  ghost predicate Collapses(fs: Fs, p: Path) {
    p != [] && forall x :: x in fs.others ==> !Below(x, p)
  }

  /** The walk has visited p's subdirectories if it has visited p. */
  ghost predicate AllRecorded(l: seq<Rec>, fs: Fs) {
    forall i, c {:trigger l[i], Parent(c)} :: 0 <= i < |l| && c in fs.dirs && c != [] && Parent(c) == l[i].path ==>
      exists j :: 0 <= j < |l| && l[j].path == c
  }

  ghost predicate Setting(l: seq<Rec>, base: nat, fs: Fs) {
    Sorted(l) && RecordsOk(l, base) && FsOk(fs) && AllRecorded(l, fs) && forall i :: 0 <= i < |l| ==> l[i].path in fs.dirs
  }

  lemma ParentBelow(x: Path, c: Path)
    requires c != [] && Below(x, c)
    ensures Below(x, Parent(c))
  {
    assert x[..|Parent(c)|] == x[..|c|][..|Parent(c)|];
  }

  lemma {:induction false} AncestorIsDir(fs: Fs, x: Path, k: nat)
    requires FsOk(fs) && (x in fs.dirs || x in fs.others) && k < |x|
    ensures x[..k] in fs.dirs
    decreases |x| - k
  {
    if k + 1 == |x| {
      assert Parent(x) == x[..k];
    } else {
      AncestorIsDir(fs, x, k + 1);
      assert Parent(x[..k + 1]) == x[..k];
    }
  }

  /** A directory collapses when it has no other entries than directories that collapse. */
  lemma CollapseByChildren(fs: Fs, p: Path)
    requires FsOk(fs) && p != []
    ensures Collapses(fs, p) <==>
            && (forall x :: x in fs.others && x != [] ==> Parent(x) != p)
            && (forall c :: c in fs.dirs && c != [] && Parent(c) == p ==> Collapses(fs, c))
  {
    if Collapses(fs, p) {
      forall x | x in fs.others && x != []
        ensures Parent(x) != p
      {
        assert !Below(x, p);
      }
      forall c | c in fs.dirs && c != [] && Parent(c) == p
        ensures Collapses(fs, c)
      {
        forall x | x in fs.others
          ensures !Below(x, c)
        {
          if Below(x, c) {
            ParentBelow(x, c);
          }
        }
      }
    } else {
      var x :| x in fs.others && Below(x, p);
      if |x| == |p| + 1 {
        assert Parent(x) == p;
      } else {
        AncestorIsDir(fs, x, |p| + 1);
        var c := x[..|p| + 1];
        assert Parent(c) == p && Below(x, c);
      }
    }
  }

  // ---------------------------------------------------------------------------
  // The invariant

  ghost predicate Handled(l: seq<Rec>, threads: int, s: Pass, i: nat) {
    i < s.start ||
    (s.start < s.end <= |l| && exists t: nat :: t < |s.cursors| && SliceStart(l, threads, s.start, s.end, t) <= i < s.cursors[t])
  }

  ghost predicate GoneBy(l: seq<Rec>, threads: int, fs: Fs, s: Pass, x: Path) {
    exists i: nat :: i < |l| && l[i].path == x && Handled(l, threads, s, i) && Collapses(fs, x)
  }

  ghost predicate LevelOk(l: seq<Rec>, threads: int, s: Pass) {
    && s.start <= s.end <= |l|
    && (s.start == s.end ==> s.start == 0 && s.cursors == [])
    && (s.start < s.end ==>
          && IsLevel(l, s.start, s.end) && (s.start == 0 || l[s.start - 1].depth != l[s.start].depth)
          && |s.cursors| == ThreadCount(threads, s.start, s.end)
          && forall t {:trigger s.cursors[t]} :: 0 <= t < |s.cursors| ==>
               SliceStart(l, threads, s.start, s.end, t) <= s.cursors[t] <= SliceStart(l, threads, s.start, s.end, t + 1) <= s.end)
  }

  ghost predicate TreeOk(l: seq<Rec>, threads: int, fs: Fs, s: Pass) {
    && s.fs.others == fs.others
    && forall x :: x in s.fs.dirs <==> x in fs.dirs && !GoneBy(l, threads, fs, s, x)
  }

  ghost predicate Inv(l: seq<Rec>, threads: int, fs: Fs, s: Pass) {
    LevelOk(l, threads, s) && TreeOk(l, threads, fs, s)
  }

  /** When a directory is tried, everything deeper has been tried. */
  lemma DeeperHandled(l: seq<Rec>, base: nat, threads: int, s: Pass, i: nat, j: nat)
    requires Sorted(l) && LevelOk(l, threads, s) && s.start <= i < s.end && j < |l| && l[j].depth > l[i].depth
    ensures Handled(l, threads, s, j)
  {
    LevelIsComplete(l, s.start, s.end, j);
    LevelIsComplete(l, s.start, s.end, i);
  }

  /** At that moment it is empty exactly when the original tree below it had nothing but directories. */
  lemma EmptyIffCollapses(l: seq<Rec>, base: nat, threads: int, fs: Fs, s: Pass, i: nat)
    requires Setting(l, base, fs) && Inv(l, threads, fs, s) && s.start <= i < s.end && l[i].path != []
    ensures !HasEntry(s.fs, l[i].path) <==> Collapses(fs, l[i].path)
  {
    var p := l[i].path;
    CollapseByChildren(fs, p);
    forall c | c in fs.dirs && c != [] && Parent(c) == p
      ensures c !in s.fs.dirs <==> Collapses(fs, c)
    {
      var j :| 0 <= j < |l| && l[j].path == c;
      assert l[j].depth == l[i].depth + 1;
      DeeperHandled(l, base, threads, s, i, j);
      assert GoneBy(l, threads, fs, s, c) <==> Collapses(fs, c);
    }
    hide Collapses, GoneBy, Handled, LevelOk, AllRecorded, Sorted, RecordsOk;
    if Collapses(fs, p) {
      forall x | (x in s.fs.dirs || x in s.fs.others) && x != []
        ensures Parent(x) != p
      {
      }
    } else if c :| c in fs.dirs && c != [] && Parent(c) == p && !Collapses(fs, c) {
      assert c in s.fs.dirs && HasEntry(s.fs, p);
    } else {
      var x :| x in fs.others && x != [] && Parent(x) == p;
      assert x in s.fs.others && HasEntry(s.fs, p);
    }
  }

  /** One more directory has been tried. */
  lemma HandledNext(l: seq<Rec>, threads: int, s: Pass, t: nat, s': Pass, i: nat)
    requires LevelOk(l, threads, s) && s.start < s.end && t < |s.cursors|
    requires s' == s.(fs := s'.fs, cursors := s.cursors[t := s.cursors[t] + 1])
    ensures Handled(l, threads, s', i) <==> Handled(l, threads, s, i) || i == s.cursors[t]
  {
    hide SliceStart, IsLevel, ThreadCount;
    var j := s.cursors[t];
    if Handled(l, threads, s, i) && i >= s.start {
      var u: nat :| u < |s.cursors| && SliceStart(l, threads, s.start, s.end, u) <= i < s.cursors[u];
      assert i < s'.cursors[u];
    }
    if i == j {
      assert SliceStart(l, threads, s.start, s.end, t) <= i < s'.cursors[t];
    }
    if Handled(l, threads, s', i) && i >= s.start {
      var u: nat :| u < |s'.cursors| && SliceStart(l, threads, s.start, s.end, u) <= i < s'.cursors[u];
      assert u != t ==> i < s.cursors[u];
      assert u == t && i != j ==> i < s.cursors[t];
    }
  }

  /** What the removal does, in terms of the original tree. */
  lemma RemovedDir(l: seq<Rec>, base: nat, threads: int, fs: Fs, s: Pass, i: nat)
    requires Setting(l, base, fs) && Inv(l, threads, fs, s) && s.start <= i < s.end
    ensures var p := l[i].path;
            RmdirOne(s.fs, p).others == s.fs.others &&
            RmdirOne(s.fs, p).dirs == if Collapses(fs, p) then s.fs.dirs - {p} else s.fs.dirs
  {
    if l[i].path != [] {
      EmptyIffCollapses(l, base, threads, fs, s, i);
    }
    hide Setting, Inv, HasEntry;
  }

  lemma RemoveTree(l: seq<Rec>, base: nat, threads: int, fs: Fs, s: Pass, t: nat)
    requires Setting(l, base, fs) && Inv(l, threads, fs, s) && Enabled(l, threads, s, Remove(t))
    ensures TreeOk(l, threads, fs, Apply(l, threads, s, Remove(t)))
  {
    hide LevelOk, Setting, RmdirOne, SliceStart, Collapses, GoneBy, IsLevel, Joined;
    var s' := Apply(l, threads, s, Remove(t));
    var i := s.cursors[t];
    var p := l[i].path;
    StartOfSlice(l, threads, s, t);
    RemovedDir(l, base, threads, fs, s, i);
    LevelInList(l, threads, s);
    assert s'.fs.dirs == if Collapses(fs, p) then s.fs.dirs - {p} else s.fs.dirs;
    hide Enabled, Apply;
    forall x
      ensures x in s'.fs.dirs <==> x in fs.dirs && !GoneBy(l, threads, fs, s', x)
    {
      GoneNext(l, threads, fs, s, t, s', x);
    }
  }

  lemma LevelInList(l: seq<Rec>, threads: int, s: Pass)
    requires LevelOk(l, threads, s)
    ensures s.start <= s.end <= |l|
  {
  }

  lemma StartOfSlice(l: seq<Rec>, threads: int, s: Pass, t: nat)
    requires LevelOk(l, threads, s) && Enabled(l, threads, s, Remove(t))
    ensures s.start <= s.cursors[t] < s.end
  {
    CutsTile(SiblingRuns(l), s.start, s.end, ThreadCount(threads, s.start, s.end), t);
  }

  lemma GoneNext(l: seq<Rec>, threads: int, fs: Fs, s: Pass, t: nat, s': Pass, x: Path)
    requires LevelOk(l, threads, s) && s.start < s.end && t < |s.cursors| && s.cursors[t] < |l|
    requires s' == s.(fs := s'.fs, cursors := s.cursors[t := s.cursors[t] + 1])
    ensures GoneBy(l, threads, fs, s', x) <==>
            GoneBy(l, threads, fs, s, x) || (x == l[s.cursors[t]].path && Collapses(fs, x))
  {
    hide Handled, Collapses, LevelOk;
    var j := s.cursors[t];
    if GoneBy(l, threads, fs, s', x) {
      var i: nat :| i < |l| && l[i].path == x && Handled(l, threads, s', i) && Collapses(fs, x);
      HandledNext(l, threads, s, t, s', i);
    }
    if GoneBy(l, threads, fs, s, x) {
      var i: nat :| i < |l| && l[i].path == x && Handled(l, threads, s, i) && Collapses(fs, x);
      HandledNext(l, threads, s, t, s', i);
    }
    HandledNext(l, threads, s, t, s', j);
  }

  lemma RemoveLevel(l: seq<Rec>, threads: int, s: Pass, t: nat)
    requires LevelOk(l, threads, s) && Enabled(l, threads, s, Remove(t))
    ensures LevelOk(l, threads, Apply(l, threads, s, Remove(t)))
  {
    hide SliceStart, IsLevel, ThreadCount;
  }

  /** When all threads of a level are joined, the whole level has been tried. */
  lemma JoinedAllHandled(l: seq<Rec>, threads: int, s: Pass, i: nat)
    requires LevelOk(l, threads, s) && Joined(l, threads, s)
    ensures Handled(l, threads, s, i) <==> i < s.end
  {
    if s.start < s.end {
      var n := ThreadCount(threads, s.start, s.end);
      if s.start <= i < s.end {
        var t := OneSliceEach(SiblingRuns(l), s.start, s.end, n, i);
        assert SliceStart(l, threads, s.start, s.end, t) <= i < s.cursors[t];
      }
      if Handled(l, threads, s, i) && i >= s.start {
        var t: nat :| t < |s.cursors| && SliceStart(l, threads, s.start, s.end, t) <= i < s.cursors[t];
        assert s.cursors[t] <= s.end;
      }
    }
  }

  lemma NothingHandledYet(l: seq<Rec>, threads: int, s: Pass, i: nat)
    requires s.start < s.end <= |l|
    requires forall t :: 0 <= t < |s.cursors| ==> s.cursors[t] == SliceStart(l, threads, s.start, s.end, t)
    ensures Handled(l, threads, s, i) <==> i < s.start
  {
    hide SliceStart;
  }

  lemma SliceBounds(l: seq<Rec>, threads: int, start: nat, end: nat, t: nat)
    requires start < end <= |l| && t < ThreadCount(threads, start, end)
    ensures start <= SliceStart(l, threads, start, end, t) <= SliceStart(l, threads, start, end, t + 1) <= end
  {
    CutsTile(SiblingRuns(l), start, end, ThreadCount(threads, start, end), t);
  }

  lemma NextLevelOk(l: seq<Rec>, threads: int, s: Pass, end: nat)
    requires LevelOk(l, threads, s) && Enabled(l, threads, s, NextLevel(end))
    ensures LevelOk(l, threads, Apply(l, threads, s, NextLevel(end)))
  {
    hide SliceStart;
    var s' := Apply(l, threads, s, NextLevel(end));
    forall t {:trigger s'.cursors[t]} | 0 <= t < |s'.cursors|
      ensures SliceStart(l, threads, s'.start, end, t) <= SliceStart(l, threads, s'.start, end, t + 1) <= end
    {
      SliceBounds(l, threads, s'.start, end, t);
    }
    assert s.start < s.end ==> l[s.end - 1].depth == l[s.start].depth;
  }

  lemma NextLevelTree(l: seq<Rec>, threads: int, fs: Fs, s: Pass, end: nat)
    requires Inv(l, threads, fs, s) && Enabled(l, threads, s, NextLevel(end))
    ensures TreeOk(l, threads, fs, Apply(l, threads, s, NextLevel(end)))
  {
    var s' := Apply(l, threads, s, NextLevel(end));
    forall i: nat
      ensures Handled(l, threads, s', i) <==> Handled(l, threads, s, i)
    {
      JoinedAllHandled(l, threads, s, i);
      NothingHandledYet(l, threads, s', i);
    }
    hide Handled, Collapses, Enabled, LevelOk, SliceStart;
    assert forall x :: GoneBy(l, threads, fs, s', x) <==> GoneBy(l, threads, fs, s, x);
  }

  lemma StepInv(l: seq<Rec>, base: nat, threads: int, fs: Fs, s: Pass, step: Step)
    requires Setting(l, base, fs) && Inv(l, threads, fs, s) && Enabled(l, threads, s, step)
    ensures Inv(l, threads, fs, Apply(l, threads, s, step))
  {
    hide LevelOk, TreeOk, Enabled, Apply, Setting;
    match step
    case Remove(t) =>
      RemoveLevel(l, threads, s, t);
      RemoveTree(l, base, threads, fs, s, t);
    case NextLevel(end) =>
      NextLevelOk(l, threads, s, end);
      NextLevelTree(l, threads, fs, s, end);
  }

  lemma InitInv(l: seq<Rec>, threads: int, fs: Fs)
    ensures Inv(l, threads, fs, Init(fs))
  {
    var s := Init(fs);
    assert forall i: nat :: !Handled(l, threads, s, i);
    hide Handled, Collapses;
    assert forall x :: !GoneBy(l, threads, fs, s, x);
  }

  lemma {:induction false} RunInv(l: seq<Rec>, base: nat, threads: int, fs: Fs, ss: seq<Pass>, steps: seq<Step>, n: nat)
    requires Setting(l, base, fs) && IsRun(l, threads, fs, ss, steps) && n < |ss|
    ensures Inv(l, threads, fs, ss[n])
    decreases n
  {
    hide Inv, Setting, Enabled, Apply;
    if n == 0 {
      InitInv(l, threads, fs);
    } else {
      RunInv(l, base, threads, fs, ss, steps, n - 1);
      var step := steps[n - 1];
      StepInv(l, base, threads, fs, ss[n - 1], step);
    }
  }

  /**
   The pass is over when its last level is joined. Then a visited directory is gone if and
   only if it was not "/" and had nothing but directories below it; other directories and
   all that is not a directory are untouched.
   */
  lemma RemovedIffCollapses(l: seq<Rec>, base: nat, threads: int, fs: Fs, ss: seq<Pass>, steps: seq<Step>, n: nat)
    requires Setting(l, base, fs) && IsRun(l, threads, fs, ss, steps) && n < |ss|
    requires ss[n].end == |l| && Joined(l, threads, ss[n])
    ensures ss[n].fs.others == fs.others
    ensures forall i :: 0 <= i < |l| ==> (l[i].path in ss[n].fs.dirs <==> !Collapses(fs, l[i].path))
    ensures forall x :: x in fs.dirs && (forall i :: 0 <= i < |l| ==> l[i].path != x) ==> x in ss[n].fs.dirs
  {
    var s := ss[n];
    RunInv(l, base, threads, fs, ss, steps, n);
    forall i: nat | i < |l|
      ensures Handled(l, threads, s, i)
    {
      JoinedAllHandled(l, threads, s, i);
    }
    hide Collapses, Handled, LevelOk;
    forall i: nat | i < |l|
      ensures GoneBy(l, threads, fs, s, l[i].path) <==> Collapses(fs, l[i].path)
    {
    }
  }

  /** Whenever a thread tries a directory, all deeper directories of the walk have been tried. */
  lemma DeepestFirst(l: seq<Rec>, base: nat, threads: int, fs: Fs, ss: seq<Pass>, steps: seq<Step>, n: nat, t: nat, j: nat)
    requires Setting(l, base, fs) && IsRun(l, threads, fs, ss, steps) && n < |steps| && steps[n] == Remove(t)
    requires j < |l| && l[j].depth > l[ss[n].cursors[t]].depth
    ensures Handled(l, threads, ss[n], j)
  {
    RunInv(l, base, threads, fs, ss, steps, n);
    assert Enabled(l, threads, ss[n], steps[n]);
    StartOfSlice(l, threads, ss[n], t);
    DeeperHandled(l, base, threads, ss[n], ss[n].cursors[t], j);
  }
}
