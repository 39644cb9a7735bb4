/**
 Creation of directories by the remote peer: many threads ask for directories, each
 directory is created by one of them, and a creator that lacks a parent first asks for the
 parent in the same way. Steps are the lock holds and system calls of the threads;
 directories and files may appear from elsewhere, but nothing is deleted.
 */
module DirCache {
  import opened Counting
  import opened DirPaths

  /** Looking and Parked hold no entry; in the other states the thread is the creator of the path. */
  datatype Pc = Looking | Parked | Making | AskingParent | MakingAgain | Ending(ok: bool)
  datatype Frame = Frame(path: Path, pc: Pc)

  /** A thread with its calls, the outermost first, and the last directory it knows to exist. */
  datatype Thread = Thread(stack: seq<Frame>, last: Option<Path>)

  datatype Entry = Creating(owner: nat) | Ready | Failed

  datatype State = State(
    dirs: set<Path>, files: set<Path>,
    cache: map<Path, Entry>, threads: seq<Thread>,
    granted: set<Path>, refused: set<Path>, // history: what calls returned 0 for, and what -1 for
    denied: set<Path>, trouble: bool)       // history: paths without memory for an entry, and failures from outside

  datatype Step =
    | Call(t: nat, path: Path)
    | Lookup(t: nat, alloc: bool)
    | Mkdir(t: nat, fails: bool)
    | Finish(t: nat)
    | OtherDir(path: Path)
    | OtherFile(path: Path)

  ghost predicate FsOk(dirs: set<Path>, files: set<Path>) {
    && [] in dirs && dirs !! files
    && forall p :: p in dirs && p != [] ==> Parent(p) in dirs
  }

  ghost predicate InitOk(s: State) {
    && FsOk(s.dirs, s.files) && s.cache == map[]
    && (forall t :: 0 <= t < |s.threads| ==> s.threads[t] == Thread([], None))
    && s.granted == {} && s.refused == {} && s.denied == {} && (s.trouble <==> s.files != {})
  }

  // ---------------------------------------------------------------------------
  // System calls

  datatype MkdirResult = Made | IsDir | IsFile | NoParent | OtherError

  ghost predicate FileAbove(files: set<Path>, p: Path) {
    exists k :: 0 <= k < |p| && p[..k] in files
  }

  ghost function MkdirOutcome(s: State, p: Path, fails: bool): MkdirResult {
    if fails then OtherError
    else if p in s.dirs then IsDir
    else if p in s.files then IsFile
    else if p != [] && Parent(p) in s.dirs then Made
    else if FileAbove(s.files, p) then OtherError
    else NoParent
  }

  // ---------------------------------------------------------------------------
  // Steps

  ghost predicate Busy(s: State, t: nat) {
    t < |s.threads| && s.threads[t].stack != []
  }

  function Top(th: Thread): Frame
    requires th.stack != []
  {
    th.stack[|th.stack| - 1]
  }

  function SetTop(th: Thread, pc: Pc): Thread
    requires th.stack != []
  {
    th.(stack := th.stack[|th.stack| - 1 := Top(th).(pc := pc)])
  }

  /** The innermost call returns; its caller goes on with a second mkdir or gives up. */
  function Returned(th: Thread, ok: bool): Thread
    requires th.stack != []
  {
    var below := th.stack[..|th.stack| - 1];
    if below == [] then th.(stack := [])
    else th.(stack := below[|below| - 1 := below[|below| - 1].(pc := if ok then MakingAgain else Ending(false))])
  }

  function SetThread(s: State, t: nat, th: Thread): State
    requires t < |s.threads|
  {
    s.(threads := s.threads[t := th])
  }

  function Note(s: State, p: Path, ok: bool): State {
    if ok then s.(granted := s.granted + {p}) else s.(refused := s.refused + {p})
  }

  /** The broadcast: all who wait for the entry look again. */
  function Woken(ths: seq<Thread>, p: Path): (r: seq<Thread>)
    ensures |r| == |ths|
  {
    seq(|ths|, i requires 0 <= i < |ths| =>
      if ths[i].stack != [] && Top(ths[i]) == Frame(p, Parked) then SetTop(ths[i], Looking) else ths[i])
  }

  function DoLookup(s: State, t: nat, alloc: bool): State
    requires t < |s.threads| && s.threads[t].stack != []
  {
    var th := s.threads[t];
    var p := Top(th).path;
    if th.last == Some(p) then
      Note(SetThread(s, t, Returned(th, true)), p, true)
    else if p in s.cache then
      match s.cache[p]
      case Creating(_) => SetThread(s, t, SetTop(th, Parked))
      case Ready => Note(SetThread(s, t, Returned(th, true).(last := Some(p))), p, true)
      case Failed => Note(SetThread(s, t, Returned(th, false)), p, false)
    else if !alloc then
      Note(SetThread(s, t, Returned(th, false)), p, false).(trouble := true, denied := s.denied + {p})
    else
      SetThread(s, t, SetTop(th, Making)).(cache := s.cache[p := Creating(t)])
  }

  ghost function DoMkdir(s: State, t: nat, fails: bool): State
    requires Busy(s, t)
  {
    var th := s.threads[t];
    var p := Top(th).path;
    match MkdirOutcome(s, p, fails)
    case Made => SetThread(s, t, SetTop(th, Ending(true))).(dirs := s.dirs + {p})
    case IsDir => SetThread(s, t, SetTop(th, Ending(true)))
    case NoParent =>
      if Top(th).pc == Making && p != [] then
        SetThread(s, t, SetTop(th, AskingParent).(stack := SetTop(th, AskingParent).stack + [Frame(Parent(p), Looking)]))
      else SetThread(s, t, SetTop(th, Ending(false)))
    case _ => SetThread(s, t, SetTop(th, Ending(false))).(trouble := s.trouble || fails)
  }

  function DoFinish(s: State, t: nat): State
    requires t < |s.threads| && s.threads[t].stack != [] && Top(s.threads[t]).pc.Ending?
  {
    var th := s.threads[t];
    var Frame(p, pc) := Top(th);
    var th' := Returned(th, pc.ok).(last := if pc.ok then Some(p) else th.last);
    Note(s.(cache := s.cache[p := if pc.ok then Ready else Failed], threads := Woken(s.threads, p)[t := th']), p, pc.ok)
  }

  ghost predicate Enabled(s: State, step: Step) {
    match step
    case Call(t, path) => t < |s.threads| && s.threads[t].stack == []
    case Lookup(t, alloc) => Busy(s, t) && Top(s.threads[t]).pc == Looking
    case Mkdir(t, fails) => Busy(s, t) && (Top(s.threads[t]).pc == Making || Top(s.threads[t]).pc == MakingAgain)
    case Finish(t) => Busy(s, t) && Top(s.threads[t]).pc.Ending?
    case OtherDir(path) => path != [] && Parent(path) in s.dirs && path !in s.files
    case OtherFile(path) => path != [] && Parent(path) in s.dirs && path !in s.dirs
  }

  ghost function Apply(s: State, step: Step): State
    requires Enabled(s, step)
  {
    match step
    case Call(t, path) => SetThread(s, t, s.threads[t].(stack := [Frame(path, Looking)]))
    case Lookup(t, alloc) => DoLookup(s, t, alloc)
    case Mkdir(t, fails) => DoMkdir(s, t, fails)
    case Finish(t) => DoFinish(s, t)
    case OtherDir(path) => s.(dirs := s.dirs + {path})
    case OtherFile(path) => s.(files := s.files + {path}, trouble := true)
  }

  ghost predicate IsRun(ss: seq<State>, steps: seq<Step>) {
    && |ss| == |steps| + 1 && InitOk(ss[0])
    && forall i {:trigger steps[i]} :: 0 <= i < |steps| ==> Enabled(ss[i], steps[i]) && ss[i + 1] == Apply(ss[i], steps[i])
  }

  // ---------------------------------------------------------------------------
  // The invariant

  predicate Creates(pc: Pc) { !pc.Looking? && !pc.Parked? }

  /** Calls are nested from a directory to its parent, and only the innermost one is at work. */
  ghost predicate StackOk(stack: seq<Frame>) {
    forall i {:trigger stack[i]} :: 0 <= i < |stack| ==>
      && |stack[i].path| == |stack[0].path| - i
      && stack[i].path == stack[0].path[..|stack[0].path| - i]
      && (stack[i].pc == AskingParent <==> i < |stack| - 1)
  }

  ghost predicate FrameOk(dirs: set<Path>, cache: map<Path, Entry>, t: nat, f: Frame) {
    && (Creates(f.pc) ==> f.path in cache && cache[f.path] == Creating(t))
    && (f.pc.Parked? ==> f.path in cache && cache[f.path].Creating?)
    && (f.pc == MakingAgain ==> f.path != [] && Parent(f.path) in dirs)
    && (f.pc == Ending(true) ==> f.path in dirs)
  }

  ghost predicate ThreadOk(dirs: set<Path>, cache: map<Path, Entry>, t: nat, th: Thread) {
    && StackOk(th.stack)
    && (forall i {:trigger th.stack[i]} :: 0 <= i < |th.stack| ==> FrameOk(dirs, cache, t, th.stack[i]))
    && (th.last.Some? ==> th.last.value in dirs)
  }

  ghost predicate Working(th: Thread, p: Path) {
    exists i :: 0 <= i < |th.stack| && th.stack[i].path == p && Creates(th.stack[i].pc)
  }

  ghost predicate EntryOk(s: State, p: Path)
    requires p in s.cache
  {
    match s.cache[p]
    case Creating(t) => t < |s.threads| && Working(s.threads[t], p)
    case Ready => p in s.dirs
    case Failed => true
  }

  ghost predicate Unhurt(th: Thread) {
    forall i {:trigger th.stack[i]} :: 0 <= i < |th.stack| ==> th.stack[i].pc != Ending(false)
  }

  ghost predicate NoFailure(s: State) {
    && s.files == {} && s.refused == {}
    && (forall p :: p in s.cache ==> s.cache[p] != Failed)
    && (forall t {:trigger s.threads[t]} :: 0 <= t < |s.threads| ==> Unhurt(s.threads[t]))
  }

  ghost predicate Inv(s: State) {
    && FsOk(s.dirs, s.files)
    && (forall t {:trigger s.threads[t]} :: 0 <= t < |s.threads| ==> ThreadOk(s.dirs, s.cache, t, s.threads[t]))
    && (forall p {:trigger EntryOk(s, p)} :: p in s.cache ==> EntryOk(s, p))
    && (forall p :: p in s.granted ==> p in s.dirs)
    && (!s.trouble ==> NoFailure(s))
  }

  // ---------------------------------------------------------------------------
  // One thread

  lemma TopOnly(stack: seq<Frame>, i: nat)
    requires StackOk(stack) && i < |stack| - 1
    ensures stack[i].path != stack[|stack| - 1].path && stack[i].pc == AskingParent
    ensures i == |stack| - 2 ==> stack[i].path != [] && stack[|stack| - 1].path == Parent(stack[i].path)
  {
    var n := |stack| - 1;
    assert stack[i].path == stack[0].path[..|stack[0].path| - i];
    assert stack[n].path == stack[0].path[..|stack[0].path| - n];
  }

  lemma SetTopOk(dirs: set<Path>, cache: map<Path, Entry>, t: nat, th: Thread, pc: Pc)
    requires ThreadOk(dirs, cache, t, th) && th.stack != [] && pc != AskingParent
    requires FrameOk(dirs, cache, t, Frame(Top(th).path, pc))
    ensures ThreadOk(dirs, cache, t, SetTop(th, pc))
    ensures forall q :: Working(th, q) && (q == Top(th).path ==> Creates(pc)) ==> Working(SetTop(th, pc), q)
  {
    var th' := SetTop(th, pc);
    forall q | Working(th, q) && (q == Top(th).path ==> Creates(pc))
      ensures Working(th', q)
    {
      var i :| 0 <= i < |th.stack| && th.stack[i].path == q && Creates(th.stack[i].pc);
      assert th'.stack[i].path == q && Creates(th'.stack[i].pc);
    }
  }

  lemma AskParentOk(dirs: set<Path>, cache: map<Path, Entry>, t: nat, th: Thread)
    requires ThreadOk(dirs, cache, t, th) && th.stack != [] && Top(th).pc == Making && Top(th).path != []
    ensures var th' := SetTop(th, AskingParent).(stack := SetTop(th, AskingParent).stack + [Frame(Parent(Top(th).path), Looking)]);
            ThreadOk(dirs, cache, t, th') && forall q :: Working(th, q) ==> Working(th', q)
  {
    var th' := SetTop(th, AskingParent).(stack := SetTop(th, AskingParent).stack + [Frame(Parent(Top(th).path), Looking)]);
    var n := |th.stack|;
    assert th.stack[n - 1] == Top(th);
    assert th'.stack[n].path == th.stack[0].path[..|th.stack[0].path| - n];
    forall q | Working(th, q)
      ensures Working(th', q)
    {
      var i :| 0 <= i < |th.stack| && th.stack[i].path == q && Creates(th.stack[i].pc);
      assert th'.stack[i].path == q && Creates(th'.stack[i].pc);
    }
  }

  lemma ReturnedOk(dirs: set<Path>, cache: map<Path, Entry>, t: nat, th: Thread, ok: bool)
    requires ThreadOk(dirs, cache, t, th) && th.stack != [] && (ok ==> Top(th).path in dirs)
    ensures ThreadOk(dirs, cache, t, Returned(th, ok))
  {
    var n := |th.stack| - 1;
    if n > 0 {
      TopOnly(th.stack, n - 1);
      var f := th.stack[n - 1];
      assert FrameOk(dirs, cache, t, f);
    }
  }

  lemma ReturnedWorking(th: Thread, ok: bool, q: Path)
    requires StackOk(th.stack) && th.stack != [] && Working(th, q) && (q == Top(th).path ==> !Creates(Top(th).pc))
    ensures Working(Returned(th, ok), q)
  {
    var n := |th.stack| - 1;
    var i :| 0 <= i < |th.stack| && th.stack[i].path == q && Creates(th.stack[i].pc);
    assert i < n;
    var th' := Returned(th, ok);
    assert th'.stack[i].path == q && Creates(th'.stack[i].pc);
  }

  // ---------------------------------------------------------------------------
  // All threads

  lemma ThreadGrows(dirs: set<Path>, dirs': set<Path>, cache: map<Path, Entry>, t: nat, th: Thread)
    requires ThreadOk(dirs, cache, t, th) && dirs <= dirs'
    ensures ThreadOk(dirs', cache, t, th)
  {
    forall i {:trigger th.stack[i]} | 0 <= i < |th.stack|
      ensures FrameOk(dirs', cache, t, th.stack[i])
    {
      assert FrameOk(dirs, cache, t, th.stack[i]);
    }
  }

  /** A new entry does not concern the calls under way. */
  lemma ThreadNewEntry(dirs: set<Path>, cache: map<Path, Entry>, t: nat, th: Thread, p: Path, e: Entry)
    requires ThreadOk(dirs, cache, t, th) && p !in cache
    ensures ThreadOk(dirs, cache[p := e], t, th)
  {
    forall i {:trigger th.stack[i]} | 0 <= i < |th.stack|
      ensures FrameOk(dirs, cache[p := e], t, th.stack[i])
    {
      assert FrameOk(dirs, cache, t, th.stack[i]);
    }
  }

  /** The end of a creation concerns other threads only as far as they wait for it. */
  lemma ThreadWoken(dirs: set<Path>, cache: map<Path, Entry>, t: nat, ths: seq<Thread>, u: nat, p: Path, e: Entry)
    requires u < |ths| && ThreadOk(dirs, cache, u, ths[u]) && u != t && p in cache && cache[p] == Creating(t)
    ensures ThreadOk(dirs, cache[p := e], u, Woken(ths, p)[u])
    ensures forall q :: Working(ths[u], q) ==> Working(Woken(ths, p)[u], q)
  {
    var th, th', cache' := ths[u], Woken(ths, p)[u], cache[p := e];
    forall i {:trigger th'.stack[i]} | 0 <= i < |th'.stack|
      ensures FrameOk(dirs, cache', u, th'.stack[i])
    {
      assert FrameOk(dirs, cache, u, th.stack[i]);
      assert i < |th.stack| - 1 ==> th'.stack[i] == th.stack[i] && th.stack[i].pc == AskingParent;
    }
    assert StackOk(th'.stack);
    forall q | Working(th, q)
      ensures Working(th', q)
    {
      var i :| 0 <= i < |th.stack| && th.stack[i].path == q && Creates(th.stack[i].pc);
      assert th'.stack[i].path == q && Creates(th'.stack[i].pc);
    }
  }

  // ---------------------------------------------------------------------------
  // Steps keep the invariant

  /** A step of one thread, at most adding directories. */
  lemma OneThread(s: State, s': State, t: nat, th': Thread)
    requires Inv(s) && t < |s.threads| && s'.threads == s.threads[t := th'] && s'.cache == s.cache && s.dirs <= s'.dirs
    requires FsOk(s'.dirs, s'.files) && ThreadOk(s'.dirs, s'.cache, t, th')
    requires forall q :: q in s.cache && s.cache[q] == Creating(t) && Working(s.threads[t], q) ==> Working(th', q)
    requires forall q :: q in s'.granted ==> q in s'.dirs
    requires !s'.trouble ==> !s.trouble && s'.files == s.files && s'.refused == s.refused && Unhurt(th')
    ensures Inv(s')
  {
    forall u {:trigger s'.threads[u]} | 0 <= u < |s'.threads|
      ensures ThreadOk(s'.dirs, s'.cache, u, s'.threads[u])
    {
      if u != t {
        ThreadGrows(s.dirs, s'.dirs, s.cache, u, s.threads[u]);
      }
    }
    forall q | q in s'.cache
      ensures EntryOk(s', q)
    {
      assert EntryOk(s, q);
    }
  }

  lemma CallInv(s: State, t: nat, path: Path)
    requires Inv(s) && Enabled(s, Call(t, path))
    ensures Inv(Apply(s, Call(t, path)))
  {
    var s' := Apply(s, Call(t, path));
    assert ThreadOk(s.dirs, s.cache, t, s.threads[t]);
    OneThread(s, s', t, s'.threads[t]);
  }

  /** A call returns that has not become a creator. */
  lemma ReturnInv(s: State, s': State, t: nat, ok: bool)
    requires Inv(s) && Busy(s, t) && Top(s.threads[t]).pc == Looking && (ok ==> Top(s.threads[t]).path in s.dirs)
    requires |s'.threads| == |s.threads|
    requires s' == Note(SetThread(s, t, s'.threads[t]), Top(s.threads[t]).path, ok).(trouble := s'.trouble, denied := s'.denied)
    requires s'.threads[t].stack == Returned(s.threads[t], ok).stack
    requires s'.threads[t].last == s.threads[t].last || (ok && s'.threads[t].last == Some(Top(s.threads[t]).path))
    requires !s'.trouble ==> ok && !s.trouble
    ensures Inv(s')
  {
    var th, th' := s.threads[t], s'.threads[t];
    assert ThreadOk(s.dirs, s.cache, t, th);
    ReturnedOk(s.dirs, s.cache, t, th, ok);
    forall q | Working(th, q)
      ensures Working(th', q)
    {
      ReturnedWorking(th, ok, q);
      assert th'.stack == Returned(th, ok).stack;
    }
    OneThread(s, s', t, th');
  }

  lemma CreateInv(s: State, t: nat)
    requires Inv(s) && Busy(s, t) && Top(s.threads[t]).pc == Looking && Top(s.threads[t]).path !in s.cache
    ensures var p := Top(s.threads[t]).path;
            Inv(SetThread(s, t, SetTop(s.threads[t], Making)).(cache := s.cache[p := Creating(t)]))
  {
    var th := s.threads[t];
    var p := Top(th).path;
    var th', cache' := SetTop(th, Making), s.cache[p := Creating(t)];
    var s' := SetThread(s, t, th').(cache := cache');
    ThreadNewEntry(s.dirs, s.cache, t, th, p, Creating(t));
    SetTopOk(s.dirs, cache', t, th, Making);
    assert th'.stack[|th'.stack| - 1].path == p;
    assert Working(th', p);
    forall u {:trigger s'.threads[u]} | 0 <= u < |s'.threads|
      ensures ThreadOk(s'.dirs, cache', u, s'.threads[u])
    {
      if u != t {
        ThreadNewEntry(s.dirs, s.cache, u, s.threads[u], p, Creating(t));
      }
    }
    forall q | q in cache'
      ensures EntryOk(s', q)
    {
      assert q in s.cache ==> EntryOk(s, q);
    }
  }

  lemma LookupInv(s: State, t: nat, alloc: bool)
    requires Inv(s) && Enabled(s, Lookup(t, alloc))
    ensures Inv(DoLookup(s, t, alloc))
  {
    var th := s.threads[t];
    var p := Top(th).path;
    var s' := DoLookup(s, t, alloc);
    assert ThreadOk(s.dirs, s.cache, t, th);
    if th.last == Some(p) {
      ReturnInv(s, s', t, true);
    } else if p in s.cache {
      assert EntryOk(s, p);
      match s.cache[p] {
        case Creating(_) =>
          SetTopOk(s.dirs, s.cache, t, th, Parked);
          OneThread(s, s', t, SetTop(th, Parked));
        case Ready => ReturnInv(s, s', t, true);
        case Failed => ReturnInv(s, s', t, false);
      }
    } else if !alloc {
      ReturnInv(s, s', t, false);
    } else {
      CreateInv(s, t);
    }
  }

  lemma MadeFs(dirs: set<Path>, files: set<Path>, p: Path)
    requires FsOk(dirs, files) && p != [] && Parent(p) in dirs && p !in files
    ensures FsOk(dirs + {p}, files)
  {
  }

  lemma MkdirInv(s: State, t: nat, fails: bool)
    requires Inv(s) && Enabled(s, Mkdir(t, fails))
    ensures Inv(DoMkdir(s, t, fails))
  {
    var th := s.threads[t];
    var p, pc := Top(th).path, Top(th).pc;
    var s' := DoMkdir(s, t, fails);
    assert ThreadOk(s.dirs, s.cache, t, th);
    assert FrameOk(s.dirs, s.cache, t, th.stack[|th.stack| - 1]);
    match MkdirOutcome(s, p, fails) {
      case Made =>
        MadeFs(s.dirs, s.files, p);
        ThreadGrows(s.dirs, s'.dirs, s.cache, t, th);
        SetTopOk(s'.dirs, s.cache, t, th, Ending(true));
        OneThread(s, s', t, SetTop(th, Ending(true)));
      case IsDir =>
        SetTopOk(s.dirs, s.cache, t, th, Ending(true));
        OneThread(s, s', t, SetTop(th, Ending(true)));
      case NoParent =>
        // The second mkdir, and the root directory, cannot lack a parent.
        assert pc == Making && p != [];
        AskParentOk(s.dirs, s.cache, t, th);
        OneThread(s, s', t, s'.threads[t]);
      case _ =>
        SetTopOk(s.dirs, s.cache, t, th, Ending(false));
        OneThread(s, s', t, SetTop(th, Ending(false)));
    }
  }

  lemma FinishThread(s: State, t: nat)
    requires Inv(s) && Enabled(s, Finish(t))
    ensures var s' := DoFinish(s, t);
            && ThreadOk(s'.dirs, s'.cache, t, s'.threads[t])
            && (forall q :: Working(s.threads[t], q) && q != Top(s.threads[t]).path ==> Working(s'.threads[t], q))
            && (Unhurt(s.threads[t]) ==> Top(s.threads[t]).pc.ok && Unhurt(s'.threads[t]))
  {
    var th := s.threads[t];
    var Frame(p, pc) := Top(th);
    var n := |th.stack| - 1;
    assert ThreadOk(s.dirs, s.cache, t, th);
    assert th.stack[n] == Top(th) && FrameOk(s.dirs, s.cache, t, th.stack[n]);
    ReturnedOk(s.dirs, s.cache, t, th, pc.ok);
    var th1 := Returned(th, pc.ok);
    var cache' := s.cache[p := if pc.ok then Ready else Failed];
    forall i {:trigger th1.stack[i]} | 0 <= i < |th1.stack|
      ensures FrameOk(s.dirs, cache', t, th1.stack[i])
    {
      assert FrameOk(s.dirs, s.cache, t, th1.stack[i]);
      TopOnly(th.stack, i);
    }
    var th' := DoFinish(s, t).threads[t];
    assert th'.stack == th1.stack;
    forall q | Working(th, q) && q != p
      ensures Working(th', q)
    {
      ReturnedWorking(th, pc.ok, q);
    }
  }

  lemma FinishInv(s: State, t: nat)
    requires Inv(s) && Enabled(s, Finish(t))
    ensures Inv(DoFinish(s, t))
  {
    var th := s.threads[t];
    var Frame(p, pc) := Top(th);
    var s' := DoFinish(s, t);
    assert ThreadOk(s.dirs, s.cache, t, th);
    assert th.stack[|th.stack| - 1] == Top(th) && FrameOk(s.dirs, s.cache, t, th.stack[|th.stack| - 1]);
    FinishThread(s, t);
    forall u {:trigger s'.threads[u]} | 0 <= u < |s'.threads|
      ensures ThreadOk(s'.dirs, s'.cache, u, s'.threads[u])
      ensures u != t ==> forall q :: Working(s.threads[u], q) ==> Working(s'.threads[u], q)
      ensures u != t && Unhurt(s.threads[u]) ==> Unhurt(s'.threads[u])
    {
      if u != t {
        ThreadWoken(s.dirs, s.cache, t, s.threads, u, p, if pc.ok then Ready else Failed);
      }
    }
    forall q | q in s'.cache
      ensures EntryOk(s', q)
    {
      if q != p {
        assert EntryOk(s, q);
      }
    }
  }

  lemma OtherInv(s: State, step: Step)
    requires Inv(s) && Enabled(s, step) && (step.OtherDir? || step.OtherFile?)
    ensures Inv(Apply(s, step))
  {
    var s' := Apply(s, step);
    if step.OtherDir? {
      MadeFs(s.dirs, s.files, step.path);
    }
    forall u {:trigger s'.threads[u]} | 0 <= u < |s'.threads|
      ensures ThreadOk(s'.dirs, s'.cache, u, s'.threads[u])
    {
      ThreadGrows(s.dirs, s'.dirs, s.cache, u, s.threads[u]);
    }
    forall q | q in s'.cache
      ensures EntryOk(s', q)
    {
      assert EntryOk(s, q);
    }
  }

  lemma StepInv(s: State, step: Step)
    requires Inv(s) && Enabled(s, step)
    ensures Inv(Apply(s, step))
  {
    match step
    case Call(t, path) => CallInv(s, t, path);
    case Lookup(t, alloc) => LookupInv(s, t, alloc);
    case Mkdir(t, fails) => MkdirInv(s, t, fails);
    case Finish(t) => FinishInv(s, t);
    case OtherDir(_) => OtherInv(s, step);
    case OtherFile(_) => OtherInv(s, step);
  }

  lemma {:induction false} RunInv(ss: seq<State>, steps: seq<Step>, i: nat)
    requires IsRun(ss, steps) && i < |ss|
    ensures Inv(ss[i])
    decreases i
  {
    if i > 0 {
      RunInv(ss, steps, i - 1);
      var step := steps[i - 1];
      StepInv(ss[i - 1], step);
    }
  }

  // ---------------------------------------------------------------------------
  // Main results

  /** Thread t, in its i-th nested call, is the creator of path p. */
  ghost predicate IsCreator(s: State, t: nat, i: nat, p: Path) {
    && t < |s.threads| && i < |s.threads[t].stack|
    && s.threads[t].stack[i].path == p && Creates(s.threads[t].stack[i].pc)
  }

  /** A directory has one creator at a time, and it is the one that its entry waits for. */
  lemma SingleCreator(ss: seq<State>, steps: seq<Step>, n: nat, t: nat, i: nat, u: nat, j: nat, p: Path)
    requires IsRun(ss, steps) && n < |ss| && IsCreator(ss[n], t, i, p) && IsCreator(ss[n], u, j, p)
    ensures t == u && i == j && p in ss[n].cache && ss[n].cache[p] == Creating(t)
  {
    var s := ss[n];
    RunInv(ss, steps, n);
    assert ThreadOk(s.dirs, s.cache, t, s.threads[t]) && ThreadOk(s.dirs, s.cache, u, s.threads[u]);
    assert FrameOk(s.dirs, s.cache, t, s.threads[t].stack[i]) && FrameOk(s.dirs, s.cache, u, s.threads[u].stack[j]);
    assert |s.threads[t].stack[i].path| == |s.threads[u].stack[j].path|;
  }

  /** Entries that are ready or failed stay so, so no directory is created twice. */
  lemma {:induction false} EntriesAreFinal(ss: seq<State>, steps: seq<Step>, i: nat, n: nat, p: Path)
    requires IsRun(ss, steps) && i <= n < |ss| && p in ss[i].cache
    ensures p in ss[n].cache
    ensures !ss[i].cache[p].Creating? ==> ss[n].cache[p] == ss[i].cache[p]
    decreases n
  {
    if i < n {
      EntriesAreFinal(ss, steps, i, n - 1, p);
      RunInv(ss, steps, n - 1);
      var s, step := ss[n - 1], steps[n - 1];
      StepKeepsEntry(s, step, p);
    }
  }

  lemma StepKeepsEntry(s: State, step: Step, p: Path)
    requires Inv(s) && Enabled(s, step) && p in s.cache
    ensures p in Apply(s, step).cache
    ensures !s.cache[p].Creating? ==> Apply(s, step).cache[p] == s.cache[p]
  {
    if step.Finish? {
      var th := s.threads[step.t];
      assert ThreadOk(s.dirs, s.cache, step.t, th);
      assert FrameOk(s.dirs, s.cache, step.t, th.stack[|th.stack| - 1]);
    }
  }

  /** The recursion goes from a directory to its ancestors only, so it is at most as deep as the path is long. */
  lemma CallsGoUp(ss: seq<State>, steps: seq<Step>, n: nat, t: nat, i: nat)
    requires IsRun(ss, steps) && n < |ss| && t < |ss[n].threads| && i < |ss[n].threads[t].stack|
    ensures var stack := ss[n].threads[t].stack;
            && |stack| <= |stack[0].path| + 1 && stack[i].path == stack[0].path[..|stack[0].path| - i]
  {
    var s := ss[n];
    RunInv(ss, steps, n);
    assert ThreadOk(s.dirs, s.cache, t, s.threads[t]);
    var stack := s.threads[t].stack;
    assert |stack[|stack| - 1].path| == |stack[0].path| - (|stack| - 1);
  }

  ghost predicate WaitsFor(s: State, t: nat, u: nat) {
    && Busy(s, t) && Top(s.threads[t]).pc == Parked
    && Top(s.threads[t]).path in s.cache && s.cache[Top(s.threads[t]).path] == Creating(u)
  }

  /** Who is waited for is busy with that path or with one of its ancestors. */
  lemma CreatorIsAbove(s: State, t: nat, u: nat)
    requires Inv(s) && WaitsFor(s, t, u)
    ensures Busy(s, u)
    ensures |Top(s.threads[u]).path| < |Top(s.threads[t]).path| ||
            (Top(s.threads[u]).path == Top(s.threads[t]).path && Creates(Top(s.threads[u]).pc))
  {
    var p := Top(s.threads[t]).path;
    assert EntryOk(s, p);
    var stack := s.threads[u].stack;
    var i :| 0 <= i < |stack| && stack[i].path == p && Creates(stack[i].pc);
    assert ThreadOk(s.dirs, s.cache, u, s.threads[u]);
    assert |stack[|stack| - 1].path| == |stack[0].path| - (|stack| - 1);
  }

  /** Waiting goes strictly up the tree, so threads never wait for each other in a circle. */
  lemma WaitingGoesUp(ss: seq<State>, steps: seq<Step>, n: nat, t: nat, u: nat, v: nat)
    requires IsRun(ss, steps) && n < |ss| && WaitsFor(ss[n], t, u) && WaitsFor(ss[n], u, v)
    ensures |Top(ss[n].threads[u]).path| < |Top(ss[n].threads[t]).path|
  {
    RunInv(ss, steps, n);
    CreatorIsAbove(ss[n], t, u);
  }

  ghost predicate CanStep(s: State, t: nat) {
    Enabled(s, Lookup(t, true)) || Enabled(s, Mkdir(t, false)) || Enabled(s, Finish(t))
  }

  lemma {:induction false} SomebodyWorks(s: State, t: nat)
    requires Inv(s) && Busy(s, t)
    ensures exists u :: CanStep(s, u)
    decreases |Top(s.threads[t]).path|
  {
    var th := s.threads[t];
    assert ThreadOk(s.dirs, s.cache, t, th);
    assert th.stack[|th.stack| - 1] == Top(th) && FrameOk(s.dirs, s.cache, t, th.stack[|th.stack| - 1]);
    if Top(th).pc == Parked {
      var u := s.cache[Top(th).path].owner;
      assert WaitsFor(s, t, u);
      CreatorIsAbove(s, t, u);
      if |Top(s.threads[u]).path| < |Top(th).path| {
        SomebodyWorks(s, u);
      } else {
        assert ThreadOk(s.dirs, s.cache, u, s.threads[u]);
        assert s.threads[u].stack[|s.threads[u].stack| - 1] == Top(s.threads[u]);
        assert CanStep(s, u);
      }
    } else {
      assert CanStep(s, t);
    }
  }

  /** As long as a call is under way, some thread can go on: no deadlock and no lost wake. */
  lemma NeverDeadlocks(ss: seq<State>, steps: seq<Step>, n: nat, t: nat)
    requires IsRun(ss, steps) && n < |ss| && Busy(ss[n], t)
    ensures exists u :: CanStep(ss[n], u)
  {
    RunInv(ss, steps, n);
    SomebodyWorks(ss[n], t);
  }

  lemma {:induction false} AncestorsExist(dirs: set<Path>, files: set<Path>, p: Path, k: nat)
    requires FsOk(dirs, files) && p in dirs && k <= |p|
    ensures p[..k] in dirs
    decreases |p| - k
  {
    if k == |p| {
      assert p[..k] == p;
    } else {
      AncestorsExist(dirs, files, p, k + 1);
      assert Parent(p[..k + 1]) == p[..k];
    }
  }

  /** A call that has returned 0 leaves the directory and all its ancestors, for good. */
  lemma GrantedExists(ss: seq<State>, steps: seq<Step>, n: nat, p: Path, k: nat)
    requires IsRun(ss, steps) && n < |ss| && p in ss[n].granted && k <= |p|
    ensures p[..k] in ss[n].dirs
  {
    RunInv(ss, steps, n);
    AncestorsExist(ss[n].dirs, ss[n].files, p, k);
  }

  /** Without files in the way and without failures from outside, no call is ever refused. */
  lemma OnlyTroubleRefuses(ss: seq<State>, steps: seq<Step>, n: nat)
    requires IsRun(ss, steps) && n < |ss| && ss[n].refused != {}
    ensures ss[0].files != {} || exists i :: 0 <= i < n && Fails(steps[i])
  {
    RunInv(ss, steps, n);
    if ss[0].files == {} && forall i :: 0 <= i < n ==> !Fails(steps[i]) {
      NoTrouble(ss, steps, n);
    }
  }

  ghost predicate Fails(step: Step) {
    step.OtherFile? || (step.Mkdir? && step.fails) || (step.Lookup? && !step.alloc)
  }

  lemma {:induction false} NoTrouble(ss: seq<State>, steps: seq<Step>, n: nat)
    requires IsRun(ss, steps) && n < |ss| && ss[0].files == {} && forall i :: 0 <= i < n ==> !Fails(steps[i])
    ensures !ss[n].trouble
    decreases n
  {
    if n > 0 {
      NoTrouble(ss, steps, n - 1);
      assert !Fails(steps[n - 1]);
    }
  }
}
