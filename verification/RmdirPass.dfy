/**
 The parallel pass that removes empty directories: level by level, deepest first, each
 level cut into one slice per thread without separating the children of a directory.
 Removals of one level may interleave in any way.
 */
module RmdirPass {
  import opened Bits
  import opened DirPaths

  datatype Rec = Rec(path: Path, depth: int)

  function Cmp(a: Rec, b: Rec): int {
    if a.depth != b.depth then b.depth - a.depth else StrCmp(Text(a.path), Text(b.path))
  }

  /** What qsort leaves behind. */
  ghost predicate Sorted(l: seq<Rec>) {
    forall i, j :: 0 <= i < j < |l| ==> Cmp(l[i], l[j]) <= 0
  }

  /** The walk records directories with their depth below its start, each once. */
  ghost predicate RecordsOk(l: seq<Rec>, base: nat) {
    && (forall i :: 0 <= i < |l| ==> PathOk(l[i].path) && l[i].depth == |l[i].path| - base)
    && (forall i, j :: 0 <= i < j < |l| ==> l[i].path != l[j].path)
  }

  // ---------------------------------------------------------------------------
  // Levels and slices

  predicate SameRun(l: seq<Rec>, a: int, b: int)
    requires 0 <= a < |l| && 0 <= b < |l|
  {
    SameParentText(Text(l[a].path), Text(l[b].path))
  }

  /** Siblings are neighbours: everything between two of them has the same parent. */
  lemma SiblingsContiguous(l: seq<Rec>, base: nat, i: nat, j: nat, k: nat)
    requires Sorted(l) && RecordsOk(l, base) && i <= j <= k < |l|
    requires l[i].depth == l[k].depth && l[i].path != [] && SameRun(l, i, k)
    ensures l[j].depth == l[i].depth && l[j].path != [] && Parent(l[j].path) == Parent(l[i].path)
    ensures SameRun(l, i, j) && SameRun(l, j, k)
  {
    assert i < j ==> Cmp(l[i], l[j]) <= 0;
    assert j < k ==> Cmp(l[j], l[k]) <= 0;
    SameParentIsExact(l[i].path, l[k].path);
    if i < j < k {
      SiblingsAdjacent(l[i].path, l[j].path, l[k].path);
    }
    SameParentIsExact(l[i].path, l[j].path);
    SameParentIsExact(l[j].path, l[k].path);
  }

  /** The end of the level that begins at start. */
  ghost predicate IsLevel(l: seq<Rec>, start: nat, end: nat) {
    && start < end <= |l|
    && (forall i :: start <= i < end ==> l[i].depth == l[start].depth)
    && (end < |l| ==> l[end].depth != l[start].depth)
  }

  method LevelEnd(l: seq<Rec>, start: nat) returns (end: nat)
    requires start < |l|
    ensures IsLevel(l, start, end)
  {
    end := start + 1;
    while end < |l| && l[end].depth == l[start].depth
      invariant start < end <= |l| && forall i :: start <= i < end ==> l[i].depth == l[start].depth
    {
      end := end + 1;
    }
  }

  /** In a sorted list a level holds all directories of its depth, and everything deeper lies before it. */
  lemma LevelIsComplete(l: seq<Rec>, start: nat, end: nat, i: nat)
    requires Sorted(l) && IsLevel(l, start, end) && i < |l|
    requires start == 0 || l[start - 1].depth != l[start].depth
    ensures i < start <==> l[i].depth > l[start].depth
    ensures start <= i < end <==> l[i].depth == l[start].depth
  {
    if i < start {
      assert Cmp(l[start - 1], l[start]) <= 0;
      assert i < start - 1 ==> Cmp(l[i], l[start - 1]) <= 0;
    }
    if i >= end {
      assert Cmp(l[start], l[end]) <= 0;
      assert i > end ==> Cmp(l[end], l[i]) <= 0;
    }
  }

  /** Whether two neighbours of the list belong to one run; the pass is told by its caller. */
  type SameRunFn = (nat, nat) -> bool

  /** A place where the slice of a thread may begin. */
  predicate Boundary(same: SameRunFn, start: nat, end: nat, p: nat) {
    p <= start || p >= end || !same(p - 1, p)
  }

  /** The first boundary at or after pos. */
  function Snap(same: SameRunFn, start: nat, end: nat, pos: nat): (r: nat)
    ensures pos <= r && Boundary(same, start, end, r) && (pos <= end ==> r <= end)
    ensures forall q :: pos <= q < r ==> !Boundary(same, start, end, q)
    decreases end - pos
  {
    if Boundary(same, start, end, pos) then pos else Snap(same, start, end, pos + 1)
  }

  method SnapToRunStart(same: SameRunFn, start: nat, end: nat, pos0: nat) returns (pos: nat)
    ensures pos == Snap(same, start, end, pos0)
  {
    pos := pos0;
    while pos > start && pos < end && same(pos - 1, pos)
      invariant Snap(same, start, end, pos) == Snap(same, start, end, pos0)
      decreases end - pos
    {
      pos := pos + 1;
    }
  }

  lemma SnapMonotone(same: SameRunFn, start: nat, end: nat, p: nat, q: nat)
    requires p <= q
    ensures Snap(same, start, end, p) <= Snap(same, start, end, q)
  {
  }

  function Share(len: nat, t: nat, count: nat): nat
    requires count > 0
  {
    len * t / count
  }

  lemma ShareMonotone(len: nat, t: nat, u: nat, count: nat)
    requires count > 0 && t <= u
    ensures Share(len, t, count) <= Share(len, u, count)
  {
    assert len * t <= len * u;
    DivMonotone(len * t, len * u, count);
  }

  lemma Scale(x: int, y: int, c: nat)
    requires x <= y
    ensures c * x <= c * y
  {
  }

  lemma DivMonotone(a: nat, b: nat, c: nat)
    requires c > 0 && a <= b
    ensures a / c <= b / c
  {
    var x, y := a / c, b / c;
    if y + 1 <= x {
      Scale(y + 1, x, c);
    }
  }

  lemma ShareEnds(len: nat, count: nat)
    requires count > 0
    ensures Share(len, 0, count) == 0 && Share(len, count, count) == len
  {
    Remainder(len * count, count, len, 0);
    Remainder(0, count, 0, 0);
  }

  /** The nominal shares are even: thread t's begins at the t-th of count equal parts, rounded down. */
  lemma ShareIsEven(len: nat, t: nat, count: nat)
    requires count > 0
    ensures count * Share(len, t, count) <= len * t < count * (Share(len, t, count) + 1)
  {
    var q := len * t / count;
    assert len * t == count * q + len * t % count;
    assert count * (q + 1) == count * q + count;
  }

  /** Where the slice of thread t begins, and that of thread t - 1 ends. */
  function Cut(same: SameRunFn, start: nat, end: nat, count: nat, t: nat): nat
    requires start <= end && count > 0
  {
    Snap(same, start, end, start + Share(end - start, t, count))
  }

  /** The slices lie one after the other and together make up the level. */
  lemma CutsTile(same: SameRunFn, start: nat, end: nat, count: nat, t: nat)
    requires start <= end && 0 < count && t < count
    ensures Cut(same, start, end, count, 0) == start && Cut(same, start, end, count, count) == end
    ensures start <= Cut(same, start, end, count, t) <= Cut(same, start, end, count, t + 1) <= end
  {
    ShareEnds(end - start, count);
    ShareMonotone(end - start, 0, t, count);
    ShareMonotone(end - start, t, t + 1, count);
    ShareMonotone(end - start, t + 1, count, count);
    SnapMonotone(same, start, end, start + Share(end - start, t, count), start + Share(end - start, t + 1, count));
  }

  /** A slice begins at the first boundary at or after its even share of the level. */
  lemma CutIsNearest(same: SameRunFn, start: nat, end: nat, count: nat, t: nat, q: nat)
    requires start <= end && 0 < count && t <= count
    ensures var cut := Cut(same, start, end, count, t);
            && start <= cut <= end && count * (cut - start + 1) > (end - start) * t
            && (cut == start || cut == end || !same(cut - 1, cut))
    ensures q < Cut(same, start, end, count, t) && count * (q + 1 - start) > (end - start) * t ==>
              start < q < end && same(q - 1, q)
  {
    var share := Share(end - start, t, count);
    ShareIsEven(end - start, t, count);
    ShareMonotone(end - start, t, count, count);
    ShareEnds(end - start, count);
    hide Share;
    var cut := Cut(same, start, end, count, t);
    Scale(share + 1, cut - start + 1, count);
    if q < cut && count * (q + 1 - start) > (end - start) * t {
      if q < start + share {
        Scale(q + 1 - start, share, count);
      }
      assert start + share <= q;
      assert !Boundary(same, start, end, q);
    }
  }

  ghost predicate InSlice(same: SameRunFn, start: nat, end: nat, count: nat, t: nat, i: nat)
    requires start <= end && count > 0
  {
    Cut(same, start, end, count, t) <= i < Cut(same, start, end, count, t + 1)
  }

  lemma {:induction false} CutsMonotone(same: SameRunFn, start: nat, end: nat, count: nat, t: nat, u: nat)
    requires start <= end && 0 < count && t <= u <= count
    ensures Cut(same, start, end, count, t) <= Cut(same, start, end, count, u)
  {
    ShareMonotone(end - start, t, u, count);
    SnapMonotone(same, start, end, start + Share(end - start, t, count), start + Share(end - start, u, count));
  }

  lemma {:induction false} FindSlice(same: SameRunFn, start: nat, end: nat, count: nat, i: nat, u: nat) returns (t: nat)
    requires start <= i < end && 0 < u <= count && i < Cut(same, start, end, count, u)
    ensures t < count && InSlice(same, start, end, count, t, i)
    decreases u
  {
    if Cut(same, start, end, count, u - 1) <= i {
      t := u - 1;
    } else {
      CutsTile(same, start, end, count, 0);
      t := FindSlice(same, start, end, count, i, u - 1);
    }
  }

  /** Every directory of the level belongs to exactly one thread. */
  lemma OneSliceEach(same: SameRunFn, start: nat, end: nat, count: nat, i: nat) returns (t: nat)
    requires start <= i < end && 0 < count
    ensures t < count && InSlice(same, start, end, count, t, i)
    ensures forall u: nat :: u < count && InSlice(same, start, end, count, u, i) ==> u == t
  {
    hide Cut;
    CutsTile(same, start, end, count, 0);
    t := FindSlice(same, start, end, count, i, count);
    forall u: nat | u < count && InSlice(same, start, end, count, u, i)
      ensures u == t
    {
      if u < t {
        CutsMonotone(same, start, end, count, u + 1, t);
      } else if u > t {
        CutsMonotone(same, start, end, count, t + 1, u);
      }
    }
  }

  function SiblingRuns(l: seq<Rec>): SameRunFn {
    (a: nat, b: nat) => a < |l| && b < |l| && SameRun(l, a, b)
  }

  /** What no boundary separates is in one slice. */
  lemma UnbrokenOneSlice(same: SameRunFn, start: nat, end: nat, count: nat, i: nat, k: nat, t: nat)
    requires start <= i < k < end && 0 < count && t < count
    requires forall q :: i < q <= k ==> !Boundary(same, start, end, q)
    ensures InSlice(same, start, end, count, t, i) <==> InSlice(same, start, end, count, t, k)
  {
    assert Boundary(same, start, end, Cut(same, start, end, count, t));
    assert Boundary(same, start, end, Cut(same, start, end, count, t + 1));
    hide Cut, Boundary;
  }

  lemma NeighboursSame(l: seq<Rec>, base: nat, i: nat, q: nat, k: nat)
    requires Sorted(l) && RecordsOk(l, base) && i < q <= k < |l| && l[i].depth == l[k].depth
    requires l[i].path != [] && l[k].path != [] && Parent(l[i].path) == Parent(l[k].path)
    ensures SameRun(l, q - 1, q)
  {
    hide Cmp, Text, SameParentText;
    SameParentIsExact(l[i].path, l[k].path);
    SiblingsContiguous(l, base, i, q - 1, k);
    SiblingsContiguous(l, base, i, q, k);
    SameParentIsExact(l[q - 1].path, l[q].path);
  }

  /** The children of one directory are all in the slice of one thread. */
  lemma SiblingsOneThread(l: seq<Rec>, base: nat, start: nat, end: nat, count: nat, i: nat, k: nat, t: nat)
    requires Sorted(l) && RecordsOk(l, base) && IsLevel(l, start, end) && start <= i < k < end && 0 < count && t < count
    requires l[i].path != [] && l[k].path != [] && Parent(l[i].path) == Parent(l[k].path)
    ensures InSlice(SiblingRuns(l), start, end, count, t, i) <==> InSlice(SiblingRuns(l), start, end, count, t, k)
  {
    hide SameRun, InSlice;
    forall q | i < q <= k
      ensures !Boundary(SiblingRuns(l), start, end, q)
    {
      NeighboursSame(l, base, i, q, k);
    }
    UnbrokenOneSlice(SiblingRuns(l), start, end, count, i, k, t);
  }
}
