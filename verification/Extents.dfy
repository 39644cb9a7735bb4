/**
 Data extents of a sparse source file: the list that the extent walk builds by appending
 runs, and the cursor with which the readers of a large file hand out chunks of it.
 */
module Extents {
  import opened Counting

  /** A data run, end excluded. */
  datatype Extent = Extent(start: int, end: int)

  /** The multiple of 4096 (the alignment that direct I/O needs) that division and multiplication
      of C give: the quotient is truncated toward zero. */
  function Truncate(a: int): int {
    if a >= 0 then a / 4096 * 4096 else -((-a) / 4096 * 4096)
  }

  /** First byte of the rounded run: down to the alignment, never negative. */
  function RunStart(data: int): int {
    if Truncate(data) < 0 then 0 else Truncate(data)
  }

  /** End of the rounded run: up to the alignment, clipped to the limit. */
  function RunStop(hole: int, limit: int): int {
    if Truncate(hole + 4095) > limit then limit else Truncate(hole + 4095)
  }

  function Last(l: seq<Extent>): Extent
    requires l != []
  {
    l[|l| - 1]
  }

  /** The list after the rounded run [d, h) has been appended or merged into the last extent. */
  function Append(l: seq<Extent>, d: int, h: int): seq<Extent> {
    if h <= d then l
    else if l != [] && d <= Last(l).end then
      if h > Last(l).end then l[..|l| - 1] + [Extent(Last(l).start, h)] else l
    else l + [Extent(d, h)]
  }

  function AddRun(l: seq<Extent>, data: int, hole: int, limit: int): seq<Extent> {
    Append(l, RunStart(data), RunStop(hole, limit))
  }

  ghost predicate Separated(l: seq<Extent>) {
    forall i, j :: 0 <= i < j < |l| ==> l[i].end < l[j].start
  }

  ghost predicate InBounds(l: seq<Extent>, limit: int) {
    forall i :: 0 <= i < |l| ==> 0 <= l[i].start < l[i].end <= limit
  }

  ghost predicate AlignedList(l: seq<Extent>) {
    forall i :: 0 <= i < |l| ==> l[i].start % 4096 == 0 && l[i].end % 4096 == 0
  }

  /** Sorted, separated by real holes, aligned, and inside [0, limit). */
  ghost predicate WellFormed(l: seq<Extent>, limit: int) {
    Separated(l) && InBounds(l, limit) && AlignedList(l)
  }

  ghost predicate Covers(l: seq<Extent>, p: int) {
    exists i :: 0 <= i < |l| && l[i].start <= p < l[i].end
  }

  function TotalBytes(l: seq<Extent>): int {
    if l == [] then 0 else TotalBytes(l[..|l| - 1]) + Last(l).end - Last(l).start
  }

  lemma TotalBytesSnoc(l: seq<Extent>, e: Extent)
    ensures TotalBytes(l + [e]) == TotalBytes(l) + e.end - e.start
  {
    assert (l + [e])[..|l|] == l;
  }

  /** The byte total of a list is the number of bytes it covers. */
  lemma {:induction false} TotalIsCount(l: seq<Extent>, limit: int) returns (bytes: set<int>)
    requires Separated(l) && InBounds(l, limit)
    ensures |bytes| == TotalBytes(l) && forall p :: p in bytes <==> Covers(l, p)
    decreases |l|
  {
    if l == [] {
      bytes := {};
    } else {
      var n := |l| - 1;
      var before := TotalIsCount(l[..n], limit);
      var more := Interval(l[n].start, l[n].end);
      forall p | p in before
        ensures p !in more
      {
        var i :| 0 <= i < n && l[..n][i].start <= p < l[..n][i].end;
        assert l[i].end < l[n].start;
      }
      bytes := before + more;
      assert before !! more;
      forall p
        ensures p in bytes <==> Covers(l, p)
      {
        LastCovers(l, p);
      }
    }
  }

  lemma LastCovers(l: seq<Extent>, p: int)
    requires l != []
    ensures Covers(l, p) <==> Covers(l[..|l| - 1], p) || Last(l).start <= p < Last(l).end
  {
    var n := |l| - 1;
    if i :| 0 <= i < n && l[..n][i].start <= p < l[..n][i].end {
      assert l[i].start <= p < l[i].end;
    }
    if i :| 0 <= i < |l| && l[i].start <= p < l[i].end {
      assert i < n ==> l[..n][i].start <= p < l[..n][i].end;
    }
  }

  lemma RoundedAligned(data: int, hole: int, limit: int)
    requires limit % 4096 == 0
    ensures RunStart(data) >= 0 && RunStart(data) % 4096 == 0
    ensures RunStop(hole, limit) <= limit
    ensures RunStop(hole, limit) % 4096 == 0
  {
  }

  /** Rounding moves a bound by less than one block, and the limit cuts off what lies behind it. */
  lemma RoundingIsTight(data: int, hole: int, limit: int)
    ensures RunStart(data) >= 0 && (data <= 0 ==> RunStart(data) == 0)
    ensures data >= 0 ==> data - 4096 < RunStart(data) <= data
    ensures 0 <= hole <= limit ==> hole <= RunStop(hole, limit) < hole + 4096
    ensures hole >= limit >= 0 ==> RunStop(hole, limit) == limit
  {
  }

  /** Rounding only ever widens a run: no byte of it below the limit is lost. */
  lemma RoundedContains(data: int, hole: int, limit: int, p: int)
    requires 0 <= data <= p < hole && p < limit
    ensures RunStart(data) <= p < RunStop(hole, limit)
  {
  }

  lemma AppendShape(l: seq<Extent>, d: int, h: int, limit: int)
    requires Separated(l) && InBounds(l, limit) && 0 <= d && h <= limit
    ensures Separated(Append(l, d, h)) && InBounds(Append(l, d, h), limit)
  {
  }

  lemma AppendAligned(l: seq<Extent>, d: int, h: int)
    requires AlignedList(l) && d % 4096 == 0 && h % 4096 == 0
    ensures AlignedList(Append(l, d, h))
  {
    var r := Append(l, d, h);
    forall i | 0 <= i < |r|
      ensures r[i].start % 4096 == 0 && r[i].end % 4096 == 0
    {
      if i < |l| {
        assert l[i].start % 4096 == 0 && l[i].end % 4096 == 0;
      }
    }
  }

  /** Whatever runs are offered, in whatever order, the list stays sorted, separated and aligned. */
  lemma AddRunWellFormed(l: seq<Extent>, data: int, hole: int, limit: int)
    requires WellFormed(l, limit) && limit % 4096 == 0
    ensures WellFormed(AddRun(l, data, hole, limit), limit)
  {
    var d, h := RunStart(data), RunStop(hole, limit);
    RoundedAligned(data, hole, limit);
    AppendShape(l, d, h, limit);
    AppendAligned(l, d, h);
  }

  lemma AppendCovers(l: seq<Extent>, d: int, h: int, limit: int, p: int)
    requires Separated(l) && InBounds(l, limit)
    ensures Covers(Append(l, d, h), p) <==> Covers(l, p) || (d <= p < h && (l != [] ==> Last(l).start <= p))
  {
    var r := Append(l, d, h);
    if h <= d {
    } else if l != [] && d <= Last(l).end {
      if h > Last(l).end {
        assert r[|l| - 1] == Extent(Last(l).start, h);
        assert forall i :: 0 <= i < |l| - 1 ==> r[i] == l[i];
        if Covers(l, p) {
          var i :| 0 <= i < |l| && l[i].start <= p < l[i].end;
          assert r[i].start <= p < r[i].end;
        }
        if Covers(r, p) {
          var i :| 0 <= i < |r| && r[i].start <= p < r[i].end;
          assert i < |l| - 1 || p < Last(l).end ==> l[i].start <= p < l[i].end;
        }
      } else if d <= p < h && Last(l).start <= p {
        assert l[|l| - 1].start <= p < l[|l| - 1].end;
      }
    } else {
      assert r[|l|] == Extent(d, h);
      assert forall i :: 0 <= i < |l| ==> r[i] == l[i];
      if Covers(l, p) {
        var i :| 0 <= i < |l| && l[i].start <= p < l[i].end;
        assert r[i].start <= p < r[i].end;
      }
      if l != [] {
        assert l[|l| - 1].start < l[|l| - 1].end;
      }
    }
  }

  /**
   Exactly which bytes one more run adds. A run that starts before the last extent is
   merged into it, so of such a run only the part from that extent's start on is added.
   */
  lemma AddRunCovers(l: seq<Extent>, data: int, hole: int, limit: int, p: int)
    requires WellFormed(l, limit)
    ensures Covers(AddRun(l, data, hole, limit), p) <==>
            Covers(l, p) || (RunStart(data) <= p < RunStop(hole, limit) && (l != [] ==> Last(l).start <= p))
  {
    AppendCovers(l, RunStart(data), RunStop(hole, limit), limit, p);
  }

  /** The list after a whole walk over the file. */
  function AddAll(runs: seq<Extent>, limit: int): seq<Extent> {
    if runs == [] then []
    else AddRun(AddAll(runs[..|runs| - 1], limit), Last(runs).start, Last(runs).end, limit)
  }

  /** The order in which a FIEMAP or SEEK_DATA walk reports runs. */
  ghost predicate Ascending(runs: seq<Extent>) {
    && (forall i :: 0 <= i < |runs| ==> 0 <= runs[i].start)
    && (forall i, j :: 0 <= i < j < |runs| ==> runs[i].start <= runs[j].start)
  }

  ghost predicate RoundedRunHas(r: Extent, limit: int, p: int) {
    RunStart(r.start) <= p < RunStop(r.end, limit)
  }

  lemma RunStartMonotone(a: int, b: int)
    requires 0 <= a <= b
    ensures RunStart(a) <= RunStart(b)
  {
  }

  /** A whole walk, in whatever order it reports the runs, ends with a well-formed list. */
  lemma {:induction false} WalkWellFormed(runs: seq<Extent>, limit: int)
    requires limit % 4096 == 0
    ensures WellFormed(AddAll(runs, limit), limit)
  {
    if runs != [] {
      WalkWellFormed(runs[..|runs| - 1], limit);
      AddRunWellFormed(AddAll(runs[..|runs| - 1], limit), Last(runs).start, Last(runs).end, limit);
    }
  }

  lemma {:induction false} WalkLastStart(runs: seq<Extent>, limit: int)
    requires Ascending(runs) && AddAll(runs, limit) != []
    ensures runs != [] && Last(AddAll(runs, limit)).start <= RunStart(Last(runs).start)
  {
    var front, last := runs[..|runs| - 1], Last(runs);
    if AddAll(front, limit) != [] {
      WalkLastStart(front, limit);
      RunStartMonotone(Last(front).start, last.start);
    }
    AddLastStart(AddAll(front, limit), last, limit);
  }

  /** One run moves the start of the last extent at most to its own rounded start. */
  lemma AddLastStart(l: seq<Extent>, run: Extent, limit: int)
    requires AddRun(l, run.start, run.end, limit) != []
    requires l != [] ==> Last(l).start <= RunStart(run.start)
    ensures Last(AddRun(l, run.start, run.end, limit)).start <= RunStart(run.start)
  {
  }

  /** A walk that reports its runs in ascending order covers exactly the rounded runs. */
  lemma {:induction false} WalkCovers(runs: seq<Extent>, limit: int, p: int)
    requires Ascending(runs) && limit % 4096 == 0
    ensures Covers(AddAll(runs, limit), p) <==> exists i :: 0 <= i < |runs| && RoundedRunHas(runs[i], limit, p)
  {
    if runs != [] {
      var front, last := runs[..|runs| - 1], Last(runs);
      var l := AddAll(front, limit);
      WalkCovers(front, limit, p);
      WalkWellFormed(front, limit);
      AddRunCovers(l, last.start, last.end, limit, p);
      if l != [] {
        WalkLastStart(front, limit);
        RunStartMonotone(Last(front).start, last.start);
      }
      assert Covers(AddAll(runs, limit), p) <==> Covers(l, p) || RoundedRunHas(last, limit, p);
      if i :| 0 <= i < |front| && RoundedRunHas(front[i], limit, p) {
        assert runs[i] == front[i];
      }
      if RoundedRunHas(last, limit, p) {
        assert runs[|runs| - 1] == last;
      }
      if i :| 0 <= i < |runs| && RoundedRunHas(runs[i], limit, p) {
        assert i < |front| ==> RoundedRunHas(front[i], limit, p);
      }
    }
  }

  ghost predicate HasByte(r: Extent, p: int) {
    r.start <= p < r.end
  }

  /** The block of 4096 bytes around p holds a byte of the run. */
  ghost predicate BlockMeets(r: Extent, p: int) {
    exists q :: HasByte(r, q) && q - q % 4096 == p - p % 4096
  }

  /** What rounding does to one run: whole blocks, none that the run does not touch. */
  lemma RoundedRunIsBlocks(r: Extent, limit: int, p: int)
    requires 0 <= r.start < r.end && limit % 4096 == 0
    ensures RoundedRunHas(r, limit, p) <==> 0 <= p < limit && BlockMeets(r, p)
  {
    if RoundedRunHas(r, limit, p) {
      RunTouchesBlock(r, limit, p);
    }
    if q :| 0 <= p < limit && HasByte(r, q) && q - q % 4096 == p - p % 4096 {
      BlockIsRounded(r, limit, p, q);
    }
  }

  lemma RunTouchesBlock(r: Extent, limit: int, p: int)
    requires 0 <= r.start < r.end && RoundedRunHas(r, limit, p)
    ensures 0 <= p < limit && BlockMeets(r, p)
  {
    var b := p - p % 4096;
    var q := if r.start < b then b else r.start;
    assert HasByte(r, q) && q - q % 4096 == b;
  }

  lemma BlockIsRounded(r: Extent, limit: int, p: int, q: int)
    requires 0 <= r.start < r.end && limit % 4096 == 0 && 0 <= p < limit && HasByte(r, q) && q - q % 4096 == p - p % 4096
    ensures RoundedRunHas(r, limit, p)
  {
    var b := p - p % 4096;
    assert r.start - r.start % 4096 <= b && b + 4096 <= Truncate(r.end + 4095);
  }

  /** The bytes that a walk adds, in terms of the runs alone: blocks that hold a byte of a run. */
  lemma WalkIsBlocks(runs: seq<Extent>, limit: int, p: int)
    requires Ascending(runs) && limit % 4096 == 0 && forall i :: 0 <= i < |runs| ==> runs[i].start < runs[i].end
    ensures Covers(AddAll(runs, limit), p) <==> 0 <= p < limit && exists i :: 0 <= i < |runs| && BlockMeets(runs[i], p)
  {
    hide AddAll, BlockMeets, RoundedRunHas;
    WalkCovers(runs, limit, p);
    forall i | 0 <= i < |runs|
      ensures RoundedRunHas(runs[i], limit, p) <==> 0 <= p < limit && BlockMeets(runs[i], p)
    {
      RoundedRunIsBlocks(runs[i], limit, p);
    }
  }

  /** Whatever the runs, nothing is added that is a block or more away from all of them. */
  lemma WalkIsNear(runs: seq<Extent>, limit: int, p: int)
    requires Ascending(runs) && limit % 4096 == 0 && Covers(AddAll(runs, limit), p)
    ensures exists i :: 0 <= i < |runs| && runs[i].start - 4096 < p < runs[i].end + 4096
  {
    WalkCovers(runs, limit, p);
    hide AddAll, Covers, RunStart, RunStop, RoundedRunHas;
    var i :| 0 <= i < |runs| && RoundedRunHas(runs[i], limit, p);
    RoundedIsNear(runs[i], limit, p);
  }

  lemma RoundedIsNear(r: Extent, limit: int, p: int)
    requires r.start >= 0 && RoundedRunHas(r, limit, p)
    ensures r.start - 4096 < p < r.end + 4096
  {
    RoundingIsTight(r.start, r.end, limit);
  }

  ghost predicate InRun(runs: seq<Extent>, p: int) {
    exists i :: 0 <= i < |runs| && runs[i].start <= p < runs[i].end
  }

  /** A walk in ascending order loses no byte of its runs below the limit. */
  lemma WalkKeepsRuns(runs: seq<Extent>, limit: int, p: int)
    requires Ascending(runs) && limit % 4096 == 0 && InRun(runs, p) && p < limit
    ensures Covers(AddAll(runs, limit), p)
  {
    var i :| 0 <= i < |runs| && runs[i].start <= p < runs[i].end;
    RoundedContains(runs[i].start, runs[i].end, limit, p);
    assert RoundedRunHas(runs[i], limit, p);
    WalkCovers(runs, limit, p);
  }

  /** The order matters: of two runs reported backwards the second is lost. */
  lemma BackwardsLosesRun()
    ensures var runs := [Extent(8192, 12288), Extent(0, 4096)];
            InRun(runs, 0) && !Covers(AddAll(runs, 16384), 0)
  {
    var runs := [Extent(8192, 12288), Extent(0, 4096)];
    assert runs[..1] == [Extent(8192, 12288)] && runs[..1][..0] == [];
    assert AddAll(runs[..1], 16384) == [Extent(8192, 12288)];
    assert AddAll(runs, 16384) == [Extent(8192, 12288)];
    assert runs[1].start <= 0 < runs[1].end;
  }

  /** The extents stored as pairs of bounds in the first 2 * n cells. */
  function Pairs(s: seq<int>, n: nat): (l: seq<Extent>)
    requires 2 * n <= |s|
    ensures |l| == n
  {
    seq(n, i requires 0 <= i < n => Extent(s[2 * i], s[2 * i + 1]))
  }

  /** The growable list of the extent walk: pairs of bounds in one array that doubles when full. */
  class ExtentList {
    var ext: array<int>
    var n: nat
    var cap: nat
    var bytes: int

    ghost predicate Valid()
      reads this, ext
    {
      n <= cap && ext.Length == 2 * cap && bytes == TotalBytes(Contents())
    }

    ghost function Contents(): seq<Extent>
      requires 2 * n <= ext.Length
      reads this, ext
    {
      Pairs(ext[..], n)
    }

    constructor ()
      ensures Valid() && Contents() == [] && fresh(ext)
    {
      ext := new int[0];
      n, cap, bytes := 0, 0, 0;
    }

    /** Doubles the array, keeping its contents. */
    method Grow()
      requires Valid()
      modifies this
      ensures Valid() && Contents() == old(Contents()) && n == old(n) && bytes == old(bytes)
      ensures n < cap && fresh(ext)
    {
      var ncap := if cap > 0 then 2 * cap else 64;
      var tmp := new int[2 * ncap];
      var i := 0;
      while i < 2 * n
        invariant 0 <= i <= 2 * n
        invariant forall k :: 0 <= k < i ==> tmp[k] == ext[k]
        modifies tmp
      {
        tmp[i] := ext[i];
        i := i + 1;
      }
      ghost var was := Contents();
      ext, cap := tmp, ncap;
      assert Contents() == was;
    }

    /** The last extent grows. */
    method ExtendLast(hole: int)
      requires Valid() && n > 0
      modifies this`bytes, ext
      ensures Valid()
      ensures Contents() == old(Contents()[..n - 1]) + [Extent(old(Contents()[n - 1].start), hole)]
    {
      ghost var was := Contents();
      bytes := bytes + (hole - ext[2 * (n - 1) + 1]);
      ext[2 * (n - 1) + 1] := hole;
      TotalBytesSnoc(was[..n - 1], was[n - 1]);
      assert was == was[..n - 1] + [was[n - 1]];
      TotalBytesSnoc(was[..n - 1], Extent(was[n - 1].start, hole));
      assert Contents() == was[..n - 1] + [Extent(was[n - 1].start, hole)];
    }

    /** One more extent, where there is room. */
    method PushLast(data: int, hole: int)
      requires Valid() && n < cap
      modifies this`bytes, this`n, ext
      ensures Valid() && Contents() == old(Contents()) + [Extent(data, hole)]
    {
      hide TotalBytes;
      ghost var was := Contents();
      ext[2 * n] := data;
      ext[2 * n + 1] := hole;
      n := n + 1;
      bytes := bytes + (hole - data);
      assert Contents() == was + [Extent(data, hole)];
      TotalBytesSnoc(was, Extent(data, hole));
    }

    /** The second half of Add, from the merge test on. */
    method AppendRounded(data: int, hole: int, allocOk: bool) returns (rc: int)
      requires Valid() && data < hole
      modifies this, ext
      ensures Valid()
      ensures rc == 0 ==> Contents() == Append(old(Contents()), data, hole)
      ensures rc != 0 ==> rc == -1 && !allocOk && Contents() == old(Contents())
    {
      if n > 0 && data <= ext[2 * (n - 1) + 1] {
        if hole > ext[2 * (n - 1) + 1] {
          ExtendLast(hole);
        }
        return 0;
      }
      if n == cap {
        if !allocOk {
          return -1;
        }
        Grow();
      }
      PushLast(data, hole);
      return 0;
    }

    /** Adds one run; fails only when the list cannot grow, and then changes nothing. */
    method Add(data0: int, hole0: int, limit: int, allocOk: bool) returns (rc: int)
      requires Valid()
      modifies this, ext
      ensures Valid()
      ensures rc == 0 ==> Contents() == AddRun(old(Contents()), data0, hole0, limit)
      ensures rc != 0 ==> rc == -1 && !allocOk && Contents() == old(Contents())
    {
      var data, hole := Truncate(data0), Truncate(hole0 + 4095);
      if hole > limit {
        hole := limit;
      }
      if data < 0 {
        data := 0;
      }
      if hole <= data {
        return 0;
      }
      rc := AppendRounded(data, hole, allocOk);
    }
  }

  // ---------------------------------------------------------------------------
  // The read cursor

  /** A dense file is read from end to end, a sparse one along its extents. */
  datatype Layout = Dense | Sparse(extents: seq<Extent>)

  datatype Cursor = Cursor(offset: int, idx: nat)

  ghost predicate LayoutOk(lay: Layout, bulkEnd: int) {
    bulkEnd >= 0 && (lay.Sparse? ==> Separated(lay.extents) && InBounds(lay.extents, bulkEnd))
  }

  /** The bytes that a copy of the file has to move. */
  ghost predicate IsData(lay: Layout, bulkEnd: int, p: int) {
    match lay
    case Dense => 0 <= p < bulkEnd
    case Sparse(x) => Covers(x, p)
  }

  /** Moves the cursor to the next data byte, or to bulkEnd when there is none. */
  function SkipHoles(lay: Layout, bulkEnd: int, cur: Cursor): Cursor
    decreases if lay.Sparse? then |lay.extents| - cur.idx else 0
  {
    if lay.Dense? then cur
    else if cur.idx < |lay.extents| && cur.offset >= lay.extents[cur.idx].end then
      SkipHoles(lay, bulkEnd, Cursor(cur.offset, cur.idx + 1))
    else if cur.idx >= |lay.extents| then Cursor(bulkEnd, cur.idx)
    else if cur.offset < lay.extents[cur.idx].start then Cursor(lay.extents[cur.idx].start, cur.idx)
    else cur
  }

  /** End of the run that the next chunk may extend to. */
  function RunEnd(lay: Layout, bulkEnd: int, cur: Cursor): int {
    if lay.Sparse? && cur.idx < |lay.extents| then lay.extents[cur.idx].end else bulkEnd
  }

  function StartCursor(lay: Layout, bulkEnd: int): Cursor {
    SkipHoles(lay, bulkEnd, Cursor(0, 0))
  }

  /** Length of the chunk at the cursor. */
  function ClaimLen(lay: Layout, bulkEnd: int, chunk: int, cur: Cursor): int {
    var remain := RunEnd(lay, bulkEnd, cur) - cur.offset;
    if remain >= chunk then chunk else remain
  }

  /** The cursor after the chunk at it has been handed out. */
  function NextCursor(lay: Layout, bulkEnd: int, chunk: int, cur: Cursor): Cursor {
    SkipHoles(lay, bulkEnd, Cursor(cur.offset + ClaimLen(lay, bulkEnd, chunk, cur), cur.idx))
  }

  /** Between claims the cursor stands on a data byte or at the end. */
  ghost predicate CursorOk(lay: Layout, bulkEnd: int, cur: Cursor) {
    && 0 <= cur.offset <= bulkEnd
    && (cur.offset < bulkEnd && lay.Sparse? ==>
          cur.idx < |lay.extents| && lay.extents[cur.idx].start <= cur.offset < lay.extents[cur.idx].end)
  }

  lemma {:induction false} SkipHolesOk(lay: Layout, bulkEnd: int, cur: Cursor)
    requires LayoutOk(lay, bulkEnd) && 0 <= cur.offset <= bulkEnd
    requires lay.Sparse? ==> forall i :: 0 <= i < cur.idx && i < |lay.extents| ==> lay.extents[i].end <= cur.offset
    ensures CursorOk(lay, bulkEnd, SkipHoles(lay, bulkEnd, cur))
    ensures SkipHoles(lay, bulkEnd, cur).offset >= cur.offset
    ensures forall p :: cur.offset <= p < SkipHoles(lay, bulkEnd, cur).offset ==> !IsData(lay, bulkEnd, p)
    decreases if lay.Sparse? then |lay.extents| - cur.idx else 0
  {
    if lay.Sparse? && cur.idx < |lay.extents| && cur.offset >= lay.extents[cur.idx].end {
      SkipHolesOk(lay, bulkEnd, Cursor(cur.offset, cur.idx + 1));
    }
  }

  lemma StartCursorOk(lay: Layout, bulkEnd: int)
    requires LayoutOk(lay, bulkEnd)
    ensures CursorOk(lay, bulkEnd, StartCursor(lay, bulkEnd))
    ensures forall p :: IsData(lay, bulkEnd, p) ==> StartCursor(lay, bulkEnd).offset <= p < bulkEnd
  {
    SkipHolesOk(lay, bulkEnd, Cursor(0, 0));
    forall p | IsData(lay, bulkEnd, p)
      ensures StartCursor(lay, bulkEnd).offset <= p < bulkEnd
    {
    }
  }

  /**
   One claim takes a nonempty chunk of data bytes, as long as a buffer unless the data ends before that, and leaves
   the cursor at the next data byte: nothing between the chunk and the new cursor is data.
   */
  lemma ClaimOk(lay: Layout, bulkEnd: int, chunk: int, cur: Cursor)
    requires LayoutOk(lay, bulkEnd) && chunk >= 1 && CursorOk(lay, bulkEnd, cur) && cur.offset < bulkEnd
    ensures 1 <= ClaimLen(lay, bulkEnd, chunk, cur) <= chunk
    ensures ClaimLen(lay, bulkEnd, chunk, cur) == chunk || !IsData(lay, bulkEnd, cur.offset + ClaimLen(lay, bulkEnd, chunk, cur))
    ensures cur.offset + ClaimLen(lay, bulkEnd, chunk, cur) <= bulkEnd
    ensures CursorOk(lay, bulkEnd, NextCursor(lay, bulkEnd, chunk, cur))
    ensures cur.offset + ClaimLen(lay, bulkEnd, chunk, cur) <= NextCursor(lay, bulkEnd, chunk, cur).offset
    ensures forall p :: cur.offset <= p < NextCursor(lay, bulkEnd, chunk, cur).offset ==>
                          (IsData(lay, bulkEnd, p) <==> p < cur.offset + ClaimLen(lay, bulkEnd, chunk, cur))
  {
    var len := ClaimLen(lay, bulkEnd, chunk, cur);
    SkipHolesOk(lay, bulkEnd, Cursor(cur.offset + len, cur.idx));
  }
}
