/**
 The domain of verification samples: the blocks of a file, or, for a sparse file, the
 blocks that meet a data extent, numbered by ordinals 0, 1, 2, ... in file order.
 */
module SampleDomain {
  import opened Machine
  import opened Counting

  datatype DataExtent = DataExtent(start: nat, end: nat)

  /** Extents in file order that do not overlap. */
  ghost predicate ExtentsOk(es: seq<DataExtent>, size: nat) {
    && (forall i :: 0 <= i < |es| ==> es[i].start < es[i].end <= size)
    && (forall i, j :: 0 <= i < j < |es| ==> es[i].end <= es[j].start)
  }

  ghost predicate InData(es: seq<DataExtent>, p: int) {
    exists i :: 0 <= i < |es| && es[i].start <= p < es[i].end
  }

  // ---------------------------------------------------------------------------
  // The extent map of a file

  /** SEEK_DATA and SEEK_HOLE over the allocation of a file, one flag per byte. */
  function Seek(alloc: seq<bool>, pos: nat, what: bool): (r: nat)
    requires pos <= |alloc|
    ensures pos <= r <= |alloc|
    ensures forall p :: pos <= p < r ==> alloc[p] != what
    ensures r < |alloc| ==> alloc[r] == what
    decreases |alloc| - pos
  {
    if pos == |alloc| || alloc[pos] == what then pos else Seek(alloc, pos + 1, what)
  }

  method BuildMap(alloc: seq<bool>) returns (es: seq<DataExtent>)
    ensures ExtentsOk(es, |alloc|)
    ensures forall p :: 0 <= p < |alloc| ==> (InData(es, p) <==> alloc[p])
  {
    es := [];
    var pos := 0;
    while pos < |alloc|
      invariant pos <= |alloc|
      invariant ExtentsOk(es, pos)
      invariant forall p :: 0 <= p < pos ==> (InData(es, p) <==> alloc[p])
      invariant forall p :: pos <= p ==> !InData(es, p)
      decreases |alloc| - pos
    {
      var data := Seek(alloc, pos, true);
      if data == |alloc| {
        break;
      }
      var hole := Seek(alloc, data, false);
      AddExtent(es, DataExtent(data, hole));
      es := es + [DataExtent(data, hole)];
      pos := if hole > pos then hole else pos + 1;
    }
  }

  lemma AddExtent(es: seq<DataExtent>, e: DataExtent)
    ensures forall p :: InData(es + [e], p) <==> InData(es, p) || e.start <= p < e.end
  {
    var fs := es + [e];
    forall p
      ensures InData(fs, p) <==> InData(es, p) || e.start <= p < e.end
    {
      if InData(es, p) {
        var i :| 0 <= i < |es| && es[i].start <= p < es[i].end;
        assert fs[i] == es[i];
      }
      if e.start <= p < e.end {
        assert fs[|es|] == e;
      }
    }
  }

  /** No extent reaches into the range. */
  ghost predicate IsHole(es: seq<DataExtent>, offset: int, length: int) {
    forall i :: 0 <= i < |es| ==> es[i].end <= offset || offset + length <= es[i].start
  }

  /** Binary search for the first extent that ends after offset. */
  method RangeIsHole(es: seq<DataExtent>, size: nat, offset: nat, length: nat) returns (hole: bool)
    requires ExtentsOk(es, size)
    ensures hole <==> IsHole(es, offset, length)
  {
    var lo, hi := 0, |es|;
    while lo < hi
      invariant 0 <= lo <= hi <= |es|
      invariant forall i :: 0 <= i < lo ==> es[i].end <= offset
      invariant forall i :: hi <= i < |es| ==> es[i].end > offset
    {
      var mid := lo + (hi - lo) / 2;
      if es[mid].end <= offset {
        lo := mid + 1;
      } else {
        hi := mid;
      }
    }
    hole := lo == |es| || es[lo].start >= offset + length;
  }

  // ---------------------------------------------------------------------------
  // Ordinals and blocks

  function FirstBlock(e: DataExtent): nat { e.start / BLOCK }
  function LastBlock(e: DataExtent): nat { (e.end + BLOCK - 1) / BLOCK }

  function Span(lo: int, hi: int): (r: seq<int>)
    ensures |r| == if lo < hi then hi - lo else 0
    ensures forall k :: 0 <= k < |r| ==> r[k] == lo + k
  {
    seq(if lo < hi then hi - lo else 0, k => lo + k)
  }

  /** The reference definition of the domain: the blocks of each extent, one extent after the other. */
  function DataBlocks(es: seq<DataExtent>): seq<int> {
    if es == [] then [] else
    var n := |es| - 1; DataBlocks(es[..n]) + Span(FirstBlock(es[n]), LastBlock(es[n]))
  }

  function DataBytes(es: seq<DataExtent>): int {
    if es == [] then 0 else
    var n := |es| - 1; DataBytes(es[..n]) + es[n].end - es[n].start
  }

  /** The byte count of the domain is the number of data bytes. */
  lemma {:induction false} DataBytesIsCount(es: seq<DataExtent>, size: nat) returns (bytes: set<int>)
    requires ExtentsOk(es, size)
    ensures |bytes| == DataBytes(es) && forall p :: p in bytes <==> InData(es, p)
    decreases |es|
  {
    if es == [] {
      bytes := {};
    } else {
      var n := |es| - 1;
      var before := DataBytesIsCount(es[..n], size);
      var more := Interval(es[n].start, es[n].end);
      forall p | p in before
        ensures p !in more
      {
        var i :| 0 <= i < n && es[..n][i].start <= p < es[..n][i].end;
        assert es[i].end <= es[n].start;
      }
      bytes := before + more;
      assert before !! more;
      forall p
        ensures p in bytes <==> InData(es, p)
      {
        LastHasData(es, p);
      }
    }
  }

  lemma LastHasData(es: seq<DataExtent>, p: int)
    requires es != []
    ensures var n := |es| - 1;
            InData(es, p) <==> InData(es[..n], p) || es[n].start <= p < es[n].end
  {
    var n := |es| - 1;
    if i :| 0 <= i < n && es[..n][i].start <= p < es[..n][i].end {
      assert es[i].start <= p < es[i].end;
    }
    if i :| 0 <= i < |es| && es[i].start <= p < es[i].end {
      assert i < n ==> es[..n][i].start <= p < es[..n][i].end;
    }
  }

  datatype Domain = Domain(size: nat, sparse: bool, extents: seq<DataExtent>, cum: seq<nat>, dataN: nat, dataBytes: nat)

  /** Blocks of the domain, in the order of their ordinals. */
  function Blocks(d: Domain): seq<int> {
    if d.sparse then DataBlocks(d.extents) else Span(0, (d.size + BLOCK - 1) / BLOCK)
  }

  ghost predicate DomainOk(d: Domain) {
    && d.dataN == |Blocks(d)|
    && (d.sparse ==> ExtentsOk(d.extents, d.size) && |d.cum| == |d.extents|
                     && forall i :: 0 <= i < |d.cum| ==> d.cum[i] == |DataBlocks(d.extents[..i])|)
  }

  method InitDomain(sparse: bool, es: seq<DataExtent>, size: nat) returns (d: Domain)
    requires sparse ==> ExtentsOk(es, size)
    ensures DomainOk(d) && d.size == size && d.sparse == sparse
    ensures sparse ==> d.extents == es
    ensures d.dataBytes == if sparse then DataBytes(es) else size
  {
    if !sparse {
      return Domain(size, false, [], [], (size + BLOCK - 1) / BLOCK, size);
    }
    var cum: seq<nat>, total: nat, bytes: nat := [], 0, 0;
    for i := 0 to |es|
      invariant |cum| == i && total == |DataBlocks(es[..i])| && bytes == DataBytes(es[..i])
      invariant forall k :: 0 <= k < i ==> cum[k] == |DataBlocks(es[..k])|
    {
      cum := cum + [total];
      total := total + (LastBlock(es[i]) - FirstBlock(es[i]));
      bytes := bytes + (es[i].end - es[i].start);
      assert es[..i + 1][..i] == es[..i];
    }
    assert es[..|es|] == es;
    d := Domain(size, true, es, cum, total, bytes);
  }

  lemma {:induction false} PrefixBlocks(es: seq<DataExtent>, i: nat)
    requires i <= |es|
    ensures DataBlocks(es[..i]) <= DataBlocks(es)
  {
    if i == |es| {
      assert es[..i] == es;
    } else {
      var n := |es| - 1;
      assert es[..n][..i] == es[..i];
      PrefixBlocks(es[..n], i);
    }
  }

  /** Ordinals of extent i, and the blocks they stand for. */
  lemma ExtentBlocks(es: seq<DataExtent>, i: nat, k: int)
    requires i < |es| && FirstBlock(es[i]) <= LastBlock(es[i])
    ensures |DataBlocks(es[..i + 1])| == |DataBlocks(es[..i])| + LastBlock(es[i]) - FirstBlock(es[i]) <= |DataBlocks(es)|
    ensures |DataBlocks(es[..i])| <= k < |DataBlocks(es[..i + 1])| ==>
              DataBlocks(es)[k] == FirstBlock(es[i]) + (k - |DataBlocks(es[..i])|)
  {
    PrefixBlocks(es, i + 1);
    assert es[..i + 1][..i] == es[..i];
    if |DataBlocks(es[..i])| <= k < |DataBlocks(es[..i + 1])| {
      assert DataBlocks(es)[k] == DataBlocks(es[..i + 1])[k];
    }
  }

  /** Binary search for the extent of an ordinal; the last block of a file may be short. */
  method SampleAt(d: Domain, ordinal: nat) returns (offset: int, length: int)
    requires DomainOk(d) && ordinal < d.dataN
    ensures offset == Blocks(d)[ordinal] * BLOCK
    ensures length == if d.size - offset > BLOCK then BLOCK else d.size - offset
  {
    if !d.sparse {
      offset := ordinal * BLOCK;
    } else {
      var lo, hi := 0, |d.extents|;
      assert d.extents[..|d.extents|] == d.extents;
      assert |DataBlocks(d.extents[..0])| == 0;
      hide DataBlocks;
      while hi - lo > 1
        invariant 0 <= lo < hi <= |d.extents|
        invariant d.cum[lo] <= ordinal
        invariant hi < |d.extents| ==> ordinal < d.cum[hi]
      {
        var mid := lo + (hi - lo) / 2;
        if d.cum[mid] <= ordinal {
          lo := mid;
        } else {
          hi := mid;
        }
      }
      ExtentBlocks(d.extents, lo, ordinal);
      var block := FirstBlock(d.extents[lo]) + (ordinal - d.cum[lo]);
      offset := block * BLOCK;
    }
    length := d.size - offset;
    if length > BLOCK {
      length := BLOCK;
    }
  }

  // ---------------------------------------------------------------------------
  // What the domain is

  ghost predicate MeetsData(es: seq<DataExtent>, b: int) {
    exists i :: 0 <= i < |es| && FirstBlock(es[i]) <= b < LastBlock(es[i])
  }

  /** A block has an ordinal if and only if some data byte lies in it. */
  lemma BlockMeetsData(es: seq<DataExtent>, size: nat, b: int)
    requires ExtentsOk(es, size)
    ensures MeetsData(es, b) <==> exists p :: b * BLOCK <= p < (b + 1) * BLOCK && InData(es, p)
  {
    if MeetsData(es, b) {
      var i :| 0 <= i < |es| && FirstBlock(es[i]) <= b < LastBlock(es[i]);
      var p := if es[i].start > b * BLOCK then es[i].start else b * BLOCK;
      assert es[i].start <= p < es[i].end;
      assert b * BLOCK <= p < (b + 1) * BLOCK && InData(es, p);
    }
    if p :| b * BLOCK <= p < (b + 1) * BLOCK && InData(es, p) {
      var i :| 0 <= i < |es| && es[i].start <= p < es[i].end;
      assert FirstBlock(es[i]) <= b < LastBlock(es[i]);
    }
  }

  lemma MeetsLast(es: seq<DataExtent>, b: int)
    requires es != []
    ensures var n := |es| - 1;
            MeetsData(es, b) <==> MeetsData(es[..n], b) || FirstBlock(es[n]) <= b < LastBlock(es[n])
  {
    var n := |es| - 1;
    if MeetsData(es[..n], b) {
      var i :| 0 <= i < n && FirstBlock(es[..n][i]) <= b < LastBlock(es[..n][i]);
      assert FirstBlock(es[i]) <= b < LastBlock(es[i]);
    }
    if MeetsData(es, b) {
      var i :| 0 <= i < |es| && FirstBlock(es[i]) <= b < LastBlock(es[i]);
      assert i < n ==> es[..n][i] == es[i];
    }
  }

  lemma {:induction false} BlocksAreData(es: seq<DataExtent>, b: int)
    ensures b in DataBlocks(es) <==> MeetsData(es, b)
  {
    if es != [] {
      var n := |es| - 1;
      var last := Span(FirstBlock(es[n]), LastBlock(es[n]));
      BlocksAreData(es[..n], b);
      MeetsLast(es, b);
      hide MeetsData, FirstBlock, LastBlock;
      assert b in last <==> FirstBlock(es[n]) <= b < LastBlock(es[n]) by {
        if FirstBlock(es[n]) <= b < LastBlock(es[n]) {
          assert last[b - FirstBlock(es[n])] == b;
        }
      }
    }
  }

  /** No block holds the end of one extent and the start of the next. */
  ghost predicate NoSharedBlock(es: seq<DataExtent>) {
    forall i :: 0 < i < |es| ==> LastBlock(es[i - 1]) <= FirstBlock(es[i])
  }

  ghost predicate Ascending(s: seq<int>) {
    forall i, j :: 0 <= i < j < |s| ==> s[i] <= s[j]
  }

  ghost predicate StrictlyAscending(s: seq<int>) {
    forall i, j :: 0 <= i < j < |s| ==> s[i] < s[j]
  }

  lemma {:induction false} BlocksAscend(es: seq<DataExtent>, size: nat)
    requires ExtentsOk(es, size)
    ensures Ascending(DataBlocks(es))
    ensures es != [] ==> DataBlocks(es) != [] && DataBlocks(es)[|DataBlocks(es)| - 1] == LastBlock(es[|es| - 1]) - 1
  {
    if es != [] {
      var n := |es| - 1;
      BlocksAscend(es[..n], size);
      assert n > 0 ==> LastBlock(es[n - 1]) - 1 <= FirstBlock(es[n]);
    }
  }

  lemma StrictConcat(a: seq<int>, b: seq<int>)
    requires Ascending(a) && StrictlyAscending(b) && a != [] && b != []
    ensures StrictlyAscending(a + b) <==> StrictlyAscending(a) && a[|a| - 1] < b[0]
  {
    if StrictlyAscending(a + b) {
      StrictParts(a, b);
      assert (a + b)[|a| - 1] < (a + b)[|a|];
    }
  }

  lemma NoSharedLast(es: seq<DataExtent>)
    requires |es| > 1
    ensures var n := |es| - 1;
            NoSharedBlock(es) <==> NoSharedBlock(es[..n]) && LastBlock(es[n - 1]) <= FirstBlock(es[n])
  {
    var n := |es| - 1;
    var front := es[..n];
    if NoSharedBlock(front) && LastBlock(es[n - 1]) <= FirstBlock(es[n]) {
      forall i | 0 < i < |es|
        ensures LastBlock(es[i - 1]) <= FirstBlock(es[i])
      {
        if i < n {
          assert LastBlock(front[i - 1]) <= FirstBlock(front[i]);
        }
      }
    }
  }

  lemma {:induction false} StrictIffNoShared(es: seq<DataExtent>, size: nat)
    requires ExtentsOk(es, size)
    ensures StrictlyAscending(DataBlocks(es)) <==> NoSharedBlock(es)
  {
    if es != [] {
      var n := |es| - 1;
      StrictIffNoShared(es[..n], size);
      if n > 0 {
        BlocksAscend(es[..n], size);
        StrictConcat(DataBlocks(es[..n]), Span(FirstBlock(es[n]), LastBlock(es[n])));
        NoSharedLast(es);
      }
    }
  }

  lemma StrictParts(a: seq<int>, b: seq<int>)
    requires StrictlyAscending(a + b)
    ensures StrictlyAscending(a)
  {
    forall i, j | 0 <= i < j < |a|
      ensures a[i] < a[j]
    {
      assert (a + b)[i] == a[i] && (a + b)[j] == a[j];
    }
  }

  /** Extents that start on block boundaries share no block. */
  lemma AlignedShareNothing(es: seq<DataExtent>, size: nat)
    requires ExtentsOk(es, size) && forall i :: 0 <= i < |es| ==> es[i].start % BLOCK == 0
    ensures NoSharedBlock(es)
  {
  }

  /** Two extents that meet in block 0 give it two ordinals. */
  lemma SharedBlockTwice()
    ensures var es := [DataExtent(0, 1), DataExtent(2, 3)];
            ExtentsOk(es, 3) && !NoSharedBlock(es) && DataBlocks(es) == [0, 0]
  {
    var es := [DataExtent(0, 1), DataExtent(2, 3)];
    assert es[..1] == [es[0]] && es[..1][..0] == [];
    assert Span(0, 1) == [0];
    assert DataBlocks(es[..1]) == [0];
    assert FirstBlock(es[1]) == 0 && LastBlock(es[0]) == 1;
  }

  function Offset(d: Domain, ordinal: nat): int
    requires ordinal < |Blocks(d)|
  {
    Blocks(d)[ordinal] * BLOCK
  }

  function Length(d: Domain, ordinal: nat): int
    requires ordinal < |Blocks(d)|
  {
    if d.size - Offset(d, ordinal) > BLOCK then BLOCK else d.size - Offset(d, ordinal)
  }

  /** Every sample is a block of the file, never empty, never past the end, and never only a hole. */
  lemma SampleInFile(d: Domain, ordinal: nat)
    requires DomainOk(d) && ordinal < d.dataN
    ensures 0 <= Offset(d, ordinal) && 1 <= Length(d, ordinal) <= BLOCK
    ensures Offset(d, ordinal) + Length(d, ordinal) <= d.size
    ensures Length(d, ordinal) == BLOCK || Offset(d, ordinal) + Length(d, ordinal) == d.size
    ensures d.sparse ==> !IsHole(d.extents, Offset(d, ordinal), Length(d, ordinal))
  {
    var b := Blocks(d)[ordinal];
    if d.sparse {
      assert b in DataBlocks(d.extents);
      BlocksAreData(d.extents, b);
      var i :| 0 <= i < |d.extents| && FirstBlock(d.extents[i]) <= b < LastBlock(d.extents[i]);
    }
  }

  /**
   The ordinals enumerate the blocks that hold data, all of them and no others, in file
   order; no block twice exactly when no two neighbouring extents meet in one block.
   */
  lemma DomainIsData(d: Domain, b: int)
    requires DomainOk(d)
    ensures Ascending(Blocks(d))
    ensures d.sparse ==> (b in Blocks(d) <==> exists p :: b * BLOCK <= p < (b + 1) * BLOCK && InData(d.extents, p))
    ensures !d.sparse ==> (b in Blocks(d) <==> 0 <= b * BLOCK < d.size)
    ensures StrictlyAscending(Blocks(d)) <==> !d.sparse || NoSharedBlock(d.extents)
  {
    if d.sparse {
      BlocksAscend(d.extents, d.size);
      StrictIffNoShared(d.extents, d.size);
      BlocksAreData(d.extents, b);
      BlockMeetsData(d.extents, d.size, b);
    } else if 0 <= b * BLOCK < d.size {
      assert Blocks(d)[b] == b;
    }
  }
}
