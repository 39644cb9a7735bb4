/**
 The dispatch queue of large files: a 4-ary max-heap that is sifted in place by moving a
 hole, with the ordering key stored inline in each entry.
 */
module TaskHeap {

  const ARITY: nat := 4

  datatype Entry = Entry(key: nat, task: nat)

  function Parent(i: nat): nat
    requires i > 0
    ensures Parent(i) < i
  {
    (i - 1) / 4
  }

  /** Everywhere but below and at the hole h the parent's key is at least the child's. */
  ghost predicate HeapOrder(s: seq<Entry>) {
    forall i :: 0 < i < |s| ==> s[Parent(i)].key >= s[i].key
  }

  /** Sifting up: only entry h may be larger than its parent, and its children fit under that parent. */
  ghost predicate OrderedBut(s: seq<Entry>, h: nat) {
    && (forall i :: 0 < i < |s| && i != h ==> s[Parent(i)].key >= s[i].key)
    && (h > 0 ==> forall i :: 0 < i < |s| && Parent(i) == h && Parent(h) < |s| ==> s[Parent(h)].key >= s[i].key)
  }

  /** Sifting down: only the children of entry h may be larger than it, and they fit under its parent. */
  ghost predicate OrderedBelow(s: seq<Entry>, h: nat) {
    && (forall i :: 0 < i < |s| && Parent(i) != h ==> s[Parent(i)].key >= s[i].key)
    && (h > 0 ==> forall i :: 0 < i < |s| && Parent(i) == h && Parent(h) < |s| ==> s[Parent(h)].key >= s[i].key)
  }

  lemma {:induction false} RootIsMax(s: seq<Entry>, i: nat)
    requires HeapOrder(s) && i < |s|
    ensures s[0].key >= s[i].key
    decreases i
  {
    if i > 0 {
      RootIsMax(s, Parent(i));
    }
  }

  function Swap(s: seq<Entry>, i: nat, j: nat): seq<Entry>
    requires i < |s| && j < |s|
  {
    s[i := s[j]][j := s[i]]
  }

  lemma SwapKeepsEntries(s: seq<Entry>, i: nat, j: nat)
    requires i < |s| && j < |s|
    ensures multiset(Swap(s, i, j)) == multiset(s)
  {
  }

  lemma SiftUpStep(s: seq<Entry>, h: nat)
    requires 0 < h < |s| && OrderedBut(s, h) && s[Parent(h)].key < s[h].key
    ensures OrderedBut(Swap(s, h, Parent(h)), Parent(h))
  {
    var p := Parent(h);
    var r := Swap(s, h, p);
    forall i | 0 < i < |r| && i != p
      ensures r[Parent(i)].key >= r[i].key
    {
      if i != h && Parent(i) == p {
        assert s[p].key >= s[i].key;
      }
    }
    if p > 0 {
      assert s[Parent(p)].key >= s[p].key;
      forall i | 0 < i < |r| && Parent(i) == p
        ensures r[Parent(p)].key >= r[i].key
      {
        if i != h {
          assert s[p].key >= s[i].key;
        }
      }
    }
  }

  lemma SiftDownStep(s: seq<Entry>, h: nat, best: nat)
    requires h < |s| && 0 < best < |s| && Parent(best) == h && OrderedBelow(s, h) && s[best].key > s[h].key
    requires forall i :: 0 < i < |s| && Parent(i) == h ==> s[i].key <= s[best].key
    ensures OrderedBelow(Swap(s, h, best), best)
  {
    var r := Swap(s, h, best);
    forall i | 0 < i < |r| && Parent(i) != best
      ensures r[Parent(i)].key >= r[i].key
    {
      if i == h {
        assert s[Parent(h)].key >= s[best].key;
      }
    }
    forall i | 0 < i < |r| && Parent(i) == best
      ensures r[Parent(best)].key >= r[i].key
    {
      assert s[Parent(i)].key >= s[i].key;
    }
  }

  /** What a call of the heap does to its entries. */
  datatype Move = In(entry: Entry) | Out(entry: Entry)

  /** A push adds its entry; a pop removes one entry, which no other entry's key exceeds. */
  ghost predicate Moves(before: multiset<Entry>, move: Move, after: multiset<Entry>) {
    match move
    case In(e) => after == before + multiset{e}
    case Out(top) => top in before && after + multiset{top} == before && forall e :: e in before ==> e.key <= top.key
  }

  class Heap {
    var items: array<Entry>
    var len: nat

    ghost predicate Valid()
      reads this, items
    {
      len <= items.Length && HeapOrder(items[..len])
    }

    ghost function Contents(): seq<Entry>
      requires len <= items.Length
      reads this, items
    {
      items[..len]
    }

    constructor ()
      ensures Valid() && Contents() == [] && fresh(items)
    {
      items := new Entry[0];
      len := 0;
    }

    /** Makes room for need entries; fails, changing nothing, only when memory runs out. */
    method Reserve(need: nat, allocOk: bool) returns (rc: int)
      requires Valid()
      modifies this
      ensures Valid() && len == old(len) && Contents() == old(Contents())
      ensures items == old(items) || fresh(items)
      ensures rc == 0 ==> items.Length >= need
      ensures rc != 0 ==> rc == -1 && !allocOk && items == old(items)
    {
      if items.Length >= need {
        return 0;
      }
      var ncap := if items.Length > 0 then items.Length * 2 else 64;
      while ncap < need
        invariant ncap >= len && ncap > 0
      {
        ncap := ncap * 2;
      }
      if !allocOk {
        return -1;
      }
      var ni := new Entry[ncap](_ => Entry(0, 0));
      var i := 0;
      while i < len
        invariant i <= len <= ni.Length && forall k :: 0 <= k < i ==> ni[k] == items[k]
        modifies ni
      {
        ni[i] := items[i];
        i := i + 1;
      }
      ghost var was := Contents();
      items := ni;
      assert Contents() == was;
      return 0;
    }

    /** Copies entry j into the hole i; with e imagined in the hole this swaps the two. */
    method MoveHole(i: nat, j: nat, ghost e: Entry)
      requires i < len <= items.Length && j < len && i != j
      modifies items
      ensures items[..len][j := e] == Swap(old(items[..len])[i := e], i, j)
    {
      items[i] := items[j];
    }

    method FillHole(i: nat, e: Entry)
      requires i < len <= items.Length
      modifies items
      ensures items[..len] == old(items[..len])[i := e]
    {
      items[i] := e;
    }

    /** Adds an entry; the caller has reserved room. */
    method Push(key: nat, task: nat)
      requires Valid() && len < items.Length
      modifies this, items
      ensures Valid() && items == old(items) && len == old(len) + 1
      ensures Moves(multiset(old(Contents())), In(Entry(key, task)), multiset(Contents()))
    {
      ghost var was, e := Contents(), Entry(key, task);
      var i := len;
      len := len + 1;
      ghost var s := items[..len][i := e];
      assert s == was + [e];
      while i > 0
        invariant 0 <= i < len <= items.Length && len == |was| + 1
        invariant s == items[..len][i := e] && multiset(s) == multiset(was) + multiset{e} && OrderedBut(s, i)
        modifies items
      {
        var parent := (i - 1) / ARITY;
        if items[parent].key >= key {
          break;
        }
        SiftUpStep(s, i);
        SwapKeepsEntries(s, i, parent);
        MoveHole(i, parent, e);
        s := Swap(s, i, parent);
        i := parent;
      }
      FillHole(i, Entry(key, task));
    }

    /** Index of the largest of node and the children of i: i itself when no child is larger. */
    method LargestChild(i: nat, key: nat) returns (best: nat)
      requires i < len <= items.Length
      ensures best < len
      ensures best == i || (best > 0 && Parent(best) == i && items[best].key > key)
      ensures forall k :: 0 < k < len && Parent(k) == i ==> items[k].key <= (if best == i then key else items[best].key)
    {
      var child := ARITY * i + 1;
      best := i;
      var bestKey := key;
      if child < len {
        var last := child + (ARITY - 1);
        if last >= len {
          last := len - 1;
        }
        while child <= last
          invariant 4 * i + 1 <= child <= last + 1 && last == (if 4 * i + 4 >= len then len - 1 else 4 * i + 4)
          invariant best < len && bestKey == if best == i then key else items[best].key
          invariant best == i || (4 * i + 1 <= best < child && bestKey > key)
          invariant forall k :: 4 * i + 1 <= k < child ==> items[k].key <= bestKey
        {
          if items[child].key > bestKey {
            best := child;
            bestKey := items[child].key;
          }
          child := child + 1;
        }
      }
    }

    /** Moves the hole at the root down until node fits. */
    method SiftDown(node: Entry)
      requires 0 < len < items.Length && OrderedBelow(items[..len][0 := node], 0)
      modifies items
      ensures HeapOrder(items[..len])
      ensures multiset(items[..len]) == multiset(old(items[..len])[0 := node])
    {
      var i := 0;
      ghost var s := items[..len][0 := node];
      ghost var m := multiset(s);
      while true
        invariant 0 <= i < len < items.Length
        invariant s == items[..len][i := node] && multiset(s) == m && OrderedBelow(s, i)
        decreases len - i
        modifies items
      {
        var best := LargestChild(i, node.key);
        if best == i {
          break;
        }
        SiftDownStep(s, i, best);
        SwapKeepsEntries(s, i, best);
        MoveHole(i, best, node);
        s := Swap(s, i, best);
        i := best;
      }
      FillHole(i, node);
    }

    /** Removes an entry of the highest key. */
    method PopMax() returns (top: Entry)
      requires Valid() && len > 0
      modifies this, items
      ensures Valid() && items == old(items) && len == old(len) - 1
      ensures Moves(multiset(old(Contents())), Out(top), multiset(Contents()))
    {
      ghost var was := Contents();
      top := items[0];
      TopIsMax(was);
      len := len - 1;
      var node := items[len];
      if len > 0 {
        PopStart(was, items[..len][0 := node]);
        SiftDown(node);
      } else {
        assert was == [top];
      }
    }
  }

  lemma TopIsMax(s: seq<Entry>)
    requires HeapOrder(s) && s != []
    ensures s[0] in s && forall e :: e in s ==> e.key <= s[0].key
  {
    forall e | e in s
      ensures e.key <= s[0].key
    {
      var k :| 0 <= k < |s| && s[k] == e;
      RootIsMax(s, k);
    }
  }

  /** Taking the root out and the last entry into its place. */
  lemma PopStart(was: seq<Entry>, s: seq<Entry>)
    requires HeapOrder(was) && |was| >= 2 && s == was[..|was| - 1][0 := was[|was| - 1]]
    ensures multiset(s) + multiset{was[0]} == multiset(was)
    ensures OrderedBelow(s, 0)
  {
    var n := |was| - 1;
    assert was == [was[0]] + was[1..n] + [was[n]];
    assert s == [was[n]] + was[1..n];
  }

  // ---------------------------------------------------------------------------
  // Dispatch order

  /** Without size priority the key of the n-th task is the n-th number below 2^64. */
  function SequenceKey(n: nat): nat
    requires n < 0x1_0000_0000_0000_0000
  {
    0xffff_ffff_ffff_ffff - n
  }

  /** The queue that the heap stands for: tasks in order of arrival, with decreasing keys. */
  ghost predicate Arrivals(q: seq<Entry>) {
    forall i, j :: 0 <= i < j < |q| ==> q[i].key > q[j].key
  }

  lemma ArrivalAppends(q: seq<Entry>, n: nat, task: nat)
    requires Arrivals(q) && n < 0x1_0000_0000_0000_0000
    requires forall e :: e in q ==> e.key > SequenceKey(n)
    ensures Arrivals(q + [Entry(SequenceKey(n), task)])
    ensures multiset(q + [Entry(SequenceKey(n), task)]) == multiset(q) + multiset{Entry(SequenceKey(n), task)}
    ensures n + 1 < 0x1_0000_0000_0000_0000 ==>
              forall e :: e in q + [Entry(SequenceKey(n), task)] ==> e.key > SequenceKey(n + 1)
  {
    var r := q + [Entry(SequenceKey(n), task)];
    forall i, j | 0 <= i < j < |r|
      ensures r[i].key > r[j].key
    {
      assert r[i] in q;
    }
  }

  /** With sequence keys the heap is a FIFO queue: whatever entry of highest key it yields is the oldest. */
  lemma PopIsFifo(q: seq<Entry>, top: Entry, rest: multiset<Entry>)
    requires Arrivals(q) && q != []
    requires top in q && forall e :: e in q ==> e.key <= top.key
    requires rest + multiset{top} == multiset(q)
    ensures top == q[0] && rest == multiset(q[1..]) && Arrivals(q[1..])
  {
    assert q[0] in q;
    var k :| 0 <= k < |q| && q[k] == top;
    assert k == 0;
    assert q == [q[0]] + q[1..];
    assert multiset(q) == multiset{q[0]} + multiset(q[1..]);
    assert rest == multiset(q) - multiset{top};
  }

  // ---------------------------------------------------------------------------
  // Runs of pushes and pops

  function PushesOf(run: seq<Move>): seq<Entry> {
    if run == [] then []
    else PushesOf(run[..|run| - 1]) + (if run[|run| - 1].In? then [run[|run| - 1].entry] else [])
  }

  function PopsOf(run: seq<Move>): seq<Entry> {
    if run == [] then []
    else PopsOf(run[..|run| - 1]) + (if run[|run| - 1].Out? then [run[|run| - 1].entry] else [])
  }

  /** From an empty heap the calls lead to these entries; the n-th push carries the n-th sequence key. */
  ghost predicate SequencedRun(run: seq<Move>, held: multiset<Entry>)
    decreases |run|
  {
    if run == [] then held == multiset{}
    else
      var front, last := run[..|run| - 1], run[|run| - 1];
      && (last.In? ==> |PushesOf(front)| < 0x1_0000_0000_0000_0000 && last.entry.key == SequenceKey(|PushesOf(front)|))
      && exists before :: SequencedRun(front, before) && Moves(before, last, held)
  }

  /** Tasks in order of arrival, all with larger keys than the next one gets. */
  ghost predicate Numbered(q: seq<Entry>) {
    Arrivals(q) && (|q| < 0x1_0000_0000_0000_0000 ==> forall e :: e in q ==> e.key > SequenceKey(|q|))
  }

  lemma PushLast(q: seq<Entry>, k: nat, e: Entry)
    requires Numbered(q) && k <= |q| < 0x1_0000_0000_0000_0000 && e.key == SequenceKey(|q|)
    ensures Numbered(q + [e]) && multiset((q + [e])[k..]) == multiset(q[k..]) + multiset{e}
  {
    ArrivalAppends(q, |q|, e.task);
    assert (q + [e])[k..] == q[k..] + [e];
  }

  lemma PopFirst(q: seq<Entry>, k: nat, top: Entry, rest: multiset<Entry>)
    requires Arrivals(q) && k <= |q| && Moves(multiset(q[k..]), Out(top), rest)
    ensures k < |q| && top == q[k] && rest == multiset(q[k + 1..])
  {
    var r := q[k..];
    assert top in r && forall e :: e in r ==> e in multiset(r);
    assert forall i :: 0 <= i < |r| ==> r[i] == q[k + i];
    PopIsFifo(r, top, rest);
    assert r[1..] == q[k + 1..];
  }

  /** Popped are the first tasks pushed, in the order of the pushes; the heap holds the others. */
  ghost predicate Fifo(pushes: seq<Entry>, pops: seq<Entry>, held: multiset<Entry>) {
    pops <= pushes && Numbered(pushes) && held == multiset(pushes[|pops|..])
  }

  lemma FifoIn(pushes: seq<Entry>, pops: seq<Entry>, held: multiset<Entry>, e: Entry, held': multiset<Entry>)
    requires Fifo(pushes, pops, held) && Moves(held, In(e), held')
    requires |pushes| < 0x1_0000_0000_0000_0000 && e.key == SequenceKey(|pushes|)
    ensures Fifo(pushes + [e], pops, held')
  {
    hide Numbered;
    PushLast(pushes, |pops|, e);
  }

  lemma FifoOut(pushes: seq<Entry>, pops: seq<Entry>, held: multiset<Entry>, top: Entry, rest: multiset<Entry>)
    requires Fifo(pushes, pops, held) && Moves(held, Out(top), rest)
    ensures Fifo(pushes, pops + [top], rest)
  {
    NumberedArrives(pushes);
    hide Numbered, Arrivals;
    PopFirst(pushes, |pops|, top, rest);
    hide Moves;
  }

  lemma NumberedArrives(q: seq<Entry>)
    requires Numbered(q)
    ensures Arrivals(q)
  {
  }

  lemma Unfolded(run: seq<Move>, last: Move)
    requires run != [] && last == run[|run| - 1]
    ensures PushesOf(run) == if last.In? then PushesOf(run[..|run| - 1]) + [last.entry] else PushesOf(run[..|run| - 1])
    ensures PopsOf(run) == if last.Out? then PopsOf(run[..|run| - 1]) + [last.entry] else PopsOf(run[..|run| - 1])
  {
  }

  /** The heap with sequence keys is a first-in, first-out queue over every run of pushes and pops. */
  lemma {:induction false} FirstInFirstOut(run: seq<Move>, held: multiset<Entry>)
    requires SequencedRun(run, held)
    ensures Fifo(PushesOf(run), PopsOf(run), held)
    decreases |run|
  {
    if run != [] {
      hide Fifo, Moves, PushesOf, PopsOf;
      var front, last := run[..|run| - 1], run[|run| - 1];
      var before :| SequencedRun(front, before) && Moves(before, last, held);
      FirstInFirstOut(front, before);
      Unfolded(run, last);
      hide SequencedRun;
      if last.In? {
        FifoIn(PushesOf(front), PopsOf(front), before, last.entry, held);
      } else {
        FifoOut(PushesOf(front), PopsOf(front), before, last.entry, held);
      }
    }
  }
}
